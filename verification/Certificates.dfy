/** How often a generated key pair changes. */
module Certificates {
  import opened Types
  import opened Store
  import opened Goals
  import opened Protocol
  import opened Preservation
  import opened Runs

  /** The pair in a secret, if the secret exists. */
  function Pair(s: State, k: Key): Option<Data> {
    if k in s.objs then Some(DataOf(s.objs[k].body)) else None
  }

  predicate IsGenerated(k: Key) { k == GENERATED_API || k == GENERATED_INGRESS }

  /** A pass on the CR "cluster" that is past the gate: no other pass may write a key pair. */
  predicate Working(s: State) {
    s.active.Some? && s.active.value.name == ClusterName && !s.active.value.deleting && s.active.value.Gated()
  }

  /** The domain that the running pass on the CR "cluster" works for, or else the last one did. */
  function LastDomain(states: seq<State>, n: nat): Option<string>
    requires n < |states|
  {
    if Working(states[n]) then Some(states[n].active.value.spec.domain)
    else if n == 0 then None else LastDomain(states, n - 1)
  }

  /** How often the domain that passes work for has changed. */
  function Moves(states: seq<State>, n: nat): nat
    requires n < |states|
  {
    if n == 0 then 0
    else Moves(states, n - 1) + if LastDomain(states, n - 1).Some? && LastDomain(states, n) != LastDomain(states, n - 1) then 1 else 0
  }

  /** How often the stored pair has changed. */
  function Renewals(states: seq<State>, k: Key, n: nat): nat
    requires n < |states|
  {
    if n == 0 then 0 else Renewals(states, k, n - 1) + if Pair(states[n], k) != Pair(states[n - 1], k) then 1 else 0
  }

  /** The name that the pair is to have for a domain. */
  function NameFor(k: Key, domain: string): string {
    if k == GENERATED_API then ApiHost(domain) else WildcardHost(domain)
  }

  /** The stored pair is for the domain that the last pass worked for. */
  predicate Fits(states: seq<State>, k: Key, n: nat)
    requires n < |states|
  {
    LastDomain(states, n).Some? && HasPair(states[n], k, NameFor(k, LastDomain(states, n).value))
  }

  /** A step changes a stored pair only in a pass for a domain that the pair does not fit, and then the new one does. */
  lemma PairChanges(s: State, e: Event, k: Key)
    requires Legal(s, e) && IsGenerated(k)
    requires k in Step(s, e).objs && Pair(Step(s, e), k) != Pair(s, k)
    ensures e.OpEvent? && Working(s) && Step(s, e).active == s.active
    ensures var name := NameFor(k, s.active.value.spec.domain);
      !HasPair(s, k, name) && HasPair(Step(s, e), k, name)
  {
    hide Applying, Finalising, Successful, DelLicence, CrsAfter;
    if e.EnvEvent? { EnvCreatesNothing(s, e.action, k); } else { OnlyPutsChange(s, e.write, k); }
  }

  lemma OnlyPutsChange(s: State, w: Write, k: Key)
    requires k in Effect(s, w).objs && Pair(Effect(s, w), k) != Pair(s, k) && IsGenerated(k)
    requires Licence(s, w)
    ensures w.Put? && w.key == k && Effect(s, w).objs[k].body == w.body && Working(s)
    ensures Renews(s, k, w.body)
  {
    hide Finalising, Successful, Renews, CrsAfter;
  }

  /** A pair that is never deleted changes at most once more often than the domain does. */
  lemma {:induction false} RenewalsAreBounded(states: seq<State>, events: seq<Event>, k: Key, n: nat)
    requires Run(states, events) && n < |states| && IsGenerated(k)
    requires forall i :: 0 <= i < n && k in states[i].objs ==> k in states[i + 1].objs
    ensures Renewals(states, k, n) <= Moves(states, n) + if Fits(states, k, n) then 1 else 0
  {
    hide Legal, Step, HasPair, NameFor;
    if n > 0 {
      RenewalsAreBounded(states, events, k, n - 1);
      if Pair(states[n], k) != Pair(states[n - 1], k) {
        assert k in states[n].objs;
        PairChanges(states[n - 1], events[n - 1], k);
      } else {
        SamePairFits(states[n - 1], states[n], k);
      }
    }
  }

  lemma SamePairFits(s: State, t: State, k: Key)
    requires Pair(s, k) == Pair(t, k)
    ensures forall name :: HasPair(s, k, name) <==> HasPair(t, k, name)
  {
  }

  /** When a pass stores a new Reconciled=True over a generated ingress certificate, the consumers in both namespaces read
      the same pair, and it is for the domain of the observed generation. */
  lemma SamePairInBothNamespaces(states: seq<State>, events: seq<Event>, i: nat)
    requires History(states, events) && i < |events|
    requires ClusterName in states[i + 1].crs && IsTrue(states[i + 1].crs[ClusterName])
    requires ClusterName in states[i].crs ==> states[i].crs[ClusterName].reconciled != states[i + 1].crs[ClusterName].reconciled
    requires states[i + 1].crs[ClusterName].spec.ingressCert.None?
    ensures var domain := states[i + 1].crs[ClusterName].spec.domain;
      && DefaultCert(states[i]) == Some(GeneratedIngressSecret)
      && (forall r :: r in ComponentRoutes(states[i]) ==> r.secret == GeneratedIngressSecret)
      && Pair(states[i], GENERATED_INGRESS).Some? && Pair(states[i], GENERATED_INGRESS_COPY) == Pair(states[i], GENERATED_INGRESS)
      && HasPair(states[i], GENERATED_INGRESS, WildcardHost(domain)) && HasPair(states[i], GENERATED_INGRESS_COPY, WildcardHost(domain))
  {
    hide Run, Init, DnsDone, SshDone, RegistryDone, MirrorDone, PullDone, CatalogDone, ApiDone, HoldsCopy, ReadAvailable;
    StatusIsTruthful(states, events, i, ClusterName);
  }
}
