/** Where the operator promises less than one might expect, and exactly when. */
module Limits {
  import opened Types
  import opened Store
  import opened Goals
  import opened Protocol
  import opened ClusterApi
  import opened Controller
  import opened Reconciliation
  import opened Runs
  import Convergence
  import Routes

  /* ------------------------------------------------ users' secrets are adopted */

  /** Somebody besides the relocation owns the object. */
  predicate OwnedByOthers(s: State, k: Key) {
    k in s.objs && s.objs[k].owners.before + s.objs[k].owners.after != []
  }

  /** A user or the operator deletes this secret. */
  predicate Deletes(e: Event, k: Key) {
    match e
    case EnvEvent(a) => a.DeleteSecret? && a.key == k
    case OpEvent(w) => w == Del(k)
  }

  lemma StepLeavesSecret(s: State, e: Event, k: Key)
    requires Legal(s, e) && UserKey(k) && OwnedByOthers(s, k) && !Deletes(e, k)
    ensures OwnedByOthers(Step(s, e), k)
  {
    hide EnvCrs, CrsAfter, InPlaceFirm, Stripped, Pinned, Applying, Finalising, Successful, Renews, Sound, Alive;
  }

  /** A user's secret that the operator has taken ownership of survives the CR, and the next one, if it has another owner:
      the garbage collector takes it in no run. */
  lemma {:induction false} SecretOfOthersSurvives(states: seq<State>, events: seq<Event>, i: nat, j: nat, k: Key)
    requires Run(states, events) && i <= j < |states|
    requires UserKey(k) && OwnedByOthers(states[i], k)
    requires forall l :: i <= l < j ==> !Deletes(events[l], k)
    ensures OwnedByOthers(states[j], k) && Firm(states[j], k)
  {
    hide Step, Legal, OwnedByOthers;
    if i < j {
      SecretOfOthersSurvives(states, events, i, j - 1, k);
      RunStep(states, events, j - 1);
      StepLeavesSecret(states[j - 1], events[j - 1], k);
    }
    StillThere(states[j], k);
  }

  lemma StillThere(s: State, k: Key)
    requires OwnedByOthers(s, k)
    ensures Firm(s, k)
  {
    var o := s.objs[k].owners;
    assert o.before != [] || o.after != [];
  }

  /** Without another owner it is lost with the CR that has taken ownership of it, whether or not there is a new one. */
  lemma SecretOfNobodyIsLost(s: State, k: Key)
    requires Inv(s) && UserKey(k) && CrOwned(s, k) && !Alive(s, s.objs[k].owners.cr.value.uid)
    ensures Firm(s, k) <==> OwnedByOthers(s, k)
    ensures !OwnedByOthers(s, k) ==> EnvEnabled(s, Collect(k)) && k !in EnvStep(s, Collect(k)).objs
  {
    hide Inv;
    if OwnedByOthers(s, k) { StillThere(s, k); }
  }

  /* --------------------------------------------- certificates named in place */

  lemma InPlaceLicence(s: State, k: Key)
    requires Applying(s) && s.active.Some? && s.active.value.spec.InPlace(k) && UserKey(k) && (s.inPlaceSafe ==> Firm(s, k))
    ensures Licence(s, Put(ApiServer, ApiBodyFor(s.active.value.spec), false))
  {
    hide Applying, Firm;
  }

  /** No pass takes ownership of an API certificate that the spec names in openshift-config. If it still belongs to an
      earlier CR that is gone, the garbage collector may take it after the API server has come to name it: it is missing
      then if and only if it awaited garbage collection when it was named. */
  lemma InPlaceDangles(s: State, k: Key)
    requires Applying(s) && s.active.Some? && s.active.value.spec.InPlace(k) && UserKey(k) && k in s.objs && (s.inPlaceSafe ==> Firm(s, k))
    ensures Licence(s, Put(ApiServer, ApiBodyFor(s.active.value.spec), false))
    ensures var after := EnvStep(Effect(s, Put(ApiServer, ApiBodyFor(s.active.value.spec), false)), Collect(k));
      Referenced(after, k) && (k !in after.objs <==> !Firm(s, k))
  {
    hide InPlaceFirm, Applying, Licence;
    InPlaceLicence(s, k);
    var named := Effect(s, Put(ApiServer, ApiBodyFor(s.active.value.spec), false));
    var after := EnvStep(named, Collect(k));
    assert NamedCerts(after)[0].secret == k.name;
  }

  /* ------------------------------------------ deletion with the annotation on */

  /** A finalization with the annotation "self-destruct" undoes nothing, and so relies on the deletion to orphan what the
      operator owns: that is the deletion which the operator requests itself. After one in the background the operator's
      objects await collection while the configuration still names them. */
  lemma SelfDestructNeedsOrphaning(s: State, k: Key, orphaning: bool)
    requires Inv(s) && s.active.None? && ClusterName in s.crs
    requires s.crs[ClusterName].SelfDestructs() && s.crs[ClusterName].finalizers == {RelocationFinalizer}
    requires OperatorOnly(k) && CrOwned(s, k) && s.objs[k].owners.cr.value.uid == s.crs[ClusterName].uid
    ensures var cr := if orphaning then Orphaning(s.crs[ClusterName]) else MarkDeleted(s.crs[ClusterName]);
      var begun := Effect(s.(crs := Stored(s.crs, cr)), Begin(ClusterName));
      var gone := Effect(begun, RemoveFinalizer);
      && Licence(begun, RemoveFinalizer)
      && gone.objs == s.objs
      && (Firm(gone, k) <==> orphaning)
  {
    hide Inv, Effect, Licence;
    var cr := if orphaning then Orphaning(s.crs[ClusterName]) else MarkDeleted(s.crs[ClusterName]);
    var t := s.(crs := Stored(s.crs, cr));
    NamesMatch(s);
    assert WithoutFinalizer(cr).finalizers == if orphaning then {OrphanFinalizer} else {};
    BeginFinalization(t, cr);
    FinalizerGoes(Effect(t, Begin(ClusterName)), cr);
    assert s.objs[k].owners.before == [] && s.objs[k].owners.after == [] by { OwnedAlone(s, k); }
  }

  lemma BeginFinalization(t: State, cr: Relocation)
    requires t.active.None? && ClusterName in t.crs && t.crs[ClusterName] == cr && cr.deleting
    ensures Licence(t, Begin(ClusterName))
    ensures var begun := Effect(t, Begin(ClusterName));
      begun.objs == t.objs && begun.crs == t.crs && begun.active == Some(cr)
  {
  }

  lemma FinalizerGoes(t: State, cr: Relocation)
    requires t.active == Some(cr) && cr.name == ClusterName && cr.deleting && cr.SelfDestructs()
    requires ClusterName in t.crs && t.crs[ClusterName] == cr
    ensures Licence(t, RemoveFinalizer)
    ensures var gone := Effect(t, RemoveFinalizer);
      gone.objs == t.objs && gone.crs == Stored(t.crs, WithoutFinalizer(cr))
  {
  }

  lemma OwnedAlone(s: State, k: Key)
    requires Inv(s) && OperatorOnly(k) && k in s.objs
    ensures s.objs[k].owners.before == [] && s.objs[k].owners.after == []
  {
  }

  /* ----------------------------------------------- finalizing under any name */

  /** A finalization does not look at the name. Deleting a CR of another name that carries the finalizer resets the whole
      configuration, while the CR "cluster" is there, as it was, with its Reconciled=True. */
  method AnyNameRestores(r: Reconciler, name: CrName) returns (passes: nat)
    requires r.client.Valid() && r.client.st.active.None? && r.client.Faultless()
    requires name != ClusterName && name in r.client.st.crs
    requires r.client.st.crs[name].deleting && r.client.st.crs[name].Guarded() && !r.client.st.crs[name].SelfDestructs()
    modifies r, r.client
    ensures r.client.Valid() && r.client.Since(old(r.client.states), old(r.client.events))
    ensures passes == |Routes.MultiStale(old(r.client.st), AppsHost(old(r.client.st).baseDomain))| + 1
    ensures name in r.client.st.crs ==> !r.client.st.crs[name].Guarded()
    ensures OthersKept(old(r.client.st), r.client.st, Restorable(), old(r.client.st).crs[name])
    ensures forall n :: n != name && n in old(r.client.st).crs ==> n in r.client.st.crs && r.client.st.crs[n] == old(r.client.st).crs[n]
    ensures !Dirty(r.client.st)
    ensures LIVE in r.client.st.objs && r.client.st.objs[LIVE].body == r.client.st.original
  {
    hide Run, Routes.MultiStale, Dirty;
    NamesMatch(r.client.st) by { Invariant(r.client); }
    passes := Convergence.Retire(r, name);
  }

  lemma Invariant(c: Cluster)
    requires c.Valid()
    ensures Inv(c.st)
  {
  }
}
