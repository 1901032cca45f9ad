/** internal/acm: registration to the ACM hub. The credential goes once the Klusterlet is Available. */
module Acm {
  import opened Types
  import opened Store
  import opened Goals
  import opened Protocol
  import opened Preservation
  import opened Fixpoints
  import opened ClusterApi
  import opened Secrets
  import opened Manifests
  import ApiServers
  import Client

  /** The five minutes of both wait loops, in seconds. */
  const TIMEOUT := 300

  function Credential(cr: Relocation): Key
    requires cr.spec.acm.Some?
  {
    cr.spec.acm.value.secret.Key()
  }

  /** A pass that has gone through the API server and the ingress. */
  predicate Ready(s: State, cr: Relocation) {
    Applying(s) && s.active == Some(cr) && ApiDone(s, cr.spec) && IngressDone(s, cr.spec)
  }

  lemma ReadyKept(s: State, t: State, cr: Relocation)
    requires Steady(s, t, NOTHING) && Ready(s, cr)
    ensures Ready(t, cr)
  {
    hide Steady, ApiDone, IngressDone, Applying;
    SteadyAuthority(s, t, NOTHING);
    SteadyKeepsApi(s, t, NOTHING, cr.spec);
    SteadyKeepsIngress(s, t, NOTHING, cr.spec);
  }

  predicate AcmSettled(s: State, cr: Relocation) {
    cr.spec.acm.Some? ==> s.klusterlet == Some(true) && Credential(cr) !in s.objs
  }

  predicate AcmFeasible(s: State, cr: Relocation) {
    cr.spec.acm.Some? ==> s.klusterlet == Some(true)
  }

  /** The credential and the manifests. */
  ghost function AcmKeys(cr: Relocation): iset<Key> {
    iset k: Key | k.Manifest? || (cr.spec.acm.Some? && k == Credential(cr))
  }

  /* ------------------------------------------------------ the credential */

  /** Nothing names the credential: the references are those of the spec, and those are other secrets. */
  lemma CredentialUnused(s: State, cr: Relocation)
    requires Ready(s, cr) && cr.spec.acm.Some? && cr.spec.WellFormed()
    ensures !Pinned(s, Credential(cr)) && UserKey(Credential(cr))
  {
    hide Applying;
    var k := Credential(cr);
    assert !Referenced(s, k);
  }

  lemma CredentialLicence(s: State, cr: Relocation)
    requires Inv(s) && Ready(s, cr) && cr.spec.acm.Some? && s.seenAvailable
    ensures Licence(s, Del(Credential(cr))) && UserKey(Credential(cr))
  {
    hide Applying, Pinned, ApiDone, IngressDone;
    ReferencesWellFormed(s);
    CredentialUnused(s, cr);
  }

  /** The same, apart from what the pass knows of the Klusterlet. */
  predicate SameButSeen(s: State, t: State) {
    t == s.(seenAvailable := t.seenAvailable)
  }

  /** nil if the Klusterlet is Available; the credential is then gone as well. */
  method CheckKlusterlet(c: Cluster, cr: Relocation) returns (ok: bool)
    requires c.Valid() && Ready(c.st, cr) && cr.spec.acm.Some?
    modifies c
    ensures c.Went(NOTHING) && Ready(c.st, cr) && c.Puts() == old(c.Puts())
    ensures ok ==> c.SawAvailable() && c.st.seenAvailable && Credential(cr) !in c.st.objs
    // whatever the result, a deletion comes after the Klusterlet was Available
    ensures c.Drops() == old(c.Drops()) || c.SawAvailable()
    ensures old(c.Calm()) ==> Quiet(old(c.st), c.st, AcmKeys(cr))
    ensures old(c.Calm()) ==> SameButSeen(old(c.st), c.st)
                              || (old(c.st).klusterlet == Some(true) && SameButSeen(Without(old(c.st), {Credential(cr)}), c.st))
    ensures old(c.Calm()) && ok ==> AcmSettled(c.st, cr) && SameButSeen(Without(old(c.st), {Credential(cr)}), c.st)
    ensures old(c.Calm()) && ok ==> old(c.st).klusterlet == Some(true)
    ensures old(c.Calm()) && AcmSettled(old(c.st), cr) ==> c.Kept()
    ensures old(c.Faultless()) ==> ok == AcmFeasible(old(c.st), cr)
    ensures old(c.Prompt()) ==> c.now == old(c.now)
    ensures c.Looks() == old(c.Looks()) + 1
  {
    hide Run, Inv, Steady, Quiet, Licence, Ready, Effect;
    var r := c.GetKlusterlet();
    ReadyKept(old(c.st), c.st, cr);
    SeenIsQuiet(old(c.st), c.st, AcmKeys(cr));
    if r != Ok(true) { return false; }
    c.LastState();
    ghost var before := c.st;
    ok := DropCredential(c, cr);
    Join(old(c.st), before, c.st, NOTHING, NOTHING, NOTHING);
    Join(old(c.st), before, c.st, AcmKeys(cr), AcmKeys(cr), AcmKeys(cr));
    QuietKeepsKlusterlet(before, c.st, AcmKeys(cr));
    SeenCommutes(old(c.st), before, Credential(cr));
  }

  lemma SeenIsQuiet(s: State, t: State, f: iset<Key>)
    ensures SameButSeen(s, t) ==> Quiet(s, t, f)
  {
  }

  lemma SeenCommutes(s: State, t: State, k: Key)
    ensures SameButSeen(s, t) ==> SameButSeen(Without(s, {k}), Without(t, {k}))
  {
  }

  /** The delete of the credential; content if it is gone already. */
  method DropCredential(c: Cluster, cr: Relocation) returns (ok: bool)
    requires c.Valid() && Ready(c.st, cr) && cr.spec.acm.Some? && c.st.seenAvailable
    modifies c
    ensures c.Went(NOTHING) && Ready(c.st, cr) && c.st.seenAvailable && c.Puts() == old(c.Puts())
    ensures ok ==> Credential(cr) !in c.st.objs
    ensures old(c.Calm()) ==> Quiet(old(c.st), c.st, AcmKeys(cr))
    ensures old(c.Calm()) ==> c.st == old(c.st) || c.st == Without(old(c.st), {Credential(cr)})
    ensures old(c.Calm()) && ok ==> c.st == Without(old(c.st), {Credential(cr)})
    ensures old(c.Calm()) && Credential(cr) !in old(c.st).objs ==> c.st == old(c.st)
    ensures old(c.Faultless()) ==> ok
    ensures old(c.Prompt()) ==> c.now == old(c.now)
    ensures c.Looks() == old(c.Looks())
  {
    hide Run, Inv, Steady, Quiet, Licence, Ready, Effect;
    var k := Credential(cr);
    CredentialLicence(c.st, cr);
    WriteIsQuiet(c.st, Del(k));
    Client.DeleteIsWithout(c.st, k);
    Client.AbsentIsWithout(c.st, k);
    Stay(c.st, AcmKeys(cr));
    var sent := c.Send(Del(k));
    Client.ForeignFootprint(old(c.st), c.st, k);
    ReadyKept(old(c.st), c.st, cr);
    Widen(old(c.st), c.st, iset{k}, AcmKeys(cr));
    AvailabilityKept(old(c.st), c.st);
    ok := !sent.Failed?;
  }

  lemma AvailabilityKept(s: State, t: State)
    requires Steady(s, t, NOTHING) && s.seenAvailable
    ensures t.seenAvailable
  {
  }

  lemma QuietKeepsKlusterlet(s: State, t: State, f: iset<Key>)
    ensures Quiet(s, t, f) ==> t.klusterlet == s.klusterlet && t.active == s.active
  {
  }

  /* ------------------------------------------------------ the certificate */

  function TlsCert(b: Body): Option<Bytes> {
    if b.SecretBody? && TlsCrt in b.data then Some(b.data[TlsCrt]) else None
  }

  /** The certificate that the API server serves for the new domain. */
  predicate Serves(s: State, sp: Spec, ca: Option<Bytes>) {
    && NamedCerts(s) == [NamedCert([ApiHost(sp.domain)], ApiSecret(sp))]
    && ApiServers.ApiKey(sp) in s.objs
    && var secret := s.objs[ApiServers.ApiKey(sp)].body;
    ca == if secret.SecretBody? && TlsCrt in secret.data then Some(secret.data[TlsCrt]) else None
  }

  lemma ServesDomain(s: State, cr: Relocation)
    requires Ready(s, cr)
    ensures ApiServer in s.objs && NamedCerts(s) == [NamedCert([ApiHost(cr.spec.domain)], ApiSecret(cr.spec))]
  {
    hide Applying, ApiPairDone, ApiCopyDone, IngressDone;
  }

  /** The last named certificate whose first name is the API host gives the CA bundle. The first name exists: the operator
      writes no entry without names. */
  method FindCaBundle(c: Cluster, cr: Relocation) returns (ok: bool, ca: Option<Bytes>)
    requires c.Valid() && Ready(c.st, cr)
    modifies c
    ensures c.Looked() && Ready(c.st, cr)
    ensures ok ==> Serves(c.st, cr.spec, ca)
    ensures old(c.Calm()) ==> c.st == old(c.st)
    ensures old(c.Faultless()) ==> ok == (ApiServers.ApiKey(cr.spec) in old(c.st).objs)
  {
    hide Run, Inv, Steady, Applying, ApiDone, IngressDone, Licence;
    var r := c.Get(ApiServer);
    ReadyKept(old(c.st), c.st, cr);
    ServesDomain(c.st, cr);
    ca := None;
    if !r.Ok? { return false, ca; }
    var named := r.value.body.named;
    assert named == [NamedCert([ApiHost(cr.spec.domain)], ApiSecret(cr.spec))];
    ghost var read := c.st;
    for i := 0 to |named|
      invariant c.Looked() && Ready(c.st, cr)
      invariant i > 0 ==> Serves(c.st, cr.spec, ca)
      invariant old(c.Faultless()) && i > 0 ==> ApiServers.ApiKey(cr.spec) in old(c.st).objs
      invariant old(c.Calm()) ==> c.st == old(c.st)
    {
      if named[i].names[0] == ApiHost(cr.spec.domain) {
        ghost var before := c.st;
        var secret := c.Get(SecretKey(OpenshiftConfig, named[i].secret));
        ReadyKept(before, c.st, cr);
        ServesDomain(c.st, cr);
        SteadyJoin(old(c.st), before, c.st, NOTHING, NOTHING, NOTHING);
        if !secret.Ok? { return false, ca; }
        ca := TlsCert(secret.value.body);
      }
    }
    ok := true;
  }

  /** The ManagedCluster that the spec asks for, with this base domain and CA bundle. */
  function ManagedCluster(cr: Relocation, baseDomain: string, ca: Option<Bytes>): HubCluster
    requires cr.spec.acm.Some?
  {
    var acm := cr.spec.acm.value;
    HubCluster(acm.clusterName, if acm.managedClusterSet.Some? then acm.managedClusterSet.value else "default",
               "https://api." + cr.spec.domain + ":6443", ca, "https://api." + baseDomain + ":6443")
  }

  /** The request is for the cluster of the spec. Its first client configuration has the first name of the certificate that
      the API server served, in some state from this point on, and that certificate as its CA bundle; the second one has
      the base domain. */
  ghost predicate Announced(ss: seq<State>, from: nat, cr: Relocation, mc: HubCluster)
    requires cr.spec.acm.Some?
  {
    && mc.name == cr.spec.acm.value.clusterName
    && mc.clusterSet == (match cr.spec.acm.value.managedClusterSet case Some(name) => name case None => "default")
    && (exists i :: from <= i + 1 && 0 <= i < |ss| && Serves(ss[i], cr.spec, mc.caBundle)
                    && mc.url == "https://" + NamedCerts(ss[i])[0].names[0] + ":6443")
    && (exists i :: from <= i + 1 && 0 <= i < |ss| && mc.secondUrl == "https://api." + ss[i].baseDomain + ":6443")
  }

  /** What was announced in a part of a run was announced in the whole. */
  lemma AnnouncedWithin(ss: seq<State>, from: nat, tt: seq<State>, earlier: nat, cr: Relocation)
    requires cr.spec.acm.Some? && ss <= tt && earlier <= from
    ensures forall mc :: Announced(ss, from, cr, mc) ==> Announced(tt, earlier, cr, mc)
  {
    hide Serves, ManagedCluster;
  }

  lemma AnnouncesSpec(ss: seq<State>, from: nat, i: nat, j: nat, tt: seq<State>, cr: Relocation, ca: Option<Bytes>)
    requires cr.spec.acm.Some? && from <= i + 1 && from <= j + 1 && i < |ss| && j < |ss| && ss <= tt && Serves(ss[i], cr.spec, ca)
    ensures Announced(tt, from, cr, ManagedCluster(cr, ss[j].baseDomain, ca))
  {
    assert "https://" + ApiHost(cr.spec.domain) + ":6443" == "https://api." + cr.spec.domain + ":6443";
    assert Serves(tt[i], cr.spec, ca) && tt[j] == ss[j];
  }

  /** Announce the cluster to the hub. A hub that forbids it, or has it already, is no error. */
  method Announce(c: Cluster, cr: Relocation) returns (ok: bool)
    requires c.Valid() && Ready(c.st, cr) && cr.spec.acm.Some?
    modifies c
    ensures c.Moved(NOTHING) && Ready(c.st, cr) && c.Puts() == old(c.Puts()) && c.Drops() == old(c.Drops())
    ensures c.hub == old(c.hub) || (|c.hub| == |old(c.hub)| + 1 && Announced(c.states, |old(c.states)|, cr, c.hub[|old(c.hub)|]))
    ensures ok ==> |c.hub| == |old(c.hub)| + 1
    ensures old(c.Calm()) ==> c.st == old(c.st)
    ensures old(c.Faultless()) && ApiServers.ApiKey(cr.spec) in old(c.st).objs ==>
              |c.hub| == |old(c.hub)| + 1 && (old(c.Willing()) ==> ok)
  {
    hide Run, Inv, Steady, Ready, Licence, Tally, Serves, Announced, ManagedCluster;
    var ca;
    ok, ca := FindCaBundle(c, cr);
    if !ok { return; }
    ghost var found, at := c.st, |c.states| - 1;
    c.LastState();
    var base := c.GetBaseDomain();
    ReadyKept(found, c.st, cr);
    SteadyJoin(old(c.st), found, c.st, NOTHING, NOTHING, NOTHING);
    c.LastState();
    if !base.Ok? { return false; }
    ghost var asked, seen := c.st, c.states;
    var reply := c.HubCreate(ManagedCluster(cr, base.value, ca));
    AnnouncesSpec(seen, |old(c.states)|, at, |seen| - 1, c.states, cr, ca);
    ReadyKept(asked, c.st, cr);
    SteadyJoin(old(c.st), asked, c.st, NOTHING, NOTHING, NOTHING);
    ok := reply.HubOk? || reply.HubForbidden? || reply.HubExists?;
  }

  /* -------------------------------------------------------- the wait loops */

  datatype Import = Imported(crds: seq<Document>, manifests: seq<Document>) | TimedOut | Refused

  /** The hub has handed out these documents in this stretch of the run. */
  twostate predicate HandedOut(c: Cluster, crds: seq<Document>, manifests: seq<Document>)
    reads c
  {
    exists t: nat :: old(c.tick) <= t < c.tick && c.turns(t).hub == HubOk(crds, manifests)
  }

  /** The hub takes its time to create the import secret: at most 31 requests in five minutes. */
  method ImportSecret(c: Cluster, cluster: string) returns (r: Import, gets: nat)
    requires c.Valid()
    modifies c
    ensures c.Looked() && c.Looks() == old(c.Looks()) + gets
    ensures r.Imported? ==> Answered(old(c.events), c.events, ImportSecretOf(cluster))
    ensures old(c.Faultless()) && old(c.Willing()) ==>
              r == Imported(old(c.turns(c.tick).hub.crds), old(c.turns(c.tick).hub.manifests)) && gets == 1
    ensures old(c.Calm()) ==> c.st == old(c.st)
    ensures r.Imported? ==> HandedOut(c, r.crds, r.manifests)
    ensures gets <= 31 && (r.TimedOut? && old(c.Prompt()) ==> gets == 31 && c.now == old(c.now) + 310)
  {
    hide Run, Inv, Steady, Licence, Answered, Tally;
    var start := c.now;
    gets := 0;
    SteadyReflexive(c.st);
    while true
      invariant c.Looked() && c.Looks() == old(c.Looks()) + gets
      invariant old(c.Calm()) ==> c.st == old(c.st)
      invariant gets == 0 ==> c.tick == old(c.tick)
      invariant old(c.Faultless()) && old(c.Willing()) ==> gets == 0
      invariant 10 * gets <= c.now - start && (gets > 0 ==> c.now - start <= TIMEOUT)
      invariant old(c.Prompt()) ==> c.now - start == 10 * gets
      decreases 31 - gets
    {
      ghost var before, past := c.st, c.events;
      var reply := c.HubCall(ImportSecretOf(cluster));
      gets := gets + 1;
      AnswersGrow(old(c.events), past, c.events);
      SteadyJoin(old(c.st), before, c.st, NOTHING, NOTHING, NOTHING);
      match reply {
        case HubOk(crds, manifests) => return Imported(crds, manifests), gets;
        case HubNotFound | HubForbidden =>
          before := c.st;
          c.Sleep();
          SteadyJoin(old(c.st), before, c.st, NOTHING, NOTHING, NOTHING);
          if c.now - start > TIMEOUT { return TimedOut, gets; }
        case _ => return Refused, gets;
      }
    }
  }

  lemma SeenTwice(s: State, t: State, u: State)
    ensures SameButSeen(s, t) ==> t.klusterlet == s.klusterlet && t.objs == s.objs && (SameButSeen(t, u) ==> SameButSeen(s, u))
    ensures SameButSeen(s, t) ==> t == s.(seenAvailable := t.seenAvailable)
  {
  }

  /** One check more: the object is still there, or gone by now. */
  lemma CheckedAgain(s: State, t: State, u: State, k: Key)
    requires SameButSeen(s, t) || SameButSeen(Without(s, {k}), t)
    ensures SameButSeen(t, u) || SameButSeen(Without(t, {k}), u) ==> SameButSeen(s, u) || SameButSeen(Without(s, {k}), u)
    ensures SameButSeen(Without(t, {k}), u) ==> SameButSeen(Without(s, {k}), u)
  {
    GoneToo(s, {k}, k);
    assert {k} + {k} == {k};
    SeenCommutes(s, t, k);
    SeenCommutes(Without(s, {k}), t, k);
  }

  lemma UntouchedKlusterlet(s: State, ks: set<Key>)
    ensures Without(s, ks).klusterlet == s.klusterlet
  {
  }

  /** All that waiting has done to a cluster in which nobody else acts. */
  ghost predicate Waited(s: State, t: State, cr: Relocation)
    requires cr.spec.acm.Some?
  {
    && Quiet(s, t, AcmKeys(cr))
    && (SameButSeen(s, t) || (s.klusterlet == Some(true) && SameButSeen(Without(s, {Credential(cr)}), t)))
  }

  lemma WaitedNot(s: State, cr: Relocation)
    requires cr.spec.acm.Some?
    ensures Waited(s, s, cr)
  {
    Stay(s, AcmKeys(cr));
  }

  /** One check more. */
  lemma WaitedOn(s: State, t: State, u: State, cr: Relocation)
    requires cr.spec.acm.Some? && Waited(s, t, cr) && Waited(t, u, cr)
    ensures Waited(s, u, cr) && s.klusterlet == t.klusterlet
    ensures SameButSeen(Without(t, {Credential(cr)}), u) ==> SameButSeen(Without(s, {Credential(cr)}), u)
  {
    hide Quiet, Without, SameButSeen;
    Join(s, t, u, AcmKeys(cr), AcmKeys(cr), AcmKeys(cr));
    SeenTwice(s, t, u);
    SeenTwice(Without(s, {Credential(cr)}), t, u);
    assert Without(s, {Credential(cr)}).klusterlet == s.klusterlet by { UntouchedKlusterlet(s, {Credential(cr)}); }
    CheckedAgain(s, t, u, Credential(cr));
  }

  /** Between two checks. */
  method Pause(c: Cluster, cr: Relocation)
    requires c.Valid() && Ready(c.st, cr)
    modifies c
    ensures c.Looked() && Ready(c.st, cr) && c.Looks() == old(c.Looks())
    ensures old(c.Calm()) ==> c.st == old(c.st)
    ensures c.now >= old(c.now) + 10 && (old(c.Prompt()) ==> c.now == old(c.now) + 10)
  {
    hide Run, Inv, Steady, Ready, Licence;
    c.Sleep();
    ReadyKept(old(c.st), c.st, cr);
  }

  /** The same for the Klusterlet: at most 31 checks. */
  method AwaitKlusterlet(c: Cluster, cr: Relocation) returns (ok: bool, checks: nat)
    requires c.Valid() && Ready(c.st, cr) && cr.spec.acm.Some?
    modifies c
    ensures c.Went(NOTHING) && Ready(c.st, cr)
    ensures c.Puts() == old(c.Puts()) && (c.Drops() == old(c.Drops()) || c.SawAvailable())
    ensures ok ==> c.SawAvailable() && c.st.seenAvailable && Credential(cr) !in c.st.objs
    ensures old(c.Calm()) ==> Quiet(old(c.st), c.st, AcmKeys(cr))
    ensures old(c.Calm()) && ok ==> AcmSettled(c.st, cr) && SameButSeen(Without(old(c.st), {Credential(cr)}), c.st)
    ensures old(c.Calm()) && old(c.st).klusterlet != Some(true) ==> !ok && SameButSeen(old(c.st), c.st)
    ensures old(c.Faultless()) && old(c.st).klusterlet == Some(true) ==> ok && checks == 1
    ensures c.Looks() == old(c.Looks()) + checks
    ensures checks <= 31 && (!ok && old(c.Prompt()) ==> checks == 31 && c.now == old(c.now) + 310)
  {
    hide Run, Inv, Steady, Quiet, Licence, Ready, AcmSettled, SameButSeen, Without, AvailableIn, Tally;
    var start := c.now;
    checks := 0;
    SteadyReflexive(c.st);
    WaitedNot(c.st, cr);
    while true
      invariant c.Went(NOTHING) && Ready(c.st, cr)
      invariant old(c.Calm()) ==> Waited(old(c.st), c.st, cr)
      invariant c.Puts() == old(c.Puts()) && (c.Drops() == old(c.Drops()) || c.SawAvailable())
      invariant c.Looks() == old(c.Looks()) + checks
      invariant old(c.Faultless()) && old(c.st).klusterlet == Some(true) ==> checks == 0 && c.st == old(c.st)
      invariant 10 * checks <= c.now - start && (checks > 0 ==> c.now - start <= TIMEOUT)
      invariant old(c.Prompt()) ==> c.now - start == 10 * checks
      decreases 31 - checks
    {
      ghost var before, past := c.st, c.states;
      ok := CheckKlusterlet(c, cr);
      checks := checks + 1;
      AvailableStill(past, |old(c.states)|, c.states, |old(c.states)|);
      AvailableStill(c.states, |past|, c.states, |old(c.states)|);
      if old(c.Calm()) { WaitedOn(old(c.st), before, c.st, cr); }
      SteadyJoin(old(c.st), before, c.st, NOTHING, NOTHING, NOTHING);
      if ok { return; }
      before, past := c.st, c.states;
      Pause(c, cr);
      AvailableStill(past, |old(c.states)|, c.states, |old(c.states)|);
      SteadyJoin(old(c.st), before, c.st, NOTHING, NOTHING, NOTHING);
      if c.now - start > TIMEOUT { return; }
    }
  }

  /* --------------------------------------------------------- the manifests */

  function WithManifests(s: State, docs: seq<Document>): State {
    s.(objs := CreateAll(s.objs, docs))
  }

  /** The object existed in some state of the run from this point on. */
  ghost predicate Made(ss: seq<State>, from: nat, id: string) {
    exists j :: from <= j + 1 && 0 <= j < |ss| && Manifest(id) in ss[j].objs
  }

  ghost predicate AllMade(ss: seq<State>, from: nat, docs: seq<Document>) {
    forall i :: 0 <= i < |docs| && docs[i].Object? ==> Made(ss, from, docs[i].id)
  }

  lemma MadeLater(ss: seq<State>, tt: seq<State>, from: nat, earlier: nat, docs: seq<Document>)
    requires ss <= tt && earlier <= from
    ensures AllMade(ss, from, docs) ==> AllMade(tt, earlier, docs)
  {
    if AllMade(ss, from, docs) {
      forall i | 0 <= i < |docs| && docs[i].Object? ensures Made(tt, earlier, docs[i].id) {
        assert Made(ss, from, docs[i].id);
        var j :| from <= j + 1 && 0 <= j < |ss| && Manifest(docs[i].id) in ss[j].objs;
        assert tt[j] == ss[j];
      }
    }
  }

  lemma MadeToo(ss: seq<State>, from: nat, docs: seq<Document>, i: nat)
    requires i < |docs| && AllMade(ss, from, docs[..i]) && (docs[i].Object? ==> Made(ss, from, docs[i].id))
    ensures AllMade(ss, from, docs[..i + 1])
  {
    hide Made;
  }

  lemma MadeBoth(ss: seq<State>, from: nat, first: seq<Document>, second: seq<Document>)
    requires AllMade(ss, from, first) && AllMade(ss, from, second)
    ensures AllMade(ss, from, first + second)
  {
    hide Made;
  }

  /** Create one object; if it exists, it stays as it is. */
  method CreateManifest(c: Cluster, cr: Relocation, id: string, content: string) returns (ok: bool)
    requires c.Valid() && Ready(c.st, cr)
    modifies c
    ensures c.Went(NOTHING) && Ready(c.st, cr) && c.Puts() == old(c.Puts()) && c.Drops() == old(c.Drops())
    ensures ok ==> Made(c.states, |old(c.states)|, id)
    ensures old(c.Calm()) ==> c.st == old(c.st) || c.st == Effect(old(c.st), Create(Manifest(id), ManifestBody(content)))
    ensures old(c.Calm()) && ok ==> c.st == Effect(old(c.st), Create(Manifest(id), ManifestBody(content)))
    ensures old(c.Faultless()) ==> ok
  {
    hide Run, Inv, Steady, Licence, Ready, Effect;
    ManifestLicence(c.st, cr, id, content);
    var r := c.Send(Create(Manifest(id), ManifestBody(content)));
    Client.ForeignFootprint(old(c.st), c.st, Manifest(id));
    ReadyKept(old(c.st), c.st, cr);
    c.LastState();
    ok := r.Ok?;
  }

  /** Create what the documents describe, in order; what exists already stays as it is. */
  method ApplyManifests(c: Cluster, cr: Relocation, docs: seq<Document>) returns (ok: bool)
    requires c.Valid() && Ready(c.st, cr)
    modifies c
    ensures c.Went(NOTHING) && Ready(c.st, cr) && c.Puts() == old(c.Puts()) && c.Drops() == old(c.Drops())
    ensures ok ==> AllMade(c.states, |old(c.states)|, docs)
    ensures old(c.Calm()) ==> exists n :: 0 <= n <= |docs| && c.st == WithManifests(old(c.st), docs[..n])
    ensures old(c.Calm()) && ok ==> c.st == WithManifests(old(c.st), docs)
    ensures old(c.Faultless()) ==> ok == Decodes(docs)
  {
    hide Run, Inv, Steady, Licence, Ready, WithManifests, Made, AllMade, Effect;
    SteadyReflexive(c.st);
    NoManifests(c.st, c.states, |c.states|, docs);
    for i := 0 to |docs|
      invariant c.Went(NOTHING) && Ready(c.st, cr) && c.Puts() == old(c.Puts()) && c.Drops() == old(c.Drops())
      invariant AllMade(c.states, |old(c.states)|, docs[..i])
      invariant old(c.Calm()) ==> c.st == WithManifests(old(c.st), docs[..i])
      invariant forall j :: 0 <= j < i ==> !docs[j].Malformed?
    {
      OneMoreManifest(old(c.st), docs, i);
      ghost var before, past := c.st, c.states;
      match docs[i] {
        case Malformed => return false;
        case Empty =>
        case Object(id, content) =>
          ok := CreateManifest(c, cr, id, content);
          SteadyJoin(old(c.st), before, c.st, NOTHING, NOTHING, NOTHING);
          if !ok { return; }
          MadeEarlier(c.states, |past|, |old(c.states)|, id);
      }
      MadeLater(past, c.states, |old(c.states)|, |old(c.states)|, docs[..i]);
      MadeToo(c.states, |old(c.states)|, docs, i);
    }
    ok := true;
  }

  lemma MadeEarlier(ss: seq<State>, from: nat, earlier: nat, id: string)
    requires Made(ss, from, id) && earlier <= from
    ensures Made(ss, earlier, id)
  {
  }

  lemma NoManifests(s: State, ss: seq<State>, from: nat, docs: seq<Document>)
    ensures AllMade(ss, from, docs[..0])
    ensures WithManifests(s, docs[..0]) == s && docs[..|docs|] == docs
  {
  }

  lemma OneMoreManifest(s: State, docs: seq<Document>, i: nat)
    requires i < |docs|
    ensures docs[i].Object? ==>
              Effect(WithManifests(s, docs[..i]), Create(Manifest(docs[i].id), ManifestBody(docs[i].content))) == WithManifests(s, docs[..i + 1])
    ensures docs[i].Empty? ==> WithManifests(s, docs[..i + 1]) == WithManifests(s, docs[..i])
  {
    assert docs[..i + 1][..i] == docs[..i];
  }

  lemma ManifestLicence(s: State, cr: Relocation, id: string, content: string)
    requires Ready(s, cr)
    ensures Licence(s, Create(Manifest(id), ManifestBody(content)))
  {
    hide Applying;
  }

  lemma ManifestsAreQuiet(s: State, docs: seq<Document>, cr: Relocation)
    ensures Quiet(s, WithManifests(s, docs), AcmKeys(cr))
  {
    forall k | k !in AcmKeys(cr) ensures KeptAt(s, WithManifests(s, docs), k) { Created(s.objs, docs, k); }
  }

  /* -------------------------------------------------------------- reconcile */

  /** What the hub handed out has been created, and the credential is gone. */
  twostate predicate ImportDone(c: Cluster, cr: Relocation)
    requires cr.spec.acm.Some?
    reads c
  {
    exists crds, manifests ::
      HandedOut(c, crds, manifests) && SameButSeen(Without(WithManifests(old(c.st), crds + manifests), {Credential(cr)}), c.st)
  }

  /** All that the hub handed out existed at some time afterwards, whoever interfered. */
  twostate predicate ImportMade(c: Cluster)
    reads c
  {
    exists crds, manifests :: HandedOut(c, crds, manifests) && AllMade(c.states, |old(c.states)|, crds + manifests)
  }

  /** From now on the hub hands out the same documents, and they decode. */
  ghost predicate Generous(c: Cluster)
    reads c`tick
  {
    c.Willing() && Decodes(c.turns(c.tick).hub.crds) && Decodes(c.turns(c.tick).hub.manifests)
  }

  ghost function Documents(c: Cluster): seq<Document>
    requires c.Willing()
    reads c`tick
  {
    c.turns(c.tick).hub.crds + c.turns(c.tick).hub.manifests
  }

  /** The addon configuration, if the spec has one. */
  method ConfigureAddons(c: Cluster, cr: Relocation) returns (ok: bool)
    requires c.Valid() && Ready(c.st, cr) && cr.spec.acm.Some?
    modifies c
    ensures c.Looked() && Ready(c.st, cr)
    ensures ok && cr.spec.acm.value.addonConfig ==> Answered(old(c.events), c.events, AddonsFor(cr.spec.acm.value.clusterName))
    ensures old(c.Calm()) ==> c.st == old(c.st)
    ensures old(c.Faultless()) && old(c.Willing()) ==> ok
  {
    hide Run, Inv, Steady, Ready;
    SteadyReflexive(c.st);
    if !cr.spec.acm.value.addonConfig { return true; }
    var reply := c.HubCall(AddonsFor(cr.spec.acm.value.clusterName));
    ReadyKept(old(c.st), c.st, cr);
    ok := reply.HubOk? || reply.HubExists?;
  }

  /** The import secret, and what it holds. */
  method FetchAndApply(c: Cluster, cr: Relocation) returns (ok: bool, ghost crds: seq<Document>, ghost manifests: seq<Document>)
    requires c.Valid() && Ready(c.st, cr) && cr.spec.acm.Some?
    modifies c
    ensures c.Went(NOTHING) && Ready(c.st, cr) && c.Puts() == old(c.Puts()) && c.Drops() == old(c.Drops())
    ensures ok ==> HandedOut(c, crds, manifests) && AllMade(c.states, |old(c.states)|, crds + manifests)
    ensures old(c.Calm()) ==> Quiet(old(c.st), c.st, AcmKeys(cr))
    ensures ok ==> Fetched(old(c.events), c.events, cr.spec.acm.value)
    ensures old(c.Calm()) && ok ==> c.st == WithManifests(old(c.st), crds + manifests)
    ensures old(c.Faultless()) && old(Generous(c)) ==> ok && crds + manifests == old(Documents(c))
  {
    hide Run, Inv, Steady, Quiet, Licence, Ready, WithManifests, AllMade, Answered;
    Stay(c.st, AcmKeys(cr));
    var secret, gets := ImportSecret(c, cr.spec.acm.value.clusterName);
    ghost var fetched := c.events;
    ReadyKept(old(c.st), c.st, cr);
    crds, manifests := [], [];
    if !secret.Imported? { return false, [], []; }
    crds, manifests := secret.crds, secret.manifests;
    ghost var got := c.st;
    ok := ConfigureAddons(c, cr);
    SteadyJoin(old(c.st), got, c.st, NOTHING, NOTHING, NOTHING);
    if !ok { return; }
    ghost var asked, past, added := c.st, c.states, c.events;
    AnswersGrow(old(c.events), fetched, added);
    ok := ApplyAll(c, cr, secret.crds, secret.manifests);
    SteadyJoin(old(c.st), asked, c.st, NOTHING, NOTHING, NOTHING);
    AnswersGrow(old(c.events), added, c.events);
    MadeLater(c.states, c.states, |past|, |old(c.states)|, crds + manifests);
  }

  /** The import secret and, if the spec has an addon configuration, the addons of the cluster have been asked for. */
  ghost predicate Fetched(before: seq<Event>, after: seq<Event>, acm: AcmRegistration) {
    && Answered(before, after, ImportSecretOf(acm.clusterName))
    && (acm.addonConfig ==> Answered(before, after, AddonsFor(acm.clusterName)))
  }

  lemma FetchedWithin(es: seq<Event>, fs: seq<Event>, gs: seq<Event>, acm: AcmRegistration)
    requires es <= fs <= gs
    ensures Fetched(es, fs, acm) || Fetched(fs, gs, acm) ==> Fetched(es, gs, acm)
  {
    hide Answered;
    AnswersGrow(es, fs, gs);
  }

  /** The import after the hub has been told about the cluster. */
  method RunImport(c: Cluster, cr: Relocation) returns (ok: bool)
    requires c.Valid() && Ready(c.st, cr) && cr.spec.acm.Some?
    modifies c
    ensures c.Went(NOTHING) && Ready(c.st, cr)
    ensures c.Puts() == old(c.Puts()) && (c.Drops() == old(c.Drops()) || c.SawAvailable())
    ensures ok ==> ImportMade(c)
    ensures old(c.Calm()) && ok ==> ImportDone(c, cr)
    ensures ok ==> c.SawAvailable() && c.st.seenAvailable && Credential(cr) !in c.st.objs
    ensures old(c.Calm()) ==> Quiet(old(c.st), c.st, AcmKeys(cr))
    ensures old(c.Calm()) && ok ==> AcmSettled(c.st, cr)
    ensures ok ==> Fetched(old(c.events), c.events, cr.spec.acm.value)
    ensures old(c.Faultless()) && old(Generous(c)) && old(c.st).klusterlet != Some(true) ==>
              SameButSeen(WithManifests(old(c.st), old(Documents(c))), c.st)
  {
    hide Run, Inv, Steady, Quiet, Licence, Ready, AcmSettled, Without, AllMade, Generous, Documents, Fetched;
    ghost var crds, manifests;
    ok, crds, manifests := FetchAndApply(c, cr);
    if !ok { return; }
    ghost var imported, past, fetched := c.st, c.states, c.events;
    var checks;
    ok, checks := AwaitKlusterlet(c, cr);
    SteadyJoin(old(c.st), imported, c.st, NOTHING, NOTHING, NOTHING);
    Join(old(c.st), imported, c.st, AcmKeys(cr), AcmKeys(cr), AcmKeys(cr));
    FetchedWithin(old(c.events), fetched, c.events, cr.spec.acm.value);
    MadeLater(past, c.states, |old(c.states)|, |old(c.states)|, crds + manifests);
  }

  /** The CRDs and then the import manifests: together, one sequence of documents. */
  method ApplyAll(c: Cluster, cr: Relocation, crds: seq<Document>, manifests: seq<Document>) returns (ok: bool)
    requires c.Valid() && Ready(c.st, cr)
    modifies c
    ensures c.Went(NOTHING) && Ready(c.st, cr) && c.Puts() == old(c.Puts()) && c.Drops() == old(c.Drops())
    ensures ok ==> AllMade(c.states, |old(c.states)|, crds + manifests)
    ensures old(c.Calm()) ==> Quiet(old(c.st), c.st, AcmKeys(cr))
    ensures old(c.Calm()) && ok ==> c.st == WithManifests(old(c.st), crds + manifests)
    ensures old(c.Faultless()) ==> ok == (Decodes(crds) && Decodes(manifests))
  {
    hide Run, Inv, Steady, Quiet, Licence, Ready, WithManifests, AllMade;
    ok := ApplyManifests(c, cr, crds);
    if old(c.Calm()) { SomeManifestsAreQuiet(old(c.st), c.st, crds, cr); }
    if !ok { return; }
    ghost var applied, past := c.st, c.states;
    ok := ApplyManifests(c, cr, manifests);
    SteadyJoin(old(c.st), applied, c.st, NOTHING, NOTHING, NOTHING);
    if old(c.Calm()) { SomeManifestsAreQuiet(applied, c.st, manifests, cr); }
    Join(old(c.st), applied, c.st, AcmKeys(cr), AcmKeys(cr), AcmKeys(cr));
    if ok {
      MadeLater(past, c.states, |old(c.states)|, |old(c.states)|, crds);
      MadeLater(c.states, c.states, |past|, |old(c.states)|, manifests);
      MadeBoth(c.states, |old(c.states)|, crds, manifests);
    }
    BothSequences(old(c.st), crds, manifests);
  }

  lemma BothSequences(s: State, crds: seq<Document>, manifests: seq<Document>)
    ensures WithManifests(WithManifests(s, crds), manifests) == WithManifests(s, crds + manifests)
  {
    InSequence(s.objs, crds, manifests);
  }

  lemma SomeManifestsAreQuiet(s: State, t: State, docs: seq<Document>, cr: Relocation)
    requires exists n :: 0 <= n <= |docs| && t == WithManifests(s, docs[..n])
    ensures Quiet(s, t, AcmKeys(cr))
  {
    hide Quiet, WithManifests;
    var n :| 0 <= n <= |docs| && t == WithManifests(s, docs[..n]);
    ManifestsAreQuiet(s, docs[..n], cr);
  }

  /** nil with a registration asked for means that the Klusterlet was seen Available and that the credential is gone.
      On the way there the credential is deleted only after the Klusterlet was seen Available. */
  method Reconcile(c: Cluster, cr: Relocation) returns (ok: bool)
    requires c.Valid() && Ready(c.st, cr)
    modifies c
    ensures c.Moved(NOTHING) && Ready(c.st, cr)
    ensures cr.spec.acm.None? ==> ok && c.st == old(c.st)
    ensures ok && cr.spec.acm.Some? ==> c.SawAvailable() && c.st.seenAvailable && Credential(cr) !in c.st.objs
    ensures c.hub == old(c.hub)
            || (cr.spec.acm.Some? && |c.hub| == |old(c.hub)| + 1 && Announced(c.states, |old(c.states)|, cr, c.hub[|old(c.hub)|]))
    ensures c.Puts() == old(c.Puts()) && (c.Drops() == old(c.Drops()) || c.SawAvailable())
    ensures old(c.Calm()) ==> Quiet(old(c.st), c.st, AcmKeys(cr))
    ensures old(c.Calm()) && ok ==> AcmSettled(c.st, cr)
    ensures old(c.Calm()) && AcmSettled(old(c.st), cr) ==> c.Kept()
    ensures old(c.Faultless()) ==> ok == AcmFeasible(old(c.st), cr)
    // a cluster that is not registered is announced to the hub, and what the hub hands out is created
    ensures old(c.Faultless()) && Registers(old(c.st), cr) && ApiServers.ApiKey(cr.spec) in old(c.st).objs ==>
              |c.hub| == |old(c.hub)| + 1
              && (old(Generous(c)) ==> SameButSeen(WithManifests(old(c.st), old(Documents(c))), c.st))
  {
    hide Run, Inv, Steady, Quiet, Licence, Ready, Announced, AllMade, HandedOut, Without, WithManifests, SameButSeen, Decodes;
    SteadyReflexive(c.st);
    Stay(c.st, AcmKeys(cr));
    if cr.spec.acm.None? { return true; }
    ok := CheckKlusterlet(c, cr);
    if ok { return; }
    ghost var checked, seen := c.st, c.states;
    SeenTwice(old(c.st), checked, checked);
    ok := Enrol(c, cr);
    AnnouncedWithin(c.states, |seen|, c.states, |old(c.states)|, cr);
    SteadyJoin(old(c.st), checked, c.st, NOTHING, NOTHING, NOTHING);
    Join(old(c.st), checked, c.st, AcmKeys(cr), AcmKeys(cr), AcmKeys(cr));
    if old(c.Calm()) { QuietKeepsKlusterlet(old(c.st), c.st, AcmKeys(cr)); }
    if old(c.Faultless()) && old(Generous(c)) { MadeAfterCheck(old(c.st), checked, c.st, old(Documents(c))); }
  }

  /** What a failed check has learnt is nothing to the manifests. */
  lemma MadeAfterCheck(s: State, t: State, u: State, docs: seq<Document>)
    ensures SameButSeen(s, t) && SameButSeen(WithManifests(t, docs), u) ==> SameButSeen(WithManifests(s, docs), u)
  {
  }

  /** The credential has the right type; then the registration. */
  method Enrol(c: Cluster, cr: Relocation) returns (ok: bool)
    requires c.Valid() && Ready(c.st, cr) && cr.spec.acm.Some?
    modifies c
    ensures c.Moved(NOTHING) && Ready(c.st, cr)
    ensures ok ==> c.SawAvailable() && c.st.seenAvailable && Credential(cr) !in c.st.objs
    ensures c.hub == old(c.hub) || (|c.hub| == |old(c.hub)| + 1 && Announced(c.states, |old(c.states)|, cr, c.hub[|old(c.hub)|]))
    ensures c.Puts() == old(c.Puts()) && (c.Drops() == old(c.Drops()) || c.SawAvailable())
    ensures old(c.Calm()) ==> Quiet(old(c.st), c.st, AcmKeys(cr))
    ensures old(c.Calm()) && ok ==> AcmSettled(c.st, cr)
    ensures old(c.Calm()) && Credential(cr) !in old(c.st).objs ==> !ok && c.Rested()
    ensures old(c.Faultless()) && HasType(old(c.st), Credential(cr), Opaque) && ApiServers.ApiKey(cr.spec) in old(c.st).objs ==>
              |c.hub| == |old(c.hub)| + 1
              && (old(Generous(c)) && old(c.st).klusterlet != Some(true) ==>
                    SameButSeen(WithManifests(old(c.st), old(Documents(c))), c.st))
  {
    hide Run, Inv, Steady, Quiet, Licence, Ready, Announced, AllMade, HandedOut, Without, WithManifests, SameButSeen, AcmSettled, Decodes;
    Stay(c.st, AcmKeys(cr));
    ok := ValidateSecretType(c, Credential(cr), Opaque);
    ReadyKept(old(c.st), c.st, cr);
    if !ok { return; }
    ghost var valid, seen := c.st, c.states;
    ok := Register(c, cr);
    AnnouncedWithin(c.states, |seen|, c.states, |old(c.states)|, cr);
    SteadyJoin(old(c.st), valid, c.st, NOTHING, NOTHING, NOTHING);
  }

  /** A registration is asked for, the Klusterlet is not Available, and the credential is there. */
  predicate Registers(s: State, cr: Relocation) {
    cr.spec.acm.Some? && s.klusterlet != Some(true) && HasType(s, Credential(cr), Opaque)
  }

  lemma StillRegisters(s: State, t: State, f: iset<Key>, cr: Relocation)
    requires Quiet(s, t, f) && Registers(s, cr) && Credential(cr) !in f
    ensures Registers(t, cr)
  {
    assert KeptAt(s, t, Credential(cr));
  }

  /** The steps that need the credential. */
  method Register(c: Cluster, cr: Relocation) returns (ok: bool)
    requires c.Valid() && Ready(c.st, cr) && cr.spec.acm.Some?
    modifies c
    ensures c.Moved(NOTHING) && Ready(c.st, cr)
    ensures ok ==> c.SawAvailable() && c.st.seenAvailable && Credential(cr) !in c.st.objs
    ensures c.hub == old(c.hub) || (|c.hub| == |old(c.hub)| + 1 && Announced(c.states, |old(c.states)|, cr, c.hub[|old(c.hub)|]))
    ensures ok ==> |c.hub| == |old(c.hub)| + 1
    ensures c.Puts() == old(c.Puts()) && (c.Drops() == old(c.Drops()) || c.SawAvailable())
    ensures ok ==> ImportMade(c)
    ensures old(c.Calm()) && ok ==> ImportDone(c, cr)
    ensures old(c.Calm()) ==> Quiet(old(c.st), c.st, AcmKeys(cr))
    ensures old(c.Calm()) && ok ==> AcmSettled(c.st, cr)
    ensures ok ==> Answered(old(c.events), c.events, HubReachable) && Fetched(old(c.events), c.events, cr.spec.acm.value)
    ensures old(c.Faultless()) && Credential(cr) in old(c.st).objs && ApiServers.ApiKey(cr.spec) in old(c.st).objs ==>
              |c.hub| == |old(c.hub)| + 1
              && (old(Generous(c)) && old(c.st).klusterlet != Some(true) ==>
                    SameButSeen(WithManifests(old(c.st), old(Documents(c))), c.st))
  {
    hide Run, Inv, Steady, Quiet, Licence, Ready, AcmSettled, Announced, WithManifests, Without, AllMade, Fetched, Answered;
    Stay(c.st, AcmKeys(cr));
    ok := Introduce(c, cr);
    if !ok { return; }
    ghost var announced, past, asked := c.st, c.states, c.events;
    ok := RunImport(c, cr);
    AnswersGrow(old(c.events), asked, c.events);
    FetchedWithin(old(c.events), asked, c.events, cr.spec.acm.value);
    SteadyJoin(old(c.st), announced, c.st, NOTHING, NOTHING, NOTHING);
    AnnouncedWithin(past, |old(c.states)|, c.states, |old(c.states)|, cr);
    if ok { ImportedEarlier(c.states, |past|, |old(c.states)|); }
  }

  lemma ImportedEarlier(ss: seq<State>, from: nat, earlier: nat)
    requires earlier <= from
    ensures forall docs :: AllMade(ss, from, docs) ==> AllMade(ss, earlier, docs)
  {
    forall docs | AllMade(ss, from, docs) ensures AllMade(ss, earlier, docs) { MadeLater(ss, ss, from, earlier, docs); }
  }

  /** Connect to the hub, and tell it about the cluster. */
  method Introduce(c: Cluster, cr: Relocation) returns (ok: bool)
    requires c.Valid() && Ready(c.st, cr) && cr.spec.acm.Some?
    modifies c
    ensures c.Moved(NOTHING) && Ready(c.st, cr) && c.Puts() == old(c.Puts()) && c.Drops() == old(c.Drops())
    ensures c.hub == old(c.hub) || (|c.hub| == |old(c.hub)| + 1 && Announced(c.states, |old(c.states)|, cr, c.hub[|old(c.hub)|]))
    ensures ok ==> |c.hub| == |old(c.hub)| + 1 && Answered(old(c.events), c.events, HubReachable)
    ensures old(c.Calm()) ==> c.st == old(c.st)
    ensures old(c.Faultless()) && Credential(cr) in old(c.st).objs && ApiServers.ApiKey(cr.spec) in old(c.st).objs ==>
              |c.hub| == |old(c.hub)| + 1 && (old(c.Willing()) ==> ok)
  {
    hide Run, Inv, Steady, Ready, Announced, Licence, Answered;
    ok := Connect(c, cr);
    if !ok { return; }
    ghost var connected, seen, past := c.st, c.states, c.events;
    ok := Announce(c, cr);
    AnnouncedWithin(c.states, |seen|, c.states, |old(c.states)|, cr);
    AnswersGrow(old(c.events), past, c.events);
    SteadyJoin(old(c.st), connected, c.st, NOTHING, NOTHING, NOTHING);
  }

  /** A client for the hub, with the credential. */
  method Connect(c: Cluster, cr: Relocation) returns (ok: bool)
    requires c.Valid() && Ready(c.st, cr) && cr.spec.acm.Some?
    modifies c
    ensures c.Looked() && Ready(c.st, cr)
    ensures ok ==> Answered(old(c.events), c.events, HubReachable)
    ensures old(c.Calm()) ==> c.st == old(c.st)
    ensures old(c.Faultless()) ==> ok == (Credential(cr) in old(c.st).objs)
  {
    hide Run, Inv, Steady, Ready, Licence, Answered;
    var credential := c.Get(Credential(cr));
    ReadyKept(old(c.st), c.st, cr);
    if !credential.Ok? { return false; }
    ghost var read, past := c.st, c.events;
    ok := c.Probe(HubReachable);
    AnswersGrow(old(c.events), past, c.events);
    ReadyKept(read, c.st, cr);
    SteadyJoin(old(c.st), read, c.st, NOTHING, NOTHING, NOTHING);
  }
}
