/** controllers/clusterrelocation_controller.go: one pass of the controller on one ClusterRelocation. */
module Controller {
  import opened Types
  import opened Store
  import opened Goals
  import opened Protocol
  import opened Preservation
  import opened Fixpoints
  import opened ClusterApi
  import opened Parts
  import SemVer
  import Dns
  import Ssh
  import Registry
  import Mirror
  import PullSecrets
  import Catalogs
  import Ingresses
  import ApiServers
  import Routes
  import Acm

  /* ----------------------------------------------------- the stages of a pass */

  const NODES := {DnsPart, SshPart, RegistryPart, MirrorPart}
  const WORKLOADS := {PullPart, CatalogPart}
  const INSIDE := NODES + WORKLOADS
  const ENDPOINTS := {IngressPart, ApiPart}

  lemma WasReadKept(s: State, t: State, f: iset<Key>, version: SemVer.Version)
    requires Mirror.WasRead(s, version) && Steady(s, t, f) && Idms !in f
    ensures Mirror.WasRead(t, version)
    ensures Quiet(s, t, f) ==> t.version == s.version
  {
  }

  lemma Within(s: State, t: State, done: set<Part>, all: set<Part>, calm: bool)
    requires done <= all && Steady(s, t, KeysOf(done)) && (calm ==> Quiet(s, t, KeysOf(done)))
    ensures Steady(s, t, KeysOf(all)) && (calm ==> Quiet(s, t, KeysOf(all)))
  {
    hide Steady, Quiet;
    assert KeysOf(done) <= KeysOf(all);
    Widen(s, t, KeysOf(done), KeysOf(all));
  }

  /** The names of the domain have been looked up in between, with success. */
  ghost predicate NamesResolve(before: seq<Event>, after: seq<Event>, domain: string) {
    Answered(before, after, Address("api." + domain)) && Answered(before, after, Address("test.apps." + domain))
  }

  /** So have they, and the domain has answered. */
  ghost predicate Verified(before: seq<Event>, after: seq<Event>, domain: string) {
    NamesResolve(before, after, domain) && Answered(before, after, DomainAnswers(domain))
  }

  lemma VerifiedWithin(es: seq<Event>, fs: seq<Event>, gs: seq<Event>, domain: string)
    requires es <= fs <= gs
    ensures NamesResolve(es, fs, domain) || NamesResolve(fs, gs, domain) ==> NamesResolve(es, gs, domain)
    ensures Verified(es, fs, domain) || Verified(fs, gs, domain) ==> Verified(es, gs, domain)
  {
    hide Answered;
    AnswersGrow(es, fs, gs);
  }

  /** Internal DNS, and the names of the new domain. */
  method ConfigureNames(c: Cluster, cr: Relocation, ghost calm: bool) returns (ok: bool)
    requires c.Works(cr) && (calm ==> c.Calm())
    modifies c
    ensures c.Went(KeysOf({DnsPart})) && c.Works(cr)
    ensures calm ==> Quiet(old(c.st), c.st, KeysOf({DnsPart}))
    ensures ok ==> Progress(old(c.st), c.st, cr, {DnsPart}, calm) && NamesResolve(old(c.events), c.events, cr.spec.domain)
    ensures calm && SettledFor(old(c.st), cr, {DnsPart}) ==> c.Puts() == old(c.Puts())
    ensures calm && old(c.Faultless()) ==> ok
  {
    hide Run, Inv, Steady, Quiet, Licence, Applying, Progress, KeysOf, Dns.DnsSettled, DnsDone, NamesResolve;
    ghost var s0 := c.st;
    Start(s0, cr, calm);
    ok := Dns.Reconcile(c, cr);
    Advance(s0, s0, c.st, cr, {}, DnsPart, calm, ok);
    assert {} + {DnsPart} == {DnsPart};
    if !ok { return; }
    ghost var s1, past := c.st, c.events;
    ok := LookUp(c, cr.spec.domain);
    VerifiedWithin(old(c.events), past, c.events, cr.spec.domain);
    Pause(s0, s1, c.st, cr, {DnsPart}, calm);
    ProgressFrame(s0, c.st, cr, {DnsPart}, calm);
  }

  /** Names, then SSH keys. */
  method ConfigureHosts(c: Cluster, cr: Relocation, ghost calm: bool) returns (failure: Option<Reason>)
    requires c.Works(cr) && (calm ==> c.Calm())
    modifies c
    ensures c.Went(KeysOf({DnsPart, SshPart})) && c.Works(cr)
    ensures calm ==> Quiet(old(c.st), c.st, KeysOf({DnsPart, SshPart}))
    ensures failure.None? ==> Progress(old(c.st), c.st, cr, {DnsPart, SshPart}, calm)
    ensures Stopped(old(c.st), c.st, cr.spec, {DnsPart, SshPart}, failure)
    ensures failure.None? ==> NamesResolve(old(c.events), c.events, cr.spec.domain)
    ensures calm && SettledFor(old(c.st), cr, {DnsPart, SshPart}) ==> c.Puts() == old(c.Puts())
    ensures calm && old(c.Faultless()) ==> failure.None?
  {
    hide Run, Inv, Steady, Quiet, Licence, Applying, Progress, KeysOf, SshDone, SshSettled, Dns.DnsSettled, DnsDone, Stopped, NamesResolve;
    ghost var s0 := c.st;
    var ok := ConfigureNames(c, cr, calm);
    Within(s0, c.st, {DnsPart}, {DnsPart, SshPart}, calm);
    if !ok {
      StopAtFirst(s0, c.st, cr.spec, DnsPart, SshPart, DnsFailed);
      return Some(DnsFailed);
    }

    ghost var s1, past := c.st, c.events;
    ProgressFrame(s0, s1, cr, {DnsPart}, calm);
    ok := Ssh.Reconcile(c, cr);
    VerifiedWithin(old(c.events), past, c.events, cr.spec.domain);
    SecondOfStage(s0, s1, c.st, cr, DnsPart, SshPart, SshFailed, calm, ok);
    failure := if ok then None else Some(SshFailed);
  }

  /** Both name lookups. */
  method LookUp(c: Cluster, domain: string) returns (ok: bool)
    requires c.Valid()
    modifies c
    ensures c.Looked()
    ensures ok ==> NamesResolve(old(c.events), c.events, domain)
    ensures old(c.Calm()) ==> c.st == old(c.st)
    ensures old(c.Faultless()) ==> ok
  {
    hide Run, Inv, Steady, Answered;
    ok := c.Probe(Address("api." + domain));
    if !ok { return; }
    ghost var first, past := c.st, c.events;
    ok := c.Probe(Address("test.apps." + domain));
    SteadyJoin(old(c.st), first, c.st, NOTHING, NOTHING, NOTHING);
    AnswersGrow(old(c.events), past, c.events);
  }

  lemma ProgressFrame(s: State, t: State, cr: Relocation, done: set<Part>, calm: bool)
    requires Progress(s, t, cr, done, calm)
    ensures Steady(s, t, KeysOf(done)) && (calm ==> Quiet(s, t, KeysOf(done)))
    ensures calm && SettledFor(s, cr, done) ==> t == s
  {
  }

  /** The trusted CA of the registry, and the mirrors. */
  method ConfigureRegistries(c: Cluster, cr: Relocation, version: SemVer.Version, ghost calm: bool) returns (failure: Option<Reason>)
    requires c.Works(cr) && Mirror.WasRead(c.st, version)
    requires calm ==> c.Calm() && version == c.st.version
    modifies c
    ensures c.Went(KeysOf({RegistryPart, MirrorPart})) && c.Works(cr)
    ensures calm ==> Quiet(old(c.st), c.st, KeysOf({RegistryPart, MirrorPart}))
    ensures failure.None? ==> Progress(old(c.st), c.st, cr, {RegistryPart, MirrorPart}, calm)
    ensures Stopped(old(c.st), c.st, cr.spec, {RegistryPart, MirrorPart}, failure)
    ensures calm && SettledFor(old(c.st), cr, {RegistryPart, MirrorPart}) ==> c.Puts() == old(c.Puts())
    ensures calm && old(c.Faultless()) ==> failure.None?
  {
    hide Run, Inv, Steady, Quiet, Licence, Applying, Progress, KeysOf, Mirror.WasRead, RegistryDone, RegistrySettled,
      MirrorDone, MirrorSettled, Stopped;
    ghost var s0 := c.st;
    var ok := Registry.Reconcile(c, cr);
    FirstOfStage(s0, c.st, cr, RegistryPart, MirrorPart, RegistryFailed, calm, ok);
    WasReadKept(s0, c.st, Keys(RegistryPart), version);
    if !ok { return Some(RegistryFailed); }

    ghost var s1 := c.st;
    ok := Mirror.Reconcile(c, cr, version, calm);
    SecondOfStage(s0, s1, c.st, cr, RegistryPart, MirrorPart, MirrorFailed, calm, ok);
    failure := if ok then None else Some(MirrorFailed);
  }

  /** The pull secret and the catalog sources. */
  method ConfigureWorkloads(c: Cluster, cr: Relocation, ghost calm: bool) returns (failure: Option<Reason>)
    requires c.Works(cr) && (calm ==> c.Calm())
    modifies c
    ensures c.Went(KeysOf(WORKLOADS)) && c.Works(cr)
    ensures calm ==> Quiet(old(c.st), c.st, KeysOf(WORKLOADS))
    ensures failure.None? ==> Progress(old(c.st), c.st, cr, WORKLOADS, calm)
    ensures Stopped(old(c.st), c.st, cr.spec, WORKLOADS, failure)
    ensures calm && SettledFor(old(c.st), cr, WORKLOADS) && Catalogs.Distinct(cr.spec.catalogs) ==> c.Puts() == old(c.Puts())
    ensures calm && old(c.Faultless()) ==>
              failure == if !PartFeasible(old(c.st), cr, PullPart) then Some(PullSecretFailed)
                         else if !PartFeasible(old(c.st), cr, CatalogPart) then Some(CatalogFailed) else None
  {
    hide Run, Inv, Steady, Quiet, Licence, Applying, Progress, KeysOf, PullDone, PullSecrets.PullSettled, CatalogDone,
      Catalogs.CatalogSettled, PullSecrets.PullFeasible, Catalogs.CatalogFeasible, Stopped;
    ghost var s0 := c.st;
    var ok := PullSecrets.Reconcile(c, cr);
    FirstOfStage(s0, c.st, cr, PullPart, CatalogPart, PullSecretFailed, calm, ok);
    if !ok { return Some(PullSecretFailed); }

    ghost var s1 := c.st;
    ok := Catalogs.Reconcile(c, cr);
    SecondOfStage(s0, s1, c.st, cr, PullPart, CatalogPart, CatalogFailed, calm, ok);
    failure := if ok then None else Some(CatalogFailed);
  }

  /** The ingress and the API server. */
  method ConfigureEndpoints(c: Cluster, cr: Relocation, ghost calm: bool) returns (failure: Option<Reason>)
    requires c.Works(cr) && (calm ==> c.Calm())
    modifies c
    ensures c.Went(KeysOf(ENDPOINTS)) && c.Works(cr)
    ensures calm ==> Quiet(old(c.st), c.st, KeysOf(ENDPOINTS))
    ensures failure.None? ==> Progress(old(c.st), c.st, cr, ENDPOINTS, calm)
    ensures Stopped(old(c.st), c.st, cr.spec, ENDPOINTS, failure)
    ensures calm && SettledFor(old(c.st), cr, ENDPOINTS) ==> c.Puts() == old(c.Puts())
    ensures calm && old(c.Faultless()) ==>
              failure == if !PartFeasible(old(c.st), cr, IngressPart) then Some(IngressFailed)
                         else if !PartFeasible(old(c.st), cr, ApiPart) then Some(ApiFailed) else None
  {
    hide Run, Inv, Steady, Quiet, Licence, Applying, Progress, KeysOf, IngressDone, Ingresses.IngressSettled, ApiDone,
      ApiServers.ApiSettled, Ingresses.IngressFeasible, ApiServers.ApiFeasible, Stopped;
    ghost var s0 := c.st;
    var ok := Ingresses.Reconcile(c, cr);
    FirstOfStage(s0, c.st, cr, IngressPart, ApiPart, IngressFailed, calm, ok);
    if !ok { return Some(IngressFailed); }

    ghost var s1 := c.st;
    ok := ApiServers.Reconcile(c, cr);
    SecondOfStage(s0, s1, c.st, cr, IngressPart, ApiPart, ApiFailed, calm, ok);
    failure := if ok then None else Some(ApiFailed);
  }

  lemma SubsetsSettled(s: State, cr: Relocation)
    ensures SettledFor(s, cr, NODES) ==> SettledFor(s, cr, {DnsPart, SshPart}) && SettledFor(s, cr, {RegistryPart, MirrorPart})
    ensures SettledFor(s, cr, ALL) ==>
      SettledFor(s, cr, INSIDE) && SettledFor(s, cr, ENDPOINTS)
    ensures SettledFor(s, cr, INSIDE) ==> SettledFor(s, cr, NODES) && SettledFor(s, cr, WORKLOADS)
  {
    hide PartSettled;
  }

  /** The stages are in the order of the sub-reconcilers. */
  lemma StagesInOrder()
    ensures forall p :: p in {DnsPart, SshPart} ==> Earlier(p) * NODES == Earlier(p) * {DnsPart, SshPart}
    ensures forall p :: p in {RegistryPart, MirrorPart} ==> {DnsPart, SshPart} <= Earlier(p)
    ensures forall p :: p in NODES ==> Earlier(p) * INSIDE == Earlier(p) * NODES
    ensures forall p :: p in WORKLOADS ==> NODES <= Earlier(p)
    ensures forall p :: p in INSIDE ==> Earlier(p) * ALL == Earlier(p) * INSIDE
    ensures forall p :: p in ENDPOINTS ==> INSIDE <= Earlier(p)
  {
  }

  /** What goes to the nodes: names, SSH keys, trusted CA, mirrors. */
  method ConfigureNodes(c: Cluster, cr: Relocation, version: SemVer.Version, ghost calm: bool) returns (failure: Option<Reason>)
    requires c.Works(cr) && Mirror.WasRead(c.st, version)
    requires calm ==> c.Calm() && version == c.st.version
    modifies c
    ensures c.Went(KeysOf(NODES)) && c.Works(cr)
    ensures calm ==> Quiet(old(c.st), c.st, KeysOf(NODES))
    ensures failure.None? ==> Progress(old(c.st), c.st, cr, NODES, calm)
    ensures Stopped(old(c.st), c.st, cr.spec, NODES, failure)
    ensures failure.None? ==> NamesResolve(old(c.events), c.events, cr.spec.domain)
    ensures calm && SettledFor(old(c.st), cr, NODES) ==> c.Puts() == old(c.Puts())
    ensures calm && old(c.Faultless()) ==> failure.None?
  {
    hide SettledFor, Run, Inv, Steady, Quiet, Licence, Applying, Progress, KeysOf, Mirror.WasRead, Stopped, Earlier, NamesResolve;
    ghost var s0 := c.st;
    SubsetsSettled(s0, cr);
    StagesInOrder();
    failure := ConfigureHosts(c, cr, calm);
    FirstStage(s0, c.st, cr, {DnsPart, SshPart}, NODES, calm, failure);
    NotMirrors({DnsPart, SshPart});
    WasReadKept(s0, c.st, KeysOf({DnsPart, SshPart}), version);
    if failure.Some? { return; }

    ghost var s1, past := c.st, c.events;
    ProgressFrame(s0, s1, cr, {DnsPart, SshPart}, calm);
    failure := ConfigureRegistries(c, cr, version, calm);
    VerifiedWithin(old(c.events), past, c.events, cr.spec.domain);
    SecondStage(s0, s1, c.st, cr, {DnsPart, SshPart}, {RegistryPart, MirrorPart}, calm, failure);
    assert {DnsPart, SshPart} + {RegistryPart, MirrorPart} == NODES;
  }

  /** Nodes and workloads. */
  method ConfigureInside(c: Cluster, cr: Relocation, version: SemVer.Version, ghost calm: bool) returns (failure: Option<Reason>)
    requires c.Works(cr) && Mirror.WasRead(c.st, version)
    requires calm ==> c.Calm() && version == c.st.version
    modifies c
    ensures c.Went(KeysOf(INSIDE)) && c.Works(cr)
    ensures calm ==> Quiet(old(c.st), c.st, KeysOf(INSIDE))
    ensures failure.None? ==> Progress(old(c.st), c.st, cr, INSIDE, calm)
    ensures Stopped(old(c.st), c.st, cr.spec, INSIDE, failure)
    ensures failure.None? ==> NamesResolve(old(c.events), c.events, cr.spec.domain)
    ensures calm && SettledFor(old(c.st), cr, INSIDE) && Catalogs.Distinct(cr.spec.catalogs) ==> c.Puts() == old(c.Puts())
    ensures calm && old(c.Faultless()) ==>
              failure == if !PartFeasible(old(c.st), cr, PullPart) then Some(PullSecretFailed)
                         else if !PartFeasible(old(c.st), cr, CatalogPart) then Some(CatalogFailed) else None
  {
    hide SettledFor, Catalogs.Distinct, Run, Inv, Steady, Quiet, Licence, Applying, Progress, KeysOf, PartFeasible,
      Mirror.WasRead, Stopped, Earlier, NamesResolve;
    ghost var s0 := c.st;
    SubsetsSettled(s0, cr);
    StagesInOrder();
    ReferencesWellFormed(s0);
    failure := ConfigureNodes(c, cr, version, calm);
    FirstStage(s0, c.st, cr, NODES, INSIDE, calm, failure);
    if failure.Some? { return; }

    ghost var s1, past := c.st, c.events;
    ProgressFrame(s0, s1, cr, NODES, calm);
    if calm {
      StillAsFeasible(s0, s1, cr, NODES, PullPart);
      StillAsFeasible(s0, s1, cr, NODES, CatalogPart);
    }
    failure := ConfigureWorkloads(c, cr, calm);
    VerifiedWithin(old(c.events), past, c.events, cr.spec.domain);
    SecondStage(s0, s1, c.st, cr, NODES, WORKLOADS, calm, failure);
  }

  /** Every sub-reconciler that changes the configuration, in the order of the controller. */
  method Configure(c: Cluster, cr: Relocation, version: SemVer.Version, ghost calm: bool) returns (failure: Option<Reason>)
    requires c.Works(cr) && Mirror.WasRead(c.st, version)
    requires calm ==> c.Calm() && version == c.st.version
    modifies c
    ensures c.Went(KeysOf(ALL)) && c.Works(cr)
    ensures calm ==> Quiet(old(c.st), c.st, KeysOf(ALL))
    ensures failure.None? ==> Progress(old(c.st), c.st, cr, ALL, calm)
    ensures Stopped(old(c.st), c.st, cr.spec, ALL, failure)
    ensures failure.None? ==> NamesResolve(old(c.events), c.events, cr.spec.domain)
    ensures calm && SettledFor(old(c.st), cr, ALL) && Catalogs.Distinct(cr.spec.catalogs) ==> c.Puts() == old(c.Puts())
    ensures calm && old(c.Faultless()) ==> failure == Verdict(old(c.st), cr)
  {
    hide SettledFor, Catalogs.Distinct, Run, Inv, Steady, Quiet, Licence, Applying, Progress, KeysOf, PartFeasible,
      Mirror.WasRead, Stopped, Earlier, NamesResolve;
    ghost var s0 := c.st;
    SubsetsSettled(s0, cr);
    StagesInOrder();
    ReferencesWellFormed(s0);
    failure := ConfigureInside(c, cr, version, calm);
    FirstStage(s0, c.st, cr, INSIDE, ALL, calm, failure);
    if failure.Some? { return; }

    ghost var s1, past := c.st, c.events;
    ProgressFrame(s0, s1, cr, INSIDE, calm);
    if calm {
      StillAsFeasible(s0, s1, cr, INSIDE, IngressPart);
      StillAsFeasible(s0, s1, cr, INSIDE, ApiPart);
    }
    failure := ConfigureEndpoints(c, cr, calm);
    VerifiedWithin(old(c.events), past, c.events, cr.spec.domain);
    SecondStage(s0, s1, c.st, cr, INSIDE, ENDPOINTS, calm, failure);
    assert INSIDE + ENDPOINTS == ALL;
  }

  lemma NotMirrors(ps: set<Part>)
    requires MirrorPart !in ps
    ensures Idms !in KeysOf(ps)
  {
  }

  /* ------------------------------------------------------------- the tail */

  /** Routes, manifests and the ACM credential. */
  ghost function TailKeys(cr: Relocation): iset<Key> {
    iset k: Key | k.Route? || k in Acm.AcmKeys(cr)
  }

  ghost function TailVerdict(s: State, cr: Relocation): Option<Reason> {
    if Routes.MultiStale(s, AppsHost(cr.spec.domain)) != {} then Some(ReconcileInProgress)
    else if !Acm.AcmFeasible(s, cr) then Some(AcmFailed) else None
  }

  ghost predicate TailSettled(s: State, cr: Relocation) {
    Routes.StaleRoutes(s, AppsHost(cr.spec.domain)) == {} && Acm.AcmSettled(s, cr)
  }

  lemma ConfiguredIsReady(s: State, cr: Relocation)
    requires Applying(s) && s.active == Some(cr) && Configured(s, cr.spec)
    ensures Acm.Ready(s, cr)
  {
  }

  lemma StillConfigured(s: State, t: State, sp: Spec)
    requires Inv(s) && Applying(s) && Steady(s, t, NOTHING) && Configured(s, sp)
    ensures Configured(t, sp)
  {
    hide Configured, Steady, Applying;
    InvOwners(s);
    SteadyKeepsConfigured(s, t, sp);
  }

  /** The registration has to start: it is asked for, the Klusterlet is not Available, and credential and certificate are there. */
  predicate ToAnnounce(s: State, cr: Relocation) {
    Acm.Registers(s, cr) && ApiServers.ApiKey(cr.spec) in s.objs
  }

  /** Deleting routes leaves everything else alone, and makes nothing stale. */
  lemma RoutesReset(s: State, t: State, cr: Relocation)
    requires exists gone :: gone <= Routes.StaleRoutes(s, AppsHost(cr.spec.domain)) && t == Without(s, gone)
    ensures Quiet(s, t, TailKeys(cr))
    ensures t == Without(s, Routes.StaleRoutes(s, AppsHost(cr.spec.domain))) ==> Routes.StaleRoutes(t, AppsHost(cr.spec.domain)) == {}
    ensures Routes.StaleRoutes(s, AppsHost(cr.spec.domain)) == {} ==> t == s
    ensures t.klusterlet == s.klusterlet && (Acm.AcmSettled(s, cr) ==> Acm.AcmSettled(t, cr))
    ensures Acm.AcmFeasible(s, cr) == Acm.AcmFeasible(t, cr)
    ensures ToAnnounce(t, cr) == ToAnnounce(s, cr)
  {
    NothingGone(s);
    forall k | k !in TailKeys(cr) ensures KeptAt(s, t, k) { assert !k.Route?; }
  }

  /** The registration leaves the routes alone. */
  lemma RoutesKept(s: State, t: State, cr: Relocation, domain: string)
    requires Quiet(s, t, Acm.AcmKeys(cr)) && cr.spec.WellFormed()
    ensures Routes.StaleRoutes(t, domain) == Routes.StaleRoutes(s, domain)
    ensures Routes.MultiStale(t, domain) == Routes.MultiStale(s, domain)
  {
    hide Quiet, Routes.StaleEntries;
    forall k: Key | k.Route? ensures SameAt(s, t, k) {
      NoRoute(cr, k);
      SameKept(s, t, Acm.AcmKeys(cr), k);
    }
  }

  lemma NoRoute(cr: Relocation, k: Key)
    requires k.Route?
    ensures k !in Acm.AcmKeys(cr)
  {
  }

  /** An aborted pass has got rid of one of the routes that abort passes. */
  ghost predicate OneRouteLess(s: State, t: State, domain: string) {
    exists k :: k in Routes.MultiStale(s, domain) && Routes.MultiStale(t, domain) == Routes.MultiStale(s, domain) - {k}
  }

  /** The new domain answers, and the routes under the old one go. */
  method MoveRoutes(c: Cluster, cr: Relocation) returns (ok: bool)
    requires c.Works(cr) && Configured(c.st, cr.spec)
    modifies c
    ensures c.Went(NOTHING) && c.Works(cr) && Configured(c.st, cr.spec) && c.Puts() == old(c.Puts())
    ensures old(c.Calm()) ==> Quiet(old(c.st), c.st, TailKeys(cr))
    ensures ok ==> Answered(old(c.events), c.events, DomainAnswers(cr.spec.domain))
    ensures ok ==> Answered(old(c.events), c.events, OperatorSettled("openshift-apiserver"))
    ensures old(c.Calm()) && ok ==> Routes.StaleRoutes(c.st, AppsHost(cr.spec.domain)) == {}
    ensures old(c.Calm()) && Routes.StaleRoutes(old(c.st), AppsHost(cr.spec.domain)) == {} ==> c.st == old(c.st)
    ensures old(c.Calm()) ==>
              (Acm.AcmSettled(old(c.st), cr) ==> Acm.AcmSettled(c.st, cr)) && Acm.AcmFeasible(c.st, cr) == Acm.AcmFeasible(old(c.st), cr)
    ensures old(c.Calm()) ==> ToAnnounce(c.st, cr) == ToAnnounce(old(c.st), cr)
    ensures old(c.Faultless()) ==> ok == (Routes.MultiStale(old(c.st), AppsHost(cr.spec.domain)) == {})
    ensures old(c.Faultless()) && !ok ==> OneRouteLess(old(c.st), c.st, AppsHost(cr.spec.domain))
  {
    hide Run, Inv, Steady, Quiet, Licence, Applying, Configured, Routes.StaleRoutes, Routes.MultiStale, Routes.Reset, Without,
      Acm.AcmSettled, Acm.AcmFeasible, TailKeys, ToAnnounce, Routes.OutdatedRoutes, Answered;
    ghost var s0 := c.st;
    ok := c.Probe(DomainAnswers(cr.spec.domain));
    StillConfigured(s0, c.st, cr.spec);
    Stay(c.st, TailKeys(cr));
    if !ok { return; }
    ghost var s1, past := c.st, c.events;
    ok := Routes.ResetRoutes(c, AppsHost(cr.spec.domain));
    AnswersGrow(old(c.events), past, c.events);
    SteadyJoin(s0, s1, c.st, NOTHING, NOTHING, NOTHING);
    StillConfigured(s1, c.st, cr.spec);
    if old(c.Calm()) { RoutesReset(s1, c.st, cr); }
  }

  /** What comes after the configuration: the new domain answers, stale routes go, the cluster registers. */
  method Complete(c: Cluster, cr: Relocation) returns (failure: Option<Reason>)
    requires c.Works(cr) && Configured(c.st, cr.spec)
    modifies c
    ensures c.Moved(NOTHING) && c.Works(cr) && Configured(c.st, cr.spec) && c.Puts() == old(c.Puts())
    ensures failure.None? && cr.spec.acm.Some? ==> c.SawAvailable() && c.st.seenAvailable && Acm.Credential(cr) !in c.st.objs
    ensures c.hub == old(c.hub)
            || (cr.spec.acm.Some? && |c.hub| == |old(c.hub)| + 1 && Acm.Announced(c.states, |old(c.states)|, cr, c.hub[|old(c.hub)|]))
    ensures failure.Some? ==> failure.value == ReconcileInProgress || (failure.value == AcmFailed && cr.spec.acm.Some?)
    ensures failure != Some(ReconcileInProgress) ==> Answered(old(c.events), c.events, DomainAnswers(cr.spec.domain))
    ensures old(c.Calm()) ==> Quiet(old(c.st), c.st, TailKeys(cr))
    ensures old(c.Calm()) && failure.None? ==> TailSettled(c.st, cr)
    ensures old(c.Calm()) && TailSettled(old(c.st), cr) ==> c.Kept()
    ensures old(c.Faultless()) ==> failure == TailVerdict(old(c.st), cr)
    ensures old(c.Faultless()) && ToAnnounce(old(c.st), cr) && failure != Some(ReconcileInProgress) ==> |c.hub| == |old(c.hub)| + 1
    ensures old(c.Faultless()) && failure == Some(ReconcileInProgress) ==> OneRouteLess(old(c.st), c.st, AppsHost(cr.spec.domain))
  {
    hide Run, Inv, Steady, Quiet, Licence, Applying, Configured, Routes.StaleRoutes, Routes.MultiStale, OneRouteLess, Acm.Ready,
      Acm.AcmSettled, Acm.AcmFeasible, Acm.Announced, TailKeys, Acm.AcmKeys, Answered;
    ghost var s0 := c.st;
    var ok := MoveRoutes(c, cr);
    if !ok { return Some(ReconcileInProgress); }

    ghost var moved, seen, past := c.st, c.states, c.events;
    ConfiguredIsReady(moved, cr);
    ok := Acm.Reconcile(c, cr);
    if cr.spec.acm.Some? { Acm.AnnouncedWithin(c.states, |seen|, c.states, |old(c.states)|, cr); }
    AnswersGrow(old(c.events), past, c.events);
    SteadyJoin(s0, moved, c.st, NOTHING, NOTHING, NOTHING);
    StillConfigured(moved, c.st, cr.spec);
    if old(c.Calm()) { Tail(s0, moved, c.st, cr); }
    failure := if ok then None else Some(AcmFailed);
  }

  lemma Tail(s: State, t: State, u: State, cr: Relocation)
    requires Inv(s) && s.active == Some(cr)
    requires Quiet(s, t, TailKeys(cr)) && Quiet(t, u, Acm.AcmKeys(cr))
    ensures Quiet(s, u, TailKeys(cr))
    ensures Routes.StaleRoutes(u, AppsHost(cr.spec.domain)) == Routes.StaleRoutes(t, AppsHost(cr.spec.domain))
  {
    hide Inv, Quiet, Routes.StaleRoutes, Acm.AcmKeys;
    ReferencesWellFormed(s);
    Join(s, t, u, TailKeys(cr), Acm.AcmKeys(cr), TailKeys(cr));
    RoutesKept(t, u, cr, AppsHost(cr.spec.domain));
  }

  /* ------------------------------------------------- a pass past the gate */

  /** Nothing is left to do for this CR. */
  ghost predicate AllSettled(s: State, cr: Relocation) {
    SettledFor(s, cr, ALL) && TailSettled(s, cr)
  }

  /** Where a pass ends when no call fails: nowhere, or at this step. */
  ghost function PassVerdict(s: State, cr: Relocation): Option<Reason> {
    if Verdict(s, cr).Some? then Verdict(s, cr) else TailVerdict(s, cr)
  }

  lemma SettledVerdict(s: State, cr: Relocation)
    ensures SettledFor(s, cr, ALL) ==> Verdict(s, cr) == None
    ensures TailSettled(s, cr) ==> TailVerdict(s, cr) == None
  {
    hide PartSettled, PartFeasible, Routes.StaleEntries;
    if SettledFor(s, cr, ALL) {
      forall p | p in ALL ensures PartFeasible(s, cr, p) { SettledIsFeasible(s, cr, p); }
    }
    if TailSettled(s, cr) {
      assert Routes.MultiStale(s, AppsHost(cr.spec.domain)) <= Routes.StaleRoutes(s, AppsHost(cr.spec.domain));
    }
  }

  /** The sub-reconcilers leave routes and registration alone; the tail leaves the sub-reconcilers' work alone. */
  lemma TailApart(s: State, t: State, cr: Relocation)
    requires Quiet(s, t, KeysOf(ALL))
    ensures TailVerdict(t, cr) == TailVerdict(s, cr)
    ensures forall u :: OneRouteLess(t, u, AppsHost(cr.spec.domain)) == OneRouteLess(s, u, AppsHost(cr.spec.domain))
  {
    hide Quiet, Routes.StaleEntries;
    forall k: Key | k.Route? ensures SameAt(s, t, k) { SameKept(s, t, KeysOf(ALL), k); }
    assert Routes.MultiStale(t, AppsHost(cr.spec.domain)) == Routes.MultiStale(s, AppsHost(cr.spec.domain));
    Acm.QuietKeepsKlusterlet(s, t, KeysOf(ALL));
  }

  lemma TailIsForeign(cr: Relocation)
    requires cr.spec.WellFormed()
    ensures TailKeys(cr) <= Keys(Foreign)
  {
    forall k | k in TailKeys(cr) ensures PartOf(k) == Foreign {
      if cr.spec.acm.Some? && k == Acm.Credential(cr) { assert UserKey(k); }
    }
  }

  lemma ConfigurationApart(s: State, t: State, cr: Relocation)
    requires Quiet(s, t, TailKeys(cr)) && SettledFor(s, cr, ALL) && cr.spec.WellFormed()
    ensures SettledFor(t, cr, ALL)
  {
    hide Quiet, PartSettled;
    TailIsForeign(cr);
    forall p | p in ALL ensures PartSettled(t, cr, p) { SettledKept(s, t, TailKeys(cr), cr, p); }
  }

  lemma WholeFootprint(s: State, t: State, u: State, cr: Relocation)
    requires Quiet(s, t, KeysOf(ALL)) && Quiet(t, u, TailKeys(cr))
    ensures Quiet(s, u, Footprint(cr))
  {
    hide Quiet;
    Join(s, t, u, KeysOf(ALL), TailKeys(cr), Footprint(cr));
  }

  lemma ProgressIsConfigured(s: State, t: State, cr: Relocation, calm: bool)
    requires Progress(s, t, cr, ALL, calm)
    ensures Configured(t, cr.spec)
    ensures calm ==> Quiet(s, t, KeysOf(ALL)) && SettledFor(t, cr, ALL) && (SettledFor(s, cr, ALL) ==> t == s)
  {
    hide Quiet, Steady, PartDone, PartSettled, Configured;
    AllDone(t, cr.spec);
  }

  /** The tail after the configuration, seen from the beginning of the pass. */
  lemma WholePass(s: State, t: State, u: State, cr: Relocation, calm: bool)
    requires Steady(s, t, KeysOf(ALL)) && Steady(t, u, NOTHING) && cr.spec.WellFormed()
    requires calm ==> Quiet(s, t, KeysOf(ALL)) && SettledFor(t, cr, ALL) && Quiet(t, u, TailKeys(cr))
    ensures Steady(s, u, KeysOf(ALL))
    ensures calm ==> Quiet(s, u, Footprint(cr)) && SettledFor(u, cr, ALL)
  {
    hide Steady, Quiet, SettledFor, TailKeys, KeysOf, Footprint;
    SteadyJoin(s, t, u, KeysOf(ALL), NOTHING, KeysOf(ALL));
    if calm {
      WholeFootprint(s, t, u, cr);
      ConfigurationApart(t, u, cr);
    }
  }

  /** The failure of a sub-reconciler says how far the pass has come; any later failure finds the cluster configured. */
  ghost predicate Explained(s: State, t: State, sp: Spec, failure: Option<Reason>) {
    failure.Some? ==>
      if StepOf(failure.value).Some? then Stopped(s, t, sp, ALL, failure)
      else Configured(t, sp) && (failure.value == ReconcileInProgress || (failure.value == AcmFailed && sp.acm.Some?))
  }

  /** A faultless pass gets as far as the registration, and the registration has to start. */
  ghost predicate Announces(s: State, cr: Relocation) {
    Verdict(s, cr) == None && Routes.MultiStale(s, AppsHost(cr.spec.domain)) == {} && Acm.Registers(s, cr)
  }

  lemma AnnouncesLate(s: State, cr: Relocation)
    ensures Announces(s, cr) ==> Verdict(s, cr) == None
  {
    hide Verdict;
  }

  lemma RegistrationKept(s: State, t: State, cr: Relocation)
    requires Quiet(s, t, KeysOf(ALL)) && SettledFor(t, cr, ALL) && Announces(s, cr) && cr.spec.WellFormed()
    ensures ToAnnounce(t, cr) && TailVerdict(s, cr) == Some(AcmFailed)
  {
    hide Quiet, Verdict, Routes.MultiStale, SettledFor, KeysOf;
    CredentialApart(cr);
    Acm.StillRegisters(s, t, KeysOf(ALL), cr);
    SettledHasApiKey(t, cr);
  }

  lemma CredentialApart(cr: Relocation)
    requires cr.spec.acm.Some? && cr.spec.WellFormed()
    ensures Acm.Credential(cr) !in KeysOf(ALL)
  {
  }

  lemma SettledHasApiKey(s: State, cr: Relocation)
    requires SettledFor(s, cr, ALL)
    ensures ApiServers.ApiKey(cr.spec) in s.objs
  {
    assert PartSettled(s, cr, ApiPart);
  }

  /** The sub-reconcilers, as the rest of the pass sees them: they leave its verdict alone. */
  method Prepare(c: Cluster, cr: Relocation, version: SemVer.Version, ghost calm: bool) returns (failure: Option<Reason>)
    requires c.Works(cr) && Mirror.WasRead(c.st, version)
    requires calm ==> c.Calm() && version == c.st.version
    modifies c
    ensures c.Went(KeysOf(ALL)) && c.Works(cr) && cr.spec.WellFormed()
    ensures if failure.None? then Configured(c.st, cr.spec) else Explained(old(c.st), c.st, cr.spec, failure)
    ensures failure.None? ==> NamesResolve(old(c.events), c.events, cr.spec.domain)
    ensures calm ==> Quiet(old(c.st), c.st, KeysOf(ALL)) && Quiet(old(c.st), c.st, Footprint(cr))
    ensures calm ==> TailVerdict(c.st, cr) == TailVerdict(old(c.st), cr)
    ensures calm ==> forall u :: OneRouteLess(c.st, u, AppsHost(cr.spec.domain)) == OneRouteLess(old(c.st), u, AppsHost(cr.spec.domain))
    ensures calm && failure.None? ==> SettledFor(c.st, cr, ALL) && (SettledFor(old(c.st), cr, ALL) ==> c.st == old(c.st))
    ensures calm && failure.None? && Announces(old(c.st), cr) ==> ToAnnounce(c.st, cr) && TailVerdict(c.st, cr) == Some(AcmFailed)
    ensures calm && SettledFor(old(c.st), cr, ALL) && Catalogs.Distinct(cr.spec.catalogs) ==> c.Puts() == old(c.Puts())
    ensures calm && old(c.Faultless()) ==> failure == Verdict(old(c.st), cr) != Some(ReconcileInProgress)
  {
    hide Catalogs.Distinct, Run, Inv, Steady, Quiet, Licence, Applying, Configured, Progress, KeysOf, SettledFor, TailVerdict, Verdict,
      Footprint, Mirror.WasRead, OneRouteLess, Stopped, NamesResolve, ToAnnounce, Announces, Explained;
    ghost var s0 := c.st;
    ReferencesWellFormed(s0);
    failure := Configure(c, cr, version, calm);
    VerdictIsOther(s0, cr);
    if calm { TailApart(s0, c.st, cr); FootprintOf(s0, c.st, cr); }
    if failure.Some? {
      StoppedIsExplained(s0, c.st, cr.spec, failure);
      return;
    }
    ProgressIsConfigured(s0, c.st, cr, calm);
    if calm && Announces(s0, cr) { RegistrationKept(s0, c.st, cr); }
  }

  /** nil means that the cluster is configured as the spec asks, whatever others did meanwhile. */
  method Apply(c: Cluster, cr: Relocation, version: SemVer.Version, ghost calm: bool) returns (failure: Option<Reason>)
    requires c.Works(cr) && Mirror.WasRead(c.st, version)
    requires calm ==> c.Calm() && version == c.st.version
    modifies c
    ensures c.Moved(KeysOf(ALL)) && c.Works(cr)
    ensures failure.None? ==> Configured(c.st, cr.spec)
    ensures Explained(old(c.st), c.st, cr.spec, failure)
    ensures failure.None? ==> Verified(old(c.events), c.events, cr.spec.domain)
    ensures c.hub == old(c.hub)
            || (cr.spec.acm.Some? && |c.hub| == |old(c.hub)| + 1 && Acm.Announced(c.states, |old(c.states)|, cr, c.hub[|old(c.hub)|]))
    ensures failure.None? && cr.spec.acm.Some? ==> c.SawAvailable() && c.st.seenAvailable && Acm.Credential(cr) !in c.st.objs
    ensures calm ==> Quiet(old(c.st), c.st, Footprint(cr))
    ensures calm && failure.None? ==> AllSettled(c.st, cr)
    ensures calm && failure.None? && AllSettled(old(c.st), cr) ==> Acm.SameButSeen(old(c.st), c.st)
    ensures calm && SettledFor(old(c.st), cr, ALL) && Catalogs.Distinct(cr.spec.catalogs) ==> c.Puts() == old(c.Puts())
    ensures calm && old(c.Faultless()) ==> failure == PassVerdict(old(c.st), cr)
    ensures calm && old(c.Faultless()) && Announces(old(c.st), cr) ==> |c.hub| == |old(c.hub)| + 1
    ensures calm && old(c.Faultless()) && Verdict(old(c.st), cr) == None ==> SettledFor(c.st, cr, ALL)
    ensures calm && old(c.Faultless()) && failure == Some(ReconcileInProgress) ==> OneRouteLess(old(c.st), c.st, AppsHost(cr.spec.domain))
  {
    hide Catalogs.Distinct, Run, Inv, Steady, Quiet, Licence, Applying, Configured, KeysOf, SettledFor, TailSettled,
      TailVerdict, Verdict, TailKeys, Footprint, Mirror.WasRead, Acm.Announced, OneRouteLess, Answered, NamesResolve, ToAnnounce,
      Announces, AvailableIn, Explained;
    ghost var s0 := c.st;
    AnnouncesLate(s0, cr);
    failure := Prepare(c, cr, version, calm);
    if failure.Some? { return; }

    ghost var s1, seen, past := c.st, c.states, c.events;
    failure := Complete(c, cr);
    if cr.spec.acm.Some? {
      Acm.AnnouncedWithin(c.states, |seen|, c.states, |old(c.states)|, cr);
      AvailableStill(c.states, |seen|, c.states, |old(c.states)|);
    }
    AnswersGrow(old(c.events), past, c.events);
    VerifiedWithin(old(c.events), past, c.events, cr.spec.domain);
    WholePass(s0, s1, c.st, cr, calm);
    LateIsExplained(s0, c.st, cr.spec, failure);
  }

  lemma StoppedIsExplained(s: State, t: State, sp: Spec, failure: Option<Reason>)
    requires Stopped(s, t, sp, ALL, failure)
    ensures Explained(s, t, sp, failure)
  {
    hide Steady, DoneFor, Configured;
  }

  lemma LateIsExplained(s: State, t: State, sp: Spec, failure: Option<Reason>)
    requires Configured(t, sp)
    requires failure.Some? ==> failure.value == ReconcileInProgress || (failure.value == AcmFailed && sp.acm.Some?)
    ensures Explained(s, t, sp, failure)
  {
    hide Configured;
  }

  lemma FootprintOf(s: State, t: State, cr: Relocation)
    ensures Quiet(s, t, KeysOf(ALL)) ==> Quiet(s, t, Footprint(cr))
  {
    hide Quiet;
    Widen(s, t, KeysOf(ALL), Footprint(cr));
  }

  /** A sub-reconciler that cannot succeed is not taken for a pass that has to be repeated. */
  lemma VerdictIsOther(s: State, cr: Relocation)
    ensures Verdict(s, cr) != Some(ReconcileInProgress)
  {
  }

  /* ------------------------------------------------------------ conditions */

  datatype Result = Done | Requeue | Error

  /** validateCR: only the name "cluster" is valid. */
  function ReadyCondition(cr: Relocation): Condition {
    if cr.name == ClusterName then Condition(true, ValidationSucceeded, cr.generation)
    else Condition(false, ValidationFailed, cr.generation)
  }

  /** setFailedStatus, and the condition of a successful pass. */
  function ReconciledCondition(cr: Relocation, failure: Option<Reason>): Condition {
    if failure.None? then Condition(true, ReconciliationSucceeded, cr.generation)
    else Condition(false, failure.value, cr.generation)
  }

  /** The status of a finished pass may be stored: True only over a configured cluster, or on a copy that is refused. */
  ghost predicate Concludes(s: State, cr: Relocation, reconciled: Option<Condition>) {
    && s.active == Some(cr)
    && NewConditionOk(cr, cr.reconciled, reconciled)
    && (reconciled.Some? && reconciled.value.status ==>
          reconciled == cr.reconciled || (Successful(s) && reconciled.value.observed == cr.generation) || Superseded(s))
  }

  lemma StatusLicence(s: State, cr: Relocation, reconciled: Option<Condition>)
    requires Inv(s) && Concludes(s, cr, reconciled)
    ensures Licence(s, SetStatus(Some(ReadyCondition(cr)), reconciled))
  {
    hide Successful, Superseded;
  }

  lemma Conclusion(s: State, cr: Relocation, failure: Option<Reason>)
    requires Inv(s) && s.active == Some(cr)
    requires failure.None? ==> Successful(s) || Superseded(s)
    ensures Concludes(s, cr, Some(ReconciledCondition(cr, failure)))
    ensures Concludes(s, cr, cr.reconciled)
  {
    hide Successful, Superseded;
  }

  lemma Succeeded(s: State, cr: Relocation)
    requires Applying(s) && s.active == Some(cr) && Configured(s, cr.spec) && (cr.spec.acm.Some? ==> s.seenAvailable)
    ensures Successful(s)
  {
    hide Applying, Configured;
  }

  /** A pass past the gate, down to the self-destruction. */
  method Relocate(c: Cluster, cr: Relocation, version: SemVer.Version, ghost calm: bool) returns (result: Result, failure: Option<Reason>)
    requires c.Works(cr) && Mirror.WasRead(c.st, version)
    requires calm ==> c.Calm() && version == c.st.version
    modifies c
    ensures c.Valid() && c.Since(old(c.states), old(c.events))
    ensures Concludes(c.st, cr, Some(ReconciledCondition(cr, failure)))
    ensures result != Requeue && (result == Done ==> failure.None? && (cr.selfDestruct == Some("true") ==> Superseded(c.st)))
    ensures failure.None? ==> c.SawSuccess(cr) && Verified(old(c.events), c.events, cr.spec.domain)
    ensures calm && !cr.SelfDestructs() ==> Quiet(old(c.st), c.st, Footprint(cr))
    ensures calm && !cr.SelfDestructs() && failure.None? ==> AllSettled(c.st, cr)
    ensures calm && !cr.SelfDestructs() && failure.None? && AllSettled(old(c.st), cr) ==> Acm.SameButSeen(old(c.st), c.st)
    ensures calm && SettledFor(old(c.st), cr, ALL) && Catalogs.Distinct(cr.spec.catalogs) ==> c.Puts() == old(c.Puts())
    ensures old(c.tick) <= c.tick
    ensures calm && old(c.Faultless()) ==> failure == PassVerdict(old(c.st), cr) && result == (if failure.None? then Done else Error)
    ensures Explained(old(c.st), c.st, cr.spec, failure)
    ensures calm && old(c.Faultless()) && Announces(old(c.st), cr) ==> |c.hub| == |old(c.hub)| + 1
    ensures calm && old(c.Faultless()) && !cr.SelfDestructs() && Verdict(old(c.st), cr) == None ==> SettledFor(c.st, cr, ALL)
    ensures calm && old(c.Faultless()) && !cr.SelfDestructs() && failure == Some(ReconcileInProgress) ==>
              OneRouteLess(old(c.st), c.st, AppsHost(cr.spec.domain))
  {
    hide Catalogs.Distinct, Run, Inv, Steady, Quiet, Licence, Applying, Configured, KeysOf, SettledFor, AllSettled, PassVerdict,
      Verdict, Footprint,
      Mirror.WasRead, Superseded, Successful, Concludes, OneRouteLess, Verified, Announces, Stopped;
    failure := Apply(c, cr, version, calm);
    ghost var past := c.events;
    c.LastState();
    if failure.None? { Succeeded(c.st, cr); }
    Conclusion(c.st, cr, failure);
    if failure.Some? { return Error, failure; }
    if cr.SelfDestructs() {
      ghost var applied := c.st;
      OrphanLicence(applied, cr);
      var ok := c.DeleteOrphaning();
      VerifiedWithin(old(c.events), past, c.events, cr.spec.domain);
      if !Superseded(c.st) { SteadyKeepsSuccess(applied, c.st); }
      Conclusion(c.st, cr, None);
      if !ok { return Error, None; }
    }
    return Done, None;
  }

  lemma OrphanLicence(s: State, cr: Relocation)
    requires Successful(s) && s.active == Some(cr) && cr.SelfDestructs()
    ensures Licence(s, OrphanDelete)
  {
    hide Successful;
  }

  /* ------------------------------------------------------------- finalizing */

  /** The reset fields and the backup are put back; every step of this is harmless to repeat. */
  method Restore(c: Cluster) returns (ok: bool)
    requires c.Valid() && Finalising(c.st)
    modifies c
    ensures c.Went(KeysOf(ALL)) && Finalising(c.st)
    ensures ok ==> !Dirty(c.st)
    ensures old(c.Calm()) ==> Quiet(old(c.st), c.st, KeysOf(ALL))
    ensures old(c.Faultless()) ==> ok
  {
    hide Run, Inv, Steady, Quiet, Licence, Applying, Finalising, KeysOf;
    ghost var s0 := c.st;
    PartFrames();
    var ok0 := PullSecrets.Cleanup(c);
    Widen(s0, c.st, Keys(PullPart), KeysOf(ALL));
    if !ok0 { return false; }
    ghost var s1 := c.st;
    ok := Registry.Cleanup(c);
    Join(s0, s1, c.st, KeysOf(ALL), iset{ImageConfig}, KeysOf(ALL));
    AbsentKept(s1, c.st, iset{ImageConfig}, BACKUP);
    if !ok { return; }
    ghost var s2 := c.st;
    ok := ResetEndpoints(c);
    Join(s0, s2, c.st, KeysOf(ALL), KeysOf(ENDPOINTS), KeysOf(ALL));
    RestoredKept(s2, c.st);
  }

  lemma PartFrames()
    ensures Keys(PullPart) <= KeysOf(ALL) && iset{ImageConfig} <= KeysOf(ALL) && KeysOf(ENDPOINTS) <= KeysOf(ALL)
    ensures Ingresses.References() <= KeysOf(ENDPOINTS) && iset{ApiServer} <= KeysOf(ENDPOINTS)
  {
  }

  lemma RestoredKept(s: State, t: State)
    requires Inv(s) && Steady(s, t, KeysOf(ENDPOINTS))
    ensures BACKUP !in s.objs ==> BACKUP !in t.objs
    ensures !TrustedCA(s) ==> !TrustedCA(t)
  {
    hide Inv, Steady;
    InvOwners(s);
    SteadyKeepsPlatform(s, t, KeysOf(ENDPOINTS), ImageConfig);
    if BACKUP !in s.objs { AbsentKept(s, t, KeysOf(ENDPOINTS), BACKUP); }
  }

  /** The ingress and then the API server. */
  method ResetEndpoints(c: Cluster) returns (ok: bool)
    requires c.Valid() && Finalising(c.st)
    modifies c
    ensures c.Went(KeysOf(ENDPOINTS)) && Finalising(c.st)
    ensures ok ==> DefaultCert(c.st) == None && AppsDomain(c.st) == "" && ComponentRoutes(c.st) == [] && NamedCerts(c.st) == []
    ensures old(c.Calm()) ==> Quiet(old(c.st), c.st, KeysOf(ENDPOINTS))
    ensures old(c.Faultless()) ==> ok
  {
    hide Run, Inv, Steady, Quiet, Licence, Applying, Finalising, KeysOf;
    ghost var s0 := c.st;
    PartFrames();
    ok := Ingresses.Cleanup(c);
    Widen(s0, c.st, Ingresses.References(), KeysOf(ENDPOINTS));
    if !ok { return; }
    ghost var s1 := c.st;
    ok := ApiServers.Cleanup(c);
    Join(s0, s1, c.st, KeysOf(ENDPOINTS), iset{ApiServer}, KeysOf(ENDPOINTS));
    IngressKept(s1, c.st);
  }

  lemma IngressKept(s: State, t: State)
    requires Inv(s) && Steady(s, t, iset{ApiServer})
    ensures DefaultCert(t) == DefaultCert(s) && AppsDomain(t) == AppsDomain(s) && ComponentRoutes(t) == ComponentRoutes(s)
  {
    hide Inv, Steady;
    InvOwners(s);
    SteadyKeepsPlatform(s, t, iset{ApiServer}, IngressController);
    SteadyKeepsPlatform(s, t, iset{ApiServer}, IngressConfig);
  }

  ghost function RouteKeys(): iset<Key> { iset k: Key | k.Route? }

  /** What a finalization ever writes. */
  ghost function Restorable(): iset<Key> { iset k: Key | PartOf(k) != Foreign || k.Route? }

  lemma RestorableKeys()
    ensures KeysOf(ALL) <= Restorable() && RouteKeys() <= Restorable()
  {
  }

  lemma RoutesAreQuiet(s: State, t: State, domain: string)
    requires exists gone :: gone <= Routes.StaleRoutes(s, domain) && t == Without(s, gone)
    ensures Quiet(s, t, RouteKeys())
  {
    forall k: Key | !k.Route? ensures SameAt(s, t, k) { assert k !in Routes.StaleRoutes(s, domain); }
  }

  lemma BaseKept(s: State, t: State)
    requires Steady(s, t, KeysOf(ALL))
    ensures t.baseDomain == s.baseDomain
  {
    hide KeysOf;
  }

  lemma SameBase(s: State, t: State)
    requires Steady(s, t, NOTHING)
    ensures t.baseDomain == s.baseDomain
  {
  }

  lemma NoneOutdated(s: State, domain: string)
    ensures Routes.OutdatedRoutes(Without(s, Routes.OutdatedRoutes(s, domain)), domain) == {}
  {
    hide Routes.Outdated;
  }

  /** The routes are reset to the domain that the cluster was installed with. */
  method RestoreRoutes(c: Cluster) returns (ok: bool)
    requires c.Valid() && Finalising(c.st)
    modifies c
    ensures c.Went(NOTHING)
    ensures ok ==> Answered(old(c.events), c.events, DomainAnswers(old(c.st).baseDomain))
    ensures old(c.Calm()) && ok ==> Routes.OutdatedRoutes(c.st, "apps." + old(c.st).baseDomain) == {}
    ensures old(c.Calm()) ==> Quiet(old(c.st), c.st, RouteKeys())
    ensures old(c.Faultless()) ==> ok == (Routes.MultiStale(old(c.st), AppsHost(old(c.st).baseDomain)) == {})
    ensures old(c.Faultless()) && !ok ==> OneRouteLess(old(c.st), c.st, AppsHost(old(c.st).baseDomain))
  {
    hide Run, Inv, Steady, Quiet, Licence, Applying, Finalising, Routes.MultiStale, Routes.StaleRoutes, Routes.OutdatedRoutes, Routes.Reset,
      Without, Answered;
    ghost var s0 := c.st;
    Stay(s0, RouteKeys());
    var domain := c.GetBaseDomain();
    if !domain.Ok? { return false; }
    ghost var s1, past := c.st, c.events;
    SameBase(s0, s1);
    ok := c.Probe(DomainAnswers(domain.value));
    AnswersGrow(old(c.events), past, c.events);
    SteadyJoin(s0, s1, c.st, NOTHING, NOTHING, NOTHING);
    if !ok { return; }
    ghost var s2 := c.st;
    past := c.events;
    ok := Routes.ResetRoutes(c, AppsHost(domain.value));
    AnswersGrow(old(c.events), past, c.events);
    SteadyJoin(s0, s2, c.st, NOTHING, NOTHING, NOTHING);
    if old(c.Calm()) {
      RoutesAreQuiet(s2, c.st, AppsHost(domain.value));
      NoneOutdated(s2, "apps." + domain.value);
    }
  }

  lemma StillClean(s: State, t: State)
    requires Inv(s) && Steady(s, t, NOTHING) && !Dirty(s)
    ensures !Dirty(t)
  {
    hide Inv, Steady;
    InvOwners(s);
    SteadyKeepsConfiguration(s, t);
    AbsentKept(s, t, NOTHING, BACKUP);
  }

  lemma RoutesApart(s: State, t: State, domain: string)
    requires Quiet(s, t, KeysOf(ALL))
    ensures Routes.MultiStale(t, domain) == Routes.MultiStale(s, domain) && t.baseDomain == s.baseDomain && t.crs == s.crs
  {
    hide Quiet, Routes.StaleEntries;
    forall k: Key | k.Route? ensures SameAt(s, t, k) { SameKept(s, t, KeysOf(ALL), k); }
    QuietKeepsBase(s, t);
  }

  lemma QuietKeepsBase(s: State, t: State)
    requires Quiet(s, t, KeysOf(ALL))
    ensures t.baseDomain == s.baseDomain && t.crs == s.crs
  {
  }

  /** A self-destruction removes the operator and leaves the cluster as it is; any other deletion restores the cluster first. */
  method FinalizeRelocation(c: Cluster, cr: Relocation) returns (ok: bool)
    requires c.Valid() && c.st.active == Some(cr) && cr.deleting && cr.Guarded() && (cr.SelfDestructs() || Finalising(c.st))
    modifies c
    ensures c.Went(if cr.SelfDestructs() then NOTHING else KeysOf(ALL))
    ensures ok ==> cr.SelfDestructs() || !Dirty(c.st)
    ensures old(c.Calm()) ==> Quiet(old(c.st), c.st, if cr.SelfDestructs() then NOTHING else Restorable())
    ensures ok && cr.SelfDestructs() ==> Answered(old(c.events), c.events, OperatorRemoved)
    ensures ok && !cr.SelfDestructs() ==> Answered(old(c.events), c.events, DomainAnswers(old(c.st).baseDomain))
    ensures old(c.Calm()) && ok && !cr.SelfDestructs() ==> Routes.OutdatedRoutes(c.st, "apps." + old(c.st).baseDomain) == {}
    ensures old(c.Calm()) && cr.SelfDestructs() ==> c.st == old(c.st)
    ensures old(c.Faultless()) && cr.SelfDestructs() ==> ok
    ensures old(c.Faultless()) && !cr.SelfDestructs() ==> ok == (Routes.MultiStale(old(c.st), AppsHost(old(c.st).baseDomain)) == {})
    ensures old(c.Faultless()) && !cr.SelfDestructs() && !ok ==> OneRouteLess(old(c.st), c.st, AppsHost(old(c.st).baseDomain))
  {
    hide Run, Inv, Steady, Quiet, Licence, Applying, Finalising, KeysOf, RouteKeys, Restorable, Routes.MultiStale,
      Routes.OutdatedRoutes, Dirty, Answered;
    Stay(c.st, NOTHING);
    if cr.SelfDestructs() {
      ok := c.Probe(OperatorRemoved);
      return;
    }
    ghost var s0 := c.st;
    RestorableKeys();
    ok := Restore(c);
    ghost var s1 := c.st;
    if old(c.Calm()) { RoutesApart(s0, s1, AppsHost(s0.baseDomain)); }
    Widen(s0, s1, KeysOf(ALL), Restorable());
    if !ok { return; }
    ghost var past := c.events;
    BaseKept(s0, s1);
    ok := RestoreRoutes(c);
    AnswersGrow(old(c.events), past, c.events);
    StillClean(s1, c.st);
    SteadyJoin(s0, s1, c.st, KeysOf(ALL), NOTHING, KeysOf(ALL));
    if old(c.Calm()) { QuietJoin(s0, s1, c.st, KeysOf(ALL), RouteKeys(), Restorable()); }
  }

  /* -------------------------------------------------------------- the pass */

  /** What a pass depends on, apart from the CR itself. */
  predicate SameCluster(s: State, t: State) {
    t.objs == s.objs && t.version == s.version && t.singleNode == s.singleNode && t.klusterlet == s.klusterlet
  }

  /** Status and finalizers are nothing to the sub-reconcilers. */
  predicate SameTask(a: Relocation, b: Relocation) {
    a.uid == b.uid && a.spec == b.spec
  }

  lemma SettledForTask(s: State, t: State, a: Relocation, b: Relocation)
    requires SameCluster(s, t) && SameTask(a, b) && s.active == Some(a) && t.active == Some(b)
    ensures SettledFor(s, a, ALL) ==> SettledFor(t, b, ALL)
    ensures TailSettled(s, a) ==> TailSettled(t, b)
    ensures TailVerdict(t, b) == TailVerdict(s, a)
  {
    hide Routes.StaleEntries, LastImage, Listed;
    if SettledFor(s, a, ALL) {
      forall p | p in ALL ensures PartSettled(t, b, p) {
        assert PartSettled(s, a, p);
        PartSettledForTask(s, t, a, b, p);
      }
    }
  }

  lemma PartSettledForTask(s: State, t: State, a: Relocation, b: Relocation, p: Part)
    requires SameCluster(s, t) && SameTask(a, b) && s.active == Some(a) && t.active == Some(b) && PartSettled(s, a, p)
    ensures PartSettled(t, b, p)
  {
    hide LastImage, Listed;
    if p == CatalogPart {
      forall n | Listed(b.spec.catalogs, n)
        ensures Mine(t, b, Catalog(n), CatalogBody(LastImage(b.spec.catalogs, n))) && !Catalogs.Controlled(t, n)
      {
        assert Mine(s, a, Catalog(n), CatalogBody(LastImage(a.spec.catalogs, n))) && !Catalogs.Controlled(s, n);
      }
    }
  }
}
