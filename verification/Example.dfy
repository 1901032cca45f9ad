/** Concrete clusters, and what the operator makes of them: a relocation, and two in which a user loses something. */
module Example {
  import opened Types
  import opened Store
  import opened Goals
  import opened Protocol
  import opened Fixpoints
  import opened ClusterApi
  import opened Parts
  import opened Controller
  import opened Reconciliation
  import opened Convergence
  import SemVer
  import Catalogs
  import Routes
  import Ingresses
  import ApiServers
  import Limits

  const QUIET := (n: nat) => Turn([], Fine, 0, n, HubError)

  /* --------------------------------------------------------- a relocation */

  /* A fresh CR, a signer to generate certificates with, and a route that aborts one pass. */

  const SPEC := Spec("new.example", None, None, None, None, None, [CatalogSource("mirror", "registry/index")], None, None, Some(["key"]))

  const CR := Relocation(ClusterName, 0, 1, false, {}, None, SPEC, None, None)

  const ORIGINAL := SecretBody(map[OtherData(".dockerconfigjson") := Raw("{}")], DockerConfigJson)

  const SIGNER_BODY := SecretBody(map[TlsCrt := CertPem("signer", 0), TlsKeyName := KeyPem(0)], Tls)

  const ROUTE := Route("shop", "front")

  /** Two stale entries of the default router. */
  const ENTRIES := [RouteIngress("default", "old"), RouteIngress("default", "old")]

  const BEFORE := State(
    map[LIVE := Obj(NO_OWNERS, ORIGINAL), SIGNER := Obj(NO_OWNERS, SIGNER_BODY), ROUTE := Obj(NO_OWNERS, RouteBody(ENTRIES))],
    map[ClusterName := CR],
    SemVer.Version(4, 14, 3, []), "old.example", None, true, 1, None, ORIGINAL, false, {}, false, false, true)

  lemma Untouched()
    ensures Init(BEFORE)
  {
  }

  lemma OneRoute()
    ensures Routes.MultiStale(BEFORE, Domain(BEFORE)) == {ROUTE}
  {
    var domain := Domain(BEFORE);
    assert |domain| > 3;
    assert !Routes.Contains("old", domain);
    assert ENTRIES[..1] == [RouteIngress("default", "old")];
    assert ENTRIES[..1][..0] == [];
    assert Routes.StaleEntries(ENTRIES[..1], domain) == 1;
    assert Routes.StaleEntries(ENTRIES, domain) == 2;
    assert Routes.Deletes(ROUTE, BEFORE.objs[ROUTE], domain) == 2;
  }

  lemma NothingIsMissing()
    ensures Unseen(BEFORE) && Feasible(BEFORE)
  {
    var s := Entered(BEFORE, CR);
    assert PartFeasible(s, CR, CatalogPart) by { assert !Catalogs.Controlled(BEFORE, "mirror"); }
    hide Catalogs.CatalogFeasible;
    assert PartFeasible(s, CR, PullPart) && PartFeasible(s, CR, IngressPart) && PartFeasible(s, CR, ApiPart);
  }

  /** One pass for the gate, one that the route aborts, one that succeeds. */
  method RelocateFreshCluster() returns (passes: nat)
    ensures passes == 3
  {
    hide Init, Feasible, Unseen, Routes.MultiStale, Run, Inv, AllSettled, Domain;
    Untouched();
    OneRoute();
    NothingIsMissing();
    var c := new Cluster(BEFORE, QUIET);
    var r := new Reconciler(c);
    passes := Converge(r);
  }

  /* ---------------------------------------------------------- steps of users */

  /** A user requests the deletion of a CR that has the finalizer. */
  lemma DeletionRequested(s: State, name: CrName)
    requires name in s.crs && s.crs[name].name == name && !s.crs[name].deleting
    requires s.crs[name].Guarded() && !s.crs[name].SelfDestructs()
    ensures EnvStep(s, DeleteCr(name)) == s.(crs := s.crs[name := MarkDeleted(s.crs[name])])
    ensures var cr := MarkDeleted(s.crs[name]);
      cr.name == name && cr.uid == s.crs[name].uid && cr.deleting && cr.Guarded() && !cr.SelfDestructs()
  {
    hide EnvObjs, InPlaceFirm;
    assert s.crs[name].finalizers != {};
    assert EnvObjs(s, DeleteCr(name)) == s.objs by { NoObjects(s, name); }
  }

  lemma NoObjects(s: State, name: CrName)
    requires EnvEnabled(s, DeleteCr(name))
    ensures EnvObjs(s, DeleteCr(name)) == s.objs
  {
  }

  /** A user asks for a second relocation. */
  lemma Recreated(s: State)
    requires ClusterName !in s.crs
    ensures Unseen(EnvStep(s, CreateCr(ClusterName, SECOND, None)))
    ensures var t := EnvStep(s, CreateCr(ClusterName, SECOND, None));
      t == s.(crs := s.crs[ClusterName := CR.(uid := s.nextUid, spec := SECOND)], nextUid := s.nextUid + 1, inPlaceSafe := t.inPlaceSafe)
  {
    hide InPlaceFirm;
  }

  lemma QuietIsFaultless(c: Cluster)
    requires c.turns == QUIET
    ensures c.Faultless()
  {
  }

  lemma AdmittedIsKept(s: State, cr: Relocation)
    requires Admitted(s, cr)
    ensures cr.name == ClusterName && !cr.deleting && cr.Guarded() && !cr.SelfDestructs()
  {
  }

  /** Only the finalizer of the operator holds back a CR that is not being deleted. */
  lemma NothingElseHolds(s: State)
    requires Inv(s) && ClusterName in s.crs && !s.crs[ClusterName].deleting && s.crs[ClusterName].name == ClusterName
    ensures Stored(s.crs[ClusterName := MarkDeleted(s.crs[ClusterName])], WithoutFinalizer(MarkDeleted(s.crs[ClusterName])))
            == s.crs - {ClusterName}
  {
    var cr := s.crs[ClusterName];
    assert OwnerHeld(s);
    assert OrphanFinalizer !in cr.finalizers;
    assert cr.finalizers - {RelocationFinalizer} == {} by {
      forall f | f in cr.finalizers ensures f == RelocationFinalizer { assert f != OrphanFinalizer; }
    }
  }

  /* ----------------------------------------------- a CR of another name */

  const OTHER := OtherCr("relocation-2")

  /** The same cluster, with a second CR whose name is not valid. */
  const TWO := BEFORE.(crs := map[ClusterName := CR, OTHER := CR.(name := OTHER, uid := 1)], nextUid := 2)

  lemma TwoUntouched()
    ensures Init(TWO)
  {
    Untouched();
  }

  lemma TwoFeasible()
    ensures Unseen(TWO) && Feasible(TWO)
  {
    hide Unseen, Feasible, Verdict;
    NothingIsMissing();
    SameFeasible(BEFORE, TWO);
  }

  lemma SameFeasible(s: State, t: State)
    requires Unseen(s) && Feasible(s) && SameCluster(s, t) && ClusterName in t.crs && t.crs[ClusterName] == s.crs[ClusterName]
    ensures Unseen(t) && Feasible(t)
  {
    hide Verdict;
    FeasibleForTask(Entered(s, s.crs[ClusterName]), Entered(t, s.crs[ClusterName]), s.crs[ClusterName], s.crs[ClusterName]);
  }

  lemma RefusedOther(s: State)
    requires OTHER in s.crs && s.crs[OTHER] == TWO.crs[OTHER]
    ensures var t := Refused(s, s.crs[OTHER]);
      && t.crs == s.crs[OTHER := t.crs[OTHER]] && t.active.None?
      && t.crs[OTHER].name == OTHER && !t.crs[OTHER].deleting && t.crs[OTHER].Guarded() && !t.crs[OTHER].SelfDestructs()
  {
  }

  lemma SettledIsNamed(s: State, cr: Relocation)
    requires AllSettled(Entered(s, cr), cr)
    ensures NamedCerts(s) == [NamedCert([ApiHost(cr.spec.domain)], ApiSecret(cr.spec))]
  {
    hide TailSettled, ApiServers.CertSettled;
    assert PartSettled(Entered(s, cr), cr, ApiPart);
  }

  lemma CleanIsNotDone(s: State, sp: Spec)
    requires !Dirty(s)
    ensures !ApiDone(s, sp)
  {
  }

  /** The CR "cluster" has been relocated to. A user deletes the other CR, for which the operator did nothing but add its
      finalizer: the configuration is gone, while the CR "cluster" still says Reconciled=True. */
  method LoseConfiguration() returns (c: Cluster, ghost relocated: State)
    ensures c.Valid() && c.states != [] && c.states[0] == TWO && Init(TWO)
    ensures relocated in c.states && NamedCerts(relocated) != []
    ensures ClusterName in c.st.crs && !c.st.crs[ClusterName].deleting
    ensures var cr := c.st.crs[ClusterName];
      cr.reconciled == Some(Condition(true, ReconciliationSucceeded, cr.generation)) && !ApiDone(c.st, cr.spec)
  {
    hide Init, Feasible, Unseen, Admitted, AllSettled, OthersKept, Footprint, Restorable, Dirty, Run, Inv, Steady,
      EnvStep, Refused, Entered, MarkDeleted, ApiDone, NamedCerts, Routes.MultiStale, Domain;
    TwoUntouched();
    TwoFeasible();
    c := new Cluster(TWO, QUIET);
    QuietIsFaultless(c);
    var r := new Reconciler(c);
    var passes := Converge(r);
    relocated := c.st;
    c.LastState();
    ghost var cr := c.st.crs[ClusterName];
    AdmittedIsKept(c.st, cr);
    SettledIsNamed(c.st, cr);
    var result := r.Reconcile(OTHER);
    RefusedOther(relocated);
    ghost var refused := c.st;
    c.Interfere(DeleteCr(OTHER));
    DeletionRequested(refused, OTHER);
    passes := Limits.AnyNameRestores(r, OTHER);
    CleanIsNotDone(c.st, cr.spec);
  }

  /* ------------------------------------- a certificate that is named in place */

  const CERT_REF := SecretRef(OpenshiftConfig, OtherSecret("my-cert"))

  const CERT := CERT_REF.Key()

  const SPARE_REF := SecretRef(OtherNamespace("certificates"), OtherSecret("spare-cert"))

  const SPARE := SPARE_REF.Key()

  const TLS_BODY := SecretBody(map[TlsCrt := CertPem("new.example", 7), TlsKeyName := KeyPem(7)], Tls)

  /** First the certificate is for the ingress, and copied. */
  const FIRST := Spec("new.example", None, None, Some(SPARE_REF), Some(CERT_REF), None, [], None, None, None)

  /** Later it is for the API server, and named in place. */
  const SECOND := Spec("new.example", None, None, Some(CERT_REF), Some(SPARE_REF), None, [], None, None, None)

  const STAGE := State(
    map[LIVE := Obj(NO_OWNERS, ORIGINAL), CERT := Obj(NO_OWNERS, TLS_BODY), SPARE := Obj(NO_OWNERS, TLS_BODY),
        ApiServer := Obj(NO_OWNERS, ApiServerBody([])), IngressController := Obj(NO_OWNERS, IngressControllerBody(None)),
        IngressConfig := Obj(NO_OWNERS, IngressBody("", [])), ImageConfig := Obj(NO_OWNERS, ImageBody(false))],
    map[ClusterName := CR.(spec := FIRST)],
    SemVer.Version(4, 14, 3, []), "old.example", None, true, 1, None, ORIGINAL, false, {}, false, false, true)

  lemma StageUntouched()
    ensures Init(STAGE) && Unseen(STAGE) && Supplied(STAGE.objs) && !STAGE.crs[ClusterName].SelfDestructs()
  {
    StageObjects();
    StageClean();
    hide WellTyped, Dirty, OperatorOnly;
  }

  lemma StageObjects()
    ensures WellTyped(STAGE) && forall k :: k in STAGE.objs ==> STAGE.objs[k].owners.cr.None? && !OperatorOnly(k)
  {
  }

  lemma StageClean()
    ensures !Dirty(STAGE)
  {
  }

  /** Both certificates are there. */
  predicate Supplied(objs: map<Key, Obj>) {
    CERT in objs && objs[CERT].body == TLS_BODY && SPARE in objs && objs[SPARE].body == TLS_BODY
  }

  /** The first one belongs to the CR with UID 0 alone. */
  predicate OwnedByFirst(objs: map<Key, Obj>) {
    Supplied(objs) && objs[CERT].owners == Owners([], Some(CrRef(0, false)), [])
  }

  lemma SuppliedIsFeasible(s: State, cr: Relocation)
    requires Supplied(s.objs) && (cr.spec == FIRST || cr.spec == SECOND)
    requires ClusterName in s.crs && s.crs[ClusterName] == cr && cr.name == ClusterName && !cr.deleting && !cr.SelfDestructs()
    ensures Feasible(s)
  {
    var t := Entered(s, cr);
    assert PartFeasible(t, cr, PullPart) && PartFeasible(t, cr, CatalogPart);
    assert PartFeasible(t, cr, IngressPart) && PartFeasible(t, cr, ApiPart);
  }

  /** The pass on the first CR has taken ownership of the certificate that it copied. */
  lemma FirstOwns(s: State, cr: Relocation)
    requires cr.uid == 0 && cr.spec == FIRST && AllSettled(Entered(s, cr), cr) && OthersKept(STAGE, s, Footprint(cr), cr)
    ensures OwnedByFirst(s.objs)
  {
    hide AllSettled;
    FirstAdopts(s, cr);
    assert CERT !in Footprint(cr) && SPARE !in Footprint(cr);
    assert KeptFor(STAGE, s, CERT, cr) && KeptFor(STAGE, s, SPARE, cr);
  }

  lemma FirstAdopts(s: State, cr: Relocation)
    requires cr.uid == 0 && cr.spec == FIRST && AllSettled(Entered(s, cr), cr)
    ensures CERT in s.objs && s.objs[CERT].owners.cr == Some(CrRef(0, false))
  {
    hide TailSettled, Ingresses.ReferencesSettled;
    assert PartSettled(Entered(s, cr), cr, IngressPart);
  }

  /** Its finalization does not give that up. */
  lemma StillFirst(s: State, t: State, cr: Relocation)
    requires OwnedByFirst(s.objs) && cr.uid == 0 && OthersKept(s, t, Restorable(), cr)
    ensures OwnedByFirst(t.objs) && Supplied(t.objs)
  {
    assert CERT !in Restorable() && SPARE !in Restorable();
    assert KeptFor(s, t, CERT, cr) && KeptFor(s, t, SPARE, cr);
  }

  /** The second CR has another UID, and its passes take no ownership. */
  lemma SecondDoesNotOwn(s: State, t: State, cr: Relocation)
    requires OwnedByFirst(s.objs) && cr.spec == SECOND && OthersKept(s, t, Footprint(cr), cr)
    ensures OwnedByFirst(t.objs)
  {
    assert CERT !in Footprint(cr) && SPARE !in Footprint(cr);
    assert KeptFor(s, t, CERT, cr) && KeptFor(s, t, SPARE, cr);
  }

  lemma NewUid(s: State)
    requires Inv(s) && OwnedByFirst(s.objs)
    ensures Supplied(s.objs) && s.nextUid > 0 && !CR.SelfDestructs()
  {
    assert CERT in s.objs;
  }

  lemma NamedAndLost(s: State, cr: Relocation)
    requires OwnedByFirst(s.objs) && cr.spec == SECOND && cr.uid != 0 && ClusterName in s.crs && s.crs[ClusterName] == cr
    requires NamedCerts(s) == [NamedCert([ApiHost(cr.spec.domain)], ApiSecret(cr.spec))]
    ensures var after := EnvStep(s, Collect(CERT)); Referenced(after, CERT) && CERT !in after.objs
  {
    var after := EnvStep(s, Collect(CERT));
    assert NamedCerts(after) == NamedCerts(s);
    assert NamedCerts(after)[0].secret == CERT.name;
  }

  /** The CR has its ingress certificate copied, and is deleted: the certificate now belongs to nobody. */
  method AbandonCertificate() returns (r: Reconciler)
    ensures r.client.Valid() && r.client.states != [] && r.client.states[0] == STAGE && Init(STAGE)
    ensures r.client.st.active.None? && r.client.Faultless() && fresh(r) && fresh(r.client)
    ensures ClusterName !in r.client.st.crs && OwnedByFirst(r.client.st.objs)
  {
    hide Init, Feasible, Unseen, Admitted, AllSettled, OthersKept, Footprint, Restorable, Dirty, Run, Inv, Steady,
      EnvStep, Entered, MarkDeleted, Stored, WithoutFinalizer, Supplied, OwnedByFirst, Routes.MultiStale, Domain;
    StageUntouched();
    SuppliedIsFeasible(STAGE, STAGE.crs[ClusterName]);
    var c := new Cluster(STAGE, QUIET);
    QuietIsFaultless(c);
    r := new Reconciler(c);
    var passes := Converge(r);
    ghost var relocated, cr := c.st, c.st.crs[ClusterName];
    AdmittedIsKept(relocated, cr);
    FirstOwns(relocated, cr);
    NothingElseHolds(relocated);
    c.Interfere(DeleteCr(ClusterName));
    DeletionRequested(relocated, ClusterName);
    ghost var deleting := c.st;
    passes := Retire(r, ClusterName);
    StillFirst(deleting, c.st, MarkDeleted(cr));
  }

  /** Another CR names the same secret in place for the API server, and the garbage collector takes it: the API server names
      a secret that is not there. */
  method LoseCertificate() returns (c: Cluster)
    ensures c.Valid() && c.states != [] && c.states[0] == STAGE && Init(STAGE)
    ensures Referenced(c.st, CERT) && CERT !in c.st.objs
  {
    hide Init, Feasible, Unseen, Admitted, AllSettled, OthersKept, Footprint, Dirty, Run, Inv, Steady, EnvStep, Entered,
      NamedCerts, Referenced, Supplied, OwnedByFirst, Routes.MultiStale, Domain;
    var r := AbandonCertificate();
    c := r.client;
    ghost var retired := c.st;
    NewUid(retired);
    c.Interfere(CreateCr(ClusterName, SECOND, None));
    Recreated(retired);
    ghost var recreated := c.st;
    SuppliedIsFeasible(recreated, recreated.crs[ClusterName]);
    var passes := Converge(r);
    ghost var cr := c.st.crs[ClusterName];
    SecondDoesNotOwn(recreated, c.st, cr);
    SettledIsNamed(c.st, cr);
    NamedAndLost(c.st, cr);
    c.Interfere(Collect(CERT));
  }
}
