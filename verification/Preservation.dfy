/** Every step keeps the invariant; a licence survives every step of the environment. */
module Preservation {
  import opened Types
  import opened Store
  import opened Goals
  import opened Protocol
  import SemVer

  lemma InitialInvariant(s: State)
    requires Init(s)
    ensures Inv(s)
  {
  }

  /* ---------------------------------------------------------- environment */

  /** The environment never changes who a living owner is: the owner goes only when nothing refers to it. */
  lemma EnvKeepsAlive(s: State, a: EnvAction, uid: nat)
    requires OwnerHeld(s) && CrsOk(s)
    requires Alive(s, uid) && !Stripped(s, uid)
    ensures Alive(EnvStep(s, a), uid)
  {
  }

  lemma EnvKeepsObject(s: State, a: EnvAction, k: Key)
    requires Firm(s, k)
    requires PartOf(k) != Foreign || (Pinned(s, k) && EnvStep(s, a).inPlaceSafe)
    requires k.Catalog? ==> CrOwned(s, k) && !a.Orphan?
    ensures var s' := EnvStep(s, a);
      && k in s'.objs
      && (PartOf(k) != Foreign ==> s'.objs[k].body == s.objs[k].body)
      && (s'.objs[k].owners == s.objs[k].owners || s'.objs[k].owners == s.objs[k].owners.(cr := None))
  {
  }

  /** What the garbage collector cannot take stays out of its reach. */
  lemma EnvKeepsFirm(s: State, a: EnvAction, k: Key)
    requires OwnerHeld(s) && CrsOk(s)
    requires Firm(s, k)
    requires PartOf(k) != Foreign || (Pinned(s, k) && EnvStep(s, a).inPlaceSafe)
    requires k.Catalog? ==> CrOwned(s, k) && !a.Orphan?
    ensures Firm(EnvStep(s, a), k)
    ensures PartOf(k) != Foreign ==> EnvStep(s, a).objs[k].body == s.objs[k].body
  {
    hide EnvStep, EnvEffect, EnvEnabled, OwnerHeld, CrsOk, Pinned;
    EnvKeepsObject(s, a, k);
    var o := s.objs[k].owners;
    if o.cr.Some? && Alive(s, o.cr.value.uid) {
      assert !Stripped(s, o.cr.value.uid);
      EnvKeepsAlive(s, a, o.cr.value.uid);
    }
  }

  lemma EnvCreatesNothing(s: State, a: EnvAction, k: Key)
    requires PartOf(k) != Foreign && !k.Catalog?
    requires k in EnvStep(s, a).objs
    ensures k in s.objs && EnvStep(s, a).objs[k].body == s.objs[k].body
  {
  }

  /** Objects of the platform are as the operator left them. */
  lemma EnvKeepsPlatform(s: State, a: EnvAction, k: Key)
    requires OwnersOk(s) && OwnerHeld(s) && CrsOk(s)
    requires Unowned(k) && PartOf(k) != Foreign
    ensures k in s.objs <==> k in EnvStep(s, a).objs
    ensures k in s.objs ==> EnvStep(s, a).objs[k].body == s.objs[k].body
  {
    if k in s.objs {
      EnvKeepsFirm(s, a, k);
    } else if k in EnvStep(s, a).objs {
      EnvCreatesNothing(s, a, k);
    }
  }

  lemma EnvKeepsHistory(s: State, a: EnvAction)
    ensures EnvStep(s, a).retained == s.retained && EnvStep(s, a).original == s.original
  {
    hide EnvObjs, EnvCrs, EnvEnabled, InPlaceFirm;
  }

  lemma EnvKeepsConfiguration(s: State, a: EnvAction)
    requires OwnersOk(s) && OwnerHeld(s) && CrsOk(s)
    ensures NamedCerts(EnvStep(s, a)) == NamedCerts(s)
    ensures DefaultCert(EnvStep(s, a)) == DefaultCert(s)
    ensures AppsDomain(EnvStep(s, a)) == AppsDomain(s)
    ensures ComponentRoutes(EnvStep(s, a)) == ComponentRoutes(s)
    ensures TrustedCA(EnvStep(s, a)) == TrustedCA(s)
    ensures EnvStep(s, a).retained == s.retained
  {
    hide EnvStep, OwnerHeld, CrsOk, OwnersOk;
    EnvKeepsHistory(s, a);
    EnvKeepsPlatform(s, a, ApiServer);
    EnvKeepsPlatform(s, a, IngressController);
    EnvKeepsPlatform(s, a, IngressConfig);
    EnvKeepsPlatform(s, a, ImageConfig);
  }

  lemma EnvKeepsTypes(s: State, a: EnvAction)
    requires WellTyped(s)
    ensures WellTyped(EnvStep(s, a))
  {
  }

  lemma EnvKeepsOwners(s: State, a: EnvAction)
    requires OwnersOk(s) && CrsOk(s)
    ensures OwnersOk(EnvStep(s, a))
  {
  }

  /** What one step of somebody else can make of a CR that stays. */
  predicate CrMove(before: Relocation, after: Relocation) {
    || after == before
    || after == before.(spec := after.spec, generation := before.generation + 1)
    || (!before.deleting && after == before.(selfDestruct := after.selfDestruct))
    || (!before.SelfDestructs() && after == MarkDeleted(before))
    || after == before.(finalizers := before.finalizers - {OrphanFinalizer})
  }

  lemma EnvMovesCr(s: State, a: EnvAction, n: CrName)
    requires CrsOk(s)
    requires n in s.crs && s.crs[n].Guarded()
    ensures n in EnvStep(s, a).crs && CrMove(s.crs[n], EnvStep(s, a).crs[n])
  {
    hide InPlaceFirm, Stripped, Collectable, Pinned, Typed, ConditionsOk, UserKey, EnvObjs;
    if EnvEnabled(s, a) {
      assert RelocationFinalizer in s.crs[n].finalizers - {OrphanFinalizer};
    }
  }

  /** A CR with the finalizer stays, whatever users do. */
  lemma EnvKeepsGuarded(s: State, a: EnvAction, n: CrName)
    requires CrsOk(s)
    requires n in s.crs && s.crs[n].Guarded()
    ensures var s' := EnvStep(s, a);
      && n in s'.crs && s'.crs[n].Guarded()
      && s'.crs[n].uid == s.crs[n].uid
      && s'.crs[n].finalizers <= s.crs[n].finalizers
  {
    hide EnvStep, CrsOk;
    EnvMovesCr(s, a, n);
  }

  /** A requested deletion is not taken back, and does not turn into a self-destruction. */
  lemma EnvKeepsDeletion(s: State, a: EnvAction, n: CrName)
    requires CrsOk(s)
    requires n in s.crs && s.crs[n].Guarded()
    ensures var s' := EnvStep(s, a);
      && n in s'.crs
      && (s.crs[n].deleting ==> s'.crs[n].deleting && s'.crs[n].selfDestruct == s.crs[n].selfDestruct)
      && (s'.crs[n].deleting && s'.crs[n].SelfDestructs() ==> s.crs[n].deleting)
  {
    hide EnvStep, CrsOk;
    EnvMovesCr(s, a, n);
  }

  lemma EnvKeepsCrs(s: State, a: EnvAction)
    requires CrsOk(s) && ActiveOk(s)
    ensures CrsOk(EnvStep(s, a)) && ActiveOk(EnvStep(s, a))
  {
    hide EnvStep, CrsOk, ActiveOk;
    EnvKeepsStored(s, a);
    EnvKeepsCopy(s, a);
  }

  lemma EnvKeepsStored(s: State, a: EnvAction)
    requires CrsOk(s)
    ensures CrsOk(EnvStep(s, a))
  {
    hide InPlaceFirm, Stripped, Pinned, Typed, UserKey, Collectable, EnvObjs;
  }

  lemma EnvKeepsCopy(s: State, a: EnvAction)
    requires CrsOk(s) && ActiveOk(s)
    ensures ActiveOk(EnvStep(s, a))
  {
    hide InPlaceFirm, Stripped, Pinned, Typed, UserKey, Collectable, EnvObjs, ConditionsOk;
  }

  lemma EnvKeepsOwnerHeld(s: State, a: EnvAction)
    requires OwnerHeld(s) && CrsOk(s) && OwnersOk(s)
    ensures OwnerHeld(EnvStep(s, a))
  {
  }

  lemma EnvKeepsPullSecret(s: State, a: EnvAction)
    requires PullSecretSafe(s) && OwnersOk(s) && OwnerHeld(s) && CrsOk(s)
    ensures PullSecretSafe(EnvStep(s, a))
  {
    hide EnvStep, OwnerHeld, CrsOk, OwnersOk;
    EnvKeepsHistory(s, a);
    EnvKeepsPlatform(s, a, LIVE);
    if BACKUP in s.objs {
      EnvKeepsFirm(s, a, BACKUP);
    } else if BACKUP in EnvStep(s, a).objs {
      EnvCreatesNothing(s, a, BACKUP);
    }
  }

  lemma EnvKeepsReferences(s: State, a: EnvAction)
    requires NoDangling(s) && CertNames(s) && OwnersOk(s) && OwnerHeld(s) && CrsOk(s)
    ensures NoDangling(EnvStep(s, a)) && CertNames(EnvStep(s, a))
  {
    EnvKeepsConfiguration(s, a);
    forall k | Referenced(EnvStep(s, a), k) ensures Firm(EnvStep(s, a), k) || (UserKey(k) && !EnvStep(s, a).inPlaceSafe) {
      assert Referenced(s, k);
      if Firm(s, k) && (PartOf(k) != Foreign || EnvStep(s, a).inPlaceSafe) { EnvKeepsFirm(s, a, k); }
    }
  }

  lemma EnvKeepsFinalizer(s: State, a: EnvAction)
    requires FinalizerKept(s) && PullSecretSafe(s) && OwnersOk(s) && OwnerHeld(s) && CrsOk(s)
    ensures FinalizerKept(EnvStep(s, a))
  {
    hide EnvEffect, EnvEnabled;
    EnvKeepsConfiguration(s, a);
    if BACKUP in EnvStep(s, a).objs {
      EnvCreatesNothing(s, a, BACKUP);
    }
    if ClusterName in s.crs && s.crs[ClusterName].Guarded() {
      EnvKeepsGuarded(s, a, ClusterName);
    }
  }

  lemma EnvKeepsMirror(s: State, a: EnvAction)
    requires MirrorExclusive(s)
    ensures MirrorExclusive(EnvStep(s, a))
  {
    hide EnvCrs, InPlaceFirm, Stripped, Pinned, Typed, Collectable, SemVer.Compare, SemVer.Legacy;
    if a.Upgrade? && EnvEnabled(s, a) && s.modern {
      SemVer.UpgradesKeepModern(s.version, a.version);
    }
  }

  lemma EnvKeepsSecretOwners(s: State, a: EnvAction, k: Key)
    requires k.SecretKey? && k in EnvStep(s, a).objs
    ensures var o := OwnersAt(s, k); EnvStep(s, a).objs[k].owners == o || EnvStep(s, a).objs[k].owners == o.(cr := None)
  {
  }

  /** A secret that stays is no easier to collect than before. */
  lemma EnvKeepsSecretFirm(s: State, a: EnvAction, k: Key)
    requires OwnerHeld(s) && CrsOk(s)
    requires k.SecretKey? && k in EnvStep(s, a).objs
    requires k in s.objs ==> Firm(s, k)
    ensures Firm(EnvStep(s, a), k)
  {
    hide EnvStep, EnvEffect, EnvEnabled, OwnerHeld, CrsOk, Pinned;
    var o := OwnersAt(s, k);
    EnvKeepsSecretOwners(s, a, k);
    if o.cr.Some? && Alive(s, o.cr.value.uid) {
      assert !Stripped(s, o.cr.value.uid);
      EnvKeepsAlive(s, a, o.cr.value.uid);
    }
  }

  lemma EnvKeepsStarted(s: State, a: EnvAction)
    requires CrsOk(s) && ActiveOk(s)
    ensures EnvStep(s, a).active == s.active
    ensures Started(s) <==> Started(EnvStep(s, a))
    ensures Applying(s) ==> Applying(EnvStep(s, a))
  {
    hide InPlaceFirm, Stripped, Pinned, Typed, UserKey, Collectable, EnvObjs, ConditionsOk;
    if Started(s) {
      EnvKeepsGuarded(s, a, ClusterName);
      EnvKeepsDeletion(s, a, ClusterName);
    }
  }

  /** Whatever spec the CR has after a step, what it names in place did not await collection before the step. */
  lemma EnvSpecs(s: State, a: EnvAction)
    requires InPlaceOk(s) && CrsOk(s) && EnvStep(s, a).inPlaceSafe
    ensures s.inPlaceSafe && (ClusterName in EnvStep(s, a).crs ==> InPlaceFirm(s, EnvStep(s, a).crs[ClusterName].spec))
  {
    hide InPlaceFirm, Stripped, Pinned, Typed, ConditionsOk, UserKey, Started, Collectable, EnvObjs;
  }

  lemma EnvKeepsInPlaceFirm(s: State, a: EnvAction, sp: Spec)
    requires OwnerHeld(s) && CrsOk(s) && InPlaceFirm(s, sp)
    ensures InPlaceFirm(EnvStep(s, a), sp)
  {
    hide EnvStep, OwnerHeld, CrsOk, Firm;
    forall k | sp.InPlace(k) && k in EnvStep(s, a).objs ensures Firm(EnvStep(s, a), k) {
      EnvKeepsSecretFirm(s, a, k);
    }
  }

  lemma EnvKeepsInPlace(s: State, a: EnvAction)
    requires InPlaceOk(s) && OwnerHeld(s) && CrsOk(s) && ActiveOk(s)
    ensures InPlaceOk(EnvStep(s, a))
  {
    hide EnvStep, OwnerHeld, CrsOk, ActiveOk, InPlaceFirm, Alive;
    EnvKeepsStarted(s, a);
    if EnvStep(s, a).inPlaceSafe {
      EnvSpecs(s, a);
      if ClusterName in EnvStep(s, a).crs { EnvKeepsInPlaceFirm(s, a, EnvStep(s, a).crs[ClusterName].spec); }
      if s.active.Some? && InPlaceFirm(s, s.active.value.spec) { EnvKeepsInPlaceFirm(s, a, s.active.value.spec); }
    }
  }

  lemma EnvKeepsHeld(s: State, a: EnvAction)
    requires HeldOk(s)
    ensures HeldOk(EnvStep(s, a))
  {
    hide EnvCrs, Collectable, InPlaceFirm, Stripped, Pinned, CrOwned;
  }

  lemma EnvKeepsPairs(s: State, a: EnvAction)
    requires PairsWhole(s)
    ensures PairsWhole(EnvStep(s, a))
  {
    hide EnvStep, Whole;
    if GENERATED_API in EnvStep(s, a).objs { EnvCreatesNothing(s, a, GENERATED_API); }
    if GENERATED_INGRESS in EnvStep(s, a).objs { EnvCreatesNothing(s, a, GENERATED_INGRESS); }
  }

  lemma EnvKeepsInvariant(s: State, a: EnvAction)
    requires Inv(s)
    ensures Inv(EnvStep(s, a))
  {
    hide EnvStep, WellTyped, OwnersOk, PullSecretSafe, FinalizerKept, NoDangling, CertNames, OwnerHeld,
      MirrorExclusive, CrsOk, ActiveOk, InPlaceOk, HeldOk, PairsWhole;
    EnvKeepsTypes(s, a);
    EnvKeepsOwners(s, a);
    EnvKeepsPullSecret(s, a);
    EnvKeepsFinalizer(s, a);
    EnvKeepsReferences(s, a);
    EnvKeepsOwnerHeld(s, a);
    EnvKeepsMirror(s, a);
    EnvKeepsCrs(s, a);
    EnvKeepsInPlace(s, a);
    EnvKeepsHeld(s, a);
    EnvKeepsPairs(s, a);
  }

  /* -------------------------------------------------------------- licences */

  lemma EnvKeepsFinalising(s: State, a: EnvAction)
    requires CrsOk(s) && Finalising(s)
    ensures EnvStep(s, a).active == s.active
    ensures Finalising(EnvStep(s, a))
  {
    EnvKeepsGuarded(s, a, s.active.value.name);
    EnvKeepsDeletion(s, a, s.active.value.name);
  }

  /** A licensed pass keeps the right to change the cluster, and what it relies on. */
  lemma EnvKeepsAuthority(s: State, a: EnvAction)
    requires CrsOk(s) && ActiveOk(s)
    ensures EnvStep(s, a).active == s.active
    ensures Applying(s) ==> Applying(EnvStep(s, a))
    ensures Finalising(s) ==> Finalising(EnvStep(s, a))
  {
    hide EnvStep, CrsOk, ActiveOk, Applying, Finalising, Started;
    EnvKeepsStarted(s, a);
    if Finalising(s) { EnvKeepsFinalising(s, a); }
  }

  lemma EnvKeepsModern(s: State, a: EnvAction)
    ensures EnvStep(s, a).modern == s.modern && EnvStep(s, a).original == s.original && EnvStep(s, a).singleNode == s.singleNode
    ensures EnvStep(s, a).baseDomain == s.baseDomain
    ensures s.held <= EnvStep(s, a).held && EnvStep(s, a).seenAvailable == s.seenAvailable
    ensures !SemVer.Legacy(s.version) ==> !SemVer.Legacy(EnvStep(s, a).version)
  {
    hide EnvObjs, EnvCrs, InPlaceFirm, Stripped, Pinned, Typed, Collectable, CrOwned, UserKey, SemVer.Compare, SemVer.Legacy;
    if a.Upgrade? && EnvEnabled(s, a) && !SemVer.Legacy(s.version) {
      SemVer.UpgradesKeepModern(s.version, a.version);
    }
  }

  lemma EnvKeepsSuperseded(s: State, a: EnvAction)
    requires CrsOk(s) && ActiveOk(s) && Superseded(s)
    ensures Superseded(EnvStep(s, a))
  {
    hide InPlaceFirm, Stripped, Pinned, Typed, UserKey, Collectable, EnvObjs, ConditionsOk;
  }

  lemma EnvKeepsUnsafe(s: State, a: EnvAction)
    ensures EnvStep(s, a).inPlaceSafe ==> s.inPlaceSafe
  {
    hide EnvObjs, EnvCrs, EnvEnabled, InPlaceFirm;
  }

  lemma EnvKeepsSound(s: State, a: EnvAction, k: Key)
    requires Inv(s) && Sound(s, k)
    ensures Sound(EnvStep(s, a), k)
  {
    hide EnvStep;
    if Firm(s, k) && (PartOf(k) != Foreign || EnvStep(s, a).inPlaceSafe) { EnvKeepsFirm(s, a, k); }
    EnvKeepsAuthority(s, a);
    EnvKeepsUnsafe(s, a);
  }

  lemma NothingOrphaned(s: State, a: EnvAction)
    requires Applying(s) && a.Orphan?
    ensures EnvStep(s, a) == s
  {
    hide Holder;
  }

  /** Nobody else makes the relocation the owner of a catalog source. */
  lemma EnvAddsNoOwner(s: State, a: EnvAction, k: Key)
    requires k.Catalog? && CrOwned(EnvStep(s, a), k)
    ensures k in s.objs && s.objs[k].owners == EnvStep(s, a).objs[k].owners
  {
    hide EnvCrs, InPlaceFirm, Stripped, Pinned, Typed, Collectable, UserKey;
  }

  lemma EnvKeepsCatalog(s: State, a: EnvAction, k: Key)
    requires OwnerHeld(s) && CrsOk(s) && Applying(s) && k.Catalog?
    ensures CatalogKept(s, EnvStep(s, a), k)
  {
    hide EnvStep, OwnerHeld, CrsOk, Applying, Firm;
    if a.Orphan? { NothingOrphaned(s, a); }
    if CrOwned(EnvStep(s, a), k) { EnvAddsNoOwner(s, a, k); }
    if CrOwned(s, k) && Firm(s, k) && !a.Orphan? {
      EnvKeepsFirm(s, a, k);
      EnvKeepsSourceOwner(s, a, k);
    }
  }

  lemma EnvKeepsSourceOwner(s: State, a: EnvAction, k: Key)
    requires k.Catalog? && CrOwned(s, k) && Firm(s, k) && !a.Orphan?
    ensures CrOwned(EnvStep(s, a), k)
  {
    hide EnvCrs, InPlaceFirm, Stripped, Pinned, Typed;
  }

  /** The environment leaves alone what the operator has configured. */
  lemma EnvIsSteady(s: State, a: EnvAction)
    requires Inv(s)
    ensures Steady(s, EnvStep(s, a), NOTHING)
  {
    hide EnvStep, Applying, Finalising, WellTyped, OwnersOk, PullSecretSafe, FinalizerKept, NoDangling, CertNames,
      OwnerHeld, MirrorExclusive, CrsOk, ActiveOk, InPlaceOk;
    var t := EnvStep(s, a);
    EnvKeepsAuthority(s, a);
    EnvKeepsModern(s, a);
    EnvKeepsUnsafe(s, a);
    if Superseded(s) { EnvKeepsSuperseded(s, a); }
    forall k | Sound(s, k) ensures Sound(t, k) { EnvKeepsSound(s, a, k); }
    forall k | k in t.objs && PartOf(k) != Foreign && !k.Catalog? ensures k in s.objs && t.objs[k].body == s.objs[k].body {
      EnvCreatesNothing(s, a, k);
    }
    forall k | Firm(s, k) && PartOf(k) != Foreign && !k.Catalog? ensures Firm(t, k) && t.objs[k].body == s.objs[k].body {
      EnvKeepsFirm(s, a, k);
    }
    if Applying(s) {
      forall n ensures CatalogKept(s, t, Catalog(n)) { EnvKeepsCatalog(s, a, Catalog(n)); }
    }
  }

  /* ---------------------------------------------- what the frame preserves */

  lemma SteadyKeepsPlatform(s: State, t: State, f: iset<Key>, k: Key)
    requires OwnersOk(s) && Steady(s, t, f) && Unowned(k) && PartOf(k) != Foreign && k !in f
    ensures k in s.objs <==> k in t.objs
    ensures k in s.objs ==> t.objs[k].body == s.objs[k].body
  {
    if k in s.objs { assert Firm(s, k); }
  }

  lemma SteadyKeepsConfiguration(s: State, t: State)
    requires OwnersOk(s) && Steady(s, t, NOTHING)
    ensures NamedCerts(t) == NamedCerts(s)
    ensures DefaultCert(t) == DefaultCert(s)
    ensures AppsDomain(t) == AppsDomain(s)
    ensures ComponentRoutes(t) == ComponentRoutes(s)
    ensures TrustedCA(t) == TrustedCA(s)
  {
    hide Steady;
    SteadyKeepsPlatform(s, t, NOTHING, ApiServer);
    SteadyKeepsPlatform(s, t, NOTHING, IngressController);
    SteadyKeepsPlatform(s, t, NOTHING, IngressConfig);
    SteadyKeepsPlatform(s, t, NOTHING, ImageConfig);
  }

  lemma SteadyKeepsSsh(s: State, t: State, f: iset<Key>, sp: Spec)
    requires Steady(s, t, f) && Keys(SshPart) !! f && SshDone(s, sp)
    ensures SshDone(t, sp)
  {
    forall r ensures SshRoleDone(t, sp, r) { assert SshRoleDone(s, sp, r); }
  }

  lemma SteadyKeepsRegistry(s: State, t: State, f: iset<Key>, sp: Spec)
    requires OwnersOk(s) && Steady(s, t, f) && Keys(RegistryPart) !! f && RegistryDone(s, sp)
    ensures RegistryDone(t, sp)
  {
    SteadyKeepsPlatform(s, t, f, ImageConfig);
  }

  lemma SteadyKeepsMirror(s: State, t: State, f: iset<Key>, sp: Spec)
    requires Steady(s, t, f) && Keys(MirrorPart) !! f && MirrorDone(s, sp)
    ensures MirrorDone(t, sp)
  {
  }

  lemma SteadyKeepsCopied(s: State, t: State, f: iset<Key>, ref: SecretRef, k: Key)
    requires Steady(s, t, f) && Firm(s, k) && PartOf(k) != Foreign && !k.Catalog? && k !in f && Copied(s, ref, k)
    ensures Firm(t, k) && Copied(t, ref, k)
  {
    hide Applying, Finalising, Sound, Superseded;
  }

  lemma SteadyKeepsPull(s: State, t: State, f: iset<Key>, sp: Spec)
    requires OwnersOk(s) && Steady(s, t, f) && Keys(PullPart) !! f && PullDone(s, sp)
    ensures PullDone(t, sp)
  {
    hide Applying, Finalising, Sound, Superseded;
    assert BACKUP in Keys(PullPart) && LIVE in Keys(PullPart);
    if sp.pullSecret.Some? {
      assert Firm(s, LIVE) by { hide Steady; assert LIVE in s.objs; }
      SteadyKeepsCopied(s, t, f, sp.pullSecret.value, LIVE);
    }
  }

  lemma SteadyKeepsCatalogs(s: State, t: State, f: iset<Key>, sp: Spec)
    requires Applying(s) && Steady(s, t, f) && Keys(CatalogPart) !! f && CatalogDone(s, sp)
    ensures CatalogDone(t, sp)
  {
    forall n | FirstOwned(t, Catalog(n)) ensures Listed(sp.catalogs, n) {
      assert CatalogKept(s, t, Catalog(n));
    }
    forall n | Listed(sp.catalogs, n)
      ensures CrOwned(t, Catalog(n)) && Holds(t, Catalog(n), CatalogBody(LastImage(sp.catalogs, n)))
    {
      assert CatalogKept(s, t, Catalog(n));
    }
  }

  lemma SteadyKeepsCertificates(s: State, t: State, f: iset<Key>, sp: Spec)
    requires Steady(s, t, f) && Keys(IngressPart) !! f
    ensures IngressCopyDone(s, sp) ==> IngressCopyDone(t, sp)
    ensures IngressPairDone(s, sp) ==> IngressPairDone(t, sp)
  {
    hide Applying, Finalising, Sound, Superseded, Copied, CatalogKept;
    assert COPIED_INGRESS in Keys(IngressPart) && COPIED_INGRESS_COPY in Keys(IngressPart);
    assert GENERATED_INGRESS in Keys(IngressPart) && GENERATED_INGRESS_COPY in Keys(IngressPart);
    if IngressCopyDone(s, sp) && sp.ingressCert.Some? {
      SteadyKeepsCopied(s, t, f, sp.ingressCert.value, COPIED_INGRESS);
      SteadyKeepsCopied(s, t, f, sp.ingressCert.value, COPIED_INGRESS_COPY);
    }
  }

  lemma SteadyKeepsIngress(s: State, t: State, f: iset<Key>, sp: Spec)
    requires Steady(s, t, f) && Keys(IngressPart) !! f && IngressDone(s, sp)
    ensures IngressDone(t, sp)
  {
    hide Applying, Finalising, Sound, Superseded, IngressPairDone, IngressCopyDone, CatalogKept;
    assert IngressController in Keys(IngressPart) && IngressConfig in Keys(IngressPart);
    SteadyKeepsCertificates(s, t, f, sp);
  }

  lemma SteadyKeepsApi(s: State, t: State, f: iset<Key>, sp: Spec)
    requires Steady(s, t, f) && Keys(ApiPart) !! f && ApiDone(s, sp)
    ensures ApiDone(t, sp)
  {
    hide Applying, Finalising, Sound, Superseded, Copied, CatalogKept;
    assert ApiServer in Keys(ApiPart) && GENERATED_API in Keys(ApiPart) && COPIED_API in Keys(ApiPart);
    if sp.apiCert.Some? && sp.apiCert.value.namespace != OpenshiftConfig {
      SteadyKeepsCopied(s, t, f, sp.apiCert.value, COPIED_API);
    }
  }

  lemma SteadyKeepsDns(s: State, t: State, f: iset<Key>, sp: Spec)
    requires Steady(s, t, f) && Keys(DnsPart) !! f && DnsDone(s, sp)
    ensures DnsDone(t, sp)
  {
  }

  lemma SteadyKeepsConfigured(s: State, t: State, sp: Spec)
    requires OwnersOk(s) && Applying(s) && Steady(s, t, NOTHING) && Configured(s, sp)
    ensures Configured(t, sp)
  {
    hide Steady, DnsDone, SshDone, RegistryDone, MirrorDone, PullDone, CatalogDone, IngressDone, ApiDone;
    SteadyKeepsDns(s, t, NOTHING, sp);
    SteadyKeepsSsh(s, t, NOTHING, sp);
    SteadyKeepsRegistry(s, t, NOTHING, sp);
    SteadyKeepsMirror(s, t, NOTHING, sp);
    SteadyKeepsPull(s, t, NOTHING, sp);
    SteadyKeepsCatalogs(s, t, NOTHING, sp);
    SteadyKeepsIngress(s, t, NOTHING, sp);
    SteadyKeepsApi(s, t, NOTHING, sp);
  }

  lemma SteadyKeepsSecretLicence(s: State, t: State, key: Key, body: Body, own: bool)
    requires OwnersOk(s) && PullSecretSafe(s) && Steady(s, t, NOTHING) && Typed(key, body) && PutLicence(s, key, body, own)
    requires key.SecretKey?
    ensures PutLicence(t, key, body, own)
  {
    hide Applying, Finalising, Sound, Superseded;
    if LIVE in s.objs { assert Firm(s, LIVE); }
  }

  lemma SteadyKeepsReferenceLicence(s: State, t: State, key: Key, body: Body, own: bool)
    requires Steady(s, t, NOTHING) && Typed(key, body) && PutLicence(s, key, body, own)
    requires key.ApiServer? || key.IngressController? || key.IngressConfig? || key.ImageConfig?
    ensures PutLicence(t, key, body, own)
  {
    hide Applying, Finalising, Sound, Superseded, Firm, CatalogKept;
  }

  lemma SteadyKeepsObjectLicence(s: State, t: State, key: Key, body: Body, own: bool)
    requires Steady(s, t, NOTHING) && Typed(key, body) && PutLicence(s, key, body, own)
    requires !key.SecretKey? && !(key.ApiServer? || key.IngressController? || key.IngressConfig? || key.ImageConfig?)
    ensures PutLicence(t, key, body, own)
  {
    hide Applying, Finalising, Sound, Superseded, Firm, CatalogKept;
  }

  lemma SteadyKeepsPutLicence(s: State, t: State, key: Key, body: Body, own: bool)
    requires OwnersOk(s) && PullSecretSafe(s) && Steady(s, t, NOTHING) && Typed(key, body) && PutLicence(s, key, body, own)
    ensures PutLicence(t, key, body, own)
  {
    hide Steady, PutLicence, OwnersOk, PullSecretSafe, Typed;
    if key.SecretKey? {
      SteadyKeepsSecretLicence(s, t, key, body, own);
    } else if key.ApiServer? || key.IngressController? || key.IngressConfig? || key.ImageConfig? {
      SteadyKeepsReferenceLicence(s, t, key, body, own);
    } else {
      SteadyKeepsObjectLicence(s, t, key, body, own);
    }
  }

  lemma SteadyKeepsDelLicence(s: State, t: State, key: Key)
    requires OwnersOk(s) && PullSecretSafe(s) && Steady(s, t, NOTHING) && DelLicence(s, key)
    ensures DelLicence(t, key)
  {
    hide Applying, Finalising;
    assert Firm(s, LIVE);
    SteadyKeepsConfiguration(s, t);
  }

  lemma SteadyKeepsSuccess(s: State, t: State)
    requires Inv(s) && Steady(s, t, NOTHING) && Successful(s)
    ensures Successful(t)
  {
    hide Finalising, Configured, Superseded, Sound;
    SteadyKeepsConfigured(s, t, s.active.value.spec);
  }

  /** What the operator may write now it may still write after any step of the environment. */
  lemma SteadyKeepsLicence(s: State, t: State, w: Write)
    requires Inv(s) && Steady(s, t, NOTHING) && Licence(s, w)
    ensures Licence(t, w)
  {
    hide PutLicence, DelLicence, Applying, Finalising, Successful;
    match w {
      case Put(key, body, own) => SteadyKeepsPutLicence(s, t, key, body, own);
      case Del(key) => SteadyKeepsDelLicence(s, t, key);
      case RemoveFinalizer =>
        SteadyKeepsConfiguration(s, t);
      case SetStatus(ready, reconciled) =>
        if Successful(s) { SteadyKeepsSuccess(s, t); }
      case OrphanDelete => SteadyKeepsSuccess(s, t);
      case _ =>
    }
  }

  /* ---------------------------------------------------- the operator's writes */

  lemma WriteKeepsTypes(s: State, w: Write)
    requires WellTyped(s) && Licence(s, w)
    ensures WellTyped(Effect(s, w))
  {
    hide PutLicence, DelLicence, Applying, Configured;
  }

  lemma WriteKeepsOwners(s: State, w: Write)
    requires OwnersOk(s) && ActiveOk(s) && Licence(s, w)
    ensures OwnersOk(Effect(s, w))
  {
    hide DelLicence, Configured, Successful, NoNewer;
  }

  lemma WriteKeepsCrs(s: State, w: Write)
    requires CrsOk(s) && ActiveOk(s) && Licence(s, w)
    ensures CrsOk(Effect(s, w))
  {
    hide PutLicence, DelLicence, Configured, Successful, ObjsAfter, Applying, NoNewer;
  }

  lemma WriteKeepsActive(s: State, w: Write)
    requires CrsOk(s) && ActiveOk(s) && Licence(s, w)
    ensures ActiveOk(Effect(s, w))
  {
    hide PutLicence, DelLicence, Configured, Successful, ObjsAfter, Applying;
  }

  /** Only a pass past the gate makes its CR an owner. */
  lemma OwnershipNeedsAuthority(s: State, w: Write)
    requires Licence(s, w)
    ensures (w.Put? && w.own) || w.Adopt? ==> Applying(s)
  {
    hide Applying, Finalising, Configured, Successful, DelLicence;
  }

  lemma WriteKeepsStripped(s: State, w: Write, uid: nat)
    requires OwnersOk(s) && ActiveOk(s) && Licence(s, w) && Stripped(s, uid)
    ensures Stripped(Effect(s, w), uid) || (ObjectWrite(w) && Applying(s))
  {
    hide Successful, Configured, Licence, CrsAfter;
    OwnershipNeedsAuthority(s, w);
  }

  lemma AuthorityHolds(s: State)
    requires Applying(s)
    ensures ClusterName in s.crs && Holder(s.crs[ClusterName])
  {
  }

  lemma SameStripped(s: State, t: State)
    requires t.objs == s.objs
    ensures forall uid :: Stripped(s, uid) == Stripped(t, uid)
  {
  }

  /** Without its finalizer, the CR goes, unless an orphaning deletion still holds it. */
  lemma RemovalKeepsOwnerHeld(s: State)
    requires OwnerHeld(s) && CrsOk(s) && Licence(s, RemoveFinalizer)
    ensures OwnerHeld(Effect(s, RemoveFinalizer))
  {
    hide Successful, Configured, ConditionsOk, Dirty, NewConditionOk, PutLicence, DelLicence, Stripped;
    SameStripped(s, Effect(s, RemoveFinalizer));
    var left := s.active.value.finalizers - {RelocationFinalizer};
    assert OrphanFinalizer in left || left == {} by {
      if left != {} { var f :| f in left; assert f == OrphanFinalizer; }
    }
  }

  lemma CrWriteKeepsOwnerHeld(s: State, w: Write)
    requires OwnerHeld(s) && CrsOk(s) && Licence(s, w)
    requires w.AddFinalizer? || w.SetStatus? || w.OrphanDelete?
    ensures OwnerHeld(Effect(s, w))
  {
    hide Successful, Configured, NewConditionOk, ConditionsOk;
  }

  lemma ObjectWriteKeepsOwnerHeld(s: State, w: Write)
    requires OwnerHeld(s) && OwnersOk(s) && ActiveOk(s) && Licence(s, w)
    requires CrsAfter(s, w) == s.crs
    ensures OwnerHeld(Effect(s, w))
  {
    hide OwnersOk, ActiveOk, Licence, Stripped, Applying, Holder, CrsAfter, ObjsAfter;
    if ClusterName in s.crs && Stripped(s, s.crs[ClusterName].uid) { WriteKeepsStripped(s, w, s.crs[ClusterName].uid); }
    if Applying(s) { AuthorityHolds(s); }
  }

  lemma WriteKeepsOwnerHeld(s: State, w: Write)
    requires OwnerHeld(s) && CrsOk(s) && OwnersOk(s) && ActiveOk(s) && Licence(s, w)
    ensures OwnerHeld(Effect(s, w))
  {
    hide OwnerHeld, CrsOk, OwnersOk, ActiveOk, Licence, Effect;
    if w.RemoveFinalizer? {
      RemovalKeepsOwnerHeld(s);
    } else if w.AddFinalizer? || w.SetStatus? || w.OrphanDelete? {
      CrWriteKeepsOwnerHeld(s, w);
    } else {
      ObjectWriteKeepsOwnerHeld(s, w);
    }
  }

  lemma WriteKeepsMirror(s: State, w: Write)
    requires MirrorExclusive(s) && Licence(s, w)
    ensures MirrorExclusive(Effect(s, w))
  {
    hide Successful, Configured, Applying;
  }

  /** A write leaves an object out of the garbage collector's reach; the owner goes only when it has nothing left to undo. */
  lemma WriteKeepsAlive(s: State, w: Write, uid: nat)
    requires OwnerHeld(s) && CrsOk(s) && Licence(s, w)
    requires Alive(s, uid) && !Stripped(s, uid)
    requires w.RemoveFinalizer? ==> Dirty(s)
    ensures Alive(Effect(s, w), uid)
  {
    hide PutLicence, DelLicence, Configured, Successful, Dirty;
    if w.RemoveFinalizer? && Unchanged(s) && s.active.value.name == ClusterName {
      assert OrphanFinalizer in s.active.value.finalizers - {RelocationFinalizer};
    }
  }

  lemma WriteKeepsObject(s: State, w: Write, k: Key)
    requires Licence(s, w) && k in s.objs && w != Del(k)
    ensures var t := Effect(s, w);
      && k in t.objs
      && (t.objs[k].owners == s.objs[k].owners
          || (Applying(s) && t.objs[k].owners.cr.Some? && Alive(t, t.objs[k].owners.cr.value.uid)))
  {
    hide Successful, Configured;
  }

  lemma WriteKeepsFirm(s: State, w: Write, k: Key)
    requires OwnerHeld(s) && CrsOk(s) && Licence(s, w)
    requires Firm(s, k) && w != Del(k)
    requires w.RemoveFinalizer? ==> Dirty(s)
    ensures Firm(Effect(s, w), k)
  {
    hide Effect, Licence, OwnerHeld, CrsOk, Dirty;
    WriteKeepsObject(s, w, k);
    var o := s.objs[k].owners;
    if o.cr.Some? && Alive(s, o.cr.value.uid) {
      assert !Stripped(s, o.cr.value.uid);
      WriteKeepsAlive(s, w, o.cr.value.uid);
    }
  }

  lemma WriteKeepsPullSecret(s: State, w: Write)
    requires PullSecretSafe(s) && OwnerHeld(s) && CrsOk(s) && OwnersOk(s) && Licence(s, w)
    ensures PullSecretSafe(Effect(s, w))
  {
    hide Successful, Configured, OwnerHeld, CrsOk;
    if BACKUP in s.objs && w != Del(BACKUP) {
      assert Dirty(s);
      WriteKeepsFirm(s, w, BACKUP);
    }
  }

  lemma WriteKeepsFinalizer(s: State, w: Write)
    requires FinalizerKept(s) && CrsOk(s) && Licence(s, w)
    ensures FinalizerKept(Effect(s, w))
  {
    hide Successful, Configured;
  }

  lemma WriteSetsConfiguration(s: State, w: Write)
    requires Licence(s, w)
    ensures var t := Effect(s, w);
      && NamedCerts(t) == (if w.Put? && w.key == ApiServer then w.body.named else NamedCerts(s))
      && ComponentRoutes(t) == (if w.Put? && w.key == IngressConfig then w.body.routes else ComponentRoutes(s))
      && DefaultCert(t) == (if w.Put? && w.key == IngressController then w.body.defaultCert else DefaultCert(s))
      && TrustedCA(t) == (if w.Put? && w.key == ImageConfig then w.body.trustedCA else TrustedCA(s))
  {
    hide Successful, Configured, Applying, Finalising, PutLicence;
  }

  /** What a write makes the configuration name was named before, or its licence says that it is there. */
  lemma WriteNamesSound(s: State, w: Write, k: Key)
    requires Licence(s, w) && Referenced(Effect(s, w), k)
    ensures Referenced(s, k) || (w.Put? && Sound(s, k))
  {
    hide Successful, Configured, Applying, Finalising, Effect, NamedCerts, ComponentRoutes, DefaultCert, TrustedCA, Sound;
    WriteSetsConfiguration(s, w);
  }

  lemma WriteKeepsUnsafe(s: State, w: Write)
    ensures Effect(s, w).inPlaceSafe == s.inPlaceSafe
  {
    hide ObjsAfter, CrsAfter, ActiveAfter, HeldAfter;
  }

  lemma WriteKeepsReferences(s: State, w: Write)
    requires NoDangling(s) && OwnerHeld(s) && CrsOk(s) && ActiveOk(s) && Licence(s, w)
    ensures NoDangling(Effect(s, w))
  {
    hide Successful, Configured, OwnerHeld, CrsOk, Effect, Applying, Finalising, PutLicence;
    var t := Effect(s, w);
    WriteKeepsUnsafe(s, w);
    forall k | Referenced(t, k) ensures PartOf(k) != PullPart && (Firm(t, k) || (UserKey(k) && !t.inPlaceSafe)) {
      WriteNamesSound(s, w, k);
      if Firm(s, k) { WriteKeepsFirm(s, w, k); }
    }
  }

  lemma WriteKeepsCertNames(s: State, w: Write)
    requires CertNames(s) && Licence(s, w)
    ensures CertNames(Effect(s, w))
  {
    hide Successful, Configured, Applying, Finalising, Effect, NamedCerts, Sound;
    WriteSetsConfiguration(s, w);
  }

  lemma RemovalKeepsInPlace(s: State)
    requires InPlaceOk(s) && CrsOk(s) && Licence(s, RemoveFinalizer)
    ensures InPlaceOk(Effect(s, RemoveFinalizer))
  {
    hide Dirty, ConditionsOk;
  }

  /** Whatever specs the CR and the copy of the pass have after a write, what they name in place did not await collection
      before it. */
  lemma WriteSpecs(s: State, w: Write)
    requires InPlaceOk(s) && CrsOk(s) && ActiveOk(s) && Licence(s, w) && !w.RemoveFinalizer? && s.inPlaceSafe
    ensures var t := Effect(s, w);
      && (ClusterName in t.crs ==> InPlaceFirm(s, t.crs[ClusterName].spec) && t.crs[ClusterName].spec.WellFormed())
      && (t.active.Some? && Started(t) ==> InPlaceFirm(s, t.active.value.spec) && t.active.value.spec.WellFormed())
  {
    hide PutLicence, DelLicence, Successful, NewConditionOk, ConditionsOk, InPlaceFirm, ObjsAfter, NoNewer, Applying;
  }

  lemma WriteKeepsInPlaceFirm(s: State, w: Write, sp: Spec)
    requires OwnerHeld(s) && CrsOk(s) && Licence(s, w) && !w.RemoveFinalizer? && InPlaceFirm(s, sp) && sp.WellFormed()
    ensures InPlaceFirm(Effect(s, w), sp)
  {
    hide OwnerHeld, CrsOk, Effect, Licence, Firm;
    forall k | sp.InPlace(k) && k in Effect(s, w).objs ensures Firm(Effect(s, w), k) {
      WriteCreatesNoSecret(s, w, k);
      WriteKeepsFirm(s, w, k);
    }
  }

  lemma WriteCreatesNoSecret(s: State, w: Write, k: Key)
    requires Licence(s, w) && UserKey(k) && k in Effect(s, w).objs
    ensures k in s.objs && w != Del(k)
  {
    hide Applying, Finalising, Successful, Sound, Renews, DelLicence, CrsAfter;
  }

  lemma WriteKeepsInPlace(s: State, w: Write)
    requires InPlaceOk(s) && OwnerHeld(s) && CrsOk(s) && ActiveOk(s) && Licence(s, w)
    ensures InPlaceOk(Effect(s, w))
  {
    hide OwnerHeld, CrsOk, ActiveOk, Effect, Licence, InPlaceFirm, Alive;
    WriteKeepsUnsafe(s, w);
    if w.RemoveFinalizer? {
      RemovalKeepsInPlace(s);
    } else if s.inPlaceSafe {
      var t := Effect(s, w);
      WriteSpecs(s, w);
      if ClusterName in t.crs { WriteKeepsInPlaceFirm(s, w, t.crs[ClusterName].spec); }
      if t.active.Some? && Started(t) { WriteKeepsInPlaceFirm(s, w, t.active.value.spec); }
    }
  }

  lemma WriteKeepsHeld(s: State, w: Write)
    requires HeldOk(s) && Licence(s, w)
    ensures HeldOk(Effect(s, w))
  {
    hide Applying, Configured, Successful, CrsAfter, DelLicence, Sound, Renews;
  }

  lemma WriteKeepsPairs(s: State, w: Write)
    requires PairsWhole(s) && Licence(s, w)
    ensures PairsWhole(Effect(s, w))
  {
    hide Holder, Configured, Successful, CrsAfter, DelLicence, Sound, Whole;
  }

  lemma WriteKeepsInvariant(s: State, w: Write)
    requires Inv(s) && Licence(s, w)
    ensures Inv(Effect(s, w))
  {
    hide Effect, WellTyped, OwnersOk, PullSecretSafe, FinalizerKept, NoDangling, CertNames, OwnerHeld,
      MirrorExclusive, CrsOk, ActiveOk, InPlaceOk;
    WriteKeepsTypes(s, w);
    WriteKeepsOwners(s, w);
    WriteKeepsPullSecret(s, w);
    WriteKeepsFinalizer(s, w);
    WriteKeepsReferences(s, w);
    WriteKeepsCertNames(s, w);
    WriteKeepsOwnerHeld(s, w);
    WriteKeepsMirror(s, w);
    WriteKeepsCrs(s, w);
    WriteKeepsActive(s, w);
    WriteKeepsInPlace(s, w);
    WriteKeepsHeld(s, w);
    WriteKeepsPairs(s, w);
  }

  /* ------------------------------------------------------- frames of writes */

  predicate ObjectWrite(w: Write) { w.Put? || w.Create? || w.Adopt? || w.Del? }

  lemma WriteKeepsAuthority(s: State, w: Write)
    requires ObjectWrite(w)
    ensures var t := Effect(s, w);
      && t.active == s.active && t.crs == s.crs && t.version == s.version && t.original == s.original && t.singleNode == s.singleNode
      && t.baseDomain == s.baseDomain
      && t.held == s.held && t.seenAvailable == s.seenAvailable && t.inPlaceSafe == s.inPlaceSafe
      && (Applying(s) <==> Applying(t))
      && (Finalising(s) <==> Finalising(t))
      && (forall k :: k != w.key ==> (k in t.objs <==> k in s.objs) && (k in s.objs ==> t.objs[k] == s.objs[k]))
  {
  }

  lemma WriteKeepsSound(s: State, w: Write, k: Key)
    requires Inv(s) && Licence(s, w) && ObjectWrite(w)
    requires Sound(s, k) && (PartOf(k) == Foreign || k != w.key)
    ensures Sound(Effect(s, w), k)
  {
    hide Successful, Configured, WellTyped, OwnersOk, PullSecretSafe, FinalizerKept, NoDangling, CertNames, OwnerHeld,
      MirrorExclusive, CrsOk, InPlaceOk;
    if k == w.key {
      assert UserKey(k) && w.Adopt?;
    }
  }

  lemma WriteKeepsOthers(s: State, w: Write, k: Key)
    requires ObjectWrite(w) && k != w.key
    ensures k in s.objs <==> k in Effect(s, w).objs
    ensures Firm(s, k) ==> k in s.objs && Firm(Effect(s, w), k) && Effect(s, w).objs[k].body == s.objs[k].body
    ensures CatalogKept(s, Effect(s, w), k)
    ensures w.key != Idms ==> Effect(s, w).modern == s.modern
  {
  }

  /** A write leaves alone every object but its own. */
  lemma WriteIsSteady(s: State, w: Write)
    requires Inv(s) && Licence(s, w) && ObjectWrite(w)
    ensures Steady(s, Effect(s, w), iset{w.key})
  {
    hide Effect, Applying, Finalising, Licence, Inv, Sound, Firm, CatalogKept, PartOf;
    var t := Effect(s, w);
    WriteKeepsAuthority(s, w);
    forall k ensures Sound(s, k) && (PartOf(k) == Foreign || k != w.key) ==> Sound(t, k) {
      if Sound(s, k) && (PartOf(k) == Foreign || k != w.key) { WriteKeepsSound(s, w, k); }
    }
    assert w.key != Idms ==> t.modern == s.modern by { if w.key != Idms { WriteKeepsOthers(s, w, Idms); } }
    forall k | k != w.key
      ensures k in s.objs <==> k in t.objs
      ensures Firm(s, k) ==> Firm(t, k) && k in s.objs && k in t.objs && t.objs[k].body == s.objs[k].body
      ensures CatalogKept(s, t, k)
    {
      WriteKeepsOthers(s, w, k);
    }
  }

  /** The running pass keeps its rights. */
  predicate SameAuthority(s: State, t: State) {
    && t.active == s.active
    && (Applying(s) ==> Applying(t))
    && (Finalising(s) ==> Finalising(t))
  }

  lemma SteadyAuthority(s: State, t: State, f: iset<Key>)
    requires Steady(s, t, f)
    ensures SameAuthority(s, t)
  {
  }

  lemma SteadyReflexive(s: State)
    ensures Steady(s, s, NOTHING)
  {
    hide Applying, Finalising, Sound;
  }

  lemma SteadyJoin(s: State, t: State, u: State, f: iset<Key>, g: iset<Key>, h: iset<Key>)
    requires Steady(s, t, f) && Steady(t, u, g)
    requires f <= h && g <= h
    ensures Steady(s, u, h)
  {
    hide Applying, Finalising, Sound;
    if Applying(s) {
      forall n | Catalog(n) !in h ensures CatalogKept(s, u, Catalog(n)) {
        assert CatalogKept(s, t, Catalog(n)) && CatalogKept(t, u, Catalog(n));
      }
    }
  }

  /** What a successful write leaves behind. */
  predicate Landed(t: State, w: Write) {
    match w
    case Put(key, body, own) => Holds(t, key, body) && (own ==> CrOwned(t, key))
    case Create(key, _) => key in t.objs
    case Del(key) => key !in t.objs
    case _ => true
  }

  lemma WriteLands(s: State, w: Write)
    requires Inv(s) && Licence(s, w) && ObjectWrite(w)
    ensures Landed(Effect(s, w), w)
  {
    hide Successful, Configured, WellTyped, PullSecretSafe, FinalizerKept, NoDangling, CertNames, OwnerHeld, MirrorExclusive,
      CrsOk, ActiveOk, InPlaceOk, HeldOk, PairsWhole, Sound, DelLicence, Renews;
    if w.Put? {
      var o := OwnersAt(s, w.key);
      if w.own {
        assert Applying(s);
      } else {
        assert Unowned(w.key);
        assert o.cr.None?;
      }
    }
  }

  /** Another controller owns the object that the operator wants to control. */
  predicate Blocked(s: State, w: Write) {
    w.Put? && w.own && w.key in s.objs && s.objs[w.key].owners.ForeignController()
  }

  /** A create-or-update that finds nothing to change would have left the cluster as it is, and has landed already. */
  lemma NoOperation(s: State, w: Write)
    requires Inv(s) && Licence(s, w) && w.Put?
    requires w.key in s.objs && PutObj(s, w.key, w.body, w.own) == s.objs[w.key]
    ensures Effect(s, w) == s
    ensures Landed(s, w)
  {
    hide Licence, Landed;
    WriteLands(s, w);
    assert s.objs[w.key := s.objs[w.key]] == s.objs;
  }

  /** A pass past the gate may write the operator's own objects as it likes. */
  lemma OwnLicence(s: State, k: Key, b: Body)
    requires Applying(s) && Typed(k, b) && (k.SshConfig? || k.RegistryConfigMap? || k.DnsConfig? || k.Catalog? || TlsKey(k))
    requires TlsKey(k) ==> Renews(s, k, b)
    ensures Licence(s, Put(k, b, true))
  {
    hide Applying, Renews;
  }

  /** Nobody else controls what only the operator creates. */
  lemma NotBlocked(s: State, k: Key, b: Body, own: bool)
    requires Inv(s) && (OperatorOnly(k) || !own)
    ensures !Blocked(s, Put(k, b, own))
  {
  }

  lemma ImageLicence(s: State, on: bool)
    requires Applying(s) || (Finalising(s) && !on)
    requires on ==> Firm(s, RegistryConfigMap)
    ensures Licence(s, Put(ImageConfig, ImageBody(on), false))
  {
    hide Applying, Finalising;
  }

  lemma MirrorLicence(s: State, b: Body)
    requires Applying(s)
    ensures b.IcspBody? && !s.modern ==> Licence(s, Put(Icsp, b, true))
    ensures b.IdmsBody? && Icsp !in s.objs && !SemVer.Legacy(s.version) ==> Licence(s, Put(Idms, b, true))
  {
    hide Applying;
  }

  lemma ReferencesWellFormed(s: State)
    requires Inv(s) && s.active.Some?
    ensures s.active.value.spec.WellFormed()
  {
  }

  lemma DropLicence(s: State, k: Key)
    requires Applying(s) && (k.SshConfig? || k.Catalog? || k.Icsp? || k.Idms?)
    ensures Licence(s, Del(k))
  {
    hide Applying;
  }
}
