/** The sub-reconcilers seen alike: what each is for, when it has nothing left to do, what it needs, and how far a pass
    has come. */
module Parts {
  import opened Types
  import opened Store
  import opened Goals
  import opened Protocol
  import opened Preservation
  import opened Fixpoints
  import opened ClusterApi
  import opened Secrets
  import Dns
  import PullSecrets
  import Catalogs
  import Ingresses
  import ApiServers
  import Acm

  ghost function KeysOf(ps: set<Part>): iset<Key> { iset k | PartOf(k) in ps }

  const ALL := {DnsPart, SshPart, RegistryPart, MirrorPart, PullPart, CatalogPart, IngressPart, ApiPart}

  ghost predicate PartDone(s: State, sp: Spec, p: Part) {
    match p
    case DnsPart => DnsDone(s, sp)
    case SshPart => SshDone(s, sp)
    case RegistryPart => RegistryDone(s, sp)
    case MirrorPart => MirrorDone(s, sp)
    case PullPart => PullDone(s, sp)
    case CatalogPart => CatalogDone(s, sp)
    case IngressPart => IngressDone(s, sp)
    case ApiPart => ApiDone(s, sp)
    case Foreign => true
  }

  ghost predicate PartSettled(s: State, cr: Relocation, p: Part) {
    match p
    case DnsPart => Dns.DnsSettled(s, cr)
    case SshPart => SshSettled(s, cr)
    case RegistryPart => RegistrySettled(s, cr)
    case MirrorPart => MirrorSettled(s, cr)
    case PullPart => PullSecrets.PullSettled(s, cr)
    case CatalogPart => Catalogs.CatalogSettled(s, cr)
    case IngressPart => Ingresses.IngressSettled(s, cr)
    case ApiPart => ApiServers.ApiSettled(s, cr)
    case Foreign => true
  }

  /** What the cluster and the users have to provide for the sub-reconciler to succeed. */
  ghost predicate PartFeasible(s: State, cr: Relocation, p: Part) {
    match p
    case PullPart => PullSecrets.PullFeasible(s, cr)
    case CatalogPart => Catalogs.CatalogFeasible(s, cr.spec.catalogs)
    case IngressPart => Ingresses.IngressFeasible(s, cr)
    case ApiPart => ApiServers.ApiFeasible(s, cr)
    case _ => true
  }

  ghost predicate DoneFor(s: State, sp: Spec, ps: set<Part>) { forall p :: p in ps ==> PartDone(s, sp, p) }

  ghost predicate SettledFor(s: State, cr: Relocation, ps: set<Part>) { forall p :: p in ps ==> PartSettled(s, cr, p) }

  /** The sub-reconciler that a pass stops at when no call fails. */
  ghost function Verdict(s: State, cr: Relocation): Option<Reason> {
    if !PartFeasible(s, cr, PullPart) then Some(PullSecretFailed)
    else if !PartFeasible(s, cr, CatalogPart) then Some(CatalogFailed)
    else if !PartFeasible(s, cr, IngressPart) then Some(IngressFailed)
    else if !PartFeasible(s, cr, ApiPart) then Some(ApiFailed)
    else None
  }

  /** What a pass on this CR ever writes, ownership of users' secrets aside. */
  ghost function Footprint(cr: Relocation): iset<Key> {
    iset k | PartOf(k) != Foreign || k.Route? || k in Acm.AcmKeys(cr)
  }

  /* ---------------------------------------------------------------- frames */

  lemma DoneKept(s: State, t: State, f: iset<Key>, sp: Spec, p: Part)
    requires OwnersOk(s) && Applying(s) && Steady(s, t, f) && Keys(p) !! f && PartDone(s, sp, p)
    ensures PartDone(t, sp, p)
  {
    hide Steady, Applying, DnsDone, SshDone, RegistryDone, MirrorDone, PullDone, CatalogDone, IngressDone, ApiDone, OwnersOk;
    match p {
      case DnsPart => SteadyKeepsDns(s, t, f, sp);
      case SshPart => SteadyKeepsSsh(s, t, f, sp);
      case RegistryPart => SteadyKeepsRegistry(s, t, f, sp);
      case MirrorPart => SteadyKeepsMirror(s, t, f, sp);
      case PullPart => SteadyKeepsPull(s, t, f, sp);
      case CatalogPart => SteadyKeepsCatalogs(s, t, f, sp);
      case IngressPart => SteadyKeepsIngress(s, t, f, sp);
      case ApiPart => SteadyKeepsApi(s, t, f, sp);
      case Foreign =>
    }
  }

  /** The secrets that the spec refers to are outside the footprint. */
  lemma UserSecretsKept(s: State, t: State, f: iset<Key>, cr: Relocation, ref: SecretRef)
    requires Quiet(s, t, f) && f <= Footprint(cr) && cr.spec.WellFormed()
    requires cr.spec.pullSecret == Some(ref) || cr.spec.ingressCert == Some(ref) || cr.spec.apiCert == Some(ref)
    ensures ref.Key() !in f && KeptAt(s, t, ref.Key())
  {
  }

  lemma SignerOutside(cr: Relocation)
    requires cr.spec.WellFormed()
    ensures SIGNER !in Footprint(cr)
  {
    assert PartOf(SIGNER) == Foreign;
  }

  lemma SignerKept(s: State, t: State, f: iset<Key>, cr: Relocation)
    requires Quiet(s, t, f) && f <= Footprint(cr) && cr.spec.WellFormed()
    ensures SignerOk(s) == SignerOk(t)
  {
    assert SIGNER !in f by { SignerOutside(cr); }
    hide Footprint;
    assert KeptAt(s, t, SIGNER);
  }

  lemma PairFeasibleKept(s: State, t: State, f: iset<Key>, cr: Relocation, k: Key, commonName: string)
    requires Quiet(s, t, f) && f <= Footprint(cr) && cr.spec.WellFormed() && k !in f && TlsKey(k)
    ensures PairFeasible(s, k, commonName) == PairFeasible(t, k, commonName)
  {
    hide Quiet, Footprint;
    SignerKept(s, t, f, cr);
    SameKept(s, t, f, k);
  }

  lemma CopyKept(s: State, t: State, f: iset<Key>, orig: Key, dest: Key, ownOrig: bool, ownDest: bool)
    requires Quiet(s, t, f) && orig !in f && dest !in f && !UserKey(dest) && CopySettled(s, orig, dest, ownOrig, ownDest)
    requires UserKey(orig) || !ownOrig
    ensures CopySettled(t, orig, dest, ownOrig, ownDest)
  {
    assert KeptAt(s, t, orig) && KeptAt(s, t, dest);
  }

  lemma PullSettledKept(s: State, t: State, f: iset<Key>, cr: Relocation)
    requires Quiet(s, t, f) && f <= Footprint(cr) && cr.spec.WellFormed() && Keys(PullPart) !! f && PullSecrets.PullSettled(s, cr)
    ensures PullSecrets.PullSettled(t, cr)
  {
    hide Quiet, Footprint, CopySettled;
    assert BACKUP in Keys(PullPart) && LIVE in Keys(PullPart);
    SameKept(s, t, f, BACKUP);
    if cr.spec.pullSecret.Some? {
      var ref := cr.spec.pullSecret.value;
      UserSecretsKept(s, t, f, cr, ref);
      CopyKept(s, t, f, ref.Key(), LIVE, true, false);
    }
  }

  lemma CatalogSettledKept(s: State, t: State, f: iset<Key>, cr: Relocation)
    requires Quiet(s, t, f) && Keys(CatalogPart) !! f
    ensures Catalogs.CatalogFeasible(s, cr.spec.catalogs) == Catalogs.CatalogFeasible(t, cr.spec.catalogs)
    ensures Catalogs.CatalogSettled(s, cr) ==> Catalogs.CatalogSettled(t, cr)
  {
    hide Quiet, Listed, LastImage;
    forall n ensures SameAt(s, t, Catalog(n)) {
      assert Catalog(n) in Keys(CatalogPart);
      SameKept(s, t, f, Catalog(n));
    }
    assert forall n :: Catalogs.Controlled(s, n) == Catalogs.Controlled(t, n);
    if Catalogs.CatalogSettled(s, cr) {
      Catalogs.StillPruned(s, t, cr.spec.catalogs) by { assert Catalogs.UnlistedKept(s, t, cr.spec.catalogs); }
    }
  }

  lemma ApiSettledKept(s: State, t: State, f: iset<Key>, cr: Relocation)
    requires Quiet(s, t, f) && f <= Footprint(cr) && cr.spec.WellFormed() && Keys(ApiPart) !! f && ApiServers.ApiSettled(s, cr)
    ensures ApiServers.ApiSettled(t, cr)
  {
    hide Quiet, Footprint, CopySettled;
    assert GENERATED_API in Keys(ApiPart) && COPIED_API in Keys(ApiPart) && ApiServer in Keys(ApiPart);
    SameKept(s, t, f, ApiServer);
    SameKept(s, t, f, GENERATED_API);
    if cr.spec.apiCert.Some? {
      var ref := cr.spec.apiCert.value;
      UserSecretsKept(s, t, f, cr, ref);
      if ref.namespace != OpenshiftConfig { CopyKept(s, t, f, ref.Key(), COPIED_API, true, true); }
    }
  }

  lemma IngressSettledKept(s: State, t: State, f: iset<Key>, cr: Relocation)
    requires Quiet(s, t, f) && f <= Footprint(cr) && cr.spec.WellFormed() && Keys(IngressPart) !! f && Ingresses.IngressSettled(s, cr)
    ensures Ingresses.IngressSettled(t, cr)
  {
    hide Quiet, Footprint, CopySettled;
    assert Ingresses.Certificates() + iset{IngressController, IngressConfig} <= Keys(IngressPart);
    SameKept(s, t, f, IngressController);
    SameKept(s, t, f, IngressConfig);
    if cr.spec.ingressCert.Some? {
      var ref := cr.spec.ingressCert.value;
      UserSecretsKept(s, t, f, cr, ref);
      CopyKept(s, t, f, ref.Key(), COPIED_INGRESS, true, true);
      CopyKept(s, t, f, ref.Key(), COPIED_INGRESS_COPY, true, true);
    } else {
      SameKept(s, t, f, GENERATED_INGRESS);
      CopyKept(s, t, f, GENERATED_INGRESS, GENERATED_INGRESS_COPY, false, true);
    }
  }

  lemma NodeSettledKept(s: State, t: State, f: iset<Key>, cr: Relocation, p: Part)
    requires Quiet(s, t, f) && Keys(p) !! f && PartSettled(s, cr, p)
    requires p.DnsPart? || p.SshPart? || p.RegistryPart? || p.MirrorPart?
    ensures PartSettled(t, cr, p)
  {
    forall k | PartOf(k) == p ensures SameAt(s, t, k) {
      assert k in Keys(p);
      SameKept(s, t, f, k);
    }
    match p {
      case DnsPart => assert PartOf(DnsConfig) == p;
      case SshPart => assert PartOf(SshConfig(Master)) == p && PartOf(SshConfig(Worker)) == p;
      case RegistryPart => assert PartOf(RegistryConfigMap) == p && PartOf(ImageConfig) == p;
      case MirrorPart => assert PartOf(Icsp) == p && PartOf(Idms) == p;
    }
  }

  lemma SettledKept(s: State, t: State, f: iset<Key>, cr: Relocation, p: Part)
    requires Quiet(s, t, f) && f <= Footprint(cr) && cr.spec.WellFormed() && Keys(p) !! f && PartSettled(s, cr, p)
    ensures PartSettled(t, cr, p)
  {
    hide Quiet, Footprint, Dns.DnsSettled, SshSettled, RegistrySettled, MirrorSettled, PullSecrets.PullSettled,
      Catalogs.CatalogSettled, Ingresses.IngressSettled, ApiServers.ApiSettled;
    match p {
      case PullPart => PullSettledKept(s, t, f, cr);
      case CatalogPart => CatalogSettledKept(s, t, f, cr);
      case IngressPart => IngressSettledKept(s, t, f, cr);
      case ApiPart => ApiSettledKept(s, t, f, cr);
      case Foreign =>
      case _ => NodeSettledKept(s, t, f, cr, p);
    }
  }

  lemma FeasibleKept(s: State, t: State, f: iset<Key>, cr: Relocation, p: Part)
    requires Quiet(s, t, f) && f <= Footprint(cr) && cr.spec.WellFormed() && Keys(p) !! f
    ensures PartFeasible(t, cr, p) == PartFeasible(s, cr, p)
  {
    hide Quiet, Footprint, PairFeasible;
    match p {
      case PullPart =>
        if cr.spec.pullSecret.Some? { UserSecretsKept(s, t, f, cr, cr.spec.pullSecret.value); }
      case CatalogPart => CatalogSettledKept(s, t, f, cr);
      case IngressPart =>
        assert GENERATED_INGRESS in Keys(p);
        if cr.spec.ingressCert.Some? { UserSecretsKept(s, t, f, cr, cr.spec.ingressCert.value); }
        else { PairFeasibleKept(s, t, f, cr, GENERATED_INGRESS, WildcardHost(cr.spec.domain)); }
      case ApiPart =>
        assert GENERATED_API in Keys(p);
        if cr.spec.apiCert.Some? { UserSecretsKept(s, t, f, cr, cr.spec.apiCert.value); }
        else { PairFeasibleKept(s, t, f, cr, GENERATED_API, ApiHost(cr.spec.domain)); }
      case _ =>
    }
  }

  /** Where nothing is left to do, nothing is missing. */
  lemma SettledIsFeasible(s: State, cr: Relocation, p: Part)
    requires PartSettled(s, cr, p)
    ensures PartFeasible(s, cr, p)
  {
    hide CopySettled;
  }

  /* -------------------------------------------------------------- progress */

  /** From s to t the sub-reconcilers of `done` have succeeded. Without interference they have also settled, have touched
      nothing else, and have changed nothing if they were settled before. */
  ghost predicate Progress(s: State, t: State, cr: Relocation, done: set<Part>, calm: bool) {
    && Steady(s, t, KeysOf(done)) && DoneFor(t, cr.spec, done)
    && (calm ==>
          && Quiet(s, t, KeysOf(done)) && SettledFor(t, cr, done)
          && (SettledFor(s, cr, done) ==> t == s))
  }

  lemma Start(s: State, cr: Relocation, calm: bool)
    ensures Progress(s, s, cr, {}, calm)
  {
    hide Steady, Quiet, PartDone, PartSettled;
    Stay(s, KeysOf({}));
  }

  lemma PartKeys(done: set<Part>, p: Part)
    requires p !in done && p != Foreign && Foreign !in done
    ensures KeysOf(done) <= KeysOf(done + {p}) && Keys(p) <= KeysOf(done + {p})
    ensures forall q :: q in done ==> Keys(q) !! Keys(p)
    ensures forall cr :: Keys(p) <= Footprint(cr) && KeysOf(done) <= Footprint(cr)
  {
  }

  /** The next sub-reconciler of the pass. */
  lemma Advance(s: State, t: State, u: State, cr: Relocation, done: set<Part>, p: Part, calm: bool, ok: bool)
    requires Inv(t) && Applying(t) && t.active == Some(cr) && p !in done && p != Foreign && Foreign !in done
    requires Progress(s, t, cr, done, calm) && Steady(t, u, Keys(p)) && (calm ==> Quiet(t, u, Keys(p)))
    requires ok ==> PartDone(u, cr.spec, p)
    requires ok && calm ==> PartSettled(u, cr, p) && (PartSettled(t, cr, p) ==> u == t)
    ensures Steady(s, u, KeysOf(done + {p})) && (calm ==> Quiet(s, u, KeysOf(done + {p})))
    ensures DoneFor(u, cr.spec, done)
    ensures ok ==> Progress(s, u, cr, done + {p}, calm)
  {
    hide Steady, Quiet, PartDone, PartSettled, Applying, Inv, KeysOf, Footprint;
    PartKeys(done, p);
    Join(s, t, u, KeysOf(done), Keys(p), KeysOf(done + {p}));
    InvOwners(t);
    forall q | q in done ensures PartDone(u, cr.spec, q) { DoneKept(t, u, Keys(p), cr.spec, q); }
    if ok {
      ReferencesWellFormed(t);
      if calm {
        forall q | q in done ensures PartSettled(u, cr, q) { SettledKept(t, u, Keys(p), cr, q); }
        if SettledFor(s, cr, done + {p}) { assert SettledFor(s, cr, done); assert p in done + {p}; }
      }
    }
  }

  lemma InvOwners(s: State)
    requires Inv(s)
    ensures OwnersOk(s)
  {
  }

  /** A call that writes nothing. */
  lemma Pause(s: State, t: State, u: State, cr: Relocation, done: set<Part>, calm: bool)
    requires Inv(t) && Applying(t) && Foreign !in done
    requires Progress(s, t, cr, done, calm) && Steady(t, u, NOTHING) && (calm ==> u == t)
    ensures Progress(s, u, cr, done, calm)
  {
    hide Steady, Quiet, PartDone, PartSettled, Applying, Inv, KeysOf;
    Join(s, t, u, KeysOf(done), NOTHING, KeysOf(done));
    InvOwners(t);
    forall q | q in done ensures PartDone(u, cr.spec, q) { DoneKept(t, u, NOTHING, cr.spec, q); }
  }

  /** Two stages of a pass in a row. */
  lemma Compose(s: State, t: State, u: State, cr: Relocation, first: set<Part>, second: set<Part>, calm: bool, ok: bool)
    requires Inv(t) && Applying(t) && t.active == Some(cr) && first !! second && Foreign !in first + second
    requires Progress(s, t, cr, first, calm)
    requires Steady(t, u, KeysOf(second)) && (calm ==> Quiet(t, u, KeysOf(second)))
    requires ok ==> Progress(t, u, cr, second, calm)
    ensures Steady(s, u, KeysOf(first + second)) && (calm ==> Quiet(s, u, KeysOf(first + second)))
    ensures ok ==> Progress(s, u, cr, first + second, calm)
  {
    hide Steady, Quiet, PartDone, PartSettled, Applying, Inv;
    Join(s, t, u, KeysOf(first), KeysOf(second), KeysOf(first + second));
    if ok {
      ReferencesWellFormed(t);
      InvOwners(t);
      forall q | q in first ensures PartDone(u, cr.spec, q) { DoneKept(t, u, KeysOf(second), cr.spec, q); }
      if calm {
        forall q | q in first ensures PartSettled(u, cr, q) { SettledKept(t, u, KeysOf(second), cr, q); }
        if SettledFor(s, cr, first + second) { assert SettledFor(s, cr, first) && SettledFor(s, cr, second); }
      }
    }
  }

  /** What a sub-reconciler needs is as it was when the pass started. */
  lemma StillAsFeasible(s: State, t: State, cr: Relocation, done: set<Part>, p: Part)
    requires Quiet(s, t, KeysOf(done)) && cr.spec.WellFormed() && p !in done && p != Foreign && Foreign !in done
    ensures PartFeasible(t, cr, p) == PartFeasible(s, cr, p)
  {
    hide Quiet, PartFeasible;
    FeasibleKept(s, t, KeysOf(done), cr, p);
  }

  lemma AllDone(s: State, sp: Spec)
    requires DoneFor(s, sp, ALL)
    ensures Configured(s, sp)
  {
    hide DnsDone, SshDone, RegistryDone, MirrorDone, PullDone, CatalogDone, IngressDone, ApiDone;
    assert PartDone(s, sp, DnsPart) && PartDone(s, sp, SshPart) && PartDone(s, sp, RegistryPart) && PartDone(s, sp, MirrorPart);
    assert PartDone(s, sp, PullPart) && PartDone(s, sp, CatalogPart) && PartDone(s, sp, IngressPart) && PartDone(s, sp, ApiPart);
  }

  /* --------------------------------------------------- where a pass stops */

  /** The sub-reconciler that a reason is about, and those that come before it. */
  function StepOf(reason: Reason): Option<Part> {
    match reason
    case DnsFailed => Some(DnsPart)
    case SshFailed => Some(SshPart)
    case RegistryFailed => Some(RegistryPart)
    case MirrorFailed => Some(MirrorPart)
    case PullSecretFailed => Some(PullPart)
    case CatalogFailed => Some(CatalogPart)
    case IngressFailed => Some(IngressPart)
    case ApiFailed => Some(ApiPart)
    case _ => None
  }

  function Rank(p: Part): nat {
    match p
    case DnsPart => 0
    case SshPart => 1
    case RegistryPart => 2
    case MirrorPart => 3
    case PullPart => 4
    case CatalogPart => 5
    case IngressPart => 6
    case ApiPart => 7
    case Foreign => 0
  }

  function Earlier(p: Part): set<Part> { set q | q in ALL && Rank(q) < Rank(p) }

  /** The reason of a failure tells how far the pass has come: what comes before that step is done, and what comes after
      it is untouched. */
  ghost predicate Stopped(s: State, t: State, sp: Spec, stage: set<Part>, failure: Option<Reason>) {
    failure.Some? ==>
      && StepOf(failure.value).Some?
      && var p := StepOf(failure.value).value;
      && p in stage
      && Steady(s, t, KeysOf(Earlier(p) * stage + {p}))
      && DoneFor(t, sp, Earlier(p) * stage)
  }

  /** Stopping, or not, at the first or at the second of the two sub-reconcilers of a stage. */
  lemma StopAtFirst(s: State, t: State, sp: Spec, p: Part, q: Part, reason: Reason)
    requires StepOf(reason) == Some(p) && Rank(p) < Rank(q) && Steady(s, t, KeysOf({p}))
    ensures Stopped(s, t, sp, {p, q}, Some(reason))
  {
    hide Steady, PartDone, Rank;
    assert Earlier(p) * {p, q} + {p} == {p};
  }

  lemma StopAtSecond(s: State, t: State, sp: Spec, p: Part, q: Part, reason: Reason, ok: bool)
    requires StepOf(reason) == Some(q) && p in ALL && Rank(p) < Rank(q) && Steady(s, t, KeysOf({p} + {q})) && DoneFor(t, sp, {p})
    ensures Stopped(s, t, sp, {p, q}, if ok then None else Some(reason))
  {
    hide Steady, PartDone, Rank;
    assert Earlier(q) * {p, q} == {p};
  }

  lemma StopEarlier(s: State, t: State, sp: Spec, first: set<Part>, stage: set<Part>, failure: Option<Reason>)
    requires Stopped(s, t, sp, first, failure) && first <= stage
    requires forall p :: p in first ==> Earlier(p) * stage == Earlier(p) * first
    ensures Stopped(s, t, sp, stage, failure)
  {
    hide Steady, PartDone, Earlier;
  }

  lemma StopLater(s: State, t: State, u: State, cr: Relocation, first: set<Part>, second: set<Part>, calm: bool, failure: Option<Reason>)
    requires Inv(t) && Applying(t) && t.active == Some(cr) && first !! second && Foreign !in first + second
    requires Progress(s, t, cr, first, calm) && Stopped(t, u, cr.spec, second, failure)
    requires forall p :: p in second ==> first <= Earlier(p)
    ensures Stopped(s, u, cr.spec, first + second, failure)
  {
    hide Steady, Quiet, PartDone, PartSettled, Applying, Inv, Earlier;
    if failure.Some? {
      var p := StepOf(failure.value).value;
      var more := Earlier(p) * second;
      assert Earlier(p) * (first + second) == first + more;
      assert first + more + {p} == first + (more + {p});
      assert KeysOf(first) <= KeysOf(first + (more + {p})) && KeysOf(more + {p}) <= KeysOf(first + (more + {p}));
      Join(s, t, u, KeysOf(first), KeysOf(more + {p}), KeysOf(first + (more + {p})));
      InvOwners(t);
      forall q | q in first ensures PartDone(u, cr.spec, q) { DoneKept(t, u, KeysOf(more + {p}), cr.spec, q); }
    }
  }

  /* ------------------------------------------------- two steps, two stages */

  /** After the first of the two sub-reconcilers of a stage. */
  lemma FirstOfStage(s: State, t: State, cr: Relocation, p: Part, q: Part, reason: Reason, calm: bool, ok: bool)
    requires Inv(s) && Applying(s) && s.active == Some(cr)
    requires p in ALL && q in ALL && Rank(p) < Rank(q) && StepOf(reason) == Some(p)
    requires Steady(s, t, Keys(p)) && (calm ==> Quiet(s, t, Keys(p)))
    requires ok ==> PartDone(t, cr.spec, p)
    requires ok && calm ==> PartSettled(t, cr, p) && (PartSettled(s, cr, p) ==> t == s)
    ensures Steady(s, t, KeysOf({p, q})) && (calm ==> Quiet(s, t, KeysOf({p, q})))
    ensures ok ==> Progress(s, t, cr, {p}, calm)
    ensures !ok ==> Stopped(s, t, cr.spec, {p, q}, Some(reason))
    ensures calm ==> PartFeasible(t, cr, q) == PartFeasible(s, cr, q)
  {
    hide Inv, Applying, Steady, Quiet, PartDone, PartSettled, PartFeasible, KeysOf, Progress, Stopped;
    ReferencesWellFormed(s);
    Start(s, cr, calm);
    Advance(s, s, t, cr, {}, p, calm, ok);
    assert {} + {p} == {p};
    assert KeysOf({p}) <= KeysOf({p, q}) by { PartKeys({p}, q); assert {p} + {q} == {p, q}; }
    Widen(s, t, KeysOf({p}), KeysOf({p, q}));
    if calm { StillAsFeasible(s, t, cr, {p}, q); }
    if !ok { StopAtFirst(s, t, cr.spec, p, q, reason); }
  }

  /** After the second. */
  lemma SecondOfStage(s: State, t: State, u: State, cr: Relocation, p: Part, q: Part, reason: Reason, calm: bool, ok: bool)
    requires Inv(t) && Applying(t) && t.active == Some(cr)
    requires p in ALL && q in ALL && Rank(p) < Rank(q) && StepOf(reason) == Some(q)
    requires Progress(s, t, cr, {p}, calm) && Steady(t, u, Keys(q)) && (calm ==> Quiet(t, u, Keys(q)))
    requires ok ==> PartDone(u, cr.spec, q)
    requires ok && calm ==> PartSettled(u, cr, q) && (PartSettled(t, cr, q) ==> u == t)
    ensures Steady(s, u, KeysOf({p, q})) && (calm ==> Quiet(s, u, KeysOf({p, q})))
    ensures ok ==> Progress(s, u, cr, {p, q}, calm)
    ensures Stopped(s, u, cr.spec, {p, q}, if ok then None else Some(reason))
  {
    hide Inv, Applying, Steady, Quiet, PartDone, PartSettled, KeysOf, Progress, Stopped;
    Advance(s, t, u, cr, {p}, q, calm, ok);
    assert {p} + {q} == {p, q};
    StopAtSecond(s, u, cr.spec, p, q, reason, ok);
  }

  /** After the first of two stages. */
  lemma FirstStage(s: State, t: State, cr: Relocation, first: set<Part>, stage: set<Part>, calm: bool, failure: Option<Reason>)
    requires first <= stage && Steady(s, t, KeysOf(first)) && (calm ==> Quiet(s, t, KeysOf(first)))
    requires Stopped(s, t, cr.spec, first, failure)
    requires forall p :: p in first ==> Earlier(p) * stage == Earlier(p) * first
    ensures Steady(s, t, KeysOf(stage)) && (calm ==> Quiet(s, t, KeysOf(stage)))
    ensures Stopped(s, t, cr.spec, stage, failure)
  {
    hide Steady, Quiet, Stopped, Earlier;
    StopEarlier(s, t, cr.spec, first, stage, failure);
    assert KeysOf(first) <= KeysOf(stage);
    Widen(s, t, KeysOf(first), KeysOf(stage));
  }

  /** After the second. */
  lemma SecondStage(s: State, t: State, u: State, cr: Relocation, first: set<Part>, second: set<Part>, calm: bool, failure: Option<Reason>)
    requires Inv(t) && Applying(t) && t.active == Some(cr) && first !! second && Foreign !in first + second
    requires Progress(s, t, cr, first, calm) && Stopped(t, u, cr.spec, second, failure)
    requires Steady(t, u, KeysOf(second)) && (calm ==> Quiet(t, u, KeysOf(second)))
    requires failure.None? ==> Progress(t, u, cr, second, calm)
    requires forall p :: p in second ==> first <= Earlier(p)
    ensures Steady(s, u, KeysOf(first + second)) && (calm ==> Quiet(s, u, KeysOf(first + second)))
    ensures failure.None? ==> Progress(s, u, cr, first + second, calm)
    ensures Stopped(s, u, cr.spec, first + second, failure)
  {
    hide Inv, Applying, Steady, Quiet, Progress, Stopped, Earlier, KeysOf;
    Compose(s, t, u, cr, first, second, calm, failure.None?);
    StopLater(s, t, u, cr, first, second, calm, failure);
  }
}
