/** What holds over whole runs: however passes fail, are interrupted or are repeated, whatever users, upgrades and the
    garbage collector do in between. */
module Runs {
  import opened Types
  import opened Store
  import opened Goals
  import opened Protocol
  import opened Preservation
  import SemVer

  /** A run from a cluster that no relocation has touched. */
  ghost predicate History(states: seq<State>, events: seq<Event>) {
    Run(states, events) && Init(states[0])
  }

  lemma StepKeepsInvariant(s: State, e: Event)
    requires Inv(s) && Legal(s, e)
    ensures Inv(Step(s, e))
  {
    hide Inv, Licence;
    match e {
      case EnvEvent(a) => EnvKeepsInvariant(s, a);
      case OpEvent(w) => WriteKeepsInvariant(s, w);
    }
  }

  lemma {:induction false} Always(states: seq<State>, events: seq<Event>, i: nat)
    requires History(states, events) && i < |states|
    ensures Inv(states[i])
  {
    hide Inv, Init, Licence;
    if i == 0 {
      InitialInvariant(states[0]);
    } else {
      Always(states, events, i - 1);
      StepKeepsInvariant(states[i - 1], events[i - 1]);
    }
  }

  /* ---------------------------------------------------------- pull secret */

  lemma {:induction false} OriginalIsFixed(states: seq<State>, events: seq<Event>, i: nat)
    requires Run(states, events) && i < |states|
    ensures states[i].original == states[0].original
  {
    hide Licence;
    if i > 0 {
      OriginalIsFixed(states, events, i - 1);
      StepKeepsOriginal(states[i - 1], events[i - 1]);
    }
  }

  lemma StepKeepsOriginal(s: State, e: Event)
    ensures Step(s, e).original == s.original
  {
  }

  /** The pull secret from before the first relocation is never lost: while there is a backup it is the backup, and it is
      the live pull secret otherwise. */
  lemma PullSecretIsSafe(states: seq<State>, events: seq<Event>, i: nat)
    requires History(states, events) && i < |states|
    ensures LIVE in states[0].objs && LIVE in states[i].objs
    ensures BACKUP in states[i].objs ==> states[i].objs[BACKUP].body == states[0].objs[LIVE].body
    ensures BACKUP !in states[i].objs ==> states[i].objs[LIVE].body == states[0].objs[LIVE].body
  {
    hide Run;
    Always(states, events, i);
    OriginalIsFixed(states, events, i);
  }

  /* ------------------------------------------------------------ finalizer */

  /** The event gives the stored CR "cluster" its finalizer, or gives it up. */
  predicate FinalizerMoves(s: State, e: Event) { e.OpEvent? && MovesFinalizer(s, e.write) }

  /** A self-destruction gives up the finalizer of the CR "cluster". */
  predicate LetGo(s: State, e: Event) {
    FinalizerMoves(s, e) && e.write.RemoveFinalizer? && s.active.value.SelfDestructs()
  }

  /** The last relocation ended in a self-destruction: since then no CR "cluster" has got the finalizer. */
  ghost predicate SelfDestructed(states: seq<State>, events: seq<Event>, i: nat)
    requires i <= |events| < |states|
  {
    exists l :: 0 <= l < i && LetGo(states[l], events[l]) && forall m :: l < m < i ==> !FinalizerMoves(states[m], events[m])
  }

  lemma StepKnowsRetained(s: State, e: Event)
    ensures Step(s, e).retained <==> LetGo(s, e) || (s.retained && !FinalizerMoves(s, e))
  {
    hide EnvObjs, EnvCrs, ObjsAfter, CrsAfter, ActiveAfter, HeldAfter, InPlaceFirm, EnvEnabled, Unchanged;
  }

  lemma {:induction false} RetainedIsKnown(states: seq<State>, events: seq<Event>, i: nat)
    requires History(states, events) && i < |states|
    ensures states[i].retained <==> SelfDestructed(states, events, i)
  {
    hide Legal, Step, LetGo, FinalizerMoves;
    if i > 0 {
      var s, e := states[i - 1], events[i - 1];
      RetainedIsKnown(states, events, i - 1);
      StepKnowsRetained(s, e);
      LetGoMoves(s, e);
      if SelfDestructed(states, events, i - 1) && !FinalizerMoves(s, e) {
        var l :| 0 <= l < i - 1 && LetGo(states[l], events[l]) && forall m :: l < m < i - 1 ==> !FinalizerMoves(states[m], events[m]);
        assert forall m :: l < m < i ==> !FinalizerMoves(states[m], events[m]);
      }
    }
  }

  lemma LetGoMoves(s: State, e: Event)
    ensures LetGo(s, e) ==> FinalizerMoves(s, e)
  {
  }

  /** While anything is left to undo, the CR "cluster" is stored with the finalizer; only a self-destruction gives that up,
      until the next relocation. */
  lemma FinalizerDiscipline(states: seq<State>, events: seq<Event>, i: nat)
    requires History(states, events) && i < |states|
    requires Dirty(states[i]) && !SelfDestructed(states, events, i)
    ensures ClusterName in states[i].crs && RelocationFinalizer in states[i].crs[ClusterName].finalizers
  {
    hide Run, Dirty, SelfDestructed;
    Always(states, events, i);
    RetainedIsKnown(states, events, i);
  }

  /** So once the CR "cluster" is gone, the configuration is at its defaults and the pull secret is the original one,
      however many finalizations failed before. Earlier self-destructions do not matter. */
  lemma CleanAfterDeletion(states: seq<State>, events: seq<Event>, i: nat)
    requires History(states, events) && i < |states|
    requires ClusterName !in states[i].crs && !SelfDestructed(states, events, i)
    ensures NamedCerts(states[i]) == [] && DefaultCert(states[i]) == None && !TrustedCA(states[i])
    ensures AppsDomain(states[i]) == "" && ComponentRoutes(states[i]) == []
    ensures BACKUP !in states[i].objs
    ensures LIVE in states[i].objs && LIVE in states[0].objs && states[i].objs[LIVE].body == states[0].objs[LIVE].body
  {
    hide Run, SelfDestructed;
    if Dirty(states[i]) { FinalizerDiscipline(states, events, i); }
    PullSecretIsSafe(states, events, i);
  }

  /* ----------------------------------------------------------- references */

  /** Users have kept certificates in place: whenever one gave a CR a spec, the API certificate that it names in
      openshift-config did not await garbage collection, and nobody deleted a secret in use. */
  ghost predicate InPlaceSafe(states: seq<State>, events: seq<Event>, i: nat)
    requires i <= |events| < |states|
  {
    forall l :: 0 <= l < i ==> KeepsInPlaceSafe(states[l], events[l])
  }

  predicate KeepsInPlaceSafe(s: State, e: Event) {
    e.EnvEvent? && EnvEnabled(s, e.action) ==>
      && (e.action.CreateCr? || e.action.EditSpec? ==> InPlaceFirm(s, e.action.spec))
      && (e.action.DeleteSecret? ==> !Pinned(s, e.action.key))
  }

  lemma StepKnowsInPlace(s: State, e: Event)
    ensures Step(s, e).inPlaceSafe <==> s.inPlaceSafe && KeepsInPlaceSafe(s, e)
  {
    hide EnvObjs, EnvCrs, ObjsAfter, CrsAfter, ActiveAfter, HeldAfter, InPlaceFirm;
  }

  lemma {:induction false} InPlaceIsKnown(states: seq<State>, events: seq<Event>, i: nat)
    requires History(states, events) && i < |states|
    ensures states[i].inPlaceSafe <==> InPlaceSafe(states, events, i)
  {
    hide Legal, Step, KeepsInPlaceSafe;
    if i > 0 {
      InPlaceIsKnown(states, events, i - 1);
      StepKnowsInPlace(states[i - 1], events[i - 1]);
    }
  }

  /** Whatever the API server, the ingress controller, a component route or the image configuration names is there, where
      its consumer looks for it, and does not await garbage collection. For an API certificate that is named in place, this
      takes that users have kept it there. */
  lemma NothingDangles(states: seq<State>, events: seq<Event>, i: nat)
    requires History(states, events) && i < |states|
    ensures forall c :: c in NamedCerts(states[i]) ==>
              var k := SecretKey(OpenshiftConfig, c.secret);
              (UserKey(k) ==> InPlaceSafe(states, events, i)) ==> Firm(states[i], k)
    ensures forall r :: r in ComponentRoutes(states[i]) ==> Firm(states[i], SecretKey(OpenshiftConfig, r.secret))
    ensures DefaultCert(states[i]).Some? ==> Firm(states[i], SecretKey(OpenshiftIngress, DefaultCert(states[i]).value))
    ensures TrustedCA(states[i]) ==> Firm(states[i], RegistryConfigMap)
  {
    hide Legal, Step, Firm, NamedCerts, ComponentRoutes, DefaultCert, TrustedCA, InPlaceSafe;
    var s := states[i];
    Always(states, events, i);
    InPlaceIsKnown(states, events, i);
    forall c | c in NamedCerts(s)
      ensures var k := SecretKey(OpenshiftConfig, c.secret);
        (UserKey(k) ==> InPlaceSafe(states, events, i)) ==> Firm(s, k)
    {
      var j :| 0 <= j < |NamedCerts(s)| && NamedCerts(s)[j] == c;
      assert Referenced(s, SecretKey(OpenshiftConfig, c.secret));
    }
    forall r | r in ComponentRoutes(s) ensures Firm(s, SecretKey(OpenshiftConfig, r.secret)) {
      var j :| 0 <= j < |ComponentRoutes(s)| && ComponentRoutes(s)[j] == r;
      assert Referenced(s, SecretKey(OpenshiftConfig, r.secret));
    }
    if DefaultCert(s).Some? { assert Referenced(s, SecretKey(OpenshiftIngress, DefaultCert(s).value)); }
    if TrustedCA(s) { assert Referenced(s, RegistryConfigMap); }
  }

  /* --------------------------------------------------------------- mirror */

  lemma StepKeepsModern(s: State, e: Event)
    ensures s.modern ==> Step(s, e).modern
  {
    hide EnvObjs, EnvCrs, ObjsAfter, CrsAfter;
  }

  lemma {:induction false} ModernIsForGood(states: seq<State>, events: seq<Event>, i: nat, j: nat)
    requires Run(states, events) && i <= j < |states| && states[i].modern
    ensures states[j].modern
  {
    hide Licence, Step;
    if i < j {
      ModernIsForGood(states, events, i, j - 1);
      StepKeepsModern(states[j - 1], events[j - 1]);
    }
  }

  /** The two mirror objects never coexist, and there is no way back from the newer kind. */
  lemma MirrorKindsApart(states: seq<State>, events: seq<Event>, i: nat, j: nat)
    requires History(states, events) && i <= j < |states|
    requires Idms in states[i].objs
    ensures Icsp !in states[j].objs
  {
    hide Run;
    Always(states, events, i);
    ModernIsForGood(states, events, i, j);
    Always(states, events, j);
  }

  /* ----------------------------------------------------------------- gate */

  /** The event writes, creates or deletes an object. */
  predicate ChangesCluster(e: Event) {
    e.OpEvent? && ObjectWrite(e.write)
  }

  /** An object is written only by a pass on the CR "cluster" whose generation an earlier pass has observed, or by a pass
      that finalizes a CR without self-destruction. */
  lemma ChangesNeedTheGate(states: seq<State>, events: seq<Event>, i: nat)
    requires Run(states, events) && i < |events| && ChangesCluster(events[i])
    ensures states[i].active.Some?
    ensures var cr := states[i].active.value;
      || (cr.deleting && !cr.SelfDestructs())
      || (!cr.deleting && cr.name == ClusterName && cr.reconciled.Some? && cr.reconciled.value.observed >= cr.generation)
  {
    assert Legal(states[i], events[i]);
    WritesNeedAuthority(states[i], events[i].write);
  }

  lemma WritesNeedAuthority(s: State, w: Write)
    requires ObjectWrite(w) && Licence(s, w)
    ensures Applying(s) || Finalising(s)
  {
    hide Applying, Finalising, Configured, Sound, Renews;
  }

  /* ------------------------------------------------------ what a pass knows */

  /** No pass begins or ends between these two states. */
  predicate SamePass(events: seq<Event>, i: nat, j: nat)
    requires i <= j <= |events|
  {
    forall l :: i <= l < j ==> !(events[l].OpEvent? && (events[l].write.Begin? || events[l].write.End?))
  }

  lemma StepKnowsHeld(s: State, e: Event, k: Key, b: Body)
    requires (k, b) in Step(s, e).held
    ensures ((k, b) in s.held && !(e.OpEvent? && (e.write.Begin? || e.write.End?)))
            || (k in Step(s, e).objs && Step(s, e).objs[k].body == b)
  {
    hide EnvCrs, CrsAfter, InPlaceFirm, Stripped, Pinned, Collectable;
  }

  /** What a pass takes a user's secret to have held, the secret has held since the pass began. */
  lemma {:induction false} HeldSinceBegin(states: seq<State>, events: seq<Event>, i: nat, k: Key, b: Body)
    requires History(states, events) && i < |states| && (k, b) in states[i].held
    ensures exists j :: 0 <= j <= i && SamePass(events, j, i) && k in states[j].objs && states[j].objs[k].body == b
  {
    hide Licence, Step;
    if i > 0 {
      StepKnowsHeld(states[i - 1], events[i - 1], k, b);
      if k in states[i].objs && states[i].objs[k].body == b {
        assert SamePass(events, i, i);
      } else {
        HeldSinceBegin(states, events, i - 1, k, b);
        var j :| 0 <= j <= i - 1 && SamePass(events, j, i - 1) && k in states[j].objs && states[j].objs[k].body == b;
        assert SamePass(events, j, i);
      }
    }
  }

  lemma StepKnowsSeen(s: State, e: Event)
    requires Step(s, e).seenAvailable
    ensures (s.seenAvailable && !(e.OpEvent? && (e.write.Begin? || e.write.End?))) || (e == OpEvent(Observe) && s.klusterlet == Some(true))
  {
    hide EnvObjs, EnvCrs, ObjsAfter, CrsAfter, EnvEnabled;
  }

  /** The Klusterlet was Available when this pass read it. */
  ghost predicate ReadAvailable(states: seq<State>, events: seq<Event>, i: nat)
    requires i < |states| == |events| + 1
  {
    exists j :: 0 <= j < i && SamePass(events, j, i) && events[j] == OpEvent(Observe) && states[j].klusterlet == Some(true)
  }

  lemma {:induction false} SeenWasRead(states: seq<State>, events: seq<Event>, i: nat)
    requires History(states, events) && i < |states| && states[i].seenAvailable
    ensures ReadAvailable(states, events, i)
  {
    hide Licence, Step;
    if i > 0 {
      StepKnowsSeen(states[i - 1], events[i - 1]);
      if events[i - 1] == OpEvent(Observe) && states[i - 1].klusterlet == Some(true) {
        assert SamePass(events, i - 1, i);
      } else {
        SeenWasRead(states, events, i - 1);
        var j :| 0 <= j < i - 1 && SamePass(events, j, i - 1) && events[j] == OpEvent(Observe) && states[j].klusterlet == Some(true);
        assert SamePass(events, j, i);
      }
    }
  }

  /** The object holds what the user's secret has held since the pass began. */
  ghost predicate HoldsCopy(states: seq<State>, events: seq<Event>, i: nat, ref: SecretRef, k: Key)
    requires i < |states| == |events| + 1
  {
    && k in states[i].objs
    && exists j :: 0 <= j <= i && SamePass(events, j, i)
         && ref.Key() in states[j].objs && states[j].objs[ref.Key()].body == states[i].objs[k].body
  }

  lemma CopiedHoldsCopy(states: seq<State>, events: seq<Event>, i: nat, ref: SecretRef, k: Key)
    requires History(states, events) && i < |states| && Copied(states[i], ref, k)
    ensures HoldsCopy(states, events, i, ref, k)
  {
    hide Run, Init;
    HeldSinceBegin(states, events, i, ref.Key(), states[i].objs[k].body);
  }

  /* --------------------------------------------------------------- status */

  /** A pass has reached what the spec asks for: the cluster is configured, the users' secrets that the spec refers to have
      been copied in this pass, and a registration asked for has been seen in this pass. */
  ghost predicate Reached(states: seq<State>, events: seq<Event>, i: nat, sp: Spec)
    requires i < |states| == |events| + 1
  {
    && Configured(states[i], sp)
    && (sp.pullSecret.Some? ==> HoldsCopy(states, events, i, sp.pullSecret.value, LIVE))
    && (sp.ingressCert.Some? ==>
          HoldsCopy(states, events, i, sp.ingressCert.value, COPIED_INGRESS)
          && HoldsCopy(states, events, i, sp.ingressCert.value, COPIED_INGRESS_COPY))
    && (sp.apiCert.Some? && sp.apiCert.value.namespace != OpenshiftConfig ==>
          HoldsCopy(states, events, i, sp.apiCert.value, COPIED_API))
    && (sp.acm.Some? ==> ReadAvailable(states, events, i))
  }

  lemma ConfiguredReaches(states: seq<State>, events: seq<Event>, i: nat, sp: Spec)
    requires History(states, events) && i < |states| && Configured(states[i], sp) && Registered(states[i], sp)
    ensures Reached(states, events, i, sp)
  {
    hide Run, Init, SshDone, RegistryDone, MirrorDone, CatalogDone, DnsDone, Firm, Holds, HoldsCopy, ReadAvailable, Copied,
      IngressPairDone, ApiPairDone;
    if sp.pullSecret.Some? { CopiedHoldsCopy(states, events, i, sp.pullSecret.value, LIVE); }
    if sp.ingressCert.Some? {
      CopiedHoldsCopy(states, events, i, sp.ingressCert.value, COPIED_INGRESS);
      CopiedHoldsCopy(states, events, i, sp.ingressCert.value, COPIED_INGRESS_COPY);
    }
    if sp.apiCert.Some? && sp.apiCert.value.namespace != OpenshiftConfig {
      CopiedHoldsCopy(states, events, i, sp.apiCert.value, COPIED_API);
    }
    if sp.acm.Some? { SeenWasRead(states, events, i); }
  }

  /** A Reconciled=True that is new in the store is true: at that very moment the pass that writes it has reached what the
      spec of the observed generation asks. */
  lemma StatusIsTruthful(states: seq<State>, events: seq<Event>, i: nat, n: CrName)
    requires History(states, events) && i < |events|
    requires n in states[i + 1].crs && IsTrue(states[i + 1].crs[n])
    requires n in states[i].crs ==> states[i].crs[n].reconciled != states[i + 1].crs[n].reconciled
    ensures n == ClusterName && Reached(states, events, i, states[i + 1].crs[n].spec)
    ensures states[i + 1].crs[n].reconciled.value.observed == states[i + 1].crs[n].generation
  {
    hide Run, Inv, Configured, Reached, Registered;
    RunStep(states, events, i);
    Always(states, events, i);
    match events[i] {
      case EnvEvent(a) =>
        NamesMatch(states[i]);
        EnvKeepsIdentity(states[i], a, n);
      case OpEvent(w) =>
        TrueIsConfigured(states[i], w, n);
        ConfiguredReaches(states, events, i, states[i + 1].crs[n].spec);
    }
  }

  predicate IsTrue(cr: Relocation) { cr.reconciled.Some? && cr.reconciled.value.status }

  lemma RunStep(states: seq<State>, events: seq<Event>, i: nat)
    requires Run(states, events) && i < |events|
    ensures i + 1 < |states| && Legal(states[i], events[i]) && states[i + 1] == Step(states[i], events[i])
  {
    hide Legal, Step;
  }

  lemma ConditionsBounded(s: State, n: CrName)
    requires Inv(s) && n in s.crs
    ensures ConditionsOk(s.crs[n])
  {
  }

  /** Only a new CR comes without the status, and it comes with a new UID. */
  lemma EnvKeepsIdentity(s: State, a: EnvAction, n: CrName)
    requires n in EnvStep(s, a).crs && forall m :: m in s.crs ==> s.crs[m].name == m
    ensures EnvStep(s, a).nextUid >= s.nextUid
    ensures (EnvStep(s, a).crs[n].uid == s.nextUid && EnvStep(s, a).crs[n].reconciled.None?)
            || (n in s.crs && EnvStep(s, a).crs[n].uid == s.crs[n].uid && EnvStep(s, a).crs[n].ready == s.crs[n].ready
                && EnvStep(s, a).crs[n].reconciled == s.crs[n].reconciled && EnvStep(s, a).crs[n].generation >= s.crs[n].generation)
  {
    hide InPlaceFirm, Stripped, Pinned, Typed, UserKey, Collectable, EnvObjs;
  }

  lemma NamesMatch(s: State)
    requires Inv(s)
    ensures forall n :: n in s.crs ==> s.crs[n].name == n
    ensures ActiveOk(s)
  {
  }

  lemma TrueIsConfigured(s: State, w: Write, n: CrName)
    requires Inv(s) && Licence(s, w) && n in Effect(s, w).crs && IsTrue(Effect(s, w).crs[n])
    requires n in s.crs ==> s.crs[n].reconciled != Effect(s, w).crs[n].reconciled
    ensures n == ClusterName && Configured(s, Effect(s, w).crs[n].spec) && Registered(s, Effect(s, w).crs[n].spec)
    ensures Effect(s, w).crs[n].reconciled.value.observed == Effect(s, w).crs[n].generation
  {
    hide Inv, Configured, Registered, PutLicence, DelLicence, ObjsAfter, NewConditionOk;
    NamesMatch(s);
  }

  /* ------------------------------------------------- observed generations */

  /** This condition was written for generation g or a later one. */
  predicate Observes(c: Option<Condition>, g: nat) { c.Some? && c.value.observed >= g }

  lemma WriteKeepsIdentity(s: State, w: Write, n: CrName)
    requires Inv(s) && Licence(s, w) && n in Effect(s, w).crs
    ensures Effect(s, w).nextUid == s.nextUid
    ensures n in s.crs && Effect(s, w).crs[n].uid == s.crs[n].uid && Effect(s, w).crs[n].generation >= s.crs[n].generation
    ensures forall g :: Observes(s.crs[n].reconciled, g) ==> Observes(Effect(s, w).crs[n].reconciled, g)
    ensures forall g :: Observes(s.crs[n].ready, g) ==> Observes(Effect(s, w).crs[n].ready, g)
  {
    hide Inv, Configured, PutLicence, DelLicence, ObjsAfter, Applying;
    NamesMatch(s);
  }

  lemma {:induction false} UidsRise(states: seq<State>, events: seq<Event>, i: nat, j: nat)
    requires Run(states, events) && i <= j < |states|
    ensures states[i].nextUid <= states[j].nextUid
  {
    hide Licence;
    if i < j {
      UidsRise(states, events, i, j - 1);
      StepKeepsUids(states[j - 1], events[j - 1]);
    }
  }

  lemma StepKeepsUids(s: State, e: Event)
    ensures Step(s, e).nextUid >= s.nextUid
  {
    hide EnvObjs, EnvCrs, ObjsAfter, CrsAfter, EnvEnabled;
  }

  /** For as long as a CR lives, the generations that its two conditions observe never decrease and never exceed its own. */
  lemma {:induction false} ObservedNeverDecreases(states: seq<State>, events: seq<Event>, i: nat, j: nat, n: CrName)
    requires History(states, events) && i <= j < |states|
    requires n in states[i].crs && n in states[j].crs && states[i].crs[n].uid == states[j].crs[n].uid
    ensures forall g :: Observes(states[i].crs[n].reconciled, g) ==> Observes(states[j].crs[n].reconciled, g)
    ensures forall g :: Observes(states[i].crs[n].ready, g) ==> Observes(states[j].crs[n].ready, g)
    ensures states[i].crs[n].generation <= states[j].crs[n].generation
    ensures ConditionsOk(states[j].crs[n])
  {
    hide Inv, Licence, Init;
    Always(states, events, j);
    ConditionsBounded(states[j], n);
    if i < j {
      var s := states[j - 1];
      RunStep(states, events, j - 1);
      Always(states, events, j - 1);
      Always(states, events, i);
      UidBounded(states[i], n);
      UidsRise(states, events, i, j - 1);
      match events[j - 1] {
        case EnvEvent(a) =>
          NamesMatch(s);
          EnvKeepsIdentity(s, a, n);
        case OpEvent(w) => WriteKeepsIdentity(s, w, n);
      }
      ObservedNeverDecreases(states, events, i, j - 1, n);
    }
  }

  lemma UidBounded(s: State, n: CrName)
    requires Inv(s) && n in s.crs
    ensures s.crs[n].uid < s.nextUid
  {
  }

  /* ------------------------------------------------------------------ acm */

  /** The operator deletes a user's secret, the ACM credential, only in a pass that has read before that the Klusterlet is
      Available, and while nothing names the secret. */
  lemma CredentialIsSafe(states: seq<State>, events: seq<Event>, i: nat, k: Key)
    requires History(states, events) && i < |events| && events[i] == OpEvent(Del(k)) && UserKey(k)
    ensures ReadAvailable(states, events, i)
    ensures !Referenced(states[i], k)
  {
    hide Step, Referenced, ReadAvailable;
    RunStep(states, events, i);
    SeenWasRead(states, events, i);
  }

  /* -------------------------------------------------------------- version */

  lemma StepKeepsVersion(s: State, e: Event)
    ensures SemVer.Compare(s.version, Step(s, e).version) != SemVer.Greater
  {
    hide EnvObjs, EnvCrs, ObjsAfter, CrsAfter, SemVer.Compare;
    SemVer.CompareMirrored(Step(s, e).version, s.version);
    SemVer.CompareMirrored(s.version, s.version);
  }

  /** No state of a run has a version below that of an earlier state, so the choice between the mirror kinds flips at
      most once, from the older to the newer. */
  lemma {:induction false} VersionsNeverFall(states: seq<State>, events: seq<Event>, i: nat, j: nat)
    requires Run(states, events) && i <= j < |states|
    ensures SemVer.Compare(states[i].version, states[j].version) != SemVer.Greater
    ensures SemVer.Before413(states[j].version) ==> SemVer.Before413(states[i].version)
  {
    hide Licence, Step, SemVer.Compare;
    if i == j {
      SemVer.CompareMirrored(states[i].version, states[j].version);
    } else {
      VersionsNeverFall(states, events, i, j - 1);
      StepKeepsVersion(states[j - 1], events[j - 1]);
      SemVer.CompareTransitive(states[i].version, states[j - 1].version, states[j].version);
    }
    SemVer.LegacyInNumbers(states[i].version);
    SemVer.LegacyInNumbers(states[j].version);
    SemVer.CompareMirrored(states[i].version, SemVer.V4_13_0);
    SemVer.CompareMirrored(states[j].version, SemVer.V4_13_0);
    if !SemVer.Legacy(states[i].version) {
      SemVer.CompareTransitive(SemVer.V4_13_0, states[i].version, states[j].version);
    }
  }
}
