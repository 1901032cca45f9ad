/** Self-destruction: the CR goes, the operator goes, and the cluster stays as the successful pass left it that deleted
    its own CR. */
module Retention {
  import opened Types
  import opened Store
  import opened Goals
  import opened Protocol
  import opened Preservation
  import opened Runs

  /** The CR "cluster" is being deleted by its self-destruction, or gone already. */
  predicate Departing(s: State) {
    ClusterName in s.crs ==> s.crs[ClusterName].deleting && s.crs[ClusterName].SelfDestructs()
  }

  /** The deletion that a successful pass issues begins the departure exactly when the stored CR still has the annotation
      that the pass has read. Otherwise the CR is finalized like any other. */
  lemma DepartureBegins(s: State)
    requires Inv(s) && Licence(s, OrphanDelete)
    ensures ClusterName in s.crs
    ensures Departing(Effect(s, OrphanDelete)) <==> s.crs[ClusterName].SelfDestructs()
    ensures Effect(s, OrphanDelete).objs == s.objs
  {
    hide Configured, Registered;
  }

  /** Only the value "true" of the annotation destroys: neither the deletion nor a finalization that restores nothing comes
      from a pass over any other value. */
  lemma OnlyTrueDestroys(states: seq<State>, events: seq<Event>, i: nat)
    requires Run(states, events) && i < |events|
    requires events[i] == OpEvent(OrphanDelete)
             || (events[i] == OpEvent(RemoveFinalizer) && FinalizerMoves(states[i], events[i]) && Dirty(states[i]))
    ensures states[i].active.Some? && states[i].active.value.selfDestruct == Some("true")
  {
    hide Step, Dirty, Configured, Registered;
    RunStep(states, events, i);
  }

  /** A departing CR gives no pass the right to write; only the finalization of a CR of another name has it. */
  lemma NoAuthority(s: State)
    requires Departing(s)
    ensures !Applying(s)
    ensures Finalising(s) ==> s.active.value.name != ClusterName
  {
  }

  lemma EnvKeepsDeparting(s: State, a: EnvAction)
    requires Departing(s) && Inv(s) && !Recreates(EnvEvent(a))
    ensures Departing(EnvStep(s, a))
  {
    hide InPlaceFirm, Stripped, Pinned, Typed, UserKey, Collectable, EnvObjs, ConditionsOk;
    NamesMatch(s);
  }

  lemma WriteKeepsDeparting(s: State, w: Write)
    requires Departing(s) && Inv(s) && Licence(s, w)
    ensures Departing(Effect(s, w))
    ensures !Finalising(s) ==> Effect(s, w).objs == s.objs
  {
    hide Inv, Configured, PutLicence, DelLicence, ObjsAfter, NewConditionOk, Applying, Finalising;
    NamesMatch(s);
    NoAuthority(s);
    if ObjectWrite(w) { WritesNeedAuthority(s, w); }
    NoObjectsTouched(s, w);
  }

  lemma NoObjectsTouched(s: State, w: Write)
    ensures !ObjectWrite(w) ==> ObjsAfter(s, w) == s.objs
  {
  }

  /** The finalizer goes while an orphaning deletion holds the CR, or when nothing refers to the CR any more. */
  lemma WriteKeepsOwner(s: State, w: Write, uid: nat)
    requires Departing(s) && Inv(s) && Licence(s, w)
    requires Alive(s, uid) && !Stripped(s, uid)
    ensures Alive(Effect(s, w), uid)
  {
    hide Configured, PutLicence, DelLicence, ObjsAfter, NewConditionOk, WellTyped, OwnersOk, PullSecretSafe,
      NoDangling, CertNames,
      MirrorExclusive, InPlaceOk, FinalizerKept, Dirty;
    NoAuthority(s);
    if w.RemoveFinalizer? && Unchanged(s) && s.active.value.name == ClusterName {
      assert OrphanFinalizer in s.active.value.finalizers - {RelocationFinalizer};
    }
  }

  /** What the operator has written is as it was: nothing is changed, collected or added. */
  ghost predicate Retained(s: State, t: State) {
    && t.singleNode == s.singleNode
    && (forall k :: Firm(s, k) && PartOf(k) != Foreign && !k.Catalog? ==> Firm(t, k) && t.objs[k].body == s.objs[k].body)
    && (forall k :: k in t.objs && PartOf(k) != Foreign && !k.Catalog? ==> k in s.objs && t.objs[k].body == s.objs[k].body)
  }

  lemma EnvRetains(s: State, a: EnvAction)
    requires Inv(s)
    ensures Retained(s, EnvStep(s, a))
  {
    hide Inv, EnvStep;
    HeldByInvariant(s);
    EnvKeepsModern(s, a);
    forall k | Firm(s, k) && PartOf(k) != Foreign && !k.Catalog?
      ensures Firm(EnvStep(s, a), k) && EnvStep(s, a).objs[k].body == s.objs[k].body
    {
      EnvKeepsFirm(s, a, k);
    }
    forall k | k in EnvStep(s, a).objs && PartOf(k) != Foreign && !k.Catalog?
      ensures k in s.objs && EnvStep(s, a).objs[k].body == s.objs[k].body
    {
      EnvCreatesNothing(s, a, k);
    }
  }

  lemma WriteRetains(s: State, w: Write)
    requires Departing(s) && !Finalising(s) && Inv(s) && Licence(s, w)
    ensures Retained(s, Effect(s, w))
  {
    hide Inv, Departing, Licence, Alive, Stripped, CrsAfter, ObjsAfter;
    WriteKeepsDeparting(s, w);
    forall k | Firm(s, k) ensures Firm(Effect(s, w), k) {
      var o := s.objs[k].owners;
      if o.cr.Some? && Alive(s, o.cr.value.uid) {
        OwnerReferred(s, k);
        WriteKeepsOwner(s, w, o.cr.value.uid);
      }
    }
  }

  lemma StepRetains(s: State, e: Event)
    requires Departing(s) && Inv(s) && Legal(s, e) && !Recreates(e)
    ensures Departing(Step(s, e)) && (!Finalising(s) ==> Retained(s, Step(s, e)))
  {
    hide Inv, Departing, Finalising, EnvStep, Effect, Licence, Retained;
    match e {
      case EnvEvent(a) =>
        EnvKeepsDeparting(s, a);
        EnvRetains(s, a);
      case OpEvent(w) =>
        WriteKeepsDeparting(s, w);
        if !Finalising(s) { WriteRetains(s, w); }
    }
  }

  lemma OwnerReferred(s: State, k: Key)
    requires CrOwned(s, k)
    ensures !Stripped(s, s.objs[k].owners.cr.value.uid)
  {
  }

  lemma HeldByInvariant(s: State)
    requires Inv(s)
    ensures OwnerHeld(s) && CrsOk(s)
  {
  }

  /** A user creates a CR "cluster". */
  predicate Recreates(e: Event) { e.EnvEvent? && e.action.CreateCr? && e.action.name == ClusterName }

  /** Nobody asks for another relocation between these two states. */
  predicate NotAgain(events: seq<Event>, i: nat, j: nat)
    requires i <= j <= |events|
  {
    forall l :: i <= l < j ==> !Recreates(events[l])
  }

  /** No CR of another name is finalized between these two states. */
  predicate NoneFinalized(states: seq<State>, i: nat, j: nat)
    requires i <= j <= |states|
  {
    forall l :: i <= l < j ==> !Finalising(states[l])
  }

  lemma {:induction false} StaysDeparting(states: seq<State>, events: seq<Event>, i: nat, j: nat)
    requires History(states, events) && i <= j < |states| && Departing(states[i]) && NotAgain(events, i, j)
    ensures Departing(states[j])
  {
    hide Inv, Departing, Legal, Step, Init;
    if i < j {
      StaysDeparting(states, events, i, j - 1);
      RunStep(states, events, j - 1);
      Always(states, events, j - 1);
      StepRetains(states[j - 1], events[j - 1]);
    }
  }

  /** From the moment the self-destruction has begun, nothing that the operator configured is changed or collected. */
  lemma {:induction false} SelfDestructRetains(states: seq<State>, events: seq<Event>, i: nat, j: nat)
    requires History(states, events) && i <= j < |states| && Departing(states[i])
    requires NotAgain(events, i, j) && NoneFinalized(states, i, j)
    ensures Retained(states[i], states[j])
  {
    hide Inv, Departing, Finalising, Legal, Step, Init, Firm;
    if i < j {
      SelfDestructRetains(states, events, i, j - 1);
      StaysDeparting(states, events, i, j - 1);
      RunStep(states, events, j - 1);
      Always(states, events, j - 1);
      StepRetains(states[j - 1], events[j - 1]);
    }
  }

  /** From then on no sub-reconciler and no Cleanup writes anything, unless a user asks for another relocation or deletes a
      CR of another name that has the finalizer. */
  lemma NoCleanupRuns(states: seq<State>, events: seq<Event>, i: nat, j: nat)
    requires History(states, events) && i <= j < |events| && Departing(states[i]) && NotAgain(events, i, j)
    requires ChangesCluster(events[j])
    ensures Finalising(states[j]) && states[j].active.value.name != ClusterName
  {
    hide Inv, Departing, Step, Init, Licence, Applying, Finalising;
    StaysDeparting(states, events, i, j);
    RunStep(states, events, j);
    NoAuthority(states[j]);
    WritesNeedAuthority(states[j], events[j].write);
  }

  /* ------------------------------------------------------ catalog sources */

  /** A user writes or deletes this object. */
  predicate UserTouches(e: Event, k: Key) {
    e.EnvEvent? && (e.action.PutForeign? || e.action.DeleteForeign?) && e.action.key == k
  }

  /** No user writes or deletes this object between these two states. */
  predicate LeftAlone(events: seq<Event>, k: Key, i: nat, j: nat)
    requires i <= j <= |events|
  {
    forall l :: i <= l < j ==> !UserTouches(events[l], k)
  }

  lemma EnvKeepsSource(s: State, a: EnvAction, k: Key)
    requires Inv(s) && k.Catalog? && Firm(s, k) && !UserTouches(EnvEvent(a), k)
    ensures Firm(EnvStep(s, a), k) && EnvStep(s, a).objs[k].body == s.objs[k].body
  {
    hide Inv, EnvStep, Alive, Stripped;
    HeldByInvariant(s);
    EnvLeavesSource(s, a, k);
    var o := s.objs[k].owners;
    if o.cr.Some? && Alive(s, o.cr.value.uid) {
      OwnerReferred(s, k);
      EnvKeepsAlive(s, a, o.cr.value.uid);
    }
  }

  lemma EnvLeavesSource(s: State, a: EnvAction, k: Key)
    requires k.Catalog? && Firm(s, k) && !UserTouches(EnvEvent(a), k)
    ensures k in EnvStep(s, a).objs && EnvStep(s, a).objs[k].body == s.objs[k].body
    ensures EnvStep(s, a).objs[k].owners == s.objs[k].owners
            || EnvStep(s, a).objs[k].owners == s.objs[k].owners.(cr := None)
  {
    hide EnvCrs, InPlaceFirm, Stripped, Pinned, Typed;
  }

  lemma WriteKeepsSource(s: State, w: Write, k: Key)
    requires Departing(s) && !Finalising(s) && Inv(s) && Licence(s, w) && Firm(s, k)
    ensures Firm(Effect(s, w), k) && Effect(s, w).objs[k].body == s.objs[k].body
  {
    hide Inv, Departing, Licence, Alive, Stripped, CrsAfter, ObjsAfter;
    WriteKeepsDeparting(s, w);
    var o := s.objs[k].owners;
    if o.cr.Some? && Alive(s, o.cr.value.uid) {
      OwnerReferred(s, k);
      WriteKeepsOwner(s, w, o.cr.value.uid);
    }
  }

  /** A catalog source is neither collected nor changed either, for as long as users leave it alone. They may touch it once
      it is orphaned. */
  lemma {:induction false} SourceStays(states: seq<State>, events: seq<Event>, i: nat, j: nat, k: Key)
    requires History(states, events) && i <= j < |states| && Departing(states[i])
    requires NotAgain(events, i, j) && NoneFinalized(states, i, j)
    requires k.Catalog? && Firm(states[i], k) && LeftAlone(events, k, i, j)
    ensures Firm(states[j], k) && states[j].objs[k].body == states[i].objs[k].body
  {
    hide Inv, Departing, Finalising, EnvStep, Effect, Init, Firm, Licence;
    if i < j {
      SourceStays(states, events, i, j - 1, k);
      StaysDeparting(states, events, i, j - 1);
      RunStep(states, events, j - 1);
      Always(states, events, j - 1);
      match events[j - 1] {
        case EnvEvent(a) => EnvKeepsSource(states[j - 1], a, k);
        case OpEvent(w) => WriteKeepsSource(states[j - 1], w, k);
      }
    }
  }

  /* ------------------------------------------------------------ end to end */

  lemma RetainedEndpoints(s: State, t: State, sp: Spec)
    requires Retained(s, t) && s.held == t.held
    ensures IngressDone(s, sp) ==> IngressDone(t, sp)
    ensures ApiDone(s, sp) ==> ApiDone(t, sp)
    ensures DnsDone(s, sp) ==> DnsDone(t, sp)
  {
    hide Collectable;
  }

  lemma RetainedRest(s: State, t: State, sp: Spec)
    requires Inv(s) && Retained(s, t) && s.held == t.held
    ensures RegistryDone(s, sp) ==> RegistryDone(t, sp)
    ensures MirrorDone(s, sp) ==> MirrorDone(t, sp)
    ensures PullDone(s, sp) ==> PullDone(t, sp)
    ensures SshDone(s, sp) ==> SshDone(t, sp)
  {
    hide Inv;
    UnownedIsFirm(s, ImageConfig);
    UnownedIsFirm(s, LIVE);
    if SshDone(s, sp) {
      forall r ensures SshRoleDone(t, sp, r) { assert SshRoleDone(s, sp, r); }
    }
  }

  lemma UnownedIsFirm(s: State, k: Key)
    requires Inv(s) && Unowned(k)
    ensures k in s.objs ==> Firm(s, k)
  {
  }

  /** All that a spec asks for, but for the catalog sources. */
  ghost predicate ConfiguredNode(s: State, sp: Spec) {
    && IngressDone(s, sp) && ApiDone(s, sp) && RegistryDone(s, sp) && SshDone(s, sp)
    && MirrorDone(s, sp) && PullDone(s, sp) && DnsDone(s, sp)
  }

  lemma NodeRetained(s: State, t: State, sp: Spec)
    requires Inv(s) && Retained(s, t) && s.held == t.held
    ensures ConfiguredNode(s, sp) ==> ConfiguredNode(t, sp)
  {
    hide Inv, Retained, IngressDone, ApiDone, RegistryDone, SshDone, MirrorDone, PullDone, DnsDone;
    RetainedEndpoints(s, t, sp);
    RetainedRest(s, t, sp);
  }

  /** What a cluster is configured as when the departure begins, it stays. */
  lemma ConfigurationSurvives(states: seq<State>, events: seq<Event>, i: nat, j: nat, sp: Spec)
    requires History(states, events) && i <= j < |states| && Departing(states[i])
    requires NotAgain(events, i, j) && NoneFinalized(states, i, j)
    ensures ConfiguredNode(states[i], sp) ==> ConfiguredNode(states[j].(held := states[i].held), sp)
  {
    hide Inv, Departing, Run, Init, ConfiguredNode;
    SelfDestructRetains(states, events, i, j);
    Always(states, events, i);
    NodeRetained(states[i], states[j].(held := states[i].held), sp);
  }

  /** The deletion request itself takes nothing away. */
  lemma RequestRetains(s: State)
    requires Inv(s) && Licence(s, OrphanDelete)
    ensures Retained(s, Effect(s, OrphanDelete)) && Effect(s, OrphanDelete).held == s.held
    ensures forall k :: Firm(s, k) ==> Firm(Effect(s, OrphanDelete), k) && Effect(s, OrphanDelete).objs[k] == s.objs[k]
  {
    hide Inv, Configured, Registered;
  }

  lemma SuccessIsConfigured(s: State)
    requires Inv(s) && Successful(s)
    ensures s.active.Some? && s.active.value.name == ClusterName && ClusterName in s.crs
    ensures var sp := s.active.value.spec;
      && Configured(s, sp) && Registered(s, sp) && ConfiguredNode(s, sp)
      && forall n :: Listed(sp.catalogs, n) ==> Holds(s, Catalog(n), CatalogBody(LastImage(sp.catalogs, n)))
  {
    hide Inv, Registered, IngressDone, ApiDone, RegistryDone, SshDone, MirrorDone, PullDone, DnsDone, Listed, LastImage;
  }

  /** A pass issues the orphaning deletion only when it has reached what its spec asks for. If the stored CR then still has
      the annotation, the cluster is configured by that spec, with the copies that the pass has made, in every later state:
      after the CR is gone, too. Every catalog source of the spec keeps its image until a user touches it. */
  lemma ConfigurationOutlivesTheCr(states: seq<State>, events: seq<Event>, i: nat, j: nat)
    requires History(states, events) && i < j < |states| && events[i] == OpEvent(OrphanDelete)
    requires NotAgain(events, i, j) && NoneFinalized(states, i, j)
    requires ClusterName in states[i].crs ==> states[i].crs[ClusterName].SelfDestructs()
    ensures ClusterName in states[i].crs && states[i].active.Some?
    ensures var sp := states[i].active.value.spec;
      && Reached(states, events, i, sp)
      && ConfiguredNode(states[j].(held := states[i].held), sp)
      && forall n :: Listed(sp.catalogs, n) && LeftAlone(events, Catalog(n), i, j) ==>
           Holds(states[j], Catalog(n), CatalogBody(LastImage(sp.catalogs, n)))
  {
    hide Inv, Departing, Init, Effect, EnvStep, Configured, Successful, Retained, ConfiguredNode, Reached, Firm, Listed, LastImage, Registered;
    RunStep(states, events, i);
    Always(states, events, i);
    SuccessIsConfigured(states[i]);
    DepartureBegins(states[i]);
    RequestRetains(states[i]);
    var sp := states[i].active.value.spec;
    ConfiguredReaches(states, events, i, sp);
    NodeRetained(states[i], states[i + 1], sp);
    ConfigurationSurvives(states, events, i + 1, j, sp);
    forall n | Listed(sp.catalogs, n) && LeftAlone(events, Catalog(n), i, j)
      ensures Holds(states[j], Catalog(n), CatalogBody(LastImage(sp.catalogs, n)))
    {
      SourceStays(states, events, i + 1, j, Catalog(n));
    }
  }
}
