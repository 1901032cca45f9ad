/** controllers/clusterrelocation_controller.go, Reconcile: from the request to the stored status. */
module Reconciliation {
  import opened Types
  import opened Store
  import opened Goals
  import opened Protocol
  import opened Preservation
  import opened Fixpoints
  import opened ClusterApi
  import opened Parts
  import opened Controller
  import SemVer
  import Mirror
  import Catalogs
  import Routes

  /** The state as a pass on this CR begins. */
  function Entered(s: State, cr: Relocation): State {
    s.(active := Some(cr), held := UserBodies(s), seenAvailable := false)
  }

  /** The state when a pass is over. */
  function Left(s: State): State { s.(active := None, held := {}, seenAvailable := false) }

  /** The same, apart from what the pass knows. */
  predicate SameButKnown(s: State, t: State) {
    t == s.(held := t.held, seenAvailable := t.seenAvailable)
  }

  /** A stored CR on which a pass goes all the way. */
  predicate Admitted(s: State, cr: Relocation) {
    && ClusterName in s.crs && s.crs[ClusterName] == cr && cr.name == ClusterName
    && !cr.deleting && cr.Guarded() && cr.Gated() && !cr.SelfDestructs()
  }

  /** The state once the CR has the finalizer. */
  function Given(s: State, cr: Relocation): State {
    if cr.Guarded() then s
    else s.(active := Some(WithFinalizer(cr)),
            crs := s.crs[cr.name := WithFinalizer(cr)],
            retained := s.retained && cr.name != ClusterName)
  }

  /** The store after a pass on a CR of a name that is not valid: the finalizer is added, and the status says what is wrong. */
  function Refused(s: State, cr: Relocation): State {
    Left(Given(s, cr)).(crs := s.crs[cr.name := Concluded(WithFinalizer(cr), cr.reconciled)])
  }

  lemma RefusedOnce(s: State, cr: Relocation)
    ensures cr.Guarded() ==> Refused(s, cr) == Left(s).(crs := s.crs[cr.name := Concluded(cr, cr.reconciled)])
    ensures Refused(Given(s, cr), WithFinalizer(cr)) == Refused(s, cr)
    ensures Refused(Entered(s, cr), cr) == Refused(s, cr)
    ensures Passed(Given(Entered(s, cr), cr), WithFinalizer(cr), Some(ReconcileInProgress))
            == Passed(Given(s, cr), WithFinalizer(cr), Some(ReconcileInProgress))
  {
    if cr.Guarded() { assert cr.finalizers + {RelocationFinalizer} == cr.finalizers; }
    assert Given(s, cr).crs[cr.name := Concluded(WithFinalizer(cr), cr.reconciled)] == s.crs[cr.name := Concluded(WithFinalizer(cr), cr.reconciled)];
    assert WithFinalizer(WithFinalizer(cr)) == WithFinalizer(cr) by {
      assert WithFinalizer(cr).finalizers + {RelocationFinalizer} == WithFinalizer(cr).finalizers;
    }
  }

  /** The CR after a pass. */
  function Concluded(cr: Relocation, reconciled: Option<Condition>): Relocation {
    cr.(ready := Some(ReadyCondition(cr)), reconciled := reconciled)
  }

  lemma AdmissionApplies(s: State, cr: Relocation)
    requires Inv(s) && cr.name in s.crs && s.crs[cr.name] == cr && s.active == Some(cr) && !cr.deleting && cr.Guarded()
    ensures cr.name == ClusterName ==> Started(s) && (cr.Gated() ==> Applying(s))
  {
  }

  lemma FinalizerLicence(s: State, cr: Relocation)
    requires Inv(s) && s.active == Some(cr)
    ensures !cr.deleting ==> Licence(s, AddFinalizer)
    ensures cr.deleting && (cr.SelfDestructs() || !Dirty(s)) ==> Licence(s, RemoveFinalizer)
  {
  }

  /** The finalizer is on the stored CR and on the copy. */
  lemma FinalizerAdded(s: State, cr: Relocation)
    requires Inv(s) && Licence(s, AddFinalizer) && Protocol.Unchanged(s) && s.active == Some(cr)
    ensures var t, guarded := Effect(s, AddFinalizer), WithFinalizer(cr);
      t.active == Some(guarded) && cr.name in t.crs && t.crs[cr.name] == guarded && !guarded.deleting && guarded.Guarded()
      && (!cr.Guarded() ==> t == Given(s, cr))
  {
    hide Inv;
  }

  /** The CR is gone, or no longer carries the finalizer. */
  predicate Released(s: State, name: CrName) {
    name in s.crs ==> RelocationFinalizer !in s.crs[name].finalizers
  }

  /** Nothing was left to undo in some state of the run from this point on. */
  ghost predicate WasClean(before: seq<State>, after: seq<State>) {
    exists i :: |before| <= i + 1 && 0 <= i < |after| && !Dirty(after[i])
  }

  lemma FinalizerRemoved(s: State, cr: Relocation)
    requires Protocol.Unchanged(s) && s.active == Some(cr)
    ensures Released(Effect(s, RemoveFinalizer), cr.name)
  {
  }

  lemma StillFinalising(s: State, cr: Relocation)
    requires cr.name in s.crs && s.crs[cr.name] == cr && s.active == Some(cr) && cr.deleting && cr.Guarded() && !cr.SelfDestructs()
    ensures Finalising(s)
  {
  }

  lemma StillActive(s: State, t: State, f: iset<Key>)
    requires Steady(s, t, f)
    ensures t.active == s.active
  {
  }

  lemma ReadVersion(s: State, version: SemVer.Version)
    requires Inv(s) && version == s.version
    ensures Mirror.WasRead(s, version)
  {
  }

  /** Above 4.12.999, in numbers. */
  predicate Above412(v: SemVer.Version) {
    v.Version? && (v.major > 4 || (v.major == 4 && (v.minor > 12 || (v.minor == 12 && v.patch > 999))))
  }

  lemma Threshold(v: SemVer.Version)
    ensures SemVer.Compare(v, SemVer.V4_12_999) == SemVer.Greater <==> Above412(v)
  {
  }

  class Reconciler {
    const client: Cluster
    var watchingIdms: bool

    constructor (c: Cluster)
      ensures client == c && !watchingIdms
    {
      client := c;
      watchingIdms := false;
    }

    /** ImageDigestMirrorSets are watched from 4.13 on. Whether to watch is decided once, at the first pass that gets here. */
    method WatchIdms(version: SemVer.Version) returns (ok: bool)
      requires client.Valid()
      modifies this, client
      ensures client.Looked()
      ensures old(client.Calm()) ==> client.st == old(client.st)
      ensures old(client.Faultless()) ==> ok
      ensures ok ==> watchingIdms
      // ImageDigestMirrorSets are watched above 4.12.999
      ensures ok && !old(watchingIdms) && Above412(version) ==> Answered(old(client.events), client.events, MirrorSetsWatched)
      ensures !Above412(version) ==> client.tick == old(client.tick) && client.events == old(client.events)
      ensures old(watchingIdms) ==> ok && client.tick == old(client.tick)
    {
      hide Run, Inv, Steady;
      SteadyReflexive(client.st);
      Threshold(version);
      if !watchingIdms {
        if SemVer.Compare(version, SemVer.V4_12_999) == SemVer.Greater {
          ok := client.Probe(MirrorSetsWatched);
          if !ok { return; }
        }
        watchingIdms := true;
      }
      ok := true;
    }

    /** Validation, the version, the gate, and what lies behind it. */
    method Work(cr: Relocation) returns (result: Result, reconciled: Option<Condition>)
      requires client.Valid() && client.st.active == Some(cr) && !cr.deleting
      requires cr.name == ClusterName && cr.Gated() ==> Applying(client.st)
      modifies this, client
      ensures client.Valid() && client.Since(old(client.states), old(client.events)) && old(client.tick) <= client.tick
      ensures Concludes(client.st, cr, reconciled)
      // whoever interferes, nil behind the gate means that the cluster has been as the spec asks
      ensures cr.name == ClusterName && cr.Gated() && result == Done ==>
                client.SawSuccess(cr) && Verified(old(client.events), client.events, cr.spec.domain)
      ensures cr.name == ClusterName && !cr.Gated() ==> result != Done
      ensures result == Requeue ==> cr.name == ClusterName && !cr.Gated()
      // the mirror sets are watched by then, where there are any
      ensures cr.name == ClusterName && result != Error ==> watchingIdms
      // a new condition says how far the pass has come
      ensures cr.name == ClusterName && cr.Gated() ==>
                reconciled == cr.reconciled || Told(old(client.st), client.st, cr, reconciled)
      ensures cr.name == ClusterName && cr.Gated() && old(client.Faultless()) && Announces(old(client.st), cr) ==>
                |client.hub| == |old(client.hub)| + 1
      // nothing is changed while the observed generation lags, or for a CR of another name
      ensures cr.name != ClusterName || !cr.Gated() ==> client.Looked()
      ensures old(client.Calm()) && (cr.name != ClusterName || !cr.Gated()) ==> client.st == old(client.st)
      ensures old(client.Faultless()) && cr.name != ClusterName ==> result == Done && reconciled == cr.reconciled
      ensures old(client.Faultless()) && cr.name == ClusterName && !cr.Gated() ==>
                result == Requeue && reconciled == Some(ReconciledCondition(cr, Some(ReconcileInProgress)))
      ensures cr.name == ClusterName && cr.Gated() && old(client.Calm()) && !cr.SelfDestructs() ==>
                Quiet(old(client.st), client.st, Footprint(cr)) && (result == Done ==> AllSettled(client.st, cr))
      ensures cr.name == ClusterName && cr.Gated() && old(client.Faultless()) && !cr.SelfDestructs() ==>
                ComesTo(old(client.st), client.st, cr, result, reconciled)
      // nothing is created or updated where everything is settled
      ensures cr.name == ClusterName && cr.Gated() && old(client.Calm()) && SettledFor(old(client.st), cr, ALL)
              && Catalogs.Distinct(cr.spec.catalogs) ==>
                client.Puts() == old(client.Puts())
    {
      hide Catalogs.Distinct, Run, Inv, Steady, Quiet, Licence, Applying, Configured, KeysOf, Footprint, Mirror.WasRead, Superseded, Concludes,
        SettledFor, AllSettled, PassVerdict, Verdict, OneRouteLess, Verified, Announces, Explained, Told;
      ghost var s0 := client.st;
      Nothing(s0, cr);
      reconciled := cr.reconciled;
      if cr.name != ClusterName { return Done, reconciled; }

      var version := client.GetVersion();
      Unfinished(client.st, cr);
      if !version.Ok? { return Error, reconciled; }
      ghost var s1 := client.st;
      ReadVersion(s1, version.value);
      var ok := WatchIdms(version.value);
      SteadyJoin(s0, s1, client.st, NOTHING, NOTHING, NOTHING);
      StillNothing(s1, client.st, version.value);
      Unfinished(client.st, cr);
      if !ok { return Error, reconciled; }

      if !cr.Gated() {
        reconciled := Some(ReconciledCondition(cr, Some(ReconcileInProgress)));
        return Requeue, reconciled;
      }
      var failure;
      ghost var s2, past := client.st, client.events;
      result, failure := Relocate(client, cr, version.value, old(client.Calm()));
      VerifiedWithin(old(client.events), past, client.events, cr.spec.domain);
      reconciled := Some(ReconciledCondition(cr, failure));
      ToldEarlier(s0, s2, client.st, cr, failure);
    }

    /** The deferred status update, whose failure is only logged, and the end of the pass. */
    method Finish(cr: Relocation, reconciled: Option<Condition>)
      requires client.Valid() && Concludes(client.st, cr, reconciled)
      modifies client
      ensures client.Valid() && client.Since(old(client.states), old(client.events)) && client.st.active.None? && old(client.tick) <= client.tick
      ensures client.Puts() == old(client.Puts()) && client.hub == old(client.hub)
      ensures old(client.Calm()) ==> SameButKnown(old(client.st), Behind(old(client.st), client.st, cr))
      ensures old(client.Calm()) && Protocol.Unchanged(old(client.st)) ==>
                cr.name in client.st.crs && (client.st.crs[cr.name] == cr || client.st.crs[cr.name] == Concluded(cr, reconciled))
      ensures old(client.Faultless()) && Protocol.Unchanged(old(client.st)) ==>
                client.st == Left(old(client.st)).(crs := old(client.st).crs[cr.name := Concluded(cr, reconciled)])
    {
      hide Run, Inv, Steady, Licence, Concludes;
      StatusLicence(client.st, cr, reconciled);
      ActiveCr(client.st, cr, reconciled);
      ghost var before;
      var ok;
      ok, before := client.UpdateCr(SetStatus(Some(ReadyCondition(cr)), reconciled));
      client.EndPass();
    }

    /** A CR whose deletion is requested: finalize, then let it go. */
    method Finalize(cr: Relocation) returns (result: Result)
      requires client.Valid() && client.st.active == Some(cr) && cr.name in client.st.crs && client.st.crs[cr.name] == cr
      requires cr.deleting
      modifies client
      ensures client.Valid() && client.Since(old(client.states), old(client.events)) && client.st.active.None? && old(client.tick) <= client.tick
      // whoever interferes, nil means that the finalizer is gone, after everything was restored and the domain answered
      ensures result == Done ==> Released(client.st, cr.name)
      ensures result == Done && cr.Guarded() && !cr.SelfDestructs() ==>
                WasClean(old(client.states), client.states)
                && Answered(old(client.events), client.events, DomainAnswers(old(client.st).baseDomain))
      ensures result == Done && cr.Guarded() && cr.SelfDestructs() ==> Answered(old(client.events), client.events, OperatorRemoved)
      ensures result != Requeue
      ensures old(client.Faultless()) && cr.Guarded() ==> FinalizationEnds(old(client.st), client.st, cr, result)
      ensures old(client.Faultless()) && !cr.Guarded() ==> result == Done && client.st == Left(old(client.st))
    {
      hide Run, Inv, Steady, Licence, Finalising, Dirty, Routes.MultiStale, OneRouteLess, KeysOf, Effect, Stored,
        OthersKept, FinalizationEnds, Answered, Routes.OutdatedRoutes;
      result := Done;
      if cr.Guarded() {
        if !cr.SelfDestructs() { StillFinalising(client.st, cr); }
        ghost var s0 := client.st;
        var ok := FinalizeRelocation(client, cr);
        ghost var s1, past := client.st, client.events;
        client.LastState();
        StillActive(s0, s1, if cr.SelfDestructs() then NOTHING else KeysOf(ALL));
        if old(client.Faultless()) {
          FinalizationFrame(s0, s1, cr);
          Finalized(s0, s1, cr, ok);
        }
        if ok {
          FinalizerLicence(client.st, cr);
          ghost var before;
          ok, before := client.UpdateCr(RemoveFinalizer);
          AnswersGrow(old(client.events), past, client.events);
          StillActive(s1, before, NOTHING);
          if ok { FinalizerRemoved(before, cr); }
        }
        result := if ok then Done else Error;
      }
      ghost var asked := client.events;
      client.EndPass();
      AnswersGrow(old(client.events), asked, client.events);
    }

    /** The finalizer is on the CR before anything else happens. */
    method EnsureFinalizer(cr: Relocation) returns (ok: bool, guarded: Relocation)
      requires client.Valid() && client.st.active == Some(cr) && cr.name in client.st.crs && client.st.crs[cr.name] == cr
      requires !cr.deleting
      modifies client
      ensures client.Valid() && client.Since(old(client.states), old(client.events)) && old(client.tick) <= client.tick
      ensures guarded == WithFinalizer(cr) && client.Puts() == old(client.Puts()) && client.hub == old(client.hub)
      ensures ok ==> client.st.active == Some(guarded) && cr.name in client.st.crs && client.st.crs[cr.name] == guarded
      ensures client.Updated(AddFinalizer)
      ensures old(client.Faultless()) ==>
                ok && client.st == Given(old(client.st), cr)
      ensures cr.Guarded() ==> guarded == cr && client.st == old(client.st)
    {
      hide Run, Inv, Steady, Licence, Effect;
      guarded := WithFinalizer(cr);
      if cr.Guarded() {
        AlreadyGuarded(client.st, cr);
        SteadyReflexive(client.st);
        return true, guarded;
      }
      FinalizerLicence(client.st, cr);
      ghost var before;
      ok, before := client.UpdateCr(AddFinalizer);
      StillActive(old(client.st), before, NOTHING);
      if Protocol.Unchanged(before) { FinalizerAdded(before, cr); }
    }

    /** A pass on a CR that is to stay. */
    method Pass(cr: Relocation) returns (result: Result)
      requires client.Valid() && client.st.active == Some(cr) && cr.name in client.st.crs && client.st.crs[cr.name] == cr
      requires !cr.deleting && cr.Guarded()
      modifies this, client
      ensures client.Valid() && client.Since(old(client.states), old(client.events)) && client.st.active.None? && old(client.tick) <= client.tick
      ensures cr.name == ClusterName && result == Done ==>
                cr.Gated() && client.SawSuccess(cr) && Verified(old(client.events), client.events, cr.spec.domain)
      ensures result == Requeue ==> cr.name == ClusterName && !cr.Gated()
      ensures cr.name == ClusterName && result != Error ==> watchingIdms
      ensures old(client.Faultless()) && cr.name == ClusterName && cr.Gated() && Announces(old(client.st), cr) ==>
                |client.hub| == |old(client.hub)| + 1
      ensures cr.name != ClusterName || !cr.Gated() ==> client.Puts() == old(client.Puts())
      ensures old(client.Faultless()) && cr.name != ClusterName ==> result == Done && client.st == Refused(old(client.st), cr)
      ensures old(client.Calm()) && !(cr.name == ClusterName && cr.Gated() && cr.SelfDestructs()) ==>
                Quiet(old(client.st), Behind(old(client.st), client.st, cr), Footprint(cr))
                && cr.name in client.st.crs && SameTask(cr, client.st.crs[cr.name])
      ensures old(client.Faultless()) && cr.name == ClusterName && !cr.Gated() ==>
                result == Requeue && client.st == Passed(old(client.st), cr, Some(ReconcileInProgress))
      ensures old(client.Faultless()) && cr.name == ClusterName && cr.Gated() && !cr.SelfDestructs() ==>
                PassEnds(old(client.st), client.st, cr, result)
      ensures old(client.Calm()) && result == Done && cr.name == ClusterName && cr.Gated() && !cr.SelfDestructs() ==>
                Reached(old(client.st), client.st, cr)
      ensures old(client.Calm()) && cr.name == ClusterName && cr.Gated() && !cr.SelfDestructs()
              && SettledFor(old(client.st), cr, ALL) && Catalogs.Distinct(cr.spec.catalogs) ==>
                client.Puts() == old(client.Puts())
    {
      hide Run, Inv, Steady, Licence, Applying, Concludes, ComesTo, Quiet, Footprint, Effect, AllSettled,
        KeptAt, SettledFor, Catalogs.Distinct, Given, Refused, Successful, Verified, Announces, Told;
      ghost var s0 := client.st;
      AdmissionApplies(client.st, cr);
      var reconciled;
      result, reconciled := Work(cr);
      ghost var s1, past := client.st, client.events;
      ActiveCr(s1, cr, reconciled);
      QuietReflexive(s0, Footprint(cr));
      RefusedOnce(s0, cr);
      CopyIsCurrent(s0, s1, cr);
      Finish(cr, reconciled);
      VerifiedWithin(old(client.events), past, client.events, cr.spec.domain);
      StillQuiet(s0, s1, client.st, cr);
      if old(client.Calm()) && result == Done && cr.name == ClusterName && cr.Gated() && !cr.SelfDestructs() {
        StillSettled(s1, Behind(s1, client.st, cr), cr);
      }
      if old(client.Faultless()) && cr.name == ClusterName && cr.Gated() && !cr.SelfDestructs() {
        PassConcluded(s0, s1, client.st, cr, result, reconciled);
      }
    }

    /** A CR whose deletion is not requested: the finalizer comes first. */
    method Keep(cr: Relocation) returns (result: Result)
      requires client.Valid() && client.st.active == Some(cr) && cr.name in client.st.crs && client.st.crs[cr.name] == cr
      requires !cr.deleting
      modifies this, client
      ensures client.Valid() && client.Since(old(client.states), old(client.events)) && client.st.active.None? && old(client.tick) <= client.tick
      ensures cr.name == ClusterName && result == Done ==>
                cr.Gated() && client.SawSuccess(WithFinalizer(cr)) && Verified(old(client.events), client.events, cr.spec.domain)
      ensures result == Done ==> WasGuarded(old(client.states), client.states, cr.name)
      ensures result == Requeue ==> cr.name == ClusterName && !cr.Gated()
      ensures cr.name == ClusterName && result != Error ==> watchingIdms
      ensures old(client.Faultless()) && Admitted(old(client.st), cr) && Announces(old(client.st), cr) ==>
                |client.hub| == |old(client.hub)| + 1
      ensures old(client.Faultless()) && cr.name != ClusterName ==> result == Done && client.st == Refused(old(client.st), cr)
      ensures old(client.Faultless()) && cr.name == ClusterName && !cr.Gated() ==>
                result == Requeue && client.st == Passed(Given(old(client.st), cr), WithFinalizer(cr), Some(ReconcileInProgress))
      ensures old(client.Faultless()) && Admitted(old(client.st), cr) ==> PassEnds(old(client.st), client.st, cr, result)
      ensures old(client.Calm()) && result == Done && Admitted(old(client.st), cr) ==> Reached(old(client.st), client.st, cr)
      ensures old(client.Calm()) && Admitted(old(client.st), cr) && SettledFor(old(client.st), cr, ALL) && Catalogs.Distinct(cr.spec.catalogs) ==>
                client.Puts() == old(client.Puts())
    {
      hide Run, Inv, Effect, PassEnds, Reached, SettledFor, Catalogs.Distinct, Refused, Successful, Verified, Announces;
      var ok, guarded := EnsureFinalizer(cr);
      ghost var past := client.events;
      client.LastState();
      if !ok {
        client.EndPass();
        return Error;
      }
      RefusedOnce(old(client.st), cr);
      result := Pass(guarded);
      VerifiedWithin(old(client.events), past, client.events, cr.spec.domain);
    }

    method Reconcile(name: CrName) returns (result: Result)
      requires client.Valid() && client.st.active.None?
      modifies this, client
      ensures client.Valid() && client.Since(old(client.states), old(client.events)) && client.st.active.None? && old(client.tick) <= client.tick
      // nil means that there is no such CR, that its finalizer is gone, or that all is done for it
      ensures result == Done ==> Accounted(name, old(client.states), client.states, old(client.events), client.events, client.st)
      ensures result == Requeue ==> name == ClusterName
      ensures old(client.Faultless()) && name !in old(client.st).crs ==> result == Done && client.st == old(client.st)
      // a CR of another name gets the finalizer, and nothing else is done for it
      ensures old(client.Faultless()) && name != ClusterName && name in old(client.st).crs && !old(client.st).crs[name].deleting ==>
                result == Done && client.st == Refused(old(client.st), old(client.st).crs[name])
                && client.st.crs[name].ready == Some(Condition(false, ValidationFailed, client.st.crs[name].generation))
      // the first pass on a generation only says that it has been seen
      ensures old(client.Faultless()) && name == ClusterName && Unseen(old(client.st)) ==>
                result == Requeue && client.st == Seen(old(client.st))
                && StatusSays(client.st, Some(ReconcileInProgress))
      ensures old(client.Faultless()) && name == ClusterName && ClusterName in old(client.st).crs
              && Admitted(old(client.st), old(client.st).crs[ClusterName]) ==>
                PassEnds(Entered(old(client.st), old(client.st).crs[ClusterName]), client.st, old(client.st).crs[ClusterName], result)
                && StatusSays(client.st, PassVerdict(Entered(old(client.st), old(client.st).crs[ClusterName]), old(client.st).crs[ClusterName]))
      // a cluster that is to be registered is announced to the hub
      ensures old(client.Faultless()) && name == ClusterName && ClusterName in old(client.st).crs
              && Admitted(old(client.st), old(client.st).crs[ClusterName])
              && Announces(Entered(old(client.st), old(client.st).crs[ClusterName]), old(client.st).crs[ClusterName]) ==>
                |client.hub| == |old(client.hub)| + 1
      // a pass that succeeds without interference leaves nothing to do, whatever calls failed on its way
      ensures old(client.Calm()) && result == Done && name == ClusterName && ClusterName in old(client.st).crs
              && Admitted(old(client.st), old(client.st).crs[ClusterName]) ==>
                Reached(Entered(old(client.st), old(client.st).crs[ClusterName]), client.st, old(client.st).crs[ClusterName])
      // and a pass that finds nothing to do creates and updates nothing, whatever calls fail
      ensures old(client.Calm()) && name == ClusterName && ClusterName in old(client.st).crs
              && Admitted(old(client.st), old(client.st).crs[ClusterName]) && NothingToWrite(old(client.st)) ==>
                client.Puts() == old(client.Puts())
      ensures old(client.Faultless()) && name in old(client.st).crs && old(client.st).crs[name].deleting && old(client.st).crs[name].Guarded() ==>
                FinalizationEnds(Entered(old(client.st), old(client.st).crs[name]), client.st, old(client.st).crs[name], result)
    {
      hide Run, Inv, Steady, Licence, Successful, FinalizationEnds, PassEnds, Reached, SettledFor, Catalogs.Distinct, ObjsAfter,
        CrsAfter, Refused, Passed, Given, Verified, Announces, PassVerdict, StatusSays, Answered, WasClean;
      var r := client.GetCr(name);
      ghost var past := client.events;
      client.LastState();
      if !r.Ok? { return if r.NotFound? then Done else Error; }
      var cr := r.value;
      if cr.deleting {
        result := Finalize(cr);
        return;
      }
      RefusedOnce(old(client.st), cr);
      result := Keep(cr);
      VerifiedWithin(old(client.events), past, client.events, cr.spec.domain);
      if old(client.Faultless()) { StatusWords(old(client.st), client.st, cr, result); }
    }
  }

  /** What the status of the CR "cluster" says after a pass, in the words of the API. */
  predicate StatusSays(s: State, failure: Option<Reason>) {
    && ClusterName in s.crs
    && var cr := s.crs[ClusterName];
    && cr.ready == Some(Condition(true, ValidationSucceeded, cr.generation))
    && cr.reconciled == Some(PassCondition(failure, cr.generation))
  }

  lemma StatusWords(s: State, t: State, cr: Relocation, result: Result)
    ensures cr.name == ClusterName && PassEnds(Entered(s, cr), t, cr, result) ==> StatusSays(t, PassVerdict(Entered(s, cr), cr))
    ensures cr.name == ClusterName && t == Passed(Given(s, cr), WithFinalizer(cr), Some(ReconcileInProgress)) ==>
      StatusSays(t, Some(ReconcileInProgress))
    ensures cr.name != ClusterName && t == Refused(s, cr) ==>
      cr.name in t.crs && t.crs[cr.name].ready == Some(Condition(false, ValidationFailed, t.crs[cr.name].generation))
  {
    hide PassVerdict, Quiet, ComesTo, Footprint;
  }

  /** The CR had the finalizer in some state of the run from this point on. */
  ghost predicate WasGuarded(before: seq<State>, after: seq<State>, name: CrName) {
    exists i :: |before| <= i + 1 && 0 <= i < |after| && name in after[i].crs && after[i].crs[name].Guarded()
  }

  /** In some state of the run from this point on there was no such CR; or its deletion was requested, and it has been let go;
      or it is not to be called that, and had the finalizer; or a pass on it had reached all that its spec asks for, and has
      found that the domain answers. */
  ghost predicate Accounted(name: CrName, before: seq<State>, after: seq<State>, es: seq<Event>, fs: seq<Event>, end: State) {
    || (name != ClusterName && WasGuarded(before, after, name))
    || exists i :: |before| <= i + 1 && 0 <= i < |after| &&
         (|| name !in after[i].crs
          || (after[i].crs[name].deleting && Released(end, name))
          || (name == ClusterName && Successful(after[i]) && Verified(es, fs, after[i].active.value.spec.domain)))
  }

  /** A CR "cluster" whose generation no pass has seen. */
  predicate Unseen(s: State) {
    ClusterName in s.crs && s.crs[ClusterName].name == ClusterName && !s.crs[ClusterName].deleting && !s.crs[ClusterName].Gated()
  }

  /** A successful pass without interference, from s to t, has settled everything for this CR, which is stored as it was
      but for its status, and has touched nothing else. */
  ghost predicate Reached(s: State, t: State, cr: Relocation) {
    && Quiet(s, Behind(s, t, cr), Footprint(cr))
    && AllSettled(Behind(s, t, cr), cr)
    && ClusterName in t.crs && SameTask(cr, t.crs[ClusterName])
  }

  /** Everything is settled for the CR "cluster", and its catalog sources have distinct names. */
  ghost predicate NothingToWrite(s: State) {
    && ClusterName in s.crs
    && SettledFor(Entered(s, s.crs[ClusterName]), s.crs[ClusterName], ALL)
    && Catalogs.Distinct(s.crs[ClusterName].spec.catalogs)
  }

  /** The store after a pass that changed nothing but the CR. */
  function Passed(s: State, cr: Relocation, failure: Option<Reason>): State {
    Left(s).(crs := s.crs[cr.name := Concluded(cr, Some(ReconciledCondition(cr, failure)))])
  }

  function Seen(s: State): State
    requires Unseen(s)
  {
    Passed(Given(s, s.crs[ClusterName]), WithFinalizer(s.crs[ClusterName]), Some(ReconcileInProgress))
  }

  /** The state behind the stored status: as the sub-reconcilers left it. */
  function Behind(s: State, t: State, cr: Relocation): State { t.(active := Some(cr), crs := s.crs) }

  /** How a pass that begins in s ends when no call fails. */
  ghost predicate PassEnds(s: State, t: State, cr: Relocation, result: Result) {
    var reconciled := Some(ReconciledCondition(cr, PassVerdict(s, cr)));
    && t == Left(t)
    && t.crs == s.crs[cr.name := Concluded(cr, reconciled)]
    && Quiet(s, Behind(s, t, cr), Footprint(cr))
    && ComesTo(s, Behind(s, t, cr), cr, result, reconciled)
  }

  /** Outside of `f` everything is as it was, but for the ownership of secrets that the CR says to copy. */
  ghost predicate OthersKept(s: State, t: State, f: iset<Key>, cr: Relocation) {
    forall k :: k !in f ==> KeptFor(s, t, k, cr)
  }

  /** A finalization succeeds where no route aborts it; otherwise it gets rid of one such route. */
  ghost predicate FinalizationEnds(s: State, t: State, cr: Relocation, result: Result) {
    var domain := AppsHost(s.baseDomain);
    var done := cr.SelfDestructs() || Routes.MultiStale(s, domain) == {};
    && result == (if done then Done else Error)
    && t == Left(t) && t.baseDomain == s.baseDomain
    && t.crs == (if done then Stored(s.crs, WithoutFinalizer(cr)) else s.crs)
    && (done && !cr.SelfDestructs() ==> !Dirty(t))
    && (!done ==> OneRouteLess(s, t, domain))
    && (cr.SelfDestructs() ==> t.objs == s.objs)
    && OthersKept(s, t, Restorable(), cr)
  }

  lemma ActiveCr(s: State, cr: Relocation, reconciled: Option<Condition>)
    requires Concludes(s, cr, reconciled)
    ensures s.active == Some(cr)
  {
  }

  lemma AlreadyGuarded(s: State, cr: Relocation)
    requires cr.Guarded() && s.active == Some(cr) && cr.name in s.crs && s.crs[cr.name] == cr
    ensures WithFinalizer(cr) == cr
    ensures s.(active := Some(cr), crs := s.crs[cr.name := cr]) == s
  {
    assert cr.finalizers + {RelocationFinalizer} == cr.finalizers;
    assert s.crs[cr.name := cr] == s.crs;
  }

  lemma FinalizationFrame(s: State, t: State, cr: Relocation)
    requires s.active == Some(cr) && Quiet(s, t, if cr.SelfDestructs() then NOTHING else Restorable())
    ensures t.active == s.active && t.crs == s.crs && t.baseDomain == s.baseDomain
    ensures OthersKept(s, t, Restorable(), cr)
  {
  }

  /** Finalizing ends with the finalizer removed, or with the CR as it was. */
  lemma Finalized(s: State, t: State, cr: Relocation, ok: bool)
    requires s.active == Some(cr) && t.active == Some(cr) && t.crs == s.crs && t.baseDomain == s.baseDomain
    requires cr.name in s.crs && s.crs[cr.name] == cr
    requires ok == (cr.SelfDestructs() || Routes.MultiStale(s, AppsHost(s.baseDomain)) == {})
    requires ok ==> cr.SelfDestructs() || !Dirty(t)
    requires !ok ==> OneRouteLess(s, t, AppsHost(s.baseDomain))
    requires (cr.SelfDestructs() ==> t.objs == s.objs) && OthersKept(s, t, Restorable(), cr)
    ensures ok ==> FinalizationEnds(s, Effect(Effect(t, RemoveFinalizer), End), cr, Done) && Protocol.Unchanged(t)
    ensures !ok ==> FinalizationEnds(s, Effect(t, End), cr, Error)
    ensures Effect(t, End) == Left(t)
    ensures Effect(Effect(t, RemoveFinalizer), End) == Left(Effect(t, RemoveFinalizer))
  {
    hide Routes.Deletes, Restorable;
  }

  lemma PassConcluded(s: State, t: State, u: State, cr: Relocation, result: Result, reconciled: Option<Condition>)
    requires s.active == Some(cr) && cr.name in s.crs && s.crs[cr.name] == cr
    requires Quiet(s, t, Footprint(cr)) && ComesTo(s, t, cr, result, reconciled)
    requires u == Left(t).(crs := t.crs[cr.name := Concluded(cr, reconciled)])
    ensures PassEnds(s, u, cr, result)
  {
    hide ComesTo, Footprint;
    assert t.active == Some(cr) && t.crs == s.crs;
    assert Behind(s, u, cr) == t.(held := {}, seenAvailable := false);
    ComesToSame(s, t, Behind(s, u, cr), cr, result, reconciled);
    assert reconciled == Some(ReconciledCondition(cr, PassVerdict(s, cr))) by { Verdicts(s, t, cr, result, reconciled); }
  }

  /** What the pass knows is nothing to what it has come to. */
  lemma ComesToSame(s: State, t: State, u: State, cr: Relocation, result: Result, reconciled: Option<Condition>)
    requires ComesTo(s, t, cr, result, reconciled) && SameButKnown(t, u) && t.active == Some(cr)
    ensures ComesTo(s, u, cr, result, reconciled)
  {
    hide PassVerdict, SettledFor, TailSettled, Verdict, Routes.Deletes;
    SettledForTask(t, u, cr, cr);
    SameRoutes(t, u, AppsHost(cr.spec.domain));
  }

  /** The status apart, the store is as the sub-reconcilers left it. */
  lemma StillQuiet(s: State, t: State, u: State, cr: Relocation)
    ensures Quiet(s, t, Footprint(cr)) && t.crs == s.crs && SameButKnown(t, Behind(t, u, cr)) ==>
      Quiet(s, Behind(s, u, cr), Footprint(cr)) && Behind(s, u, cr) == Behind(t, u, cr)
  {
    hide Footprint;
  }

  lemma StillSettled(s: State, t: State, cr: Relocation)
    requires AllSettled(s, cr) && SameButKnown(s, t) && s.active == Some(cr)
    ensures AllSettled(t, cr)
  {
    hide SettledFor, TailSettled;
    SettledForTask(s, t, cr, cr);
  }

  lemma SameRoutes(s: State, t: State, domain: string)
    requires s.objs == t.objs
    ensures Routes.MultiStale(s, domain) == Routes.MultiStale(t, domain)
  {
    hide Routes.Deletes;
  }

  /** Without interference the copy that the status is written from is the stored one. */
  lemma CopyIsCurrent(s: State, t: State, cr: Relocation)
    requires s.active == Some(cr) && cr.name in s.crs && s.crs[cr.name] == cr
    ensures Quiet(s, t, Footprint(cr)) ==> Protocol.Unchanged(t) && t.crs == s.crs
  {
    hide Footprint, KeptAt;
  }

  lemma Verdicts(s: State, t: State, cr: Relocation, result: Result, reconciled: Option<Condition>)
    requires ComesTo(s, t, cr, result, reconciled)
    ensures reconciled == Some(ReconciledCondition(cr, PassVerdict(s, cr)))
  {
    hide PassVerdict, AllSettled, SettledFor, OneRouteLess;
  }

  /** What a pass past the gate comes to when no call fails. */
  ghost predicate ComesTo(s: State, t: State, cr: Relocation, result: Result, reconciled: Option<Condition>) {
    var failure := PassVerdict(s, cr);
    && result == (if failure.None? then Done else Error)
    && reconciled == Some(ReconciledCondition(cr, failure))
    && (failure.None? ==> AllSettled(t, cr))
    && (failure.None? && AllSettled(s, cr) ==> SameButKnown(s, t))
    && (Verdict(s, cr) == None ==> SettledFor(t, cr, ALL))
    && (failure == Some(ReconcileInProgress) ==> OneRouteLess(s, t, AppsHost(cr.spec.domain)))
  }

  lemma Nothing(s: State, cr: Relocation)
    requires Inv(s) && s.active == Some(cr)
    ensures Steady(s, s, NOTHING) && Quiet(s, s, Footprint(cr))
    ensures Concludes(s, cr, cr.reconciled)
  {
    hide Inv, Steady, Quiet, Successful, Superseded;
    SteadyReflexive(s);
    QuietReflexive(s, Footprint(cr));
    Conclusion(s, cr, Some(ReconcileInProgress));
  }

  /** The condition of a pass past the gate: success, or the reason of a failure that says how far the pass has come. */
  ghost predicate Told(s: State, t: State, cr: Relocation, reconciled: Option<Condition>) {
    exists failure :: Explained(s, t, cr.spec, failure) && reconciled == Some(PassCondition(failure, cr.generation))
  }

  /** Success or a reason, for this generation. */
  function PassCondition(failure: Option<Reason>, generation: nat): Condition {
    match failure
    case None => Condition(true, ReconciliationSucceeded, generation)
    case Some(reason) => Condition(false, reason, generation)
  }

  lemma ToldEarlier(s: State, t: State, u: State, cr: Relocation, failure: Option<Reason>)
    requires Steady(s, t, NOTHING) && Explained(t, u, cr.spec, failure)
    ensures Told(s, u, cr, Some(ReconciledCondition(cr, failure)))
  {
    hide Steady, DoneFor, Configured, KeysOf, Earlier;
    assert Explained(s, u, cr.spec, failure) by {
      if failure.Some? && StepOf(failure.value).Some? {
        var p := StepOf(failure.value).value;
        SteadyJoin(s, t, u, NOTHING, KeysOf(Earlier(p) * ALL + {p}), KeysOf(Earlier(p) * ALL + {p}));
      }
    }
  }

  /** A pass that stops early may store what it found, or that it is in progress. */
  lemma Unfinished(s: State, cr: Relocation)
    requires Inv(s) && s.active == Some(cr)
    ensures Concludes(s, cr, cr.reconciled) && Concludes(s, cr, Some(ReconciledCondition(cr, Some(ReconcileInProgress))))
  {
    hide Inv, Successful, Superseded;
    Conclusion(s, cr, Some(ReconcileInProgress));
  }

  lemma StillNothing(s: State, t: State, version: SemVer.Version)
    requires Steady(s, t, NOTHING) && Mirror.WasRead(s, version)
    ensures Mirror.WasRead(t, version)
  {
    hide Steady, Mirror.WasRead;
    WasReadKept(s, t, NOTHING, version);
  }
}
