/** Passes in a row: how many it takes until nothing is left to do, and that nothing changes from then on. */
module Convergence {
  import opened Types
  import opened Store
  import opened Goals
  import opened Protocol
  import opened Fixpoints
  import opened ClusterApi
  import opened Parts
  import opened Controller
  import opened Reconciliation
  import Acm
  import Routes
  import Catalogs

  /* --------------------------------------------------------- idempotence */

  /** After a pass that succeeded, another one succeeds and changes nothing but the status, which it sets to what a
      successful pass says. */
  lemma SecondPass(s: State, t: State, u: State, cr: Relocation, result: Result)
    requires AllSettled(Behind(s, t, cr), cr)
    requires t == Left(t) && ClusterName in t.crs && SameTask(t.crs[ClusterName], cr) && Admitted(t, t.crs[ClusterName])
    requires PassEnds(Entered(t, t.crs[ClusterName]), u, t.crs[ClusterName], result)
    ensures result == Done
    ensures u == Passed(t, t.crs[ClusterName], None)
  {
    hide AllSettled, PassVerdict, Quiet, Footprint, SettledFor, TailSettled, Verdict, TailVerdict, OneRouteLess;
    var again := t.crs[ClusterName];
    StaysSettled(Behind(s, t, cr), Entered(t, again), cr, again);
    assert u == Left(Behind(t, u, again).(crs := u.crs));
  }

  lemma StaysSettled(s: State, t: State, a: Relocation, b: Relocation)
    requires SameCluster(s, t) && SameTask(a, b) && s.active == Some(a) && t.active == Some(b) && AllSettled(s, a)
    ensures AllSettled(t, b) && PassVerdict(t, b) == None
  {
    hide SettledFor, TailSettled, Verdict, TailVerdict;
    SettledForTask(s, t, a, b);
    SettledVerdict(t, b);
  }

  /** Two successful passes in a row, of which the first stored its status, leave the store exactly as one does. */
  lemma PassIsIdempotent(s: State, t: State, u: State, cr: Relocation, result: Result)
    requires Admitted(s, cr) && PassEnds(Entered(s, cr), t, cr, Done)
    requires ClusterName in t.crs && PassEnds(Entered(t, t.crs[ClusterName]), u, t.crs[ClusterName], result)
    ensures result == Done && u == t
  {
    hide AllSettled, PassEnds;
    Conclusions(s, t, cr);
    SecondPass(Entered(s, cr), t, u, cr, result);
    assert t.crs[ClusterName := t.crs[ClusterName]] == t.crs;
  }

  lemma Conclusions(s: State, t: State, cr: Relocation)
    requires Admitted(s, cr) && PassEnds(Entered(s, cr), t, cr, Done)
    ensures ClusterName in t.crs && t.crs[ClusterName] == Concluded(cr, Some(ReconciledCondition(cr, None)))
    ensures t == Left(t) && Admitted(t, t.crs[ClusterName]) && SameTask(t.crs[ClusterName], cr)
    ensures AllSettled(Behind(Entered(s, cr), t, cr), cr)
  {
    hide AllSettled, PassVerdict, Quiet, Footprint, SettledFor, TailSettled, Verdict, TailVerdict, OneRouteLess;
  }

  /** The second of two passes in a row succeeds if the first did, and leaves the store as it is; if the names of the
      catalog sources are distinct, each of its create-or-updates finds nothing to do. */
  method PassTwice(r: Reconciler) returns (first: Result, second: Result, ghost between: State, ghost past: seq<Event>)
    requires r.client.Valid() && r.client.st.active.None? && r.client.Faultless()
    requires ClusterName in r.client.st.crs && Admitted(r.client.st, r.client.st.crs[ClusterName])
    modifies r, r.client
    ensures r.client.Valid()
    ensures var cr := old(r.client.st).crs[ClusterName]; PassEnds(Entered(old(r.client.st), cr), between, cr, first)
    ensures first == Done ==> second == Done && r.client.st == between
    ensures old(r.client.events) <= past <= r.client.events && |past| < |r.client.states| && r.client.states[|past|] == between
    ensures first == Done && Catalogs.Distinct(old(r.client.st).crs[ClusterName].spec.catalogs) ==>
              forall i :: |past| <= i < |r.client.events| ==> !IsPut(r.client.events[i])
  {
    hide PassEnds, AllSettled, Catalogs.Distinct, Run, Inv, SettledFor, Passed;
    ghost var s, cr := r.client.st, r.client.st.crs[ClusterName];
    first := r.Reconcile(ClusterName);
    between, past := r.client.st, r.client.events;
    r.client.LastState();
    if first == Done {
      Conclusions(s, between, cr);
      SettledAgain(s, between, cr);
    }
    second := r.Reconcile(ClusterName);
    r.client.LastState();
    NoneBetween(past, r.client.events, IsPut);
    if first == Done { PassIsIdempotent(s, between, r.client.st, cr, second); }
  }

  lemma SettledAgain(s: State, t: State, cr: Relocation)
    requires Admitted(s, cr) && PassEnds(Entered(s, cr), t, cr, Done)
    ensures ClusterName in t.crs && (Catalogs.Distinct(cr.spec.catalogs) ==> NothingToWrite(t))
  {
    hide PassEnds, TailSettled, SettledFor, PassVerdict, Catalogs.Distinct;
    Conclusions(s, t, cr);
    StaysSettled(Behind(Entered(s, cr), t, cr), Entered(t, t.crs[ClusterName]), cr, t.crs[ClusterName]);
  }

  /* --------------------------------------------------------- convergence */

  function Domain(s: State): string
    requires ClusterName in s.crs
  {
    AppsHost(s.crs[ClusterName].spec.domain)
  }

  /** The CR "cluster" is a valid one that does not self-destruct, and nothing that it needs is missing. */
  ghost predicate Feasible(s: State) {
    && ClusterName in s.crs && s.crs[ClusterName].name == ClusterName
    && !s.crs[ClusterName].deleting && !s.crs[ClusterName].SelfDestructs()
    && Verdict(Entered(s, s.crs[ClusterName]), s.crs[ClusterName]) == None
    && Acm.AcmFeasible(s, s.crs[ClusterName])
  }

  /** The state after a pass that aborted on a route is one route nearer, and as feasible as before. */
  lemma Nearer(s: State, t: State, result: Result)
    requires Feasible(s) && Admitted(s, s.crs[ClusterName]) && PassEnds(Entered(s, s.crs[ClusterName]), t, s.crs[ClusterName], result)
    requires Routes.MultiStale(s, Domain(s)) != {}
    ensures result == Error
    ensures ClusterName in t.crs && Feasible(t) && Admitted(t, t.crs[ClusterName]) && SameTask(s.crs[ClusterName], t.crs[ClusterName])
    ensures |Routes.MultiStale(t, Domain(t))| == |Routes.MultiStale(s, Domain(s))| - 1
  {
    hide Quiet, Footprint, SettledFor, AllSettled, Verdict, Routes.Deletes, PartFeasible;
    var cr := s.crs[ClusterName];
    assert PassVerdict(Entered(s, cr), cr) == Some(ReconcileInProgress);
    var behind := Behind(Entered(s, cr), t, cr);
    Acm.QuietKeepsKlusterlet(Entered(s, cr), behind, Footprint(cr));
    var again := t.crs[ClusterName];
    SettledForTask(behind, Entered(t, again), cr, again);
    SettledVerdict(Entered(t, again), again);
    var k :| k in Routes.MultiStale(Entered(s, cr), Domain(s))
      && Routes.MultiStale(behind, Domain(s)) == Routes.MultiStale(Entered(s, cr), Domain(s)) - {k};
    assert Routes.MultiStale(behind, Domain(s)) == Routes.MultiStale(t, Domain(t));
    assert Routes.MultiStale(Entered(s, cr), Domain(s)) == Routes.MultiStale(s, Domain(s));
  }

  /** Without such routes the pass succeeds. */
  lemma Arrives(s: State, t: State, result: Result)
    requires Feasible(s) && Admitted(s, s.crs[ClusterName]) && PassEnds(Entered(s, s.crs[ClusterName]), t, s.crs[ClusterName], result)
    requires Routes.MultiStale(s, Domain(s)) == {}
    ensures result == Done
    ensures var cr := s.crs[ClusterName];
      t.crs == s.crs[ClusterName := Concluded(cr, Some(ReconciledCondition(cr, None)))] && AllSettled(Behind(Entered(s, cr), t, cr), cr)
  {
    hide Quiet, Footprint, SettledFor, AllSettled, Verdict, Routes.Deletes, OneRouteLess;
    var cr := s.crs[ClusterName];
    assert Routes.MultiStale(Entered(s, cr), Domain(s)) == Routes.MultiStale(s, Domain(s));
    assert PassVerdict(Entered(s, cr), cr) == None;
  }

  /** The first pass on a new generation opens the gate and leaves everything else as it is. */
  lemma Opened(s: State)
    requires Unseen(s) && Feasible(s)
    ensures Feasible(Seen(s)) && Admitted(Seen(s), Seen(s).crs[ClusterName]) && SameTask(s.crs[ClusterName], Seen(s).crs[ClusterName])
    ensures Routes.MultiStale(Seen(s), Domain(Seen(s))) == Routes.MultiStale(s, Domain(s))
    ensures Seen(s).objs == s.objs && Seen(s).crs == s.crs[ClusterName := Seen(s).crs[ClusterName]]
  {
    hide Routes.Deletes;
    var a, b := s.crs[ClusterName], Seen(s).crs[ClusterName];
    FeasibleForTask(Entered(s, a), Entered(Seen(s), b), a, b);
  }

  lemma FeasibleForTask(s: State, t: State, a: Relocation, b: Relocation)
    requires SameCluster(s, t) && SameTask(a, b)
    ensures Verdict(t, b) == Verdict(s, a)
  {
    assert forall n :: Catalogs.Controlled(s, n) == Catalogs.Controlled(t, n);
    assert PartFeasible(s, a, PullPart) == PartFeasible(t, b, PullPart);
    assert PartFeasible(s, a, CatalogPart) == PartFeasible(t, b, CatalogPart);
    assert PartFeasible(s, a, IngressPart) == PartFeasible(t, b, IngressPart);
    assert PartFeasible(s, a, ApiPart) == PartFeasible(t, b, ApiPart);
  }

  /** The workqueue repeats a pass until it is done. With no failing calls a CR on a new generation needs exactly k + 2
      passes, k being the number of routes with two or more stale entries of the default router. */
  method Converge(r: Reconciler) returns (passes: nat)
    requires r.client.Valid() && r.client.st.active.None? && r.client.Faultless()
    requires Unseen(r.client.st) && Feasible(r.client.st)
    modifies r, r.client
    ensures r.client.Valid() && r.client.Since(old(r.client.states), old(r.client.events)) && r.client.st.active.None?
    ensures passes == |Routes.MultiStale(old(r.client.st), Domain(old(r.client.st)))| + 2
    ensures r.client.Faultless() && ClusterName in r.client.st.crs
    ensures var cr := r.client.st.crs[ClusterName];
      && SameTask(old(r.client.st).crs[ClusterName], cr)
      && cr.reconciled == Some(Condition(true, ReconciliationSucceeded, cr.generation))
      && AllSettled(Entered(r.client.st, cr), cr) && Admitted(r.client.st, cr)
      // and nothing else has changed
      && r.client.st.crs == old(r.client.st).crs[ClusterName := cr]
      && OthersKept(old(r.client.st), r.client.st, Footprint(cr), cr)
  {
    hide PassEnds, Feasible, Admitted, AllSettled, Routes.MultiStale, Run, Inv, OthersKept, Footprint;
    Opened(r.client.st);
    ghost var start := r.client.st;
    ghost var task := r.client.st.crs[ClusterName];
    AllKept(start, Seen(start), Footprint(task), task);
    ghost var k := |Routes.MultiStale(r.client.st, Domain(r.client.st))|;
    var result := r.Reconcile(ClusterName);
    passes := 1;
    while result != Done
      invariant r.client.Since(old(r.client.states), old(r.client.events))
      invariant r.client.Valid() && r.client.st.active.None? && r.client.Faultless() && ClusterName in r.client.st.crs
      invariant SameTask(task, r.client.st.crs[ClusterName])
      invariant r.client.st.crs == start.crs[ClusterName := r.client.st.crs[ClusterName]]
      invariant OthersKept(start, r.client.st, Footprint(task), task)
      invariant result != Done ==>
        && Feasible(r.client.st) && Admitted(r.client.st, r.client.st.crs[ClusterName])
        && passes + |Routes.MultiStale(r.client.st, Domain(r.client.st))| == k + 1
      invariant result == Done ==> passes == k + 2 && Arrived(r.client.st)
      decreases if result == Done then 0 else 1 + |Routes.MultiStale(r.client.st, Domain(r.client.st))|
    {
      ghost var s := r.client.st;
      result := r.Reconcile(ClusterName);
      passes := passes + 1;
      PassFrame(start, s, r.client.st, task, result);
      if Routes.MultiStale(s, Domain(s)) == {} {
        Arrives(s, r.client.st, result);
        ArrivesSettled(s, r.client.st);
      } else {
        Nearer(s, r.client.st, result);
      }
    }
    SameFrame(start, r.client.st, task, r.client.st.crs[ClusterName]);
  }

  /** Another pass changes no other CR, and nothing outside of its footprint. */
  lemma PassFrame(start: State, s: State, t: State, task: Relocation, result: Result)
    requires ClusterName in s.crs && Admitted(s, s.crs[ClusterName]) && SameTask(task, s.crs[ClusterName])
    requires PassEnds(Entered(s, s.crs[ClusterName]), t, s.crs[ClusterName], result)
    requires s.crs == start.crs[ClusterName := s.crs[ClusterName]] && OthersKept(start, s, Footprint(task), task)
    ensures ClusterName in t.crs && t.crs == start.crs[ClusterName := t.crs[ClusterName]]
    ensures OthersKept(start, t, Footprint(task), task)
  {
    hide ComesTo, PassVerdict, Footprint;
    var cr := s.crs[ClusterName];
    SameFrame(start, s, task, cr);
    forall k | k !in Footprint(task) ensures KeptFor(start, t, k, task) {
      assert KeptAt(Entered(s, cr), Behind(Entered(s, cr), t, cr), k);
      assert KeptFor(s, t, k, task);
      KeptJoin(start, s, t, k, task);
    }
  }

  lemma AllKept(s: State, t: State, f: iset<Key>, cr: Relocation)
    requires t.objs == s.objs
    ensures OthersKept(s, t, f, cr)
  {
  }

  /** The frame of a pass is a matter of UID and spec. */
  lemma SameFrame(s: State, t: State, a: Relocation, b: Relocation)
    requires SameTask(a, b)
    ensures Footprint(a) == Footprint(b)
    ensures OthersKept(s, t, Footprint(a), a) == OthersKept(s, t, Footprint(b), b)
  {
  }

  ghost predicate Arrived(s: State) {
    && ClusterName in s.crs
    && s.crs[ClusterName].reconciled == Some(Condition(true, ReconciliationSucceeded, s.crs[ClusterName].generation))
    && AllSettled(Entered(s, s.crs[ClusterName]), s.crs[ClusterName])
    && Admitted(s, s.crs[ClusterName])
  }

  lemma ArrivesSettled(s: State, t: State)
    requires Feasible(s) && Admitted(s, s.crs[ClusterName])
    requires var cr := s.crs[ClusterName];
      t.crs == s.crs[ClusterName := Concluded(cr, Some(ReconciledCondition(cr, None)))] && AllSettled(Behind(Entered(s, cr), t, cr), cr)
    ensures Arrived(t) && SameTask(s.crs[ClusterName], t.crs[ClusterName])
  {
    hide AllSettled, Verdict;
    var cr, again := s.crs[ClusterName], t.crs[ClusterName];
    StaysSettled(Behind(Entered(s, cr), t, cr), Entered(t, again), cr, again);
  }

  /* ----------------------------------------------------------- retirement */

  /** Deleting a CR: with no failing calls, the finalizer is gone after exactly k + 1 passes, k being the number of routes
      that abort a finalization; by then everything is restored. */
  method Retire(r: Reconciler, name: CrName) returns (passes: nat)
    requires r.client.Valid() && r.client.st.active.None? && r.client.Faultless()
    requires name in r.client.st.crs && r.client.st.crs[name].name == name
    requires r.client.st.crs[name].deleting && r.client.st.crs[name].Guarded() && !r.client.st.crs[name].SelfDestructs()
    modifies r, r.client
    ensures r.client.Valid() && r.client.Since(old(r.client.states), old(r.client.events)) && r.client.st.active.None?
    ensures passes == |Routes.MultiStale(old(r.client.st), AppsHost(old(r.client.st).baseDomain))| + 1
    ensures r.client.st.crs == Stored(old(r.client.st).crs, WithoutFinalizer(old(r.client.st).crs[name]))
    ensures r.client.Faultless()
    ensures !Dirty(r.client.st) && LIVE in r.client.st.objs && r.client.st.objs[LIVE].body == r.client.st.original
    ensures OthersKept(old(r.client.st), r.client.st, Restorable(), old(r.client.st).crs[name])
  {
    hide Run, Inv, Routes.MultiStale, Dirty, FinalizationEnds, Stored, OthersKept, Restorable;
    ghost var domain := AppsHost(r.client.st.baseDomain);
    ghost var cr := r.client.st.crs[name];
    var result := r.Reconcile(name);
    passes := 1;
    AllKept(old(r.client.st), old(r.client.st), Restorable(), cr);
    FinalizationStep(old(r.client.st), old(r.client.st), r.client.st, cr, result);
    while result != Done
      invariant r.client.Since(old(r.client.states), old(r.client.events))
      invariant r.client.Valid() && r.client.st.active.None? && r.client.Faultless()
      invariant AppsHost(r.client.st.baseDomain) == domain
      invariant OthersKept(old(r.client.st), r.client.st, Restorable(), cr)
      invariant result != Done ==>
        && r.client.st.crs == old(r.client.st).crs
        && passes + |Routes.MultiStale(r.client.st, domain)| == |Routes.MultiStale(old(r.client.st), domain)|
      invariant result == Done ==>
        && passes == |Routes.MultiStale(old(r.client.st), domain)| + 1
        && r.client.st.crs == Stored(old(r.client.st).crs, WithoutFinalizer(cr)) && !Dirty(r.client.st)
      decreases if result == Done then 0 else 1 + |Routes.MultiStale(r.client.st, domain)|
    {
      ghost var s := r.client.st;
      result := r.Reconcile(name);
      passes := passes + 1;
      FinalizationStep(old(r.client.st), s, r.client.st, cr, result);
    }
    RestoredOriginal(r.client.st);
  }

  lemma FinalizationStep(start: State, s: State, t: State, cr: Relocation, result: Result)
    requires !cr.SelfDestructs() && OthersKept(start, s, Restorable(), cr)
    ensures FinalizationEnds(Entered(s, cr), t, cr, result) ==>
      var domain := AppsHost(s.baseDomain);
      && t.baseDomain == s.baseDomain
      && OthersKept(start, t, Restorable(), cr)
      && result == (if Routes.MultiStale(s, domain) == {} then Done else Error)
      && (result == Done ==> t.crs == Stored(s.crs, WithoutFinalizer(cr)) && !Dirty(t))
      && (result == Error ==> t.crs == s.crs && |Routes.MultiStale(t, domain)| == |Routes.MultiStale(s, domain)| - 1)
  {
    hide Dirty, Stored, Routes.Deletes, Restorable;
    if FinalizationEnds(Entered(s, cr), t, cr, result) {
      forall k | k !in Restorable() ensures KeptFor(start, t, k, cr) {
        assert KeptFor(Entered(s, cr), t, k, cr);
        KeptJoin(start, s, t, k, cr);
      }
    }
    assert Routes.MultiStale(Entered(s, cr), AppsHost(s.baseDomain)) == Routes.MultiStale(s, AppsHost(s.baseDomain));
  }

  lemma RestoredOriginal(s: State)
    requires Inv(s) && !Dirty(s)
    ensures LIVE in s.objs && s.objs[LIVE].body == s.original
  {
  }
}
