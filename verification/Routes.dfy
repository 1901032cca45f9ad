/** internal/ingress, ResetRoutes: stale routes of the default router are deleted, so that their owners recreate them
    under the new domain. */
module Routes {
  import opened Types
  import opened Store
  import opened Protocol
  import opened Preservation
  import opened Fixpoints
  import opened ClusterApi
  import Client

  predicate OccursAt(text: string, part: string, i: nat) {
    i + |part| <= |text| && text[i..i + |part|] == part
  }

  /** strings.Contains */
  predicate Contains(text: string, part: string) {
    exists i :: 0 <= i <= |text| && OccursAt(text, part, i)
  }

  predicate IsRoute(k: Key) { k.Route? }

  predicate Excluded(ns: string) {
    ns == "openshift-console" || ns == "openshift-authentication" || ns == "open-cluster-management-agent-addon"
  }

  predicate StaleEntry(e: RouteIngress, domain: string) {
    e.router == "default" && !Contains(e.host, domain)
  }

  /** The entries for which ResetRoutes issues a delete. */
  function StaleEntries(es: seq<RouteIngress>, domain: string): nat {
    if es == [] then 0 else StaleEntries(es[..|es| - 1], domain) + (if StaleEntry(es[|es| - 1], domain) then 1 else 0)
  }

  function Deletes(k: Key, o: Obj, domain: string): nat {
    if k.Route? && o.body.RouteBody? && !Excluded(k.routeNamespace) then StaleEntries(o.body.ingress, domain) else 0
  }

  /** The routes that have to go, and those among them whose second delete is going to fail. */
  function StaleRoutes(s: State, domain: string): set<Key> {
    set k | k in s.objs && Deletes(k, s.objs[k], domain) >= 1
  }

  function MultiStale(s: State, domain: string): set<Key> {
    set k | k in s.objs && Deletes(k, s.objs[k], domain) >= 2
  }

  /* ------------------------------------------------ which routes are stale */

  /** The domain occurs in the host. */
  ghost predicate Under(host: string, domain: string) {
    exists sub, rest :: host == sub + domain + rest
  }

  /** The default router serves this entry under a host without the domain. */
  ghost predicate OldEntry(e: RouteIngress, domain: string) {
    e.router == "default" && !Under(e.host, domain)
  }

  /** A route that has to move to the domain: the default router serves it under a host without the domain, and it is not in
      a namespace that is left out. */
  ghost predicate Outdated(k: Key, o: Obj, domain: string) {
    && k.Route? && o.body.RouteBody?
    && k.routeNamespace !in {"openshift-console", "openshift-authentication", "open-cluster-management-agent-addon"}
    && exists i :: 0 <= i < |o.body.ingress| && OldEntry(o.body.ingress[i], domain)
  }

  ghost function OutdatedRoutes(s: State, domain: string): set<Key> {
    set k | k in s.objs && Outdated(k, s.objs[k], domain)
  }

  lemma ContainsIsUnder(text: string, part: string)
    ensures Contains(text, part) <==> Under(text, part)
  {
    if Contains(text, part) {
      var i :| 0 <= i <= |text| && OccursAt(text, part, i);
      assert text == text[..i] + part + text[i + |part|..];
    }
    if Under(text, part) {
      var sub, rest :| text == sub + part + rest;
      assert text[|sub|..|sub| + |part|] == part;
      assert OccursAt(text, part, |sub|);
    }
  }

  lemma {:induction false} OldEntriesCount(es: seq<RouteIngress>, domain: string)
    ensures StaleEntries(es, domain) >= 1 <==> exists i :: 0 <= i < |es| && OldEntry(es[i], domain)
    ensures StaleEntries(es, domain) >= 2 <==> exists i, j :: 0 <= i < j < |es| && OldEntry(es[i], domain) && OldEntry(es[j], domain)
  {
    if es != [] {
      var n := |es| - 1;
      OldEntriesCount(es[..n], domain);
      ContainsIsUnder(es[n].host, domain);
      assert forall i :: 0 <= i < n ==> es[..n][i] == es[i];
      if StaleEntries(es, domain) >= 2 && StaleEntries(es[..n], domain) == 1 {
        var i :| 0 <= i < n && OldEntry(es[..n][i], domain);
        assert OldEntry(es[i], domain) && OldEntry(es[n], domain);
      }
      if StaleEntries(es[..n], domain) >= 2 {
        var i, j :| 0 <= i < j < n && OldEntry(es[..n][i], domain) && OldEntry(es[..n][j], domain);
        assert OldEntry(es[i], domain) && OldEntry(es[j], domain);
      }
    }
  }

  /** The deletes are for the routes that have to move, and one is repeated where two entries are old. */
  lemma StaleIsOutdated(k: Key, o: Obj, domain: string)
    ensures Deletes(k, o, domain) >= 1 <==> Outdated(k, o, domain)
    ensures Deletes(k, o, domain) >= 2 <==>
              Outdated(k, o, domain)
              && exists i, j :: 0 <= i < j < |o.body.ingress| && OldEntry(o.body.ingress[i], domain) && OldEntry(o.body.ingress[j], domain)
  {
    hide OldEntry;
    if o.body.RouteBody? { OldEntriesCount(o.body.ingress, domain); }
  }

  lemma StaleRoutesAreOutdated(s: State, domain: string)
    ensures StaleRoutes(s, domain) == OutdatedRoutes(s, domain)
  {
    hide Deletes, Outdated;
    forall k | k in s.objs ensures Deletes(k, s.objs[k], domain) >= 1 <==> Outdated(k, s.objs[k], domain) {
      StaleIsOutdated(k, s.objs[k], domain);
    }
  }

  /** A route whose hosts at the default router all end in the domain has moved already. */
  lemma MovedRouteIsCurrent(k: Key, o: Obj, domain: string)
    requires o.body.RouteBody?
    requires forall i :: 0 <= i < |o.body.ingress| && o.body.ingress[i].router == "default" ==>
               |domain| <= |o.body.ingress[i].host| && o.body.ingress[i].host[|o.body.ingress[i].host| - |domain|..] == domain
    ensures !Outdated(k, o, domain)
  {
    forall i | 0 <= i < |o.body.ingress| ensures !OldEntry(o.body.ingress[i], domain) {
      var host := o.body.ingress[i].host;
      if o.body.ingress[i].router == "default" {
        assert host == host[..|host| - |domain|] + domain + [];
      }
    }
  }

  /** A host at the default router that is shorter than the domain, or lacks its first character, makes a route outdated. */
  lemma OldHostIsOutdated(k: Key, o: Obj, domain: string, i: nat)
    requires k.Route? && o.body.RouteBody? && i < |o.body.ingress| && o.body.ingress[i].router == "default" && domain != ""
    requires |o.body.ingress[i].host| < |domain| || domain[0] !in o.body.ingress[i].host
    requires k.routeNamespace !in {"openshift-console", "openshift-authentication", "open-cluster-management-agent-addon"}
    ensures Outdated(k, o, domain)
  {
    assert OldEntry(o.body.ingress[i], domain) by { UnderTakesRoom(o.body.ingress[i].host, domain); }
  }

  lemma UnderTakesRoom(host: string, domain: string)
    requires domain != ""
    ensures Under(host, domain) ==> |domain| <= |host| && domain[0] in host
  {
    if Under(host, domain) {
      var sub, rest :| host == sub + domain + rest;
      assert host[|sub|] == domain[0];
    }
  }

  /* ------------------------------------------------------------- deleting */

  /** One delete. */
  method DeleteRoute(c: Cluster, k: Key) returns (ok: bool)
    requires c.Valid() && (Applying(c.st) || Finalising(c.st)) && k.Route?
    modifies c
    ensures c.Went(NOTHING) && c.Puts() == old(c.Puts())
    ensures OnlyDeletes(old(c.events), c.events, {k}) && (ok ==> k !in c.st.objs)
    ensures old(c.Calm()) ==> c.st == old(c.st) || c.st == Without(old(c.st), {k})
    ensures old(c.Calm()) && ok ==> c.st == Without(old(c.st), {k})
    ensures old(c.Faultless()) ==> ok == (k in old(c.st).objs) && c.st == Without(old(c.st), {k})
  {
    hide Run, Inv, Steady, Licence, Applying, Finalising, Effect, Without;
    RouteLicence(c.st, k);
    Client.DeleteIsWithout(c.st, k);
    Client.AbsentIsWithout(c.st, k);
    var r := c.Send(Del(k));
    Client.ForeignFootprint(old(c.st), c.st, k);
    ok := r.Ok?;
  }

  /** The deletes for one route: the first takes it away, a second finds nothing and aborts the pass. */
  method ResetRoute(c: Cluster, k: Key, es: seq<RouteIngress>, domain: string) returns (ok: bool)
    requires c.Valid() && (Applying(c.st) || Finalising(c.st)) && k.Route?
    modifies c
    ensures c.Went(NOTHING) && c.Puts() == old(c.Puts())
    ensures OnlyDeletes(old(c.events), c.events, if StaleEntries(es, domain) >= 1 then {k} else {})
    ensures ok && StaleEntries(es, domain) >= 1 ==> WasGone(c.states, |old(c.states)|, k)
    ensures old(c.Calm()) ==> c.st == old(c.st) || (StaleEntries(es, domain) >= 1 && c.st == Without(old(c.st), {k}))
    ensures old(c.Calm()) && ok && StaleEntries(es, domain) >= 1 ==> c.st == Without(old(c.st), {k})
    ensures old(c.Faultless()) && k in old(c.st).objs ==> ok == (StaleEntries(es, domain) <= 1)
    ensures old(c.Faultless()) && StaleEntries(es, domain) >= 1 ==> c.st == Without(old(c.st), {k})
  {
    hide Run, Inv, Steady, Licence, Applying, Finalising;
    SteadyReflexive(c.st);
    assert es[..0] == [];
    for i := 0 to |es|
      invariant c.Went(NOTHING) && (Applying(c.st) || Finalising(c.st)) && c.Puts() == old(c.Puts())
      invariant OnlyDeletes(old(c.events), c.events, if StaleEntries(es[..i], domain) >= 1 then {k} else {})
      invariant StaleEntries(es[..i], domain) >= 1 ==> WasGone(c.states, |old(c.states)|, k)
      invariant old(c.Calm()) ==> c.st == if StaleEntries(es[..i], domain) == 0 then old(c.st) else Without(old(c.st), {k})
      invariant old(c.Faultless()) && k in old(c.st).objs ==> StaleEntries(es[..i], domain) <= 1
    {
      assert es[..i + 1][..i] == es[..i];
      if StaleEntry(es[i], domain) {
        ghost var before, past, seen := c.st, c.events, c.states;
        ok := DeleteRoute(c, k);
        SteadyJoin(old(c.st), before, c.st, NOTHING, NOTHING, NOTHING);
        DeletesJoin(old(c.events), past, c.events, {k}, {k}, {k}) by { MoreDeletes(old(c.events), past, {}, {k}); }
        c.LastState();
        MoreEntries(es, domain, i + 1);
        if !ok { return; }
      }
    }
    assert es[..|es|] == es;
    ok := true;
  }

  /** One listed route: three namespaces are left out. */
  method Handle(c: Cluster, k: Key, o: Obj, domain: string) returns (ok: bool)
    requires c.Valid() && (Applying(c.st) || Finalising(c.st)) && k.Route? && o.body.RouteBody?
    modifies c
    ensures c.Went(NOTHING) && c.Puts() == old(c.Puts())
    ensures OnlyDeletes(old(c.events), c.events, if Deletes(k, o, domain) >= 1 then {k} else {})
    ensures ok && Deletes(k, o, domain) >= 1 ==> WasGone(c.states, |old(c.states)|, k)
    ensures old(c.Calm()) ==> c.st == old(c.st) || (Deletes(k, o, domain) >= 1 && c.st == Without(old(c.st), {k}))
    ensures old(c.Calm()) && ok && Deletes(k, o, domain) >= 1 ==> c.st == Without(old(c.st), {k})
    ensures old(c.Faultless()) && k in old(c.st).objs ==> ok == (Deletes(k, o, domain) <= 1)
    ensures old(c.Faultless()) && Deletes(k, o, domain) >= 1 ==> c.st == Without(old(c.st), {k})
  {
    hide Run, Inv, Steady, Applying, Finalising, StaleEntries, Without;
    SteadyReflexive(c.st);
    ok := true;
    if !Excluded(k.routeNamespace) {
      ok := ResetRoute(c, k, o.body.ingress, domain);
    }
  }

  lemma MoreDeletes(es: seq<Event>, fs: seq<Event>, ks: set<Key>, all: set<Key>)
    requires ks <= all
    ensures OnlyDeletes(es, fs, ks) ==> OnlyDeletes(es, fs, all)
  {
  }

  lemma {:induction false} MoreEntries(es: seq<RouteIngress>, domain: string, i: nat)
    requires i <= |es|
    ensures StaleEntries(es[..i], domain) <= StaleEntries(es, domain)
    decreases |es| - i
  {
    if i < |es| {
      assert es[..i + 1][..i] == es[..i];
      MoreEntries(es, domain, i + 1);
    } else {
      assert es[..i] == es;
    }
  }

  lemma RouteLicence(s: State, k: Key)
    requires (Applying(s) || Finalising(s)) && k.Route?
    ensures Licence(s, Del(k))
  {
    hide Applying, Finalising;
  }

  /** Of the routes looked at so far, those that had to go. */
  function Gone(m: map<Key, Obj>, ks: seq<Key>, domain: string): set<Key> {
    set k | k in ks && k in m && Deletes(k, m[k], domain) >= 1
  }

  /** The routes of a listing that have to go. */
  function Stale(m: map<Key, Obj>, domain: string): set<Key> {
    set k | k in m && Deletes(k, m[k], domain) >= 1
  }

  /** Whoever interferes: some state of this stretch of the run was listed; all that the operator has deleted is among the
      outdated routes of that listing, and nil means that each of these has been gone since. */
  twostate predicate Reset(c: Cluster, domain: string, ok: bool)
    reads c
  {
    exists i :: |old(c.states)| <= i + 1 && 0 <= i < |c.states| && ResetFrom(c.states, i, old(c.events), c.events, domain, ok)
  }

  ghost predicate ResetFrom(ss: seq<State>, i: nat, before: seq<Event>, after: seq<Event>, domain: string, ok: bool)
    requires i < |ss|
  {
    && OnlyDeletes(before, after, OutdatedRoutes(ss[i], domain))
    && (ok ==> forall k :: k in OutdatedRoutes(ss[i], domain) ==> WasGone(ss, i + 1, k))
  }

  /** So a route that has moved when the routes are listed, or that is in a namespace left out, is not deleted. */
  lemma CurrentRouteIsKept(ss: seq<State>, i: nat, before: seq<Event>, after: seq<Event>, domain: string, ok: bool, k: Key)
    requires i < |ss| && k in ss[i].objs && ResetFrom(ss, i, before, after, domain, ok)
    requires !Outdated(k, ss[i].objs[k], domain)
    ensures forall n :: |before| <= n < |after| ==> after[n] != OpEvent(Del(k))
  {
    hide Outdated;
  }

  /** A nil return means that exactly the stale routes are gone. A pass that aborts on a repeated delete has removed a
      route with two stale entries, and that is the one such route that it has removed. */
  method ResetRoutes(c: Cluster, domain: string) returns (ok: bool)
    requires c.Valid() && (Applying(c.st) || Finalising(c.st))
    modifies c
    ensures c.Went(NOTHING) && c.Puts() == old(c.Puts())
    ensures Reset(c, domain, ok)
    ensures ok ==> Answered(old(c.events), c.events, OperatorSettled("openshift-apiserver"))
    ensures old(c.Calm()) && ok ==> c.st == Without(old(c.st), OutdatedRoutes(old(c.st), domain))
    ensures old(c.Calm()) ==> exists gone :: gone <= StaleRoutes(old(c.st), domain) && c.st == Without(old(c.st), gone)
    ensures old(c.Calm()) && ok ==> c.st == Without(old(c.st), StaleRoutes(old(c.st), domain))
    ensures old(c.Faultless()) ==> ok == (MultiStale(old(c.st), domain) == {})
    ensures old(c.Faultless()) && !ok ==>
              exists k :: k in MultiStale(old(c.st), domain) && MultiStale(c.st, domain) == MultiStale(old(c.st), domain) - {k}
  {
    hide Run, Inv, Steady, Licence, Applying, Finalising, Gone, Stale, StaleRoutes, MultiStale, OutdatedRoutes, Deletes, Without,
      OnlyDeletes, WasGone, Listing, Answered, ResetFrom, Tally;
    NothingGone(c.st);
    StaleRoutesAreOutdated(c.st, domain);
    var listed := c.List(IsRoute);
    c.LastState();
    ghost var at, past := |c.states| - 1, c.events;
    NothingReset(c.states, at, old(c.events), past, domain);
    if !listed.Ok? { return false; }
    ghost var before := c.st;
    StaleListing(before, domain);
    StaleRoutesAreOutdated(before, domain);
    ok := c.Probe(OperatorSettled("openshift-apiserver"));
    SteadyJoin(old(c.st), before, c.st, NOTHING, NOTHING, NOTHING);
    DeletesJoin(old(c.events), past, c.events, {}, {}, {});
    NothingReset(c.states, at, old(c.events), c.events, domain);
    if !ok { return; }
    before := c.st;
    ghost var seen := c.states;
    AnswersGrow(old(c.events), past, c.events);
    past := c.events;
    ok := DeleteListed(c, listed.value, domain, old(c.Calm()));
    SteadyJoin(old(c.st), before, c.st, NOTHING, NOTHING, NOTHING);
    AnswersGrow(old(c.events), past, c.events);
    DeletesJoin(old(c.events), past, c.events, {}, Stale(listed.value, domain), Stale(listed.value, domain));
    ListedReset(c.states, at, |seen|, old(c.events), c.events, domain, ok);
  }

  lemma NothingReset(ss: seq<State>, i: nat, before: seq<Event>, after: seq<Event>, domain: string)
    requires i < |ss| && OnlyDeletes(before, after, {})
    ensures ResetFrom(ss, i, before, after, domain, false)
  {
  }

  lemma StaleListing(s: State, domain: string)
    ensures Stale(Listing(s, IsRoute), domain) == StaleRoutes(s, domain)
  {
    hide StaleEntries;
  }

  lemma ListedReset(ss: seq<State>, i: nat, from: nat, before: seq<Event>, after: seq<Event>, domain: string, ok: bool)
    requires i < from <= |ss| && OnlyDeletes(before, after, OutdatedRoutes(ss[i], domain))
    requires ok ==> forall k :: k in OutdatedRoutes(ss[i], domain) ==> WasGone(ss, from, k)
    ensures ResetFrom(ss, i, before, after, domain, ok)
  {
  }

  /** The loop over the listed routes. */
  method DeleteListed(c: Cluster, m: map<Key, Obj>, domain: string, ghost calm: bool) returns (ok: bool)
    requires c.Valid() && (Applying(c.st) || Finalising(c.st))
    requires forall k :: k in m ==> k.Route? && m[k].body.RouteBody?
    requires calm ==> c.Calm() && m == Listing(c.st, IsRoute)
    modifies c
    ensures c.Went(NOTHING) && c.Puts() == old(c.Puts())
    ensures OnlyDeletes(old(c.events), c.events, Stale(m, domain))
    ensures ok ==> forall k :: k in Stale(m, domain) ==> WasGone(c.states, |old(c.states)|, k)
    ensures calm ==> exists gone :: gone <= StaleRoutes(old(c.st), domain) && c.st == Without(old(c.st), gone)
    ensures calm && ok ==> c.st == Without(old(c.st), StaleRoutes(old(c.st), domain))
    ensures calm && old(c.Faultless()) ==> ok == (MultiStale(old(c.st), domain) == {})
    ensures calm && old(c.Faultless()) && !ok ==>
              exists k :: k in MultiStale(old(c.st), domain) && MultiStale(c.st, domain) == MultiStale(old(c.st), domain) - {k}
  {
    hide Run, Inv, Steady, Licence, Applying, Finalising, Gone, Stale, StaleRoutes, MultiStale, Without, StaleEntries, Listing,
      Deletes, OnlyDeletes, WasGone;
    var ks := Client.Items(m);
    AllGone(c.st, m, ks, domain);
    SteadyReflexive(c.st);
    assert ks[..0] == [];
    NoDeletes(c.events, Stale(m, domain));
    for i := 0 to |ks|
      invariant c.Puts() == old(c.Puts())
      invariant OnlyDeletes(old(c.events), c.events, Stale(m, domain))
      invariant forall j :: 0 <= j < i && ks[j] in Stale(m, domain) ==> WasGone(c.states, |old(c.states)|, ks[j])
      invariant c.Went(NOTHING) && (Applying(c.st) || Finalising(c.st))
      invariant calm ==> c.st == Without(old(c.st), Gone(m, ks[..i], domain))
      invariant calm && old(c.Faultless()) ==> forall j :: 0 <= j < i ==> Deletes(ks[j], m[ks[j]], domain) <= 1
    {
      var k := ks[i];
      GoneNext(old(c.st), m, ks, i, domain);
      if calm { StillThere(old(c.st), c.st, m, ks, i, domain); }
      assert ks[i] in ks;
      ghost var before, past, seen := c.st, c.events, c.states;
      ok := Handle(c, k, m[k], domain);
      SteadyJoin(old(c.st), before, c.st, NOTHING, NOTHING, NOTHING);
      StaleOne(m, k, domain);
      DeletesJoin(old(c.events), past, c.events, Stale(m, domain), if Deletes(k, m[k], domain) >= 1 then {k} else {}, Stale(m, domain));
      forall j | 0 <= j < i + 1 && ok && ks[j] in Stale(m, domain) ensures WasGone(c.states, |old(c.states)|, ks[j]) {
        GoneLater(seen, c.states, |old(c.states)|, |old(c.states)|, ks[j]);
        GoneLater(c.states, c.states, |seen|, |old(c.states)|, ks[j]);
      }
      if !ok {
        if calm && old(c.Faultless()) { OneMultiGone(old(c.st), c.st, m, ks, i, domain); }
        return;
      }
    }
    assert ks[..|ks|] == ks;
    StaleIn(m, domain);
    if calm && old(c.Faultless()) { NoMulti(old(c.st), m, ks, domain); }
    ok := true;
  }

  lemma NoDeletes(es: seq<Event>, ks: set<Key>)
    ensures OnlyDeletes(es, es, ks)
  {
  }

  lemma StaleOne(m: map<Key, Obj>, k: Key, domain: string)
    requires k in m
    ensures k in Stale(m, domain) <==> Deletes(k, m[k], domain) >= 1
  {
  }

  lemma StaleIn(m: map<Key, Obj>, domain: string)
    ensures forall k :: k in Stale(m, domain) ==> k in m
  {
  }

  lemma GoneLater(ss: seq<State>, tt: seq<State>, from: nat, earlier: nat, k: Key)
    requires ss <= tt && earlier <= from
    ensures WasGone(ss, from, k) ==> WasGone(tt, earlier, k)
  {
  }

  lemma StillThere(s: State, t: State, m: map<Key, Obj>, ks: seq<Key>, i: nat, domain: string)
    requires m == Listing(s, IsRoute) && (forall k :: k in ks <==> k in m) && i < |ks|
    requires forall j, l :: 0 <= j < l < |ks| ==> ks[j] != ks[l]
    requires t == Without(s, Gone(m, ks[..i], domain))
    ensures ks[i] in t.objs
  {
    hide Deletes;
    assert ks[i] in m;
    assert ks[i] !in ks[..i];
    assert ks[i] !in Gone(m, ks[..i], domain);
  }

  lemma NoMulti(s: State, m: map<Key, Obj>, ks: seq<Key>, domain: string)
    requires m == Listing(s, IsRoute) && (forall k :: k in ks <==> k in m)
    requires forall j :: 0 <= j < |ks| ==> Deletes(ks[j], m[ks[j]], domain) <= 1
    ensures MultiStale(s, domain) == {}
  {
    forall k ensures k !in MultiStale(s, domain) {
      if k in s.objs && Deletes(k, s.objs[k], domain) >= 1 {
        assert k in m && k in ks;
      }
    }
  }

  lemma GoneNext(s: State, m: map<Key, Obj>, ks: seq<Key>, i: nat, domain: string)
    requires i < |ks| && forall k :: k in ks ==> k in m
    ensures Deletes(ks[i], m[ks[i]], domain) == 0 ==> Gone(m, ks[..i + 1], domain) == Gone(m, ks[..i], domain)
    ensures Deletes(ks[i], m[ks[i]], domain) >= 1 ==> Gone(m, ks[..i + 1], domain) == Gone(m, ks[..i], domain) + {ks[i]}
    ensures Deletes(ks[i], m[ks[i]], domain) >= 1 ==> Gone(m, ks[..i], domain) + {ks[i]} <= Gone(m, ks, domain)
    ensures Without(Without(s, Gone(m, ks[..i], domain)), {ks[i]}) == Without(s, Gone(m, ks[..i], domain) + {ks[i]})
    ensures Gone(m, ks[..i], domain) <= Gone(m, ks, domain)
  {
    assert ks[..i + 1] == ks[..i] + [ks[i]];
    GoneToo(s, Gone(m, ks[..i], domain), ks[i]);
  }

  lemma AllGone(s: State, m: map<Key, Obj>, ks: seq<Key>, domain: string)
    requires forall k :: k in ks <==> k in m
    ensures m == Listing(s, IsRoute) ==> Gone(m, ks, domain) == StaleRoutes(s, domain)
    ensures Gone(m, [], domain) == {} && Without(s, {}) == s
  {
    NothingGone(s);
  }

  lemma OneMultiGone(s: State, t: State, m: map<Key, Obj>, ks: seq<Key>, i: nat, domain: string)
    requires m == Listing(s, IsRoute) && (forall k :: k in ks <==> k in m) && i < |ks|
    requires forall j, l :: 0 <= j < l < |ks| ==> ks[j] != ks[l]
    requires forall j :: 0 <= j < i ==> Deletes(ks[j], m[ks[j]], domain) <= 1
    requires Deletes(ks[i], m[ks[i]], domain) >= 2
    requires t == Without(s, Gone(m, ks[..i], domain) + {ks[i]})
    ensures ks[i] in MultiStale(s, domain)
    ensures MultiStale(t, domain) == MultiStale(s, domain) - {ks[i]}
  {
  }
}
