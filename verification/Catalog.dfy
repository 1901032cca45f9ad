/** internal/catalog: the catalog sources of the marketplace follow the list in the spec. */
module Catalogs {
  import opened Types
  import opened Store
  import opened Goals
  import opened Protocol
  import opened Preservation
  import opened Fixpoints
  import opened ClusterApi
  import Client

  predicate IsCatalog(k: Key) { k.Catalog? }

  /** The catalog sources that have to go: the relocation is their first owner, and the spec does not list them. */
  predicate Unwanted(k: Key, o: Obj, cs: seq<CatalogSource>) {
    k.Catalog? && o.owners.FirstIsRelocation() && !Listed(cs, k.catalog)
  }

  function UnwantedSources(s: State, cs: seq<CatalogSource>): set<Key> {
    set k | k in s.objs && Unwanted(k, s.objs[k], cs)
  }

  /** Nothing to prune, and the listed sources are as this relocation writes them last. */
  ghost predicate CatalogSettled(s: State, cr: Relocation) {
    && UnwantedSources(s, cr.spec.catalogs) == {}
    && SourcesSettled(s, cr, cr.spec.catalogs)
    && CatalogFeasible(s, cr.spec.catalogs)
  }

  ghost predicate SourcesSettled(s: State, cr: Relocation, cs: seq<CatalogSource>) {
    forall n :: Listed(cs, n) ==> Mine(s, cr, Catalog(n), CatalogBody(LastImage(cs, n)))
  }

  /** No other controller owns a source that the spec lists. */
  ghost predicate CatalogFeasible(s: State, cs: seq<CatalogSource>) {
    forall n :: Listed(cs, n) ==> !Controlled(s, n)
  }

  predicate Controlled(s: State, n: string) {
    Catalog(n) in s.objs && s.objs[Catalog(n)].owners.ForeignController()
  }

  /** The flag `existsInSpec`. */
  method ExistsInSpec(cs: seq<CatalogSource>, n: string) returns (exists_: bool)
    ensures exists_ == Listed(cs, n)
  {
    exists_ := false;
    for i := 0 to |cs|
      invariant exists_ == Listed(cs[..i], n)
    {
      if cs[i].name == n {
        exists_ := true;
      }
    }
    assert cs[..|cs|] == cs;
  }

  /* --------------------------------------------------------------- cleanup */

  /** Of the sources looked at so far, those that had to go. */
  function Pruned(m: map<Key, Obj>, ks: seq<Key>, cs: seq<CatalogSource>): set<Key> {
    set k | k in ks && k in m && Unwanted(k, m[k], cs)
  }

  /** What may still have to go: among the sources from position i on. */
  ghost predicate LeftToPrune(s: State, cs: seq<CatalogSource>, ks: seq<Key>, i: nat)
    requires i <= |ks|
  {
    forall n :: FirstOwned(s, Catalog(n)) && !Listed(cs, n) ==> Catalog(n) in ks[i..]
  }

  /** The sources whose first owner is now the relocation had it as first owner when they were listed. */
  ghost predicate NoneAdded(m: map<Key, Obj>, s: State) {
    forall n :: FirstOwned(s, Catalog(n)) ==> Catalog(n) in m && m[Catalog(n)].owners.FirstIsRelocation()
  }

  method Cleanup(c: Cluster, cr: Relocation) returns (ok: bool)
    requires c.Works(cr)
    modifies c
    ensures c.Went(Keys(CatalogPart)) && c.Works(cr) && c.Puts() == old(c.Puts())
    ensures ok ==> CatalogsPruned(c.st, cr.spec)
    ensures old(c.Calm()) ==> exists gone :: gone <= UnwantedSources(old(c.st), cr.spec.catalogs) && c.st == Without(old(c.st), gone)
    ensures old(c.Calm()) && ok ==> c.st == Without(old(c.st), UnwantedSources(old(c.st), cr.spec.catalogs))
    ensures old(c.Faultless()) ==> ok
  {
    hide Run, Inv, Steady, Licence, Applying, UnwantedSources, Without, Listing;
    NothingGone(c.st);
    Stay(c.st, Keys(CatalogPart));
    var listed := c.List(IsCatalog);
    Widen(old(c.st), c.st, NOTHING, Keys(CatalogPart));
    if !listed.Ok? { return false; }
    ghost var before := c.st;
    ok := Prune(c, cr, listed.value);
    Join(old(c.st), before, c.st, Keys(CatalogPart), Keys(CatalogPart), Keys(CatalogPart));
  }

  /** The loop over the listed sources. */
  method Prune(c: Cluster, cr: Relocation, m: map<Key, Obj>) returns (ok: bool)
    requires c.Works(cr) && m == Listing(c.st, IsCatalog)
    modifies c
    ensures c.Went(Keys(CatalogPart)) && c.Works(cr) && c.Puts() == old(c.Puts())
    ensures ok ==> CatalogsPruned(c.st, cr.spec)
    ensures old(c.Calm()) ==> exists gone :: gone <= UnwantedSources(old(c.st), cr.spec.catalogs) && c.st == Without(old(c.st), gone)
    ensures old(c.Calm()) && ok ==> c.st == Without(old(c.st), UnwantedSources(old(c.st), cr.spec.catalogs))
    ensures old(c.Faultless()) ==> ok
  {
    hide Run, Inv, Steady, Licence, Applying, UnwantedSources, Without, Listing, Pruned, NoneAdded, LeftToPrune,
      Quiet, Unwanted, CatalogsPruned, Listed, Collectable;
    var ks := Client.Items(m);
    var cs := cr.spec.catalogs;
    BeforePruning(c.st, m, ks, cs);
    Stay(c.st, Keys(CatalogPart));
    assert ks[..0] == [];
    for i := 0 to |ks|
      invariant c.Went(Keys(CatalogPart)) && c.Works(cr) && c.Puts() == old(c.Puts())
      invariant NoneAdded(m, c.st) && LeftToPrune(c.st, cs, ks, i)
      invariant old(c.Calm()) ==> c.st == Without(old(c.st), Pruned(m, ks[..i], cs))
    {
      var k := ks[i];
      assert k in ks;
      PrunedNext(old(c.st), m, ks, i, cs);
      var wanted := true;
      if m[k].owners.FirstIsRelocation() {
        wanted := ExistsInSpec(cs, k.catalog);
      }
      assert wanted == !Unwanted(k, m[k], cs) by { KeysAreCatalogs(old(c.st), m, k); IsUnwanted(k, m[k], cs); }
      ghost var before := c.st;
      if !wanted {
        if old(c.Calm()) { NotYetPruned(old(c.st), c.st, m, ks, i, cs); }
        DropLicence(c.st, k);
        ghost var gone := Pruned(m, ks[..i], cs);
        Client.DeleteIsWithout(c.st, k);
        var r := c.Send(Del(k));
        KeyIsCatalogPart(k);
        Join(old(c.st), before, c.st, Keys(CatalogPart), iset{k}, Keys(CatalogPart));
        if !r.Ok? { return false; }
      }
      Pruning(before, c.st, m, ks, i, cs);
    }
    assert ks[..|ks|] == ks;
    AfterPruning(c.st, cr, cs, ks);
    ok := true;
  }

  lemma KeysAreCatalogs(s: State, m: map<Key, Obj>, k: Key)
    requires m == Listing(s, IsCatalog) && k in m
    ensures k.Catalog?
  {
  }

  lemma KeyIsCatalogPart(k: Key)
    requires k.Catalog?
    ensures iset{k} <= Keys(CatalogPart)
  {
  }

  lemma IsUnwanted(k: Key, o: Obj, cs: seq<CatalogSource>)
    requires k.Catalog?
    ensures Unwanted(k, o, cs) <==> o.owners.FirstIsRelocation() && !Listed(cs, k.catalog)
  {
  }

  lemma BeforePruning(s: State, m: map<Key, Obj>, ks: seq<Key>, cs: seq<CatalogSource>)
    requires m == Listing(s, IsCatalog) && forall k :: k in ks <==> k in m
    ensures NoneAdded(m, s) && LeftToPrune(s, cs, ks, 0)
    ensures Pruned(m, [], cs) == {} && Without(s, {}) == s
    ensures Pruned(m, ks, cs) == UnwantedSources(s, cs)
    ensures forall k :: k in ks ==> k.Catalog?
  {
    NothingGone(s);
    forall n | FirstOwned(s, Catalog(n)) ensures Catalog(n) in m { assert IsCatalog(Catalog(n)); }
    assert ks[0..] == ks;
  }

  lemma PrunedNext(s: State, m: map<Key, Obj>, ks: seq<Key>, i: nat, cs: seq<CatalogSource>)
    requires i < |ks| && forall k :: k in ks ==> k in m
    ensures !Unwanted(ks[i], m[ks[i]], cs) ==> Pruned(m, ks[..i + 1], cs) == Pruned(m, ks[..i], cs)
    ensures Unwanted(ks[i], m[ks[i]], cs) ==> Pruned(m, ks[..i + 1], cs) == Pruned(m, ks[..i], cs) + {ks[i]}
    ensures Without(Without(s, Pruned(m, ks[..i], cs)), {ks[i]}) == Without(s, Pruned(m, ks[..i], cs) + {ks[i]})
    ensures Pruned(m, ks[..i + 1], cs) <= Pruned(m, ks, cs) && Pruned(m, ks[..i], cs) <= Pruned(m, ks, cs)
  {
    hide Unwanted;
    assert ks[..i + 1] == ks[..i] + [ks[i]];
    GoneToo(s, Pruned(m, ks[..i], cs), ks[i]);
  }

  lemma NotYetPruned(s: State, t: State, m: map<Key, Obj>, ks: seq<Key>, i: nat, cs: seq<CatalogSource>)
    requires m == Listing(s, IsCatalog) && (forall k :: k in ks <==> k in m) && i < |ks|
    requires forall j, l :: 0 <= j < l < |ks| ==> ks[j] != ks[l]
    requires t == Without(s, Pruned(m, ks[..i], cs))
    ensures ks[i] in t.objs
  {
    hide Unwanted;
    assert ks[i] in m;
    assert ks[i] !in ks[..i];
    assert ks[i] !in Pruned(m, ks[..i], cs);
  }

  /** One turn of the loop: the source at position i is listed, or not ours, or gone. */
  lemma Pruning(s: State, t: State, m: map<Key, Obj>, ks: seq<Key>, i: nat, cs: seq<CatalogSource>)
    requires i < |ks| && ks[i] in m && ks[i].Catalog?
    requires NoneAdded(m, s) && LeftToPrune(s, cs, ks, i)
    requires Applying(s)
    requires if Unwanted(ks[i], m[ks[i]], cs) then Steady(s, t, iset{ks[i]}) && ks[i] !in t.objs else s == t
    ensures NoneAdded(m, t) && LeftToPrune(t, cs, ks, i + 1)
  {
    hide Applying, Finalising, Firm, Sound;
    var k := ks[i];
    forall n | FirstOwned(t, Catalog(n))
      ensures FirstOwned(s, Catalog(n)) && (!Listed(cs, n) ==> Catalog(n) in ks[i + 1..])
    {
      if Catalog(n) != k && s != t { assert CatalogKept(s, t, Catalog(n)); }
      assert FirstOwned(s, Catalog(n));
      if !Listed(cs, n) {
        assert Catalog(n) in ks[i..];
        assert ks[i..] == [k] + ks[i + 1..];
      }
    }
  }

  lemma AfterPruning(s: State, cr: Relocation, cs: seq<CatalogSource>, ks: seq<Key>)
    requires cs == cr.spec.catalogs && LeftToPrune(s, cs, ks, |ks|)
    ensures CatalogsPruned(s, cr.spec)
  {
  }

  /* ------------------------------------------------------------- reconcile */

  method Reconcile(c: Cluster, cr: Relocation) returns (ok: bool)
    requires c.Works(cr)
    modifies c
    ensures c.Went(Keys(CatalogPart)) && c.Works(cr)
    ensures ok ==> CatalogDone(c.st, cr.spec)
    ensures ok && cr.spec.catalogs != [] ==> Answered(old(c.events), c.events, MarketplaceReady)
    ensures old(c.Calm()) ==> Quiet(old(c.st), c.st, Keys(CatalogPart)) && OthersKept(old(c.st), c.st, cr.spec.catalogs)
    ensures old(c.Calm()) && ok ==> CatalogSettled(c.st, cr)
    ensures old(c.Calm()) && ok && CatalogSettled(old(c.st), cr) ==> c.st == old(c.st)
    ensures old(c.Calm()) && Distinct(cr.spec.catalogs) && CatalogSettled(old(c.st), cr) ==> c.Rested()
    ensures old(c.Faultless()) ==> ok == CatalogFeasible(old(c.st), cr.spec.catalogs)
  {
    hide Run, Inv, Steady, Licence, Applying, CatalogsPresent, CatalogsPruned, Quiet, UnwantedSources, Without,
      OthersKept, SourcesSettled, CatalogFeasible, Answered;
    Stay(c.st, Keys(CatalogPart));
    NothingGone(c.st);
    ok := Cleanup(c, cr);
    if old(c.Calm()) { PruningIsQuiet(old(c.st), c.st, cr.spec.catalogs); }
    if !ok { return; }
    ghost var pruned, past := c.st, c.events;
    if cr.spec.catalogs != [] {
      ok := c.Probe(MarketplaceReady);
      Stay(pruned, Keys(CatalogPart));
      Join(old(c.st), pruned, c.st, Keys(CatalogPart), NOTHING, Keys(CatalogPart));
      SteadyKeepsPruned(pruned, c.st, NOTHING, cr.spec);
      if !ok { return; }
    }
    ghost var before, asked := c.st, c.events;
    ok := CreateSources(c, cr);
    AnswersGrow(past, asked, c.events);
    AnswersGrow(old(c.events), past, c.events);
    Join(old(c.st), before, c.st, Keys(CatalogPart), Keys(CatalogPart), Keys(CatalogPart));
    if old(c.Calm()) {
      KeptTwice(old(c.st), before, c.st, cr.spec.catalogs);
      StillFeasible(old(c.st), before, cr.spec.catalogs);
      if ok { StillPruned(before, c.st, cr.spec.catalogs); }
    }
  }

  /** Sources that the spec does not list, and that are not first-owned by the relocation, are left alone. */
  predicate KeptSource(s: State, t: State, cs: seq<CatalogSource>, n: string) {
    !Listed(cs, n) && !FirstOwned(s, Catalog(n)) ==> SameAt(s, t, Catalog(n))
  }

  ghost predicate OthersKept(s: State, t: State, cs: seq<CatalogSource>) {
    forall n :: KeptSource(s, t, cs, n)
  }

  lemma PruningIsQuiet(s: State, t: State, cs: seq<CatalogSource>)
    requires exists gone :: gone <= UnwantedSources(s, cs) && t == Without(s, gone)
    ensures Quiet(s, t, Keys(CatalogPart)) && OthersKept(s, t, cs)
    ensures t == Without(s, UnwantedSources(s, cs)) ==> UnwantedSources(t, cs) == {}
    ensures UnwantedSources(s, cs) == {} ==> t == s
  {
    NothingGone(s);
    forall k | k !in Keys(CatalogPart) ensures KeptAt(s, t, k) {
      assert !k.Catalog?;
    }
  }

  lemma SteadyKeepsPruned(s: State, t: State, f: iset<Key>, sp: Spec)
    requires Steady(s, t, f) && Applying(s) && CatalogsPruned(s, sp)
    requires forall n :: Catalog(n) in f ==> Listed(sp.catalogs, n)
    ensures CatalogsPruned(t, sp)
  {
    hide Applying, Finalising, Firm, Sound;
    forall n | FirstOwned(t, Catalog(n)) ensures Listed(sp.catalogs, n) {
      if Catalog(n) !in f { assert CatalogKept(s, t, Catalog(n)); }
    }
  }

  /** Sources that the spec does not list are left alone. */
  ghost predicate UnlistedKept(s: State, t: State, cs: seq<CatalogSource>) {
    forall n :: !Listed(cs, n) ==> SameAt(s, t, Catalog(n))
  }

  lemma KeptTwice(s: State, t: State, u: State, cs: seq<CatalogSource>)
    requires OthersKept(s, t, cs) && UnlistedKept(t, u, cs)
    ensures OthersKept(s, u, cs)
  {
    forall n ensures KeptSource(s, u, cs, n) { assert KeptSource(s, t, cs, n); }
  }

  lemma StillFeasible(s: State, t: State, cs: seq<CatalogSource>)
    requires t == Without(s, UnwantedSources(s, cs))
    ensures CatalogFeasible(t, cs) == CatalogFeasible(s, cs)
  {
    forall n | Listed(cs, n) ensures Controlled(t, n) == Controlled(s, n) {
      assert Catalog(n) !in UnwantedSources(s, cs);
    }
  }

  lemma StillPruned(s: State, t: State, cs: seq<CatalogSource>)
    requires UnwantedSources(s, cs) == {} && UnlistedKept(s, t, cs)
    ensures UnwantedSources(t, cs) == {}
  {
    forall k ensures k !in UnwantedSources(t, cs) {
      if k.Catalog? && !Listed(cs, k.catalog) {
        assert SameAt(s, t, Catalog(k.catalog));
        assert k !in UnwantedSources(s, cs);
      }
    }
  }

  /** The loop over the spec: every source is created or updated, in the order of the list. */
  method CreateSources(c: Cluster, cr: Relocation) returns (ok: bool)
    requires c.Works(cr) && CatalogsPruned(c.st, cr.spec)
    modifies c
    ensures c.Went(Keys(CatalogPart)) && c.Works(cr)
    ensures ok ==> CatalogDone(c.st, cr.spec)
    ensures old(c.Calm()) ==> Quiet(old(c.st), c.st, Keys(CatalogPart)) && UnlistedKept(old(c.st), c.st, cr.spec.catalogs)
    ensures old(c.Calm()) && ok ==> SourcesSettled(c.st, cr, cr.spec.catalogs) && CatalogFeasible(c.st, cr.spec.catalogs)
    ensures old(c.Calm()) && ok && SourcesSettled(old(c.st), cr, cr.spec.catalogs) ==> c.st == old(c.st)
    // with distinct names there is nothing to write on the way either
    ensures old(c.Calm()) && Distinct(cr.spec.catalogs) && SourcesSettled(old(c.st), cr, cr.spec.catalogs) ==> c.Rested()
    ensures old(c.Faultless()) ==> ok == CatalogFeasible(old(c.st), cr.spec.catalogs)
  {
    hide Distinct, Run, Inv, Steady, Licence, Applying, CatalogsPresent, CatalogsPruned, Quiet, SourcesSettled,
      UnlistedKept, Refreshed, Controlled, SameControl, Listed, Effect, Mine;
    var cs := cr.spec.catalogs;
    Stay(c.st, Keys(CatalogPart));
    BeforeSources(c.st, cr, cs);
    for i := 0 to |cs|
      invariant c.Went(Keys(CatalogPart)) && c.Works(cr)
      invariant CatalogsPruned(c.st, cr.spec) && CatalogsPresent(c.st, cs[..i])
      invariant old(c.Calm()) ==> Quiet(old(c.st), c.st, Keys(CatalogPart)) && UnlistedKept(old(c.st), c.st, cs)
      invariant old(c.Calm()) ==> SourcesSettled(c.st, cr, cs[..i])
      invariant old(c.Calm()) && SourcesSettled(old(c.st), cr, cs) ==> Refreshed(old(c.st), c.st, cs[..i])
      invariant old(c.Calm()) && Distinct(cs) && SourcesSettled(old(c.st), cr, cs) ==> c.Rested()
      invariant old(c.Calm()) ==> SameControl(old(c.st), c.st) && forall j :: 0 <= j < i ==> !Controlled(old(c.st), cs[j].name)
    {
      var k, b := Catalog(cs[i].name), CatalogBody(cs[i].image);
      ghost var before := c.st;
      OwnLicence(before, k, b);
      if old(c.Calm()) { SourceBlocked(old(c.st), before, cs, i); }
      if Distinct(cs) && SourcesSettled(before, cr, cs) { DistinctSettled(before, cr, cs, i); }
      ok := Client.Apply(c, k, b, true);
      KeyIsCatalogPart(k);
      Join(old(c.st), before, c.st, Keys(CatalogPart), iset{k}, Keys(CatalogPart));
      SourceListed(cs, i);
      SteadyKeepsPruned(before, c.st, iset{k}, cr.spec);
      if old(c.Calm()) { SourceUnlisted(old(c.st), before, c.st, cs, i); }
      if !ok { return; }
      SourcePresent(before, c.st, cs, i);
      if old(c.Calm()) {
        SourceSettles(before, c.st, cr, cs, i);
        SourceRefreshes(old(c.st), before, c.st, cr, cs, i);
        ControlKept(old(c.st), before, c.st, k, b);
      }
    }
    ok := true;
    AfterSources(old(c.st), c.st, cr, cs);
  }

  predicate Distinct(cs: seq<CatalogSource>) {
    forall i, j :: 0 <= i < j < |cs| ==> cs[i].name != cs[j].name
  }

  lemma {:induction false} DistinctLast(cs: seq<CatalogSource>, i: nat)
    requires i < |cs| && Distinct(cs)
    ensures Listed(cs, cs[i].name) && LastImage(cs, cs[i].name) == cs[i].image
  {
    if i < |cs| - 1 { DistinctLast(cs[..|cs| - 1], i); }
  }

  lemma DistinctSettled(s: State, cr: Relocation, cs: seq<CatalogSource>, i: nat)
    requires i < |cs| && Distinct(cs) && SourcesSettled(s, cr, cs)
    ensures Mine(s, cr, Catalog(cs[i].name), CatalogBody(cs[i].image))
  {
    hide Listed, LastImage;
    DistinctLast(cs, i);
  }

  /** Only the images of listed sources differ, and they are the last ones listed. */
  ghost predicate Refreshed(s: State, t: State, cs: seq<CatalogSource>) {
    && t == s.(objs := t.objs) && t.objs.Keys == s.objs.Keys
    && forall k :: k in s.objs ==>
         t.objs[k] == if k.Catalog? && Listed(cs, k.catalog) then s.objs[k].(body := CatalogBody(LastImage(cs, k.catalog))) else s.objs[k]
  }

  ghost predicate SameControl(s: State, t: State) {
    forall n :: Controlled(s, n) == Controlled(t, n)
  }

  lemma BeforeSources(s: State, cr: Relocation, cs: seq<CatalogSource>)
    ensures CatalogsPresent(s, cs[..0]) && UnlistedKept(s, s, cs) && SourcesSettled(s, cr, cs[..0]) && Refreshed(s, s, cs[..0]) && SameControl(s, s)
  {
  }

  lemma SourceListed(cs: seq<CatalogSource>, i: nat)
    requires i < |cs|
    ensures Listed(cs, cs[i].name)
  {
  }

  /** Listing one more entry. */
  lemma OneMore(cs: seq<CatalogSource>, i: nat, n: string)
    requires i < |cs|
    ensures Listed(cs[..i + 1], n) <==> Listed(cs[..i], n) || cs[i].name == n
    ensures Listed(cs[..i + 1], n) ==> LastImage(cs[..i + 1], n) == if cs[i].name == n then cs[i].image else LastImage(cs[..i], n)
  {
    assert cs[..i + 1][..i] == cs[..i];
    if Listed(cs[..i], n) {
      var j :| 0 <= j < i && cs[..i][j].name == n;
      assert cs[..i + 1][j].name == n;
    }
    assert cs[..i + 1][i] == cs[i];
  }

  lemma SourceUnlisted(s: State, t: State, u: State, cs: seq<CatalogSource>, i: nat)
    requires i < |cs| && UnlistedKept(s, t, cs) && Quiet(t, u, iset{Catalog(cs[i].name)})
    ensures UnlistedKept(s, u, cs)
  {
    forall n | !Listed(cs, n) ensures SameAt(s, u, Catalog(n)) {
      SameKept(t, u, iset{Catalog(cs[i].name)}, Catalog(n));
    }
  }

  lemma SourcePresent(s: State, t: State, cs: seq<CatalogSource>, i: nat)
    requires i < |cs| && CatalogsPresent(s, cs[..i]) && Applying(s)
    requires Steady(s, t, iset{Catalog(cs[i].name)})
    requires CrOwned(t, Catalog(cs[i].name)) && Holds(t, Catalog(cs[i].name), CatalogBody(cs[i].image))
    ensures CatalogsPresent(t, cs[..i + 1])
  {
    hide Applying, Finalising, Firm, Sound, LastImage, Listed;
    forall n | Listed(cs[..i + 1], n)
      ensures CrOwned(t, Catalog(n)) && Holds(t, Catalog(n), CatalogBody(LastImage(cs[..i + 1], n)))
    {
      OneMore(cs, i, n);
      if n != cs[i].name { assert CatalogKept(s, t, Catalog(n)); }
    }
  }

  lemma SourceSettles(s: State, t: State, cr: Relocation, cs: seq<CatalogSource>, i: nat)
    requires i < |cs| && SourcesSettled(s, cr, cs[..i]) && Quiet(s, t, iset{Catalog(cs[i].name)})
    requires Mine(t, cr, Catalog(cs[i].name), CatalogBody(cs[i].image))
    ensures SourcesSettled(t, cr, cs[..i + 1])
  {
    hide LastImage, Listed;
    forall n | Listed(cs[..i + 1], n) ensures Mine(t, cr, Catalog(n), CatalogBody(LastImage(cs[..i + 1], n))) {
      OneMore(cs, i, n);
      if n != cs[i].name { SameKept(s, t, iset{Catalog(cs[i].name)}, Catalog(n)); }
    }
  }

  lemma SourceRefreshes(s: State, t: State, u: State, cr: Relocation, cs: seq<CatalogSource>, i: nat)
    requires i < |cs| && t.active == Some(cr)
    requires u == Effect(t, Put(Catalog(cs[i].name), CatalogBody(cs[i].image), true))
    ensures SourcesSettled(s, cr, cs) && Refreshed(s, t, cs[..i]) ==> Refreshed(s, u, cs[..i + 1])
  {
    hide LastImage, Listed;
    if SourcesSettled(s, cr, cs) && Refreshed(s, t, cs[..i]) {
      SourceListed(cs, i);
      var k := Catalog(cs[i].name);
      assert Mine(s, cr, k, CatalogBody(LastImage(cs, cs[i].name)));
      forall l | l in s.objs
        ensures u.objs[l] == if l.Catalog? && Listed(cs[..i + 1], l.catalog)
                             then s.objs[l].(body := CatalogBody(LastImage(cs[..i + 1], l.catalog))) else s.objs[l]
      {
        if l.Catalog? { OneMore(cs, i, l.catalog); }
      }
    }
  }

  lemma ControlKept(s: State, t: State, u: State, k: Key, b: Body)
    requires u == Effect(t, Put(k, b, true)) && SameControl(s, t) && t.active.Some?
    ensures SameControl(s, u)
  {
    forall n ensures Controlled(s, n) == Controlled(u, n) {
      assert Controlled(s, n) == Controlled(t, n);
      if k == Catalog(n) { UpsertKeepsControl(OwnersAt(t, k), CrRef(t.active.value.uid, true)); }
    }
  }

  lemma UpsertKeepsControl(o: Owners, ref: CrRef)
    ensures o.Upsert(ref).ForeignController() == o.ForeignController()
  {
    var all := o.before + o.after;
    assert o.ForeignController() <==> exists i :: 0 <= i < |all| && all[i].controller by {
      if j :| 0 <= j < |o.before| && o.before[j].controller { assert all[j].controller; }
      if j :| 0 <= j < |o.after| && o.after[j].controller { assert all[|o.before| + j].controller; }
    }
  }

  lemma SourceBlocked(s: State, t: State, cs: seq<CatalogSource>, i: nat)
    requires i < |cs| && SameControl(s, t)
    ensures Blocked(t, Put(Catalog(cs[i].name), CatalogBody(cs[i].image), true)) == Controlled(s, cs[i].name)
    ensures Controlled(s, cs[i].name) ==> !CatalogFeasible(s, cs)
  {
    assert Controlled(s, cs[i].name) == Controlled(t, cs[i].name);
    SourceListed(cs, i);
  }

  lemma AfterSources(s: State, t: State, cr: Relocation, cs: seq<CatalogSource>)
    requires cs == cr.spec.catalogs
    ensures CatalogsPresent(t, cs[..|cs|]) ==> CatalogsPresent(t, cs)
    ensures SourcesSettled(t, cr, cs[..|cs|]) ==> SourcesSettled(t, cr, cs)
    ensures SourcesSettled(s, cr, cs) && Refreshed(s, t, cs[..|cs|]) ==> t == s
    ensures (forall j :: 0 <= j < |cs| ==> !Controlled(s, cs[j].name)) ==> CatalogFeasible(s, cs)
    ensures SameControl(s, t) && CatalogFeasible(s, cs) ==> CatalogFeasible(t, cs)
  {
    assert cs[..|cs|] == cs;
    if SameControl(s, t) && CatalogFeasible(s, cs) {
      forall n | Listed(cs, n) ensures !Controlled(t, n) { assert Controlled(s, n) == Controlled(t, n); }
    }
    if SourcesSettled(s, cr, cs) && Refreshed(s, t, cs[..|cs|]) {
      forall k | k in s.objs ensures t.objs[k] == s.objs[k] {
        if k.Catalog? && Listed(cs, k.catalog) { assert Mine(s, cr, Catalog(k.catalog), CatalogBody(LastImage(cs, k.catalog))); }
      }
      assert t.objs == s.objs;
    }
  }
}
