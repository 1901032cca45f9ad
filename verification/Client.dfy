/** The calls in the shape that the sub-reconcilers use them, with what they mean for the fixpoints. */
module Client {
  import opened Types
  import opened Store
  import opened Protocol
  import opened Preservation
  import opened Fixpoints
  import opened ClusterApi

  /** The object is exactly what this write would make it. */
  predicate Settled(s: State, k: Key, b: Body, own: bool) {
    if own then s.active.Some? && Mine(s, s.active.value, k, b) else Plain(s, k, b)
  }

  lemma SettledIsFixed(s: State, k: Key, b: Body, own: bool)
    requires Inv(s) && Settled(s, k, b, own)
    ensures Effect(s, Put(k, b, own)) == s
  {
    if own { MineIsFixed(s, s.active.value, k, b); } else { PlainIsFixed(s, k, b); }
  }

  lemma WriteSettles(s: State, k: Key, b: Body, own: bool)
    requires own ==> Applying(s)
    ensures Settled(Effect(s, Put(k, b, own)), k, b, own)
  {
  }

  /** Create or update an object. */
  method Apply(c: Cluster, k: Key, b: Body, own: bool) returns (ok: bool)
    requires c.Valid() && Licence(c.st, Put(k, b, own)) && (own ==> Applying(c.st))
    modifies c
    ensures c.Went(iset{k})
    ensures ok ==> Holds(c.st, k, b) && (own ==> CrOwned(c.st, k))
    ensures old(c.Calm()) ==> Quiet(old(c.st), c.st, iset{k})
    ensures old(c.Calm()) && ok ==> Settled(c.st, k, b, own) && c.st == Effect(old(c.st), Put(k, b, own)) && !Blocked(old(c.st), Put(k, b, own))
    ensures old(c.Calm()) && Settled(old(c.st), k, b, own) ==> c.Rested()
    ensures old(c.Faultless()) ==> ok == !Blocked(old(c.st), Put(k, b, own))
  {
    hide Run, Inv, Steady, Licence, Effect, Applying, Quiet;
    var w := Put(k, b, own);
    WriteIsQuiet(c.st, w);
    QuietReflexive(c.st, iset{k});
    WriteSettles(c.st, k, b, own);
    if Settled(c.st, k, b, own) { SettledIsFixed(c.st, k, b, own); }
    var outcome;
    ok, outcome := c.CreateOrUpdate(k, b, own);
  }

  lemma AbsentIsWithout(s: State, k: Key)
    ensures k !in s.objs ==> Without(s, {k}) == s
  {
    if k !in s.objs { assert s.objs - {k} == s.objs; }
  }

  lemma DeleteIsWithout(s: State, k: Key)
    ensures Effect(s, Del(k)) == Without(s, {k})
  {
  }

  /** Delete an object, content if there is none. */
  method Remove(c: Cluster, k: Key) returns (ok: bool)
    requires c.Valid() && Licence(c.st, Del(k))
    modifies c
    ensures c.Went(iset{k})
    ensures ok ==> k !in c.st.objs
    ensures c.Puts() == old(c.Puts())
    ensures old(c.Calm()) ==> Quiet(old(c.st), c.st, iset{k})
    ensures old(c.Calm()) && ok ==> c.st == Without(old(c.st), {k})
    ensures old(c.Calm()) && k !in old(c.st).objs ==> c.Rested()
    ensures old(c.Faultless()) ==> ok
  {
    hide Run, Inv, Steady, Licence, Effect, Quiet;
    WriteIsQuiet(c.st, Del(k));
    QuietReflexive(c.st, iset{k});
    DeleteIsWithout(c.st, k);
    if k !in c.st.objs { AbsentIsFixed(c.st, k); }
    var r := c.Send(Del(k));
    ok := !r.Failed?;
  }

  /** Listed objects in some order. */
  method Items(m: map<Key, Obj>) returns (ks: seq<Key>)
    ensures forall k :: k in ks <==> k in m
    ensures forall i, j :: 0 <= i < j < |ks| ==> ks[i] != ks[j]
  {
    ks := [];
    var rest := m.Keys;
    while rest != {}
      invariant rest <= m.Keys
      invariant forall k :: k in m <==> k in ks || k in rest
      invariant forall k :: k in ks ==> k !in rest
      invariant forall i, j :: 0 <= i < j < |ks| ==> ks[i] != ks[j]
      decreases rest
    {
      var k :| k in rest;
      rest := rest - {k};
      ks := ks + [k];
    }
  }

  predicate Adopted(s: State, k: Key) {
    k in s.objs && s.active.Some? && s.objs[k].owners.cr == Some(CrRef(s.active.value.uid, false))
  }

  lemma AdoptedIsFixed(s: State, k: Key)
    requires Adopted(s, k)
    ensures Effect(s, Adopt(k)) == s
  {
    assert s.objs[k := s.objs[k]] == s.objs;
  }

  lemma AdoptSettles(s: State, k: Key)
    requires k in s.objs && s.active.Some?
    ensures Adopted(Effect(s, Adopt(k)), k)
  {
  }

  /** What belongs to others is in nobody's footprint. */
  lemma ForeignFootprint(s: State, t: State, k: Key)
    requires Steady(s, t, iset{k}) && PartOf(k) == Foreign
    ensures Steady(s, t, NOTHING)
  {
    hide Applying, Finalising, Sound, Firm;
  }

  /** Take non-controller ownership of a user's secret, in order to watch it. */
  method Own(c: Cluster, k: Key) returns (ok: bool)
    requires c.Valid() && Licence(c.st, Adopt(k))
    modifies c
    ensures c.Went(NOTHING) && c.Puts() == old(c.Puts())
    ensures old(c.Calm()) ==> Quiet(old(c.st), c.st, NOTHING)
    ensures old(c.Calm()) && ok ==> Adopted(c.st, k)
    ensures old(c.Calm()) && Adopted(old(c.st), k) ==> c.Rested()
    ensures old(c.Faultless()) ==> ok == (k in old(c.st).objs)
  {
    hide Run, Inv, Steady, Quiet, Effect, Adopted;
    WriteIsQuiet(c.st, Adopt(k));
    if k in c.st.objs { AdoptSettles(c.st, k); }
    QuietReflexive(c.st, NOTHING);
    if Adopted(c.st, k) { AdoptedIsFixed(c.st, k); }
    var r := c.Send(Adopt(k));
    ForeignFootprint(old(c.st), c.st, k);
    ok := r.Ok?;
  }
}
