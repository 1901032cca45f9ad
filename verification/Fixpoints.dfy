/** Passes that nobody interferes with: what one leaves alone, and the states in which one has nothing left to do. */
module Fixpoints {
  import opened Types
  import opened Store
  import opened Goals
  import opened Protocol
  import opened Preservation
  import SemVer

  predicate SameAt(s: State, t: State, k: Key) {
    && (k in s.objs <==> k in t.objs)
    && (k in s.objs ==> t.objs[k] == s.objs[k])
  }

  /** The same, or a secret that the spec says to copy, with this CR as an owner. */
  predicate KeptFor(s: State, t: State, k: Key, cr: Relocation) {
    && (k in s.objs <==> k in t.objs)
    && (k in s.objs ==>
          t.objs[k] == s.objs[k]
          || (UserKey(k) && cr.spec.Copies(k) && t.objs[k] == s.objs[k].(owners := s.objs[k].owners.Upsert(CrRef(cr.uid, false)))))
  }

  /** The same, or a user's secret that the running pass has added itself to as an owner. */
  predicate KeptAt(s: State, t: State, k: Key) {
    SameAt(s, t, k) || (s.active.Some? && KeptFor(s, t, k, s.active.value))
  }

  /** Two passes in a row on the same CR. */
  lemma KeptJoin(s: State, t: State, u: State, k: Key, cr: Relocation)
    requires KeptFor(s, t, k, cr) && KeptFor(t, u, k, cr)
    ensures KeptFor(s, u, k, cr)
  {
  }

  /** Writes to the keys in `f`, and ownership of users' secrets, are all that happened. */
  ghost predicate Quiet(s: State, t: State, f: iset<Key>) {
    && t == s.(objs := t.objs, modern := t.modern, held := t.held, seenAvailable := t.seenAvailable)
    && (Idms !in f ==> t.modern == s.modern)
    && forall k :: k !in f ==> KeptAt(s, t, k)
  }

  lemma QuietReflexive(s: State, f: iset<Key>)
    ensures Quiet(s, s, f)
  {
  }

  lemma QuietJoin(s: State, t: State, u: State, f: iset<Key>, g: iset<Key>, h: iset<Key>)
    requires Quiet(s, t, f) && Quiet(t, u, g)
    requires f <= h && g <= h
    ensures Quiet(s, u, h)
  {
    forall k | k !in h ensures KeptAt(s, u, k) {
      assert KeptAt(s, t, k) && KeptAt(t, u, k);
    }
  }

  /** Two stretches of a run in a row, each with its own footprint, are one stretch. */
  lemma Join(s: State, t: State, u: State, f: iset<Key>, g: iset<Key>, h: iset<Key>)
    requires f <= h && g <= h
    ensures Steady(s, t, f) && Steady(t, u, g) ==> Steady(s, u, h)
    ensures Quiet(s, t, f) && Quiet(t, u, g) ==> Quiet(s, u, h)
  {
    hide Steady, Quiet;
    if Steady(s, t, f) && Steady(t, u, g) { SteadyJoin(s, t, u, f, g, h); }
    if Quiet(s, t, f) && Quiet(t, u, g) { QuietJoin(s, t, u, f, g, h); }
  }

  lemma Widen(s: State, t: State, f: iset<Key>, h: iset<Key>)
    requires f <= h
    ensures Steady(s, t, f) ==> Steady(s, t, h)
    ensures Quiet(s, t, f) ==> Quiet(s, t, h)
  {
    hide Steady, Quiet;
    SteadyReflexive(t);
    QuietReflexive(t, NOTHING);
    Join(s, t, t, f, NOTHING, h);
  }

  lemma Stay(s: State, h: iset<Key>)
    ensures Steady(s, s, h) && Quiet(s, s, h)
  {
    hide Steady, Quiet;
    SteadyReflexive(s);
    QuietReflexive(s, NOTHING);
    Widen(s, s, NOTHING, h);
  }

  lemma WriteIsQuiet(s: State, w: Write)
    requires ObjectWrite(w) && Licence(s, w)
    ensures Quiet(s, Effect(s, w), if w.Adopt? then NOTHING else iset{w.key})
  {
    hide Configured, PutLicence, DelLicence;
  }

  /** The operator's own object, exactly as it writes it. */
  predicate Mine(s: State, cr: Relocation, k: Key, b: Body) {
    k in s.objs && s.objs[k].body == b && s.objs[k].owners.cr == Some(CrRef(cr.uid, true))
  }

  /** An object of the platform, exactly as the operator writes it. */
  predicate Plain(s: State, k: Key, b: Body) {
    k in s.objs && s.objs[k].body == b
  }

  /** Writing again what is there already changes nothing. */
  lemma MineIsFixed(s: State, cr: Relocation, k: Key, b: Body)
    requires s.active == Some(cr) && Mine(s, cr, k, b) && (k == Idms ==> s.modern)
    ensures Effect(s, Put(k, b, true)) == s
  {
    assert s.objs[k := s.objs[k]] == s.objs;
  }

  lemma PlainIsFixed(s: State, k: Key, b: Body)
    requires Plain(s, k, b) && (k == Idms ==> s.modern)
    ensures Effect(s, Put(k, b, false)) == s
  {
    assert s.objs[k := s.objs[k]] == s.objs;
  }

  lemma AbsentIsFixed(s: State, k: Key)
    requires k !in s.objs
    ensures Effect(s, Del(k)) == s
  {
    assert s.objs - {k} == s.objs;
  }

  /** The cluster after some objects are deleted. */
  function Without(s: State, gone: set<Key>): State {
    s.(objs := s.objs - gone)
  }

  lemma NothingGone(s: State)
    ensures Without(s, {}) == s
  {
    assert s.objs - {} == s.objs;
  }

  lemma GoneToo(s: State, gone: set<Key>, k: Key)
    ensures Without(Without(s, gone), {k}) == Without(s, gone + {k})
  {
    assert s.objs - gone - {k} == s.objs - (gone + {k});
  }

  /* ----------------------------------------------------------------- ssh */

  predicate SshRoleSettled(s: State, cr: Relocation, r: Role) {
    match cr.spec.sshKeys
    case None => SshConfig(r) !in s.objs
    case Some(keys) => Mine(s, cr, SshConfig(r), SshBody(r, keys))
  }

  predicate SshSettled(s: State, cr: Relocation) {
    SshRoleSettled(s, cr, Master) && SshRoleSettled(s, cr, Worker)
  }

  /* ------------------------------------------------------------- keeping */

  lemma HoldsKept(s: State, t: State, f: iset<Key>, k: Key, b: Body)
    requires Steady(s, t, f) && Holds(s, k, b)
    requires k !in f && PartOf(k) != Foreign && !k.Catalog?
    ensures Holds(t, k, b)
  {
  }

  lemma AbsentKept(s: State, t: State, f: iset<Key>, k: Key)
    requires Steady(s, t, f) && k !in s.objs
    requires k !in f && PartOf(k) != Foreign && !k.Catalog?
    ensures k !in t.objs
  {
  }

  lemma SameKept(s: State, t: State, f: iset<Key>, k: Key)
    requires Quiet(s, t, f) && k !in f && !UserKey(k)
    ensures SameAt(s, t, k)
  {
    assert KeptAt(s, t, k);
  }

  /* ------------------------------------------------------------ registry */

  predicate RegistrySettled(s: State, cr: Relocation) {
    match cr.spec.registryCert
    case None => Plain(s, ImageConfig, ImageBody(false))
    case Some(rc) => Mine(s, cr, RegistryConfigMap, ConfigMapBody(RegistryEntries(rc))) && Plain(s, ImageConfig, ImageBody(true))
  }

  /* -------------------------------------------------------------- mirror */

  predicate MirrorSettled(s: State, cr: Relocation) {
    match cr.spec.mirrors
    case None => if SemVer.Legacy(s.version) then Icsp !in s.objs else Idms !in s.objs
    case Some(ms) =>
      if SemVer.Legacy(s.version) then Mine(s, cr, Icsp, IcspBody(Converted(ms)))
      else Icsp !in s.objs && Mine(s, cr, Idms, IdmsBody(ms))
  }
}
