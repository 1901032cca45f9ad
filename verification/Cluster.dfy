/** The API server as the operator uses it: every call lets the environment step first, and every call may fail
    before or after its effect. */
module ClusterApi {
  import opened Types
  import opened Store
  import opened Goals
  import opened Protocol
  import opened Preservation
  import SemVer

  datatype Fate = Fine | FailBefore | FailAfter

  datatype Reply<+T> = Ok(value: T) | NotFound | Failed

  datatype Outcome = Unchanged | Written

  /** A YAML document of the ACM import secret: an object, an empty document, or text that does not decode. */
  datatype Document = Object(id: string, content: string) | Empty | Malformed

  datatype HubReply = HubOk(crds: seq<Document>, manifests: seq<Document>) | HubNotFound | HubForbidden | HubExists | HubError

  /** What happens around one call: the steps of others before it, its fate, the time it takes,
      the randomness it draws and what the ACM hub answers. */
  datatype Turn = Turn(env: seq<EnvAction>, fate: Fate, delay: nat, pair: nat, hub: HubReply)

  /** A ManagedCluster sent to the hub, with the CA bundle of its first client configuration. */
  datatype HubCluster = HubCluster(name: string, clusterSet: string, url: string, caBundle: Option<Bytes>, secondUrl: string)

  class Cluster {
    const turns: nat -> Turn
    var tick: nat
    var now: nat       // seconds
    var st: State
    var hub: seq<HubCluster>   // the requests to create a ManagedCluster that the ACM hub has got
    ghost var states: seq<State>
    ghost var events: seq<Event>

    constructor (s: State, turns: nat -> Turn)
      requires Init(s)
      ensures Valid() && st == s && this.turns == turns && states == [s] && events == []
    {
      this.turns := turns;
      tick, now, st, hub := 0, 0, s, [];
      states, events := [s], [];
      InitialInvariant(s);
    }

    ghost predicate Valid()
      reads this
    {
      Run(states, events) && states[|events|] == st && Inv(st)
    }

    /** The run goes on from an earlier point. */
    ghost predicate Since(ss: seq<State>, es: seq<Event>)
      reads this
    {
      ss <= states && es <= events
    }

    /** The run goes on, and the keys outside `f` are left to the environment. */
    twostate predicate Moved(f: iset<Key>)
      reads this
    {
      && Valid() && Since(old(states), old(events)) && Steady(old(st), st, f) && old(hub) <= hub && old(now) <= now && old(tick) <= tick
      && SameAuthority(old(st), st)
    }

    /** The same, and nothing is sent to the ACM hub. */
    twostate predicate Went(f: iset<Key>)
      reads this
    {
      Moved(f) && hub == old(hub)
    }

    /** The Klusterlet has been Available in this stretch of the run. */
    twostate predicate SawAvailable()
      reads this
    {
      AvailableIn(states, |old(states)|)
    }

    /** In this stretch of the run the pass on this copy of the CR has reached all that its spec asks for. */
    twostate predicate SawSuccess(cr: Relocation)
      reads this
    {
      exists i :: |old(states)| <= i + 1 && 0 <= i < |states| && states[i].active == Some(cr) && Successful(states[i])
    }

    /** Others have stepped; after that, this write to the CR is all that may have happened. */
    twostate predicate Updated(w: Write)
      reads this
    {
      exists s :: Steady(old(st), s, NOTHING) && (st == s || st == Effect(s, w))
    }

    lemma LastState()
      requires Valid()
      ensures |states| == |events| + 1 && states[|states| - 1] == st && states[|events|] == st
    {
    }

    /** A pass past the gate, for this copy of the CR. */
    ghost predicate Works(cr: Relocation)
      reads this
    {
      Valid() && Applying(st) && st.active == Some(cr)
    }

    /** From now on nobody else acts. */
    ghost predicate Calm()
      reads this`tick
    {
      forall n :: n >= tick ==> turns(n).env == []
    }

    /** From now on time passes only while the operator sleeps. */
    ghost predicate Prompt()
      reads this`tick
    {
      forall n :: n >= tick ==> turns(n).delay == 0
    }

    /** From now on nobody else acts, every call succeeds and every check of the outside world is favourable. */
    ghost predicate Faultless()
      reads this`tick
    {
      Calm() && forall n :: n >= tick ==> turns(n).fate == Fine
    }

    /** How many objects have been created or updated. */
    ghost function Puts(): nat
      reads this
    {
      Tally(events, IsPut)
    }

    /** How many of the users' secrets have been deleted by the operator. */
    ghost function Drops(): nat
      reads this
    {
      Tally(events, IsDrop)
    }

    /** How often the Klusterlet or the import secret has been asked for. */
    ghost function Looks(): nat
      reads this
    {
      Tally(events, IsLook)
    }

    /** From now on the hub hands out the same documents, whatever it is asked. */
    ghost predicate Willing()
      reads this`tick
    {
      turns(tick).hub.HubOk? && forall n :: n >= tick ==> turns(n).hub == turns(tick).hub
    }

    /** The operator has written nothing. */
    twostate predicate Looked()
      reads this
    {
      Went(NOTHING) && Puts() == old(Puts()) && Drops() == old(Drops())
    }

    /** There was nothing to create or update, and nothing has changed but what the pass knows of the Klusterlet. */
    twostate predicate Kept()
      reads this
    {
      st == old(st).(seenAvailable := st.seenAvailable) && Puts() == old(Puts())
    }

    /** There was nothing to write. */
    twostate predicate Rested()
      reads this
    {
      st == old(st) && Puts() == old(Puts())
    }

    ghost method Record(e: Event)
      requires Run(states, events) && states[|events|] == st && Legal(st, e)
      modifies this`states, this`events
      ensures Run(states, events) && |events| == |old(events)| + 1 && states[|events|] == Step(st, e)
      ensures Since(old(states), old(events)) && events == old(events) + [e]
      ensures Puts() == old(Puts()) + if IsPut(e) then 1 else 0
      ensures Drops() == old(Drops()) + if IsDrop(e) then 1 else 0
      ensures Looks() == old(Looks()) + if IsLook(e) then 1 else 0
    {
      hide Legal, Step;
      assert (events + [e])[..|events|] == events;
      states, events := states + [Step(st, e)], events + [e];
    }

    /** One step of somebody else. */
    method Interfere(a: EnvAction)
      requires Valid()
      modifies this`st, this`states, this`events
      ensures Looked() && st == EnvStep(old(st), a) && events == old(events) + [EnvEvent(a)] && Looks() == old(Looks())
    {
      hide Run, Inv, Steady, EnvStep;
      Record(EnvEvent(a));
      EnvKeepsInvariant(st, a);
      EnvIsSteady(st, a);
      SteadyAuthority(st, EnvStep(st, a), NOTHING);
      st := EnvStep(st, a);
    }

    /** The environment steps, and the call gets its fate. */
    method NextTurn() returns (t: Turn)
      requires Valid()
      modifies this
      ensures Looked()
      ensures forall w :: Licence(old(st), w) ==> Licence(st, w)
      ensures old(Calm()) ==> st == old(st)
      ensures old(Faultless()) ==> t.fate == Fine
      ensures t == turns(old(tick)) && tick == old(tick) + 1 && now == old(now) + t.delay
      ensures OnlyDeletes(old(events), events, {}) && Looks() == old(Looks())
    {
      hide Run, Inv, Steady, Licence;
      t := turns(tick);
      tick := tick + 1;
      now := now + t.delay;
      var i := 0;
      SteadyReflexive(st);
      while i < |t.env|
        invariant 0 <= i <= |t.env|
        invariant Looked()
        invariant t.env == [] ==> st == old(st)
        invariant tick == old(tick) + 1 && now == old(now) + t.delay
        invariant OnlyDeletes(old(events), events, {}) && Looks() == old(Looks())
      {
        ghost var before := st;
        Interfere(t.env[i]);
        SteadyJoin(old(st), before, st, NOTHING, NOTHING, NOTHING);
        i := i + 1;
      }
      forall w | Licence(old(st), w) ensures Licence(st, w) {
        SteadyKeepsLicence(old(st), st, w);
      }
    }

    /** The answer to a question goes on record. */
    ghost method Note(q: Question, answer: bool)
      requires Valid()
      modifies this`states, this`events
      ensures Looked() && st == old(st) && events == old(events) + [OpEvent(Ask(q, answer))]
      ensures Looks() == old(Looks()) + if IsLook(OpEvent(Ask(q, answer))) then 1 else 0
    {
      hide Run, Inv, Steady, Effect;
      AskChangesNothing(st, q, answer);
      SteadyReflexive(st);
      SteadyAuthority(st, st, NOTHING);
      Record(OpEvent(Ask(q, answer)));
    }

    /** A check of the outside world: a name lookup, a TLS connection, the state of a ClusterOperator. */
    method Probe(q: Question) returns (ok: bool)
      requires Valid()
      modifies this
      ensures Looked() && OnlyDeletes(old(events), events, {})
      ensures ok ==> Answered(old(events), events, q)
      ensures old(Calm()) ==> st == old(st)
      ensures old(Faultless()) ==> ok
    {
      hide Run, Inv, Steady, Licence;
      var t := NextTurn();
      ok := t.fate == Fine;
      ghost var before := st;
      Note(q, ok);
      SteadyJoin(old(st), before, st, NOTHING, NOTHING, NOTHING);
    }

    /** time.Sleep for ten seconds. */
    method Sleep()
      requires Valid()
      modifies this
      ensures Looked()
      ensures old(Calm()) ==> st == old(st)
      ensures now >= old(now) + 10 && (old(Prompt()) ==> now == old(now) + 10)
      ensures Looks() == old(Looks())
    {
      hide Run, Inv, Steady, Licence;
      var t := NextTurn();
      now := now + 10;
    }

    /** The Klusterlet, and whether it is Available. */
    method GetKlusterlet() returns (r: Reply<bool>)
      requires Valid()
      modifies this
      ensures Looked()
      ensures old(Calm()) ==> st == old(st).(seenAvailable := st.seenAvailable)
      ensures r.Ok? ==> st.klusterlet == Some(r.value)
      ensures r == Ok(true) ==> st.seenAvailable
      ensures r.NotFound? ==> st.klusterlet == None
      ensures old(Faultless()) ==> !r.Failed?
      ensures old(Prompt()) ==> now == old(now)
      ensures Looks() == old(Looks()) + 1
    {
      hide Run, Inv, Steady, Licence, Effect;
      var t := NextTurn();
      if t.fate != Fine {
        ghost var asked := st;
        Note(KlusterletState, false);
        SteadyJoin(old(st), asked, st, NOTHING, NOTHING, NOTHING);
        return Failed;
      }
      ghost var before := st;
      ObserveIsSteady(st);
      Perform(Observe);
      SteadyAuthority(before, st, NOTHING);
      SteadyJoin(old(st), before, st, NOTHING, NOTHING, NOTHING);
      r := if st.klusterlet.Some? then Ok(st.klusterlet.value) else NotFound;
    }

    /** ClusterVersion "version". */
    method GetVersion() returns (r: Reply<SemVer.Version>)
      requires Valid()
      modifies this
      ensures Looked()
      ensures old(Calm()) ==> st == old(st)
      ensures r.Ok? ==> r.value == st.version
      ensures old(Faultless()) ==> r.Ok?
    {
      hide Run, Inv, Steady, Licence;
      var t := NextTurn();
      r := if t.fate == Fine then Ok(st.version) else Failed;
    }

    /** DNS "cluster". */
    method GetBaseDomain() returns (r: Reply<string>)
      requires Valid()
      modifies this
      ensures Looked()
      ensures old(Calm()) ==> st == old(st)
      ensures r.Ok? ==> r.value == st.baseDomain
      ensures old(Faultless()) ==> r.Ok?
    {
      hide Run, Inv, Steady, Licence;
      var t := NextTurn();
      r := if t.fate == Fine then Ok(st.baseDomain) else Failed;
    }

    /** Ask the hub to create a ManagedCluster. */
    method HubCreate(mc: HubCluster) returns (r: HubReply)
      requires Valid()
      modifies this
      ensures Moved(NOTHING) && Puts() == old(Puts()) && Drops() == old(Drops())
      ensures old(Calm()) ==> st == old(st)
      ensures hub == old(hub) + [mc] || (hub == old(hub) && r.HubError?)
      ensures old(Faultless()) ==> hub == old(hub) + [mc] && r == turns(old(tick)).hub
    {
      hide Run, Inv, Steady, Licence;
      var t := NextTurn();
      if t.fate == FailBefore { return HubError; }
      hub := hub + [mc];
      r := if t.fate == Fine then t.hub else HubError;
    }

    /** Any other call to the hub. */
    method HubCall(q: Question) returns (r: HubReply)
      requires Valid()
      modifies this
      ensures Looked()
      ensures old(Calm()) ==> st == old(st)
      ensures old(Prompt()) ==> now == old(now)
      ensures r.HubError? || r == turns(old(tick)).hub
      ensures old(Faultless()) ==> r == turns(old(tick)).hub
      ensures old(tick) < tick
      ensures !r.HubError? ==> Answered(old(events), events, q)
      ensures Looks() == old(Looks()) + if IsLook(OpEvent(Ask(q, true))) then 1 else 0
    {
      hide Run, Inv, Steady, Licence;
      var t := NextTurn();
      r := if t.fate == Fine then t.hub else HubError;
      ghost var before := st;
      Note(q, !r.HubError?);
      SteadyJoin(old(st), before, st, NOTHING, NOTHING, NOTHING);
    }

    method Get(k: Key) returns (r: Reply<Obj>)
      requires Valid()
      modifies this
      ensures Looked()
      ensures forall w :: Licence(old(st), w) ==> Licence(st, w)
      ensures r.Ok? ==> k in st.objs && st.objs[k] == r.value && Typed(k, r.value.body)
      ensures r.NotFound? ==> k !in st.objs
      ensures old(Calm()) ==> st == old(st)
      ensures old(Faultless()) ==> !r.Failed?
    {
      hide Run, Steady, Licence;
      var t := NextTurn();
      if t.fate != Fine {
        r := Failed;
      } else if k in st.objs {
        r := Ok(st.objs[k]);
      } else {
        r := NotFound;
      }
    }

    /** The object that a delete or an ownership update is about is gone. */
    static predicate Misses(s: State, w: Write) { (w.Del? || w.Adopt?) && w.key !in s.objs }

    /** The effect of a write of the operator. */
    method Perform(w: Write)
      requires Valid() && Licence(st, w)
      modifies this`st, this`states, this`events
      ensures Valid() && Since(old(states), old(events)) && st == Effect(old(st), w) && events == old(events) + [OpEvent(w)]
      ensures Puts() == old(Puts()) + if IsPut(OpEvent(w)) then 1 else 0
      ensures Drops() == old(Drops()) + if IsDrop(OpEvent(w)) then 1 else 0
      ensures Looks() == old(Looks()) + if IsLook(OpEvent(w)) then 1 else 0
    {
      hide Run, Inv, Licence, Effect;
      Record(OpEvent(w));
      WriteKeepsInvariant(st, w);
      st := Effect(st, w);
    }

    /** The effect of a write to an object. */
    method Commit(w: Write)
      requires Valid() && ObjectWrite(w) && Licence(st, w)
      modifies this`st, this`states, this`events
      ensures Went(iset{w.key})
      ensures st == Effect(old(st), w) && Landed(st, w) && events == old(events) + [OpEvent(w)]
      ensures !w.Put? ==> Puts() == old(Puts())
      ensures !IsDrop(OpEvent(w)) ==> Drops() == old(Drops())
      ensures Looks() == old(Looks())
    {
      hide Run, Inv, Steady, Licence, Effect, Landed;
      WriteIsSteady(st, w);
      SteadyAuthority(st, Effect(st, w), iset{w.key});
      WriteLands(st, w);
      Perform(w);
    }

    /** A write to an object. */
    method Send(w: Write) returns (r: Reply<()>)
      requires Valid() && ObjectWrite(w) && Licence(st, w)
      modifies this
      ensures Went(iset{w.key})
      ensures r.Ok? ==> Landed(st, w)
      ensures Landed(st, w) || Steady(old(st), st, NOTHING)
      ensures !w.Put? ==> Puts() == old(Puts())
      ensures !IsDrop(OpEvent(w)) ==> Drops() == old(Drops())
      ensures w.Del? ==> OnlyDeletes(old(events), events, {w.key})
      ensures Looks() == old(Looks())
      ensures r.NotFound? ==> w.key !in st.objs && (w.Del? || w.Adopt?)
      ensures old(Calm()) && r.Ok? ==> st == Effect(old(st), w) && !Misses(old(st), w)
      ensures old(Calm()) && r.NotFound? ==> st == old(st) && Misses(st, w)
      ensures old(Calm()) ==> st == old(st) || st == Effect(old(st), w)
      ensures old(Faultless()) ==> r == if Misses(old(st), w) then NotFound else Ok(())
      ensures old(Prompt()) ==> now == old(now)
    {
      hide Run, Inv, Steady, Licence, Effect, Landed;
      var t := NextTurn();
      ghost var before := st;
      SteadyJoin(old(st), st, st, NOTHING, NOTHING, iset{w.key}) by { SteadyReflexive(st); }
      if t.fate == FailBefore {
        return Failed;
      }
      if Misses(st, w) {
        return if t.fate == Fine then NotFound else Failed;
      }
      Commit(w);
      SteadyJoin(old(st), before, st, NOTHING, iset{w.key}, iset{w.key});
      r := if t.fate == Fine then Ok(()) else Failed;
    }

    /** controllerutil.CreateOrUpdate and CreateOrPatch: read, change, and write only what differs. A controller
        reference is refused when another controller owns the object. */
    method CreateOrUpdate(key: Key, body: Body, own: bool) returns (ok: bool, outcome: Outcome)
      requires Valid() && Licence(st, Put(key, body, own))
      modifies this
      ensures Went(iset{key})
      ensures ok ==> Landed(st, Put(key, body, own))
      ensures old(Calm()) && ok ==> st == Effect(old(st), Put(key, body, own)) && !Blocked(old(st), Put(key, body, own))
      ensures old(Calm()) ==> st == old(st) || st == Effect(old(st), Put(key, body, own))
      ensures old(Calm()) && Effect(old(st), Put(key, body, own)) == old(st) ==> outcome == Unchanged
      ensures outcome == Unchanged ==> Puts() == old(Puts())
      ensures Drops() == old(Drops())
      ensures old(Faultless()) ==> ok == !Blocked(old(st), Put(key, body, own))
    {
      hide Run, Inv, Steady, Licence, Landed;
      var r := Get(key);
      SteadyJoin(old(st), st, st, NOTHING, NOTHING, iset{key}) by { SteadyReflexive(st); }
      outcome := Unchanged;
      if r.Failed? || (r.Ok? && own && r.value.owners.ForeignController()) {
        return false, outcome;
      }
      var w := Put(key, body, own);
      if r.Ok? && PutObj(st, key, body, own) == r.value {
        NoOperation(st, w);
        return true, outcome;
      }
      ghost var before := st;
      var sent := Send(w);
      SteadyJoin(old(st), before, st, NOTHING, iset{key}, iset{key});
      ok, outcome := sent.Ok?, Written;
    }

    /* ------------------------------------------------- the CR of the pass */

    /** Read the ClusterRelocation that the pass is about. */
    method GetCr(name: CrName) returns (r: Reply<Relocation>)
      requires Valid() && st.active.None?
      modifies this
      ensures Valid() && Since(old(states), old(events)) && hub == old(hub)
      ensures r.Ok? ==> name in st.crs && st.crs[name] == r.value && r.value.name == name && st.active == Some(r.value)
      ensures !r.Ok? ==> st.active.None?
      ensures r.NotFound? ==> name !in st.crs
      ensures old(Calm()) && !r.Ok? ==> st == old(st)
      ensures old(Calm()) && r.Ok? ==>
                st == old(st).(active := Some(r.value), held := UserBodies(old(st)), seenAvailable := false)
      ensures Puts() == old(Puts()) && old(tick) <= tick
      ensures old(Faultless()) ==> r == if name in old(st).crs then Ok(old(st).crs[name]) else NotFound
    {
      hide Run, Inv, Steady, Configured, PutLicence, DelLicence;
      var t := NextTurn();
      if t.fate != Fine { return Failed; }
      if name !in st.crs { return NotFound; }
      r := Ok(st.crs[name]);
      CrNames(st, name);
      Perform(Begin(name));
    }

    /** The pass is over. */
    method EndPass()
      requires Valid()
      modifies this`st, this`states, this`events
      ensures Valid() && Since(old(states), old(events))
      ensures st == old(st).(active := None, held := {}, seenAvailable := false)
      ensures Puts() == old(Puts())
    {
      hide Run, Inv;
      Perform(End);
    }

    /** Update the CR or its status. The API server refuses the update of a copy that is no longer current. */
    method UpdateCr(w: Write) returns (ok: bool, ghost before: State)
      requires Valid() && Licence(st, w) && (w.AddFinalizer? || w.RemoveFinalizer? || w.SetStatus?)
      modifies this
      ensures Valid() && Since(old(states), old(events)) && hub == old(hub)
      ensures Steady(old(st), before, NOTHING) && Inv(before) && Licence(before, w)
      ensures ok ==> Protocol.Unchanged(before) && st == Effect(before, w)
      ensures Updated(w)
      ensures old(Calm()) ==> before == old(st)
      ensures Puts() == old(Puts()) && old(tick) <= tick
      ensures old(Calm()) ==> st == old(st) || st == Effect(old(st), w)
      ensures old(Faultless()) ==> ok == Protocol.Unchanged(old(st))
    {
      hide Run, Inv, Steady, Licence, Effect;
      var t := NextTurn();
      before := st;
      if t.fate == FailBefore || !Protocol.Unchanged(st) { return false, before; }
      Perform(w);
      ok := t.fate == Fine;
    }

    /** Delete the CR with orphaning propagation. */
    method DeleteOrphaning() returns (ok: bool)
      requires Valid() && Licence(st, OrphanDelete)
      modifies this
      ensures Valid() && Since(old(states), old(events)) && hub == old(hub) && st.active == old(st).active
      ensures Superseded(st) || Steady(old(st), st, NOTHING)
      ensures ok ==> Superseded(st)
      ensures Puts() == old(Puts()) && old(tick) <= tick
      ensures old(Calm()) ==> st == old(st) || st == Effect(old(st), OrphanDelete)
      ensures old(Faultless()) ==> ok
    {
      hide Run, Inv, Steady, Licence, Effect, Superseded;
      var t := NextTurn();
      if t.fate == FailBefore { return false; }
      OrphanSupersedes(st);
      Perform(OrphanDelete);
      ok := t.fate == Fine;
    }

    /** List the objects of a kind. */
    method List(p: Key -> bool) returns (r: Reply<map<Key, Obj>>)
      requires Valid()
      modifies this
      ensures Looked() && OnlyDeletes(old(events), events, {})
      ensures r.Ok? ==> r.value == Listing(st, p) && forall k :: k in r.value ==> p(k) && Typed(k, r.value[k].body)
      ensures old(Calm()) ==> st == old(st)
      ensures old(Faultless()) ==> r.Ok?
    {
      hide Run, Steady, Licence;
      var t := NextTurn();
      r := if t.fate == Fine then Ok(Listing(st, p)) else Failed;
    }
  }

  lemma CrNames(s: State, name: CrName)
    requires Inv(s) && name in s.crs
    ensures s.crs[name].name == name
  {
  }

  /** An orphaning deletion makes the copy of the pass outdated. */
  lemma OrphanSupersedes(s: State)
    requires Inv(s) && Licence(s, OrphanDelete)
    ensures Superseded(Effect(s, OrphanDelete)) && Effect(s, OrphanDelete).active == s.active
  {
    assert NoNewer(s.active.value, s.crs[ClusterName]);
  }

  predicate IsPut(e: Event) { e.OpEvent? && e.write.Put? }

  predicate IsDrop(e: Event) { e.OpEvent? && e.write.Del? && UserKey(e.write.key) }

  predicate IsLook(e: Event) {
    e.OpEvent? && (e.write.Observe? || (e.write.Ask? && (e.write.question.KlusterletState? || e.write.question.ImportSecretOf?)))
  }

  /** The Klusterlet was Available in some state of the run from this point on. */
  ghost predicate AvailableIn(ss: seq<State>, from: nat) {
    exists i :: from <= i + 1 && 0 <= i < |ss| && ss[i].klusterlet == Some(true)
  }

  lemma AvailableStill(ss: seq<State>, from: nat, tt: seq<State>, earlier: nat)
    requires ss <= tt && earlier <= from
    ensures AvailableIn(ss, from) ==> AvailableIn(tt, earlier)
  {
  }

  /** This question has been asked in between, and answered well. */
  ghost predicate Answered(before: seq<Event>, after: seq<Event>, q: Question) {
    exists i :: |before| <= i < |after| && after[i] == OpEvent(Ask(q, true))
  }

  /** What was answered in a part of a run was answered in the whole. */
  lemma AnswersGrow(es: seq<Event>, fs: seq<Event>, gs: seq<Event>)
    requires es <= fs <= gs
    ensures forall q :: Answered(es, fs, q) || Answered(fs, gs, q) ==> Answered(es, gs, q)
  {
  }

  /** How many of the events are of this kind. */
  ghost function Tally(es: seq<Event>, kind: Event -> bool): nat {
    if es == [] then 0 else Tally(es[..|es| - 1], kind) + if kind(es[|es| - 1]) then 1 else 0
  }

  /** Equal counts mean that no such event has come in between. */
  lemma {:induction false} NoneBetween(es: seq<Event>, more: seq<Event>, kind: Event -> bool)
    requires es <= more
    ensures Tally(es, kind) <= Tally(more, kind)
    ensures Tally(es, kind) == Tally(more, kind) ==> forall i :: |es| <= i < |more| ==> !kind(more[i])
    decreases |more|
  {
    if es == more {
      assert more[..|more|] == more;
    } else {
      NoneBetween(es, more[..|more| - 1], kind);
    }
  }

  /** Reading the Klusterlet changes nothing but what the pass knows. */
  lemma ObserveIsSteady(s: State)
    ensures Licence(s, Observe) && Steady(s, Effect(s, Observe), NOTHING)
    ensures Effect(s, Observe) == s.(seenAvailable := s.seenAvailable || s.klusterlet == Some(true))
  {
    assert Effect(s, Observe) == s.(seenAvailable := s.seenAvailable || s.klusterlet == Some(true));
    hide Effect, Collectable, PartOf;
  }

  /** All that the operator has written in between are deletions of these objects. */
  ghost predicate OnlyDeletes(before: seq<Event>, after: seq<Event>, ks: set<Key>) {
    forall i :: |before| <= i < |after| && after[i].OpEvent? && !after[i].write.Ask? ==>
      after[i].write.Del? && after[i].write.key in ks
  }

  lemma DeletesJoin(es: seq<Event>, fs: seq<Event>, gs: seq<Event>, ks: set<Key>, ls: set<Key>, all: set<Key>)
    requires fs <= gs && ks <= all && ls <= all
    requires OnlyDeletes(es, fs, ks) && OnlyDeletes(fs, gs, ls)
    ensures OnlyDeletes(es, gs, all)
  {
  }

  /** The object was not there in some state of the run from this point on. */
  ghost predicate WasGone(ss: seq<State>, from: nat, k: Key) {
    exists j :: from <= j + 1 && 0 <= j < |ss| && k !in ss[j].objs
  }

  lemma AskChangesNothing(s: State, q: Question, answer: bool)
    ensures Licence(s, Ask(q, answer)) && Effect(s, Ask(q, answer)) == s
  {
  }

  function Listing(s: State, p: Key -> bool): map<Key, Obj> {
    map k | k in s.objs && p(k) :: s.objs[k]
  }
}
