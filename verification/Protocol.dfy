/** The steps of a run: what everybody else may do to the cluster, what the operator may write and when,
    and the invariant that all of these steps keep. */
module Protocol {
  import opened Types
  import opened Store
  import opened Goals
  import SemVer

  /* ---------------------------------------------------------- environment */

  /** One step of users, of the garbage collector or of another controller. */
  datatype EnvAction =
    | CreateCr(name: CrName, spec: Spec, selfDestruct: Option<string>)
    | EditSpec(name: CrName, spec: Spec)
    | Annotate(name: CrName, selfDestruct: Option<string>)
    | DeleteCr(name: CrName)                   // background propagation
    | Orphan(key: Key)                         // one dependent of an orphaning deletion loses its reference
    | OrphanDone                               // the orphan finalizer is removed
    | Collect(key: Key)                        // the garbage collector takes an object
    | PutSecret(key: Key, data: Data, kind: SecretType)
    | DeleteSecret(key: Key)
    | PutForeign(key: Key, obj: Obj)           // routes, catalog sources and manifests of others
    | DeleteForeign(key: Key)
    | Upgrade(version: SemVer.Version)
    | SetKlusterlet(available: Option<bool>)

  /** The API certificate that the spec names where the user put it does not await garbage collection. */
  predicate InPlaceFirm(s: State, sp: Spec) {
    forall k :: k in s.objs && sp.InPlace(k) ==> Firm(s, k)
  }

  predicate EnvEnabled(s: State, a: EnvAction) {
    match a
    case CreateCr(name, spec, _) => name !in s.crs && spec.WellFormed()
    case EditSpec(name, spec) => name in s.crs && spec.WellFormed()
    case Annotate(name, _) => name in s.crs && !s.crs[name].deleting
    case DeleteCr(name) => name in s.crs && !s.crs[name].SelfDestructs()
    case Orphan(key) =>
      && ClusterName in s.crs && OrphanFinalizer in s.crs[ClusterName].finalizers
      && key in s.objs && s.objs[key].owners.cr.Some? && s.objs[key].owners.cr.value.uid == s.crs[ClusterName].uid
    case OrphanDone =>
      && ClusterName in s.crs && OrphanFinalizer in s.crs[ClusterName].finalizers
      && Stripped(s, s.crs[ClusterName].uid)
    case Collect(key) => key in s.objs && Collectable(s, s.objs[key])
    case PutSecret(key, _, kind) =>
      UserKey(key) && (key in s.objs ==> s.objs[key].body.SecretBody? && s.objs[key].body.kind == kind)
    case DeleteSecret(key) => UserKey(key) && key in s.objs
    case PutForeign(key, obj) =>
      && (key.Route? || key.Catalog? || key.Manifest?) && Typed(key, obj.body)
      && !CrOwned(s, key) && obj.owners.cr.None?
    case DeleteForeign(key) => (key.Route? || key.Catalog? || key.Manifest?) && key in s.objs && !CrOwned(s, key)
    case Upgrade(version) => SemVer.Compare(version, s.version) != SemVer.Less
    case SetKlusterlet(_) => true
  }

  /** The cluster configuration names this secret, or the running pass is about to name it. */
  predicate Pinned(s: State, k: Key) {
    Referenced(s, k) || (s.active.Some? && s.active.value.spec.InPlace(k))
  }

  /** A CR whose deletion is requested goes as soon as it has no finalizer left. */
  function Stored(crs: map<CrName, Relocation>, cr: Relocation): map<CrName, Relocation> {
    if cr.deleting && cr.finalizers == {} then crs - {cr.name} else crs[cr.name := cr]
  }

  /** Setting the deletion timestamp counts as a new generation. */
  function MarkDeleted(cr: Relocation): Relocation {
    if cr.deleting then cr else cr.(deleting := true, generation := cr.generation + 1)
  }

  /** What a step does to the objects. */
  function EnvObjs(s: State, a: EnvAction): map<Key, Obj>
    requires EnvEnabled(s, a)
  {
    match a
    case Orphan(key) => s.objs[key := s.objs[key].(owners := s.objs[key].owners.(cr := None))]
    case Collect(key) => s.objs - {key}
    case PutSecret(key, data, kind) =>
      s.objs[key := Obj(if key in s.objs then s.objs[key].owners else NO_OWNERS, SecretBody(data, kind))]
    case DeleteSecret(key) => s.objs - {key}
    case PutForeign(key, obj) => s.objs[key := obj]
    case DeleteForeign(key) => s.objs - {key}
    case _ => s.objs
  }

  /** What a step does to the ClusterRelocations. */
  function EnvCrs(s: State, a: EnvAction): map<CrName, Relocation>
    requires EnvEnabled(s, a)
  {
    match a
    case CreateCr(name, spec, selfDestruct) =>
      s.crs[name := Relocation(name, s.nextUid, 1, false, {}, selfDestruct, spec, None, None)]
    case EditSpec(name, spec) => s.crs[name := s.crs[name].(spec := spec, generation := s.crs[name].generation + 1)]
    case Annotate(name, selfDestruct) => s.crs[name := s.crs[name].(selfDestruct := selfDestruct)]
    case DeleteCr(name) => Stored(s.crs, MarkDeleted(s.crs[name]))
    case OrphanDone => Stored(s.crs, s.crs[ClusterName].(finalizers := s.crs[ClusterName].finalizers - {OrphanFinalizer}))
    case _ => s.crs
  }

  function EnvEffect(s: State, a: EnvAction): State
    requires EnvEnabled(s, a)
  {
    s.(objs := EnvObjs(s, a),
       crs := EnvCrs(s, a),
       nextUid := if a.CreateCr? then s.nextUid + 1 else s.nextUid,
       version := if a.Upgrade? then a.version else s.version,
       klusterlet := if a.SetKlusterlet? then a.available else s.klusterlet,
       held := if a.PutSecret? && s.active.Some? then s.held + {(a.key, SecretBody(a.data, a.kind))} else s.held,
       inPlaceSafe := s.inPlaceSafe && (a.CreateCr? || a.EditSpec? ==> InPlaceFirm(s, a.spec))
         && (a.DeleteSecret? ==> !Pinned(s, a.key)))
  }

  function EnvStep(s: State, a: EnvAction): State {
    if EnvEnabled(s, a) then EnvEffect(s, a) else s
  }

  /* ---------------------------------------------------------- the operator */

  /** What the operator asks of the outside world, or has done there. */
  datatype Question =
    | Nodes                           // the list of nodes, and the address of the first
    | PoolUpdated                     // the MachineConfigPool has the new MachineConfig
    | Address(host: string)           // net.LookupIP
    | DomainAnswers(domain: string)   // verifyDomain: certificates of the domain are served, operators have settled
    | OperatorSettled(name: string)   // WaitForCO
    | MarketplaceReady                // labels and annotations of the namespace openshift-marketplace
    | MirrorSetsWatched               // a watch on ImageDigestMirrorSets
    | HubReachable                    // a client for the ACM hub
    | ImportSecretOf(cluster: string)
    | AddonsFor(cluster: string)
    | KlusterletState
    | OperatorRemoved                 // the Subscription and the ClusterServiceVersion of the operator

  /** One write of the operator. The reading of the CR that starts a pass, the reading of the Klusterlet, and the end of
      a pass count as writes of what the pass knows; a question and its answer change nothing. */
  datatype Write =
    | Put(key: Key, body: Body, own: bool)     // create or update; `own` makes the CR its controller
    | Create(key: Key, body: Body)             // create if absent; an object that exists already is left alone
    | Adopt(key: Key)                          // non-controller ownership of a user's secret
    | Del(key: Key)
    | Begin(name: CrName)
    | Observe
    | Ask(question: Question, answer: bool)
    | End
    | AddFinalizer
    | RemoveFinalizer
    | SetStatus(ready: Option<Condition>, reconciled: Option<Condition>)
    | OrphanDelete

  /** A pass on the CR "cluster", which is stored with the finalizer. */
  predicate Started(s: State) {
    && s.active.Some?
    && s.active.value.name == ClusterName
    && !s.active.value.deleting
    && Alive(s, s.active.value.uid)
    && s.crs[ClusterName].Guarded()
  }

  /** A pass that is past the gate of Reconcile. */
  predicate Applying(s: State) {
    && Started(s)
    && s.active.value.Gated()
    && OrphanFinalizer !in s.crs[ClusterName].finalizers
    && Holder(s.crs[ClusterName])
  }

  predicate Holder(cr: Relocation) {
    cr.Guarded() && !(cr.deleting && cr.SelfDestructs())
  }

  /** A pass that finalises a CR whose deletion is not a self-destruction. */
  predicate Finalising(s: State) {
    && s.active.Some?
    && s.active.value.deleting
    && s.active.value.Guarded()
    && !s.active.value.SelfDestructs()
    && s.active.value.name in s.crs
    && s.crs[s.active.value.name].deleting
    && s.crs[s.active.value.name].Guarded()
    && !s.crs[s.active.value.name].SelfDestructs()
  }

  predicate NewConditionOk(a: Relocation, before: Option<Condition>, after: Option<Condition>) {
    && (after.Some? ==> after.value.observed <= a.generation)
    && (before.Some? ==> after.Some? && before.value.observed <= after.value.observed)
  }

  /** A reference may name this. The operator's own objects exist, the garbage collector cannot take them, and users leave
      them alone; a certificate named in place is what the user makes of it. */
  predicate Sound(s: State, k: Key) {
    || (Firm(s, k) && (TlsKey(k) || k.RegistryConfigMap?))
    || (UserKey(k) && s.active.Some? && s.active.value.spec.InPlace(k) && (s.inPlaceSafe ==> Firm(s, k)))
  }

  /** The secret that the ingress reads is one of the operator's own. */
  predicate SoundOwn(s: State, k: Key) { TlsKey(k) && Sound(s, k) }

  /** When the operator may write. Every licence survives whatever the environment does before the write arrives. */
  ghost predicate Licence(s: State, w: Write) {
    match w
    case Put(key, body, own) => Typed(key, body) && PutLicence(s, key, body, own)
    case Create(key, body) => Applying(s) && key.Manifest? && Typed(key, body)
    case Adopt(key) => Applying(s) && UserKey(key) && s.active.value.spec.Copies(key)
    case Del(key) => DelLicence(s, key)
    case Begin(name) => s.active.None?
    case Observe | Ask(_, _) | End => true
    case AddFinalizer => s.active.Some? && !s.active.value.deleting
    case RemoveFinalizer =>
      && s.active.Some? && s.active.value.deleting
      && (s.active.value.name == ClusterName ==> !Dirty(s) || s.active.value.SelfDestructs())
    case SetStatus(ready, reconciled) =>
      && s.active.Some?
      && NewConditionOk(s.active.value, s.active.value.ready, ready)
      && NewConditionOk(s.active.value, s.active.value.reconciled, reconciled)
      && (reconciled.Some? && reconciled.value.status ==>
            || reconciled == s.active.value.reconciled
            || (Successful(s) && reconciled.value.observed == s.active.value.generation)
            || Superseded(s))   // the write is going to be refused
    case OrphanDelete => Successful(s) && s.active.value.SelfDestructs()
  }

  /** A generated pair has the name of the domain, and is replaced only when the one before had another name. */
  predicate Renews(s: State, key: Key, body: Body) {
    s.active.Some? && PairName(key, s.active.value.spec).Some? ==>
      var name := PairName(key, s.active.value.spec).value;
      && TlsCrt in DataOf(body) && CommonName(DataOf(body)[TlsCrt]) == Some(name)
      && Whole(DataOf(body))
      && (HasPair(s, key, name) ==> DataOf(s.objs[key].body) == DataOf(body))
  }

  /** A pass past the gate that has reached what its spec asks for. */
  ghost predicate Successful(s: State) {
    Applying(s) && Configured(s, s.active.value.spec) && Registered(s, s.active.value.spec)
  }

  ghost predicate PutLicence(s: State, key: Key, body: Body, own: bool)
    requires Typed(key, body)
  {
    match key
    case SecretKey(_, _) =>
      if key == BACKUP then
        // the first backup holds what the live pull secret holds
        own && Applying(s) && BACKUP !in s.objs && LIVE in s.objs && s.objs[LIVE].body == body
      else if key == LIVE then
        // the live pull secret is replaced only while a backup exists
        !own && (Applying(s) || Finalising(s)) && BACKUP in s.objs
      else
        own && Applying(s) && TlsKey(key) && Renews(s, key, body)
    case RegistryConfigMap => own && Applying(s)
    case ApiServer =>
      // references name only what exists and stays
      && !own
      && (body.named == [] ==> Applying(s) || Finalising(s))
      && (body.named != [] ==> Applying(s))
      && (forall i :: 0 <= i < |body.named| ==> body.named[i].names != [] && Sound(s, SecretKey(OpenshiftConfig, body.named[i].secret)))
    case IngressController =>
      && !own
      && (body.defaultCert.None? ==> Applying(s) || Finalising(s))
      && (body.defaultCert.Some? ==> Applying(s) && SoundOwn(s, SecretKey(OpenshiftIngress, body.defaultCert.value)))
    case IngressConfig =>
      && !own
      && (body == IngressBody("", []) ==> Applying(s) || Finalising(s))
      && (body != IngressBody("", []) ==> Applying(s))
      && (forall i :: 0 <= i < |body.routes| ==> SoundOwn(s, SecretKey(OpenshiftConfig, body.routes[i].secret)))
    case ImageConfig =>
      && !own
      && (if body.trustedCA then Applying(s) && Sound(s, RegistryConfigMap) else Applying(s) || Finalising(s))
    case SshConfig(_) => own && Applying(s)
    case DnsConfig => own && Applying(s)
    case Catalog(_) => own && Applying(s)
    case Icsp => own && Applying(s) && !s.modern
    case Idms => own && Applying(s) && Icsp !in s.objs && !SemVer.Legacy(s.version)
    case Route(_, _) | Manifest(_) => false
  }

  ghost predicate DelLicence(s: State, key: Key) {
    match key
    case SecretKey(_, _) =>
      if key == BACKUP then
        (Applying(s) || Finalising(s)) && (BACKUP in s.objs ==> LIVE in s.objs && s.objs[LIVE].body == s.objs[BACKUP].body)
      else
        // the ACM credential
        Applying(s) && UserKey(key) && s.seenAvailable && !Pinned(s, key)
    case SshConfig(_) => Applying(s)
    case Catalog(_) | Icsp | Idms => Applying(s)
    case Route(_, _) => Applying(s) || Finalising(s)
    case _ => false
  }

  /** Optimistic concurrency: the stored CR is still the one the pass works from. */
  predicate Unchanged(s: State) {
    s.active.Some? && s.active.value.name in s.crs && s.crs[s.active.value.name] == s.active.value
  }

  /** The stored CR has moved on for good. */
  predicate Superseded(s: State) {
    s.active.Some? && s.active.value.name in s.crs ==>
      var cr := s.crs[s.active.value.name];
      cr.uid != s.active.value.uid || cr.generation > s.active.value.generation
  }

  function OwnersAt(s: State, k: Key): Owners {
    if k in s.objs then s.objs[k].owners else NO_OWNERS
  }

  /** The object that a Put leaves behind. */
  function PutObj(s: State, key: Key, body: Body, own: bool): Obj {
    Obj(if own && s.active.Some? then OwnersAt(s, key).Upsert(CrRef(s.active.value.uid, true)) else OwnersAt(s, key), body)
  }

  /** What a write does to the objects. */
  function ObjsAfter(s: State, w: Write): map<Key, Obj> {
    match w
    case Put(key, body, own) => s.objs[key := PutObj(s, key, body, own)]
    case Create(key, body) => if key in s.objs then s.objs else s.objs[key := Obj(NO_OWNERS, body)]
    case Adopt(key) =>
      if key in s.objs && s.active.Some?
      then s.objs[key := s.objs[key].(owners := s.objs[key].owners.Upsert(CrRef(s.active.value.uid, false)))]
      else s.objs
    case Del(key) => s.objs - {key}
    case _ => s.objs
  }

  /** What a write does to the ClusterRelocations. */
  function CrsAfter(s: State, w: Write): map<CrName, Relocation> {
    match w
    case AddFinalizer => if Unchanged(s) then Stored(s.crs, WithFinalizer(s.active.value)) else s.crs
    case RemoveFinalizer => if Unchanged(s) then Stored(s.crs, WithoutFinalizer(s.active.value)) else s.crs
    case SetStatus(ready, reconciled) =>
      if Unchanged(s) then s.crs[s.active.value.name := s.active.value.(ready := ready, reconciled := reconciled)] else s.crs
    case OrphanDelete => if ClusterName in s.crs then s.crs[ClusterName := Orphaning(s.crs[ClusterName])] else s.crs
    case _ => s.crs
  }

  function WithFinalizer(cr: Relocation): Relocation { cr.(finalizers := cr.finalizers + {RelocationFinalizer}) }

  function WithoutFinalizer(cr: Relocation): Relocation { cr.(finalizers := cr.finalizers - {RelocationFinalizer}) }

  /** A deletion with orphaning propagation has been requested. */
  function Orphaning(cr: Relocation): Relocation {
    MarkDeleted(cr).(finalizers := cr.finalizers + {OrphanFinalizer})
  }

  /** The copy of the CR that the pass works from. */
  function ActiveAfter(s: State, w: Write): Option<Relocation> {
    match w
    case Begin(name) => if name in s.crs then Some(s.crs[name]) else s.active
    case End => None
    case AddFinalizer => if Unchanged(s) then Some(WithFinalizer(s.active.value)) else s.active
    case _ => s.active
  }

  /** What the pass knows of the users' secrets. */
  function HeldAfter(s: State, w: Write): set<(Key, Body)> {
    match w
    case Begin(_) => UserBodies(s)
    case End => {}
    case _ => s.held
  }

  /** What the pass knows of the Klusterlet. */
  predicate SeenAfter(s: State, w: Write) {
    match w
    case Begin(_) => false
    case Observe => s.seenAvailable || s.klusterlet == Some(true)
    case End => false
    case _ => s.seenAvailable
  }

  /** The finalizer of the stored CR "cluster" is given to it, or given up. */
  predicate MovesFinalizer(s: State, w: Write) {
    (w.AddFinalizer? || w.RemoveFinalizer?) && Unchanged(s) && s.active.value.name == ClusterName
  }

  function Effect(s: State, w: Write): State {
    s.(objs := ObjsAfter(s, w),
       crs := CrsAfter(s, w),
       active := ActiveAfter(s, w),
       held := HeldAfter(s, w),
       seenAvailable := SeenAfter(s, w),
       modern := s.modern || (w.Put? && w.key == Idms),
       retained := if MovesFinalizer(s, w) then w.RemoveFinalizer? && s.active.value.SelfDestructs() else s.retained)
  }

  /* ------------------------------------------------------------------ runs */

  datatype Event = EnvEvent(action: EnvAction) | OpEvent(write: Write)

  ghost predicate Legal(s: State, e: Event) {
    e.OpEvent? ==> Licence(s, e.write)
  }

  function Step(s: State, e: Event): State {
    match e
    case EnvEvent(a) => EnvStep(s, a)
    case OpEvent(w) => Effect(s, w)
  }

  /** A run: every state that the cluster has been in, and the steps between them. A call of the operator that fails
      before its effect leaves no step; one that fails after its effect leaves the same step as one that succeeds. */
  ghost predicate Run(states: seq<State>, events: seq<Event>) {
    && |states| == |events| + 1
    && forall i :: 0 <= i < |events| ==> Legal(states[i], events[i]) && states[i + 1] == Step(states[i], events[i])
  }

  /* ----------------------------------------------------------- the frame */

  const NOTHING: iset<Key> := iset{}

  ghost function Keys(p: Part): iset<Key> { iset k | PartOf(k) == p }

  /** How the cluster may differ after steps of the environment and writes of the operator to the keys in `f`:
      every other key of the operator holds what it held, except for what the garbage collector could take. */
  ghost predicate Steady(s: State, t: State, f: iset<Key>) {
    && t.active == s.active
    && t.original == s.original
    && t.singleNode == s.singleNode
    && t.baseDomain == s.baseDomain
    && (Superseded(s) ==> Superseded(t))
    && (Applying(s) ==> Applying(t))
    && (Finalising(s) ==> Finalising(t))
    && s.held <= t.held
    && (s.seenAvailable ==> t.seenAvailable)
    && (t.inPlaceSafe ==> s.inPlaceSafe)
    && (!SemVer.Legacy(s.version) ==> !SemVer.Legacy(t.version))
    && (Idms !in f ==> t.modern == s.modern)
    && (forall k :: Sound(s, k) && (PartOf(k) == Foreign || k !in f) ==> Sound(t, k))
    && (forall k :: k in t.objs && PartOf(k) != Foreign && k !in f && !k.Catalog? ==> k in s.objs && t.objs[k].body == s.objs[k].body)
    && (forall k :: Firm(s, k) && PartOf(k) != Foreign && k !in f && !k.Catalog? ==> Firm(t, k) && t.objs[k].body == s.objs[k].body)
    && (Applying(s) ==> forall n :: Catalog(n) !in f ==> CatalogKept(s, t, Catalog(n)))
  }

  predicate CatalogKept(s: State, t: State, k: Key) {
    && (FirstOwned(t, k) ==> FirstOwned(s, k))
    && (CrOwned(s, k) && Firm(s, k) ==> CrOwned(t, k) && Firm(t, k) && t.objs[k].body == s.objs[k].body)
  }

  /* ------------------------------------------------------- the invariant */

  ghost predicate WellTyped(s: State) {
    && s.original.SecretBody?
    && (forall k :: k in s.objs ==> Typed(k, s.objs[k].body))
  }

  /** Only what the operator creates is owned by a CR; and nobody else owns that. */
  ghost predicate OwnersOk(s: State) {
    forall k :: k in s.objs ==>
      && (Unowned(k) ==> s.objs[k].owners.cr.None?)
      && (OperatorOnly(k) ==> s.objs[k].owners.before == [] && s.objs[k].owners.after == [])
      && (s.objs[k].owners.cr.Some? ==> s.objs[k].owners.cr.value.uid < s.nextUid)
  }

  /** The content before the first relocation is in the backup, or else in the live pull secret. */
  predicate PullSecretSafe(s: State) {
    && LIVE in s.objs
    && (if BACKUP in s.objs then s.objs[BACKUP].body == s.original && Firm(s, BACKUP) else s.objs[LIVE].body == s.original)
  }

  /** While something is left to undo the finalizer is there, unless a self-destruction has left it to stay. */
  predicate FinalizerKept(s: State) {
    Dirty(s) ==> s.retained || (ClusterName in s.crs && s.crs[ClusterName].Guarded())
  }

  /** What is named is there to stay, but for a certificate in place that users did not keep there. */
  ghost predicate NoDangling(s: State) {
    forall k :: Referenced(s, k) ==> PartOf(k) != PullPart && (Firm(s, k) || (UserKey(k) && !s.inPlaceSafe))
  }

  /** Every certificate of the API server is for some name; the ingress names none but the operator's own secrets. */
  ghost predicate CertNames(s: State) {
    && (forall i :: 0 <= i < |NamedCerts(s)| ==> NamedCerts(s)[i].names != [])
    && (forall i :: 0 <= i < |ComponentRoutes(s)| ==> TlsKey(SecretKey(OpenshiftConfig, ComponentRoutes(s)[i].secret)))
    && (DefaultCert(s).Some? ==> TlsKey(SecretKey(OpenshiftIngress, DefaultCert(s).value)))
  }

  /** A CR that objects refer to cannot go before they are orphaned or its finalizer is removed. */
  ghost predicate OwnerHeld(s: State) {
    ClusterName in s.crs ==>
      var cr := s.crs[ClusterName];
      && (OrphanFinalizer in cr.finalizers ==> cr.deleting)
      && (Holder(cr) || OrphanFinalizer in cr.finalizers || Stripped(s, cr.uid))
  }

  predicate MirrorExclusive(s: State) {
    && (Idms in s.objs ==> s.modern)
    && (s.modern ==> Icsp !in s.objs && !SemVer.Legacy(s.version))
  }

  predicate ConditionsOk(cr: Relocation) {
    && (cr.ready.Some? ==> cr.ready.value.observed <= cr.generation)
    && (cr.reconciled.Some? ==> cr.reconciled.value.observed <= cr.generation)
  }

  ghost predicate CrsOk(s: State) {
    forall n :: n in s.crs ==>
      && s.crs[n].name == n && s.crs[n].uid < s.nextUid && s.crs[n].spec.WellFormed() && ConditionsOk(s.crs[n])
      && (s.crs[n].deleting ==> s.crs[n].finalizers != {})
      && (n != ClusterName ==> OrphanFinalizer !in s.crs[n].finalizers)
  }

  ghost predicate ActiveOk(s: State) {
    s.active.Some? ==>
      && s.active.value.spec.WellFormed() && ConditionsOk(s.active.value) && s.active.value.uid < s.nextUid
      && (s.active.value.name in s.crs ==> NoNewer(s.active.value, s.crs[s.active.value.name]))
  }

  /** The copy that a pass works from is never newer than what is stored; a deletion request makes the stored one newer. */
  predicate NoNewer(copy: Relocation, stored: Relocation) {
    copy.uid == stored.uid ==>
      && copy.generation <= stored.generation
      && (copy.generation == stored.generation ==> copy.deleting == stored.deleting)
  }

  ghost predicate InPlaceOk(s: State) {
    s.inPlaceSafe ==>
      && (ClusterName in s.crs ==> InPlaceFirm(s, s.crs[ClusterName].spec))
      && (Started(s) ==> InPlaceFirm(s, s.active.value.spec))
  }

  /** A generated secret holds a certificate with its own key. */
  predicate PairsWhole(s: State) {
    && (GENERATED_API in s.objs ==> Whole(DataOf(s.objs[GENERATED_API].body)))
    && (GENERATED_INGRESS in s.objs ==> Whole(DataOf(s.objs[GENERATED_INGRESS].body)))
  }

  /** What the users' secrets hold now is among what they have held. */
  ghost predicate HeldOk(s: State) {
    s.active.Some? ==> forall k :: k in s.objs && UserKey(k) ==> (k, s.objs[k].body) in s.held
  }

  ghost predicate Inv(s: State) {
    && WellTyped(s)
    && OwnersOk(s)
    && PullSecretSafe(s)
    && FinalizerKept(s)
    && NoDangling(s)
    && CertNames(s)
    && OwnerHeld(s)
    && MirrorExclusive(s)
    && CrsOk(s)
    && ActiveOk(s)
    && InPlaceOk(s)
    && HeldOk(s)
    && PairsWhole(s)
  }

  /** A cluster that no relocation has touched. */
  ghost predicate Init(s: State) {
    && WellTyped(s)
    && (forall k :: k in s.objs ==> s.objs[k].owners.cr.None? && !OperatorOnly(k))
    && LIVE in s.objs && s.objs[LIVE].body == s.original
    && !Dirty(s)
    && (forall n :: n in s.crs ==>
          && s.crs[n].name == n && s.crs[n].uid < s.nextUid && s.crs[n].spec.WellFormed()
          && !s.crs[n].deleting && s.crs[n].finalizers == {} && s.crs[n].ready.None? && s.crs[n].reconciled.None?)
    && s.active.None? && !s.modern && !s.retained
    && s.held == {} && !s.seenAvailable && s.inPlaceSafe
  }
}
