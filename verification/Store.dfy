/** The cluster as the API server holds it, together with the history the properties talk about. */
module Store {
  import opened Types
  import SemVer

  datatype State = State(
    objs: map<Key, Obj>,
    crs: map<CrName, Relocation>,
    version: SemVer.Version,       // ClusterVersion .status.desired.version
    baseDomain: string,            // DNS "cluster" .spec.baseDomain
    klusterlet: Option<bool>,      // the Klusterlet, if it exists, and whether its Available condition is True
    singleNode: bool,              // the cluster has one node
    nextUid: nat,
    active: Option<Relocation>,    // the CR as the running pass read it
    // history
    original: Body,                // the pull secret before the first relocation
    modern: bool,                  // an ImageDigestMirrorSet has been written
    held: set<(Key, Body)>,        // what the users' secrets have held since the running pass began
    seenAvailable: bool,           // the running pass has read that the Klusterlet is Available
    retained: bool,                // a self-destruction was the last to give up the finalizer of the CR "cluster"
    inPlaceSafe: bool)             // certificates named in place never awaited garbage collection or were deleted

  /* ------------------------------------------------------- configuration */

  function NamedCerts(s: State): seq<NamedCert> {
    if ApiServer in s.objs && s.objs[ApiServer].body.ApiServerBody? then s.objs[ApiServer].body.named else []
  }

  function DefaultCert(s: State): Option<SecretName> {
    if IngressController in s.objs && s.objs[IngressController].body.IngressControllerBody?
    then s.objs[IngressController].body.defaultCert else None
  }

  function AppsDomain(s: State): string {
    if IngressConfig in s.objs && s.objs[IngressConfig].body.IngressBody? then s.objs[IngressConfig].body.appsDomain else ""
  }

  function ComponentRoutes(s: State): seq<ComponentRoute> {
    if IngressConfig in s.objs && s.objs[IngressConfig].body.IngressBody? then s.objs[IngressConfig].body.routes else []
  }

  predicate TrustedCA(s: State) {
    ImageConfig in s.objs && s.objs[ImageConfig].body.ImageBody? && s.objs[ImageConfig].body.trustedCA
  }

  /** Something the finalizer has to undo. */
  predicate Dirty(s: State) {
    || NamedCerts(s) != []
    || DefaultCert(s) != None
    || AppsDomain(s) != ""
    || ComponentRoutes(s) != []
    || TrustedCA(s)
    || BACKUP in s.objs
  }

  /** Some consumer names this object: the API server and the component routes read secrets in openshift-config,
      the ingress controller reads its secret in openshift-ingress, the image configuration reads a ConfigMap. */
  predicate Referenced(s: State, k: Key) {
    match k
    case SecretKey(ns, name) =>
      || (ns == OpenshiftConfig && exists i :: 0 <= i < |NamedCerts(s)| && NamedCerts(s)[i].secret == name)
      || (ns == OpenshiftConfig && exists i :: 0 <= i < |ComponentRoutes(s)| && ComponentRoutes(s)[i].secret == name)
      || (ns == OpenshiftIngress && DefaultCert(s) == Some(name))
    case RegistryConfigMap => TrustedCA(s)
    case _ => false
  }

  /** What the users' secrets hold. */
  function UserBodies(s: State): set<(Key, Body)> {
    set k | k in s.objs && UserKey(k) :: (k, s.objs[k].body)
  }

  /* -------------------------------------------------- garbage collection */

  /** The garbage collector looks the owner up by name and compares the UID. */
  predicate Alive(s: State, uid: nat) {
    ClusterName in s.crs && s.crs[ClusterName].uid == uid
  }

  /** All owners are gone. Owners other than ClusterRelocations are taken to stay. */
  predicate Collectable(s: State, o: Obj) {
    o.owners.before == [] && o.owners.after == [] && o.owners.cr.Some? && !Alive(s, o.owners.cr.value.uid)
  }

  /** The object exists and the garbage collector cannot take it. */
  predicate Firm(s: State, k: Key) {
    k in s.objs && !Collectable(s, s.objs[k])
  }

  predicate Holds(s: State, k: Key, b: Body) {
    Firm(s, k) && s.objs[k].body == b
  }

  predicate CrOwned(s: State, k: Key) {
    k in s.objs && s.objs[k].owners.cr.Some?
  }

  predicate FirstOwned(s: State, k: Key) {
    k in s.objs && s.objs[k].owners.FirstIsRelocation()
  }

  /** No object refers to this ClusterRelocation. */
  predicate Stripped(s: State, uid: nat) {
    forall k :: k in s.objs && s.objs[k].owners.cr.Some? ==> s.objs[k].owners.cr.value.uid != uid
  }
}
