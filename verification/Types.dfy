/** The objects the operator reads and writes, as values.
    Names that the source fixes as string constants are constructors here (the constant is in the comment);
    every other name is carried as the string it is. */
module Types {

  datatype Option<+T> = None | Some(value: T)

  /* ---------------------------------------------------------------- names */

  datatype Namespace =
    | OpenshiftConfig    // "openshift-config"
    | OpenshiftIngress   // "openshift-ingress"
    | OtherNamespace(name: string)

  datatype SecretName =
    | PullSecret              // "pull-secret"
    | BackupPullSecret        // "backup-pull-secret"
    | GeneratedApiSecret      // "generated-api-secret"
    | CopiedApiSecret         // "copied-api-secret"
    | GeneratedIngressSecret  // "generated-ingress-secret"
    | CopiedIngressSecret     // "copied-ingress-secret"
    | OtherSecret(name: string)

  datatype Role = Master | Worker

  datatype Key =
    | SecretKey(namespace: Namespace, name: SecretName)
    | RegistryConfigMap                     // ConfigMap openshift-config/generated-registry-cert
    | ApiServer                             // APIServer "cluster"
    | IngressController                     // IngressController openshift-ingress-operator/default
    | IngressConfig                         // Ingress "cluster"
    | ImageConfig                           // Image "cluster"
    | SshConfig(role: Role)                 // MachineConfig core-ssh-key-<role>
    | DnsConfig                             // MachineConfig relocation-dns-master
    | Catalog(catalog: string)              // CatalogSource openshift-marketplace/<catalog>
    | Icsp                                  // ImageContentSourcePolicy mirror-ocp
    | Idms                                  // ImageDigestMirrorSet mirror-ocp
    | Route(routeNamespace: string, route: string)
    | Manifest(id: string)                  // an object of the ACM manifests

  const LIVE := SecretKey(OpenshiftConfig, PullSecret)
  const BACKUP := SecretKey(OpenshiftConfig, BackupPullSecret)
  const GENERATED_API := SecretKey(OpenshiftConfig, GeneratedApiSecret)
  const COPIED_API := SecretKey(OpenshiftConfig, CopiedApiSecret)
  const COPIED_INGRESS := SecretKey(OpenshiftIngress, CopiedIngressSecret)
  const COPIED_INGRESS_COPY := SecretKey(OpenshiftConfig, CopiedIngressSecret)
  const GENERATED_INGRESS := SecretKey(OpenshiftIngress, GeneratedIngressSecret)
  const GENERATED_INGRESS_COPY := SecretKey(OpenshiftConfig, GeneratedIngressSecret)
  const SIGNER := SecretKey(OtherNamespace("openshift-kube-apiserver-operator"), OtherSecret("loadbalancer-serving-signer"))

  /** The sub-reconciler that writes a key; Foreign keys belong to users and to other controllers. */
  datatype Part = SshPart | RegistryPart | MirrorPart | PullPart | CatalogPart | IngressPart | ApiPart | DnsPart | Foreign

  function PartOf(k: Key): Part {
    match k
    case SecretKey(ns, name) =>
      (match name
       case PullSecret | BackupPullSecret => if ns == OpenshiftConfig then PullPart else Foreign
       case GeneratedApiSecret | CopiedApiSecret => if ns == OpenshiftConfig then ApiPart else Foreign
       case GeneratedIngressSecret | CopiedIngressSecret =>
         if ns == OpenshiftConfig || ns == OpenshiftIngress then IngressPart else Foreign
       case OtherSecret(_) => Foreign)
    case RegistryConfigMap | ImageConfig => RegistryPart
    case ApiServer => ApiPart
    case IngressController | IngressConfig => IngressPart
    case SshConfig(_) => SshPart
    case DnsConfig => DnsPart
    case Catalog(_) => CatalogPart
    case Icsp | Idms => MirrorPart
    case Route(_, _) | Manifest(_) => Foreign
  }

  /** A secret that no constant of the operator names. */
  predicate UserKey(k: Key) { k.SecretKey? && PartOf(k) == Foreign }

  /** The TLS secrets that the operator generates or copies. */
  predicate TlsKey(k: Key) { k.SecretKey? && (PartOf(k) == ApiPart || PartOf(k) == IngressPart) }

  /** Objects of the platform, which no ClusterRelocation ever owns. */
  predicate Unowned(k: Key) {
    k == LIVE || k.ApiServer? || k.IngressController? || k.IngressConfig? || k.ImageConfig? || k.Route? || k.Manifest?
  }

  /** Objects that only the operator creates. */
  predicate OperatorOnly(k: Key) {
    !Unowned(k) && PartOf(k) != Foreign && PartOf(k) != CatalogPart
  }

  /* ------------------------------------------------------------- contents */

  /** A PEM certificate is known by its common name and by what makes the key pair unique. */
  datatype Bytes = CertPem(commonName: string, pair: nat) | KeyPem(pair: nat) | Raw(text: string)

  datatype DataKey = TlsCrt /* "tls.crt" */ | TlsKeyName /* "tls.key" */ | OtherData(name: string)

  type Data = map<DataKey, Bytes>

  datatype SecretType = Tls | DockerConfigJson | Opaque | OtherType(name: string)

  datatype NamedCert = NamedCert(names: seq<string>, secret: SecretName)

  datatype ComponentRoute = ComponentRoute(hostname: string, name: string, namespace: string, secret: SecretName)

  datatype RouteIngress = RouteIngress(router: string, host: string)

  datatype DigestMirror = DigestMirror(source: string, mirrors: seq<string>, policy: string)

  datatype RepositoryMirror = RepositoryMirror(source: string, mirrors: seq<string>)

  datatype Body =
    | SecretBody(data: Data, kind: SecretType)
    | ConfigMapBody(entries: map<string, string>)
    | ApiServerBody(named: seq<NamedCert>)
    | IngressControllerBody(defaultCert: Option<SecretName>)
    | IngressBody(appsDomain: string, routes: seq<ComponentRoute>)
    | ImageBody(trustedCA: bool)   // whether additionalTrustedCA names generated-registry-cert
    | SshBody(roleLabel: Role, keys: seq<string>)
    | DnsBody(domain: string)
    | CatalogBody(image: string)
    | IcspBody(repositories: seq<RepositoryMirror>)
    | IdmsBody(digests: seq<DigestMirror>)
    | RouteBody(ingress: seq<RouteIngress>)
    | ManifestBody(content: string)

  predicate Typed(k: Key, b: Body) {
    match k
    case SecretKey(_, _) => b.SecretBody?
    case RegistryConfigMap => b.ConfigMapBody?
    case ApiServer => b.ApiServerBody?
    case IngressController => b.IngressControllerBody?
    case IngressConfig => b.IngressBody?
    case ImageConfig => b.ImageBody?
    case SshConfig(_) => b.SshBody?
    case DnsConfig => b.DnsBody?
    case Catalog(_) => b.CatalogBody?
    case Icsp => b.IcspBody?
    case Idms => b.IdmsBody?
    case Route(_, _) => b.RouteBody?
    case Manifest(_) => b.ManifestBody?
  }

  /* ------------------------------------------------------------ ownership */

  datatype ForeignRef = ForeignRef(id: string, controller: bool)

  /** The reference to a ClusterRelocation. Only a CR named "cluster" ever becomes an owner, so the name is implied. */
  datatype CrRef = CrRef(uid: nat, controller: bool)

  /** One entry of an owner-reference list. */
  datatype OwnerRef = OtherRef(other: ForeignRef) | RelocationRef(relocation: CrRef)

  /** An owner-reference list, with the one entry that refers to a ClusterRelocation singled out. */
  datatype Owners = Owners(before: seq<ForeignRef>, cr: Option<CrRef>, after: seq<ForeignRef>) {
    /** The list as it is stored. */
    function List(): seq<OwnerRef> {
      seq(|before|, i requires 0 <= i < |before| => OtherRef(before[i]))
      + (match cr case None => [] case Some(ref) => [RelocationRef(ref)])
      + seq(|after|, i requires 0 <= i < |after| => OtherRef(after[i]))
    }

    /** The first entry is of the relocation kind. */
    predicate FirstIsRelocation() { before == [] && cr.Some? }

    /** Some other controller owns the object. */
    predicate ForeignController() {
      (exists i :: 0 <= i < |before| && before[i].controller) || (exists i :: 0 <= i < |after| && after[i].controller)
    }

    /** SetOwnerReference and SetControllerReference: replace the entry of the same owner, or append one. */
    function Upsert(ref: CrRef): (o: Owners)
      ensures o.cr == Some(ref)
      ensures o.before + o.after == before + after
      ensures cr == Some(ref) ==> o == this
    {
      if cr.Some? then this.(cr := Some(ref)) else Owners(before + after, Some(ref), [])
    }
  }

  const NO_OWNERS := Owners([], None, [])

  datatype Obj = Obj(owners: Owners, body: Body)

  /* ----------------------------------------------- the ClusterRelocation CR */

  datatype SecretRef = SecretRef(namespace: Namespace, name: SecretName) {
    function Key(): Key { SecretKey(namespace, name) }

    /** Name or namespace left empty. */
    predicate Incomplete() { namespace == OtherNamespace("") || name == OtherSecret("") }
  }

  datatype CatalogSource = CatalogSource(name: string, image: string)

  datatype RegistryCert = RegistryCert(hostname: string, port: Option<int>, certificate: string)

  datatype AcmRegistration = AcmRegistration(clusterName: string, managedClusterSet: Option<string>, secret: SecretRef, addonConfig: bool)

  datatype Spec = Spec(
    domain: string,
    acm: Option<AcmRegistration>,
    internalDns: Option<bool>,
    apiCert: Option<SecretRef>,
    ingressCert: Option<SecretRef>,
    pullSecret: Option<SecretRef>,
    catalogs: seq<CatalogSource>,
    mirrors: Option<seq<DigestMirror>>,
    registryCert: Option<RegistryCert>,
    sshKeys: Option<seq<string>>)
  {
    /** The API certificate that is referenced where the user put it, instead of being copied. */
    predicate InPlace(k: Key) {
      apiCert.Some? && apiCert.value.namespace == OpenshiftConfig && apiCert.value.Key() == k
    }

    /** The secrets of users that are copied, and that a pass takes ownership of in order to watch them. */
    predicate Copies(k: Key) {
      || (pullSecret.Some? && pullSecret.value.Key() == k)
      || (ingressCert.Some? && ingressCert.value.Key() == k)
      || (apiCert.Some? && apiCert.value.namespace != OpenshiftConfig && apiCert.value.Key() == k)
    }

    /** User-supplied references name no secret of the operator, and the ACM credential is a secret of its own. */
    predicate WellFormed() {
      && (acm.Some? ==> UserKey(acm.value.secret.Key()) && acm.value.secret.Key() != SIGNER)
      && (apiCert.Some? ==> UserKey(apiCert.value.Key()))
      && (ingressCert.Some? ==> UserKey(ingressCert.value.Key()))
      && (pullSecret.Some? ==> UserKey(pullSecret.value.Key()))
      && (acm.Some? && apiCert.Some? ==> acm.value.secret != apiCert.value)
      && (acm.Some? && ingressCert.Some? ==> acm.value.secret != ingressCert.value)
      && (acm.Some? && pullSecret.Some? ==> acm.value.secret != pullSecret.value)
    }
  }

  datatype CrName = ClusterName /* "cluster" */ | OtherCr(name: string)

  datatype Finalizer = RelocationFinalizer /* "relocationfinalizer" */ | OrphanFinalizer /* "orphan" */

  datatype Reason =
    | ValidationSucceeded | ValidationFailed | ReconciliationSucceeded | ReconcileInProgress
    | DnsFailed | SshFailed | RegistryFailed | MirrorFailed | PullSecretFailed
    | CatalogFailed | IngressFailed | ApiFailed | AcmFailed

  datatype Condition = Condition(status: bool, reason: Reason, observed: nat)

  datatype Relocation = Relocation(
    name: CrName,
    uid: nat,
    generation: nat,
    deleting: bool,
    finalizers: set<Finalizer>,
    selfDestruct: Option<string>,   // the annotation "self-destruct"
    spec: Spec,
    ready: Option<Condition>,
    reconciled: Option<Condition>)
  {
    predicate SelfDestructs() { selfDestruct == Some("true") }

    /** The generation has been observed by an earlier pass, so that this pass may change the cluster. */
    predicate Gated() { reconciled.Some? && reconciled.value.observed >= generation }

    predicate Guarded() { RelocationFinalizer in finalizers }
  }
}
