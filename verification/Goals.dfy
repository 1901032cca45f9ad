/** What each sub-reconciler is for: the configuration that a spec asks for. */
module Goals {
  import opened Types
  import opened Store

  function ApiHost(domain: string): string { "api." + domain }
  function AppsHost(domain: string): string { "apps." + domain }
  function WildcardHost(domain: string): string { "*.apps." + domain }

  /* ------------------------------------------------------------------ ssh */

  ghost predicate SshDone(s: State, sp: Spec) {
    forall r :: SshRoleDone(s, sp, r)
  }

  predicate SshRoleDone(s: State, sp: Spec, r: Role) {
    match sp.sshKeys
    case None => SshConfig(r) !in s.objs
    case Some(keys) => Holds(s, SshConfig(r), SshBody(r, keys))
  }

  /* ------------------------------------------------------------- registry */

  function Digits(n: nat): string {
    if n < 10 then ["0123456789"[n]] else Digits(n / 10) + ["0123456789"[n % 10]]
  }

  function Decimal(n: int): string {
    if n < 0 then "-" + Digits(-n) else Digits(n)
  }

  function RegistryEntries(rc: RegistryCert): map<string, string> {
    map[rc.hostname + (if rc.port.Some? then ".." + Decimal(rc.port.value) else "") := rc.certificate]
  }

  predicate RegistryDone(s: State, sp: Spec) {
    match sp.registryCert
    case None => !TrustedCA(s)
    case Some(rc) => TrustedCA(s) && Holds(s, RegistryConfigMap, ConfigMapBody(RegistryEntries(rc)))
  }

  /* --------------------------------------------------------------- mirror */

  /** The ImageContentSourcePolicy form of a mirror list: same sources, same mirrors, same order. */
  function Converted(ms: seq<DigestMirror>): (rs: seq<RepositoryMirror>) {
    seq(|ms|, i requires 0 <= i < |ms| => RepositoryMirror(ms[i].source, ms[i].mirrors))
  }

  predicate MirrorDone(s: State, sp: Spec) {
    match sp.mirrors
    case None => Idms !in s.objs
    case Some(ms) =>
      || (Holds(s, Icsp, IcspBody(Converted(ms))) && Idms !in s.objs)
      || (Holds(s, Idms, IdmsBody(ms)) && Icsp !in s.objs)
  }

  /* ---------------------------------------------------------- pull secret */

  /** The object holds what the user's secret has held at some time since the running pass began. */
  predicate Copied(s: State, ref: SecretRef, k: Key) {
    k in s.objs && (ref.Key(), s.objs[k].body) in s.held
  }

  /** The user's secret is the live pull secret, over a backup of the original; or the original is. */
  predicate PullDone(s: State, sp: Spec) {
    if sp.pullSecret.Some? then Firm(s, BACKUP) && Copied(s, sp.pullSecret.value, LIVE) else BACKUP !in s.objs
  }

  /* -------------------------------------------------------------- catalog */

  predicate Listed(cs: seq<CatalogSource>, n: string) {
    exists i :: 0 <= i < |cs| && cs[i].name == n
  }

  function LastImage(cs: seq<CatalogSource>, n: string): string
    requires Listed(cs, n)
  {
    if cs[|cs| - 1].name == n then cs[|cs| - 1].image else LastImage(cs[..|cs| - 1], n)
  }

  /** No catalog source is left of which the relocation is the first owner and which the spec does not list. */
  ghost predicate CatalogsPruned(s: State, sp: Spec) {
    forall n :: FirstOwned(s, Catalog(n)) ==> Listed(sp.catalogs, n)
  }

  /** Every catalog source among the first `upto` of the spec exists with the last image given there. */
  ghost predicate CatalogsPresent(s: State, cs: seq<CatalogSource>) {
    forall n :: Listed(cs, n) ==> CrOwned(s, Catalog(n)) && Holds(s, Catalog(n), CatalogBody(LastImage(cs, n)))
  }

  ghost predicate CatalogDone(s: State, sp: Spec) {
    CatalogsPruned(s, sp) && CatalogsPresent(s, sp.catalogs)
  }

  /* -------------------------------------------------------------- ingress */

  function IngressSecret(sp: Spec): SecretName {
    if sp.ingressCert.None? then GeneratedIngressSecret else CopiedIngressSecret
  }

  function ComponentRoutesFor(domain: string, secret: SecretName): seq<ComponentRoute> {
    [ ComponentRoute("console-openshift-console.apps." + domain, "console", "openshift-console", secret),
      ComponentRoute("downloads-openshift-console.apps." + domain, "downloads", "openshift-console", secret),
      ComponentRoute("oauth-openshift.apps." + domain, "oauth-openshift", "openshift-authentication", secret) ]
  }

  /* --------------------------------------------------- generated key pairs */

  /** GetCertCommonName: only a certificate has one. */
  function CommonName(b: Bytes): Option<string> {
    if b.CertPem? then Some(b.commonName) else None
  }

  function DataOf(b: Body): Data {
    if b.SecretBody? then b.data else map[]
  }

  /** A certificate together with its own key. */
  predicate Whole(d: Data) {
    TlsCrt in d && d[TlsCrt].CertPem? && TlsKeyName in d && d[TlsKeyName] == KeyPem(d[TlsCrt].pair)
  }

  /** The secret holds a certificate for this name. */
  predicate HasPair(s: State, k: Key, commonName: string) {
    && k in s.objs
    && TlsCrt in DataOf(s.objs[k].body) && CommonName(DataOf(s.objs[k].body)[TlsCrt]) == Some(commonName)
  }

  /** The common name of the pair that the operator generates into a secret. */
  function PairName(k: Key, sp: Spec): Option<string> {
    if k == GENERATED_API then Some(ApiHost(sp.domain))
    else if k == GENERATED_INGRESS then Some(WildcardHost(sp.domain))
    else None
  }

  function IngressBodyFor(sp: Spec): Body {
    IngressBody(AppsHost(sp.domain), ComponentRoutesFor(sp.domain, IngressSecret(sp)))
  }

  predicate IngressDone(s: State, sp: Spec) {
    && Holds(s, IngressController, IngressControllerBody(Some(IngressSecret(sp))))
    && Holds(s, IngressConfig, IngressBodyFor(sp))
    && IngressPairDone(s, sp)
    && IngressCopyDone(s, sp)
  }

  /** The user's certificate is in both namespaces. */
  predicate IngressCopyDone(s: State, sp: Spec) {
    sp.ingressCert.Some? ==>
      && Firm(s, COPIED_INGRESS) && Copied(s, sp.ingressCert.value, COPIED_INGRESS)
      && Firm(s, COPIED_INGRESS_COPY) && Copied(s, sp.ingressCert.value, COPIED_INGRESS_COPY)
  }

  /** A generated certificate is for the domain, and the same in both namespaces. */
  predicate IngressPairDone(s: State, sp: Spec) {
    sp.ingressCert.None? ==>
      && Firm(s, GENERATED_INGRESS) && HasPair(s, GENERATED_INGRESS, WildcardHost(sp.domain))
      && Holds(s, GENERATED_INGRESS_COPY, s.objs[GENERATED_INGRESS].body)
  }

  /* ------------------------------------------------------------------ api */

  function ApiSecret(sp: Spec): SecretName {
    if sp.apiCert.None? then GeneratedApiSecret
    else if sp.apiCert.value.namespace != OpenshiftConfig then CopiedApiSecret
    else sp.apiCert.value.name
  }

  function ApiBodyFor(sp: Spec): Body {
    ApiServerBody([NamedCert([ApiHost(sp.domain)], ApiSecret(sp))])
  }

  predicate ApiDone(s: State, sp: Spec) {
    Holds(s, ApiServer, ApiBodyFor(sp)) && ApiPairDone(s, sp) && ApiCopyDone(s, sp)
  }

  /** The user's certificate is where the API server reads it. */
  predicate ApiCopyDone(s: State, sp: Spec) {
    sp.apiCert.Some? && sp.apiCert.value.namespace != OpenshiftConfig ==>
      Firm(s, COPIED_API) && Copied(s, sp.apiCert.value, COPIED_API)
  }

  predicate ApiPairDone(s: State, sp: Spec) {
    sp.apiCert.None? ==> Firm(s, GENERATED_API) && HasPair(s, GENERATED_API, ApiHost(sp.domain))
  }

  /* ------------------------------------------------------------------ dns */

  /** Internal DNS entries are a matter of single-node clusters. */
  predicate DnsDone(s: State, sp: Spec) {
    sp.internalDns == Some(true) && s.singleNode ==> Holds(s, DnsConfig, DnsBody(sp.domain))
  }

  /** If a registration is asked for, the running pass has seen it succeed. */
  predicate Registered(s: State, sp: Spec) {
    sp.acm.Some? ==> s.seenAvailable
  }

  /** The cluster is configured as the spec asks: what a stored Reconciled=True vouches for. */
  ghost predicate Configured(s: State, sp: Spec) {
    && DnsDone(s, sp)
    && SshDone(s, sp)
    && RegistryDone(s, sp)
    && MirrorDone(s, sp)
    && PullDone(s, sp)
    && CatalogDone(s, sp)
    && IngressDone(s, sp)
    && ApiDone(s, sp)
  }
}
