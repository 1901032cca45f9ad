/** History independence: what a successful pass leaves behind is a function of the spec, the users' secrets, the version
    and the original pull secret. Of a generated key pair only the common name is fixed. */
module Views {
  import opened Types
  import opened Store
  import opened Goals
  import opened Protocol
  import opened Preservation
  import opened Fixpoints
  import opened ClusterApi
  import opened Parts
  import opened Controller
  import opened Reconciliation
  import Convergence
  import SemVer
  import ApiServers
  import Ingresses
  import PullSecrets
  import Catalogs
  import Dns

  /** What a pass works from. */
  datatype Inputs = Inputs(
    spec: Spec,
    pull: Option<Body>,       // the users' secrets that the spec refers to
    api: Option<Body>,
    ingress: Option<Body>,
    legacy: bool,             // the version is below 4.13.0
    singleNode: bool,
    original: Body)           // the pull secret before the first relocation

  datatype Certificate = Missing | GeneratedFor(commonName: Option<string>) | Copy(body: Body)

  /** The part of the cluster that a relocation manages. */
  datatype View = View(
    live: Option<Body>,
    named: seq<NamedCert>,
    defaultCert: Option<SecretName>,
    appsDomain: string,
    routes: seq<ComponentRoute>,
    trustedCA: bool,
    registry: Option<Body>,
    sshMaster: Option<Body>,
    sshWorker: Option<Body>,
    dns: Option<Body>,
    mirror: Option<Body>,
    apiCert: Certificate,
    ingressCert: Certificate,
    ingressCopy: Certificate,
    sources: map<string, Option<Body>>)

  function BodyAt(s: State, k: Key): Option<Body> {
    if k in s.objs then Some(s.objs[k].body) else None
  }

  function UserBody(s: State, ref: Option<SecretRef>): Option<Body> {
    if ref.Some? then BodyAt(s, ref.value.Key()) else None
  }

  function InputsOf(s: State, sp: Spec): Inputs {
    Inputs(sp, UserBody(s, sp.pullSecret), UserBody(s, sp.apiCert), UserBody(s, sp.ingressCert),
           SemVer.Before413(s.version), s.singleNode, s.original)
  }

  function CertificateAt(s: State, k: Key, generated: bool): Certificate {
    if k !in s.objs then Missing
    else if generated then GeneratedFor(if TlsCrt in DataOf(s.objs[k].body) then CommonName(DataOf(s.objs[k].body)[TlsCrt]) else None)
    else Copy(s.objs[k].body)
  }

  function Names(cs: seq<CatalogSource>): set<string> {
    set i | 0 <= i < |cs| :: cs[i].name
  }

  /** The mirror object that is alive; there are never two. */
  function LiveMirror(s: State): Option<Body> {
    if Idms in s.objs then BodyAt(s, Idms) else BodyAt(s, Icsp)
  }

  /** What there is to see in a cluster that is relocated to this spec. Objects that the operator leaves behind when an
      option is turned off are not part of it: the registry ConfigMap, the DNS MachineConfig, an ImageContentSourcePolicy
      from before an upgrade. */
  function ViewOf(s: State, sp: Spec): View {
    View(
      BodyAt(s, LIVE), NamedCerts(s), DefaultCert(s), AppsDomain(s), ComponentRoutes(s), TrustedCA(s),
      if sp.registryCert.Some? then BodyAt(s, RegistryConfigMap) else None,
      BodyAt(s, SshConfig(Master)), BodyAt(s, SshConfig(Worker)),
      if sp.internalDns == Some(true) && s.singleNode then BodyAt(s, DnsConfig) else None,
      if sp.mirrors.Some? then LiveMirror(s) else None,
      CertificateAt(s, ApiServers.ApiKey(sp), sp.apiCert.None?),
      CertificateAt(s, Ingresses.IngressKey(OpenshiftIngress, sp), sp.ingressCert.None?),
      CertificateAt(s, Ingresses.IngressKey(OpenshiftConfig, sp), sp.ingressCert.None?),
      Sources(s, sp.catalogs))
  }

  function Sources(s: State, cs: seq<CatalogSource>): map<string, Option<Body>> {
    map n | n in Names(cs) :: BodyAt(s, Catalog(n))
  }

  function ExpectedSources(cs: seq<CatalogSource>): map<string, Option<Body>> {
    map n | n in Names(cs) :: (ListedName(cs, n); Some(CatalogBody(LastImage(cs, n))))
  }

  function CopyOf(b: Option<Body>): Certificate {
    if b.Some? then Copy(b.value) else Missing
  }

  function Ssh(sp: Spec, r: Role): Option<Body> {
    if sp.sshKeys.Some? then Some(SshBody(r, sp.sshKeys.value)) else None
  }

  function Mirror(sp: Spec, legacy: bool): Option<Body> {
    if sp.mirrors.None? then None
    else if legacy then Some(IcspBody(Converted(sp.mirrors.value)))
    else Some(IdmsBody(sp.mirrors.value))
  }

  function ExpectedCert(given: Option<SecretRef>, body: Option<Body>, host: string): Certificate {
    if given.None? then GeneratedFor(Some(host)) else CopyOf(body)
  }

  /** What a pass makes of its inputs. */
  function Expected(i: Inputs): View {
    var sp := i.spec;
    View(
      if sp.pullSecret.Some? then i.pull else Some(i.original),
      [NamedCert([ApiHost(sp.domain)], ApiSecret(sp))],
      Some(IngressSecret(sp)), AppsHost(sp.domain), ComponentRoutesFor(sp.domain, IngressSecret(sp)),
      sp.registryCert.Some?,
      if sp.registryCert.Some? then Some(ConfigMapBody(RegistryEntries(sp.registryCert.value))) else None,
      Ssh(sp, Master), Ssh(sp, Worker),
      if sp.internalDns == Some(true) && i.singleNode then Some(DnsBody(sp.domain)) else None,
      Mirror(sp, i.legacy),
      ExpectedCert(sp.apiCert, i.api, ApiHost(sp.domain)),
      ExpectedCert(sp.ingressCert, i.ingress, WildcardHost(sp.domain)),
      ExpectedCert(sp.ingressCert, i.ingress, WildcardHost(sp.domain)),
      ExpectedSources(sp.catalogs))
  }

  lemma ListedName(cs: seq<CatalogSource>, n: string)
    requires n in Names(cs)
    ensures Listed(cs, n)
  {
  }

  lemma PullView(s: State, cr: Relocation)
    requires Inv(s) && PullSecrets.PullSettled(s, cr)
    ensures BodyAt(s, LIVE) == if cr.spec.pullSecret.Some? then UserBody(s, cr.spec.pullSecret) else Some(s.original)
  {
    PullSecrets.OriginalSomewhere(s);
  }

  lemma NodeView(s: State, cr: Relocation)
    requires Inv(s) && SshSettled(s, cr) && RegistrySettled(s, cr) && Dns.DnsSettled(s, cr)
    ensures TrustedCA(s) == cr.spec.registryCert.Some?
    ensures cr.spec.registryCert.Some? ==> BodyAt(s, RegistryConfigMap) == Some(ConfigMapBody(RegistryEntries(cr.spec.registryCert.value)))
    ensures BodyAt(s, SshConfig(Master)) == Ssh(cr.spec, Master) && BodyAt(s, SshConfig(Worker)) == Ssh(cr.spec, Worker)
    ensures cr.spec.internalDns == Some(true) && s.singleNode ==> BodyAt(s, DnsConfig) == Some(DnsBody(cr.spec.domain))
  {
    hide Inv;
  }

  lemma MirrorView(s: State, cr: Relocation)
    requires Inv(s) && MirrorSettled(s, cr) && cr.spec.mirrors.Some?
    ensures LiveMirror(s) == Mirror(cr.spec, SemVer.Before413(s.version))
  {
    SemVer.LegacyInNumbers(s.version);
    Exclusive(s);
  }

  lemma Exclusive(s: State)
    requires Inv(s)
    ensures MirrorExclusive(s)
  {
  }

  lemma ApiView(s: State, cr: Relocation)
    requires ApiServers.ApiSettled(s, cr)
    ensures NamedCerts(s) == [NamedCert([ApiHost(cr.spec.domain)], ApiSecret(cr.spec))]
    ensures CertificateAt(s, ApiServers.ApiKey(cr.spec), cr.spec.apiCert.None?)
            == ExpectedCert(cr.spec.apiCert, UserBody(s, cr.spec.apiCert), ApiHost(cr.spec.domain))
  {
  }

  lemma IngressView(s: State, cr: Relocation)
    requires Ingresses.IngressSettled(s, cr)
    ensures DefaultCert(s) == Some(IngressSecret(cr.spec)) && AppsDomain(s) == AppsHost(cr.spec.domain)
    ensures ComponentRoutes(s) == ComponentRoutesFor(cr.spec.domain, IngressSecret(cr.spec))
    ensures forall ns :: ns == OpenshiftIngress || ns == OpenshiftConfig ==>
              CertificateAt(s, Ingresses.IngressKey(ns, cr.spec), cr.spec.ingressCert.None?)
              == ExpectedCert(cr.spec.ingressCert, UserBody(s, cr.spec.ingressCert), WildcardHost(cr.spec.domain))
  {
  }

  lemma SourceView(s: State, cr: Relocation)
    requires Catalogs.CatalogSettled(s, cr)
    ensures Sources(s, cr.spec.catalogs) == ExpectedSources(cr.spec.catalogs)
  {
    hide Listed, LastImage;
    var cs := cr.spec.catalogs;
    forall n | n in Names(cs) ensures Listed(cs, n) && BodyAt(s, Catalog(n)) == Some(CatalogBody(LastImage(cs, n))) {
      ListedName(cs, n);
      assert Mine(s, cr, Catalog(n), CatalogBody(LastImage(cs, n)));
    }
  }

  /** Where everything is settled, the cluster looks as its inputs call for, whatever was there before. */
  lemma SettledView(s: State, cr: Relocation)
    requires Inv(s) && SettledFor(s, cr, ALL)
    ensures ViewOf(s, cr.spec) == Expected(InputsOf(s, cr.spec))
  {
    hide Inv, SshSettled, RegistrySettled, MirrorSettled, PullSecrets.PullSettled, Catalogs.CatalogSettled,
      Ingresses.IngressSettled, ApiServers.ApiSettled, Dns.DnsSettled, CertificateAt, LiveMirror, NamedCerts, DefaultCert, AppsDomain,
      ComponentRoutes, TrustedCA, Sources, ExpectedSources, Ssh;
    assert PartSettled(s, cr, DnsPart) && PartSettled(s, cr, SshPart) && PartSettled(s, cr, RegistryPart) && PartSettled(s, cr, MirrorPart);
    assert PartSettled(s, cr, PullPart) && PartSettled(s, cr, CatalogPart) && PartSettled(s, cr, IngressPart) && PartSettled(s, cr, ApiPart);
    PullView(s, cr);
    NodeView(s, cr);
    if cr.spec.mirrors.Some? { MirrorView(s, cr); }
    ApiView(s, cr);
    IngressView(s, cr);
    SourceView(s, cr);
  }

  /** No catalog source of an earlier spec is left that the relocation owns first. */
  ghost predicate OnlyListed(s: State, sp: Spec) {
    forall n :: FirstOwned(s, Catalog(n)) ==> Listed(sp.catalogs, n)
  }

  lemma NothingUnwanted(s: State, cr: Relocation)
    requires SettledFor(s, cr, ALL)
    ensures OnlyListed(s, cr.spec)
  {
    hide Listed;
    assert PartSettled(s, cr, CatalogPart);
    forall n | FirstOwned(s, Catalog(n)) ensures Listed(cr.spec.catalogs, n) {
      assert Catalog(n) !in Catalogs.UnwantedSources(s, cr.spec.catalogs);
    }
  }

  /** A pass does not change its own inputs. */
  lemma InputsKept(s: State, t: State, cr: Relocation)
    requires Quiet(s, t, Footprint(cr)) && cr.spec.WellFormed()
    ensures InputsOf(t, cr.spec) == InputsOf(s, cr.spec)
  {
    hide Quiet, Footprint;
    if cr.spec.pullSecret.Some? { UserSecretsKept(s, t, Footprint(cr), cr, cr.spec.pullSecret.value); }
    if cr.spec.apiCert.Some? { UserSecretsKept(s, t, Footprint(cr), cr, cr.spec.apiCert.value); }
    if cr.spec.ingressCert.Some? { UserSecretsKept(s, t, Footprint(cr), cr, cr.spec.ingressCert.value); }
    assert t.version == s.version && t.singleNode == s.singleNode && t.original == s.original by { OnlyObjects(s, t, Footprint(cr)); }
  }

  lemma OnlyObjects(s: State, t: State, f: iset<Key>)
    requires Quiet(s, t, f)
    ensures t.version == s.version && t.singleNode == s.singleNode && t.original == s.original
  {
  }

  lemma StoredIsWellFormed(s: State, cr: Relocation)
    requires Inv(s) && Admitted(s, cr)
    ensures cr.spec.WellFormed()
  {
  }

  /** The store with a pass begun on it keeps the invariant. */
  lemma EnteredInvariant(s: State, cr: Relocation)
    requires Inv(s) && s.active.None? && ClusterName in s.crs && s.crs[ClusterName] == cr
    ensures Inv(Entered(s, cr))
  {
    hide Inv;
    WriteKeepsInvariant(s, Begin(ClusterName));
    assert Entered(s, cr) == Effect(s, Begin(ClusterName));
  }

  /** What a successful pass leaves is a function of what it found in its inputs. */
  lemma PassView(s: State, t: State, cr: Relocation)
    requires Inv(s) && Admitted(s, cr) && Inv(t) && t.active.None? && Reached(Entered(s, cr), t, cr)
    ensures ViewOf(t, cr.spec) == Expected(InputsOf(s, cr.spec)) && OnlyListed(t, cr.spec)
  {
    hide Inv, AllSettled, SettledFor, Quiet, Footprint, ViewOf, Expected, InputsOf, OnlyListed;
    var begun, behind, again := Entered(s, cr), Behind(Entered(s, cr), t, cr), t.crs[ClusterName];
    StoredIsWellFormed(s, cr);
    InputsKept(begun, behind, cr);
    Convergence.StaysSettled(behind, Entered(t, again), cr, again);
    WholeIsSettled(Entered(t, again), again);
    EnteredInvariant(t, again);
    SettledView(Entered(t, again), again);
    NothingUnwanted(Entered(t, again), again);
    SameLook(Entered(t, again), t, cr.spec);
    SameLook(begun, s, cr.spec);
    SameLook(behind, t, cr.spec);
  }

  lemma WholeIsSettled(s: State, cr: Relocation)
    requires AllSettled(s, cr)
    ensures SettledFor(s, cr, ALL)
  {
  }

  /** The look of a cluster has nothing to do with the CRs. */
  lemma SameLook(s: State, t: State, sp: Spec)
    requires t.objs == s.objs && t.version == s.version && t.singleNode == s.singleNode && t.original == s.original
    ensures ViewOf(s, sp) == ViewOf(t, sp) && InputsOf(s, sp) == InputsOf(t, sp) && OnlyListed(s, sp) == OnlyListed(t, sp)
  {
    hide Listed;
  }

  /** Run a pass on an admitted CR. However the cluster got here, and whatever calls fail on the way of the pass: if it
      succeeds and nobody interferes, the cluster looks as the inputs call for. */
  method LookAfterPass(r: Reconciler) returns (result: Result)
    requires r.client.Valid() && r.client.st.active.None? && r.client.Calm()
    requires ClusterName in r.client.st.crs && Admitted(r.client.st, r.client.st.crs[ClusterName])
    modifies r, r.client
    ensures r.client.Valid() && r.client.st.active.None?
    ensures result == Done ==>
      var sp := old(r.client.st).crs[ClusterName].spec;
      && ViewOf(r.client.st, sp) == Expected(InputsOf(old(r.client.st), sp))
      && OnlyListed(r.client.st, sp)
  {
    hide Run, Inv, Reached, ViewOf, Expected, InputsOf, OnlyListed, PassEnds, NothingToWrite;
    ghost var s := r.client.st;
    StateInvariant(r.client);
    result := r.Reconcile(ClusterName);
    StateInvariant(r.client);
    if result == Done { PassView(s, r.client.st, s.crs[ClusterName]); }
  }

  lemma StateInvariant(c: Cluster)
    requires c.Valid()
    ensures Inv(c.st)
  {
  }

  /** Two clusters with whatever histories: if a pass on the same inputs succeeds in both, they look the same. */
  method HistoryDoesNotMatter(r: Reconciler, q: Reconciler) returns (here: Result, there: Result)
    requires r.client != q.client
    requires r.client.Valid() && r.client.st.active.None? && r.client.Calm()
    requires q.client.Valid() && q.client.st.active.None? && q.client.Calm()
    requires ClusterName in r.client.st.crs && Admitted(r.client.st, r.client.st.crs[ClusterName])
    requires ClusterName in q.client.st.crs && Admitted(q.client.st, q.client.st.crs[ClusterName])
    requires r.client.st.crs[ClusterName].spec == q.client.st.crs[ClusterName].spec
    requires var sp := r.client.st.crs[ClusterName].spec; InputsOf(r.client.st, sp) == InputsOf(q.client.st, sp)
    modifies r, r.client, q, q.client
    ensures here == there == Done ==>
      var sp := old(r.client.st).crs[ClusterName].spec;
      && ViewOf(r.client.st, sp) == ViewOf(q.client.st, sp)
      && OnlyListed(r.client.st, sp) && OnlyListed(q.client.st, sp)
  {
    hide Run, Inv, ViewOf, Expected, InputsOf, OnlyListed, Admitted;
    here := LookAfterPass(r);
    there := LookAfterPass(q);
  }
}
