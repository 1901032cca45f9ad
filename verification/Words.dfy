/** What it comes to that a stored Reconciled=True is true, in the names that the platform reads. */
module Words {
  import opened Types
  import opened Store
  import opened Goals
  import opened Protocol
  import opened Runs

  /* ------------------------------------------------------- small print */

  /** The first entry of an owner-reference list decides whether a catalog source may go. */
  lemma FirstOwner(o: Owners)
    ensures o.FirstIsRelocation() <==> o.List() != [] && o.List()[0].RelocationRef?
    ensures o.ForeignController() <==> exists r :: r in o.List() && r.OtherRef? && r.other.controller
  {
    var list := o.List();
    if i :| 0 <= i < |o.before| && o.before[i].controller {
      assert list[i] == OtherRef(o.before[i]);
    }
    if i :| 0 <= i < |o.after| && o.after[i].controller {
      assert list[|list| - |o.after| + i] == OtherRef(o.after[i]);
    }
  }

  /** Taking ownership replaces the entry that is there, or appends one. */
  lemma OwnerAdded(o: Owners, ref: CrRef)
    ensures o.cr.Some? ==> o.Upsert(ref).List() == o.List()[|o.before| := RelocationRef(ref)]
    ensures o.cr.None? ==> o.Upsert(ref).List() == o.List() + [RelocationRef(ref)]
  {
  }

  /** The number that a text of decimal digits stands for. */
  function Value(text: string): nat
    requires forall i :: 0 <= i < |text| ==> '0' <= text[i] <= '9'
  {
    if text == "" then 0 else 10 * Value(text[..|text| - 1]) + (text[|text| - 1] as nat - '0' as nat)
  }

  /** A port is written in decimal digits, without leading zeros. */
  lemma {:induction false} PortIsDecimal(n: nat)
    ensures Digits(n) != "" && forall i :: 0 <= i < |Digits(n)| ==> '0' <= Digits(n)[i] <= '9'
    ensures Value(Digits(n)) == n && (n > 0 ==> Digits(n)[0] != '0')
  {
    if n >= 10 {
      PortIsDecimal(n / 10);
      assert Digits(n)[..|Digits(n)| - 1] == Digits(n / 10);
    } else {
      assert Digits(n)[..0] == "";
    }
  }

  /* ------------------------------------------------------- certificates */

  /** The secret holds a certificate for the name, and its key. */
  ghost predicate HoldsPair(s: State, k: Key, commonName: string) {
    && k in s.objs && s.objs[k].body.SecretBody?
    && var d := s.objs[k].body.data;
    TlsCrt in d && TlsKeyName in d && exists pair :: d[TlsCrt] == CertPem(commonName, pair) && d[TlsKeyName] == KeyPem(pair)
  }

  /** The API server serves a certificate for the API host: one generated for it, or the user's. */
  ghost predicate ApiServed(s: State, sp: Spec) {
    exists secret ::
      && NamedCerts(s) == [NamedCert(["api." + sp.domain], secret)]
      && SecretKey(OpenshiftConfig, secret) in s.objs
      && match sp.apiCert
         case None => secret == GeneratedApiSecret && HoldsPair(s, SecretKey(OpenshiftConfig, secret), "api." + sp.domain)
         case Some(ref) => secret == if ref.namespace == OpenshiftConfig then ref.name else CopiedApiSecret
  }

  /** A certificate named in place has been kept there. */
  ghost predicate InPlaceThere(s: State, sp: Spec) {
    sp.apiCert.Some? && sp.apiCert.value.namespace == OpenshiftConfig ==> sp.apiCert.value.Key() in s.objs
  }

  lemma ApiInWords(s: State, sp: Spec)
    requires Inv(s) && ApiDone(s, sp) && InPlaceThere(s, sp)
    ensures ApiServed(s, sp)
  {
    hide Inv;
    PairsStored(s);
    assert NamedCerts(s) == [NamedCert(["api." + sp.domain], ApiSecret(sp))];
    if sp.apiCert.None? {
      assert s.objs[GENERATED_API].body.data[TlsCrt] == CertPem("api." + sp.domain, s.objs[GENERATED_API].body.data[TlsCrt].pair);
    }
  }

  lemma PairsStored(s: State)
    requires Inv(s)
    ensures PairsWhole(s)
  {
  }

  /** The three component routes of the platform. */
  function RoutesFor(domain: string, secret: SecretName): seq<ComponentRoute> {
    [ ComponentRoute("console-openshift-console.apps." + domain, "console", "openshift-console", secret),
      ComponentRoute("downloads-openshift-console.apps." + domain, "downloads", "openshift-console", secret),
      ComponentRoute("oauth-openshift.apps." + domain, "oauth-openshift", "openshift-authentication", secret) ]
  }

  /** The ingress serves a certificate for the applications, from both namespaces. */
  ghost predicate AppsServed(s: State, sp: Spec) {
    var secret := if sp.ingressCert.None? then GeneratedIngressSecret else CopiedIngressSecret;
    && DefaultCert(s) == Some(secret)
    && AppsDomain(s) == "apps." + sp.domain
    && ComponentRoutes(s) == RoutesFor(sp.domain, secret)
    && SecretKey(OpenshiftIngress, secret) in s.objs && SecretKey(OpenshiftConfig, secret) in s.objs
    && (sp.ingressCert.None? ==>
          HoldsPair(s, SecretKey(OpenshiftIngress, secret), "*.apps." + sp.domain)
          && HoldsPair(s, SecretKey(OpenshiftConfig, secret), "*.apps." + sp.domain))
  }

  lemma AppsInWords(s: State, sp: Spec)
    requires Inv(s) && IngressDone(s, sp)
    ensures AppsServed(s, sp)
  {
    hide Inv;
    PairsStored(s);
    if sp.ingressCert.None? {
      var pair := s.objs[GENERATED_INGRESS].body.data[TlsCrt].pair;
      assert s.objs[GENERATED_INGRESS].body.data[TlsCrt] == CertPem("*.apps." + sp.domain, pair);
    }
  }

  /** The registry is trusted under its host name, and its port if one is given. */
  ghost predicate RegistryTrusted(s: State, sp: Spec) {
    match sp.registryCert
    case None => !TrustedCA(s)
    case Some(rc) =>
      && TrustedCA(s) && RegistryConfigMap in s.objs
      && match rc.port
         case None => s.objs[RegistryConfigMap].body == ConfigMapBody(map[rc.hostname := rc.certificate])
         case Some(port) => s.objs[RegistryConfigMap].body == ConfigMapBody(map[rc.hostname + ".." + Decimal(port) := rc.certificate])
  }

  lemma RegistryInWords(s: State, sp: Spec)
    requires RegistryDone(s, sp)
    ensures RegistryTrusted(s, sp)
  {
    if sp.registryCert.Some? {
      var host, port := sp.registryCert.value.hostname, sp.registryCert.value.port;
      assert host + "" == host;
      assert port.Some? ==> host + (".." + Decimal(port.value)) == host + ".." + Decimal(port.value);
    }
  }

  /** A Reconciled=True that is new in the store says this of the cluster, in the names that the platform reads. */
  lemma StatusInWords(states: seq<State>, events: seq<Event>, i: nat)
    requires History(states, events) && i < |events|
    requires ClusterName in states[i + 1].crs && IsTrue(states[i + 1].crs[ClusterName])
    requires ClusterName in states[i].crs ==> states[i].crs[ClusterName].reconciled != states[i + 1].crs[ClusterName].reconciled
    ensures var s, sp := states[i], states[i + 1].crs[ClusterName].spec;
      && (InPlaceThere(s, sp) ==> ApiServed(s, sp))
      && AppsServed(s, sp)
      && RegistryTrusted(s, sp)
      && (sp.sshKeys.Some? ==>
            SshConfig(Master) in s.objs && s.objs[SshConfig(Master)].body == SshBody(Master, sp.sshKeys.value)
            && SshConfig(Worker) in s.objs && s.objs[SshConfig(Worker)].body == SshBody(Worker, sp.sshKeys.value))
      && (sp.internalDns == Some(true) && s.singleNode ==> DnsConfig in s.objs && s.objs[DnsConfig].body == DnsBody(sp.domain))
  {
    var s, sp := states[i], states[i + 1].crs[ClusterName].spec;
    hide Run, Init, Inv, IngressDone, ApiDone, RegistryDone, MirrorDone, PullDone, CatalogDone, HoldsCopy, ReadAvailable,
      ApiServed, AppsServed, RegistryTrusted;
    StatusIsTruthful(states, events, i, ClusterName);
    Always(states, events, i);
    assert SshRoleDone(s, sp, Master) && SshRoleDone(s, sp, Worker);
    if InPlaceThere(s, sp) { ApiInWords(s, sp); }
    AppsInWords(s, sp);
    RegistryInWords(s, sp);
  }
}
