/** internal/api: the API server's serving certificate for the new domain. */
module ApiServers {
  import opened Types
  import opened Store
  import opened Goals
  import opened Protocol
  import opened Preservation
  import opened Fixpoints
  import opened ClusterApi
  import opened Secrets
  import Client

  /** The secret that the API server is going to name. */
  function ApiKey(sp: Spec): Key { SecretKey(OpenshiftConfig, ApiSecret(sp)) }

  /** The certificate is in place: generated for the domain, a copy of the user's, or the user's own. */
  predicate CertSettled(s: State, cr: Relocation) {
    match cr.spec.apiCert
    case None => PairSettled(s, cr, GENERATED_API, ApiHost(cr.spec.domain))
    case Some(ref) =>
      && !ref.Incomplete() && HasType(s, ref.Key(), Tls)
      && (ref.namespace != OpenshiftConfig ==> CopySettled(s, ref.Key(), COPIED_API, true, true))
  }

  predicate ApiSettled(s: State, cr: Relocation) {
    CertSettled(s, cr) && Plain(s, ApiServer, ApiBodyFor(cr.spec))
  }

  predicate ApiFeasible(s: State, cr: Relocation) {
    match cr.spec.apiCert
    case None => PairFeasible(s, GENERATED_API, ApiHost(cr.spec.domain))
    case Some(ref) => !ref.Incomplete() && HasType(s, ref.Key(), Tls)
  }

  method Reconcile(c: Cluster, cr: Relocation) returns (ok: bool)
    requires c.Works(cr)
    modifies c
    ensures c.Went(Keys(ApiPart)) && c.Works(cr)
    ensures ok ==> ApiDone(c.st, cr.spec)
    ensures ok && cr.spec.apiCert.Some? ==>
              cr.spec.apiCert.value.namespace != OtherNamespace("") && cr.spec.apiCert.value.name != OtherSecret("")
    ensures old(c.Calm()) ==> Quiet(old(c.st), c.st, Keys(ApiPart))
    ensures old(c.Calm()) && ok ==> ApiSettled(c.st, cr)
    ensures old(c.Calm()) && ApiSettled(old(c.st), cr) ==> c.Rested()
    ensures old(c.Faultless()) ==> ok == ApiFeasible(old(c.st), cr)
  {
    hide Run, Inv, Steady, Quiet, Licence, Applying, CertSettled, Sound;
    ok := PlaceCertificate(c, cr);
    Widen(old(c.st), c.st, Certificates(), Keys(ApiPart));
    if !ok { return; }
    ghost var placed := c.st;
    var b := ApiBodyFor(cr.spec);
    ApiLicence(c.st, cr);
    NotBlocked(c.st, ApiServer, b, false);
    ok := Client.Apply(c, ApiServer, b, false);
    Join(old(c.st), placed, c.st, Certificates(), iset{ApiServer}, Keys(ApiPart));
    CertKept(placed, c.st, cr);
    PairKept(placed, c.st, cr.spec);
  }

  lemma PairKept(s: State, t: State, sp: Spec)
    requires Steady(s, t, iset{ApiServer}) && ApiPairDone(s, sp) && ApiCopyDone(s, sp)
    ensures ApiPairDone(t, sp) && ApiCopyDone(t, sp)
  {
    hide Applying, Finalising, Sound, Superseded, Copied, CatalogKept;
    if sp.apiCert.Some? && sp.apiCert.value.namespace != OpenshiftConfig {
      SteadyKeepsCopied(s, t, iset{ApiServer}, sp.apiCert.value, COPIED_API);
    }
  }

  /** The APIServer is not owned: the finalizer puts it back to its default. */
  method Cleanup(c: Cluster) returns (ok: bool)
    requires c.Valid() && (Applying(c.st) || Finalising(c.st))
    modifies c
    ensures c.Went(iset{ApiServer})
    ensures ok ==> NamedCerts(c.st) == []
    ensures old(c.Calm()) ==> Quiet(old(c.st), c.st, iset{ApiServer})
    ensures old(c.Faultless()) ==> ok
  {
    hide Run, Inv, Steady, Quiet, Licence, Applying, Finalising;
    ClearApiLicence(c.st);
    NotBlocked(c.st, ApiServer, ApiServerBody([]), false);
    ok := Client.Apply(c, ApiServer, ApiServerBody([]), false);
  }

  lemma ClearApiLicence(s: State)
    requires Applying(s) || Finalising(s)
    ensures Licence(s, Put(ApiServer, ApiServerBody([]), false))
  {
    hide Applying, Finalising;
  }

  ghost function Certificates(): iset<Key> { iset{GENERATED_API, COPIED_API} }

  /** Generate, copy or find the certificate, so that the secret that is named next is there. */
  method PlaceCertificate(c: Cluster, cr: Relocation) returns (ok: bool)
    requires c.Works(cr)
    modifies c
    ensures c.Went(Certificates()) && c.Works(cr)
    ensures ok ==> Sound(c.st, ApiKey(cr.spec)) && ApiPairDone(c.st, cr.spec) && ApiCopyDone(c.st, cr.spec)
    ensures ok && cr.spec.apiCert.Some? ==>
              cr.spec.apiCert.value.namespace != OtherNamespace("") && cr.spec.apiCert.value.name != OtherSecret("")
    ensures old(c.Calm()) ==> Quiet(old(c.st), c.st, Certificates())
    ensures old(c.Calm()) && ok ==> CertSettled(c.st, cr)
    ensures old(c.Calm()) && CertSettled(old(c.st), cr) ==> c.Rested()
    ensures old(c.Faultless()) ==> ok == ApiFeasible(old(c.st), cr)
  {
    hide Run, Inv, Steady, Quiet, Licence, Applying, CopySettled;
    match cr.spec.apiCert {
      case None =>
        ok := KeepKeyPair(c, cr, GENERATED_API, ApiHost(cr.spec.domain));
        Widen(old(c.st), c.st, iset{GENERATED_API}, Certificates());
      case Some(ref) => ok := UseCertificate(c, cr, ref);
    }
  }

  /** The user's certificate: copied to where the API server reads it, or named where it is. */
  method UseCertificate(c: Cluster, cr: Relocation, ref: SecretRef) returns (ok: bool)
    requires c.Works(cr) && cr.spec.apiCert == Some(ref)
    modifies c
    ensures c.Went(Certificates()) && c.Works(cr)
    ensures ok ==> Sound(c.st, ApiKey(cr.spec)) && ApiCopyDone(c.st, cr.spec)
    ensures ok && cr.spec.apiCert.Some? ==>
              cr.spec.apiCert.value.namespace != OtherNamespace("") && cr.spec.apiCert.value.name != OtherSecret("")
    ensures old(c.Calm()) ==> Quiet(old(c.st), c.st, Certificates())
    ensures old(c.Calm()) && ok ==> CertSettled(c.st, cr)
    ensures old(c.Calm()) && CertSettled(old(c.st), cr) ==> c.Rested()
    ensures old(c.Faultless()) ==> ok == ApiFeasible(old(c.st), cr)
  {
    hide Run, Inv, Steady, Quiet, Licence, Applying, CopySettled;
    ReferencesWellFormed(c.st);
    Stay(c.st, Certificates());
    if ref.Incomplete() { return false; }
    ok := ValidateSecretType(c, ref.Key(), Tls);
    Widen(old(c.st), c.st, NOTHING, Certificates());
    Stay(c.st, Certificates());
    if !ok { return; }
    if ref.namespace != OpenshiftConfig {
      ghost var valid := c.st;
      ok := CopyCertificate(c, cr, ref);
      Join(old(c.st), valid, c.st, Certificates(), iset{COPIED_API}, Certificates());
      TypeKept(valid, c.st, iset{COPIED_API}, ref.Key(), Tls);
    } else {
      InPlaceSound(c.st, cr);
    }
  }

  method CopyCertificate(c: Cluster, cr: Relocation, ref: SecretRef) returns (ok: bool)
    requires c.Works(cr) && cr.spec.apiCert == Some(ref) && UserKey(ref.Key()) && ref.namespace != OpenshiftConfig
    modifies c
    ensures c.Went(iset{COPIED_API}) && c.Works(cr)
    ensures ok ==> Sound(c.st, ApiKey(cr.spec)) && ApiCopyDone(c.st, cr.spec)
    ensures old(c.Calm()) ==> Quiet(old(c.st), c.st, iset{COPIED_API})
    ensures old(c.Calm()) && ok ==> CopySettled(c.st, ref.Key(), COPIED_API, true, true)
    ensures old(c.Calm()) && CopySettled(old(c.st), ref.Key(), COPIED_API, true, true) ==> c.Rested()
    ensures old(c.Faultless()) ==> ok == (ref.Key() in old(c.st).objs)
  {
    hide Run, Inv, Steady, Quiet, Licence, Applying, CopySettled;
    ok := CopySecret(c, ref.Key(), COPIED_API, true, true);
  }

  /** The user's own secret may be named where it is. */
  lemma InPlaceSound(s: State, cr: Relocation)
    requires Inv(s) && Applying(s) && s.active == Some(cr)
    requires cr.spec.apiCert.Some? && cr.spec.apiCert.value.namespace == OpenshiftConfig && cr.spec.apiCert.value.Key() in s.objs
    ensures Sound(s, cr.spec.apiCert.value.Key())
  {
    if s.inPlaceSafe { assert InPlaceFirm(s, cr.spec); }
  }

  lemma ApiLicence(s: State, cr: Relocation)
    requires Applying(s) && Sound(s, ApiKey(cr.spec))
    ensures Licence(s, Put(ApiServer, ApiBodyFor(cr.spec), false))
  {
    hide Applying, Sound;
  }

  lemma CertKept(s: State, t: State, cr: Relocation)
    ensures Quiet(s, t, iset{ApiServer}) && CertSettled(s, cr) ==> CertSettled(t, cr)
  {
    if Quiet(s, t, iset{ApiServer}) {
      SameKept(s, t, iset{ApiServer}, GENERATED_API);
      SameKept(s, t, iset{ApiServer}, COPIED_API);
      if cr.spec.apiCert.Some? {
        assert KeptAt(s, t, cr.spec.apiCert.value.Key());
      }
    }
  }
}
