/** internal/ingress: the ingress certificate in two namespaces, the references to it, and the reset of stale routes. */
module Ingresses {
  import opened Types
  import opened Store
  import opened Goals
  import opened Protocol
  import opened Preservation
  import opened Fixpoints
  import opened ClusterApi
  import opened Secrets
  import Client

  function IngressKey(ns: Namespace, sp: Spec): Key { SecretKey(ns, IngressSecret(sp)) }


  ghost function Generated(): iset<Key> { iset{GENERATED_INGRESS, GENERATED_INGRESS_COPY} }
  ghost function Copies(): iset<Key> { iset{COPIED_INGRESS, COPIED_INGRESS_COPY} }
  ghost function Certificates(): iset<Key> { Generated() + Copies() }

  /* ---------------------------------------------------------- certificates */

  predicate CertSettled(s: State, cr: Relocation) {
    match cr.spec.ingressCert
    case None =>
      PairSettled(s, cr, GENERATED_INGRESS, WildcardHost(cr.spec.domain)) && CopySettled(s, GENERATED_INGRESS, GENERATED_INGRESS_COPY, false, true)
    case Some(ref) =>
      && !ref.Incomplete() && HasType(s, ref.Key(), Tls)
      && CopySettled(s, ref.Key(), COPIED_INGRESS, true, true)
      && CopySettled(s, ref.Key(), COPIED_INGRESS_COPY, true, true)
  }

  predicate IngressFeasible(s: State, cr: Relocation) {
    match cr.spec.ingressCert
    case None => PairFeasible(s, GENERATED_INGRESS, WildcardHost(cr.spec.domain))
    case Some(ref) => !ref.Incomplete() && HasType(s, ref.Key(), Tls)
  }

  /** The pair for the domain in openshift-ingress, and the same pair in openshift-config. */
  method GenerateCertificates(c: Cluster, cr: Relocation) returns (ok: bool)
    requires c.Works(cr) && cr.spec.ingressCert.None?
    modifies c
    ensures c.Went(Generated()) && c.Works(cr)
    ensures ok ==> Firm(c.st, GENERATED_INGRESS) && HasPair(c.st, GENERATED_INGRESS, WildcardHost(cr.spec.domain))
                   && Holds(c.st, GENERATED_INGRESS_COPY, c.st.objs[GENERATED_INGRESS].body)
    ensures old(c.Calm()) ==> Quiet(old(c.st), c.st, Generated())
    ensures old(c.Calm()) && ok ==> CertSettled(c.st, cr)
    ensures old(c.Calm()) && CertSettled(old(c.st), cr) ==> c.Rested()
    ensures old(c.Faultless()) ==> ok == IngressFeasible(old(c.st), cr)
  {
    hide Run, Inv, Steady, Quiet, Licence, Applying, CopySettled, PairFeasible, KeptAt, DataOf, CommonName, Collectable;
    var commonName := WildcardHost(cr.spec.domain);
    ok := KeepKeyPair(c, cr, GENERATED_INGRESS, commonName);
    Widen(old(c.st), c.st, iset{GENERATED_INGRESS}, Generated());
    if !ok { return; }
    ghost var kept := c.st;
    ok := CopySecret(c, GENERATED_INGRESS, GENERATED_INGRESS_COPY, false, true);
    Join(old(c.st), kept, c.st, iset{GENERATED_INGRESS}, iset{GENERATED_INGRESS_COPY}, Generated());
    HoldsKept(kept, c.st, iset{GENERATED_INGRESS_COPY}, GENERATED_INGRESS, kept.objs[GENERATED_INGRESS].body);
    if old(c.Calm()) { SameKept(kept, c.st, iset{GENERATED_INGRESS_COPY}, GENERATED_INGRESS); }
  }

  /** The user's certificate, copied to both namespaces. */
  method CopyCertificates(c: Cluster, cr: Relocation) returns (ok: bool)
    requires c.Works(cr) && cr.spec.ingressCert.Some?
    modifies c
    ensures c.Went(Copies()) && c.Works(cr)
    ensures ok ==> IngressCopyDone(c.st, cr.spec)
    ensures ok && cr.spec.ingressCert.Some? ==>
              cr.spec.ingressCert.value.namespace != OtherNamespace("") && cr.spec.ingressCert.value.name != OtherSecret("")
    ensures old(c.Calm()) ==> Quiet(old(c.st), c.st, Copies())
    ensures old(c.Calm()) && ok ==> CertSettled(c.st, cr)
    ensures old(c.Calm()) && CertSettled(old(c.st), cr) ==> c.Rested()
    ensures old(c.Faultless()) ==> ok == IngressFeasible(old(c.st), cr)
  {
    hide Run, Inv, Steady, Quiet, Licence, Applying, CopySettled;
    var ref := cr.spec.ingressCert.value;
    ReferencesWellFormed(c.st);
    Stay(c.st, Copies());
    if ref.Incomplete() { return false; }
    ok := ValidateSecretType(c, ref.Key(), Tls);
    Widen(old(c.st), c.st, NOTHING, Copies());
    Stay(c.st, Copies());
    if !ok { return; }
    ghost var valid := c.st;
    ok := CopyTwice(c, cr, ref);
    Join(old(c.st), valid, c.st, Copies(), Copies(), Copies());
    UserKeyApart(ref.Key());
    TypeKept(valid, c.st, Copies(), ref.Key(), Tls);
  }

  lemma UserKeyApart(k: Key)
    requires UserKey(k)
    ensures k !in Copies()
  {
  }

  /** First where the ingress controller reads it, then where the component routes do. */
  method CopyTwice(c: Cluster, cr: Relocation, ref: SecretRef) returns (ok: bool)
    requires c.Works(cr) && UserKey(ref.Key()) && cr.spec.ingressCert == Some(ref)
    modifies c
    ensures c.Went(Copies()) && c.Works(cr)
    ensures ok ==> IngressCopyDone(c.st, cr.spec)
    ensures old(c.Calm()) ==> Quiet(old(c.st), c.st, Copies())
    ensures old(c.Calm()) && ok ==> BothCopies(c.st, ref.Key())
    ensures old(c.Calm()) && BothCopies(old(c.st), ref.Key()) ==> c.Rested()
    ensures old(c.Faultless()) ==> ok == (ref.Key() in old(c.st).objs)
  {
    hide Run, Inv, Steady, Quiet, Licence, Applying, CopySettled, KeptAt;
    var orig := ref.Key();
    ok := CopySecret(c, orig, COPIED_INGRESS, true, true);
    Widen(old(c.st), c.st, iset{COPIED_INGRESS}, Copies());
    if !ok { return; }
    ghost var copied := c.st;
    ok := CopySecret(c, orig, COPIED_INGRESS_COPY, true, true);
    Join(old(c.st), copied, c.st, iset{COPIED_INGRESS}, iset{COPIED_INGRESS_COPY}, Copies());
    SecondCopy(copied, c.st, ref);
    StaysThere(old(c.st), copied, iset{COPIED_INGRESS}, orig);
  }

  /** The first copy, once the second has been written. */
  lemma SecondCopy(s: State, t: State, ref: SecretRef)
    requires UserKey(ref.Key()) && Steady(s, t, iset{COPIED_INGRESS_COPY}) && Firm(s, COPIED_INGRESS) && Copied(s, ref, COPIED_INGRESS)
    ensures Firm(t, COPIED_INGRESS) && Copied(t, ref, COPIED_INGRESS)
    ensures Quiet(s, t, iset{COPIED_INGRESS_COPY}) && CopySettled(s, ref.Key(), COPIED_INGRESS, true, true) ==>
      CopySettled(t, ref.Key(), COPIED_INGRESS, true, true)
  {
    hide Steady, Quiet, Firm, Copied, CopySettled;
    CopyKept(s, t, iset{COPIED_INGRESS_COPY}, ref.Key(), COPIED_INGRESS);
    SteadyKeepsCopied(s, t, iset{COPIED_INGRESS_COPY}, ref, COPIED_INGRESS);
  }

  predicate BothCopies(s: State, orig: Key) {
    CopySettled(s, orig, COPIED_INGRESS, true, true) && CopySettled(s, orig, COPIED_INGRESS_COPY, true, true)
  }

  lemma StaysThere(s: State, t: State, f: iset<Key>, k: Key)
    requires k !in f
    ensures Quiet(s, t, f) ==> (k in s.objs <==> k in t.objs)
  {
    if Quiet(s, t, f) { assert KeptAt(s, t, k); }
  }

  /** A copy stays a copy while something else is written. */
  lemma CopyKept(s: State, t: State, f: iset<Key>, orig: Key, dest: Key)
    requires orig !in f && dest !in f && !UserKey(dest)
    ensures Quiet(s, t, f) && CopySettled(s, orig, dest, true, true) ==> CopySettled(t, orig, dest, true, true)
    ensures Quiet(s, t, f) && CopySettled(s, orig, dest, false, true) ==> CopySettled(t, orig, dest, false, true)
  {
    if Quiet(s, t, f) {
      assert KeptAt(s, t, orig);
      SameKept(s, t, f, dest);
    }
  }

  /** Place the certificate in both namespaces, so that the secrets that are named next are there. */
  method PlaceCertificates(c: Cluster, cr: Relocation) returns (ok: bool)
    requires c.Works(cr)
    modifies c
    ensures c.Went(Certificates()) && c.Works(cr)
    ensures ok ==> Sound(c.st, IngressKey(OpenshiftIngress, cr.spec)) && Sound(c.st, IngressKey(OpenshiftConfig, cr.spec))
    ensures ok && cr.spec.ingressCert.Some? ==>
              cr.spec.ingressCert.value.namespace != OtherNamespace("") && cr.spec.ingressCert.value.name != OtherSecret("")
    ensures ok ==> IngressPairDone(c.st, cr.spec) && IngressCopyDone(c.st, cr.spec)
    ensures old(c.Calm()) ==> Quiet(old(c.st), c.st, Certificates())
    ensures old(c.Calm()) && ok ==> CertSettled(c.st, cr)
    ensures old(c.Calm()) && CertSettled(old(c.st), cr) ==> c.Rested()
    ensures old(c.Faultless()) ==> ok == IngressFeasible(old(c.st), cr)
  {
    hide Run, Inv, Steady, Quiet, Licence, Applying, CertSettled;
    if cr.spec.ingressCert.None? {
      ok := GenerateCertificates(c, cr);
      Widen(old(c.st), c.st, Generated(), Certificates());
    } else {
      ok := CopyCertificates(c, cr);
      Widen(old(c.st), c.st, Copies(), Certificates());
    }
  }

  /* ------------------------------------------------------------ references */

  predicate ReferencesSettled(s: State, cr: Relocation) {
    && Plain(s, IngressController, IngressControllerBody(Some(IngressSecret(cr.spec))))
    && Plain(s, IngressConfig, IngressBodyFor(cr.spec))
  }

  predicate IngressSettled(s: State, cr: Relocation) {
    CertSettled(s, cr) && ReferencesSettled(s, cr)
  }

  ghost function References(): iset<Key> { iset{IngressController, IngressConfig} }

  /** Name the certificate: first the ingress controller, then the apps domain with its component routes. */
  method PatchReferences(c: Cluster, cr: Relocation) returns (ok: bool)
    requires c.Works(cr)
    requires Sound(c.st, IngressKey(OpenshiftIngress, cr.spec)) && Sound(c.st, IngressKey(OpenshiftConfig, cr.spec))
    modifies c
    ensures c.Went(References()) && c.Works(cr)
    ensures ok ==> Holds(c.st, IngressController, IngressControllerBody(Some(IngressSecret(cr.spec))))
    ensures ok ==> Holds(c.st, IngressConfig, IngressBodyFor(cr.spec))
    ensures old(c.Calm()) ==> Quiet(old(c.st), c.st, References())
    ensures old(c.Calm()) && ok ==> ReferencesSettled(c.st, cr)
    ensures old(c.Calm()) && ReferencesSettled(old(c.st), cr) ==> c.Rested()
    ensures old(c.Faultless()) ==> ok
  {
    hide Run, Inv, Steady, Quiet, Licence, Applying, Sound, Collectable, IngressBodyFor;
    var b := IngressControllerBody(Some(IngressSecret(cr.spec)));
    ReferenceLicence(c.st, cr);
    NotBlocked(c.st, IngressController, b, false);
    ok := Client.Apply(c, IngressController, b, false);
    Widen(old(c.st), c.st, iset{IngressController}, References());
    SoundKept(old(c.st), c.st, iset{IngressController}, IngressKey(OpenshiftConfig, cr.spec));
    if !ok { return; }

    ghost var named := c.st;
    DomainLicence(c.st, cr);
    NotBlocked(c.st, IngressConfig, IngressBodyFor(cr.spec), false);
    ok := Client.Apply(c, IngressConfig, IngressBodyFor(cr.spec), false);
    Join(old(c.st), named, c.st, iset{IngressController}, iset{IngressConfig}, References());
    HoldsKept(named, c.st, iset{IngressConfig}, IngressController, b);
    if old(c.Calm()) { SameKept(named, c.st, iset{IngressConfig}, IngressController); }
  }

  lemma SoundKept(s: State, t: State, f: iset<Key>, k: Key)
    requires Steady(s, t, f) && Sound(s, k) && k !in f
    ensures Sound(t, k)
  {
    hide Sound, Applying, Finalising, Firm;
  }

  lemma ReferenceLicence(s: State, cr: Relocation)
    requires Applying(s) && Sound(s, IngressKey(OpenshiftIngress, cr.spec))
    ensures Licence(s, Put(IngressController, IngressControllerBody(Some(IngressSecret(cr.spec))), false))
  {
    hide Applying, Sound;
  }

  lemma DomainLicence(s: State, cr: Relocation)
    requires Applying(s) && Sound(s, IngressKey(OpenshiftConfig, cr.spec))
    ensures Licence(s, Put(IngressConfig, IngressBodyFor(cr.spec), false))
  {
    hide Applying, Sound;
  }

  method Reconcile(c: Cluster, cr: Relocation) returns (ok: bool)
    requires c.Works(cr)
    modifies c
    ensures c.Went(Keys(IngressPart)) && c.Works(cr)
    ensures ok ==> IngressDone(c.st, cr.spec)
    ensures ok && cr.spec.ingressCert.Some? ==>
              cr.spec.ingressCert.value.namespace != OtherNamespace("") && cr.spec.ingressCert.value.name != OtherSecret("")
    ensures old(c.Calm()) ==> Quiet(old(c.st), c.st, Keys(IngressPart))
    ensures old(c.Calm()) && ok ==> IngressSettled(c.st, cr)
    ensures old(c.Calm()) && IngressSettled(old(c.st), cr) ==> c.Rested()
    ensures old(c.Faultless()) ==> ok == IngressFeasible(old(c.st), cr)
  {
    hide Run, Inv, Steady, Quiet, Licence, Applying, CertSettled, ReferencesSettled, Sound, Holds, IngressPairDone, IngressCopyDone,
      IngressFeasible;
    ok := PlaceCertificates(c, cr);
    Widen(old(c.st), c.st, Certificates(), Keys(IngressPart));
    if !ok { return; }
    ghost var placed := c.st;
    ok := PatchReferences(c, cr);
    Join(old(c.st), placed, c.st, Certificates(), References(), Keys(IngressPart));
    CertKept(placed, c.st, cr);
    PairKept(placed, c.st, cr.spec);
  }

  lemma PairKept(s: State, t: State, sp: Spec)
    requires Steady(s, t, References()) && IngressPairDone(s, sp) && IngressCopyDone(s, sp)
    ensures IngressPairDone(t, sp) && IngressCopyDone(t, sp)
  {
    hide Applying, Finalising, Sound, Superseded, Goals.Copied, CatalogKept;
    if sp.ingressCert.Some? {
      SteadyKeepsCopied(s, t, References(), sp.ingressCert.value, COPIED_INGRESS);
      SteadyKeepsCopied(s, t, References(), sp.ingressCert.value, COPIED_INGRESS_COPY);
    }
  }

  lemma CertKept(s: State, t: State, cr: Relocation)
    ensures Quiet(s, t, References()) && CertSettled(s, cr) ==> CertSettled(t, cr)
  {
    hide CopySettled, Quiet;
    if Quiet(s, t, References()) && CertSettled(s, cr) {
      match cr.spec.ingressCert {
        case None =>
          SameKept(s, t, References(), GENERATED_INGRESS);
          CopyKept(s, t, References(), GENERATED_INGRESS, GENERATED_INGRESS_COPY);
        case Some(ref) =>
          TypeKept(s, t, References(), ref.Key(), Tls);
          CopyKept(s, t, References(), ref.Key(), COPIED_INGRESS);
          CopyKept(s, t, References(), ref.Key(), COPIED_INGRESS_COPY);
      }
    }
  }

  /** The ingress objects are not owned: the finalizer puts them back to their defaults. */
  method Cleanup(c: Cluster) returns (ok: bool)
    requires c.Valid() && (Applying(c.st) || Finalising(c.st))
    modifies c
    ensures c.Went(References())
    ensures ok ==> DefaultCert(c.st) == None && AppsDomain(c.st) == "" && ComponentRoutes(c.st) == []
    ensures old(c.Calm()) ==> Quiet(old(c.st), c.st, References())
    ensures old(c.Faultless()) ==> ok
  {
    hide Run, Inv, Steady, Quiet, Licence, Applying, Finalising;
    ClearLicence(c.st);
    NotBlocked(c.st, IngressController, IngressControllerBody(None), false);
    ok := Client.Apply(c, IngressController, IngressControllerBody(None), false);
    Widen(old(c.st), c.st, iset{IngressController}, References());
    if !ok { return; }
    ghost var cleared := c.st;
    ClearLicence(c.st);
    NotBlocked(c.st, IngressConfig, IngressBody("", []), false);
    ok := Client.Apply(c, IngressConfig, IngressBody("", []), false);
    Join(old(c.st), cleared, c.st, iset{IngressController}, iset{IngressConfig}, References());
    HoldsKept(cleared, c.st, iset{IngressConfig}, IngressController, IngressControllerBody(None));
  }

  lemma ClearLicence(s: State)
    requires Applying(s) || Finalising(s)
    ensures Licence(s, Put(IngressController, IngressControllerBody(None), false))
    ensures Licence(s, Put(IngressConfig, IngressBody("", []), false))
  {
    hide Applying, Finalising;
  }
}
