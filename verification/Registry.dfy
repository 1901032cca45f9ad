/** internal/registryCert: the trusted CA of the mirror registry. */
module Registry {
  import opened Types
  import opened Store
  import opened Goals
  import opened Protocol
  import opened Preservation
  import opened Fixpoints
  import opened ClusterApi
  import Client

  method Reconcile(c: Cluster, cr: Relocation) returns (ok: bool)
    requires c.Works(cr)
    modifies c
    ensures c.Went(Keys(RegistryPart)) && c.Works(cr)
    ensures ok ==> RegistryDone(c.st, cr.spec)
    ensures old(c.Calm()) ==> Quiet(old(c.st), c.st, Keys(RegistryPart))
    ensures old(c.Calm()) && ok ==> RegistrySettled(c.st, cr)
    ensures old(c.Calm()) && RegistrySettled(old(c.st), cr) ==> c.Rested()
    ensures old(c.Faultless()) ==> ok
  {
    hide Run, Inv, Steady, Quiet, Licence, Applying;
    if cr.spec.registryCert.None? {
      ok := Cleanup(c);
      Widen(old(c.st), c.st, iset{ImageConfig}, Keys(RegistryPart));
      return;
    }
    var b := ConfigMapBody(RegistryEntries(cr.spec.registryCert.value));
    OwnLicence(c.st, RegistryConfigMap, b);
    NotBlocked(c.st, RegistryConfigMap, b, true);
    ok := Client.Apply(c, RegistryConfigMap, b, true);
    Widen(old(c.st), c.st, iset{RegistryConfigMap}, Keys(RegistryPart));
    if !ok { return; }

    ghost var before := c.st;
    ImageLicence(c.st, true);
    NotBlocked(c.st, ImageConfig, ImageBody(true), false);
    ok := Client.Apply(c, ImageConfig, ImageBody(true), false);
    Join(old(c.st), before, c.st, iset{RegistryConfigMap}, iset{ImageConfig}, Keys(RegistryPart));
    HoldsKept(before, c.st, iset{ImageConfig}, RegistryConfigMap, b);
    if old(c.Calm()) { SameKept(before, c.st, iset{ImageConfig}, RegistryConfigMap); }
  }

  /** Also run by the finalizer. */
  method Cleanup(c: Cluster) returns (ok: bool)
    requires c.Valid() && (Applying(c.st) || Finalising(c.st))
    modifies c
    ensures c.Went(iset{ImageConfig})
    ensures ok ==> !TrustedCA(c.st)
    ensures old(c.Calm()) ==> Quiet(old(c.st), c.st, iset{ImageConfig})
    ensures old(c.Calm()) && ok ==> Plain(c.st, ImageConfig, ImageBody(false))
    ensures old(c.Calm()) && Plain(old(c.st), ImageConfig, ImageBody(false)) ==> c.Rested()
    ensures old(c.Faultless()) ==> ok
  {
    hide Run, Inv, Steady, Quiet, Licence, Applying, Finalising;
    ImageLicence(c.st, false);
    NotBlocked(c.st, ImageConfig, ImageBody(false), false);
    ok := Client.Apply(c, ImageConfig, ImageBody(false), false);
  }
}
