/** internal/ssh: the SSH keys of the core user, one MachineConfig per role. */
module Ssh {
  import opened Types
  import opened Store
  import opened Goals
  import opened Protocol
  import opened Preservation
  import opened Fixpoints
  import opened ClusterApi
  import Client

  const ROLES := [Master, Worker]

  method Reconcile(c: Cluster, cr: Relocation) returns (ok: bool)
    requires c.Works(cr)
    modifies c
    ensures c.Went(Keys(SshPart)) && c.Works(cr)
    ensures ok ==> SshDone(c.st, cr.spec)
    ensures old(c.Calm()) ==> Quiet(old(c.st), c.st, Keys(SshPart))
    ensures old(c.Calm()) && ok ==> SshSettled(c.st, cr)
    ensures old(c.Calm()) && SshSettled(old(c.st), cr) ==> c.Rested()
    ensures old(c.Faultless()) ==> ok
  {
    hide Run, Inv, Steady, Quiet, Licence, Applying, SshDone, Holds, Mine;
    if cr.spec.sshKeys.None? {
      ok := Cleanup(c, cr);
      return;
    }
    Stay(c.st, Keys(SshPart));
    var i := 0;
    while i < |ROLES|
      invariant 0 <= i <= |ROLES|
      invariant c.Went(Keys(SshPart)) && c.Works(cr)
      invariant forall j :: 0 <= j < i ==> SshRoleDone(c.st, cr.spec, ROLES[j])
      invariant old(c.Calm()) ==> Quiet(old(c.st), c.st, Keys(SshPart))
      invariant old(c.Calm()) ==> forall j :: 0 <= j < i ==> SshRoleSettled(c.st, cr, ROLES[j])
      invariant old(c.Calm()) && SshSettled(old(c.st), cr) ==> c.Rested()
    {
      var r := ROLES[i];
      var b := SshBody(r, cr.spec.sshKeys.value);
      ghost var before := c.st;
      OwnLicence(c.st, SshConfig(r), b);
      NotBlocked(c.st, SshConfig(r), b, true);
      ok := Client.Apply(c, SshConfig(r), b, true);
      Join(old(c.st), before, c.st, Keys(SshPart), iset{SshConfig(r)}, Keys(SshPart));
      if !ok { return; }
      forall j | 0 <= j < i ensures SshRoleDone(c.st, cr.spec, ROLES[j]) && (old(c.Calm()) ==> SshRoleSettled(c.st, cr, ROLES[j])) {
        RoleKept(before, c.st, cr, ROLES[j], r);
      }
      i := i + 1;
    }
    ok := true;
    BothRoles(c.st, cr);
  }

  method Cleanup(c: Cluster, cr: Relocation) returns (ok: bool)
    requires c.Works(cr) && cr.spec.sshKeys.None?
    modifies c
    ensures c.Went(Keys(SshPart)) && c.Works(cr)
    ensures ok ==> SshDone(c.st, cr.spec)
    ensures old(c.Calm()) ==> Quiet(old(c.st), c.st, Keys(SshPart))
    ensures old(c.Calm()) && ok ==> SshSettled(c.st, cr)
    ensures old(c.Calm()) && SshSettled(old(c.st), cr) ==> c.Rested()
    ensures old(c.Faultless()) ==> ok
  {
    hide Run, Inv, Steady, Quiet, Licence, Applying, SshDone;
    Stay(c.st, Keys(SshPart));
    var i := 0;
    while i < |ROLES|
      invariant 0 <= i <= |ROLES|
      invariant c.Went(Keys(SshPart)) && c.Works(cr)
      invariant forall j :: 0 <= j < i ==> SshRoleDone(c.st, cr.spec, ROLES[j]) && SshRoleSettled(c.st, cr, ROLES[j])
      invariant old(c.Calm()) ==> Quiet(old(c.st), c.st, Keys(SshPart))
      invariant old(c.Calm()) && SshSettled(old(c.st), cr) ==> c.Rested()
    {
      var r := ROLES[i];
      ghost var before := c.st;
      DropLicence(c.st, SshConfig(r));
      ok := Client.Remove(c, SshConfig(r));
      Join(old(c.st), before, c.st, Keys(SshPart), iset{SshConfig(r)}, Keys(SshPart));
      if !ok { return; }
      forall j | 0 <= j < i ensures SshRoleDone(c.st, cr.spec, ROLES[j]) {
        RoleKept(before, c.st, cr, ROLES[j], r);
      }
      i := i + 1;
    }
    ok := true;
    BothRoles(c.st, cr);
  }

  /** Writing the MachineConfig of one role leaves the other alone. */
  lemma RoleKept(s: State, t: State, cr: Relocation, r: Role, written: Role)
    requires Steady(s, t, iset{SshConfig(written)}) && r != written
    ensures SshRoleDone(s, cr.spec, r) ==> SshRoleDone(t, cr.spec, r)
    ensures Quiet(s, t, iset{SshConfig(written)}) && SshRoleSettled(s, cr, r) ==> SshRoleSettled(t, cr, r)
  {
    if Quiet(s, t, iset{SshConfig(written)}) { assert KeptAt(s, t, SshConfig(r)); }
  }

  lemma BothRoles(s: State, cr: Relocation)
    requires forall j :: 0 <= j < |ROLES| ==> SshRoleDone(s, cr.spec, ROLES[j])
    ensures SshDone(s, cr.spec)
    ensures (forall j :: 0 <= j < |ROLES| ==> SshRoleSettled(s, cr, ROLES[j])) ==> SshSettled(s, cr)
  {
    assert SshRoleDone(s, cr.spec, ROLES[0]) && SshRoleDone(s, cr.spec, ROLES[1]);
    forall r ensures SshRoleDone(s, cr.spec, r) { assert r == ROLES[0] || r == ROLES[1]; }
  }
}
