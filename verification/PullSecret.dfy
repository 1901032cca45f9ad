/** internal/pullSecret: the backup, replace, restore, delete-backup protocol for the cluster-wide pull secret. */
module PullSecrets {
  import opened Types
  import opened Store
  import opened Goals
  import opened Protocol
  import opened Preservation
  import opened Fixpoints
  import opened ClusterApi
  import opened Secrets

  /** The user's secret is installed over a backup of the original; or the original is back and there is no backup. */
  predicate PullSettled(s: State, cr: Relocation) {
    match cr.spec.pullSecret
    case None => BACKUP !in s.objs
    case Some(ref) =>
      && !ref.Incomplete() && BACKUP in s.objs && HasType(s, ref.Key(), DockerConfigJson)
      && CopySettled(s, ref.Key(), LIVE, true, false)
  }

  predicate PullFeasible(s: State, cr: Relocation) {
    cr.spec.pullSecret.Some? ==>
      !cr.spec.pullSecret.value.Incomplete() && HasType(s, cr.spec.pullSecret.value.Key(), DockerConfigJson)
  }

  method Reconcile(c: Cluster, cr: Relocation) returns (ok: bool)
    requires c.Works(cr)
    modifies c
    ensures c.Went(Keys(PullPart)) && c.Works(cr)
    ensures ok ==> PullDone(c.st, cr.spec)
    ensures ok && cr.spec.pullSecret.Some? ==> CopiedFrom(c, cr.spec.pullSecret.value.Key(), LIVE)
    ensures ok && cr.spec.pullSecret.Some? ==>
              cr.spec.pullSecret.value.namespace != OtherNamespace("") && cr.spec.pullSecret.value.name != OtherSecret("")
    ensures old(c.Calm()) ==> Quiet(old(c.st), c.st, Keys(PullPart))
    ensures old(c.Calm()) && ok ==> PullSettled(c.st, cr)
    ensures old(c.Calm()) && PullSettled(old(c.st), cr) ==> c.Rested()
    ensures old(c.Faultless()) ==> ok == PullFeasible(old(c.st), cr)
  {
    hide Run, Inv, Steady, Quiet, Licence, Applying, CopySettled;
    if cr.spec.pullSecret.None? {
      // the user may have dropped the reference
      ok := Cleanup(c);
      return;
    }
    var ref := cr.spec.pullSecret.value;
    ReferencesWellFormed(c.st);
    Stay(c.st, Keys(PullPart));
    if ref.Incomplete() { return false; }

    ok := ValidateSecretType(c, ref.Key(), DockerConfigJson);
    Widen(old(c.st), c.st, NOTHING, Keys(PullPart));
    if !ok { return; }

    ghost var valid := c.st;
    ok := Install(c, cr, ref.Key());
    Join(old(c.st), valid, c.st, Keys(PullPart), PullKeys(), Keys(PullPart));
    UserKeyApart(ref.Key());
    TypeKept(valid, c.st, PullKeys(), ref.Key(), DockerConfigJson);
  }

  ghost function PullKeys(): iset<Key> { iset{LIVE, BACKUP} }

  lemma UserKeyApart(k: Key)
    requires UserKey(k)
    ensures k !in PullKeys() && PullKeys() <= Keys(PullPart)
  {
  }

  /** Backup, then replace. The user's secret is owned (not controlled) to watch it; the cluster-wide pull secret is not owned. */
  method Install(c: Cluster, cr: Relocation, orig: Key) returns (ok: bool)
    requires c.Works(cr) && UserKey(orig) && cr.spec.Copies(orig)
    modifies c
    ensures c.Went(PullKeys()) && c.Works(cr)
    ensures ok ==> Firm(c.st, BACKUP) && CopiedFrom(c, orig, LIVE) && (orig, c.st.objs[LIVE].body) in c.st.held
    ensures old(c.Calm()) ==> Quiet(old(c.st), c.st, PullKeys())
    ensures old(c.Calm()) && ok ==> BACKUP in c.st.objs && CopySettled(c.st, orig, LIVE, true, false)
    ensures old(c.Calm()) && BACKUP in old(c.st).objs && CopySettled(old(c.st), orig, LIVE, true, false) ==> c.Rested()
    ensures old(c.Faultless()) ==> ok == (orig in old(c.st).objs)
  {
    hide Run, Inv, Steady, Quiet, Licence, Applying, CopySettled;
    ok := MakeBackup(c, cr);
    Widen(old(c.st), c.st, iset{BACKUP}, PullKeys());
    if !ok { return; }
    ghost var backed := c.st;
    ok := CopySecret(c, orig, LIVE, true, false);
    Join(old(c.st), backed, c.st, iset{BACKUP}, iset{LIVE}, PullKeys());
    HoldsKept(backed, c.st, iset{LIVE}, BACKUP, backed.objs[BACKUP].body);
    OriginalKept(old(c.st), backed, iset{BACKUP}, orig);
    OriginalMissing(old(c.st), backed, iset{BACKUP}, orig);
  }

  lemma OriginalMissing(s: State, t: State, f: iset<Key>, k: Key)
    requires k !in f
    ensures Quiet(s, t, f) && k !in s.objs ==> k !in t.objs
  {
    if Quiet(s, t, f) { assert KeptAt(s, t, k); }
  }

  /** The first backup, if there is none yet. */
  method MakeBackup(c: Cluster, cr: Relocation) returns (ok: bool)
    requires c.Works(cr)
    modifies c
    ensures c.Went(iset{BACKUP}) && c.Works(cr)
    ensures ok ==> Firm(c.st, BACKUP)
    ensures old(c.Calm()) ==> Quiet(old(c.st), c.st, iset{BACKUP})
    ensures old(c.Calm()) && BACKUP in old(c.st).objs ==> c.Rested()
    ensures old(c.Faultless()) ==> ok
  {
    hide Run, Inv, Steady, Quiet, Licence, Applying, CopySettled;
    var r := c.Get(BACKUP);
    Widen(old(c.st), c.st, NOTHING, iset{BACKUP});
    Stay(c.st, iset{BACKUP});
    LiveExists(c.st);
    OriginalSomewhere(c.st);
    if r.Failed? { return false; }
    if r.Ok? { return true; }
    ghost var read := c.st;
    ok := CopySecret(c, LIVE, BACKUP, false, true);
    Join(old(c.st), read, c.st, iset{BACKUP}, iset{BACKUP}, iset{BACKUP});
  }

  /** Restore the original, then delete the backup. Also run by the finalizer. */
  method Cleanup(c: Cluster) returns (ok: bool)
    requires c.Valid() && (Applying(c.st) || Finalising(c.st))
    modifies c
    ensures c.Went(Keys(PullPart))
    ensures ok ==> BACKUP !in c.st.objs && LIVE in c.st.objs && c.st.objs[LIVE].body == c.st.original
    ensures old(c.Calm()) ==> Quiet(old(c.st), c.st, Keys(PullPart))
    ensures old(c.Calm()) && BACKUP !in old(c.st).objs ==> c.Rested()
    ensures old(c.Faultless()) ==> ok
  {
    hide Run, Inv, Steady, Quiet, Licence, Applying, Finalising, CopySettled, Collectable, KeptAt;
    var r := c.Get(BACKUP);
    Widen(old(c.st), c.st, NOTHING, Keys(PullPart));
    Stay(c.st, Keys(PullPart));
    OriginalSomewhere(c.st);
    if r.Failed? { return false; }
    if r.NotFound? { return true; }
    ghost var read := c.st;
    ok := CopySecret(c, BACKUP, LIVE, false, false);
    Join(old(c.st), read, c.st, Keys(PullPart), iset{LIVE}, Keys(PullPart));
    if !ok { return; }
    ghost var restored := c.st;
    HoldsKept(read, restored, iset{LIVE}, BACKUP, read.objs[BACKUP].body);
    ok := DropBackup(c);
    OriginalSomewhere(c.st);
    Join(old(c.st), restored, c.st, Keys(PullPart), iset{BACKUP}, Keys(PullPart));
  }

  /** The backup goes only while the live pull secret holds the same. */
  method DropBackup(c: Cluster) returns (ok: bool)
    requires c.Valid() && (Applying(c.st) || Finalising(c.st))
    requires LIVE in c.st.objs && BACKUP in c.st.objs && c.st.objs[LIVE].body == c.st.objs[BACKUP].body
    modifies c
    ensures c.Went(iset{BACKUP})
    ensures ok ==> BACKUP !in c.st.objs
    ensures old(c.Calm()) ==> Quiet(old(c.st), c.st, iset{BACKUP})
    ensures old(c.Faultless()) ==> ok
  {
    hide Run, Inv, Steady, Quiet, Licence, Applying, Finalising, Effect;
    DropBackupLicence(c.st);
    WriteIsQuiet(c.st, Del(BACKUP));
    Stay(c.st, iset{BACKUP});
    var sent := c.Send(Del(BACKUP));
    ok := sent.Ok?;
  }

  lemma LiveExists(s: State)
    requires Inv(s)
    ensures LIVE in s.objs
  {
  }

  lemma OriginalSomewhere(s: State)
    requires Inv(s)
    ensures BACKUP in s.objs ==> Holds(s, BACKUP, s.original)
    ensures BACKUP !in s.objs ==> LIVE in s.objs && s.objs[LIVE].body == s.original
  {
  }

  lemma DropBackupLicence(s: State)
    requires Applying(s) || Finalising(s)
    requires BACKUP in s.objs ==> LIVE in s.objs && s.objs[LIVE].body == s.objs[BACKUP].body
    ensures Licence(s, Del(BACKUP))
  {
    hide Applying, Finalising;
  }
}
