/** internal/mirror: the mirror list, as an ImageContentSourcePolicy before 4.13 and as an ImageDigestMirrorSet from then on. */
module Mirror {
  import opened Types
  import opened Store
  import opened Goals
  import opened Protocol
  import opened Preservation
  import opened Fixpoints
  import opened ClusterApi
  import Client
  import SemVer

  /** `version` was read at the start of the pass; the cluster may have been upgraded since. */
  predicate WasRead(s: State, version: SemVer.Version) {
    && (SemVer.Legacy(version) ==> !s.modern)
    && (!SemVer.Legacy(version) ==> !SemVer.Legacy(s.version))
  }

  /** The one mirror object is of the kind for this version. */
  predicate KindFor(s: State, version: SemVer.Version, ms: seq<DigestMirror>) {
    if SemVer.Before413(version) then Holds(s, Icsp, IcspBody(Converted(ms))) && Idms !in s.objs
    else Holds(s, Idms, IdmsBody(ms)) && Icsp !in s.objs
  }

  method Reconcile(c: Cluster, cr: Relocation, version: SemVer.Version, ghost calm: bool) returns (ok: bool)
    requires c.Works(cr) && WasRead(c.st, version)
    requires calm ==> c.Calm() && version == c.st.version
    modifies c
    ensures c.Went(Keys(MirrorPart)) && c.Works(cr)
    ensures ok ==> MirrorDone(c.st, cr.spec)
    ensures ok && cr.spec.mirrors.Some? ==> KindFor(c.st, version, cr.spec.mirrors.value)
    ensures calm ==> Quiet(old(c.st), c.st, Keys(MirrorPart))
    ensures calm && ok ==> MirrorSettled(c.st, cr)
    ensures calm && MirrorSettled(old(c.st), cr) ==> c.Rested()
    ensures old(c.Faultless()) ==> ok
  {
    hide Run, Inv, Steady, Quiet, Licence, Applying, Holds, Mine, SemVer.Legacy, SemVer.Before413, Converted;
    SemVer.LegacyInNumbers(version);
    if cr.spec.mirrors.None? {
      ok := Cleanup(c, cr, version, calm);
      return;
    }
    if SemVer.Legacy(version) {
      ok := CreateIcsp(c, cr, cr.spec.mirrors.value);
      NoIdmsYet(c.st);
      VersionKept(old(c.st), c.st, iset{Icsp});
      Widen(old(c.st), c.st, iset{Icsp}, Keys(MirrorPart));
      return;
    }
    // after an upgrade from 4.12, the old ImageContentSourcePolicy goes first
    DropLicence(c.st, Icsp);
    ok := Client.Remove(c, Icsp);
    Widen(old(c.st), c.st, iset{Icsp}, Keys(MirrorPart));
    VersionKept(old(c.st), c.st, iset{Icsp});
    if !ok { return; }
    ghost var before := c.st;
    ok := CreateIdms(c, cr, cr.spec.mirrors.value);
    VersionKept(before, c.st, iset{Idms});
    Join(old(c.st), before, c.st, iset{Icsp}, iset{Idms}, Keys(MirrorPart));
    AbsentKept(before, c.st, iset{Idms}, Icsp);
  }

  lemma NoIdmsYet(s: State)
    requires Inv(s) && !s.modern
    ensures Idms !in s.objs
  {
  }

  lemma VersionKept(s: State, t: State, f: iset<Key>)
    requires Steady(s, t, f)
    ensures !SemVer.Legacy(s.version) ==> !SemVer.Legacy(t.version)
    ensures Idms !in f ==> t.modern == s.modern
    ensures Quiet(s, t, f) ==> t.version == s.version
  {
  }

  method Cleanup(c: Cluster, cr: Relocation, version: SemVer.Version, ghost calm: bool) returns (ok: bool)
    requires c.Works(cr) && cr.spec.mirrors.None? && WasRead(c.st, version)
    requires calm ==> c.Calm() && version == c.st.version
    modifies c
    ensures c.Went(Keys(MirrorPart)) && c.Works(cr)
    ensures ok ==> MirrorDone(c.st, cr.spec)
    ensures ok && SemVer.Before413(version) ==> Icsp !in c.st.objs
    // an ImageContentSourcePolicy from before the upgrade to 4.13 stays behind, and that is the only case
    ensures calm && ok ==> (Icsp in c.st.objs <==> Icsp in old(c.st).objs && !SemVer.Before413(version)) && Idms !in c.st.objs
    ensures calm ==> Quiet(old(c.st), c.st, Keys(MirrorPart))
    ensures calm && ok ==> MirrorSettled(c.st, cr)
    ensures calm && MirrorSettled(old(c.st), cr) ==> c.Rested()
    ensures old(c.Faultless()) ==> ok
  {
    hide Run, Inv, Steady, Quiet, Licence, Applying, Holds, SemVer.Legacy, SemVer.Before413;
    SemVer.LegacyInNumbers(version);
    var k := if SemVer.Legacy(version) then Icsp else Idms;
    DropLicence(c.st, k);
    ok := Client.Remove(c, k);
    VersionKept(old(c.st), c.st, iset{k});
    if k == Icsp { NoIdmsYet(c.st); }
    Widen(old(c.st), c.st, iset{k}, Keys(MirrorPart));
  }

  method CreateIcsp(c: Cluster, cr: Relocation, ms: seq<DigestMirror>) returns (ok: bool)
    requires c.Works(cr) && !c.st.modern
    modifies c
    ensures c.Went(iset{Icsp}) && c.Works(cr) && !c.st.modern
    ensures ok ==> Holds(c.st, Icsp, IcspBody(Converted(ms)))
    ensures old(c.Calm()) ==> Quiet(old(c.st), c.st, iset{Icsp})
    ensures old(c.Calm()) && ok ==> Mine(c.st, cr, Icsp, IcspBody(Converted(ms)))
    ensures old(c.Calm()) && Mine(old(c.st), cr, Icsp, IcspBody(Converted(ms))) ==> c.Rested()
    ensures old(c.Faultless()) ==> ok
  {
    hide Run, Inv, Steady, Quiet, Licence, Applying;
    var rs := Convert(ms);
    MirrorLicence(c.st, IcspBody(rs));
    NotBlocked(c.st, Icsp, IcspBody(rs), true);
    ok := Client.Apply(c, Icsp, IcspBody(rs), true);
    VersionKept(old(c.st), c.st, iset{Icsp});
  }

  method CreateIdms(c: Cluster, cr: Relocation, ms: seq<DigestMirror>) returns (ok: bool)
    requires c.Works(cr) && Icsp !in c.st.objs && !SemVer.Legacy(c.st.version)
    modifies c
    ensures c.Went(iset{Idms}) && c.Works(cr)
    ensures ok ==> Holds(c.st, Idms, IdmsBody(ms))
    ensures old(c.Calm()) ==> Quiet(old(c.st), c.st, iset{Idms})
    ensures old(c.Calm()) && ok ==> Mine(c.st, cr, Idms, IdmsBody(ms))
    ensures old(c.Calm()) && Mine(old(c.st), cr, Idms, IdmsBody(ms)) ==> c.Rested()
    ensures old(c.Faultless()) ==> ok
  {
    hide Run, Inv, Steady, Quiet, Licence, Applying;
    MirrorLicence(c.st, IdmsBody(ms));
    NotBlocked(c.st, Idms, IdmsBody(ms), true);
    ok := Client.Apply(c, Idms, IdmsBody(ms), true);
  }

  /** The two append loops that turn a mirror list into the older form. */
  method Convert(ms: seq<DigestMirror>) returns (rs: seq<RepositoryMirror>)
    ensures rs == Converted(ms)
  {
    rs := [];
    for i := 0 to |ms|
      invariant rs == Converted(ms)[..i]
    {
      var mirrors := [];
      for j := 0 to |ms[i].mirrors|
        invariant mirrors == ms[i].mirrors[..j]
      {
        mirrors := mirrors + [ms[i].mirrors[j]];
      }
      assert mirrors == ms[i].mirrors;
      rs := rs + [RepositoryMirror(ms[i].source, mirrors)];
    }
  }
}
