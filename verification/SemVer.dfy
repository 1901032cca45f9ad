/** Semantic versions, ordered as in section 11 of Semantic Versioning 2.0.0, and the one threshold the operator uses. */
module SemVer {

  datatype Identifier = Numeric(value: nat) | Alphanumeric(text: string)

  datatype Version = Invalid | Version(major: nat, minor: nat, patch: nat, prerelease: seq<Identifier>)

  datatype Order = Less | Equal | Greater

  function CompareNat(a: nat, b: nat): Order {
    if a < b then Less else if a == b then Equal else Greater
  }

  function CompareText(a: string, b: string): Order {
    if a == [] then (if b == [] then Equal else Less)
    else if b == [] then Greater
    else if a[0] == b[0] then CompareText(a[1..], b[1..])
    else CompareNat(a[0] as nat, b[0] as nat)
  }

  function CompareIdentifier(a: Identifier, b: Identifier): Order {
    match (a, b)
    case (Numeric(x), Numeric(y)) => CompareNat(x, y)
    case (Numeric(_), Alphanumeric(_)) => Less
    case (Alphanumeric(_), Numeric(_)) => Greater
    case (Alphanumeric(x), Alphanumeric(y)) => CompareText(x, y)
  }

  function ComparePrerelease(a: seq<Identifier>, b: seq<Identifier>): Order {
    if a == [] then (if b == [] then Equal else Less)
    else if b == [] then Greater
    else
      var first := CompareIdentifier(a[0], b[0]);
      if first == Equal then ComparePrerelease(a[1..], b[1..]) else first
  }

  /** semver.Compare: an invalid version is below every valid one, a prerelease is below its release. */
  function Compare(a: Version, b: Version): Order {
    match (a, b)
    case (Invalid, Invalid) => Equal
    case (Invalid, Version(_, _, _, _)) => Less
    case (Version(_, _, _, _), Invalid) => Greater
    case (Version(aMajor, aMinor, aPatch, aPre), Version(bMajor, bMinor, bPatch, bPre)) =>
      if aMajor != bMajor then CompareNat(aMajor, bMajor)
      else if aMinor != bMinor then CompareNat(aMinor, bMinor)
      else if aPatch != bPatch then CompareNat(aPatch, bPatch)
      else if aPre == [] then (if bPre == [] then Equal else Greater)
      else if bPre == [] then Less
      else ComparePrerelease(aPre, bPre)
  }

  const V4_13_0 := Version(4, 13, 0, [])

  /** ImageDigestMirrorSet does not exist yet: the cluster is older than 4.13.0. */
  predicate Legacy(v: Version) { Compare(v, V4_13_0) == Less }

  /** Older than 4.13.0, in numbers. */
  predicate Before413(v: Version) {
    || v.Invalid?
    || v.major < 4
    || (v.major == 4 && v.minor < 13)
    || (v.major == 4 && v.minor == 13 && v.patch == 0 && v.prerelease != [])
  }

  lemma LegacyInNumbers(v: Version)
    ensures Legacy(v) <==> Before413(v)
  {
  }

  const V4_12_999 := Version(4, 12, 999, [])

  /** Reaching 4.13 is permanent under upgrades: no version that is not below another one falls back under the threshold. */
  lemma UpgradesKeepModern(v: Version, w: Version)
    requires !Legacy(v)
    requires Compare(w, v) != Less
    ensures !Legacy(w)
  {
    if v.Version? && v.prerelease != [] && w.Version? && w.prerelease != [] {
      assert v.major > 4 || v.minor > 13 || v.patch > 0;
    }
  }

  lemma {:induction false} TextTransitive(a: string, b: string, c: string)
    requires CompareText(a, b) != Greater && CompareText(b, c) != Greater
    ensures CompareText(a, c) != Greater
    ensures CompareText(a, c) == Equal ==> CompareText(a, b) == Equal && CompareText(b, c) == Equal
  {
    if a != [] && b != [] && c != [] && a[0] == b[0] == c[0] {
      TextTransitive(a[1..], b[1..], c[1..]);
    }
  }

  lemma IdentifierTransitive(a: Identifier, b: Identifier, c: Identifier)
    requires CompareIdentifier(a, b) != Greater && CompareIdentifier(b, c) != Greater
    ensures CompareIdentifier(a, c) != Greater
    ensures CompareIdentifier(a, c) == Equal ==> CompareIdentifier(a, b) == Equal && CompareIdentifier(b, c) == Equal
  {
    if a.Alphanumeric? && b.Alphanumeric? && c.Alphanumeric? {
      TextTransitive(a.text, b.text, c.text);
    }
  }

  lemma {:induction false} PrereleaseTransitive(a: seq<Identifier>, b: seq<Identifier>, c: seq<Identifier>)
    requires ComparePrerelease(a, b) != Greater && ComparePrerelease(b, c) != Greater
    ensures ComparePrerelease(a, c) != Greater
  {
    if a != [] && b != [] && c != [] {
      IdentifierTransitive(a[0], b[0], c[0]);
      if CompareIdentifier(a[0], b[0]) == Equal && CompareIdentifier(b[0], c[0]) == Equal {
        assert CompareIdentifier(a[0], c[0]) == Equal by { EqualIdentifiers(a[0], b[0]); EqualIdentifiers(b[0], c[0]); }
        PrereleaseTransitive(a[1..], b[1..], c[1..]);
      }
    }
  }

  lemma {:induction false} EqualTexts(a: string, b: string)
    ensures CompareText(a, b) == Equal <==> a == b
  {
    if a != [] && b != [] {
      EqualTexts(a[1..], b[1..]);
      if a[0] == b[0] {
        assert a == [a[0]] + a[1..] && b == [b[0]] + b[1..];
      }
    }
  }

  lemma EqualIdentifiers(a: Identifier, b: Identifier)
    ensures CompareIdentifier(a, b) == Equal <==> a == b
  {
    if a.Alphanumeric? && b.Alphanumeric? {
      EqualTexts(a.text, b.text);
    }
  }

  /** The precedence relation is transitive, so "never downgraded" composes over any number of upgrades. */
  lemma CompareTransitive(a: Version, b: Version, c: Version)
    requires Compare(a, b) != Greater && Compare(b, c) != Greater
    ensures Compare(a, c) != Greater
  {
    if a.Version? && b.Version? && c.Version? && a.prerelease != [] && b.prerelease != [] && c.prerelease != []
       && a.major == b.major == c.major && a.minor == b.minor == c.minor && a.patch == b.patch == c.patch {
      PrereleaseTransitive(a.prerelease, b.prerelease, c.prerelease);
    }
  }

  function Mirrored(o: Order): Order {
    match o
    case Less => Greater
    case Equal => Equal
    case Greater => Less
  }

  lemma {:induction false} TextMirrored(a: string, b: string)
    ensures CompareText(b, a) == Mirrored(CompareText(a, b))
  {
    if a != [] && b != [] && a[0] == b[0] { TextMirrored(a[1..], b[1..]); }
  }

  lemma {:induction false} PrereleaseMirrored(a: seq<Identifier>, b: seq<Identifier>)
    ensures ComparePrerelease(b, a) == Mirrored(ComparePrerelease(a, b))
  {
    if a != [] && b != [] {
      if a[0].Alphanumeric? && b[0].Alphanumeric? { TextMirrored(a[0].text, b[0].text); }
      PrereleaseMirrored(a[1..], b[1..]);
    }
  }

  lemma CompareMirrored(a: Version, b: Version)
    ensures Compare(b, a) == Mirrored(Compare(a, b))
  {
    if a.Version? && b.Version? { PrereleaseMirrored(a.prerelease, b.prerelease); }
  }

  /* ------------------------------------------- precedence, as section 11 words it */

  /** At the first place where the texts differ, a is smaller, or has ended. */
  ghost predicate TextBefore(a: string, b: string) {
    exists i :: 0 <= i <= |a| && i < |b| && a[..i] == b[..i] && (i < |a| ==> a[i] < b[i])
  }

  /** Numbers by their value, texts in ASCII order, numbers before texts. */
  ghost predicate IdentifierBefore(a: Identifier, b: Identifier) {
    match (a, b)
    case (Numeric(x), Numeric(y)) => x < y
    case (Alphanumeric(x), Alphanumeric(y)) => TextBefore(x, y)
    case _ => a.Numeric?
  }

  /** At the first place where the lists differ, a is smaller, or has ended. */
  ghost predicate PrereleaseBefore(a: seq<Identifier>, b: seq<Identifier>) {
    exists i :: 0 <= i <= |a| && i < |b| && a[..i] == b[..i] && (i < |a| ==> IdentifierBefore(a[i], b[i]))
  }

  /** Major, minor and patch decide in this order; then a prerelease comes before its release. */
  ghost predicate Before(a: Version, b: Version) {
    && b.Version?
    && (|| a.Invalid?
        || a.major < b.major
        || (a.major == b.major && a.minor < b.minor)
        || (a.major == b.major && a.minor == b.minor && a.patch < b.patch)
        || (&& a.major == b.major && a.minor == b.minor && a.patch == b.patch && a.prerelease != []
            && (b.prerelease == [] || PrereleaseBefore(a.prerelease, b.prerelease))))
  }

  lemma TextShift(a: string, b: string)
    requires a != [] && b != []
    ensures TextBefore(a, b) <==> a[0] < b[0] || (a[0] == b[0] && TextBefore(a[1..], b[1..]))
  {
    if a[0] < b[0] { assert a[..0] == b[..0]; }
    if i :| 0 <= i <= |a| && i < |b| && a[..i] == b[..i] && (i < |a| ==> a[i] < b[i]) {
      assert i > 0 ==> a[..i][0] == b[..i][0] && a[1..][..i - 1] == a[..i][1..] == b[..i][1..] == b[1..][..i - 1];
    }
    if i :| a[0] == b[0] && 0 <= i < |a| && i < |b| - 1 && a[1..][..i] == b[1..][..i] && (i < |a| - 1 ==> a[1..][i] < b[1..][i]) {
      assert a[..i + 1] == [a[0]] + a[1..][..i] == b[..i + 1];
    }
  }

  lemma {:induction false} TextOrder(a: string, b: string)
    ensures CompareText(a, b) == Less <==> TextBefore(a, b)
  {
    if a != [] && b != [] {
      TextShift(a, b);
      TextOrder(a[1..], b[1..]);
    } else if b != [] {
      assert a[..0] == b[..0];
    }
  }

  lemma IdentifierOrder(a: Identifier, b: Identifier)
    ensures CompareIdentifier(a, b) == Less <==> IdentifierBefore(a, b)
  {
    if a.Alphanumeric? && b.Alphanumeric? { TextOrder(a.text, b.text); }
  }

  lemma PrereleaseShift(a: seq<Identifier>, b: seq<Identifier>)
    requires a != [] && b != []
    ensures PrereleaseBefore(a, b) <==> IdentifierBefore(a[0], b[0]) || (a[0] == b[0] && PrereleaseBefore(a[1..], b[1..]))
  {
    hide IdentifierBefore;
    if IdentifierBefore(a[0], b[0]) { assert a[..0] == b[..0]; }
    if i :| 0 <= i <= |a| && i < |b| && a[..i] == b[..i] && (i < |a| ==> IdentifierBefore(a[i], b[i])) {
      assert i > 0 ==> a[..i][0] == b[..i][0] && a[1..][..i - 1] == a[..i][1..] == b[..i][1..] == b[1..][..i - 1];
    }
    if i :| a[0] == b[0] && 0 <= i < |a| && i < |b| - 1 && a[1..][..i] == b[1..][..i]
            && (i < |a| - 1 ==> IdentifierBefore(a[1..][i], b[1..][i])) {
      assert a[..i + 1] == [a[0]] + a[1..][..i] == b[..i + 1];
    }
  }

  lemma {:induction false} PrereleaseOrder(a: seq<Identifier>, b: seq<Identifier>)
    ensures ComparePrerelease(a, b) == Less <==> PrereleaseBefore(a, b)
  {
    if a != [] && b != [] {
      PrereleaseShift(a, b);
      IdentifierOrder(a[0], b[0]);
      EqualIdentifiers(a[0], b[0]);
      PrereleaseOrder(a[1..], b[1..]);
    } else if b != [] {
      assert a[..0] == b[..0];
    }
  }

  lemma CompareIsPrecedence(a: Version, b: Version)
    ensures Compare(a, b) == Less <==> Before(a, b)
  {
    if a.Version? && b.Version? { PrereleaseOrder(a.prerelease, b.prerelease); }
  }
}
