/** Capsule file names: a revision padded to twenty digits and the capsule's digest. */
module CapsuleFiles {
  function Digit(n: nat): (c: char)
    requires n < 10
    ensures '0' <= c <= '9'
  {
    '0' + n as char
  }

  function DigitValue(c: char): (n: nat)
    requires '0' <= c <= '9'
    ensures n < 10 && Digit(n) == c
  {
    (c - '0') as int
  }

  predicate AllDigits(s: string) { forall i :: 0 <= i < |s| ==> '0' <= s[i] <= '9' }

  /** Decimal notation without leading zeros. */
  function Decimal(n: nat): (s: string)
    ensures |s| > 0 && AllDigits(s)
  {
    if n < 10 then [Digit(n)] else Decimal(n / 10) + [Digit(n % 10)]
  }

  /** Python's `int` on a text of digits. */
  function Parse(s: string): nat
    requires AllDigits(s)
  {
    if |s| == 0 then 0 else 10 * Parse(s[..|s| - 1]) + DigitValue(s[|s| - 1])
  }

  function Pad(s: string, width: nat): (r: string)
    ensures |r| == if |s| < width then width else |s|
    ensures AllDigits(s) ==> AllDigits(r)
    decreases width - |s|
  {
    if |s| >= width then s else Pad("0" + s, width)
  }

  function Power(n: nat): (p: nat)
    ensures p > 0
  {
    if n == 0 then 1 else 10 * Power(n - 1)
  }

  lemma {:induction false} ParseDecimal(n: nat)
    ensures Parse(Decimal(n)) == n
  {
    if n >= 10 {
      ParseDecimal(n / 10);
      assert Decimal(n)[..|Decimal(n)| - 1] == Decimal(n / 10);
    }
  }

  lemma {:induction false} ParseSkipsZero(s: string)
    requires AllDigits(s)
    ensures AllDigits("0" + s) && Parse("0" + s) == Parse(s)
  {
    assert AllDigits("0" + s);
    if |s| > 0 {
      ParseSkipsZero(s[..|s| - 1]);
      assert ("0" + s)[..|s|] == "0" + s[..|s| - 1];
    }
  }

  lemma {:induction false} ParsePadded(s: string, width: nat)
    requires AllDigits(s)
    ensures Parse(Pad(s, width)) == Parse(s)
    decreases width - |s|
  {
    if |s| < width {
      ParseSkipsZero(s);
      ParsePadded("0" + s, width);
    }
  }

  lemma {:induction false} DecimalFitsIff(n: nat, width: nat)
    requires width > 0
    ensures |Decimal(n)| <= width <==> n < Power(width)
    decreases width
  {
    if width == 1 {
      assert Power(1) == 10 * Power(0);
    } else if n >= 10 {
      DecimalFitsIff(n / 10, width - 1);
    } else {
      assert Power(width) == 10 * Power(width - 1);
    }
  }

  // ---------------------------------------------------------------- names

  /** A directory member's name, as the patterns of the loader see it: twenty digits and a digest, a
      digest alone, or anything else. */
  datatype FileName =
    | Named(stem: string, sha: string)
    | Legacy(sha: string)
    | Temporary(owner: nat)
    | Alien(name: string)

  function FileNameFor(revision: nat, sha: string): FileName {
    Named(Pad(Decimal(revision), 20), sha)
  }

  /** `_CAPSULE_FILENAME` or `_LEGACY_CAPSULE_FILENAME` matches. */
  predicate Recognised(name: FileName) {
    (name.Named? && |name.stem| == 20 && AllDigits(name.stem)) || name.Legacy?
  }

  /** The revision a recognised new-style name carries. */
  function RevisionOf(name: FileName): nat
    requires name.Named? && Recognised(name)
  {
    Parse(name.stem)
  }

  const REVISION_LIMIT: nat := Power(20)

  /** The name of a revision is recognised, and reads back as that revision, exactly below the limit;
      a larger revision makes a name of more than twenty digits that no loader accepts. */
  lemma FileNameRoundTrips(revision: nat, sha: string)
    ensures Recognised(FileNameFor(revision, sha)) <==> revision < REVISION_LIMIT
    ensures Recognised(FileNameFor(revision, sha)) ==> RevisionOf(FileNameFor(revision, sha)) == revision
  {
    hide Power, Decimal, Pad, Parse;
    DecimalFitsIff(revision, 20);
    ParsePadded(Decimal(revision), 20);
    ParseDecimal(revision);
  }

  /** Different revisions have different names. */
  lemma NamesAreInjective(a: nat, b: nat, s: string, t: string)
    ensures FileNameFor(a, s) == FileNameFor(b, t) <==> a == b && s == t
  {
    ParsePadded(Decimal(a), 20);
    ParsePadded(Decimal(b), 20);
    ParseDecimal(a);
    ParseDecimal(b);
  }
}
