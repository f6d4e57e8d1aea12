/** Names derived from identifiers: decimal rendering, dash-free UUIDs and manifest names. */
module Naming {
  import opened Identifiers

  // Decimal rendering of non-negative integers.

  function DigitChar(d: nat): (c: char)
    requires d < 10
    ensures IsDigit(c)
  {
    '0' + d as char
  }

  function Decimal(n: nat): (s: string)
    ensures s != "" && forall i | 0 <= i < |s| :: IsDigit(s[i])
  {
    if n < 10 then [DigitChar(n)] else Decimal(n / 10) + [DigitChar(n % 10)]
  }

  /** The value of a digit string, read left to right. */
  function DecimalValue(s: string): (n: nat)
    requires forall i | 0 <= i < |s| :: IsDigit(s[i])
  {
    if s == "" then 0
    else
      assert IsDigit(s[|s| - 1]);
      10 * DecimalValue(s[..|s| - 1]) + (s[|s| - 1] as int - '0' as int)
  }

  lemma {:induction false} DecimalRoundTrip(n: nat)
    ensures DecimalValue(Decimal(n)) == n
  {
    var s := Decimal(n);
    if n < 10 {
      assert s[..|s| - 1] == "";
    } else {
      DecimalRoundTrip(n / 10);
      assert s[..|s| - 1] == Decimal(n / 10);
    }
  }

  lemma DecimalInjective(m: nat, n: nat)
    requires Decimal(m) == Decimal(n)
    ensures m == n
  {
    DecimalRoundTrip(m);
    DecimalRoundTrip(n);
  }

  // Manifest names: a fixed prefix followed by the identifier without dashes.

  function LowerChar(c: char): char {
    if IsUpperLetter(c) then c - 'A' + 'a' else c
  }

  /** Lower-cases ASCII letters and drops every dash. */
  function Compact(s: string): string {
    if s == "" then ""
    else if s[0] == '-' then Compact(s[1..])
    else [LowerChar(s[0])] + Compact(s[1..])
  }

  function WithoutDashes(s: string): string {
    if s == "" then "" else if s[0] == '-' then WithoutDashes(s[1..]) else [s[0]] + WithoutDashes(s[1..])
  }

  function ProjectName(projectID: string): string { "kp-p-" + Compact(projectID) }
  function ApplicationName(deploymentID: string): string { "kp-d-" + Compact(deploymentID) }
  function ApplicationSetName(environmentID: string): string { "kp-e-" + Compact(environmentID) }

  lemma {:induction false} CompactConcat(a: string, b: string)
    ensures Compact(a + b) == Compact(a) + Compact(b)
  {
    if a == "" {
      assert a + b == b;
    } else {
      assert (a + b)[1..] == a[1..] + b;
      CompactConcat(a[1..], b);
    }
  }

  lemma {:induction false} CompactHex(s: string)
    requires AllLowerHex(s)
    ensures Compact(s) == s
  {
    if s != "" {
      assert AllLowerHex(s[1..]);
      CompactHex(s[1..]);
      assert IsLowerHex(s[0]);
    }
  }

  /** A valid UUID is compacted to its five hexadecimal groups. */
  lemma CompactUuid(s: string)
    requires IsUuid(s)
    ensures Compact(s) == s[..8] + s[9..13] + s[14..18] + s[19..23] + s[24..]
  {
    var a, b, c, d, e := s[..8], s[9..13], s[14..18], s[19..23], s[24..];
    assert s == a + ("-" + (b + ("-" + (c + ("-" + (d + ("-" + e)))))));
    CompactHex(a); CompactHex(b); CompactHex(c); CompactHex(d); CompactHex(e);
    CompactDash(d, e);
    CompactDash(c, d + ("-" + e));
    CompactDash(b, c + ("-" + (d + ("-" + e))));
    CompactDash(a, b + ("-" + (c + ("-" + (d + ("-" + e))))));
  }

  lemma CompactDash(a: string, b: string)
    requires AllLowerHex(a)
    ensures Compact(a + ("-" + b)) == a + Compact(b)
  {
    CompactConcat(a, "-" + b);
    CompactHex(a);
    assert ("-" + b)[1..] == b;
  }

  /** Puts the dashes of a UUID back. */
  function Dashed(c: string): string
    requires |c| == 32
  {
    c[..8] + "-" + c[8..12] + "-" + c[12..16] + "-" + c[16..20] + "-" + c[20..]
  }

  lemma DashedCompact(s: string)
    requires IsUuid(s)
    ensures |Compact(s)| == 32 && Dashed(Compact(s)) == s
  {
    CompactUuid(s);
    var c := Compact(s);
    assert c[..8] == s[..8] && c[8..12] == s[9..13] && c[12..16] == s[14..18]
        && c[16..20] == s[19..23] && c[20..] == s[24..];
    assert s == s[..8] + "-" + s[9..13] + "-" + s[14..18] + "-" + s[19..23] + "-" + s[24..];
  }

  /** Distinct valid UUIDs never share a generated manifest name. */
  lemma NamesAreDistinct(x: string, y: string)
    requires IsUuid(x) && IsUuid(y) && x != y
    ensures ApplicationName(x) != ApplicationName(y)
    ensures ApplicationSetName(x) != ApplicationSetName(y)
    ensures ProjectName(x) != ProjectName(y)
  {
    DashedCompact(x);
    DashedCompact(y);
    assert ApplicationName(x)[5..] == ApplicationSetName(x)[5..] == ProjectName(x)[5..] == Compact(x);
    assert ApplicationName(y)[5..] == ApplicationSetName(y)[5..] == ProjectName(y)[5..] == Compact(y);
  }

  lemma {:induction false} LowerCompact(s: string)
    requires forall i | 0 <= i < |s| :: !IsUpperLetter(s[i])
    ensures WithoutDashes(s) == Compact(s)
  {
    if s != "" {
      LowerCompact(s[1..]);
    }
  }

  lemma UuidIsLower(s: string)
    requires IsUuid(s)
    ensures forall i | 0 <= i < |s| :: !IsUpperLetter(s[i])
  {
    forall i | 0 <= i < |s|
      ensures !IsUpperLetter(s[i])
    {
      if i < 8 { assert s[i] == s[..8][i]; }
      else if 9 <= i < 13 { assert s[i] == s[9..13][i - 9]; }
      else if 14 <= i < 18 { assert s[i] == s[14..18][i - 14]; }
      else if 19 <= i < 23 { assert s[i] == s[19..23][i - 19]; }
      else if 24 <= i { assert s[i] == s[24..][i - 24]; }
    }
  }

  /** Dropping the dashes of a UUID loses nothing. */
  lemma WithoutDashesInjective(x: string, y: string)
    requires IsUuid(x) && IsUuid(y) && WithoutDashes(x) == WithoutDashes(y)
    ensures x == y
  {
    UuidIsLower(x);
    UuidIsLower(y);
    hide IsUuid;
    LowerCompact(x);
    LowerCompact(y);
    DashedCompact(x);
    DashedCompact(y);
  }
}
