/** Identifier syntax, instants and the byte order of strings shared by every other module. */
module Identifiers {

  /** An instant. The zero instant stands for Go's zero `time.Time`. */
  type Time = int

  const ZERO_TIME: Time := 0
  const SECOND: int := 1_000_000_000

  datatype Option<+T> = None | Some(value: T)

  function Pow2(n: nat): (r: nat)
    ensures r > 0
  {
    if n == 0 then 1 else 2 * Pow2(n - 1)
  }

  predicate IsDigit(c: char) { '0' <= c <= '9' }
  predicate IsLowerLetter(c: char) { 'a' <= c <= 'z' }
  predicate IsUpperLetter(c: char) { 'A' <= c <= 'Z' }
  predicate IsLowerHex(c: char) { IsDigit(c) || 'a' <= c <= 'f' }

  predicate AllLowerHex(s: string) {
    forall i | 0 <= i < |s| :: IsLowerHex(s[i])
  }

  /** `^[0-9a-f]{8}-[0-9a-f]{4}-[1-8][0-9a-f]{3}-[89ab][0-9a-f]{3}-[0-9a-f]{12}$` */
  predicate IsUuid(s: string) {
    && |s| == 36
    && s[8] == '-' && s[13] == '-' && s[18] == '-' && s[23] == '-'
    && AllLowerHex(s[..8]) && AllLowerHex(s[9..13]) && AllLowerHex(s[14..18])
    && AllLowerHex(s[19..23]) && AllLowerHex(s[24..])
    && '1' <= s[14] <= '8'
    && (s[19] == '8' || s[19] == '9' || s[19] == 'a' || s[19] == 'b')
  }

  /** A well-formed identifier for the example runs. */
  function SampleUuid(): (s: string)
    ensures IsUuid(s)
  {
    seq(36, i => if i in {8, 13, 18, 23} then '-' else if i == 14 then '4' else if i == 19 then '8' else '0')
  }

  /** `^(?:[0-9a-f]{40}|[0-9a-f]{64})$` */
  predicate IsCommit(s: string) {
    (|s| == 40 || |s| == 64) && AllLowerHex(s)
  }

  /** `^sha256:[0-9a-f]{64}$` */
  predicate IsDigest(s: string) {
    |s| == 71 && s[..7] == "sha256:" && AllLowerHex(s[7..])
  }

  /** `^[a-z0-9](?:[a-z0-9.-]{0,61}[a-z0-9])?$` */
  predicate IsKubeName(s: string) {
    && 1 <= |s| <= 63
    && (forall i | 0 <= i < |s| :: IsLowerLetter(s[i]) || IsDigit(s[i]) || s[i] == '.' || s[i] == '-')
    && (IsLowerLetter(s[0]) || IsDigit(s[0]))
    && (IsLowerLetter(s[|s| - 1]) || IsDigit(s[|s| - 1]))
  }

  /** `^[A-Za-z0-9][A-Za-z0-9._:-]{least-1,127}$` */
  predicate IsOwner(s: string, least: nat) {
    && 1 <= least <= |s| <= 128
    && (IsLowerLetter(s[0]) || IsUpperLetter(s[0]) || IsDigit(s[0]))
    && forall i | 0 <= i < |s| ::
         IsLowerLetter(s[i]) || IsUpperLetter(s[i]) || IsDigit(s[i]) ||
         s[i] == '.' || s[i] == '_' || s[i] == ':' || s[i] == '-'
  }

  /** `^[a-z][a-z0-9.-]{0,62}$` */
  predicate IsFailureCode(s: string) {
    && 1 <= |s| <= 63
    && IsLowerLetter(s[0])
    && forall i | 0 <= i < |s| :: IsLowerLetter(s[i]) || IsDigit(s[i]) || s[i] == '.' || s[i] == '-'
  }

  predicate IsControl(c: char) {
    c == '\0' || c == '\r' || c == '\n'
  }

  /** Between `least` and `most` characters, none of them a control character. */
  predicate Printable(s: string, least: nat, most: nat) {
    least <= |s| <= most && forall i | 0 <= i < |s| :: !IsControl(s[i])
  }

  // Strict lexicographic order. Code-point order and UTF-8 byte order agree.

  predicate StringLess(a: string, b: string) {
    b != "" && (a == "" || a[0] < b[0] || (a[0] == b[0] && StringLess(a[1..], b[1..])))
  }

  lemma {:induction false} StringLessTotal(a: string, b: string)
    ensures a == b || StringLess(a, b) || StringLess(b, a)
  {
    if a != "" && b != "" && a[0] == b[0] {
      StringLessTotal(a[1..], b[1..]);
      if a[1..] == b[1..] {
        assert a == [a[0]] + a[1..] && b == [b[0]] + b[1..];
      }
    }
  }

  lemma {:induction false} StringLessTransitive(a: string, b: string, c: string)
    requires StringLess(a, b) && StringLess(b, c)
    ensures StringLess(a, c)
  {
    if a != "" && a[0] == b[0] && b[0] == c[0] {
      StringLessTransitive(a[1..], b[1..], c[1..]);
    }
  }

  lemma {:induction false} StringLessIrreflexive(a: string)
    ensures !StringLess(a, a)
  {
    if a != "" {
      StringLessIrreflexive(a[1..]);
    }
  }

  lemma StringLessAsymmetric(a: string, b: string)
    requires StringLess(a, b)
    ensures !StringLess(b, a) && a != b
  {
    StringLessIrreflexive(a);
    if StringLess(b, a) {
      StringLessTransitive(a, b, a);
    }
  }
}
