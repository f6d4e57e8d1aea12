/** Numbers of a decoded document, and what becomes of them when they pass through binary floating point. */
module JsonNumbers {
  import opened Identifiers
  import opened Naming
  import opened JsonPatch

  // Documents whose number texts were decoded and encoded again.

  function Rounded(j: Json, reencode: string -> string): Json {
    match j
    case Num(digits) => Num(reencode(digits))
    case Arr(items) => Arr(seq(|items|, i requires 0 <= i < |items| => Rounded(items[i], reencode)))
    case Obj(fields) => Obj(map k | k in fields :: Rounded(fields[k], reencode))
    case _ => j
  }

  /** Every number text is what it is encoded to again. */
  ghost predicate Exact(j: Json, reencode: string -> string) {
    match j
    case Num(digits) => reencode(digits) == digits
    case Arr(items) => forall i | 0 <= i < |items| :: Exact(items[i], reencode)
    case Obj(fields) => forall k | k in fields :: Exact(fields[k], reencode)
    case _ => true
  }

  /** A document survives exactly when all its numbers do. */
  lemma {:induction false} ExactIsFixpoint(j: Json, reencode: string -> string)
    ensures Rounded(j, reencode) == j <==> Exact(j, reencode)
    decreases j
  {
    match j {
      case Arr(items) =>
        forall i | 0 <= i < |items|
          ensures Rounded(items[i], reencode) == items[i] <==> Exact(items[i], reencode)
        {
          ExactIsFixpoint(items[i], reencode);
        }
        var r := Rounded(j, reencode);
        assert forall i | 0 <= i < |items| :: r.items[i] == Rounded(items[i], reencode);
        if r == j {
          assert forall i | 0 <= i < |items| :: r.items[i] == items[i];
        }
      case Obj(fields) =>
        forall k | k in fields
          ensures Rounded(fields[k], reencode) == fields[k] <==> Exact(fields[k], reencode)
        {
          ExactIsFixpoint(fields[k], reencode);
        }
        var r := Rounded(j, reencode);
        assert forall k | k in fields :: r.fields[k] == Rounded(fields[k], reencode);
        if Exact(j, reencode) {
          assert r.fields == fields;
        }
      case _ =>
    }
  }

  /** All number texts of a document are among the given ones. */
  ghost predicate Numbers(j: Json, among: string -> bool) {
    match j
    case Num(digits) => among(digits)
    case Arr(items) => forall i | 0 <= i < |items| :: Numbers(items[i], among)
    case Obj(fields) => forall k | k in fields :: Numbers(fields[k], among)
    case _ => true
  }

  /** No other number text is encoded like this one. */
  ghost predicate AloneAmong(digits: string, reencode: string -> string, among: string -> bool) {
    forall t | among(t) && reencode(t) == reencode(digits) :: t == digits
  }

  ghost predicate Alone(j: Json, reencode: string -> string, among: string -> bool) {
    match j
    case Num(digits) => AloneAmong(digits, reencode, among)
    case Arr(items) => forall i | 0 <= i < |items| :: Alone(items[i], reencode, among)
    case Obj(fields) => forall k | k in fields :: Alone(fields[k], reencode, among)
    case _ => true
  }

  lemma {:induction false} AloneUnique(x: Json, y: Json, reencode: string -> string, among: string -> bool)
    requires Alone(x, reencode, among) && Numbers(y, among) && Rounded(x, reencode) == Rounded(y, reencode)
    ensures x == y
    decreases x
  {
    hide AloneAmong;
    var r := Rounded(y, reencode);
    match x {
      case Num(digits) =>
        assert AloneAmong(digits, reencode, among) ==> x == y by {
          RoundedNumber(digits, y, reencode, among);
        }
      case Arr(items) =>
        assert |y.items| == |r.items| == |items|;
        forall i | 0 <= i < |items|
          ensures items[i] == y.items[i]
        {
          assert Rounded(x, reencode).items[i] == Rounded(items[i], reencode);
          assert r.items[i] == Rounded(y.items[i], reencode);
          AloneUnique(items[i], y.items[i], reencode, among);
        }
      case Obj(fields) =>
        assert y.fields.Keys == r.fields.Keys == fields.Keys;
        forall k | k in fields
          ensures fields[k] == y.fields[k]
        {
          assert Rounded(x, reencode).fields[k] == Rounded(fields[k], reencode);
          assert r.fields[k] == Rounded(y.fields[k], reencode);
          AloneUnique(fields[k], y.fields[k], reencode, among);
        }
      case _ =>
    }
  }

  lemma RoundedNumber(digits: string, y: Json, reencode: string -> string, among: string -> bool)
    requires AloneAmong(digits, reencode, among) && Numbers(y, among)
    requires Rounded(y, reencode) == Num(reencode(digits))
    ensures y == Num(digits)
  {
  }

  /** A document with a number that is not alone has a different one that is rounded alike. */
  lemma {:induction false} NotAlone(x: Json, reencode: string -> string, among: string -> bool) returns (y: Json)
    requires !Alone(x, reencode, among) && Numbers(x, among)
    ensures y != x && Numbers(y, among) && Rounded(y, reencode) == Rounded(x, reencode)
    decreases x
  {
    match x {
      case Num(digits) =>
        var t :| among(t) && reencode(t) == reencode(digits) && t != digits;
        y := Num(t);
      case Arr(items) =>
        var i :| 0 <= i < |items| && !Alone(items[i], reencode, among);
        var v := NotAlone(items[i], reencode, among);
        ItemRounded(items, i, v, reencode);
        y := Arr(items[i := v]);
      case Obj(fields) =>
        var k :| k in fields && !Alone(fields[k], reencode, among);
        var v := NotAlone(fields[k], reencode, among);
        FieldRounded(fields, k, v, reencode);
        y := Obj(fields[k := v]);
    }
  }

  /** Replacing a number by one that is encoded alike is invisible after rounding. */
  lemma {:induction false} RoundedReplace(j: Json, tokens: seq<string>, a: string, b: string,
      reencode: string -> string)
    requires tokens != [] && Lookup(j, tokens) == Some(Num(a)) && reencode(a) == reencode(b)
    ensures var r := PatchAt(j, tokens, Replace, Num(b));
            r.Some? && Rounded(r.value, reencode) == Rounded(j, reencode) && (a != b ==> r.value != j)
    decreases |tokens|
  {
    hide Atoi;
    var child := Child(j, tokens[0]).value;
    var changed := Num(b);
    if |tokens| > 1 {
      RoundedReplace(child, tokens[1..], a, b, reencode);
      changed := PatchAt(child, tokens[1..], Replace, Num(b)).value;
    } else {
      assert tokens[1..] == [];
    }
    match j {
      case Obj(fields) => FieldRounded(fields, tokens[0], changed, reencode);
      case Arr(items) => ItemRounded(items, Atoi(tokens[0]).value, changed, reencode);
    }
  }

  lemma FieldRounded(fields: map<string, Json>, k: string, v: Json, reencode: string -> string)
    requires k in fields && Rounded(v, reencode) == Rounded(fields[k], reencode)
    ensures Rounded(Obj(fields[k := v]), reencode) == Rounded(Obj(fields), reencode)
    ensures v != fields[k] ==> fields[k := v] != fields
  {
    assert fields[k := v][k] == v;
    assert Rounded(Obj(fields[k := v]), reencode).fields == Rounded(Obj(fields), reencode).fields;
  }

  lemma ItemRounded(items: seq<Json>, i: nat, v: Json, reencode: string -> string)
    requires i < |items| && Rounded(v, reencode) == Rounded(items[i], reencode)
    ensures Rounded(Arr(items[i := v]), reencode) == Rounded(Arr(items), reencode)
    ensures v != items[i] ==> items[i := v] != items
  {
    assert items[i := v][i] == v;
    assert Rounded(Arr(items[i := v]), reencode).items == Rounded(Arr(items), reencode).items;
  }

  // Whole numbers in binary64.

  const TWO52: nat := 4503599627370496
  const TWO53: nat := 9007199254740992

  /** The distance between neighbouring binary64 values around `n`. */
  function Spacing(n: nat): (s: nat)
    ensures s > 0
  {
    if n < TWO53 then 1 else 2 * Spacing(n / 2)
  }

  /** Whether a remainder is rounded down. */
  predicate Down(s: nat, q: nat, r: nat) {
    2 * r < s || (2 * r == s && q % 2 == 0)
  }

  function RoundTo(s: nat, q: nat, r: nat): nat {
    if Down(s, q, r) then q * s else (q + 1) * s
  }

  /** The binary64 value nearest to a whole number, ties to the even significand. */
  function Nearest(n: nat): nat {
    var s := Spacing(n);
    RoundTo(s, n / s, n % s)
  }

  lemma SmallIsExact(n: nat)
    requires n <= TWO53
    ensures Nearest(n) == n
  {
    if n < TWO53 {
      assert Spacing(n) == 1 && n / 1 == n && n % 1 == 0;
    } else {
      assert Spacing(n / 2) == 1 && Spacing(n) == 2;
    }
  }

  lemma FirstCollision()
    ensures Nearest(TWO53 + 1) == Nearest(TWO53) == TWO53
  {
    SmallIsExact(TWO53);
    var n := TWO53 + 1;
    assert n / 2 < TWO53 && Spacing(n / 2) == 1 && Spacing(n) == 2;
    assert n / 2 == 4503599627370496 && n % 2 == 1;
  }

  lemma HalfThenDivide(n: nat, s: nat)
    requires s > 0
    ensures n / (2 * s) == (n / 2) / s
  {
    var q, r := (n / 2) / s, (n / 2) % s;
    assert n / 2 == q * s + r && n == 2 * (n / 2) + n % 2;
    QuotientIs(n, 2 * s, q, 2 * r + n % 2);
  }

  lemma QuotientIs(n: nat, s: nat, q: nat, r: nat)
    requires r < s && n == q * s + r
    ensures n / s == q && n % s == r
  {
    Ordered(n / s, q, s, n % s, r);
    Ordered(q, n / s, s, r, n % s);
  }

  lemma Ordered(p: int, q: int, s: nat, r: int, t: int)
    requires p * s + r == q * s + t && 0 <= r < s && 0 <= t < s
    ensures p <= q
  {
    assert (p - q) * s == t - r < s;
    assert p - q >= 1 ==> (p - q) * s >= s;
  }

  /** A value of 2^53 or more has a significand of at least 2^52. */
  lemma {:induction false} LongSignificand(n: nat)
    requires n >= TWO53
    ensures n / Spacing(n) >= TWO52 && Spacing(n) >= 2 && (n >= 2 * TWO53 ==> Spacing(n) >= 4)
  {
    HalfThenDivide(n, Spacing(n / 2));
    if n / 2 >= TWO53 {
      LongSignificand(n / 2);
    } else {
      assert Spacing(n / 2) == 1 && Spacing(n) == 2;
    }
  }

  /** All numbers between two neighbouring values have the same spacing. */
  lemma {:induction false} SameSpacing(m: nat, n: nat)
    requires m / Spacing(n) == n / Spacing(n)
    ensures Spacing(m) == Spacing(n)
  {
    if n < TWO53 {
      assert Spacing(n) == 1 && m / 1 == m && n / 1 == n;
    } else {
      var s := Spacing(n / 2);
      LongSignificand(n);
      AtLeast(m, Spacing(n), m / Spacing(n));
      HalfThenDivide(m, s);
      HalfThenDivide(n, s);
      SameSpacing(m / 2, n / 2);
    }
  }

  lemma AtLeast(m: nat, s: nat, q: nat)
    requires s >= 2 && m / s == q >= TWO52
    ensures m >= TWO53 && (s >= 4 ==> m >= 2 * TWO53)
  {
    assert m >= q * s;
    if s >= 4 {
      assert q * s >= q * 4;
    }
    assert q * s >= q * 2;
  }

  /** The rounding decided by the remainder, for any number with the same quotient. */
  lemma NearestIs(n: nat, s: nat, q: nat, r: nat)
    requires s == Spacing(n) && r < s && n == q * s + r
    ensures Nearest(n) == RoundTo(s, q, r)
  {
    QuotientIs(n, s, q, r);
  }

  lemma NearestFrom(n: nat)
    ensures n < TWO53 ==> Nearest(n) == n
    ensures n >= TWO53 ==> Nearest(n) >= TWO53
    ensures n >= 2 * TWO53 ==> Nearest(n) >= 2 * TWO53
  {
    if n < TWO53 {
      SmallIsExact(n);
    } else {
      LongSignificand(n);
      var s := Spacing(n);
      var q := n / s;
      AtLeast(q * s, s, q) by {
        QuotientIs(q * s, s, q, 0);
      }
      assert (q + 1) * s >= q * s;
      NearestIs(n, s, q, n % s);
    }
  }

  /** Between 2^53 and 2^54 even numbers are kept and odd ones go to the neighbour divisible by four. */
  lemma NearestMiddle(n: nat)
    requires TWO53 <= n < 2 * TWO53
    ensures Nearest(n) == if n % 2 == 0 then n else if n % 4 == 1 then n - 1 else n + 1
  {
    assert n / 2 < TWO53 && Spacing(n / 2) == 1 && Spacing(n) == 2;
    NearestIs(n, 2, n / 2, n % 2);
  }

  /** The whole numbers that no other whole number is rounded like. */
  predicate ToldApart(n: nat) {
    n < TWO53 || (TWO53 < n < 2 * TWO53 && n % 4 == 2)
  }

  lemma ToldApartAlone(n: nat, m: nat)
    requires ToldApart(n) && Nearest(m) == Nearest(n)
    ensures m == n
  {
    hide Nearest, Spacing;
    NearestFrom(n);
    NearestFrom(m);
    if TWO53 <= n {
      NearestMiddle(n);
      if TWO53 <= m < 2 * TWO53 {
        NearestMiddle(m);
      }
    }
  }

  /** A number in the block of `n`, at another remainder that is rounded to the same side, is rounded like `n`. */
  lemma Beside(n: nat, s: nat, q: nat, t: nat, r: nat) returns (m: nat)
    requires s == Spacing(n) && n == q * s + t && t < s
    requires r < s && r != t && Down(s, q, r) == Down(s, q, t)
    ensures m != n && Nearest(m) == Nearest(n)
  {
    hide Nearest, Spacing, RoundTo, Down;
    m := q * s + r;
    QuotientIs(m, s, q, r);
    QuotientIs(n, s, q, t);
    SameSpacing(m, n);
    NearestIs(m, s, q, r);
    NearestIs(n, s, q, t);
    SameSide(s, q, r, t);
  }

  lemma SameSide(s: nat, q: nat, r: nat, t: nat)
    requires Down(s, q, r) == Down(s, q, t)
    ensures RoundTo(s, q, r) == RoundTo(s, q, t)
  {
    hide Down;
  }

  /** From 2^54 on every number is rounded like another one. */
  lemma LargeCollides(n: nat) returns (m: nat)
    requires n >= 2 * TWO53
    ensures m != n && Nearest(m) == Nearest(n)
  {
    LongSignificand(n);
    hide Nearest, Spacing;
    var s := Spacing(n);
    var q, r := n / s, n % s;
    assert n == q * s + r;
    if 2 * r < s {
      m := Beside(n, s, q, r, if r == 0 then 1 else 0);
    } else if 2 * r == s {
      m := Beside(n, s, q, r, if q % 2 == 0 then 0 else r + 1);
    } else if r + 1 < s {
      m := Beside(n, s, q, r, r + 1);
    } else if s > 4 {
      m := Beside(n, s, q, r, r - 1);
    } else if q % 2 == 1 {
      m := Beside(n, s, q, r, 2);
    } else {
      m := n + 1;
      NextQuad(n);
    }
  }

  /** With spacing four, the number after a remainder of three is a value itself. */
  lemma NextQuad(n: nat)
    requires n >= 2 * TWO53 && Spacing(n) == 4 && n % 4 == 3 && (n / 4) % 2 == 0
    ensures Nearest(n + 1) == n + 1 == Nearest(n)
  {
    var k := n / 4 + 1;
    assert n + 1 == k * 4 + 0 && k % 2 == 1;
    NearestIs(n, 4, n / 4, 3);
    FourBlock(n);
    assert Spacing(n + 1) == 4;
    NearestIs(n + 1, 4, k, 0);
  }

  lemma FourBlock(n: nat)
    requires Spacing(n) == 4 && n % 4 == 3 && (n / 4) % 2 == 0
    ensures Spacing(n + 1) == 4
  {
    assert n / 2 >= TWO53 && Spacing(n / 2) == 2 && n / 4 < TWO53;
    assert n / 4 + 1 < TWO53;
    assert (n + 1) / 4 == n / 4 + 1 && (n + 1) / 2 / 2 == (n + 1) / 4;
    assert Spacing((n + 1) / 4) == 1;
  }

  /** A whole number is rounded like no other exactly below 2^53 and, up to 2^54, at every fourth number. */
  lemma AloneExactly(n: nat)
    ensures ToldApart(n) <==> forall m: nat | Nearest(m) == Nearest(n) :: m == n
  {
    hide Nearest, Spacing;
    if ToldApart(n) {
      forall m: nat | Nearest(m) == Nearest(n)
        ensures m == n
      {
        ToldApartAlone(n, m);
      }
    } else if n >= 2 * TWO53 {
      var m := LargeCollides(n);
    } else {
      NearestMiddle(n);
      var m := if n % 4 == 0 then n + 1 else if n % 4 == 1 then n - 1 else n + 1;
      if m < 2 * TWO53 {
        NearestMiddle(m);
      } else {
        TopOfMiddle();
      }
      assert Nearest(m) == Nearest(n) && m != n;
    }
  }

  lemma TopOfMiddle()
    ensures Nearest(2 * TWO53) == 2 * TWO53
  {
    var n := 2 * TWO53;
    assert n / 2 == TWO53 && TWO53 / 2 < TWO53 && Spacing(TWO53 / 2) == 1 && Spacing(TWO53) == 2 && Spacing(n) == 4;
    NearestIs(n, 4, TWO52, 0);
  }

  /** A whole number without leading zeros. */
  predicate IsWhole(t: string) {
    t != "" && AllDigits(t) && (t == "0" || t[0] != '0')
  }

  /**
   A number text after decoding to binary64 and encoding: `format` is the shortest text of a whole binary64 value,
   `other` what becomes of fractions, exponents and signs.
   */
  function ThroughFloat(format: nat -> string, other: string -> string, t: string): string {
    if IsWhole(t) then format(Nearest(DecimalValue(t))) else other(t)
  }

  lemma {:induction false} DecimalIsWhole(n: nat)
    ensures IsWhole(Decimal(n)) && (n > 0 ==> Decimal(n)[0] != '0')
  {
    if n >= 10 {
      DecimalIsWhole(n / 10);
      assert Decimal(n)[0] == Decimal(n / 10)[0];
    }
  }

  /** Whole numbers up to 2^53 keep their text, given that such values are written plainly. */
  lemma SmallSurvives(format: nat -> string, other: string -> string, n: nat)
    requires n <= TWO53 && forall i: nat | i <= TWO53 :: format(i) == Decimal(i)
    ensures ThroughFloat(format, other, Decimal(n)) == Decimal(n)
  {
    DecimalIsWhole(n);
    DecimalRoundTrip(n);
    SmallIsExact(n);
  }

  /** The first pair of whole numbers that come out alike. */
  lemma NumbersCollide(format: nat -> string, other: string -> string)
    ensures Decimal(TWO53) != Decimal(TWO53 + 1)
    ensures ThroughFloat(format, other, Decimal(TWO53)) == ThroughFloat(format, other, Decimal(TWO53 + 1))
  {
    DecimalIsWhole(TWO53);
    DecimalIsWhole(TWO53 + 1);
    DecimalRoundTrip(TWO53);
    DecimalRoundTrip(TWO53 + 1);
    FirstCollision();
    hide Decimal, DecimalValue, Nearest, IsWhole;
  }

  // Which whole-number texts are told apart.

  function ThroughBinary64(format: nat -> string, other: string -> string): string -> string {
    t => ThroughFloat(format, other, t)
  }

  /** Distinct binary64 values have distinct texts. */
  ghost predicate Separates(format: nat -> string) {
    forall m: nat, n: nat | format(Nearest(m)) == format(Nearest(n)) :: Nearest(m) == Nearest(n)
  }

  predicate ApartText(t: string) {
    IsWhole(t) && ToldApart(DecimalValue(t))
  }

  lemma {:induction false} DecimalOfValue(t: string)
    requires IsWhole(t)
    ensures Decimal(DecimalValue(t)) == t && (|t| > 1 ==> DecimalValue(t) >= 10)
  {
    var init, d := t[..|t| - 1], t[|t| - 1] as int - '0' as int;
    assert t == init + [t[|t| - 1]] && IsDigit(t[|t| - 1]) && DigitChar(d) == t[|t| - 1];
    assert DecimalValue(t) == 10 * DecimalValue(init) + d;
    if |t| > 1 {
      assert init[0] == t[0] && IsWhole(init);
      DecimalOfValue(init);
      NotZero(init);
    } else {
      assert init == "" && DecimalValue(init) == 0;
    }
  }

  lemma NotZero(t: string)
    requires IsWhole(t) && t[0] != '0' && Decimal(DecimalValue(t)) == t
    ensures DecimalValue(t) > 0
  {
    assert Decimal(0) == "0";
  }

  lemma AloneText(d: string, format: nat -> string, other: string -> string)
    requires IsWhole(d) && Separates(format)
    ensures AloneAmong(d, ThroughBinary64(format, other), IsWhole) <==> ApartText(d)
  {
    hide Nearest, Decimal, DecimalValue, ToldApart;
    var reencode, n := ThroughBinary64(format, other), DecimalValue(d);
    DecimalOfValue(d);
    AloneExactly(n);
    if ToldApart(n) {
      forall t | IsWhole(t) && reencode(t) == reencode(d)
        ensures t == d
      {
        DecimalOfValue(t);
        assert Nearest(DecimalValue(t)) == Nearest(n);
      }
    } else {
      var m: nat :| Nearest(m) == Nearest(n) && m != n;
      DecimalIsWhole(m);
      DecimalRoundTrip(m);
      var t := Decimal(m);
      assert IsWhole(t) && reencode(t) == reencode(d) && t != d;
    }
  }

  /** In a document of whole numbers each is alone among the whole numbers exactly when it is told apart. */
  lemma {:induction false} AloneWhole(j: Json, format: nat -> string, other: string -> string)
    requires Numbers(j, IsWhole) && Separates(format)
    ensures Alone(j, ThroughBinary64(format, other), IsWhole) <==> Numbers(j, ApartText)
    decreases j
  {
    hide AloneAmong, ApartText, IsWhole, Separates, ThroughBinary64;
    match j {
      case Num(digits) =>
        AloneText(digits, format, other);
      case Arr(items) =>
        forall i | 0 <= i < |items|
          ensures Alone(items[i], ThroughBinary64(format, other), IsWhole) <==> Numbers(items[i], ApartText)
        {
          AloneWhole(items[i], format, other);
        }
      case Obj(fields) =>
        forall k | k in fields
          ensures Alone(fields[k], ThroughBinary64(format, other), IsWhole) <==> Numbers(fields[k], ApartText)
        {
          AloneWhole(fields[k], format, other);
        }
      case _ =>
    }
  }
}
