/** JSON Pointer text: escaping, parsing and printing of token lists. */
module JsonPointer {
  import opened Identifiers

  // String primitives.

  /** Replaces the non-overlapping occurrences of `was`, found from the left. */
  function ReplaceAll(s: string, was: string, instead: string): string
    requires was != ""
  {
    if |s| < |was| then s
    else if s[..|was|] == was then instead + ReplaceAll(s[|was|..], was, instead)
    else [s[0]] + ReplaceAll(s[1..], was, instead)
  }

  /** The parts of `s` between separators; never empty. */
  function Split(s: string, separator: char): (parts: seq<string>)
    ensures parts != [] && forall i | 0 <= i < |parts| :: separator !in parts[i]
  {
    if s == "" then [""]
    else
      var rest := Split(s[1..], separator);
      if s[0] == separator then [""] + rest else [[s[0]] + rest[0]] + rest[1..]
  }

  function Join(parts: seq<string>, separator: char): string {
    if parts == [] then ""
    else if |parts| == 1 then parts[0]
    else parts[0] + [separator] + Join(parts[1..], separator)
  }

  lemma {:induction false} JoinSplit(s: string, separator: char)
    ensures Join(Split(s, separator), separator) == s
  {
    if s != "" {
      JoinSplit(s[1..], separator);
      var rest := Split(s[1..], separator);
      if s[0] == separator {
        assert ([""] + rest)[1..] == rest;
        assert Join([""] + rest, separator) == [separator] + s[1..];
      } else if |rest| > 1 {
        assert ([[s[0]] + rest[0]] + rest[1..])[1..] == rest[1..];
      }
    }
  }

  lemma {:induction false} SplitJoin(parts: seq<string>, separator: char)
    requires parts != [] && forall i | 0 <= i < |parts| :: separator !in parts[i]
    ensures Split(Join(parts, separator), separator) == parts
    decreases |parts|, |parts[0]|
  {
    var s := Join(parts, separator);
    if parts[0] == "" {
      if |parts| > 1 {
        SplitJoin(parts[1..], separator);
        assert s == [separator] + Join(parts[1..], separator);
        assert s[1..] == Join(parts[1..], separator);
      }
    } else {
      var shorter := [parts[0][1..]] + parts[1..];
      assert shorter[1..] == parts[1..];
      SplitJoin(shorter, separator);
      assert s[0] == parts[0][0];
      assert s[1..] == Join(shorter, separator);
      assert parts[0] == [parts[0][0]] + parts[0][1..];
    }
  }

  // Escaping of one token.

  function Escape(token: string): string {
    ReplaceAll(ReplaceAll(token, "~", "~0"), "/", "~1")
  }

  /** Escaped slashes are replaced before escaped tildes. */
  function Passes(part: string, slash: string, tilde: string): string {
    ReplaceAll(ReplaceAll(part, "~1", slash), "~0", tilde)
  }

  /** Because of that order `~01` means `~1`. */
  function Unescape(part: string): string {
    Passes(part, "/", "~")
  }

  /** The parser's escape check. */
  predicate EscapesAccepted(part: string) {
    '~' !in Passes(part, "", "")
  }

  /** The `reference-token` grammar in section 3 of RFC 6901. */
  predicate IsReferenceToken(part: string) {
    || part == ""
    || (part[0] != '~' && part[0] != '/' && IsReferenceToken(part[1..]))
    || (|part| >= 2 && part[0] == '~' && (part[1] == '0' || part[1] == '1') && IsReferenceToken(part[2..]))
  }

  /** The token a reference token denotes, read left to right (section 4 of RFC 6901). */
  function Denoted(part: string): string
    requires IsReferenceToken(part)
  {
    if part == "" then ""
    else if part[0] == '~' then [if part[1] == '0' then '~' else '/'] + Denoted(part[2..])
    else [part[0]] + Denoted(part[1..])
  }

  lemma EscapeStep(token: string)
    requires token != ""
    ensures Escape(token)
            == (if token[0] == '~' then "~0" else if token[0] == '/' then "~1" else [token[0]]) + Escape(token[1..])
  {
    var inner := ReplaceAll(token[1..], "~", "~0");
    if token[0] == '~' {
      assert ReplaceAll(token, "~", "~0") == "~0" + inner;
      assert ("~0" + inner)[1..] == "0" + inner && ("0" + inner)[1..] == inner;
      assert ReplaceAll("0" + inner, "/", "~1") == "0" + ReplaceAll(inner, "/", "~1");
    } else {
      assert ReplaceAll(token, "~", "~0") == [token[0]] + inner;
      assert ([token[0]] + inner)[1..] == inner;
    }
  }

  /** Escaping prints the reference token that denotes the token. */
  lemma {:induction false} EscapeDenotes(token: string)
    ensures IsReferenceToken(Escape(token)) && Denoted(Escape(token)) == token
  {
    if token != "" {
      EscapeStep(token);
      EscapeDenotes(token[1..]);
      var rest := Escape(token[1..]);
      var head := if token[0] == '~' then "~0" else if token[0] == '/' then "~1" else [token[0]];
      assert Escape(token)[|head|..] == rest;
      assert token == [token[0]] + token[1..];
    }
  }

  lemma {:induction false} EscapeOfDenoted(part: string)
    requires IsReferenceToken(part)
    ensures Escape(Denoted(part)) == part
  {
    if part != "" {
      EscapeStep(Denoted(part));
      if part[0] == '~' {
        EscapeOfDenoted(part[2..]);
        assert part == part[..2] + part[2..];
      } else {
        EscapeOfDenoted(part[1..]);
        assert part == [part[0]] + part[1..];
      }
    }
  }

  lemma ReplaceMiss(c: char, rest: string, was: string, instead: string)
    requires was != "" && c != was[0]
    ensures ReplaceAll([c] + rest, was, instead) == [c] + ReplaceAll(rest, was, instead)
  {
    assert ([c] + rest)[1..] == rest;
    assert |[c] + rest| >= |was| ==> ([c] + rest)[..|was|][0] == c;
  }

  lemma ReplaceHit(rest: string, was: string, instead: string)
    requires was != ""
    ensures ReplaceAll(was + rest, was, instead) == instead + ReplaceAll(rest, was, instead)
  {
    assert (was + rest)[..|was|] == was && (was + rest)[|was|..] == rest;
  }

  /** In the first pass, an escaped tilde is kept and its digit skipped. */
  lemma KeepsTilde(rest: string, slash: string)
    ensures ReplaceAll("~0" + rest, "~1", slash) == "~0" + ReplaceAll(rest, "~1", slash)
  {
    var s := "~0" + rest;
    assert s[..2] == "~0" && s[1..] == "0" + rest;
    ReplaceMiss('0', rest, "~1", slash);
    assert "~0" != "~1" by {
      assert "~0"[1] != "~1"[1];
    }
    assert "~0" + ReplaceAll(rest, "~1", slash) == ['~'] + (['0'] + ReplaceAll(rest, "~1", slash));
  }

  /** What two passes of replacement do at the front of a reference token. */
  lemma TwoPasses(part: string, slash: string, tilde: string)
    requires IsReferenceToken(part) && part != "" && '~' !in slash && |slash| <= 1
    ensures Passes(part, slash, tilde) ==
            if part[0] != '~' then [part[0]] + Passes(part[1..], slash, tilde)
            else (if part[1] == '0' then tilde else slash) + Passes(part[2..], slash, tilde)
  {
    hide ReplaceAll;
    if part[0] != '~' {
      assert part == [part[0]] + part[1..];
      ReplaceMiss(part[0], part[1..], "~1", slash);
      ReplaceMiss(part[0], ReplaceAll(part[1..], "~1", slash), "~0", tilde);
    } else {
      var inner := ReplaceAll(part[2..], "~1", slash);
      assert part == part[..2] + part[2..];
      if part[1] == '0' {
        assert part[..2] == "~0";
        KeepsTilde(part[2..], slash);
        ReplaceHit(inner, "~0", tilde);
      } else {
        assert part[..2] == "~1";
        ReplaceHit(part[2..], "~1", slash);
        if slash != "" {
          assert slash == [slash[0]];
          ReplaceMiss(slash[0], inner, "~0", tilde);
        } else {
          assert slash + inner == inner;
        }
      }
    }
  }

  /** On reference tokens the replacement passes compute the denoted token and find no stray escape. */
  lemma {:induction false} UnescapeDenotes(part: string)
    requires IsReferenceToken(part)
    ensures Unescape(part) == Denoted(part) && EscapesAccepted(part)
  {
    if part != "" {
      TwoPasses(part, "/", "~");
      TwoPasses(part, "", "");
      UnescapeDenotes(if part[0] == '~' then part[2..] else part[1..]);
    }
  }

  // What the escape check accepts.

  /** A piece of a part: a character other than `~`, the escape `~1`, or `~` and `0` with `slashes` of these between. */
  datatype Piece = Plain(c: char) | Slash | Tilde(slashes: nat)

  function Repeat(s: string, n: nat): string {
    if n == 0 then "" else s + Repeat(s, n - 1)
  }

  function PieceText(p: Piece): string {
    match p
    case Plain(c) => [c]
    case Slash => "~1"
    case Tilde(n) => "~" + Repeat("~1", n) + "0"
  }

  /** What the replacement passes make of a piece. */
  function PieceValue(p: Piece): string {
    match p
    case Plain(c) => [c]
    case Slash => "/"
    case Tilde(n) => if n == 0 then "~" else "~" + Repeat("/", n) + "0"
  }

  function Text(ps: seq<Piece>): string {
    if ps == [] then "" else PieceText(ps[0]) + Text(ps[1..])
  }

  function Value(ps: seq<Piece>): string {
    if ps == [] then "" else PieceValue(ps[0]) + Value(ps[1..])
  }

  ghost predicate Pieces(ps: seq<Piece>) {
    forall i | 0 <= i < |ps| :: ps[i].Plain? ==> ps[i].c != '~'
  }

  lemma {:induction false} RepeatNothing(n: nat)
    ensures Repeat("", n) == ""
  {
    if n > 0 {
      RepeatNothing(n - 1);
    }
  }

  /** The first pass over `n` escaped slashes. */
  lemma {:induction false} SlashesPass(n: nat, rest: string, slash: string)
    ensures ReplaceAll(Repeat("~1", n) + rest, "~1", slash) == Repeat(slash, n) + ReplaceAll(rest, "~1", slash)
  {
    hide ReplaceAll;
    var after := ReplaceAll(rest, "~1", slash);
    if n == 0 {
      assert Repeat("~1", n) + rest == rest && Repeat(slash, n) + after == after;
    } else {
      SlashesPass(n - 1, rest, slash);
      assert Repeat("~1", n) + rest == "~1" + (Repeat("~1", n - 1) + rest);
      ReplaceHit(Repeat("~1", n - 1) + rest, "~1", slash);
      assert slash + (Repeat(slash, n - 1) + after) == Repeat(slash, n) + after;
    }
  }

  /** A `~` that starts no escaped slash is kept by the first pass. */
  lemma TildeKept(rest: string, slash: string)
    requires rest == "" || rest[0] != '1'
    ensures ReplaceAll("~" + rest, "~1", slash) == "~" + ReplaceAll(rest, "~1", slash)
  {
    var s := "~" + rest;
    assert s[1..] == rest;
    if rest == "" {
      assert ReplaceAll(rest, "~1", slash) == "";
    } else {
      assert s[..2][1] == rest[0] && "~1"[1] == '1';
    }
  }

  /** A run of slashes is kept by the second pass. */
  lemma {:induction false} PlainRun(n: nat, rest: string, tilde: string)
    ensures ReplaceAll(Repeat("/", n) + rest, "~0", tilde) == Repeat("/", n) + ReplaceAll(rest, "~0", tilde)
  {
    var after := ReplaceAll(rest, "~0", tilde);
    if n == 0 {
      assert Repeat("/", 0) + rest == rest && Repeat("/", 0) + after == after;
    } else {
      hide ReplaceAll;
      var shorter := Repeat("/", n - 1) + rest;
      PlainRun(n - 1, rest, tilde);
      assert Repeat("/", n) + rest == ['/'] + shorter;
      ReplaceMiss('/', shorter, "~0", tilde);
      assert ['/'] + (Repeat("/", n - 1) + after) == Repeat("/", n) + after;
    }
  }

  lemma TildeText(n: nat, rest: string, slash: string)
    ensures ReplaceAll(PieceText(Tilde(n)) + rest, "~1", slash)
            == "~" + Repeat(slash, n) + "0" + ReplaceAll(rest, "~1", slash)
  {
    hide ReplaceAll;
    var tail := Repeat("~1", n) + ("0" + rest);
    assert PieceText(Tilde(n)) + rest == "~" + tail;
    assert n > 0 ==> tail[0] == "~1"[0];
    TildeKept(tail, slash);
    SlashesPass(n, "0" + rest, slash);
    ReplaceMiss('0', rest, "~1", slash);
    var mid, after := Repeat(slash, n), ReplaceAll(rest, "~1", slash);
    assert "~" + (mid + ("0" + after)) == "~" + mid + "0" + after;
  }

  lemma TildeSecondPass(n: nat, rest: string)
    requires n > 0
    ensures ReplaceAll("~" + Repeat("/", n) + "0" + rest, "~0", "~")
            == "~" + Repeat("/", n) + "0" + ReplaceAll(rest, "~0", "~")
  {
    var run := Repeat("/", n);
    var s := "~" + run + "0" + rest;
    assert s[..2][1] == '/' && "~0"[1] == '0' && s[1..] == run + ("0" + rest);
    assert s[0] == '~';
    PlainRun(n, "0" + rest, "~");
    ReplaceMiss('0', rest, "~0", "~");
    var after := ReplaceAll(rest, "~0", "~");
    assert "~" + (run + ("0" + after)) == "~" + run + "0" + after;
  }

  /** The passes work piece by piece. */
  lemma PiecePasses(p: Piece, rest: string)
    requires p.Plain? ==> p.c != '~'
    ensures Unescape(PieceText(p) + rest) == PieceValue(p) + Unescape(rest)
    ensures Passes(PieceText(p) + rest, "", "") == (if p.Plain? then [p.c] else "") + Passes(rest, "", "")
  {
    hide ReplaceAll;
    var once, gone := ReplaceAll(rest, "~1", "/"), ReplaceAll(rest, "~1", "");
    match p {
      case Plain(c) =>
        ReplaceMiss(c, rest, "~1", "/");
        ReplaceMiss(c, rest, "~1", "");
        ReplaceMiss(c, once, "~0", "~");
        ReplaceMiss(c, gone, "~0", "");
      case Slash =>
        ReplaceHit(rest, "~1", "/");
        ReplaceHit(rest, "~1", "");
        ReplaceMiss('/', once, "~0", "~");
        assert "" + gone == gone;
      case Tilde(n) =>
        TildeText(n, rest, "/");
        TildeText(n, rest, "");
        RepeatNothing(n);
        assert "~" + "" + "0" + gone == "~0" + gone;
        ReplaceHit(gone, "~0", "");
        if n == 0 {
          assert "~" + Repeat("/", 0) + "0" + once == "~0" + once;
          ReplaceHit(once, "~0", "~");
        } else {
          TildeSecondPass(n, once);
        }
    }
  }

  /** A part made of pieces is accepted and means the values of its pieces. */
  lemma {:induction false} PiecesAccepted(ps: seq<Piece>)
    requires Pieces(ps)
    ensures EscapesAccepted(Text(ps)) && Unescape(Text(ps)) == Value(ps)
  {
    if ps != [] {
      PiecesAccepted(ps[1..]);
      PiecePasses(ps[0], Text(ps[1..]));
      hide Passes;
    }
  }

  /** Reads escaped slashes up to a `0`. */
  function AfterRun(s: string): Option<(nat, string)> {
    if s == "" then None
    else if s[0] == '0' then Some((0, s[1..]))
    else if |s| >= 2 && s[..2] == "~1" then
      match AfterRun(s[2..])
      case None => None
      case Some((n, rest)) => Some((n + 1, rest))
    else None
  }

  lemma {:induction false} RunIs(s: string)
    ensures match AfterRun(s)
            case Some((n, rest)) => s == Repeat("~1", n) + "0" + rest
            case None => var u := ReplaceAll(s, "~1", ""); u == "" || u[0] != '0'
  {
    if s != "" && s[0] == '0' {
      assert s == "0" + s[1..];
    } else if |s| >= 2 && s[..2] == "~1" {
      RunIs(s[2..]);
      assert s == "~1" + s[2..];
    }
  }

  /** An accepted part can be read as pieces. */
  lemma {:induction false} AcceptedPieces(part: string) returns (ps: seq<Piece>)
    requires EscapesAccepted(part)
    ensures Pieces(ps) && Text(ps) == part
    decreases |part|
  {
    if part == "" {
      return [];
    }
    var p, rest := FirstPiece(part);
    PiecePasses(p, rest);
    var more := AcceptedPieces(rest);
    ps := [p] + more;
  }

  lemma FirstPiece(part: string) returns (p: Piece, rest: string)
    requires part != "" && EscapesAccepted(part)
    ensures part == PieceText(p) + rest && (p.Plain? ==> p.c != '~')
  {
    if part[0] != '~' {
      return Plain(part[0]), part[1..];
    }
    if |part| >= 2 && part[1] == '1' {
      assert part[..2] == "~1";
      return Slash, part[2..];
    }
    var tail := part[1..];
    assert part == "~" + tail;
    RunIs(tail);
    TildeKept(tail, "");
    StrayTilde(ReplaceAll(tail, "~1", ""));
    var run := AfterRun(tail).value;
    return Tilde(run.0), run.1;
  }

  /** After the first pass a `~` is only replaced in front of a `0`. */
  lemma StrayTilde(u: string)
    ensures '~' in ReplaceAll("~" + u, "~0", "") || (u != "" && u[0] == '0')
  {
    var s := "~" + u;
    if u == "" || u[0] != '0' {
      assert u != "" ==> s[..2][1] == u[0] && "~0"[1] == '0';
      assert s[0] == '~';
    }
  }

  /** The check accepts exactly the parts made of pieces. */
  lemma AcceptedExactly(part: string)
    ensures EscapesAccepted(part) <==> exists ps :: Pieces(ps) && Text(ps) == part
  {
    if EscapesAccepted(part) {
      var ps := AcceptedPieces(part);
    }
    if exists ps :: Pieces(ps) && Text(ps) == part {
      var ps :| Pieces(ps) && Text(ps) == part;
      PiecesAccepted(ps);
    }
  }

  /** So it accepts more than section 3 of RFC 6901 allows, `~~10` first of all. */
  lemma AcceptsMoreThanTheGrammar(n: nat)
    requires n > 0
    ensures var part := PieceText(Tilde(n));
            EscapesAccepted(part) && !IsReferenceToken(part) && Unescape(part) == "~" + Repeat("/", n) + "0"
    ensures PieceText(Tilde(1)) == "~~10"
  {
    var ps := [Tilde(n)];
    assert ps[1..] == [] && Text(ps) == PieceText(Tilde(n)) + "" == PieceText(Tilde(n));
    assert Value(ps) == PieceValue(Tilde(n)) + "" == PieceValue(Tilde(n));
    PiecesAccepted(ps);
    assert Repeat("~1", n)[0] == "~1"[0] && PieceText(Tilde(n))[1] == Repeat("~1", n)[0];
    assert Repeat("~1", 1) == "~1" + Repeat("~1", 0) && Repeat("~1", 0) == "";
  }

  /** No escaped slashes lie between a `~` and its `0`. */
  ghost predicate Simple(ps: seq<Piece>) {
    forall i | 0 <= i < |ps| :: ps[i].Tilde? ==> ps[i].slashes == 0
  }

  /** Reference tokens are exactly the parts without `/` whose pieces are simple. */
  lemma GrammarExactly(part: string)
    ensures IsReferenceToken(part) <==> '/' !in part && exists ps :: Pieces(ps) && Simple(ps) && Text(ps) == part
  {
    if IsReferenceToken(part) {
      var ps := TokenPieces(part);
    }
    if '/' !in part && exists ps :: Pieces(ps) && Simple(ps) && Text(ps) == part {
      var ps :| Pieces(ps) && Simple(ps) && Text(ps) == part;
      SimpleToken(ps);
    }
  }

  lemma {:induction false} TokenPieces(part: string) returns (ps: seq<Piece>)
    requires IsReferenceToken(part)
    ensures Pieces(ps) && Simple(ps) && Text(ps) == part && '/' !in part
    decreases |part|
  {
    if part == "" {
      return [];
    }
    var p, rest;
    if part[0] == '~' {
      p, rest := if part[1] == '0' then Tilde(0) else Slash, part[2..];
      assert part == [part[0], part[1]] + rest && Repeat("~1", 0) == "";
    } else {
      p, rest := Plain(part[0]), part[1..];
      assert part == [part[0]] + rest;
    }
    assert PieceText(p) + rest == part;
    var more := TokenPieces(rest);
    ps := [p] + more;
  }

  lemma {:induction false} SimpleToken(ps: seq<Piece>)
    requires Pieces(ps) && Simple(ps) && '/' !in Text(ps)
    ensures IsReferenceToken(Text(ps))
  {
    if ps != [] {
      var rest := Text(ps[1..]);
      var text := PieceText(ps[0]) + rest;
      assert forall c | c in rest :: c in text;
      SimpleToken(ps[1..]);
      match ps[0] {
        case Plain(c) =>
          assert text[0] == c && text[1..] == rest;
        case Slash =>
          assert text[0] == '~' && text[1] == '1' && text[2..] == rest;
        case Tilde(_) =>
          assert PieceText(ps[0]) == "~0";
          assert text[0] == '~' && text[1] == '0' && text[2..] == rest;
      }
    }
  }

  // Pointers.

  function EscapedAll(tokens: seq<string>): (parts: seq<string>)
    ensures |parts| == |tokens| && forall i | 0 <= i < |parts| :: parts[i] == Escape(tokens[i])
  {
    seq(|tokens|, i requires 0 <= i < |tokens| => Escape(tokens[i]))
  }

  function UnescapedAll(parts: seq<string>): (tokens: seq<string>)
    ensures |tokens| == |parts| && forall i | 0 <= i < |tokens| :: tokens[i] == Unescape(parts[i])
  {
    seq(|parts|, i requires 0 <= i < |parts| => Unescape(parts[i]))
  }

  /** The pointer of a token list; the whole document is the empty pointer. */
  function Print(tokens: seq<string>): string {
    if tokens == [] then "" else "/" + Join(EscapedAll(tokens), '/')
  }

  /** The token list of a pointer, if the parser accepts it. */
  function Parse(value: string): Option<seq<string>> {
    if value == "" || value[0] != '/' then None
    else
      var parts := Split(value[1..], '/');
      if forall i | 0 <= i < |parts| :: EscapesAccepted(parts[i]) then Some(UnescapedAll(parts)) else None
  }

  method ParsePointer(value: string) returns (r: Option<seq<string>>)
    ensures r == Parse(value)
  {
    if value == "" || value[0] != '/' {
      return None;
    }
    ghost var split := Split(value[1..], '/');
    var parts := Split(value[1..], '/');
    var index := 0;
    while index < |parts|
      invariant 0 <= index <= |parts| == |split|
      invariant forall i | 0 <= i < index :: EscapesAccepted(split[i]) && parts[i] == Unescape(split[i])
      invariant forall i | index <= i < |parts| :: parts[i] == split[i]
    {
      if !EscapesAccepted(parts[index]) {
        return None;
      }
      parts := parts[index := Unescape(parts[index])];
      index := index + 1;
    }
    assert parts == UnescapedAll(split);
    return Some(parts);
  }

  method Pointer(tokens: seq<string>) returns (r: string)
    ensures r == Print(tokens)
  {
    if tokens == [] {
      return "";
    }
    var escaped := [];
    for i := 0 to |tokens|
      invariant |escaped| == i && forall j | 0 <= j < i :: escaped[j] == Escape(tokens[j])
    {
      escaped := escaped + [Escape(tokens[i])];
    }
    assert escaped == EscapedAll(tokens);
    return "/" + Join(escaped, '/');
  }

  /** A pointer by section 3 of RFC 6901, other than the whole document. */
  predicate IsPointer(value: string) {
    && value != "" && value[0] == '/'
    && var parts := Split(value[1..], '/');
       forall i | 0 <= i < |parts| :: IsReferenceToken(parts[i])
  }

  lemma {:induction false} ReferenceTokenHasNoSlash(part: string)
    requires IsReferenceToken(part)
    ensures '/' !in part
  {
    if part != "" {
      ReferenceTokenHasNoSlash(if part[0] == '~' then part[2..] else part[1..]);
      assert part == (if part[0] == '~' then part[..2] + part[2..] else part[..1] + part[1..]);
    }
  }

  lemma EscapedParts(tokens: seq<string>)
    requires tokens != []
    ensures var parts := EscapedAll(tokens);
            && Split(Join(parts, '/'), '/') == parts
            && forall i | 0 <= i < |parts| ::
               IsReferenceToken(parts[i]) && Unescape(parts[i]) == tokens[i] && EscapesAccepted(parts[i])
  {
    var parts := EscapedAll(tokens);
    forall i | 0 <= i < |parts|
      ensures IsReferenceToken(parts[i]) && Unescape(parts[i]) == tokens[i] && EscapesAccepted(parts[i])
              && '/' !in parts[i]
    {
      EscapeDenotes(tokens[i]);
      UnescapeDenotes(parts[i]);
      ReferenceTokenHasNoSlash(parts[i]);
    }
    SplitJoin(parts, '/');
  }

  /** Parsing a printed token list returns it, whatever characters it holds; what is printed obeys the grammar. */
  lemma ParsePrint(tokens: seq<string>)
    requires tokens != []
    ensures IsPointer(Print(tokens)) && Parse(Print(tokens)) == Some(tokens)
  {
    EscapedParts(tokens);
    assert Print(tokens)[1..] == Join(EscapedAll(tokens), '/');
    assert UnescapedAll(EscapedAll(tokens)) == tokens;
  }

  /** Distinct token lists, the empty one included, have distinct pointers. */
  lemma PrintInjective(a: seq<string>, b: seq<string>)
    requires Print(a) == Print(b)
    ensures a == b
  {
    if a != [] && b != [] {
      ParsePrint(a);
      ParsePrint(b);
    }
  }

  /** Printing undoes parsing exactly on the pointers of section 3 of RFC 6901. */
  lemma PrintParse(value: string)
    ensures IsPointer(value) ==> Parse(value).Some?
    ensures Parse(value).Some? ==> (Print(Parse(value).value) == value <==> IsPointer(value))
  {
    if value != "" && value[0] == '/' {
      var parts := Split(value[1..], '/');
      if IsPointer(value) {
        forall i | 0 <= i < |parts|
          ensures EscapesAccepted(parts[i]) && Escape(Unescape(parts[i])) == parts[i]
        {
          UnescapeDenotes(parts[i]);
          EscapeOfDenoted(parts[i]);
        }
        assert EscapedAll(UnescapedAll(parts)) == parts;
        JoinSplit(value[1..], '/');
        assert value == "/" + value[1..];
      } else if Parse(value).Some? {
        ParsePrint(Parse(value).value);
      }
    }
  }

  // Ancestry.

  predicate HasPrefix(s: string, prefix: string) {
    |prefix| <= |s| && s[..|prefix|] == prefix
  }

  /** The text test for "at or below": the pointer itself, or the pointer followed by a slash. */
  predicate AtOrBelow(path: string, root: string) {
    path == root || HasPrefix(path, root + "/")
  }

  lemma JoinStep(parts: seq<string>, separator: char)
    requires |parts| > 1
    ensures Join(parts, separator) == parts[0] + [separator] + Join(parts[1..], separator)
  {
  }

  lemma {:induction false} JoinExtends(a: seq<string>, b: seq<string>, separator: char)
    requires a != []
    ensures Join(a + b, separator)
            == if b == [] then Join(a, separator) else Join(a, separator) + [separator] + Join(b, separator)
  {
    if b == [] {
      assert a + b == a;
    } else if |a| == 1 {
      assert (a + b)[1..] == b;
    } else {
      hide Join;
      JoinStep(a, separator);
      JoinStep(a + b, separator);
      JoinExtends(a[1..], b, separator);
      assert (a + b)[1..] == a[1..] + b && (a + b)[0] == a[0];
      var x, y := Join(a[1..], separator), Join(b, separator);
      assert a[0] + [separator] + (x + [separator] + y) == (a[0] + [separator] + x) + [separator] + y;
    }
  }

  lemma EscapedExtends(a: seq<string>, b: seq<string>)
    ensures EscapedAll(a + b) == EscapedAll(a) + EscapedAll(b)
  {
    hide Escape;
  }

  /** A pointer is printed one escaped token after the other. */
  lemma PrintExtends(a: seq<string>, b: seq<string>)
    ensures Print(a + b) == Print(a) + Print(b)
  {
    hide EscapedAll, Join, Escape;
    if a == [] {
      assert a + b == b;
    } else if b == [] {
      assert a + b == a;
    } else {
      EscapedExtends(a, b);
      JoinExtends(EscapedAll(a), EscapedAll(b), '/');
      var x, y := Join(EscapedAll(a), '/'), Join(EscapedAll(b), '/');
      assert "/" + (x + "/" + y) == ("/" + x) + ("/" + y);
    }
  }

  /** The first parts of a longer joined text are those of any prefix that ends at a separator. */
  lemma {:induction false} SplitPrefix(s: string, prefix: string, separator: char)
    requires HasPrefix(s, prefix + [separator])
    ensures Split(prefix, separator) + Split(s[|prefix| + 1..], separator) == Split(s, separator)
  {
    assert s[0] == (prefix + [separator])[0];
    if prefix != "" {
      PrefixTail(s, prefix, separator);
      SplitPrefix(s[1..], prefix[1..], separator);
    }
  }

  lemma PrefixTail(s: string, prefix: string, separator: char)
    requires HasPrefix(s, prefix + [separator]) && prefix != ""
    ensures HasPrefix(s[1..], prefix[1..] + [separator]) && s[1..][|prefix[1..]| + 1..] == s[|prefix| + 1..]
  {
    assert s[1..][..|prefix|] == s[..|prefix| + 1][1..] == (prefix + [separator])[1..] == prefix[1..] + [separator];
  }

  lemma PrefixTokens(tokens: seq<string>, root: seq<string>)
    requires EscapedAll(root) <= EscapedAll(tokens)
    ensures root <= tokens
  {
    forall i | 0 <= i < |root|
      ensures root[i] == tokens[i]
    {
      assert EscapedAll(root)[i] == EscapedAll(tokens)[i];
      EscapeDenotes(root[i]);
      EscapeDenotes(tokens[i]);
    }
  }

  lemma BelowHasAncestor(tokens: seq<string>, root: seq<string>)
    requires root != [] && tokens != [] && HasPrefix(Print(tokens), Print(root) + "/")
    ensures root <= tokens
  {
    hide Split, Join, EscapedAll, Escape, Unescape, EscapesAccepted;
    EscapedParts(tokens);
    EscapedParts(root);
    var s, prefix := Join(EscapedAll(tokens), '/'), Join(EscapedAll(root), '/');
    assert s == Print(tokens)[1..];
    assert s[..|prefix| + 1] == Print(tokens)[..|prefix| + 2][1..] == (Print(root) + "/")[1..] == prefix + "/";
    SplitPrefix(s, prefix, '/');
    PrefixTokens(tokens, root);
  }

  lemma AncestorIsAbove(tokens: seq<string>, root: seq<string>)
    requires root != [] && root <= tokens
    ensures AtOrBelow(Print(tokens), Print(root))
  {
    hide Join, EscapedAll;
    var rest := tokens[|root|..];
    assert tokens == root + rest;
    PrintExtends(root, rest);
    if rest != [] {
      assert Print(rest)[0] == '/';
      assert Print(tokens)[..|Print(root)| + 1] == Print(root) + Print(rest)[..1];
    }
  }

  /** On printed pointers the text test is exactly token ancestry. */
  lemma AtOrBelowIsAncestry(tokens: seq<string>, root: seq<string>)
    requires root != []
    ensures AtOrBelow(Print(tokens), Print(root)) <==> root <= tokens
  {
    hide Join, EscapedAll;
    if root <= tokens {
      AncestorIsAbove(tokens, root);
    }
    if AtOrBelow(Print(tokens), Print(root)) {
      if Print(tokens) == Print(root) {
        PrintInjective(tokens, root);
      } else {
        BelowHasAncestor(tokens, root);
      }
    }
  }
}
