/** JSON documents, the values their pointers name, and the patch operations add, replace and remove. */
module JsonPatch {
  import opened Identifiers
  import opened Naming
  import opened JsonPointer

  /** A decoded document. Numbers keep their text, as the decoder does. */
  datatype Json =
    | Null
    | Bool(flag: bool)
    | Num(digits: string)
    | Str(text: string)
    | Arr(items: seq<Json>)
    | Obj(fields: map<string, Json>)

  datatype Kind = Add | Replace | Remove

  datatype PatchOperation = PatchOperation(op: string, path: string, value: Json)

  // Array indices.

  predicate AllDigits(s: string) {
    forall i | 0 <= i < |s| :: IsDigit(s[i])
  }

  /** Decimal with an optional sign. Values outside 64 bits are out of every array's bounds, so no limit is needed. */
  function Atoi(s: string): Option<int> {
    var digits := if s != "" && (s[0] == '+' || s[0] == '-') then s[1..] else s;
    if digits == "" || !AllDigits(digits) then None
    else
      var magnitude: int := DecimalValue(digits);
      Some(if s[0] == '-' then -magnitude else magnitude)
  }

  function PatchIndex(raw: string, length: nat, add: bool): (r: Option<nat>)
    ensures r.Some? ==> r.value < length || (add && r.value == length)
    ensures r.Some? && raw != "-" ==> Atoi(raw) == Some(r.value)
  {
    if raw == "-" && add then Some(length)
    else
      var index := Atoi(raw);
      if index == None || index.value < 0 || index.value > length || (!add && index.value == length) then None
      else Some(index.value)
  }

  // Reading.

  /** One step of a lookup. */
  function Child(current: Json, token: string): Option<Json> {
    match current
    case Obj(m) => if token in m then Some(m[token]) else None
    case Arr(a) =>
      var index := Atoi(token);
      if index == None || index.value < 0 || index.value >= |a| then None else Some(a[index.value])
    case _ => None
  }

  function Lookup(root: Json, tokens: seq<string>): Option<Json> {
    if tokens == [] then Some(root)
    else
      var child := Child(root, tokens[0]);
      if child == None then None else Lookup(child.value, tokens[1..])
  }

  method ValueAt(root: Json, path: string) returns (r: Option<Json>)
    ensures r == match Parse(path) case None => None case Some(tokens) => Lookup(root, tokens)
  {
    var tokens := ParsePointer(path);
    if tokens == None {
      return None;
    }
    var current := root;
    for i := 0 to |tokens.value|
      invariant Lookup(current, tokens.value[i..]) == Lookup(root, tokens.value)
    {
      assert tokens.value[i..][1..] == tokens.value[i + 1..];
      var child := Child(current, tokens.value[i]);
      if child == None {
        return None;
      }
      current := child.value;
    }
    return Some(current);
  }

  // Patching.

  /** The last step of a patch, inside the parent container. */
  function PatchLeaf(current: Json, key: string, kind: Kind, value: Json): Option<Json> {
    match current
    case Obj(m) =>
      if kind != Add && key !in m then None
      else if kind == Remove then Some(Obj(m - {key}))
      else Some(Obj(m[key := value]))
    case Arr(a) =>
      (match PatchIndex(key, |a|, kind == Add)
       case None => None
       case Some(index) =>
         Some(Arr(match kind
                  case Add => a[..index] + [value] + a[index..]
                  case Replace => a[index := value]
                  case Remove => a[..index] + a[index + 1..])))
    case _ => None
  }

  function PatchAt(current: Json, tokens: seq<string>, kind: Kind, value: Json): Option<Json> {
    if tokens == [] then None
    else if |tokens| == 1 then PatchLeaf(current, tokens[0], kind, value)
    else
      match current
      case Obj(m) =>
        if tokens[0] !in m then None
        else
          var updated := PatchAt(m[tokens[0]], tokens[1..], kind, value);
          if updated == None then None else Some(Obj(m[tokens[0] := updated.value]))
      case Arr(a) =>
        var index := PatchIndex(tokens[0], |a|, false);
        if index == None then None
        else
          var updated := PatchAt(a[index.value], tokens[1..], kind, value);
          if updated == None then None else Some(Arr(a[index.value := updated.value]))
      case _ => None
  }

  function KindOf(op: string): Option<Kind> {
    if op == "add" then Some(Add) else if op == "replace" then Some(Replace) else if op == "remove" then Some(Remove)
      else None
  }

  /** One operation; the document root itself cannot be replaced. */
  function ApplyPatch(root: Json, operation: PatchOperation): Option<Json> {
    var kind, tokens := KindOf(operation.op), Parse(operation.path);
    if kind == None || operation.path == "" || tokens == None then None
    else PatchAt(root, tokens.value, kind.value, operation.value)
  }

  /** The document after the first `n` operations, if none of them failed. */
  function Patched(root: Json, operations: seq<PatchOperation>, n: nat): Option<Json>
    requires n <= |operations|
  {
    if n == 0 then Some(root)
    else
      var before := Patched(root, operations, n - 1);
      if before == None then None else ApplyPatch(before.value, operations[n - 1])
  }

  lemma {:induction false} FailureSticks(root: Json, operations: seq<PatchOperation>, m: nat, n: nat)
    requires m <= n <= |operations| && Patched(root, operations, m) == None
    ensures Patched(root, operations, n) == None
    decreases n
  {
    hide ApplyPatch;
    if m < n {
      FailureSticks(root, operations, m, n - 1);
    }
  }

  // Locations, free of token syntax.

  datatype Step = Key(name: string) | Index(i: nat)

  function At(doc: Json, q: seq<Step>): Option<Json> {
    if q == [] then Some(doc)
    else
      match doc
      case Obj(m) => if q[0].Key? && q[0].name in m then At(m[q[0].name], q[1..]) else None
      case Arr(a) => if q[0].Index? && q[0].i < |a| then At(a[q[0].i], q[1..]) else None
      case _ => None
  }

  /** The location an operation acts on: its parent must exist, and for `add` an index may be one past the end. */
  function Target(doc: Json, tokens: seq<string>, add: bool): Option<seq<Step>> {
    if tokens == [] then None
    else
      match doc
      case Obj(m) =>
        if |tokens| == 1 then Some([Key(tokens[0])])
        else if tokens[0] !in m then None
        else Below(Key(tokens[0]), Target(m[tokens[0]], tokens[1..], add))
      case Arr(a) =>
        var index := PatchIndex(tokens[0], |a|, add && |tokens| == 1);
        if index == None then None
        else if |tokens| == 1 then Some([Index(index.value)])
        else Below(Index(index.value), Target(a[index.value], tokens[1..], add))
      case _ => None
  }

  function Below(step: Step, q: Option<seq<Step>>): Option<seq<Step>> {
    if q == None then None else Some([step] + q.value)
  }

  /** An operation succeeds exactly when its target can be located and, unless it adds, exists. */
  lemma {:induction false} SucceedsOnTarget(doc: Json, tokens: seq<string>, kind: Kind, value: Json)
    ensures PatchAt(doc, tokens, kind, value).Some? <==>
              var p := Target(doc, tokens, kind == Add);
              p.Some? && (kind == Add || At(doc, p.value).Some?)
  {
    if |tokens| > 1 {
      match doc {
        case Obj(m) =>
          if tokens[0] in m {
            SucceedsOnTarget(m[tokens[0]], tokens[1..], kind, value);
            BelowAt(doc, Key(tokens[0]), m[tokens[0]], Target(m[tokens[0]], tokens[1..], kind == Add));
          }
        case Arr(a) =>
          var index := PatchIndex(tokens[0], |a|, false);
          if index.Some? {
            SucceedsOnTarget(a[index.value], tokens[1..], kind, value);
            BelowAt(doc, Index(index.value), a[index.value], Target(a[index.value], tokens[1..], kind == Add));
          }
        case _ =>
      }
    }
  }

  lemma BelowAt(doc: Json, step: Step, child: Json, q: Option<seq<Step>>)
    requires At(doc, [step]) == Some(child)
    ensures q.Some? ==> At(doc, Below(step, q).value) == At(child, q.value)
  {
    if q.Some? {
      assert ([step] + q.value)[1..] == q.value;
    }
  }

  /** Where what is found at a location after the operation comes from. */
  datatype Origin = FromValue(rest: seq<Step>) | FromBefore(location: seq<Step>) | Nowhere

  function OriginOf(kind: Kind, p: seq<Step>, q: seq<Step>): Origin
    requires p != []
  {
    var n := |p| - 1;
    if |q| <= n || q[..n] != p[..n] then FromBefore(q)
    else
      match (p[n], q[n])
      case (Key(a), Key(b)) =>
        if a != b then FromBefore(q) else if kind == Remove then Nowhere else FromValue(q[n + 1..])
      case (Index(i), Index(j)) =>
        if j < i then FromBefore(q)
        else if kind == Remove then FromBefore(q[n := Index(j + 1)])
        else if j == i then FromValue(q[n + 1..])
        else if kind == Add then FromBefore(q[n := Index(j - 1)])
        else FromBefore(q)
      case _ => FromBefore(q)
  }

  function AtOrigin(doc: Json, value: Json, origin: Origin): Option<Json> {
    match origin
    case FromValue(rest) => At(value, rest)
    case FromBefore(location) => At(doc, location)
    case Nowhere => None
  }

  predicate SameKind(a: Option<Json>, b: Option<Json>) {
    && a.Some? && b.Some?
    && ((a.value.Obj? && b.value.Obj?) || (a.value.Arr? && b.value.Arr?))
  }

  /** What a successful patch leaves at location `q`, given its target `p`. */
  predicate PatchedAt(doc: Json, doc': Json, p: seq<Step>, kind: Kind, value: Json, q: seq<Step>)
    requires p != []
  {
    if q < p then SameKind(At(doc, q), At(doc', q))
    else At(doc', q) == AtOrigin(doc, value, OriginOf(kind, p, q))
  }

  /** Locations inside an array: positions before the target stay, the others shift by the operation's effect. */
  lemma ArrayLaw(a: seq<Json>, a': seq<Json>, index: nat, kind: Kind, value: Json, q: seq<Step>)
    requires index < |a| || (kind == Add && index == |a|)
    requires a' == match kind
                   case Add => a[..index] + [value] + a[index..]
                   case Replace => a[index := value]
                   case Remove => a[..index] + a[index + 1..]
    ensures PatchedAt(Arr(a), Arr(a'), [Index(index)], kind, value, q)
  {
    var p := [Index(index)];
    if q != [] && q[0].Index? {
      assert q[..0] == p[..0];
      var j := q[0].i;
      assert kind == Add ==> |a'| == |a| + 1 && (j > index && j < |a'| ==> a'[j] == a[j - 1]);
      assert kind == Remove ==> |a'| == |a| - 1 && (j >= index && j < |a'| ==> a'[j] == a[j + 1]);
      assert j < index ==> j < |a| && a'[j] == a[j];
      assert kind == Remove ==> q[0 := Index(j + 1)][1..] == q[1..];
      assert kind == Add && j > 0 ==> q[0 := Index(j - 1)][1..] == q[1..];
    }
  }

  lemma ObjectLaw(m: map<string, Json>, key: string, kind: Kind, value: Json, q: seq<Step>)
    ensures PatchedAt(Obj(m), Obj(if kind == Remove then m - {key} else m[key := value]), [Key(key)], kind, value, q)
  {
    assert [Key(key)][..0] == q[..0];
  }

  lemma LeafLaw(doc: Json, key: string, kind: Kind, value: Json, q: seq<Step>)
    requires PatchLeaf(doc, key, kind, value).Some?
    ensures var p := Target(doc, [key], kind == Add);
            && p.Some? && p.value != []
            && PatchedAt(doc, PatchLeaf(doc, key, kind, value).value, p.value, kind, value, q)
  {
    hide PatchedAt;
    var doc' := PatchLeaf(doc, key, kind, value).value;
    match doc {
      case Obj(m) => ObjectLaw(m, key, kind, value, q);
      case Arr(a) => ArrayLaw(a, doc'.items, PatchIndex(key, |a|, kind == Add).value, kind, value, q);
      case _ =>
    }
  }

  lemma DescendLaw(doc: Json, doc': Json, step: Step, child: Json, child': Json, p: seq<Step>, kind: Kind, value: Json,
      q: seq<Step>)
    requires p != [] && At(doc, [step]) == Some(child) && At(doc', [step]) == Some(child')
    requires SameKind(Some(doc), Some(doc'))
    requires q != [] && q[0] != step ==> At(doc, q) == At(doc', q)
    requires q != [] && q[0] == step ==> PatchedAt(child, child', p, kind, value, q[1..])
    ensures PatchedAt(doc, doc', [step] + p, kind, value, q)
  {
    var n, pp := |p| - 1, [step] + p;
    if q != [] && q[0] == step {
      var r := q[1..];
      assert q == [step] + r;
      assert q < pp <==> r < p;
      hide OriginOf;
      StepInto(doc, step, child, r);
      StepInto(doc', step, child', r);
      OriginBelow(doc, step, child, p, kind, value, r);
    } else if q != [] {
      assert |q| > n + 1 ==> q[..n + 1][0] == q[0] && pp[..n + 1][0] == step;
    }
  }

  function Lifted(step: Step, origin: Origin): Origin {
    match origin case FromBefore(location) => FromBefore([step] + location) case _ => origin
  }

  lemma PrefixBelow(step: Step, p: seq<Step>, r: seq<Step>, n: nat)
    requires n <= |p| && n <= |r|
    ensures ([step] + p)[..n + 1] == ([step] + r)[..n + 1] <==> p[..n] == r[..n]
  {
    assert ([step] + p)[..n + 1] == [step] + p[..n] && ([step] + r)[..n + 1] == [step] + r[..n];
    assert ([step] + p[..n])[1..] == p[..n] && ([step] + r[..n])[1..] == r[..n];
  }

  lemma OriginLift(kind: Kind, step: Step, p: seq<Step>, r: seq<Step>)
    requires p != []
    ensures OriginOf(kind, [step] + p, [step] + r) == Lifted(step, OriginOf(kind, p, r))
  {
    var n, pp, q := |p| - 1, [step] + p, [step] + r;
    if |r| > n {
      PrefixBelow(step, p, r, n);
      assert pp[n + 1] == p[n] && q[n + 1] == r[n] && q[n + 2..] == r[n + 1..];
      if r[n].Index? {
        assert q[n + 1 := Index(r[n].i + 1)] == [step] + r[n := Index(r[n].i + 1)];
        assert r[n].i > 0 ==> q[n + 1 := Index(r[n].i - 1)] == [step] + r[n := Index(r[n].i - 1)];
      }
    }
  }

  lemma OriginBelow(doc: Json, step: Step, child: Json, p: seq<Step>, kind: Kind, value: Json, r: seq<Step>)
    requires p != [] && At(doc, [step]) == Some(child)
    ensures AtOrigin(doc, value, OriginOf(kind, [step] + p, [step] + r)) == AtOrigin(child, value, OriginOf(kind, p, r))
  {
    hide OriginOf;
    OriginLift(kind, step, p, r);
    var origin := OriginOf(kind, p, r);
    if origin.FromBefore? {
      StepInto(doc, step, child, origin.location);
    }
  }

  lemma StepInto(doc: Json, step: Step, child: Json, r: seq<Step>)
    requires At(doc, [step]) == Some(child)
    ensures At(doc, [step] + r) == At(child, r)
  {
    assert ([step] + r)[1..] == r;
  }

  /** After a successful operation every location holds the operation's value, or what some location held before. */
  lemma {:induction false} PatchLaw(doc: Json, tokens: seq<string>, kind: Kind, value: Json, q: seq<Step>)
    requires PatchAt(doc, tokens, kind, value).Some?
    ensures var p := Target(doc, tokens, kind == Add);
            && p.Some? && p.value != []
            && PatchedAt(doc, PatchAt(doc, tokens, kind, value).value, p.value, kind, value, q)
  {
    hide PatchedAt, PatchLeaf;
    SucceedsOnTarget(doc, tokens, kind, value);
    if |tokens| == 1 {
      assert tokens == [tokens[0]];
      LeafLaw(doc, tokens[0], kind, value, q);
    } else {
      var doc' := PatchAt(doc, tokens, kind, value).value;
      match doc {
        case Obj(m) =>
          var p := Target(m[tokens[0]], tokens[1..], kind == Add).value;
          PatchLaw(m[tokens[0]], tokens[1..], kind, value, if q == [] then [] else q[1..]);
          DescendLaw(doc, doc', Key(tokens[0]), m[tokens[0]], doc'.fields[tokens[0]], p, kind, value, q);
        case Arr(a) =>
          var index := PatchIndex(tokens[0], |a|, false).value;
          var p := Target(a[index], tokens[1..], kind == Add).value;
          PatchLaw(a[index], tokens[1..], kind, value, if q == [] then [] else q[1..]);
          DescendLaw(doc, doc', Index(index), a[index], doc'.items[index], p, kind, value, q);
        case _ =>
      }
    }
  }

  // Laws by tokens.

  /** The container that holds the target. */
  function Parent(doc: Json, tokens: seq<string>): Option<Json> {
    if tokens == [] then None else Lookup(doc, tokens[..|tokens| - 1])
  }

  /** The operation appended to an array by the token `-`. */
  predicate Appends(doc: Json, tokens: seq<string>) {
    tokens != [] && tokens[|tokens| - 1] == "-" && Parent(doc, tokens).Some? && Parent(doc, tokens).value.Arr?
  }

  lemma ParentBelow(doc: Json, tokens: seq<string>)
    requires |tokens| > 1
    ensures Parent(doc, tokens) ==
            if Child(doc, tokens[0]) == None then None else Parent(Child(doc, tokens[0]).value, tokens[1..])
  {
    assert tokens[..|tokens| - 1][0] == tokens[0];
    assert tokens[..|tokens| - 1][1..] == tokens[1..][..|tokens| - 2];
  }

  /** Reading back an added or replaced value returns it, except after an append. */
  lemma {:induction false} ReadBack(doc: Json, tokens: seq<string>, kind: Kind, value: Json)
    requires kind != Remove && PatchAt(doc, tokens, kind, value).Some?
    ensures Lookup(PatchAt(doc, tokens, kind, value).value, tokens)
            == if Appends(doc, tokens) then None else Some(value)
  {
    var doc' := PatchAt(doc, tokens, kind, value).value;
    if |tokens| == 1 {
      assert tokens[1..] == [] && tokens[..0] == [];
      assert Lookup(doc', tokens) == Child(doc', tokens[0]);
    } else {
      ParentBelow(doc, tokens);
      match doc {
        case Obj(m) => ReadBack(m[tokens[0]], tokens[1..], kind, value);
        case Arr(a) => ReadBack(a[PatchIndex(tokens[0], |a|, false).value], tokens[1..], kind, value);
        case _ =>
      }
    }
  }

  /** The target is new: an absent field, or any array position not written as `-`. */
  predicate IsNew(doc: Json, tokens: seq<string>) {
    && Parent(doc, tokens).Some?
    && (match Parent(doc, tokens).value
        case Obj(m) => tokens[|tokens| - 1] !in m
        case _ => tokens[|tokens| - 1] != "-")
  }

  lemma LeafAddRemove(doc: Json, key: string, value: Json, other: Json)
    requires PatchLeaf(doc, key, Add, value).Some?
    ensures PatchLeaf(PatchLeaf(doc, key, Add, value).value, key, Remove, other) == Some(doc) <==>
              match doc case Obj(m) => key !in m case _ => key != "-"
  {
    match doc {
      case Obj(m) =>
        assert m[key := value] - {key} == m - {key};
        assert key !in m ==> m - {key} == m;
      case Arr(a) => ItemAddRemove(a, key, value, other);
      case _ =>
    }
  }

  lemma ItemAddRemove(a: seq<Json>, key: string, value: Json, other: Json)
    requires PatchLeaf(Arr(a), key, Add, value).Some?
    ensures PatchLeaf(PatchLeaf(Arr(a), key, Add, value).value, key, Remove, other) == Some(Arr(a)) <==> key != "-"
  {
    var index := PatchIndex(key, |a|, true).value;
    var b := a[..index] + [value] + a[index..];
    if key == "-" {
      assert Atoi("-") == None;
    } else {
      hide Atoi;
      assert PatchIndex(key, |b|, false) == Some(index);
      assert b[..index] + b[index + 1..] == a;
    }
  }

  /** Removing what was just added restores the document exactly when the target was new. */
  lemma {:induction false} AddThenRemove(doc: Json, tokens: seq<string>, value: Json, other: Json)
    requires PatchAt(doc, tokens, Add, value).Some?
    ensures PatchAt(PatchAt(doc, tokens, Add, value).value, tokens, Remove, other) == Some(doc) <==> IsNew(doc, tokens)
  {
    hide PatchLeaf, Atoi;
    var doc' := PatchAt(doc, tokens, Add, value).value;
    if |tokens| == 1 {
      assert tokens[..0] == [];
      LeafAddRemove(doc, tokens[0], value, other);
    } else {
      ParentBelow(doc, tokens);
      match doc {
        case Obj(m) =>
          AddThenRemove(m[tokens[0]], tokens[1..], value, other);
          FieldRestored(m, tokens[0], doc'.fields[tokens[0]],
            PatchAt(doc'.fields[tokens[0]], tokens[1..], Remove, other));
        case Arr(a) =>
          var index := PatchIndex(tokens[0], |a|, false).value;
          AddThenRemove(a[index], tokens[1..], value, other);
          ItemRestored(a, index, doc'.items[index], PatchAt(doc'.items[index], tokens[1..], Remove, other));
        case _ =>
      }
    }
  }

  lemma FieldRestored(m: map<string, Json>, key: string, changed: Json, back: Option<Json>)
    requires key in m
    ensures back.Some? ==> (m[key := changed][key := back.value] == m <==> back.value == m[key])
  {
    if back.Some? {
      assert m[key := changed][key := back.value][key] == back.value;
      if back.value == m[key] {
        assert m[key := changed][key := back.value] == m;
      }
    }
  }

  lemma ItemRestored(a: seq<Json>, index: nat, changed: Json, back: Option<Json>)
    requires index < |a|
    ensures back.Some? ==> (a[index := changed][index := back.value] == a <==> back.value == a[index])
  {
    if back.Some? {
      assert a[index := changed][index := back.value][index] == back.value;
      if back.value == a[index] {
        assert a[index := changed][index := back.value] == a;
      }
    }
  }
}
