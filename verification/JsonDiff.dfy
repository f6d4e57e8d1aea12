/** The structural diff of two documents and the locked-field check built on it. */
module JsonDiff {
  import opened Identifiers
  import opened Sorting
  import opened JsonPointer
  import opened JsonPatch

  const MAX_CHANGES := 256
  const MAX_DIAGNOSTICS := 64

  // Sorting keys.

  predicate SortedStrings(s: seq<string>) {
    forall i, j | 0 <= i < j < |s| :: NotAfter(s[i], s[j])
  }

  /** Everything up to `i` is in order, except that the element at `j` may be too late. */
  predicate SortedBut(s: seq<string>, i: int, j: int) {
    forall a, b | 0 <= a < b <= i < |s| && b != j :: NotAfter(s[a], s[b])
  }

  lemma SwapKeepsOrder(s: seq<string>, i: int, j: int)
    requires 0 < j <= i < |s| && SortedBut(s, i, j) && StringLess(s[j], s[j - 1])
    ensures SortedBut(s[j := s[j - 1]][j - 1 := s[j]], i, j - 1)
  {
    StringLessAsymmetric(s[j], s[j - 1]);
    hide StringLess;
  }

  lemma Settled(s: seq<string>, i: int, j: int)
    requires 0 <= j <= i < |s| && SortedBut(s, i, j) && (j == 0 || NotAfter(s[j - 1], s[j]))
    ensures SortedStrings(s[..i + 1])
  {
    hide StringLess;
    forall a, b | 0 <= a < b <= i
      ensures NotAfter(s[a], s[b])
    {
      if b == j && a < j - 1 {
        NotAfterTransitive(s[a], s[j - 1], s[j]);
      }
    }
  }

  method SortStrings(values: array<string>)
    modifies values
    ensures SortedStrings(values[..]) && multiset(values[..]) == multiset(old(values[..]))
  {
    hide StringLess;
    if values.Length == 0 {
      return;
    }
    var i := 1;
    while i < values.Length
      invariant 1 <= i <= values.Length && SortedStrings(values[..i])
      invariant multiset(values[..]) == multiset(old(values[..]))
    {
      var j := i;
      assert SortedBut(values[..], i, j) by {
        assert forall a | 0 <= a < i :: values[..][a] == values[..i][a];
      }
      while j > 0 && StringLess(values[j], values[j - 1])
        invariant 0 <= j <= i && SortedBut(values[..], i, j)
        invariant multiset(values[..]) == multiset(old(values[..]))
      {
        ghost var s := values[..];
        SwapKeepsOrder(s, i, j);
        values[j], values[j - 1] := values[j - 1], values[j];
        assert values[..] == s[j := s[j - 1]][j - 1 := s[j]];
        j := j - 1;
      }
      Settled(values[..], i, j);
      assert values[..][..i + 1] == values[..i + 1];
      i := i + 1;
    }
    assert values[..values.Length] == values[..];
  }

  // The sorted list of a set of keys.

  ghost predicate IsLeast(keys: set<string>, k: string) {
    k in keys && forall j | j in keys :: NotAfter(k, j)
  }

  lemma {:induction false} LeastExists(keys: set<string>)
    requires keys != {}
    ensures exists k :: IsLeast(keys, k)
    decreases |keys|
  {
    var k :| k in keys;
    StringLessIrreflexive(k);
    hide StringLess;
    if keys == {k} {
      assert IsLeast(keys, k);
    } else {
      LeastExists(keys - {k});
      var m :| IsLeast(keys - {k}, m);
      if NotAfter(k, m) {
        forall j | j in keys
          ensures NotAfter(k, j)
        {
          if j != k {
            NotAfterTransitive(k, m, j);
          }
        }
        assert IsLeast(keys, k);
      } else {
        StringLessAsymmetric(m, k);
        assert IsLeast(keys, m);
      }
    }
  }

  ghost function Ordered(keys: set<string>): (s: seq<string>)
    ensures forall k :: k in s <==> k in keys
    decreases |keys|
  {
    if keys == {} then []
    else
      LeastExists(keys);
      var k :| IsLeast(keys, k);
      [k] + Ordered(keys - {k})
  }

  ghost predicate Distinct(s: seq<string>) {
    forall i, j | 0 <= i < j < |s| :: s[i] != s[j]
  }

  /** A sorted list without repetitions is determined by its elements. */
  lemma {:induction false} SortedIsOrdered(s: seq<string>)
    requires SortedStrings(s) && Distinct(s)
    ensures s == Ordered(set k | k in s)
  {
    hide StringLess;
    var keys := set k | k in s;
    if s != [] {
      assert s[0] in keys;
      LeastExists(keys);
      var k := Ordered(keys)[0];
      assert IsLeast(keys, k);
      var i :| 0 <= i < |s| && s[i] == k;
      StringLessTotal(s[0], k);
      assert k == s[0];
      var rest := s[1..];
      assert keys - {k} == set x | x in rest;
      SortedIsOrdered(rest);
      assert s == [s[0]] + rest;
    } else {
      assert keys == {};
    }
  }

  method SortedKeys(keys: set<string>) returns (ordered: seq<string>)
    ensures ordered == Ordered(keys)
  {
    var list: seq<string> := [];
    var rest := keys;
    while rest != {}
      invariant rest <= keys && Distinct(list)
      invariant forall k :: k in list <==> k in keys && k !in rest
      decreases |rest|
    {
      var k :| k in rest;
      list := list + [k];
      rest := rest - {k};
    }
    var values := new string[|list|](i requires 0 <= i < |list| => list[i]);
    assert values[..] == list;
    SortStrings(values);
    ordered := values[..];
    SameElements(list, ordered);
    assert keys == set k | k in ordered;
    SortedIsOrdered(ordered);
  }

  lemma SameElements(a: seq<string>, b: seq<string>)
    requires multiset(a) == multiset(b) && Distinct(a)
    ensures Distinct(b) && forall k :: k in b <==> k in a
  {
    forall k
      ensures k in b <==> k in a
    {
      assert k in multiset(a) <==> k in a;
      assert k in multiset(b) <==> k in b;
    }
    DistinctIsUnique(a, Itself);
    DistinctIsUnique(b, Itself);
    assert KeysDistinct(a, Itself);
    forall i, j | 0 <= i < j < |b|
      ensures b[i] != b[j]
    {
      assert Itself(b[i]) != Itself(b[j]);
    }
  }

  function Itself(s: string): string {
    s
  }

  // The diff.

  /** A missing field reads as null. */
  function Field(doc: Json, key: string): Json
    requires doc.Obj?
  {
    if key in doc.fields then doc.fields[key] else Null
  }

  /** The places, as token lists, where two documents differ: objects are descended into, in key order. */
  ghost function Walk(path: seq<string>, left: Json, right: Json): seq<seq<string>>
    decreases left.Obj? && right.Obj?, left, 1, 0
  {
    if left == right then []
    else if left.Obj? && right.Obj? then WalkKeys(path, left, right, Ordered(left.fields.Keys + right.fields.Keys))
    else [path]
  }

  ghost function WalkKeys(path: seq<string>, left: Json, right: Json, keys: seq<string>): seq<seq<string>>
    requires left.Obj? && right.Obj?
    decreases true, left, 0, |keys|
  {
    if keys == [] then []
    else Walk(path + [keys[0]], Field(left, keys[0]), Field(right, keys[0])) + WalkKeys(path, left, right, keys[1..])
  }

  /** How a place is reported. */
  function PointerOf(tokens: seq<string>): string {
    if tokens == [] then "/" else Print(tokens)
  }

  ghost function Pointers(places: seq<seq<string>>): (r: seq<string>)
    ensures |r| == |places| && forall i | 0 <= i < |r| :: r[i] == PointerOf(places[i])
  {
    seq(|places|, i requires 0 <= i < |places| => PointerOf(places[i]))
  }

  function Capped(s: seq<string>): seq<string> {
    if |s| <= MAX_CHANGES then s else s[..MAX_CHANGES]
  }

  lemma CappedAppend(a: seq<string>, b: seq<string>, c: seq<string>)
    ensures Capped(Capped(a + b) + c) == Capped(a + (b + c))
  {
  }

  lemma PointersAppend(a: seq<seq<string>>, b: seq<seq<string>>)
    ensures Pointers(a + b) == Pointers(a) + Pointers(b)
  {
  }

  lemma PrintChild(tokens: seq<string>, key: string)
    ensures Print(tokens + [key]) == Print(tokens) + "/" + Escape(key)
  {
    PrintExtends(tokens, [key]);
    assert EscapedAll([key]) == [Escape(key)];
  }

  method WalkInto(path: string, left: Json, right: Json, changes: seq<string>, ghost tokens: seq<string>)
    returns (r: seq<string>)
    requires path == Print(tokens) && |changes| <= MAX_CHANGES
    ensures r == Capped(changes + Pointers(Walk(tokens, left, right)))
    decreases left.Obj? && right.Obj?, left
  {
    hide Print, Escape, Ordered;
    r := changes;
    if left == right {
      assert changes + [] == changes;
      return;
    }
    if left.Obj? && right.Obj? {
      var ordered := SortedKeys(left.fields.Keys + right.fields.Keys);
      assert ordered[0..] == ordered;
      for i := 0 to |ordered|
        invariant |r| <= MAX_CHANGES
        invariant Capped(r + Pointers(WalkKeys(tokens, left, right, ordered[i..]))) ==
                  Capped(changes + Pointers(Walk(tokens, left, right)))
      {
        var key := ordered[i];
        ghost var here := Walk(tokens + [key], Field(left, key), Field(right, key));
        ghost var rest := WalkKeys(tokens, left, right, ordered[i + 1..]);
        assert ordered[i..][1..] == ordered[i + 1..];
        PointersAppend(here, rest);
        CappedAppend(r, Pointers(here), Pointers(rest));
        PrintChild(tokens, key);
        r := WalkInto(path + "/" + Escape(key), Field(left, key), Field(right, key), r, tokens + [key]);
      }
      assert ordered[|ordered|..] == [] && r + [] == r;
      return;
    }
    assert Pointers([tokens]) == [PointerOf(tokens)];
    if |changes| < MAX_CHANGES {
      EmptyRoot(tokens);
      r := changes + [if path == "" then "/" else path];
    }
  }

  lemma EmptyRoot(tokens: seq<string>)
    ensures PointerOf(tokens) == if Print(tokens) == "" then "/" else Print(tokens)
  {
  }

  method Compare(before: Json, after: Json) returns (changes: seq<string>)
    ensures changes == Capped(Pointers(Walk([], before, after)))
  {
    changes := WalkInto("", before, after, [], []);
    assert [] + Pointers(Walk([], before, after)) == Pointers(Walk([], before, after));
  }

  // The locked-field check.

  method Editable(path: string, pointers: seq<string>) returns (r: bool)
    ensures r <==> exists i :: 0 <= i < |pointers| && AtOrBelow(path, pointers[i])
  {
    for i := 0 to |pointers|
      invariant forall j | 0 <= j < i :: !AtOrBelow(path, pointers[j])
    {
      if path == pointers[i] || HasPrefix(path, pointers[i] + "/") {
        return true;
      }
    }
    return false;
  }

  ghost predicate IsEditable(path: string, pointers: seq<string>) {
    exists i :: 0 <= i < |pointers| && AtOrBelow(path, pointers[i])
  }

  /** The places a candidate is refused for; none means the edit is accepted. */
  method LockedFields(before: Json, after: Json, pointers: seq<string>) returns (locked: seq<string>)
    ensures |locked| <= MAX_DIAGNOSTICS
    ensures var reported := Capped(Pointers(Walk([], before, after)));
            forall p | p in locked :: p in reported && !IsEditable(p, pointers)
    ensures locked == [] <==> Accepted(before, after, pointers)
  {
    hide Walk, Capped, Pointers;
    var changes := Compare(before, after);
    locked := [];
    for i := 0 to |changes|
      invariant forall p | p in locked :: p in changes && !IsEditable(p, pointers)
      invariant locked == [] <==> forall j | 0 <= j < i :: IsEditable(changes[j], pointers)
    {
      var editable := Editable(changes[i], pointers);
      if !editable {
        locked := locked + [changes[i]];
      }
    }
    if |locked| > MAX_DIAGNOSTICS {
      locked := locked[..MAX_DIAGNOSTICS];
    }
  }

  // What an accepted edit means.

  /** The node at a place, objects only; missing reads as null. */
  function Node(doc: Json, place: seq<string>): Json
    decreases |place|
  {
    if place == [] then doc
    else if doc.Obj? then Node(Field(doc, place[0]), place[1..])
    else Null
  }

  /** Equal, or both objects (whose fields are places of their own). */
  predicate SameNode(a: Json, b: Json) {
    a == b || (a.Obj? && b.Obj?)
  }

  ghost predicate Under(place: seq<string>, roots: seq<seq<string>>) {
    exists i :: 0 <= i < |roots| && roots[i] <= place
  }

  /** The documents agree at every place that is not inside an editable subtree. */
  ghost predicate AgreeOutside(before: Json, after: Json, roots: seq<seq<string>>) {
    forall place | !Under(place, roots) :: SameNode(Node(before, place), Node(after, place))
  }

  lemma {:induction false} WalkKeysHas(path: seq<string>, left: Json, right: Json, keys: seq<string>, i: nat,
      c: seq<string>)
    requires left.Obj? && right.Obj? && i < |keys|
    requires c in Walk(path + [keys[i]], Field(left, keys[i]), Field(right, keys[i]))
    ensures c in WalkKeys(path, left, right, keys)
    decreases |keys|
  {
    if i > 0 {
      WalkKeysHas(path, left, right, keys[1..], i - 1, c);
    }
  }

  lemma {:induction false} WalkKeysFrom(path: seq<string>, left: Json, right: Json, keys: seq<string>, c: seq<string>)
    returns (i: nat)
    requires left.Obj? && right.Obj? && c in WalkKeys(path, left, right, keys)
    ensures i < |keys| && c in Walk(path + [keys[i]], Field(left, keys[i]), Field(right, keys[i]))
    decreases |keys|
  {
    if c in Walk(path + [keys[0]], Field(left, keys[0]), Field(right, keys[0])) {
      i := 0;
    } else {
      i := WalkKeysFrom(path, left, right, keys[1..], c);
      i := i + 1;
    }
  }

  /** Every reported place is one where the documents differ. */
  lemma {:induction false} WalkSound(path: seq<string>, left: Json, right: Json, c: seq<string>)
    returns (rest: seq<string>)
    requires c in Walk(path, left, right)
    ensures c == path + rest && !SameNode(Node(left, rest), Node(right, rest))
    decreases left.Obj? && right.Obj?, left
  {
    hide Ordered, WalkKeys;
    if left.Obj? && right.Obj? {
      var keys := Ordered(left.fields.Keys + right.fields.Keys);
      var i := WalkKeysFrom(path, left, right, keys, c);
      var below := WalkSound(path + [keys[i]], Field(left, keys[i]), Field(right, keys[i]), c);
      rest := [keys[i]] + below;
      assert rest[1..] == below;
      assert path + [keys[i]] + below == path + rest;
    } else {
      rest := [];
      assert c == path + [];
    }
  }

  /** Every place where the documents differ lies at or below a reported one. */
  lemma {:induction false} WalkComplete(path: seq<string>, left: Json, right: Json, place: seq<string>) returns (n: nat)
    requires !SameNode(Node(left, place), Node(right, place))
    ensures n <= |place| && path + place[..n] in Walk(path, left, right)
    decreases |place|
  {
    if place == [] || !left.Obj? || !right.Obj? {
      n := 0;
      assert path + place[..0] == path;
    } else {
      var key := place[0];
      var m := WalkComplete(path + [key], Field(left, key), Field(right, key), place[1..]);
      n := m + 1;
      assert path + [key] + place[1..][..m] == path + place[..n];
      var keys := Ordered(left.fields.Keys + right.fields.Keys);
      assert key in keys;
      var i :| 0 <= i < |keys| && keys[i] == key;
      WalkKeysHas(path, left, right, keys, i, path + place[..n]);
    }
  }

  ghost predicate AllUnder(places: seq<seq<string>>, roots: seq<seq<string>>) {
    forall c | c in places :: Under(c, roots)
  }

  /** All differences lie inside the editable subtrees exactly when the documents agree outside them. */
  lemma ChangesInsideMeansAgreement(before: Json, after: Json, roots: seq<seq<string>>)
    ensures AllUnder(Walk([], before, after), roots) <==> AgreeOutside(before, after, roots)
  {
    if AllUnder(Walk([], before, after), roots) {
      forall place
        ensures Under(place, roots) || SameNode(Node(before, place), Node(after, place))
      {
        if !SameNode(Node(before, place), Node(after, place)) {
          var n := WalkComplete([], before, after, place);
          assert [] + place[..n] == place[..n];
          var i :| 0 <= i < |roots| && roots[i] <= place[..n];
          assert roots[i] <= place;
        }
      }
    }
    if AgreeOutside(before, after, roots) {
      forall c | c in Walk([], before, after)
        ensures Under(c, roots)
      {
        var rest := WalkSound([], before, after, c);
        assert [] + rest == rest;
      }
    }
  }

  /** Editable subtrees: not the document itself, and not the field with the empty name. */
  ghost predicate Roots(roots: seq<seq<string>>) {
    forall i | 0 <= i < |roots| :: roots[i] != [] && roots[i] != [""]
  }

  /** The text test on a reported pointer says whether the place lies inside an editable subtree. */
  lemma EditableMeansUnder(place: seq<string>, roots: seq<seq<string>>, pointers: seq<string>)
    requires Roots(roots) && |pointers| == |roots| && forall i | 0 <= i < |roots| :: pointers[i] == Print(roots[i])
    ensures IsEditable(PointerOf(place), pointers) <==> Under(place, roots)
  {
    hide Print;
    forall i | 0 <= i < |roots|
      ensures AtOrBelow(PointerOf(place), pointers[i]) <==> roots[i] <= place
    {
      if place == [] {
        RootIsNotEditable(roots[i]);
      } else {
        AtOrBelowIsAncestry(place, roots[i]);
      }
    }
  }

  lemma RootIsNotEditable(root: seq<string>)
    requires root != [] && root != [""]
    ensures !AtOrBelow("/", Print(root))
  {
    assert |Print(root)| >= 1;
    if Print(root) == "/" {
      assert EscapedAll([""]) == [""];
      assert Print([""]) == "/";
      PrintInjective(root, [""]);
    }
  }

  /** No reported change is locked: the edit passes the check. */
  ghost predicate Accepted(before: Json, after: Json, pointers: seq<string>) {
    var reported := Capped(Pointers(Walk([], before, after)));
    forall i | 0 <= i < |reported| :: IsEditable(reported[i], pointers)
  }

  /** The places that are reported lie inside the editable subtrees. */
  ghost predicate FirstUnder(places: seq<seq<string>>, roots: seq<seq<string>>) {
    forall i | 0 <= i < |places| && i < MAX_CHANGES :: Under(places[i], roots)
  }

  /** More places differ than are reported, all reported ones are editable, and some later one is not. */
  ghost predicate HidesLocked(places: seq<seq<string>>, roots: seq<seq<string>>) {
    && |places| > MAX_CHANGES && FirstUnder(places, roots)
    && exists i :: MAX_CHANGES <= i < |places| && !Under(places[i], roots)
  }

  lemma AcceptedPlaces(before: Json, after: Json, roots: seq<seq<string>>, pointers: seq<string>)
    requires Roots(roots) && |pointers| == |roots| && forall i | 0 <= i < |roots| :: pointers[i] == Print(roots[i])
    ensures var places := Walk([], before, after);
            Accepted(before, after, pointers) <==> FirstUnder(places, roots)
  {
    hide Walk, IsEditable, Under, Print, PointerOf;
    var places := Walk([], before, after);
    var reported := Capped(Pointers(places));
    forall i | 0 <= i < |places|
      ensures IsEditable(PointerOf(places[i]), pointers) <==> Under(places[i], roots)
    {
      EditableMeansUnder(places[i], roots, pointers);
    }
    assert |reported| == if |places| <= MAX_CHANGES then |places| else MAX_CHANGES;
    forall i | 0 <= i < |reported|
      ensures IsEditable(reported[i], pointers) <==> Under(places[i], roots)
    {
      assert reported[i] == PointerOf(places[i]);
    }
    hide Capped, Pointers;
    if Accepted(before, after, pointers) {
      forall i | 0 <= i < |places| && i < MAX_CHANGES
        ensures Under(places[i], roots)
      {
        assert IsEditable(reported[i], pointers);
      }
    } else {
      var i :| 0 <= i < |reported| && !IsEditable(reported[i], pointers);
      assert i < MAX_CHANGES && i < |places| && !Under(places[i], roots);
    }
  }

  /**
   An edit that keeps to the editable subtrees is accepted. Up to the cap no other edit is, and beyond it exactly
   those whose first differing places are editable and some later one is not.
   */
  lemma LockedFieldSoundness(before: Json, after: Json, roots: seq<seq<string>>, pointers: seq<string>)
    requires Roots(roots) && |pointers| == |roots| && forall i | 0 <= i < |roots| :: pointers[i] == Print(roots[i])
    ensures AgreeOutside(before, after, roots) ==> Accepted(before, after, pointers)
    ensures |Walk([], before, after)| <= MAX_CHANGES ==>
            (Accepted(before, after, pointers) <==> AgreeOutside(before, after, roots))
    ensures Accepted(before, after, pointers) && !AgreeOutside(before, after, roots) <==>
            HidesLocked(Walk([], before, after), roots)
  {
    hide Walk, Accepted, Under, AgreeOutside;
    var places := Walk([], before, after);
    ChangesInsideMeansAgreement(before, after, roots);
    AcceptedPlaces(before, after, roots, pointers);
    assert forall i | 0 <= i < |places| :: places[i] in places;
    if !AllUnder(places, roots) {
      var c :| c in places && !Under(c, roots);
      var i :| 0 <= i < |places| && places[i] == c;
    }
  }

  // The walk over documents that differ in few fields.

  lemma ConsSorted(x: string, rest: seq<string>)
    requires SortedStrings(rest) && Distinct(rest) && forall y | y in rest :: NotAfter(x, y) && x != y
    ensures SortedStrings([x] + rest) && Distinct([x] + rest)
  {
    hide NotAfter;
    var s := [x] + rest;
    forall i, j | 0 <= i < j < |s|
      ensures NotAfter(s[i], s[j]) && s[i] != s[j]
    {
      assert s[j] == rest[j - 1] && s[j] in rest;
    }
  }

  lemma LeastFirst(keys: set<string>) returns (x: string)
    requires keys != {}
    ensures IsLeast(keys, x) && Ordered(keys) == [x] + Ordered(keys - {x})
  {
    LeastExists(keys);
    x := Ordered(keys)[0];
    hide NotAfter;
  }

  lemma {:induction false} OrderedSorted(keys: set<string>)
    ensures SortedStrings(Ordered(keys)) && Distinct(Ordered(keys)) && |Ordered(keys)| == |keys|
    decreases |keys|
  {
    if keys == {} {
      assert Ordered(keys) == [];
    } else {
      var x := LeastFirst(keys);
      hide SortedStrings, Distinct, NotAfter;
      OrderedSorted(keys - {x});
      ConsSorted(x, Ordered(keys - {x}));
    }
  }

  lemma {:induction false} WalkKeysAppend(path: seq<string>, left: Json, right: Json, p: seq<string>, q: seq<string>)
    requires left.Obj? && right.Obj?
    ensures WalkKeys(path, left, right, p + q) == WalkKeys(path, left, right, p) + WalkKeys(path, left, right, q)
  {
    hide Walk;
    if p == [] {
      assert p + q == q;
    } else {
      WalkKeysAppend(path, left, right, p[1..], q);
      assert (p + q)[1..] == p[1..] + q;
    }
  }

  lemma {:induction false} WalkKeysEqual(path: seq<string>, left: Json, right: Json, keys: seq<string>)
    requires left.Obj? && right.Obj? && forall k | k in keys :: Field(left, k) == Field(right, k)
    ensures WalkKeys(path, left, right, keys) == []
  {
    if keys != [] {
      WalkKeysEqual(path, left, right, keys[1..]);
      assert keys[0] in keys;
    }
  }

  lemma WalkKeysOne(path: seq<string>, left: Json, right: Json, a: string)
    requires left.Obj? && right.Obj?
    ensures WalkKeys(path, left, right, [a]) == Walk(path + [a], Field(left, a), Field(right, a))
  {
    hide Walk;
    assert [a][1..] == [];
  }

  lemma WalkKeysAt(path: seq<string>, left: Json, right: Json, p: seq<string>, a: string, q: seq<string>)
    requires left.Obj? && right.Obj? && forall k | k in p || k in q :: Field(left, k) == Field(right, k)
    ensures WalkKeys(path, left, right, p + ([a] + q)) == Walk(path + [a], Field(left, a), Field(right, a))
  {
    hide Walk, WalkKeys, Field;
    WalkKeysAppend(path, left, right, p, [a] + q);
    WalkKeysAppend(path, left, right, [a], q);
    WalkKeysEqual(path, left, right, p);
    WalkKeysEqual(path, left, right, q);
    WalkKeysOne(path, left, right, a);
  }

  lemma WalkUnfolds(path: seq<string>, left: Json, right: Json)
    requires left.Obj? && right.Obj?
    ensures Walk(path, left, right) == WalkKeys(path, left, right, Ordered(left.fields.Keys + right.fields.Keys))
  {
    if left == right {
      WalkKeysEqual(path, left, right, Ordered(left.fields.Keys + right.fields.Keys));
    }
  }

  lemma SplitAt(keys: seq<string>, i: nat)
    requires Distinct(keys) && i < |keys|
    ensures keys == keys[..i] + ([keys[i]] + keys[i + 1..])
    ensures forall k | k in keys[..i] || k in keys[i + 1..] :: k in keys && k != keys[i]
  {
  }

  /** Objects that agree in every field but one differ where that field does. */
  lemma WalkAt(path: seq<string>, left: Json, right: Json, a: string)
    requires left.Obj? && right.Obj? && a in left.fields && forall k | k != a :: Field(left, k) == Field(right, k)
    ensures Walk(path, left, right) == Walk(path + [a], Field(left, a), Field(right, a))
  {
    hide Walk, WalkKeys, Ordered, SortedStrings, Distinct, Field;
    var keys := Ordered(left.fields.Keys + right.fields.Keys);
    WalkUnfolds(path, left, right);
    OrderedSorted(left.fields.Keys + right.fields.Keys);
    var i :| 0 <= i < |keys| && keys[i] == a;
    SplitAt(keys, i);
    WalkKeysAt(path, left, right, keys[..i], a, keys[i + 1..]);
  }

  /** Objects that agree in every field but two differ where those fields do, in key order. */
  lemma WalkAtTwo(path: seq<string>, left: Json, right: Json, a: string, b: string)
    requires left.Obj? && right.Obj? && a in left.fields && b in left.fields && StringLess(a, b)
    requires forall k | k != a && k != b :: Field(left, k) == Field(right, k)
    ensures Walk(path, left, right) ==
            Walk(path + [a], Field(left, a), Field(right, a)) + Walk(path + [b], Field(left, b), Field(right, b))
  {
    hide Walk, WalkKeys, Ordered, SortedStrings, Distinct, Field, StringLess;
    var keys := Ordered(left.fields.Keys + right.fields.Keys);
    WalkUnfolds(path, left, right);
    OrderedSorted(left.fields.Keys + right.fields.Keys);
    var i, j := TwoPositions(keys, a, b);
    SplitTwo(keys, i, j);
    var p, q, r := keys[..i], keys[i + 1..j], keys[j + 1..];
    WalkKeysAppend(path, left, right, p + ([a] + q), [b] + r);
    WalkKeysAt(path, left, right, p, a, q);
    WalkKeysAt(path, left, right, [], b, r);
    assert [] + ([b] + r) == [b] + r;
  }

  lemma SplitTwo(keys: seq<string>, i: nat, j: nat)
    requires Distinct(keys) && i < j < |keys|
    ensures keys == (keys[..i] + ([keys[i]] + keys[i + 1..j])) + ([keys[j]] + keys[j + 1..])
    ensures forall k | k in keys[..i] || k in keys[i + 1..j] || k in keys[j + 1..] ::
            k in keys && k != keys[i] && k != keys[j]
  {
  }

  lemma TwoPositions(keys: seq<string>, a: string, b: string) returns (i: nat, j: nat)
    requires SortedStrings(keys) && Distinct(keys) && a in keys && b in keys && StringLess(a, b)
    ensures i < j < |keys| && keys[i] == a && keys[j] == b
  {
    StringLessAsymmetric(a, b);
    hide StringLess;
    i :| 0 <= i < |keys| && keys[i] == a;
    j :| 0 <= j < |keys| && keys[j] == b;
    assert j < i ==> NotAfter(keys[j], keys[i]);
  }

  lemma {:induction false} FreshFields(path: seq<string>, m: map<string, Json>, keys: seq<string>)
    requires forall k | k in keys :: k in m && m[k] != Null
    ensures var places := WalkKeys(path, Obj(map[]), Obj(m), keys);
            |places| == |keys| && forall i | 0 <= i < |keys| :: places[i] == path + [keys[i]]
  {
    if keys != [] {
      FreshFields(path, m, keys[1..]);
      assert Walk(path + [keys[0]], Null, m[keys[0]]) == [path + [keys[0]]];
    }
  }

  /** Fields added to an empty object differ one by one. */
  lemma FreshWalk(path: seq<string>, m: map<string, Json>)
    requires forall k | k in m :: m[k] != Null
    ensures var places := Walk(path, Obj(map[]), Obj(m));
            |places| == |m| && forall i | 0 <= i < |m| :: path <= places[i]
  {
    var empty: map<string, Json> := map[];
    var keys := Ordered(empty.Keys + m.Keys);
    assert empty.Keys + m.Keys == m.Keys;
    OrderedSorted(m.Keys);
    if m != map[] {
      FreshFields(path, m, keys);
    }
  }

  lemma TextWalk(path: seq<string>, x: string, y: string)
    requires x != y
    ensures Walk(path, Str(x), Str(y)) == [path]
  {
  }
}
