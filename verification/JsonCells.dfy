/**
 Decoded documents in memory. Objects and the arrays behind lists are cells of a shared memory; a list is a slice of
 such an array, which may have room to spare.
 */
module JsonCells {
  import opened JsonPatch

  datatype Value = Scalar(json: Json) | Slice(address: nat, length: nat) | Ref(address: nat)
  datatype Cell = Fields(fields: map<string, Value>) | Backing(slots: seq<Value>)

  /** The cells of the program, by address. */
  type Cells = map<nat, Cell>

  /** Which addresses make up a value: what a document owns. */
  datatype Shape =
    Leaf | ListOf(address: nat, shapes: seq<Shape>) | ObjectOf(address: nat, members: map<string, Shape>)

  ghost function Owned(sh: Shape): set<nat> {
    match sh
    case Leaf => {}
    case ListOf(address, shapes) => {address} + set i, a | 0 <= i < |shapes| && a in Owned(shapes[i]) :: a
    case ObjectOf(address, members) => {address} + set k, a | k in members && a in Owned(members[k]) :: a
  }

  /** Separate parts that do not own `address`. */
  ghost predicate PartsApart(address: nat, shapes: seq<Shape>) {
    && (forall i | 0 <= i < |shapes| :: address !in Owned(shapes[i]))
    && forall i, j | 0 <= i < j < |shapes| :: Owned(shapes[i]) !! Owned(shapes[j])
  }

  /** No address occurs twice. */
  ghost predicate Separated(sh: Shape) {
    match sh
    case Leaf => true
    case ListOf(address, shapes) =>
      (forall i | 0 <= i < |shapes| :: Separated(shapes[i])) && PartsApart(address, shapes)
    case ObjectOf(address, members) =>
      && (forall k | k in members :: Separated(members[k]) && address !in Owned(members[k]))
      && forall k, l | k in members && l in members && k != l :: Owned(members[k]) !! Owned(members[l])
  }

  /** The value, read from memory, is the document `j`. Slots past a list's length may hold anything. */
  ghost predicate Represents(m: Cells, v: Value, sh: Shape, j: Json)
    decreases sh
  {
    match sh
    case Leaf => v == Scalar(j) && !j.Arr? && !j.Obj?
    case ListOf(address, shapes) =>
      && v == Slice(address, |shapes|) && j.Arr? && |shapes| == |j.items|
      && address in m && m[address].Backing? && |shapes| <= |m[address].slots|
      && forall i | 0 <= i < |shapes| :: Represents(m, m[address].slots[i], shapes[i], j.items[i])
    case ObjectOf(address, members) =>
      && v == Ref(address) && j.Obj?
      && address in m && m[address].Fields? && m[address].fields.Keys == members.Keys == j.fields.Keys
      && forall k | k in members :: Represents(m, m[address].fields[k], members[k], j.fields[k])
  }

  ghost predicate Holds(m: Cells, v: Value, sh: Shape, j: Json) {
    Represents(m, v, sh, j) && Separated(sh)
  }

  /** The two memories differ at most at `changed` and in new cells. */
  ghost predicate SameOutside(m: Cells, m': Cells, changed: set<nat>) {
    forall a | a in m :: a in m' && (a in changed || m'[a] == m[a])
  }

  /** Everything a shape owns, two others owned already, or it is new. */
  ghost predicate Within(m: Cells, sh': Shape, sh: Shape, vsh: Shape) {
    forall a | a in Owned(sh') :: a in Owned(sh) || a in Owned(vsh) || a !in m
  }

  lemma MemberFacts(sh: Shape, k: string)
    requires sh.ObjectOf? && Separated(sh) && k in sh.members
    ensures Separated(sh.members[k]) && Owned(sh.members[k]) <= Owned(sh) && sh.address in Owned(sh)
            && sh.address !in Owned(sh.members[k])
  {
  }

  lemma MembersApart(sh: Shape, k: string, l: string)
    requires sh.ObjectOf? && Separated(sh) && k in sh.members && l in sh.members && k != l
    ensures Owned(sh.members[k]) !! Owned(sh.members[l])
  {
  }

  lemma ItemFacts(sh: Shape, i: nat)
    requires sh.ListOf? && Separated(sh) && i < |sh.shapes|
    ensures Separated(sh.shapes[i]) && Owned(sh.shapes[i]) <= Owned(sh) && sh.address in Owned(sh)
            && sh.address !in Owned(sh.shapes[i])
  {
  }

  lemma ItemsApart(sh: Shape, i: nat, j: nat)
    requires sh.ListOf? && Separated(sh) && i < |sh.shapes| && j < |sh.shapes| && i != j
    ensures Owned(sh.shapes[i]) !! Owned(sh.shapes[j])
  {
  }

  /** Changes elsewhere do not touch a document. */
  lemma {:induction false} Untouched(m: Cells, m': Cells, changed: set<nat>, v: Value, sh: Shape, j: Json)
    requires Represents(m, v, sh, j) && SameOutside(m, m', changed) && Owned(sh) !! changed
    ensures Represents(m', v, sh, j)
    decreases sh
  {
    match sh {
      case Leaf =>
      case ListOf(address, shapes) =>
        assert address in Owned(sh);
        forall i | 0 <= i < |shapes|
          ensures Represents(m', m[address].slots[i], shapes[i], j.items[i])
        {
          assert forall a | a in Owned(shapes[i]) :: a in Owned(sh);
          Untouched(m, m', changed, m[address].slots[i], shapes[i], j.items[i]);
        }
      case ObjectOf(address, members) =>
        assert address in Owned(sh);
        forall k | k in members
          ensures Represents(m', m[address].fields[k], members[k], j.fields[k])
        {
          assert forall a | a in Owned(members[k]) :: a in Owned(sh);
          Untouched(m, m', changed, m[address].fields[k], members[k], j.fields[k]);
        }
    }
  }

  /** What a document owns is in memory. */
  lemma {:induction false} Allocated(m: Cells, v: Value, sh: Shape, j: Json)
    requires Represents(m, v, sh, j)
    ensures Owned(sh) <= m.Keys
    decreases sh
  {
    match sh {
      case Leaf =>
      case ListOf(address, shapes) =>
        forall i | 0 <= i < |shapes|
          ensures Owned(shapes[i]) <= m.Keys
        {
          Allocated(m, m[address].slots[i], shapes[i], j.items[i]);
        }
      case ObjectOf(address, members) =>
        forall k | k in members
          ensures Owned(members[k]) <= m.Keys
        {
          Allocated(m, m[address].fields[k], members[k], j.fields[k]);
        }
    }
  }

  // Rebuilding an object around one changed field.

  /** An object of which everything but the field `key` is as `j` says. */
  ghost predicate HoldsBut(m: Cells, sh: Shape, j: Json, key: string) {
    && sh.ObjectOf? && j.Obj? && Separated(sh) && sh.address in m && m[sh.address].Fields?
    && m[sh.address].fields.Keys == sh.members.Keys == j.fields.Keys
    && forall k | k in sh.members && k != key :: Represents(m, m[sh.address].fields[k], sh.members[k], j.fields[k])
  }

  lemma FieldSeparated(sh: Shape, key: string, vsh: Shape)
    requires sh.ObjectOf? && Separated(sh) && Separated(vsh) && sh.address !in Owned(vsh)
    requires forall k | k in sh.members && k != key :: Owned(sh.members[k]) !! Owned(vsh)
    ensures Separated(ObjectOf(sh.address, sh.members[key := vsh]))
    ensures Owned(ObjectOf(sh.address, sh.members[key := vsh])) <= Owned(sh) + Owned(vsh)
  {
  }

  lemma FieldSet(m: Cells, sh: Shape, j: Json, key: string, v: Value, vsh: Shape, vj: Json)
    requires HoldsBut(m, sh, j, key) && Holds(m, v, vsh, vj) && sh.address !in Owned(vsh)
    requires forall k | k in sh.members && k != key :: Owned(sh.members[k]) !! Owned(vsh)
    ensures Holds(m[sh.address := Fields(m[sh.address].fields[key := v])], Ref(sh.address),
                  ObjectOf(sh.address, sh.members[key := vsh]), Obj(j.fields[key := vj]))
    ensures Owned(ObjectOf(sh.address, sh.members[key := vsh])) <= Owned(sh) + Owned(vsh)
  {
    FieldSeparated(sh, key, vsh);
    var a := sh.address;
    var m' := m[a := Fields(m[a].fields[key := v])];
    var members := sh.members[key := vsh];
    hide Separated, Owned;
    forall k | k in members
      ensures Represents(m', m'[a].fields[k], members[k], j.fields[key := vj][k])
    {
      if k == key {
        Untouched(m, m', {a}, v, vsh, vj);
      } else {
        MemberFacts(sh, k);
        Untouched(m, m', {a}, m[a].fields[k], sh.members[k], j.fields[k]);
      }
    }
  }

  lemma FieldRemoved(m: Cells, sh: Shape, j: Json, key: string)
    requires sh.ObjectOf? && Holds(m, Ref(sh.address), sh, j)
    ensures Holds(m[sh.address := Fields(m[sh.address].fields - {key})], Ref(sh.address),
                  ObjectOf(sh.address, sh.members - {key}), Obj(j.fields - {key}))
    ensures Owned(ObjectOf(sh.address, sh.members - {key})) <= Owned(sh)
  {
    var a := sh.address;
    var m' := m[a := Fields(m[a].fields - {key})];
    forall k | k in sh.members && k != key
      ensures Represents(m', m[a].fields[k], sh.members[k], j.fields[k])
    {
      MemberFacts(sh, k);
      Untouched(m, m', {a}, m[a].fields[k], sh.members[k], j.fields[k]);
    }
  }

  // Rebuilding a list from its items.

  /** Items that, put into the array at `address`, make up the list `js`. */
  ghost predicate Items(m: Cells, address: nat, slots: seq<Value>, shapes: seq<Shape>, js: seq<Json>) {
    && |shapes| == |js| <= |slots| && PartsApart(address, shapes)
    && forall i | 0 <= i < |shapes| :: Holds(m, slots[i], shapes[i], js[i])
  }

  lemma ItemsOf(m: Cells, sh: Shape, j: Json)
    requires sh.ListOf? && Holds(m, Slice(sh.address, |sh.shapes|), sh, j)
    ensures Items(m, sh.address, m[sh.address].slots, sh.shapes, j.items)
  {
  }

  lemma ListBuilt(m: Cells, address: nat, slots: seq<Value>, shapes: seq<Shape>, js: seq<Json>)
    requires Items(m, address, slots, shapes, js)
    ensures Holds(m[address := Backing(slots)], Slice(address, |shapes|), ListOf(address, shapes), Arr(js))
  {
    var m' := m[address := Backing(slots)];
    forall i | 0 <= i < |shapes|
      ensures Represents(m', slots[i], shapes[i], js[i])
    {
      Untouched(m, m', {address}, slots[i], shapes[i], js[i]);
    }
  }

  function Inserted<T>(s: seq<T>, index: nat, x: T): (r: seq<T>)
    requires index <= |s|
    ensures |r| == |s| + 1
    ensures forall i | 0 <= i < |r| :: r[i] == if i < index then s[i] else if i == index then x else s[i - 1]
  {
    s[..index] + [x] + s[index..]
  }

  function Without<T>(s: seq<T>, index: nat): (r: seq<T>)
    requires index < |s|
    ensures |r| == |s| - 1 && forall i | 0 <= i < |r| :: r[i] == if i < index then s[i] else s[i + 1]
  {
    s[..index] + s[index + 1..]
  }

  /** The parts of a list, moved to the array at `address`, next to a separate one. */
  ghost predicate Joins(address: nat, shapes: seq<Shape>, vsh: Shape) {
    && PartsApart(address, shapes) && address !in Owned(vsh) && Separated(vsh)
    && forall i | 0 <= i < |shapes| :: Owned(shapes[i]) !! Owned(vsh)
  }

  lemma InsertApart(address: nat, shapes: seq<Shape>, index: nat, vsh: Shape)
    requires Joins(address, shapes, vsh) && index <= |shapes|
    ensures PartsApart(address, Inserted(shapes, index, vsh))
  {
    hide Owned;
    var ss := Inserted(shapes, index, vsh);
    forall i, j | 0 <= i < j < |ss|
      ensures Owned(ss[i]) !! Owned(ss[j])
    {
    }
  }

  lemma ItemInserted(m: Cells, from: nat, to: nat, slots: seq<Value>, shapes: seq<Shape>, js: seq<Json>, index: nat,
      v: Value, vsh: Shape, vj: Json, slots': seq<Value>)
    requires Items(m, from, slots, shapes, js) && Holds(m, v, vsh, vj) && Joins(to, shapes, vsh) && index <= |shapes|
    requires |slots'| > |shapes| && slots'[..|shapes| + 1] == Inserted(slots[..|shapes|], index, v)
    ensures Items(m, to, slots', Inserted(shapes, index, vsh), Inserted(js, index, vj))
  {
    InsertApart(to, shapes, index, vsh);
    hide PartsApart, Holds;
    var n := |shapes|;
    forall i | 0 <= i < n + 1
      ensures Holds(m, slots'[i], Inserted(shapes, index, vsh)[i], Inserted(js, index, vj)[i])
    {
      assert slots'[i] == slots'[..n + 1][i];
    }
  }

  lemma ItemSet(m: Cells, address: nat, slots: seq<Value>, shapes: seq<Shape>, js: seq<Json>, index: nat, v: Value,
      vsh: Shape, vj: Json)
    requires |shapes| == |js| <= |slots| && index < |shapes| && Holds(m, v, vsh, vj)
    requires Joins(address, shapes[index := Leaf], vsh)
    requires forall i | 0 <= i < |shapes| && i != index :: Holds(m, slots[i], shapes[i], js[i])
    ensures Items(m, address, slots[index := v], shapes[index := vsh], js[index := vj])
  {
    hide Holds;
    var others, ss := shapes[index := Leaf], shapes[index := vsh];
    forall i, j | 0 <= i < j < |ss|
      ensures Owned(ss[i]) !! Owned(ss[j])
    {
      assert Owned(others[i]) !! Owned(others[j]) && Owned(others[i]) !! Owned(vsh) && Owned(others[j]) !! Owned(vsh);
    }
    assert forall i | 0 <= i < |ss| && i != index :: ss[i] == others[i];
  }

  lemma ItemRemoved(m: Cells, address: nat, slots: seq<Value>, shapes: seq<Shape>, js: seq<Json>, index: nat,
      slots': seq<Value>)
    requires Items(m, address, slots, shapes, js) && index < |shapes|
    requires |slots'| >= |shapes| - 1 && slots'[..|shapes| - 1] == Without(slots[..|shapes|], index)
    ensures Items(m, address, slots', Without(shapes, index), Without(js, index))
  {
    hide Owned, Holds;
    var n, ss := |shapes|, Without(shapes, index);
    forall i | 0 <= i < n - 1
      ensures Holds(m, slots'[i], ss[i], Without(js, index)[i])
    {
      assert slots'[i] == slots'[..n - 1][i];
    }
    forall i, j | 0 <= i < j < |ss|
      ensures Owned(ss[i]) !! Owned(ss[j])
    {
    }
  }

  /** What a list owns: its array and what its items own. */
  lemma ListWithin(m: Cells, address: nat, ss: seq<Shape>, sh: Shape, vsh: Shape)
    requires sh.ListOf? && (address == sh.address || address !in m)
    requires forall i | 0 <= i < |ss| :: ss[i] in sh.shapes || Within(m, ss[i], sh, vsh)
    ensures Within(m, ListOf(address, ss), sh, vsh)
  {
    forall a | a in Owned(ListOf(address, ss))
      ensures a in Owned(sh) || a in Owned(vsh) || a !in m
    {
      if a != address {
        var i :| 0 <= i < |ss| && a in Owned(ss[i]);
        if ss[i] in sh.shapes {
          var k :| 0 <= k < |sh.shapes| && sh.shapes[k] == ss[i];
        }
      }
    }
  }

  lemma AddressFacts(sh: Shape)
    ensures sh.Leaf? || sh.address in Owned(sh)
  {
  }

  lemma SliceFacts(m: Cells, address: nat, length: nat, sh: Shape, j: Json)
    requires Holds(m, Slice(address, length), sh, j)
    ensures sh.ListOf? && sh.address == address && |sh.shapes| == length && j.Arr? && |j.items| == length
    ensures address in m && m[address].Backing? && length <= |m[address].slots| && address in Owned(sh)
  {
    AddressFacts(sh);
  }

  lemma RefFacts(m: Cells, address: nat, sh: Shape, j: Json, key: string)
    requires Holds(m, Ref(address), sh, j)
    ensures sh.ObjectOf? && sh.address == address && address in m && m[address].Fields? && j.Obj?
    ensures m[address].fields.Keys == sh.members.Keys == j.fields.Keys && address in Owned(sh)
    ensures key in sh.members ==>
              && Holds(m, m[address].fields[key], sh.members[key], j.fields[key])
              && Owned(sh.members[key]) <= Owned(sh)
  {
    AddressFacts(sh);
    if key in sh.members {
      MemberFacts(sh, key);
    }
  }

  lemma JoinsAt(m: Cells, sh: Shape, j: Json, v: Value, vsh: Shape, vj: Json, to: nat)
    requires sh.ListOf? && Holds(m, Slice(sh.address, |sh.shapes|), sh, j) && Holds(m, v, vsh, vj)
    requires Owned(sh) !! Owned(vsh) && (to == sh.address || to !in m)
    ensures Joins(to, sh.shapes, vsh)
  {
    Allocated(m, Slice(sh.address, |sh.shapes|), sh, j);
    Allocated(m, v, vsh, vj);
    hide Represents;
    AddressFacts(sh);
    forall i | 0 <= i < |sh.shapes|
      ensures Owned(sh.shapes[i]) <= Owned(sh) && sh.address !in Owned(sh.shapes[i])
    {
      ItemFacts(sh, i);
    }
    hide Owned;
  }

  lemma FieldApart(sh: Shape, vsh: Shape, key: string)
    requires sh.ObjectOf? && Separated(sh) && Owned(sh) !! Owned(vsh)
    ensures sh.address !in Owned(vsh) && forall k | k in sh.members && k != key :: Owned(sh.members[k]) !! Owned(vsh)
  {
    AddressFacts(sh);
    forall k | k in sh.members
      ensures Owned(sh.members[k]) <= Owned(sh)
    {
      MemberFacts(sh, k);
    }
  }

  /** After a change below one field the other fields are as before, and apart from what the field now owns. */
  lemma RestKept(m: Cells, m': Cells, sh: Shape, j: Json, key: string, csh': Shape, vsh: Shape)
    requires sh.ObjectOf? && Holds(m, Ref(sh.address), sh, j) && key in sh.members && Owned(sh) !! Owned(vsh)
    requires SameOutside(m, m', Owned(sh.members[key])) && Within(m, csh', sh.members[key], vsh)
    ensures HoldsBut(m', sh, j, key) && m'[sh.address] == m[sh.address] && sh.address !in Owned(csh')
    ensures forall k | k in sh.members && k != key :: Owned(sh.members[k]) !! Owned(csh')
    ensures Within(m, csh', sh, vsh) && SameOutside(m, m', Owned(sh)) && sh.address in Owned(sh)
  {
    Allocated(m, Ref(sh.address), sh, j);
    hide Separated, Owned;
    MemberFacts(sh, key);
    forall k | k in sh.members && k != key
      ensures Represents(m', m[sh.address].fields[k], sh.members[k], j.fields[k])
      ensures Owned(sh.members[k]) !! Owned(csh')
    {
      MemberFacts(sh, k);
      MembersApart(sh, k, key);
      Untouched(m, m', Owned(sh.members[key]), m[sh.address].fields[k], sh.members[k], j.fields[k]);
    }
  }

  /** A list of which everything but item `index` is as `js` says, and apart from what that item now owns. */
  ghost predicate SiblingsHold(m: Cells, m': Cells, sh: Shape, js: seq<Json>, index: nat, csh': Shape, vsh: Shape) {
    && sh.ListOf? && |js| == |sh.shapes| && index < |js| && sh.address in m' && m'[sh.address].Backing?
    && |js| <= |m'[sh.address].slots| && Joins(sh.address, sh.shapes[index := Leaf], csh')
    && (forall i | 0 <= i < |js| && i != index :: Holds(m', m'[sh.address].slots[i], sh.shapes[i], js[i]))
    && Within(m, csh', sh, vsh) && SameOutside(m, m', Owned(sh))
  }

  lemma JoinsBut(sh: Shape, index: nat, csh: Shape)
    requires sh.ListOf? && Separated(sh) && Separated(csh) && index < |sh.shapes| && sh.address !in Owned(csh)
    requires forall i | 0 <= i < |sh.shapes| && i != index :: Owned(sh.shapes[i]) !! Owned(csh)
    ensures Joins(sh.address, sh.shapes[index := Leaf], csh)
  {
    assert Owned(Leaf) == {};
    hide Owned;
  }

  lemma SiblingsApart(m: Cells, sh: Shape, j: Json, index: nat, vsh: Shape)
    requires sh.ListOf? && Holds(m, Slice(sh.address, |sh.shapes|), sh, j) && index < |sh.shapes|
    requires Separated(vsh) && Owned(sh) !! Owned(vsh)
    ensures SiblingsHold(m, m, sh, j.items, index, vsh, vsh)
  {
    ItemsOf(m, sh, j);
    AddressFacts(sh);
    forall i | 0 <= i < |sh.shapes|
      ensures Owned(sh.shapes[i]) <= Owned(sh)
    {
      ItemFacts(sh, i);
    }
    hide Owned;
    JoinsBut(sh, index, vsh);
  }

  /** After a change below one item the other items are as before, and apart from what the item now owns. */
  lemma SiblingsKept(m: Cells, m': Cells, sh: Shape, j: Json, index: nat, csh': Shape, vsh: Shape)
    requires sh.ListOf? && Holds(m, Slice(sh.address, |sh.shapes|), sh, j) && index < |sh.shapes|
    requires Owned(sh) !! Owned(vsh) && Separated(csh')
    requires SameOutside(m, m', Owned(sh.shapes[index])) && Within(m, csh', sh.shapes[index], vsh)
    ensures SiblingsHold(m, m', sh, j.items, index, csh', vsh)
  {
    Allocated(m, Slice(sh.address, |sh.shapes|), sh, j);
    hide Separated, Owned;
    ItemFacts(sh, index);
    forall i | 0 <= i < |sh.shapes| && i != index
      ensures Holds(m', m[sh.address].slots[i], sh.shapes[i], j.items[i]) && Owned(sh.shapes[i]) !! Owned(csh')
    {
      ItemFacts(sh, i);
      ItemsApart(sh, i, index);
      Untouched(m, m', Owned(sh.shapes[index]), m[sh.address].slots[i], sh.shapes[i], j.items[i]);
    }
    JoinsBut(sh, index, csh');
  }

  // Building a container from parts that lie apart.

  ghost predicate Apart(shapes: seq<Shape>) {
    forall i, j | 0 <= i < j < |shapes| :: Owned(shapes[i]) !! Owned(shapes[j])
  }

  /** Decoded items, ready to be put into an array. */
  ghost predicate Gathered(m: Cells, vs: seq<Value>, shapes: seq<Shape>, js: seq<Json>) {
    |vs| == |shapes| == |js| && Apart(shapes) && forall i | 0 <= i < |vs| :: Holds(m, vs[i], shapes[i], js[i])
  }

  /** What was just decoded is new, and everything else is as it was. */
  ghost predicate Added(m: Cells, m': Cells, sh: Shape) {
    SameOutside(m, m', {}) && Owned(sh) !! m.Keys
  }

  lemma StillHolds(m: Cells, m': Cells, changed: set<nat>, v: Value, sh: Shape, j: Json)
    requires Holds(m, v, sh, j) && SameOutside(m, m', changed) && Owned(sh) !! changed
    ensures Holds(m', v, sh, j) && Owned(sh) <= m.Keys
  {
    Untouched(m, m', changed, v, sh, j);
    Allocated(m, v, sh, j);
  }

  lemma GatherMore(m: Cells, m': Cells, vs: seq<Value>, shapes: seq<Shape>, js: seq<Json>, v: Value, sh: Shape, j: Json)
    requires Gathered(m, vs, shapes, js) && Added(m, m', sh) && Holds(m', v, sh, j)
    ensures Gathered(m', vs + [v], shapes + [sh], js + [j])
  {
    hide Holds, Owned;
    forall i | 0 <= i < |vs|
      ensures Holds(m', vs[i], shapes[i], js[i]) && Owned(shapes[i]) !! Owned(sh)
    {
      StillHolds(m, m', {}, vs[i], shapes[i], js[i]);
    }
  }

  lemma GatheredItems(m: Cells, address: nat, vs: seq<Value>, spare: seq<Value>, shapes: seq<Shape>, js: seq<Json>)
    requires Gathered(m, vs, shapes, js) && address !in m
    ensures Items(m, address, vs + spare, shapes, js)
  {
    hide Owned;
    forall i | 0 <= i < |vs|
      ensures address !in Owned(shapes[i])
    {
      Allocated(m, vs[i], shapes[i], js[i]);
    }
  }

  ghost predicate GatheredFields(m: Cells, vs: map<string, Value>, members: map<string, Shape>, js: map<string, Json>) {
    && vs.Keys == members.Keys == js.Keys && (forall k | k in vs :: Holds(m, vs[k], members[k], js[k]))
    && forall k, l | k in members && l in members && k != l :: Owned(members[k]) !! Owned(members[l])
  }

  lemma GatherField(m: Cells, m': Cells, vs: map<string, Value>, members: map<string, Shape>, js: map<string, Json>,
      key: string, v: Value, sh: Shape, j: Json)
    requires GatheredFields(m, vs, members, js) && Added(m, m', sh) && Holds(m', v, sh, j)
    ensures GatheredFields(m', vs[key := v], members[key := sh], js[key := j])
  {
    hide Holds, Owned;
    forall k | k in vs
      ensures Holds(m', vs[k], members[k], js[k]) && Owned(members[k]) !! Owned(sh)
    {
      StillHolds(m, m', {}, vs[k], members[k], js[k]);
    }
  }

  lemma ObjectBuilt(m: Cells, address: nat, vs: map<string, Value>, members: map<string, Shape>, js: map<string, Json>)
    requires GatheredFields(m, vs, members, js) && address !in m
    ensures Holds(m[address := Fields(vs)], Ref(address), ObjectOf(address, members), Obj(js))
  {
    var m' := m[address := Fields(vs)];
    forall k | k in members
      ensures Represents(m', vs[k], members[k], js[k]) && address !in Owned(members[k])
    {
      StillHolds(m, m', {}, vs[k], members[k], js[k]);
    }
  }

  lemma ListAdded(m: Cells, address: nat, shapes: seq<Shape>)
    requires address !in m && forall i | 0 <= i < |shapes| :: Owned(shapes[i]) !! m.Keys
    ensures Owned(ListOf(address, shapes)) !! m.Keys
  {
  }

  ghost predicate NewFields(m: Cells, members: map<string, Shape>) {
    forall k | k in members :: Owned(members[k]) !! m.Keys
  }

  lemma ObjectAdded(m: Cells, address: nat, members: map<string, Shape>)
    requires address !in m && NewFields(m, members)
    ensures Owned(ObjectOf(address, members)) !! m.Keys
  {
  }
}
