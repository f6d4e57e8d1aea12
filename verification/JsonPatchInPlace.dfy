/** Patching a decoded document where it lies, one operation and a whole change. */
module JsonPatchInPlace {
  import opened Identifiers
  import opened JsonPointer
  import opened JsonPatch
  import opened JsonCells

  // The patch.

  /** What a patch leaves: the value patch's answer, and no change outside what the document owned or on failure. */
  ghost predicate PatchedInto(m: Cells, m': Cells, r: Option<Value>, sh: Shape, sh': Shape, vsh: Shape,
      expected: Option<Json>) {
    match r
    case None => expected == None && m' == m
    case Some(v) =>
      expected.Some? && Holds(m', v, sh', expected.value) && Within(m, sh', sh, vsh) && SameOutside(m, m', Owned(sh))
  }

  // The operations of a change, one after the other.

  /** An operation whose value has been decoded into memory. */
  datatype Operation = Operation(op: string, path: string, value: Value)

  datatype Candidate = InvalidChange | InvalidPatch(failed: nat) | Patch(value: Value)

  const MAX_OPERATIONS := 128

  /** The operations in memory are the operations `ops`, their values owned apart from each other. */
  ghost predicate Decoded(m: Cells, operations: seq<Operation>, shapes: seq<Shape>, ops: seq<PatchOperation>) {
    && |operations| == |shapes| == |ops| && Apart(shapes)
    && forall i | 0 <= i < |ops| ::
         operations[i].op == ops[i].op && operations[i].path == ops[i].path &&
         Holds(m, operations[i].value, shapes[i], ops[i].value)
  }

  class Memory {
    var cells: Cells
    var next: nat
    /** How many spare slots a list of a given length gets when its array has to grow. */
    const spare: nat -> nat

    ghost predicate Valid()
      reads this
    {
      forall a | a in cells :: a < next
    }

    constructor (spare: nat -> nat)
      ensures Valid() && cells == map[]
    {
      cells, next, this.spare := map[], 0, spare;
    }

    method PatchField(address: nat, key: string, kind: Kind, value: Value, ghost sh: Shape, ghost j: Json,
        ghost vsh: Shape, ghost vj: Json)
      returns (r: Option<Value>, ghost sh': Shape)
      requires Valid() && Holds(cells, Ref(address), sh, j) && Holds(cells, value, vsh, vj) && Owned(sh) !! Owned(vsh)
      modifies this
      ensures Valid() && PatchedInto(old(cells), cells, r, sh, sh', vsh, PatchLeaf(j, key, kind, vj))
    {
      hide Separated, Owned;
      AddressFacts(sh);
      var fields := cells[address].fields;
      if kind != Add && key !in fields {
        return None, sh;
      }
      if kind == Remove {
        FieldRemoved(cells, sh, j, key);
        sh' := ObjectOf(address, sh.members - {key});
        cells := cells[address := Fields(fields - {key})];
      } else {
        FieldApart(sh, vsh, key);
        FieldSet(cells, sh, j, key, value, vsh, vj);
        sh' := ObjectOf(address, sh.members[key := vsh]);
        cells := cells[address := Fields(fields[key := value])];
      }
      return Some(Ref(address)), sh';
    }

    /** Appends a slot, to the array itself if it has room and else to a copy, and moves the tail up for `value`. */
    method InsertItem(address: nat, length: nat, i: nat, value: Value, ghost sh: Shape, ghost j: Json,
        ghost vsh: Shape, ghost vj: Json)
      returns (r: Value, ghost sh': Shape)
      requires Valid() && Holds(cells, Slice(address, length), sh, j) && Holds(cells, value, vsh, vj)
      requires Owned(sh) !! Owned(vsh) && i <= length
      modifies this
      ensures Valid()
      ensures PatchedInto(old(cells), cells, Some(r), sh, sh', vsh, Some(Arr(j.items[..i] + [vj] + j.items[i..])))
    {
      hide Separated, Owned, Holds, Represents;
      SliceFacts(cells, address, length, sh, j);
      ghost var m := cells;
      var slots, to := cells[address].slots, address;
      ghost var before := slots;
      if length < |slots| {
        slots := slots[length := Scalar(Null)];
      } else {
        slots := slots + [Scalar(Null)] + seq(spare(length), _ => Scalar(Null));
        to := next;
        next := next + 1;
      }
      slots := slots[..i + 1] + slots[i..length] + slots[length + 1..];
      slots := slots[i := value];
      assert slots[..length + 1] == Inserted(before[..length], i, value);
      ItemsOf(m, sh, j);
      JoinsAt(m, sh, j, value, vsh, vj, to);
      ItemInserted(m, address, to, before, sh.shapes, j.items, i, value, vsh, vj, slots);
      ghost var shapes := Inserted(sh.shapes, i, vsh);
      ListBuilt(m, to, slots, shapes, Inserted(j.items, i, vj));
      ListWithin(m, to, shapes, sh, vsh);
      cells := cells[to := Backing(slots)];
      return Slice(to, length + 1), ListOf(to, shapes);
    }

    method RemoveItem(address: nat, length: nat, i: nat, ghost sh: Shape, ghost j: Json, ghost vsh: Shape)
      returns (r: Value, ghost sh': Shape)
      requires Valid() && Holds(cells, Slice(address, length), sh, j) && i < length
      modifies this
      ensures Valid()
      ensures PatchedInto(old(cells), cells, Some(r), sh, sh', vsh, Some(Arr(j.items[..i] + j.items[i + 1..])))
    {
      hide Separated, Owned, Holds, Represents;
      SliceFacts(cells, address, length, sh, j);
      var before := cells[address].slots;
      var slots := before[..i] + before[i + 1..length] + before[length - 1..];
      assert slots[..length - 1] == Without(before[..length], i);
      ItemsOf(cells, sh, j);
      ItemRemoved(cells, address, before, sh.shapes, j.items, i, slots);
      ghost var shapes := Without(sh.shapes, i);
      ListBuilt(cells, address, slots, shapes, Without(j.items, i));
      ListWithin(cells, address, shapes, sh, vsh);
      cells := cells[address := Backing(slots)];
      return Slice(address, length - 1), ListOf(address, shapes);
    }

    /** Stores an item whose place alone may have become wrong. */
    method StoreItem(address: nat, length: nat, i: nat, v: Value, ghost m: Cells, ghost sh: Shape, ghost js: seq<Json>,
        ghost csh: Shape, ghost cj: Json, ghost vsh: Shape)
      returns (r: Value, ghost sh': Shape)
      requires Valid() && SiblingsHold(m, cells, sh, js, i, csh, vsh) && Holds(cells, v, csh, cj)
      requires address == sh.address && length == |sh.shapes|
      modifies this
      ensures Valid() && PatchedInto(m, cells, Some(r), sh, sh', vsh, Some(Arr(js[i := cj])))
    {
      hide Separated, Owned, Holds, Represents, Joins, Within;
      var slots := cells[address].slots;
      ItemSet(cells, address, slots, sh.shapes, js, i, v, csh, cj);
      ghost var shapes := sh.shapes[i := csh];
      ListBuilt(cells, address, slots[i := v], shapes, js[i := cj]);
      ListWithin(m, address, shapes, sh, vsh);
      AddressFacts(sh);
      cells := cells[address := Backing(slots[i := v])];
      return Slice(address, length), ListOf(address, shapes);
    }

    method PatchItem(address: nat, length: nat, key: string, kind: Kind, value: Value, ghost sh: Shape, ghost j: Json,
        ghost vsh: Shape, ghost vj: Json)
      returns (r: Option<Value>, ghost sh': Shape)
      requires Valid() && Holds(cells, Slice(address, length), sh, j) && Holds(cells, value, vsh, vj)
      requires Owned(sh) !! Owned(vsh)
      modifies this
      ensures Valid() && PatchedInto(old(cells), cells, r, sh, sh', vsh, PatchLeaf(j, key, kind, vj))
    {
      hide Atoi, Separated, Owned, Represents;
      SliceFacts(cells, address, length, sh, j);
      var index := PatchIndex(key, length, kind == Add);
      if index == None {
        return None, sh;
      }
      var v;
      match kind {
        case Add =>
          v, sh' := InsertItem(address, length, index.value, value, sh, j, vsh, vj);
        case Replace =>
          SiblingsApart(cells, sh, j, index.value, vsh);
          v, sh' := StoreItem(address, length, index.value, value, cells, sh, j.items, vsh, vj, vsh);
        case Remove =>
          v, sh' := RemoveItem(address, length, index.value, sh, j, vsh);
      }
      return Some(v), sh';
    }

    /** The last step, inside the parent container. */
    method PatchLeafInPlace(v: Value, key: string, kind: Kind, value: Value, ghost sh: Shape, ghost j: Json,
        ghost vsh: Shape, ghost vj: Json)
      returns (r: Option<Value>, ghost sh': Shape)
      requires Valid() && Holds(cells, v, sh, j) && Holds(cells, value, vsh, vj) && Owned(sh) !! Owned(vsh)
      modifies this
      ensures Valid() && PatchedInto(old(cells), cells, r, sh, sh', vsh, PatchLeaf(j, key, kind, vj))
    {
      hide Atoi, Separated, Owned;
      match v {
        case Ref(address) => r, sh' := PatchField(address, key, kind, value, sh, j, vsh, vj);
        case Slice(address, length) => r, sh' := PatchItem(address, length, key, kind, value, sh, j, vsh, vj);
        case Scalar(_) => return None, sh;
      }
    }

    method DescendField(address: nat, tokens: seq<string>, kind: Kind, value: Value, ghost sh: Shape, ghost j: Json,
        ghost vsh: Shape, ghost vj: Json)
      returns (r: Option<Value>, ghost sh': Shape)
      requires Valid() && Holds(cells, Ref(address), sh, j) && Holds(cells, value, vsh, vj) && Owned(sh) !! Owned(vsh)
      requires |tokens| > 1 && tokens[0] in cells[address].fields
      modifies this
      ensures Valid() && PatchedInto(old(cells), cells, r, sh, sh', vsh, PatchAt(j, tokens, kind, vj))
      decreases |tokens|, 0
    {
      hide Owned, Holds, PatchLeaf, Atoi, HoldsBut;
      var key := tokens[0];
      RefFacts(cells, address, sh, j, key);
      ghost var csh, cj := sh.members[key], j.fields[key];
      ghost var m := cells;
      var updated, csh' := PatchInPlace(cells[address].fields[key], tokens[1..], kind, value, csh, cj, vsh, vj);
      if updated == None {
        return None, sh;
      }
      RestKept(m, cells, sh, j, key, csh', vsh);
      FieldSet(cells, sh, j, key, updated.value, csh', PatchAt(cj, tokens[1..], kind, vj).value);
      cells := cells[address := Fields(cells[address].fields[key := updated.value])];
      return Some(Ref(address)), ObjectOf(address, sh.members[key := csh']);
    }

    method DescendItem(address: nat, length: nat, tokens: seq<string>, kind: Kind, value: Value,
        ghost sh: Shape, ghost j: Json, ghost vsh: Shape, ghost vj: Json)
      returns (r: Option<Value>, ghost sh': Shape)
      requires Valid() && Holds(cells, Slice(address, length), sh, j) && Holds(cells, value, vsh, vj)
      requires Owned(sh) !! Owned(vsh) && |tokens| > 1
      modifies this
      ensures Valid() && PatchedInto(old(cells), cells, r, sh, sh', vsh, PatchAt(j, tokens, kind, vj))
      decreases |tokens|, 0
    {
      hide Separated, Owned, PatchLeaf, Atoi, SiblingsHold;
      SliceFacts(cells, address, length, sh, j);
      var index := PatchIndex(tokens[0], length, false);
      if index == None {
        return None, sh;
      }
      var i := index.value;
      ghost var csh, cj := sh.shapes[i], j.items[i];
      ItemFacts(sh, i);
      ghost var m := cells;
      var updated, csh' := PatchInPlace(cells[address].slots[i], tokens[1..], kind, value, csh, cj, vsh, vj);
      if updated == None {
        return None, sh;
      }
      SiblingsKept(m, cells, sh, j, i, csh', vsh);
      ghost var cj' := PatchAt(cj, tokens[1..], kind, vj).value;
      var v;
      v, sh' := StoreItem(address, length, i, updated.value, m, sh, j.items, csh', cj', vsh);
      return Some(v), sh';
    }

    /** Patches in place what the value patch computes; a failing operation changes nothing in memory. */
    method PatchInPlace(v: Value, tokens: seq<string>, kind: Kind, value: Value, ghost sh: Shape, ghost j: Json,
        ghost vsh: Shape, ghost vj: Json)
      returns (r: Option<Value>, ghost sh': Shape)
      requires Valid() && Holds(cells, v, sh, j) && Holds(cells, value, vsh, vj) && Owned(sh) !! Owned(vsh)
      modifies this
      ensures Valid() && PatchedInto(old(cells), cells, r, sh, sh', vsh, PatchAt(j, tokens, kind, vj))
      decreases |tokens|, 1
    {
      hide Separated, Owned, PatchLeaf, Atoi;
      if tokens == [] {
        return None, sh;
      }
      if |tokens| == 1 {
        r, sh' := PatchLeafInPlace(v, tokens[0], kind, value, sh, j, vsh, vj);
        return;
      }
      match v {
        case Ref(address) =>
          if tokens[0] !in cells[address].fields {
            return None, sh;
          }
          r, sh' := DescendField(address, tokens, kind, value, sh, j, vsh, vj);
        case Slice(address, length) =>
          r, sh' := DescendItem(address, length, tokens, kind, value, sh, j, vsh, vj);
        case Scalar(_) =>
          return None, sh;
      }
    }

    method ApplyPatchInPlace(v: Value, operation: Operation, ghost sh: Shape, ghost j: Json, ghost vsh: Shape,
        ghost vj: Json)
      returns (r: Option<Value>, ghost sh': Shape)
      requires Valid() && Holds(cells, v, sh, j) && Holds(cells, operation.value, vsh, vj) && Owned(sh) !! Owned(vsh)
      modifies this
      ensures Valid()
      ensures PatchedInto(old(cells), cells, r, sh, sh', vsh,
                          ApplyPatch(j, PatchOperation(operation.op, operation.path, vj)))
    {
      hide PatchedInto, PatchAt, Owned, Parse, Holds;
      var kind, tokens := KindOf(operation.op), Parse(operation.path);
      if kind == None || operation.path == "" || tokens == None {
        Unchanged(cells, sh, vsh);
        return None, sh;
      }
      r, sh' := PatchInPlace(v, tokens.value, kind.value, operation.value, sh, j, vsh, vj);
    }

    /** A fresh copy of a document. */
    method Decode(j: Json) returns (v: Value, ghost sh: Shape)
      requires Valid()
      modifies this
      ensures Valid() && Holds(cells, v, sh, j) && Added(old(cells), cells, sh)
      decreases j, 1
    {
      match j {
        case Arr(_) => v, sh := DecodeItems(j);
        case Obj(_) => v, sh := DecodeFields(j);
        case _ => return Scalar(j), Leaf;
      }
    }

    method DecodeItems(j: Json) returns (v: Value, ghost sh: Shape)
      requires Valid() && j.Arr?
      modifies this
      ensures Valid() && Holds(cells, v, sh, j) && Added(old(cells), cells, sh)
      decreases j, 0
    {
      hide Owned, Holds, Gathered;
      ghost var m := cells;
      var vs: seq<Value> := [];
      ghost var shapes: seq<Shape> := [];
      NothingGathered(cells);
      for i := 0 to |j.items|
        invariant Valid() && Gathered(cells, vs, shapes, j.items[..i]) && SameOutside(m, cells, {})
        invariant forall k | 0 <= k < |shapes| :: Owned(shapes[k]) !! m.Keys
      {
        ghost var before := cells;
        var item, ish := Decode(j.items[i]);
        GatherMore(before, cells, vs, shapes, j.items[..i], item, ish, j.items[i]);
        assert j.items[..i + 1] == j.items[..i] + [j.items[i]];
        vs, shapes := vs + [item], shapes + [ish];
      }
      assert j.items[..|j.items|] == j.items;
      var room := seq(spare(|vs|), _ => Scalar(Null));
      GatheredItems(cells, next, vs, room, shapes, j.items);
      ListBuilt(cells, next, vs + room, shapes, j.items);
      ListAdded(m, next, shapes);
      GatheredLength(cells, vs, shapes, j.items);
      cells := cells[next := Backing(vs + room)];
      v, sh := Slice(next, |vs|), ListOf(next, shapes);
      next := next + 1;
    }

    method DecodeFields(j: Json) returns (v: Value, ghost sh: Shape)
      requires Valid() && j.Obj?
      modifies this
      ensures Valid() && Holds(cells, v, sh, j) && Added(old(cells), cells, sh)
      decreases j, 0
    {
      hide Owned, Holds, GatheredFields, Copied, NewFields;
      ghost var m := cells;
      var vs: map<string, Value> := map[];
      ghost var members: map<string, Shape>, js: map<string, Json> := map[], map[];
      NoFieldGathered(cells, j.fields);
      var rest := j.fields.Keys;
      while rest != {}
        invariant Valid() && GatheredFields(cells, vs, members, js) && SameOutside(m, cells, {})
        invariant rest <= j.fields.Keys && Copied(js, j.fields, rest) && NewFields(m, members)
        decreases |rest|
      {
        var key :| key in rest;
        ghost var before := cells;
        var field, fsh := Decode(j.fields[key]);
        GatherField(before, cells, vs, members, js, key, field, fsh, j.fields[key]);
        CopyMore(js, j.fields, rest, key);
        NewField(m, before, cells, members, key, fsh);
        vs, members, js := vs[key := field], members[key := fsh], js[key := j.fields[key]];
        rest := rest - {key};
      }
      CopyDone(js, j.fields);
      ObjectBuilt(cells, next, vs, members, js);
      ObjectAdded(m, next, members);
      cells := cells[next := Fields(vs)];
      v, sh := Ref(next), ObjectOf(next, members);
      next := next + 1;
    }

    /** All operations in order, or the index of the first that fails. */
    method ApplyAll(v: Value, operations: seq<Operation>, ghost sh: Shape, ghost j: Json, ghost shapes: seq<Shape>,
        ghost ops: seq<PatchOperation>)
      returns (r: Option<Value>, failed: nat, ghost sh': Shape)
      requires Valid() && Holds(cells, v, sh, j) && Decoded(cells, operations, shapes, ops) && LiesApart(sh, shapes, 0)
      modifies this
      ensures Valid() && SameOutside(old(cells), cells, Owned(sh) + OwnedBy(shapes, |shapes|))
      ensures r.Some? <==> Patched(j, ops, |ops|).Some?
      ensures r.Some? ==> Holds(cells, r.value, sh', Patched(j, ops, |ops|).value)
      ensures r == None ==> && failed < |ops| && Patched(j, ops, failed).Some?
                            && ApplyPatch(Patched(j, ops, failed).value, ops[failed]) == None
    {
      hide ApplyPatch, Holds, Owned, Within, SameOutside, Pending, OwnedBy, ReachesOnly;
      var value := v;
      ghost var m := cells;
      sh' := sh;
      Start(cells, operations, sh, shapes, ops);
      for index := 0 to |operations|
        invariant Valid() && Patched(j, ops, index).Some? && Holds(cells, value, sh', Patched(j, ops, index).value)
        invariant Pending(cells, operations, sh', shapes, ops, index)
        invariant SameOutside(m, cells, Owned(sh) + OwnedBy(shapes, index)) && ReachesOnly(m, sh', sh, shapes, index)
      {
        ghost var doc, before, was := Patched(j, ops, index).value, cells, sh';
        NextOperation(cells, operations, sh', shapes, ops, index);
        var next, sh'' := ApplyPatchInPlace(value, operations[index], sh', doc, shapes[index], ops[index].value);
        if next == None {
          FailureSticks(j, ops, index + 1, |ops|);
          MoreOwned(m, cells, sh, shapes, index, |shapes|);
          return None, index, sh'';
        }
        StepPending(before, cells, operations, was, sh'', shapes, ops, index);
        StepReaches(m, before, cells, sh, was, sh'', shapes, index);
        value, sh' := next.value, sh'';
      }
      return Some(value), 0, sh';
    }

    /**
     The JSON Patch mode of a change: the operations run on a copy, so the current document, at `b`, is there for the
     comparison afterwards.
     */
    method ApplyToCopy(current: Json, operations: seq<Operation>, ghost shapes: seq<Shape>,
        ghost ops: seq<PatchOperation>, ghost b: Value, ghost bsh: Shape)
      returns (r: Candidate, ghost sh': Shape)
      requires Valid() && Holds(cells, b, bsh, current) && Decoded(cells, operations, shapes, ops)
      requires LiesApart(bsh, shapes, 0)
      modifies this
      ensures Valid() && Holds(cells, b, bsh, current)
      ensures r == InvalidChange <==> !(1 <= |ops| <= MAX_OPERATIONS)
      ensures r.Patch? <==> 1 <= |ops| <= MAX_OPERATIONS && Patched(current, ops, |ops|).Some?
      ensures r.Patch? ==> Holds(cells, r.value, sh', Patched(current, ops, |ops|).value)
      ensures r.InvalidPatch? ==> && r.failed < |ops| && Patched(current, ops, r.failed).Some?
                                  && ApplyPatch(Patched(current, ops, r.failed).value, ops[r.failed]) == None
    {
      hide Holds, Owned, ApplyPatch, SameOutside, OwnedBy;
      sh' := bsh;
      if |operations| == 0 || |operations| > MAX_OPERATIONS {
        return InvalidChange, sh';
      }
      ghost var m := cells;
      var copy, csh := Decode(current);
      CopyApart(m, cells, operations, shapes, ops, b, bsh, current, csh);
      ghost var m' := cells;
      var value, failed, vsh := ApplyAll(copy, operations, csh, current, shapes, ops);
      BaselineApart(m', cells, b, bsh, current, csh, shapes);
      if value == None {
        return InvalidPatch(failed), sh';
      }
      return Patch(value.value), vsh;
    }
  }

  // Between two operations.

  ghost function OwnedBy(shapes: seq<Shape>, n: nat): set<nat>
    requires n <= |shapes|
  {
    set i, a | 0 <= i < n && a in Owned(shapes[i]) :: a
  }

  /** The values of the operations from `n` on are apart from the document. */
  ghost predicate LiesApart(sh: Shape, shapes: seq<Shape>, n: nat) {
    forall i | n <= i < |shapes| :: Owned(sh) !! Owned(shapes[i])
  }

  /** The operations from `n` on are still as decoded and apart from the document. */
  ghost predicate Pending(m: Cells, operations: seq<Operation>, sh: Shape, shapes: seq<Shape>, ops: seq<PatchOperation>,
      n: nat) {
    && |operations| == |shapes| == |ops| && Apart(shapes) && LiesApart(sh, shapes, n)
    && forall i | n <= i < |ops| ::
         operations[i].op == ops[i].op && operations[i].path == ops[i].path &&
         Holds(m, operations[i].value, shapes[i], ops[i].value)
  }

  /** What the document owns it owned at first, came with an operation, or is new. */
  ghost predicate ReachesOnly(m: Cells, sh': Shape, sh: Shape, shapes: seq<Shape>, n: nat) {
    n <= |shapes| && forall a | a in Owned(sh') :: a in Owned(sh) || a in OwnedBy(shapes, n) || a !in m
  }

  lemma Unchanged(m: Cells, sh: Shape, vsh: Shape)
    ensures PatchedInto(m, m, None, sh, sh, vsh, None)
  {
  }

  lemma Start(m: Cells, operations: seq<Operation>, sh: Shape, shapes: seq<Shape>, ops: seq<PatchOperation>)
    requires Decoded(m, operations, shapes, ops) && LiesApart(sh, shapes, 0)
    ensures Pending(m, operations, sh, shapes, ops, 0) && ReachesOnly(m, sh, sh, shapes, 0)
    ensures SameOutside(m, m, Owned(sh) + OwnedBy(shapes, 0))
  {
  }

  lemma NextOperation(m: Cells, operations: seq<Operation>, sh: Shape, shapes: seq<Shape>, ops: seq<PatchOperation>,
      n: nat)
    requires Pending(m, operations, sh, shapes, ops, n) && n < |ops|
    ensures Owned(sh) !! Owned(shapes[n]) && Holds(m, operations[n].value, shapes[n], ops[n].value)
    ensures PatchOperation(operations[n].op, operations[n].path, ops[n].value) == ops[n]
  {
  }

  lemma StepPending(m: Cells, m': Cells, operations: seq<Operation>, was: Shape, now: Shape, shapes: seq<Shape>,
      ops: seq<PatchOperation>, n: nat)
    requires Pending(m, operations, was, shapes, ops, n) && n < |ops|
    requires Within(m, now, was, shapes[n]) && SameOutside(m, m', Owned(was))
    ensures Pending(m', operations, now, shapes, ops, n + 1)
  {
    hide Owned, Holds, SameOutside;
    forall i | n < i < |ops|
      ensures Owned(now) !! Owned(shapes[i]) && Holds(m', operations[i].value, shapes[i], ops[i].value)
    {
      StillHolds(m, m', Owned(was), operations[i].value, shapes[i], ops[i].value);
      assert Owned(shapes[n]) !! Owned(shapes[i]);
    }
  }

  lemma MoreOwned(m: Cells, m': Cells, sh: Shape, shapes: seq<Shape>, n: nat, k: nat)
    requires n <= k <= |shapes| && SameOutside(m, m', Owned(sh) + OwnedBy(shapes, n))
    ensures SameOutside(m, m', Owned(sh) + OwnedBy(shapes, k))
  {
  }

  lemma StepReaches(m: Cells, before: Cells, after: Cells, sh: Shape, was: Shape, now: Shape, shapes: seq<Shape>,
      n: nat)
    requires n < |shapes| && SameOutside(m, before, Owned(sh) + OwnedBy(shapes, n))
    requires ReachesOnly(m, was, sh, shapes, n)
    requires Within(before, now, was, shapes[n]) && SameOutside(before, after, Owned(was))
    ensures SameOutside(m, after, Owned(sh) + OwnedBy(shapes, n + 1)) && ReachesOnly(m, now, sh, shapes, n + 1)
  {
    MoreOwned(m, before, sh, shapes, n, n + 1);
    assert OwnedBy(shapes, n + 1) == OwnedBy(shapes, n) + Owned(shapes[n]);
    hide Owned, OwnedBy;
  }

  lemma NothingGathered(m: Cells)
    ensures Gathered(m, [], [], [])
  {
  }

  lemma NoFieldGathered(m: Cells, fields: map<string, Json>)
    ensures GatheredFields(m, map[], map[], map[]) && Copied(map[], fields, fields.Keys) && NewFields(m, map[])
  {
  }

  ghost predicate Copied(js: map<string, Json>, fields: map<string, Json>, rest: set<string>) {
    js.Keys == fields.Keys - rest && forall k | k in js :: js[k] == fields[k]
  }

  lemma CopyMore(js: map<string, Json>, fields: map<string, Json>, rest: set<string>, key: string)
    requires Copied(js, fields, rest) && rest <= fields.Keys && key in rest
    ensures Copied(js[key := fields[key]], fields, rest - {key})
  {
  }

  lemma CopyDone(js: map<string, Json>, fields: map<string, Json>)
    requires Copied(js, fields, {})
    ensures js == fields
  {
  }

  lemma NewField(m: Cells, before: Cells, after: Cells, members: map<string, Shape>, key: string, sh: Shape)
    requires NewFields(m, members) && SameOutside(m, before, {}) && Added(before, after, sh)
    ensures NewFields(m, members[key := sh]) && SameOutside(m, after, {})
  {
    hide Owned;
  }

  lemma GatheredLength(m: Cells, vs: seq<Value>, shapes: seq<Shape>, js: seq<Json>)
    requires Gathered(m, vs, shapes, js)
    ensures |vs| == |shapes|
  {
  }

  lemma CopyApart(m: Cells, m': Cells, operations: seq<Operation>, shapes: seq<Shape>, ops: seq<PatchOperation>,
      b: Value, bsh: Shape, current: Json, csh: Shape)
    requires Holds(m, b, bsh, current) && Decoded(m, operations, shapes, ops) && Added(m, m', csh)
    ensures Decoded(m', operations, shapes, ops) && LiesApart(csh, shapes, 0)
    ensures Holds(m', b, bsh, current) && Owned(bsh) <= m.Keys && Owned(csh) !! Owned(bsh)
  {
    hide Owned, Holds;
    StillHolds(m, m', {}, b, bsh, current);
    forall i | 0 <= i < |ops|
      ensures Holds(m', operations[i].value, shapes[i], ops[i].value) && Owned(csh) !! Owned(shapes[i])
    {
      StillHolds(m, m', {}, operations[i].value, shapes[i], ops[i].value);
    }
  }

  lemma BaselineApart(m': Cells, m'': Cells, b: Value, bsh: Shape, current: Json, csh: Shape,
      shapes: seq<Shape>)
    requires Holds(m', b, bsh, current) && Owned(csh) !! Owned(bsh) && LiesApart(bsh, shapes, 0)
    requires SameOutside(m', m'', Owned(csh) + OwnedBy(shapes, |shapes|))
    ensures Holds(m'', b, bsh, current)
  {
    assert forall a | a in OwnedBy(shapes, |shapes|) :: a !in Owned(bsh);
    hide Owned, OwnedBy, Holds;
    StillHolds(m', m'', Owned(csh) + OwnedBy(shapes, |shapes|), b, bsh, current);
  }
}
