/**
 The protected branch: an append-only line of commits, the path precondition and the search for an operation's commit.
 */
module DesiredStateGit {
  import opened DesiredStateModel

  /** `operation` is the commit's exact operation trailer, or empty when it has none. */
  datatype GitCommit = GitCommit(id: string, operation: string, tree: map<string, string>)

  /** Oldest commit first; the last commit is the branch head. */
  type History = seq<GitCommit>

  datatype Mutation = Mutation(
    operationID: string, path: string, baseRevision: string,
    precondition: Precondition, expectedETag: ETag, content: string)

  function CommandMutation(c: Command): Mutation {
    Mutation(c.plan.id, c.plan.path,
             if c.writeBaseRevision != "" then c.writeBaseRevision else c.plan.baseRevision,
             c.plan.precondition, c.plan.expectedETag, c.plan.content)
  }

  function HeadOf(h: History): GitCommit
    requires h != []
  {
    h[|h| - 1]
  }

  /** Commit identifiers are unique. */
  ghost predicate UniqueIds(h: History) {
    forall i, j | 0 <= i < j < |h| :: h[i].id != h[j].id
  }

  /** One of the first `n` commits is `id`. */
  ghost predicate HasBefore(h: History, n: int, id: string) {
    exists i :: 0 <= i < n && i < |h| && h[i].id == id
  }

  /** The protected path holds exactly these bytes. */
  predicate HoldsContent(tree: map<string, string>, path: string, content: string) {
    path in tree && tree[path] == content
  }

  predicate MatchesETag(tree: map<string, string>, path: string, etag: ETag) {
    path in tree && 0 < |tree[path]| <= MAX_DOCUMENT_BYTES && Strong(ContentDigest(tree[path])) == etag
  }

  predicate PreconditionHolds(tree: map<string, string>, m: Mutation) {
    match m.precondition
    case CreateIfAbsent => m.path !in tree
    case MatchETag => MatchesETag(tree, m.path, m.expectedETag)
  }

  /** The tree a mutation commits on top of its base. */
  function Mutated(tree: map<string, string>, m: Mutation): map<string, string> {
    tree[m.path := m.content]
  }

  predicate Touches(h: History, i: int, path: string)
    requires 0 < i < |h|
  {
    (path in h[i].tree) != (path in h[i - 1].tree)
    || (path in h[i].tree && path in h[i - 1].tree && h[i].tree[path] != h[i - 1].tree[path])
  }

  // Recovery of an unacknowledged push.

  const MAX_TOUCHES := 256

  datatype Search = Found(revision: string) | Absent | Unusable

  /** The first commit with the mutation's base revision is at index `b`. */
  ghost predicate BaseAt(h: History, m: Mutation, b: int) {
    0 <= b < |h| && h[b].id == m.baseRevision && forall i | 0 <= i < b :: h[i].id != m.baseRevision
  }

  /** Commit `i` follows index `b`, changes the path and carries the operation trailer. */
  predicate Carries(h: History, b: int, i: int, m: Mutation) {
    0 <= b < i < |h| && h[i].operation == m.operationID && Touches(h, i, m.path)
  }

  /** Commit `i` is exactly what the mutation would have pushed. */
  predicate IsOperationCommit(h: History, i: int, m: Mutation) {
    && 0 < i < |h| && h[i].operation == m.operationID
    && h[i - 1].id == m.baseRevision && HoldsContent(h[i].tree, m.path, m.content)
  }

  /** How many commits after index `i` change the path. */
  ghost function TouchesAfter(h: History, i: int, path: string): nat
    requires 0 <= i
    decreases |h| - i
  {
    if i + 1 >= |h| then 0
    else (if Touches(h, i + 1, path) then 1 else 0) + TouchesAfter(h, i + 1, path)
  }

  /** The answer of a search that starts after index `b`. */
  ghost predicate AnswerFrom(h: History, b: int, m: Mutation, r: Search)
    requires 0 <= b
  {
    if TouchesAfter(h, b, m.path) > MAX_TOUCHES then r == Unusable
    else
      match r
      case Found(revision) =>
        && (exists i :: Carries(h, b, i, m) && h[i].id == revision)
        && (forall i | Carries(h, b, i, m) :: IsOperationCommit(h, i, m) && h[i].id == revision)
      case Absent => forall i :: !Carries(h, b, i, m)
      case Unusable =>
        || (exists i :: Carries(h, b, i, m) && !IsOperationCommit(h, i, m))
        || (exists i, j :: Carries(h, b, i, m) && Carries(h, b, j, m) && h[i].id != h[j].id)
  }

  /** What a search of the history answers; a history without the base answers `Absent`. */
  ghost predicate SearchAnswer(h: History, m: Mutation, r: Search) {
    && ((forall b :: !BaseAt(h, m, b)) ==> r == Absent)
    && (forall b | BaseAt(h, m, b) :: AnswerFrom(h, b, m, r))
  }

  /** The commits determine the answer. */
  lemma AnswerIsUnique(h: History, m: Mutation, r: Search, r': Search)
    requires SearchAnswer(h, m, r) && SearchAnswer(h, m, r')
    ensures r == r'
  {
    hide TouchesAfter, Carries, IsOperationCommit;
    if exists b :: BaseAt(h, m, b) {
      var b :| BaseAt(h, m, b);
      assert AnswerFrom(h, b, m, r) && AnswerFrom(h, b, m, r');
    }
  }

  /** Newest-first search bounded to 256 commits that changed the path. */
  method FindOperationCommit(h: History, m: Mutation) returns (r: Search)
    ensures SearchAnswer(h, m, r)
  {
    var b := 0;
    while b < |h| && h[b].id != m.baseRevision
      invariant 0 <= b <= |h|
      invariant forall i | 0 <= i < b :: h[i].id != m.baseRevision
    {
      b := b + 1;
    }
    if b == |h| {
      return Absent;
    }
    assert BaseAt(h, m, b);
    r := SearchAfter(h, b, m);
  }

  method SearchAfter(h: History, b: nat, m: Mutation) returns (r: Search)
    requires b < |h|
    ensures AnswerFrom(h, b, m, r)
  {
    var found := "";
    ghost var at := 0;
    var present := false;
    var inspected := 0;
    var i := |h| - 1;
    while i > b
      invariant b <= i < |h|
      invariant inspected == TouchesAfter(h, i, m.path) <= MAX_TOUCHES
      invariant !present ==> forall j | i < j :: !Carries(h, b, j, m)
      invariant present ==> i < at && Carries(h, b, at, m) && h[at].id == found
      invariant present ==> forall j | i < j && Carries(h, b, j, m) :: IsOperationCommit(h, j, m) && h[j].id == found
    {
      if Touches(h, i, m.path) {
        inspected := inspected + 1;
        if inspected > MAX_TOUCHES {
          TouchesAfterMonotone(h, b, i - 1, m.path);
          return Unusable;
        }
        if h[i].operation == m.operationID {
          assert Carries(h, b, i, m);
          if h[i - 1].id != m.baseRevision || !HoldsContent(h[i].tree, m.path, m.content) {
            return Unusable;
          }
          if present && found != h[i].id {
            return Unusable;
          }
          found, present := h[i].id, true;
          at := i;
        }
      }
      i := i - 1;
    }
    return if present then Found(found) else Absent;
  }

  lemma {:induction false} TouchesAfterMonotone(h: History, b: int, i: int, path: string)
    requires 0 <= b <= i
    ensures TouchesAfter(h, b, path) >= TouchesAfter(h, i, path)
    decreases i - b
  {
    if b < i && b + 1 < |h| {
      TouchesAfterMonotone(h, b + 1, i, path);
    }
  }
}
