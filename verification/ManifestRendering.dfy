/**
 The element list of an environment's ApplicationSet: one element per deployment, whatever the order of the inputs.
 */
module ManifestRendering {
  import opened Identifiers
  import opened Naming
  import opened Sorting

  const MAXIMUM_ITEMS := 10_000

  datatype Application = Application(id: string, projectID: string)
  datatype Deployment = Deployment(id: string, applicationID: string, environmentID: string, desiredRevision: string)

  datatype Element = Element(
    deploymentID: string, applicationID: string, applicationName: string, applicationPath: string,
    valuesRevision: string)

  /**
   The environment rendered for. `path` gives an application's place in its repository, if it has one; `valid` and
   `template` say whether the target passes its own validation and whether its manifest template can be built.
   */
  datatype Target = Target(projectID: string, environmentID: string, indexedRevision: string,
      path: string -> Option<string>, valid: bool, template: bool)

  // What may be rendered.

  predicate ApplicationFits(t: Target, a: Application) {
    a.projectID == t.projectID && IsUuid(a.id)
  }

  predicate RevisionFits(d: Deployment) {
    d.desiredRevision == "" || IsCommit(d.desiredRevision)
  }

  ghost predicate DeploymentFits(t: Target, applications: multiset<Application>, d: Deployment) {
    && (exists a :: a in applications && a.id == d.applicationID)
    && IsUuid(d.id) && d.environmentID == t.environmentID && t.path(d.applicationID).Some? && RevisionFits(d)
  }

  /** The target and every item fit. The inputs are taken as multisets: their order is no part of it. */
  ghost predicate Renderable(t: Target, applications: multiset<Application>, deployments: multiset<Deployment>) {
    && t.valid && t.template && |applications| <= MAXIMUM_ITEMS && |deployments| <= MAXIMUM_ITEMS
    && ItemsFit(t, applications, deployments)
  }

  /** Every item fits and no identifier repeats. */
  ghost predicate ItemsFit(t: Target, applications: multiset<Application>, deployments: multiset<Deployment>) {
    && (forall a | a in applications :: ApplicationFits(t, a)) && UniqueKeys(applications, (a: Application) => a.id)
    && (forall d | d in deployments :: DeploymentFits(t, applications, d))
    && UniqueKeys(deployments, (d: Deployment) => d.id)
  }

  function ElementOf(t: Target, d: Deployment): Element
    requires t.path(d.applicationID).Some?
  {
    Element(d.id, d.applicationID, ApplicationName(d.id), t.path(d.applicationID).value,
            if d.desiredRevision == "" then t.indexedRevision else d.desiredRevision)
  }

  ghost predicate StrictlySorted(elements: seq<Element>) {
    forall i, j | 0 <= i < j < |elements| :: StringLess(elements[i].deploymentID, elements[j].deploymentID)
  }

  /** The element list in deployment order: exactly one element for each deployment and nothing else. */
  ghost predicate Renders(t: Target, deployments: multiset<Deployment>, elements: seq<Element>) {
    && |elements| == |deployments| && StrictlySorted(elements)
    && (forall d | d in deployments :: t.path(d.applicationID).Some? && ElementOf(t, d) in elements)
    && forall i | 0 <= i < |elements| ::
         exists d :: d in deployments && t.path(d.applicationID).Some? && elements[i] == ElementOf(t, d)
  }

  // The loops.

  /** Checks the applications and indexes them by identifier. */
  method IndexApplications(t: Target, applications: seq<Application>) returns (r: Option<map<string, Application>>)
    ensures r.Some? <==> (forall i | 0 <= i < |applications| :: ApplicationFits(t, applications[i]))
                         && KeysDistinct(applications, (a: Application) => a.id)
    ensures r.Some? ==> forall id :: id in r.value <==> exists i :: 0 <= i < |applications| && applications[i].id == id
    ensures r.Some? ==> forall id | id in r.value :: r.value[id].id == id
  {
    hide ApplicationFits;
    var index: map<string, Application> := map[];
    for n := 0 to |applications|
      invariant forall i | 0 <= i < n :: ApplicationFits(t, applications[i])
      invariant KeysDistinct(applications[..n], (a: Application) => a.id)
      invariant forall id :: id in index <==> exists i :: 0 <= i < n && applications[i].id == id
      invariant forall id | id in index :: index[id].id == id
    {
      var a := applications[n];
      if !ApplicationFits(t, a) {
        return None;
      }
      if a.id in index {
        return None;
      }
      index := index[a.id := a];
    }
    assert applications[..|applications|] == applications;
    return Some(index);
  }

  /** What the loop over deployments asks of one, given the indexed applications. */
  predicate Placed(t: Target, index: map<string, Application>, d: Deployment) {
    && d.applicationID in index && IsUuid(d.id) && d.environmentID == t.environmentID
    && t.path(d.applicationID).Some? && RevisionFits(d)
  }

  method BuildElements(t: Target, index: map<string, Application>, deployments: seq<Deployment>)
    returns (r: Option<seq<Element>>)
    requires forall id | id in index :: index[id].id == id
    ensures r.Some? <==> (forall i | 0 <= i < |deployments| :: Placed(t, index, deployments[i]))
                         && KeysDistinct(deployments, (d: Deployment) => d.id)
    ensures r.Some? ==> && |r.value| == |deployments|
                        && forall i | 0 <= i < |deployments| :: r.value[i] == ElementOf(t, deployments[i])
  {
    hide IsUuid, RevisionFits, ApplicationName;
    var elements: seq<Element> := [];
    var seen: set<string> := {};
    for n := 0 to |deployments|
      invariant |elements| == n
                && forall i | 0 <= i < n ::
                Placed(t, index, deployments[i]) && elements[i] == ElementOf(t, deployments[i])
      invariant KeysDistinct(deployments[..n], (d: Deployment) => d.id)
      invariant forall id :: id in seen <==> exists i :: 0 <= i < n && deployments[i].id == id
    {
      var d := deployments[n];
      if d.applicationID !in index || !IsUuid(d.id) || d.environmentID != t.environmentID {
        return None;
      }
      if d.id in seen {
        return None;
      }
      seen := seen + {d.id};
      var application := index[d.applicationID];
      var path := t.path(application.id);
      if path == None {
        return None;
      }
      var valuesRevision := t.indexedRevision;
      if d.desiredRevision != "" {
        if !RevisionFits(d) {
          return None;
        }
        valuesRevision := d.desiredRevision;
      }
      assert RevisionFits(d) by {
        EmptyRevisionFits(d);
      }
      elements := elements + [Element(d.id, application.id, ApplicationName(d.id), path.value, valuesRevision)];
    }
    assert deployments[..|deployments|] == deployments;
    return Some(elements);
  }

  lemma EmptyRevisionFits(d: Deployment)
    ensures d.desiredRevision == "" ==> RevisionFits(d)
  {
  }

  method RenderApplicationSet(t: Target, applications: seq<Application>, deployments: seq<Deployment>)
    returns (r: Option<seq<Element>>)
    ensures r.Some? <==> Renderable(t, multiset(applications), multiset(deployments))
    ensures r.Some? ==> Renders(t, multiset(deployments), r.value)
  {
    hide ItemsFit, Renders;
    if !t.valid || |applications| > MAXIMUM_ITEMS || |deployments| > MAXIMUM_ITEMS {
      return None;
    }
    r := RenderElements(t, applications, deployments);
    if !t.template {
      return None;
    }
  }

  method RenderElements(t: Target, applications: seq<Application>, deployments: seq<Deployment>)
    returns (r: Option<seq<Element>>)
    ensures r.Some? <==> ItemsFit(t, multiset(applications), multiset(deployments))
    ensures r.Some? ==> Renders(t, multiset(deployments), r.value)
  {
    hide StringLess, SortedBy, ApplicationFits, IsUuid, RevisionFits, UniqueKeys, KeysDistinct;
    var apps := SortClone(applications, (a: Application) => a.id);
    var index := IndexApplications(t, apps);
    DistinctIsUnique(apps, (a: Application) => a.id);
    SameMembers(apps, applications);
    if index == None {
      return None;
    }
    var sorted := SortClone(deployments, (d: Deployment) => d.id);
    r := BuildElements(t, index.value, sorted);
    DistinctIsUnique(sorted, (d: Deployment) => d.id);
    SameMembers(sorted, deployments);
    PlacedFits(t, index.value, apps, sorted);
    if r.Some? {
      RenderedElements(t, sorted, r.value);
    }
  }

  lemma SameMembers<T>(s: seq<T>, u: seq<T>)
    requires multiset(s) == multiset(u)
    ensures |s| == |u|
    ensures forall x :: x in multiset(u) <==> exists i :: 0 <= i < |s| && s[i] == x
  {
    assert |multiset(s)| == |s| && |multiset(u)| == |u|;
    forall x
      ensures x in multiset(u) <==> exists i :: 0 <= i < |s| && s[i] == x
    {
      assert x in multiset(s) <==> x in s;
    }
  }

  lemma PlacedFits(t: Target, index: map<string, Application>, apps: seq<Application>, deployments: seq<Deployment>)
    requires forall id :: id in index <==> exists i :: 0 <= i < |apps| && apps[i].id == id
    ensures forall i | 0 <= i < |deployments| ::
            Placed(t, index, deployments[i]) <==> DeploymentFits(t, multiset(apps), deployments[i])
  {
    hide IsUuid, RevisionFits;
    forall i | 0 <= i < |deployments|
      ensures Placed(t, index, deployments[i]) <==> DeploymentFits(t, multiset(apps), deployments[i])
    {
      var d := deployments[i];
      if d.applicationID in index {
        var j :| 0 <= j < |apps| && apps[j].id == d.applicationID;
        assert apps[j] in multiset(apps);
      }
      if exists a :: a in multiset(apps) && a.id == d.applicationID {
        var a :| a in multiset(apps) && a.id == d.applicationID;
        assert a in apps;
      }
    }
  }

  lemma RenderedOrder(sorted: seq<Deployment>, elements: seq<Element>)
    requires |elements| == |sorted| && SortedBy(sorted, (d: Deployment) => d.id)
             && KeysDistinct(sorted, (d: Deployment) => d.id)
    requires forall i | 0 <= i < |sorted| :: elements[i].deploymentID == sorted[i].id
    ensures StrictlySorted(elements)
  {
    hide StringLess;
    var key := (d: Deployment) => d.id;
    forall i, j | 0 <= i < j < |elements|
      ensures StringLess(elements[i].deploymentID, elements[j].deploymentID)
    {
      assert NotAfter(key(sorted[i]), key(sorted[j])) && key(sorted[i]) != key(sorted[j]);
      StringLessTotal(sorted[i].id, sorted[j].id);
    }
  }

  lemma RenderedElements(t: Target, sorted: seq<Deployment>, elements: seq<Element>)
    requires |elements| == |sorted| && SortedBy(sorted, (d: Deployment) => d.id)
             && KeysDistinct(sorted, (d: Deployment) => d.id)
    requires forall i | 0 <= i < |sorted| ::
             t.path(sorted[i].applicationID).Some? && elements[i] == ElementOf(t, sorted[i])
    ensures Renders(t, multiset(sorted), elements)
  {
    RenderedOrder(sorted, elements);
    hide StrictlySorted, SortedBy, KeysDistinct, ElementOf;
    forall d | d in multiset(sorted)
      ensures t.path(d.applicationID).Some? && ElementOf(t, d) in elements
    {
      var i :| 0 <= i < |sorted| && sorted[i] == d;
      assert elements[i] == ElementOf(t, d);
    }
    forall i | 0 <= i < |elements|
      ensures exists d :: d in multiset(sorted) && t.path(d.applicationID).Some? && elements[i] == ElementOf(t, d)
    {
      assert sorted[i] in multiset(sorted);
    }
    assert |multiset(sorted)| == |sorted|;
  }

  // The result depends only on what is rendered.

  lemma {:induction false} StrictlySortedUnique(a: seq<Element>, b: seq<Element>)
    requires StrictlySorted(a) && StrictlySorted(b) && (forall e :: e in a <==> e in b)
    ensures a == b
  {
    assert a != [] ==> a[0] in b;
    assert b != [] ==> b[0] in a;
    if a != [] && b != [] {
      SameHead(a, b);
      var x, y := a[1..], b[1..];
      forall e
        ensures e in x <==> e in y
      {
        TailMembers(a, e);
        TailMembers(b, e);
      }
      StrictlySortedUnique(x, y);
      assert a == [a[0]] + x && b == [b[0]] + y;
    }
  }

  lemma SameHead(a: seq<Element>, b: seq<Element>)
    requires StrictlySorted(a) && StrictlySorted(b) && (forall e :: e in a <==> e in b) && a != [] && b != []
    ensures a[0] == b[0]
  {
    assert a[0] in b && b[0] in a;
    var i :| 0 <= i < |b| && b[i] == a[0];
    var j :| 0 <= j < |a| && a[j] == b[0];
    if i > 0 {
      StringLessAsymmetric(b[0].deploymentID, a[0].deploymentID);
    }
  }

  lemma TailMembers(a: seq<Element>, e: Element)
    requires a != [] && StrictlySorted(a)
    ensures e in a[1..] <==> e in a && e != a[0]
  {
    if e in a[1..] {
      var i :| 0 <= i < |a[1..]| && a[1..][i] == e;
      assert StringLess(a[0].deploymentID, a[i + 1].deploymentID);
      StringLessIrreflexive(a[0].deploymentID);
    }
  }

  /** The deployments as a bag decide the list: their order, and that of the applications, never shows. */
  lemma OrderIndependent(t: Target, deployments: multiset<Deployment>, a: seq<Element>, b: seq<Element>)
    requires Renders(t, deployments, a) && Renders(t, deployments, b)
    ensures a == b
  {
    hide StrictlySorted, ApplicationName, ElementOf;
    forall e
      ensures e in a <==> e in b
    {
      if e in a {
        var i :| 0 <= i < |a| && a[i] == e;
      }
      if e in b {
        var i :| 0 <= i < |b| && b[i] == e;
      }
    }
    StrictlySortedUnique(a, b);
  }
}
