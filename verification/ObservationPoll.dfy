/** One poll: a complete, consistent listing of a namespace, decoded and stored application by application. */
module ObservationPoll {
  import opened Identifiers
  import opened Naming
  import opened ObservationStore
  import opened ObservationRuns

  const IN_CLUSTER_SERVER := "https://kubernetes.default.svc"
  const MAXIMUM_APPLICATIONS := 10_000
  const MAXIMUM_TOKEN := 1024

  datatype Application = Application(
    uid: string, namespace: string, name: string, resourceVersion: string, labels: map<string, string>,
    project: string, destinationServer: string, destinationNamespace: string,
    syncStatus: string, syncRevisions: seq<string>, healthStatus: string, operationPhase: string, reconciledAt: Time)

  datatype Page = Page(resourceVersion: string, continuation: string, applications: seq<Application>)

  /** Server-owned identity of a deployment. */
  datatype Target = Target(
    deploymentID: string, applicationID: string, projectID: string, environmentID: string,
    argoProject: string, destinationNamespace: string, desiredRevision: string)
  {
    predicate Valid() {
      && IsUuid(deploymentID) && IsUuid(applicationID) && IsUuid(projectID) && IsUuid(environmentID)
      && IsKubeName(argoProject) && IsKubeName(destinationNamespace) && IsCommit(desiredRevision)
    }
  }

  // Text helpers.

  predicate IsSpace(c: char) {
    || '\t' <= c <= '\r' || c == ' ' || c == '\U{0085}' || c == '\U{00A0}' || c == '\U{1680}'
       || '\U{2000}' <= c <= '\U{200A}'
    || c == '\U{2028}' || c == '\U{2029}' || c == '\U{202F}' || c == '\U{205F}' || c == '\U{3000}'
  }

  function TrimSpace(s: string): string {
    if s != "" && IsSpace(s[0]) then TrimSpace(s[1..])
    else if s != "" && IsSpace(s[|s| - 1]) then TrimSpace(s[..|s| - 1])
    else s
  }

  /** Only ASCII letters matter: no other letter folds into the characters of a commit. */
  function ToLower(s: string): string {
    seq(|s|, i requires 0 <= i < |s| => if IsUpperLetter(s[i]) then s[i] - 'A' + 'a' else s[i])
  }

  function Label(a: Application, key: string): string {
    if key in a.labels then a.labels[key] else ""
  }

  function DeploymentID(a: Application): string {
    TrimSpace(Label(a, "kuberploy.io/deployment-id"))
  }

  /** Helm Applications carry no deployment identity. */
  predicate IsManagedHelm(a: Application) {
    var applicationID := TrimSpace(Label(a, "kuberploy.io/application-id"));
    var environmentID := TrimSpace(Label(a, "kuberploy.io/environment-id"));
    var component := Label(a, "app.kubernetes.io/component");
    var part := WithoutDashes(environmentID);
    var bounded := if |part| > 16 then part[..16] else part;
    && Label(a, "app.kubernetes.io/managed-by") == "kuberploy"
    && (component == "helm-application" || component == "approved-helm-application")
    && IsUuid(applicationID) && IsUuid(TrimSpace(Label(a, "kuberploy.io/project-id"))) && IsUuid(environmentID)
    && (a.name == "kp-h-" + bounded + "-" + WithoutDashes(applicationID)
       || a.name == "kp-h-" + WithoutDashes(applicationID))
  }

  // Decoding.

  datatype Decoded<+T> = Ready(value: T) | NotReady | Undecodable

  function Normalized(revision: string): string {
    TrimSpace(ToLower(revision))
  }

  /** The distinct commits named by a status. */
  ghost function Commits(values: seq<string>): set<string> {
    set i | 0 <= i < |values| && IsCommit(Normalized(values[i])) :: Normalized(values[i])
  }

  /** The one commit a status names: none yet, or an ambiguous status, is told apart. */
  method OneGitRevision(values: seq<string>) returns (r: Decoded<string>)
    ensures r.Ready? <==> |Commits(values)| == 1
    ensures r.Ready? ==> Commits(values) == {r.value}
    ensures r.NotReady? <==> Commits(values) == {}
  {
    hide IsCommit, Commits, TrimSpace, ToLower, Lists;
    var unique: seq<string> := [];
    NothingListed(values);
    for i := 0 to |values|
      invariant Lists(unique, Commits(values[..i]))
    {
      assert values[..i + 1] == values[..i] + [values[i]];
      CommitsStep(values[..i], values[i]);
      var value := TrimSpace(ToLower(values[i]));
      ListMore(unique, Commits(values[..i]), value);
      if IsCommit(value) && value !in unique {
        unique := unique + [value];
      }
    }
    assert values[..|values|] == values;
    ListSize(unique, Commits(values));
    if |unique| == 0 {
      return NotReady;
    }
    if |unique| != 1 {
      return Undecodable;
    }
    return Ready(unique[0]);
  }

  /** A list without repetitions of the elements of a set. */
  ghost predicate Lists(s: seq<string>, c: set<string>) {
    (forall x :: x in s <==> x in c) && forall i, j | 0 <= i < j < |s| :: s[i] != s[j]
  }

  lemma ListMore(s: seq<string>, c: set<string>, x: string)
    requires Lists(s, c)
    ensures if x in s then c + {x} == c else Lists(s + [x], c + {x})
    ensures c + {} == c
  {
    if x in s {
      assert x in c;
    }
  }

  lemma ListLess(init: seq<string>, last: string, c: set<string>)
    requires Lists(init + [last], c)
    ensures last in c && Lists(init, c - {last})
  {
    var s := init + [last];
    assert s[|init|] == last && last in s;
    forall x
      ensures x in init <==> x in c - {last}
    {
      if x in init {
        var i :| 0 <= i < |init| && init[i] == x;
        assert s[i] == x && x in s;
      }
    }
    assert forall i | 0 <= i < |init| :: s[i] == init[i];
  }

  lemma {:induction false} ListSize(s: seq<string>, c: set<string>)
    requires Lists(s, c)
    ensures |s| == |c| && (|s| == 1 ==> c == {s[0]}) && (|s| == 0 <==> c == {})
  {
    if s == [] {
      assert c == {};
    } else {
      var init, last := s[..|s| - 1], s[|s| - 1];
      assert s == init + [last];
      ListLess(init, last, c);
      hide Lists;
      ListSize(init, c - {last});
      if |s| == 1 {
        assert c - {last} == {} && c == {s[0]};
      }
    }
  }

  lemma NothingListed(values: seq<string>)
    ensures Lists([], Commits(values[..0]))
  {
    hide IsCommit, Normalized;
  }

  lemma CommitsStep(values: seq<string>, v: string)
    ensures Commits(values + [v]) == Commits(values) + if IsCommit(Normalized(v)) then {Normalized(v)} else {}
  {
    hide IsCommit, Normalized;
    var all := values + [v];
    forall x
      ensures x in Commits(all) <==> x in Commits(values) || (IsCommit(Normalized(v)) && x == Normalized(v))
    {
      if x in Commits(values) {
        var i :| 0 <= i < |values| && IsCommit(Normalized(values[i])) && Normalized(values[i]) == x;
        assert all[i] == values[i];
      }
      assert all[|values|] == v;
      if x in Commits(all) {
        var i :| 0 <= i < |all| && IsCommit(Normalized(all[i])) && Normalized(all[i]) == x;
        assert i < |values| ==> all[i] == values[i];
      }
    }
  }

  function DecodeSync(s: string): Option<Sync> {
    if s == "Unknown" || s == "" then Some(SyncUnknown) else if s == "Synced" then Some(Synced)
    else if s == "OutOfSync" then Some(OutOfSync) else None
  }

  function DecodeHealth(s: string): Option<Health> {
    if s == "Unknown" || s == "" then Some(HealthUnknown) else if s == "Progressing" then Some(Progressing)
    else if s == "Healthy" then Some(Healthy) else if s == "Degraded" then Some(Degraded)
    else if s == "Suspended" then Some(Suspended) else if s == "Missing" then Some(Missing) else None
  }

  function DecodePhase(s: string): Option<OperationPhase> {
    if s == "" then Some(NoOperation) else if s == "Running" then Some(Running)
      else if s == "Succeeded" then Some(Succeeded)
    else if s == "Failed" then Some(Failed) else if s == "Error" then Some(Errored)
    else if s == "Terminating" then Some(Terminating) else None
  }

  /** The object is the one the server expects; labels alone never suffice. */
  predicate Identified(a: Application, t: Target, namespace: string) {
    && t.Valid() && IsKubeName(namespace) && a.namespace == namespace && a.name == ApplicationName(t.deploymentID)
    && a.project == t.argoProject && a.destinationServer == IN_CLUSTER_SERVER
    && a.destinationNamespace == t.destinationNamespace
    && Label(a, "app.kubernetes.io/managed-by") == "kuberploy"
    && Label(a, "kuberploy.io/deployment-id") == t.deploymentID
    && Label(a, "kuberploy.io/application-id") == t.applicationID
    && Label(a, "kuberploy.io/project-id") == t.projectID && Label(a, "kuberploy.io/environment-id") == t.environmentID
    && IsUuid(a.uid) && Printable(a.resourceVersion, 1, 128)
  }

  ghost predicate Decodes(a: Application, t: Target, namespace: string, r: Decoded<Observation>) {
    var commits := Commits(a.syncRevisions);
    var sync, health, phase := DecodeSync(a.syncStatus), DecodeHealth(a.healthStatus), DecodePhase(a.operationPhase);
    if !Identified(a, t, namespace) then r == Undecodable
    else if a.reconciledAt == ZERO_TIME || commits == {} then r == NotReady
    else if |commits| != 1 || sync == None || health == None || phase == None then r == Undecodable
    else
      && r.Ready? && commits == {r.value.observedRevision}
      && r.value == Observation(
           t.deploymentID, t.applicationID, t.projectID, t.environmentID, a.uid, namespace, a.name,
           t.destinationNamespace, t.desiredRevision, r.value.observedRevision, sync.value, health.value, phase.value,
           "", [], a.reconciledAt, a.reconciledAt)
  }

  method ObservationFromApplication(a: Application, t: Target, namespace: string) returns (r: Decoded<Observation>)
    ensures Decodes(a, t, namespace, r) && (r.Ready? ==> ValidObservation(r.value))
  {
    hide IsUuid, IsKubeName, IsCommit, Commits, DecodeSync, DecodeHealth, DecodePhase, Printable, ApplicationName;
    if !Identified(a, t, namespace) {
      return Undecodable;
    }
    if a.reconciledAt == ZERO_TIME {
      return NotReady;
    }
    var revision := OneGitRevision(a.syncRevisions);
    if !revision.Ready? {
      return if revision.NotReady? then NotReady else Undecodable;
    }
    var sync, health, phase := DecodeSync(a.syncStatus), DecodeHealth(a.healthStatus), DecodePhase(a.operationPhase);
    if sync == None || health == None || phase == None {
      return Undecodable;
    }
    var o := Observation(
      t.deploymentID, t.applicationID, t.projectID, t.environmentID, a.uid, namespace, a.name, t.destinationNamespace,
      t.desiredRevision, revision.value, sync.value, health.value, phase.value, "", [], a.reconciledAt, a.reconciledAt);
    NamedCommit(a.syncRevisions, revision.value);
    return Ready(o);
  }

  lemma NamedCommit(values: seq<string>, c: string)
    requires c in Commits(values)
    ensures IsCommit(c)
  {
    hide IsCommit, Normalized;
  }

  // The poll.

  datatype Resolution = Found(target: Target) | UnknownDeployment | ResolverFailed
  datatype Fate = Observed | IgnoredUnknown | IgnoredStale | Pending
  datatype PollError =
    SourceFailed | InvalidPoll | VersionChanged | BoundExceeded | RepeatedToken | ResolveFailed | StoreFailed
  datatype Batch = Batch(observed: nat, unknown: nat, stale: nat, snapshotVersion: string)

  /** What the shared store holds. */
  datatype Contents = Contents(values: Observations, runtimes: Runtimes)

  ghost function Stored(store: MemoryObservationStore): Contents
    reads store
  {
    Contents(store.values, store.runtimes)
  }

  /**
   One poll of a namespace under its lease. `clock` stamps the i-th observation, `now` is the instant at which it is
   put, and `world` is what everybody else has made of the store by then.
   */
  datatype Poll = Poll(
    namespace: string, lease: Lease, resolve: string -> Resolution, clock: Option<nat -> Time>, now: nat -> Time,
    world: (nat, Contents) -> Contents)

  function CountOf(fates: seq<Fate>, f: Fate): nat {
    if fates == [] then 0 else CountOf(fates[..|fates| - 1], f) + if fates[|fates| - 1] == f then 1 else 0
  }

  /** The counters of a batch are those of the fates so far. */
  predicate Tallies(batch: Batch, fates: seq<Fate>) {
    && batch.observed == CountOf(fates, Observed) && batch.unknown == CountOf(fates, IgnoredUnknown)
    && batch.stale == CountOf(fates, IgnoredStale)
  }

  lemma {:induction false} FatesAddUp(fates: seq<Fate>)
    ensures CountOf(fates, Observed) + CountOf(fates, IgnoredUnknown) + CountOf(fates, IgnoredStale)
            + CountOf(fates, Pending) == |fates|
  {
    if fates != [] {
      FatesAddUp(fates[..|fates| - 1]);
    }
  }

  /** The observation as stored: stamped with the poll's own instant when the observer has a clock. */
  function Stamped(o: Observation, stamp: Option<Time>): Observation {
    if stamp == None then o else o.(observedAt := stamp.value, updatedAt := stamp.value)
  }

  function StampOf(clock: Option<nat -> Time>, i: nat): Option<Time> {
    if clock == None then None else Some(clock.value(i))
  }

  /** The lease was active when the i-th application was put. */
  predicate Fencing(p: Poll, i: nat, o: Observation, runtimes: Runtimes) {
    Fenced(runtimes, p.lease, ValidObservation(o) && o.argoNamespace == p.lease.namespace, p.now(i)).Ok?
  }

  /** Why the i-th application met its fate, given what the store held just before and just after it. */
  ghost predicate Explains(p: Poll, i: nat, a: Application, fate: Fate, before: Contents, after: Contents) {
    var id := DeploymentID(a);
    && after.runtimes == before.runtimes
    && match fate
       case IgnoredUnknown =>
         after == before && (if id == "" then IsManagedHelm(a) else p.resolve(id) == UnknownDeployment)
       case Pending =>
         after == before && id != "" && p.resolve(id).Found? && Decodes(a, p.resolve(id).target, p.namespace, NotReady)
       case _ =>
         && id != "" && p.resolve(id).Found?
         && exists o :: && Decodes(a, p.resolve(id).target, p.namespace, Ready(o)) && o.deploymentID == id
                        && Settles(p, i, Stamped(o, StampOf(p.clock, i)), fate, before, after)
  }

  /** A fenced put that was accepted, or refused as stale. */
  predicate Settles(p: Poll, i: nat, o: Observation, fate: Fate, before: Contents, after: Contents) {
    && Fencing(p, i, o, before.runtimes) && after.values == AfterPut(before.values, o)
    && PutOutcome(before.values, o) == if fate == Observed then Ok(()) else Err(Conflict)
  }

  /** Settles one listed application that has not been seen before. */
  method ObserveOne(p: Poll, i: nat, a: Application, store: MemoryObservationStore)
    returns (fate: Option<Fate>, error: PollError)
    modifies store
    ensures fate.Some? ==> Explains(p, i, a, fate.value, old(Stored(store)), Stored(store))
    ensures fate == None ==> Stored(store) == old(Stored(store))
  {
    hide Decodes, IsManagedHelm, ValidObservation, Identified;
    fate, error := None, InvalidPoll;
    var id := DeploymentID(a);
    if id == "" {
      if IsManagedHelm(a) {
        fate := Some(IgnoredUnknown);
      }
      return;
    }
    var resolution := p.resolve(id);
    if resolution.UnknownDeployment? {
      fate := Some(IgnoredUnknown);
      return;
    }
    if !resolution.Found? {
      error := ResolveFailed;
      return;
    }
    var decoded := ObservationFromApplication(a, resolution.target, p.namespace);
    if decoded.NotReady? {
      fate := Some(Pending);
      return;
    }
    var stamp := StampOf(p.clock, i);
    if !decoded.Ready? || stamp == Some(ZERO_TIME) {
      return;
    }
    var o := Stamped(decoded.value, stamp);
    OwnDeployment(a, resolution.target, p.namespace, decoded.value);
    ghost var before := Stored(store);
    var put := store.PutObservationFenced(p.lease, o, p.now(i));
    if put.Ok? {
      assert Settles(p, i, o, Observed, before, Stored(store));
      fate := Some(Observed);
    } else if put.error == Conflict {
      assert Settles(p, i, o, IgnoredStale, before, Stored(store));
      fate := Some(IgnoredStale);
    } else {
      error := StoreFailed;
    }
  }

  lemma UuidUntrimmed(s: string)
    requires IsUuid(s)
    ensures TrimSpace(s) == s
  {
    assert s[0] == s[..8][0] && s[35] == s[24..][11];
    assert IsLowerHex(s[0]) && IsLowerHex(s[35]);
  }

  /** What is decoded belongs to the deployment the label names. */
  lemma OwnDeployment(a: Application, t: Target, namespace: string, o: Observation)
    requires Decodes(a, t, namespace, Ready(o))
    ensures o.deploymentID == DeploymentID(a)
  {
    hide IsUuid, IsKubeName, IsCommit, Commits;
    UuidUntrimmed(t.deploymentID);
  }

  function Listed(pages: seq<Page>): seq<Application> {
    if pages == [] then [] else Listed(pages[..|pages| - 1]) + pages[|pages| - 1].applications
  }

  /** The deployments among the first `n` listed applications. */
  ghost function Deployments(listed: seq<Application>, n: nat): set<string>
    requires n <= |listed|
  {
    set i | 0 <= i < n && DeploymentID(listed[i]) != "" :: DeploymentID(listed[i])
  }

  /** No deployment is listed twice. */
  ghost predicate DistinctDeployments(listed: seq<Application>, n: nat)
    requires n <= |listed|
  {
    forall i, j | 0 <= i < j < n && DeploymentID(listed[i]) != "" :: DeploymentID(listed[i]) != DeploymentID(listed[j])
  }

  /** `fates[i]` explains what happened to the i-th application; `stages[i]` is what the poll left before it. */
  ghost predicate Accounts(p: Poll, listed: seq<Application>, fates: seq<Fate>, stages: seq<Contents>) {
    && |fates| <= |listed| && |stages| == |fates| + 1
    && forall i | 0 <= i < |fates| :: Explains(p, i, listed[i], fates[i], p.world(i, stages[i]), stages[i + 1])
  }

  lemma AccountsMore(p: Poll, listed: seq<Application>, fates: seq<Fate>, stages: seq<Contents>, fate: Fate,
      stage: Contents)
    requires Accounts(p, listed, fates, stages) && |fates| < |listed|
    requires Explains(p, |fates|, listed[|fates|], fate, p.world(|fates|, stages[|fates|]), stage)
    ensures Accounts(p, listed, fates + [fate], stages + [stage])
  {
    hide Explains;
    var fs, ss := fates + [fate], stages + [stage];
    forall i: nat | i < |fs|
      ensures Explains(p, i, listed[i], fs[i], p.world(i, ss[i]), ss[i + 1])
    {
      if i < |fates| {
        assert fs[i] == fates[i] && ss[i] == stages[i] && ss[i + 1] == stages[i + 1];
      }
    }
  }

  lemma TalliesMore(batch: Batch, fates: seq<Fate>, fate: Fate)
    requires Tallies(batch, fates)
    ensures Tallies(match fate
                    case Observed => batch.(observed := batch.observed + 1)
                    case IgnoredUnknown => batch.(unknown := batch.unknown + 1)
                    case IgnoredStale => batch.(stale := batch.stale + 1)
                    case Pending => batch, fates + [fate])
  {
    assert (fates + [fate])[..|fates|] == fates;
  }

  /** The poll's account agrees with the store: nobody, or only the others, acted since its last stage. */
  ghost predicate UpToDate(p: Poll, fates: seq<Fate>, stages: seq<Contents>, contents: Contents)
    requires |stages| == |fates| + 1
  {
    contents == stages[|fates|] || contents == p.world(|fates|, stages[|fates|])
  }

  /** The applications of one page, after `listed` from earlier pages. */
  method PollPage(p: Poll, listed: seq<Application>, page: Page, store: MemoryObservationStore, batch0: Batch,
      seen0: set<string>, ghost fates0: seq<Fate>, ghost stages0: seq<Contents>)
    returns (batch: Batch, seen: set<string>, error: Option<PollError>, ghost fates: seq<Fate>,
             ghost stages: seq<Contents>)
    requires |stages0| == |fates0| + 1 && |fates0| == |listed| && Accounts(p, listed, fates0, stages0)
    requires stages0[|listed|] == Stored(store) && Tallies(batch0, fates0)
    requires seen0 == Deployments(listed, |listed|) && DistinctDeployments(listed, |listed|)
    modifies store
    ensures batch.snapshotVersion == batch0.snapshotVersion && |stages| == |fates| + 1 && stages[0] == stages0[0]
    ensures Accounts(p, listed + page.applications, fates, stages) && Tallies(batch, fates)
            && UpToDate(p, fates, stages, Stored(store))
    ensures var all := listed + page.applications;
            error == None ==>
              && |fates| == |all| && Stored(store) == stages[|all|]
              && seen == Deployments(all, |all|) && DistinctDeployments(all, |all|)
              && |all| <= if page.applications == [] then |listed| else MAXIMUM_APPLICATIONS
  {
    hide Explains, Decodes, IsManagedHelm, DeploymentID, Accounts, Tallies, Deployments, DistinctDeployments;
    batch, seen, error, fates, stages := batch0, seen0, None, fates0, stages0;
    ghost var all := listed + page.applications;
    PageStart(p, listed, page.applications, fates0, stages0);
    for i := 0 to |page.applications|
      invariant |fates| == |listed| + i && |stages| == |fates| + 1 && batch.snapshotVersion == batch0.snapshotVersion
      invariant Accounts(p, all, fates, stages) && Tallies(batch, fates)
      invariant stages[0] == stages0[0] && stages[|fates|] == Stored(store)
      invariant seen == Deployments(all, |listed| + i) && DistinctDeployments(all, |listed| + i)
      invariant i > 0 ==> |listed| + i <= MAXIMUM_APPLICATIONS
    {
      var a := page.applications[i];
      var n := |listed| + i;
      assert a == all[n];
      if n + 1 > MAXIMUM_APPLICATIONS {
        error := Some(BoundExceeded);
        return;
      }
      var id := DeploymentID(a);
      if id != "" {
        if id in seen {
          error := Some(InvalidPoll);
          return;
        }
        seen := seen + {id};
      }
      SeenMore(all, n);
      var contents := p.world(n, Contents(store.values, store.runtimes));
      store.values, store.runtimes := contents.values, contents.runtimes;
      assert Stored(store) == p.world(n, stages[n]);
      var fate, failure := ObserveOne(p, n, a, store);
      if fate == None {
        error := Some(failure);
        return;
      }
      AccountsMore(p, all, fates, stages, fate.value, Stored(store));
      TalliesMore(batch, fates, fate.value);
      fates, stages := fates + [fate.value], stages + [Stored(store)];
      match fate.value {
        case Observed => batch := batch.(observed := batch.observed + 1);
        case IgnoredUnknown => batch := batch.(unknown := batch.unknown + 1);
        case IgnoredStale => batch := batch.(stale := batch.stale + 1);
        case Pending =>
      }
    }
  }

  lemma PageStart(p: Poll, listed: seq<Application>, more: seq<Application>, fates: seq<Fate>, stages: seq<Contents>)
    requires Accounts(p, listed, fates, stages)
    ensures Accounts(p, listed + more, fates, stages)
    ensures Deployments(listed + more, |listed|) == Deployments(listed, |listed|)
    ensures DistinctDeployments(listed, |listed|) ==> DistinctDeployments(listed + more, |listed|)
  {
    hide Explains, DeploymentID;
    assert forall i | 0 <= i < |listed| :: (listed + more)[i] == listed[i];
  }

  lemma SeenMore(listed: seq<Application>, n: nat)
    requires n < |listed| && DistinctDeployments(listed, n)
    ensures var id := DeploymentID(listed[n]);
            && Deployments(listed, n + 1) == Deployments(listed, n) + (if id == "" then {} else {id})
            && (id == "" || id !in Deployments(listed, n) ==> DistinctDeployments(listed, n + 1))
  {
    hide DeploymentID;
    var id := DeploymentID(listed[n]);
    if id != "" {
      assert id in Deployments(listed, n + 1);
    }
    forall i | 0 <= i < n && DeploymentID(listed[i]) != ""
      ensures DeploymentID(listed[i]) in Deployments(listed, n)
    {
    }
  }

  /** Every text of at most `n` characters; what bounds the number of continuation tokens. */
  ghost function Texts(n: nat): set<string> {
    if n == 0 then {""} else {""} + set c: char, t | t in Texts(n - 1) :: [c] + t
  }

  lemma {:induction false} TextIn(t: string, n: nat)
    requires |t| <= n
    ensures t in Texts(n)
  {
    if t != "" {
      TextIn(t[1..], n - 1);
      assert t == [t[0]] + t[1..];
    }
  }

  ghost predicate Consistent(pages: seq<Page>, version: string) {
    forall i | 0 <= i < |pages| :: pages[i].resourceVersion == version
  }

  /** The i-th answer followed the continuation token of the one before it. */
  ghost predicate Chained(pages: seq<Page>, source: (nat, string) -> Option<Page>) {
    forall i | 0 <= i < |pages| :: source(i, TokenBefore(pages, i)) == Some(pages[i])
  }

  function TokenBefore(pages: seq<Page>, i: nat): string
    requires i <= |pages|
  {
    if i == 0 then "" else pages[i - 1].continuation
  }

  /**
   Lists the whole namespace and settles every application. `source(i, token)` is the i-th answer of the cluster,
   which may be anything; the poll ends all the same.
   */
  method PollOnce(p: Poll, pageSize: int, source: (nat, string) -> Option<Page>, store: MemoryObservationStore)
    returns (batch: Batch, error: Option<PollError>, ghost pages: seq<Page>, ghost fates: seq<Fate>,
             ghost stages: seq<Contents>)
    modifies store
    ensures Chained(pages, source) && |stages| == |fates| + 1 && stages[0] == old(Stored(store))
    ensures Accounts(p, Listed(pages), fates, stages) && Tallies(batch, fates)
            && UpToDate(p, fates, stages, Stored(store))
    ensures error == None ==>
              && |fates| == |Listed(pages)| <= MAXIMUM_APPLICATIONS && Stored(store) == stages[|fates|]
              && DistinctDeployments(Listed(pages), |Listed(pages)|)
              && pages != [] && pages[|pages| - 1].continuation == "" && Consistent(pages, batch.snapshotVersion)
  {
    hide Explains, Decodes, Accounts, Texts, Chained, Listed, Deployments, DistinctDeployments, Tallies;
    batch, error, pages, fates, stages := Batch(0, 0, 0, ""), None, [], [], [Stored(store)];
    var seenTokens: set<string>, seen: set<string> := {}, {};
    var continuation := "";
    var count := 0;
    var listed: seq<Application> := [];
    NothingYet(p, stages, source);
    if !IsKubeName(p.namespace) || !(0 <= pageSize <= 500) {
      error := Some(InvalidPoll);
      return;
    }
    while true
      invariant Chained(pages, source) && count == |pages| && continuation == TokenBefore(pages, |pages|)
      invariant listed == Listed(pages) && |fates| == |listed| <= MAXIMUM_APPLICATIONS
      invariant Accounts(p, listed, fates, stages) && Tallies(batch, fates)
      invariant |stages| == |fates| + 1 && stages[0] == old(Stored(store)) && stages[|fates|] == Stored(store)
      invariant seen == Deployments(listed, |listed|) && DistinctDeployments(listed, |listed|)
      invariant Consistent(pages, batch.snapshotVersion) && (pages != [] ==> batch.snapshotVersion != "")
      invariant seenTokens <= Texts(MAXIMUM_TOKEN)
      decreases Texts(MAXIMUM_TOKEN) - seenTokens
    {
      var answer := source(count, continuation);
      if answer == None {
        error := Some(SourceFailed);
        return;
      }
      var page := answer.value;
      if !Printable(page.resourceVersion, 1, 128) {
        error := Some(InvalidPoll);
        return;
      }
      if batch.snapshotVersion == "" {
        TalliesVersion(batch, fates, page.resourceVersion);
        batch := batch.(snapshotVersion := page.resourceVersion);
      } else if batch.snapshotVersion != page.resourceVersion {
        error := Some(VersionChanged);
        return;
      }
      ListedMore(pages, page);
      ChainedMore(pages, source, page);
      batch, seen, error, fates, stages := PollPage(p, listed, page, store, batch, seen, fates, stages);
      pages, count, listed := pages + [page], count + 1, listed + page.applications;
      if error.Some? {
        return;
      }
      if page.continuation == "" {
        return;
      }
      if !Printable(page.continuation, 0, MAXIMUM_TOKEN) {
        error := Some(InvalidPoll);
        return;
      }
      if page.continuation in seenTokens {
        error := Some(RepeatedToken);
        return;
      }
      TextIn(page.continuation, MAXIMUM_TOKEN);
      assert page.continuation in Texts(MAXIMUM_TOKEN) - seenTokens;
      seenTokens := seenTokens + {page.continuation};
      continuation := page.continuation;
    }
  }

  lemma NothingYet(p: Poll, stages: seq<Contents>, source: (nat, string) -> Option<Page>)
    requires |stages| == 1
    ensures Listed([]) == [] && Chained([], source) && Accounts(p, [], [], stages)
    ensures Tallies(Batch(0, 0, 0, ""), []) && Deployments([], 0) == {} && DistinctDeployments([], 0)
  {
  }

  lemma TalliesVersion(batch: Batch, fates: seq<Fate>, version: string)
    requires Tallies(batch, fates)
    ensures Tallies(batch.(snapshotVersion := version), fates)
  {
  }

  lemma ChainedMore(pages: seq<Page>, source: (nat, string) -> Option<Page>, page: Page)
    requires Chained(pages, source)
    requires source(|pages|, TokenBefore(pages, |pages|)) == Some(page)
    ensures Chained(pages + [page], source)
  {
    hide TokenBefore;
    var all := pages + [page];
    forall i: nat | i < |all|
      ensures source(i, TokenBefore(all, i)) == Some(all[i])
    {
      SameToken(pages, page, i);
      if i < |pages| {
        assert source(i, TokenBefore(pages, i)) == Some(pages[i]);
      }
    }
  }

  lemma SameToken(pages: seq<Page>, page: Page, i: nat)
    requires i <= |pages|
    ensures TokenBefore(pages + [page], i) == TokenBefore(pages, i)
  {
  }

  lemma ListedMore(pages: seq<Page>, page: Page)
    ensures Listed(pages + [page]) == Listed(pages) + page.applications
  {
    assert (pages + [page])[..|pages|] == pages;
  }

  // What the poll leaves behind.

  /** What is stored of a deployment stays, or gives way to something later. */
  ghost predicate OnlyProgress(a: Observations, b: Observations) {
    forall d | d in a :: d in b && Progresses(a[d], b[d])
  }

  /** Beside this poll the others let what is stored progress. */
  ghost predicate OthersProgress(p: Poll, stages: seq<Contents>) {
    forall i | 0 <= i < |stages| - 1 :: OnlyProgress(stages[i].values, p.world(i, stages[i]).values)
  }

  /** Observations put one after the other. */
  function PutAll(values: Observations, os: seq<Observation>): Observations {
    if os == [] then values else AfterPut(PutAll(values, os[..|os| - 1]), os[|os| - 1])
  }

  /** Beside this poll the others put observations, any number of any kind. */
  ghost predicate OthersPut(p: Poll, stages: seq<Contents>) {
    forall i | 0 <= i < |stages| - 1 :: exists os :: p.world(i, stages[i]).values == PutAll(stages[i].values, os)
  }

  lemma PutProgresses(values: Observations, o: Observation)
    requires Keyed(values)
    ensures Keyed(AfterPut(values, o)) && OnlyProgress(values, AfterPut(values, o))
  {
  }

  lemma {:induction false} PutAllProgresses(values: Observations, os: seq<Observation>)
    requires Keyed(values)
    ensures Keyed(PutAll(values, os)) && OnlyProgress(values, PutAll(values, os))
  {
    hide AfterPut, Progresses;
    if os == [] {
      forall d | d in values
        ensures Progresses(values[d], values[d])
      {
        SelfProgress(values[d]);
      }
    } else {
      var before := PutAll(values, os[..|os| - 1]);
      PutAllProgresses(values, os[..|os| - 1]);
      PutProgresses(before, os[|os| - 1]);
      var after := AfterPut(before, os[|os| - 1]);
      forall d | d in values
        ensures Progresses(values[d], after[d])
      {
        ProgressesTransitive(values[d], before[d], after[d]);
      }
    }
  }

  lemma StepKeyed(p: Poll, i: nat, a: Application, fate: Fate, before: Contents, after: Contents)
    requires Explains(p, i, a, fate, before, after) && Keyed(before.values)
    ensures Keyed(after.values)
  {
    hide Decodes, DeploymentID, IsManagedHelm, Fencing;
  }

  lemma {:induction false} StagesKeyed(p: Poll, listed: seq<Application>, fates: seq<Fate>, stages: seq<Contents>,
      n: nat)
    requires Accounts(p, listed, fates, stages) && OthersPut(p, stages) && Keyed(stages[0].values) && n < |stages|
    ensures Keyed(stages[n].values)
  {
    hide Explains, Keyed, PutAll;
    if n > 0 {
      StagesKeyed(p, listed, fates, stages, n - 1);
      var between := p.world(n - 1, stages[n - 1]);
      var os :| between.values == PutAll(stages[n - 1].values, os);
      PutAllProgresses(stages[n - 1].values, os);
      assert Explains(p, n - 1, listed[n - 1], fates[n - 1], between, stages[n]);
      StepKeyed(p, n - 1, listed[n - 1], fates[n - 1], between, stages[n]);
    }
  }

  /** Others that only put observations, into a store as every run leaves it, let what is stored progress. */
  lemma PuttingIsProgress(p: Poll, listed: seq<Application>, fates: seq<Fate>, stages: seq<Contents>)
    requires Accounts(p, listed, fates, stages) && OthersPut(p, stages) && Keyed(stages[0].values)
    ensures OthersProgress(p, stages)
  {
    hide Accounts, Keyed, PutAll, OnlyProgress;
    forall i | 0 <= i < |stages| - 1
      ensures OnlyProgress(stages[i].values, p.world(i, stages[i]).values)
    {
      StagesKeyed(p, listed, fates, stages, i);
      var os :| p.world(i, stages[i]).values == PutAll(stages[i].values, os);
      PutAllProgresses(stages[i].values, os);
    }
  }

  lemma ProgressesTransitive(a: Observation, b: Observation, c: Observation)
    requires Progresses(a, b) && Progresses(b, c)
    ensures Progresses(a, c)
  {
  }

  /** An application's step leaves the observations of other deployments alone. */
  lemma OtherDeployments(p: Poll, i: nat, a: Application, fate: Fate, before: Contents, after: Contents, id: string)
    requires Explains(p, i, a, fate, before, after) && id != DeploymentID(a) && id in before.values
    ensures id in after.values && after.values[id] == before.values[id]
  {
    hide Decodes, DeploymentID, IsManagedHelm, Fencing;
  }

  lemma {:induction false} ObservedRemains(p: Poll, listed: seq<Application>, fates: seq<Fate>, stages: seq<Contents>,
      i: nat, n: nat)
    requires Accounts(p, listed, fates, stages) && OthersProgress(p, stages) && i < n <= |fates|
             && DistinctDeployments(listed, |listed|)
    requires DeploymentID(listed[i]) != "" && DeploymentID(listed[i]) in stages[i + 1].values
    ensures var id := DeploymentID(listed[i]);
            id in stages[n].values && Progresses(stages[i + 1].values[id], stages[n].values[id])
    decreases n
  {
    hide Decodes, DeploymentID, Explains;
    var id := DeploymentID(listed[i]);
    if i + 1 == n {
      SelfProgress(stages[n].values[id]);
    } else {
      ObservedRemains(p, listed, fates, stages, i, n - 1);
      var between := p.world(n - 1, stages[n - 1]);
      assert OnlyProgress(stages[n - 1].values, between.values);
      assert Explains(p, n - 1, listed[n - 1], fates[n - 1], between, stages[n]);
      OtherDeployments(p, n - 1, listed[n - 1], fates[n - 1], between, stages[n], id);
      ProgressesTransitive(stages[i + 1].values[id], stages[n - 1].values[id], stages[n].values[id]);
    }
  }

  lemma SelfProgress(o: Observation)
    ensures Progresses(o, o)
  {
  }

  /** After a poll the store holds, for each observed application, what was observed or something later. */
  lemma ObservedIsStored(p: Poll, listed: seq<Application>, fates: seq<Fate>, stages: seq<Contents>, i: nat)
    requires Accounts(p, listed, fates, stages) && OthersProgress(p, stages) && i < |fates| && fates[i] == Observed
    requires DistinctDeployments(listed, |listed|)
    ensures var id := DeploymentID(listed[i]);
            && p.resolve(id).Found? && id in stages[|fates|].values
            && exists o :: && Decodes(listed[i], p.resolve(id).target, p.namespace, Ready(o))
                           && Progresses(Stamped(o, StampOf(p.clock, i)), stages[|fates|].values[id])
  {
    hide Decodes, DeploymentID, OthersProgress, Fencing;
    var id := DeploymentID(listed[i]);
    assert Explains(p, i, listed[i], fates[i], p.world(i, stages[i]), stages[i + 1]);
    ObservedRemains(p, listed, fates, stages, i, |fates|);
  }
}
