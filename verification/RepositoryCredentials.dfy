/** Reconciling Argo repository credentials with the binding catalog: revoke, then apply, then report the exact set. */
module RepositoryCredentials {
  import opened Identifiers
  import opened Naming
  import opened Sorting

  const MAXIMUM_BINDINGS := 1_000
  const HOUR := 3600 * SECOND

  datatype Error = Invalid | PrerequisiteNotReady | CredentialNotReady | KubernetesFailed | KeyUnavailable
  datatype Outcome<+T> = Ok(value: T) | Err(error: Error)

  /** A GitHub App binding; `wellFormed` is the binding's own validation. */
  datatype Binding = Binding(id: string, wellFormed: bool, remote: Option<string>)

  datatype Authority = Authority(binding: Binding, authorized: bool, revocationRequired: bool, catalogObservedAt: Time)

  /** An authorized binding whose catalog row is recent. */
  predicate Fresh(a: Authority, now: Time, maximumAge: int) {
    a.catalogObservedAt != ZERO_TIME && now - maximumAge <= a.catalogObservedAt <= now
  }

  predicate Active(a: Authority, now: Time, maximumAge: int) {
    a.binding.wellFormed && a.authorized && !a.revocationRequired && Fresh(a, now, maximumAge)
  }

  predicate Revocable(a: Authority) {
    a.binding.wellFormed && !a.authorized && a.revocationRequired && a.catalogObservedAt == ZERO_TIME
  }

  function Validation(a: Authority, now: Time, maximumAge: int): (r: Option<Error>)
    ensures r == None <==> Active(a, now, maximumAge) || Revocable(a)
  {
    if !a.binding.wellFormed then Some(Invalid)
    else if a.authorized then
      if a.revocationRequired || !Fresh(a, now, maximumAge) then Some(PrerequisiteNotReady) else None
    else if a.revocationRequired then (if a.catalogObservedAt != ZERO_TIME then Some(Invalid) else None)
    else if a.catalogObservedAt != ZERO_TIME && a.catalogObservedAt > now then Some(Invalid)
    else Some(PrerequisiteNotReady)
  }

  // The Kubernetes side.

  function CredentialName(bindingID: string): string {
    "kuberploy-repo-" + WithoutDashes(bindingID)
  }

  /** A call for one binding can never reach another binding's credential. */
  lemma CredentialNamesAreDistinct(x: string, y: string)
    requires IsUuid(x) && IsUuid(y) && CredentialName(x) == CredentialName(y)
    ensures x == y
  {
    hide IsUuid;
    assert CredentialName(x)[15..] == WithoutDashes(x) && CredentialName(y)[15..] == WithoutDashes(y);
    WithoutDashesInjective(x, y);
  }

  datatype Observation = Observation(bindingID: string, namespace: string, name: string, uid: string,
      resourceVersion: string, specDigest: string, observedAt: Time)
  datatype Revocation = Revocation(bindingID: string, namespace: string, name: string, absent: bool, observedAt: Time)

  /** Effects on the cluster, in order. */
  datatype Call = Delete(bindingID: string, name: string) | Apply(bindingID: string, name: string, specDigest: string)

  /** What the cluster answers, and the digest a credential's spec must have. */
  datatype Cluster = Cluster(
    deleted: string -> Option<Revocation>, applied: string -> Option<Observation>, digest: Binding -> string, key: bool)

  predicate RevocationFits(r: Revocation, id: string, namespace: string, now: Time) {
    && r.bindingID == id && r.namespace == namespace && r.name == CredentialName(id) && IsUuid(id)
    && r.observedAt != ZERO_TIME && r.observedAt <= now
  }

  predicate ObservationFits(o: Observation, b: Binding, namespace: string, digest: string, now: Time) {
    && o.bindingID == b.id && o.namespace == namespace && o.name == CredentialName(b.id) && IsUuid(o.uid)
    && Printable(o.resourceVersion, 1, 128)
    && o.specDigest == digest && o.observedAt != ZERO_TIME && o.observedAt <= now
  }

  /** The bindings, catalog and answers of one reconciliation. */
  datatype Input = Input(
    namespace: string, appID: int, authorities: seq<Authority>, platformID: string, now: Time, maximumAge: int,
    cluster: Cluster)

  predicate Arguments(x: Input) {
    && IsKubeName(x.namespace) && x.appID > 0 && IsUuid(x.platformID) && x.now != ZERO_TIME && 0 < x.maximumAge <= HOUR
    && 1 <= |x.authorities| <= MAXIMUM_BINDINGS
  }

  function IdOf(a: Authority): string {
    a.binding.id
  }

  predicate Revoked(x: Input, a: Authority) {
    IsUuid(IdOf(a)) && x.cluster.deleted(IdOf(a)).Some?
      && RevocationFits(x.cluster.deleted(IdOf(a)).value, IdOf(a), x.namespace, x.now)
  }

  predicate Absent(x: Input, a: Authority) {
    Revoked(x, a) && x.cluster.deleted(IdOf(a)).value.absent
  }

  /** The credential could be written and the cluster confirmed exactly what was asked. */
  predicate Confirmed(x: Input, a: Authority) {
    && IsUuid(IdOf(a)) && a.binding.remote.Some? && x.cluster.applied(IdOf(a)).Some?
    && ObservationFits(x.cluster.applied(IdOf(a)).value, a.binding, x.namespace, x.cluster.digest(a.binding), x.now)
  }

  // First pass: classify in order, revoking on the way.

  predicate Deletes(call: Call, a: Authority) {
    Revocable(a) && call == Delete(IdOf(a), CredentialName(IdOf(a)))
  }

  ghost predicate DeletesOne(call: Call, values: seq<Authority>) {
    exists a :: a in values && Deletes(call, a)
  }

  predicate Applies(call: Call, x: Input, a: Authority) {
    Active(a, x.now, x.maximumAge) && call == Apply(IdOf(a), CredentialName(IdOf(a)), x.cluster.digest(a.binding))
  }

  /** The active and the revoked among the first `n`, in order. */
  function ActiveIn(values: seq<Authority>, n: nat): seq<Authority>
    requires n <= |values|
  {
    if n == 0 then [] else ActiveIn(values, n - 1) + if values[n - 1].authorized then [values[n - 1]] else []
  }

  predicate Settled(x: Input, a: Authority) {
    Active(a, x.now, x.maximumAge) || (Revocable(a) && Revoked(x, a))
  }

  method Classify(x: Input, values: seq<Authority>)
    returns (error: Option<Error>, active: seq<Authority>, pending: bool, seen: set<string>, calls: seq<Call>)
    ensures forall i | 0 <= i < |calls| :: DeletesOne(calls[i], values)
    ensures error == None <==> KeysDistinct(values, IdOf) && forall i | 0 <= i < |values| :: Settled(x, values[i])
    ensures error == None ==>
              && active == ActiveIn(values, |values|)
              && (forall id :: id in seen <==> exists i :: 0 <= i < |values| && IdOf(values[i]) == id)
              && (pending <==> exists i :: 0 <= i < |values| && Revocable(values[i]) && !Absent(x, values[i]))
              && forall i | 0 <= i < |values| && Revocable(values[i]) ::
                 Delete(IdOf(values[i]), CredentialName(IdOf(values[i]))) in calls
  {
    hide IsUuid, RevocationFits, CredentialName;
    error, active, pending, seen, calls := None, [], false, {}, [];
    for n := 0 to |values|
      invariant error == None && KeysDistinct(values[..n], IdOf) && active == ActiveIn(values, n)
      invariant forall i | 0 <= i < n :: Settled(x, values[i])
      invariant forall id :: id in seen <==> exists i :: 0 <= i < n && IdOf(values[i]) == id
      invariant pending <==> exists i :: 0 <= i < n && Revocable(values[i]) && !Absent(x, values[i])
      invariant forall i | 0 <= i < |calls| :: DeletesOne(calls[i], values)
      invariant forall i | 0 <= i < n && Revocable(values[i]) ::
                Delete(IdOf(values[i]), CredentialName(IdOf(values[i]))) in calls
    {
      var a := values[n];
      if IdOf(a) in seen {
        error := Some(Invalid);
        return;
      }
      seen := seen + {IdOf(a)};
      error := Validation(a, x.now, x.maximumAge);
      if a.authorized {
        if error.Some? {
          return;
        }
        active := active + [a];
      } else if a.revocationRequired {
        if error.Some? {
          return;
        }
        if !IsUuid(IdOf(a)) {
          error := Some(Invalid);
          return;
        }
        assert Deletes(Delete(IdOf(a), CredentialName(IdOf(a))), a);
        calls := calls + [Delete(IdOf(a), CredentialName(IdOf(a)))];
        var revocation := x.cluster.deleted(IdOf(a));
        if revocation == None {
          error := Some(KubernetesFailed);
          return;
        }
        if !RevocationFits(revocation.value, IdOf(a), x.namespace, x.now) {
          error := Some(CredentialNotReady);
          return;
        }
        if !revocation.value.absent {
          pending := true;
        }
      } else {
        return;
      }
    }
    assert values[..|values|] == values;
  }

  // Second pass: apply the active bindings.

  /** What the cluster answered for a confirmed binding. */
  function Answer(x: Input, a: Authority): Observation
    requires Confirmed(x, a)
  {
    x.cluster.applied(IdOf(a)).value
  }

  /** The observations answer the bindings one by one. */
  ghost predicate Answers(x: Input, active: seq<Authority>, observed: seq<Observation>) {
    && |observed| == |active|
    && forall i | 0 <= i < |active| :: Confirmed(x, active[i]) && observed[i] == Answer(x, active[i])
  }

  method ApplyAll(x: Input, active: seq<Authority>)
    returns (error: Option<Error>, observed: seq<Observation>, calls: seq<Call>)
    requires forall i | 0 <= i < |active| :: Active(active[i], x.now, x.maximumAge)
    ensures forall i | 0 <= i < |calls| :: i < |active| && Applies(calls[i], x, active[i])
    ensures error == None <==> forall i | 0 <= i < |active| :: Confirmed(x, active[i])
    ensures error == None ==> |calls| == |active| && Answers(x, active, observed)
  {
    hide IsUuid, CredentialName, Active;
    error, observed, calls := None, [], [];
    for n := 0 to |active|
      invariant |observed| == n == |calls|
      invariant forall i | 0 <= i < n :: Confirmed(x, active[i]) && observed[i] == Answer(x, active[i])
      invariant forall i | 0 <= i < n :: Applies(calls[i], x, active[i])
    {
      var a := active[n];
      if !IsUuid(IdOf(a)) || a.binding.remote == None {
        error := Some(Invalid);
        return;
      }
      var digest := x.cluster.digest(a.binding);
      calls := calls + [Apply(IdOf(a), CredentialName(IdOf(a)), digest)];
      assert Applies(calls[n], x, a);
      var observation := x.cluster.applied(IdOf(a));
      if observation == None {
        error := Some(KubernetesFailed);
        return;
      }
      if !ObservationFits(observation.value, a.binding, x.namespace, digest, x.now) {
        error := Some(CredentialNotReady);
        return;
      }
      observed := observed + [observation.value];
    }
  }

  // The whole reconciliation.

  /** Every revocation was confirmed, every authorized credential applied, and the platform binding is among them. */
  ghost predicate Reconciled(x: Input) {
    && Arguments(x) && KeysDistinct(x.authorities, IdOf) && x.cluster.key && AllSettled(x)
    && (forall a | a in x.authorities && a.authorized :: Confirmed(x, a))
    && (forall a | a in x.authorities && !a.authorized :: Absent(x, a))
    && exists a :: a in x.authorities && a.authorized && IdOf(a) == x.platformID
  }

  /** No binding is merely stale: each is authorized and fresh, or its revocation was acknowledged. */
  ghost predicate AllSettled(x: Input) {
    forall a | a in x.authorities :: Settled(x, a)
  }

  /** The observations are those of exactly the authorized bindings, each once. */
  ghost predicate ReportsAuthorized(x: Input, observed: seq<Observation>) {
    && KeysDistinct(observed, (o: Observation) => o.bindingID)
    && (forall i | 0 <= i < |observed| ::
          exists a :: a in x.authorities && a.authorized && Confirmed(x, a) && observed[i] == Answer(x, a))
    && forall a | a in x.authorities && a.authorized :: Confirmed(x, a) && Answer(x, a) in observed
  }

  ghost predicate CallsAllowed(x: Input, calls: seq<Call>) {
    && (forall i | 0 <= i < |calls| && calls[i].Delete? :: exists a :: a in x.authorities && Deletes(calls[i], a))
    && (forall i | 0 <= i < |calls| && calls[i].Apply? ::
       AllSettled(x) && exists a :: a in x.authorities && Applies(calls[i], x, a))
  }

  ghost predicate SameMembership(values: seq<Authority>, x: Input) {
    forall a :: a in values <==> a in x.authorities
  }

  method Reconcile(x: Input) returns (r: Outcome<seq<Observation>>, calls: seq<Call>)
    ensures CallsAllowed(x, calls)
    ensures r.Ok? <==> Reconciled(x)
    ensures r.Ok? ==> ReportsAuthorized(x, r.value)
  {
    hide Arguments, Confirmed, Settled, Absent, DeletesOne, Applies, KeysDistinct, SameMembership, ActiveIn, Answers;
    hide Reconciled, ReportsAuthorized, AllSettled, CallsAllowed;
    calls := [];
    if !Arguments(x) {
      NotReconciled(x);
      DeletesAllowed(x, x.authorities, calls);
      return Err(Invalid), calls;
    }
    var values := SortClone(x.authorities, IdOf);
    SortedMembers(x, values);
    var error, active, pending, seen, deletes := Classify(x, values);
    calls := deletes;
    DeletesAllowed(x, values, deletes);
    if error.Some? {
      NotSettled(x, values);
      return Err(error.value), calls;
    }
    SettledAll(x, values);
    if x.platformID !in seen {
      PlatformMissing(x, values);
      return Err(CredentialNotReady), calls;
    }
    if !x.cluster.key {
      NotReconciled(x);
      return Err(KeyUnavailable), calls;
    }
    ActiveFresh(x, values, active);
    var failure, observed, applies := ApplyAll(x, active);
    calls := deletes + applies;
    AppliesAllowed(x, values, active, deletes, applies);
    if failure.Some? {
      Unconfirmed(x, values, active);
      return Err(failure.value), calls;
    }
    if pending {
      StillPresent(x, values);
      return Err(CredentialNotReady), calls;
    }
    var found := PlatformObserved(x, values, active, observed);
    if !found {
      PlatformInactive(x, values, active);
      return Err(CredentialNotReady), calls;
    }
    AllReported(x, values, active, observed);
    return Ok(observed), calls;
  }

  lemma NotReconciled(x: Input)
    ensures !Arguments(x) || !x.cluster.key ==> !Reconciled(x)
  {
  }

  lemma SortedMembers(x: Input, values: seq<Authority>)
    requires multiset(values) == multiset(x.authorities)
    ensures SameMembership(values, x) && |values| == |x.authorities|
    ensures KeysDistinct(values, IdOf) <==> KeysDistinct(x.authorities, IdOf)
  {
    hide KeysDistinct, UniqueKeys;
    assert |multiset(values)| == |values| && |multiset(x.authorities)| == |x.authorities|;
    DistinctIsUnique(values, IdOf);
    DistinctIsUnique(x.authorities, IdOf);
    forall a
      ensures a in values <==> a in x.authorities
    {
      assert a in multiset(values) <==> a in values;
      assert a in multiset(x.authorities) <==> a in x.authorities;
    }
  }

  lemma NotSettled(x: Input, values: seq<Authority>)
    requires SameMembership(values, x) && (KeysDistinct(values, IdOf) <==> KeysDistinct(x.authorities, IdOf))
    requires !(KeysDistinct(values, IdOf) && forall i | 0 <= i < |values| :: Settled(x, values[i]))
    ensures !Reconciled(x)
  {
    hide Arguments, Confirmed, Settled, Absent, KeysDistinct;
    if KeysDistinct(values, IdOf) {
      var i :| 0 <= i < |values| && !Settled(x, values[i]);
      assert values[i] in x.authorities;
    }
  }

  lemma SettledAll(x: Input, values: seq<Authority>)
    requires SameMembership(values, x) && forall i | 0 <= i < |values| :: Settled(x, values[i])
    ensures AllSettled(x)
  {
    hide Settled;
    forall a | a in x.authorities
      ensures Settled(x, a)
    {
      assert a in values;
    }
  }

  lemma DeletesAllowed(x: Input, values: seq<Authority>, deletes: seq<Call>)
    requires SameMembership(values, x) || deletes == []
    requires forall i | 0 <= i < |deletes| :: DeletesOne(deletes[i], values)
    ensures CallsAllowed(x, deletes)
  {
    hide Revocable, CredentialName, AllSettled;
  }

  lemma {:induction false} ActiveMembers(values: seq<Authority>, n: nat)
    requires n <= |values|
    ensures forall a :: a in ActiveIn(values, n) <==> exists i :: 0 <= i < n && values[i] == a && a.authorized
  {
    if n > 0 {
      ActiveMembers(values, n - 1);
    }
  }

  lemma ActiveFresh(x: Input, values: seq<Authority>, active: seq<Authority>)
    requires active == ActiveIn(values, |values|) && forall i | 0 <= i < |values| :: Settled(x, values[i])
    ensures forall i | 0 <= i < |active| :: Active(active[i], x.now, x.maximumAge)
  {
    hide ActiveIn, Revoked, Fresh;
    ActiveMembers(values, |values|);
    forall i | 0 <= i < |active|
      ensures Active(active[i], x.now, x.maximumAge)
    {
      assert active[i] in active;
    }
  }

  lemma PlatformMissing(x: Input, values: seq<Authority>)
    requires SameMembership(values, x)
    requires !exists i :: 0 <= i < |values| && IdOf(values[i]) == x.platformID
    ensures !Reconciled(x)
  {
    hide Arguments, Confirmed, Absent, KeysDistinct, AllSettled;
    forall a | a in x.authorities
      ensures IdOf(a) != x.platformID
    {
      assert a in values;
    }
  }

  lemma AppliesAllowed(x: Input, values: seq<Authority>, active: seq<Authority>, deletes: seq<Call>, applies: seq<Call>)
    requires SameMembership(values, x) && AllSettled(x) && active == ActiveIn(values, |values|)
    requires forall i | 0 <= i < |deletes| :: DeletesOne(deletes[i], values)
    requires forall i | 0 <= i < |applies| :: i < |active| && Applies(applies[i], x, active[i])
    ensures CallsAllowed(x, deletes + applies)
  {
    hide Revocable, Active, CredentialName, AllSettled, ActiveIn;
    ActiveMembers(values, |values|);
    var calls := deletes + applies;
    forall i | 0 <= i < |calls|
      ensures calls[i].Delete? ==> exists a :: a in x.authorities && Deletes(calls[i], a)
      ensures calls[i].Apply? ==> exists a :: a in x.authorities && Applies(calls[i], x, a)
    {
      if i < |deletes| {
        assert calls[i] == deletes[i];
      } else {
        var j := i - |deletes|;
        assert calls[i] == applies[j] && active[j] in active && active[j] in x.authorities;
      }
    }
  }

  lemma Unconfirmed(x: Input, values: seq<Authority>, active: seq<Authority>)
    requires SameMembership(values, x) && active == ActiveIn(values, |values|)
    requires !forall i | 0 <= i < |active| :: Confirmed(x, active[i])
    ensures !Reconciled(x)
  {
    hide Arguments, Confirmed, Absent, KeysDistinct, AllSettled, ActiveIn;
    ActiveMembers(values, |values|);
    var i :| 0 <= i < |active| && !Confirmed(x, active[i]);
    assert active[i] in active && active[i] in x.authorities;
  }

  lemma StillPresent(x: Input, values: seq<Authority>)
    requires SameMembership(values, x)
    requires exists i :: 0 <= i < |values| && Revocable(values[i]) && !Absent(x, values[i])
    ensures !Reconciled(x)
  {
    hide Arguments, Confirmed, Absent, KeysDistinct, AllSettled;
    var i :| 0 <= i < |values| && Revocable(values[i]) && !Absent(x, values[i]);
    assert values[i] in x.authorities;
  }

  lemma PlatformInactive(x: Input, values: seq<Authority>, active: seq<Authority>)
    requires SameMembership(values, x) && active == ActiveIn(values, |values|)
    requires !exists i :: 0 <= i < |active| && IdOf(active[i]) == x.platformID
    ensures !Reconciled(x)
  {
    hide Arguments, Confirmed, Absent, KeysDistinct, AllSettled, ActiveIn;
    ActiveMembers(values, |values|);
    forall a | a in x.authorities && a.authorized
      ensures IdOf(a) != x.platformID
    {
      assert a in values;
      assert a in active;
    }
  }

  lemma AnswerNames(x: Input, a: Authority)
    requires Confirmed(x, a)
    ensures Answer(x, a).bindingID == IdOf(a) && IsUuid(IdOf(a)) && Answer(x, a).observedAt <= x.now
  {
  }

  /** The final check of the reported set: with distinct, confirmed bindings only the platform's presence is open. */
  method PlatformObserved(x: Input, values: seq<Authority>, active: seq<Authority>, observed: seq<Observation>)
    returns (found: bool)
    requires KeysDistinct(values, IdOf) && active == ActiveIn(values, |values|) && Answers(x, active, observed)
    requires |values| == |x.authorities| && Arguments(x)
    ensures found <==> exists i :: 0 <= i < |active| && IdOf(active[i]) == x.platformID
  {
    hide IsUuid, Confirmed, Answer, ActiveIn;
    ActiveDistinct(values, |values|);
    ActiveLength(values, |values|);
    var seen: set<string> := {};
    if |observed| < 1 || |observed| > MAXIMUM_BINDINGS {
      return false;
    }
    for n := 0 to |observed|
      invariant forall id :: id in seen <==> exists i :: 0 <= i < n && IdOf(active[i]) == id
    {
      AnswerNames(x, active[n]);
      if !IsUuid(observed[n].bindingID) || observed[n].observedAt > x.now || observed[n].bindingID in seen {
        return false;
      }
      seen := seen + {observed[n].bindingID};
    }
    return x.platformID in seen;
  }

  lemma {:induction false} ActiveLength(values: seq<Authority>, n: nat)
    requires n <= |values|
    ensures |ActiveIn(values, n)| <= n
  {
    if n > 0 {
      ActiveLength(values, n - 1);
    }
  }

  lemma {:induction false} ActiveDistinct(values: seq<Authority>, n: nat)
    requires n <= |values| && KeysDistinct(values, IdOf)
    ensures KeysDistinct(ActiveIn(values, n), IdOf)
  {
    if n > 0 {
      ActiveDistinct(values, n - 1);
      ActiveMembers(values, n - 1);
      var init := ActiveIn(values, n - 1);
      forall j | 0 <= j < |init|
        ensures IdOf(init[j]) != IdOf(values[n - 1])
      {
        assert init[j] in init;
      }
    }
  }

  lemma AllReported(x: Input, values: seq<Authority>, active: seq<Authority>, observed: seq<Observation>)
    requires Arguments(x) && x.cluster.key && AllSettled(x) && SameMembership(values, x)
    requires KeysDistinct(values, IdOf) && KeysDistinct(x.authorities, IdOf)
    requires active == ActiveIn(values, |values|) && Answers(x, active, observed)
    requires forall i | 0 <= i < |values| && Revocable(values[i]) :: Absent(x, values[i])
    requires exists i :: 0 <= i < |active| && IdOf(active[i]) == x.platformID
    ensures Reconciled(x) && ReportsAuthorized(x, observed)
  {
    hide Arguments, Confirmed, Answer, Absent, ActiveIn, Revoked, Fresh, KeysDistinct;
    ActiveMembers(values, |values|);
    forall a | a in x.authorities && a.authorized
      ensures Confirmed(x, a) && Answer(x, a) in observed
    {
      assert a in values;
      assert a in active;
      var i :| 0 <= i < |active| && active[i] == a;
      assert observed[i] == Answer(x, a);
    }
    forall a | a in x.authorities && !a.authorized
      ensures Absent(x, a)
    {
      assert a in values;
      assert Settled(x, a);
    }
    OnlyReported(x, values, active, observed);
    forall i | 0 <= i < |active|
      ensures active[i] in x.authorities && active[i].authorized
    {
      assert active[i] in active;
    }
  }

  lemma OnlyReported(x: Input, values: seq<Authority>, active: seq<Authority>, observed: seq<Observation>)
    requires SameMembership(values, x) && KeysDistinct(values, IdOf)
    requires active == ActiveIn(values, |values|) && Answers(x, active, observed)
    ensures KeysDistinct(observed, (o: Observation) => o.bindingID)
    ensures forall i | 0 <= i < |observed| ::
              exists a :: a in x.authorities && a.authorized && Confirmed(x, a) && observed[i] == Answer(x, a)
  {
    hide Confirmed, Answer, ActiveIn, Revoked, Fresh;
    ActiveMembers(values, |values|);
    ActiveDistinct(values, |values|);
    forall i | 0 <= i < |active|
      ensures active[i] in x.authorities && active[i].authorized && observed[i].bindingID == IdOf(active[i])
    {
      assert active[i] in active;
      AnswerNames(x, active[i]);
    }
  }
}
