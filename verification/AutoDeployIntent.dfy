/** The auto-deploy intent: an AppConfig without the fields the pipeline derives afresh for every run. */
module AutoDeployIntent {
  import opened Identifiers
  import opened Naming
  import opened JsonPatch
  import opened JsonNumbers
  import opened JsonDiff

  const SPEC := "spec"
  const DELIVERY := "delivery"
  const RUNTIME := "runtime"
  const ROUTES := "routes"
  const MIDDLEWARES := "middlewares"
  const DEPENDENCIES := "x-kuberploy-auto-deploy-dependencies"

  /** The delivery of every intent. */
  const IMAGE_ONLY: Json := Obj(map["mode" := Str("image")])

  // The canonical form, field by field.

  /** Reads a field of anything; only objects have fields. */
  function Get(v: Json, key: string): Json {
    if v.Obj? then Field(v, key) else Null
  }

  predicate Has(v: Json, key: string) {
    v.Obj? && key in v.fields
  }

  function Drop(v: Json, key: string): Json {
    if v.Obj? then Obj(v.fields - {key}) else v
  }

  predicate UsesSslip(route: Json) {
    Get(Get(route, "dns"), "mode") == Str("sslip")
  }

  function CanonicalRoute(route: Json): Json {
    if UsesSslip(route) then Drop(route, "host") else route
  }

  function CanonicalMiddleware(definition: Json): Json {
    if Has(definition, "profileRef") then Drop(definition, "spec") else definition
  }

  function Each(f: Json -> Json, v: Json): Json {
    if v.Arr? then Arr(seq(|v.items|, i requires 0 <= i < |v.items| => f(v.items[i]))) else v
  }

  function CanonicalField(key: string, v: Json): Json {
    if key == DELIVERY then IMAGE_ONLY
    else if key == RUNTIME then Drop(v, "configRevision")
    else if key == ROUTES then Each(CanonicalRoute, v)
    else if key == MIDDLEWARES then Each(CanonicalMiddleware, v)
    else v
  }

  function CanonicalSpec(spec: map<string, Json>): map<string, Json> {
    map key | key in spec.Keys + {DELIVERY} :: CanonicalField(key, if key in spec then spec[key] else Null)
  }

  predicate HasSpec(doc: map<string, Json>) {
    SPEC in doc && doc[SPEC].Obj?
  }

  function Canonical(doc: map<string, Json>): Option<map<string, Json>> {
    if HasSpec(doc) then Some(doc[SPEC := Obj(CanonicalSpec(doc[SPEC].fields))]) else None
  }

  method CanonicalRoutes(routes: seq<Json>) returns (r: seq<Json>)
    ensures Arr(r) == Each(CanonicalRoute, Arr(routes))
  {
    r := routes;
    for i := 0 to |routes|
      invariant |r| == |routes|
      invariant forall j | 0 <= j < i :: r[j] == CanonicalRoute(routes[j])
      invariant forall j | i <= j < |routes| :: r[j] == routes[j]
    {
      if Get(Get(r[i], "dns"), "mode") == Str("sslip") {
        r := r[i := Obj(r[i].fields - {"host"})];
      }
    }
  }

  method CanonicalMiddlewares(definitions: seq<Json>) returns (r: seq<Json>)
    ensures Arr(r) == Each(CanonicalMiddleware, Arr(definitions))
  {
    r := definitions;
    for i := 0 to |definitions|
      invariant |r| == |definitions|
      invariant forall j | 0 <= j < i :: r[j] == CanonicalMiddleware(definitions[j])
      invariant forall j | i <= j < |definitions| :: r[j] == definitions[j]
    {
      if Has(r[i], "profileRef") {
        r := r[i := Obj(r[i].fields - {"spec"})];
      }
    }
  }

  lemma DistinctFields()
    ensures DELIVERY != RUNTIME && DELIVERY != ROUTES && DELIVERY != MIDDLEWARES
    ensures RUNTIME != ROUTES && RUNTIME != MIDDLEWARES && ROUTES != MIDDLEWARES
  {
    assert |DELIVERY| == 8 && |RUNTIME| == 7 && |ROUTES| == 6 && |MIDDLEWARES| == 11;
  }

  method CanonicalAutoDeployIntent(parsed: map<string, Json>) returns (r: Option<map<string, Json>>)
    ensures r == Canonical(parsed)
  {
    if SPEC !in parsed || !parsed[SPEC].Obj? {
      return None;
    }
    DistinctFields();
    var spec := parsed[SPEC].fields;
    spec := spec[DELIVERY := IMAGE_ONLY];
    if RUNTIME in spec && spec[RUNTIME].Obj? {
      spec := spec[RUNTIME := Obj(spec[RUNTIME].fields - {"configRevision"})];
    }
    if ROUTES in spec && spec[ROUTES].Arr? {
      var routes := CanonicalRoutes(spec[ROUTES].items);
      spec := spec[ROUTES := Arr(routes)];
    }
    if MIDDLEWARES in spec && spec[MIDDLEWARES].Arr? {
      var definitions := CanonicalMiddlewares(spec[MIDDLEWARES].items);
      spec := spec[MIDDLEWARES := Arr(definitions)];
    }
    assert spec == CanonicalSpec(parsed[SPEC].fields);
    return Some(parsed[SPEC := Obj(spec)]);
  }

  // The shape check on stored intents, apart from its dependency key.

  method ValidateCanonicalIntentShape(value: map<string, Json>) returns (r: bool)
    ensures r <==> Canonical(value) == Some(value)
  {
    if SPEC !in value || !value[SPEC].Obj? {
      return false;
    }
    var spec := value[SPEC].fields;
    ShapeIsFixpoint(value);
    if DELIVERY !in spec || !spec[DELIVERY].Obj? || |spec[DELIVERY].fields| != 1
      || Get(spec[DELIVERY], "mode") != Str("image") {
      OnlyMode(spec);
      return false;
    }
    OnlyMode(spec);
    if RUNTIME in spec && Has(spec[RUNTIME], "configRevision") {
      return false;
    }
    if ROUTES in spec && spec[ROUTES].Arr? {
      var routes := spec[ROUTES].items;
      for i := 0 to |routes|
        invariant forall j | 0 <= j < i :: RouteShape(routes[j])
      {
        if Get(Get(routes[i], "dns"), "mode") == Str("sslip") && Has(routes[i], "host") {
          return false;
        }
      }
    }
    if MIDDLEWARES in spec && spec[MIDDLEWARES].Arr? {
      var definitions := spec[MIDDLEWARES].items;
      for i := 0 to |definitions|
        invariant forall j | 0 <= j < i :: MiddlewareShape(definitions[j])
      {
        if Has(definitions[i], "profileRef") && Has(definitions[i], "spec") {
          return false;
        }
      }
    }
    return true;
  }

  predicate RouteShape(route: Json) {
    !(UsesSslip(route) && Has(route, "host"))
  }

  predicate MiddlewareShape(definition: Json) {
    !(Has(definition, "profileRef") && Has(definition, "spec"))
  }

  /** What the shape check demands of one field of the spec. */
  predicate FieldShape(key: string, v: Json) {
    if key == DELIVERY then v == IMAGE_ONLY
    else if key == RUNTIME then !Has(v, "configRevision")
    else if key == ROUTES then v.Arr? ==> forall i | 0 <= i < |v.items| :: RouteShape(v.items[i])
    else if key == MIDDLEWARES then v.Arr? ==> forall i | 0 <= i < |v.items| :: MiddlewareShape(v.items[i])
    else true
  }

  lemma DropFixpoint(v: Json, key: string)
    ensures Drop(v, key) == v <==> !Has(v, key)
  {
    if v.Obj? {
      if key !in v.fields {
        assert v.fields - {key} == v.fields;
      } else {
        assert key !in v.fields - {key};
      }
    }
  }

  lemma EachFixpoint(f: Json -> Json, v: Json)
    requires v.Arr?
    ensures Each(f, v) == v <==> forall i | 0 <= i < |v.items| :: f(v.items[i]) == v.items[i]
  {
    if Each(f, v) == v {
      forall i | 0 <= i < |v.items|
        ensures f(v.items[i]) == v.items[i]
      {
        assert Each(f, v).items[i] == f(v.items[i]);
      }
    }
  }

  lemma FieldFixpoint(key: string, v: Json)
    ensures CanonicalField(key, v) == v <==> FieldShape(key, v)
  {
    if key == RUNTIME {
      DropFixpoint(v, "configRevision");
    } else if v.Arr? {
      forall i | 0 <= i < |v.items|
        ensures CanonicalRoute(v.items[i]) == v.items[i] <==> RouteShape(v.items[i])
        ensures CanonicalMiddleware(v.items[i]) == v.items[i] <==> MiddlewareShape(v.items[i])
      {
        DropFixpoint(v.items[i], "host");
        DropFixpoint(v.items[i], "spec");
      }
      EachFixpoint(CanonicalRoute, v);
      EachFixpoint(CanonicalMiddleware, v);
    }
  }

  /** The shape check accepts exactly the fixpoints of the canonicalizer. */
  lemma ShapeIsFixpoint(doc: map<string, Json>)
    ensures Canonical(doc) == Some(doc) <==>
              HasSpec(doc) && DELIVERY in doc[SPEC].fields
                && forall key | key in doc[SPEC].fields :: FieldShape(key, doc[SPEC].fields[key])
  {
    if HasSpec(doc) {
      hide FieldShape, CanonicalField;
      var spec := doc[SPEC].fields;
      forall key | key in spec
        ensures CanonicalField(key, spec[key]) == spec[key] <==> FieldShape(key, spec[key])
      {
        FieldFixpoint(key, spec[key]);
      }
      assert Canonical(doc) == Some(doc) <==> CanonicalSpec(spec) == spec by {
        assert doc[SPEC := Obj(CanonicalSpec(spec))][SPEC] == Obj(CanonicalSpec(spec));
        if CanonicalSpec(spec) == spec {
          assert doc[SPEC := Obj(spec)] == doc;
        }
      }
      assert DELIVERY in CanonicalSpec(spec);
      if CanonicalSpec(spec) == spec {
        assert forall key | key in spec :: CanonicalSpec(spec)[key] == CanonicalField(key, spec[key]);
      }
      if DELIVERY in spec && forall key | key in spec :: FieldShape(key, spec[key]) {
        assert CanonicalSpec(spec).Keys == spec.Keys;
        assert CanonicalSpec(spec) == spec;
      }
    }
  }

  /** One entry named mode with the value image is the whole delivery of an intent. */
  lemma OnlyMode(spec: map<string, Json>)
    ensures DELIVERY in spec ==>
              (spec[DELIVERY] == IMAGE_ONLY <==>
               spec[DELIVERY].Obj? && |spec[DELIVERY].fields| == 1 && Get(spec[DELIVERY], "mode") == Str("image"))
  {
    if DELIVERY in spec && spec[DELIVERY].Obj? && |spec[DELIVERY].fields| == 1
      && Get(spec[DELIVERY], "mode") == Str("image") {
      var m := spec[DELIVERY].fields;
      assert "mode" in m;
      assert m.Keys == {"mode"} by {
        if exists k :: k in m.Keys && k != "mode" {
          var k :| k in m.Keys && k != "mode";
          OneElement(m.Keys, k, "mode");
        }
      }
      assert m == map["mode" := Str("image")];
    }
  }

  lemma OneElement(s: set<string>, a: string, b: string)
    requires a in s && b in s && a != b
    ensures |s| >= 2
  {
    assert {a, b} <= s;
    assert |{a, b}| == 2;
    SubsetSize({a, b}, s);
  }

  lemma {:induction false} SubsetSize(a: set<string>, b: set<string>)
    requires a <= b
    ensures |a| <= |b|
    decreases |a|
  {
    if a != {} {
      var x :| x in a;
      SubsetSize(a - {x}, b - {x});
    }
  }

  lemma ElementShapes(x: Json)
    ensures RouteShape(CanonicalRoute(x)) && MiddlewareShape(CanonicalMiddleware(x))
  {
    if UsesSslip(x) {
      assert Has(x, "dns") && !Has(Drop(x, "host"), "host");
    }
    if Has(x, "profileRef") {
      assert !Has(Drop(x, "spec"), "spec");
    }
  }

  lemma FieldIdempotent(key: string, v: Json)
    ensures CanonicalField(key, CanonicalField(key, v)) == CanonicalField(key, v)
  {
    var w := CanonicalField(key, v);
    assert FieldShape(key, w) by {
      hide RouteShape, MiddlewareShape, CanonicalRoute, CanonicalMiddleware;
      DistinctFields();
      if v.Arr? {
        forall x
          ensures RouteShape(CanonicalRoute(x)) && MiddlewareShape(CanonicalMiddleware(x))
        {
          ElementShapes(x);
        }
      }
    }
    FieldFixpoint(key, w);
  }

  /** Canonicalizing twice is canonicalizing once: every intent passes the shape check. */
  lemma CanonicalIdempotent(doc: map<string, Json>)
    requires Canonical(doc).Some?
    ensures Canonical(Canonical(doc).value) == Canonical(doc)
  {
    hide CanonicalField;
    var spec := doc[SPEC].fields;
    var reduced := CanonicalSpec(spec);
    forall key | key in reduced
      ensures CanonicalField(key, reduced[key]) == reduced[key]
    {
      FieldIdempotent(key, if key in spec then spec[key] else Null);
    }
    assert CanonicalSpec(reduced) == reduced;
    assert doc[SPEC := Obj(reduced)][SPEC := Obj(reduced)] == doc[SPEC := Obj(reduced)];
  }

  // Parent inputs pinned beside the intent.

  datatype Dependency = Dependency(path: string, present: bool, blobID: string, contentSHA256: string)

  predicate ValidDependencies(ds: seq<Dependency>) {
    && |ds| == 2 && ds[0].path != "" && ds[1].path != "" && ds[0].path != ds[1].path
    && forall i | 0 <= i < 2 ::
         if ds[i].present then ds[i].blobID != "" && IsDigest(ds[i].contentSHA256)
         else ds[i].blobID == "" && ds[i].contentSHA256 == ""
  }

  /** Empty texts are left out of the encoding. */
  function EncodedDependency(d: Dependency): Json {
    var m := map["path" := Str(d.path), "present" := Bool(d.present)];
    var n := if d.blobID == "" then m else m["blobId" := Str(d.blobID)];
    Obj(if d.contentSHA256 == "" then n else n["contentSha256" := Str(d.contentSHA256)])
  }

  function EncodedDependencies(ds: seq<Dependency>): Json {
    Arr(seq(|ds|, i requires 0 <= i < |ds| => EncodedDependency(ds[i])))
  }

  /**
   Binding decodes the intent without keeping number texts, so `reencode` is applied to every number in it. The
   dependencies hold no numbers.
   */
  function Bound(intent: map<string, Json>, ds: seq<Dependency>, reencode: string -> string): map<string, Json> {
    Rounded(Obj(intent), reencode).fields[DEPENDENCIES := EncodedDependencies(ds)]
  }

  lemma DependencyInjective(c: Dependency, d: Dependency)
    requires EncodedDependency(c) == EncodedDependency(d)
    ensures c == d
  {
    var m, n := EncodedDependency(c).fields, EncodedDependency(d).fields;
    assert m["path"] == n["path"] && m["present"] == n["present"];
    assert "blobId" in m <==> c.blobID != "";
    assert "blobId" in n <==> d.blobID != "";
    assert c.blobID != "" ==> m["blobId"] == Str(c.blobID);
    assert d.blobID != "" ==> n["blobId"] == Str(d.blobID);
    assert "contentSha256" in m <==> c.contentSHA256 != "";
    assert "contentSha256" in n <==> d.contentSHA256 != "";
  }

  lemma DependenciesInjective(ds: seq<Dependency>, es: seq<Dependency>)
    requires EncodedDependencies(ds) == EncodedDependencies(es)
    ensures ds == es
  {
    hide EncodedDependency;
    var u, v := EncodedDependencies(ds), EncodedDependencies(es);
    assert |ds| == |u.items| && |es| == |v.items|;
    forall i | 0 <= i < |ds|
      ensures ds[i] == es[i]
    {
      assert u.items[i] == EncodedDependency(ds[i]) && v.items[i] == EncodedDependency(es[i]);
      DependencyInjective(ds[i], es[i]);
    }
  }

  /**
   Two bound intents are alike exactly when the dependencies are the same and the intents differ at most by rounding.
   */
  lemma BoundExact(x: map<string, Json>, ds: seq<Dependency>, y: map<string, Json>, es: seq<Dependency>,
      reencode: string -> string)
    requires DEPENDENCIES !in x && DEPENDENCIES !in y
    ensures Bound(x, ds, reencode) == Bound(y, es, reencode) <==>
              Rounded(Obj(x), reencode) == Rounded(Obj(y), reencode) && ds == es
  {
    var p, q := Rounded(Obj(x), reencode).fields, Rounded(Obj(y), reencode).fields;
    assert p.Keys == x.Keys && q.Keys == y.Keys;
    hide Rounded, EncodedDependencies;
    var b, c := Bound(x, ds, reencode), Bound(y, es, reencode);
    assert p == b - {DEPENDENCIES} && q == c - {DEPENDENCIES};
    assert b[DEPENDENCIES] == EncodedDependencies(ds) && c[DEPENDENCIES] == EncodedDependencies(es);
    if b == c {
      DependenciesInjective(ds, es);
    }
  }

  /**
   A bound intent determines its intent, among all intents with number texts of some kind, exactly when no number in
   it is encoded like another text of that kind.
   */
  lemma BoundDetermines(x: map<string, Json>, ds: seq<Dependency>, reencode: string -> string, among: string -> bool)
    requires DEPENDENCIES !in x && Numbers(Obj(x), among)
    ensures Alone(Obj(x), reencode, among) <==>
              forall y | && DEPENDENCIES !in y && Numbers(Obj(y), among)
                         && Bound(y, ds, reencode) == Bound(x, ds, reencode) :: y == x
  {
    hide Bound, Alone, Numbers, Rounded;
    if Alone(Obj(x), reencode, among) {
      forall y | && DEPENDENCIES !in y && Numbers(Obj(y), among)
                 && Bound(y, ds, reencode) == Bound(x, ds, reencode)
        ensures y == x
      {
        BoundExact(x, ds, y, ds, reencode);
        AloneUnique(Obj(x), Obj(y), reencode, among);
      }
    } else {
      var v := NotAlone(Obj(x), reencode, among);
      SameKeys(Obj(x), v, reencode);
      BoundExact(x, ds, v.fields, ds, reencode);
      assert v.fields != x;
    }
  }

  /**
   Among intents whose numbers are whole, a bound intent determines its intent exactly when every number in it is
   below 2^53, or between 2^53 and 2^54 and two more than a multiple of four.
   */
  lemma BoundDeterminesWhole(x: map<string, Json>, ds: seq<Dependency>, format: nat -> string, other: string -> string)
    requires DEPENDENCIES !in x && Numbers(Obj(x), IsWhole) && Separates(format)
    ensures var reencode := ThroughBinary64(format, other);
            Numbers(Obj(x), ApartText) <==>
              forall y | && DEPENDENCIES !in y && Numbers(Obj(y), IsWhole)
                         && Bound(y, ds, reencode) == Bound(x, ds, reencode) :: y == x
  {
    hide Bound, Alone, Numbers, IsWhole, ThroughBinary64, Separates;
    AloneWhole(Obj(x), format, other);
    BoundDetermines(x, ds, ThroughBinary64(format, other), IsWhole);
  }

  lemma SameKeys(x: Json, y: Json, reencode: string -> string)
    requires x.Obj? && Rounded(x, reencode) == Rounded(y, reencode)
    ensures y.Obj? && y.fields.Keys == x.fields.Keys
  {
    assert Rounded(x, reencode).fields.Keys == x.fields.Keys;
    assert y.Obj? ==> Rounded(y, reencode).fields.Keys == y.fields.Keys;
  }

  /** Two intents that differ in one whole number, 2^53 and the next, wherever it stands, are bound alike. */
  lemma LargeNumbersCollide(x: map<string, Json>, tokens: seq<string>, ds: seq<Dependency>, format: nat -> string,
      other: string -> string)
    requires DEPENDENCIES !in x && Lookup(Obj(x), tokens) == Some(Num(Decimal(TWO53)))
    ensures var r := PatchAt(Obj(x), tokens, Replace, Num(Decimal(TWO53 + 1)));
            && r.Some? && r.value.Obj? && r.value.fields != x && DEPENDENCIES !in r.value.fields
            && var reencode := ThroughBinary64(format, other);
               Bound(r.value.fields, ds, reencode) == Bound(x, ds, reencode)
  {
    var reencode := ThroughBinary64(format, other);
    NumbersCollide(format, other);
    hide Decimal, ThroughFloat, Atoi, PatchLeaf;
    RoundedReplace(Obj(x), tokens, Decimal(TWO53), Decimal(TWO53 + 1), reencode);
    var r := PatchAt(Obj(x), tokens, Replace, Num(Decimal(TWO53 + 1))).value;
    assert r.Obj?;
    assert Rounded(r, reencode).fields.Keys == r.fields.Keys && Rounded(Obj(x), reencode).fields.Keys == x.Keys;
    BoundExact(x, ds, r.fields, ds, reencode);
  }

  // Updates.

  /** The AppConfig schema check, and what the dependency binding does to a number text. */
  datatype Environment = Environment(valid: map<string, Json> -> bool, reencode: string -> string)

  datatype Refusal =
    TemplateInvalid | CurrentConfigInvalid | TemplateConflict | InvalidDocument |
    MutationFailed | RegistryPullInvalid | HostnameUnavailable

  datatype Candidate = Accepted(document: map<string, Json>) | Refused(refusal: Refusal)

  /** The position of the first `@`. */
  function Cut(image: string): nat
    ensures Cut(image) <= |image| && '@' !in image[..Cut(image)]
    ensures Cut(image) < |image| ==> image[Cut(image)] == '@'
  {
    if image == "" || image[0] == '@' then 0
    else
      assert image[..1 + Cut(image[1..])] == [image[0]] + image[1..][..Cut(image[1..])];
      1 + Cut(image[1..])
  }

  predicate IsPosixSpace(c: char) {
    c == ' ' || '\t' <= c <= '\r'
  }

  /** `^[^[:space:]@]+@sha256:[0-9a-f]{64}$` */
  predicate IsImage(image: string) {
    && 0 < Cut(image) < |image| && IsDigest(image[Cut(image) + 1..])
    && forall i | 0 <= i < Cut(image) :: !IsPosixSpace(image[i])
  }

  function ImageDelivery(image: string): Json
    requires IsImage(image)
  {
    var n := Cut(image);
    Obj(map["mode" := Str("image"),
            "release" := Obj(map["repository" := Str(image[..n]), "digest" := Str(image[n + 1..])])])
  }

  function WithSpec(doc: map<string, Json>, spec: map<string, Json>): map<string, Json> {
    doc[SPEC := Obj(spec)]
  }

  ghost predicate PinnedShape(pinned: map<string, Json>) {
    && Canonical(pinned) == Some(pinned)
    && (DEPENDENCIES in pinned ==>
       exists ds :: ValidDependencies(ds) && pinned[DEPENDENCIES] == EncodedDependencies(ds))
  }

  /** The intent of the live document, bound to the projected dependencies when there are any. */
  ghost function LiveIntent(doc: map<string, Json>, dependencies: Option<seq<Dependency>>,
      env: Environment): Option<map<string, Json>> {
    var live := Canonical(doc);
    if live == None || dependencies == None then live
    else if PinnedShape(live.value) && ValidDependencies(dependencies.value) then
      Some(Bound(live.value, dependencies.value, env.reencode))
    else None
  }

  /** Replaces the image if the live document still has the pinned intent. */
  ghost function ApplyImage(doc: map<string, Json>, pinned: map<string, Json>, image: string,
                            dependencies: Option<seq<Dependency>>, env: Environment): Candidate {
    if !PinnedShape(pinned) || !IsImage(image) then Refused(TemplateInvalid)
    else if !env.valid(doc) then Refused(CurrentConfigInvalid)
    else if LiveIntent(doc, dependencies, env) != Some(pinned) then Refused(TemplateConflict)
    else
      var changed := WithSpec(doc, doc[SPEC].fields[DELIVERY := ImageDelivery(image)]);
      if env.valid(changed) then Accepted(changed) else Refused(InvalidDocument)
  }

  datatype RegistryPull = RegistryPull(targetID: string, profileName: string, profileRevision: int)

  predicate ValidRegistryPull(p: RegistryPull) {
    IsUuid(p.targetID) && IsKubeName(p.profileName) && '.' !in p.profileName && p.profileRevision > 0
  }

  function WithRegistryPull(delivery: map<string, Json>, pull: Option<RegistryPull>): map<string, Json>
    requires pull.Some? ==> pull.value.profileRevision > 0
  {
    if pull == None then delivery - {"registryPull"}
    else delivery["registryPull" := Obj(map[
                                          "targetId" := Str(pull.value.targetID),
                                          "profileName" := Str(pull.value.profileName),
                                          "profileRevision" := Num(Decimal(pull.value.profileRevision))])]
  }

  function WithHost(route: Json, hostname: string): Json {
    if UsesSslip(route) then Obj(route.fields["host" := Str(hostname)]) else route
  }

  predicate AnySslip(routes: Json) {
    routes.Arr? && exists i :: 0 <= i < |routes.items| && UsesSslip(routes.items[i])
  }

  /** Refreshes the fields the server derives: the registry pull profile and the hosts of sslip routes. */
  function RefreshDerived(doc: map<string, Json>, pull: Option<RegistryPull>, hostname: string,
                          env: Environment): Candidate {
    if !HasSpec(doc) || DELIVERY !in doc[SPEC].fields || !doc[SPEC].fields[DELIVERY].Obj? then Refused(MutationFailed)
    else if pull.Some? && !ValidRegistryPull(pull.value) then Refused(RegistryPullInvalid)
    else
      var spec := doc[SPEC].fields;
      var delivered := spec[DELIVERY := Obj(WithRegistryPull(spec[DELIVERY].fields, pull))];
      if ROUTES !in spec then Checked(WithSpec(doc, delivered), env)
      else if AnySslip(spec[ROUTES]) && hostname == "" then Refused(HostnameUnavailable)
      else Checked(WithSpec(doc, delivered[ROUTES := Each((route: Json) => WithHost(route, hostname), spec[ROUTES])]),
        env)
  }

  function Checked(doc: map<string, Json>, env: Environment): Candidate {
    if env.valid(doc) then Accepted(doc) else Refused(InvalidDocument)
  }

  /** The loop over routes; `None` when a hostname is needed and there is none. */
  method RefreshHosts(routes: seq<Json>, hostname: string) returns (r: Option<seq<Json>>)
    ensures r == None <==> AnySslip(Arr(routes)) && hostname == ""
    ensures r.Some? ==> Arr(r.value) == Each((route: Json) => WithHost(route, hostname), Arr(routes))
  {
    var hosted := routes;
    for i := 0 to |routes|
      invariant |hosted| == |routes| && (hostname == "" ==> forall j | 0 <= j < i :: !UsesSslip(routes[j]))
      invariant forall j | 0 <= j < i :: hosted[j] == WithHost(routes[j], hostname)
      invariant forall j | i <= j < |routes| :: hosted[j] == routes[j]
    {
      if Get(Get(hosted[i], "dns"), "mode") == Str("sslip") {
        if hostname == "" {
          return None;
        }
        hosted := hosted[i := Obj(hosted[i].fields["host" := Str(hostname)])];
      }
    }
    return Some(hosted);
  }

  // Stability of the intent.

  lemma SameCanonical(doc: map<string, Json>, spec: map<string, Json>)
    requires HasSpec(doc) && spec.Keys == doc[SPEC].fields.Keys + {DELIVERY}
    requires forall key | key in doc[SPEC].fields && key != DELIVERY ::
               CanonicalField(key, spec[key]) == CanonicalField(key, doc[SPEC].fields[key])
    ensures Canonical(WithSpec(doc, spec)) == Canonical(doc)
  {
    var was := doc[SPEC].fields;
    assert CanonicalSpec(spec).Keys == CanonicalSpec(was).Keys;
    forall key | key in CanonicalSpec(was)
      ensures CanonicalSpec(spec)[key] == CanonicalSpec(was)[key]
    {
    }
    assert CanonicalSpec(spec) == CanonicalSpec(was);
    assert doc[SPEC := Obj(spec)][SPEC := Obj(CanonicalSpec(spec))] == doc[SPEC := Obj(CanonicalSpec(was))];
  }

  lemma HostForgotten(route: Json, hostname: string)
    ensures CanonicalRoute(WithHost(route, hostname)) == CanonicalRoute(route)
  {
    if UsesSslip(route) {
      var hosted := WithHost(route, hostname);
      assert Get(hosted, "dns") == Get(route, "dns");
      assert hosted.fields - {"host"} == route.fields - {"host"};
    }
  }

  lemma HostsForgotten(routes: Json, hostname: string)
    ensures Each(CanonicalRoute, Each((route: Json) => WithHost(route, hostname), routes))
            == Each(CanonicalRoute, routes)
  {
    if routes.Arr? {
      forall i | 0 <= i < |routes.items|
        ensures CanonicalRoute(WithHost(routes.items[i], hostname)) == CanonicalRoute(routes.items[i])
      {
        HostForgotten(routes.items[i], hostname);
      }
    }
  }

  datatype Update =
    | Image(image: string, dependencies: Option<seq<Dependency>>)
    | Derived(pull: Option<RegistryPull>, hostname: string)

  ghost function Updated(doc: map<string, Json>, pinned: map<string, Json>, u: Update, env: Environment): Candidate {
    match u
    case Image(image, dependencies) => ApplyImage(doc, pinned, image, dependencies, env)
    case Derived(pull, hostname) => RefreshDerived(doc, pull, hostname, env)
  }

  lemma UpdateKeepsIntent(doc: map<string, Json>, pinned: map<string, Json>, u: Update, env: Environment)
    requires Updated(doc, pinned, u, env).Accepted?
    ensures Canonical(Updated(doc, pinned, u, env).document) == Canonical(doc)
  {
    hide CanonicalSpec, IsImage, ImageDelivery, WithRegistryPull, IsUuid, IsKubeName, PinnedShape;
    DistinctFields();
    var spec := doc[SPEC].fields;
    match u {
      case Image(image, dependencies) =>
        SameCanonical(doc, spec[DELIVERY := ImageDelivery(image)]);
      case Derived(pull, hostname) =>
        var delivered := spec[DELIVERY := Obj(WithRegistryPull(spec[DELIVERY].fields, pull))];
        if ROUTES !in spec {
          SameCanonical(doc, delivered);
        } else {
          HostsForgotten(spec[ROUTES], hostname);
          SameCanonical(doc, delivered[ROUTES := Each((route: Json) => WithHost(route, hostname), spec[ROUTES])]);
        }
    }
  }

  /** The document after the first `n` updates; a refused update leaves it alone. */
  ghost function After(doc: map<string, Json>, pinned: map<string, Json>, us: seq<Update>, env: Environment, n: nat)
    : map<string, Json>
    requires n <= |us|
  {
    if n == 0 then doc
    else
      var before := After(doc, pinned, us, env, n - 1);
      var c := Updated(before, pinned, us[n - 1], env);
      if c.Accepted? then c.document else before
  }

  /** Any sequence of image updates and refreshes leaves the canonical intent unchanged. */
  lemma {:induction false} IntentStability(doc: map<string, Json>, pinned: map<string, Json>, us: seq<Update>,
                                           env: Environment, n: nat)
    requires n <= |us|
    ensures Canonical(After(doc, pinned, us, env, n)) == Canonical(doc)
  {
    if n > 0 {
      IntentStability(doc, pinned, us, env, n - 1);
      var before := After(doc, pinned, us, env, n - 1);
      if Updated(before, pinned, us[n - 1], env).Accepted? {
        UpdateKeepsIntent(before, pinned, us[n - 1], env);
      }
    }
  }

  /** So a pinned intent never goes stale: later image updates are not refused as conflicting. */
  lemma PinnedIntentNeverConflicts(doc: map<string, Json>, pinned: map<string, Json>, us: seq<Update>,
                                   env: Environment, n: nat, image: string, dependencies: Option<seq<Dependency>>)
    requires n <= |us| && LiveIntent(doc, dependencies, env) == Some(pinned)
    ensures ApplyImage(After(doc, pinned, us, env, n), pinned, image, dependencies, env) != Refused(TemplateConflict)
  {
    IntentStability(doc, pinned, us, env, n);
  }

  /** An accepted image update names the image and changes nothing outside the delivery. */
  lemma ImageUpdateIsLocal(doc: map<string, Json>, pinned: map<string, Json>, image: string,
                           dependencies: Option<seq<Dependency>>, env: Environment)
    requires ApplyImage(doc, pinned, image, dependencies, env).Accepted?
    ensures var changed := ApplyImage(doc, pinned, image, dependencies, env).document;
            && AgreeOutside(Obj(doc), Obj(changed), [[SPEC, DELIVERY]])
            && env.valid(changed)
            && var release := Get(Node(Obj(changed), [SPEC, DELIVERY]), "release");
               && Get(release, "repository").Str? && Get(release, "digest").Str?
               && Get(release, "repository").text + "@" + Get(release, "digest").text == image
  {
    hide CanonicalSpec, PinnedShape, IsDigest;
    var changed := ApplyImage(doc, pinned, image, dependencies, env).document;
    DeliveryOnly(doc, ImageDelivery(image));
    assert [SPEC, DELIVERY][1..] == [DELIVERY] && [DELIVERY][1..] == [];
    assert Node(changed[SPEC], [DELIVERY]) == ImageDelivery(image);
    assert Node(Obj(changed), [SPEC, DELIVERY]) == ImageDelivery(image);
    assert image == image[..Cut(image)] + "@" + image[Cut(image) + 1..];
  }

  lemma DeliveryOnly(doc: map<string, Json>, delivery: Json)
    requires HasSpec(doc)
    ensures AgreeOutside(Obj(doc), Obj(WithSpec(doc, doc[SPEC].fields[DELIVERY := delivery])), [[SPEC, DELIVERY]])
  {
    var changed := WithSpec(doc, doc[SPEC].fields[DELIVERY := delivery]);
    var roots := [[SPEC, DELIVERY]];
    forall place
      ensures Under(place, roots) || SameNode(Node(Obj(doc), place), Node(Obj(changed), place))
    {
      if |place| >= 2 && place[0] == SPEC && place[1] == DELIVERY {
        assert roots[0] <= place;
      } else if |place| >= 1 && place[0] == SPEC {
        assert |place| >= 2 ==> place[1..][0] == place[1];
      }
    }
  }
}
