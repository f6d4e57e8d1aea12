/** The editable subtrees of an AppConfig, and what accepting an edit means for them. */
module EditableFields {
  import opened Identifiers
  import opened JsonPointer
  import opened JsonPatch
  import opened JsonDiff

  const RUNTIME_FIELDS: seq<string> := [
    "workloadType", "replicas", "strategy", "podManagementPolicy", "ports", "env", "resources", "nodeSelector",
    "affinity", "topologySpreadConstraints", "tolerations", "priorityClassName", "probes", "command", "args",
    "workingDirectory", "terminationGracePeriodSeconds"]

  const SPEC_FIELDS: seq<string> := ["routes", "middlewares", "overrides"]

  function EditablePointers(): seq<string> {
    seq(17, i requires 0 <= i < 17 => "/" + "spec" + "/" + "runtime" + "/" + RUNTIME_FIELDS[i])
    + seq(3, i requires 0 <= i < 3 => "/" + "spec" + "/" + SPEC_FIELDS[i])
  }

  function EditableRoots(): seq<seq<string>> {
    seq(17, i requires 0 <= i < 17 => ["spec", "runtime", RUNTIME_FIELDS[i]])
    + seq(3, i requires 0 <= i < 3 => ["spec", SPEC_FIELDS[i]])
  }

  // Letters print as themselves.

  predicate Plain(token: string) {
    forall i | 0 <= i < |token| :: IsLowerLetter(token[i]) || IsUpperLetter(token[i])
  }

  lemma {:induction false} PlainEscape(token: string)
    requires Plain(token)
    ensures Escape(token) == token
  {
    if token != "" {
      EscapeStep(token);
      assert Plain(token[1..]);
      PlainEscape(token[1..]);
      assert token == [token[0]] + token[1..];
    }
  }

  lemma PrintTwo(a: string, b: string)
    requires Plain(a) && Plain(b)
    ensures Print([a, b]) == "/" + a + "/" + b
  {
    PlainEscape(a);
    PlainEscape(b);
    hide Escape, Plain, Print;
    PrintChild([], a);
    PrintChild([a], b);
    EmptyPrint();
    assert [] + [a] == [a] && [a] + [b] == [a, b];
    assert "" + "/" + a == "/" + a;
  }

  lemma EmptyPrint()
    ensures Print([]) == ""
  {
  }

  lemma PrintThree(a: string, b: string, c: string)
    requires Plain(a) && Plain(b) && Plain(c)
    ensures Print([a, b, c]) == "/" + a + "/" + b + "/" + c
  {
    PlainEscape(c);
    hide Escape, Plain, Print;
    PrintTwo(a, b);
    PrintChild([a, b], c);
    assert [a, b] + [c] == [a, b, c];
  }

  lemma PlainSpec()
    ensures Plain("spec") && Plain("runtime") && Plain("routes") && Plain("middlewares") && Plain("overrides")
  {
  }

  lemma PlainRuntimeA()
    ensures Plain("workloadType") && Plain("replicas") && Plain("strategy") && Plain("podManagementPolicy")
            && Plain("ports") && Plain("env")
  {
  }

  lemma PlainRuntimeB()
    ensures Plain("resources") && Plain("nodeSelector") && Plain("affinity") && Plain("topologySpreadConstraints")
            && Plain("tolerations")
  {
  }

  lemma PlainRuntimeC()
    ensures Plain("priorityClassName") && Plain("probes") && Plain("command") && Plain("args")
  {
  }

  lemma PlainRuntimeD()
    ensures Plain("workingDirectory") && Plain("terminationGracePeriodSeconds")
  {
  }

  lemma PlainFields()
    ensures forall i | 0 <= i < 17 :: Plain(RUNTIME_FIELDS[i])
    ensures forall i | 0 <= i < 3 :: Plain(SPEC_FIELDS[i])
  {
    hide Plain;
    PlainSpec();
    PlainRuntimeA();
    PlainRuntimeB();
    PlainRuntimeC();
    PlainRuntimeD();
  }

  /** The listed pointers are the printed editable subtrees. */
  lemma PointersArePrinted()
    ensures Roots(EditableRoots()) && |EditablePointers()| == |EditableRoots()| == 20
    ensures forall i | 0 <= i < 20 :: EditablePointers()[i] == Print(EditableRoots()[i])
  {
    hide Print, Plain;
    PlainFields();
    PlainSpec();
    forall i | 0 <= i < 20
      ensures EditablePointers()[i] == Print(EditableRoots()[i])
    {
      if i < 17 {
        PrintThree("spec", "runtime", RUNTIME_FIELDS[i]);
      } else {
        PrintTwo("spec", SPEC_FIELDS[i - 17]);
      }
    }
  }

  /** The exact meaning of the check for the AppConfig's own editable subtrees. */
  lemma AcceptedEdit(before: Json, after: Json)
    ensures AgreeOutside(before, after, EditableRoots()) ==> Accepted(before, after, EditablePointers())
    ensures |Walk([], before, after)| <= MAX_CHANGES ==>
              (Accepted(before, after, EditablePointers()) <==> AgreeOutside(before, after, EditableRoots()))
    ensures Accepted(before, after, EditablePointers()) && !AgreeOutside(before, after, EditableRoots())
            <==> HidesLocked(Walk([], before, after), EditableRoots())
  {
    hide Print, Walk, Accepted, AgreeOutside, EditablePointers, EditableRoots, HidesLocked;
    PointersArePrinted();
    LockedFieldSoundness(before, after, EditableRoots(), EditablePointers());
  }

  lemma ProjectIsLocked()
    ensures ["spec", "overrides"] in EditableRoots() && !Under(["spec", "projectId"], EditableRoots())
  {
    var roots := EditableRoots();
    assert roots[19] == ["spec", "overrides"];
    forall i | 0 <= i < |roots|
      ensures !(roots[i] <= ["spec", "projectId"])
    {
      if i < 17 {
        assert |roots[i]| == 3;
      } else {
        assert roots[i][1] == SPEC_FIELDS[i - 17];
        assert |"routes"| == 6 && |"middlewares"| == 11 && "overrides"[0] == 'o' && "projectId"[0] == 'p'
          && |"projectId"| == 9;
      }
    }
  }

  /** The names on the way to the two metadata maps of a deployment override, and to a locked field beside it. */
  datatype Names = Names(
    spec: string, overrides: string, deployment: string, metadata: string, annotations: string, labels: string,
    project: string)

  /** The fields of a config that an edit leaves alone, level by level. */
  datatype Rest = Rest(
    top: map<string, Json>, spec: map<string, Json>, overrides: map<string, Json>, deployment: map<string, Json>,
    metadata: map<string, Json>)

  function Metadata(n: Names, r: Rest, annotations: map<string, Json>, labels: map<string, Json>): Json {
    Obj(r.metadata[n.annotations := Obj(annotations)][n.labels := Obj(labels)])
  }

  function Overrides(n: Names, r: Rest, metadata: Json): Json {
    Obj(r.overrides[n.deployment := Obj(r.deployment[n.metadata := metadata])])
  }

  function Spec(n: Names, r: Rest, overrides: Json, project: string): Json {
    Obj(r.spec[n.overrides := overrides][n.project := Str(project)])
  }

  function Config(n: Names, r: Rest, overrides: Json, project: string): Json {
    Obj(r.top[n.spec := Spec(n, r, overrides, project)])
  }

  predicate Sorted(n: Names) {
    StringLess(n.annotations, n.labels) && StringLess(n.overrides, n.project)
  }

  lemma MetadataWalk(path: seq<string>, n: Names, r: Rest, annotations: map<string, Json>, labels: map<string, Json>)
    requires Sorted(n) && (forall k | k in annotations :: annotations[k] != Null)
             && forall k | k in labels :: labels[k] != Null
    ensures var places := Walk(path, Metadata(n, r, map[], map[]), Metadata(n, r, annotations, labels));
            |places| == |annotations| + |labels| && forall i | 0 <= i < |places| :: path <= places[i]
  {
    StringLessAsymmetric(n.annotations, n.labels);
    hide Walk, StringLess;
    FreshWalk(path + [n.annotations], annotations);
    FreshWalk(path + [n.labels], labels);
    WalkAtTwo(path, Metadata(n, r, map[], map[]), Metadata(n, r, annotations, labels), n.annotations, n.labels);
    hide Metadata;
    var p := Walk(path + [n.annotations], Obj(map[]), Obj(annotations));
    var q := Walk(path + [n.labels], Obj(map[]), Obj(labels));
    Below(path, n.annotations, p);
    Below(path, n.labels, q);
  }

  lemma Below(path: seq<string>, a: string, places: seq<seq<string>>)
    requires forall i | 0 <= i < |places| :: path + [a] <= places[i]
    ensures forall i | 0 <= i < |places| :: path <= places[i]
  {
    forall i | 0 <= i < |places|
      ensures path <= places[i]
    {
      assert path <= path + [a];
    }
  }

  lemma OverridesWalk(path: seq<string>, n: Names, r: Rest, m: Json, m': Json)
    ensures Walk(path, Overrides(n, r, m), Overrides(n, r, m')) == Walk(path + [n.deployment] + [n.metadata], m, m')
  {
    hide Walk;
    WalkAt(path, Overrides(n, r, m), Overrides(n, r, m'), n.deployment);
    WalkAt(path + [n.deployment], Obj(r.deployment[n.metadata := m]), Obj(r.deployment[n.metadata := m']), n.metadata);
  }

  lemma SpecWalk(n: Names, r: Rest, o: Json, o': Json, x: string, y: string)
    requires Sorted(n) && x != y
    ensures Walk([n.spec], Spec(n, r, o, x), Spec(n, r, o', y))
            == Walk([n.spec, n.overrides], o, o') + [[n.spec, n.project]]
  {
    StringLessAsymmetric(n.overrides, n.project);
    hide Walk, StringLess;
    WalkAtTwo([n.spec], Spec(n, r, o, x), Spec(n, r, o', y), n.overrides, n.project);
    assert [n.spec] + [n.overrides] == [n.spec, n.overrides] && [n.spec] + [n.project] == [n.spec, n.project];
    TextWalk([n.spec, n.project], x, y);
  }

  lemma ConfigWalk(n: Names, r: Rest, o: Json, o': Json, x: string, y: string)
    requires Sorted(n) && x != y
    ensures Walk([], Config(n, r, o, x), Config(n, r, o', y))
            == Walk([n.spec, n.overrides], o, o') + [[n.spec, n.project]]
  {
    hide Walk, StringLess;
    WalkAt([], Config(n, r, o, x), Config(n, r, o', y), n.spec);
    assert [] + [n.spec] == [n.spec];
    SpecWalk(n, r, o, o', x, y);
  }

  function AppConfigNames(): Names {
    Names("spec", "overrides", "deployment", "metadata", "annotations", "labels", "projectId")
  }

  lemma NamesSorted()
    ensures Sorted(AppConfigNames())
  {
    assert "overrides"[0] == 'o' && "projectId"[0] == 'p' && "annotations"[0] == 'a' && "labels"[0] == 'l';
  }

  /**
   Beyond the cap: whatever else a config holds, an edit that adds enough annotations and labels to a deployment
   override passes the check although it also changes the project.
   */
  lemma CappedEdit(r: Rest, annotations: map<string, Json>, labels: map<string, Json>, x: string, y: string)
    requires (forall k | k in annotations :: annotations[k] != Null) && forall k | k in labels :: labels[k] != Null
    requires x != y && |annotations| + |labels| >= MAX_CHANGES
    ensures var n := AppConfigNames();
            var before := Config(n, r, Overrides(n, r, Metadata(n, r, map[], map[])), x);
            var after := Config(n, r, Overrides(n, r, Metadata(n, r, annotations, labels)), y);
            Accepted(before, after, EditablePointers()) && !AgreeOutside(before, after, EditableRoots())
  {
    NamesSorted();
    ProjectIsLocked();
    var n := AppConfigNames();
    assert [n.spec, n.overrides] == ["spec", "overrides"] && [n.spec, n.project] == ["spec", "projectId"];
    hide *;
    var before := Config(n, r, Overrides(n, r, Metadata(n, r, map[], map[])), x);
    var after := Config(n, r, Overrides(n, r, Metadata(n, r, annotations, labels)), y);
    CappedWalk(n, r, annotations, labels, x, y, EditableRoots());
    AcceptedEdit(before, after);
  }

  lemma CappedWalk(n: Names, r: Rest, annotations: map<string, Json>, labels: map<string, Json>, x: string, y: string,
                   roots: seq<seq<string>>)
    requires Sorted(n) && x != y && |annotations| + |labels| >= MAX_CHANGES
    requires (forall k | k in annotations :: annotations[k] != Null) && forall k | k in labels :: labels[k] != Null
    requires [n.spec, n.overrides] in roots && !Under([n.spec, n.project], roots)
    ensures var before := Config(n, r, Overrides(n, r, Metadata(n, r, map[], map[])), x);
            var after := Config(n, r, Overrides(n, r, Metadata(n, r, annotations, labels)), y);
            HidesLocked(Walk([], before, after), roots)
  {
    hide Walk, Sorted, Metadata, Overrides, Config, Under, HidesLocked;
    var m, m' := Metadata(n, r, map[], map[]), Metadata(n, r, annotations, labels);
    var path := [n.spec, n.overrides];
    ConfigWalk(n, r, Overrides(n, r, m), Overrides(n, r, m'), x, y);
    OverridesWalk(path, n, r, m, m');
    MetadataWalk(path + [n.deployment] + [n.metadata], n, r, annotations, labels);
    CappedPlaces(Walk(path + [n.deployment] + [n.metadata], m, m') + [[n.spec, n.project]], |annotations| + |labels|, n,
      roots);
  }

  lemma CappedPlaces(places: seq<seq<string>>, count: nat, n: Names, roots: seq<seq<string>>)
    requires |places| == count + 1 && count >= MAX_CHANGES && places[count] == [n.spec, n.project]
    requires forall i | 0 <= i < count :: [n.spec, n.overrides] + [n.deployment] + [n.metadata] <= places[i]
    requires [n.spec, n.overrides] in roots && !Under([n.spec, n.project], roots)
    ensures HidesLocked(places, roots)
  {
    var r :| 0 <= r < |roots| && roots[r] == [n.spec, n.overrides];
    forall i | 0 <= i < count
      ensures Under(places[i], roots)
    {
      var long := [n.spec, n.overrides] + [n.deployment] + [n.metadata];
      assert long[..2] == roots[r] && long <= places[i];
      assert roots[r] <= places[i];
    }
  }
}
