/** Tutorial 4's application: the scene loaded from records, with load-once
    caches of models and shader programs keyed by name, and the per-frame
    update and draw over the std::map of objects, which iterates in key
    order. */
module Scene {
  import opened Affine
  import opened Input
  import opened Camera

  datatype Option<T> = None | Some(value: T)

  // ---------------------------------------------------------------- key order

  /** std::string's operator<: the first differing character decides, and a
      proper prefix comes first. */
  predicate Less(a: string, b: string)
    decreases |a|
  {
    if |a| == 0 then |b| > 0
    else if |b| == 0 then false
    else if a[0] != b[0] then a[0] < b[0]
    else Less(a[1..], b[1..])
  }

  lemma {:induction false} LessIrreflexive(a: string)
    ensures !Less(a, a)
    decreases |a|
  {
    if |a| > 0 {
      LessIrreflexive(a[1..]);
    }
  }

  lemma {:induction false} LessTransitive(a: string, b: string, c: string)
    requires Less(a, b) && Less(b, c)
    ensures Less(a, c)
    decreases |a|
  {
    if |a| > 0 && a[0] == b[0] && b[0] == c[0] {
      LessTransitive(a[1..], b[1..], c[1..]);
    }
  }

  /** Any two different strings are ordered one way or the other. */
  lemma {:induction false} LessTotal(a: string, b: string)
    requires a != b
    ensures Less(a, b) || Less(b, a)
    decreases |a|
  {
    if |a| > 0 && |b| > 0 && a[0] == b[0] {
      assert a == [a[0]] + a[1..] && b == [b[0]] + b[1..];
      LessTotal(a[1..], b[1..]);
    }
  }

  predicate StrictlyIncreasing(ks: seq<string>) {
    forall i, j :: 0 <= i < j < |ks| ==> Less(ks[i], ks[j])
  }

  /** Keys in increasing order are distinct. */
  lemma IncreasingDistinct(ks: seq<string>)
    requires StrictlyIncreasing(ks)
    ensures forall i, j :: 0 <= i < j < |ks| ==> ks[i] != ks[j]
  {
    forall i, j | 0 <= i < j < |ks|
      ensures ks[i] != ks[j]
    {
      LessIrreflexive(ks[i]);
    }
  }

  /** The smallest key of a non-empty set. */
  method Least(s: set<string>) returns (m: string)
    requires s != {}
    ensures m in s && forall x :: x in s && x != m ==> Less(m, x)
  {
    m :| m in s;
    var rest := s - {m};
    while rest != {}
      invariant m in s && rest <= s
      invariant forall x :: x in s - rest && x != m ==> Less(m, x)
      decreases |rest|
    {
      var x :| x in rest;
      if Less(x, m) {
        forall y | y in s - rest && y != x
          ensures Less(x, y)
        {
          if y != m {
            LessTransitive(x, m, y);
          }
        }
        m := x;
      } else if x != m {
        LessTotal(x, m);
      }
      rest := rest - {x};
    }
  }

  /** The keys of a map in the order std::map iterates them. */
  method SortedKeys(s: set<string>) returns (ks: seq<string>)
    ensures StrictlyIncreasing(ks)
    ensures |ks| == |s| && forall k :: k in ks <==> k in s
  {
    ks := [];
    var rest := s;
    while rest != {}
      invariant rest <= s && |ks| + |rest| == |s|
      invariant StrictlyIncreasing(ks)
      invariant forall k :: k in ks <==> k in s - rest
      invariant forall i, y :: 0 <= i < |ks| && y in rest ==> Less(ks[i], y)
      decreases |rest|
    {
      var m := Least(rest);
      ks := ks + [m];
      rest := rest - {m};
    }
  }

  // ---------------------------------------------------------------- meshes

  datatype Primitive = Triangles | TriangleFan

  /** A line of a mesh file after the leading name line: its prefix
      character, and its remaining fields as read as floats and as read as
      GLushort. The loader uses the reading its prefix calls for. */
  datatype MeshLine = MeshLine(prefix: char, coords: seq<real>, indices: seq<nat>)

  /** A loaded model. The primitive type is None when no `t` or `f` line set
      it. */
  datatype Model = Model(primitive: Option<Primitive>, primitiveCnt: nat, drawCnt: nat,
                         posVtx: seq<real>, indices: seq<nat>)

  /** The vertex coordinates of the `v` lines, in file order. */
  function Vertices(lines: seq<MeshLine>): seq<real> {
    if lines == [] then []
    else Vertices(lines[..|lines| - 1])
         + (if lines[|lines| - 1].prefix == 'v' then lines[|lines| - 1].coords else [])
  }

  predicate IsIndexLine(l: MeshLine) { l.prefix == 't' || l.prefix == 'f' }

  /** The indices of the `t` and `f` lines, in file order. */
  function Indices(lines: seq<MeshLine>): seq<nat> {
    if lines == [] then []
    else Indices(lines[..|lines| - 1])
         + (if IsIndexLine(lines[|lines| - 1]) then lines[|lines| - 1].indices else [])
  }

  function PrimitiveOf(l: MeshLine): Primitive
    requires IsIndexLine(l)
  {
    if l.prefix == 't' then Triangles else TriangleFan
  }

  /** The primitive type the last `t` or `f` line sets. */
  function LastPrimitive(lines: seq<MeshLine>): Option<Primitive> {
    if lines == [] then None
    else if IsIndexLine(lines[|lines| - 1]) then Some(PrimitiveOf(lines[|lines| - 1]))
    else LastPrimitive(lines[..|lines| - 1])
  }

  function MeshModel(lines: seq<MeshLine>): Model {
    var idx := Indices(lines);
    Model(LastPrimitive(lines), |idx|, |idx|, Vertices(lines), idx)
  }

  /** The mesh part of init_scene: dispatch each line on its prefix. */
  method LoadMesh(lines: seq<MeshLine>) returns (m: Model)
    ensures m == MeshModel(lines)
  {
    var posVtx: seq<real> := [];
    var triPrimitives: seq<nat> := [];
    var primitive: Option<Primitive> := None;
    for i := 0 to |lines|
      invariant posVtx == Vertices(lines[..i])
      invariant triPrimitives == Indices(lines[..i])
      invariant primitive == LastPrimitive(lines[..i])
    {
      assert lines[..i + 1][..i] == lines[..i];
      var line := lines[i];
      if line.prefix == 'v' {
        posVtx := posVtx + line.coords;
      }
      if line.prefix == 't' {
        triPrimitives := triPrimitives + line.indices;
        primitive := Some(Triangles);
      }
      if line.prefix == 'f' {
        triPrimitives := triPrimitives + line.indices;
        primitive := Some(TriangleFan);
      }
    }
    assert lines[..|lines|] == lines;
    m := Model(primitive, |triPrimitives|, |triPrimitives|, posVtx, triPrimitives);
  }

  /** Indices of consecutive parts of a file follow each other: the index
      buffer keeps file order. */
  lemma {:induction false} IndicesAppend(a: seq<MeshLine>, b: seq<MeshLine>)
    ensures Indices(a + b) == Indices(a) + Indices(b)
    decreases |b|
  {
    if b == [] {
      assert a + b == a;
    } else {
      var b' := b[..|b| - 1];
      assert (a + b)[..|a + b| - 1] == a + b';
      IndicesAppend(a, b');
    }
  }

  /** The primitive type is the one set by the last `t` or `f` line, and none
      is set when there is no such line. */
  lemma {:induction false} LastPrimitiveIsLast(lines: seq<MeshLine>, k: nat)
    requires k < |lines| && IsIndexLine(lines[k])
    requires forall j :: k < j < |lines| ==> !IsIndexLine(lines[j])
    ensures LastPrimitive(lines) == Some(PrimitiveOf(lines[k]))
    decreases |lines|
  {
    if k < |lines| - 1 {
      LastPrimitiveIsLast(lines[..|lines| - 1], k);
    }
  }

  lemma {:induction false} NoIndexLinesNoPrimitive(lines: seq<MeshLine>)
    requires forall j :: 0 <= j < |lines| ==> !IsIndexLine(lines[j])
    ensures LastPrimitive(lines) == None && Indices(lines) == []
    decreases |lines|
  {
    if lines != [] {
      NoIndexLinesNoPrimitive(lines[..|lines| - 1]);
    }
  }

  /** Both counts of a loaded model are its number of indices. */
  lemma MeshCounts(lines: seq<MeshLine>)
    ensures MeshModel(lines).drawCnt == MeshModel(lines).primitiveCnt == |MeshModel(lines).indices|
  {
  }

  // ---------------------------------------------------------------- scene records

  /** The seven lines one object takes in a scene file, as read: model name,
      object name, shader program and its two files, colour, scaling,
      orientation in degrees (angle and angular speed), position. */
  datatype ObjectRecord = ObjectRecord(modelName: string, objectName: string,
                                       shaderProgram: string, vertexShader: string, fragmentShader: string,
                                       color: Vec3, scaling: Vec2, orientationDeg: Vec2, position: Vec2)

  /** The degree-to-radian factor the loader uses. */
  const DegreeFactor: real := 3.1425 / 180.0

  /** A shader program, named by the files it is built from. */
  datatype ShaderProgram = ShaderProgram(vertexShader: string, fragmentShader: string)

  function ProgramOf(r: ObjectRecord): ShaderProgram {
    ShaderProgram(r.vertexShader, r.fragmentShader)
  }

  predicate NamesProgram(rs: seq<ObjectRecord>, p: string) {
    exists j :: 0 <= j < |rs| && rs[j].shaderProgram == p
  }

  /** The program cached under name p once the records `rs` are read: the
      records after the first one naming p find it cached. */
  function FirstProgram(rs: seq<ObjectRecord>, p: string): ShaderProgram
    requires NamesProgram(rs, p)
  {
    var init := rs[..|rs| - 1];
    if NamesProgram(init, p) then FirstProgram(init, p)
    else ProgramOf(rs[|rs| - 1])
  }

  /** The cached program is the one of the first record that names p. */
  lemma {:induction false} FirstProgramIsFirst(rs: seq<ObjectRecord>, p: string, k: nat)
    requires k < |rs| && rs[k].shaderProgram == p
    requires forall j :: 0 <= j < k ==> rs[j].shaderProgram != p
    ensures FirstProgram(rs, p) == ProgramOf(rs[k])
    decreases |rs|
  {
    var init := rs[..|rs| - 1];
    if k < |rs| - 1 {
      assert init[k] == rs[k];
      FirstProgramIsFirst(init, p, k);
    } else {
      assert !NamesProgram(init, p);
    }
  }

  predicate NamesObject(rs: seq<ObjectRecord>, n: string) {
    exists j :: 0 <= j < |rs| && rs[j].objectName == n
  }

  /** The record an object name ends up with: the last one that names it. */
  function LastRecord(rs: seq<ObjectRecord>, n: string): (r: ObjectRecord)
    requires NamesObject(rs, n)
    ensures r in rs && r.objectName == n
  {
    if rs[|rs| - 1].objectName == n then rs[|rs| - 1]
    else
      assert NamesObject(rs[..|rs| - 1], n) by {
        var j :| 0 <= j < |rs| && rs[j].objectName == n;
        assert rs[..|rs| - 1][j].objectName == n;
      }
      LastRecord(rs[..|rs| - 1], n)
  }

  /** A later record with the same object name replaces the earlier one: the
      record that wins is followed by none with its name. */
  lemma {:induction false} LastRecordWins(rs: seq<ObjectRecord>, n: string, k: nat)
    requires k < |rs| && rs[k].objectName == n
    requires forall j :: k < j < |rs| ==> rs[j].objectName != n
    ensures LastRecord(rs, n) == rs[k]
    decreases |rs|
  {
    if k < |rs| - 1 {
      assert rs[..|rs| - 1][k] == rs[k];
      LastRecordWins(rs[..|rs| - 1], n, k);
    }
  }

  /** Record i adds its own object name to those named so far, as the last
      record of that name, and leaves the others as they were. */
  lemma NamesObjectStep(records: seq<ObjectRecord>, i: nat)
    requires i < |records|
    ensures NamesObject(records[..i + 1], records[i].objectName)
    ensures LastRecord(records[..i + 1], records[i].objectName) == records[i]
    ensures forall n :: n != records[i].objectName ==>
              (NamesObject(records[..i + 1], n) <==> NamesObject(records[..i], n))
    ensures forall n :: n != records[i].objectName && NamesObject(records[..i], n) ==>
              LastRecord(records[..i + 1], n) == LastRecord(records[..i], n)
  {
    var done := records[..i + 1];
    assert done[i] == records[i] && done[..i] == records[..i];
    forall n | n != records[i].objectName
      ensures NamesObject(done, n) <==> NamesObject(records[..i], n)
    {
      if NamesObject(done, n) {
        var j :| 0 <= j < |done| && done[j].objectName == n;
        assert records[..i][j].objectName == n;
      }
      if NamesObject(records[..i], n) {
        var j :| 0 <= j < i && records[..i][j].objectName == n;
        assert done[j].objectName == n;
      }
    }
  }

  /** The object a record describes, with its orientation in radians. */
  predicate Describes(o: GLObject, r: ObjectRecord)
    reads o
  {
    o.orientation == Vec2(r.orientationDeg.x * DegreeFactor, r.orientationDeg.y * DegreeFactor)
    && o.position == r.position && o.scaling == r.scaling && o.color == r.color
    && o.mdlRef == r.modelName && o.shdRef == r.shaderProgram
  }

  /** The object map after the records `done`, starting from `o0`: every
      named object is as the last record naming it describes, the objects no
      record names are kept, and nothing else is in the map. */
  ghost predicate StoredObjects(objects: map<string, GLObject>, o0: map<string, GLObject>,
                                done: seq<ObjectRecord>)
    reads objects.Values
  {
    (forall n :: n in objects && NamesObject(done, n) ==> Describes(objects[n], LastRecord(done, n)))
    && (forall n :: n in o0 && !NamesObject(done, n) ==> n in objects && objects[n] == o0[n])
    && (forall n :: n in objects <==> n in o0 || NamesObject(done, n))
  }

  /** Storing record i's object under its name extends the stored map from
      the first i records to the first i + 1. */
  lemma StoreStep(objects: map<string, GLObject>, o0: map<string, GLObject>,
                  records: seq<ObjectRecord>, i: nat, obj: GLObject)
    requires i < |records| && StoredObjects(objects, o0, records[..i])
    requires Describes(obj, records[i])
    ensures StoredObjects(objects[records[i].objectName := obj], o0, records[..i + 1])
  {
    var r := records[i];
    var after := objects[r.objectName := obj];
    NamesObjectStep(records, i);
    forall n | n in after && NamesObject(records[..i + 1], n)
      ensures Describes(after[n], LastRecord(records[..i + 1], n))
    {
      if n != r.objectName {
        assert NamesObject(records[..i], n);
      }
    }
    forall n | n in o0 && !NamesObject(records[..i + 1], n)
      ensures n in after && after[n] == o0[n]
    {
      assert n != r.objectName && !NamesObject(records[..i], n);
    }
    forall n
      ensures n in after <==> n in o0 || NamesObject(records[..i + 1], n)
    {
      if n != r.objectName {
        assert NamesObject(records[..i + 1], n) <==> NamesObject(records[..i], n);
      }
    }
  }

  /** The model cache after the records `done`, starting from `m0`:
      every record's model is cached, the models cached before are kept,
      and `meshLoads` lists each model loaded from its mesh file, once. */
  ghost predicate ModelsCached(models: map<string, Model>, m0: map<string, Model>, meshLoads: seq<string>,
                               meshFiles: map<string, seq<MeshLine>>, done: seq<ObjectRecord>)
  {
    (forall j :: 0 <= j < |done| ==> done[j].modelName in models)
    && (forall n :: n in m0 ==> n in models && models[n] == m0[n])
    && (forall i, j :: 0 <= i < j < |meshLoads| ==> meshLoads[i] != meshLoads[j])
    && (forall n :: n in meshLoads <==> n in models && n !in m0)
    && (forall n :: n in meshLoads ==> n in meshFiles && models[n] == MeshModel(meshFiles[n]))
  }

  /** The shader cache after the records `done`, starting from `s0`: every
      record's program is cached, the programs cached before are kept, and
      `shaderBuilds` lists each program built, once, from the first record
      that names it. */
  ghost predicate ShadersCached(shdrpgms: map<string, ShaderProgram>, s0: map<string, ShaderProgram>,
                                shaderBuilds: seq<string>, done: seq<ObjectRecord>)
  {
    (forall j :: 0 <= j < |done| ==> done[j].shaderProgram in shdrpgms)
    && (forall n :: n in s0 ==> n in shdrpgms && shdrpgms[n] == s0[n])
    && (forall i, j :: 0 <= i < j < |shaderBuilds| ==> shaderBuilds[i] != shaderBuilds[j])
    && (forall n :: n in shaderBuilds <==> n in shdrpgms && n !in s0)
    && (forall p :: p in shaderBuilds ==> NamesProgram(done, p) && shdrpgms[p] == FirstProgram(done, p))
  }

  /** Once every record's model is cached, each was cached before or has a
      mesh file. */
  lemma ModelsFound(models: map<string, Model>, m0: map<string, Model>, meshLoads: seq<string>,
                    meshFiles: map<string, seq<MeshLine>>, done: seq<ObjectRecord>)
    requires ModelsCached(models, m0, meshLoads, meshFiles, done)
    ensures forall j :: 0 <= j < |done| ==> done[j].modelName in m0 || done[j].modelName in meshFiles
  {
    forall j | 0 <= j < |done|
      ensures done[j].modelName in m0 || done[j].modelName in meshFiles
    {
      if done[j].modelName !in m0 {
        assert done[j].modelName in meshLoads;
      }
    }
  }

  /** Reading record i keeps the model cache as ModelsCached describes it:
      its model is loaded from its mesh file only when its name is not
      cached. */
  lemma ModelCacheStep(records: seq<ObjectRecord>, i: nat, before: map<string, Model>,
                       m0: map<string, Model>, meshLoads: seq<string>,
                       meshFiles: map<string, seq<MeshLine>>,
                       after: map<string, Model>, loads: seq<string>)
    requires i < |records| && ModelsCached(before, m0, meshLoads, meshFiles, records[..i])
    requires var n := records[i].modelName;
             if n in before then after == before && loads == meshLoads
             else n in meshFiles && after == before[n := MeshModel(meshFiles[n])] && loads == meshLoads + [n]
    ensures ModelsCached(after, m0, loads, meshFiles, records[..i + 1])
  {
    var done := records[..i + 1];
    assert done[i].modelName == records[i].modelName;
    forall j | 0 <= j < |done|
      ensures done[j].modelName in after
    {
      if j < i {
        assert done[j] == records[..i][j];
      }
    }
    assert forall i1, j1 :: 0 <= i1 < j1 < |loads| ==> loads[i1] != loads[j1];
    assert forall n :: n in loads <==> n in after && n !in m0;
  }

  /** Reading record i keeps the shader cache as ShadersCached describes
      it: its program is added only when its name is not cached. */
  lemma ShaderCacheStep(records: seq<ObjectRecord>, i: nat, before: map<string, ShaderProgram>,
                        s0: map<string, ShaderProgram>, shaderBuilds: seq<string>,
                        after: map<string, ShaderProgram>, builds: seq<string>)
    requires i < |records| && ShadersCached(before, s0, shaderBuilds, records[..i])
    requires var p := records[i].shaderProgram;
             if p in before then after == before && builds == shaderBuilds
             else after == before[p := ProgramOf(records[i])] && builds == shaderBuilds + [p]
    ensures ShadersCached(after, s0, builds, records[..i + 1])
  {
    var r := records[i];
    var done := records[..i + 1];
    assert done[..i] == records[..i];
    assert done[i].shaderProgram == r.shaderProgram;
    assert forall j :: 0 <= j < |done| ==> done[j].shaderProgram in after by {
      forall j | 0 <= j < |done|
        ensures done[j].shaderProgram in after
      {
        if j < i {
          assert done[j] == records[..i][j];
        }
      }
    }
    assert forall i1, j1 :: 0 <= i1 < j1 < |builds| ==> builds[i1] != builds[j1];
    assert forall n :: n in builds <==> n in after && n !in s0;
    forall p | p in builds
      ensures NamesProgram(done, p) && after[p] == FirstProgram(done, p)
    {
      if p in shaderBuilds {
        FirstProgramKept(records, i, p);
      } else {
        FirstProgramNew(records, i);
      }
    }
  }

  lemma FirstProgramKept(records: seq<ObjectRecord>, i: nat, p: string)
    requires i < |records| && NamesProgram(records[..i], p)
    ensures NamesProgram(records[..i + 1], p)
    ensures FirstProgram(records[..i + 1], p) == FirstProgram(records[..i], p)
  {
    var j :| 0 <= j < i && records[..i][j].shaderProgram == p;
    assert records[..i + 1][j].shaderProgram == p;
    assert records[..i + 1][..i] == records[..i];
  }

  lemma FirstProgramNew(records: seq<ObjectRecord>, i: nat)
    requires i < |records| && !NamesProgram(records[..i], records[i].shaderProgram)
    ensures NamesProgram(records[..i + 1], records[i].shaderProgram)
    ensures FirstProgram(records[..i + 1], records[i].shaderProgram) == ProgramOf(records[i])
  {
    assert records[..i + 1][i] == records[i];
    assert records[..i + 1][..i] == records[..i];
  }

  // ---------------------------------------------------------------- application

  /** Tutorial 4's application state. */
  class GLApp {
    var models: map<string, Model>
    var shdrpgms: map<string, ShaderProgram>
    var objects: map<string, GLObject>
    var camera2d: Camera2D
    var keystateVlast: bool

    /** Every object sits under one name only. */
    predicate DistinctObjects()
      reads this`objects
    {
      forall a, b :: a in objects && b in objects && a != b ==> objects[a] != objects[b]
    }

    /** The camera follows the object named "Camera". */
    predicate Valid()
      reads this, camera2d
    {
      "Camera" in objects && camera2d.pgo == objects["Camera"]
      && camera2d.Valid() && DistinctObjects()
    }

    constructor (camera: Camera2D)
      ensures models == map[] && shdrpgms == map[] && objects == map[]
      ensures camera2d == camera && !keystateVlast
    {
      models := map[];
      shdrpgms := map[];
      objects := map[];
      camera2d := camera;
      keystateVlast := false;
    }

    /** The object map after the records `done`, starting from `o0`: every
        named object is stored as its last record describes it, and the
        objects no record names are kept. */
    ghost predicate ObjectsStored(o0: map<string, GLObject>, done: seq<ObjectRecord>)
      reads this`objects, objects.Values
    {
      StoredObjects(objects, o0, done)
    }

    /** init_scene. Each record's model is loaded from its mesh file unless a
        model of that name is cached, and each shader program is built
        unless one of that name is cached; the record's object is then stored
        under its name, replacing any earlier one. A missing mesh file ends
        the program: `ok` is false and the records after it are not read. */
    method InitScene(records: seq<ObjectRecord>, meshFiles: map<string, seq<MeshLine>>)
      returns (ok: bool, meshLoads: seq<string>, shaderBuilds: seq<string>)
      requires DistinctObjects()
      modifies this`models, this`shdrpgms, this`objects
      ensures ok <==> forall j :: 0 <= j < |records| ==>
                        records[j].modelName in old(models) || records[j].modelName in meshFiles
      ensures DistinctObjects()
      ensures ok ==> ModelsCached(models, old(models), meshLoads, meshFiles, records)
      ensures ok ==> ShadersCached(shdrpgms, old(shdrpgms), shaderBuilds, records)
      ensures ok ==> ObjectsStored(old(objects), records)
      ensures ok ==> forall n :: n in objects && NamesObject(records, n) ==> fresh(objects[n])
    {
      ok := true;
      meshLoads := [];
      shaderBuilds := [];
      var i := 0;
      ghost var made: set<GLObject?> := {};
      assert records[..0] == [];
      while i < |records|
        invariant 0 <= i <= |records|
        invariant DistinctObjects()
        invariant ModelsCached(models, old(models), meshLoads, meshFiles, records[..i])
        invariant ShadersCached(shdrpgms, old(shdrpgms), shaderBuilds, records[..i])
        invariant StoredObjects(objects, old(objects), records[..i])
        invariant fresh(made)
        invariant forall n :: n in objects && NamesObject(records[..i], n) ==> objects[n] in made
      {
        var found, obj;
        found, meshLoads, shaderBuilds, obj :=
          LoadRecord(records, i, meshFiles, old(models), old(shdrpgms), old(objects), meshLoads, shaderBuilds, made);
        if !found {
          ok := false;
          return;
        }
        made := made + {obj};
        i := i + 1;
      }
      assert records[..i] == records;
      ModelsFound(models, old(models), meshLoads, meshFiles, records);
    }

    /** One record of init_scene: its model, its shader program, then its
        object. `found` is false when its model is neither cached nor has a
        mesh file. */
    method LoadRecord(records: seq<ObjectRecord>, i: nat, meshFiles: map<string, seq<MeshLine>>,
                      ghost m0: map<string, Model>, ghost s0: map<string, ShaderProgram>,
                      ghost o0: map<string, GLObject>, meshLoads: seq<string>, shaderBuilds: seq<string>,
                      ghost made: set<GLObject?>)
      returns (found: bool, loads: seq<string>, builds: seq<string>, obj: GLObject?)
      requires i < |records| && DistinctObjects()
      requires ModelsCached(models, m0, meshLoads, meshFiles, records[..i])
      requires ShadersCached(shdrpgms, s0, shaderBuilds, records[..i])
      requires StoredObjects(objects, o0, records[..i])
      requires forall n :: n in objects && NamesObject(records[..i], n) ==> objects[n] in made
      modifies this`models, this`shdrpgms, this`objects
      ensures found <==> records[i].modelName in m0 || records[i].modelName in meshFiles
      ensures DistinctObjects()
      ensures found ==> obj != null && fresh(obj)
      ensures found ==> ModelsCached(models, m0, loads, meshFiles, records[..i + 1])
      ensures found ==> ShadersCached(shdrpgms, s0, builds, records[..i + 1])
      ensures found ==> StoredObjects(objects, o0, records[..i + 1])
      ensures found ==> forall n :: n in objects && NamesObject(records[..i + 1], n) ==> objects[n] in made + {obj}
    {
      builds := shaderBuilds;
      obj := null;
      found, loads := CacheModel(records, i, m0, meshLoads, meshFiles);
      if !found {
        return;
      }
      builds := CacheShader(records, i, s0, shaderBuilds);
      obj := StoreObject(records, i, o0, made);
    }

    /** The model step of init_scene for record i: a cached model is reused,
        otherwise it is loaded from its mesh file, and `found` is false when
        there is none. */
    method CacheModel(records: seq<ObjectRecord>, i: nat, ghost m0: map<string, Model>,
                      meshLoads: seq<string>, meshFiles: map<string, seq<MeshLine>>)
      returns (found: bool, loads: seq<string>)
      requires i < |records| && ModelsCached(models, m0, meshLoads, meshFiles, records[..i])
      modifies this`models
      ensures found <==> records[i].modelName in m0 || records[i].modelName in meshFiles
      ensures found ==> ModelsCached(models, m0, loads, meshFiles, records[..i + 1])
    {
      var name := records[i].modelName;
      ghost var before := models;
      loads := meshLoads;
      found := true;
      if name !in models {
        if name !in meshFiles {
          found := false;
          return;
        }
        var m := LoadMesh(meshFiles[name]);
        models := models[name := m];
        loads := meshLoads + [name];
      }
      ModelCacheStep(records, i, before, m0, meshLoads, meshFiles, models, loads);
    }

    /** The shader step of init_scene for record i: a cached program is
        reused, otherwise it is built from the record's two shader files. */
    method CacheShader(records: seq<ObjectRecord>, i: nat, ghost s0: map<string, ShaderProgram>,
                       shaderBuilds: seq<string>)
      returns (builds: seq<string>)
      requires i < |records| && ShadersCached(shdrpgms, s0, shaderBuilds, records[..i])
      modifies this`shdrpgms
      ensures ShadersCached(shdrpgms, s0, builds, records[..i + 1])
    {
      var r := records[i];
      builds := shaderBuilds;
      ghost var before := shdrpgms;
      if r.shaderProgram !in shdrpgms {
        shdrpgms := shdrpgms[r.shaderProgram := ProgramOf(r)];
        builds := shaderBuilds + [r.shaderProgram];
      }
      ShaderCacheStep(records, i, before, s0, shaderBuilds, shdrpgms, builds);
    }

    /** The object step of init_scene for record i: a new object, as the
        record describes it, is stored under the record's object name. */
    method StoreObject(records: seq<ObjectRecord>, i: nat, ghost o0: map<string, GLObject>,
                       ghost made: set<GLObject?>)
      returns (obj: GLObject)
      requires i < |records| && StoredObjects(objects, o0, records[..i]) && DistinctObjects()
      requires forall n :: n in objects && NamesObject(records[..i], n) ==> objects[n] in made
      modifies this`objects
      ensures StoredObjects(objects, o0, records[..i + 1]) && DistinctObjects()
      ensures fresh(obj) && Describes(obj, records[i])
      ensures forall n :: n in objects && NamesObject(records[..i + 1], n) ==> objects[n] in made + {obj}
      ensures objects == old(objects)[records[i].objectName := obj]
    {
      var r := records[i];
      NamesObjectStep(records, i);
      obj := new GLObject(Vec2(r.orientationDeg.x * DegreeFactor, r.orientationDeg.y * DegreeFactor),
                              r.position, r.scaling, r.color, r.modelName, r.shaderProgram);
      StoreStep(objects, o0, records, i, obj);
      objects := objects[r.objectName := obj];
    }

    /** GLApp::init: load the scene, then let the camera follow the object
        named "Camera". `ok` is false when a mesh file is missing or the scene
        has no such object (std::map::at throws). */
    method Init(records: seq<ObjectRecord>, meshFiles: map<string, seq<MeshLine>>,
                fbWidth: int, fbHeight: int, trig: Trig) returns (ok: bool)
      requires DistinctObjects() && camera2d.ZoomSettings() && fbWidth >= fbHeight > 0
      modifies this`models, this`shdrpgms, this`objects, camera2d
      ensures ok <==> (forall j :: 0 <= j < |records| ==>
                         records[j].modelName in old(models) || records[j].modelName in meshFiles)
                      && "Camera" in objects
      ensures ok ==> Valid() && camera2d.view == WorldAlignedView(objects["Camera"].position)
                     && camera2d.worldToNdc == Mul(camera2d.camwinToNdc, camera2d.view)
                     && !camera2d.camtypeFlag == !old(camera2d.camtypeFlag)
    {
      var loaded, meshLoads, shaderBuilds := InitScene(records, meshFiles);
      if !loaded || "Camera" !in objects {
        return false;
      }
      camera2d.Init(objects["Camera"], fbWidth, fbHeight, trig);
      ok := true;
    }

    /** GLApp::update: the camera first, then every object in key order (the
        camera's own object included), then the V key's last state. */
    method Update(keys: Keys, deltaTime: real, fbWidth: int, fbHeight: int, trig: Trig)
      requires Valid() && fbWidth >= fbHeight > 0
      modifies this`keystateVlast, camera2d, objects.Values
      ensures Valid() && keystateVlast == keys.v
      ensures camera2d.ar == (fbWidth as real) / (fbHeight as real)
      ensures camera2d.width == CamWidth(camera2d.ar, old(camera2d.height)) && camera2d.width > 0
      ensures camera2d.camwinToNdc == Projection(camera2d.width, old(camera2d.height))
      ensures camera2d.up == Up(old(objects["Camera"].orientation.x), trig)
      ensures camera2d.right == Right(old(objects["Camera"].orientation.x), trig)
      ensures keys.z ==> camera2d.heightChgDir == ZoomDir(old(camera2d.height), old(camera2d.heightChgDir),
                                                          camera2d.minHeight, camera2d.maxHeight)
                         && camera2d.height == old(camera2d.height) + camera2d.heightChgVal * camera2d.heightChgDir
      ensures !keys.z ==> camera2d.heightChgDir == old(camera2d.heightChgDir) && camera2d.height == old(camera2d.height)
      ensures camera2d.camtypeFlag == (old(camera2d.camtypeFlag) != RisingEdge(keys.v, old(keystateVlast)))
      ensures camera2d.worldToNdc == Mul(camera2d.camwinToNdc, camera2d.view)
      ensures camera2d.view == View(camera2d.camtypeFlag, camera2d.right, camera2d.up,
                                    old(objects["Camera"].position))
      ensures forall n :: n in objects && n != "Camera" ==>
                objects[n].State() == Advance(old(objects[n].State()), objects[n].scaling,
                                              camera2d.worldToNdc, deltaTime, trig)
      ensures var cam := old(objects["Camera"].State());
              objects["Camera"].State()
              == Advance(ObjectState(Vec2(Turn(cam.orientation.x, keys.h, keys.k, deltaTime), cam.orientation.y),
                                     Pan(cam.position, keys.u, camera2d.up, camera2d.linearSpeed),
                                     cam.mdlToNdcXform),
                         objects["Camera"].scaling, camera2d.worldToNdc, deltaTime, trig)
    {
      camera2d.Update(keys, keystateVlast, deltaTime, fbWidth, fbHeight, trig);
      AdvanceObjects(camera2d.worldToNdc, deltaTime, trig);
      keystateVlast := keys.v;
    }

    /** The object loop of GLApp::update: every object advances, in key order,
        through the same world-to-NDC transform. */
    method AdvanceObjects(worldToNdc: Mat3, deltaTime: real, trig: Trig)
      requires DistinctObjects()
      modifies objects.Values
      ensures forall n :: n in objects ==>
                objects[n].State() == Advance(old(objects[n].State()), objects[n].scaling,
                                              worldToNdc, deltaTime, trig)
    {
      var ks := SortedKeys(objects.Keys);
      IncreasingDistinct(ks);
      AdvanceEach(ks, worldToNdc, deltaTime, trig);
    }

    /** Advance the objects under the keys `ks`, in that order. */
    method AdvanceEach(ks: seq<string>, worldToNdc: Mat3, deltaTime: real, trig: Trig)
      requires DistinctObjects()
      requires forall i, j :: 0 <= i < j < |ks| ==> ks[i] != ks[j]
      requires forall k :: k in ks <==> k in objects
      modifies objects.Values
      ensures forall n :: n in objects ==>
                objects[n].State() == Advance(old(objects[n].State()), objects[n].scaling,
                                              worldToNdc, deltaTime, trig)
    {
      var m := objects;
      var objs: seq<GLObject> := seq(|ks|, j requires 0 <= j < |ks| && ks[j] in m => m[ks[j]]);
      assert forall a, b :: 0 <= a < b < |objs| ==> objs[a] != objs[b];
      for i := 0 to |ks|
        invariant forall j :: 0 <= j < i ==>
                    objs[j].State() == Advance(old(objs[j].State()), objs[j].scaling, worldToNdc, deltaTime, trig)
        invariant forall j :: i <= j < |ks| ==> objs[j].State() == old(objs[j].State())
      {
        objs[i].Update(worldToNdc, deltaTime, trig);
      }
      forall n | n in objects
        ensures objects[n].State() == Advance(old(objects[n].State()), objects[n].scaling,
                                              worldToNdc, deltaTime, trig)
      {
        var j :| 0 <= j < |ks| && ks[j] == n;
        assert objs[j] == objects[n];
      }
    }

    /** GLApp::draw's order: every object but "Camera" in key order, then
        "Camera". Returns the names in the order they are drawn. */
    method Draw() returns (drawn: seq<string>)
      requires "Camera" in objects
      ensures |drawn| == |objects|
      ensures drawn[|drawn| - 1] == "Camera"
      ensures StrictlyIncreasing(drawn[..|drawn| - 1])
      ensures forall n :: n in drawn[..|drawn| - 1] <==> n in objects && n != "Camera"
    {
      var ks := SortedKeys(objects.Keys);
      drawn := [];
      for i := 0 to |ks|
        invariant StrictlyIncreasing(drawn)
        invariant forall n :: n in drawn <==> n in ks[..i] && n != "Camera"
        invariant forall j, y :: 0 <= j < |drawn| && i <= y < |ks| ==> Less(drawn[j], ks[y])
        invariant |drawn| + (if "Camera" in ks[..i] then 1 else 0) == i
      {
        assert ks[..i + 1] == ks[..i] + [ks[i]];
        LessIrreflexive(ks[i]);
        assert ks[i] !in ks[..i];
        if ks[i] != "Camera" {
          drawn := drawn + [ks[i]];
        }
      }
      drawn := drawn + ["Camera"];
    }
  }
}
