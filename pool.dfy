/** Tutorial 3: a population of objects that doubles or halves on each mouse
    click, two per-kind counters, the polygon-mode cycle on the P key, and
    the per-object model-to-NDC transform. */
module ObjectPool {
  import opened Affine
  import opened Input

  /** Half the side of the square world the objects are scattered over. */
  const WorldRange: real := 5000.0

  /** The population at which growing stops. */
  const ObjectMax: nat := 32768

  /** The values one spawn draws from the random engine: five from urdf on
      [-1, 1) (position, angle, speed, kind) and two from urdf2 on
      [50, 400) (scaling). C++ leaves unspecified which of the two draws in
      one constructor call comes first, so they are named by role. */
  datatype Draw = Draw(px: real, py: real, angle: real, speed: real,
                       sx: real, sy: real, kind: real)

  predicate ValidDraw(d: Draw) {
    -1.0 <= d.px < 1.0 && -1.0 <= d.py < 1.0 && -1.0 <= d.angle < 1.0
    && -1.0 <= d.speed < 1.0 && -1.0 <= d.kind < 1.0
    && 50.0 <= d.sx < 400.0 && 50.0 <= d.sy < 400.0
  }

  /** The fields of a GLObject. */
  datatype ObjectState = ObjectState(angleSpeed: real, angleDisp: real, scaling: Vec2,
                                     position: Vec2, mdlToNdcXform: Mat3, mdlRef: nat)

  /** The model an object uses: the box (0) when the kind draw is negative,
      the mystery model (1) otherwise. */
  function KindOf(d: Draw): (k: nat)
    ensures k == 0 <==> d.kind < 0.0
    ensures k <= 1
  {
    if d.kind < 0.0 then 0 else 1
  }

  /** A freshly spawned object. Its transform is glm's default identity
      until its first update, later in the same frame. */
  function Spawned(d: Draw): ObjectState {
    ObjectState(d.speed * (30.0 / 180.0) * 3.142, d.angle * 3.142 * 2.0, Vec2(d.sx, d.sy),
                Vec2(d.px * WorldRange, d.py * WorldRange), Identity, KindOf(d))
  }

  /** A spawned object lies in the world square, is scaled by 50 to 400 in
      each direction and uses one of the two models. */
  lemma SpawnedBounds(d: Draw)
    requires ValidDraw(d)
    ensures var s := Spawned(d);
            -WorldRange <= s.position.x < WorldRange && -WorldRange <= s.position.y < WorldRange
            && 50.0 <= s.scaling.x < 400.0 && 50.0 <= s.scaling.y < 400.0
            && -2.0 * 3.142 <= s.angleDisp < 2.0 * 3.142
            && s.mdlRef in {0, 1}
  {
  }

  /** Scales world coordinates [-5000, 5000] to NDC [-1, 1]. */
  const Extend: Mat3 := Diag(1.0 / 5000.0, 1.0 / 5000.0)

  /** Extend * Translate * Rotate * Scale, with the rotation's cosine and sine
      given. */
  function ModelToNdc(position: Vec2, c: real, s: real, scaling: Vec2): Mat3 {
    Mul(Mul(Mul(Extend, Translate(position)), Rotate(c, s)), Scale(scaling))
  }

  /** One GLObject::update: the angle advances by speed * dt, then the
      transform is rebuilt from the new angle. */
  function Advance(s: ObjectState, dt: real, trig: Trig): ObjectState {
    var angle := s.angleDisp + s.angleSpeed * dt;
    s.(angleDisp := angle,
       mdlToNdcXform := ModelToNdc(s.position, Cos(trig, angle), Sin(trig, angle), s.scaling))
  }

  /** Advance, step by step as GLObject::update takes it. */
  lemma AdvanceSteps(s: ObjectState, dt: real, trig: Trig, angle: real)
    requires angle == s.angleDisp + s.angleSpeed * dt
    ensures Advance(s, dt, trig)
            == s.(angleDisp := angle,
                  mdlToNdcXform := Mul(Mul(Mul(Extend, Translate(s.position)), Rotate(Cos(trig, angle), Sin(trig, angle))), Scale(s.scaling)))
  {
    var t := Advance(s, dt, trig);
    assert t.angleDisp == angle;
    assert Cos(trig, angle) == Cos(trig, s.angleDisp + s.angleSpeed * dt);
    assert t.mdlToNdcXform == ModelToNdc(s.position, Cos(trig, angle), Sin(trig, angle), s.scaling);
  }

  /** The transform is affine and takes the model's origin to the object's
      position scaled into NDC, and its unit x axis to the position plus the
      rotated, scaled axis, all divided by 5000. */
  lemma ModelToNdcPlacesObject(position: Vec2, c: real, s: real, scaling: Vec2)
    ensures IsAffine(ModelToNdc(position, c, s, scaling))
    ensures Apply(ModelToNdc(position, c, s, scaling), Vec3(0.0, 0.0, 1.0))
            == Vec3(position.x / 5000.0, position.y / 5000.0, 1.0)
    ensures Apply(ModelToNdc(position, c, s, scaling), Vec3(1.0, 0.0, 1.0))
            == Vec3((position.x + c * scaling.x) / 5000.0, (position.y + s * scaling.x) / 5000.0, 1.0)
  {
    ApplyFactors(position, c, s, scaling, Vec3(0.0, 0.0, 1.0));
    ApplyFactors(position, c, s, scaling, Vec3(1.0, 0.0, 1.0));
  }

  /** Applying the product applies Scale, then Rotate, then Translate, then
      Extend. */
  lemma ApplyFactors(position: Vec2, c: real, s: real, scaling: Vec2, v: Vec3)
    ensures Apply(ModelToNdc(position, c, s, scaling), v)
            == Apply(Extend, Apply(Translate(position), Apply(Rotate(c, s), Apply(Scale(scaling), v))))
  {
    var et := Mul(Extend, Translate(position));
    ApplyMul(Mul(et, Rotate(c, s)), Scale(scaling), v);
    ApplyMul(et, Rotate(c, s), Apply(Scale(scaling), v));
    ApplyMul(Extend, Translate(position), Apply(Rotate(c, s), Apply(Scale(scaling), v)));
  }

  class GLObject {
    const angleSpeed: real
    var angleDisp: real
    const scaling: Vec2
    const position: Vec2
    var mdlToNdcXform: Mat3
    const mdlRef: nat

    function State(): ObjectState
      reads this
    {
      ObjectState(angleSpeed, angleDisp, scaling, position, mdlToNdcXform, mdlRef)
    }

    /** The object a spawn builds from its draws. */
    constructor Spawn(d: Draw)
      ensures State() == Spawned(d)
    {
      angleSpeed := d.speed * (30.0 / 180.0) * 3.142;
      angleDisp := d.angle * 3.142 * 2.0;
      scaling := Vec2(d.sx, d.sy);
      position := Vec2(d.px * WorldRange, d.py * WorldRange);
      mdlToNdcXform := Identity;
      mdlRef := if d.kind < 0.0 then 0 else 1;
    }

    /** GLObject::update. */
    method Update(deltaTime: real, trig: Trig)
      modifies this
      ensures State() == Advance(old(State()), deltaTime, trig)
    {
      ghost var before := State();
      var scale := Scale(scaling);
      angleDisp := angleDisp + angleSpeed * deltaTime;
      var rotate := Rotate(Cos(trig, angleDisp), Sin(trig, angleDisp));
      var translate := Translate(position);
      mdlToNdcXform := Mul(Mul(Mul(Extend, translate), rotate), scale);
      AdvanceSteps(before, deltaTime, trig, angleDisp);
    }
  }

  // ---------------------------------------------------------------- population

  /** Number of objects using model `k`. */
  function CountKind(objs: seq<GLObject>, k: nat): (n: nat)
    ensures n <= |objs|
  {
    if objs == [] then 0 else (if objs[0].mdlRef == k then 1 else 0) + CountKind(objs[1..], k)
  }

  lemma {:induction false} CountKindAppend(a: seq<GLObject>, b: seq<GLObject>, k: nat)
    ensures CountKind(a + b, k) == CountKind(a, k) + CountKind(b, k)
  {
    if a == [] {
      assert a + b == b;
    } else {
      assert (a + b)[1..] == a[1..] + b;
      CountKindAppend(a[1..], b, k);
    }
  }

  predicate KindsValid(objs: seq<GLObject>) {
    forall i :: 0 <= i < |objs| ==> objs[i].mdlRef <= 1
  }

  /** With every object of kind 0 or 1, the two counts add up to the size. */
  lemma {:induction false} CountKindsPartition(objs: seq<GLObject>)
    requires KindsValid(objs)
    ensures CountKind(objs, 0) + CountKind(objs, 1) == |objs|
  {
    if objs != [] {
      CountKindsPartition(objs[1..]);
    }
  }

  predicate Distinct(objs: seq<GLObject>) {
    forall i, j :: 0 <= i < j < |objs| ==> objs[i] != objs[j]
  }

  /** n is a power of two. */
  predicate IsPow2(n: nat) {
    n == 1 || (n > 1 && n % 2 == 0 && IsPow2(n / 2))
  }

  /** A population size the pool can reach: empty, or a power of two no
      larger than ObjectMax. */
  predicate ReachableSize(n: nat) {
    n == 0 || (IsPow2(n) && n <= ObjectMax)
  }

  /** The hysteresis flag as a click on a non-empty population leaves it. */
  function NextCreate(size: nat, create: bool): (c: bool)
    ensures size <= 1 ==> c
    ensures size >= ObjectMax ==> !c
    ensures 1 < size < ObjectMax ==> c == create
  {
    if size <= 1 then true else if size >= 32768 then false else create
  }

  /** The population after a click. */
  function NextSize(size: nat, create: bool): nat {
    if size == 0 then 1
    else if NextCreate(size, create) then size + size
    else size - size / 2
  }

  /** A power of two below another is at most half of it. */
  lemma {:induction false} Pow2Below(n: nat, m: nat)
    requires IsPow2(n) && IsPow2(m) && n < m
    ensures 2 * n <= m
  {
    if n > 1 {
      Pow2Below(n / 2, m / 2);
    }
  }

  lemma Pow2Max()
    ensures IsPow2(ObjectMax)
  {
  }

  /** Every click keeps the size reachable and never empties a non-empty
      population: it doubles, halves, or (from empty) becomes 1. */
  lemma NextSizeReachable(size: nat, create: bool)
    requires ReachableSize(size)
    ensures ReachableSize(NextSize(size, create))
    ensures NextSize(size, create) >= 1
    ensures size > 0 ==> NextSize(size, create) == 2 * size || 2 * NextSize(size, create) == size
  {
    if size > 0 && NextCreate(size, create) {
      Pow2Max();
      Pow2Below(size, ObjectMax);
      assert (size + size) / 2 == size;
    } else if size > 1 {
      assert size - size / 2 == size / 2;
    }
  }

  /** How the population changes on one update, as a relation between the
      list before and after: untouched without a click; one object from
      empty; on a non-empty list, `size` new objects appended at the back
      while the flag is set, the oldest half removed from the front
      otherwise. */
  predicate Reshaped(before: seq<GLObject>, after: seq<GLObject>, click: bool, create: bool) {
    if !click then after == before
    else if |before| == 0 then |after| == 1
    else if NextCreate(|before|, create) then |after| == 2 * |before| && after[..|before|] == before
    else after == before[|before| / 2..]
  }

  lemma ReshapedSize(before: seq<GLObject>, after: seq<GLObject>, click: bool, create: bool)
    requires Reshaped(before, after, click, create)
    ensures |after| == if click then NextSize(|before|, create) else |before|
  {
  }

  // ---------------------------------------------------------------- polygon mode

  datatype PolygonMode = LineMode | PointMode | FillMode

  /** The mode the P key applies for a counter value; any other counter
      applies nothing. */
  function ModeFor(counter: int, current: PolygonMode): PolygonMode {
    if counter == 0 then LineMode
    else if counter == 1 then PointMode
    else if counter == 2 then FillMode
    else current
  }

  function NextCounter(counter: int): (c: int)
    ensures 0 <= counter < 3 ==> 0 <= c < 3 && c == (counter + 1) % 3
  {
    if counter + 1 == 3 then 0 else counter + 1
  }

  function CounterAfter(counter: int, presses: nat): int {
    if presses == 0 then counter else NextCounter(CounterAfter(counter, presses - 1))
  }

  /** The counter counts presses modulo 3, so every third press applies the
      same mode again, in the order LINE, POINT, FILL. */
  lemma {:induction false} CounterCounts(counter: int, presses: nat)
    requires 0 <= counter < 3
    ensures CounterAfter(counter, presses) == (counter + presses) % 3
    ensures ModeFor(CounterAfter(counter, presses), LineMode) == ModeFor(CounterAfter(counter, presses + 3), FillMode)
  {
    if presses > 0 {
      CounterCounts(counter, presses - 1);
    }
    assert CounterAfter(counter, presses + 3) == NextCounter(NextCounter(NextCounter(CounterAfter(counter, presses))));
  }

  // ---------------------------------------------------------------- application

  /** Tutorial 3's application state: the object list, the counters and the
      flags kept between frames, and the polygon mode last applied. */
  class GLApp {
    var objects: seq<GLObject>
    var boxcount: int
    var mysteryboxcount: int
    var createobjects: bool
    var keystatePCounter: int
    var keystatePlast: bool
    var mouseLeftlast: bool
    var polygonMode: PolygonMode

    predicate Valid()
      reads this
    {
      KindsValid(objects) && Distinct(objects)
      && boxcount == CountKind(objects, 0) && mysteryboxcount == CountKind(objects, 1)
      && ReachableSize(|objects|)
      && 0 <= keystatePCounter < 3
    }

    /** The globals' initial values; GL starts in FILL mode. */
    constructor ()
      ensures Valid()
      ensures objects == [] && boxcount == 0 && mysteryboxcount == 0 && createobjects
      ensures keystatePCounter == 0 && !keystatePlast && !mouseLeftlast && polygonMode == FillMode
    {
      objects := [];
      boxcount := 0;
      mysteryboxcount := 0;
      createobjects := true;
      keystatePCounter := 0;
      keystatePlast := false;
      mouseLeftlast := false;
      polygonMode := FillMode;
    }

    /** GLApp::update: polygon mode, spawn or kill, advance every object,
        then remember this frame's key and button states. */
    method Update(keystateP: bool, mouseLeft: bool, draws: nat -> Draw, deltaTime: real, trig: Trig)
      requires Valid()
      modifies this, objects
      ensures Valid()
      ensures keystatePlast == keystateP && mouseLeftlast == mouseLeft
      ensures RisingEdge(keystateP, old(keystatePlast)) ==>
                polygonMode == ModeFor(old(keystatePCounter), old(polygonMode))
                && keystatePCounter == NextCounter(old(keystatePCounter))
      ensures !RisingEdge(keystateP, old(keystatePlast)) ==>
                polygonMode == old(polygonMode) && keystatePCounter == old(keystatePCounter)
      ensures Reshaped(old(objects), objects, RisingEdge(mouseLeft, old(mouseLeftlast)), old(createobjects))
      ensures createobjects == if RisingEdge(mouseLeft, old(mouseLeftlast)) && |old(objects)| > 0
                               then NextCreate(|old(objects)|, old(createobjects)) else old(createobjects)
      ensures forall o :: o in objects && o in old(objects) ==> o.State() == Advance(old(o.State()), deltaTime, trig)
      ensures forall i :: |old(objects)| <= i < |objects| ==>
                fresh(objects[i]) && objects[i].State() == Advance(Spawned(draws(i - |old(objects)|)), deltaTime, trig)
    {
      PolygonModeStep(keystateP);
      SpawnAndAdvance(mouseLeft, draws, deltaTime, trig);
      RememberInputs(keystateP, mouseLeft);
    }

    /** Part 4 of update: this frame's key and button states, for the next
        frame's edge tests. */
    method RememberInputs(keystateP: bool, mouseLeft: bool)
      modifies this`keystatePlast, this`mouseLeftlast
      ensures keystatePlast == keystateP && mouseLeftlast == mouseLeft
    {
      keystatePlast := keystateP;
      mouseLeftlast := mouseLeft;
    }

    /** Parts 2 and 3 of update: spawn or kill, then update every object,
        the new ones included. */
    method SpawnAndAdvance(mouseLeft: bool, draws: nat -> Draw, deltaTime: real, trig: Trig)
      requires Valid()
      modifies this, objects
      ensures Valid()
      ensures Reshaped(old(objects), objects, RisingEdge(mouseLeft, mouseLeftlast), old(createobjects))
      ensures createobjects == if RisingEdge(mouseLeft, mouseLeftlast) && |old(objects)| > 0
                               then NextCreate(|old(objects)|, old(createobjects)) else old(createobjects)
      ensures forall o :: o in objects && o in old(objects) ==> o.State() == Advance(old(o.State()), deltaTime, trig)
      ensures forall i :: |old(objects)| <= i < |objects| ==>
                fresh(objects[i]) && objects[i].State() == Advance(Spawned(draws(i - |old(objects)|)), deltaTime, trig)
      ensures keystatePCounter == old(keystatePCounter) && polygonMode == old(polygonMode)
      ensures keystatePlast == old(keystatePlast) && mouseLeftlast == old(mouseLeftlast)
    {
      SpawnOrKill(mouseLeft, draws);
      label spawned:
      ghost var n := |old(objects)|;
      AdvanceAll(deltaTime, trig);
      forall o | o in objects && o in old(objects)
        ensures o.State() == Advance(old(o.State()), deltaTime, trig)
      {
        assert old@spawned(o.State()) == old(o.State());
      }
      forall i | n <= i < |objects|
        ensures objects[i].State() == Advance(Spawned(draws(i - n)), deltaTime, trig)
      {
        assert objects[i] in objects;
        assert old@spawned(objects[i].State()) == Spawned(draws(i - n));
      }
    }

    /** Part 1 of update: on a rising edge of P, apply the counter's mode and
        advance the counter, wrapping 3 to 0. */
    method PolygonModeStep(keystateP: bool)
      requires 0 <= keystatePCounter < 3
      modifies this
      ensures RisingEdge(keystateP, keystatePlast) ==>
                polygonMode == ModeFor(old(keystatePCounter), old(polygonMode))
                && keystatePCounter == NextCounter(old(keystatePCounter))
      ensures !RisingEdge(keystateP, keystatePlast) ==>
                polygonMode == old(polygonMode) && keystatePCounter == old(keystatePCounter)
      ensures 0 <= keystatePCounter < 3
      ensures objects == old(objects) && boxcount == old(boxcount) && mysteryboxcount == old(mysteryboxcount)
      ensures createobjects == old(createobjects) && keystatePlast == old(keystatePlast)
      ensures mouseLeftlast == old(mouseLeftlast)
    {
      if keystateP && !keystatePlast {
        if keystatePCounter == 0 {
          polygonMode := LineMode;
        } else if keystatePCounter == 1 {
          polygonMode := PointMode;
        } else if keystatePCounter == 2 {
          polygonMode := FillMode;
        }
        keystatePCounter := keystatePCounter + 1;
        if keystatePCounter == 3 {
          keystatePCounter := 0;
        }
      }
    }

    /** Part 2 of update: on a rising edge of the left button, spawn the first
        object, double the population or drop its older half. */
    method SpawnOrKill(mouseLeft: bool, draws: nat -> Draw)
      requires Valid()
      modifies this
      ensures Valid()
      ensures Reshaped(old(objects), objects, RisingEdge(mouseLeft, mouseLeftlast), old(createobjects))
      ensures createobjects == if RisingEdge(mouseLeft, mouseLeftlast) && |old(objects)| > 0
                               then NextCreate(|old(objects)|, old(createobjects)) else old(createobjects)
      ensures forall i :: |old(objects)| <= i < |objects| ==>
                fresh(objects[i]) && objects[i].State() == Spawned(draws(i - |old(objects)|))
      ensures keystatePCounter == old(keystatePCounter) && polygonMode == old(polygonMode)
      ensures keystatePlast == old(keystatePlast) && mouseLeftlast == old(mouseLeftlast)
    {
      if mouseLeft && mouseLeft != mouseLeftlast {
        if |objects| <= 0 {
          AddObject(draws(0));
        } else {
          if |objects| <= 1 {
            createobjects := true;
          } else if |objects| >= 32768 {
            createobjects := false;
          }
          if createobjects {
            NextSizeReachable(|objects|, old(createobjects));
            Grow(draws);
          } else {
            Shrink();
          }
        }
      }
    }

    /** The grow branch: append as many new objects as there are. */
    method Grow(draws: nat -> Draw)
      requires KindsValid(objects) && Distinct(objects)
      requires boxcount == CountKind(objects, 0) && mysteryboxcount == CountKind(objects, 1)
      modifies this
      ensures KindsValid(objects) && Distinct(objects)
      ensures boxcount == CountKind(objects, 0) && mysteryboxcount == CountKind(objects, 1)
      ensures |objects| == 2 * |old(objects)| && objects[..|old(objects)|] == old(objects)
      ensures forall i :: |old(objects)| <= i < |objects| ==>
                fresh(objects[i]) && objects[i].State() == Spawned(draws(i - |old(objects)|))
      ensures createobjects == old(createobjects) && keystatePCounter == old(keystatePCounter)
      ensures polygonMode == old(polygonMode)
      ensures keystatePlast == old(keystatePlast) && mouseLeftlast == old(mouseLeftlast)
    {
      ghost var start := objects;
      var iterations := |objects|;
      var i := 0;
      while i < iterations
        invariant 0 <= i <= iterations
        invariant |objects| == |start| + i && objects[..|start|] == start
        invariant KindsValid(objects) && Distinct(objects)
        invariant boxcount == CountKind(objects, 0) && mysteryboxcount == CountKind(objects, 1)
        invariant forall j :: |start| <= j < |objects| ==>
                    fresh(objects[j]) && objects[j].State() == Spawned(draws(j - |start|))
        invariant createobjects == old(createobjects) && keystatePCounter == old(keystatePCounter)
        invariant polygonMode == old(polygonMode)
        invariant keystatePlast == old(keystatePlast) && mouseLeftlast == old(mouseLeftlast)
      {
        AddObject(draws(i));
        i := i + 1;
      }
    }

    /** One spawn: an object built from draws `d`, counted under its kind
        and appended. */
    method AddObject(d: Draw)
      requires KindsValid(objects) && Distinct(objects)
      requires boxcount == CountKind(objects, 0) && mysteryboxcount == CountKind(objects, 1)
      modifies this`objects, this`boxcount, this`mysteryboxcount
      ensures KindsValid(objects) && Distinct(objects)
      ensures boxcount == CountKind(objects, 0) && mysteryboxcount == CountKind(objects, 1)
      ensures |objects| == |old(objects)| + 1 && objects[..|old(objects)|] == old(objects)
      ensures fresh(objects[|old(objects)|]) && objects[|old(objects)|].State() == Spawned(d)
    {
      var go := new GLObject.Spawn(d);
      CountKindAppend(objects, [go], 0);
      CountKindAppend(objects, [go], 1);
      if d.kind < 0.0 {
        boxcount := boxcount + 1;
      } else {
        mysteryboxcount := mysteryboxcount + 1;
      }
      objects := objects + [go];
    }

    /** The shrink branch: remove half the objects from the front, oldest
        first, decrementing the counter of each one's kind. */
    method Shrink()
      requires KindsValid(objects) && Distinct(objects)
      requires boxcount == CountKind(objects, 0) && mysteryboxcount == CountKind(objects, 1)
      requires ReachableSize(|objects|) && |objects| > 1
      modifies this
      ensures KindsValid(objects) && Distinct(objects) && ReachableSize(|objects|)
      ensures boxcount == CountKind(objects, 0) && mysteryboxcount == CountKind(objects, 1)
      ensures objects == old(objects)[|old(objects)| / 2..]
      ensures createobjects == old(createobjects) && keystatePCounter == old(keystatePCounter)
      ensures polygonMode == old(polygonMode)
      ensures keystatePlast == old(keystatePlast) && mouseLeftlast == old(mouseLeftlast)
    {
      ghost var start := objects;
      var iterations := |objects| / 2;
      var i := 0;
      while i < iterations
        invariant 0 <= i <= iterations
        invariant objects == start[i..]
        invariant boxcount == CountKind(objects, 0) && mysteryboxcount == CountKind(objects, 1)
        invariant createobjects == old(createobjects) && keystatePCounter == old(keystatePCounter)
        invariant polygonMode == old(polygonMode)
        invariant keystatePlast == old(keystatePlast) && mouseLeftlast == old(mouseLeftlast)
      {
        if objects[0].mdlRef != 1 {
          boxcount := boxcount - 1;
        } else {
          mysteryboxcount := mysteryboxcount - 1;
        }
        objects := objects[1..];
        i := i + 1;
      }
      assert |objects| == |start| / 2;
    }

    /** Part 3 of update: update every object in list order. */
    method AdvanceAll(deltaTime: real, trig: Trig)
      requires Distinct(objects)
      modifies objects
      ensures forall i :: 0 <= i < |objects| ==>
                objects[i].State() == Advance(old(objects[i].State()), deltaTime, trig)
      ensures forall o :: o in objects ==> o.State() == Advance(old(o.State()), deltaTime, trig)
    {
      var i := 0;
      while i < |objects|
        invariant 0 <= i <= |objects|
        invariant forall j :: 0 <= j < i ==>
                    objects[j].State() == Advance(old(objects[j].State()), deltaTime, trig)
        invariant forall j :: i <= j < |objects| ==> objects[j].State() == old(objects[j].State())
      {
        objects[i].Update(deltaTime, trig);
        i := i + 1;
      }
      forall o | o in objects
        ensures o.State() == Advance(old(o.State()), deltaTime, trig)
      {
        var j :| 0 <= j < |objects| && objects[j] == o;
      }
    }
  }
}
