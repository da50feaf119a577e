/** Tutorial 4: scene objects placed by a 2D camera. Every frame the camera
    rebuilds its projection and view from the state it has before moving,
    then zooms, turns and pans; every object then advances its orientation
    and builds its model-to-NDC transform through the camera's
    world-to-NDC transform. */
module Camera {
  import opened Affine
  import opened Input

  /** The keys the camera polls in one frame. */
  datatype Keys = Keys(v: bool, z: bool, h: bool, k: bool, u: bool)

  /** The fields of a GLObject that an update changes. `orientation.x` is the
      angle in radians, `orientation.y` the angular speed. */
  datatype ObjectState = ObjectState(orientation: Vec2, position: Vec2, mdlToNdcXform: Mat3)

  /** world_to_ndc * Translate * Rotate * Scale for an object. */
  function ObjectXform(worldToNdc: Mat3, position: Vec2, c: real, s: real, scaling: Vec2): Mat3 {
    Mul(Mul(Mul(worldToNdc, Translate(position)), Rotate(c, s)), Scale(scaling))
  }

  /** One GLObject::update: the angle advances by speed * dt, then the
      transform is rebuilt with the new angle. */
  function Advance(s: ObjectState, scaling: Vec2, worldToNdc: Mat3, dt: real, trig: Trig): ObjectState {
    var angle := s.orientation.x + s.orientation.y * dt;
    ObjectState(Vec2(angle, s.orientation.y), s.position,
                ObjectXform(worldToNdc, s.position, Cos(trig, angle), Sin(trig, angle), scaling))
  }

  /** Advance, step by step as GLObject::update takes it. */
  lemma AdvanceSteps(s: ObjectState, scaling: Vec2, worldToNdc: Mat3, dt: real, trig: Trig, angle: real)
    requires angle == s.orientation.x + s.orientation.y * dt
    ensures Advance(s, scaling, worldToNdc, dt, trig)
            == ObjectState(Vec2(angle, s.orientation.y), s.position,
                           Mul(Mul(Mul(worldToNdc, Translate(s.position)), Rotate(Cos(trig, angle), Sin(trig, angle))), Scale(scaling)))
  {
    var t := Advance(s, scaling, worldToNdc, dt, trig);
    assert t.orientation == Vec2(angle, s.orientation.y);
    assert t.position == s.position;
    assert Cos(trig, angle) == Cos(trig, s.orientation.x + s.orientation.y * dt);
    assert t.mdlToNdcXform == ObjectXform(worldToNdc, s.position, Cos(trig, angle), Sin(trig, angle), scaling);
  }

  /** An object's model origin lands where the camera puts its position, and
      its model x axis tip where the camera puts position + the rotated,
      scaled x axis. */
  lemma AdvancePlacesObject(s: ObjectState, scaling: Vec2, worldToNdc: Mat3, dt: real, trig: Trig)
    ensures var t := Advance(s, scaling, worldToNdc, dt, trig);
            var angle := s.orientation.x + s.orientation.y * dt;
            t.orientation == Vec2(angle, s.orientation.y) && t.position == s.position
            && Apply(t.mdlToNdcXform, Vec3(0.0, 0.0, 1.0)) == Apply(worldToNdc, Point(s.position))
            && Apply(t.mdlToNdcXform, Vec3(1.0, 0.0, 1.0))
               == Apply(worldToNdc, Point(Add(s.position, ScaleBy(Vec2(Cos(trig, angle), Sin(trig, angle)), scaling.x))))
  {
    var angle := s.orientation.x + s.orientation.y * dt;
    ObjectXformOrigin(worldToNdc, s.position, Cos(trig, angle), Sin(trig, angle), scaling);
    ObjectXformAxis(worldToNdc, s.position, Cos(trig, angle), Sin(trig, angle), scaling);
  }

  /** The model origin lands on the object's position. */
  lemma ObjectXformOrigin(w: Mat3, p: Vec2, c: real, s: real, sc: Vec2)
    ensures Apply(ObjectXform(w, p, c, s, sc), Vec3(0.0, 0.0, 1.0)) == Apply(w, Point(p))
  {
    ObjectXformFactors(w, p, c, s, sc, Vec3(0.0, 0.0, 1.0));
    OriginPlaced(p, c, s, sc);
  }

  lemma OriginPlaced(p: Vec2, c: real, s: real, sc: Vec2)
    ensures Apply(Translate(p), Apply(Rotate(c, s), Apply(Scale(sc), Vec3(0.0, 0.0, 1.0)))) == Point(p)
  {
    assert Apply(Scale(sc), Vec3(0.0, 0.0, 1.0)) == Vec3(0.0, 0.0, 1.0);
    assert Apply(Rotate(c, s), Vec3(0.0, 0.0, 1.0)) == Vec3(0.0, 0.0, 1.0);
  }

  /** The tip of the model x axis lands on the position plus the scaled,
      rotated x axis. */
  lemma ObjectXformAxis(w: Mat3, p: Vec2, c: real, s: real, sc: Vec2)
    ensures Apply(ObjectXform(w, p, c, s, sc), Vec3(1.0, 0.0, 1.0))
            == Apply(w, Point(Add(p, ScaleBy(Vec2(c, s), sc.x))))
  {
    ObjectXformFactors(w, p, c, s, sc, Vec3(1.0, 0.0, 1.0));
    AxisPlaced(p, c, s, sc);
  }

  lemma AxisPlaced(p: Vec2, c: real, s: real, sc: Vec2)
    ensures Apply(Translate(p), Apply(Rotate(c, s), Apply(Scale(sc), Vec3(1.0, 0.0, 1.0))))
            == Point(Add(p, ScaleBy(Vec2(c, s), sc.x)))
  {
    assert Apply(Scale(sc), Vec3(1.0, 0.0, 1.0)) == Vec3(sc.x, 0.0, 1.0);
    assert Apply(Rotate(c, s), Vec3(sc.x, 0.0, 1.0)) == Vec3(c * sc.x, s * sc.x, 1.0);
  }

  lemma ObjectXformFactors(w: Mat3, p: Vec2, c: real, s: real, sc: Vec2, v: Vec3)
    ensures Apply(ObjectXform(w, p, c, s, sc), v)
            == Apply(w, Apply(Translate(p), Apply(Rotate(c, s), Apply(Scale(sc), v))))
  {
    var wt := Mul(w, Translate(p));
    ApplyMul(Mul(wt, Rotate(c, s)), Scale(sc), v);
    ApplyMul(wt, Rotate(c, s), Apply(Scale(sc), v));
    ApplyMul(w, Translate(p), Apply(Rotate(c, s), Apply(Scale(sc), v)));
  }

  class GLObject {
    var orientation: Vec2
    var position: Vec2
    const scaling: Vec2
    const color: Vec3
    /** The keys of the object's model and shader program. */
    const mdlRef: string
    const shdRef: string
    var mdlToNdcXform: Mat3

    function State(): ObjectState
      reads this
    {
      ObjectState(orientation, position, mdlToNdcXform)
    }

    constructor (orientation: Vec2, position: Vec2, scaling: Vec2, color: Vec3,
                 mdlRef: string, shdRef: string)
      ensures this.orientation == orientation && this.position == position
      ensures this.scaling == scaling && this.color == color
      ensures this.mdlRef == mdlRef && this.shdRef == shdRef
      ensures mdlToNdcXform == Identity
    {
      this.orientation := orientation;
      this.position := position;
      this.scaling := scaling;
      this.color := color;
      this.mdlRef := mdlRef;
      this.shdRef := shdRef;
      mdlToNdcXform := Identity;
    }

    /** GLObject::update, given the camera's world-to-NDC transform. */
    method Update(worldToNdc: Mat3, deltaTime: real, trig: Trig)
      modifies this
      ensures State() == Advance(old(State()), scaling, worldToNdc, deltaTime, trig)
    {
      ghost var before := State();
      var angle := orientation.x + orientation.y * deltaTime;
      orientation := Vec2(angle, orientation.y);
      var rotate := Rotate(Cos(trig, angle), Sin(trig, angle));
      var translate := Translate(position);
      var scale := Scale(scaling);
      mdlToNdcXform := Mul(Mul(Mul(worldToNdc, translate), rotate), scale);
      AdvanceSteps(before, scaling, worldToNdc, deltaTime, trig, angle);
    }
  }

  // ---------------------------------------------------------------- camera

  /** The camera's x axis for orientation theta. */
  function Right(theta: real, trig: Trig): Vec2 { Vec2(Cos(trig, theta), Sin(trig, theta)) }

  /** The camera's y axis for orientation theta. */
  function Up(theta: real, trig: Trig): Vec2 { Vec2(-Sin(trig, theta), Cos(trig, theta)) }

  /** The axes are an orthonormal, counter-clockwise basis. */
  lemma BasisOrthonormal(theta: real, trig: Trig)
    requires Pythagorean(trig, theta)
    ensures Dot(Right(theta, trig), Right(theta, trig)) == 1.0
    ensures Dot(Up(theta, trig), Up(theta, trig)) == 1.0
    ensures Dot(Right(theta, trig), Up(theta, trig)) == 0.0
    ensures Right(theta, trig).x * Up(theta, trig).y - Right(theta, trig).y * Up(theta, trig).x == 1.0
  {
  }

  /** camwin_to_ndc: a width x height window onto [-1, 1] x [-1, 1]. */
  function Projection(width: int, height: int): Mat3
    requires width != 0 && height != 0
  {
    FromColumns(2.0 / (width as real), 0.0, 0.0, 0.0, 2.0 / (height as real), 0.0, 0.0, 0.0, 1.0)
  }

  /** The view of a camera that does not turn with its object. */
  function WorldAlignedView(p: Vec2): Mat3 {
    FromColumns(1.0, 0.0, 0.0, 0.0, 1.0, 0.0, -p.x, -p.y, 1.0)
  }

  /** The view of a camera aligned with its object: a change of basis to
      (right, up) about the camera position. */
  function CameraAlignedView(right: Vec2, up: Vec2, p: Vec2): Mat3 {
    FromColumns(right.x, up.x, 0.0, right.y, up.y, 0.0, -Dot(right, p), -Dot(up, p), 1.0)
  }

  function View(camtypeFlag: bool, right: Vec2, up: Vec2, p: Vec2): Mat3 {
    if !camtypeFlag then WorldAlignedView(p) else CameraAlignedView(right, up, p)
  }

  /** Both views put the camera at the origin. */
  lemma ViewCentresCamera(camtypeFlag: bool, right: Vec2, up: Vec2, p: Vec2)
    ensures Apply(View(camtypeFlag, right, up, p), Point(p)) == Vec3(0.0, 0.0, 1.0)
    ensures IsAffine(View(camtypeFlag, right, up, p))
  {
  }

  /** The world-aligned view only translates: a point a and b units along the
      world axes from the camera ends up at (a, b). */
  lemma WorldAlignedOffsets(p: Vec2, a: real, b: real)
    ensures Apply(WorldAlignedView(p), Point(Vec2(p.x + a, p.y + b))) == Vec3(a, b, 1.0)
  {
  }

  /** The camera-aligned view reads a point in the camera's own axes: the
      point a units along `right` and b units along `up` from the camera ends
      up at (a, b). */
  lemma CameraAlignedOffsets(theta: real, trig: Trig, p: Vec2, a: real, b: real)
    requires Pythagorean(trig, theta)
    ensures var r := Right(theta, trig);
            var u := Up(theta, trig);
            Apply(CameraAlignedView(r, u, p), Point(Add(p, Add(ScaleBy(r, a), ScaleBy(u, b)))))
            == Vec3(a, b, 1.0)
  {
    BasisOrthonormal(theta, trig);
    OrthonormalOffsets(Right(theta, trig), Up(theta, trig), p, a, b);
  }

  lemma OrthonormalOffsets(r: Vec2, u: Vec2, p: Vec2, a: real, b: real)
    requires Dot(r, r) == 1.0 && Dot(u, u) == 1.0 && Dot(r, u) == 0.0
    ensures Apply(CameraAlignedView(r, u, p), Point(Add(p, Add(ScaleBy(r, a), ScaleBy(u, b)))))
            == Vec3(a, b, 1.0)
  {
    var q := Add(p, Add(ScaleBy(r, a), ScaleBy(u, b)));
    DotOfSum(r, p, a, r, b, u);
    DotOfSum(u, p, a, r, b, u);
    assert Dot(r, u) == Dot(u, r);
  }

  /** The dot product distributes over p + a x + b y. */
  lemma DotOfSum(w: Vec2, p: Vec2, a: real, x: Vec2, b: real, y: Vec2)
    ensures Dot(w, Add(p, Add(ScaleBy(x, a), ScaleBy(y, b)))) == Dot(w, p) + a * Dot(w, x) + b * Dot(w, y)
  {
  }

  /** The zoom direction: up from the bottom of the band, down from the top,
      unchanged in between. */
  function ZoomDir(height: int, dir: int, minHeight: int, maxHeight: int): int {
    if height <= minHeight then 1 else if height >= maxHeight then -1 else dir
  }

  /** The height band a zooming camera stays in. */
  predicate InZoomBand(height: int, minHeight: int, maxHeight: int, val: int) {
    minHeight - val <= height <= maxHeight + val
  }

  /** One frame of zoom keeps the height in the band and keeps the direction
      one of -1, 0, 1. */
  lemma ZoomStaysInBand(height: int, dir: int, minHeight: int, maxHeight: int, val: int)
    requires 0 <= val && minHeight <= maxHeight && -1 <= dir <= 1
    requires InZoomBand(height, minHeight, maxHeight, val)
    ensures var d := ZoomDir(height, dir, minHeight, maxHeight);
            -1 <= d <= 1 && InZoomBand(height + val * d, minHeight, maxHeight, val)
  {
  }

  /** Height after holding Z for `frames` frames. */
  function ZoomFrames(height: int, dir: int, minHeight: int, maxHeight: int, val: int, frames: nat): int
    decreases frames
  {
    if frames == 0 then height
    else
      var d := ZoomDir(height, dir, minHeight, maxHeight);
      ZoomFrames(height + val * d, d, minHeight, maxHeight, val, frames - 1)
  }

  /** However long Z is held, the height stays in the band. */
  lemma {:induction false} ZoomFramesInBand(height: int, dir: int, minHeight: int, maxHeight: int,
                                            val: int, frames: nat)
    requires 0 <= val && minHeight <= maxHeight && -1 <= dir <= 1
    requires InZoomBand(height, minHeight, maxHeight, val)
    ensures InZoomBand(ZoomFrames(height, dir, minHeight, maxHeight, val, frames), minHeight, maxHeight, val)
    decreases frames
  {
    if frames > 0 {
      ZoomStaysInBand(height, dir, minHeight, maxHeight, val);
      var d := ZoomDir(height, dir, minHeight, maxHeight);
      ZoomFramesInBand(height + val * d, d, minHeight, maxHeight, val, frames - 1);
    }
  }

  /** From the top of the band, holding Z lowers the height by `val` per frame
      until it reaches the bottom: the first half of the ping-pong. */
  lemma {:induction false} ZoomDescends(height: int, minHeight: int, maxHeight: int, val: int, frames: nat)
    requires 0 < val && minHeight < maxHeight <= height
    requires height - val * frames > minHeight
    ensures ZoomFrames(height, -1, minHeight, maxHeight, val, frames + 1)
            == height - val * (frames + 1)
  {
    DescendFrom(height - val, minHeight, maxHeight, val, frames);
  }

  lemma {:induction false} DescendFrom(height: int, minHeight: int, maxHeight: int, val: int, frames: nat)
    requires 0 < val
    requires height - val * (frames - 1) > minHeight || frames == 0
    requires frames > 0 ==> height > minHeight
    ensures ZoomFrames(height, -1, minHeight, maxHeight, val, frames) == height - val * frames
    decreases frames
  {
    if frames > 0 {
      if height >= maxHeight {
        assert ZoomDir(height, -1, minHeight, maxHeight) == -1;
      }
      DescendFrom(height - val, minHeight, maxHeight, val, frames - 1);
    }
  }

  /** From the bottom of the band, holding Z raises the height by `val` per
      frame until it reaches the top, whatever the direction was: the second
      half of the ping-pong. */
  lemma {:induction false} ZoomAscends(height: int, dir: int, minHeight: int, maxHeight: int,
                                       val: int, frames: nat)
    requires 0 < val && height <= minHeight < maxHeight
    requires height + val * frames < maxHeight
    ensures ZoomFrames(height, dir, minHeight, maxHeight, val, frames + 1)
            == height + val * (frames + 1)
  {
    AscendFrom(height + val, minHeight, maxHeight, val, frames);
  }

  lemma {:induction false} AscendFrom(height: int, minHeight: int, maxHeight: int, val: int, frames: nat)
    requires 0 < val
    requires height + val * (frames - 1) < maxHeight || frames == 0
    requires frames > 0 ==> height < maxHeight
    ensures ZoomFrames(height, 1, minHeight, maxHeight, val, frames) == height + val * frames
    decreases frames
  {
    if frames > 0 {
      if height <= minHeight {
        assert ZoomDir(height, 1, minHeight, maxHeight) == 1;
      }
      AscendFrom(height + val, minHeight, maxHeight, val, frames - 1);
    }
  }

  /** The orientation after H (turn left by dt) and K (turn right by dt). */
  function Turn(theta: real, h: bool, k: bool, dt: real): real {
    var a := if h then theta + 1.0 * dt else theta;
    if k then a - 1.0 * dt else a
  }

  /** The position after U: one step of linear_speed along `up`, with no dt. */
  function Pan(p: Vec2, u: bool, up: Vec2, linearSpeed: real): Vec2 {
    if u then Add(p, ScaleBy(up, linearSpeed)) else p
  }

  /** The width of the camera window: the aspect ratio is truncated to an
      integer before it multiplies the height. */
  function CamWidth(ar: real, height: int): int
    requires ar >= 0.0
  {
    ar.Floor * height
  }

  /** A landscape framebuffer gives a window at least as wide as it is high,
      and a multiple of its height. */
  lemma CamWidthPositive(fbWidth: int, fbHeight: int, height: int)
    requires fbWidth >= fbHeight > 0 && height > 0
    ensures var w := CamWidth((fbWidth as real) / (fbHeight as real), height);
            w >= height && w == ((fbWidth as real) / (fbHeight as real)).Floor * height
  {
    var ar := (fbWidth as real) / (fbHeight as real);
    assert ar >= 1.0;
    assert ar.Floor >= 1;
    MulAtLeast(ar.Floor, height);
  }

  lemma MulAtLeast(k: int, h: int)
    requires k >= 1 && h > 0
    ensures k * h >= h
  {
    assert (k - 1) * h >= 0;
  }

  /** `(int) ar * height` truncates the aspect ratio before it multiplies. A
      portrait framebuffer gives a window of width 0, whose projection
      divides 2 by 0. Any landscape framebuffer narrower than 2:1 gives a
      square window, whatever its aspect ratio. */
  lemma CamWidthTruncates(ar: real, height: int)
    requires 0.0 <= ar < 2.0
    ensures ar < 1.0 ==> CamWidth(ar, height) == 0
    ensures 1.0 <= ar ==> CamWidth(ar, height) == height
  {
  }

  /** The width evidently meant: the aspect ratio times the height, truncated
      once, so the camera window keeps the framebuffer's proportions. */
  function IntendedWidth(ar: real, height: int): (w: int)
    requires ar >= 0.0 && height >= 0
    ensures w >= 0
  {
    (ar * height as real).Floor
  }

  /** The intended width is ar * height to within one pixel, positive as soon
      as the window is a pixel wide, and never narrower than the width as
      written. */
  lemma IntendedWidthKeepsAspect(ar: real, height: int)
    requires ar > 0.0 && height > 0
    ensures var w := IntendedWidth(ar, height);
            w as real <= ar * height as real < w as real + 1.0
            && (ar * height as real >= 1.0 ==> w > 0)
            && CamWidth(ar, height) <= w
  {
    var k := ar.Floor;
    assert k as real <= ar;
    assert (k * height) as real == k as real * height as real;
    assert k as real * height as real <= ar * height as real;
  }

  /** The camera: it follows a scene object (`pgo`), and its fields keep the
      projection, view and world-to-NDC transforms of the current frame. */
  class Camera2D {
    var pgo: GLObject?
    var ar: real
    var width: int
    var height: int
    const minHeight: int
    const maxHeight: int
    var heightChgDir: int
    const heightChgVal: int
    const linearSpeed: real
    var camtypeFlag: bool
    var up: Vec2
    var right: Vec2
    var camwinToNdc: Mat3
    var view: Mat3
    var worldToNdc: Mat3

    /** The zoom settings keep the height positive. */
    predicate ZoomSettings()
      reads this
    {
      0 <= heightChgVal && minHeight <= maxHeight && minHeight - heightChgVal > 0
      && InZoomBand(height, minHeight, maxHeight, heightChgVal)
      && -1 <= heightChgDir <= 1
    }

    /** The camera follows an object, with zoom settings that keep the height
        positive. */
    predicate Valid()
      reads this
    {
      pgo != null && ZoomSettings()
    }

    /** The header's initial values; the followed object is set by Init. */
    constructor (height: int, minHeight: int, maxHeight: int, heightChgDir: int,
                 heightChgVal: int, linearSpeed: real)
      ensures pgo == null && this.height == height && this.minHeight == minHeight
      ensures this.maxHeight == maxHeight && this.heightChgDir == heightChgDir
      ensures this.heightChgVal == heightChgVal && this.linearSpeed == linearSpeed
      ensures !camtypeFlag
    {
      pgo := null;
      ar := 0.0;
      width := 0;
      this.height := height;
      this.minHeight := minHeight;
      this.maxHeight := maxHeight;
      this.heightChgDir := heightChgDir;
      this.heightChgVal := heightChgVal;
      this.linearSpeed := linearSpeed;
      camtypeFlag := false;
      up := Vec2(0.0, 1.0);
      right := Vec2(1.0, 0.0);
      camwinToNdc := Identity;
      view := Identity;
      worldToNdc := Identity;
    }

    /** Camera2D::init: follow `obj`, and set up a world-aligned view of the
        framebuffer's aspect ratio. */
    method Init(obj: GLObject, fbWidth: int, fbHeight: int, trig: Trig)
      requires fbWidth >= fbHeight > 0 && height > 0
      modifies this
      ensures ZoomSettings() == old(ZoomSettings())
      ensures pgo == obj && height == old(height) && camtypeFlag == old(camtypeFlag)
      ensures heightChgDir == old(heightChgDir)
      ensures ar == (fbWidth as real) / (fbHeight as real) && width == CamWidth(ar, height)
      ensures width > 0
      ensures camwinToNdc == Projection(width, height)
      ensures up == Up(obj.orientation.x, trig) && right == Right(obj.orientation.x, trig)
      ensures view == WorldAlignedView(obj.position)
      ensures worldToNdc == Mul(camwinToNdc, view)
    {
      pgo := obj;
      ar := (fbWidth as real) / (fbHeight as real);
      CamWidthPositive(fbWidth, fbHeight, height);
      width := ar.Floor * height;
      camwinToNdc := FromColumns(2.0 / (width as real), 0.0, 0.0,
                                 0.0, 2.0 / (height as real), 0.0,
                                 0.0, 0.0, 1.0);
      up := Vec2(-Sin(trig, pgo.orientation.x), Cos(trig, pgo.orientation.x));
      right := Vec2(Cos(trig, pgo.orientation.x), Sin(trig, pgo.orientation.x));
      view := FromColumns(1.0, 0.0, 0.0, 0.0, 1.0, 0.0, -obj.position.x, -obj.position.y, 1.0);
      worldToNdc := Mul(camwinToNdc, view);
    }

    /** Camera2D::update. The projection, axes and view come from the state
        before this frame's zoom, turn and pan; so does world_to_ndc. */
    method Update(keys: Keys, keystateVlast: bool, deltaTime: real,
                  fbWidth: int, fbHeight: int, trig: Trig)
      requires Valid() && fbWidth >= fbHeight > 0
      modifies this, pgo
      ensures Valid() && pgo == old(pgo)
      ensures ar == (fbWidth as real) / (fbHeight as real)
      ensures width == CamWidth(ar, old(height)) && width > 0
      ensures camwinToNdc == Projection(width, old(height))
      ensures up == Up(old(pgo.orientation.x), trig) && right == Right(old(pgo.orientation.x), trig)
      ensures camtypeFlag == (old(camtypeFlag) != RisingEdge(keys.v, keystateVlast))
      ensures view == View(camtypeFlag, right, up, old(pgo.position))
      ensures worldToNdc == Mul(camwinToNdc, view)
      ensures keys.z ==> heightChgDir == ZoomDir(old(height), old(heightChgDir), minHeight, maxHeight)
                         && height == old(height) + heightChgVal * heightChgDir
      ensures !keys.z ==> heightChgDir == old(heightChgDir) && height == old(height)
      ensures pgo.orientation == Vec2(Turn(old(pgo.orientation.x), keys.h, keys.k, deltaTime), old(pgo.orientation.y))
      ensures pgo.position == Pan(old(pgo.position), keys.u, up, linearSpeed)
      ensures pgo.mdlToNdcXform == old(pgo.mdlToNdcXform)
    {
      SetFrame(keys, keystateVlast, fbWidth, fbHeight, trig);
      MoveFollowed(keys, deltaTime);
      worldToNdc := Mul(camwinToNdc, view);
    }

    /** The part of update that sets the camera's own fields, in the source's
        order: projection, axes and view, then zoom. */
    method SetFrame(keys: Keys, keystateVlast: bool, fbWidth: int, fbHeight: int, trig: Trig)
      requires Valid() && fbWidth >= fbHeight > 0
      modifies this
      ensures Valid() && pgo == old(pgo) && worldToNdc == old(worldToNdc)
      ensures ar == (fbWidth as real) / (fbHeight as real)
      ensures width == CamWidth(ar, old(height)) && width > 0
      ensures camwinToNdc == Projection(width, old(height))
      ensures up == Up(pgo.orientation.x, trig) && right == Right(pgo.orientation.x, trig)
      ensures camtypeFlag == (old(camtypeFlag) != RisingEdge(keys.v, keystateVlast))
      ensures view == View(camtypeFlag, right, up, pgo.position)
      ensures keys.z ==> heightChgDir == ZoomDir(old(height), old(heightChgDir), minHeight, maxHeight)
                         && height == old(height) + heightChgVal * heightChgDir
      ensures !keys.z ==> heightChgDir == old(heightChgDir) && height == old(height)
    {
      SetProjection(fbWidth, fbHeight);
      SetView(keys.v, keystateVlast, trig);
      if keys.z {
        Zoom();
      }
    }

    /** Aspect ratio, window width and projection, from the current height. */
    method SetProjection(fbWidth: int, fbHeight: int)
      requires Valid() && fbWidth >= fbHeight > 0
      modifies this`ar, this`width, this`camwinToNdc
      ensures ar == (fbWidth as real) / (fbHeight as real)
      ensures width == CamWidth(ar, height) && width > 0
      ensures camwinToNdc == Projection(width, height)
    {
      ar := (fbWidth as real) / (fbHeight as real);
      CamWidthPositive(fbWidth, fbHeight, height);
      width := ar.Floor * height;
      camwinToNdc := FromColumns(2.0 / (width as real), 0.0, 0.0,
                                 0.0, 2.0 / (height as real), 0.0,
                                 0.0, 0.0, 1.0);
    }

    /** The axes from the followed object's orientation, the view mode
        toggled on a rising edge of V, and the view of that mode. */
    method SetView(v: bool, keystateVlast: bool, trig: Trig)
      requires pgo != null
      modifies this`up, this`right, this`camtypeFlag, this`view
      ensures up == Up(pgo.orientation.x, trig) && right == Right(pgo.orientation.x, trig)
      ensures camtypeFlag == (old(camtypeFlag) != RisingEdge(v, keystateVlast))
      ensures view == View(camtypeFlag, right, up, pgo.position)
    {
      up := Vec2(-Sin(trig, pgo.orientation.x), Cos(trig, pgo.orientation.x));
      right := Vec2(Cos(trig, pgo.orientation.x), Sin(trig, pgo.orientation.x));
      if v && v != keystateVlast {
        if camtypeFlag == false {
          camtypeFlag := true;
        } else {
          camtypeFlag := false;
        }
      }
      if !camtypeFlag {
        view := FromColumns(1.0, 0.0, 0.0, 0.0, 1.0, 0.0, -pgo.position.x, -pgo.position.y, 1.0);
      } else {
        var rightDotPosition := right.x * pgo.position.x + right.y * pgo.position.y;
        var upDotPosition := up.x * pgo.position.x + up.y * pgo.position.y;
        view := FromColumns(right.x, up.x, 0.0, right.y, up.y, 0.0, -rightDotPosition, -upDotPosition, 1.0);
      }
    }

    /** One frame of zoom while Z is held. */
    method Zoom()
      requires Valid()
      modifies this`height, this`heightChgDir
      ensures Valid()
      ensures heightChgDir == ZoomDir(old(height), old(heightChgDir), minHeight, maxHeight)
      ensures height == old(height) + heightChgVal * heightChgDir
    {
      ZoomStaysInBand(height, heightChgDir, minHeight, maxHeight, heightChgVal);
      if height <= minHeight {
        heightChgDir := 1;
      } else if height >= maxHeight {
        heightChgDir := -1;
      }
      height := height + heightChgVal * heightChgDir;
    }

    /** The part of update that moves the followed object: H turns it by
        +dt, K by -dt, U moves it one step of linear_speed along `up`. */
    method MoveFollowed(keys: Keys, deltaTime: real)
      requires pgo != null
      modifies pgo
      ensures pgo.orientation == Vec2(Turn(old(pgo.orientation.x), keys.h, keys.k, deltaTime), old(pgo.orientation.y))
      ensures pgo.position == Pan(old(pgo.position), keys.u, up, linearSpeed)
      ensures pgo.mdlToNdcXform == old(pgo.mdlToNdcXform)
    {
      if keys.h {
        pgo.orientation := Vec2(pgo.orientation.x + 1.0 * deltaTime, pgo.orientation.y);
      }
      if keys.k {
        pgo.orientation := Vec2(pgo.orientation.x - 1.0 * deltaTime, pgo.orientation.y);
      }
      if keys.u {
        pgo.position := Add(pgo.position, ScaleBy(up, linearSpeed));
      }
    }
  }

  /** What one camera update does to the world-to-NDC transform: the
      followed object's position before the pan lands on the centre of the
      screen, whichever view is in use. */
  lemma WorldToNdcCentresCamera(width: int, height: int, camtypeFlag: bool, right: Vec2, up: Vec2, p: Vec2)
    requires width != 0 && height != 0
    ensures Apply(Mul(Projection(width, height), View(camtypeFlag, right, up, p)), Point(p))
            == Vec3(0.0, 0.0, 1.0)
  {
    ApplyMul(Projection(width, height), View(camtypeFlag, right, up, p), Point(p));
    ViewCentresCamera(camtypeFlag, right, up, p);
  }
}
