/** Tutorial 5: a textured rectangle whose shader settings the user cycles
    with the keyboard. Every frame the update advances a phase that drives
    the tile size, steps the shader mode on T and toggles modulation on M
    and blending on A; the draw picks the texture wrap mode from the shader
    mode and enables blending from the blend flag. */
module Texture {
  import opened Affine
  import opened Input

  /** Smallest tile size, and the amplitude added to it. */
  const SMin: int := 16
  const SMax: int := 256

  /** The phase is reset once it passes this value. */
  const PhaseLimit: real := 3.14

  /** Shader modes run 0 ..= LastMode. */
  const LastMode: int := 6

  /** The keys the update polls. */
  datatype Keys = Keys(t: bool, m: bool, a: bool)

  /** C's conversion of a floating value to int: truncation toward zero. */
  function Trunc(x: real): (r: int)
    ensures x >= 0.0 ==> r >= 0 && r as real <= x < r as real + 1.0
    ensures x < 0.0 ==> r <= 0 && r as real - 1.0 < x <= r as real
  {
    if x >= 0.0 then x.Floor else -((-x).Floor)
  }

  /** The phase after a frame of dt seconds. */
  function NextPhase(changes: real, dt: real): real {
    var c := changes + dt / 5.0;
    if c > PhaseLimit then 0.0 else c
  }

  /** A phase in [0, PhaseLimit] stays there for any frame time that is not
      negative, and it grows by dt/5 unless it wraps to 0. */
  lemma PhaseInRange(changes: real, dt: real)
    requires 0.0 <= changes <= PhaseLimit && dt >= 0.0
    ensures 0.0 <= NextPhase(changes, dt) <= PhaseLimit
    ensures NextPhase(changes, dt) == changes + dt / 5.0 || NextPhase(changes, dt) == 0.0
  {
  }

  /** The tile size for a sine value s. */
  function TileSize(s: real): int {
    SMin + Trunc(s * SMax as real)
  }

  /** With the sine of the phase in [0, 1] the tile size lies in
      [SMin, SMin + SMax], and it grows with the sine. */
  lemma TileSizeBounds(s: real, s': real)
    requires 0.0 <= s <= s' <= 1.0
    ensures SMin <= TileSize(s) <= TileSize(s') <= SMin + SMax
  {
    assert s * SMax as real <= s' * SMax as real;
  }

  /** The mode after one press of T. */
  function NextMode(mode: int): int {
    if mode + 1 > LastMode then 0 else mode + 1
  }

  /** The shader mode after one frame with T in state `now`. */
  function StepMode(mode: int, now: bool, last: bool): int {
    if RisingEdge(now, last) then NextMode(mode) else mode
  }

  /** A flag after one frame of its toggle key in state `now`. */
  function Toggle(flag: bool, now: bool, last: bool): bool {
    if RisingEdge(now, last) then !flag else flag
  }

  /** The shader mode after a run of frames, each storing T's state for the
      next. */
  function ModeAfter(mode: int, last: bool, frames: seq<bool>): int
    decreases |frames|
  {
    if frames == [] then mode
    else ModeAfter(StepMode(mode, frames[0], last), frames[0], frames[1..])
  }

  /** A flag after a run of frames of its toggle key. */
  function ToggledAfter(flag: bool, last: bool, frames: seq<bool>): bool
    decreases |frames|
  {
    if frames == [] then flag
    else ToggledAfter(Toggle(flag, frames[0], last), frames[0], frames[1..])
  }

  /** Modes cycle with period LastMode + 1: the mode after a run of frames is
      the start plus the number of presses, modulo 7. */
  lemma {:induction false} ModeCountsPresses(mode: int, last: bool, frames: seq<bool>)
    requires 0 <= mode <= LastMode
    ensures ModeAfter(mode, last, frames) == (mode + Fires(last, frames)) % (LastMode + 1)
    decreases |frames|
  {
    if frames != [] {
      var m := StepMode(mode, frames[0], last);
      ModeCountsPresses(m, frames[0], frames[1..]);
      var f := Fires(frames[0], frames[1..]);
      if RisingEdge(frames[0], last) {
        assert (m + f) % 7 == (mode + 1 + f) % 7;
      }
    }
  }

  /** A toggled flag has flipped once per press. */
  lemma {:induction false} ToggleCountsPresses(flag: bool, last: bool, frames: seq<bool>)
    ensures ToggledAfter(flag, last, frames) == (flag != (Fires(last, frames) % 2 == 1))
    decreases |frames|
  {
    if frames != [] {
      ToggleCountsPresses(Toggle(flag, frames[0], last), frames[0], frames[1..]);
    }
  }

  // ---------------------------------------------------------------- draw

  /** The texture wrap modes the draw can set. GL_REPEAT is a texture
      object's initial wrap mode. */
  datatype WrapMode = Repeat | MirroredRepeat | ClampToEdge

  /** The wrap mode a shader mode asks for, if any. */
  datatype WrapChoice = Keep | SetWrap(mode: WrapMode)

  function WrapFor(shaderMode: int): WrapChoice {
    if shaderMode == 4 then SetWrap(Repeat)
    else if shaderMode == 5 then SetWrap(MirroredRepeat)
    else if shaderMode == 6 then SetWrap(ClampToEdge)
    else Keep
  }

  function Chosen(prev: WrapMode, shaderMode: int): WrapMode {
    match WrapFor(shaderMode)
    case Keep => prev
    case SetWrap(w) => w
  }

  /** The wrap mode after drawing in each of `modes`, in order. */
  function WrapAfter(prev: WrapMode, modes: seq<int>): WrapMode {
    if modes == [] then prev
    else Chosen(WrapAfter(prev, modes[..|modes| - 1]), modes[|modes| - 1])
  }

  predicate SetsWrap(shaderMode: int) { 4 <= shaderMode <= 6 }

  /** The wrap mode is the one of the last draw in modes 4, 5 or 6. */
  lemma {:induction false} LastWrapModeDecides(prev: WrapMode, modes: seq<int>, k: nat)
    requires k < |modes| && SetsWrap(modes[k])
    requires forall j :: k < j < |modes| ==> !SetsWrap(modes[j])
    ensures WrapAfter(prev, modes) == WrapFor(modes[k]).mode
    decreases |modes|
  {
    if k < |modes| - 1 {
      assert modes[..|modes| - 1][k] == modes[k];
      LastWrapModeDecides(prev, modes[..|modes| - 1], k);
    }
  }

  /** Draws in modes 0 to 3 leave the wrap mode as it was. */
  lemma {:induction false} OtherModesKeepWrap(prev: WrapMode, modes: seq<int>)
    requires forall j :: 0 <= j < |modes| ==> !SetsWrap(modes[j])
    ensures WrapAfter(prev, modes) == prev
    decreases |modes|
  {
    if modes != [] {
      OtherModesKeepWrap(prev, modes[..|modes| - 1]);
    }
  }

  /** The rectangle model's update and draw state. The source keeps it in
      file-scope globals; `wrapS`, `wrapT` and `blendEnabled` stand for the
      texture object's and the context's state. */
  class GLModel {
    var changes: real
    var uTileSize: int
    var shaderMode: int
    var uModulate: bool
    var uBlend: bool
    var tlast: bool
    var mlast: bool
    var alast: bool
    var wrapS: WrapMode
    var wrapT: WrapMode
    var blendEnabled: bool

    predicate Valid()
      reads this
    {
      0.0 <= changes <= PhaseLimit && 0 <= shaderMode <= LastMode
    }

    /** The globals' initial values. */
    constructor ()
      ensures Valid()
      ensures changes == 0.0 && uTileSize == 32 && shaderMode == 0
      ensures !uModulate && !uBlend && !tlast && !mlast && !alast
      ensures wrapS == Repeat && wrapT == Repeat && !blendEnabled
    {
      changes := 0.0;
      uTileSize := 32;
      shaderMode := 0;
      uModulate := false;
      uBlend := false;
      tlast := false;
      mlast := false;
      alast := false;
      wrapS := Repeat;
      wrapT := Repeat;
      blendEnabled := false;
    }

    /** GLModel::update. `Sin(trig, _)` stands for the C library's sin. */
    method Update(deltaTime: real, keys: Keys, trig: Trig)
      modifies this`changes, this`uTileSize, this`shaderMode, this`uModulate, this`uBlend
      modifies this`tlast, this`mlast, this`alast
      ensures changes == NextPhase(old(changes), deltaTime)
      ensures uTileSize == TileSize(Sin(trig, changes))
      ensures shaderMode == StepMode(old(shaderMode), keys.t, old(tlast))
      ensures uModulate == Toggle(old(uModulate), keys.m, old(mlast))
      ensures uBlend == Toggle(old(uBlend), keys.a, old(alast))
      ensures tlast == keys.t && mlast == keys.m && alast == keys.a
      ensures old(Valid()) && deltaTime >= 0.0 ==> Valid()
    {
      AdvancePhase(deltaTime, trig);
      PollKeys(keys);
    }

    /** The first half of update: the phase and the tile size it drives. */
    method AdvancePhase(deltaTime: real, trig: Trig)
      modifies this`changes, this`uTileSize
      ensures changes == NextPhase(old(changes), deltaTime)
      ensures uTileSize == TileSize(Sin(trig, changes))
      ensures 0.0 <= old(changes) <= PhaseLimit && deltaTime >= 0.0 ==> 0.0 <= changes <= PhaseLimit
    {
      changes := changes + deltaTime / 5.0;
      if changes > PhaseLimit {
        changes := 0.0;
      }
      uTileSize := SMin + Trunc(Sin(trig, changes) * SMax as real);
    }

    /** The second half of update: the three edge-triggered keys. */
    method PollKeys(keys: Keys)
      modifies this`shaderMode, this`uModulate, this`uBlend, this`tlast, this`mlast, this`alast
      ensures shaderMode == StepMode(old(shaderMode), keys.t, old(tlast))
      ensures uModulate == Toggle(old(uModulate), keys.m, old(mlast))
      ensures uBlend == Toggle(old(uBlend), keys.a, old(alast))
      ensures tlast == keys.t && mlast == keys.m && alast == keys.a
      ensures 0 <= old(shaderMode) <= LastMode ==> 0 <= shaderMode <= LastMode
    {
      if keys.t && tlast != keys.t {
        shaderMode := if shaderMode + 1 > LastMode then 0 else shaderMode + 1;
      }
      if keys.m && mlast != keys.m {
        uModulate := !uModulate;
      }
      if keys.a && alast != keys.a {
        uBlend := !uBlend;
      }
      tlast := keys.t;
      mlast := keys.m;
      alast := keys.a;
    }

    /** The state GLModel::draw sets before drawing: the wrap mode of modes
        4, 5 and 6 on both texture axes, blending on exactly when uBlend is
        set, and the three uniforms, returned. */
    method Draw() returns (tileSize: int, mode: int, modulate: bool)
      modifies this`wrapS, this`wrapT, this`blendEnabled
      ensures wrapS == Chosen(old(wrapS), shaderMode) && wrapT == Chosen(old(wrapT), shaderMode)
      ensures blendEnabled == uBlend
      ensures tileSize == uTileSize && mode == shaderMode && modulate == uModulate
    {
      if shaderMode == 4 {
        wrapS := Repeat;
        wrapT := Repeat;
      } else if shaderMode == 5 {
        wrapS := MirroredRepeat;
        wrapT := MirroredRepeat;
      } else if shaderMode == 6 {
        wrapS := ClampToEdge;
        wrapT := ClampToEdge;
      }
      if uBlend {
        blendEnabled := true;
      } else {
        blendEnabled := false;
      }
      tileSize, mode, modulate := uTileSize, shaderMode, uModulate;
    }
  }
}
