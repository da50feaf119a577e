/** Edge-triggered input. Every tutorial polls a key or button once per frame
    and acts only when it is down now and was up in the previous frame; the
    previous state is stored at the end of the frame's update. */
module Input {

  /** The action fires: the key is down and differs from last frame's state. */
  predicate RisingEdge(now: bool, last: bool) {
    now && now != last
  }

  /** How many times an edge-triggered action fires over a run of frames, with
      `last` the state stored before the first frame and each frame's state
      stored for the next. */
  function Fires(last: bool, frames: seq<bool>): nat
    decreases |frames|
  {
    if frames == [] then 0
    else (if RisingEdge(frames[0], last) then 1 else 0) + Fires(frames[0], frames[1..])
  }

  /** A key held down over a run of frames fires at most once, and exactly
      once when it was up before the run. */
  lemma {:induction false} HeldFiresOnce(last: bool, frames: seq<bool>)
    decreases |frames|
    requires |frames| > 0
    requires forall i :: 0 <= i < |frames| ==> frames[i]
    ensures Fires(last, frames) == if last then 0 else 1
  {
    if |frames| > 1 {
      HeldFiresOnce(true, frames[1..]);
    }
  }

  /** An action fires no more often than the key is pressed: every firing
      needs a frame with the key up (or an up state before the run), so
      at most one firing more than the number of frames with the key up. */
  lemma {:induction false} FiresBoundedByReleases(last: bool, frames: seq<bool>)
    decreases |frames|
    ensures Fires(last, frames) <= Releases(frames) + (if last then 0 else 1)
  {
    if frames != [] {
      FiresBoundedByReleases(frames[0], frames[1..]);
    }
  }

  /** Number of frames in which the key is up. */
  function Releases(frames: seq<bool>): nat
    decreases |frames|
  {
    if frames == [] then 0
    else (if frames[0] then 0 else 1) + Releases(frames[1..])
  }
}
