/**
 * scroll_callback: the wheel zooms by changing the field of view, which is
 * kept between 1 and 45 degrees.
 */
module Scroll {

  const MinFov: real := 1.0
  const MaxFov: real := 45.0

  /**
   * The field of view after one wheel event: the wheel's y offset is taken
   * off only when fov is already in [1, 45], and the result is clamped to
   * [1, 45] either way.
   */
  function ScrollFov(fov: real, yoffset: real): (r: real)
    ensures MinFov <= r <= MaxFov
    ensures MinFov <= fov <= MaxFov && MinFov <= fov - yoffset <= MaxFov ==> r == fov - yoffset
    ensures MinFov <= fov <= MaxFov && fov - yoffset < MinFov ==> r == MinFov
    ensures MinFov <= fov <= MaxFov && fov - yoffset > MaxFov ==> r == MaxFov
    ensures fov < MinFov ==> r == MinFov
    ensures fov > MaxFov ==> r == MaxFov
  {
    var applied := if MinFov <= fov <= MaxFov then fov - yoffset else fov;
    var raised := if applied <= MinFov then MinFov else applied;
    if raised >= MaxFov then MaxFov else raised
  }

  /** fov after a run of wheel events, oldest first. */
  function ScrollRun(fov: real, ys: seq<real>): real
    decreases |ys|
  {
    if ys == [] then fov else ScrollFov(ScrollRun(fov, ys[..|ys| - 1]), ys[|ys| - 1])
  }

  function Sum(ys: seq<real>): real
    decreases |ys|
  {
    if ys == [] then 0.0 else Sum(ys[..|ys| - 1]) + ys[|ys| - 1]
  }

  /**
   * Starting in range, as long as every partial zoom stays in range the
   * wheel offsets are simply subtracted: the clamp never interferes.
   */
  lemma {:induction false} ScrollRunUnclamped(fov: real, ys: seq<real>)
    requires MinFov <= fov <= MaxFov
    requires forall n :: 0 <= n <= |ys| ==> MinFov <= fov - Sum(ys[..n]) <= MaxFov
    ensures ScrollRun(fov, ys) == fov - Sum(ys)
    decreases |ys|
  {
    if ys != [] {
      var m := |ys| - 1;
      var before := ys[..m];
      forall n | 0 <= n <= |before| ensures MinFov <= fov - Sum(before[..n]) <= MaxFov {
        assert before[..n] == ys[..n];
      }
      ScrollRunUnclamped(fov, before);
      assert ys[..|ys|] == ys;
      assert MinFov <= fov - Sum(ys[..m]) <= MaxFov;
    }
  }

  /** After at least one wheel event fov is in range whatever it started at. */
  lemma ScrollRunInRange(fov: real, ys: seq<real>)
    requires |ys| > 0
    ensures MinFov <= ScrollRun(fov, ys) <= MaxFov
  {
  }

  /** Scrolling up (positive y offset) never widens the view once fov is in range. */
  lemma ScrollUpZoomsIn(fov: real, yoffset: real)
    requires MinFov <= fov <= MaxFov && yoffset >= 0.0
    ensures ScrollFov(fov, yoffset) <= fov
  {
  }

  /** The global fov, initially 45 degrees. */
  class Zoom {
    var fov: real

    constructor ()
      ensures fov == MaxFov
    {
      fov := 45.0;
    }

    /** scroll_callback; the x offset is unused. */
    method ScrollCallback(xoffset: real, yoffset: real)
      modifies this
      ensures fov == ScrollFov(old(fov), yoffset)
      ensures MinFov <= fov <= MaxFov
    {
      if fov >= 1.0 && fov <= 45.0 {
        fov := fov - yoffset;
      }
      if fov <= 1.0 {
        fov := 1.0;
      }
      if fov >= 45.0 {
        fov := 45.0;
      }
    }
  }
}
