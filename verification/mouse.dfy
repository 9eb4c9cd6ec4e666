/**
 * mouse_callback: turns cursor positions into the offsets that steer the
 * camera. The first event only records the position; every later one reports
 * how far the cursor moved since the previous event, with y flipped because
 * screen y grows downwards.
 */
module Mouse {

  /** lastX, lastY start at the centre of the 1200 x 600 window. */
  const WindowWidth: real := 1200.0
  const WindowHeight: real := 600.0

  /** lastX, lastY and firstMouse. */
  datatype CursorState = CursorState(lastX: real, lastY: real, firstMouse: bool)

  /** The offsets handed to Camera::ProcessMouseMovement and the state left behind. */
  datatype MouseOutcome = MouseOutcome(next: CursorState, xoffset: real, yoffset: real)

  const InitialCursor := CursorState(WindowWidth / 2.0, WindowHeight / 2.0, true)

  /**
   * One event at (xpos, ypos): the first event gives no movement; later
   * events give the displacement since the previous event; either way the
   * position is remembered and the next event is no longer the first.
   */
  function MouseStep(s: CursorState, xpos: real, ypos: real): (o: MouseOutcome)
    ensures o.next == CursorState(xpos, ypos, false)
    ensures s.firstMouse ==> o.xoffset == 0.0 && o.yoffset == 0.0
    ensures !s.firstMouse ==> o.xoffset == xpos - s.lastX && o.yoffset == s.lastY - ypos
  {
    var (lastX, lastY) := if s.firstMouse then (xpos, ypos) else (s.lastX, s.lastY);
    MouseOutcome(CursorState(xpos, ypos, false), xpos - lastX, lastY - ypos)
  }

  /** A run of events, oldest first: the final state and the offsets summed. */
  function MouseRun(s: CursorState, xs: seq<real>, ys: seq<real>): (o: MouseOutcome)
    requires |xs| == |ys|
    decreases |xs|
  {
    if xs == [] then MouseOutcome(s, 0.0, 0.0)
    else
      var before := MouseRun(s, xs[..|xs| - 1], ys[..|ys| - 1]);
      var step := MouseStep(before.next, xs[|xs| - 1], ys[|ys| - 1]);
      MouseOutcome(step.next, before.xoffset + step.xoffset, before.yoffset + step.yoffset)
  }

  /**
   * The offsets of a run add up to the displacement from where the cursor
   * was first seen to where it is now, whatever path it took: the camera
   * turns by the net movement.
   */
  lemma {:induction false} MouseRunTelescopes(s: CursorState, xs: seq<real>, ys: seq<real>)
    requires |xs| == |ys| && |xs| > 0
    ensures MouseRun(s, xs, ys).next == CursorState(xs[|xs| - 1], ys[|ys| - 1], false)
    ensures var startX := if s.firstMouse then xs[0] else s.lastX;
            MouseRun(s, xs, ys).xoffset == xs[|xs| - 1] - startX
    ensures var startY := if s.firstMouse then ys[0] else s.lastY;
            MouseRun(s, xs, ys).yoffset == startY - ys[|ys| - 1]
    decreases |xs|
  {
    var n := |xs| - 1;
    if n > 0 {
      var xs', ys' := xs[..n], ys[..n];
      MouseRunTelescopes(s, xs', ys');
      assert xs'[0] == xs[0] && ys'[0] == ys[0];
      assert xs'[n - 1] == xs[n - 1] && ys'[n - 1] == ys[n - 1];
    }
  }

  /** The globals lastX, lastY and firstMouse. */
  class Cursor {
    var lastX: real
    var lastY: real
    var firstMouse: bool

    function State(): CursorState
      reads this
    {
      CursorState(lastX, lastY, firstMouse)
    }

    constructor ()
      ensures State() == InitialCursor
    {
      lastX, lastY, firstMouse := WindowWidth / 2.0, WindowHeight / 2.0, true;
    }

    /**
     * mouse_callback: returns the offsets it passes to the camera and leaves
     * the cursor state as MouseStep does.
     */
    method MouseCallback(xpos: real, ypos: real) returns (xoffset: real, yoffset: real)
      modifies this
      ensures State() == MouseStep(old(State()), xpos, ypos).next
      ensures xoffset == MouseStep(old(State()), xpos, ypos).xoffset
      ensures yoffset == MouseStep(old(State()), xpos, ypos).yoffset
    {
      if firstMouse {
        lastX := xpos;
        lastY := ypos;
        firstMouse := false;
      }
      xoffset := xpos - lastX;
      yoffset := lastY - ypos;
      lastX := xpos;
      lastY := ypos;
    }
  }
}
