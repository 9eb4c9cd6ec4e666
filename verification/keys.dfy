/**
 * The key table `bool keys[1024]` and key_callback, which GLFW calls on every
 * key event: a press marks the key held, a release marks it free, and Escape
 * pressed asks the window to close.
 */
module KeyInput {

  /** Size of the key table; key codes outside [0, KeyCount) are ignored. */
  const KeyCount := 1024

  /** GLFW action codes (GLFW_REPEAT, 2, and any other code change nothing). */
  const Release := 0
  const Press := 1

  /** GLFW key codes used by the handlers. */
  const KeyA := 65
  const KeyD := 68
  const KeyE := 69
  const KeyI := 73
  const KeyJ := 74
  const KeyK := 75
  const KeyL := 76
  const KeyO := 79
  const KeyP := 80
  const KeyQ := 81
  const KeyR := 82
  const KeyS := 83
  const KeyU := 85
  const KeyW := 87
  const KeyEscape := 256
  const KeyRightShift := 344
  const KeyRightControl := 345

  /** One call of key_callback: the key code and the action (scancode and mods are unused). */
  datatype KeyEvent = KeyEvent(key: int, action: int)

  /** Whether event e sets or clears entry k of the table. */
  predicate Touches(e: KeyEvent, k: int) {
    e.key == k && (e.action == Press || e.action == Release)
  }

  /**
   * The table after one event: entry key becomes true on a press and false
   * on a release; every other entry, and the whole table for a key outside
   * it or any other action, stays as it was.
   */
  function KeysAfter(held: seq<bool>, e: KeyEvent): (r: seq<bool>)
    requires |held| == KeyCount
    ensures |r| == KeyCount
    ensures forall k :: 0 <= k < KeyCount && k != e.key ==> r[k] == held[k]
    ensures 0 <= e.key < KeyCount && e.action == Press ==> r[e.key]
    ensures 0 <= e.key < KeyCount && e.action == Release ==> !r[e.key]
    ensures !Touches(e, e.key) || !(0 <= e.key < KeyCount) ==> r == held
  {
    if 0 <= e.key < KeyCount then
      if e.action == Press then held[e.key := true]
      else if e.action == Release then held[e.key := false]
      else held
    else
      held
  }

  /** The table after a run of events, oldest first. */
  function Replay(held: seq<bool>, events: seq<KeyEvent>): (r: seq<bool>)
    requires |held| == KeyCount
    ensures |r| == KeyCount
    decreases |events|
  {
    if events == [] then held
    else KeysAfter(Replay(held, events[..|events| - 1]), events[|events| - 1])
  }

  /** The most recent press or release of key k decides whether k is held. */
  lemma {:induction false} LastTouchDecides(held: seq<bool>, events: seq<KeyEvent>, k: int, n: int)
    requires |held| == KeyCount && 0 <= k < KeyCount
    requires 0 <= n < |events| && Touches(events[n], k)
    requires forall m :: n < m < |events| ==> !Touches(events[m], k)
    ensures Replay(held, events)[k] == (events[n].action == Press)
    decreases |events|
  {
    var last := |events| - 1;
    if n < last {
      var before := events[..last];
      assert before[n] == events[n];
      forall m | n < m < |before| ensures !Touches(before[m], k) {
        assert before[m] == events[m];
      }
      LastTouchDecides(held, before, k, n);
      assert !Touches(events[last], k);
    }
  }

  /** A key that no event pressed or released keeps its initial state. */
  lemma {:induction false} UntouchedKeyKept(held: seq<bool>, events: seq<KeyEvent>, k: int)
    requires |held| == KeyCount && 0 <= k < KeyCount
    requires forall m :: 0 <= m < |events| ==> !Touches(events[m], k)
    ensures Replay(held, events)[k] == held[k]
    decreases |events|
  {
    if events != [] {
      var last := |events| - 1;
      var before := events[..last];
      forall m | 0 <= m < |before| ensures !Touches(before[m], k) {
        assert before[m] == events[m];
      }
      UntouchedKeyKept(held, before, k);
      assert !Touches(events[last], k);
    }
  }

  /** The key table the program keeps; GLFW's callbacks write it, do_movement reads it. */
  class KeyTable {
    const keys: array<bool>

    predicate Valid() {
      keys.Length == KeyCount
    }

    /** A global bool array: every key starts released. */
    constructor ()
      ensures Valid() && fresh(keys)
      ensures forall k :: 0 <= k < KeyCount ==> !keys[k]
    {
      keys := new bool[KeyCount](_ => false);
    }

    /**
     * key_callback: records the event in the table and reports whether it
     * asks the window to close (Escape pressed).
     */
    method KeyCallback(key: int, action: int) returns (closeWindow: bool)
      requires Valid()
      modifies keys
      ensures Valid()
      ensures keys[..] == KeysAfter(old(keys[..]), KeyEvent(key, action))
      ensures closeWindow <==> key == KeyEscape && action == Press
    {
      closeWindow := key == KeyEscape && action == Press;
      if key >= 0 && key < KeyCount {
        if action == Press {
          keys[key] := true;
        } else if action == Release {
          keys[key] := false;
        }
      }
    }
  }
}
