/**
 * do_movement, run once per frame: reads the key table and moves the camera
 * (W, S, A, D, Q, E), asks for a screenshot (P), and changes the boxes'
 * rotation angles (U/J, I/K, O/L), their scale (the same keys with right
 * Shift) and their translation (the same keys with right Control); R resets
 * rotation and scale.
 */
module Movement {
  import opened Vectors
  import opened KeyInput

  /** Every rotation, scale and translation key changes its value by 0.01 per frame. */
  const Step: real := 0.01

  /** The directions of Camera::ProcessKeyboard. */
  datatype CameraMovement = Forward | Backward | Left | Right | Up | Down

  /** The key that moves the camera in direction m. */
  function MoveKey(m: CameraMovement): int {
    match m
    case Forward => KeyW
    case Backward => KeyS
    case Left => KeyA
    case Right => KeyD
    case Up => KeyQ
    case Down => KeyE
  }

  /** The order in which do_movement tests the camera keys. */
  function MoveRank(m: CameraMovement): int {
    match m
    case Forward => 0
    case Backward => 1
    case Left => 2
    case Right => 3
    case Up => 4
    case Down => 5
  }

  /** Every direction, in the order do_movement tests its key. */
  const AllMoves := [Forward, Backward, Left, Right, Up, Down]

  /** [m] when the key of m is held, [] otherwise. */
  function IfHeld(held: seq<bool>, m: CameraMovement): seq<CameraMovement>
    requires |held| == KeyCount
  {
    if held[MoveKey(m)] then [m] else []
  }

  /** The directions of ms whose key is held, in the order of ms. */
  function HeldMoves(held: seq<bool>, ms: seq<CameraMovement>): seq<CameraMovement>
    requires |held| == KeyCount
    decreases |ms|
  {
    if ms == [] then [] else HeldMoves(held, ms[..|ms| - 1]) + IfHeld(held, ms[|ms| - 1])
  }

  /** A direction is kept exactly when it is in ms and its key is held. */
  lemma {:induction false} HeldMovesMembers(held: seq<bool>, ms: seq<CameraMovement>, m: CameraMovement)
    requires |held| == KeyCount
    ensures m in HeldMoves(held, ms) <==> m in ms && held[MoveKey(m)]
    decreases |ms|
  {
    if ms != [] {
      var last := |ms| - 1;
      HeldMovesMembers(held, ms[..last], m);
      assert ms == ms[..last] + [ms[last]];
    }
  }

  predicate RankedAscending(ms: seq<CameraMovement>) {
    forall a, b :: 0 <= a < b < |ms| ==> MoveRank(ms[a]) < MoveRank(ms[b])
  }

  /** Keeping only the held directions keeps them in the order they were tested. */
  lemma {:induction false} HeldMovesOrdered(held: seq<bool>, ms: seq<CameraMovement>)
    requires |held| == KeyCount && RankedAscending(ms)
    ensures RankedAscending(HeldMoves(held, ms))
    decreases |ms|
  {
    if ms != [] {
      var last := |ms| - 1;
      var front := ms[..last];
      assert RankedAscending(front) by {
        forall a, b | 0 <= a < b < |front| ensures MoveRank(front[a]) < MoveRank(front[b]) {
          assert front[a] == ms[a] && front[b] == ms[b];
        }
      }
      HeldMovesOrdered(held, front);
      forall m | m in HeldMoves(held, front) ensures MoveRank(m) < MoveRank(ms[last]) {
        HeldMovesMembers(held, front, m);
        var a :| 0 <= a < |front| && front[a] == m;
        assert ms[a] == m;
      }
    }
  }

  /** Every direction is tested. */
  lemma AllMovesComplete(m: CameraMovement)
    ensures m in AllMoves
  {
    match m
    case Forward => assert AllMoves[0] == m;
    case Backward => assert AllMoves[1] == m;
    case Left => assert AllMoves[2] == m;
    case Right => assert AllMoves[3] == m;
    case Up => assert AllMoves[4] == m;
    case Down => assert AllMoves[5] == m;
  }

  /**
   * The camera calls of one frame: one call per held camera key, each
   * direction at most once, in the order W, S, A, D, Q, E.
   */
  function CameraMoves(held: seq<bool>): (moves: seq<CameraMovement>)
    requires |held| == KeyCount
    ensures forall m :: m in moves <==> held[MoveKey(m)]
    ensures RankedAscending(moves)
  {
    HeldMovesOrdered(held, AllMoves);
    forall m ensures m in HeldMoves(held, AllMoves) <==> held[MoveKey(m)] {
      AllMovesComplete(m);
      HeldMovesMembers(held, AllMoves, m);
    }
    HeldMoves(held, AllMoves)
  }

  /** alpha, beta, gamma (rotation angles about X, Y, Z), boxScale and boxTranslate. */
  datatype BoxState = BoxState(alpha: real, beta: real, gamma: real, boxScale: Vec3, boxTranslate: Vec3)

  const InitialBox := BoxState(0.0, 0.0, 0.0, One3, Zero3)

  /** The net change from a pair of keys: +Step if the first is held, -Step if the second is. */
  function Axis(held: seq<bool>, plus: int, minus: int): real
    requires |held| == KeyCount && 0 <= plus < KeyCount && 0 <= minus < KeyCount
  {
    (if held[plus] then Step else 0.0) - (if held[minus] then Step else 0.0)
  }

  /** The same, but only while the modifier key is held as well. */
  function AxisWith(held: seq<bool>, modifier: int, plus: int, minus: int): real
    requires |held| == KeyCount && 0 <= modifier < KeyCount && 0 <= plus < KeyCount && 0 <= minus < KeyCount
  {
    if held[modifier] then Axis(held, plus, minus) else 0.0
  }

  /** The change that U/J, I/K, O/L make to X, Y, Z while the modifier is held. */
  function Nudge(held: seq<bool>, modifier: int): Vec3
    requires |held| == KeyCount && 0 <= modifier < KeyCount
  {
    Vec3(AxisWith(held, modifier, KeyU, KeyJ), AxisWith(held, modifier, KeyI, KeyK), AxisWith(held, modifier, KeyO, KeyL))
  }

  /**
   * The box state after one frame with the given keys held, as a closed
   * form: the rotation keys move the angles unless R resets them; the scale
   * starts again from (1, 1, 1) when R is held and then takes the Shift
   * nudges; the translation takes the Control nudges whatever R does.
   */
  function AfterMovement(held: seq<bool>, s: BoxState): BoxState
    requires |held| == KeyCount
  {
    var reset := held[KeyR];
    BoxState(
      if reset then 0.0 else s.alpha + Axis(held, KeyU, KeyJ),
      if reset then 0.0 else s.beta + Axis(held, KeyI, KeyK),
      if reset then 0.0 else s.gamma + Axis(held, KeyO, KeyL),
      (if reset then One3 else s.boxScale).Plus(Nudge(held, KeyRightShift)),
      s.boxTranslate.Plus(Nudge(held, KeyRightControl)))
  }

  /** With R held the box ends the frame unrotated, whatever else is held. */
  lemma ResetClearsRotation(held: seq<bool>, s: BoxState)
    requires |held| == KeyCount && held[KeyR]
    ensures var r := AfterMovement(held, s); r.alpha == 0.0 && r.beta == 0.0 && r.gamma == 0.0
  {
  }

  /**
   * R resets the scale before the Shift keys act on it: with R and right
   * Shift held, the scale is (1, 1, 1) plus that frame's nudges, and with R
   * alone it is exactly (1, 1, 1).
   */
  lemma ResetPrecedesScaling(held: seq<bool>, s: BoxState)
    requires |held| == KeyCount && held[KeyR]
    ensures AfterMovement(held, s).boxScale == One3.Plus(Nudge(held, KeyRightShift))
    ensures !held[KeyRightShift] ==> AfterMovement(held, s).boxScale == One3
  {
  }

  /** R never touches the translation: the frame moves the box the same with or without it. */
  lemma TranslationIgnoresReset(held: seq<bool>, s: BoxState)
    requires |held| == KeyCount
    ensures AfterMovement(held[KeyR := true], s).boxTranslate == AfterMovement(held[KeyR := false], s).boxTranslate
  {
    var withR, withoutR := held[KeyR := true], held[KeyR := false];
    assert Nudge(withR, KeyRightControl) == Nudge(withoutR, KeyRightControl);
  }

  /** With no key held a frame changes nothing and calls nothing. */
  lemma IdleFrame(held: seq<bool>, s: BoxState)
    requires |held| == KeyCount && forall k :: 0 <= k < KeyCount ==> !held[k]
    ensures AfterMovement(held, s) == s
    ensures CameraMoves(held) == []
  {
    assert !held[KeyR] && !held[KeyRightShift] && !held[KeyRightControl];
    assert !held[KeyU] && !held[KeyJ] && !held[KeyI] && !held[KeyK] && !held[KeyO] && !held[KeyL];
    CameraMovesInOrder(held);
  }

  /** In exact arithmetic, holding both keys of a pair cancels: the angle, the scale and the position stay put. */
  lemma OpposingKeysCancel(held: seq<bool>, s: BoxState)
    requires |held| == KeyCount && !held[KeyR]
    requires held[KeyU] && held[KeyJ] && held[KeyI] && held[KeyK] && held[KeyO] && held[KeyL]
    ensures AfterMovement(held, s) == s
  {
    assert Nudge(held, KeyRightShift) == Zero3 && Nudge(held, KeyRightControl) == Zero3;
  }

  /** The box-transform globals that do_movement changes. */
  class BoxTransform {
    var alpha: real
    var beta: real
    var gamma: real
    var boxScale: Vec3
    var boxTranslate: Vec3

    function State(): BoxState
      reads this
    {
      BoxState(alpha, beta, gamma, boxScale, boxTranslate)
    }

    constructor ()
      ensures State() == InitialBox
    {
      alpha, beta, gamma := 0.0, 0.0, 0.0;
      boxScale := Vec3(1.0, 1.0, 1.0);
      boxTranslate := Vec3(0.0, 0.0, 0.0);
    }

    /**
     * do_movement: returns the camera calls it makes, in order, and whether
     * it saves a screenshot; the box state follows AfterMovement.
     */
    method DoMovement(table: KeyTable) returns (moves: seq<CameraMovement>, screenshot: bool)
      requires table.Valid()
      modifies this
      ensures State() == AfterMovement(table.keys[..], old(State()))
      ensures moves == CameraMoves(table.keys[..])
      ensures screenshot == table.keys[KeyP]
    {
      var keys := table.keys;
      moves := CameraKeys(keys);
      screenshot := keys[KeyP];
      RotationKeys(keys);
      ResetKey(keys);
      ScaleKeys(keys);
      TranslationKeys(keys);
    }

    /** U/J, I/K, O/L turn the box about X, Y, Z by 0.01 per frame. */
    method RotationKeys(keys: array<bool>)
      requires keys.Length == KeyCount
      modifies this`alpha, this`beta, this`gamma
      ensures alpha == old(alpha) + Axis(keys[..], KeyU, KeyJ)
      ensures beta == old(beta) + Axis(keys[..], KeyI, KeyK)
      ensures gamma == old(gamma) + Axis(keys[..], KeyO, KeyL)
    {
      if keys[KeyU] { alpha := alpha + 0.01; }
      if keys[KeyJ] { alpha := alpha - 0.01; }
      if keys[KeyI] { beta := beta + 0.01; }
      if keys[KeyK] { beta := beta - 0.01; }
      if keys[KeyO] { gamma := gamma + 0.01; }
      if keys[KeyL] { gamma := gamma - 0.01; }
    }

    /** R resets rotation and scale. */
    method ResetKey(keys: array<bool>)
      requires keys.Length == KeyCount
      modifies this`alpha, this`beta, this`gamma, this`boxScale
      ensures State() == if keys[KeyR] then old(State()).(alpha := 0.0, beta := 0.0, gamma := 0.0, boxScale := One3)
                         else old(State())
    {
      if keys[KeyR] {
        alpha := 0.0;
        beta := 0.0;
        gamma := 0.0;
        boxScale := Vec3(1.0, 1.0, 1.0);
      }
    }

    /** With right Shift, U/J, I/K, O/L grow or shrink the box along X, Y, Z by 0.01 per frame. */
    method ScaleKeys(keys: array<bool>)
      requires keys.Length == KeyCount
      modifies this`boxScale
      ensures boxScale == old(boxScale).Plus(Nudge(keys[..], KeyRightShift))
    {
      ghost var was, held := boxScale, keys[..];
      if keys[KeyU] && keys[KeyRightShift] { boxScale := boxScale.Plus(Vec3(0.01, 0.0, 0.0)); }
      if keys[KeyJ] && keys[KeyRightShift] { boxScale := boxScale.Minus(Vec3(0.01, 0.0, 0.0)); }
      assert boxScale == Vec3(was.x + AxisWith(held, KeyRightShift, KeyU, KeyJ), was.y, was.z);
      if keys[KeyI] && keys[KeyRightShift] { boxScale := boxScale.Plus(Vec3(0.0, 0.01, 0.0)); }
      if keys[KeyK] && keys[KeyRightShift] { boxScale := boxScale.Minus(Vec3(0.0, 0.01, 0.0)); }
      assert boxScale == Vec3(was.x + AxisWith(held, KeyRightShift, KeyU, KeyJ),
                          was.y + AxisWith(held, KeyRightShift, KeyI, KeyK), was.z);
      if keys[KeyO] && keys[KeyRightShift] { boxScale := boxScale.Plus(Vec3(0.0, 0.0, 0.01)); }
      if keys[KeyL] && keys[KeyRightShift] { boxScale := boxScale.Minus(Vec3(0.0, 0.0, 0.01)); }
    }

    /** With right Control, U/J, I/K, O/L move the box along X, Y, Z by 0.01 per frame. */
    method TranslationKeys(keys: array<bool>)
      requires keys.Length == KeyCount
      modifies this`boxTranslate
      ensures boxTranslate == old(boxTranslate).Plus(Nudge(keys[..], KeyRightControl))
    {
      ghost var was, held := boxTranslate, keys[..];
      if keys[KeyU] && keys[KeyRightControl] { boxTranslate := boxTranslate.Plus(Vec3(0.01, 0.0, 0.0)); }
      if keys[KeyJ] && keys[KeyRightControl] { boxTranslate := boxTranslate.Minus(Vec3(0.01, 0.0, 0.0)); }
      assert boxTranslate == Vec3(was.x + AxisWith(held, KeyRightControl, KeyU, KeyJ), was.y, was.z);
      if keys[KeyI] && keys[KeyRightControl] { boxTranslate := boxTranslate.Plus(Vec3(0.0, 0.01, 0.0)); }
      if keys[KeyK] && keys[KeyRightControl] { boxTranslate := boxTranslate.Minus(Vec3(0.0, 0.01, 0.0)); }
      assert boxTranslate == Vec3(was.x + AxisWith(held, KeyRightControl, KeyU, KeyJ),
                          was.y + AxisWith(held, KeyRightControl, KeyI, KeyK), was.z);
      if keys[KeyO] && keys[KeyRightControl] { boxTranslate := boxTranslate.Plus(Vec3(0.0, 0.0, 0.01)); }
      if keys[KeyL] && keys[KeyRightControl] { boxTranslate := boxTranslate.Minus(Vec3(0.0, 0.0, 0.01)); }
    }
  }

  /** CameraMoves written out as the six tests of do_movement, one after the other. */
  lemma CameraMovesInOrder(held: seq<bool>)
    requires |held| == KeyCount
    ensures CameraMoves(held) == [] + IfHeld(held, Forward) + IfHeld(held, Backward) + IfHeld(held, Left)
                                 + IfHeld(held, Right) + IfHeld(held, Up) + IfHeld(held, Down)
  {
    var ms5 := AllMoves[..5];
    var ms4, ms3, ms2, ms1 := ms5[..4], ms5[..4][..3], ms5[..4][..3][..2], ms5[..4][..3][..2][..1];
    assert ms5 == [Forward, Backward, Left, Right, Up];
    assert ms4 == [Forward, Backward, Left, Right];
    assert ms3 == [Forward, Backward, Left];
    assert ms2 == [Forward, Backward];
    assert ms1 == [Forward] && ms1[..0] == [];
    assert HeldMoves(held, AllMoves) == HeldMoves(held, ms5) + IfHeld(held, Down);
    assert HeldMoves(held, ms5) == HeldMoves(held, ms4) + IfHeld(held, Up);
    assert HeldMoves(held, ms4) == HeldMoves(held, ms3) + IfHeld(held, Right);
    assert HeldMoves(held, ms3) == HeldMoves(held, ms2) + IfHeld(held, Left);
    assert HeldMoves(held, ms2) == HeldMoves(held, ms1) + IfHeld(held, Backward);
    assert HeldMoves(held, ms1) == [] + IfHeld(held, Forward);
  }

  /** The camera part of do_movement: one Camera::ProcessKeyboard call per held key, W, S, A, D, Q, E in turn. */
  method CameraKeys(keys: array<bool>) returns (moves: seq<CameraMovement>)
    requires keys.Length == KeyCount
    ensures moves == CameraMoves(keys[..])
  {
    ghost var held := keys[..];
    moves := [];
    if keys[KeyW] { moves := moves + [Forward]; }
    assert moves == [] + IfHeld(held, Forward);
    if keys[KeyS] { moves := moves + [Backward]; }
    assert moves == [] + IfHeld(held, Forward) + IfHeld(held, Backward);
    if keys[KeyA] { moves := moves + [Left]; }
    assert moves == [] + IfHeld(held, Forward) + IfHeld(held, Backward) + IfHeld(held, Left);
    if keys[KeyD] { moves := moves + [Right]; }
    assert moves == [] + IfHeld(held, Forward) + IfHeld(held, Backward) + IfHeld(held, Left) + IfHeld(held, Right);
    if keys[KeyQ] { moves := moves + [Up]; }
    assert moves == [] + IfHeld(held, Forward) + IfHeld(held, Backward) + IfHeld(held, Left) + IfHeld(held, Right)
                    + IfHeld(held, Up);
    if keys[KeyE] { moves := moves + [Down]; }
    CameraMovesInOrder(held);
  }
}
