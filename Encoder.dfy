/**
 * The quadrature/button event decoder of one rotary encoder.
 *
 * A state byte packs the push button (bit 0, active low: 0 = pressed) and the
 * two quadrature lines (bits 1-2). The decoder compares the previous and the
 * current state byte and reports an event bitmask. Rotation is reported only
 * on arrival at SOUTH; the button on each edge of its line.
 */
module Encoder {

  // Event bits of the result.
  const EVENT_NONE: bv8 := 0x00
  const EVENT_BUTTON_DOWN: bv8 := 0x01
  const EVENT_BUTTON_UP: bv8 := 0x02
  const EVENT_LEFT: bv8 := 0x04
  const EVENT_RIGHT: bv8 := 0x08

  // Fields of a state byte.
  const STATEMASK_BUTTON: bv8 := 0x01
  const STATEMASK_ENCODER: bv8 := 0x06

  // Values of the encoder field.
  const NORTH: bv8 := 0x00
  const EAST: bv8 := 0x02
  const SOUTH: bv8 := 0x06
  const WEST: bv8 := 0x04

  const DEFAULT_STATE: bv8 := NORTH

  /** The event bitmask for the step from `oldState` to `newState`. */
  function Events(oldState: bv8, newState: bv8): (r: bv8)
    // only the four event bits are ever used
    ensures r & 0xF0 == 0
    ensures r & EVENT_BUTTON_DOWN != 0 <==>
              oldState & STATEMASK_BUTTON != 0 && newState & STATEMASK_BUTTON == 0
    ensures r & EVENT_BUTTON_UP != 0 <==>
              oldState & STATEMASK_BUTTON == 0 && newState & STATEMASK_BUTTON != 0
    ensures r & EVENT_LEFT != 0 <==>
              oldState & STATEMASK_ENCODER == EAST && newState & STATEMASK_ENCODER == SOUTH
    ensures r & EVENT_RIGHT != 0 <==>
              oldState & STATEMASK_ENCODER == WEST && newState & STATEMASK_ENCODER == SOUTH
  {
    // the event mask is accumulated with `|`, one test at a time
    var r0 := EVENT_NONE;
    var r1 := if oldState & STATEMASK_BUTTON > 0 && newState & STATEMASK_BUTTON == 0
              then r0 | EVENT_BUTTON_DOWN else r0;
    var r2 := if oldState & STATEMASK_BUTTON == 0 && newState & STATEMASK_BUTTON > 0
              then r1 | EVENT_BUTTON_UP else r1;
    var r3 := if oldState & STATEMASK_ENCODER == EAST && newState & STATEMASK_ENCODER == SOUTH
              then r2 | EVENT_LEFT else r2;
    var r4 := if oldState & STATEMASK_ENCODER == WEST && newState & STATEMASK_ENCODER == SOUTH
              then r3 | EVENT_RIGHT else r3;
    r4
  }

  /** No change of the state byte, no event. */
  lemma NoChangeNoEvent(state: bv8)
    ensures Events(state, state) == EVENT_NONE
  {
  }

  /** A step produces at most one button event and at most one rotation event. */
  lemma EventsExclusive(oldState: bv8, newState: bv8)
    ensures Events(oldState, newState) & (EVENT_BUTTON_DOWN | EVENT_BUTTON_UP)
              != (EVENT_BUTTON_DOWN | EVENT_BUTTON_UP)
    ensures Events(oldState, newState) & (EVENT_LEFT | EVENT_RIGHT) != (EVENT_LEFT | EVENT_RIGHT)
  {
  }

  /** Bits 3-7 of a state byte never affect the events. */
  lemma HighBitsIgnored(oldState: bv8, newState: bv8)
    ensures Events(oldState, newState) == Events(oldState & 0x07, newState & 0x07)
  {
  }

  /**
   * The button events depend on bit 0 alone and the rotation events on
   * bits 1-2 alone.
   */
  lemma FieldsIndependent(o1: bv8, n1: bv8, o2: bv8, n2: bv8)
    ensures o1 & STATEMASK_BUTTON == o2 & STATEMASK_BUTTON &&
            n1 & STATEMASK_BUTTON == n2 & STATEMASK_BUTTON ==>
              Events(o1, n1) & 0x03 == Events(o2, n2) & 0x03
    ensures o1 & STATEMASK_ENCODER == o2 & STATEMASK_ENCODER &&
            n1 & STATEMASK_ENCODER == n2 & STATEMASK_ENCODER ==>
              Events(o1, n1) & 0x0C == Events(o2, n2) & 0x0C
  {
  }

  /**
   * A rotation is reported only on arrival at SOUTH from another position;
   * nothing that leaves or enters NORTH is a rotation.
   */
  lemma RotationOnlyOnSouthArrival(oldState: bv8, newState: bv8)
    ensures Events(oldState, newState) & (EVENT_LEFT | EVENT_RIGHT) != 0 ==>
              newState & STATEMASK_ENCODER == SOUTH && oldState & STATEMASK_ENCODER != SOUTH
    ensures oldState & STATEMASK_ENCODER == NORTH || newState & STATEMASK_ENCODER == NORTH ==>
              Events(oldState, newState) & (EVENT_LEFT | EVENT_RIGHT) == 0
  {
  }

  // ---------------------------------------------------------------------
  // Walking the quadrature cycle

  /** The four named positions of the encoder field. */
  datatype Position = North | East | South | West

  function Code(p: Position): (r: bv8)
    ensures r & !STATEMASK_ENCODER == 0
  {
    match p
    case North => NORTH
    case East => EAST
    case South => SOUTH
    case West => WEST
  }

  /** The position an encoder field denotes; the two bits name all four. */
  function PositionOf(state: bv8): (p: Position)
    ensures Code(p) == state & STATEMASK_ENCODER
  {
    var e := state & STATEMASK_ENCODER;
    if e == NORTH then North
    else if e == EAST then East
    else if e == SOUTH then South
    else West
  }

  /** One detent step in the order NORTH -> EAST -> SOUTH -> WEST -> NORTH. */
  function Succ(p: Position): Position
  {
    match p
    case North => East
    case East => South
    case South => West
    case West => North
  }

  /** One detent step in the reverse order. */
  function Pred(p: Position): (q: Position)
    ensures Succ(q) == p
  {
    match p
    case North => West
    case East => North
    case South => East
    case West => South
  }

  /** The state byte with encoder field `p` and every other bit from `rest`. */
  function StateByte(p: Position, rest: bv8): (s: bv8)
    requires rest & STATEMASK_ENCODER == 0
    ensures PositionOf(s) == p
    ensures s & !STATEMASK_ENCODER == rest
  {
    rest | Code(p)
  }

  /** One step in the chosen direction. */
  function Step(p: Position, forward: bool): Position
  {
    if forward then Succ(p) else Pred(p)
  }

  /** 1 when the step from `p` to `q` reports the event bit `ev`, else 0. */
  function Reported(p: Position, q: Position, rest: bv8, ev: bv8): nat
    requires rest & STATEMASK_ENCODER == 0
  {
    if Events(StateByte(p, rest), StateByte(q, rest)) & ev != 0 then 1 else 0
  }

  /**
   * The `k + 1` state bytes seen while the field takes `k` steps from `p`,
   * forward (Succ) or backward (Pred), every other bit held at `rest`.
   */
  function Walk(p: Position, k: nat, forward: bool, rest: bv8): (w: seq<bv8>)
    requires rest & STATEMASK_ENCODER == 0
    ensures |w| == k + 1 && w[0] == StateByte(p, rest)
    decreases k
  {
    [StateByte(p, rest)] + (if k == 0 then [] else Walk(Step(p, forward), k - 1, forward, rest))
  }

  /** How many consecutive pairs of `states` report the event bit `ev`. */
  function CountEvent(states: seq<bv8>, ev: bv8): nat
  {
    if |states| < 2 then 0
    else (if Events(states[0], states[1]) & ev != 0 then 1 else 0) + CountEvent(states[1..], ev)
  }

  /** Peels the first step off a walk. */
  lemma WalkStep(p: Position, k: nat, forward: bool, rest: bv8, ev: bv8)
    requires rest & STATEMASK_ENCODER == 0
    ensures CountEvent(Walk(p, k + 1, forward, rest), ev) ==
              Reported(p, Step(p, forward), rest, ev) + CountEvent(Walk(Step(p, forward), k, forward, rest), ev)
  {
    var w := Walk(p, k + 1, forward, rest);
    var q := Step(p, forward);
    assert w[1..] == Walk(q, k, forward, rest);
    assert w[0] == StateByte(p, rest) && w[1] == StateByte(q, rest);
  }

  /** Among the four steps of one detent exactly one reports a rotation. */
  lemma DetentSteps(p: Position, forward: bool, rest: bv8)
    requires rest & STATEMASK_ENCODER == 0
    ensures var p1 := Step(p, forward); var p2 := Step(p1, forward); var p3 := Step(p2, forward);
            && Step(p3, forward) == p
            && Reported(p, p1, rest, EVENT_LEFT) + Reported(p1, p2, rest, EVENT_LEFT)
               + Reported(p2, p3, rest, EVENT_LEFT) + Reported(p3, p, rest, EVENT_LEFT)
               == (if forward then 1 else 0)
            && Reported(p, p1, rest, EVENT_RIGHT) + Reported(p1, p2, rest, EVENT_RIGHT)
               + Reported(p2, p3, rest, EVENT_RIGHT) + Reported(p3, p, rest, EVENT_RIGHT)
               == (if forward then 0 else 1)
  {
  }

  /** Four steps in one direction make one full detent: exactly one event. */
  lemma {:induction false} OneDetent(p: Position, k: nat, forward: bool, rest: bv8, ev: bv8)
    requires rest & STATEMASK_ENCODER == 0
    requires ev == EVENT_LEFT || ev == EVENT_RIGHT
    ensures CountEvent(Walk(p, k + 4, forward, rest), ev)
            == CountEvent(Walk(p, k, forward, rest), ev)
               + (if (ev == EVENT_LEFT) == forward then 1 else 0)
  {
    var p1 := Step(p, forward);
    var p2 := Step(p1, forward);
    var p3 := Step(p2, forward);
    DetentSteps(p, forward, rest);
    WalkStep(p, k + 3, forward, rest, ev);
    WalkStep(p1, k + 2, forward, rest, ev);
    WalkStep(p2, k + 1, forward, rest, ev);
    WalkStep(p3, k, forward, rest, ev);
  }

  /**
   * `n` full turns of the cycle NORTH -> EAST -> SOUTH -> WEST -> NORTH yield
   * exactly `n` LEFT events and no RIGHT event; `n` turns the other way yield
   * exactly `n` RIGHT events and no LEFT event, whatever the button bit.
   */
  lemma {:induction false} DetentCount(p: Position, n: nat, forward: bool, rest: bv8)
    requires rest & STATEMASK_ENCODER == 0
    ensures CountEvent(Walk(p, 4 * n, forward, rest), EVENT_LEFT) == (if forward then n else 0)
    ensures CountEvent(Walk(p, 4 * n, forward, rest), EVENT_RIGHT) == (if forward then 0 else n)
  {
    if n > 0 {
      DetentCount(p, n - 1, forward, rest);
      OneDetent(p, 4 * (n - 1), forward, rest, EVENT_LEFT);
      OneDetent(p, 4 * (n - 1), forward, rest, EVENT_RIGHT);
    }
  }
}
