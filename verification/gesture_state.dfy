/**
 * The per-player move classifier of the gesture system: single-hand moves
 * (jab, hook, uppercut, block) and two-hand moves (hadouken, sonic boom, full
 * block) read from glove readings against fixed thresholds, a debounce rule
 * for recording a move, and the move history kept per hand.
 *
 * Sensor readings are integers; the wall clock (`time.time()`) is the
 * parameter `now`. The pure functions give the tracker state after each step;
 * the methods of `PlayerGestureState` update the fields and are proved to
 * agree with them.
 */
module GestureStates {
  import opened Wrappers

  const JAB_FWDACC_L1 := 160
  const JAB_FWDACC_L2 := 200
  const HOOK_LATGYR := 220
  const HOOK_FWDACC_L1 := 280
  const HOOK_FWDACC_L2 := 400
  const BLOCK_VER_ANGLE := 70
  const BLOCK_RELEASE_ANGLE := 50
  const TIME_BETWEEN_MOVES: real := 0.15
  const TIME_TO_CLEAR_MOVE: real := 0.8

  /** Indices of the three move histories. */
  const LEFT := 0
  const RIGHT := 1
  const BOTH := 2

  const NO_GESTURE := 0
  const LEFT_JAB := 1
  const RIGHT_JAB := 2
  const LEFT_HOOK := 3
  const RIGHT_HOOK := 4
  const L_UPPERCUT := 5
  const R_UPPERCUT := 6
  const HADOUKEN := 10
  const SONIC_SIDE := 11
  const SONIC_BOOM := 12
  const LEFT_BLOCK := 100
  const RIGHT_BLOCK := 101
  const FULL_BLOCK := 102

  /** The `deque(list(), 6)` bound on the recent-move history. */
  const HISTORY_LENGTH := 6

  datatype Vec3 = Vec3(x: int, y: int, z: int)
  datatype Heading = Heading(roll: int, pitch: int, yaw: int)

  /** One glove reading: which hand (LEFT or RIGHT), acceleration, rotation rate and heading. */
  datatype Glove = Glove(hand: int, acceleration: Vec3, rotation: Vec3, heading: Heading)

  function Abs(x: int): nat {
    if x < 0 then -x else x
  }

  // ---------------------------------------------------------------------------
  // Single-hand classification

  /** _isHandBlocking: the hand is still on all three axes and held upright. */
  predicate IsHandBlocking(g: Glove): (blocking: bool)
    ensures blocking ==> g.heading.pitch > BLOCK_VER_ANGLE
    ensures blocking ==> !HookShape(g) && !JabShape(g)
  {
    Abs(g.acceleration.x) < 110 && Abs(g.acceleration.y) < 110 && Abs(g.acceleration.z) < 110
    && g.heading.pitch > BLOCK_VER_ANGLE
  }

  predicate UppercutShape(g: Glove) {
    Abs(g.acceleration.z) > 100 && Abs(g.rotation.x) > 60 && g.heading.roll > 120
  }

  predicate HookShape(g: Glove) {
    g.acceleration.x > HOOK_FWDACC_L1 && Abs(g.rotation.x) > HOOK_LATGYR
  }

  predicate JabShape(g: Glove) {
    Abs(g.heading.roll) < 50 && g.acceleration.x > JAB_FWDACC_L1 && Abs(g.rotation.x) < 50
  }

  /** What getHandedMove returns, and whether it raised the player's power to 2. */
  datatype Handed = Handed(move: Option<int>, strong: bool)

  /**
   * getHandedMove: the rules in order — release from a block, a block, the
   * end of a punch, uppercut, hook, jab; `None` when nothing matches (the
   * Python function falls off its end).
   */
  function HandedMove(prevMove: int, g: Glove): (r: Handed)
    ensures prevMove >= 100 && g.heading.pitch < BLOCK_RELEASE_ANGLE ==> r == Handed(Some(NO_GESTURE), false)
    ensures r.move.Some? ==>
      r.move.value in {NO_GESTURE, LEFT_BLOCK + g.hand, L_UPPERCUT + g.hand, LEFT_HOOK + g.hand, LEFT_JAB + g.hand}
    ensures r.strong ==> r.move.Some? && r.move.value in {L_UPPERCUT + g.hand, LEFT_HOOK + g.hand, LEFT_JAB + g.hand}
    ensures r.move.None? <==>
      !(prevMove >= 100 && g.heading.pitch < BLOCK_RELEASE_ANGLE) && !IsHandBlocking(g)
      && !(0 < prevMove < 10 && g.acceleration.x < 0)
      && !UppercutShape(g) && !HookShape(g) && !JabShape(g)
  {
    if prevMove >= 100 && g.heading.pitch < BLOCK_RELEASE_ANGLE then Handed(Some(NO_GESTURE), false)
    else if IsHandBlocking(g) then Handed(Some(LEFT_BLOCK + g.hand), false)
    else if 0 < prevMove < 10 && g.acceleration.x < 0 then Handed(Some(NO_GESTURE), false)
    else if UppercutShape(g) then Handed(Some(L_UPPERCUT + g.hand), Abs(g.acceleration.y) > 200)
    else if HookShape(g) then
      Handed(Some(LEFT_HOOK + g.hand), g.acceleration.x > HOOK_FWDACC_L2 && Abs(g.rotation.x) > 350)
    else if JabShape(g) then Handed(Some(LEFT_JAB + g.hand), g.acceleration.x > JAB_FWDACC_L2)
    else Handed(None, false)
  }

  /**
   * The order of the single-hand rules: unless the block-release rule fires,
   * a blocking hand blocks; after a punch a decelerating hand makes no move;
   * otherwise uppercut beats hook beats jab, each strong only past its
   * second threshold.
   */
  lemma HandedMoveOrder(prevMove: int, g: Glove)
    requires !(prevMove >= 100 && g.heading.pitch < BLOCK_RELEASE_ANGLE)
    ensures var r := HandedMove(prevMove, g);
      && (IsHandBlocking(g) ==> r == Handed(Some(LEFT_BLOCK + g.hand), false))
      && (!IsHandBlocking(g) && 0 < prevMove < 10 && g.acceleration.x < 0 ==> r == Handed(Some(NO_GESTURE), false))
      && (!IsHandBlocking(g) && !(0 < prevMove < 10 && g.acceleration.x < 0) ==>
            (UppercutShape(g) ==> r == Handed(Some(L_UPPERCUT + g.hand), Abs(g.acceleration.y) > 200))
            && (!UppercutShape(g) && HookShape(g) ==>
                  r == Handed(Some(LEFT_HOOK + g.hand), g.acceleration.x > HOOK_FWDACC_L2 && Abs(g.rotation.x) > 350))
            && (!UppercutShape(g) && !HookShape(g) && JabShape(g) ==>
                  r == Handed(Some(LEFT_JAB + g.hand), g.acceleration.x > JAB_FWDACC_L2)))
  {
  }

  /** A blocking hand never throws a punch. */
  lemma BlockingHandNeverAttacks(prevMove: int, g: Glove)
    requires IsHandBlocking(g)
    ensures HandedMove(prevMove, g).move == Some(NO_GESTURE) || HandedMove(prevMove, g).move == Some(LEFT_BLOCK + g.hand)
    ensures !HandedMove(prevMove, g).strong
  {
  }

  // ---------------------------------------------------------------------------
  // The tracker: recording moves

  /** The fields of PlayerGestureState the classifier reads and writes. */
  datatype Tracker = Tracker(
    lastMoveTs: real, left: Option<Glove>, right: Option<Glove>,
    moves: seq<int>, allMoves: seq<seq<int>>, power: int)

  /** Three histories (left, right, both) and a recent-move queue within its bound. */
  predicate WellFormed(t: Tracker) {
    |t.allMoves| == 3 && |t.moves| <= HISTORY_LENGTH
  }

  /** `deque.append` on a deque bounded at 6: a full deque drops its oldest entry. */
  function DequeAppend(q: seq<int>, x: int): (r: seq<int>)
    requires |q| <= HISTORY_LENGTH
    ensures 0 < |r| <= HISTORY_LENGTH && r[|r| - 1] == x
    ensures |q| < HISTORY_LENGTH ==> r == q + [x]
    ensures |q| == HISTORY_LENGTH ==> r == q[1..] + [x]
  {
    if |q| < HISTORY_LENGTH then q + [x] else q[1..] + [x]
  }

  function Last(s: seq<int>): int
    requires |s| > 0
  {
    s[|s| - 1]
  }

  /** A non-zero move equal to the last one recorded under its kind. */
  predicate RepeatsLast(t: Tracker, kind: int, move: int)
    requires WellFormed(t) && 0 <= kind < 3
  {
    move > 0 && |t.allMoves[kind]| > 0 && move == Last(t.allMoves[kind])
  }

  /**
   * recordMove: a repeat of the last move of its kind is dropped within
   * TIME_TO_CLEAR_MOVE and recorded as 0 after it; a non-zero move within
   * TIME_BETWEEN_MOVES of `lastTs` is dropped. A recorded move goes to the
   * recent-move queue and to its kind's history, stamps the time, forgets both
   * buffered gloves and resets the power.
   */
  function Record(t: Tracker, kind: int, move: int, lastTs: real, now: real): (r: Tracker)
    requires WellFormed(t) && 0 <= kind < 3
    ensures WellFormed(r)
  {
    var delta := now - lastTs;
    if RepeatsLast(t, kind, move) && delta <= TIME_TO_CLEAR_MOVE then t
    else
      var m := if RepeatsLast(t, kind, move) then 0 else move;
      if m > 0 && delta < TIME_BETWEEN_MOVES then t
      else Tracker(now, None, None, DequeAppend(t.moves, m), t.allMoves[kind := t.allMoves[kind] + [m]], 1)
  }

  /** The debounce rules of recordMove, and what a recorded move changes. */
  lemma RecordRules(t: Tracker, kind: int, move: int, lastTs: real, now: real)
    requires WellFormed(t) && 0 <= kind < 3
    ensures var r := Record(t, kind, move, lastTs, now);
      && (RepeatsLast(t, kind, move) && now - lastTs <= TIME_TO_CLEAR_MOVE ==> r == t)
      && (RepeatsLast(t, kind, move) && now - lastTs > TIME_TO_CLEAR_MOVE ==> Recorded(t, r, kind, 0, now))
      && (!RepeatsLast(t, kind, move) && move > 0 && now - lastTs < TIME_BETWEEN_MOVES ==> r == t)
      && (!RepeatsLast(t, kind, move) && (move <= 0 || now - lastTs >= TIME_BETWEEN_MOVES) ==>
            Recorded(t, r, kind, move, now))
  {
  }

  /** `r` is `t` after recording `m` under `kind` at time `now`; the other histories are untouched. */
  predicate Recorded(t: Tracker, r: Tracker, kind: int, m: int, now: real)
    requires WellFormed(t) && WellFormed(r) && 0 <= kind < 3
  {
    && r.moves == DequeAppend(t.moves, m)
    && r.allMoves[kind] == t.allMoves[kind] + [m]
    && (forall k :: 0 <= k < 3 && k != kind ==> r.allMoves[k] == t.allMoves[k])
    && r.lastMoveTs == now && r.left.None? && r.right.None? && r.power == 1
  }

  /** Recording only ever appends to the histories, one move at most. */
  lemma RecordAppendsAtMostOne(t: Tracker, kind: int, move: int, lastTs: real, now: real)
    requires WellFormed(t) && 0 <= kind < 3
    ensures var r := Record(t, kind, move, lastTs, now);
      forall k :: 0 <= k < 3 ==>
        (r.allMoves[k] == t.allMoves[k] || (k == kind && r.allMoves[k] == t.allMoves[k] + [Last(r.allMoves[k])]))
  {
  }

  // ---------------------------------------------------------------------------
  // The tracker: choosing the move

  predicate HadoukenShape(l: Glove, r: Glove) {
    (l.heading.pitch > 30 && l.heading.roll < 100 && r.heading.pitch < -40 && r.heading.roll < -40)
    || (l.heading.pitch < -40 && l.heading.roll < -40 && r.heading.pitch > 40 && r.heading.roll > 40)
  }

  predicate SonicSideShape(l: Glove, r: Glove) {
    l.heading.roll < -70 && r.heading.roll > 70 && l.heading.pitch < 30 && r.heading.pitch < 30
  }

  predicate SonicBoomShape(prevMove: int, l: Glove, r: Glove) {
    prevMove == SONIC_SIDE && Abs(l.rotation.x) > 75 && Abs(r.rotation.x) > 75
    && Abs(l.acceleration.x) > 90 && Abs(r.acceleration.x) > 90
  }

  predicate FullBlockRelease(prevMove: int, l: Glove, r: Glove) {
    prevMove == FULL_BLOCK && l.heading.pitch < BLOCK_RELEASE_ANGLE && r.heading.pitch < BLOCK_RELEASE_ANGLE
  }

  /** The two-handed move both gloves show, if any, in the order the rules are tried. */
  function TwoHandedMove(prevMove: int, l: Glove, r: Glove): (m: Option<int>)
    ensures m.Some? ==> m.value in {HADOUKEN, SONIC_SIDE, SONIC_BOOM, NO_GESTURE, FULL_BLOCK}
    ensures m == Some(SONIC_BOOM) ==> prevMove == SONIC_SIDE
    ensures m.None? <==>
      !HadoukenShape(l, r) && !SonicSideShape(l, r) && !SonicBoomShape(prevMove, l, r)
      && !FullBlockRelease(prevMove, l, r) && !(IsHandBlocking(l) && IsHandBlocking(r))
  {
    if HadoukenShape(l, r) then Some(HADOUKEN)
    else if SonicBoomShape(prevMove, l, r) then Some(SONIC_BOOM)
    else if SonicSideShape(l, r) then Some(SONIC_SIDE)
    else if FullBlockRelease(prevMove, l, r) then Some(NO_GESTURE)
    else if IsHandBlocking(l) && IsHandBlocking(r) then Some(FULL_BLOCK)
    else None
  }

  /** The last move of a history, or `fallback` when it is empty. */
  function LastOr(s: seq<int>, fallback: int): int {
    if |s| > 0 then Last(s) else fallback
  }

  /**
   * One hand's turn in _determineMove: classify with the previous move of
   * that hand (or the previous move carried over), raise the power on a
   * strong move, record a result above -1. Returns the tracker and the
   * previous move the next hand inherits.
   */
  function HandTurn(t: Tracker, kind: int, glove: Option<Glove>, prevMove: int, now: real): (r: (Tracker, int))
    requires WellFormed(t) && (kind == LEFT || kind == RIGHT)
    ensures WellFormed(r.0)
    ensures r.0.allMoves[BOTH] == t.allMoves[BOTH]
    ensures glove.None? ==> r == (t, prevMove)
    ensures glove.Some? ==> r.1 == LastOr(t.allMoves[kind], prevMove)
    ensures glove.Some? && HandedMove(LastOr(t.allMoves[kind], prevMove), glove.value).move.None? ==> r.0 == t
    ensures forall k :: 0 <= k < 3 && k != kind ==> r.0.allMoves[k] == t.allMoves[k]
  {
    if glove.None? then (t, prevMove)
    else
      var prev := LastOr(t.allMoves[kind], prevMove);
      var h := HandedMove(prev, glove.value);
      var powered := if h.strong then t.(power := 2) else t;
      if h.move.Some? && h.move.value > -1 then
        (Record(powered, kind, h.move.value, powered.lastMoveTs, now), prev)
      else (powered, prev)
  }

  /**
   * _determineMove: with both gloves present a two-handed move is recorded
   * under BOTH and nothing else happens; otherwise the left and then the
   * right glove (as they were on entry) are classified on their own.
   */
  function DetermineMove(t: Tracker, now: real): (r: Tracker)
    requires WellFormed(t)
    ensures WellFormed(r)
  {
    var prevMove := LastOr(t.allMoves[BOTH], 0);
    var twoHanded := if t.left.Some? && t.right.Some? then TwoHandedMove(prevMove, t.left.value, t.right.value) else None;
    if twoHanded.Some? then Record(t, BOTH, twoHanded.value, t.lastMoveTs, now)
    else
      var (afterLeft, carried) := HandTurn(t, LEFT, t.left, prevMove, now);
      HandTurn(afterLeft, RIGHT, t.right, carried, now).0
  }

  /** Two-handed moves take precedence: when one is shown, neither single-hand history changes. */
  lemma TwoHandedPrecedence(t: Tracker, now: real)
    requires WellFormed(t) && t.left.Some? && t.right.Some?
    requires TwoHandedMove(LastOr(t.allMoves[BOTH], 0), t.left.value, t.right.value).Some?
    ensures var r := DetermineMove(t, now);
      r.allMoves[LEFT] == t.allMoves[LEFT] && r.allMoves[RIGHT] == t.allMoves[RIGHT]
  {
    var m := TwoHandedMove(LastOr(t.allMoves[BOTH], 0), t.left.value, t.right.value).value;
    RecordAppendsAtMostOne(t, BOTH, m, t.lastMoveTs, now);
  }

  /** A sonic boom is only ever recorded right after a sonic side. */
  lemma SonicBoomFollowsSonicSide(t: Tracker, now: real)
    requires WellFormed(t)
    ensures var r := DetermineMove(t, now);
      |r.allMoves[BOTH]| > |t.allMoves[BOTH]| && Last(r.allMoves[BOTH]) == SONIC_BOOM ==>
        |t.allMoves[BOTH]| > 0 && Last(t.allMoves[BOTH]) == SONIC_SIDE
  {
    var prevMove := LastOr(t.allMoves[BOTH], 0);
    if t.left.Some? && t.right.Some? {
      var m := TwoHandedMove(prevMove, t.left.value, t.right.value);
      if m.Some? {
        RecordAppendsAtMostOne(t, BOTH, m.value, t.lastMoveTs, now);
      }
    }
  }

  // ---------------------------------------------------------------------------
  // Dispatching the recorded moves

  /** What _doMoves hands to the player's state-change function. */
  datatype Action =
    | Block(hand: int, power: int)
    | HadoukenAttack | SonicBoomAttack
    | LeftUppercutAttack | RightUppercutAttack
    | LeftHookAttack | RightHookAttack
    | LeftJabAttack | RightJabAttack

  /** The action one recorded move triggers; NO_GESTURE and SONIC_SIDE trigger none. */
  function MoveAction(move: int, power: int): (a: Option<Action>)
    ensures a.Some? <==> move >= 100 || move in {1, 2, 3, 4, 5, 6, HADOUKEN, SONIC_BOOM}
    ensures move >= 100 ==> a == Some(Block(move - 100, power))
  {
    if move >= 100 then Some(Block(move - 100, power))
    else if move == HADOUKEN then Some(HadoukenAttack)
    else if move == SONIC_BOOM then Some(SonicBoomAttack)
    else if move == L_UPPERCUT then Some(LeftUppercutAttack)
    else if move == R_UPPERCUT then Some(RightUppercutAttack)
    else if move == LEFT_HOOK then Some(LeftHookAttack)
    else if move == RIGHT_HOOK then Some(RightHookAttack)
    else if move == LEFT_JAB then Some(LeftJabAttack)
    else if move == RIGHT_JAB then Some(RightJabAttack)
    else None
  }

  /** The actions for a sequence of moves, in order. */
  function Dispatch(moves: seq<int>, power: int): (acts: seq<Action>)
    ensures |acts| <= |moves|
  {
    if |moves| == 0 then []
    else
      var a := MoveAction(moves[|moves| - 1], power);
      Dispatch(moves[..|moves| - 1], power) + (if a.Some? then [a.value] else [])
  }

  /** Every recorded block, hadouken, sonic boom or punch triggers exactly one action, in order. */
  lemma {:induction false} DispatchCountsActiveMoves(moves: seq<int>, power: int)
    ensures |Dispatch(moves, power)| == |ActiveMoves(moves)|
    ensures forall i :: 0 <= i < |ActiveMoves(moves)| ==>
      Some(Dispatch(moves, power)[i]) == MoveAction(ActiveMoves(moves)[i], power)
  {
    if |moves| > 0 {
      DispatchCountsActiveMoves(moves[..|moves| - 1], power);
    }
  }

  /** The moves that trigger an action. */
  function ActiveMoves(moves: seq<int>): seq<int> {
    if |moves| == 0 then []
    else
      var m := moves[|moves| - 1];
      ActiveMoves(moves[..|moves| - 1]) + (if MoveAction(m, 0).Some? then [m] else [])
  }

  // ---------------------------------------------------------------------------
  // Update

  /**
   * Update: ignore an empty update; buffer whichever gloves arrived; once both
   * are buffered, determine the move, dispatch the recent moves and clear them.
   */
  function UpdateNext(t: Tracker, leftData: Option<Glove>, rightData: Option<Glove>, now: real): (r: (Tracker, seq<Action>))
    requires WellFormed(t)
    ensures WellFormed(r.0)
  {
    if leftData.None? && rightData.None? then (t, [])
    else
      var buffered := t.(left := if leftData.Some? then leftData else t.left,
                         right := if rightData.Some? then rightData else t.right);
      if buffered.left.Some? && buffered.right.Some? then
        var decided := DetermineMove(buffered, now);
        (decided.(moves := []), Dispatch(decided.moves, decided.power))
      else (buffered, [])
  }

  /**
   * After an update the recent-move queue is empty whenever moves were
   * determined, and the update changes nothing when neither glove sent data.
   * The three histories only grow.
   */
  lemma UpdateRules(t: Tracker, leftData: Option<Glove>, rightData: Option<Glove>, now: real)
    requires WellFormed(t) && t.moves == []
    ensures var (r, acts) := UpdateNext(t, leftData, rightData, now);
      && (leftData.None? && rightData.None? ==> r == t && acts == [])
      && r.moves == []
      && |acts| <= 2
      && forall k :: 0 <= k < 3 ==> t.allMoves[k] <= r.allMoves[k]
    ensures var buffered := t.(left := if leftData.Some? then leftData else t.left,
                               right := if rightData.Some? then rightData else t.right);
      var (r, acts) := UpdateNext(t, leftData, rightData, now);
      (leftData.Some? || rightData.Some?) && buffered.left.Some? && buffered.right.Some? ==>
        var d := DetermineMove(buffered, now);
        && r.allMoves == d.allMoves
        && acts == Dispatch(d.moves, d.power)
        && |acts| == |ActiveMoves(d.moves)|
        && forall i :: 0 <= i < |acts| ==> Some(acts[i]) == MoveAction(ActiveMoves(d.moves)[i], d.power)
  {
    if leftData.Some? || rightData.Some? {
      var buffered := t.(left := if leftData.Some? then leftData else t.left,
                         right := if rightData.Some? then rightData else t.right);
      if buffered.left.Some? && buffered.right.Some? {
        DetermineMoveGrows(buffered, now);
        var d := DetermineMove(buffered, now);
        DispatchCountsActiveMoves(d.moves, d.power);
      }
    }
  }

  /** _determineMove records at most two moves (one per hand) and only appends to the histories. */
  lemma DetermineMoveGrows(t: Tracker, now: real)
    requires WellFormed(t) && t.moves == []
    ensures var r := DetermineMove(t, now);
      |r.moves| <= 2 && forall k :: 0 <= k < 3 ==> t.allMoves[k] <= r.allMoves[k]
  {
    var prevMove := LastOr(t.allMoves[BOTH], 0);
    var twoHanded := if t.left.Some? && t.right.Some? then TwoHandedMove(prevMove, t.left.value, t.right.value) else None;
    if twoHanded.Some? {
      RecordGrows(t, BOTH, twoHanded.value, t.lastMoveTs, now);
    } else {
      var (afterLeft, carried) := HandTurn(t, LEFT, t.left, prevMove, now);
      HandTurnGrows(t, LEFT, t.left, prevMove, now);
      HandTurnGrows(afterLeft, RIGHT, t.right, carried, now);
    }
  }

  lemma RecordGrows(t: Tracker, kind: int, move: int, lastTs: real, now: real)
    requires WellFormed(t) && 0 <= kind < 3
    ensures var r := Record(t, kind, move, lastTs, now);
      |r.moves| <= |t.moves| + 1 && forall k :: 0 <= k < 3 ==> t.allMoves[k] <= r.allMoves[k]
  {
  }

  lemma HandTurnGrows(t: Tracker, kind: int, glove: Option<Glove>, prevMove: int, now: real)
    requires WellFormed(t) && (kind == LEFT || kind == RIGHT)
    ensures var r := HandTurn(t, kind, glove, prevMove, now).0;
      |r.moves| <= |t.moves| + 1 && forall k :: 0 <= k < 3 ==> t.allMoves[k] <= r.allMoves[k]
  {
    if glove.Some? {
      var prev := LastOr(t.allMoves[kind], prevMove);
      var h := HandedMove(prev, glove.value);
      var powered := if h.strong then t.(power := 2) else t;
      if h.move.Some? && h.move.value > -1 {
        RecordGrows(powered, kind, h.move.value, powered.lastMoveTs, now);
      }
    }
  }

  // ---------------------------------------------------------------------------
  // The per-player object

  class PlayerGestureState {
    const playerNum: int
    var lastMoveTs: real
    var left: Option<Glove>
    var right: Option<Glove>
    /** The recent moves, oldest first, at most HISTORY_LENGTH of them. */
    var moves: seq<int>
    /** The histories of left-hand, right-hand and two-handed moves. */
    var allMoves: seq<seq<int>>
    var power: int

    function Snapshot(): Tracker
      reads this
    {
      Tracker(lastMoveTs, left, right, moves, allMoves, power)
    }

    ghost predicate Valid()
      reads this
    {
      WellFormed(Snapshot())
    }

    constructor (playerNum: int, now: real)
      ensures Valid() && this.playerNum == playerNum
      ensures Snapshot() == Tracker(now, None, None, [], [[], [], []], 1)
    {
      this.playerNum := playerNum;
      lastMoveTs := now;
      left := None;
      right := None;
      moves := [];
      allMoves := [[], [], []];
      power := 1;
    }

    /** getHandedMove: classify one glove, raising the power on a strong move. */
    method GetHandedMove(prevMove: int, glove: Glove) returns (move: Option<int>)
      modifies this`power
      ensures move == HandedMove(prevMove, glove).move
      ensures power == if HandedMove(prevMove, glove).strong then 2 else old(power)
    {
      if prevMove >= 100 && glove.heading.pitch < BLOCK_RELEASE_ANGLE {
        return Some(NO_GESTURE);
      }
      if IsHandBlocking(glove) {
        return Some(LEFT_BLOCK + glove.hand);
      }
      if 0 < prevMove < 10 && glove.acceleration.x < 0 {
        return Some(NO_GESTURE);
      }
      if Abs(glove.acceleration.z) > 100 && Abs(glove.rotation.x) > 60 && glove.heading.roll > 120 {
        if Abs(glove.acceleration.y) > 200 {
          power := 2;
        }
        return Some(L_UPPERCUT + glove.hand);
      }
      if glove.acceleration.x > HOOK_FWDACC_L1 && Abs(glove.rotation.x) > HOOK_LATGYR {
        if glove.acceleration.x > HOOK_FWDACC_L2 && Abs(glove.rotation.x) > 350 {
          power := 2;
        }
        return Some(LEFT_HOOK + glove.hand);
      }
      if Abs(glove.heading.roll) < 50 && glove.acceleration.x > JAB_FWDACC_L1 && Abs(glove.rotation.x) < 50 {
        if glove.acceleration.x > JAB_FWDACC_L2 {
          power := 2;
        }
        return Some(LEFT_JAB + glove.hand);
      }
      return None;
    }

    /** recordMove, with the clock reading `now` for both of its time.time() calls. */
    method RecordMove(kind: int, move: int, lastTs: real, now: real)
      requires Valid() && 0 <= kind < 3
      modifies this`moves, this`allMoves, this`lastMoveTs, this`left, this`right, this`power
      ensures Valid()
      ensures Snapshot() == Record(old(Snapshot()), kind, move, lastTs, now)
    {
      var m := move;
      var deltaMoveTime := now - lastTs;
      if m > 0 && |allMoves[kind]| > 0 && m == allMoves[kind][|allMoves[kind]| - 1] {
        if deltaMoveTime > TIME_TO_CLEAR_MOVE {
          m := 0;
        } else {
          return;
        }
      }
      if m > 0 && deltaMoveTime < TIME_BETWEEN_MOVES {
        return;
      }
      if |moves| == HISTORY_LENGTH {
        moves := moves[1..];
      }
      moves := moves + [m];
      allMoves := allMoves[kind := allMoves[kind] + [m]];
      lastMoveTs := now;
      left := None;
      right := None;
      power := 1;
    }

    /** One hand's turn of _determineMove (its `if (xGlove != None)` block). */
    method HandTurnStep(kind: int, glove: Option<Glove>, prevMove: int, now: real) returns (carried: int)
      requires Valid() && (kind == LEFT || kind == RIGHT)
      modifies this`moves, this`allMoves, this`lastMoveTs, this`left, this`right, this`power
      ensures Valid()
      ensures (Snapshot(), carried) == HandTurn(old(Snapshot()), kind, glove, prevMove, now)
    {
      carried := prevMove;
      if glove.Some? {
        if |allMoves[kind]| > 0 {
          carried := allMoves[kind][|allMoves[kind]| - 1];
        }
        var newMove := GetHandedMove(carried, glove.value);
        if newMove.Some? && newMove.value > -1 {
          RecordMove(kind, newMove.value, lastMoveTs, now);
        }
      }
    }

    /** _determineMove: two-handed moves first, then each hand. */
    method DetermineMoveStep(now: real)
      requires Valid()
      modifies this`moves, this`allMoves, this`lastMoveTs, this`left, this`right, this`power
      ensures Valid()
      ensures Snapshot() == DetermineMove(old(Snapshot()), now)
    {
      var lGlove, rGlove := left, right;
      var prevMove := 0;
      if |allMoves[BOTH]| > 0 {
        prevMove := allMoves[BOTH][|allMoves[BOTH]| - 1];
      }
      if lGlove.Some? && rGlove.Some? {
        var newMove := TwoHandedMove(prevMove, lGlove.value, rGlove.value);
        if newMove.Some? {
          RecordMove(BOTH, newMove.value, lastMoveTs, now);
          return;
        }
      }
      prevMove := HandTurnStep(LEFT, lGlove, prevMove, now);
      prevMove := HandTurnStep(RIGHT, rGlove, prevMove, now);
    }

    /** _doMoves without the clearing: the action for each recent move, in order. */
    method DoMoves() returns (actions: seq<Action>)
      ensures actions == Dispatch(moves, power)
    {
      actions := [];
      for i := 0 to |moves|
        invariant actions == Dispatch(moves[..i], power)
      {
        assert moves[..i + 1][..i] == moves[..i];
        var a := MoveAction(moves[i], power);
        if a.Some? {
          actions := actions + [a.value];
        }
      }
      assert moves[..|moves|] == moves;
    }

    /** Update: buffer the gloves that arrived; with both buffered, determine, dispatch and clear. */
    method Update(leftGloveData: Option<Glove>, rightGloveData: Option<Glove>, now: real) returns (actions: seq<Action>)
      requires Valid()
      modifies this`moves, this`allMoves, this`lastMoveTs, this`left, this`right, this`power
      ensures Valid()
      ensures (Snapshot(), actions) == UpdateNext(old(Snapshot()), leftGloveData, rightGloveData, now)
      ensures old(moves) == [] ==> moves == [] && |actions| <= 2
    {
      if moves == [] {
        UpdateRules(Snapshot(), leftGloveData, rightGloveData, now);
      }
      actions := [];
      if leftGloveData.None? && rightGloveData.None? {
        return;
      }
      if leftGloveData.Some? {
        left := leftGloveData;
      }
      if rightGloveData.Some? {
        right := rightGloveData;
      }
      if left.Some? && right.Some? {
        DetermineMoveStep(now);
        actions := DoMoves();
        moves := [];
      }
    }
  }
}
