/**
 * SerialCommunicator: turns game events into framed messages on its outbound
 * queue, keeps the igniter ("glowfly") flag and the last timer value, and runs
 * the sequential status query of boards 1..32.
 *
 * The outbound BlockingQueue is the sequence `messageQueue`, which the event
 * methods append to; the frames the status query writes straight to the
 * serial output are the sequence `queryWrites`. Replies from the serial data
 * reader are inputs: `None` is a poll that timed out.
 */
module SerialComm {
  import opened Wrappers
  import opened SerialProtocol

  /** OutputDeviceStatus: a board id and its three status flags. */
  datatype DeviceStatus = DeviceStatus(deviceId: int, flag1: bool, flag2: bool, flag3: bool)

  /** SystemInfoRefreshEvent: the status slots regrouped by emitter position (None is Java's null). */
  datatype SystemInfoRefresh = SystemInfoRefresh(
    leftRail: seq<Option<DeviceStatus>>,
    rightRail: seq<Option<DeviceStatus>>,
    outerRing: seq<Option<DeviceStatus>>)

  /** The frames for a list of payloads, in order. */
  function Frames(ps: seq<seq<byte>>): (ms: seq<seq<byte>>)
    ensures |ms| == |ps|
  {
    seq(|ps|, k requires 0 <= k < |ps| => Frame(ps[k]))
  }

  /** Framing one more payload of a list extends the queue by its frame. */
  lemma FramesStep(w: seq<seq<byte>>, ps: seq<seq<byte>>, n: nat)
    requires n < |ps|
    ensures w + Frames(ps[..n + 1]) == w + Frames(ps[..n]) + [Frame(ps[n])]
  {
    assert Frames(ps[..n + 1]) == Frames(ps[..n]) + [Frame(ps[n])];
  }

  /** Every message is a frame the receiving side accepts. */
  ghost predicate AllFramed(ms: seq<seq<byte>>) {
    forall i :: 0 <= i < |ms| ==> ParseFrame(ms[i]).Some?
  }

  lemma FramesAreFramed(ps: seq<seq<byte>>)
    requires forall k :: 0 <= k < |ps| ==> |ps[k]| < 256
    ensures AllFramed(Frames(ps))
  {
    forall i | 0 <= i < |ps| ensures ParseFrame(Frames(ps)[i]).Some? {
      FrameRoundTrip(ps[i]);
    }
  }

  // ---------------------------------------------------------------------------
  // Message construction

  /** Reducing the accumulator modulo 256 before adding does not change the result modulo 256. */
  lemma ModAdd(s: int, x: int)
    ensures (s % 256 + x) % 256 == (s + x) % 256
  {
    var q := s / 256;
    assert s + x == (s % 256 + x) + 256 * q;
  }

  lemma SumStep(p: seq<byte>, i: nat)
    requires i < |p|
    ensures Sum(p[..i + 1]) == Sum(p[..i]) + p[i] as int
  {
    assert p[..i + 1][..i] == p[..i];
  }

  /** getChecksum: a loop that lets an octet accumulator wrap, then flips its bits. */
  method GetChecksum(payload: seq<byte>) returns (c: byte)
    ensures c == Checksum(payload)
  {
    var sum: byte := 0;
    for i := 0 to |payload|
      invariant sum as int == Sum(payload[..i]) % 256
    {
      SumStep(payload, i);
      ModAdd(Sum(payload[..i]), payload[i] as int);
      sum := ToByte(sum as int + payload[i] as int);
    }
    assert payload[..|payload|] == payload;
    c := ToByte(-(sum as int) - 1);
  }

  /** getMessageForPayload: fills a message array of length |payload| + 4. */
  method GetMessageForPayload(payload: seq<byte>) returns (message: seq<byte>)
    ensures message == Frame(payload)
  {
    var a := new byte[|payload| + 4];
    a[0], a[1] := FRAMING_BYTE, FRAMING_BYTE;
    a[2] := ToByte(|payload|);
    for i := 0 to |payload|
      invariant a[0] == FRAMING_BYTE && a[1] == FRAMING_BYTE && a[2] == ToByte(|payload|)
      invariant forall k :: 0 <= k < i ==> a[k + 3] == payload[k]
    {
      a[i + 3] := payload[i];
    }
    var cs := GetChecksum(payload);
    a[|payload| + 3] := cs;
    message := a[..];
  }

  /** The body of notifyFireEmitters up to the framing: fills the 11-octet payload. */
  method BuildFirePayload(e: FireEmitterEvent, glowfliesOn: bool) returns (payload: seq<byte>)
    ensures payload == FirePayload(e, glowfliesOn)
  {
    ghost var expected := FirePayload(e, glowfliesOn);
    var commands: seq<byte> := [49, 50, 51, 52];
    var values: seq<byte> := [0, 0, 0, 0];
    if |e.contributors| > 0 {
      values := values[0 := ToByte(e.maxIntensity)];
      if Player1Entity in e.contributors {
        values := values[1 := ToByte(e.p1Intensity)];
      }
      if Player2Entity in e.contributors {
        values := values[2 := ToByte(e.p2Intensity)];
      }
    }
    assert values == FireValues(e) + [0];
    payload := [HardwareId(e.location, e.index)];
    for k := 0 to 4
      invariant payload == expected[..2 * k + 1]
    {
      assert expected[2 * k + 1] == commands[k] && expected[2 * k + 2] == values[k] by {
        if k == 0 {} else if k == 1 {} else if k == 2 {} else {}
      }
      assert expected[..2 * k + 3] == expected[..2 * k + 1] + [expected[2 * k + 1], expected[2 * k + 2]];
      payload := payload + [commands[k], values[k]];
    }
    payload := payload + [CMD_IGNITER, if glowfliesOn then ASCII_ONE else ASCII_ZERO];
    assert expected == expected[..9] + [expected[9], expected[10]];
  }

  // ---------------------------------------------------------------------------
  // Status query: placing the answers and regrouping them

  /** queryBoard's result: the reader's reply, or an all-false status for a board that timed out. */
  function Answer(board: int, reply: Option<DeviceStatus>): DeviceStatus {
    reply.GetOr(DeviceStatus(board, false, false, false))
  }

  /** The answers for boards 1..|replies|, in query order. */
  function Answers(replies: seq<Option<DeviceStatus>>): (a: seq<DeviceStatus>)
    ensures |a| == |replies|
  {
    seq(|replies|, k requires 0 <= k < |replies| => Answer(k + 1, replies[k]))
  }

  function EmptySlots(): seq<Option<DeviceStatus>> {
    seq(32, _ => None)
  }

  /**
   * queryAllBoards' result array after the given answers: each answer is stored
   * at index deviceId - 1; an id outside 1..32 raises an index exception (None).
   */
  function Placed(answers: seq<DeviceStatus>): (r: Option<seq<Option<DeviceStatus>>>)
    ensures r.Some? ==> |r.value| == 32
  {
    if answers == [] then Some(EmptySlots())
    else
      var last := answers[|answers| - 1];
      match Placed(answers[..|answers| - 1])
      case None => None
      case Some(slots) =>
        if 1 <= last.deviceId <= 32 then Some(slots[last.deviceId - 1 := Some(last)]) else None
  }

  /** How many boards were queried (and had their query written) before the sweep ended. */
  function Reached(answers: seq<DeviceStatus>): (n: nat)
    ensures n <= |answers|
  {
    if answers == [] then 0
    else if Placed(answers[..|answers| - 1]).None? then Reached(answers[..|answers| - 1])
    else |answers|
  }

  /** The query frames for boards 1..n, as queryBoard writes them. */
  function QueryFrames(n: nat): seq<seq<byte>> {
    seq(n, k => Frame([ToByte(k + 1), CMD_QUERY]))
  }

  lemma PlacedStep(a: seq<DeviceStatus>, n: nat)
    requires 0 < n <= |a|
    ensures Placed(a[..n]) == match Placed(a[..n - 1])
      case None => None
      case Some(slots) =>
        if 1 <= a[n - 1].deviceId <= 32 then Some(slots[a[n - 1].deviceId - 1 := Some(a[n - 1])]) else None
    ensures Reached(a[..n]) == if Placed(a[..n - 1]).None? then Reached(a[..n - 1]) else n
  {
    assert a[..n][..n - 1] == a[..n - 1];
  }

  lemma QueryFrameConforms(b: byte)
    ensures ConformsToTemplate(Frame([b, CMD_QUERY]))
  {
  }

  /** Writing one more query frame after the frames of boards 1..n gives the frames of boards 1..n+1. */
  lemma QueryFramesStep(w: seq<seq<byte>>, n: nat)
    ensures w + QueryFrames(n + 1) == w + QueryFrames(n) + [Frame([ToByte(n + 1), CMD_QUERY])]
  {
    assert QueryFrames(n + 1) == QueryFrames(n) + [Frame([ToByte(n + 1), CMD_QUERY])];
  }

  /** A reply that is absent or comes from the board that was asked. */
  predicate WellAddressed(replies: seq<Option<DeviceStatus>>) {
    forall k :: 0 <= k < |replies| && replies[k].Some? ==> replies[k].value.deviceId == k + 1
  }

  /** The 32 slots holding the first n answers at their own positions. */
  function FilledSlots(a: seq<DeviceStatus>, n: nat): seq<Option<DeviceStatus>> {
    seq(32, k requires 0 <= k < 32 => if k < n && k < |a| then Some(a[k]) else None)
  }

  lemma {:induction false} PlacedPrefixWellAddressed(replies: seq<Option<DeviceStatus>>, n: nat)
    requires |replies| == 32 && WellAddressed(replies) && n <= 32
    ensures Placed(Answers(replies)[..n]) == Some(FilledSlots(Answers(replies), n))
  {
    var a := Answers(replies);
    if n == 0 {
      assert a[..0] == [];
      assert EmptySlots() == FilledSlots(a, 0);
    } else {
      PlacedPrefixWellAddressed(replies, n - 1);
      assert a[..n][..n - 1] == a[..n - 1];
      assert a[n - 1].deviceId == n;
      assert FilledSlots(a, n - 1)[n - 1 := Some(a[n - 1])] == FilledSlots(a, n);
    }
  }

  /**
   * When every reply is absent or from the board asked, the sweep succeeds and
   * slot i holds board i + 1's answer; a silent board shows as (id, false, false, false).
   */
  lemma WellAddressedSweep(replies: seq<Option<DeviceStatus>>)
    requires |replies| == 32 && WellAddressed(replies)
    ensures Placed(Answers(replies)).Some?
    ensures forall i :: 0 <= i < 32 ==> Placed(Answers(replies)).value[i] == Some(Answer(i + 1, replies[i]))
    ensures Reached(Answers(replies)) == 32
  {
    PlacedPrefixWellAddressed(replies, 32);
    var a := Answers(replies);
    assert a[..32] == a;
    PlacedPrefixWellAddressed(replies, 31);
    assert a[..31] == a[..|a| - 1];
  }

  lemma {:induction false} PlacedFailureSticks(a: seq<DeviceStatus>, n: nat)
    requires n <= |a| && Placed(a[..n]).None?
    ensures Placed(a).None?
    ensures Reached(a) == Reached(a[..n])
    decreases |a| - n
  {
    if n == |a| {
      assert a[..n] == a;
    } else {
      assert a[..n + 1][..n] == a[..n];
      PlacedFailureSticks(a, n + 1);
    }
  }

  /**
   * One board of the sweep, after boards 1..i-1 were placed into `slots`:
   * an answer with an id in 1..32 is placed and the sweep goes on; any other
   * id makes the whole sweep fail, with board i the last one queried.
   */
  lemma SweepStep(a: seq<DeviceStatus>, i: nat, slots: seq<Option<DeviceStatus>>, d: DeviceStatus)
    requires 1 <= i <= |a| && d == a[i - 1]
    requires Placed(a[..i - 1]) == Some(slots) && Reached(a[..i - 1]) == i - 1
    ensures 1 <= d.deviceId <= 32 ==>
      Placed(a[..i]) == Some(slots[d.deviceId - 1 := Some(d)]) && Reached(a[..i]) == i
    ensures !(1 <= d.deviceId <= 32) ==> Placed(a).None? && Reached(a) == i
  {
    PlacedStep(a, i);
    if !(1 <= a[i - 1].deviceId <= 32) {
      PlacedFailureSticks(a, i);
    }
  }

  /** doSystemQuery's regrouping: copies slots into left rail, right rail and outer ring. */
  method Regroup(slots: seq<Option<DeviceStatus>>) returns (refresh: SystemInfoRefresh)
    requires |slots| == 32
    ensures |refresh.leftRail| == 8 && |refresh.rightRail| == 8 && |refresh.outerRing| == 16
    ensures forall i :: 0 <= i < 8 ==> refresh.leftRail[i] == slots[HardwareId(LeftRail, i) as int - 1]
    ensures forall i :: 0 <= i < 8 ==> refresh.rightRail[i] == slots[HardwareId(RightRail, i) as int - 1]
    ensures forall i :: 0 <= i < 16 ==> refresh.outerRing[i] == slots[HardwareId(OuterRing, i) as int - 1]
  {
    var leftRail := RailStatus(slots, 8);
    var rightRail := RailStatus(slots, 0);
    var outerRing := OuterRingStatus(slots);
    refresh := SystemInfoRefresh(leftRail, rightRail, outerRing);
  }

  /** One rail's copy loop in doSystemQuery: the eight slots from `start` on. */
  method RailStatus(slots: seq<Option<DeviceStatus>>, start: nat) returns (rail: seq<Option<DeviceStatus>>)
    requires start + 8 <= |slots|
    ensures rail == slots[start..start + 8]
  {
    var a := new Option<DeviceStatus>[8];
    for i := 0 to 8
      invariant a[..i] == slots[start..start + i]
    {
      a[i] := slots[start + i];
    }
    rail := a[..];
  }

  /** The outer ring's two copy loops: slots 16..23 in order, then slots 31 down to 24. */
  method OuterRingStatus(slots: seq<Option<DeviceStatus>>) returns (ring: seq<Option<DeviceStatus>>)
    requires |slots| == 32
    ensures |ring| == 16
    ensures forall i :: 0 <= i < 8 ==> ring[i] == slots[16 + i]
    ensures forall i :: 8 <= i < 16 ==> ring[i] == slots[31 - (i - 8)]
  {
    var outer := new Option<DeviceStatus>[16];
    for i := 0 to 8
      invariant forall k :: 0 <= k < i ==> outer[k] == slots[16 + k]
    {
      outer[i] := slots[16 + i];
    }
    for i := 8 to 16
      invariant forall k :: 0 <= k < 8 ==> outer[k] == slots[16 + k]
      invariant forall k :: 8 <= k < i ==> outer[k] == slots[31 - (k - 8)]
    {
      outer[i] := slots[31 - (i - 8)];
    }
    ring := outer[..];
  }

  // ---------------------------------------------------------------------------
  // Payload lists of the multi-message events

  /** onTimerChanged: per timer board, the value message then the colour message. */
  function TimerPayloads(t: int): seq<seq<byte>> {
    [TimerValuePayload(35, t), ColourPayload(35, CMD_TIMER_COLOUR, TimerColour(t)),
     TimerValuePayload(38, t), ColourPayload(38, CMD_TIMER_COLOUR, TimerColour(t))]
  }

  /** setGlowfliesOn without broadcast: one igniter message per board, ids 1..32 ascending. */
  function GlowflySweep(on: bool): seq<seq<byte>> {
    seq(32, k => GlowflyPayload(k + 1, on))
  }

  function LifeBoards(playerNum: int): seq<byte> {
    if playerNum == 1 then P1_LIFE_BOARDS else P2_LIFE_BOARDS
  }

  /** initializeStaticBoardColours: orange timer colours, then blue action-point colours. */
  function StartupPayloads(lifeOrder: seq<byte>): seq<seq<byte>> {
    [ColourPayload(35, CMD_TIMER_COLOUR, ORANGE), ColourPayload(38, CMD_TIMER_COLOUR, ORANGE)]
    + seq(|lifeOrder|, k requires 0 <= k < |lifeOrder| => ColourPayload(lifeOrder[k], CMD_POINTS_COLOUR, BLUE))
  }

  lemma TimerPayloadsShape(t: int)
    ensures var ps := TimerPayloads(t);
      && |ps| == 4
      && ps[0][0] == 35 && ps[1][0] == 35 && ps[2][0] == 38 && ps[3][0] == 38
      && ps[0][1] == CMD_TIMER && ps[2][1] == CMD_TIMER
      && ps[1][1] == CMD_TIMER_COLOUR && ps[3][1] == CMD_TIMER_COLOUR
      && ps[0][2] == ToByte(t) && ps[2][2] == ToByte(t)
      && (ps[1][2..] == [255, 200, 0] <==> t <= 10)
      && (ps[1][2..] == [255, 0, 0] <==> t > 10)
  {
  }

  // ---------------------------------------------------------------------------

  class SerialCommunicator {
    /** CommandLineArgs.roundTimeInSecs: the largest timer value accepted. */
    const roundTimeInSecs: int
    var glowfliesOn: bool
    var lastTimerVal: int
    /** The outbound message queue, oldest first. */
    var messageQueue: seq<seq<byte>>
    /** Query frames written directly to the serial output by the status sweep. */
    var queryWrites: seq<seq<byte>>
    /** The flat result of the last completed sweep (Java's initial null is None). */
    var systemStatus: Option<seq<Option<DeviceStatus>>>

    /** Everything on the queue is a well-formed frame. */
    ghost predicate Valid()
      reads this
    {
      AllFramed(messageQueue)
    }

    constructor (roundTimeInSecs: int)
      ensures Valid()
      ensures this.roundTimeInSecs == roundTimeInSecs
      ensures !glowfliesOn && lastTimerVal == 0 && messageQueue == [] && queryWrites == []
      ensures systemStatus == None
    {
      this.roundTimeInSecs := roundTimeInSecs;
      glowfliesOn := false;
      lastTimerVal := 0;
      messageQueue := [];
      queryWrites := [];
      systemStatus := None;
    }

    /** enqueueMessage: the queue is unbounded, so the offer always succeeds. */
    method EnqueueMessage(message: seq<byte>)
      modifies this`messageQueue
      ensures messageQueue == old(messageQueue) + [message]
    {
      messageQueue := messageQueue + [message];
    }

    /** Frames a payload and enqueues it. */
    method Send(payload: seq<byte>)
      requires Valid() && |payload| < 256
      modifies this`messageQueue
      ensures Valid()
      ensures messageQueue == old(messageQueue) + [Frame(payload)]
    {
      var m := GetMessageForPayload(payload);
      FrameRoundTrip(payload);
      EnqueueMessage(m);
    }

    method NotifyFireEmitters(e: FireEmitterEvent)
      requires Valid()
      modifies this`messageQueue
      ensures Valid()
      ensures messageQueue == old(messageQueue) + [Frame(FirePayload(e, glowfliesOn))]
    {
      var payload := BuildFirePayload(e, glowfliesOn);
      Send(payload);
    }

    method ToggleGlowfly(on: bool, id: int)
      requires Valid()
      modifies this`messageQueue
      ensures Valid()
      ensures messageQueue == old(messageQueue) + [Frame(GlowflyPayload(id, on))]
    {
      var payload := new byte[3];
      payload[0] := ToByte(id);
      payload[1] := CMD_IGNITER;
      if on {
        payload[2] := ASCII_ONE;
      } else {
        payload[2] := ASCII_ZERO;
      }
      assert payload[..] == GlowflyPayload(id, on);
      Send(payload[..]);
    }

    /** setGlowfliesOn(on, broadcast): store the flag, then one broadcast or 32 addressed messages. */
    method SetGlowfliesOn(on: bool, broadcast: bool)
      requires Valid()
      modifies this`glowfliesOn, this`messageQueue
      ensures Valid()
      ensures glowfliesOn == on
      ensures broadcast ==> messageQueue == old(messageQueue) + [Frame(GlowflyPayload(BROADCAST_ID as int, on))]
      ensures !broadcast ==> messageQueue == old(messageQueue) + Frames(GlowflySweep(on))
    {
      glowfliesOn := on;
      if broadcast {
        var payload := new byte[3];
        payload[0] := BROADCAST_ID;
        payload[1] := CMD_IGNITER;
        if glowfliesOn {
          payload[2] := ASCII_ONE;
        } else {
          payload[2] := ASCII_ZERO;
        }
        assert payload[..] == GlowflyPayload(BROADCAST_ID as int, on);
        Send(payload[..]);
      } else {
        for i := 1 to 33
          invariant Valid() && glowfliesOn == on
          invariant messageQueue == old(messageQueue) + Frames(GlowflySweep(on)[..i - 1])
        {
          ToggleGlowfly(glowfliesOn, i);
          assert GlowflySweep(on)[..i] == GlowflySweep(on)[..i - 1] + [GlowflyPayload(i, on)];
        }
        assert GlowflySweep(on)[..32] == GlowflySweep(on);
      }
    }

    /** setGlowfliesOn(on): the broadcast form. */
    method SetGlowflies(on: bool)
      requires Valid()
      modifies this`glowfliesOn, this`messageQueue
      ensures Valid()
      ensures glowfliesOn == on
      ensures messageQueue == old(messageQueue) + [Frame(GlowflyPayload(BROADCAST_ID as int, on))]
    {
      SetGlowfliesOn(on, true);
    }

    /** ESTOP: broadcast igniters off. */
    method Estop()
      requires Valid()
      modifies this`glowfliesOn, this`messageQueue
      ensures Valid()
      ensures !glowfliesOn
      ensures messageQueue == old(messageQueue) + [Frame(GlowflyPayload(BROADCAST_ID as int, false))]
    {
      SetGlowflies(false);
    }

    /**
     * onPlayerHealthChanged: for each of the player's life boards, the lit-bar
     * count and the bar colour. Any player number but 1 or 2 is rejected
     * (IllegalArgumentException) before anything is queued.
     */
    method OnPlayerHealthChanged(playerNum: int, life: int, colour: Rgb) returns (ok: bool)
      requires Valid()
      modifies this`messageQueue
      ensures Valid()
      ensures ok <==> playerNum == 1 || playerNum == 2
      ensures !ok ==> messageQueue == old(messageQueue)
      ensures ok ==> (messageQueue == old(messageQueue)
        + Frames([LifePayload(LifeBoards(playerNum)[0], life, colour), LifePayload(LifeBoards(playerNum)[1], life, colour)]))
    {
      if playerNum != 1 && playerNum != 2 {
        return false;
      }
      var boards := LifeBoards(playerNum);
      for i := 0 to 2
        invariant Valid()
        invariant messageQueue == old(messageQueue)
          + Frames([LifePayload(boards[0], life, colour), LifePayload(boards[1], life, colour)][..i])
      {
        var payload := [boards[i], CMD_LIFE, ToByte(LitBars(life)), CMD_LIFE_COLOUR, colour.red, colour.green, colour.blue];
        Send(payload);
      }
      return true;
    }

    /** onPlayerActionPointsChanged: for each of the player's boards, the lit-bar count. */
    method OnPlayerActionPointsChanged(playerNum: int, points: int) returns (ok: bool)
      requires Valid()
      modifies this`messageQueue
      ensures Valid()
      ensures ok <==> playerNum == 1 || playerNum == 2
      ensures !ok ==> messageQueue == old(messageQueue)
      ensures ok ==> (messageQueue == old(messageQueue)
        + Frames([PointsPayload(LifeBoards(playerNum)[0], points), PointsPayload(LifeBoards(playerNum)[1], points)]))
    {
      if playerNum != 1 && playerNum != 2 {
        return false;
      }
      var boards := LifeBoards(playerNum);
      for i := 0 to 2
        invariant Valid()
        invariant messageQueue == old(messageQueue)
          + Frames([PointsPayload(boards[0], points), PointsPayload(boards[1], points)][..i])
      {
        Send([boards[i], CMD_POINTS, ToByte(LitBars(points))]);
      }
      return true;
    }

    /** onTimerChanged(int): remember the value and send value and colour to both timer boards. */
    method OnTimerChanged(t: int)
      requires Valid()
      modifies this`lastTimerVal, this`messageQueue
      ensures Valid()
      ensures lastTimerVal == t
      ensures messageQueue == old(messageQueue) + Frames(TimerPayloads(t))
    {
      lastTimerVal := t;
      var c := if lastTimerVal <= 10 then ORANGE else END_ROUND_RED;
      for i := 0 to 2
        invariant Valid() && lastTimerVal == t
        invariant messageQueue == old(messageQueue) + Frames(TimerPayloads(t)[..2 * i])
      {
        var board := TIMER_BOARDS[i];
        assert TimerPayloads(t)[2 * i] == [board, CMD_TIMER, ToByte(lastTimerVal)];
        assert TimerPayloads(t)[2 * i + 1] == [board, CMD_TIMER_COLOUR, c.red, c.green, c.blue];
        FramesStep(old(messageQueue), TimerPayloads(t), 2 * i);
        FramesStep(old(messageQueue), TimerPayloads(t), 2 * i + 1);
        Send([board, CMD_TIMER, ToByte(lastTimerVal)]);
        Send([board, CMD_TIMER_COLOUR, c.red, c.green, c.blue]);
      }
      assert TimerPayloads(t)[..4] == TimerPayloads(t);
    }

    /** onTimerChanged(event): a value below 0 or above the round length is dropped. */
    method OnTimerChangedEvent(t: int)
      requires Valid()
      modifies this`lastTimerVal, this`messageQueue
      ensures Valid()
      ensures t < 0 || t > roundTimeInSecs ==>
        lastTimerVal == old(lastTimerVal) && messageQueue == old(messageQueue)
      ensures 0 <= t <= roundTimeInSecs ==>
        lastTimerVal == t && messageQueue == old(messageQueue) + Frames(TimerPayloads(t))
    {
      if t < 0 || t > roundTimeInSecs {
        return;
      }
      OnTimerChanged(t);
    }

    /**
     * initializeStaticBoardColours: timer boards orange, then the four life
     * boards blue in the life-board set's iteration order (given here).
     */
    method InitializeStaticBoardColours(lifeOrder: seq<byte>)
      requires Valid()
      requires multiset(lifeOrder) == multiset{33, 34, 36, 37}
      modifies this`messageQueue
      ensures Valid()
      ensures messageQueue == old(messageQueue) + Frames(StartupPayloads(lifeOrder))
    {
      for i := 0 to 2
        invariant Valid()
        invariant messageQueue == old(messageQueue) + Frames(StartupPayloads(lifeOrder)[..i])
      {
        Send([TIMER_BOARDS[i], CMD_TIMER_COLOUR, ORANGE.red, ORANGE.green, ORANGE.blue]);
        assert StartupPayloads(lifeOrder)[..i + 1] == StartupPayloads(lifeOrder)[..i] + [StartupPayloads(lifeOrder)[i]];
      }
      for i := 0 to |lifeOrder|
        invariant Valid()
        invariant messageQueue == old(messageQueue) + Frames(StartupPayloads(lifeOrder)[..2 + i])
      {
        Send([lifeOrder[i], CMD_POINTS_COLOUR, BLUE.red, BLUE.green, BLUE.blue]);
        assert StartupPayloads(lifeOrder)[..2 + i + 1] == StartupPayloads(lifeOrder)[..2 + i] + [StartupPayloads(lifeOrder)[2 + i]];
      }
      assert StartupPayloads(lifeOrder)[..2 + |lifeOrder|] == StartupPayloads(lifeOrder);
    }

    /** A fresh copy of MESSAGE_TEMPLATE_BYTES. */
    static method NewQueryTemplate() returns (template: array<byte>)
      ensures fresh(template) && template[..] == QUERY_TEMPLATE
    {
      template := new byte[6];
      template[0], template[1], template[2], template[3], template[4], template[5] :=
        QUERY_TEMPLATE[0], QUERY_TEMPLATE[1], QUERY_TEMPLATE[2], QUERY_TEMPLATE[3], QUERY_TEMPLATE[4], QUERY_TEMPLATE[5];
    }

    /** queryAllBoards' result array before the sweep: 32 empty (null) slots. */
    static method NewSlots() returns (slots: array<Option<DeviceStatus>>)
      ensures fresh(slots) && slots[..] == EmptySlots()
    {
      slots := new Option<DeviceStatus>[32];
      for i := 0 to 32
        invariant slots[..i] == EmptySlots()[..i]
      {
        slots[i] := None;
      }
    }

    /**
     * queryBoard(board, template): patch destination and checksum into the
     * cached template, write it, and take the reply (or the timed-out default).
     */
    method QueryBoard(board: int, template: array<byte>, reply: Option<DeviceStatus>) returns (status: DeviceStatus)
      requires ConformsToTemplate(template[..])
      modifies this`queryWrites, template
      ensures template[..] == old(template[..])[3 := ToByte(board)][5 := ToByte(-(board + 63) - 1)]
      ensures template[..] == Frame([ToByte(board), CMD_QUERY])
      ensures queryWrites == old(queryWrites) + [template[..]]
      ensures status == Answer(board, reply)
    {
      status := DeviceStatus(board, false, false, false);
      template[3] := ToByte(board);
      template[5] := ToByte(-(board + 63) - 1);
      PatchedTemplateIsQueryFrame(old(template[..]), board);
      queryWrites := queryWrites + [template[..]];
      if reply.Some? {
        status := reply.value;
      }
    }

    /** queryBoard(board): the same on a fresh copy of the template. */
    method QueryOneBoard(board: int, reply: Option<DeviceStatus>) returns (status: DeviceStatus)
      modifies this`queryWrites
      ensures queryWrites == old(queryWrites) + [Frame([ToByte(board), CMD_QUERY])]
      ensures status == Answer(board, reply)
    {
      var template := NewQueryTemplate();
      status := QueryBoard(board, template, reply);
    }

    /**
     * queryAllBoards: query boards 1..32 in order with one template and store
     * each answer at deviceId - 1. An answer whose id is outside 1..32 ends
     * the sweep with an index exception (None).
     */
    method QueryAllBoards(replies: seq<Option<DeviceStatus>>) returns (result: Option<seq<Option<DeviceStatus>>>)
      requires |replies| == 32
      modifies this`queryWrites
      ensures result == Placed(Answers(replies))
      ensures queryWrites == old(queryWrites) + QueryFrames(Reached(Answers(replies)))
    {
      var slots := NewSlots();
      var template := NewQueryTemplate();
      ghost var a := Answers(replies);
      assert a[..0] == [];
      for i := 1 to 33
        invariant ConformsToTemplate(template[..])
        invariant Placed(a[..i - 1]) == Some(slots[..])
        invariant Reached(a[..i - 1]) == i - 1
        invariant queryWrites == old(queryWrites) + QueryFrames(i - 1)
      {
        ghost var before := slots[..];
        ghost var d := a[i - 1];
        assert d == Answer(i, replies[i - 1]);
        SweepStep(a, i, before, d);
        QueryFramesStep(old(queryWrites), i - 1);
        var placed := QueryAndPlace(i, template, slots, replies[i - 1], before, d);
        if !placed {
          return None;
        }
        assert Placed(a[..i]) == Some(slots[..]);
      }
      assert a[..32] == a;
      result := Some(slots[..]);
    }

    /**
     * One iteration of queryAllBoards: query the board, then store its answer
     * at deviceId - 1; `placed` is false when that index is out of bounds.
     */
    method QueryAndPlace(board: int, template: array<byte>, slots: array<Option<DeviceStatus>>,
                         reply: Option<DeviceStatus>, ghost before: seq<Option<DeviceStatus>>,
                         ghost d: DeviceStatus) returns (placed: bool)
      requires ConformsToTemplate(template[..]) && slots.Length == 32
      requires slots[..] == before && d == Answer(board, reply)
      modifies this`queryWrites, template, slots
      ensures ConformsToTemplate(template[..])
      ensures queryWrites == old(queryWrites) + [Frame([ToByte(board), CMD_QUERY])]
      ensures placed <==> 1 <= d.deviceId <= 32
      ensures placed ==> slots[..] == before[d.deviceId - 1 := Some(d)]
      ensures !placed ==> slots[..] == before
    {
      var status := QueryBoard(board, template, reply);
      QueryFrameConforms(ToByte(board));
      if !(1 <= status.deviceId <= 32) {
        return false;
      }
      slots[status.deviceId - 1] := Some(status);
      return true;
    }

    /**
     * doSystemQuery: run the sweep, keep the flat result, and regroup it by
     * emitter position for the refresh event (None when the sweep raised).
     */
    method DoSystemQuery(replies: seq<Option<DeviceStatus>>) returns (refresh: Option<SystemInfoRefresh>)
      requires |replies| == 32
      modifies this`queryWrites, this`systemStatus
      ensures queryWrites == old(queryWrites) + QueryFrames(Reached(Answers(replies)))
      ensures refresh.Some? <==> Placed(Answers(replies)).Some?
      ensures refresh.None? ==> systemStatus == old(systemStatus)
      ensures refresh.Some? ==> systemStatus == Placed(Answers(replies))
      ensures refresh.Some? ==>
        var slots := Placed(Answers(replies)).value;
        && |refresh.value.leftRail| == 8 && |refresh.value.rightRail| == 8 && |refresh.value.outerRing| == 16
        && (forall i :: 0 <= i < 8 ==> refresh.value.leftRail[i] == slots[HardwareId(LeftRail, i) as int - 1])
        && (forall i :: 0 <= i < 8 ==> refresh.value.rightRail[i] == slots[HardwareId(RightRail, i) as int - 1])
        && (forall i :: 0 <= i < 16 ==> refresh.value.outerRing[i] == slots[HardwareId(OuterRing, i) as int - 1])
    {
      var all := QueryAllBoards(replies);
      if all.None? {
        return None;
      }
      systemStatus := all;
      var r := Regroup(all.value);
      refresh := Some(r);
    }
  }
}
