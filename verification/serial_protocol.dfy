/**
 * The framed serial protocol spoken by SerialCommunicator to the flame-effect
 * and display boards: octets, the one's-complement checksum, the frame
 * `0xAA 0xAA len payload checksum`, the fixed board-id layout and the payloads
 * built for each kind of game event.
 */
module SerialProtocol {
  import opened Wrappers

  /** An octet on the wire. Java's signed `byte` is read here as its unsigned bit pattern. */
  newtype byte = x: int | 0 <= x < 256

  /** Java's narrowing cast `(byte) x`: keeps the low eight bits (Dafny's `%` is Euclidean). */
  function ToByte(x: int): byte {
    (x % 256) as byte
  }

  const FRAMING_BYTE: byte := 0xAA
  const BROADCAST_ID: byte := 0xFF

  // ASCII command and value bytes used by the payloads
  const CMD_IGNITER: byte := 0x41        // 'A'
  const ASCII_ZERO: byte := 0x30         // '0'
  const ASCII_ONE: byte := 0x31          // '1'
  const CMD_LIFE: byte := 0x4C           // 'L'
  const CMD_LIFE_COLOUR: byte := 0x6C    // 'l'
  const CMD_POINTS: byte := 0x43         // 'C'
  const CMD_POINTS_COLOUR: byte := 0x63  // 'c'
  const CMD_TIMER: byte := 0x54          // 'T'
  const CMD_TIMER_COLOUR: byte := 0x74   // 't'
  const CMD_QUERY: byte := 0x3F          // '?'

  /** Exact (unwrapped) sum of the payload octets, accumulated from the front. */
  function Sum(p: seq<byte>): int {
    if p == [] then 0 else Sum(p[..|p| - 1]) + p[|p| - 1] as int
  }

  /**
   * getChecksum: the one's complement of the 8-bit wrap-around sum of the payload.
   * Adding it to the payload sum always gives 0xFF modulo 256.
   */
  function Checksum(p: seq<byte>): (c: byte)
    ensures (Sum(p) + c as int) % 256 == 0xFF
  {
    var s := Sum(p) % 256;
    assert Sum(p) == 256 * (Sum(p) / 256) + s;
    (255 - s) as byte
  }

  /** getMessageForPayload: framing bytes, payload length, payload, checksum. */
  function Frame(p: seq<byte>): (m: seq<byte>)
    ensures |m| == |p| + 4 && m[0] == FRAMING_BYTE && m[1] == FRAMING_BYTE && m[2] == ToByte(|p|)
    ensures m[3..|p| + 3] == p && m[|p| + 3] == Checksum(p)
  {
    [FRAMING_BYTE, FRAMING_BYTE, ToByte(|p|)] + p + [Checksum(p)]
  }

  /**
   * The receiving side of the framing: accepts exactly the well-formed frames
   * and yields their payload.
   */
  function ParseFrame(m: seq<byte>): (r: Option<seq<byte>>)
    ensures r.Some? ==> |r.value| < 256 && m == Frame(r.value)
  {
    if |m| < 4 || m[0] != FRAMING_BYTE || m[1] != FRAMING_BYTE || m[2] as int != |m| - 4 then None
    else
      var p := m[3..|m| - 1];
      if m[|m| - 1] == Checksum(p) then
        assert m == [m[0], m[1], m[2]] + p + [m[|m| - 1]];
        Some(p)
      else None
  }

  lemma FrameRoundTrip(p: seq<byte>)
    requires |p| < 256
    ensures |Frame(p)| == |p| + 4
    ensures ParseFrame(Frame(p)) == Some(p)
  {
    var m := Frame(p);
    assert m[3..|m| - 1] == p;
  }

  /** Replacing one payload octet by the same octet plus d changes the sum by exactly d. */
  lemma {:induction false} SumUpdate(p: seq<byte>, i: nat, v: byte)
    requires i < |p|
    ensures Sum(p[i := v]) == Sum(p) - p[i] as int + v as int
  {
    var q := p[i := v];
    if i < |p| - 1 {
      assert q[..|q| - 1] == p[..|p| - 1][i := v];
      SumUpdate(p[..|p| - 1], i, v);
    } else {
      assert q[..|q| - 1] == p[..|p| - 1];
    }
  }

  /** A single corrupted payload octet always changes the checksum. */
  lemma ChecksumDetectsSingleByteChange(p: seq<byte>, i: nat, v: byte)
    requires i < |p| && v != p[i]
    ensures Checksum(p[i := v]) != Checksum(p)
  {
    SumUpdate(p, i, v);
    var s, d := Sum(p), v as int - p[i] as int;
    var r := s % 256;
    assert s + d == 256 * (s / 256) + (r + d);
    if r + d < 0 {
      assert (s + d) % 256 == r + d + 256;
    } else if r + d < 256 {
      assert (s + d) % 256 == r + d;
    } else {
      assert (s + d) % 256 == r + d - 256;
    }
  }

  /** A frame whose payload octet i was corrupted in transit is rejected. */
  lemma CorruptedFrameRejected(p: seq<byte>, i: nat, v: byte)
    requires |p| < 256 && i < |p| && v != p[i]
    ensures ParseFrame(Frame(p)[3 + i := v]) == None
  {
    var m := Frame(p)[3 + i := v];
    if ParseFrame(m).Some? {
      var q := ParseFrame(m).value;
      assert |q| == |p|;
      assert q == p[i := v];
      assert m[|m| - 1] == Checksum(p);
      ChecksumDetectsSingleByteChange(p, i, v);
      assert false;
    }
  }

  lemma SumOfTwo(x: byte, y: byte)
    ensures Sum([x, y]) == x as int + y as int
  {
    assert [x, y][..1] == [x];
    assert [x][..0] == [];
    assert Sum([x]) == Sum([]) + x as int;
  }

  lemma SumOfThree(x: byte, y: byte, z: byte)
    ensures Sum([x, y, z]) == x as int + y as int + z as int
  {
    assert [x, y, z][..2] == [x, y];
    SumOfTwo(x, y);
  }

  /** Worked example: payload [5, 'T', 7] is framed as AA AA 03 05 54 07 9F. */
  lemma TimerFrameExample()
    ensures Frame([5, CMD_TIMER, 7]) == [0xAA, 0xAA, 3, 5, 0x54, 7, 0x9F]
  {
    SumOfThree(5, CMD_TIMER, 7);
  }

  // ---------------------------------------------------------------------------
  // Board addressing

  /** Where a fire emitter sits in the game model's numbering. */
  datatype Location = RightRail | LeftRail | OuterRing

  /** A game-model emitter position: 8 per rail, 16 round the outer ring. */
  predicate ValidEmitter(loc: Location, index: int) {
    0 <= index < (if loc == OuterRing then 16 else 8)
  }

  /**
   * getHardwareIdFromEvent: rails map straight onto 1..8 and 9..16; the outer
   * ring runs 17..24 and then wraps back from 32 down to 25.
   */
  function HardwareId(loc: Location, index: int): (id: byte)
    ensures ValidEmitter(loc, index) ==> 1 <= id <= 32
    ensures ValidEmitter(loc, index) && loc == RightRail ==> id as int == 1 + index
    ensures ValidEmitter(loc, index) && loc == LeftRail ==> id as int == 9 + index
    ensures ValidEmitter(loc, index) && loc == OuterRing && index <= 7 ==> id as int == 17 + index
    ensures ValidEmitter(loc, index) && loc == OuterRing && index >= 8 ==> id as int == 40 - index
  {
    match loc
    case RightRail => ToByte(1 + index)
    case LeftRail => ToByte(9 + index)
    case OuterRing => if index <= 7 then ToByte(17 + index) else ToByte(32 + (8 - index))
  }

  /**
   * The regrouping in doSystemQuery, read per status slot (slot = board id - 1):
   * which emitter position each of the 32 slots is shown as.
   */
  function EmitterOfSlot(slot: int): (e: (Location, int))
    requires 0 <= slot < 32
    ensures ValidEmitter(e.0, e.1)
  {
    if slot < 8 then (RightRail, slot)
    else if slot < 16 then (LeftRail, slot - 8)
    else if slot < 24 then (OuterRing, slot - 16)
    else (OuterRing, 39 - slot)
  }

  /** Regrouping then addressing gives back the slot: every board id 1..32 is some emitter's. */
  lemma SlotToEmitterToId(slot: int)
    requires 0 <= slot < 32
    ensures HardwareId(EmitterOfSlot(slot).0, EmitterOfSlot(slot).1) as int == slot + 1
  {
  }

  /** Addressing then regrouping gives back the emitter: no two emitters share a board. */
  lemma EmitterToIdToEmitter(loc: Location, index: int)
    requires ValidEmitter(loc, index)
    ensures EmitterOfSlot(HardwareId(loc, index) as int - 1) == (loc, index)
  {
  }

  lemma HardwareIdInjective(l1: Location, i1: int, l2: Location, i2: int)
    requires ValidEmitter(l1, i1) && ValidEmitter(l2, i2)
    requires HardwareId(l1, i1) == HardwareId(l2, i2)
    ensures l1 == l2 && i1 == i2
  {
    EmitterToIdToEmitter(l1, i1);
    EmitterToIdToEmitter(l2, i2);
  }

  // ---------------------------------------------------------------------------
  // Status query template

  /** MESSAGE_TEMPLATE_BYTES: a '?' query whose destination and checksum are patched per board. */
  const QUERY_TEMPLATE: seq<byte> := [FRAMING_BYTE, FRAMING_BYTE, 2, 0, CMD_QUERY, 0]

  /** A six-octet buffer that agrees with the template outside the two patched octets. */
  predicate ConformsToTemplate(t: seq<byte>) {
    |t| == 6 && t[0] == FRAMING_BYTE && t[1] == FRAMING_BYTE && t[2] == 2 && t[4] == CMD_QUERY
  }

  /**
   * The checksum octet queryBoard writes, `(byte) ~(board + 63)`, is the
   * checksum of the query payload [board, '?'].
   */
  lemma QueryChecksum(board: int)
    ensures ToByte(-(board + 63) - 1) == Checksum([ToByte(board), CMD_QUERY])
  {
    var b := ToByte(board) as int;
    SumOfTwo(ToByte(board), CMD_QUERY);
    assert board == 256 * (board / 256) + b;
    var k := board / 256;
    assert -(board + 63) - 1 == (-(b + 63) - 1) + 256 * (-k);
    if b + 63 < 256 {
      assert (-(b + 63) - 1) % 256 == 255 - (b + 63);
    } else {
      assert (-(b + 63) - 1) % 256 == 255 - (b + 63 - 256);
    }
  }

  /** Patching the template for a board produces exactly the framed query for that board. */
  lemma PatchedTemplateIsQueryFrame(t: seq<byte>, board: int)
    requires ConformsToTemplate(t)
    ensures t[3 := ToByte(board)][5 := ToByte(-(board + 63) - 1)] == Frame([ToByte(board), CMD_QUERY])
  {
    QueryChecksum(board);
  }

  // ---------------------------------------------------------------------------
  // Payloads

  datatype Rgb = Rgb(red: byte, green: byte, blue: byte)

  // java.awt.Color constants used by SerialCommunicator
  const ORANGE := Rgb(255, 200, 0)
  const END_ROUND_RED := Rgb(255, 0, 0)
  const BLUE := Rgb(0, 0, 255)

  const P1_LIFE_BOARDS: seq<byte> := [33, 36]
  const P2_LIFE_BOARDS: seq<byte> := [34, 37]
  const TIMER_BOARDS: seq<byte> := [35, 38]
  const LIFE_BOARD_SET: set<byte> := {33, 36, 34, 37}

  /** Number of LEDs on the health and action-point strips. */
  const NUM_LIFE_BARS := 44

  /**
   * `Math.round(v / 100.0 * NUM_LIFE_BARS)` for an integer percentage v: the
   * nearest whole number of lit bars (no percentage lies exactly half-way).
   */
  function LitBars(v: int): (n: int)
    ensures 0 <= v <= 100 ==> 0 <= n <= NUM_LIFE_BARS
    ensures NUM_LIFE_BARS * v - 50 < 100 * n <= NUM_LIFE_BARS * v + 50
  {
    (v * NUM_LIFE_BARS + 50) / 100
  }

  /** Entities that can feed a fire emitter; IGameModel.Entity's others are collapsed into one. */
  datatype Entity = Player1Entity | Player2Entity | OtherEntity

  /**
   * A FireEmitterChangedEvent, with its intensities already scaled to whole
   * percentages (`100 * intensity`).
   */
  datatype FireEmitterEvent = FireEmitterEvent(
    location: Location, index: int, contributors: set<Entity>,
    maxIntensity: int, p1Intensity: int, p2Intensity: int)

  /** The three effect-output values: fire, player-1 colour, player-2 colour. */
  function FireValues(e: FireEmitterEvent): seq<byte> {
    if |e.contributors| == 0 then [0, 0, 0]
    else [ToByte(e.maxIntensity),
          if Player1Entity in e.contributors then ToByte(e.p1Intensity) else 0,
          if Player2Entity in e.contributors then ToByte(e.p2Intensity) else 0]
  }

  function IgniterByte(on: bool): byte {
    if on then ASCII_ONE else ASCII_ZERO
  }

  /** notifyFireEmitters' payload: outputs '1'..'4' with their values, then 'A' and the igniter flag. */
  function FirePayload(e: FireEmitterEvent, glowfliesOn: bool): seq<byte> {
    var v := FireValues(e);
    [HardwareId(e.location, e.index), 49, v[0], 50, v[1], 51, v[2], 52, 0, CMD_IGNITER, IgniterByte(glowfliesOn)]
  }

  /** toggleGlowfly's payload, and setGlowfliesOn's with the broadcast id. */
  function GlowflyPayload(id: int, on: bool): seq<byte> {
    [ToByte(id), CMD_IGNITER, IgniterByte(on)]
  }

  function LifePayload(board: byte, life: int, c: Rgb): seq<byte> {
    [board, CMD_LIFE, ToByte(LitBars(life)), CMD_LIFE_COLOUR, c.red, c.green, c.blue]
  }

  function PointsPayload(board: byte, points: int): seq<byte> {
    [board, CMD_POINTS, ToByte(LitBars(points))]
  }

  function TimerValuePayload(board: byte, t: int): seq<byte> {
    [board, CMD_TIMER, ToByte(t)]
  }

  function ColourPayload(board: byte, cmd: byte, c: Rgb): seq<byte> {
    [board, cmd, c.red, c.green, c.blue]
  }

  /** onTimerChanged's colour: orange up to ten seconds, red above. */
  function TimerColour(t: int): (c: Rgb)
    ensures c == ORANGE <==> t <= 10
    ensures c == END_ROUND_RED <==> t > 10
  {
    if t <= 10 then ORANGE else END_ROUND_RED
  }

  lemma FirePayloadLayout(e: FireEmitterEvent, glowfliesOn: bool)
    ensures var p := FirePayload(e, glowfliesOn);
      && |p| == 11
      && p[0] == HardwareId(e.location, e.index)
      && p[1] == 49 && p[3] == 50 && p[5] == 51 && p[7] == 52 && p[9] == CMD_IGNITER
      && p[8] == 0
      && (p[10] == ASCII_ONE <==> glowfliesOn)
      && (|e.contributors| == 0 ==> p[2] == 0 && p[4] == 0 && p[6] == 0)
      && (Player1Entity !in e.contributors ==> p[4] == 0)
      && (Player2Entity !in e.contributors ==> p[6] == 0)
  {
  }
}
