/**
 * XBeeIO: the payload encoders of the wireless output side — the two-digit
 * seven-segment timer word, the life-bar bitmask, the three 16-bit fire and
 * colour words packed from the emitter states, and the fixed fire and KO
 * words — together with the `fireData` / `timerData` caches.
 *
 * Each transmission is recorded as a packet appended to `sent`; the radio,
 * its address table and the byte layout of `struct.pack` are not modelled.
 */
module XBee {
  import opened Wrappers

  // ---------------------------------------------------------------------------
  // Seven-segment timer word

  /** Segment patterns of the digits 0..9 (bit 0 = top segment, ... bit 6 = middle). */
  const DIGIT_MAP: seq<int> := [0x3F, 0x06, 0x5B, 0x4F, 0x66, 0x6D, 0x7D, 0x07, 0x7F, 0x6F]

  /** The digit a segment pattern shows, if any. */
  function DecodeDigit(pattern: int): (d: Option<int>)
    ensures d.Some? ==> 0 <= d.value < 10 && DIGIT_MAP[d.value] == pattern
    ensures d.None? ==> forall k :: 0 <= k < 10 ==> DIGIT_MAP[k] != pattern
  {
    if pattern == 0x3F then Some(0)
    else if pattern == 0x06 then Some(1)
    else if pattern == 0x5B then Some(2)
    else if pattern == 0x4F then Some(3)
    else if pattern == 0x66 then Some(4)
    else if pattern == 0x6D then Some(5)
    else if pattern == 0x7D then Some(6)
    else if pattern == 0x07 then Some(7)
    else if pattern == 0x7F then Some(8)
    else if pattern == 0x6F then Some(9)
    else None
  }

  /** Each digit has its own pattern, and every pattern lights only the seven segments. */
  lemma DigitPatternsDistinct(d: int, e: int)
    requires 0 <= d < 10 && 0 <= e < 10
    ensures DIGIT_MAP[d] == DIGIT_MAP[e] ==> d == e
    ensures 0 < DIGIT_MAP[d] < 0x80
  {
    assert DecodeDigit(DIGIT_MAP[d]) == Some(d) by {
      if d == 0 {} else if d == 1 {} else if d == 2 {} else if d == 3 {} else if d == 4 {}
      else if d == 5 {} else if d == 6 {} else if d == 7 {} else if d == 8 {} else {}
    }
  }

  /**
   * The timer word for 0..99: the tens pattern in the high octet, the units
   * pattern in the low one (`tens << 8 | units`; the units pattern is below
   * 0x80, so the OR is an addition).
   */
  function TimerWord(v: int): (w: int)
    requires 0 <= v <= 99
    ensures 0 <= w < 0x8000
    ensures w / 256 == DIGIT_MAP[v / 10] && w % 256 == DIGIT_MAP[v % 10]
  {
    DigitPatternsDistinct(v / 10, v / 10);
    DigitPatternsDistinct(v % 10, v % 10);
    DIGIT_MAP[v / 10] * 256 + DIGIT_MAP[v % 10]
  }

  /** The two-digit number a timer word shows, if both octets are digit patterns. */
  function DecodeTimerWord(w: int): (r: Option<int>)
    ensures r.Some? ==> 0 <= r.value <= 99
  {
    match (DecodeDigit(w / 256), DecodeDigit(w % 256))
    case (Some(t), Some(u)) => Some(10 * t + u)
    case _ => None
  }

  /** The display reads back the number that was encoded. */
  lemma TimerWordRoundTrip(v: int)
    requires 0 <= v <= 99
    ensures DecodeTimerWord(TimerWord(v)) == Some(v)
  {
    var w := TimerWord(v);
    DigitPatternsDistinct(v / 10, v / 10);
    DigitPatternsDistinct(v % 10, v % 10);
    var t := DecodeDigit(w / 256);
    var u := DecodeDigit(w % 256);
    DigitPatternsDistinct(t.value, v / 10);
    DigitPatternsDistinct(u.value, v % 10);
  }

  /** Different numbers light different segments. */
  lemma TimerWordInjective(v: int, v': int)
    requires 0 <= v <= 99 && 0 <= v' <= 99
    ensures TimerWord(v) == TimerWord(v') ==> v == v'
  {
    if TimerWord(v) == TimerWord(v') {
      TimerWordRoundTrip(v);
      TimerWordRoundTrip(v');
    }
  }

  // ---------------------------------------------------------------------------
  // Life-bar bitmask

  function Pow2(n: nat): (p: nat)
    ensures p >= 1
  {
    if n == 0 then 1 else 2 * Pow2(n - 1)
  }

  /** Bit i of a non-negative integer. */
  function Bit(w: nat, i: nat): bool {
    (w / Pow2(i)) % 2 == 1
  }

  /** Python's `int(h / 6.25)`: the quotient 4h/25 truncated toward zero. */
  function TruncQuarterPercent(h: int): (q: int)
    ensures h >= 0 ==> 25 * q <= 4 * h < 25 * q + 25
    ensures h < 0 ==> 25 * q - 25 < 4 * h <= 25 * q
  {
    if h >= 0 then (4 * h) / 25 else -((-4 * h) / 25)
  }

  /**
   * _getLifeData: 100 lights all sixteen lamps and 0 none; any other health
   * lights a run of `int(h / 6.25) + 1` low lamps. The shift count is
   * negative (Python raises ValueError) for health of -13 or below.
   */
  function LifeData(h: int): (r: Option<nat>)
    ensures h == 100 ==> r == Some(0xFFFF)
    ensures h == 0 ==> r == Some(0)
    ensures r.None? <==> h != 100 && h != 0 && TruncQuarterPercent(h) + 1 < 0
    ensures h != 100 && h != 0 && r.Some? ==> r.value + 1 == Pow2(TruncQuarterPercent(h) + 1)
  {
    if h == 100 then Some(0xFFFF)
    else if h == 0 then Some(0)
    else
      var n := TruncQuarterPercent(h) + 1;
      if n < 0 then None else Some(Pow2(n) - 1)
  }

  /** The run of low bits: bit i of 2^n - 1 is set exactly when i < n. */
  lemma {:induction false} LowBitsRun(n: nat, i: nat)
    ensures Bit(Pow2(n) - 1, i) <==> i < n
  {
    if n == 0 {
      BitOfZero(i);
    } else {
      var m := Pow2(n - 1) - 1;
      Pow2Step(n);
      if i == 0 {
        BitZero(2 * m + 1);
      } else {
        HalveBit(m, i - 1);
        LowBitsRun(n - 1, i - 1);
      }
    }
  }

  lemma Pow2Step(n: nat)
    requires n > 0
    ensures Pow2(n) - 1 == 2 * (Pow2(n - 1) - 1) + 1
  {
  }

  /** Bit 0 is the remainder modulo 2. */
  lemma BitZero(x: nat)
    ensures Bit(x, 0) <==> x % 2 == 1
  {
    assert Pow2(0) == 1;
  }

  lemma BitOfZero(i: nat)
    ensures !Bit(0, i)
  {
    assert 0 / Pow2(i) == 0;
  }

  /** Shifting right by one: bit i+1 of 2m+1 is bit i of m. */
  lemma HalveBit(m: nat, i: nat)
    ensures Bit(2 * m + 1, i + 1) == Bit(m, i)
  {
    var p := Pow2(i);
    assert Pow2(i + 1) == 2 * p;
    DivDiv(2 * m + 1, 2, p);
  }

  lemma DivUnique(x: int, d: int, q: int, r: int)
    requires d > 0 && 0 <= r < d && x == d * q + r
    ensures x / d == q
  {
    var q', r' := x / d, x % d;
    assert x == d * q' + r';
    if q' > q {
      MulAtLeast(d, q' - q);
    } else if q' < q {
      MulAtLeast(d, q - q');
    }
  }

  lemma MulAtLeast(d: int, k: int)
    requires d > 0 && k >= 1
    ensures d * k >= d
  {
  }

  lemma DivDiv(x: nat, a: nat, b: nat)
    requires a > 0 && b > 0
    ensures x / (a * b) == (x / a) / b
  {
    var q := x / (a * b);
    var r := x % (a * b);
    var s := r / a;
    assert r == a * s + r % a;
    assert x == a * (b * q + s) + r % a;
    DivUnique(x, a, b * q + s, r % a);
    assert s < b;
    DivUnique(x / a, b, q, s);
  }

  lemma Pow2Sixteen()
    ensures Pow2(16) == 0x10000
  {
    assert Pow2(4) == 16;
    assert Pow2(8) == 256;
    assert Pow2(12) == 4096;
  }

  lemma Pow2Monotonic(m: nat, n: nat)
    requires m <= n
    ensures Pow2(m) <= Pow2(n)
  {
    if m < n {
      Pow2Monotonic(m, n - 1);
    }
  }

  /**
   * For health strictly between 0 and 100 the mask is a run of 1..16 low
   * lamps that fits in a 16-bit word, and lamp i is lit exactly below the run.
   */
  lemma LifeDataRun(h: int, i: nat)
    requires 0 < h < 100
    ensures var n := TruncQuarterPercent(h) + 1;
      && 1 <= n <= 16
      && LifeData(h).Some?
      && LifeData(h).value <= 0xFFFF
      && (Bit(LifeData(h).value, i) <==> i < n)
  {
    var n := TruncQuarterPercent(h) + 1;
    Pow2Monotonic(n, 16);
    Pow2Sixteen();
    LowBitsRun(n, i);
  }

  /** More health never lights fewer lamps. */
  lemma LifeDataMonotonic(h: int, h': int)
    requires 0 <= h <= h' <= 100
    ensures LifeData(h).Some? && LifeData(h').Some?
    ensures LifeData(h).value <= LifeData(h').value
  {
    if h == 0 || h' == 100 {
      if h != 0 && h != 100 {
        LifeDataRun(h, 0);
      }
    } else {
      assert TruncQuarterPercent(h) <= TruncQuarterPercent(h');
      Pow2Monotonic(TruncQuarterPercent(h) + 1, TruncQuarterPercent(h') + 1);
    }
  }

  // ---------------------------------------------------------------------------
  // Fire and colour words

  /** An emitter's three outputs as the game model reports them. */
  datatype EmitterState = EmitterState(flameIsOn: bool, p1ColourIsOn: bool, p2ColourIsOn: bool)

  /** The three 16-bit words sent to the fire controller (`struct.pack("HHH", ...)`). */
  datatype FireWords = FireWords(fire: nat, p1Colour: nat, p2Colour: nat)

  /** One transmission over the radio. */
  datatype Packet = FirePacket(words: FireWords) | TimerPacket(word: int) | KoPacket(word: int)

  /** The value of a bit list whose first element is the least significant bit. */
  function BitsValue(s: seq<bool>): (v: nat)
    ensures v < Pow2(|s|)
  {
    if |s| == 0 then 0 else (if s[0] then 1 else 0) + 2 * BitsValue(s[1..])
  }

  /** Python's `int(''.join(bits), 2)`: the first character is the most significant bit. */
  function BinaryValue(s: seq<bool>): nat {
    if |s| == 0 then 0 else 2 * BinaryValue(s[..|s| - 1]) + (if s[|s| - 1] then 1 else 0)
  }

  function Reversed<T>(s: seq<T>): (r: seq<T>)
    ensures |r| == |s|
    ensures forall i :: 0 <= i < |s| ==> r[i] == s[|s| - 1 - i]
  {
    if |s| == 0 then [] else [s[|s| - 1]] + Reversed(s[..|s| - 1])
  }

  /** Reading the reversed list most-significant-first reads the list least-significant-first. */
  lemma {:induction false} BinaryValueOfReversed(s: seq<bool>)
    ensures BinaryValue(Reversed(s)) == BitsValue(s)
  {
    if |s| > 0 {
      var r := Reversed(s);
      assert r[..|r| - 1] == Reversed(s[1..]);
      BinaryValueOfReversed(s[1..]);
    }
  }

  /** Bit i of the word is the i-th list element. */
  lemma {:induction false} BitsValueBit(s: seq<bool>, i: nat)
    requires i < |s|
    ensures Bit(BitsValue(s), i) == s[i]
  {
    if i > 0 {
      var m := BitsValue(s[1..]);
      BitsValueBit(s[1..], i - 1);
      var p := Pow2(i - 1);
      assert Pow2(i) == 2 * p;
      DivDiv(BitsValue(s), 2, p);
      assert BitsValue(s) / 2 == m;
    }
  }

  /**
   * The fire (or player-1 colour) bit list after both loops: left emitter i
   * sets slot i, then right emitter i sets slot 15 - i, overriding the left.
   */
  function FireSlots(left: seq<bool>, right: seq<bool>): (s: seq<bool>)
    requires |left| <= 8 && |right| <= 16
    ensures |s| == 16
  {
    seq(16, i requires 0 <= i < 16 => FireSlot(left, right, i))
  }

  function FireSlot(left: seq<bool>, right: seq<bool>, i: int): bool
    requires 0 <= i < 16
  {
    if 15 - i < |right| then right[15 - i]
    else if i < |left| then left[i]
    else false
  }

  /**
   * The player-2 colour bit list after both loops: left emitter i sets slot
   * i + 8, then right emitter i sets slot i, overriding the left.
   */
  function P2Slots(left: seq<bool>, right: seq<bool>): (s: seq<bool>)
    requires |left| <= 8 && |right| <= 16
    ensures |s| == 16
  {
    seq(16, i requires 0 <= i < 16 => P2Slot(left, right, i))
  }

  function P2Slot(left: seq<bool>, right: seq<bool>, i: int): bool
    requires 0 <= i < 16
  {
    if i < |right| then right[i]
    else if 8 <= i && i - 8 < |left| then left[i - 8]
    else false
  }

  function Flames(es: seq<EmitterState>): (s: seq<bool>)
    ensures |s| == |es| && forall i :: 0 <= i < |es| ==> s[i] == es[i].flameIsOn
  {
    seq(|es|, i requires 0 <= i < |es| => es[i].flameIsOn)
  }

  function P1Colours(es: seq<EmitterState>): (s: seq<bool>)
    ensures |s| == |es| && forall i :: 0 <= i < |es| ==> s[i] == es[i].p1ColourIsOn
  {
    seq(|es|, i requires 0 <= i < |es| => es[i].p1ColourIsOn)
  }

  function P2Colours(es: seq<EmitterState>): (s: seq<bool>)
    ensures |s| == |es| && forall i :: 0 <= i < |es| ==> s[i] == es[i].p2ColourIsOn
  {
    seq(|es|, i requires 0 <= i < |es| => es[i].p2ColourIsOn)
  }

  /** The packed words for up to 8 left and up to 16 right emitters. */
  function PackEmitters(left: seq<EmitterState>, right: seq<EmitterState>): (w: FireWords)
    requires |left| <= 8 && |right| <= 16
    ensures w.fire < 0x10000 && w.p1Colour < 0x10000 && w.p2Colour < 0x10000
  {
    Pow2Sixteen();
    FireWords(
      BitsValue(FireSlots(Flames(left), Flames(right))),
      BitsValue(FireSlots(P1Colours(left), P1Colours(right))),
      BitsValue(P2Slots(P2Colours(left), P2Colours(right))))
  }

  /**
   * Where each emitter lands: in the fire and player-1 words right emitter i
   * is bit 15 - i and left emitter i is bit i (unless a right emitter took
   * it); in the player-2 word right emitter i is bit i and left emitter i is
   * bit i + 8 (unless a right emitter took it). All three words fit 16 bits.
   */
  lemma PackEmittersBits(left: seq<EmitterState>, right: seq<EmitterState>, i: nat)
    requires |left| <= 8 && |right| <= 16
    ensures var w := PackEmitters(left, right);
      && w.fire < 0x10000 && w.p1Colour < 0x10000 && w.p2Colour < 0x10000
      && (i < |right| ==>
            (Bit(w.fire, 15 - i) == right[i].flameIsOn
             && Bit(w.p1Colour, 15 - i) == right[i].p1ColourIsOn
             && Bit(w.p2Colour, i) == right[i].p2ColourIsOn))
      && (i < |left| && 15 - i >= |right| ==>
            (Bit(w.fire, i) == left[i].flameIsOn && Bit(w.p1Colour, i) == left[i].p1ColourIsOn))
      && (i < |left| && i + 8 >= |right| ==> Bit(w.p2Colour, i + 8) == left[i].p2ColourIsOn)
  {
    FireSlotsBits(Flames(left), Flames(right), i);
    FireSlotsBits(P1Colours(left), P1Colours(right), i);
    P2SlotsBits(P2Colours(left), P2Colours(right), i);
  }

  /** Bit placement in the fire and player-1 words, for any slot lists. */
  lemma FireSlotsBits(l: seq<bool>, r: seq<bool>, i: nat)
    requires |l| <= 8 && |r| <= 16
    ensures var v := BitsValue(FireSlots(l, r));
      && v < 0x10000
      && (i < |r| ==> Bit(v, 15 - i) == r[i])
      && (i < |l| && 15 - i >= |r| ==> Bit(v, i) == l[i])
  {
    var s := FireSlots(l, r);
    Pow2Sixteen();
    if i < |r| {
      BitsValueBit(s, 15 - i);
    }
    if i < |l| {
      BitsValueBit(s, i);
    }
  }

  /** Bit placement in the player-2 word, for any slot lists. */
  lemma P2SlotsBits(l: seq<bool>, r: seq<bool>, i: nat)
    requires |l| <= 8 && |r| <= 16
    ensures var v := BitsValue(P2Slots(l, r));
      && v < 0x10000
      && (i < |r| ==> Bit(v, i) == r[i])
      && (i < |l| && i + 8 >= |r| ==> Bit(v, i + 8) == l[i])
  {
    var s := P2Slots(l, r);
    Pow2Sixteen();
    if i < |r| {
      BitsValueBit(s, i);
    }
    if i < |l| {
      BitsValueBit(s, i + 8);
    }
  }

  /** A slot no emitter reaches stays off. */
  lemma PackEmittersUnusedBits(left: seq<EmitterState>, right: seq<EmitterState>, i: nat)
    requires |left| <= 8 && |right| <= 16 && i < 16
    ensures var w := PackEmitters(left, right);
      && (i >= |left| && 15 - i >= |right| ==> !Bit(w.fire, i) && !Bit(w.p1Colour, i))
      && (i >= |right| && (i < 8 || i - 8 >= |left|) ==> !Bit(w.p2Colour, i))
  {
    BitsValueBit(FireSlots(Flames(left), Flames(right)), i);
    BitsValueBit(FireSlots(P1Colours(left), P1Colours(right)), i);
    BitsValueBit(P2Slots(P2Colours(left), P2Colours(right)), i);
  }

  const ALL_OFF := FireWords(0, 0, 0)
  const ALL_FIRE := FireWords(0xFFFF, 0, 0)

  /** The KO word: 0xFF while the KO effect is on, 0 otherwise. */
  function KoWord(state: bool): (w: int)
    ensures state <==> w != 0
    ensures 0 <= w <= 0xFF
  {
    if state then 0xFF else 0x00
  }

  // ---------------------------------------------------------------------------
  // The output object

  class XBeeIO {
    /** The last fire words sent, or None (Python's None) before the first. */
    var fireData: Option<FireWords>
    /** The last timer word sent. */
    var timerData: Option<int>
    /** Every transmission, oldest first. */
    var sent: seq<Packet>

    constructor ()
      ensures fireData == None && timerData == None && sent == []
    {
      fireData := None;
      timerData := None;
      sent := [];
    }

    /** _sendFire: transmit the cached fire words. */
    method SendFireData()
      requires fireData.Some?
      modifies this`sent
      ensures sent == old(sent) + [FirePacket(fireData.value)]
    {
      sent := sent + [FirePacket(fireData.value)];
    }

    /** _sendTimer: transmit the cached timer word. */
    method SendTimerData()
      requires timerData.Some?
      modifies this`sent
      ensures sent == old(sent) + [TimerPacket(timerData.value)]
    {
      sent := sent + [TimerPacket(timerData.value)];
    }

    /** sendKO: transmit the KO word; neither cache changes. */
    method SendKO(state: bool)
      modifies this`sent
      ensures sent == old(sent) + [KoPacket(KoWord(state))]
    {
      var out := if state then 0xFF else 0x00;
      sent := sent + [KoPacket(out)];
    }

    /** SendTimerNum: a value outside 0..99 is ignored; otherwise cache and send its word. */
    method SendTimerNum(value: int)
      modifies this`timerData, this`sent
      ensures value < 0 || value > 99 ==> timerData == old(timerData) && sent == old(sent)
      ensures 0 <= value <= 99 ==>
        timerData == Some(TimerWord(value)) && sent == old(sent) + [TimerPacket(TimerWord(value))]
    {
      if value < 0 || value > 99 {
        return;
      }
      var timerWord := DIGIT_MAP[value / 10] * 256 + DIGIT_MAP[value % 10];
      timerData := Some(timerWord);
      SendTimerData();
    }

    /**
     * SendFireEmitterData: pack the emitter states and send them only when
     * they differ from the cached words. More than 8 left or 16 right
     * emitters index past the 16-slot lists (IndexError): `ok` is false and
     * nothing changes.
     */
    method SendFireEmitterData(left: seq<EmitterState>, right: seq<EmitterState>) returns (ok: bool)
      modifies this`fireData, this`sent
      ensures ok <==> |left| <= 8 && |right| <= 16
      ensures !ok ==> fireData == old(fireData) && sent == old(sent)
      ensures ok && old(fireData) == Some(PackEmitters(left, right)) ==>
        fireData == old(fireData) && sent == old(sent)
      ensures ok && old(fireData) != Some(PackEmitters(left, right)) ==>
        fireData == Some(PackEmitters(left, right))
        && sent == old(sent) + [FirePacket(PackEmitters(left, right))]
    {
      if |left| > 8 || |right| > 16 {
        return false;
      }
      var dataset := PackFireWords(left, right);
      if fireData != Some(dataset) {
        fireData := Some(dataset);
        SendFireData();
      }
      return true;
    }

    /** SendFire: 0 sends all off, 1 sends every flame on; any other value is ignored. */
    method SendFire(isOnOff: int)
      modifies this`fireData, this`sent
      ensures isOnOff == 0 ==> fireData == Some(ALL_OFF) && sent == old(sent) + [FirePacket(ALL_OFF)]
      ensures isOnOff == 1 ==> fireData == Some(ALL_FIRE) && sent == old(sent) + [FirePacket(ALL_FIRE)]
      ensures isOnOff != 0 && isOnOff != 1 ==> fireData == old(fireData) && sent == old(sent)
    {
      if isOnOff == 0 {
        fireData := Some(FireWords(0, 0, 0));
      } else if isOnOff == 1 {
        fireData := Some(FireWords(0xFFFF, 0, 0));
      } else {
        return;
      }
      SendFireData();
    }

    /** GoTheFuckToSleep: switch every output off and send it, whatever was cached. */
    method GoToSleep()
      modifies this`fireData, this`sent
      ensures fireData == Some(ALL_OFF) && sent == old(sent) + [FirePacket(ALL_OFF)]
    {
      fireData := Some(FireWords(0, 0, 0));
      SendFireData();
    }
  }

  // ---------------------------------------------------------------------------
  // The list manipulations of SendFireEmitterData

  /**
   * The packing part of SendFireEmitterData: fill three 16-slot lists from
   * the emitters, reverse them in place and read each as a binary numeral.
   */
  method PackFireWords(left: seq<EmitterState>, right: seq<EmitterState>) returns (words: FireWords)
    requires |left| <= 8 && |right| <= 16
    ensures words == PackEmitters(left, right)
  {
    var fire := new bool[16](_ => false);
    var p1c := new bool[16](_ => false);
    var p2c := new bool[16](_ => false);
    FillFromLeft(fire, p1c, p2c, left);
    FillFromRight(fire, p1c, p2c, left, right);
    ghost var fs, ps, qs := fire[..], p1c[..], p2c[..];
    words := ReverseAndParse(fire, p1c, p2c);
    ReversedListsGivePackedWords(left, right, fs, ps, qs);
  }

  /** The tail of the packing: reverse the three lists in place, then read each as a binary numeral. */
  method ReverseAndParse(fire: array<bool>, p1c: array<bool>, p2c: array<bool>) returns (words: FireWords)
    requires fire != p1c && fire != p2c && p1c != p2c
    modifies fire, p1c, p2c
    ensures words == FireWords(BinaryValue(Reversed(old(fire[..]))),
                               BinaryValue(Reversed(old(p1c[..]))),
                               BinaryValue(Reversed(old(p2c[..]))))
  {
    Reverse(fire);
    ghost var fr := fire[..];
    Reverse(p1c);
    ghost var pr := p1c[..];
    Reverse(p2c);
    var fireInt := ParseBinary(fire);
    var p1cInt := ParseBinary(p1c);
    var p2cInt := ParseBinary(p2c);
    assert fireInt == BinaryValue(fr) && p1cInt == BinaryValue(pr);
    words := FireWords(fireInt, p1cInt, p2cInt);
  }

  /** Reading the reversed slot lists most significant bit first gives the packed words. */
  lemma ReversedListsGivePackedWords(left: seq<EmitterState>, right: seq<EmitterState>,
                                     fs: seq<bool>, ps: seq<bool>, qs: seq<bool>)
    requires |left| <= 8 && |right| <= 16
    requires fs == FireSlots(Flames(left), Flames(right))
    requires ps == FireSlots(P1Colours(left), P1Colours(right))
    requires qs == P2Slots(P2Colours(left), P2Colours(right))
    ensures PackEmitters(left, right)
      == FireWords(BinaryValue(Reversed(fs)), BinaryValue(Reversed(ps)), BinaryValue(Reversed(qs)))
  {
    BinaryValueOfReversed(fs);
    BinaryValueOfReversed(ps);
    BinaryValueOfReversed(qs);
  }

  /** Left emitter i + 1 adds slot i to the fire-style list. */
  lemma FireSlotsLeftStep(l: seq<bool>, i: nat)
    requires i < |l| <= 8
    ensures FireSlots(l[..i + 1], []) == FireSlots(l[..i], [])[i := l[i]]
  {
  }

  /** Left emitter i + 1 adds slot i + 8 to the player-2 list. */
  lemma P2SlotsLeftStep(l: seq<bool>, i: nat)
    requires i < |l| <= 8
    ensures P2Slots(l[..i + 1], []) == P2Slots(l[..i], [])[i + 8 := l[i]]
  {
  }

  /** Right emitter i + 1 overwrites slot 15 - i of the fire-style list. */
  lemma FireSlotsRightStep(l: seq<bool>, r: seq<bool>, i: nat)
    requires |l| <= 8 && i < |r| <= 16
    ensures FireSlots(l, r[..i + 1]) == FireSlots(l, r[..i])[15 - i := r[i]]
  {
  }

  /** Right emitter i + 1 overwrites slot i of the player-2 list. */
  lemma P2SlotsRightStep(l: seq<bool>, r: seq<bool>, i: nat)
    requires |l| <= 8 && i < |r| <= 16
    ensures P2Slots(l, r[..i + 1]) == P2Slots(l, r[..i])[i := r[i]]
  {
  }

  /** The first loop: left emitter i writes fire[i], p1c[i] and p2c[i + 8]. */
  method FillFromLeft(fire: array<bool>, p1c: array<bool>, p2c: array<bool>, left: seq<EmitterState>)
    requires fire.Length == 16 && p1c.Length == 16 && p2c.Length == 16
    requires fire != p1c && fire != p2c && p1c != p2c
    requires |left| <= 8
    requires fire[..] == p1c[..] == p2c[..] == seq(16, _ => false)
    modifies fire, p1c, p2c
    ensures fire[..] == FireSlots(Flames(left), [])
    ensures p1c[..] == FireSlots(P1Colours(left), [])
    ensures p2c[..] == P2Slots(P2Colours(left), [])
  {
    ghost var lf, lp, lq := Flames(left), P1Colours(left), P2Colours(left);
    assert lf[..0] == lp[..0] == lq[..0] == [];
    for i := 0 to |left|
      invariant fire[..] == FireSlots(lf[..i], [])
      invariant p1c[..] == FireSlots(lp[..i], [])
      invariant p2c[..] == P2Slots(lq[..i], [])
    {
      FireSlotsLeftStep(lf, i);
      FireSlotsLeftStep(lp, i);
      P2SlotsLeftStep(lq, i);
      fire[i] := left[i].flameIsOn;
      p1c[i] := left[i].p1ColourIsOn;
      p2c[i + 8] := left[i].p2ColourIsOn;
    }
    assert lf[..|left|] == lf && lp[..|left|] == lp && lq[..|left|] == lq;
  }

  /** The second loop: right emitter i writes fire[15 - i], p1c[15 - i] and p2c[i]. */
  method FillFromRight(fire: array<bool>, p1c: array<bool>, p2c: array<bool>,
                       left: seq<EmitterState>, right: seq<EmitterState>)
    requires fire.Length == 16 && p1c.Length == 16 && p2c.Length == 16
    requires fire != p1c && fire != p2c && p1c != p2c
    requires |left| <= 8 && |right| <= 16
    requires fire[..] == FireSlots(Flames(left), [])
    requires p1c[..] == FireSlots(P1Colours(left), [])
    requires p2c[..] == P2Slots(P2Colours(left), [])
    modifies fire, p1c, p2c
    ensures fire[..] == FireSlots(Flames(left), Flames(right))
    ensures p1c[..] == FireSlots(P1Colours(left), P1Colours(right))
    ensures p2c[..] == P2Slots(P2Colours(left), P2Colours(right))
  {
    ghost var lf, lp, lq := Flames(left), P1Colours(left), P2Colours(left);
    ghost var rf, rp, rq := Flames(right), P1Colours(right), P2Colours(right);
    assert rf[..0] == rp[..0] == rq[..0] == [];
    for i := 0 to |right|
      invariant fire[..] == FireSlots(lf, rf[..i])
      invariant p1c[..] == FireSlots(lp, rp[..i])
      invariant p2c[..] == P2Slots(lq, rq[..i])
    {
      FireSlotsRightStep(lf, rf, i);
      FireSlotsRightStep(lp, rp, i);
      P2SlotsRightStep(lq, rq, i);
      fire[15 - i] := right[i].flameIsOn;
      p1c[15 - i] := right[i].p1ColourIsOn;
      p2c[i] := right[i].p2ColourIsOn;
    }
    assert rf[..|right|] == rf && rp[..|right|] == rp && rq[..|right|] == rq;
  }

  /** list.reverse(): reverses the array in place. */
  method Reverse(a: array<bool>)
    modifies a
    ensures a[..] == Reversed(old(a[..]))
  {
    var i, j := 0, a.Length - 1;
    while i < j
      invariant 0 <= i <= a.Length && j == a.Length - 1 - i
      invariant i <= j + 1
      invariant forall k :: 0 <= k < i ==> a[k] == old(a[a.Length - 1 - k]) && a[a.Length - 1 - k] == old(a[k])
      invariant forall k :: i <= k <= j ==> a[k] == old(a[k])
    {
      a[i], a[j] := a[j], a[i];
      i, j := i + 1, j - 1;
    }
  }

  /** int(''.join(bits), 2): reads the list most significant bit first. */
  method ParseBinary(a: array<bool>) returns (v: nat)
    ensures v == BinaryValue(a[..])
  {
    v := 0;
    for j := 0 to a.Length
      invariant v == BinaryValue(a[..j])
    {
      assert a[..j + 1][..j] == a[..j];
      v := 2 * v + (if a[j] then 1 else 0);
    }
    assert a[..a.Length] == a[..];
  }
}
