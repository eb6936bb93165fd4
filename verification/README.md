# Super Street Fire — verified model of the effect encoders, game states and gesture bookkeeping

Super Street Fire is a two-player fighting game played with motion-sensing gloves and
headsets in front of an arena of flame effects. This project models five sequential
pieces of its logic in Dafny and proves properties of them:

- **SerialComm / SerialProtocol** (`SerialCommunicator.java`):
  - the framed serial protocol to the flame and display boards: `0xAA 0xAA len payload checksum`, where the checksum is the one's complement of the 8-bit wrap-around payload sum;
  - the payloads for fire emitters, igniters ("glowflies"), life, action-point and timer boards;
  - the fixed map from rail/ring position to hardware board id;
  - the status sweep that patches a cached query template in place and regroups the 32 replies by emitter position.

  The communicator is a class whose outbound queue is a sequence of messages that the methods append to.
- **XBee** (`xbeeio.py`):
  - the seven-segment two-digit timer word;
  - the health-to-lamp bitmask;
  - the three 16-bit fire/colour words packed from the emitter states;
  - the fixed fire and KO words;
  - the `fireData` / `timerData` caches.

  Transmissions are recorded as packets.
- **GameStates** (`game_states.py`): the game-state machine (Idle, Calibration, RoundBegin, RoundInPlay, RoundEnded, SettleTie, MatchOver, Paused) and its events `Tick`, `Calibrate`, `StartGame`, `TogglePauseGame` and `StopGame`.
  - Each event is a pure function on a configuration (state, players, chip damage, effects on collaborators).
  - The class `SsfGame` runs the same events on mutable fields, and each of its methods is proved to agree with the function.
  - An invariant over the round-win counts is proved to be preserved by every event.
- **GestureStates** (`gesture_state.py`):
  - the per-hand and two-handed move classifier over glove readings;
  - the debounce rule for recording moves;
  - the move histories, including the recent-move deque bounded at 6;
  - the dispatch of recorded moves to actions.

  The class `PlayerGestureState` holds the fields, and its methods are proved against pure step functions.
- **GestureTypes** (`GestureType.java`): the gesture table, the constructor's asserts and the derived hand count.

Conventions of the model:
- Java bytes are octets `0..255`; a `(byte)` cast is `x % 256`.
- Time is an exact `real`. The wall clock `time.time()` is a parameter `now`.
- Sensor readings are integers.
- Exceptions and failed Python `assert`s become an `ok: bool` result, or `None`, with the state left as it was at that point.

Where the code and its surrounding design notes disagree, the model follows the code. In particular:
- One exception: `RoundEndedGameState.Tick` passes the round winner, not the match winner, to `MatchOverGameState`, which fails after a tied deciding round (see Findings). The state machine (`TickNext`, `SsfGame.Tick`) follows the corrected rule and passes the holder of two wins. The tick as written is `RoundEndedTickAsWritten`. `CorrectionOnlyOnTiedDecidingRound` proves that the two differ only after a tied round that gives one player the second win.
- Several `game_states.py` bodies name attributes that their class does not have:
  - `self.IsRoundOver` is read as `_IsRoundOver`;
  - `self.roundTime` is read as `_roundTime`;
  - `self.player1` / `self.player2` in `RoundInPlayGameState` and `RoundEndedGameState` are read as the game's players.

## Model

| member | source | states |
|---|---|---|
| SerialProtocol.Checksum | trunk/ssf-java/IOServer/src/main/java/ca/site3/ssf/ioserver/SerialCommunicator.java:619-630 | the payload sum plus the checksum is 0xFF modulo 256 (one's complement of the wrap-around sum) |
| SerialProtocol.ParseFrame | trunk/ssf-java/IOServer/src/main/java/ca/site3/ssf/ioserver/SerialCommunicator.java:293-302 | a frame that parses is exactly the framing of its payload, and that payload is shorter than 256 |
| SerialProtocol.Frame | trunk/ssf-java/IOServer/src/main/java/ca/site3/ssf/ioserver/SerialCommunicator.java:293-302 | two framing bytes, the payload length, the payload, then its checksum |
| SerialProtocol.FrameRoundTrip | trunk/ssf-java/IOServer/src/main/java/ca/site3/ssf/ioserver/SerialCommunicator.java:293-302 | a framed payload has length `|payload| + 4` and parses back to the same payload |
| SerialProtocol.SumUpdate | trunk/ssf-java/IOServer/src/main/java/ca/site3/ssf/ioserver/SerialCommunicator.java:619-628 | replacing one payload octet changes the sum by exactly the difference |
| SerialProtocol.ChecksumDetectsSingleByteChange | trunk/ssf-java/IOServer/src/main/java/ca/site3/ssf/ioserver/SerialCommunicator.java:619-630 | changing any single payload octet changes the checksum |
| SerialProtocol.CorruptedFrameRejected | trunk/ssf-java/IOServer/src/main/java/ca/site3/ssf/ioserver/SerialCommunicator.java:293-302 | a frame with one corrupted payload octet does not parse |
| SerialProtocol.TimerFrameExample | trunk/ssf-java/IOServer/src/main/java/ca/site3/ssf/ioserver/SerialCommunicator.java:293-302 | the payload [5, 'T', 7] is framed as AA AA 03 05 54 07 9F |
| SerialProtocol.HardwareId | trunk/ssf-java/IOServer/src/main/java/ca/site3/ssf/ioserver/SerialCommunicator.java:590-607 | right rail i is board 1+i, left rail i is 9+i, outer ring i ≤ 7 is 17+i and i ≥ 8 is 40-i, all within 1..32 |
| SerialProtocol.EmitterOfSlot | trunk/ssf-java/IOServer/src/main/java/ca/site3/ssf/ioserver/SerialCommunicator.java:499-515 | each of the 32 status slots is shown as a valid emitter position |
| SerialProtocol.SlotToEmitterToId | trunk/ssf-java/IOServer/src/main/java/ca/site3/ssf/ioserver/SerialCommunicator.java:499-515 | regrouping a slot and addressing the emitter gives back board slot+1, so the map is onto 1..32 |
| SerialProtocol.EmitterToIdToEmitter | trunk/ssf-java/IOServer/src/main/java/ca/site3/ssf/ioserver/SerialCommunicator.java:590-607 | addressing an emitter and regrouping its slot gives back the emitter: the regrouping inverts the addressing |
| SerialProtocol.HardwareIdInjective | trunk/ssf-java/IOServer/src/main/java/ca/site3/ssf/ioserver/SerialCommunicator.java:590-607 | no two emitter positions share a board id |
| SerialProtocol.QueryChecksum | trunk/ssf-java/IOServer/src/main/java/ca/site3/ssf/ioserver/SerialCommunicator.java:455-461 | the octet `~(board + 63)` equals the checksum of the query payload [board, '?'] |
| SerialProtocol.PatchedTemplateIsQueryFrame | trunk/ssf-java/IOServer/src/main/java/ca/site3/ssf/ioserver/SerialCommunicator.java:72-78 | a template patched at octets 3 and 5 is exactly the framed query for that board |
| SerialProtocol.LitBars | trunk/ssf-java/IOServer/src/main/java/ca/site3/ssf/ioserver/SerialCommunicator.java:318-323 | the lit-bar count is the nearest whole number to 44·v/100, and lies in 0..44 for v in 0..100 |
| SerialProtocol.TimerColour | trunk/ssf-java/IOServer/src/main/java/ca/site3/ssf/ioserver/SerialCommunicator.java:377-405 | the timer colour is orange exactly when the value is at most 10 and red exactly when above |
| SerialProtocol.FirePayloadLayout | trunk/ssf-java/IOServer/src/main/java/ca/site3/ssf/ioserver/SerialCommunicator.java:222-249 | the fire payload has 11 octets `[id,'1',v1,'2',v2,'3',v3,'4',0,'A',flag]`; the flag is '1' iff glowflies are on; the values are 0 without contributors, and a colour is 0 when its player does not contribute |
| SerialComm.FramesAreFramed | trunk/ssf-java/IOServer/src/main/java/ca/site3/ssf/ioserver/SerialCommunicator.java:293-302 | when every payload is shorter than 256 octets, the receiving side accepts every framed message |
| SerialComm.GetChecksum | trunk/ssf-java/IOServer/src/main/java/ca/site3/ssf/ioserver/SerialCommunicator.java:619-630 | the loop with an 8-bit wrap-around accumulator returns the checksum of the payload |
| SerialComm.GetMessageForPayload | trunk/ssf-java/IOServer/src/main/java/ca/site3/ssf/ioserver/SerialCommunicator.java:293-302 | the array-filling loop returns exactly the framed payload |
| SerialComm.BuildFirePayload | trunk/ssf-java/IOServer/src/main/java/ca/site3/ssf/ioserver/SerialCommunicator.java:222-249 | the command/value loop builds exactly the 11-octet fire payload |
| SerialComm.Answers | trunk/ssf-java/IOServer/src/main/java/ca/site3/ssf/ioserver/SerialCommunicator.java:463-483 | one answer per queried board, in query order |
| SerialComm.Placed | trunk/ssf-java/IOServer/src/main/java/ca/site3/ssf/ioserver/SerialCommunicator.java:436-444 | a sweep that does not raise yields 32 slots |
| SerialComm.Reached | trunk/ssf-java/IOServer/src/main/java/ca/site3/ssf/ioserver/SerialCommunicator.java:436-444 | no more boards are queried than there are answers |
| SerialComm.WellAddressedSweep | trunk/ssf-java/IOServer/src/main/java/ca/site3/ssf/ioserver/SerialCommunicator.java:427-446 | when every reply is absent or comes from the board asked, the sweep queries all 32 boards, and slot i holds board i+1's answer or its all-false default |
| SerialComm.PlacedFailureSticks | trunk/ssf-java/IOServer/src/main/java/ca/site3/ssf/ioserver/SerialCommunicator.java:436-444 | once an answer raises the index exception, the sweep fails and no later board is queried |
| SerialComm.Regroup | trunk/ssf-java/IOServer/src/main/java/ca/site3/ssf/ioserver/SerialCommunicator.java:499-515 | the three copy loops give 8 left-rail, 8 right-rail and 16 outer-ring entries, each equal to the slot of its board id |
| SerialComm.RailStatus | trunk/ssf-java/IOServer/src/main/java/ca/site3/ssf/ioserver/SerialCommunicator.java:501-508 | a rail's status array is exactly the eight slots starting at the given offset (8 for the left rail, 0 for the right) |
| SerialComm.OuterRingStatus | trunk/ssf-java/IOServer/src/main/java/ca/site3/ssf/ioserver/SerialCommunicator.java:509-515 | the outer ring holds slots 16..23 in order, then slots 31 down to 24 |
| SerialComm.TimerPayloadsShape | trunk/ssf-java/IOServer/src/main/java/ca/site3/ssf/ioserver/SerialCommunicator.java:377-405 | four payloads: board 35 value and colour, then board 38 value and colour, red iff the value is above 10 |
| SerialComm.SerialCommunicator.constructor | trunk/ssf-java/IOServer/src/main/java/ca/site3/ssf/ioserver/SerialCommunicator.java:80-100 | glowflies off, timer 0, empty queue, no status yet |
| SerialComm.SerialCommunicator.EnqueueMessage | trunk/ssf-java/IOServer/src/main/java/ca/site3/ssf/ioserver/SerialCommunicator.java:637-652 | the message is appended to the unbounded queue |
| SerialComm.SerialCommunicator.Send | trunk/ssf-java/IOServer/src/main/java/ca/site3/ssf/ioserver/SerialCommunicator.java:293-302 | the framed payload is appended and the queue stays all well-formed frames |
| SerialComm.SerialCommunicator.NotifyFireEmitters | trunk/ssf-java/IOServer/src/main/java/ca/site3/ssf/ioserver/SerialCommunicator.java:203-250 | exactly one framed fire payload is appended, carrying the current igniter flag |
| SerialComm.SerialCommunicator.ToggleGlowfly | trunk/ssf-java/IOServer/src/main/java/ca/site3/ssf/ioserver/SerialCommunicator.java:275-285 | appends the framed `[id, 'A', '1'/'0']` |
| SerialComm.SerialCommunicator.SetGlowfliesOn | trunk/ssf-java/IOServer/src/main/java/ca/site3/ssf/ioserver/SerialCommunicator.java:253-272 | stores the flag, then appends one broadcast message, or 32 messages for ids 1..32 in ascending order |
| SerialComm.SerialCommunicator.SetGlowflies | trunk/ssf-java/IOServer/src/main/java/ca/site3/ssf/ioserver/SerialCommunicator.java:288-290 | the one-argument form broadcasts |
| SerialComm.SerialCommunicator.Estop | trunk/ssf-java/IOServer/src/main/java/ca/site3/ssf/ioserver/SerialCommunicator.java:110-112 | turns the igniters off with one broadcast message |
| SerialComm.SerialCommunicator.OnPlayerHealthChanged | trunk/ssf-java/IOServer/src/main/java/ca/site3/ssf/ioserver/SerialCommunicator.java:304-339 | rejects any player other than 1 or 2 with the queue unchanged; otherwise appends the life payload for each of the player's two boards, in order |
| SerialComm.SerialCommunicator.OnPlayerActionPointsChanged | trunk/ssf-java/IOServer/src/main/java/ca/site3/ssf/ioserver/SerialCommunicator.java:346-365 | the same for the action-point payloads |
| SerialComm.SerialCommunicator.OnTimerChanged | trunk/ssf-java/IOServer/src/main/java/ca/site3/ssf/ioserver/SerialCommunicator.java:377-405 | remembers the value and appends value then colour for board 35, then for board 38 |
| SerialComm.SerialCommunicator.OnTimerChangedEvent | trunk/ssf-java/IOServer/src/main/java/ca/site3/ssf/ioserver/SerialCommunicator.java:368-375 | a value below 0 or above the round length changes nothing; otherwise as OnTimerChanged |
| SerialComm.SerialCommunicator.InitializeStaticBoardColours | trunk/ssf-java/IOServer/src/main/java/ca/site3/ssf/ioserver/SerialCommunicator.java:151-185 | appends orange to both timer boards, then blue to each life board in the set's iteration order |
| SerialComm.SerialCommunicator.QueryBoard | trunk/ssf-java/IOServer/src/main/java/ca/site3/ssf/ioserver/SerialCommunicator.java:455-483 | only octets 3 and 5 of the template change; the result is the framed query for that board, which is written; the answer is the reply or the all-false default |
| SerialComm.SerialCommunicator.QueryOneBoard | trunk/ssf-java/IOServer/src/main/java/ca/site3/ssf/ioserver/SerialCommunicator.java:422-425 | writes the framed query for the board on a fresh template copy and returns its answer |
| SerialComm.SerialCommunicator.NewQueryTemplate | trunk/ssf-java/IOServer/src/main/java/ca/site3/ssf/ioserver/SerialCommunicator.java:423 | a fresh buffer holding exactly the query template |
| SerialComm.SerialCommunicator.NewSlots | trunk/ssf-java/IOServer/src/main/java/ca/site3/ssf/ioserver/SerialCommunicator.java:428-431 | a fresh array of 32 empty (null) slots |
| SerialComm.SerialCommunicator.QueryAndPlace | trunk/ssf-java/IOServer/src/main/java/ca/site3/ssf/ioserver/SerialCommunicator.java:437-442 | writes board's query frame and keeps the template conforming; stores the answer at id - 1 exactly when the id is in 1..32, and otherwise leaves the slots untouched |
| SerialComm.SweepStep | trunk/ssf-java/IOServer/src/main/java/ca/site3/ssf/ioserver/SerialCommunicator.java:436-444 | one board of the sweep: an id in 1..32 extends the placed prefix by that answer; any other id makes the whole sweep fail with that board the last one queried |
| SerialComm.SerialCommunicator.QueryAllBoards | trunk/ssf-java/IOServer/src/main/java/ca/site3/ssf/ioserver/SerialCommunicator.java:427-446 | queries boards 1, 2, … in order and places each answer at its id - 1; an id outside 1..32 ends the sweep with no result |
| SerialComm.SerialCommunicator.DoSystemQuery | trunk/ssf-java/IOServer/src/main/java/ca/site3/ssf/ioserver/SerialCommunicator.java:493-531 | keeps the flat sweep result only when the sweep succeeds, and regroups it by rail and ring through the board-id map |
| XBee.DecodeDigit | trunk/superstreetfire/src/ioserver/xbeeio.py:122-135 | the decoded digit's pattern is the given one; None exactly when no digit has that pattern |
| XBee.DigitPatternsDistinct | trunk/superstreetfire/src/ioserver/xbeeio.py:135 | the ten segment patterns are distinct and each lies in 1..0x7F |
| XBee.TimerWord | trunk/superstreetfire/src/ioserver/xbeeio.py:135-136 | the tens pattern is the high octet and the units pattern the low octet of a word below 0x8000 |
| XBee.DecodeTimerWord | trunk/superstreetfire/src/ioserver/xbeeio.py:122-136 | a decoded display value is in 0..99 |
| XBee.TimerWordRoundTrip | trunk/superstreetfire/src/ioserver/xbeeio.py:135-136 | the display reads back the encoded number |
| XBee.TimerWordInjective | trunk/superstreetfire/src/ioserver/xbeeio.py:135-136 | different numbers give different words |
| XBee.TruncQuarterPercent | trunk/superstreetfire/src/ioserver/xbeeio.py:168 | `int(h / 6.25)` truncates 4h/25 toward zero |
| XBee.LifeData | trunk/superstreetfire/src/ioserver/xbeeio.py:163-168 | 100 gives 0xFFFF and 0 gives 0; otherwise `2^(int(h/6.25)+1) - 1`, and None (ValueError) exactly when the shift is negative |
| XBee.LowBitsRun | trunk/superstreetfire/src/ioserver/xbeeio.py:168 | bit i of 2^n - 1 is set exactly when i < n |
| XBee.LifeDataRun | trunk/superstreetfire/src/ioserver/xbeeio.py:168 | for health in 1..99 the mask is a run of 1..16 low lamps that fits 16 bits |
| XBee.LifeDataMonotonic | trunk/superstreetfire/src/ioserver/xbeeio.py:163-168 | more health never lights a smaller mask |
| XBee.BitsValue | trunk/superstreetfire/src/ioserver/xbeeio.py:197-199 | a list of n bits read least significant first is below 2^n |
| XBee.Reversed | trunk/superstreetfire/src/ioserver/xbeeio.py:193-195 | the reversal keeps the length and puts element i at position n-1-i |
| XBee.BinaryValueOfReversed | trunk/superstreetfire/src/ioserver/xbeeio.py:193-199 | reversing then reading most significant bit first is reading least significant bit first |
| XBee.BitsValueBit | trunk/superstreetfire/src/ioserver/xbeeio.py:197-199 | bit i of the value is list element i |
| XBee.PackEmitters | trunk/superstreetfire/src/ioserver/xbeeio.py:182-199 | the three packed words each fit 16 bits |
| XBee.PackEmittersBits | trunk/superstreetfire/src/ioserver/xbeeio.py:182-199 | fire and player-1 words: left emitter i is bit i and right emitter i is bit 15-i; player-2 word: right i is bit i and left i is bit i+8; a right emitter wins a shared slot; all three words fit 16 bits |
| XBee.PackEmittersUnusedBits | trunk/superstreetfire/src/ioserver/xbeeio.py:173-191 | a slot no emitter writes stays 0 |
| XBee.KoWord | trunk/superstreetfire/src/ioserver/xbeeio.py:110-113 | the KO word is non-zero exactly when the KO state is on, and fits one octet |
| XBee.PackFireWords | trunk/superstreetfire/src/ioserver/xbeeio.py:173-199 | the list filling, in-place reversal and binary parsing produce exactly the packed words |
| XBee.FillFromLeft | trunk/superstreetfire/src/ioserver/xbeeio.py:182-186 | the first loop writes left emitter i to fire[i], p1c[i] and p2c[i+8] |
| XBee.FillFromRight | trunk/superstreetfire/src/ioserver/xbeeio.py:188-191 | the second loop overwrites fire[15-i], p1c[15-i] and p2c[i] with right emitter i, giving the full slot lists |
| XBee.Reverse | trunk/superstreetfire/src/ioserver/xbeeio.py:193-195 | the array is reversed in place |
| XBee.ParseBinary | trunk/superstreetfire/src/ioserver/xbeeio.py:197-199 | the value of the bits read most significant first |
| XBee.XBeeIO.constructor | trunk/superstreetfire/src/ioserver/xbeeio.py:36-41 | both caches are empty and nothing has been sent |
| XBee.XBeeIO.SendFireData | trunk/superstreetfire/src/ioserver/xbeeio.py:63-79 | sends the cached fire words |
| XBee.XBeeIO.SendTimerData | trunk/superstreetfire/src/ioserver/xbeeio.py:82-95 | sends the cached timer word |
| XBee.XBeeIO.SendKO | trunk/superstreetfire/src/ioserver/xbeeio.py:109-119 | sends the KO word and leaves both caches alone |
| XBee.XBeeIO.SendTimerNum | trunk/superstreetfire/src/ioserver/xbeeio.py:121-138 | a value outside 0..99 changes nothing; otherwise the timer word is cached and sent |
| XBee.XBeeIO.SendFireEmitterData | trunk/superstreetfire/src/ioserver/xbeeio.py:170-207 | more than 8 left or 16 right emitters fail with nothing changed; otherwise the packed words are cached and sent only when they differ from the cache |
| XBee.XBeeIO.SendFire | trunk/superstreetfire/src/ioserver/xbeeio.py:209-216 | 0 caches and sends all off, 1 every flame on; any other value changes nothing |
| XBee.XBeeIO.GoToSleep | trunk/superstreetfire/src/ioserver/xbeeio.py:218-220 | caches and sends all off, whatever was cached |
| GameStates.EnterIdle | trunk/superstreetfire/src/gamemodel/game_states.py:28-33 | the state is Idle and both players have full health and no round wins |
| GameStates.EnterRoundEnded | trunk/superstreetfire/src/gamemodel/game_states.py:174-193 | accepted iff the winner is a tie, P1 or P2 and no count passes 2 after crediting; a tie credits both players and a win only the winner |
| GameStates.EnterMatchOver | trunk/superstreetfire/src/gamemodel/game_states.py:284-288 | accepted iff the winner is player 1 or 2, and then only the state changes |
| GameStates.RoundWinner | trunk/superstreetfire/src/gamemodel/game_states.py:154-165 | tie iff both knocked out, P1 iff only P2 is, P2 iff only P1 is, -1 iff neither |
| GameStates.MatchWinner | trunk/superstreetfire/src/gamemodel/game_states.py:195-219 | the player who holds the second round win |
| GameStates.RoundEndedTick | trunk/superstreetfire/src/gamemodel/game_states.py:195-210 | never fails: both at two wins settles a tie, one at two ends the match for that player, otherwise the next round begins |
| GameStates.EnterSettleTie | trunk/superstreetfire/src/gamemodel/game_states.py:223-236 | chip damage off, both players at full health with their round wins kept, and the emitters killed |
| GameStates.RoundOver | trunk/superstreetfire/src/gamemodel/game_states.py:150-151 | the round is over iff someone is knocked out or the time has run out |
| GameStates.MatchIsOver | trunk/superstreetfire/src/gamemodel/game_states.py:216-217 | the match is over iff a player holds two round wins |
| GameStates.MatchIsTie | trunk/superstreetfire/src/gamemodel/game_states.py:218-219 | a tie iff both players hold two round wins, and a tie is always a match over |
| GameStates.RoundEndedTickAsWritten | trunk/superstreetfire/src/gamemodel/game_states.py:195-210 | as written: fails with nothing changed iff the match is decided and the round winner is neither 1 nor 2; otherwise a decided match goes to MatchOver(round winner) |
| GameStates.CorrectionOnlyOnTiedDecidingRound | trunk/superstreetfire/src/gamemodel/game_states.py:195-210 | under the invariant, the corrected and as-written RoundEnded ticks differ exactly when a tied round decides the match |
| GameStates.TickNext | trunk/superstreetfire/src/gamemodel/game_states.py:52-295 | for the corrected RoundEnded rule: Idle and Paused ignore ticks; MatchOver always returns to Idle; a tick fails only in a running round, which then stays in play with the time reduced |
| GameStates.CalibrateNext | trunk/superstreetfire/src/gamemodel/game_states.py:35-36 | only Idle reacts, by entering Calibration; nothing but the state changes |
| GameStates.StartGameNext | trunk/superstreetfire/src/gamemodel/game_states.py:37-38 | only Idle reacts, by starting a round; nothing but the state changes |
| GameStates.TogglePauseNext | trunk/superstreetfire/src/gamemodel/game_states.py:301-309 | a running state is paused holding itself, a paused state resumes the held state, any other state is unchanged |
| GameStates.StopGameNext | trunk/superstreetfire/src/gamemodel/game_states.py:102-104 | Idle and Calibration ignore the stop; every other state goes Idle |
| GameStates.IdleEvents | trunk/superstreetfire/src/gamemodel/game_states.py:28-38 | Idle ignores ticks, pauses and stops; Calibrate enters Calibration and StartGame enters a round |
| GameStates.StopGameRules | trunk/superstreetfire/src/gamemodel/game_states.py:102-104 | every running state stops to Idle with the players reset; Calibration and Idle ignore the stop |
| GameStates.CalibrationTick | trunk/superstreetfire/src/gamemodel/game_states.py:52-60 | the counter adds dT while below 5 s; the next tick finalises calibration and goes Idle |
| GameStates.RoundBeginTick | trunk/superstreetfire/src/gamemodel/game_states.py:91-97 | the countdown subtracts dT; the first tick at or below 0 starts the round |
| GameStates.PauseRoundTrip | trunk/superstreetfire/src/gamemodel/game_states.py:301-309 | pausing holds the state and toggling again restores exactly that state |
| GameStates.PausedIgnoresTicks | trunk/superstreetfire/src/gamemodel/game_states.py:301-313 | a paused game ignores ticks, Calibrate and StartGame |
| GameStates.RoundEndedEntry | trunk/superstreetfire/src/gamemodel/game_states.py:174-193 | from counts below 2, a valid round result is accepted and credits the right players |
| GameStates.RoundEndedTickRules | trunk/superstreetfire/src/gamemodel/game_states.py:195-219 | for the corrected RoundEnded rule: the RoundEnded tick moves to SettleTie, MatchOver(holder of two wins) or RoundBegin, and never fails |
| GameStates.SettleTieTickRules | trunk/superstreetfire/src/gamemodel/game_states.py:240-263 | both hurt restores both healths and stays; only P1 hurt gives MatchOver(2), only P2 hurt MatchOver(1), each with chip damage back on |
| GameStates.TimeoutWithoutKnockoutFails | trunk/superstreetfire/src/gamemodel/game_states.py:119-130 | a round that times out with nobody knocked out fails the RoundEnded assert and stays in play |
| GameStates.TiedDecidingRoundAsWrittenFails | trunk/superstreetfire/src/gamemodel/game_states.py:195-210 | as written, RoundEnded(tie) with wins (2, 1) passes 0 to MatchOver and fails |
| GameStates.TiedDecidingRoundIsReachable | trunk/superstreetfire/src/gamemodel/game_states.py:119-130 | that configuration is reached by a tied knock-out from wins (1, 0) |
| GameStates.EnterRoundEndedKeepsInv | trunk/superstreetfire/src/gamemodel/game_states.py:174-193 | ending a round from counts below 2 keeps the round-win invariant and is accepted for every valid result |
| GameStates.TickKeepsInv | trunk/superstreetfire/src/gamemodel/game_states.py:9-313 | for the corrected RoundEnded rule: every tick keeps the invariant (no player past two wins), and a tick fails only when a round times out with nobody knocked out |
| GameStates.PlayTickKeepsInv | trunk/superstreetfire/src/gamemodel/game_states.py:119-130 | a tick of a running round keeps the round-win invariant, and fails only when time runs out with neither player knocked out |
| GameStates.RoundEndedTickKeepsInv | trunk/superstreetfire/src/gamemodel/game_states.py:195-219 | the corrected tick after a round keeps the round-win invariant and never fails (the tick as written fails after a tied deciding round, see Findings) |
| GameStates.OtherEventsKeepInv | trunk/superstreetfire/src/gamemodel/game_states.py:9-313 | Calibrate, StartGame, TogglePauseGame and StopGame keep the invariant |
| GameStates.Initial | trunk/superstreetfire/src/gamemodel/game_states.py:28-33 | a new game is Idle and satisfies the invariant |
| GameStates.SsfGame.constructor | trunk/superstreetfire/src/gamemodel/game_states.py:28-33 | the fields hold the initial configuration |
| GameStates.SsfGame.SetIdle | trunk/superstreetfire/src/gamemodel/game_states.py:28-33 | the fields become the Idle entry of the old configuration |
| GameStates.SsfGame.SetRoundEnded | trunk/superstreetfire/src/gamemodel/game_states.py:174-193 | the fields and result agree with the RoundEnded entry |
| GameStates.SsfGame.SetSettleTie | trunk/superstreetfire/src/gamemodel/game_states.py:223-236 | the fields become the SettleTie entry: chip damage off, full health, emitters killed |
| GameStates.SsfGame.SetMatchOver | trunk/superstreetfire/src/gamemodel/game_states.py:284-288 | the fields and result agree with the MatchOver entry |
| GameStates.SsfGame.Tick | trunk/superstreetfire/src/gamemodel/game_states.py:52-290 | the fields and result after a tick are those of the tick function, which keeps the invariant |
| GameStates.SsfGame.Calibrate | trunk/superstreetfire/src/gamemodel/game_states.py:35-36 | agrees with the Calibrate event function |
| GameStates.SsfGame.StartGame | trunk/superstreetfire/src/gamemodel/game_states.py:37-38 | agrees with the StartGame event function |
| GameStates.SsfGame.TogglePauseGame | trunk/superstreetfire/src/gamemodel/game_states.py:301-309 | agrees with the pause toggle, whose round trip restores the paused state |
| GameStates.SsfGame.StopGame | trunk/superstreetfire/src/gamemodel/game_states.py:297-313 | agrees with the StopGame event function |
| GestureStates.IsHandBlocking | superstreetfire/src/gamemodel/gesture_state.py:124-127 | a blocking hand is held above the block angle and shows neither a hook nor a jab |
| GestureStates.HandedMove | superstreetfire/src/gamemodel/gesture_state.py:87-120 | release from a block beats every other rule; a result is a release, a block, a punch end or a punch of that hand; power is raised only on a punch; no result exactly when no rule matches |
| GestureStates.HandedMoveOrder | superstreetfire/src/gamemodel/gesture_state.py:89-120 | a blocking hand blocks; a decelerating hand after a punch gives NO_GESTURE; otherwise uppercut beats hook beats jab, each strong only past its second threshold |
| GestureStates.BlockingHandNeverAttacks | superstreetfire/src/gamemodel/gesture_state.py:91-92 | a blocking hand gives only a release or a block, never a strong move |
| GestureStates.DequeAppend | superstreetfire/src/gamemodel/gesture_state.py:211 | the bounded deque gains the new move last, drops its oldest entry when full, and never holds more than 6 |
| GestureStates.Record | superstreetfire/src/gamemodel/gesture_state.py:220-241 | recording keeps the history shape and the 6-entry bound |
| GestureStates.RecordRules | superstreetfire/src/gamemodel/gesture_state.py:220-241 | a repeat within 0.8 s is ignored and recorded as 0 after it; a non-zero move within 0.15 s is dropped; a recorded move is appended to both histories, stamps the time, clears both gloves and resets the power |
| GestureStates.RecordAppendsAtMostOne | superstreetfire/src/gamemodel/gesture_state.py:236-241 | each history grows by at most one move and only at its end |
| GestureStates.TwoHandedMove | superstreetfire/src/gamemodel/gesture_state.py:141-179 | a two-handed result is one of the five two-handed moves; a sonic boom needs a preceding sonic side |
| GestureStates.HandTurn | superstreetfire/src/gamemodel/gesture_state.py:182-196 | without a glove nothing changes; with one, the move carried on is that hand's last move, a hand that matches no rule leaves the tracker unchanged, and the other histories are never touched |
| GestureStates.DetermineMove | superstreetfire/src/gamemodel/gesture_state.py:130-198 | the tracker stays well formed |
| GestureStates.TwoHandedPrecedence | superstreetfire/src/gamemodel/gesture_state.py:141-179 | when a two-handed move is shown, neither single-hand history changes |
| GestureStates.SonicBoomFollowsSonicSide | superstreetfire/src/gamemodel/gesture_state.py:158-167 | a sonic boom is recorded only right after a sonic side |
| GestureStates.DetermineMoveGrows | superstreetfire/src/gamemodel/gesture_state.py:130-198 | at most two moves are recorded, and the histories are only appended to |
| GestureStates.MoveAction | superstreetfire/src/gamemodel/gesture_state.py:262-309 | exactly blocks, punches, hadouken and sonic boom trigger an action; a block carries its hand and the power |
| GestureStates.Dispatch | superstreetfire/src/gamemodel/gesture_state.py:262-309 | no more actions than moves |
| GestureStates.DispatchCountsActiveMoves | superstreetfire/src/gamemodel/gesture_state.py:262-309 | every active move triggers exactly one action, in order |
| GestureStates.UpdateNext | superstreetfire/src/gamemodel/gesture_state.py:243-259 | the tracker stays well formed |
| GestureStates.UpdateRules | superstreetfire/src/gamemodel/gesture_state.py:243-259 | an update with no glove data changes nothing; when new data leaves both gloves buffered, the histories are those of the move determination and the actions are the dispatch of the moves it recorded, one per active move and in order; histories only grow |
| GestureStates.PlayerGestureState.constructor | superstreetfire/src/gamemodel/gesture_state.py:204-215 | empty histories and deque, no buffered gloves, power 1, stamped now |
| GestureStates.PlayerGestureState.GetHandedMove | superstreetfire/src/gamemodel/gesture_state.py:87-120 | returns the classified move and raises the power to 2 exactly on a strong move |
| GestureStates.PlayerGestureState.RecordMove | superstreetfire/src/gamemodel/gesture_state.py:220-241 | the fields become the recorded tracker |
| GestureStates.PlayerGestureState.HandTurnStep | superstreetfire/src/gamemodel/gesture_state.py:182-196 | the fields and carried move agree with one hand's turn |
| GestureStates.PlayerGestureState.DetermineMoveStep | superstreetfire/src/gamemodel/gesture_state.py:130-198 | the fields agree with the move determination |
| GestureStates.PlayerGestureState.DoMoves | superstreetfire/src/gamemodel/gesture_state.py:262-309 | the loop returns the action of each recent move in order |
| GestureStates.PlayerGestureState.Update | superstreetfire/src/gamemodel/gesture_state.py:243-259 | the fields and actions agree with the update function; an empty recent-move queue stays empty, so every update yields at most two actions |
| GestureTypes.RowOf | trunk/ssf-java/GestureRecognizer/src/main/java/ca/site3/ssf/gesturerecognizer/GestureType.java:21-50 | the constructor arguments of each of the 27 constants, as declared: blocks have 2 model nodes, other one-handed gestures 4 and other two-handed gestures 5; no threshold is negative; the basic gestures are exactly the blocks and the one-handed jabs, hooks, uppercuts and chops; every easter egg is two-handed with threshold 0 |
| GestureTypes.GetActionFactoryType | trunk/ssf-java/GestureRecognizer/src/main/java/ca/site3/ssf/gesturerecognizer/GestureType.java:97-99 | the action type the constant was declared with |
| GestureTypes.GetNumHands | trunk/ssf-java/GestureRecognizer/src/main/java/ca/site3/ssf/gesturerecognizer/GestureType.java:100-102 | 1 or 2, and 2 exactly when the constant was declared with both hands |
| GestureTypes.GetUsesLeftHand | trunk/ssf-java/GestureRecognizer/src/main/java/ca/site3/ssf/gesturerecognizer/GestureType.java:103-105 | the declared left-hand flag |
| GestureTypes.GetUsesRightHand | trunk/ssf-java/GestureRecognizer/src/main/java/ca/site3/ssf/gesturerecognizer/GestureType.java:106-108 | the declared right-hand flag |
| GestureTypes.GetGenre | trunk/ssf-java/GestureRecognizer/src/main/java/ca/site3/ssf/gesturerecognizer/GestureType.java:109-111 | the declared genre |
| GestureTypes.GetMinFierceDiffThreshold | trunk/ssf-java/GestureRecognizer/src/main/java/ca/site3/ssf/gesturerecognizer/GestureType.java:112-114 | the declared threshold, never negative |
| GestureTypes.GetNumHmmNodes | trunk/ssf-java/GestureRecognizer/src/main/java/ca/site3/ssf/gesturerecognizer/GestureType.java:116-118 | the declared node count, always positive |
| GestureTypes.CountHands | trunk/ssf-java/GestureRecognizer/src/main/java/ca/site3/ssf/gesturerecognizer/GestureType.java:87-94 | 0..2 hands; 0 iff neither flag is set, 2 iff both are |
| GestureTypes.Construct | trunk/ssf-java/GestureRecognizer/src/main/java/ca/site3/ssf/gesturerecognizer/GestureType.java:67-95 | a constant that passes the asserts uses 1 or 2 hands, 2 iff both flags, and has a positive node count |
| GestureTypes.RowsAreValid | trunk/ssf-java/GestureRecognizer/src/main/java/ca/site3/ssf/gesturerecognizer/GestureType.java:21-50 | every row of the table passes the constructor's asserts |
| GestureTypes.GettersReturnArguments | trunk/ssf-java/GestureRecognizer/src/main/java/ca/site3/ssf/gesturerecognizer/GestureType.java:97-118 | the getters return the constructor arguments unchanged |
| GestureTypes.HandsOfEveryGesture | trunk/ssf-java/GestureRecognizer/src/main/java/ca/site3/ssf/gesturerecognizer/GestureType.java:72-94 | every gesture uses a hand, and numHands is the number of hand flags set |
| GestureTypes.HmmNodesPositive | trunk/ssf-java/GestureRecognizer/src/main/java/ca/site3/ssf/gesturerecognizer/GestureType.java:72 | every gesture has a positive node count |
| GestureTypes.BlockTypes | trunk/ssf-java/GestureRecognizer/src/main/java/ca/site3/ssf/gesturerecognizer/GestureType.java:21-23 | exactly the three block types build BLOCK with threshold 0: left only, right only and both |

## Left out

- The `SerialCommunicator.run` loop, thread start, queue polling and timing, sleeps, the serial output stream and the reader thread are concurrency and I/O. Writing to the board is modelled as appending to the queue (or to `queryWrites` for status queries). A board's reply is an input, where "no reply" gives the all-false default status.
- The queue sentinels, detected by array identity, are tied to the run loop and are not modelled.
- The life-bar colour (`getColorFromLifePercentage` via `Algebra.colorLerp` on doubles) is a parameter; Algebra is not part of this model.
- The `100 * intensity` double-to-byte casts in `notifyFireEmitters` are not modelled: fire intensities arrive as integer percentages.
- `Math.round(life / 100.0 * 44)` is modelled exactly for integer percentages; a double `life` is not.
- SerialComm.SerialCommunicator.InitializeStaticBoardColours: the iteration order of the life-board `HashSet` is unspecified, so it is a parameter that must list each of the four boards once.
- `querySystemStatus`, `stop`, the event-listener registration and the `SystemInfoRefreshEvent` delivery are not modelled; DoSystemQuery returns the refresh instead.
- SerialDataReader, the device data parsers, the glove-event coalescer and the network listener are not part of this model.
- XBee: serial-port and ZigBee discovery, `xbee.send`, node discovery, sleeps and logging are I/O. A send records a packet; send errors are swallowed by the source and have no effect on the caches.
- XBee.XBeeIO.SendFireEmitterData: the cache compares the packed word triple rather than the bytes of `struct.pack("HHH", …)`. Both are injective in the triple for 16-bit words, so the decision is the same; the native byte layout is not modelled.
- `SendP1LifeBar`, `SendP2LifeBar`, `_sendND` and `NodeDiscovery` are transmission wrappers around the modelled `_getLifeData` and are left out.
- GameStates: the collaborators `Reset`, `KillEmitters`, `_ExecuteGameActions`, calibration finalisation and the gesture-recognizer calls are recorded as effects in a log, not executed. Hit points after `_ExecuteGameActions` are inputs to the tick.
- GameStates: the player and game classes are not part of this model. The model assumes:
  - a player is knocked out at 0 hit points or fewer;
  - Reset restores full health and clears the round wins;
  - chip damage starts on;
  - the maximum health is a constructor argument.
- GameStates: `UpdateWithHeadsetData` and `UpdateWithGloveData` forward to collaborators and are not modelled.
- RoundBegin does not restore health before a round; the source leaves this as a TODO.
- GameStates.TickNext: in the RoundEnded state it follows the corrected rule and never fails; the source fails its MatchOver assert after a tied deciding round (see Findings). The as-written tick is `RoundEndedTickAsWritten`.
- GameStates.RoundEndedTickRules: states the corrected RoundEnded tick, not the source's, which fails after a tied deciding round (see Findings); `RoundEndedTickAsWritten` and `TiedDecidingRoundAsWrittenFails` give the as-written behaviour.
- GameStates.SsfGame.Tick: when the source's RoundEnded tick would pass a tie to MatchOver and fail its assert, this method instead follows the corrected rule (see Findings). The as-written behaviour is kept in `RoundEndedTickAsWritten`.
- GestureStates:
  - sound playback, attack and block object construction and logging in `_doMoves` are abstracted to an `Action` value;
  - the clearing of the recent-move deque after dispatch is in UpdateNext;
  - the player number is not carried in a block action.
- The `dT` and `timeStamp` arguments of the gesture `Update` are unused by the source and are dropped. Both `time.time()` calls in one update read the same `now`.

## Findings

| source | as written | input that shows it | evidently intended | confidence | as-written member | corrected member |
|---|---|---|---|---|---|---|
| trunk/superstreetfire/src/gamemodel/game_states.py:195-210 | on a decided match, `RoundEndedGameState.Tick` passes `self._roundWinner` (set from the constructor argument) to `MatchOverGameState`, whose constructor asserts the winner is 1 or 2 | wins (1, 0), then a round where both players are knocked out: the state is RoundEnded(0) with wins (2, 1), and the tick passes 0 so the assert fails | pass the player who now holds two round wins | high, not executed | GameStates.TiedDecidingRoundAsWrittenFails | GameStates.RoundEndedTick |
