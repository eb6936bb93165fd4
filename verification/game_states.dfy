/**
 * The game-state machine of the Super Street Fire game model: Idle,
 * Calibration, RoundBegin, RoundInPlay, RoundEnded, SettleTie, MatchOver and
 * Paused, driven by the events Tick, Calibrate, StartGame, TogglePauseGame and
 * StopGame.
 *
 * Each state object becomes a value of `GameState` carrying its own counter;
 * PausedGameState keeps the state it paused, so the value it holds is the
 * paused state with its counter as it was. The game (`SsfGame`) keeps the
 * current state, the two players, the chip-damage flag and a log of the calls
 * it makes into collaborators that are not part of this model (`Reset`,
 * `KillEmitters`, `_ExecuteGameActions`, the calibration hand-off).
 *
 * The pure functions `TickNext`, `CalibrateNext`, ... give the configuration
 * after each event; the class methods update the fields step by step and are
 * proved to agree with them.
 */
module GameStates {

  const CALIBRATION_LENGTH_IN_SECONDS: real := 5.0
  const COUNT_DOWN_TIME_IN_SECONDS: real := 3.0
  const ROUND_TIME_IN_SECONDS: real := 60.0

  const TIE_ROUND := 0
  const PLAYER_1_WON_ROUND := 1
  const PLAYER_2_WON_ROUND := 2
  const NUM_ROUNDS_PER_MATCH := 3
  /** The most round wins a player may hold: `NUM_ROUNDS_PER_MATCH / 2 + 1` in Python 2 integer division. */
  const MAX_ROUND_WINS := NUM_ROUNDS_PER_MATCH / 2 + 1

  datatype GameState =
    | Idle
    | Calibration(timeCounter: real)
    | RoundBegin(countdownTime: real)
    | RoundInPlay(roundTime: real)
    | RoundEnded(roundWinner: int)
    | SettleTie
    | MatchOver(winnerPlayerNum: int)
    | Paused(statePaused: GameState)

  /** The part of a player the state machine reads and writes. */
  datatype Player = Player(hitPoints: int, numRoundWins: int)

  /** A call into a collaborator, in the order the game makes them. */
  datatype Effect =
    | ResetGame                   // ssfGame.Reset()
    | FinalizeCalibration         // calibrationData.FinishSampling + SetCalibrationData
    | ExecuteGameActions(dT: real) // ssfGame._ExecuteGameActions(dT, activeActions)
    | KillEmitters                // ssfGame.KillEmitters()

  /** Everything an event can read or change. `maxHitPoints` is Player.MAX_HIT_POINTS. */
  datatype Config = Config(
    state: GameState, player1: Player, player2: Player,
    chipDamageOn: bool, maxHitPoints: int, effects: seq<Effect>)

  /** The outcome of an event: `ok` is false when one of the source's asserts fails. */
  datatype Outcome = Outcome(ok: bool, config: Config)

  /** Player.IsKnockedOut (player.py is not part of this model): no hit points left. */
  predicate KnockedOut(p: Player) {
    p.hitPoints <= 0
  }

  // ---------------------------------------------------------------------------
  // Entering a state: the constructors of the state classes, then _SetState

  /** IdleGameState(): ssfGame.Reset() puts both players back to full life and no round wins. */
  function EnterIdle(c: Config): (r: Config)
    ensures r.state == Idle && r.chipDamageOn == c.chipDamageOn && r.maxHitPoints == c.maxHitPoints
    ensures r.player1 == r.player2 == Player(c.maxHitPoints, 0)
    ensures r.effects == c.effects + [ResetGame]
  {
    c.(state := Idle, player1 := Player(c.maxHitPoints, 0), player2 := Player(c.maxHitPoints, 0),
       effects := c.effects + [ResetGame])
  }

  /** The round-win counts after crediting a round result. */
  function Credit(c: Config, roundWinner: int): Config {
    if roundWinner == TIE_ROUND then
      c.(player1 := c.player1.(numRoundWins := c.player1.numRoundWins + 1),
         player2 := c.player2.(numRoundWins := c.player2.numRoundWins + 1))
    else if roundWinner == PLAYER_1_WON_ROUND then
      c.(player1 := c.player1.(numRoundWins := c.player1.numRoundWins + 1))
    else
      c.(player2 := c.player2.(numRoundWins := c.player2.numRoundWins + 1))
  }

  /**
   * RoundEndedGameState(winner): the winner must be a tie, P1 or P2; the
   * round is credited, then neither player may exceed MAX_ROUND_WINS. A failed
   * assert leaves the state as it was (with the credit already made when it
   * is the second assert that fails).
   */
  function EnterRoundEnded(c: Config, roundWinner: int): (r: Outcome)
    ensures r.ok <==> roundWinner in {TIE_ROUND, PLAYER_1_WON_ROUND, PLAYER_2_WON_ROUND}
                      && Credit(c, roundWinner).player1.numRoundWins <= MAX_ROUND_WINS
                      && Credit(c, roundWinner).player2.numRoundWins <= MAX_ROUND_WINS
    ensures r.ok ==> r.config.state == RoundEnded(roundWinner)
    ensures r.config.player1.numRoundWins
      == c.player1.numRoundWins + (if roundWinner in {TIE_ROUND, PLAYER_1_WON_ROUND} then 1 else 0)
    ensures r.config.player2.numRoundWins
      == c.player2.numRoundWins + (if roundWinner in {TIE_ROUND, PLAYER_2_WON_ROUND} then 1 else 0)
    ensures !r.ok ==> r.config.state == c.state
  {
    if roundWinner != TIE_ROUND && roundWinner != PLAYER_1_WON_ROUND && roundWinner != PLAYER_2_WON_ROUND then
      Outcome(false, c)
    else
      var credited := Credit(c, roundWinner);
      if credited.player1.numRoundWins <= MAX_ROUND_WINS && credited.player2.numRoundWins <= MAX_ROUND_WINS then
        Outcome(true, credited.(state := RoundEnded(roundWinner)))
      else
        Outcome(false, credited)
  }

  /** SettleTieGameState(): chip damage off, both players to full health, emitters off. */
  function EnterSettleTie(c: Config): (r: Config)
    ensures r.state == SettleTie && !r.chipDamageOn
    ensures r.player1 == Player(c.maxHitPoints, c.player1.numRoundWins)
    ensures r.player2 == Player(c.maxHitPoints, c.player2.numRoundWins)
    ensures r.effects == c.effects + [KillEmitters] && r.maxHitPoints == c.maxHitPoints
  {
    c.(state := SettleTie, chipDamageOn := false,
       player1 := c.player1.(hitPoints := c.maxHitPoints),
       player2 := c.player2.(hitPoints := c.maxHitPoints),
       effects := c.effects + [KillEmitters])
  }

  /** MatchOverGameState(winner): the winner must be player 1 or 2. */
  function EnterMatchOver(c: Config, winnerPlayerNum: int): (r: Outcome)
    ensures r.ok <==> winnerPlayerNum == 1 || winnerPlayerNum == 2
    ensures r.config == if r.ok then c.(state := MatchOver(winnerPlayerNum)) else c
  {
    if winnerPlayerNum == 1 || winnerPlayerNum == 2 then Outcome(true, c.(state := MatchOver(winnerPlayerNum)))
    else Outcome(false, c)
  }

  // ---------------------------------------------------------------------------
  // Round bookkeeping

  /**
   * RoundInPlayGameState._IsRoundOver. The tick calls `self.IsRoundOver()`
   * and the body reads `self.roundTime`, neither of which the class defines;
   * they are taken to mean `_IsRoundOver` and `_roundTime`.
   */
  predicate RoundOver(c: Config, roundTime: real): (over: bool)
    ensures over <==> RoundWinner(c) != -1 || roundTime <= 0.0
  {
    KnockedOut(c.player1) || KnockedOut(c.player2) || roundTime <= 0.0
  }

  /**
   * RoundInPlayGameState._GetRoundWinner (its `self.player1` / `self.player2`
   * are taken as the game's players): -1 when nobody is knocked out.
   */
  function RoundWinner(c: Config): (w: int)
    ensures w == TIE_ROUND <==> KnockedOut(c.player1) && KnockedOut(c.player2)
    ensures w == PLAYER_1_WON_ROUND <==> !KnockedOut(c.player1) && KnockedOut(c.player2)
    ensures w == PLAYER_2_WON_ROUND <==> KnockedOut(c.player1) && !KnockedOut(c.player2)
    ensures w == -1 <==> !KnockedOut(c.player1) && !KnockedOut(c.player2)
  {
    if KnockedOut(c.player1) then
      if KnockedOut(c.player2) then TIE_ROUND else PLAYER_2_WON_ROUND
    else if KnockedOut(c.player2) then PLAYER_1_WON_ROUND
    else -1
  }

  /** RoundEndedGameState._IsMatchOver (on the game's players). */
  predicate MatchIsOver(c: Config): (over: bool)
    ensures over <==> c.player1.numRoundWins == MAX_ROUND_WINS || c.player2.numRoundWins == MAX_ROUND_WINS
  {
    c.player1.numRoundWins == 2 || c.player2.numRoundWins == 2
  }

  /** RoundEndedGameState._IsMatchTie (on the game's players). */
  predicate MatchIsTie(c: Config): (tie: bool)
    ensures tie ==> MatchIsOver(c)
    ensures tie <==> c.player1.numRoundWins == MAX_ROUND_WINS && c.player2.numRoundWins == MAX_ROUND_WINS
  {
    c.player1.numRoundWins == 2 && c.player2.numRoundWins == 2
  }

  /** The match winner: the player who holds the second round win. */
  function MatchWinner(c: Config): (w: int)
    requires MatchIsOver(c) && !MatchIsTie(c)
    ensures w == 1 || w == 2
    ensures w == 1 <==> c.player1.numRoundWins == 2
    ensures w == 2 <==> c.player2.numRoundWins == 2
  {
    if c.player1.numRoundWins == 2 then 1 else 2
  }

  /**
   * RoundEndedGameState.Tick as written: the match winner passed on is the
   * winner of the round that just ended. After a tied round that gives only
   * one player a second win this is TIE_ROUND, which MatchOverGameState
   * rejects.
   */
  function RoundEndedTickAsWritten(c: Config, roundWinner: int): (r: Outcome)
    ensures r.ok <==> !(MatchIsOver(c) && !MatchIsTie(c)) || roundWinner == 1 || roundWinner == 2
    ensures !r.ok ==> r.config == c
    ensures MatchIsOver(c) && !MatchIsTie(c) && r.ok ==> r.config.state == MatchOver(roundWinner)
  {
    if MatchIsOver(c) then
      if MatchIsTie(c) then Outcome(true, EnterSettleTie(c))
      else EnterMatchOver(c, roundWinner)
    else Outcome(true, c.(state := RoundBegin(COUNT_DOWN_TIME_IN_SECONDS)))
  }

  /**
   * RoundEndedGameState.Tick, passing on the player who won the match; this
   * agrees with the version as written whenever the round had a winner.
   */
  function RoundEndedTick(c: Config): (r: Outcome)
    ensures r.ok
    ensures MatchIsOver(c) && MatchIsTie(c) ==> r.config == EnterSettleTie(c)
    ensures MatchIsOver(c) && !MatchIsTie(c) ==> r.config == c.(state := MatchOver(MatchWinner(c)))
    ensures !MatchIsOver(c) ==> r.config == c.(state := RoundBegin(COUNT_DOWN_TIME_IN_SECONDS))
  {
    if MatchIsOver(c) then
      if MatchIsTie(c) then Outcome(true, EnterSettleTie(c))
      else EnterMatchOver(c, MatchWinner(c))
    else Outcome(true, c.(state := RoundBegin(COUNT_DOWN_TIME_IN_SECONDS)))
  }

  // ---------------------------------------------------------------------------
  // The events

  /**
   * Tick(dT). `hp1` and `hp2` are the players' hit points after
   * `_ExecuteGameActions`, which RoundInPlay and SettleTie call first.
   */
  function TickNext(c: Config, dT: real, hp1: int, hp2: int): (r: Outcome)
    ensures c.state.Idle? || c.state.Paused? ==> r == Outcome(true, c)
    ensures c.state.MatchOver? ==> r.ok && r.config.state == Idle
    ensures !r.ok ==> c.state.RoundInPlay? && r.config.state == RoundInPlay(c.state.roundTime - dT)
  {
    match c.state
    case Idle => Outcome(true, c)
    case Calibration(t) =>
      if t >= CALIBRATION_LENGTH_IN_SECONDS then
        Outcome(true, EnterIdle(c.(effects := c.effects + [FinalizeCalibration])))
      else Outcome(true, c.(state := Calibration(t + dT)))
    case RoundBegin(t) =>
      if t <= 0.0 then Outcome(true, c.(state := RoundInPlay(ROUND_TIME_IN_SECONDS)))
      else Outcome(true, c.(state := RoundBegin(t - dT)))
    case RoundInPlay(t) =>
      var played := c.(player1 := c.player1.(hitPoints := hp1),
                       player2 := c.player2.(hitPoints := hp2),
                       effects := c.effects + [ExecuteGameActions(dT)],
                       state := RoundInPlay(t - dT));
      if RoundOver(played, t - dT) then EnterRoundEnded(played, RoundWinner(played))
      else Outcome(true, played)
    case RoundEnded(_) => RoundEndedTick(c)
    case SettleTie =>
      var played := c.(player1 := c.player1.(hitPoints := hp1),
                       player2 := c.player2.(hitPoints := hp2),
                       effects := c.effects + [ExecuteGameActions(dT)]);
      var hurt1 := hp1 < c.maxHitPoints;
      var hurt2 := hp2 < c.maxHitPoints;
      if hurt1 && hurt2 then
        Outcome(true, played.(player1 := played.player1.(hitPoints := c.maxHitPoints),
                              player2 := played.player2.(hitPoints := c.maxHitPoints)))
      else if hurt1 then EnterMatchOver(played.(chipDamageOn := true), 2)
      else if hurt2 then EnterMatchOver(played.(chipDamageOn := true), 1)
      else Outcome(true, played)
    case MatchOver(_) => Outcome(true, EnterIdle(c))
    case Paused(_) => Outcome(true, c)
  }

  /** Calibrate: only Idle reacts, by starting a calibration. */
  function CalibrateNext(c: Config): (r: Config)
    ensures r.state == if c.state.Idle? then Calibration(0.0) else c.state
    ensures r.(state := c.state) == c
  {
    if c.state.Idle? then c.(state := Calibration(0.0)) else c
  }

  /** StartGame: only Idle reacts, by starting a round straight away. */
  function StartGameNext(c: Config): (r: Config)
    ensures r.state == if c.state.Idle? then RoundInPlay(ROUND_TIME_IN_SECONDS) else c.state
    ensures r.(state := c.state) == c
  {
    if c.state.Idle? then c.(state := RoundInPlay(ROUND_TIME_IN_SECONDS)) else c
  }

  /** The states that TogglePauseGame pauses. */
  predicate Pausable(s: GameState) {
    s.RoundBegin? || s.RoundInPlay? || s.SettleTie?
  }

  /** TogglePauseGame: pause a running state, or resume the paused one. */
  function TogglePauseNext(c: Config): (r: Config)
    ensures Pausable(c.state) ==> r.state == Paused(c.state)
    ensures c.state.Paused? ==> r.state == c.state.statePaused
    ensures !Pausable(c.state) && !c.state.Paused? ==> r == c
    ensures r.(state := c.state) == c
  {
    if Pausable(c.state) then c.(state := Paused(c.state))
    else if c.state.Paused? then c.(state := c.state.statePaused)
    else c
  }

  /** StopGame: back to Idle from everywhere except Idle and Calibration; SettleTie restores chip damage first. */
  function StopGameNext(c: Config): (r: Config)
    ensures c.state.Idle? || c.state.Calibration? ==> r == c
    ensures !c.state.Idle? && !c.state.Calibration? ==> r.state == Idle
  {
    match c.state
    case Idle => c
    case Calibration(_) => c
    case SettleTie => EnterIdle(c.(chipDamageOn := true))
    case _ => EnterIdle(c)
  }

  // ---------------------------------------------------------------------------
  // Properties of the machine

  /** Idle waits: only Calibrate and StartGame leave it. */
  lemma IdleEvents(c: Config, dT: real, hp1: int, hp2: int)
    requires c.state == Idle
    ensures TickNext(c, dT, hp1, hp2) == Outcome(true, c)
    ensures TogglePauseNext(c) == c && StopGameNext(c) == c
    ensures CalibrateNext(c).state == Calibration(0.0)
    ensures StartGameNext(c).state == RoundInPlay(ROUND_TIME_IN_SECONDS)
  {
  }

  /** StopGame ends every running state in Idle with the players reset; Calibration ignores it. */
  lemma StopGameRules(c: Config)
    ensures c.state.Calibration? || c.state.Idle? ==> StopGameNext(c) == c
    ensures !c.state.Calibration? && !c.state.Idle? ==>
      (StopGameNext(c).state == Idle
       && StopGameNext(c).player1 == StopGameNext(c).player2 == Player(c.maxHitPoints, 0)
       && StopGameNext(c).chipDamageOn == (c.chipDamageOn || c.state.SettleTie?))
  {
  }

  /** Calibration counts up by dT until the counter reaches 5 s; the next tick hands off and goes Idle. */
  lemma CalibrationTick(c: Config, dT: real, hp1: int, hp2: int)
    requires c.state.Calibration?
    ensures var r := TickNext(c, dT, hp1, hp2);
      && r.ok
      && (c.state.timeCounter < CALIBRATION_LENGTH_IN_SECONDS ==>
            r.config == c.(state := Calibration(c.state.timeCounter + dT)))
      && (c.state.timeCounter >= CALIBRATION_LENGTH_IN_SECONDS ==>
            (r.config.state == Idle && r.config.effects == c.effects + [FinalizeCalibration, ResetGame]))
  {
  }

  /** RoundBegin counts down by dT; the first tick that finds it at or below 0 starts the round. */
  lemma RoundBeginTick(c: Config, dT: real, hp1: int, hp2: int)
    requires c.state.RoundBegin?
    ensures var r := TickNext(c, dT, hp1, hp2);
      && r.ok
      && (c.state.countdownTime > 0.0 ==> r.config == c.(state := RoundBegin(c.state.countdownTime - dT)))
      && (c.state.countdownTime <= 0.0 ==> r.config == c.(state := RoundInPlay(ROUND_TIME_IN_SECONDS)))
  {
  }

  /** Pausing and resuming gives back exactly the state that was paused, counters intact. */
  lemma PauseRoundTrip(c: Config)
    requires Pausable(c.state)
    ensures TogglePauseNext(c).state == Paused(c.state)
    ensures TogglePauseNext(TogglePauseNext(c)) == c
  {
  }

  /** A paused game ignores ticks; only TogglePauseGame and StopGame act on it. */
  lemma PausedIgnoresTicks(c: Config, dT: real, hp1: int, hp2: int)
    requires c.state.Paused?
    ensures TickNext(c, dT, hp1, hp2) == Outcome(true, c)
    ensures CalibrateNext(c) == c && StartGameNext(c) == c
  {
  }

  /** Ending a round: the entry is accepted for a tie, P1 or P2, and credits the right players. */
  lemma RoundEndedEntry(c: Config, w: int)
    requires 0 <= c.player1.numRoundWins <= 1 && 0 <= c.player2.numRoundWins <= 1
    ensures var r := EnterRoundEnded(c, w);
      && (r.ok <==> w in {0, 1, 2})
      && (w == TIE_ROUND ==>
            r.config.player1.numRoundWins == c.player1.numRoundWins + 1
            && r.config.player2.numRoundWins == c.player2.numRoundWins + 1)
      && (w == PLAYER_1_WON_ROUND ==>
            r.config.player1.numRoundWins == c.player1.numRoundWins + 1
            && r.config.player2.numRoundWins == c.player2.numRoundWins)
      && (w == PLAYER_2_WON_ROUND ==>
            r.config.player1.numRoundWins == c.player1.numRoundWins
            && r.config.player2.numRoundWins == c.player2.numRoundWins + 1)
  {
  }

  /** The RoundEnded tick: both at 2 wins settles a tie, one at 2 ends the match, else the next round begins. */
  lemma RoundEndedTickRules(c: Config, dT: real, hp1: int, hp2: int)
    requires c.state.RoundEnded?
    ensures var r := TickNext(c, dT, hp1, hp2);
      && r.ok
      && (MatchIsTie(c) ==> r.config.state == SettleTie && !r.config.chipDamageOn)
      && (MatchIsOver(c) && !MatchIsTie(c) ==>
            r.config.state == MatchOver(if c.player1.numRoundWins == 2 then 1 else 2))
      && (!MatchIsOver(c) ==> r.config.state == RoundBegin(COUNT_DOWN_TIME_IN_SECONDS))
  {
  }

  /** The tie breaker: the first player hurt loses and chip damage comes back on; both hurt starts over. */
  lemma SettleTieTickRules(c: Config, dT: real, hp1: int, hp2: int)
    requires c.state == SettleTie
    ensures var r := TickNext(c, dT, hp1, hp2);
      && r.ok
      && (hp1 < c.maxHitPoints && hp2 < c.maxHitPoints ==>
            (r.config.state == SettleTie
             && r.config.player1.hitPoints == r.config.player2.hitPoints == c.maxHitPoints))
      && (hp1 < c.maxHitPoints && hp2 >= c.maxHitPoints ==>
            r.config.state == MatchOver(2) && r.config.chipDamageOn)
      && (hp1 >= c.maxHitPoints && hp2 < c.maxHitPoints ==>
            r.config.state == MatchOver(1) && r.config.chipDamageOn)
      && (hp1 >= c.maxHitPoints && hp2 >= c.maxHitPoints ==> r.config.state == SettleTie)
  {
  }

  /** A round that times out with nobody knocked out has no winner, and the RoundEnded assert fails. */
  lemma TimeoutWithoutKnockoutFails(c: Config, dT: real, hp1: int, hp2: int)
    requires c.state.RoundInPlay? && c.state.roundTime - dT <= 0.0 && hp1 > 0 && hp2 > 0
    ensures var r := TickNext(c, dT, hp1, hp2);
      && !r.ok
      && r.config.state == RoundInPlay(c.state.roundTime - dT)
      && r.config.player1.numRoundWins == c.player1.numRoundWins
      && r.config.player2.numRoundWins == c.player2.numRoundWins
  {
  }

  /**
   * As written, a tied round that brings one player to a second win while
   * the other stays below it passes TIE_ROUND to MatchOverGameState, whose
   * assert fails: the game stays in RoundEnded.
   */
  lemma TiedDecidingRoundAsWrittenFails()
    ensures var c := Config(RoundEnded(TIE_ROUND), Player(0, 2), Player(0, 1), true, 100, []);
      && MatchIsOver(c) && !MatchIsTie(c)
      && RoundEndedTickAsWritten(c, TIE_ROUND) == Outcome(false, c)
  {
  }

  /** The state reached from RoundEnded(0) with wins (1, 0) before the round: the deciding tie. */
  lemma TiedDecidingRoundIsReachable()
    ensures var before := Config(RoundInPlay(1.0), Player(50, 1), Player(50, 0), true, 100, []);
      var r := TickNext(before, 1.0, 0, 0);
      && r.ok && r.config.state == RoundEnded(TIE_ROUND)
      && r.config.player1.numRoundWins == 2 && r.config.player2.numRoundWins == 1
  {
  }

  /** The round-win bookkeeping every reachable configuration keeps. */
  predicate StateInv(s: GameState, w1: int, w2: int) {
    match s
    case Idle => w1 == 0 && w2 == 0
    case Calibration(_) => w1 == 0 && w2 == 0
    case RoundBegin(_) => 0 <= w1 <= 1 && 0 <= w2 <= 1
    case RoundInPlay(_) => 0 <= w1 <= 1 && 0 <= w2 <= 1
    case RoundEnded(w) =>
      // the counts of a running round (at most 1 each), credited for the round's result
      || (w == TIE_ROUND && 1 <= w1 <= MAX_ROUND_WINS && 1 <= w2 <= MAX_ROUND_WINS)
      || (w == PLAYER_1_WON_ROUND && 1 <= w1 <= MAX_ROUND_WINS && 0 <= w2 <= 1)
      || (w == PLAYER_2_WON_ROUND && 0 <= w1 <= 1 && 1 <= w2 <= MAX_ROUND_WINS)
    case SettleTie => 0 <= w1 <= MAX_ROUND_WINS && 0 <= w2 <= MAX_ROUND_WINS
    case MatchOver(w) => (w == 1 || w == 2) && 0 <= w1 <= MAX_ROUND_WINS && 0 <= w2 <= MAX_ROUND_WINS
    case Paused(p) =>
      match p
      case RoundBegin(_) => 0 <= w1 <= 1 && 0 <= w2 <= 1
      case RoundInPlay(_) => 0 <= w1 <= 1 && 0 <= w2 <= 1
      case SettleTie => 0 <= w1 <= MAX_ROUND_WINS && 0 <= w2 <= MAX_ROUND_WINS
      case _ => false
  }

  predicate Inv(c: Config) {
    StateInv(c.state, c.player1.numRoundWins, c.player2.numRoundWins)
  }

  /** Ending a round from a running round keeps the invariant, whenever the entry succeeds. */
  lemma EnterRoundEndedKeepsInv(c: Config, w: int)
    requires 0 <= c.player1.numRoundWins <= 1 && 0 <= c.player2.numRoundWins <= 1
    ensures EnterRoundEnded(c, w).ok ==> Inv(EnterRoundEnded(c, w).config)
    ensures w in {TIE_ROUND, PLAYER_1_WON_ROUND, PLAYER_2_WON_ROUND} ==> EnterRoundEnded(c, w).ok
  {
  }

  /**
   * Every tick keeps the invariant, so no player ever holds more than two
   * round wins; and a tick fails only when a round times out with nobody
   * knocked out.
   */
  lemma TickKeepsInv(c: Config, dT: real, hp1: int, hp2: int)
    requires Inv(c)
    ensures Inv(TickNext(c, dT, hp1, hp2).config)
    ensures !TickNext(c, dT, hp1, hp2).ok ==>
      c.state.RoundInPlay? && c.state.roundTime - dT <= 0.0 && hp1 > 0 && hp2 > 0
  {
    match c.state
    case RoundInPlay(t) => PlayTickKeepsInv(c, dT, hp1, hp2);
    case RoundEnded(w) => RoundEndedTickKeepsInv(c);
    case _ =>
  }

  /** A tick of a running round: the round goes on, or ends if it can be decided. */
  lemma PlayTickKeepsInv(c: Config, dT: real, hp1: int, hp2: int)
    requires Inv(c) && c.state.RoundInPlay?
    ensures Inv(TickNext(c, dT, hp1, hp2).config)
    ensures !TickNext(c, dT, hp1, hp2).ok ==> c.state.roundTime - dT <= 0.0 && hp1 > 0 && hp2 > 0
  {
    var t := c.state.roundTime;
    var played := c.(player1 := c.player1.(hitPoints := hp1),
                     player2 := c.player2.(hitPoints := hp2),
                     effects := c.effects + [ExecuteGameActions(dT)],
                     state := RoundInPlay(t - dT));
    if RoundOver(played, t - dT) {
      EnterRoundEndedKeepsInv(played, RoundWinner(played));
    }
  }

  /** A tick after a round: the next round begins or the match is over, never a failure. */
  lemma RoundEndedTickKeepsInv(c: Config)
    requires Inv(c) && c.state.RoundEnded?
    ensures Inv(RoundEndedTick(c).config) && RoundEndedTick(c).ok
  {
    if MatchIsOver(c) && !MatchIsTie(c) {
      assert RoundEndedTick(c).config.state == MatchOver(MatchWinner(c));
    }
  }

  /**
   * On every configuration the invariant allows, the corrected RoundEnded
   * tick differs from the one as written exactly on a tied round that gives
   * only one player a second win.
   */
  lemma CorrectionOnlyOnTiedDecidingRound(c: Config)
    requires Inv(c) && c.state.RoundEnded?
    ensures RoundEndedTick(c) != RoundEndedTickAsWritten(c, c.state.roundWinner) <==>
      c.state.roundWinner == TIE_ROUND && MatchIsOver(c) && !MatchIsTie(c)
  {
  }

  /** The other events keep the invariant too. */
  lemma OtherEventsKeepInv(c: Config)
    requires Inv(c)
    ensures Inv(CalibrateNext(c)) && Inv(StartGameNext(c))
    ensures Inv(TogglePauseNext(c)) && Inv(StopGameNext(c))
  {
  }

  /** The configuration of a freshly started game: Idle, after the Reset of IdleGameState. */
  function Initial(maxHitPoints: int): (c: Config)
    ensures Inv(c) && c.state == Idle
  {
    Config(Idle, Player(maxHitPoints, 0), Player(maxHitPoints, 0), true, maxHitPoints, [ResetGame])
  }

  // ---------------------------------------------------------------------------
  // The game object

  class SsfGame {
    var state: GameState
    var player1: Player
    var player2: Player
    var chipDamageOn: bool
    const maxHitPoints: int
    /** The calls made into collaborators, oldest first. */
    var effects: seq<Effect>

    function Snapshot(): Config
      reads this
    {
      Config(state, player1, player2, chipDamageOn, maxHitPoints, effects)
    }

    /** A new game starts in Idle, whose constructor resets the game. */
    constructor (maxHp: int)
      ensures Snapshot() == Initial(maxHp)
    {
      maxHitPoints := maxHp;
      chipDamageOn := true;
      state := Idle;
      player1 := Player(maxHp, 0);
      player2 := Player(maxHp, 0);
      effects := [ResetGame];
    }

    method SetIdle()
      modifies this
      ensures Snapshot() == EnterIdle(old(Snapshot()))
    {
      effects := effects + [ResetGame];
      player1 := Player(maxHitPoints, 0);
      player2 := Player(maxHitPoints, 0);
      state := Idle;
    }

    method SetRoundEnded(roundWinner: int) returns (ok: bool)
      modifies this
      ensures Outcome(ok, Snapshot()) == EnterRoundEnded(old(Snapshot()), roundWinner)
    {
      if roundWinner != TIE_ROUND && roundWinner != PLAYER_1_WON_ROUND && roundWinner != PLAYER_2_WON_ROUND {
        return false;
      }
      if roundWinner == TIE_ROUND {
        player1 := player1.(numRoundWins := player1.numRoundWins + 1);
        player2 := player2.(numRoundWins := player2.numRoundWins + 1);
      } else if roundWinner == PLAYER_1_WON_ROUND {
        player1 := player1.(numRoundWins := player1.numRoundWins + 1);
      } else {
        player2 := player2.(numRoundWins := player2.numRoundWins + 1);
      }
      if player1.numRoundWins > MAX_ROUND_WINS || player2.numRoundWins > MAX_ROUND_WINS {
        return false;
      }
      state := RoundEnded(roundWinner);
      ok := true;
    }

    method SetSettleTie()
      modifies this
      ensures Snapshot() == EnterSettleTie(old(Snapshot()))
    {
      chipDamageOn := false;
      player1 := player1.(hitPoints := maxHitPoints);
      player2 := player2.(hitPoints := maxHitPoints);
      effects := effects + [KillEmitters];
      state := SettleTie;
    }

    method SetMatchOver(winnerPlayerNum: int) returns (ok: bool)
      modifies this
      ensures Outcome(ok, Snapshot()) == EnterMatchOver(old(Snapshot()), winnerPlayerNum)
    {
      if winnerPlayerNum != 1 && winnerPlayerNum != 2 {
        return false;
      }
      state := MatchOver(winnerPlayerNum);
      ok := true;
    }

    /** The Tick event of the current state; `ok` is false when an assert of the source fails. */
    method Tick(dT: real, hp1: int, hp2: int) returns (ok: bool)
      modifies this
      ensures Outcome(ok, Snapshot()) == TickNext(old(Snapshot()), dT, hp1, hp2)
    {
      ok := true;
      match state
      case Idle =>
      case Calibration(t) =>
        if t >= CALIBRATION_LENGTH_IN_SECONDS {
          effects := effects + [FinalizeCalibration];
          SetIdle();
          return;
        }
        state := Calibration(t + dT);
      case RoundBegin(t) =>
        if t <= 0.0 {
          state := RoundInPlay(ROUND_TIME_IN_SECONDS);
          return;
        }
        state := RoundBegin(t - dT);
      case RoundInPlay(t) =>
        effects := effects + [ExecuteGameActions(dT)];
        player1 := player1.(hitPoints := hp1);
        player2 := player2.(hitPoints := hp2);
        var roundTime := t - dT;
        state := RoundInPlay(roundTime);
        if KnockedOut(player1) || KnockedOut(player2) || roundTime <= 0.0 {
          var winner := if KnockedOut(player1) then (if KnockedOut(player2) then TIE_ROUND else PLAYER_2_WON_ROUND)
                        else if KnockedOut(player2) then PLAYER_1_WON_ROUND
                        else -1;
          ok := SetRoundEnded(winner);
        }
      case RoundEnded(_) =>
        if player1.numRoundWins == 2 || player2.numRoundWins == 2 {
          if player1.numRoundWins == 2 && player2.numRoundWins == 2 {
            SetSettleTie();
          } else {
            ok := SetMatchOver(if player1.numRoundWins == 2 then 1 else 2);
          }
        } else {
          state := RoundBegin(COUNT_DOWN_TIME_IN_SECONDS);
        }
      case SettleTie =>
        effects := effects + [ExecuteGameActions(dT)];
        player1 := player1.(hitPoints := hp1);
        player2 := player2.(hitPoints := hp2);
        var player1IsHurt := player1.hitPoints < maxHitPoints;
        var player2IsHurt := player2.hitPoints < maxHitPoints;
        if player1IsHurt && player2IsHurt {
          player1 := player1.(hitPoints := maxHitPoints);
          player2 := player2.(hitPoints := maxHitPoints);
        } else if player1IsHurt {
          chipDamageOn := true;
          ok := SetMatchOver(2);
        } else if player2IsHurt {
          chipDamageOn := true;
          ok := SetMatchOver(1);
        }
      case MatchOver(_) =>
        SetIdle();
      case Paused(_) =>
    }

    method Calibrate()
      modifies this
      ensures Snapshot() == CalibrateNext(old(Snapshot()))
    {
      if state.Idle? {
        state := Calibration(0.0);
      }
    }

    method StartGame()
      modifies this
      ensures Snapshot() == StartGameNext(old(Snapshot()))
    {
      if state.Idle? {
        state := RoundInPlay(ROUND_TIME_IN_SECONDS);
      }
    }

    method TogglePauseGame()
      modifies this
      ensures Snapshot() == TogglePauseNext(old(Snapshot()))
    {
      match state
      case RoundBegin(_) => state := Paused(state);
      case RoundInPlay(_) => state := Paused(state);
      case SettleTie => state := Paused(state);
      case Paused(s) => state := s;
      case _ =>
    }

    method StopGame()
      modifies this
      ensures Snapshot() == StopGameNext(old(Snapshot()))
    {
      match state
      case Idle =>
      case Calibration(_) =>
      case SettleTie =>
        chipDamageOn := true;
        SetIdle();
      case _ =>
        SetIdle();
    }
  }
}
