/**
 * GestureType: the table of one- and two-handed gestures the recogniser
 * knows, each with its Hidden-Markov-model size, the game action it builds,
 * its genre, its minimum fierceness threshold and the hands it uses; the
 * number of hands is derived once, when the constant is built.
 */
module GestureTypes {

  /** ActionFactory.PlayerActionType, as far as the table uses it. */
  datatype PlayerActionType =
    | BLOCK | JAB_ATTACK | HOOK_ATTACK | UPPERCUT_ATTACK | CHOP_ATTACK
    | HADOUKEN_ATTACK | SHORYUKEN_ATTACK | SONIC_BOOM_ATTACK
    | DOUBLE_LARIAT_ATTACK | QUADRUPLE_LARIAT_ATTACK | SUMO_HEADBUTT_ATTACK
    | ONE_HUNDRED_HAND_SLAP_ATTACK | PSYCHO_CRUSHER_ATTACK
    | YMCA_ATTACK | NYAN_CAT_ATTACK | DISCO_STU_ATTACK | ARM_WINDMILL_ATTACK | SUCK_IT_ATTACK

  datatype GestureGenre = BASIC | SPECIAL | EASTER_EGG

  datatype GestureType =
    | LEFT_BLOCK | RIGHT_BLOCK | TWO_HANDED_BLOCK
    | LEFT_JAB | LEFT_HOOK | LEFT_UPPERCUT | LEFT_CHOP
    | RIGHT_JAB | RIGHT_HOOK | RIGHT_UPPERCUT | RIGHT_CHOP
    | HADOUKEN | LEFT_SHORYUKEN | RIGHT_SHORYUKEN | SONIC_BOOM
    | DOUBLE_LARIAT | QUADRUPLE_LARIAT | SUMO_HEADBUTT
    | LEFT_ONE_HUNDRED_HAND_SLAP | RIGHT_ONE_HUNDRED_HAND_SLAP | TWO_HANDED_ONE_HUNDRED_HAND_SLAP
    | PSYCHO_CRUSHER
    | YMCA | NYAN_CAT | DISCO_STU | ARM_WINDMILL | SUCK_IT

  /** The arguments each constant passes to the enum constructor. */
  datatype Row = Row(
    numHmmNodes: int, actionFactoryType: PlayerActionType, genre: GestureGenre,
    minimumFiercenessDiff: real, leftHand: bool, rightHand: bool)

  /** The final fields of a constant once its constructor has run. */
  datatype GestureInfo = GestureInfo(
    actionFactoryType: PlayerActionType, leftHanded: bool, rightHanded: bool,
    genre: GestureGenre, minimumFiercenessDiff: real, numHands: int, numHmmNodes: int)

  /**
   * The table of constants, in declaration order of their arguments. Its
   * shape: blocks have 2 model nodes, other one-handed gestures 4 and other
   * two-handed gestures 5; thresholds are never negative; the basic gestures
   * are exactly the blocks and the four one-handed punches of each hand; and
   * every easter egg is two-handed with no threshold.
   */
  function RowOf(t: GestureType): (r: Row)
    ensures r.leftHand || r.rightHand
    ensures r.numHmmNodes == if r.actionFactoryType == BLOCK then 2 else if r.leftHand && r.rightHand then 5 else 4
    ensures r.minimumFiercenessDiff >= 0.0
    ensures r.genre == BASIC <==> r.actionFactoryType in {BLOCK, JAB_ATTACK, HOOK_ATTACK, UPPERCUT_ATTACK, CHOP_ATTACK}
    ensures r.genre == BASIC && r.actionFactoryType != BLOCK ==> r.leftHand != r.rightHand
    ensures r.genre == EASTER_EGG ==> r.leftHand && r.rightHand && r.minimumFiercenessDiff == 0.0
  {
    match t
    case LEFT_BLOCK => Row(2, BLOCK, BASIC, 0.0, true, false)
    case RIGHT_BLOCK => Row(2, BLOCK, BASIC, 0.0, false, true)
    case TWO_HANDED_BLOCK => Row(2, BLOCK, BASIC, 0.0, true, true)
    case LEFT_JAB => Row(4, JAB_ATTACK, BASIC, 9000.0, true, false)
    case LEFT_HOOK => Row(4, HOOK_ATTACK, BASIC, 10000.0, true, false)
    case LEFT_UPPERCUT => Row(4, UPPERCUT_ATTACK, BASIC, 10000.0, true, false)
    case LEFT_CHOP => Row(4, CHOP_ATTACK, BASIC, 10000.0, true, false)
    case RIGHT_JAB => Row(4, JAB_ATTACK, BASIC, 9000.0, false, true)
    case RIGHT_HOOK => Row(4, HOOK_ATTACK, BASIC, 10000.0, false, true)
    case RIGHT_UPPERCUT => Row(4, UPPERCUT_ATTACK, BASIC, 10000.0, false, true)
    case RIGHT_CHOP => Row(4, CHOP_ATTACK, BASIC, 10000.0, false, true)
    case HADOUKEN => Row(5, HADOUKEN_ATTACK, SPECIAL, 9000.0, true, true)
    case LEFT_SHORYUKEN => Row(4, SHORYUKEN_ATTACK, SPECIAL, 22000.0, true, false)
    case RIGHT_SHORYUKEN => Row(4, SHORYUKEN_ATTACK, SPECIAL, 22000.0, false, true)
    case SONIC_BOOM => Row(5, SONIC_BOOM_ATTACK, SPECIAL, 0.0, true, true)
    case DOUBLE_LARIAT => Row(5, DOUBLE_LARIAT_ATTACK, SPECIAL, 0.0, true, true)
    case QUADRUPLE_LARIAT => Row(5, QUADRUPLE_LARIAT_ATTACK, SPECIAL, 0.0, true, true)
    case SUMO_HEADBUTT => Row(5, SUMO_HEADBUTT_ATTACK, SPECIAL, 0.0, true, true)
    case LEFT_ONE_HUNDRED_HAND_SLAP => Row(4, ONE_HUNDRED_HAND_SLAP_ATTACK, SPECIAL, 25000.0, true, false)
    case RIGHT_ONE_HUNDRED_HAND_SLAP => Row(4, ONE_HUNDRED_HAND_SLAP_ATTACK, SPECIAL, 25000.0, false, true)
    case TWO_HANDED_ONE_HUNDRED_HAND_SLAP => Row(5, ONE_HUNDRED_HAND_SLAP_ATTACK, SPECIAL, 25000.0, true, true)
    case PSYCHO_CRUSHER => Row(5, PSYCHO_CRUSHER_ATTACK, SPECIAL, 0.0, true, true)
    case YMCA => Row(5, YMCA_ATTACK, EASTER_EGG, 0.0, true, true)
    case NYAN_CAT => Row(5, NYAN_CAT_ATTACK, EASTER_EGG, 0.0, true, true)
    case DISCO_STU => Row(5, DISCO_STU_ATTACK, EASTER_EGG, 0.0, true, true)
    case ARM_WINDMILL => Row(5, ARM_WINDMILL_ATTACK, EASTER_EGG, 0.0, true, true)
    case SUCK_IT => Row(5, SUCK_IT_ATTACK, EASTER_EGG, 0.0, true, true)
  }

  /** The constructor's hand count: one for each hand flag that is set. */
  function CountHands(leftHand: bool, rightHand: bool): (count: int)
    ensures 0 <= count <= 2
    ensures count == 0 <==> !leftHand && !rightHand
    ensures count == 2 <==> leftHand && rightHand
  {
    (if leftHand then 1 else 0) + (if rightHand then 1 else 0)
  }

  /**
   * The enum constructor: asserts a positive model size and at least one
   * hand, stores its arguments and derives the hand count.
   */
  function Construct(row: Row): (info: GestureInfo)
    requires row.numHmmNodes > 0 && (row.leftHand || row.rightHand)
    ensures 1 <= info.numHands <= 2
    ensures info.numHands == 2 <==> info.leftHanded && info.rightHanded
    ensures info.numHmmNodes > 0 && (info.leftHanded || info.rightHanded)
  {
    GestureInfo(row.actionFactoryType, row.leftHand, row.rightHand, row.genre,
                row.minimumFiercenessDiff, CountHands(row.leftHand, row.rightHand), row.numHmmNodes)
  }

  /** Every row of the table passes the constructor's asserts. */
  lemma RowsAreValid(t: GestureType)
    ensures RowOf(t).numHmmNodes > 0 && (RowOf(t).leftHand || RowOf(t).rightHand)
  {
  }

  /** The constant `t` as the enum builds it. */
  function Info(t: GestureType): GestureInfo {
    RowsAreValid(t);
    Construct(RowOf(t))
  }

  // The getters, each tied to the argument the constant was declared with.

  function GetActionFactoryType(t: GestureType): (a: PlayerActionType)
    ensures a == RowOf(t).actionFactoryType
  {
    Info(t).actionFactoryType
  }

  function GetNumHands(t: GestureType): (n: int)
    ensures 1 <= n <= 2
    ensures n == 2 <==> RowOf(t).leftHand && RowOf(t).rightHand
  {
    Info(t).numHands
  }

  function GetUsesLeftHand(t: GestureType): (left: bool)
    ensures left == RowOf(t).leftHand
  {
    Info(t).leftHanded
  }

  function GetUsesRightHand(t: GestureType): (right: bool)
    ensures right == RowOf(t).rightHand
  {
    Info(t).rightHanded
  }

  function GetGenre(t: GestureType): (g: GestureGenre)
    ensures g == RowOf(t).genre
  {
    Info(t).genre
  }

  function GetMinFierceDiffThreshold(t: GestureType): (d: real)
    ensures d == RowOf(t).minimumFiercenessDiff && d >= 0.0
  {
    Info(t).minimumFiercenessDiff
  }

  function GetNumHmmNodes(t: GestureType): (n: int)
    ensures n == RowOf(t).numHmmNodes && n > 0
  {
    Info(t).numHmmNodes
  }

  /** The getters hand back the constructor's arguments unchanged. */
  lemma GettersReturnArguments(t: GestureType)
    ensures GetActionFactoryType(t) == RowOf(t).actionFactoryType
    ensures GetUsesLeftHand(t) == RowOf(t).leftHand && GetUsesRightHand(t) == RowOf(t).rightHand
    ensures GetGenre(t) == RowOf(t).genre
    ensures GetMinFierceDiffThreshold(t) == RowOf(t).minimumFiercenessDiff
    ensures GetNumHmmNodes(t) == RowOf(t).numHmmNodes
  {
  }

  /** Every gesture uses a hand, and numHands counts the hands it uses. */
  lemma HandsOfEveryGesture(t: GestureType)
    ensures GetUsesLeftHand(t) || GetUsesRightHand(t)
    ensures 1 <= GetNumHands(t) <= 2
    ensures GetNumHands(t) == 2 <==> GetUsesLeftHand(t) && GetUsesRightHand(t)
    ensures GetNumHands(t) == (if GetUsesLeftHand(t) then 1 else 0) + (if GetUsesRightHand(t) then 1 else 0)
  {
  }

  /** Every gesture has a positive number of model nodes. */
  lemma HmmNodesPositive(t: GestureType)
    ensures GetNumHmmNodes(t) > 0
  {
  }

  /** The blocks: exactly the three block types build BLOCK, all with no threshold, one per hand combination. */
  lemma BlockTypes(t: GestureType)
    ensures GetActionFactoryType(t) == BLOCK <==> t in {LEFT_BLOCK, RIGHT_BLOCK, TWO_HANDED_BLOCK}
    ensures GetActionFactoryType(t) == BLOCK ==> GetMinFierceDiffThreshold(t) == 0.0
    ensures t == LEFT_BLOCK ==> GetUsesLeftHand(t) && !GetUsesRightHand(t)
    ensures t == RIGHT_BLOCK ==> !GetUsesLeftHand(t) && GetUsesRightHand(t)
    ensures t == TWO_HANDED_BLOCK ==> GetUsesLeftHand(t) && GetUsesRightHand(t)
  {
  }
}
