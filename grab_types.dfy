/**
 * The vocabulary of the hand-controller grab script: entity and action
 * identifiers, the two hands, and the seventeen states of the per-hand state
 * machine with their numeric codes and display names.
 */
module GrabTypes {
  import opened Wrappers

  /** Entity and action identifiers are UUID strings. */
  type EntityId = string
  type ActionId = string

  /** What `Entities.addAction` returns when it could not create the action. */
  const NULL_ACTION_ID: ActionId := "{00000000-0000-0000-000000000000}"

  /** LEFT_HAND is 0 and RIGHT_HAND is 1. */
  datatype Hand = LeftHand | RightHand

  datatype State =
    | Off
    | Searching
    | DistanceHolding
    | ContinueDistanceHolding
    | NearGrabbing
    | ContinueNearGrabbing
    | NearTrigger
    | ContinueNearTrigger
    | FarTrigger
    | ContinueFarTrigger
    | Release
    | EquipSearching
    | Equip
    | ContinueEquipBumperDown
    | ContinueEquip
    | WaitingForBumperRelease
    | EquipSpring

  const NUM_STATES: nat := 17

  /** The numeric code of a state (STATE_OFF = 0 ... STATE_EQUIP_SPRING = 16). */
  function Code(s: State): (n: nat)
    ensures n < NUM_STATES
  {
    match s
    case Off => 0
    case Searching => 1
    case DistanceHolding => 2
    case ContinueDistanceHolding => 3
    case NearGrabbing => 4
    case ContinueNearGrabbing => 5
    case NearTrigger => 6
    case ContinueNearTrigger => 7
    case FarTrigger => 8
    case ContinueFarTrigger => 9
    case Release => 10
    case EquipSearching => 11
    case Equip => 12
    case ContinueEquipBumperDown => 13
    case ContinueEquip => 14
    case WaitingForBumperRelease => 15
    case EquipSpring => 16
  }

  /** The state a numeric code stands for, if any. */
  function FromCode(n: int): (r: Option<State>)
    ensures r.Some? <==> 0 <= n < NUM_STATES
    ensures r.Some? ==> Code(r.value) == n
  {
    if n == 0 then Some(Off)
    else if n == 1 then Some(Searching)
    else if n == 2 then Some(DistanceHolding)
    else if n == 3 then Some(ContinueDistanceHolding)
    else if n == 4 then Some(NearGrabbing)
    else if n == 5 then Some(ContinueNearGrabbing)
    else if n == 6 then Some(NearTrigger)
    else if n == 7 then Some(ContinueNearTrigger)
    else if n == 8 then Some(FarTrigger)
    else if n == 9 then Some(ContinueFarTrigger)
    else if n == 10 then Some(Release)
    else if n == 11 then Some(EquipSearching)
    else if n == 12 then Some(Equip)
    else if n == 13 then Some(ContinueEquipBumperDown)
    else if n == 14 then Some(ContinueEquip)
    else if n == 15 then Some(WaitingForBumperRelease)
    else if n == 16 then Some(EquipSpring)
    else None
  }

  /** Codes identify states: decoding a state's code gives the state back. */
  lemma CodeRoundTrip(s: State)
    ensures FromCode(Code(s)) == Some(s)
  {
    match s
    case Off =>
    case Searching =>
    case DistanceHolding =>
    case ContinueDistanceHolding =>
    case NearGrabbing =>
    case ContinueNearGrabbing =>
    case NearTrigger =>
    case ContinueNearTrigger =>
    case FarTrigger =>
    case ContinueFarTrigger =>
    case Release =>
    case EquipSearching =>
    case Equip =>
    case ContinueEquipBumperDown =>
    case ContinueEquip =>
    case WaitingForBumperRelease =>
    case EquipSpring =>
  }

  /** The display name of a state code; any other number is "unknown". */
  function StateToName(state: int): (name: string)
    ensures name == "unknown" <==> FromCode(state).None?
  {
    match FromCode(state)
    case None => "unknown"
    case Some(s) =>
      match s
      case Off => "off"
      case Searching => "searching"
      case DistanceHolding => "distance_holding"
      case ContinueDistanceHolding => "continue_distance_holding"
      case NearGrabbing => "near_grabbing"
      case ContinueNearGrabbing => "continue_near_grabbing"
      case NearTrigger => "near_trigger"
      case ContinueNearTrigger => "continue_near_trigger"
      case FarTrigger => "far_trigger"
      case ContinueFarTrigger => "continue_far_trigger"
      case Release => "release"
      case EquipSearching => "equip_searching"
      case Equip => "equip"
      case ContinueEquipBumperDown => "continue_equip_bd"
      case ContinueEquip => "continue_equip"
      case WaitingForBumperRelease => "waiting_for_bumper_release"
      case EquipSpring => "state_equip_spring"
  }

  /**
   * The inverse of StateToName on the names it gives to states. The
   * seventeen names have seventeen different lengths, so the length picks
   * the one candidate.
   */
  function NameToState(name: string): Option<State> {
    match |name|
    case 3 => if name == "off" then Some(Off) else None
    case 5 => if name == "equip" then Some(Equip) else None
    case 7 => if name == "release" then Some(Release) else None
    case 9 => if name == "searching" then Some(Searching) else None
    case 11 => if name == "far_trigger" then Some(FarTrigger) else None
    case 12 => if name == "near_trigger" then Some(NearTrigger) else None
    case 13 => if name == "near_grabbing" then Some(NearGrabbing) else None
    case 14 => if name == "continue_equip" then Some(ContinueEquip) else None
    case 15 => if name == "equip_searching" then Some(EquipSearching) else None
    case 16 => if name == "distance_holding" then Some(DistanceHolding) else None
    case 17 => if name == "continue_equip_bd" then Some(ContinueEquipBumperDown) else None
    case 18 => if name == "state_equip_spring" then Some(EquipSpring) else None
    case 20 => if name == "continue_far_trigger" then Some(ContinueFarTrigger) else None
    case 21 => if name == "continue_near_trigger" then Some(ContinueNearTrigger) else None
    case 22 => if name == "continue_near_grabbing" then Some(ContinueNearGrabbing) else None
    case 25 => if name == "continue_distance_holding" then Some(ContinueDistanceHolding) else None
    case 26 => if name == "waiting_for_bumper_release" then Some(WaitingForBumperRelease) else None
    case _ => None
  }

  /** Every state has its own name: the name of a state's code determines the state. */
  lemma NamesIdentifyStates(s: State)
    ensures NameToState(StateToName(Code(s))) == Some(s)
  {
    CodeRoundTrip(s);
  }

  /** Hence two different states never share a display name. */
  lemma NamesDistinct(s: State, t: State)
    requires s != t
    ensures StateToName(Code(s)) != StateToName(Code(t))
  {
    NamesIdentifyStates(s);
    NamesIdentifyStates(t);
  }
}
