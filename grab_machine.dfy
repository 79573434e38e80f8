/**
 * The per-hand grab state machine as values: the controller's fields, what the
 * engine answers during one update (`Frame`), and one function per handler of
 * `MyController`, combined by `Tick` exactly as `update` dispatches on the
 * state. Each handler returns the new controller fields and the new world.
 */
module GrabMachine {
  import opened Wrappers
  import opened GrabTypes
  import opened GrabMetadata
  import opened ActivationLedger
  import opened GrabSelect
  import opened GrabWorld

  const TRIGGER_SMOOTH_RATIO: real := 0.1
  const TRIGGER_ON_VALUE: real := 0.4
  const TRIGGER_OFF_VALUE: real := 0.15
  const BUMPER_ON_VALUE: real := 0.5

  const MSECS_PER_SEC: int := 1000
  const PICKS_PER_SECOND_PER_HAND: int := 5
  /** At most one pick ray per hand in this many milliseconds. */
  const PICK_INTERVAL_MSECS: int := MSECS_PER_SEC / PICKS_PER_SECOND_PER_HAND
  /** Seconds an action lives unless refreshed, and how close to expiry a held action is refreshed. */
  const ACTION_TTL: int := 15
  const ACTION_TTL_REFRESH: int := 5
  const EQUIP_SPRING_SHUTOFF_DISTANCE: real := 0.05

  /** `touchTest` ignores entities with this name. */
  const TOUCH_IGNORED_NAME: string := "pointer"

  /** The hand-relative offset a hold action keeps. */
  datatype Offset = Offset(position: Vec3, rotation: Quat)

  /** The fields of one `MyController` that its handlers read and write. */
  datatype Ctl = Ctl(
    hand: Hand,
    session: string,
    state: State,
    grabbedEntity: Option<EntityId>,
    actionID: Option<ActionId>,
    equipSpringID: Option<ActionId>,
    lastPickTime: int,
    actionTimeout: int,
    triggerValue: real,
    rawTriggerValue: real,
    rawBumperValue: real,
    offset: Offset,
    allTouchedIDs: set<EntityId>)

  function InitialCtl(hand: Hand, session: string): Ctl {
    Ctl(hand, session, Off, None, None, None, 0, 0, 0.0, 0.0, 0.0, Offset(ZERO_VEC, IDENTITY_QUAT), {})
  }

  /** An entity within touching distance of a palm and whether either palm is inside its bounding box. */
  datatype TouchProbe = TouchProbe(id: EntityId, name: string, leftTouching: bool, rightTouching: bool)

  /**
   * What the engine answers during one update: the clock, what the pick ray
   * hits, what lies within GRAB_RADIUS of the palm in the order the engine
   * lists it, the grabbed entity's "grabbableKey" data, what `addAction`
   * returns, the hold offset computed from the current poses, the distance
   * of an equip target, and the touch probes of both palms (left first).
   */
  datatype Frame = Frame(
    now: int,
    rayHit: Option<RayHit>,
    nearby: seq<Candidate>,
    grabbedData: GrabbableData,
    newActionId: ActionId,
    rigidOffset: Offset,
    equipDistance: real,
    touches: seq<TouchProbe>)

  datatype Machine = Machine(ctl: Ctl, world: WorldState)

  // ---------------------------------------------------------------- inputs

  /** `updateSmoothedTrigger`: each update moves the smoothed value nine tenths of the way to the raw value. */
  function SmoothedTrigger(c: Ctl): (r: Ctl)
    ensures r == c.(triggerValue := r.triggerValue)
    ensures r.triggerValue - c.rawTriggerValue == (c.triggerValue - c.rawTriggerValue) * TRIGGER_SMOOTH_RATIO
  {
    c.(triggerValue := c.triggerValue * TRIGGER_SMOOTH_RATIO + c.rawTriggerValue * (1.0 - TRIGGER_SMOOTH_RATIO))
  }

  predicate TriggerSmoothedSqueezed(c: Ctl) { c.triggerValue > TRIGGER_ON_VALUE }
  predicate TriggerSmoothedReleased(c: Ctl) { c.triggerValue < TRIGGER_OFF_VALUE }
  predicate BumperSqueezed(c: Ctl) { c.rawBumperValue > BUMPER_ON_VALUE }
  predicate BumperReleased(c: Ctl) { c.rawBumperValue < BUMPER_ON_VALUE }

  // ---------------------------------------------------------------- world helpers

  function Call(w: WorldState, e: EntityId, name: string): WorldState {
    Emit(w, CallEntityMethod(e, name))
  }

  /** `setRightHand` or `setLeftHand`, then `setHand`. */
  function SetHandCalls(w: WorldState, e: EntityId, hand: Hand): WorldState {
    Call(Call(w, e, if hand == RightHand then "setRightHand" else "setLeftHand"), e, "setHand")
  }

  function ActionTimeoutFrom(now: int): int {
    now + ACTION_TTL * MSECS_PER_SEC
  }

  /** The edit that makes a near-grabbed dynamic entity kinematic. */
  const KINEMATIC_EDIT: PropEdit := PropEdit(None, None, Some(false))

  /** `activateEntity`: the grab record is bumped and, for the first holder, the while-held edit is sent. */
  function Activation(w: WorldState, e: EntityId, session: string, invert: bool): (r: WorldState)
    ensures r.entities.Keys == w.entities.Keys
    ensures e in w.entities ==> EntityOf(r, e) == Activated(EntityOf(w, e), session, invert)
    ensures forall x :: x != e ==> EntityOf(r, x) == EntityOf(w, x)
    ensures r.log == w.log + if ReferenceCount(EntityOf(w, e)) == 0
                             then [EditEntity(e, WhileHeldEdit(EntityOf(w, e).props, invert))] else []
  {
    var ent := EntityOf(w, e);
    var w1 := match ActivationEdit(ent, invert) case Some(edit) => EditProps(w, e, edit) case None => w;
    Store(w1, e, EntityOf(w1, e).(grabData := Activated(ent, session, invert).grabData))
  }

  /** `deactivateEntity`: the grab record is dropped or decremented, and the last holder restores the properties. */
  function Deactivation(w: WorldState, e: Option<EntityId>): (r: WorldState)
    ensures e.None? ==> r == w
    ensures r.entities.Keys == w.entities.Keys
    ensures e.Some? && e.value in w.entities ==> EntityOf(r, e.value) == Deactivated(EntityOf(w, e.value))
    ensures forall x :: e != Some(x) ==> EntityOf(r, x) == EntityOf(w, x)
    ensures e.Some? ==> r.log == w.log + if ReferenceCount(EntityOf(w, e.value)) == 1
                                         then [EditEntity(e.value, RestoreEdit(EntityOf(w, e.value).grabData.value.saved))]
                                         else []
  {
    if e.None? then w
    else
      var id := e.value;
      var ent := EntityOf(w, id);
      var w1 := match DeactivationEdit(ent) case Some(edit) => EditProps(w, id, edit) case None => w;
      Store(w1, id, EntityOf(w1, id).(grabData := Deactivated(ent).grabData))
  }

  // ---------------------------------------------------------------- handlers

  /** `off`: a squeezed trigger starts a search, a squeezed bumper an equip search. */
  function OffStep(c: Ctl): Ctl {
    if TriggerSmoothedSqueezed(c) then c.(lastPickTime := 0, state := Searching)
    else if BumperSqueezed(c) then c.(lastPickTime := 0, state := EquipSearching)
    else c
  }

  /** One entity of `touchTest`: start, continue or stop touching it. */
  function TouchStep(m: Machine, p: TouchProbe): Machine {
    if p.name == TOUCH_IGNORED_NAME then m
    else
      var touching := p.leftTouching || p.rightTouching;
      var c := m.ctl;
      if touching && p.id !in c.allTouchedIDs then
        Machine(c.(allTouchedIDs := c.allTouchedIDs + {p.id}), Call(m.world, p.id, "startTouch"))
      else if touching && p.id in c.allTouchedIDs then
        Machine(c, Call(m.world, p.id, "continueTouch"))
      else if p.id in c.allTouchedIDs then
        Machine(c.(allTouchedIDs := c.allTouchedIDs - {p.id}), Call(m.world, p.id, "stopTouch"))
      else m
  }

  /** `touchTest`: the probes in order, left palm's first; an entity near both palms comes twice. */
  function TouchTest(m: Machine, probes: seq<TouchProbe>): Machine
    decreases |probes|
  {
    if |probes| == 0 then m else TouchTest(TouchStep(m, probes[0]), probes[1..])
  }

  /** `search`: release when the control is let go, else the pick ray, else the sphere test. */
  function SearchStep(c: Ctl, w: WorldState, f: Frame): Machine
    requires IsSearch(c.state)
  {
    var c0 := c.(grabbedEntity := None);
    if (if c.state == Searching then TriggerSmoothedReleased(c) else BumperReleased(c)) then
      Machine(c0.(state := Release), w)
    else PickStep(c0, w, f)
  }

  /** The search proper: the pick ray when it is due, and the sphere test when the ray gives nothing. */
  function PickStep(c: Ctl, w: WorldState, f: Frame): Machine
    requires IsSearch(c.state)
  {
    if f.now - c.lastPickTime > PICK_INTERVAL_MSECS then RayStep(c.(lastPickTime := f.now), Emit(w, PickRay(c.hand)), f)
    else SphereSearch(c, w, f.nearby)
  }

  /** After the pick ray is cast: the state its hit leads to, else the sphere test. */
  function RayStep(c: Ctl, w: WorldState, f: Frame): Machine
    requires IsSearch(c.state)
  {
    var outcome :=
      if f.rayHit.Some?
      then ClassifyHit(c.state, f.rayHit.value, GrabbedByOther(f.rayHit.value.view.actionTags, c.session))
      else None;
    if outcome.Some? then Machine(c.(grabbedEntity := Some(f.rayHit.value.view.id), state := outcome.value), w)
    else SphereSearch(c, w, f.nearby)
  }

  /** The sphere test of `search`: the nearest eligible entity, and the state it leads to. */
  function SphereSearch(c: Ctl, w: WorldState, nearby: seq<Candidate>): Machine
    requires IsSearch(c.state)
  {
    match NearestIndex(nearby)
    case None => Machine(c.(grabbedEntity := None), w)
    case Some(k) =>
      var cand := nearby[k];
      var c1 := c.(grabbedEntity := Some(cand.view.id));
      match SphereOutcome(c.state, cand)
      case None => Machine(c1, w)
      case Some(s) => Machine(c1.(state := s), w)
  }

  /** `distanceHolding`: add a tagged spring; on success activate the entity and start the distant grab. */
  function DistanceHoldingStep(c: Ctl, w: WorldState, f: Frame): Machine
    requires c.grabbedEntity.Some?
  {
    var e := c.grabbedEntity.value;
    var w1 := Emit(w, AddAction(Spring, e, Some(GetTag(c.session))));
    var c1 := c.(actionID := if f.newActionId == NULL_ACTION_ID then None else Some(f.newActionId),
                 actionTimeout := ActionTimeoutFrom(f.now));
    if c1.actionID.None? then Machine(c1, w1)
    else
      var w2 := Activation(w1, e, c.session, f.grabbedData.invertSolidWhileHeld);
      Machine(c1.(state := ContinueDistanceHolding), Call(SetHandCalls(w2, e, c.hand), e, "startDistantGrab"))
  }

  /** `continueDistanceHolding`: release, switch to equipping, or move the spring's target. */
  function ContinueDistanceHoldingStep(c: Ctl, w: WorldState, f: Frame): Machine
    requires c.grabbedEntity.Some? && c.actionID.Some?
  {
    var e := c.grabbedEntity.value;
    if TriggerSmoothedReleased(c) then Machine(c.(state := Release), Call(w, e, "releaseGrab"))
    else if c.state == ContinueDistanceHolding && BumperSqueezed(c) && f.grabbedData.spatialKey.Some? then
      var m := ReleaseStep(c, w);
      Machine(m.ctl.(state := Equip, grabbedEntity := Some(e)), m.world)
    else
      var w1 := Call(w, e, "continueDistantGrab");
      Machine(c.(actionTimeout := ActionTimeoutFrom(f.now)), Emit(w1, UpdateAction(e, c.actionID.value)))
  }

  /** The offset a hold keeps: the spatial key's when equipping an entity that has one, else the current one. */
  function HoldOffset(c: Ctl, f: Frame): Offset {
    if c.state != NearGrabbing && f.grabbedData.spatialKey.Some? then
      Offset(SpatialOffsetPosition(c.hand, f.grabbedData.spatialKey.value),
             SpatialOffsetRotation(c.hand, f.grabbedData.spatialKey.value))
    else f.rigidOffset
  }

  /** The activation of a successful near grab, followed by the kinematic edit for a dynamic entity. */
  function KinematicActivation(w: WorldState, e: EntityId, session: string, invert: bool, dynamic: bool): WorldState {
    var w1 := Activation(w, e, session, invert);
    if dynamic then EditProps(w1, e, KINEMATIC_EDIT) else w1
  }

  /** The end of a successful `nearGrabbing`: continue the near grab, or start equipping. */
  function NearGrabStarted(c: Ctl, w: WorldState, e: EntityId): Machine {
    var next := if c.state == NearGrabbing then ContinueNearGrabbing else ContinueEquipBumperDown;
    var w1 := if c.state == NearGrabbing then w else Call(w, e, "startEquip");
    Machine(c.(state := next), Call(SetHandCalls(w1, e, c.hand), e, "startNearGrab"))
  }

  /**
   * `nearGrabbing` (also run in the equip state): add a hold action; once it
   * exists, activate the entity and make it kinematic. The source activates
   * before adding the action; see NearGrabbingAsWritten.
   */
  function NearGrabbingStep(c: Ctl, w: WorldState, f: Frame): Machine
    requires c.grabbedEntity.Some?
  {
    var e := c.grabbedEntity.value;
    if c.state == NearGrabbing && TriggerSmoothedReleased(c) then Machine(c.(state := Release), Call(w, e, "releaseGrab"))
    else NearGrabHold(c.(offset := HoldOffset(c, f)), w, f)
  }

  /** The rest of `nearGrabbing`, once the offset is set: ask for the hold, and activate the entity if it was granted. */
  function NearGrabHold(c: Ctl, w: WorldState, f: Frame): Machine
    requires c.grabbedEntity.Some?
  {
    var e := c.grabbedEntity.value;
    var props := EntityOf(w, e).props;
    var w1 := Emit(w, AddAction(Hold, e, None));
    if f.newActionId == NULL_ACTION_ID then Machine(c.(actionID := None), w1)
    else
      var w2 := KinematicActivation(w1, e, c.session, f.grabbedData.invertSolidWhileHeld, props.collisionsWillMove);
      NearGrabStarted(c.(actionID := Some(f.newActionId), actionTimeout := ActionTimeoutFrom(f.now)), w2, e)
  }

  /** `continueNearGrabbing`, shared by the near-grab and the two equip states. */
  function ContinueNearGrabbingStep(c: Ctl, w: WorldState, f: Frame): Machine
    requires c.grabbedEntity.Some? && c.actionID.Some?
  {
    var e := c.grabbedEntity.value;
    if c.state == ContinueNearGrabbing && TriggerSmoothedReleased(c) then
      Machine(c.(state := Release), Call(w, e, "releaseGrab"))
    else if c.state == ContinueEquipBumperDown && BumperReleased(c) then Machine(c.(state := ContinueEquip), w)
    else if c.state == ContinueEquip && BumperSqueezed(c) then Machine(c.(state := WaitingForBumperRelease), w)
    else if c.state == ContinueNearGrabbing && BumperSqueezed(c) then
      Machine(c.(state := ContinueEquipBumperDown), Call(w, e, "startEquip"))
    else
      var w1 := Call(w, e, "continueNearGrab");
      var w2 := if c.state == ContinueEquipBumperDown then Call(w1, e, "continueEquip") else w1;
      if c.actionTimeout - f.now < ACTION_TTL_REFRESH * MSECS_PER_SEC then
        Machine(c.(actionTimeout := ActionTimeoutFrom(f.now)), Emit(w2, UpdateAction(e, c.actionID.value)))
      else Machine(c, w2)
  }

  /** `waitingForBumperRelease`: letting go of the bumper unequips. */
  function WaitingForBumperReleaseStep(c: Ctl, w: WorldState): Machine
    requires c.grabbedEntity.Some?
  {
    var e := c.grabbedEntity.value;
    if BumperReleased(c) then Machine(c.(state := Release), Call(Call(w, e, "releaseGrab"), e, "unequip"))
    else Machine(c, w)
  }

  /** Whether `pullTowardEquipPosition` has no spring yet (undefined, null or the null id). */
  predicate SpringAbsent(c: Ctl) {
    c.equipSpringID.None? || c.equipSpringID == Some(NULL_ACTION_ID)
  }

  /** `pullTowardEquipPosition`: pull the entity with a spring until it is close, then equip it. */
  function PullTowardEquipPositionStep(c: Ctl, w: WorldState, f: Frame): Machine
    requires c.grabbedEntity.Some?
  {
    var e := c.grabbedEntity.value;
    if SpringAbsent(c) then
      var w1 := Emit(w, AddAction(Spring, e, None));
      if f.newActionId == NULL_ACTION_ID then Machine(c.(equipSpringID := None, state := Off), w1)
      else SpringArrived(c.(equipSpringID := Some(f.newActionId)), w1, f)
    else SpringArrived(c, Emit(w, UpdateAction(e, c.equipSpringID.value)), f)
  }

  function SpringArrived(c: Ctl, w: WorldState, f: Frame): Machine
    requires c.grabbedEntity.Some? && c.equipSpringID.Some?
  {
    if f.equipDistance < EQUIP_SPRING_SHUTOFF_DISTANCE then
      Machine(c.(equipSpringID := None, state := Equip), Emit(w, DeleteAction(c.grabbedEntity.value, c.equipSpringID.value)))
    else Machine(c, w)
  }

  /** `nearTrigger` and `farTrigger`: stop on release, else announce the hand and start. */
  function TriggerStartStep(c: Ctl, w: WorldState, stopName: string, startName: string, next: State): Machine
    requires c.grabbedEntity.Some?
  {
    var e := c.grabbedEntity.value;
    if TriggerSmoothedReleased(c) then Machine(c.(state := Release), Call(w, e, stopName))
    else Machine(c.(state := next), Call(SetHandCalls(w, e, c.hand), e, startName))
  }

  function NearTriggerStep(c: Ctl, w: WorldState): Machine
    requires c.grabbedEntity.Some?
  {
    TriggerStartStep(c, w, "stopNearTrigger", "startNearTrigger", ContinueNearTrigger)
  }

  function FarTriggerStep(c: Ctl, w: WorldState): Machine
    requires c.grabbedEntity.Some?
  {
    TriggerStartStep(c, w, "stopFarTrigger", "startFarTrigger", ContinueFarTrigger)
  }

  /** `continueNearTrigger`. */
  function ContinueNearTriggerStep(c: Ctl, w: WorldState): Machine
    requires c.grabbedEntity.Some?
  {
    var e := c.grabbedEntity.value;
    if TriggerSmoothedReleased(c) then Machine(c.(state := Release), Call(w, e, "stopNearTrigger"))
    else Machine(c, Call(w, e, "continueNearTrigger"))
  }

  /**
   * `continueFarTrigger` with the call made when the trigger is let go passed
   * in: on release stop; every PICK_INTERVAL_MSECS recast the ray and stop when
   * it no longer hits the entity; otherwise continue.
   */
  function ContinueFarTriggerWith(c: Ctl, w: WorldState, f: Frame, releaseCall: string): Machine
    requires c.grabbedEntity.Some?
  {
    var e := c.grabbedEntity.value;
    if TriggerSmoothedReleased(c) then Machine(c.(state := Release), Call(w, e, releaseCall))
    else if f.now - c.lastPickTime > PICK_INTERVAL_MSECS then
      var c1 := c.(lastPickTime := f.now);
      var w1 := Emit(w, PickRay(c.hand));
      if !(f.rayHit.Some? && f.rayHit.value.view.id == e) then Machine(c1.(state := Release), Call(w1, e, "stopFarTrigger"))
      else Machine(c1, Call(w1, e, "continueFarTrigger"))
    else Machine(c, Call(w, e, "continueFarTrigger"))
  }

  /** `continueFarTrigger`, stopping the far trigger whichever way it ends; see ContinueFarTriggerAsWritten. */
  function ContinueFarTriggerStep(c: Ctl, w: WorldState, f: Frame): Machine
    requires c.grabbedEntity.Some?
  {
    ContinueFarTriggerWith(c, w, f, "stopFarTrigger")
  }

  /** The fields `release` resets. */
  function Reset(c: Ctl): Ctl {
    c.(grabbedEntity := None, actionID := None, state := Off)
  }

  /**
   * `release`: delete this hand's action and undo its activation, then go idle.
   * The source deactivates the entity even when this hand holds no action on
   * it; see ReleaseAsWritten.
   */
  function ReleaseStep(c: Ctl, w: WorldState): Machine {
    if c.grabbedEntity.Some? && c.actionID.Some? then
      var w1 := Emit(w, DeleteAction(c.grabbedEntity.value, c.actionID.value));
      Machine(Reset(c), Deactivation(w1, c.grabbedEntity))
    else Machine(Reset(c), w)
  }

  // ---------------------------------------------------------------- the machine

  /** The states in which `grabbedEntity` names the entity being handled. */
  predicate NeedsEntity(s: State) {
    s !in {Off, Searching, EquipSearching, Release}
  }

  /** The states in which this hand holds an action on its entity. */
  predicate HoldsAction(s: State) {
    s in {ContinueDistanceHolding, ContinueNearGrabbing, ContinueEquipBumperDown, ContinueEquip, WaitingForBumperRelease}
  }

  /**
   * What every update keeps true of the controller: the entity-handling states
   * have an entity, the holding states have an action on it, no other state
   * but Release has one, and the null action id is never stored.
   */
  predicate ValidCtl(c: Ctl) {
    (NeedsEntity(c.state) ==> c.grabbedEntity.Some?)
    && (HoldsAction(c.state) ==> c.actionID.Some?)
    && (!HoldsAction(c.state) && c.state != Release ==> c.actionID.None?)
    && (c.actionID.Some? ==> c.actionID.value != NULL_ACTION_ID && c.grabbedEntity.Some?)
    && c.equipSpringID != Some(NULL_ACTION_ID)
  }

  /** `update`: smooth the trigger, then run the current state's handler. */
  function Tick(c: Ctl, w: WorldState, f: Frame): Machine
    requires ValidCtl(c)
  {
    Handle(SmoothedTrigger(c), w, f)
  }

  /** The switch of `update`: the handler of the current state. */
  function Handle(c1: Ctl, w: WorldState, f: Frame): Machine
    requires ValidCtl(c1)
  {
    match c1.state
    case Off => TouchTest(Machine(OffStep(c1), w), f.touches)
    case Searching => SearchStep(c1, w, f)
    case EquipSearching => SearchStep(c1, w, f)
    case DistanceHolding => DistanceHoldingStep(c1, w, f)
    case ContinueDistanceHolding => ContinueDistanceHoldingStep(c1, w, f)
    case NearGrabbing => NearGrabbingStep(c1, w, f)
    case Equip => NearGrabbingStep(c1, w, f)
    case WaitingForBumperRelease => WaitingForBumperReleaseStep(c1, w)
    case EquipSpring => PullTowardEquipPositionStep(c1, w, f)
    case ContinueNearGrabbing => ContinueNearGrabbingStep(c1, w, f)
    case ContinueEquipBumperDown => ContinueNearGrabbingStep(c1, w, f)
    case ContinueEquip => ContinueNearGrabbingStep(c1, w, f)
    case NearTrigger => NearTriggerStep(c1, w)
    case ContinueNearTrigger => ContinueNearTriggerStep(c1, w)
    case FarTrigger => FarTriggerStep(c1, w)
    case ContinueFarTrigger => ContinueFarTriggerStep(c1, w, f)
    case Release => ReleaseStep(c1, w)
  }
}
