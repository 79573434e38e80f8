/**
 * Properties of the event log and the entity store that hold over many
 * updates: the pick-ray rate limit, the pairing of touch calls, and the
 * accounting that makes every grab undo its own activation.
 */
module GrabAccounting {
  import opened Wrappers
  import opened GrabTypes
  import opened GrabMetadata
  import opened ActivationLedger
  import opened GrabSelect
  import opened GrabWorld
  import opened GrabMachine
  import opened GrabTheorems

  // ---------------------------------------------------------------- pick rays

  /** How many pick rays the log records. */
  function RayCount(log: seq<Event>): nat {
    if |log| == 0 then 0 else RayCount(log[..|log| - 1]) + (if log[|log| - 1].PickRay? then 1 else 0)
  }

  lemma RayCountAppend()
    ensures forall a: seq<Event>, e: Event {:trigger RayCount(a + [e])} ::
              RayCount(a + [e]) == RayCount(a) + (if e.PickRay? then 1 else 0)
  {
    forall a: seq<Event>, e: Event
      ensures RayCount(a + [e]) == RayCount(a) + (if e.PickRay? then 1 else 0)
    {
      assert (a + [e])[..|a|] == a;
    }
  }

  lemma {:induction false} TouchTestCastsNoRay(m: Machine, probes: seq<TouchProbe>)
    ensures RayCount(TouchTest(m, probes).world.log) == RayCount(m.world.log)
    decreases |probes|
  {
    RayCountAppend();
    if |probes| > 0 {
      TouchTestCastsNoRay(TouchStep(m, probes[0]), probes[1..]);
    }
  }

  /** Whether this update casts a pick ray: a search or a far trigger still held, with the interval elapsed. */
  predicate CastsRay(c: Ctl, f: Frame) {
    var c1 := SmoothedTrigger(c);
    f.now - c.lastPickTime > PICK_INTERVAL_MSECS
    && ((c1.state == Searching && !TriggerSmoothedReleased(c1))
        || (c1.state == EquipSearching && !BumperReleased(c1))
        || (c1.state == ContinueFarTrigger && !TriggerSmoothedReleased(c1)))
  }

  /**
   * An update casts at most one ray, exactly when CastsRay says so, and a cast
   * moves the pick clock to now; otherwise only leaving idle moves it (to 0).
   */
  lemma TickRayAccounting(c: Ctl, w: WorldState, f: Frame)
    requires ValidCtl(c)
    ensures var m := Tick(c, w, f);
      RayCount(m.world.log) == RayCount(w.log) + (if CastsRay(c, f) then 1 else 0)
      && (CastsRay(c, f) ==> m.ctl.lastPickTime == f.now)
      && (!CastsRay(c, f) && m.ctl.lastPickTime != c.lastPickTime ==> c.state == Off && m.ctl.lastPickTime == 0)
  {
    var s := SmoothedTrigger(c).state;
    if s == Off || s == Searching || s == EquipSearching || s == ContinueFarTrigger || s == Release {
      RayAccountingPicking(c, w, f);
    } else if s == DistanceHolding || s == ContinueDistanceHolding {
      RayAccountingDistance(c, w, f);
    } else if s == NearGrabbing || s == Equip || s == EquipSpring {
      RayAccountingNear(c, w, f);
    } else {
      RayAccountingCallsOnly(c, w, f);
    }
  }

  /** The ray facts of one update, as TickRayAccounting states them. */
  ghost predicate RayFacts(c: Ctl, w: WorldState, f: Frame)
    requires ValidCtl(c)
  {
    var m := Tick(c, w, f);
    RayCount(m.world.log) == RayCount(w.log) + (if CastsRay(c, f) then 1 else 0)
    && (CastsRay(c, f) ==> m.ctl.lastPickTime == f.now)
    && (!CastsRay(c, f) && m.ctl.lastPickTime != c.lastPickTime ==> c.state == Off && m.ctl.lastPickTime == 0)
  }

  lemma RayAccountingPicking(c: Ctl, w: WorldState, f: Frame)
    requires ValidCtl(c)
    requires var s := SmoothedTrigger(c).state;
      s == Off || s == Searching || s == EquipSearching || s == ContinueFarTrigger || s == Release
    ensures RayFacts(c, w, f)
  {
    var c1 := SmoothedTrigger(c);
    var x, o := "", MISSING_ENTITY.props;
    match c1.state
    case Off => OffAccounted(c1, w, f, x, o);
    case Searching => RaySearchAccounting(c1, w, f);
    case EquipSearching => RaySearchAccounting(c1, w, f);
    case ContinueFarTrigger => ContinueFarTriggerAccounted(c1, w, f, x, o);
    case Release => ReleaseAccounted(c1, w, x, o);
  }

  lemma RayAccountingDistance(c: Ctl, w: WorldState, f: Frame)
    requires ValidCtl(c)
    requires var s := SmoothedTrigger(c).state; s == DistanceHolding || s == ContinueDistanceHolding
    ensures RayFacts(c, w, f)
  {
    var c1 := SmoothedTrigger(c);
    var x, o := "", MISSING_ENTITY.props;
    if c1.state == DistanceHolding {
      DistanceHoldingAccounted(c1, w, f, x, o);
    } else {
      ContinueDistanceHoldingAccounted(c1, w, f, x, o);
    }
  }

  lemma RayAccountingNear(c: Ctl, w: WorldState, f: Frame)
    requires ValidCtl(c)
    requires var s := SmoothedTrigger(c).state; s == NearGrabbing || s == Equip || s == EquipSpring
    ensures RayFacts(c, w, f)
  {
    var c1 := SmoothedTrigger(c);
    var x, o := "", MISSING_ENTITY.props;
    if c1.state == EquipSpring {
      EquipSpringAccounted(c1, w, f, x, o);
    } else {
      NearGrabbingAccounted(c1, w, f, x, o);
    }
  }

  lemma RayAccountingCallsOnly(c: Ctl, w: WorldState, f: Frame)
    requires ValidCtl(c)
    requires var s := SmoothedTrigger(c).state;
      s == WaitingForBumperRelease || s == ContinueNearGrabbing || s == ContinueEquipBumperDown
      || s == ContinueEquip || s == NearTrigger || s == ContinueNearTrigger || s == FarTrigger
    ensures RayFacts(c, w, f)
  {
    var c1 := SmoothedTrigger(c);
    match c1.state
    case WaitingForBumperRelease => TriggerCallsOnly(c1, w);
    case ContinueNearGrabbing => ContinueNearGrabbingCallsOnly(c1, w, f);
    case ContinueEquipBumperDown => ContinueNearGrabbingCallsOnly(c1, w, f);
    case ContinueEquip => ContinueNearGrabbingCallsOnly(c1, w, f);
    case NearTrigger => TriggerCallsOnly(c1, w);
    case ContinueNearTrigger => TriggerCallsOnly(c1, w);
    case FarTrigger => TriggerCallsOnly(c1, w);
  }

  lemma RaySearchAccounting(c: Ctl, w: WorldState, f: Frame)
    requires IsSearch(c.state)
    ensures var m := SearchStep(c, w, f);
      var held := if c.state == Searching then !TriggerSmoothedReleased(c) else !BumperReleased(c);
      var cast := held && f.now - c.lastPickTime > PICK_INTERVAL_MSECS;
      RayCount(m.world.log) == RayCount(w.log) + (if cast then 1 else 0)
      && m.ctl.lastPickTime == (if cast then f.now else c.lastPickTime)
  {
    var cast := f.now - c.lastPickTime > PICK_INTERVAL_MSECS;
    var c1 := if cast then c.(grabbedEntity := None).(lastPickTime := f.now) else c.(grabbedEntity := None);
    var w1 := if cast then Emit(w, PickRay(c.hand)) else w;
    if cast {
      assert w1.log[..|w1.log| - 1] == w.log;
    }
    match NearestIndex(f.nearby)
    case None =>
    case Some(k) =>
  }


  /** Hence two updates in a row that both cast a ray are more than PICK_INTERVAL_MSECS apart. */
  lemma RaysAtLeastIntervalApart(c: Ctl, w: WorldState, f1: Frame, f2: Frame)
    requires ValidCtl(c) && CastsRay(c, f1)
    requires CastsRay(Tick(c, w, f1).ctl, f2)
    ensures f2.now - f1.now > PICK_INTERVAL_MSECS
  {
    TickRayAccounting(c, w, f1);
  }

  // ---------------------------------------------------------------- touch calls

  /** How many times the log calls `name` on entity `id`. */
  function CallCount(log: seq<Event>, id: EntityId, name: string): nat {
    if |log| == 0 then 0
    else CallCount(log[..|log| - 1], id, name) + (if log[|log| - 1] == CallEntityMethod(id, name) then 1 else 0)
  }

  lemma CallCountAppend()
    ensures forall a: seq<Event>, e: Event, id: EntityId, name: string {:trigger CallCount(a + [e], id, name)} ::
              CallCount(a + [e], id, name) == CallCount(a, id, name) + (if e == CallEntityMethod(id, name) then 1 else 0)
  {
    forall a: seq<Event>, e: Event, id: EntityId, name: string
      ensures CallCount(a + [e], id, name) == CallCount(a, id, name) + (if e == CallEntityMethod(id, name) then 1 else 0)
    {
      assert (a + [e])[..|a|] == a;
    }
  }

  /**
   * The touched set is exactly the entities with a `startTouch` not yet
   * matched by a `stopTouch`: starts and stops alternate for every entity.
   */
  ghost predicate TouchBalanced(m: Machine) {
    forall id :: CallCount(m.world.log, id, "startTouch")
                 == CallCount(m.world.log, id, "stopTouch") + (if id in m.ctl.allTouchedIDs then 1 else 0)
  }

  lemma TouchStepKeepsBalance(m: Machine, p: TouchProbe)
    requires TouchBalanced(m)
    ensures TouchBalanced(TouchStep(m, p))
  {
    CallCountAppend();
  }

  lemma {:induction false} TouchTestKeepsBalance(m: Machine, probes: seq<TouchProbe>)
    requires TouchBalanced(m)
    ensures TouchBalanced(TouchTest(m, probes))
    decreases |probes|
  {
    if |probes| > 0 {
      TouchStepKeepsBalance(m, probes[0]);
      TouchTestKeepsBalance(TouchStep(m, probes[0]), probes[1..]);
    }
  }

  /** A controller that has done nothing yet is balanced. */
  lemma InitiallyTouchBalanced(hand: Hand, session: string, entities: map<EntityId, Entity>)
    ensures TouchBalanced(Machine(InitialCtl(hand, session), WorldState(entities, [])))
  {
  }

  // ---------------------------------------------------------------- activations

  /** How many activations of `x` this hand currently owes a deactivation for. */
  function Owed(c: Ctl, x: EntityId): nat {
    if c.actionID.Some? && c.grabbedEntity == Some(x) then 1 else 0
  }

  /**
   * While nobody holds `x` it is exactly as it started, with no record; while
   * held, the record keeps its original properties.
   */
  ghost predicate HeldOrRestored(w: WorldState, x: EntityId, original: PhysProps) {
    var ent := EntityOf(w, x);
    RecordLive(ent)
    && (ReferenceCount(ent) == 0 ==> ent == Entity(original, None))
    && (ReferenceCount(ent) > 0 ==> ent.grabData.value.saved == original)
  }

  /**
   * What one handler keeps of the accounts of an entity `x` the store holds:
   * no entity appears or disappears, the grab count minus what this hand owes
   * is unchanged, and HeldOrRestored is kept.
   */
  ghost predicate Accounted(c: Ctl, w: WorldState, m: Machine, x: EntityId, original: PhysProps) {
    m.world.entities.Keys == w.entities.Keys
    && (x in w.entities && ReferenceCount(EntityOf(w, x)) >= Owed(c, x) ==>
          ReferenceCount(EntityOf(m.world, x)) + Owed(c, x) == ReferenceCount(EntityOf(w, x)) + Owed(m.ctl, x)
          && (HeldOrRestored(w, x, original) ==> HeldOrRestored(m.world, x, original)))
  }

  /** Accounted, from what a handler does to an intermediate world `v` whose entities it ends with. */
  lemma AccountedVia(c: Ctl, w: WorldState, v: WorldState, m: Machine, x: EntityId, original: PhysProps, added: nat)
    requires m.world.entities == v.entities && v.entities.Keys == w.entities.Keys
    requires Owed(m.ctl, x) == Owed(c, x) + added
    requires x in w.entities ==> ReferenceCount(EntityOf(v, x)) == ReferenceCount(EntityOf(w, x)) + added
    requires x in w.entities && HeldOrRestored(w, x, original) ==> HeldOrRestored(v, x, original)
    ensures Accounted(c, w, m, x, original)
  {
    assert EntityOf(m.world, x) == EntityOf(v, x);
  }

  /** A handler that only records calls other than pick rays and leaves the controller's action alone. */
  ghost predicate CallsOnly(c: Ctl, w: WorldState, m: Machine) {
    m.world.entities == w.entities && m.ctl.actionID == c.actionID && m.ctl.grabbedEntity == c.grabbedEntity
    && RayCount(m.world.log) == RayCount(w.log) && m.ctl.lastPickTime == c.lastPickTime
  }

  /** A recorded call other than a ray cast leaves the store and the ray count alone. */
  lemma EmitNoRay(w: WorldState, ev: Event)
    requires !ev.PickRay?
    ensures Emit(w, ev).entities == w.entities && RayCount(Emit(w, ev).log) == RayCount(w.log)
  {
    assert (w.log + [ev])[..|w.log|] == w.log;
  }

  lemma SetHandCallsNoRay(w: WorldState, e: EntityId, hand: Hand, name: string)
    ensures var r := Call(SetHandCalls(w, e, hand), e, name);
      r.entities == w.entities && RayCount(r.log) == RayCount(w.log)
  {
    var w1 := Call(w, e, if hand == RightHand then "setRightHand" else "setLeftHand");
    EmitNoRay(w, CallEntityMethod(e, if hand == RightHand then "setRightHand" else "setLeftHand"));
    EmitNoRay(w1, CallEntityMethod(e, "setHand"));
    EmitNoRay(Call(w1, e, "setHand"), CallEntityMethod(e, name));
  }

  lemma ActivationNoRay(w: WorldState, e: EntityId, session: string, invert: bool, dynamic: bool)
    ensures RayCount(Activation(w, e, session, invert).log) == RayCount(w.log)
    ensures RayCount(KinematicActivation(w, e, session, invert, dynamic).log) == RayCount(w.log)
  {
    var ent := EntityOf(w, e);
    var w1 := Activation(w, e, session, invert);
    if ReferenceCount(ent) == 0 {
      EmitNoRay(w, EditEntity(e, WhileHeldEdit(ent.props, invert)));
    }
    if dynamic {
      EmitNoRay(w1, EditEntity(e, KINEMATIC_EDIT));
    }
  }

  lemma DeactivationNoRay(w: WorldState, e: Option<EntityId>)
    ensures RayCount(Deactivation(w, e).log) == RayCount(w.log)
  {
    if e.Some? && ReferenceCount(EntityOf(w, e.value)) == 1 {
      EmitNoRay(w, EditEntity(e.value, RestoreEdit(EntityOf(w, e.value).grabData.value.saved)));
    }
  }

  /** An activation of `e` adds one to its count, keeps HeldOrRestored, and records no ray. */
  lemma ActivationAccounts(w: WorldState, e: EntityId, session: string, invert: bool, x: EntityId, original: PhysProps)
    requires x in w.entities
    ensures var r := Activation(w, e, session, invert);
      RayCount(r.log) == RayCount(w.log)
      && ReferenceCount(EntityOf(r, x)) == ReferenceCount(EntityOf(w, x)) + (if x == e then 1 else 0)
      && (HeldOrRestored(w, x, original) ==> HeldOrRestored(r, x, original))
  {
    ActivationNoRay(w, e, session, invert, false);
  }


  /** A deactivation of `e` takes one from its count, keeps HeldOrRestored, and records no ray. */
  lemma DeactivationAccounts(w: WorldState, e: Option<EntityId>, x: EntityId, original: PhysProps)
    requires x in w.entities && (e == Some(x) ==> ReferenceCount(EntityOf(w, x)) >= 1)
    ensures var r := Deactivation(w, e);
      RayCount(r.log) == RayCount(w.log)
      && ReferenceCount(EntityOf(r, x)) + (if e == Some(x) then 1 else 0) == ReferenceCount(EntityOf(w, x))
      && (HeldOrRestored(w, x, original) ==> HeldOrRestored(r, x, original))
  {
    DeactivationNoRay(w, e);
    if e == Some(x) {
      DeactivationKeepsRecordsLive(EntityOf(w, x));
    }
  }


  /** A property edit of a held entity keeps HeldOrRestored and the counts. */
  lemma HeldEditAccounts(w: WorldState, e: EntityId, edit: PropEdit, x: EntityId, original: PhysProps)
    requires x in w.entities && ReferenceCount(EntityOf(w, e)) > 0
    ensures var r := EditProps(w, e, edit);
      RayCount(r.log) == RayCount(w.log) && ReferenceCount(EntityOf(r, x)) == ReferenceCount(EntityOf(w, x))
      && (HeldOrRestored(w, x, original) ==> HeldOrRestored(r, x, original))
  {
    EmitNoRay(w, EditEntity(e, edit));
  }


  lemma CallsOnlyAccounted(c: Ctl, w: WorldState, m: Machine, x: EntityId, original: PhysProps)
    requires CallsOnly(c, w, m)
    ensures Accounted(c, w, m, x, original)
  {
  }

  lemma OffAccounted(c: Ctl, w: WorldState, f: Frame, x: EntityId, original: PhysProps)
    requires ValidCtl(c) && c.state == Off
    ensures var m := TouchTest(Machine(OffStep(c), w), f.touches);
      Accounted(c, w, m, x, original)
      && RayCount(m.world.log) == RayCount(w.log) && m.ctl.lastPickTime == OffStep(c).lastPickTime
  {
    TouchTestFrame(Machine(OffStep(c), w), f.touches);
    TouchTestCastsNoRay(Machine(OffStep(c), w), f.touches);
  }

  lemma SearchAccounted(c: Ctl, w: WorldState, f: Frame, x: EntityId, original: PhysProps)
    requires ValidCtl(c) && IsSearch(c.state)
    ensures Accounted(c, w, SearchStep(c, w, f), x, original)
  {
    SearchOutcomes(c, w, f);
    var cast := f.now - c.lastPickTime > PICK_INTERVAL_MSECS;
    var c1 := if cast then c.(grabbedEntity := None).(lastPickTime := f.now) else c.(grabbedEntity := None);
    var w1 := if cast then Emit(w, PickRay(c.hand)) else w;
    match NearestIndex(f.nearby)
    case None =>
    case Some(k) =>
  }

  lemma DistanceHoldingAccounted(c: Ctl, w: WorldState, f: Frame, x: EntityId, original: PhysProps)
    requires ValidCtl(c) && c.state == DistanceHolding
    ensures var m := DistanceHoldingStep(c, w, f);
      Accounted(c, w, m, x, original)
      && RayCount(m.world.log) == RayCount(w.log) && m.ctl.lastPickTime == c.lastPickTime
  {
    var e := c.grabbedEntity.value;
    if f.newActionId == NULL_ACTION_ID {
      EmitsAccounted(c, w, DistanceHoldingStep(c, w, f), x, original, [AddAction(Spring, e, Some(GetTag(c.session)))]);
    } else {
      SpringAcceptedAccounted(c, w, f, x, original);
    }
  }

  /** An accepted spring: the activation it makes is the one the hand now owes. */
  lemma SpringAcceptedAccounted(c: Ctl, w: WorldState, f: Frame, x: EntityId, original: PhysProps)
    requires c.grabbedEntity.Some? && c.actionID.None? && f.newActionId != NULL_ACTION_ID
    ensures var m := DistanceHoldingStep(c, w, f);
      Accounted(c, w, m, x, original)
      && RayCount(m.world.log) == RayCount(w.log) && m.ctl.lastPickTime == c.lastPickTime
  {
    var e := c.grabbedEntity.value;
    var m := DistanceHoldingStep(c, w, f);
    var w1 := Emit(w, AddAction(Spring, e, Some(GetTag(c.session))));
    EmitNoRay(w, AddAction(Spring, e, Some(GetTag(c.session))));
    var invert := f.grabbedData.invertSolidWhileHeld;
    var w2 := Activation(w1, e, c.session, invert);
    ActivationNoRay(w1, e, c.session, invert, false);
    SetHandCallsNoRay(w2, e, c.hand, "startDistantGrab");
    assert m.world == Call(SetHandCalls(w2, e, c.hand), e, "startDistantGrab");
    if x in w.entities {
      assert EntityOf(w1, x) == EntityOf(w, x);
      ActivationAccounts(w1, e, c.session, invert, x, original);
    }
    AccountedVia(c, w, w2, m, x, original, if x == e then 1 else 0);
  }


  /** Appending events none of which is a ray cast keeps the ray count. */
  lemma {:induction false} NoRaysAppended(log: seq<Event>, evs: seq<Event>)
    requires forall i :: 0 <= i < |evs| ==> !evs[i].PickRay?
    ensures RayCount(log + evs) == RayCount(log)
    decreases |evs|
  {
    if |evs| == 0 {
      assert log + evs == log;
    } else {
      var front := evs[..|evs| - 1];
      NoRaysAppended(log, front);
      assert (log + evs)[..|log + evs| - 1] == log + front;
      assert (log + evs)[|log + evs| - 1] == evs[|evs| - 1];
    }
  }

  /** A handler that records calls other than ray casts and owes what it owed is accounted for. */
  lemma EmitsAccounted(c: Ctl, w: WorldState, m: Machine, x: EntityId, original: PhysProps, evs: seq<Event>)
    requires forall i :: 0 <= i < |evs| ==> !evs[i].PickRay?
    requires m.world == WorldState(w.entities, w.log + evs) && Owed(m.ctl, x) == Owed(c, x)
    ensures Accounted(c, w, m, x, original) && RayCount(m.world.log) == RayCount(w.log)
  {
    NoRaysAppended(w.log, evs);
    assert EntityOf(m.world, x) == EntityOf(w, x);
  }

  lemma ContinueDistanceHoldingAccounted(c: Ctl, w: WorldState, f: Frame, x: EntityId, original: PhysProps)
    requires c.state == ContinueDistanceHolding && c.grabbedEntity.Some? && c.actionID.Some?
    ensures var m := ContinueDistanceHoldingStep(c, w, f);
      Accounted(c, w, m, x, original)
      && RayCount(m.world.log) == RayCount(w.log) && m.ctl.lastPickTime == c.lastPickTime
  {
    var e := c.grabbedEntity.value;
    var m := ContinueDistanceHoldingStep(c, w, f);
    if TriggerSmoothedReleased(c) {
      EmitsAccounted(c, w, m, x, original, [CallEntityMethod(e, "releaseGrab")]);
    } else if BumperSqueezed(c) && f.grabbedData.spatialKey.Some? {
      EquipSwitchAccounted(c, w, x, original);
    } else {
      EmitsAccounted(c, w, m, x, original, [CallEntityMethod(e, "continueDistantGrab"), UpdateAction(e, c.actionID.value)]);
    }
  }

  /** The equip switch of `continueDistanceHolding`: a release that keeps the entity. */
  lemma EquipSwitchAccounted(c: Ctl, w: WorldState, x: EntityId, original: PhysProps)
    requires c.state == ContinueDistanceHolding && c.grabbedEntity.Some? && c.actionID.Some?
    ensures var r := ReleaseStep(c, w);
      var m := Machine(r.ctl.(state := Equip, grabbedEntity := c.grabbedEntity), r.world);
      Accounted(c, w, m, x, original)
      && RayCount(m.world.log) == RayCount(w.log) && m.ctl.lastPickTime == c.lastPickTime
  {
    var e := c.grabbedEntity.value;
    var w1 := Emit(w, DeleteAction(e, c.actionID.value));
    EmitNoRay(w, DeleteAction(e, c.actionID.value));
    DeactivationNoRay(w1, c.grabbedEntity);
    if x in w.entities && ReferenceCount(EntityOf(w, x)) >= Owed(c, x) {
      DeactivationAccounts(w1, c.grabbedEntity, x, original);
    }
  }



  lemma KinematicActivationAccounts(w: WorldState, e: EntityId, session: string, invert: bool, dynamic: bool,
                                    x: EntityId, original: PhysProps)
    requires x in w.entities
    ensures var r := KinematicActivation(w, e, session, invert, dynamic);
      r.entities.Keys == w.entities.Keys && RayCount(r.log) == RayCount(w.log)
      && ReferenceCount(EntityOf(r, x)) == ReferenceCount(EntityOf(w, x)) + (if x == e then 1 else 0)
      && (HeldOrRestored(w, x, original) ==> HeldOrRestored(r, x, original))
  {
    var w1 := Activation(w, e, session, invert);
    ActivationAccounts(w, e, session, invert, x, original);
    if dynamic {
      if e in w.entities {
        HeldEditAccounts(w1, e, KINEMATIC_EDIT, x, original);
      } else {
        EmitNoRay(w1, EditEntity(e, KINEMATIC_EDIT));
      }
    }
  }

  lemma NearGrabStartedNoRay(c: Ctl, w: WorldState, e: EntityId)
    ensures var m := NearGrabStarted(c, w, e);
      m.world.entities == w.entities && RayCount(m.world.log) == RayCount(w.log)
      && m.ctl == c.(state := m.ctl.state)
  {
    var w1 := if c.state == NearGrabbing then w else Call(w, e, "startEquip");
    if c.state != NearGrabbing {
      EmitNoRay(w, CallEntityMethod(e, "startEquip"));
    }
    SetHandCallsNoRay(w1, e, c.hand, "startNearGrab");
  }

  lemma NearGrabbingAccounted(c: Ctl, w: WorldState, f: Frame, x: EntityId, original: PhysProps)
    requires ValidCtl(c) && (c.state == NearGrabbing || c.state == Equip)
    ensures var m := NearGrabbingStep(c, w, f);
      Accounted(c, w, m, x, original)
      && RayCount(m.world.log) == RayCount(w.log) && m.ctl.lastPickTime == c.lastPickTime
  {
    var e := c.grabbedEntity.value;
    if c.state == NearGrabbing && TriggerSmoothedReleased(c) {
      EmitNoRay(w, CallEntityMethod(e, "releaseGrab"));
    } else if f.newActionId == NULL_ACTION_ID {
      EmitNoRay(w, AddAction(Hold, e, None));
    } else {
      NearGrabSucceededShape(c, w, f);
      NearGrabSucceededAccounted(c, w, f, x, original);
    }
  }

  /** A successful near grab: the hold is added, the entity activated, and the grab started. */
  lemma NearGrabSucceededShape(c: Ctl, w: WorldState, f: Frame)
    requires ValidCtl(c) && (c.state == NearGrabbing || c.state == Equip)
    requires !(c.state == NearGrabbing && TriggerSmoothedReleased(c)) && f.newActionId != NULL_ACTION_ID
    ensures var e := c.grabbedEntity.value;
      var w1 := Emit(w, AddAction(Hold, e, None));
      var w3 := KinematicActivation(w1, e, c.session, f.grabbedData.invertSolidWhileHeld, EntityOf(w, e).props.collisionsWillMove);
      var c1 := c.(offset := HoldOffset(c, f)).(actionID := Some(f.newActionId), actionTimeout := ActionTimeoutFrom(f.now));
      NearGrabbingStep(c, w, f) == NearGrabStarted(c1, w3, e)
  {
  }

  lemma NearGrabSucceededAccounted(c: Ctl, w: WorldState, f: Frame, x: EntityId, original: PhysProps)
    requires c.actionID.None? && c.grabbedEntity.Some?
    ensures var e := c.grabbedEntity.value;
      var w1 := Emit(w, AddAction(Hold, e, None));
      var w3 := KinematicActivation(w1, e, c.session, f.grabbedData.invertSolidWhileHeld, EntityOf(w, e).props.collisionsWillMove);
      var c1 := c.(offset := HoldOffset(c, f)).(actionID := Some(f.newActionId), actionTimeout := ActionTimeoutFrom(f.now));
      var m := NearGrabStarted(c1, w3, e);
      Accounted(c, w, m, x, original)
      && RayCount(m.world.log) == RayCount(w.log) && m.ctl.lastPickTime == c.lastPickTime
  {
    var e := c.grabbedEntity.value;
    var invert := f.grabbedData.invertSolidWhileHeld;
    var dynamic := EntityOf(w, e).props.collisionsWillMove;
    var w1 := Emit(w, AddAction(Hold, e, None));
    EmitNoRay(w, AddAction(Hold, e, None));
    var w3 := KinematicActivation(w1, e, c.session, invert, dynamic);
    var c1 := c.(offset := HoldOffset(c, f)).(actionID := Some(f.newActionId), actionTimeout := ActionTimeoutFrom(f.now));
    var m := NearGrabStarted(c1, w3, e);
    NearGrabStartedNoRay(c1, w3, e);
    ActivationNoRay(w1, e, c.session, invert, dynamic);
    if x in w.entities {
      KinematicActivationAccounts(w1, e, c.session, invert, dynamic, x, original);
    }
    AccountedVia(c, w, w3, m, x, original, if x == e then 1 else 0);
  }



  lemma ContinueNearGrabbingCallsOnly(c: Ctl, w: WorldState, f: Frame)
    requires c.grabbedEntity.Some? && c.actionID.Some?
    ensures CallsOnly(c, w, ContinueNearGrabbingStep(c, w, f))
  {
    var e := c.grabbedEntity.value;
    var m := ContinueNearGrabbingStep(c, w, f);
    if c.state == ContinueNearGrabbing && TriggerSmoothedReleased(c) {
      EmitNoRay(w, CallEntityMethod(e, "releaseGrab"));
    } else if c.state == ContinueEquipBumperDown && BumperReleased(c) {
    } else if c.state == ContinueEquip && BumperSqueezed(c) {
    } else if c.state == ContinueNearGrabbing && BumperSqueezed(c) {
      EmitNoRay(w, CallEntityMethod(e, "startEquip"));
    } else {
      var w1 := Call(w, e, "continueNearGrab");
      EmitNoRay(w, CallEntityMethod(e, "continueNearGrab"));
      EmitNoRay(w1, CallEntityMethod(e, "continueEquip"));
      var w2 := if c.state == ContinueEquipBumperDown then Call(w1, e, "continueEquip") else w1;
      EmitNoRay(w2, UpdateAction(e, c.actionID.value));
      assert m.world == w2 || m.world == Emit(w2, UpdateAction(e, c.actionID.value));
    }
  }


  lemma EquipSpringAccounted(c: Ctl, w: WorldState, f: Frame, x: EntityId, original: PhysProps)
    requires c.grabbedEntity.Some?
    ensures var m := PullTowardEquipPositionStep(c, w, f);
      Accounted(c, w, m, x, original)
      && RayCount(m.world.log) == RayCount(w.log) && m.ctl.lastPickTime == c.lastPickTime
  {
    var e := c.grabbedEntity.value;
    var m := PullTowardEquipPositionStep(c, w, f);
    var first := if SpringAbsent(c) then AddAction(Spring, e, None)
                 else UpdateAction(e, c.equipSpringID.value);
    var spring := if SpringAbsent(c) then f.newActionId else c.equipSpringID.value;
    if SpringAbsent(c) && f.newActionId == NULL_ACTION_ID {
      EmitsAccounted(c, w, m, x, original, [first]);
    } else if f.equipDistance < EQUIP_SPRING_SHUTOFF_DISTANCE {
      assert w.log + [first] + [DeleteAction(e, spring)] == w.log + [first, DeleteAction(e, spring)];
      EmitsAccounted(c, w, m, x, original, [first, DeleteAction(e, spring)]);
    } else {
      EmitsAccounted(c, w, m, x, original, [first]);
    }
  }


  lemma TriggerCallsOnly(c: Ctl, w: WorldState)
    requires c.grabbedEntity.Some?
    ensures c.state == NearTrigger ==> CallsOnly(c, w, NearTriggerStep(c, w))
    ensures c.state == FarTrigger ==> CallsOnly(c, w, FarTriggerStep(c, w))
    ensures c.state == ContinueNearTrigger ==> CallsOnly(c, w, ContinueNearTriggerStep(c, w))
    ensures c.state == WaitingForBumperRelease ==> CallsOnly(c, w, WaitingForBumperReleaseStep(c, w))
  {
    TriggerStartCallsOnly(c, w, "stopNearTrigger", "startNearTrigger", ContinueNearTrigger);
    TriggerStartCallsOnly(c, w, "stopFarTrigger", "startFarTrigger", ContinueFarTrigger);
    var e := c.grabbedEntity.value;
    if TriggerSmoothedReleased(c) {
      EmitNoRay(w, CallEntityMethod(e, "stopNearTrigger"));
    } else {
      EmitNoRay(w, CallEntityMethod(e, "continueNearTrigger"));
    }
    if BumperReleased(c) {
      EmitNoRay(w, CallEntityMethod(e, "releaseGrab"));
      EmitNoRay(Call(w, e, "releaseGrab"), CallEntityMethod(e, "unequip"));
    }
  }

  lemma TriggerStartCallsOnly(c: Ctl, w: WorldState, stopName: string, startName: string, next: State)
    requires c.grabbedEntity.Some?
    ensures CallsOnly(c, w, TriggerStartStep(c, w, stopName, startName, next))
  {
    var e := c.grabbedEntity.value;
    if TriggerSmoothedReleased(c) {
      EmitNoRay(w, CallEntityMethod(e, stopName));
    } else {
      SetHandCallsNoRay(w, e, c.hand, startName);
    }
  }



  lemma ContinueFarTriggerAccounted(c: Ctl, w: WorldState, f: Frame, x: EntityId, original: PhysProps)
    requires c.grabbedEntity.Some?
    ensures var m := ContinueFarTriggerStep(c, w, f);
      var cast := !TriggerSmoothedReleased(c) && f.now - c.lastPickTime > PICK_INTERVAL_MSECS;
      Accounted(c, w, m, x, original)
      && RayCount(m.world.log) == RayCount(w.log) + (if cast then 1 else 0)
      && m.ctl.lastPickTime == (if cast then f.now else c.lastPickTime)
  {
    var e := c.grabbedEntity.value;
    var m := ContinueFarTriggerStep(c, w, f);
    if TriggerSmoothedReleased(c) {
      EmitsAccounted(c, w, m, x, original, [CallEntityMethod(e, "stopFarTrigger")]);
    } else if f.now - c.lastPickTime > PICK_INTERVAL_MSECS {
      var w1 := Emit(w, PickRay(c.hand));
      assert w1.log[..|w1.log| - 1] == w.log;
      var name := if !(f.rayHit.Some? && f.rayHit.value.view.id == e) then "stopFarTrigger" else "continueFarTrigger";
      EmitsAccounted(c, w1, m, x, original, [CallEntityMethod(e, name)]);
      assert EntityOf(w1, x) == EntityOf(w, x);
    } else {
      EmitsAccounted(c, w, m, x, original, [CallEntityMethod(e, "continueFarTrigger")]);
    }
  }


  lemma ReleaseAccounted(c: Ctl, w: WorldState, x: EntityId, original: PhysProps)
    ensures var m := ReleaseStep(c, w);
      Accounted(c, w, m, x, original)
      && RayCount(m.world.log) == RayCount(w.log) && m.ctl.lastPickTime == c.lastPickTime
  {
    if c.grabbedEntity.Some? && c.actionID.Some? {
      var w1 := Emit(w, DeleteAction(c.grabbedEntity.value, c.actionID.value));
      EmitNoRay(w, DeleteAction(c.grabbedEntity.value, c.actionID.value));
      DeactivationNoRay(w1, c.grabbedEntity);
      if x in w.entities && ReferenceCount(EntityOf(w, x)) >= Owed(c, x) {
        assert EntityOf(w1, x) == EntityOf(w, x);
        DeactivationAccounts(w1, c.grabbedEntity, x, original);
      }
    }
  }


  /**
   * Every change an update makes to an entity's grab count is one this hand
   * takes on or pays off, no entity appears or disappears, and an entity
   * nobody holds is as it started.
   */
  lemma TickAccounted(c: Ctl, w: WorldState, f: Frame, x: EntityId, original: PhysProps)
    requires ValidCtl(c)
    ensures Accounted(c, w, Tick(c, w, f), x, original)
  {
    var s := SmoothedTrigger(c).state;
    if s == Off || s == Searching || s == EquipSearching || s == ContinueFarTrigger || s == Release {
      AccountedPicking(c, w, f, x, original);
    } else if s == DistanceHolding || s == ContinueDistanceHolding {
      AccountedDistance(c, w, f, x, original);
    } else if s == NearGrabbing || s == Equip || s == EquipSpring {
      AccountedNear(c, w, f, x, original);
    } else {
      AccountedCallsOnly(c, w, f, x, original);
    }
  }

  lemma AccountedPicking(c: Ctl, w: WorldState, f: Frame, x: EntityId, original: PhysProps)
    requires ValidCtl(c)
    requires var s := SmoothedTrigger(c).state;
      s == Off || s == Searching || s == EquipSearching || s == ContinueFarTrigger || s == Release
    ensures Accounted(c, w, Tick(c, w, f), x, original)
  {
    var c1 := SmoothedTrigger(c);
    assert Owed(c1, x) == Owed(c, x);
    match c1.state
    case Off => OffAccounted(c1, w, f, x, original);
    case Searching => SearchAccounted(c1, w, f, x, original);
    case EquipSearching => SearchAccounted(c1, w, f, x, original);
    case ContinueFarTrigger => ContinueFarTriggerAccounted(c1, w, f, x, original);
    case Release => ReleaseAccounted(c1, w, x, original);
  }

  lemma AccountedDistance(c: Ctl, w: WorldState, f: Frame, x: EntityId, original: PhysProps)
    requires ValidCtl(c)
    requires var s := SmoothedTrigger(c).state; s == DistanceHolding || s == ContinueDistanceHolding
    ensures Accounted(c, w, Tick(c, w, f), x, original)
  {
    var c1 := SmoothedTrigger(c);
    assert Owed(c1, x) == Owed(c, x);
    if c1.state == DistanceHolding {
      DistanceHoldingAccounted(c1, w, f, x, original);
    } else {
      ContinueDistanceHoldingAccounted(c1, w, f, x, original);
    }
  }

  lemma AccountedNear(c: Ctl, w: WorldState, f: Frame, x: EntityId, original: PhysProps)
    requires ValidCtl(c)
    requires var s := SmoothedTrigger(c).state; s == NearGrabbing || s == Equip || s == EquipSpring
    ensures Accounted(c, w, Tick(c, w, f), x, original)
  {
    var c1 := SmoothedTrigger(c);
    assert Owed(c1, x) == Owed(c, x);
    if c1.state == EquipSpring {
      EquipSpringAccounted(c1, w, f, x, original);
    } else {
      NearGrabbingAccounted(c1, w, f, x, original);
    }
  }

  lemma AccountedCallsOnly(c: Ctl, w: WorldState, f: Frame, x: EntityId, original: PhysProps)
    requires ValidCtl(c)
    requires var s := SmoothedTrigger(c).state;
      s == WaitingForBumperRelease || s == ContinueNearGrabbing || s == ContinueEquipBumperDown
      || s == ContinueEquip || s == NearTrigger || s == ContinueNearTrigger || s == FarTrigger
    ensures Accounted(c, w, Tick(c, w, f), x, original)
  {
    var c1 := SmoothedTrigger(c);
    assert Owed(c1, x) == Owed(c, x);
    var m := Tick(c, w, f);
    if c1.state == ContinueNearGrabbing || c1.state == ContinueEquipBumperDown || c1.state == ContinueEquip {
      ContinueNearGrabbingCallsOnly(c1, w, f);
    } else {
      TriggerCallsOnly(c1, w);
    }
    CallsOnlyAccounted(c1, w, m, x, original);
  }

  /** Updates one after another, one frame each. */
  function Run(c: Ctl, w: WorldState, frames: seq<Frame>): (m: Machine)
    requires ValidCtl(c)
    ensures ValidCtl(m.ctl)
    decreases |frames|
  {
    if |frames| == 0 then Machine(c, w)
    else
      TickPreservesValid(c, w, frames[0]);
      var m := Tick(c, w, frames[0]);
      Run(m.ctl, m.world, frames[1..])
  }

  lemma {:induction false} RunKeepsAccounts(c: Ctl, w: WorldState, frames: seq<Frame>, x: EntityId, original: PhysProps)
    requires ValidCtl(c) && x in w.entities
    requires ReferenceCount(EntityOf(w, x)) == Owed(c, x) && HeldOrRestored(w, x, original)
    ensures var m := Run(c, w, frames);
      x in m.world.entities && ReferenceCount(EntityOf(m.world, x)) == Owed(m.ctl, x)
      && HeldOrRestored(m.world, x, original)
    decreases |frames|
  {
    if |frames| > 0 {
      TickPreservesValid(c, w, frames[0]);
      var m := Tick(c, w, frames[0]);
      TickAccounted(c, w, frames[0], x, original);
      RunKeepsAccounts(m.ctl, m.world, frames[1..], x, original);
    }
  }

  /**
   * A grab leaves no trace: starting from a hand that holds nothing and an
   * entity nobody has grabbed, whatever the updates do, once the hand holds no
   * action again the entity has exactly its original gravity, solidity and
   * dynamic flag, and no grab record.
   */
  lemma GrabLeavesNoTrace(c: Ctl, w: WorldState, frames: seq<Frame>, x: EntityId)
    requires ValidCtl(c) && c.actionID.None? && x in w.entities && EntityOf(w, x).grabData.None?
    ensures var m := Run(c, w, frames);
      m.ctl.actionID.None? ==> EntityOf(m.world, x) == EntityOf(w, x)
  {
    RunKeepsAccounts(c, w, frames, x, EntityOf(w, x).props);
  }
}
