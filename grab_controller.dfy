/**
 * `MyController`: one hand's grab controller as an object whose handlers update
 * its fields and call into the engine's entity store in place. Every handler is
 * proved to do exactly what the GrabMachine function of the same name does to
 * the fields and the store, so each property proved of Tick holds of `Update`.
 */
module GrabController {
  import opened Wrappers
  import opened GrabTypes
  import opened GrabMetadata
  import opened ActivationLedger
  import opened GrabSelect
  import opened GrabWorld
  import opened GrabMachine
  import opened GrabTheorems

  class MyController {
    const hand: Hand
    /** `MyAvatar.sessionUUID`, which the grab tag is made from. */
    const session: string
    /** The engine's entity store the script calls into. */
    const world: World

    var state: State
    var grabbedEntity: Option<EntityId>
    var actionID: Option<ActionId>
    var equipSpringID: Option<ActionId>
    var lastPickTime: int
    var actionTimeout: int
    var triggerValue: real
    var rawTriggerValue: real
    var rawBumperValue: real
    var offset: Offset
    var allTouchedIDs: set<EntityId>

    /** The fields as a GrabMachine controller value. */
    ghost function Model(): Ctl
      reads this
    {
      Ctl(hand, session, state, grabbedEntity, actionID, equipSpringID, lastPickTime, actionTimeout,
          triggerValue, rawTriggerValue, rawBumperValue, offset, allTouchedIDs)
    }

    /** The fields together with the store. */
    ghost function Snapshot(): Machine
      reads this, world
    {
      Machine(Model(), world.State())
    }

    ghost predicate Valid()
      reads this
    {
      ValidCtl(Model())
    }

    constructor (hand: Hand, session: string, world: World)
      ensures Model() == InitialCtl(hand, session) && this.world == world
    {
      this.hand := hand;
      this.session := session;
      this.world := world;
      state := State.Off;
      grabbedEntity := None;
      actionID := None;
      equipSpringID := None;
      lastPickTime := 0;
      actionTimeout := 0;
      triggerValue := 0.0;
      rawTriggerValue := 0.0;
      rawBumperValue := 0.0;
      offset := Offset(ZERO_VEC, IDENTITY_QUAT);
      allTouchedIDs := {};
    }

    // ------------------------------------------------------------ inputs

    method TriggerPress(value: real)
      modifies this
      ensures Model() == old(Model()).(rawTriggerValue := value)
    {
      rawTriggerValue := value;
    }

    method BumperPress(value: real)
      modifies this
      ensures Model() == old(Model()).(rawBumperValue := value)
    {
      rawBumperValue := value;
    }

    method UpdateSmoothedTrigger()
      modifies this
      ensures Model() == SmoothedTrigger(old(Model()))
    {
      triggerValue := triggerValue * TRIGGER_SMOOTH_RATIO + rawTriggerValue * (1.0 - TRIGGER_SMOOTH_RATIO);
    }

    predicate TriggerSmoothedSqueezed() reads this { triggerValue > TRIGGER_ON_VALUE }
    predicate TriggerSmoothedReleased() reads this { triggerValue < TRIGGER_OFF_VALUE }
    predicate BumperSqueezed() reads this { rawBumperValue > BUMPER_ON_VALUE }
    predicate BumperReleased() reads this { rawBumperValue < BUMPER_ON_VALUE }

    // ------------------------------------------------------------ update

    /** `update`: smooth the trigger and run the current state's handler. */
    method Update(f: Frame)
      requires Valid()
      modifies this, world
      ensures Snapshot() == Tick(old(Model()), old(world.State()), f)
      ensures Valid()
    {
      TickPreservesValid(Model(), world.State(), f);
      UpdateSmoothedTrigger();
      var s := state;
      if s == State.Off || s == State.Searching || s == State.EquipSearching || s == State.Release {
        HandleIdle(f);
      } else if s == State.DistanceHolding || s == State.ContinueDistanceHolding || s == State.NearGrabbing
             || s == State.Equip || s == State.EquipSpring {
        HandleGrab(f);
      } else {
        HandleHeld(f);
      }
    }

    /** The switch of `update` for idle, the two searches and release. */
    method HandleIdle(f: Frame)
      requires ValidCtl(Model())
      requires state == State.Off || state == State.Searching || state == State.EquipSearching || state == State.Release
      modifies this, world
      ensures Snapshot() == Handle(old(Model()), old(world.State()), f)
    {
      if state == State.Off {
        Off();
        TouchTest(f.touches);
      } else if state == State.Release {
        Release();
      } else {
        Search(f);
      }
    }

    /** The switch of `update` for the states that start a hold. */
    method HandleGrab(f: Frame)
      requires ValidCtl(Model())
      requires state == State.DistanceHolding || state == State.ContinueDistanceHolding || state == State.NearGrabbing
            || state == State.Equip || state == State.EquipSpring
      modifies this, world
      ensures Snapshot() == Handle(old(Model()), old(world.State()), f)
    {
      if state == State.DistanceHolding {
        DistanceHolding(f);
      } else if state == State.ContinueDistanceHolding {
        ContinueDistanceHolding(f);
      } else if state == State.EquipSpring {
        PullTowardEquipPosition(f);
      } else {
        NearGrabbing(f);
      }
    }

    /** The switch of `update` for the states that hold or trigger an entity. */
    method HandleHeld(f: Frame)
      requires ValidCtl(Model())
      requires state == State.WaitingForBumperRelease || state == State.ContinueNearGrabbing
            || state == State.ContinueEquipBumperDown || state == State.ContinueEquip || state == State.NearTrigger
            || state == State.ContinueNearTrigger || state == State.FarTrigger || state == State.ContinueFarTrigger
      modifies this, world
      ensures Snapshot() == Handle(old(Model()), old(world.State()), f)
    {
      if state == State.WaitingForBumperRelease {
        WaitingForBumperRelease();
      } else if state == State.NearTrigger {
        NearTrigger();
      } else if state == State.ContinueNearTrigger {
        ContinueNearTrigger();
      } else if state == State.FarTrigger {
        FarTrigger();
      } else if state == State.ContinueFarTrigger {
        ContinueFarTrigger(f);
      } else {
        ContinueNearGrabbing(f);
      }
    }

    // ------------------------------------------------------------ engine calls

    method CallEntityMethod(e: EntityId, name: string)
      modifies world
      ensures world.State() == Call(old(world.State()), e, name)
    {
      world.Record(Event.CallEntityMethod(e, name));
    }

    /** `setRightHand` or `setLeftHand`, then `setHand`. */
    method SetHand(e: EntityId)
      modifies world
      ensures world.State() == SetHandCalls(old(world.State()), e, hand)
    {
      CallEntityMethod(e, if hand == RightHand then "setRightHand" else "setLeftHand");
      CallEntityMethod(e, "setHand");
    }

    /** `activateEntity`: bump the grab record; the first holder saves the properties and sends the while-held edit. */
    method ActivateEntity(e: EntityId, invertSolidWhileHeld: bool)
      modifies world
      ensures world.State() == Activation(old(world.State()), e, session, invertSolidWhileHeld)
    {
      var ent := world.GetEntity(e);
      var refCount := if ReferenceCount(ent) != 0 then ReferenceCount(ent) + 1 else 1;
      var saved := if refCount == 1 then ent.props else ent.grabData.value.saved;
      if refCount == 1 {
        world.Edit(e, WhileHeldEdit(ent.props, invertSolidWhileHeld));
      }
      world.SetGrabData(e, Some(GrabData(refCount, session, saved)));
    }

    /** `deactivateEntity`: drop a grab; the last holder restores the saved properties and clears the record. */
    method DeactivateEntity(e: Option<EntityId>)
      modifies world
      ensures world.State() == Deactivation(old(world.State()), e)
    {
      if e.Some? {
        var id := e.value;
        var ent := world.GetEntity(id);
        var data: Option<GrabData> := None;
        if ReferenceCount(ent) != 0 {
          var refCount := ent.grabData.value.refCount - 1;
          if refCount < 1 {
            world.Edit(id, RestoreEdit(ent.grabData.value.saved));
          } else {
            data := Some(ent.grabData.value.(refCount := refCount));
          }
        }
        world.SetGrabData(id, data);
      }
    }

    // ------------------------------------------------------------ handlers

    method Off()
      modifies this
      ensures Model() == OffStep(old(Model()))
    {
      if TriggerSmoothedSqueezed() {
        lastPickTime := 0;
        state := State.Searching;
        return;
      }
      if BumperSqueezed() {
        lastPickTime := 0;
        state := State.EquipSearching;
      }
    }

    method Search(f: Frame)
      requires IsSearch(state)
      modifies this, world
      ensures Snapshot() == SearchStep(old(Model()), old(world.State()), f)
    {
      grabbedEntity := None;
      if (if state == State.Searching then TriggerSmoothedReleased() else BumperReleased()) {
        state := State.Release;
        return;
      }
      Pick(f);
    }

    /** The search proper: the pick ray when it is due, then the sphere test. */
    method Pick(f: Frame)
      requires IsSearch(state)
      modifies this, world
      ensures Snapshot() == PickStep(old(Model()), old(world.State()), f)
    {
      if f.now - lastPickTime > PICK_INTERVAL_MSECS {
        CastPickRay(f);
      } else {
        SphereTest(f.nearby);
      }
    }

    /** A pick ray that is due: cast it, then act on what it hit. */
    method CastPickRay(f: Frame)
      requires IsSearch(state)
      modifies this, world
      ensures Snapshot() == RayStep(old(Model()).(lastPickTime := f.now), Emit(old(world.State()), PickRay(hand)), f)
    {
      lastPickTime := f.now;
      world.Record(PickRay(hand));
      RayHitTest(f);
    }

    /** What the pick ray hit: the state it leads to, else the sphere test. */
    method RayHitTest(f: Frame)
      requires IsSearch(state)
      modifies this
      ensures Model() == RayStep(old(Model()), world.State(), f).ctl
    {
      if f.rayHit.Some? {
        var hit := f.rayHit.value;
        var next := PickedState(hit);
        if next.Some? {
          grabbedEntity := Some(hit.view.id);
          state := next.value;
          return;
        }
      }
      SphereTest(f.nearby);
    }

    /** The sphere test of `search`: the nearest eligible entity, and the state it leads to. */
    method SphereTest(nearby: seq<Candidate>)
      requires IsSearch(state)
      modifies this
      ensures Model() == SphereSearch(old(Model()), world.State(), nearby).ctl
    {
      var best := SelectNearest(nearby);
      SelectNearestIsNearestIndex(nearby, best);
      grabbedEntity := None;
      if best.Some? {
        var cand := nearby[best.value];
        grabbedEntity := Some(cand.view.id);
        if cand.view.data.wantsTrigger {
          state := State.NearTrigger;
        } else if !cand.view.locked && cand.view.collisionsWillMove {
          state := if state == State.Searching then State.NearGrabbing else State.Equip;
        }
      }
    }

    /** The pick-ray branch of `search`; asks whether another avatar holds the entity only for a far hit. */
    method PickedState(hit: RayHit) returns (next: Option<State>)
      requires IsSearch(state)
      ensures next == ClassifyHit(state, hit, GrabbedByOther(hit.view.actionTags, session))
    {
      var view := hit.view;
      next := None;
      if view.name == DEBUG_ENTITY_NAME || !view.data.grabbable || hit.distance > PICK_MAX_DISTANCE {
        return;
      }
      if hit.distance <= NEAR_PICK_MAX_DISTANCE {
        if view.data.wantsTrigger {
          next := Some(State.NearTrigger);
        } else if !view.locked {
          next := Some(if state == State.Searching then State.NearGrabbing else State.Equip);
        }
        return;
      }
      var other := EntityIsGrabbedByOther(view.actionTags, session);
      GrabbedByOtherIsPrefixScan(view.actionTags, session);
      if !other {
        if view.collisionsWillMove && !view.locked {
          if view.data.spatialKey.Some? && state == State.EquipSearching {
            next := Some(State.Equip);
          } else if state == State.Searching {
            next := Some(State.DistanceHolding);
          }
        } else if view.data.wantsTrigger {
          next := Some(State.FarTrigger);
        }
      }
    }

    method DistanceHolding(f: Frame)
      requires grabbedEntity.Some?
      modifies this, world
      ensures Snapshot() == DistanceHoldingStep(old(Model()), old(world.State()), f)
    {
      var e := grabbedEntity.value;
      world.Record(AddAction(Spring, e, Some(GetTag(session))));
      actionID := if f.newActionId == NULL_ACTION_ID then None else Some(f.newActionId);
      actionTimeout := ActionTimeoutFrom(f.now);
      if actionID.Some? {
        state := State.ContinueDistanceHolding;
        ActivateEntity(e, f.grabbedData.invertSolidWhileHeld);
        SetHand(e);
        CallEntityMethod(e, "startDistantGrab");
      }
    }

    method ContinueDistanceHolding(f: Frame)
      requires grabbedEntity.Some? && actionID.Some?
      modifies this, world
      ensures Snapshot() == ContinueDistanceHoldingStep(old(Model()), old(world.State()), f)
    {
      var e := grabbedEntity.value;
      if TriggerSmoothedReleased() {
        state := State.Release;
        CallEntityMethod(e, "releaseGrab");
        return;
      }
      if state == State.ContinueDistanceHolding && BumperSqueezed() && f.grabbedData.spatialKey.Some? {
        var saveGrabbedID := grabbedEntity;
        Release();
        state := State.Equip;
        grabbedEntity := saveGrabbedID;
        return;
      }
      CallEntityMethod(e, "continueDistantGrab");
      world.Record(UpdateAction(e, actionID.value));
      actionTimeout := ActionTimeoutFrom(f.now);
    }

    /** `nearGrabbing`, corrected to activate the entity only once the hold exists. */
    method NearGrabbing(f: Frame)
      requires grabbedEntity.Some?
      modifies this, world
      ensures Snapshot() == NearGrabbingStep(old(Model()), old(world.State()), f)
    {
      var e := grabbedEntity.value;
      if state == State.NearGrabbing && TriggerSmoothedReleased() {
        state := State.Release;
        CallEntityMethod(e, "releaseGrab");
        return;
      }
      if state != State.NearGrabbing && f.grabbedData.spatialKey.Some? {
        offset := Offset(SpatialOffsetPosition(hand, f.grabbedData.spatialKey.value),
                         SpatialOffsetRotation(hand, f.grabbedData.spatialKey.value));
      } else {
        offset := f.rigidOffset;
      }
      HoldNear(e, f);
    }

    /** The rest of `nearGrabbing`: ask for the hold; only a granted hold activates the entity. */
    method HoldNear(e: EntityId, f: Frame)
      requires grabbedEntity == Some(e)
      modifies this, world
      ensures Snapshot() == NearGrabHold(old(Model()), old(world.State()), f)
    {
      var grabbedProperties := world.GetEntity(e);
      world.Record(AddAction(Hold, e, None));
      if f.newActionId == NULL_ACTION_ID {
        actionID := None;
        return;
      }
      ActivateForHold(e, f.grabbedData.invertSolidWhileHeld, grabbedProperties.props.collisionsWillMove);
      actionID := Some(f.newActionId);
      actionTimeout := ActionTimeoutFrom(f.now);
      NearGrabStart(e);
    }

    /** The activation of a near grab, and the edit that makes a dynamic entity kinematic while held. */
    method ActivateForHold(e: EntityId, invertSolidWhileHeld: bool, dynamic: bool)
      modifies world
      ensures world.State() == KinematicActivation(old(world.State()), e, session, invertSolidWhileHeld, dynamic)
    {
      ActivateEntity(e, invertSolidWhileHeld);
      if dynamic {
        world.Edit(e, KINEMATIC_EDIT);
      }
    }

    /** The end of a successful `nearGrabbing`: the next state and the calls that announce the grab. */
    method NearGrabStart(e: EntityId)
      modifies this, world
      ensures Snapshot() == NearGrabStarted(old(Model()), old(world.State()), e)
    {
      if state == State.NearGrabbing {
        state := State.ContinueNearGrabbing;
      } else {
        CallEntityMethod(e, "startEquip");
        state := State.ContinueEquipBumperDown;
      }
      SetHand(e);
      CallEntityMethod(e, "startNearGrab");
    }

    method ContinueNearGrabbing(f: Frame)
      requires grabbedEntity.Some? && actionID.Some?
      modifies this, world
      ensures Snapshot() == ContinueNearGrabbingStep(old(Model()), old(world.State()), f)
    {
      var e := grabbedEntity.value;
      if state == State.ContinueNearGrabbing && TriggerSmoothedReleased() {
        state := State.Release;
        CallEntityMethod(e, "releaseGrab");
        return;
      }
      if state == State.ContinueEquipBumperDown && BumperReleased() {
        state := State.ContinueEquip;
        return;
      }
      if state == State.ContinueEquip && BumperSqueezed() {
        state := State.WaitingForBumperRelease;
        return;
      }
      if state == State.ContinueNearGrabbing && BumperSqueezed() {
        state := State.ContinueEquipBumperDown;
        CallEntityMethod(e, "startEquip");
        return;
      }
      CallEntityMethod(e, "continueNearGrab");
      if state == State.ContinueEquipBumperDown {
        CallEntityMethod(e, "continueEquip");
      }
      if actionTimeout - f.now < ACTION_TTL_REFRESH * MSECS_PER_SEC {
        world.Record(UpdateAction(e, actionID.value));
        actionTimeout := ActionTimeoutFrom(f.now);
      }
    }

    method WaitingForBumperRelease()
      requires grabbedEntity.Some?
      modifies this, world
      ensures Snapshot() == WaitingForBumperReleaseStep(old(Model()), old(world.State()))
    {
      if BumperReleased() {
        state := State.Release;
        CallEntityMethod(grabbedEntity.value, "releaseGrab");
        CallEntityMethod(grabbedEntity.value, "unequip");
      }
    }

    method PullTowardEquipPosition(f: Frame)
      requires grabbedEntity.Some?
      modifies this, world
      ensures Snapshot() == PullTowardEquipPositionStep(old(Model()), old(world.State()), f)
    {
      var e := grabbedEntity.value;
      if equipSpringID.None? || equipSpringID == Some(NULL_ACTION_ID) {
        world.Record(AddAction(Spring, e, None));
        if f.newActionId == NULL_ACTION_ID {
          equipSpringID := None;
          state := State.Off;
          return;
        }
        equipSpringID := Some(f.newActionId);
      } else {
        world.Record(UpdateAction(e, equipSpringID.value));
      }
      if f.equipDistance < EQUIP_SPRING_SHUTOFF_DISTANCE {
        world.Record(DeleteAction(e, equipSpringID.value));
        equipSpringID := None;
        state := State.Equip;
      }
    }

    method NearTrigger()
      requires grabbedEntity.Some?
      modifies this, world
      ensures Snapshot() == NearTriggerStep(old(Model()), old(world.State()))
    {
      var e := grabbedEntity.value;
      if TriggerSmoothedReleased() {
        state := State.Release;
        CallEntityMethod(e, "stopNearTrigger");
        return;
      }
      SetHand(e);
      CallEntityMethod(e, "startNearTrigger");
      state := State.ContinueNearTrigger;
    }

    method FarTrigger()
      requires grabbedEntity.Some?
      modifies this, world
      ensures Snapshot() == FarTriggerStep(old(Model()), old(world.State()))
    {
      var e := grabbedEntity.value;
      if TriggerSmoothedReleased() {
        state := State.Release;
        CallEntityMethod(e, "stopFarTrigger");
        return;
      }
      SetHand(e);
      CallEntityMethod(e, "startFarTrigger");
      state := State.ContinueFarTrigger;
    }

    method ContinueNearTrigger()
      requires grabbedEntity.Some?
      modifies this, world
      ensures Snapshot() == ContinueNearTriggerStep(old(Model()), old(world.State()))
    {
      var e := grabbedEntity.value;
      if TriggerSmoothedReleased() {
        state := State.Release;
        CallEntityMethod(e, "stopNearTrigger");
        return;
      }
      CallEntityMethod(e, "continueNearTrigger");
    }

    /** `continueFarTrigger`, corrected to send `stopFarTrigger` when the trigger is let go. */
    method ContinueFarTrigger(f: Frame)
      requires grabbedEntity.Some?
      modifies this, world
      ensures Snapshot() == ContinueFarTriggerStep(old(Model()), old(world.State()), f)
    {
      var e := grabbedEntity.value;
      if TriggerSmoothedReleased() {
        state := State.Release;
        CallEntityMethod(e, "stopFarTrigger");
        return;
      }
      if f.now - lastPickTime > PICK_INTERVAL_MSECS {
        world.Record(PickRay(hand));
        lastPickTime := f.now;
        if !(f.rayHit.Some? && f.rayHit.value.view.id == e) {
          state := State.Release;
          CallEntityMethod(e, "stopFarTrigger");
          return;
        }
      }
      CallEntityMethod(e, "continueFarTrigger");
    }

    /** `touchTest`: walk the probes, starting, continuing or stopping a touch on each. */
    method TouchTest(probes: seq<TouchProbe>)
      modifies this, world
      ensures Snapshot() == GrabMachine.TouchTest(old(Snapshot()), probes)
    {
      var i := 0;
      while i < |probes|
        invariant 0 <= i <= |probes|
        invariant GrabMachine.TouchTest(Snapshot(), probes[i..]) == GrabMachine.TouchTest(old(Snapshot()), probes)
      {
        ghost var before := Snapshot();
        var p := probes[i];
        if p.name != TOUCH_IGNORED_NAME {
          var touching := p.leftTouching || p.rightTouching;
          if touching && p.id !in allTouchedIDs {
            allTouchedIDs := allTouchedIDs + {p.id};
            StartTouch(p.id);
          } else if touching && p.id in allTouchedIDs {
            ContinueTouch(p.id);
          } else if p.id in allTouchedIDs {
            allTouchedIDs := allTouchedIDs - {p.id};
            StopTouch(p.id);
          }
        }
        assert Snapshot() == TouchStep(before, p);
        assert probes[i..][1..] == probes[i + 1..];
        i := i + 1;
      }
    }

    method StartTouch(id: EntityId)
      modifies world
      ensures world.State() == Call(old(world.State()), id, "startTouch")
    {
      CallEntityMethod(id, "startTouch");
    }

    method ContinueTouch(id: EntityId)
      modifies world
      ensures world.State() == Call(old(world.State()), id, "continueTouch")
    {
      CallEntityMethod(id, "continueTouch");
    }

    method StopTouch(id: EntityId)
      modifies world
      ensures world.State() == Call(old(world.State()), id, "stopTouch")
    {
      CallEntityMethod(id, "stopTouch");
    }

    /** `release`, corrected to undo an activation only when this hand holds an action on the entity. */
    method Release()
      modifies this, world
      ensures Snapshot() == ReleaseStep(old(Model()), old(world.State()))
    {
      if grabbedEntity.Some? && actionID.Some? {
        world.Record(DeleteAction(grabbedEntity.value, actionID.value));
        DeactivateEntity(grabbedEntity);
      }
      grabbedEntity := None;
      actionID := None;
      state := State.Off;
    }
  }
}
