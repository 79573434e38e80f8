/**
 * What one update of a hand controller guarantees, stated over GrabMachine.Tick.
 */
module GrabTheorems {
  import opened Wrappers
  import opened GrabTypes
  import opened GrabMetadata
  import opened ActivationLedger
  import opened GrabSelect
  import opened GrabWorld
  import opened GrabMachine

  // ---------------------------------------------------------------- touch test

  /** `touchTest` only changes the touched set and only records entity-method calls. */
  lemma {:induction false} TouchTestFrame(m: Machine, probes: seq<TouchProbe>)
    ensures var r := TouchTest(m, probes);
      r.ctl == m.ctl.(allTouchedIDs := r.ctl.allTouchedIDs) && r.world.entities == m.world.entities
      && m.world.log <= r.world.log
      && forall i :: |m.world.log| <= i < |r.world.log| ==> r.world.log[i].CallEntityMethod?
    decreases |probes|
  {
    if |probes| > 0 {
      TouchTestFrame(TouchStep(m, probes[0]), probes[1..]);
    }
  }

  // ---------------------------------------------------------------- the invariant

  /** Every update keeps ValidCtl. */
  lemma TickPreservesValid(c: Ctl, w: WorldState, f: Frame)
    requires ValidCtl(c)
    ensures ValidCtl(Tick(c, w, f).ctl)
  {
    var s := SmoothedTrigger(c).state;
    if s == Off || s == Searching || s == EquipSearching {
      ValidAfterPicking(c, w, f);
    } else if s == DistanceHolding || s == ContinueDistanceHolding || s == ContinueFarTrigger || s == Release {
      ValidAfterDistance(c, w, f);
    } else if s == NearGrabbing || s == Equip || s == EquipSpring {
      ValidAfterNear(c, w, f);
    } else {
      ValidAfterCallsOnly(c, w, f);
    }
  }

  lemma ValidAfterPicking(c: Ctl, w: WorldState, f: Frame)
    requires ValidCtl(c)
    requires var s := SmoothedTrigger(c).state; s == Off || s == Searching || s == EquipSearching
    ensures ValidCtl(Tick(c, w, f).ctl)
  {
    var c1 := SmoothedTrigger(c);
    if c1.state == Off {
      TouchTestFrame(Machine(OffStep(c1), w), f.touches);
    } else {
      SearchOutcomes(c1, w, f);
    }
  }

  lemma ValidAfterDistance(c: Ctl, w: WorldState, f: Frame)
    requires ValidCtl(c)
    requires var s := SmoothedTrigger(c).state;
      s == DistanceHolding || s == ContinueDistanceHolding || s == ContinueFarTrigger || s == Release
    ensures ValidCtl(Tick(c, w, f).ctl)
  {
  }

  lemma ValidAfterNear(c: Ctl, w: WorldState, f: Frame)
    requires ValidCtl(c)
    requires var s := SmoothedTrigger(c).state; s == NearGrabbing || s == Equip || s == EquipSpring
    ensures ValidCtl(Tick(c, w, f).ctl)
  {
  }

  lemma ValidAfterCallsOnly(c: Ctl, w: WorldState, f: Frame)
    requires ValidCtl(c)
    requires var s := SmoothedTrigger(c).state;
      s == WaitingForBumperRelease || s == ContinueNearGrabbing || s == ContinueEquipBumperDown
      || s == ContinueEquip || s == NearTrigger || s == ContinueNearTrigger || s == FarTrigger
    ensures ValidCtl(Tick(c, w, f).ctl)
  {
  }

  /** Where a search can lead, and that it never holds an action. */
  lemma SearchOutcomes(c: Ctl, w: WorldState, f: Frame)
    requires IsSearch(c.state) && c.actionID.None?
    ensures var m := SearchStep(c, w, f);
      m.ctl.actionID.None? && m.ctl.equipSpringID == c.equipSpringID
      && m.ctl.state in {c.state, Release, NearTrigger, NearGrabbing, DistanceHolding, FarTrigger, Equip}
      && (m.ctl.state != c.state && m.ctl.state != Release ==> m.ctl.grabbedEntity.Some?)
      && (m.ctl.state == Release <==> if c.state == Searching then TriggerSmoothedReleased(c) else BumperReleased(c))
  {
    var c0 := c.(grabbedEntity := None);
    var cast := f.now - c.lastPickTime > PICK_INTERVAL_MSECS;
    var c1 := if cast then c0.(lastPickTime := f.now) else c0;
    var w1 := if cast then Emit(w, PickRay(c.hand)) else w;
    match NearestIndex(f.nearby)
    case None =>
    case Some(k) =>
  }

  // ---------------------------------------------------------------- idle

  /**
   * From idle, a squeezed (smoothed) trigger starts a search and otherwise a
   * squeezed bumper starts an equip search, each with the pick clock reset;
   * the touch test runs either way.
   */
  lemma OffTransitions(c: Ctl, w: WorldState, f: Frame)
    requires ValidCtl(c) && c.state == Off
    ensures var t := SmoothedTrigger(c).triggerValue;
      var m := Tick(c, w, f);
      m.ctl.state == (if t > TRIGGER_ON_VALUE then Searching
                      else if c.rawBumperValue > BUMPER_ON_VALUE then EquipSearching
                      else Off)
      && (m.ctl.state != Off ==> m.ctl.lastPickTime == 0)
      && m.ctl.grabbedEntity == c.grabbedEntity && m.world.entities == w.entities
  {
    TouchTestFrame(Machine(OffStep(SmoothedTrigger(c)), w), f.touches);
  }

  // ---------------------------------------------------------------- trigger smoothing

  /** A trigger pulled all the way engages on the first update, from any smoothed value in [0, 1]. */
  lemma FullPressEngagesInOneUpdate(c: Ctl)
    requires c.rawTriggerValue == 1.0 && 0.0 <= c.triggerValue <= 1.0
    ensures TriggerSmoothedSqueezed(SmoothedTrigger(c))
  {
  }

  /** A trigger let go completely disengages on the first update, from any smoothed value in [0, 1]. */
  lemma FullReleaseDisengagesInOneUpdate(c: Ctl)
    requires c.rawTriggerValue == 0.0 && 0.0 <= c.triggerValue <= 1.0
    ensures TriggerSmoothedReleased(SmoothedTrigger(c))
  {
  }

  /**
   * The hysteresis band: while the smoothed trigger stays between the two
   * thresholds, idle does not start a search (unless the bumper does), and
   * neither a search nor a near grab lets go.
   */
  lemma TriggerBandKeepsState(c: Ctl, w: WorldState, f: Frame)
    requires ValidCtl(c)
    requires TRIGGER_OFF_VALUE <= SmoothedTrigger(c).triggerValue <= TRIGGER_ON_VALUE
    ensures c.state == Off && c.rawBumperValue <= BUMPER_ON_VALUE ==> Tick(c, w, f).ctl.state == Off
    ensures c.state == Searching || c.state == ContinueNearGrabbing ==> Tick(c, w, f).ctl.state != Release
  {
    if c.state == Off {
      TouchTestFrame(Machine(OffStep(SmoothedTrigger(c)), w), f.touches);
    } else if c.state == Searching {
      SearchOutcomes(SmoothedTrigger(c), w, f);
    }
  }

  // ---------------------------------------------------------------- selection

  /**
   * A distance hold only ever starts on the entity the pick ray hit this
   * update, an entity that is dynamic, unlocked, farther than
   * NEAR_PICK_MAX_DISTANCE and not distance-grabbed by another avatar.
   */
  lemma DistanceHoldOnlyOnFreeRayHit(c: Ctl, w: WorldState, f: Frame)
    requires ValidCtl(c) && c.state == Searching
    ensures var m := Tick(c, w, f);
      m.ctl.state == DistanceHolding ==>
        f.now - c.lastPickTime > PICK_INTERVAL_MSECS && f.rayHit.Some?
        && m.ctl.grabbedEntity == Some(f.rayHit.value.view.id)
        && !GrabbedByOther(f.rayHit.value.view.actionTags, c.session)
        && f.rayHit.value.view.collisionsWillMove && !f.rayHit.value.view.locked
        && NEAR_PICK_MAX_DISTANCE < f.rayHit.value.distance <= PICK_MAX_DISTANCE
  {
    var c1 := SmoothedTrigger(c);
    match NearestIndex(f.nearby)
    case None =>
    case Some(k) =>
  }

  /**
   * When the pick ray is not cast this update (or hits nothing), a search that
   * moves on does so with the nearest eligible entity of the sphere test.
   */
  lemma SphereFallbackTakesNearest(c: Ctl, w: WorldState, f: Frame)
    requires ValidCtl(c) && IsSearch(c.state)
    requires f.now - c.lastPickTime <= PICK_INTERVAL_MSECS || f.rayHit.None?
    ensures var m := Tick(c, w, f);
      m.ctl.state != c.state && m.ctl.state != Release ==>
        exists k: nat :: IsNearest(f.nearby, k) && m.ctl.grabbedEntity == Some(f.nearby[k].view.id)
                    && SphereOutcome(c.state, f.nearby[k]) == Some(m.ctl.state)
  {
    NearestIndexCorrect(f.nearby);
  }

  // ---------------------------------------------------------------- adding actions

  /**
   * When the engine refuses the spring (`addAction` gives the null id), the
   * hand stays in DistanceHolding with no action and nothing activated, and
   * tries again on the next update.
   */
  lemma NullSpringRetries(c: Ctl, w: WorldState, f: Frame)
    requires ValidCtl(c) && c.state == DistanceHolding && f.newActionId == NULL_ACTION_ID
    ensures var m := Tick(c, w, f);
      m.ctl.state == DistanceHolding && m.ctl.actionID.None? && m.world.entities == w.entities
      && m.world.log == w.log + [AddAction(Spring, c.grabbedEntity.value, Some(GetTag(c.session)))]
  {
  }

  /** Likewise for the hold action of a near grab or an equip: no action, nothing activated, retried. */
  lemma NullHoldRetries(c: Ctl, w: WorldState, f: Frame)
    requires ValidCtl(c) && (c.state == NearGrabbing || c.state == Equip) && f.newActionId == NULL_ACTION_ID
    requires !(c.state == NearGrabbing && TriggerSmoothedReleased(SmoothedTrigger(c)))
    ensures var m := Tick(c, w, f);
      m.ctl.state == c.state && m.ctl.actionID.None? && m.world.entities == w.entities
      && m.world.log == w.log + [AddAction(Hold, c.grabbedEntity.value, None)]
  {
  }

  /** A successful distance hold stores the new action, tags it as this avatar's, and activates the entity. */
  lemma SpringStartsDistanceHold(c: Ctl, w: WorldState, f: Frame)
    requires ValidCtl(c) && c.state == DistanceHolding && f.newActionId != NULL_ACTION_ID
    ensures var m := Tick(c, w, f);
      var e := c.grabbedEntity.value;
      m.ctl.state == ContinueDistanceHolding && m.ctl.actionID == Some(f.newActionId)
      && m.ctl.actionTimeout == f.now + 15000
      && (e in w.entities ==> ReferenceCount(EntityOf(m.world, e)) == ReferenceCount(EntityOf(w, e)) + 1)
      && w.log + [AddAction(Spring, e, Some(GetTag(c.session)))] <= m.world.log
  {
  }

  // ---------------------------------------------------------------- equipping

  /** The bumper walks an equipped entity through its states: down, up, down again, then up to let go. */
  lemma EquipBumperCycle(c: Ctl, w: WorldState, f: Frame)
    requires ValidCtl(c)
    ensures var m := Tick(c, w, f);
      (c.state == ContinueEquipBumperDown && c.rawBumperValue < BUMPER_ON_VALUE ==>
         m.ctl.state == ContinueEquip && m.world == w)
      && (c.state == ContinueEquip && c.rawBumperValue > BUMPER_ON_VALUE ==>
            m.ctl.state == WaitingForBumperRelease && m.world == w)
      && (c.state == WaitingForBumperRelease && c.rawBumperValue < BUMPER_ON_VALUE ==>
            m.ctl.state == Release
            && m.world.log == w.log + [CallEntityMethod(c.grabbedEntity.value, "releaseGrab"),
                                       CallEntityMethod(c.grabbedEntity.value, "unequip")])
      && (c.state == WaitingForBumperRelease && c.rawBumperValue >= BUMPER_ON_VALUE ==>
            m.ctl == SmoothedTrigger(c) && m.world == w)
  {
  }

  /** Squeezing the bumper during a near grab turns it into an equip, keeping the action. */
  lemma BumperTurnsNearGrabIntoEquip(c: Ctl, w: WorldState, f: Frame)
    requires ValidCtl(c) && c.state == ContinueNearGrabbing && c.rawBumperValue > BUMPER_ON_VALUE
    requires !TriggerSmoothedReleased(SmoothedTrigger(c))
    ensures var m := Tick(c, w, f);
      m.ctl.state == ContinueEquipBumperDown && m.ctl.actionID == c.actionID
      && m.world.log == w.log + [CallEntityMethod(c.grabbedEntity.value, "startEquip")]
  {
  }

  /** Letting go of the trigger during a near grab releases it and tells the entity `releaseGrab`. */
  lemma TriggerReleaseEndsNearGrab(c: Ctl, w: WorldState, f: Frame)
    requires ValidCtl(c) && c.state == ContinueNearGrabbing && TriggerSmoothedReleased(SmoothedTrigger(c))
    ensures var m := Tick(c, w, f);
      m.ctl.state == Release && m.ctl.grabbedEntity == c.grabbedEntity && m.ctl.actionID == c.actionID
      && m.world.entities == w.entities
      && m.world.log == w.log + [CallEntityMethod(c.grabbedEntity.value, "releaseGrab")]
  {
  }

  /**
   * Squeezing the bumper during a distance hold of an entity with a spatial key
   * releases the spring and equips the same entity.
   */
  lemma BumperTurnsDistanceHoldIntoEquip(c: Ctl, w: WorldState, f: Frame)
    requires ValidCtl(c) && c.state == ContinueDistanceHolding && c.rawBumperValue > BUMPER_ON_VALUE
    requires !TriggerSmoothedReleased(SmoothedTrigger(c)) && f.grabbedData.spatialKey.Some?
    ensures var m := Tick(c, w, f);
      m.ctl.state == Equip && m.ctl.grabbedEntity == c.grabbedEntity && m.ctl.actionID.None?
      && w.log + [DeleteAction(c.grabbedEntity.value, c.actionID.value)] <= m.world.log
  {
  }

  /** A held action is refreshed exactly when fewer than ACTION_TTL_REFRESH seconds of it remain. */
  lemma HoldRefreshedBeforeExpiry(c: Ctl, w: WorldState, f: Frame)
    requires ValidCtl(c) && c.state == ContinueNearGrabbing
    requires !TriggerSmoothedReleased(SmoothedTrigger(c)) && !(c.rawBumperValue > BUMPER_ON_VALUE)
    ensures var m := Tick(c, w, f);
      m.ctl.state == ContinueNearGrabbing
      && (UpdateAction(c.grabbedEntity.value, c.actionID.value) in m.world.log[|w.log|..]
          <==> c.actionTimeout - f.now < 5000)
      && m.ctl.actionTimeout == (if c.actionTimeout - f.now < 5000 then f.now + 15000 else c.actionTimeout)
  {
    var e := c.grabbedEntity.value;
    var m := Tick(c, w, f);
    if c.actionTimeout - f.now < 5000 {
      assert m.world.log[|w.log|..] == [CallEntityMethod(e, "continueNearGrab"), UpdateAction(e, c.actionID.value)];
    } else {
      assert m.world.log[|w.log|..] == [CallEntityMethod(e, "continueNearGrab")];
    }
  }

  /** If the equip spring cannot be created the hand gives up and goes idle. */
  lemma NullEquipSpringGivesUp(c: Ctl, w: WorldState, f: Frame)
    requires ValidCtl(c) && c.state == EquipSpring && c.equipSpringID.None? && f.newActionId == NULL_ACTION_ID
    ensures var m := Tick(c, w, f);
      m.ctl.state == Off && m.ctl.equipSpringID.None? && m.world.entities == w.entities
  {
  }

  /** Once the pulled entity is close enough its spring is deleted and the entity is equipped. */
  lemma EquipSpringArrives(c: Ctl, w: WorldState, f: Frame)
    requires ValidCtl(c) && c.state == EquipSpring && c.equipSpringID.Some?
    requires f.equipDistance < EQUIP_SPRING_SHUTOFF_DISTANCE
    ensures var m := Tick(c, w, f);
      var e := c.grabbedEntity.value;
      m.ctl.state == Equip && m.ctl.equipSpringID.None?
      && m.world.log == w.log + [UpdateAction(e, c.equipSpringID.value), DeleteAction(e, c.equipSpringID.value)]
  {
  }

  // ---------------------------------------------------------------- release

  /**
   * Release goes idle with no entity and no action; it deletes the hand's
   * action and undoes its activation exactly when it held one.
   */
  lemma ReleaseGoesIdle(c: Ctl, w: WorldState, f: Frame)
    requires ValidCtl(c) && c.state == Release
    ensures var m := Tick(c, w, f);
      m.ctl == Reset(SmoothedTrigger(c))
      && (c.actionID.Some? ==>
            var e := c.grabbedEntity.value;
            w.log + [DeleteAction(e, c.actionID.value)] <= m.world.log
            && (e in w.entities ==> EntityOf(m.world, e) == Deactivated(EntityOf(w, e))))
      && (c.actionID.None? ==> m.world == w)
  {
  }

  /** Releasing twice does nothing the first release did not: no second delete, no second deactivation. */
  lemma ReleaseIdempotent(c: Ctl, w: WorldState)
    ensures var m := ReleaseStep(c, w);
      ReleaseStep(m.ctl, m.world) == m
  {
  }

  /** Every way out of a far trigger stops the far trigger by name. */
  lemma FarTriggerStopsByName(c: Ctl, w: WorldState, f: Frame)
    requires ValidCtl(c) && c.state == ContinueFarTrigger
    ensures var m := Tick(c, w, f);
      m.ctl.state == Release ==>
        m.world.log[|m.world.log| - 1] == CallEntityMethod(c.grabbedEntity.value, "stopFarTrigger")
  {
  }
}
