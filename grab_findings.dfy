/**
 * Three handlers as the script writes them, next to the corrected handlers
 * GrabMachine uses, with the inputs on which the two differ.
 */
module GrabFindings {
  import opened Wrappers
  import opened GrabTypes
  import opened GrabMetadata
  import opened ActivationLedger
  import opened GrabWorld
  import opened GrabMachine

  // ---------------------------------------------------------------- continueFarTrigger

  /** `continueFarTrigger` as written: letting go of the trigger sends `stopNearTrigger`. */
  function ContinueFarTriggerAsWritten(c: Ctl, w: WorldState, f: Frame): (m: Machine)
    requires c.grabbedEntity.Some?
    ensures TriggerSmoothedReleased(c) ==>
      m == Machine(c.(state := Release), Call(w, c.grabbedEntity.value, "stopNearTrigger"))
  {
    ContinueFarTriggerWith(c, w, f, "stopNearTrigger")
  }

  /**
   * A far trigger started with `startFarTrigger` and let go is told
   * `stopNearTrigger` as written, and `stopFarTrigger` when corrected.
   */
  lemma FarTriggerReleaseSendsNearStop(c: Ctl, w: WorldState, f: Frame)
    requires c.state == FarTrigger && c.grabbedEntity.Some? && !TriggerSmoothedReleased(c)
    ensures var e := c.grabbedEntity.value;
      var started := FarTriggerStep(c, w);
      var letGo := started.ctl.(triggerValue := 0.0);
      var asWritten := ContinueFarTriggerAsWritten(letGo, started.world, f);
      var corrected := ContinueFarTriggerStep(letGo, started.world, f);
      started.world.log[|started.world.log| - 1] == CallEntityMethod(e, "startFarTrigger")
      && asWritten.world.log == started.world.log + [CallEntityMethod(e, "stopNearTrigger")]
      && corrected.world.log == started.world.log + [CallEntityMethod(e, "stopFarTrigger")]
      && asWritten.ctl.state == Release && corrected.ctl.state == Release
  {
  }

  // ---------------------------------------------------------------- nearGrabbing

  /**
   * `nearGrabbing` as written: the entity is activated and made kinematic
   * before the hold is added, and a refused hold leaves the activation in
   * place while the state stays put, so the next update activates again.
   */
  function NearGrabbingAsWritten(c: Ctl, w: WorldState, f: Frame): (m: Machine)
    requires c.grabbedEntity.Some?
    ensures !(c.state == NearGrabbing && TriggerSmoothedReleased(c)) && f.newActionId == NULL_ACTION_ID ==>
      m.ctl.actionID.None? && m.ctl.state == c.state
      && ReferenceCount(EntityOf(m.world, c.grabbedEntity.value))
         == ReferenceCount(EntityOf(w, c.grabbedEntity.value)) + (if c.grabbedEntity.value in w.entities then 1 else 0)
  {
    var e := c.grabbedEntity.value;
    if c.state == NearGrabbing && TriggerSmoothedReleased(c) then Machine(c.(state := Release), Call(w, e, "releaseGrab"))
    else
      var props := EntityOf(w, e).props;
      var w2 := KinematicActivation(w, e, c.session, f.grabbedData.invertSolidWhileHeld, props.collisionsWillMove);
      var c1 := c.(offset := HoldOffset(c, f));
      var w3 := Emit(w2, AddAction(Hold, e, None));
      if f.newActionId == NULL_ACTION_ID then Machine(c1.(actionID := None), w3)
      else NearGrabStarted(c1.(actionID := Some(f.newActionId), actionTimeout := ActionTimeoutFrom(f.now)), w3, e)
  }

  // ---------------------------------------------------------------- release

  /** `release` as written: the entity is deactivated whether or not this hand activated it. */
  function ReleaseAsWritten(c: Ctl, w: WorldState): (m: Machine)
    ensures m.ctl == Reset(c)
    ensures c.grabbedEntity.Some? && c.grabbedEntity.value in w.entities ==>
      EntityOf(m.world, c.grabbedEntity.value) == Deactivated(EntityOf(w, c.grabbedEntity.value))
  {
    var w1 := if c.grabbedEntity.Some? && c.actionID.Some?
              then Emit(w, DeleteAction(c.grabbedEntity.value, c.actionID.value)) else w;
    Machine(Reset(c), Deactivation(w1, c.grabbedEntity))
  }

  /**
   * A hand that only triggered an entity (it never activated it) releases it
   * while the other hand holds it: as written the other hand's activation is
   * undone, gravity and solidity come back mid-hold; corrected, nothing changes.
   */
  lemma ForeignDeactivation(c: Ctl, w: WorldState, e: EntityId, held: GrabData, props: PhysProps)
    requires c.state == Release && c.grabbedEntity == Some(e) && c.actionID.None?
    requires e in w.entities && w.entities[e] == Entity(props, Some(held)) && held.refCount == 1
    ensures var asWritten := ReleaseAsWritten(c, w);
      EntityOf(asWritten.world, e) == Entity(held.saved, None)
      && ReleaseStep(c, w).world == w
  {
  }

  /**
   * Two refused holds followed by letting go of the trigger and the release:
   * as written the entity keeps one activation that nobody owns, with gravity
   * still zero; corrected, the entity is exactly as it was.
   */
  lemma FailedHoldLeaksActivation(c: Ctl, w: WorldState, f: Frame, e: EntityId, props: PhysProps)
    requires c.state == NearGrabbing && c.grabbedEntity == Some(e) && c.actionID.None?
    requires !TriggerSmoothedReleased(c) && f.newActionId == NULL_ACTION_ID
    requires e in w.entities && w.entities[e] == Entity(props, None) && props.gravity != ZERO_VEC
    ensures var m1 := NearGrabbingAsWritten(c, w, f);
      var m2 := NearGrabbingAsWritten(m1.ctl, m1.world, f);
      var m3 := NearGrabbingAsWritten(m2.ctl.(triggerValue := 0.0), m2.world, f);
      var m4 := ReleaseAsWritten(m3.ctl, m3.world);
      m4.ctl.state == Off && m4.ctl.actionID.None?
      && ReferenceCount(EntityOf(m4.world, e)) == 1 && EntityOf(m4.world, e).props.gravity == ZERO_VEC
    ensures var m1 := NearGrabbingStep(c, w, f);
      var m2 := NearGrabbingStep(m1.ctl, m1.world, f);
      var m3 := NearGrabbingStep(m2.ctl.(triggerValue := 0.0), m2.world, f);
      var m4 := ReleaseStep(m3.ctl, m3.world);
      m4.ctl.state == Off && EntityOf(m4.world, e) == Entity(props, None)
  {
    var m1 := NearGrabbingAsWritten(c, w, f);
    assert ReferenceCount(EntityOf(m1.world, e)) == 1 && m1.world.entities.Keys == w.entities.Keys;
    var m2 := NearGrabbingAsWritten(m1.ctl, m1.world, f);
    assert ReferenceCount(EntityOf(m2.world, e)) == 2;
    var m3 := NearGrabbingAsWritten(m2.ctl.(triggerValue := 0.0), m2.world, f);
    assert m3.world.entities == m2.world.entities && m3.ctl.state == Release;
  }

  /**
   * The corrected `nearGrabbing` owes a deactivation exactly for the
   * activation it made: a refused hold leaves the entity alone.
   */
  lemma RefusedHoldLeavesEntityAlone(c: Ctl, w: WorldState, f: Frame)
    requires c.grabbedEntity.Some? && !(c.state == NearGrabbing && TriggerSmoothedReleased(c))
    requires f.newActionId == NULL_ACTION_ID
    ensures var m := NearGrabbingStep(c, w, f);
      m.world.entities == w.entities && m.ctl.actionID.None?
  {
  }
}
