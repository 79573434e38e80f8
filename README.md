# Hand-controller grabbing and the collision-shape cache

This project models two parts of the High Fidelity client.

**The per-hand grab controller** (`handControllerGrab.js`). Each hand runs a 17-state machine once per update:

- it searches for a target with a rate-limited pick ray, then falls back to a sphere around the palm;
- it grabs from a distance with a spring action, grabs near with a hold action, equips with the bumper, or triggers an entity far or near;
- it releases again.

While an entity is held, its gravity, solidity and dynamic flag are borrowed through a per-entity grab record that counts holders. Touch start, continue and stop events follow the set of entities the palms are inside.

The geometry is not modelled. Poses, rotations and distances are inputs of one update (a `Frame`): the clock, the ray hit, the entities within grab radius, what `addAction` returns, the computed hold offset, the distance of an equip target and the touch probes. The engine (`Entities.*`) is a store of entities together with an appended log of the calls made to it. Two kinds of call change the store (`editEntity` and the grab record); the log records every ray cast, action added, action updated or deleted, and `callEntityMethod`.

The model is layered:

| Module | What it holds |
|---|---|
| `GrabTypes` | states, state codes and `stateToName` |
| `GrabMetadata` | action tags, `entityIsGrabbedByOther`, spatial offsets |
| `ActivationLedger` | the grab record |
| `GrabSelect` | ray-hit classification and nearest-candidate selection |
| `GrabWorld` | the engine store and the log |
| `GrabMachine` | each handler as a function, and `Tick` for `update`; `nearGrabbing`, `continueFarTrigger` and `release` in their corrected form (see "## Findings") |
| `GrabTheorems`, `GrabAccounting` | properties of `Tick`, the corrected update, and of runs of it |
| `GrabFindings` | three handlers as written, next to the corrected ones |
| `GrabController` | the `MyController` class, whose methods are proved to implement the handler functions |

**The collision-shape cache** (`ShapeManager.cpp`) is the module `PhysicsShapes`:

- it maps a shape-description hash to a shape and its reference count;
- it queues keys whose count drops to zero as pending garbage;
- it collects them later, or at once when more than 255 are queued.

`Cache` is the state as a value and `ShapeManager` the class. Every method is proved to implement its function on `Cache` and to keep the invariant. The invariant says that:

- every entry sits under its own key;
- no shape is held twice;
- every unreferenced entry is queued;
- the queue never exceeds 255.

## Model

| member | source | states |
|---|---|---|
| GrabTypes.Code | examples/controllers/handControllerGrab.js:121-137 | every state has a code below the number of states (17) |
| GrabTypes.FromCode | examples/controllers/handControllerGrab.js:121-137 | a code names a state iff it is in 0..16, and that state's code is the number given |
| GrabTypes.CodeRoundTrip | examples/controllers/handControllerGrab.js:121-137 | decoding a state's code gives the state back |
| GrabTypes.StateToName | examples/controllers/handControllerGrab.js:140-179 | the name is "unknown" exactly for numbers that are no state code |
| GrabTypes.NamesIdentifyStates | examples/controllers/handControllerGrab.js:140-179 | a state's name identifies the state (names to states inverts `stateToName`) |
| GrabTypes.NamesDistinct | examples/controllers/handControllerGrab.js:140-179 | two different states never share a name |
| GrabMetadata.GetTag | examples/controllers/handControllerGrab.js:181-183 | the tag is "grab-" followed by exactly the session id |
| GrabMetadata.SliceIsPrefixTest | examples/controllers/handControllerGrab.js:196 | the first five characters equal "grab-" iff the tag starts with "grab-" |
| GrabMetadata.EntityIsGrabbedByOther | examples/controllers/handControllerGrab.js:185-202 | true iff some action tag starts with "grab-" and differs from this avatar's own tag |
| GrabMetadata.IsForeignGrabTag | examples/controllers/handControllerGrab.js:185-202 | definition, no contract of its own: a tag that starts with "grab-" and is not this avatar's own tag |
| GrabMetadata.GrabbedByOther | examples/controllers/handControllerGrab.js:185-202 | definition, no contract of its own: some action tag is foreign; GrabMetadata.GrabbedByOtherIsPrefixScan proves the loop computes it |
| GrabMetadata.GrabbedByOtherIsPrefixScan | examples/controllers/handControllerGrab.js:185-202 | the slice test of the loop and the prefix predicate agree on every tag list |
| GrabMetadata.OwnTagsNeverForeign | examples/controllers/handControllerGrab.js:185-202 | an entity held only by this avatar is never reported as grabbed by another |
| GrabMetadata.OtherSessionTagSeen | examples/controllers/handControllerGrab.js:185-202 | a tag of any other session is reported as grabbed by another |
| GrabMetadata.FirstPresent | examples/controllers/handControllerGrab.js:204-230 | the value of the first present source, and never a later one; the fallback when none is present |
| GrabMetadata.FirstPresentOfThree | examples/controllers/handControllerGrab.js:204-230 | for three sources: first, else second, else third, else fallback |
| GrabMetadata.SpatialOffsetPosition | examples/controllers/handControllerGrab.js:204-216 | the hand-specific position (right for the right hand, left otherwise), else the generic one, else zero |
| GrabMetadata.SpatialOffsetRotation | examples/controllers/handControllerGrab.js:218-230 | the same precedence for the rotation, ending in the identity |
| GrabMetadata.OffsetIgnoresOtherHand | examples/controllers/handControllerGrab.js:204-230 | the other hand's values never influence an offset |
| GrabMetadata.HandSpecificWins | examples/controllers/handControllerGrab.js:204-216 | a hand-specific position, when present, is the answer whatever the generic one is |
| ActivationLedger.Activated | examples/controllers/handControllerGrab.js:1324-1351 | the count goes up by one (1 from an absent or zero count); the first holder saves gravity, solidity and dynamic flag and zeroes gravity, inverting solidity only when asked; later holders change no property |
| ActivationLedger.DeactivationEdit | examples/controllers/handControllerGrab.js:1353-1369 | `deactivateEntity` edits the entity iff it was the last holder |
| ActivationLedger.Deactivated | examples/controllers/handControllerGrab.js:1353-1369 | the count goes down by one and never below zero; the last holder restores the saved properties and clears the record; an entity with no count keeps its properties and ends with no record |
| ActivationLedger.ActivationKeepsRecordsLive | examples/controllers/handControllerGrab.js:1324-1351 | after an activation no record says zero holders |
| ActivationLedger.DeactivationKeepsRecordsLive | examples/controllers/handControllerGrab.js:1353-1369 | after a deactivation no record says zero holders |
| ActivationLedger.RunBalancedRestores | examples/controllers/handControllerGrab.js:1324-1369 | from any depth of holders, balanced grabs, releases and edits while held end in the entity as it was before the first grab |
| ActivationLedger.BalancedGrabsRestoreEntity | examples/controllers/handControllerGrab.js:1324-1369 | balanced grabs and releases of an ungrabbed entity restore it exactly |
| ActivationLedger.UngrabsBalance | examples/controllers/handControllerGrab.js:1353-1369 | n releases balance n holders |
| ActivationLedger.GrabsThenBalance | examples/controllers/handControllerGrab.js:1324-1351 | k grabs in front of operations that balance k more holders keep them balanced |
| ActivationLedger.NGrabsNReleases | examples/controllers/handControllerGrab.js:1324-1369 | n activations followed by n deactivations restore the original entity |
| GrabSelect.ClassifyHit | examples/controllers/handControllerGrab.js:638-692 | skips non-grabbable, debug and too-distant hits. Up to 0.3 away: `wantsTrigger` gives near trigger, else unlocked gives near grab (equip when equip-searching). Farther: free, dynamic and unlocked gives distance hold from searching, or equip from equip-searching with a spatial key; else `wantsTrigger` gives far trigger. Each outcome holds iff its condition does |
| GrabSelect.SphereOutcome | examples/controllers/handControllerGrab.js:769-783 | near trigger iff the nearest candidate wants triggers; otherwise a grab (near grab or equip, by search state) iff it is unlocked and dynamic |
| GrabSelect.SphereEligible | examples/controllers/handControllerGrab.js:728-766 | definition, no contract of its own: the filters of the sphere loop: grabbable, not of an ungrabbable type, not locked unless it wants triggers, not the debug or line entity |
| GrabSelect.NearestUnique | examples/controllers/handControllerGrab.js:724-768 | the strictly-nearest, first-on-ties candidate is unique |
| GrabSelect.NearestOrNone | examples/controllers/handControllerGrab.js:724-768 | a nearest candidate and "no eligible candidate within the ray length" exclude each other |
| GrabSelect.Scan | examples/controllers/handControllerGrab.js:737-768 | the loop's running result: no choice keeps the ray length as minimum, a choice is an earlier index whose distance is the minimum |
| GrabSelect.ScanKeepsInvariant | examples/controllers/handControllerGrab.js:737-768 | after each prefix, the choice is the first eligible candidate of least distance below the ray length, and nothing earlier is nearer |
| GrabSelect.NearestIndexCorrect | examples/controllers/handControllerGrab.js:724-768 | the scan finds the nearest eligible candidate, and finds none iff none is eligible within the ray length |
| GrabSelect.NearestIndex | examples/controllers/handControllerGrab.js:724-775 | definition, no contract of its own: the reference choice: the first strictly nearest eligible candidate nearer than PICK_MAX_DISTANCE. Proved in GrabSelect.NearestIndexCorrect |
| GrabSelect.SelectNearest | examples/controllers/handControllerGrab.js:737-768 | the loop returns the nearest eligible candidate, or none when none is eligible |
| GrabSelect.SelectNearestIsNearestIndex | examples/controllers/handControllerGrab.js:724-768 | any answer meeting that contract is the specification's choice |
| GrabWorld.Store | examples/controllers/handControllerGrab.js:1349 | writes one entity's record when it exists, nothing else, and logs nothing |
| GrabWorld.EditProps | examples/controllers/handControllerGrab.js:1346 | logs the edit, applies it to that entity when present, and to no other |
| GrabWorld.World.Record | examples/controllers/handControllerGrab.js:1004-1012 | an engine request (such as `addAction`) is appended to the log, exactly as Emit, and no entity changes |
| GrabWorld.World.Edit | examples/controllers/handControllerGrab.js:980-982 | `editEntity` logs the edit and applies it to that entity only, exactly as EditProps |
| GrabWorld.World.GetEntity | examples/controllers/handControllerGrab.js:977 | `getEntityProperties` reads the entity as EntityOf gives it, the defaults for an absent one, and changes nothing |
| GrabWorld.World.SetGrabData | examples/controllers/handControllerGrab.js:1349 | `setEntityCustomData` of the grab record replaces that entity's record only, exactly as Store |
| GrabMachine.SmoothedTrigger | examples/controllers/handControllerGrab.js:547-552 | only the smoothed value changes, and its distance to the raw value shrinks to a tenth |
| GrabMachine.TriggerSmoothedSqueezed | examples/controllers/handControllerGrab.js:554-556 | definition, no contract of its own: the smoothed trigger is above TRIGGER_ON_VALUE (0.4). Its threshold appears in GrabTheorems.OffTransitions and FullPressEngagesInOneUpdate |
| GrabMachine.TriggerSmoothedReleased | examples/controllers/handControllerGrab.js:558-560 | definition, no contract of its own: the smoothed trigger is below TRIGGER_OFF_VALUE (0.15). Its threshold appears in GrabTheorems.FullReleaseDisengagesInOneUpdate, TriggerReleaseEndsNearGrab and SearchOutcomes; GrabTheorems.TriggerBandKeepsState covers the band between the two thresholds |
| GrabMachine.BumperSqueezed | examples/controllers/handControllerGrab.js:567-569 | definition, no contract of its own: the raw bumper is above BUMPER_ON_VALUE (0.5). Its threshold appears in GrabTheorems.OffTransitions, EquipBumperCycle and BumperTurnsNearGrabIntoEquip |
| GrabMachine.BumperReleased | examples/controllers/handControllerGrab.js:571-573 | definition, no contract of its own: the raw bumper is below BUMPER_ON_VALUE (0.5), so exactly 0.5 is neither squeezed nor released. Its threshold appears in GrabTheorems.SearchOutcomes and EquipBumperCycle |
| GrabMachine.Activation | examples/controllers/handControllerGrab.js:1324-1351 | the entity becomes Activated, no other entity changes, and the edit is logged only for the first holder |
| GrabMachine.Deactivation | examples/controllers/handControllerGrab.js:1353-1369 | no entity for a null id; else the entity becomes Deactivated, no other changes, and the restoring edit is logged only for the last holder |
| GrabMachine.OffStep | examples/controllers/handControllerGrab.js:576-587 | definition, no contract of its own: idle: the trigger starts a search, else the bumper an equip search, each with the pick clock reset. Proved in GrabTheorems.OffTransitions |
| GrabMachine.TouchStep | examples/controllers/handControllerGrab.js:1234-1286 | definition, no contract of its own: one palm probe: `startTouch` for a newly entered entity, `continueTouch` while inside, `stopTouch` for one left. Proved in GrabAccounting.TouchStepKeepsBalance |
| GrabMachine.TouchTest | examples/controllers/handControllerGrab.js:1234-1286 | definition, no contract of its own: the probes in order. Proved in GrabAccounting.TouchTestKeepsBalance, TouchTestCastsNoRay and GrabTheorems.TouchTestFrame |
| GrabMachine.SearchStep | examples/controllers/handControllerGrab.js:589-595 | definition, no contract of its own: `search` releases when its control is let go, else runs the search proper. Proved in GrabTheorems.SearchOutcomes |
| GrabMachine.PickStep | examples/controllers/handControllerGrab.js:597-611 | definition, no contract of its own: the pick ray only when more than PICK_INTERVAL_MSECS have passed, else the sphere test. Proved in GrabAccounting.RaySearchAccounting |
| GrabMachine.RayStep | examples/controllers/handControllerGrab.js:613-695 | definition, no contract of its own: the state ClassifyHit gives the hit, else the sphere test. Proved in GrabTheorems.DistanceHoldOnlyOnFreeRayHit |
| GrabMachine.SphereSearch | examples/controllers/handControllerGrab.js:696-785 | definition, no contract of its own: the nearest eligible candidate and the state SphereOutcome gives it. Proved in GrabTheorems.SphereFallbackTakesNearest |
| GrabMachine.DistanceHoldingStep | examples/controllers/handControllerGrab.js:793-845 | definition, no contract of its own: adds the tagged spring; a kept spring activates the entity and continues. Proved in GrabTheorems.NullSpringRetries, SpringStartsDistanceHold and GrabAccounting.DistanceHoldingAccounted |
| GrabMachine.ContinueDistanceHoldingStep | examples/controllers/handControllerGrab.js:847-961 | definition, no contract of its own: release on let-go, equip on the bumper with a spatial key, else update the spring. Proved in GrabTheorems.BumperTurnsDistanceHoldIntoEquip and GrabAccounting.ContinueDistanceHoldingAccounted |
| GrabMachine.HoldOffset | examples/controllers/handControllerGrab.js:989-1001 | definition, no contract of its own: the spatial-key offset for an equip of an entity that has one, else the rigid offset of the frame |
| GrabMachine.KinematicActivation | examples/controllers/handControllerGrab.js:977-983 | definition, no contract of its own: `activateEntity`, then `collisionsWillMove: false` for a dynamic entity. Proved in GrabAccounting.KinematicActivationAccounts |
| GrabMachine.NearGrabbingStep | examples/controllers/handControllerGrab.js:963-1043 | definition, no contract of its own: CORRECTED `nearGrabbing`: the source activates before `addAction`; here only a granted hold activates (as written: GrabFindings.NearGrabbingAsWritten). Proved in GrabTheorems.NullHoldRetries and GrabAccounting.NearGrabbingAccounted |
| GrabMachine.NearGrabHold | examples/controllers/handControllerGrab.js:1003-1043 | definition, no contract of its own: the corrected tail of `nearGrabbing`: ask for the hold, activate and start only when it is granted |
| GrabMachine.NearGrabStarted | examples/controllers/handControllerGrab.js:1015-1035 | definition, no contract of its own: continue the near grab, or announce `startEquip` and continue the equip, then `setHand` and `startNearGrab` |
| GrabMachine.ContinueNearGrabbingStep | examples/controllers/handControllerGrab.js:1045-1099 | definition, no contract of its own: release, equip transitions, or the continue calls with the hold refreshed when due. Proved in GrabTheorems.TriggerReleaseEndsNearGrab, EquipBumperCycle, BumperTurnsNearGrabIntoEquip and HoldRefreshedBeforeExpiry |
| GrabMachine.WaitingForBumperReleaseStep | examples/controllers/handControllerGrab.js:1101-1109 | definition, no contract of its own: letting go of the bumper releases with `releaseGrab` and `unequip`. Proved in GrabTheorems.EquipBumperCycle |
| GrabMachine.PullTowardEquipPositionStep | examples/controllers/handControllerGrab.js:1111-1158 | definition, no contract of its own: add, update or (once close) delete the equip spring and equip. Proved in GrabTheorems.NullEquipSpringGivesUp and EquipSpringArrives |
| GrabMachine.NearTriggerStep | examples/controllers/handControllerGrab.js:1160-1176 | definition, no contract of its own: stop on let-go, else `setHand` and `startNearTrigger`. Proved in GrabAccounting.TriggerCallsOnly |
| GrabMachine.FarTriggerStep | examples/controllers/handControllerGrab.js:1178-1193 | definition, no contract of its own: stop on let-go, else `setHand` and `startFarTrigger`. Proved in GrabAccounting.TriggerCallsOnly |
| GrabMachine.ContinueNearTriggerStep | examples/controllers/handControllerGrab.js:1195-1203 | definition, no contract of its own: `stopNearTrigger` on let-go, else `continueNearTrigger`. Proved in GrabAccounting.TriggerCallsOnly |
| GrabMachine.ContinueFarTriggerStep | examples/controllers/handControllerGrab.js:1205-1231 | definition, no contract of its own: CORRECTED `continueFarTrigger`: `stopFarTrigger` on let-go where the source sends `stopNearTrigger` (as written: GrabFindings.ContinueFarTriggerAsWritten). Proved in GrabTheorems.FarTriggerStopsByName |
| GrabMachine.ReleaseStep | examples/controllers/handControllerGrab.js:1300-1316 | definition, no contract of its own: CORRECTED `release`: deletes the action and deactivates only when this hand holds an action, where the source always deactivates (as written: GrabFindings.ReleaseAsWritten). Proved in GrabTheorems.ReleaseGoesIdle and ReleaseIdempotent |
| GrabMachine.Handle | examples/controllers/handControllerGrab.js:267-314 | definition, no contract of its own: the switch of `update`: the handler of the current state |
| GrabMachine.Tick | examples/controllers/handControllerGrab.js:263-315 | definition, no contract of its own: `update` with the corrected handlers: smooth the trigger, then Handle. Proved in GrabTheorems.TickPreservesValid, GrabAccounting.TickAccounted and TickRayAccounting |
| GrabMachine.ValidCtl | examples/controllers/handControllerGrab.js:263-315 | definition, no contract of its own: the controller invariant: entity-handling states have an entity, holding states an action, and no null action id is stored. Kept by every update (GrabTheorems.TickPreservesValid) |
| GrabTheorems.TouchTestFrame | examples/controllers/handControllerGrab.js:1234-1286 | the touch test changes only the touched set, never an entity, and only appends entity-method calls |
| GrabTheorems.TickPreservesValid | examples/controllers/handControllerGrab.js:263-315 | every update keeps the controller invariant: a state that needs an entity has one, holding states hold an action, no other state does |
| GrabTheorems.SearchOutcomes | examples/controllers/handControllerGrab.js:589-791 | a search ends in the same state, release, or one of the five target states with an entity chosen, never holding an action; it releases exactly when its control (trigger for a search, bumper for an equip search) is let go |
| GrabTheorems.OffTransitions | examples/controllers/handControllerGrab.js:576-587 | from idle: squeezed trigger gives searching, else squeezed bumper gives equip-searching, else idle; the pick clock is reset to 0 on either transition |
| GrabTheorems.FullPressEngagesInOneUpdate | examples/controllers/handControllerGrab.js:547-556 | a trigger pulled fully engages on the first update |
| GrabTheorems.FullReleaseDisengagesInOneUpdate | examples/controllers/handControllerGrab.js:547-560 | a trigger let go fully disengages on the first update |
| GrabTheorems.TriggerBandKeepsState | examples/controllers/handControllerGrab.js:554-560 | while the smoothed trigger is between the off and on thresholds, idle stays idle (bumper up) and neither a search nor a near grab releases |
| GrabTheorems.DistanceHoldOnlyOnFreeRayHit | examples/controllers/handControllerGrab.js:606-692 | a distance hold starts only on this update's ray hit, cast after the interval, of a free, dynamic, unlocked entity between 0.3 and the ray length |
| GrabTheorems.SphereFallbackTakesNearest | examples/controllers/handControllerGrab.js:724-783 | without a ray result, a search moves on only with the nearest eligible candidate, to the state its flags give |
| GrabTheorems.NullSpringRetries | examples/controllers/handControllerGrab.js:814-829 | a refused spring leaves no action, no activation, the state unchanged, and only the attempt logged |
| GrabTheorems.NullHoldRetries | examples/controllers/handControllerGrab.js:1004-1014 | a refused hold leaves no action, the state unchanged, and no entity changed (corrected nearGrabbing) |
| GrabTheorems.SpringStartsDistanceHold | examples/controllers/handControllerGrab.js:814-838 | an accepted spring is kept with a 15-second timeout, tagged as this avatar's, and activates the entity once |
| GrabTheorems.EquipBumperCycle | examples/controllers/handControllerGrab.js:1045-1109 | bumper up after the equip press gives continue-equip; down again gives waiting; up then releases with releaseGrab and unequip; otherwise waiting waits |
| GrabTheorems.BumperTurnsNearGrabIntoEquip | examples/controllers/handControllerGrab.js:1059-1063 | the bumper during a near grab starts an equip with the same action |
| GrabTheorems.TriggerReleaseEndsNearGrab | examples/controllers/handControllerGrab.js:1045-1050 | letting go of the trigger during a near grab goes to release, keeps entity and action for it, and logs only `releaseGrab` |
| GrabTheorems.BumperTurnsDistanceHoldIntoEquip | examples/controllers/handControllerGrab.js:861-868 | the bumper during a distance hold of an entity with a spatial key deletes the spring and equips the same entity |
| GrabTheorems.HoldRefreshedBeforeExpiry | examples/controllers/handControllerGrab.js:1080-1098 | a held action is updated iff less than 5 seconds remain, and then lives 15 seconds more |
| GrabTheorems.NullEquipSpringGivesUp | examples/controllers/handControllerGrab.js:1128-1142 | a refused equip spring sends the hand back to idle |
| GrabTheorems.EquipSpringArrives | examples/controllers/handControllerGrab.js:1144-1157 | a spring close enough is updated, deleted and the entity equipped |
| GrabTheorems.ReleaseGoesIdle | examples/controllers/handControllerGrab.js:1300-1316 | release ends idle with no entity and no action; it deletes the action and deactivates exactly when it held one |
| GrabTheorems.ReleaseIdempotent | examples/controllers/handControllerGrab.js:1300-1316 | a second release deletes and deactivates nothing |
| GrabTheorems.FarTriggerStopsByName | examples/controllers/handControllerGrab.js:1205-1231 | every exit of a far trigger ends with stopFarTrigger (corrected continueFarTrigger) |
| GrabAccounting.TouchTestCastsNoRay | examples/controllers/handControllerGrab.js:1234-1286 | the touch test casts no ray |
| GrabAccounting.TickRayAccounting | examples/controllers/handControllerGrab.js:606-611 | an update casts one ray exactly when a search or a far trigger (the same test at lines 1218-1221) runs unreleased and the interval has passed; a cast sets the pick clock to now, and otherwise only leaving idle moves it (to 0) |
| GrabAccounting.RaySearchAccounting | examples/controllers/handControllerGrab.js:606-611 | a search casts one ray iff the interval has passed and it is not let go |
| GrabAccounting.RaysAtLeastIntervalApart | examples/controllers/handControllerGrab.js:606-611 | two consecutive casting updates are more than 200 ms apart |
| GrabAccounting.TouchStepKeepsBalance | examples/controllers/handControllerGrab.js:1234-1286 | per entity, startTouch calls equal stopTouch calls plus one while the entity is in the touched set; one probe keeps this |
| GrabAccounting.TouchTestKeepsBalance | examples/controllers/handControllerGrab.js:1234-1286 | the whole touch test keeps the balance |
| GrabAccounting.InitiallyTouchBalanced | examples/controllers/handControllerGrab.js:1233 | a new controller is balanced |
| GrabAccounting.OffAccounted | examples/controllers/handControllerGrab.js:576-587 | idle and the touch test change no grab count |
| GrabAccounting.SearchAccounted | examples/controllers/handControllerGrab.js:589-791 | a search changes no grab count |
| GrabAccounting.DistanceHoldingAccounted | examples/controllers/handControllerGrab.js:793-845 | the spring's activation is owed exactly when the action is kept |
| GrabAccounting.ContinueDistanceHoldingAccounted | examples/controllers/handControllerGrab.js:847-961 | continuing or the equip switch keep counts and what is owed in step (the switch deactivates what it owed) |
| GrabAccounting.NearGrabbingAccounted | examples/controllers/handControllerGrab.js:963-1043 | the corrected near grab activates exactly when its hold is kept |
| GrabAccounting.NearGrabSucceededAccounted | examples/controllers/handControllerGrab.js:1013-1035 | an accepted hold owes one activation and casts no ray |
| GrabAccounting.ContinueNearGrabbingCallsOnly | examples/controllers/handControllerGrab.js:1045-1099 | continuing a near grab or equip touches no entity, keeps its action, casts no ray |
| GrabAccounting.EquipSpringAccounted | examples/controllers/handControllerGrab.js:1111-1158 | pulling toward the equip position changes no grab count |
| GrabAccounting.TriggerCallsOnly | examples/controllers/handControllerGrab.js:1101-1203 | the trigger states and waiting for the bumper only call entity methods |
| GrabAccounting.ContinueFarTriggerAccounted | examples/controllers/handControllerGrab.js:1205-1231 | a far trigger changes no grab count |
| GrabAccounting.ReleaseAccounted | examples/controllers/handControllerGrab.js:1300-1316 | the corrected release gives back exactly what was owed |
| GrabAccounting.TickAccounted | examples/controllers/handControllerGrab.js:263-315 | every update of the corrected `Tick` keeps each entity's grab count minus what this hand owes, and keeps its saved properties the originals |
| GrabAccounting.Run | examples/controllers/handControllerGrab.js:263-315 | any run of updates (with the corrected handlers) keeps the controller invariant |
| GrabAccounting.RunKeepsAccounts | examples/controllers/handControllerGrab.js:1324-1369 | over any run of the corrected update, an entity's count is what this hand owes, and it is restored when nothing is owed |
| GrabAccounting.GrabLeavesNoTrace | examples/controllers/handControllerGrab.js:1324-1369 | after any run of the corrected update, once the hand holds no action, an entity it could have grabbed is exactly as before (false as written: GrabFindings.FailedHoldLeaksActivation) |
| GrabFindings.ContinueFarTriggerAsWritten | examples/controllers/handControllerGrab.js:1205-1212 | as written, letting go of a far trigger sends stopNearTrigger |
| GrabFindings.FarTriggerReleaseSendsNearStop | examples/controllers/handControllerGrab.js:1178-1212 | after startFarTrigger and letting go, as written logs stopNearTrigger and corrected logs stopFarTrigger |
| GrabFindings.NearGrabbingAsWritten | examples/controllers/handControllerGrab.js:963-1014 | as written, a refused hold still activates the entity, one more count per attempt |
| GrabFindings.FailedHoldLeaksActivation | examples/controllers/handControllerGrab.js:963-1014 | two refused holds, letting go and release leave the entity with one activation and zero gravity as written; corrected, it is as before |
| GrabFindings.ReleaseAsWritten | examples/controllers/handControllerGrab.js:1300-1316 | as written, release deactivates the entity whether or not this hand activated it |
| GrabFindings.ForeignDeactivation | examples/controllers/handControllerGrab.js:1300-1316 | releasing a triggered entity held by another hand restores its gravity as written; corrected, nothing changes |
| GrabFindings.RefusedHoldLeavesEntityAlone | examples/controllers/handControllerGrab.js:1004-1014 | with the correction, a refused hold leaves every entity alone and no action |
| GrabController.MyController.constructor | examples/controllers/handControllerGrab.js:232-261 | a new controller is idle, holding nothing, with an empty touched set |
| GrabController.MyController.TriggerPress | examples/controllers/handControllerGrab.js:538-540 | stores the raw trigger value, nothing else |
| GrabController.MyController.BumperPress | examples/controllers/handControllerGrab.js:542-544 | stores the raw bumper value, nothing else |
| GrabController.MyController.UpdateSmoothedTrigger | examples/controllers/handControllerGrab.js:547-552 | the fields become SmoothedTrigger of the old ones |
| GrabController.MyController.TriggerSmoothedSqueezed | examples/controllers/handControllerGrab.js:554-556 | definition, no contract of its own: the same test as GrabMachine.TriggerSmoothedSqueezed, on the controller's fields; the handler methods that use it are proved equal to the GrabMachine handlers |
| GrabController.MyController.TriggerSmoothedReleased | examples/controllers/handControllerGrab.js:558-560 | definition, no contract of its own: the same test as GrabMachine.TriggerSmoothedReleased, on the controller's fields; the handler methods that use it are proved equal to the GrabMachine handlers |
| GrabController.MyController.BumperSqueezed | examples/controllers/handControllerGrab.js:567-569 | definition, no contract of its own: the same test as GrabMachine.BumperSqueezed, on the controller's fields; the handler methods that use it are proved equal to the GrabMachine handlers |
| GrabController.MyController.BumperReleased | examples/controllers/handControllerGrab.js:571-573 | definition, no contract of its own: the same test as GrabMachine.BumperReleased, on the controller's fields; the handler methods that use it are proved equal to the GrabMachine handlers |
| GrabController.MyController.Update | examples/controllers/handControllerGrab.js:263-315 | one update changes fields and world exactly as Tick, and keeps the invariant |
| GrabController.MyController.HandleIdle | examples/controllers/handControllerGrab.js:267-314 | in idle, the two searches and release, the switch changes fields and world exactly as Handle |
| GrabController.MyController.HandleGrab | examples/controllers/handControllerGrab.js:267-314 | in the states that start a hold, the switch changes fields and world exactly as Handle |
| GrabController.MyController.HandleHeld | examples/controllers/handControllerGrab.js:267-314 | in the holding and trigger states, the switch changes fields and world exactly as Handle |
| GrabController.MyController.CallEntityMethod | examples/controllers/handControllerGrab.js:1163 | appends one entity-method call |
| GrabController.MyController.SetHand | examples/controllers/handControllerGrab.js:831-836 | logs setRightHand or setLeftHand, then setHand |
| GrabController.MyController.ActivateEntity | examples/controllers/handControllerGrab.js:1324-1351 | the world changes exactly as Activation |
| GrabController.MyController.DeactivateEntity | examples/controllers/handControllerGrab.js:1353-1369 | the world changes exactly as Deactivation |
| GrabController.MyController.Off | examples/controllers/handControllerGrab.js:576-587 | the fields change exactly as OffStep |
| GrabController.MyController.Search | examples/controllers/handControllerGrab.js:589-791 | fields and world change exactly as SearchStep: release when the control is let go, else the search proper |
| GrabController.MyController.Pick | examples/controllers/handControllerGrab.js:597-791 | fields and world change exactly as PickStep: the pick ray when it is due, else straight to the sphere test |
| GrabController.MyController.CastPickRay | examples/controllers/handControllerGrab.js:605-695 | the pick clock moves to now and one ray is logged, then fields change exactly as RayStep |
| GrabController.MyController.RayHitTest | examples/controllers/handControllerGrab.js:613-695 | the fields change exactly as RayStep: the state the hit leads to, else the sphere test; the world is untouched |
| GrabController.MyController.SphereTest | examples/controllers/handControllerGrab.js:696-785 | the fields change exactly as SphereSearch, the sphere loop proved to pick the nearest eligible entity |
| GrabController.MyController.PickedState | examples/controllers/handControllerGrab.js:638-692 | the state a ray hit leads to is ClassifyHit of it |
| GrabController.MyController.DistanceHolding | examples/controllers/handControllerGrab.js:793-845 | exactly as DistanceHoldingStep |
| GrabController.MyController.ContinueDistanceHolding | examples/controllers/handControllerGrab.js:847-961 | exactly as ContinueDistanceHoldingStep |
| GrabController.MyController.NearGrabbing | examples/controllers/handControllerGrab.js:963-1043 | exactly as the corrected NearGrabbingStep |
| GrabController.MyController.HoldNear | examples/controllers/handControllerGrab.js:1003-1043 | exactly as NearGrabHold: the hold is asked for, and only a granted hold activates the entity |
| GrabController.MyController.ActivateForHold | examples/controllers/handControllerGrab.js:977-983 | activates and, for a dynamic entity, makes it kinematic |
| GrabController.MyController.NearGrabStart | examples/controllers/handControllerGrab.js:1015-1035 | exactly as NearGrabStarted: continue the near grab, or start equipping |
| GrabController.MyController.ContinueNearGrabbing | examples/controllers/handControllerGrab.js:1045-1099 | exactly as ContinueNearGrabbingStep |
| GrabController.MyController.WaitingForBumperRelease | examples/controllers/handControllerGrab.js:1101-1109 | exactly as WaitingForBumperReleaseStep |
| GrabController.MyController.PullTowardEquipPosition | examples/controllers/handControllerGrab.js:1111-1158 | exactly as PullTowardEquipPositionStep |
| GrabController.MyController.NearTrigger | examples/controllers/handControllerGrab.js:1160-1176 | exactly as NearTriggerStep |
| GrabController.MyController.FarTrigger | examples/controllers/handControllerGrab.js:1178-1193 | exactly as FarTriggerStep |
| GrabController.MyController.ContinueNearTrigger | examples/controllers/handControllerGrab.js:1195-1203 | exactly as ContinueNearTriggerStep |
| GrabController.MyController.ContinueFarTrigger | examples/controllers/handControllerGrab.js:1205-1231 | exactly as the corrected ContinueFarTriggerStep |
| GrabController.MyController.TouchTest | examples/controllers/handControllerGrab.js:1234-1286 | the loop over the probes has the effect of the TouchTest function |
| GrabController.MyController.StartTouch | examples/controllers/handControllerGrab.js:1288-1290 | logs startTouch |
| GrabController.MyController.ContinueTouch | examples/controllers/handControllerGrab.js:1292-1294 | logs continueTouch |
| GrabController.MyController.StopTouch | examples/controllers/handControllerGrab.js:1296-1298 | logs stopTouch |
| GrabController.MyController.Release | examples/controllers/handControllerGrab.js:1300-1316 | exactly as the corrected ReleaseStep |
| PhysicsShapes.KeyOf | libraries/physics/src/ShapeManager.cpp:78-87 | the key of an entry that holds the shape |
| PhysicsShapes.Acquired | libraries/physics/src/ShapeManager.cpp:32-51 | no-shape type: nothing changes, nothing returned. Known key: its shape, its entry with one more reference, even if pending. New key: a new entry with count 1 holding the factory's shape under that key, or the cache unchanged when the factory fails. Every other entry, and the queue, stay as they were; a returned shape is the one stored under the key |
| PhysicsShapes.SecondAcquireSameShape | libraries/physics/src/ShapeManager.cpp:36-43 | a second `getShape` of the same description returns the shape the first one returned, whatever the factory would give |
| PhysicsShapes.Collected | libraries/physics/src/ShapeManager.cpp:89-100 | removes exactly the queued entries still unreferenced, keeps every other entry unchanged, empties the queue |
| PhysicsShapes.Released | libraries/physics/src/ShapeManager.cpp:54-76 | succeeds iff the key is present and referenced; a refusal changes nothing; a release that leaves references only lowers the count; the last reference queues the key and keeps the entry and its shape until a collection; when the queue then holds more than MAX_SHAPE_GARBAGE_CAPACITY (255) keys the cache is collected at once |
| PhysicsShapes.ReleasedShape | libraries/physics/src/ShapeManager.cpp:78-87 | an unknown shape is refused unchanged; a held shape is released through the key of its entry, as Released, and succeeds iff that entry is referenced |
| PhysicsShapes.CollectKeepsCounts | libraries/physics/src/ShapeManager.cpp:89-100 | a collection never changes a reference count |
| PhysicsShapes.CollectLeavesOnlyReferenced | libraries/physics/src/ShapeManager.cpp:89-100 | after a collection every entry is referenced and the invariant holds |
| PhysicsShapes.ReleaseCounts | libraries/physics/src/ShapeManager.cpp:54-76 | a successful release takes exactly one reference from its key and none from others |
| PhysicsShapes.AcquirePreservesInv | libraries/physics/src/ShapeManager.cpp:32-51 | getShape keeps the invariant |
| PhysicsShapes.ReleasePreservesInv | libraries/physics/src/ShapeManager.cpp:54-76 | a release keeps the invariant and at most 255 queued keys |
| PhysicsShapes.AcquireReleaseRoundTrip | libraries/physics/src/ShapeManager.cpp:32-76 | acquiring then releasing a shape succeeds and restores every count |
| PhysicsShapes.AcquireNCounts | libraries/physics/src/ShapeManager.cpp:32-51 | n acquisitions add n references to that key only |
| PhysicsShapes.ReleaseNCounts | libraries/physics/src/ShapeManager.cpp:54-76 | n releases of a key with at least n references take n from it only |
| PhysicsShapes.AcquireReleaseBalance | libraries/physics/src/ShapeManager.cpp:32-76 | n acquisitions then n releases restore every count |
| PhysicsShapes.ShapeManager.constructor | libraries/physics/src/ShapeManager.cpp:20-21 | a new manager is empty with the invariant |
| PhysicsShapes.ShapeManager.GetShape | libraries/physics/src/ShapeManager.cpp:32-51 | state and result exactly as Acquired, invariant kept |
| PhysicsShapes.ShapeManager.CollectGarbage | libraries/physics/src/ShapeManager.cpp:89-100 | state exactly as Collected, invariant restored |
| PhysicsShapes.ShapeManager.ReleaseShapeByKey | libraries/physics/src/ShapeManager.cpp:54-76 | state and result exactly as Released (count lowered, key queued at zero, entry kept until a collection, forced collection past 255 queued keys), invariant kept |
| PhysicsShapes.ShapeManager.ReleaseShape | libraries/physics/src/ShapeManager.cpp:78-87 | releases through the key of the entry holding the shape, as ReleasedShape and so as Released, succeeding iff that entry is referenced; refuses when no entry holds it |
| PhysicsShapes.ShapeManager.GetNumReferences | libraries/physics/src/ShapeManager.cpp:102-109 | the entry's count, or 0 for an absent key |
| PhysicsShapes.ShapeManager.GetNumReferencesOfShape | libraries/physics/src/ShapeManager.cpp:111-120 | the count of the entry holding the shape, or 0 |
| PhysicsShapes.ShapeManager.HasShape | libraries/physics/src/ShapeManager.cpp:122-131 | true iff some entry holds the shape |

## Left out

- Pose, vector and quaternion arithmetic. This covers the distance-hold integration, the rigid hold offset, the equip target pose, hand velocity and head motion. Its results are `Frame` inputs: `rigidOffset`, `equipDistance`, the ray hit and the nearby candidates.
- Rendering: pointer lines, overlay lines, particle beams and debug lines. `WANT_DEBUG` output is also left out.
- Hand-grasp animation (`graspHand`, `startHandGrasp`, `endHandGrasp`): these are animation callbacks.
- `cleanup`: it is the script-ending hook, and its release part is `Release`.
- The values passed to actions (time scales, targets and the hand name) are not modelled. Only the action kind, entity, tag and id are logged.
- The clock (`Date.now`), engine queries and the controller mapping are inputs of a `Frame`. The hand-disabler messages and the `Script.update` wiring are process plumbing.
- Another script or avatar running at the same time is not modelled. Their effects appear only as an entity's existing grab record and action tags.
- The two hands are modelled one at a time. Their `MyController`s write the same entity store, and only the shared grab record connects them. No lemma covers interleaved updates of both hands. GrabFindings.ForeignDeactivation and GrabAccounting.GrabLeavesNoTrace are about one hand's updates over a store the other hand does not touch on the way.
- Entity scripts called by `callEntityMethod` are foreign code. The calls are only logged, by entity and method name. The arguments passed are dropped, for example `[this.hand]` to `setHand` and `[JSON.stringify(this.hand)]` to `startEquip`.
- GrabController.MyController.constructor: the source leaves `lastPickTime`, `actionTimeout` and `equipSpringID` undefined at first; the model starts them at 0 and none. The first search always casts, as it does in the source because `lastPickTime` is reset when leaving idle.
- GrabMetadata.EntityIsGrabbedByOther: every action is taken to have a string tag. A missing tag would make the `slice` call fail at run time, and that failure is not modelled.
- `triggerSqueezed` (the raw-trigger test) is not modelled: nothing in the script calls it.
- `continueDistanceHolding`'s spring update: the pose math is left out. Only its release path, its equip switch, the action update and the timeout refresh are modelled.
- The ShapeManager destructor, `ShapeFactory` and `ShapeInfo::getHash` are foreign Bullet and hashing code. The factory's answer is the `created` parameter, and a key is an integer.
- PhysicsShapes.ShapeManager.GetShape: the precondition that a newly created shape is not already in the cache states the factory's allocation guarantee. It asks nothing of the caller's input.
- PhysicsShapes.ShapeManager.ReleaseShapeByKey: the debug-build `assert(false)` on a bad release is modelled as the release-build path, which returns false and changes nothing.
- `releaseShape`, both `getNumReferences` and `hasShape` loop over the hash map by index. The model visits the keys in an unspecified order. Shapes are unique by the invariant, so the order cannot change the result.

## Findings

| source | as written | input that shows it | evidently intended | confidence | as-written member | corrected member |
|---|---|---|---|---|---|---|
| examples/controllers/handControllerGrab.js:1205-1212 | letting go of the trigger in `continueFarTrigger` calls `stopNearTrigger` on the entity | a far trigger started with `startFarTrigger`, then the trigger let go | `stopFarTrigger`, as on the other exit of the same handler | not executed | GrabFindings.FarTriggerReleaseSendsNearStop | GrabTheorems.FarTriggerStopsByName |
| examples/controllers/handControllerGrab.js:977-1014 | `nearGrabbing` activates the entity (zero gravity, count +1) before its hold is added; when `addAction` returns the null id the state stays and the next update activates again | two refused holds, then the trigger let go, then release: one count remains and gravity stays zero | activate only once the hold exists, so every activation is owed a deactivation | not executed | GrabFindings.FailedHoldLeaksActivation | GrabAccounting.GrabLeavesNoTrace |
| examples/controllers/handControllerGrab.js:1300-1316 | `release` always calls `deactivateEntity`, even after a near or far trigger that never activated the entity | this hand triggers an entity that the other hand holds with count 1, then releases | deactivate only when this hand holds an action (and so an activation) | not executed | GrabFindings.ForeignDeactivation | GrabTheorems.ReleaseGoesIdle |
