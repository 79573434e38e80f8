/**
 * How `search` picks what to grab: first the (rate-limited) pick ray along the
 * hand, whose hit is classified by distance and by the entity's flags; if
 * that yields nothing, the entities within GRAB_RADIUS of the palm, of which
 * the nearest eligible one is taken.
 */
module GrabSelect {
  import opened Wrappers
  import opened GrabTypes
  import opened GrabMetadata

  const NEAR_PICK_MAX_DISTANCE: real := 0.3
  const PICK_MAX_DISTANCE: real := 500.0
  const GRAB_RADIUS: real := 0.03

  const DEBUG_ENTITY_NAME: string := "Grab Debug Entity"
  const LINE_ENTITY_NAME: string := "grab pointer"

  /** Entity types the sphere test never selects. */
  const UNGRABBABLE_TYPES: set<string> := {"Unknown", "Light", "ParticleEffect", "PolyLine", "Zone"}

  /** What the script reads about an entity it might grab. */
  datatype EntityView = EntityView(
    id: EntityId,
    entityType: string,
    name: string,
    locked: bool,
    collisionsWillMove: bool,
    data: GrabbableData,
    actionTags: seq<string>)

  /** A pick-ray intersection with the distance from the ray's origin. */
  datatype RayHit = RayHit(view: EntityView, distance: real)

  /** An entity found near the palm with its distance from the palm. */
  datatype Candidate = Candidate(view: EntityView, distance: real)

  predicate IsSearch(s: State) {
    s == Searching || s == EquipSearching
  }

  /**
   * The state a pick-ray hit sends a search into, or `None` when the hit is
   * passed over and the sphere test runs. `grabbedByOther` is what
   * `entityIsGrabbedByOther` says about the hit entity.
   */
  function ClassifyHit(state: State, hit: RayHit, grabbedByOther: bool): (r: Option<State>)
    requires IsSearch(state)
    ensures r.Some? ==> hit.view.name != DEBUG_ENTITY_NAME && hit.view.data.grabbable && hit.distance <= PICK_MAX_DISTANCE
    ensures r == Some(NearTrigger) <==>
              hit.view.name != DEBUG_ENTITY_NAME && hit.view.data.grabbable
              && hit.distance <= NEAR_PICK_MAX_DISTANCE && hit.view.data.wantsTrigger
    ensures r == Some(NearGrabbing) <==>
              hit.view.name != DEBUG_ENTITY_NAME && hit.view.data.grabbable && state == Searching
              && hit.distance <= NEAR_PICK_MAX_DISTANCE && !hit.view.data.wantsTrigger && !hit.view.locked
    ensures r == Some(DistanceHolding) <==>
              hit.view.name != DEBUG_ENTITY_NAME && hit.view.data.grabbable && state == Searching
              && NEAR_PICK_MAX_DISTANCE < hit.distance <= PICK_MAX_DISTANCE && !grabbedByOther
              && hit.view.collisionsWillMove && !hit.view.locked
    ensures r == Some(FarTrigger) <==>
              hit.view.name != DEBUG_ENTITY_NAME && hit.view.data.grabbable
              && NEAR_PICK_MAX_DISTANCE < hit.distance <= PICK_MAX_DISTANCE && !grabbedByOther
              && !(hit.view.collisionsWillMove && !hit.view.locked) && hit.view.data.wantsTrigger
    ensures r == Some(Equip) <==>
              hit.view.name != DEBUG_ENTITY_NAME && hit.view.data.grabbable && state == EquipSearching
              && ((hit.distance <= NEAR_PICK_MAX_DISTANCE && !hit.view.data.wantsTrigger && !hit.view.locked)
                  || (NEAR_PICK_MAX_DISTANCE < hit.distance <= PICK_MAX_DISTANCE && !grabbedByOther
                      && hit.view.collisionsWillMove && !hit.view.locked && hit.view.data.spatialKey.Some?))
    ensures r.Some? ==> r.value in {NearTrigger, NearGrabbing, DistanceHolding, FarTrigger, Equip}
  {
    var view := hit.view;
    if view.name == DEBUG_ENTITY_NAME then None
    else if !view.data.grabbable then None
    else if hit.distance > PICK_MAX_DISTANCE then None
    else if hit.distance <= NEAR_PICK_MAX_DISTANCE then
      if view.data.wantsTrigger then Some(NearTrigger)
      else if !view.locked then Some(if state == Searching then NearGrabbing else Equip)
      else None
    else if !grabbedByOther then
      if view.collisionsWillMove && !view.locked then
        if view.data.spatialKey.Some? && state == EquipSearching then Some(Equip)
        else if state == Searching then Some(DistanceHolding)
        else None
      else if view.data.wantsTrigger then Some(FarTrigger)
      else None
    else None
  }

  /** Whether the sphere test considers a nearby entity at all. */
  predicate SphereEligible(c: Candidate) {
    c.view.data.grabbable
    && c.view.entityType !in UNGRABBABLE_TYPES
    && !(c.view.locked && !c.view.data.wantsTrigger)
    && c.view.name != DEBUG_ENTITY_NAME
    && c.view.name != LINE_ENTITY_NAME
  }

  /** The state the sphere test's chosen entity sends a search into, if any. */
  function SphereOutcome(state: State, c: Candidate): (r: Option<State>)
    requires IsSearch(state)
    ensures r == Some(NearTrigger) <==> c.view.data.wantsTrigger
    ensures r.Some? && r.value != NearTrigger <==>
              !c.view.data.wantsTrigger && !c.view.locked && c.view.collisionsWillMove
    ensures r.Some? && r.value != NearTrigger ==> r.value == (if state == Searching then NearGrabbing else Equip)
  {
    if c.view.data.wantsTrigger then Some(NearTrigger)
    else if !c.view.locked && c.view.collisionsWillMove then Some(if state == Searching then NearGrabbing else Equip)
    else None
  }

  /**
   * Index `k` is the entity the sphere test selects: eligible, nearer than
   * PICK_MAX_DISTANCE, strictly nearer than every eligible entity before it and
   * no farther than every eligible entity after it (the first of the nearest).
   */
  predicate IsNearest(cands: seq<Candidate>, k: nat) {
    k < |cands| && SphereEligible(cands[k]) && cands[k].distance < PICK_MAX_DISTANCE
    && (forall j :: 0 <= j < k && SphereEligible(cands[j]) ==> cands[k].distance < cands[j].distance)
    && (forall j :: k < j < |cands| && SphereEligible(cands[j]) ==> cands[k].distance <= cands[j].distance)
  }

  /** No eligible entity is nearer than PICK_MAX_DISTANCE. */
  predicate NoneNear(cands: seq<Candidate>) {
    forall j :: 0 <= j < |cands| && SphereEligible(cands[j]) ==> cands[j].distance >= PICK_MAX_DISTANCE
  }

  /** There is at most one selected entity. */
  lemma NearestUnique(cands: seq<Candidate>, k1: nat, k2: nat)
    requires IsNearest(cands, k1) && IsNearest(cands, k2)
    ensures k1 == k2
  {
  }

  /** A selected entity means some eligible entity is near enough. */
  lemma NearestOrNone(cands: seq<Candidate>, k: nat)
    requires IsNearest(cands, k)
    ensures !NoneNear(cands)
  {
  }

  /** The selection as a fold over the first `n` candidates: the best index so far and its distance. */
  function Scan(cands: seq<Candidate>, n: nat): (r: (Option<nat>, real))
    requires n <= |cands|
    ensures r.0.None? ==> r.1 == PICK_MAX_DISTANCE
    ensures r.0.Some? ==> r.0.value < n && r.1 == cands[r.0.value].distance
  {
    if n == 0 then (None, PICK_MAX_DISTANCE)
    else
      var prev := Scan(cands, n - 1);
      var c := cands[n - 1];
      if SphereEligible(c) && c.distance < prev.1 then (Some(n - 1), c.distance) else prev
  }

  /** The entity the sphere test selects, if any. */
  function NearestIndex(cands: seq<Candidate>): Option<nat> {
    Scan(cands, |cands|).0
  }

  /** What the fold has established after `n` candidates. */
  predicate ScanInvariant(cands: seq<Candidate>, n: nat, best: Option<nat>, minDistance: real)
    requires n <= |cands|
  {
    (best.None? ==> minDistance == PICK_MAX_DISTANCE
                    && forall j :: 0 <= j < n && SphereEligible(cands[j]) ==> cands[j].distance >= PICK_MAX_DISTANCE)
    && (best.Some? ==>
          best.value < n && SphereEligible(cands[best.value])
          && minDistance == cands[best.value].distance && minDistance < PICK_MAX_DISTANCE
          && (forall j :: 0 <= j < best.value && SphereEligible(cands[j]) ==> minDistance < cands[j].distance)
          && (forall j :: best.value < j < n && SphereEligible(cands[j]) ==> minDistance <= cands[j].distance))
  }

  lemma {:induction false} ScanKeepsInvariant(cands: seq<Candidate>, n: nat)
    requires n <= |cands|
    ensures ScanInvariant(cands, n, Scan(cands, n).0, Scan(cands, n).1)
  {
    if n > 0 {
      ScanKeepsInvariant(cands, n - 1);
    }
  }

  /** The fold selects exactly the entity IsNearest describes, and nothing when none is near. */
  lemma NearestIndexCorrect(cands: seq<Candidate>)
    ensures NearestIndex(cands).Some? ==> IsNearest(cands, NearestIndex(cands).value)
    ensures NearestIndex(cands).None? <==> NoneNear(cands)
  {
    ScanKeepsInvariant(cands, |cands|);
  }

  /**
   * The sphere-test loop of `search`: walks the nearby entities keeping the
   * nearest eligible one seen so far, starting from PICK_MAX_DISTANCE.
   */
  method SelectNearest(cands: seq<Candidate>) returns (best: Option<nat>)
    ensures best.Some? ==> IsNearest(cands, best.value)
    ensures best.None? ==> NoneNear(cands)
  {
    var minDistance := PICK_MAX_DISTANCE;
    best := None;
    var i := 0;
    while i < |cands|
      invariant 0 <= i <= |cands|
      invariant ScanInvariant(cands, i, best, minDistance)
    {
      var c := cands[i];
      if SphereEligible(c) && c.distance < minDistance {
        best := Some(i);
        minDistance := c.distance;
      }
      i := i + 1;
    }
  }

  /** The loop and the fold agree. */
  lemma SelectNearestIsNearestIndex(cands: seq<Candidate>, best: Option<nat>)
    requires best.Some? ==> IsNearest(cands, best.value)
    requires best.None? ==> NoneNear(cands)
    ensures best == NearestIndex(cands)
  {
    NearestIndexCorrect(cands);
    if best.Some? && NearestIndex(cands).Some? {
      NearestUnique(cands, best.value, NearestIndex(cands).value);
    }
  }
}
