/**
 * Per-entity metadata the grab script reads: the "grabbableKey" user data
 * (with its defaults), the `grab-<session>` action tags that mark a distance
 * grab, and the spatial key an equippable entity uses to say where it sits in
 * the hand.
 */
module GrabMetadata {
  import opened Wrappers
  import opened GrabTypes

  datatype Vec3 = Vec3(x: real, y: real, z: real)
  datatype Quat = Quat(x: real, y: real, z: real, w: real)

  const ZERO_VEC: Vec3 := Vec3(0.0, 0.0, 0.0)
  const IDENTITY_QUAT: Quat := Quat(0.0, 0.0, 0.0, 1.0)

  /** The optional offsets of an equippable entity; an absent field is `None`. */
  datatype SpatialKey = SpatialKey(
    leftRelativePosition: Option<Vec3>,
    rightRelativePosition: Option<Vec3>,
    relativePosition: Option<Vec3>,
    leftRelativeRotation: Option<Quat>,
    rightRelativeRotation: Option<Quat>,
    relativeRotation: Option<Quat>)

  /**
   * The "grabbableKey" user data of an entity with its defaults applied:
   * `grabbable` is true unless the entity says false, the other flags are false
   * unless set, and `spatialKey` is `None` when the field is absent.
   */
  datatype GrabbableData = GrabbableData(
    grabbable: bool,
    wantsTrigger: bool,
    invertSolidWhileHeld: bool,
    spatialKey: Option<SpatialKey>)

  const DEFAULT_GRABBABLE_DATA: GrabbableData := GrabbableData(true, false, false, None)

  // ---------------------------------------------------------------- tags

  const GRAB_TAG_PREFIX: string := "grab-"

  /** The tag this avatar puts on the actions of its distance grabs. */
  function GetTag(session: string): (tag: string)
    ensures GRAB_TAG_PREFIX <= tag && tag[|GRAB_TAG_PREFIX|..] == session
  {
    GRAB_TAG_PREFIX + session
  }

  /** JavaScript's `s.slice(start, end)` for non-negative bounds: both are clamped to the length. */
  function Slice(s: string, start: nat, end: nat): (r: string)
    ensures |r| == if start <= end then Min(end, |s|) - Min(start, |s|) else 0
    ensures Min(start, |s|) <= Min(end, |s|) ==> r == s[Min(start, |s|)..Min(end, |s|)]
  {
    var b := Min(start, |s|);
    var e := Min(end, |s|);
    if b <= e then s[b..e] else ""
  }

  function Min(a: nat, b: nat): nat { if a <= b then a else b }

  /** The five-character slice test is exactly a prefix test. */
  lemma SliceIsPrefixTest(tag: string)
    ensures Slice(tag, 0, 5) == GRAB_TAG_PREFIX <==> GRAB_TAG_PREFIX <= tag
  {
    if GRAB_TAG_PREFIX <= tag {
      assert tag[..5] == GRAB_TAG_PREFIX;
    }
  }

  /** A tag that marks a distance grab by some other avatar. */
  predicate IsForeignGrabTag(tag: string, session: string) {
    tag != GetTag(session) && Slice(tag, 0, 5) == GRAB_TAG_PREFIX
  }

  /** Some action on the entity carries another avatar's grab tag. */
  predicate GrabbedByOther(tags: seq<string>, session: string) {
    exists i :: 0 <= i < |tags| && IsForeignGrabTag(tags[i], session)
  }

  /**
   * Scans the tags of an entity's actions (`entityIsGrabbedByOther`): this
   * avatar's own tag is skipped, any other tag starting with "grab-" answers
   * true.
   */
  method EntityIsGrabbedByOther(tags: seq<string>, session: string) returns (b: bool)
    ensures b <==> exists i :: 0 <= i < |tags| && tags[i] != GetTag(session) && GRAB_TAG_PREFIX <= tags[i]
  {
    var actionIndex := 0;
    while actionIndex < |tags|
      invariant 0 <= actionIndex <= |tags|
      invariant forall i :: 0 <= i < actionIndex ==> !(tags[i] != GetTag(session) && GRAB_TAG_PREFIX <= tags[i])
    {
      var tag := tags[actionIndex];
      SliceIsPrefixTest(tag);
      if tag == GetTag(session) {
        actionIndex := actionIndex + 1;
        continue;
      }
      if Slice(tag, 0, 5) == GRAB_TAG_PREFIX {
        return true;
      }
      actionIndex := actionIndex + 1;
    }
    return false;
  }

  /** The scan and the predicate agree. */
  lemma GrabbedByOtherIsPrefixScan(tags: seq<string>, session: string)
    ensures GrabbedByOther(tags, session)
        <==> exists i :: 0 <= i < |tags| && tags[i] != GetTag(session) && GRAB_TAG_PREFIX <= tags[i]
  {
    forall i | 0 <= i < |tags| {
      SliceIsPrefixTest(tags[i]);
    }
  }

  /** This avatar's own grabs never make an entity look grabbed by someone else. */
  lemma OwnTagsNeverForeign(tags: seq<string>, session: string)
    requires forall i :: 0 <= i < |tags| ==> tags[i] == GetTag(session)
    ensures !GrabbedByOther(tags, session)
  {
  }

  /** A distance grab by any other session is seen, wherever its tag sits. */
  lemma OtherSessionTagSeen(tags: seq<string>, session: string, other: string, i: nat)
    requires i < |tags| && tags[i] == GetTag(other) && other != session
    ensures GrabbedByOther(tags, session)
  {
    assert GetTag(other)[|GRAB_TAG_PREFIX|..] != GetTag(session)[|GRAB_TAG_PREFIX|..];
    SliceIsPrefixTest(tags[i]);
  }

  // ---------------------------------------------------------------- spatial key

  /** The first present entry of `sources`, or `fallback` when none is. */
  function FirstPresent<T>(sources: seq<Option<T>>, fallback: T): (r: T)
    ensures (forall i :: 0 <= i < |sources| ==> sources[i].None?) ==> r == fallback
    ensures forall i :: 0 <= i < |sources| && sources[i].Some? && (forall j :: 0 <= j < i ==> sources[j].None?)
                ==> r == sources[i].value
  {
    if |sources| == 0 then fallback
    else if sources[0].Some? then sources[0].value
    else FirstPresent(sources[1..], fallback)
  }

  /** The three-source case, written out. */
  lemma FirstPresentOfThree<T>(a: Option<T>, b: Option<T>, c: Option<T>, fallback: T)
    ensures FirstPresent([a, b, c], fallback)
         == if a.Some? then a.value else if b.Some? then b.value else if c.Some? then c.value else fallback
  {
    assert [a, b, c][1..] == [b, c];
    assert [b, c][1..] == [c];
    assert [c][1..] == [];
    if a.None? {
      assert FirstPresent([a, b, c], fallback) == FirstPresent([b, c], fallback);
      if b.None? {
        assert FirstPresent([b, c], fallback) == FirstPresent([c], fallback);
        if c.None? {
          assert FirstPresent([c], fallback) == FirstPresent([], fallback);
        }
      }
    }
  }

  /** The hand-specific entry is consulted before the generic one, then the default. */
  function PositionSources(hand: Hand, key: SpatialKey): seq<Option<Vec3>> {
    [if hand != RightHand then key.leftRelativePosition else None,
     if hand == RightHand then key.rightRelativePosition else None,
     key.relativePosition]
  }

  function RotationSources(hand: Hand, key: SpatialKey): seq<Option<Quat>> {
    [if hand != RightHand then key.leftRelativeRotation else None,
     if hand == RightHand then key.rightRelativeRotation else None,
     key.relativeRotation]
  }

  /** Where an equipped entity sits relative to the hand (`getSpatialOffsetPosition`). */
  function SpatialOffsetPosition(hand: Hand, key: SpatialKey): (p: Vec3)
    ensures p == FirstPresent(PositionSources(hand, key), ZERO_VEC)
  {
    FirstPresentOfThree(PositionSources(hand, key)[0], PositionSources(hand, key)[1], key.relativePosition, ZERO_VEC);
    if hand != RightHand && key.leftRelativePosition.Some? then key.leftRelativePosition.value
    else if hand == RightHand && key.rightRelativePosition.Some? then key.rightRelativePosition.value
    else if key.relativePosition.Some? then key.relativePosition.value
    else ZERO_VEC
  }

  /** How an equipped entity is turned relative to the hand (`getSpatialOffsetRotation`). */
  function SpatialOffsetRotation(hand: Hand, key: SpatialKey): (q: Quat)
    ensures q == FirstPresent(RotationSources(hand, key), IDENTITY_QUAT)
  {
    FirstPresentOfThree(RotationSources(hand, key)[0], RotationSources(hand, key)[1], key.relativeRotation, IDENTITY_QUAT);
    if hand != RightHand && key.leftRelativeRotation.Some? then key.leftRelativeRotation.value
    else if hand == RightHand && key.rightRelativeRotation.Some? then key.rightRelativeRotation.value
    else if key.relativeRotation.Some? then key.relativeRotation.value
    else IDENTITY_QUAT
  }

  /** A hand only ever looks at its own hand-specific entries, never the other hand's. */
  lemma OffsetIgnoresOtherHand(hand: Hand, k1: SpatialKey, k2: SpatialKey)
    requires hand == RightHand ==> k1.rightRelativePosition == k2.rightRelativePosition
    requires hand == RightHand ==> k1.rightRelativeRotation == k2.rightRelativeRotation
    requires hand == LeftHand ==> k1.leftRelativePosition == k2.leftRelativePosition
    requires hand == LeftHand ==> k1.leftRelativeRotation == k2.leftRelativeRotation
    requires k1.relativePosition == k2.relativePosition && k1.relativeRotation == k2.relativeRotation
    ensures SpatialOffsetPosition(hand, k1) == SpatialOffsetPosition(hand, k2)
    ensures SpatialOffsetRotation(hand, k1) == SpatialOffsetRotation(hand, k2)
  {
  }

  /** A hand-specific entry, when present, wins over the generic one. */
  lemma HandSpecificWins(hand: Hand, key: SpatialKey)
    requires hand == RightHand ==> key.rightRelativePosition.Some?
    requires hand == LeftHand ==> key.leftRelativePosition.Some?
    ensures SpatialOffsetPosition(hand, key)
         == (if hand == RightHand then key.rightRelativePosition.value else key.leftRelativePosition.value)
  {
  }
}
