/**
 * The reference-counted cache of collision shapes of the physics library.
 *
 * A shape is looked up by the hash of its description. Every `getShape` of a
 * known key adds one reference; every release removes one. An entry whose
 * count drops to zero is not freed at once: its key is queued as pending
 * garbage, and `collectGarbage` later frees the queued entries that are still
 * unreferenced. Shape creation and deletion are foreign (Bullet) code: the
 * factory is an allocator that may fail, and the hash is an abstract key.
 */
module PhysicsShapes {
  import opened Wrappers

  /** The hash of a shape description (ShapeInfo::getHash is not part of this model). */
  type HashKey = int

  /** The identity of a collision shape allocated by the shape factory. */
  type Shape = nat

  /** The shape type that describes "no shape". */
  const SHAPE_TYPE_NONE: nat := 0

  /** Queued keys beyond this number force a collection. */
  const MAX_SHAPE_GARBAGE_CAPACITY: nat := 255

  /** What `getShape` needs of a shape description: its type and its hash. */
  datatype ShapeInfo = ShapeInfo(shapeType: nat, hash: HashKey)

  datatype ShapeReference = ShapeReference(refCount: nat, shape: Shape, key: HashKey)

  type ShapeMap = map<HashKey, ShapeReference>

  /** The whole state of a shape manager, as a value. */
  datatype Cache = Cache(shapeMap: ShapeMap, pendingGarbage: seq<HashKey>)

  /** Every entry is stored under its own key. */
  ghost predicate WellKeyed(m: ShapeMap) {
    forall k :: k in m ==> m[k].key == k
  }

  /** No shape is held by two entries (the factory never hands out a live shape twice). */
  ghost predicate ShapesUnique(m: ShapeMap) {
    forall k1, k2 :: k1 in m && k2 in m && m[k1].shape == m[k2].shape ==> k1 == k2
  }

  ghost predicate HoldsShape(m: ShapeMap, s: Shape) {
    exists k :: k in m && m[k].shape == s
  }

  /** Every unreferenced entry is queued for collection, so none is leaked. */
  ghost predicate ZeroRefsPending(c: Cache) {
    forall k :: k in c.shapeMap && c.shapeMap[k].refCount == 0 ==> k in c.pendingGarbage
  }

  ghost predicate Consistent(c: Cache) {
    WellKeyed(c.shapeMap) && ShapesUnique(c.shapeMap) && ZeroRefsPending(c)
  }

  /** The invariant every public operation keeps. */
  ghost predicate Inv(c: Cache) {
    Consistent(c) && |c.pendingGarbage| <= MAX_SHAPE_GARBAGE_CAPACITY
  }

  /** The reference count of a key; an absent key has none. */
  function NumReferences(m: ShapeMap, key: HashKey): nat {
    if key in m then m[key].refCount else 0
  }

  /** The key of the entry that holds a shape. */
  ghost function KeyOf(m: ShapeMap, s: Shape): (k: HashKey)
    requires HoldsShape(m, s)
    ensures k in m && m[k].shape == s
  {
    var k :| k in m && m[k].shape == s; k
  }

  /**
   * `getShape`: a description of no shape yields nothing; a known key gains a
   * reference and yields its shape; an unknown key gets a new entry with one
   * reference when the factory delivers a shape (`created`).
   */
  ghost function Acquired(c: Cache, info: ShapeInfo, created: Option<Shape>): (r: (Cache, Option<Shape>))
    ensures info.shapeType == SHAPE_TYPE_NONE ==> r == (c, None)
    ensures info.shapeType != SHAPE_TYPE_NONE && info.hash in c.shapeMap ==>
      r.1 == Some(c.shapeMap[info.hash].shape)
    ensures info.shapeType != SHAPE_TYPE_NONE && info.hash !in c.shapeMap ==> r.1 == created
    ensures r.0.pendingGarbage == c.pendingGarbage
    ensures forall k :: k != info.hash ==> NumReferences(r.0.shapeMap, k) == NumReferences(c.shapeMap, k)
    ensures NumReferences(r.0.shapeMap, info.hash) ==
      NumReferences(c.shapeMap, info.hash) + (if r.1.Some? then 1 else 0)
    // a shape handed out is the one the cache now holds under the key
    ensures r.1.Some? ==> info.hash in r.0.shapeMap && r.0.shapeMap[info.hash].shape == r.1.value
    ensures info.hash !in c.shapeMap && r.1.Some? ==> r.0.shapeMap[info.hash] == ShapeReference(1, r.1.value, info.hash)
    // only the entry of the key changes, and it is new only when the factory delivered
    ensures r.0.shapeMap.Keys == c.shapeMap.Keys + (if r.1.Some? then {info.hash} else {})
    ensures forall k :: k in c.shapeMap && k != info.hash ==> r.0.shapeMap[k] == c.shapeMap[k]
    ensures info.hash in c.shapeMap && info.shapeType != SHAPE_TYPE_NONE ==>
      r.0.shapeMap[info.hash] == c.shapeMap[info.hash].(refCount := c.shapeMap[info.hash].refCount + 1)
    // no shape, or a failed factory, leaves the cache as it was
    ensures r.1.None? ==> r.0 == c
  {
    if info.shapeType == SHAPE_TYPE_NONE then (c, None)
    else if info.hash in c.shapeMap then
      var ref := c.shapeMap[info.hash];
      (c.(shapeMap := c.shapeMap[info.hash := ref.(refCount := ref.refCount + 1)]), Some(ref.shape))
    else if created.Some? then
      (c.(shapeMap := c.shapeMap[info.hash := ShapeReference(1, created.value, info.hash)]), created)
    else (c, None)
  }

  /**
   * A second `getShape` of the same description returns the shape the first
   * one returned, without asking the factory again.
   */
  lemma SecondAcquireSameShape(c: Cache, info: ShapeInfo, created: Option<Shape>, again: Option<Shape>)
    ensures var r1 := Acquired(c, info, created);
      r1.1.Some? ==> Acquired(r1.0, info, again).1 == r1.1
  {
  }

  /**
   * `collectGarbage`: frees the queued entries that are still unreferenced and
   * empties the queue.
   */
  ghost function Collected(c: Cache): (r: Cache)
    ensures r.pendingGarbage == []
    ensures forall k :: k in r.shapeMap <==>
      k in c.shapeMap && !(k in c.pendingGarbage && c.shapeMap[k].refCount == 0)
    ensures forall k :: k in r.shapeMap ==> r.shapeMap[k] == c.shapeMap[k]
  {
    Cache(map k | k in c.shapeMap && !(k in c.pendingGarbage && c.shapeMap[k].refCount == 0) :: c.shapeMap[k], [])
  }

  /**
   * `releaseShapeByKey`: takes one reference from a referenced entry; an entry
   * that reaches zero is queued, and a queue longer than the capacity is
   * collected. An absent key or an unreferenced entry is refused.
   */
  ghost function Released(c: Cache, key: HashKey): (r: (Cache, bool))
    ensures r.1 <==> key in c.shapeMap && c.shapeMap[key].refCount > 0
    ensures !r.1 ==> r.0 == c
    // a release that leaves references only lowers the count
    ensures r.1 && c.shapeMap[key].refCount > 1 ==>
      r.0 == Cache(c.shapeMap[key := c.shapeMap[key].(refCount := c.shapeMap[key].refCount - 1)], c.pendingGarbage)
    // the last reference queues the key and keeps the entry and its shape for a later collection
    ensures r.1 && c.shapeMap[key].refCount == 1 && |c.pendingGarbage| < MAX_SHAPE_GARBAGE_CAPACITY ==>
      r.0 == Cache(c.shapeMap[key := c.shapeMap[key].(refCount := 0)], c.pendingGarbage + [key])
    // a queue that grows past the capacity is collected at once
    ensures r.1 && c.shapeMap[key].refCount == 1 && |c.pendingGarbage| >= MAX_SHAPE_GARBAGE_CAPACITY ==>
      r.0 == Collected(Cache(c.shapeMap[key := c.shapeMap[key].(refCount := 0)], c.pendingGarbage + [key]))
  {
    if key !in c.shapeMap || c.shapeMap[key].refCount == 0 then (c, false)
    else
      var ref := c.shapeMap[key];
      var m := c.shapeMap[key := ref.(refCount := ref.refCount - 1)];
      if ref.refCount - 1 == 0 then
        var queued := Cache(m, c.pendingGarbage + [key]);
        if |queued.pendingGarbage| > MAX_SHAPE_GARBAGE_CAPACITY then (Collected(queued), true)
        else (queued, true)
      else (Cache(m, c.pendingGarbage), true)
  }

  /** `releaseShape`: releases the key of the entry holding the shape, if any. */
  ghost function ReleasedShape(c: Cache, s: Shape): (r: (Cache, bool))
    ensures !HoldsShape(c.shapeMap, s) ==> r == (c, false)
    ensures HoldsShape(c.shapeMap, s) ==> r == Released(c, KeyOf(c.shapeMap, s))
    ensures HoldsShape(c.shapeMap, s) ==> (r.1 <==> c.shapeMap[KeyOf(c.shapeMap, s)].refCount > 0)
  {
    if HoldsShape(c.shapeMap, s) then Released(c, KeyOf(c.shapeMap, s)) else (c, false)
  }

  // ---------------------------------------------------------------------------
  // Properties of the specification
  // ---------------------------------------------------------------------------

  /** A collection never changes any reference count: it frees only unreferenced entries. */
  lemma CollectKeepsCounts(c: Cache, k: HashKey)
    ensures NumReferences(Collected(c).shapeMap, k) == NumReferences(c.shapeMap, k)
  {
  }

  /** After a collection of a consistent cache no unreferenced entry is left. */
  lemma CollectLeavesOnlyReferenced(c: Cache)
    requires Consistent(c)
    ensures Inv(Collected(c))
    ensures forall k :: k in Collected(c).shapeMap ==> Collected(c).shapeMap[k].refCount > 0
  {
  }

  /** A release takes exactly one reference from its key and none from any other. */
  lemma ReleaseCounts(c: Cache, key: HashKey, k: HashKey)
    ensures NumReferences(Released(c, key).0.shapeMap, k) ==
      NumReferences(c.shapeMap, k) - (if k == key && Released(c, key).1 then 1 else 0)
  {
    if Released(c, key).1 {
      var ref := c.shapeMap[key];
      var m := c.shapeMap[key := ref.(refCount := ref.refCount - 1)];
      if ref.refCount - 1 == 0 && |c.pendingGarbage + [key]| > MAX_SHAPE_GARBAGE_CAPACITY {
        CollectKeepsCounts(Cache(m, c.pendingGarbage + [key]), k);
      }
    }
  }

  lemma AcquirePreservesInv(c: Cache, info: ShapeInfo, created: Option<Shape>)
    requires Inv(c)
    requires created.Some? ==> !HoldsShape(c.shapeMap, created.value)
    ensures Inv(Acquired(c, info, created).0)
  {
    var r := Acquired(c, info, created).0;
    if info.shapeType != SHAPE_TYPE_NONE && info.hash !in c.shapeMap && created.Some? {
      assert forall k :: k in c.shapeMap ==> c.shapeMap[k].shape != created.value;
    }
  }

  /** No release leaves more than the capacity of keys queued. */
  lemma ReleasePreservesInv(c: Cache, key: HashKey)
    requires Inv(c)
    ensures Inv(Released(c, key).0)
    ensures |Released(c, key).0.pendingGarbage| <= MAX_SHAPE_GARBAGE_CAPACITY
  {
    if Released(c, key).1 {
      var ref := c.shapeMap[key];
      var m := c.shapeMap[key := ref.(refCount := ref.refCount - 1)];
      if ref.refCount - 1 == 0 {
        var queued := Cache(m, c.pendingGarbage + [key]);
        assert Consistent(queued);
        if |queued.pendingGarbage| > MAX_SHAPE_GARBAGE_CAPACITY {
          CollectLeavesOnlyReferenced(queued);
        }
      }
    }
  }

  /**
   * Acquiring a shape and releasing it again leaves every reference count as
   * it was, even when the entry was pending or the release forces a collection.
   */
  lemma AcquireReleaseRoundTrip(c: Cache, info: ShapeInfo, created: Option<Shape>, k: HashKey)
    requires Acquired(c, info, created).1.Some?
    ensures Released(Acquired(c, info, created).0, info.hash).1
    ensures NumReferences(Released(Acquired(c, info, created).0, info.hash).0.shapeMap, k) ==
      NumReferences(c.shapeMap, k)
  {
    var a := Acquired(c, info, created).0;
    assert info.hash in a.shapeMap && a.shapeMap[info.hash].refCount > 0;
    ReleaseCounts(a, info.hash, k);
  }

  /** `n` acquisitions of one description. */
  ghost function AcquireN(c: Cache, info: ShapeInfo, created: Option<Shape>, n: nat): Cache
    decreases n
  {
    if n == 0 then c else AcquireN(Acquired(c, info, created).0, info, created, n - 1)
  }

  /** `n` releases of one key. */
  ghost function ReleaseN(c: Cache, key: HashKey, n: nat): Cache
    decreases n
  {
    if n == 0 then c else ReleaseN(Released(c, key).0, key, n - 1)
  }

  lemma {:induction false} AcquireNCounts(c: Cache, info: ShapeInfo, created: Option<Shape>, n: nat, k: HashKey)
    requires info.shapeType != SHAPE_TYPE_NONE
    requires info.hash in c.shapeMap || created.Some?
    ensures NumReferences(AcquireN(c, info, created, n).shapeMap, k) ==
      NumReferences(c.shapeMap, k) + (if k == info.hash then n else 0)
    ensures info.hash in AcquireN(c, info, created, n).shapeMap || created.Some?
    decreases n
  {
    if n > 0 {
      var a := Acquired(c, info, created).0;
      AcquireNCounts(a, info, created, n - 1, k);
    }
  }

  lemma {:induction false} ReleaseNCounts(c: Cache, key: HashKey, n: nat, k: HashKey)
    requires n <= NumReferences(c.shapeMap, key)
    ensures NumReferences(ReleaseN(c, key, n).shapeMap, k) ==
      NumReferences(c.shapeMap, k) - (if k == key then n else 0)
    decreases n
  {
    if n > 0 {
      var r := Released(c, key).0;
      ReleaseCounts(c, key, k);
      ReleaseCounts(c, key, key);
      ReleaseNCounts(r, key, n - 1, k);
    }
  }

  /** `n` acquisitions followed by `n` releases restore every reference count. */
  lemma AcquireReleaseBalance(c: Cache, info: ShapeInfo, created: Option<Shape>, n: nat, k: HashKey)
    requires info.shapeType != SHAPE_TYPE_NONE
    requires info.hash in c.shapeMap || created.Some?
    ensures NumReferences(ReleaseN(AcquireN(c, info, created, n), info.hash, n).shapeMap, k) ==
      NumReferences(c.shapeMap, k)
  {
    var a := AcquireN(c, info, created, n);
    AcquireNCounts(c, info, created, n, k);
    AcquireNCounts(c, info, created, n, info.hash);
    ReleaseNCounts(a, info.hash, n, k);
  }

  /** Some member of a non-empty set, for visiting the entries of the map one by one. */
  lemma Member<T>(s: set<T>) returns (x: T)
    requires s != {}
    ensures x in s
  {
    x :| x in s;
  }

  // ---------------------------------------------------------------------------
  // The manager itself
  // ---------------------------------------------------------------------------

  class ShapeManager {
    var shapeMap: ShapeMap
    var pendingGarbage: seq<HashKey>

    ghost function Model(): Cache
      reads this
    {
      Cache(shapeMap, pendingGarbage)
    }

    ghost predicate Valid()
      reads this
    {
      Inv(Model())
    }

    constructor ()
      ensures Valid() && Model() == Cache(map[], [])
    {
      shapeMap := map[];
      pendingGarbage := [];
    }

    /**
     * Returns the shared shape for `info`. `created` is what the shape factory
     * returns when asked to build a shape for a key that is not yet cached.
     */
    method GetShape(info: ShapeInfo, created: Option<Shape>) returns (shape: Option<Shape>)
      requires Valid()
      requires created.Some? ==> !HoldsShape(shapeMap, created.value)
      modifies this
      ensures Valid()
      ensures (Model(), shape) == Acquired(old(Model()), info, created)
    {
      AcquirePreservesInv(Model(), info, created);
      if info.shapeType == SHAPE_TYPE_NONE {
        return None;
      }
      var key := info.hash;
      if key in shapeMap {
        var ref := shapeMap[key];
        shapeMap := shapeMap[key := ref.(refCount := ref.refCount + 1)];
        return Some(ref.shape);
      }
      shape := created;
      if shape.Some? {
        shapeMap := shapeMap[key := ShapeReference(1, shape.value, key)];
      }
    }

    /** Frees every queued entry that is still unreferenced and empties the queue. */
    method CollectGarbage()
      requires Consistent(Model())
      modifies this
      ensures Valid()
      ensures Model() == Collected(old(Model()))
    {
      ghost var m0 := shapeMap;
      var numShapes := |pendingGarbage|;
      var i := 0;
      while i < numShapes
        invariant 0 <= i <= numShapes
        invariant pendingGarbage == old(pendingGarbage)
        invariant shapeMap == map k | k in m0 && !(k in pendingGarbage[..i] && m0[k].refCount == 0) :: m0[k]
      {
        var key := pendingGarbage[i];
        assert pendingGarbage[..i + 1] == pendingGarbage[..i] + [key];
        if key in shapeMap && shapeMap[key].refCount == 0 {
          shapeMap := shapeMap - {key};
        }
        i := i + 1;
      }
      assert pendingGarbage[..i] == pendingGarbage;
      pendingGarbage := [];
      CollectLeavesOnlyReferenced(old(Model()));
    }

    /**
     * Takes one reference from the entry of `key`. Refuses (returns false) an
     * absent key or an entry that has no references left.
     */
    method ReleaseShapeByKey(key: HashKey) returns (ok: bool)
      requires Valid()
      modifies this
      ensures Valid()
      ensures (Model(), ok) == Released(old(Model()), key)
    {
      ReleasePreservesInv(Model(), key);
      if key in shapeMap {
        var ref := shapeMap[key];
        if ref.refCount > 0 {
          shapeMap := shapeMap[key := ref.(refCount := ref.refCount - 1)];
          if ref.refCount - 1 == 0 {
            pendingGarbage := pendingGarbage + [key];
            if |pendingGarbage| > MAX_SHAPE_GARBAGE_CAPACITY {
              CollectGarbage();
            }
          }
          return true;
        }
      }
      return false;
    }

    /** Releases the entry holding `shape`; false when no entry holds it. */
    method ReleaseShape(shape: Shape) returns (ok: bool)
      requires Valid()
      modifies this
      ensures Valid()
      ensures (Model(), ok) == ReleasedShape(old(Model()), shape)
    {
      var unvisited := shapeMap.Keys;
      while unvisited != {}
        invariant Model() == old(Model())
        invariant unvisited <= shapeMap.Keys
        invariant forall k :: k in shapeMap && k !in unvisited ==> shapeMap[k].shape != shape
        decreases unvisited
      {
        ghost var w := Member(unvisited);
        var k :| k in unvisited;
        if shapeMap[k].shape == shape {
          assert ShapesUnique(shapeMap);
          assert KeyOf(shapeMap, shape) == k;
          ok := ReleaseShapeByKey(k);
          return;
        }
        unvisited := unvisited - {k};
      }
      return false;
    }

    /** The number of references to the shape described by `info`; 0 when it is not cached. */
    method GetNumReferences(info: ShapeInfo) returns (n: nat)
      requires Valid()
      ensures info.hash in shapeMap ==> n == shapeMap[info.hash].refCount
      ensures info.hash !in shapeMap ==> n == 0
    {
      var key := info.hash;
      if key in shapeMap {
        return shapeMap[key].refCount;
      }
      return 0;
    }

    /** The number of references held on `shape`; 0 when no entry holds it. */
    method GetNumReferencesOfShape(shape: Shape) returns (n: nat)
      requires Valid()
      ensures HoldsShape(shapeMap, shape) ==> n == shapeMap[KeyOf(shapeMap, shape)].refCount
      ensures !HoldsShape(shapeMap, shape) ==> n == 0
    {
      var unvisited := shapeMap.Keys;
      while unvisited != {}
        invariant unvisited <= shapeMap.Keys
        invariant forall k :: k in shapeMap && k !in unvisited ==> shapeMap[k].shape != shape
        decreases unvisited
      {
        ghost var w := Member(unvisited);
        var k :| k in unvisited;
        if shapeMap[k].shape == shape {
          return shapeMap[k].refCount;
        }
        unvisited := unvisited - {k};
      }
      return 0;
    }

    /** Whether some entry holds `shape`. */
    method HasShape(shape: Shape) returns (b: bool)
      requires Valid()
      ensures b <==> HoldsShape(shapeMap, shape)
    {
      var unvisited := shapeMap.Keys;
      while unvisited != {}
        invariant unvisited <= shapeMap.Keys
        invariant forall k :: k in shapeMap && k !in unvisited ==> shapeMap[k].shape != shape
        decreases unvisited
      {
        ghost var w := Member(unvisited);
        var k :| k in unvisited;
        if shapeMap[k].shape == shape {
          return true;
        }
        unvisited := unvisited - {k};
      }
      return false;
    }
  }
}
