/**
 * The per-entity grab record ("grabKey" user data) that lets several hands
 * hold one entity: the first activation saves the entity's gravity, solidity
 * and dynamic flag and zeroes its gravity; the last deactivation puts the saved
 * values back and clears the record.
 */
module ActivationLedger {
  import opened Wrappers
  import opened GrabMetadata

  /** The physical properties the grab script borrows while an entity is held. */
  datatype PhysProps = PhysProps(gravity: Vec3, ignoreForCollisions: bool, collisionsWillMove: bool)

  /** A partial property edit (`Entities.editEntity`); `None` leaves a property alone. */
  datatype PropEdit = PropEdit(gravity: Option<Vec3>, ignoreForCollisions: Option<bool>, collisionsWillMove: Option<bool>)

  function ApplyEdit(p: PhysProps, e: PropEdit): (r: PhysProps)
    ensures r.gravity == (if e.gravity.Some? then e.gravity.value else p.gravity)
    ensures r.ignoreForCollisions == (if e.ignoreForCollisions.Some? then e.ignoreForCollisions.value else p.ignoreForCollisions)
    ensures r.collisionsWillMove == (if e.collisionsWillMove.Some? then e.collisionsWillMove.value else p.collisionsWillMove)
  {
    PhysProps(
      match e.gravity case Some(g) => g case None => p.gravity,
      match e.ignoreForCollisions case Some(i) => i case None => p.ignoreForCollisions,
      match e.collisionsWillMove case Some(c) => c case None => p.collisionsWillMove)
  }

  /** The stored record: how many grabs hold the entity, who last grabbed it, and the saved properties. */
  datatype GrabData = GrabData(refCount: nat, avatarId: string, saved: PhysProps)

  /** An entity as far as activation is concerned: its properties and its grab record, if any. */
  datatype Entity = Entity(props: PhysProps, grabData: Option<GrabData>)

  /** The record's count as JavaScript reads it: a missing record or field counts as zero. */
  function ReferenceCount(ent: Entity): nat {
    if ent.grabData.Some? then ent.grabData.value.refCount else 0
  }

  /** The edit made on first activation: zero gravity, and flipped solidity when asked to. */
  function WhileHeldEdit(p: PhysProps, invertSolidWhileHeld: bool): PropEdit {
    PropEdit(Some(ZERO_VEC), if invertSolidWhileHeld then Some(!p.ignoreForCollisions) else None, None)
  }

  /** The edit `activateEntity` sends, if it sends one. */
  function ActivationEdit(ent: Entity, invertSolidWhileHeld: bool): (r: Option<PropEdit>)
    ensures r.Some? <==> ReferenceCount(ent) == 0
  {
    if ReferenceCount(ent) == 0 then Some(WhileHeldEdit(ent.props, invertSolidWhileHeld)) else None
  }

  /** `activateEntity` on the entity's state. */
  function Activated(ent: Entity, session: string, invertSolidWhileHeld: bool): (r: Entity)
    ensures r.grabData.Some? && r.grabData.value.avatarId == session
    ensures ReferenceCount(r) == ReferenceCount(ent) + 1
    ensures ReferenceCount(ent) == 0 ==> r.grabData.value.saved == ent.props && r.props.gravity == ZERO_VEC
    ensures ReferenceCount(ent) == 0 ==> r.props.collisionsWillMove == ent.props.collisionsWillMove
    ensures ReferenceCount(ent) == 0 ==> r.props.ignoreForCollisions
                                         == (ent.props.ignoreForCollisions != invertSolidWhileHeld)
    ensures ReferenceCount(ent) > 0 ==> r.props == ent.props && r.grabData.value.saved == ent.grabData.value.saved
  {
    var refCount := if ReferenceCount(ent) != 0 then ReferenceCount(ent) + 1 else 1;
    if refCount == 1 then
      Entity(ApplyEdit(ent.props, WhileHeldEdit(ent.props, invertSolidWhileHeld)),
             Some(GrabData(refCount, session, ent.props)))
    else
      Entity(ent.props, Some(GrabData(refCount, session, ent.grabData.value.saved)))
  }

  /** The edit that puts the saved properties back. */
  function RestoreEdit(saved: PhysProps): PropEdit {
    PropEdit(Some(saved.gravity), Some(saved.ignoreForCollisions), Some(saved.collisionsWillMove))
  }

  /** The edit `deactivateEntity` sends, if it sends one: only when the last holder lets go. */
  function DeactivationEdit(ent: Entity): (r: Option<PropEdit>)
    ensures r.Some? <==> ReferenceCount(ent) == 1
  {
    if ReferenceCount(ent) != 0 && ReferenceCount(ent) - 1 < 1 then Some(RestoreEdit(ent.grabData.value.saved))
    else None
  }

  /** `deactivateEntity` on the entity's state. */
  function Deactivated(ent: Entity): (r: Entity)
    ensures ReferenceCount(r) == if ReferenceCount(ent) == 0 then 0 else ReferenceCount(ent) - 1
    ensures ReferenceCount(ent) == 0 ==> r == ent.(grabData := None)
    ensures ReferenceCount(ent) == 1 ==> r == Entity(ent.grabData.value.saved, None)
    ensures ReferenceCount(ent) > 1 ==> r.props == ent.props && r.grabData.Some?
                                        && r.grabData.value.saved == ent.grabData.value.saved
  {
    if ReferenceCount(ent) != 0 then
      var data := ent.grabData.value;
      var refCount := data.refCount - 1;
      if refCount < 1 then Entity(ApplyEdit(ent.props, RestoreEdit(data.saved)), None)
      else Entity(ent.props, Some(data.(refCount := refCount)))
    else Entity(ent.props, None)
  }

  /** No stored record says zero holders: a record exists exactly while someone holds the entity. */
  predicate RecordLive(ent: Entity) {
    ent.grabData.Some? ==> ent.grabData.value.refCount >= 1
  }

  lemma ActivationKeepsRecordsLive(ent: Entity, session: string, invert: bool)
    ensures RecordLive(Activated(ent, session, invert))
  {
  }

  lemma DeactivationKeepsRecordsLive(ent: Entity)
    requires RecordLive(ent)
    ensures RecordLive(Deactivated(ent))
  {
  }

  // ------------------------------------------------------------ sequences of grabs

  /** What can happen to one entity: a hand grabs it, a hand lets go, or someone edits it while held. */
  datatype LedgerOp = Grab(session: string, invertSolidWhileHeld: bool) | Ungrab | EditWhileHeld(edit: PropEdit)

  function Step(ent: Entity, op: LedgerOp): Entity {
    match op
    case Grab(session, invert) => Activated(ent, session, invert)
    case Ungrab => Deactivated(ent)
    case EditWhileHeld(e) => ent.(props := ApplyEdit(ent.props, e))
  }

  function Run(ent: Entity, ops: seq<LedgerOp>): Entity
    decreases |ops|
  {
    if |ops| == 0 then ent else Run(Step(ent, ops[0]), ops[1..])
  }

  /**
   * Starting with `depth` holders, the operations never let go of more grabs
   * than are held, only edit while the entity is held, and end with nobody
   * holding it.
   */
  predicate Balanced(ops: seq<LedgerOp>, depth: nat)
    decreases |ops|
  {
    if |ops| == 0 then depth == 0
    else match ops[0]
      case Grab(_, _) => Balanced(ops[1..], depth + 1)
      case Ungrab => depth > 0 && Balanced(ops[1..], depth - 1)
      case EditWhileHeld(_) => depth > 0 && Balanced(ops[1..], depth)
  }

  /** The heart of the round trip: while held, the record keeps the original properties. */
  lemma {:induction false} RunBalancedRestores(ent: Entity, ops: seq<LedgerOp>, depth: nat, original: Entity)
    requires original.grabData.None?
    requires Balanced(ops, depth)
    requires depth == 0 ==> ent == original
    requires depth > 0 ==> ReferenceCount(ent) == depth && ent.grabData.value.saved == original.props
    ensures Run(ent, ops) == original
    decreases |ops|
  {
    if |ops| == 0 {
    } else {
      var next := Step(ent, ops[0]);
      match ops[0]
      case Grab(_, _) =>
        RunBalancedRestores(next, ops[1..], depth + 1, original);
      case Ungrab =>
        RunBalancedRestores(next, ops[1..], depth - 1, original);
      case EditWhileHeld(_) =>
        RunBalancedRestores(next, ops[1..], depth, original);
    }
  }

  /**
   * However grabs by several hands interleave, once every grab has been let go
   * the entity has its original gravity, solidity and dynamic flag again and no
   * record, whatever was edited in between.
   */
  lemma BalancedGrabsRestoreEntity(ent: Entity, ops: seq<LedgerOp>)
    requires ent.grabData.None?
    requires Balanced(ops, 0)
    ensures Run(ent, ops) == ent
  {
    RunBalancedRestores(ent, ops, 0, ent);
  }

  function Repeat(op: LedgerOp, n: nat): (r: seq<LedgerOp>)
    ensures |r| == n && forall i :: 0 <= i < n ==> r[i] == op
  {
    if n == 0 then [] else [op] + Repeat(op, n - 1)
  }

  lemma {:induction false} UngrabsBalance(n: nat)
    ensures Balanced(Repeat(Ungrab, n), n)
  {
    if n > 0 {
      UngrabsBalance(n - 1);
      assert Repeat(Ungrab, n)[1..] == Repeat(Ungrab, n - 1);
    }
  }

  lemma {:induction false} GrabsThenBalance(session: string, invert: bool, k: nat, rest: seq<LedgerOp>, depth: nat)
    requires Balanced(rest, depth + k)
    ensures Balanced(Repeat(Grab(session, invert), k) + rest, depth)
  {
    if k > 0 {
      GrabsThenBalance(session, invert, k - 1, rest, depth + 1);
      assert (Repeat(Grab(session, invert), k) + rest)[1..] == Repeat(Grab(session, invert), k - 1) + rest;
    } else {
      assert Repeat(Grab(session, invert), k) + rest == rest;
    }
  }

  /** In particular n grabs followed by n releases leave the entity as it was. */
  lemma NGrabsNReleases(ent: Entity, session: string, invert: bool, n: nat)
    requires ent.grabData.None?
    ensures Run(ent, Repeat(Grab(session, invert), n) + Repeat(Ungrab, n)) == ent
  {
    UngrabsBalance(n);
    GrabsThenBalance(session, invert, n, Repeat(Ungrab, n), 0);
    BalancedGrabsRestoreEntity(ent, Repeat(Grab(session, invert), n) + Repeat(Ungrab, n));
  }
}
