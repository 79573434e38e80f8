/**
 * The part of the engine the grab script talks to through `Entities`: a store
 * of entities (their physical properties and grab records) and the calls the
 * script makes on it, recorded in order as events.
 */
module GrabWorld {
  import opened Wrappers
  import opened GrabTypes
  import opened GrabMetadata
  import opened ActivationLedger

  datatype ActionKind = Spring | Hold

  /** A call the script makes that the engine or another script can observe. */
  datatype Event =
    | AddAction(kind: ActionKind, entity: EntityId, tag: Option<string>)
    | UpdateAction(entity: EntityId, action: ActionId)
    | DeleteAction(entity: EntityId, action: ActionId)
    | EditEntity(entity: EntityId, edit: PropEdit)
    | CallEntityMethod(entity: EntityId, name: string)
    | PickRay(hand: Hand)

  datatype WorldState = WorldState(entities: map<EntityId, Entity>, log: seq<Event>)

  /** What a read of an entity the store does not hold gives: default properties and no record. */
  const MISSING_ENTITY: Entity := Entity(PhysProps(ZERO_VEC, false, false), None)

  function EntityOf(w: WorldState, e: EntityId): (ent: Entity)
    ensures e !in w.entities ==> ent == MISSING_ENTITY
  {
    if e in w.entities then w.entities[e] else MISSING_ENTITY
  }

  /** Records a call without touching the store. */
  function Emit(w: WorldState, ev: Event): (r: WorldState)
    ensures r.entities == w.entities && r.log == w.log + [ev]
  {
    w.(log := w.log + [ev])
  }

  /** Writes an entity back; a write to an entity the store does not hold has no effect. */
  function Store(w: WorldState, e: EntityId, ent: Entity): (r: WorldState)
    ensures r.log == w.log
    ensures r.entities.Keys == w.entities.Keys
    ensures e in w.entities ==> EntityOf(r, e) == ent
    ensures forall x :: x != e ==> EntityOf(r, x) == EntityOf(w, x)
  {
    if e in w.entities then w.(entities := w.entities[e := ent]) else w
  }

  /** `Entities.editEntity` on the physical properties: recorded, then applied. */
  function EditProps(w: WorldState, e: EntityId, edit: PropEdit): (r: WorldState)
    ensures r.log == w.log + [EditEntity(e, edit)]
    ensures r.entities.Keys == w.entities.Keys
    ensures e in w.entities ==> EntityOf(r, e) == EntityOf(w, e).(props := ApplyEdit(EntityOf(w, e).props, edit))
    ensures forall x :: x != e ==> EntityOf(r, x) == EntityOf(w, x)
  {
    Store(Emit(w, EditEntity(e, edit)), e, EntityOf(w, e).(props := ApplyEdit(EntityOf(w, e).props, edit)))
  }

  /** The engine's store, updated in place by the script's calls. */
  class World {
    var entities: map<EntityId, Entity>
    var log: seq<Event>

    ghost function State(): WorldState
      reads this
    {
      WorldState(entities, log)
    }

    constructor (initial: map<EntityId, Entity>)
      ensures State() == WorldState(initial, [])
    {
      entities := initial;
      log := [];
    }

    /** Records a call (`addAction`, `updateAction`, `deleteAction`, `callEntityMethod`, a ray cast). */
    method Record(ev: Event)
      modifies this
      ensures State() == Emit(old(State()), ev)
    {
      log := log + [ev];
    }

    /** `Entities.editEntity` with a partial property edit. */
    method Edit(e: EntityId, edit: PropEdit)
      modifies this
      ensures State() == EditProps(old(State()), e, edit)
    {
      log := log + [EditEntity(e, edit)];
      if e in entities {
        var ent := entities[e];
        entities := entities[e := ent.(props := ApplyEdit(ent.props, edit))];
      }
    }

    /** `Entities.getEntityProperties` restricted to what activation needs, and the grab record. */
    method GetEntity(e: EntityId) returns (ent: Entity)
      ensures ent == EntityOf(State(), e)
    {
      ent := if e in entities then entities[e] else MISSING_ENTITY;
    }

    /** `setEntityCustomData(GRAB_USER_DATA_KEY, e, data)`: `None` clears the record. */
    method SetGrabData(e: EntityId, data: Option<GrabData>)
      modifies this
      ensures State() == Store(old(State()), e, EntityOf(old(State()), e).(grabData := data))
    {
      if e in entities {
        entities := entities[e := entities[e].(grabData := data)];
      }
    }
  }
}
