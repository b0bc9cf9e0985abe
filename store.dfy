/**
 * The entity/component store the runtime is built on, reduced to what the
 * core relies on: entities are opaque ids handed out by a fresh-id counter,
 * each entity holds at most one component of each kind, `spawn` creates an
 * entity with a bundle of components, and `insert` replaces the entity's
 * component of that kind.  Nothing is ever removed.
 *
 * The components themselves are those of the sensor runtime: Name,
 * Metadata, Timer, Features, the Output back-reference, Reading, and a
 * driver-specific payload.  Timer and Reading are objects, because
 * systems update them in place after they are built.
 */
module Store {

  import opened Descriptors
  import opened Timers

  /** An entity handle. */
  type Entity = nat

  /** An output's reading, an `f64` that systems overwrite in place. */
  class Reading {
    var value: real

    /** `Reading::default()`. */
    constructor Default()
      ensures value == 0.0
    {
      value := 0.0;
    }

    /** `Reading::set`: afterwards the reading is `n`. */
    method Set(n: real)
      modifies this
      ensures value == n
    {
      value := n;
    }
  }

  /** The kinds of component; an entity holds at most one of each kind. */
  datatype Kind = NameKind | MetadataKind | TimerKind | FeaturesKind | OutputKind | ReadingKind | PayloadKind(tag: string)

  /** A component value. */
  datatype Component =
    | SensorName(name: string)
    | Meta(metadata: Metadata)
    | TimerOf(timer: Timer)
    /** A sensor's output entities, in declaration order. */
    | Features(outputs: seq<Entity>)
    /** An output's back-reference to the sensor that owns it. */
    | Output(sensor: Entity)
    | ReadingOf(reading: Reading)
    /** Any other component a module attaches, e.g. a driver's port and counters. */
    | Payload(tag: string, data: seq<int>)

  function KindOf(c: Component): Kind
  {
    match c
    case SensorName(_) => NameKind
    case Meta(_) => MetadataKind
    case TimerOf(_) => TimerKind
    case Features(_) => FeaturesKind
    case Output(_) => OutputKind
    case ReadingOf(_) => ReadingKind
    case Payload(tag, _) => PayloadKind(tag)
  }

  /** The components of one entity, indexed by their kind. */
  type Components = map<Kind, Component>

  /** Every component is filed under its own kind. */
  predicate WellKinded(c: Components)
  {
    forall k | k in c :: KindOf(c[k]) == k
  }

  /** `Features::is_sensor`: an entity is a sensor when its Features list is not empty. */
  function IsSensor(features: seq<Entity>): (r: bool)
    ensures r <==> exists e :: e in features
  {
    if features == [] then false
    else assert features[0] in features; true
  }

  /** The store. */
  class World {
    var entities: map<Entity, Components>
    /** The next entity id `spawn` hands out. */
    var next: Entity

    ghost predicate Valid()
      reads this
    {
      && (forall e | e in entities :: e < next)
      && (forall e | e in entities :: WellKinded(entities[e]))
    }

    /** An empty store. */
    constructor ()
      ensures Valid() && entities == map[]
    {
      entities := map[];
      next := 0;
    }

    /** `spawn`: a new entity, distinct from every existing one, holding exactly `bundle`. */
    method Spawn(bundle: Components) returns (e: Entity)
      requires Valid() && WellKinded(bundle)
      modifies this
      ensures Valid()
      ensures e !in old(entities)
      ensures entities == old(entities)[e := bundle]
    {
      e := next;
      entities := entities[e := bundle];
      next := next + 1;
    }

    /** `insert`: the entity's component of that kind is replaced; the source panics on a missing entity. */
    method Insert(e: Entity, c: Component)
      requires Valid() && e in entities
      modifies this
      ensures Valid()
      ensures entities == old(entities)[e := old(entities)[e][KindOf(c) := c]]
    {
      entities := entities[e := entities[e][KindOf(c) := c]];
    }
  }
}
