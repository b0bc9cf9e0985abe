/**
 * Sensor assembly.  A SensorBuilder reserves the sensor's entity as soon
 * as it is created, accumulates a pending spec (type metadata, the output
 * declarations in order, an optional timer duration), registers systems on
 * the robot as it goes, attaches extra components to the reserved entity
 * immediately, and on `build` writes the sensor's components and one
 * output entity per declared output into the store.
 *
 * The builder is moved through its chaining calls, which hand it back;
 * `build` takes it by value and does not.  The `live` field records
 * whether the builder is still usable.
 */
module Sensors {

  import opened Wrappers
  import opened Descriptors
  import Timers
  import opened Store
  import opened Robots
  import opened Outputs

  /** The output entities listed in a component record's Features, or none. */
  ghost function FeaturesOf(c: Components): seq<Entity>
  {
    if FeaturesKind in c && c[FeaturesKind].Features? then c[FeaturesKind].outputs else []
  }

  /** The sensor entity's components after `build`, given those it had before. */
  ghost function Assembled(c: Components, name: string, metadata: Metadata, timer: Option<Component>, features: seq<Entity>): Components
  {
    Identified(c, name, metadata, timer)[FeaturesKind := Features(features)]
  }

  /** The sensor entity's components once `build` has written its Name, Metadata and Timer. */
  ghost function Identified(c: Components, name: string, metadata: Metadata, timer: Option<Component>): Components
  {
    var named := c[NameKind := SensorName(name)][MetadataKind := Meta(metadata)];
    if timer.Some? then named[TimerKind := timer.value] else named
  }

  class SensorBuilder {
    const robot: Robot
    /** The sensor's entity, reserved by `new`. */
    const entity: Entity
    var name: string
    var metadata: Metadata
    /** The declared outputs, in declaration order. */
    var outputs: seq<OutputBuilder>
    var timer: Option<Timers.Duration>
    /** False once the builder has been moved into a call that does not hand it back. */
    var live: bool

    ghost predicate Valid()
      reads this, robot, robot.world
    {
      robot.Valid() && entity in robot.world.entities
    }

    /**
     * `SensorBuilder::new`: spawns the sensor's entity at once, distinct from
     * every existing entity and with no components; the pending spec is the
     * Undefined type, no outputs and no timer.
     */
    constructor (name: string, robot: Robot)
      requires robot.Valid()
      modifies robot.world
      ensures Valid() && live
      ensures this.robot == robot && this.name == name
      ensures metadata == MetadataOf(UndefinedType) && outputs == [] && timer == None
      ensures entity !in old(robot.world.entities)
      ensures robot.world.entities == old(robot.world.entities)[entity := map[]]
    {
      var e := robot.world.Spawn(map[]);
      this.robot := robot;
      this.entity := e;
      this.name := name;
      metadata := MetadataOf(UndefinedType);
      outputs := [];
      timer := None;
      live := true;
    }

    /** `set_type`: the pending metadata becomes the descriptor's; the last call wins. */
    method SetType(t: Descriptor)
      requires live
      modifies this`metadata
      ensures metadata == MetadataOf(t)
    {
      metadata := MetadataOf(t);
    }

    /** `with_type`: as `set_type`, handing the builder back. */
    method WithType(t: Descriptor) returns (b: SensorBuilder)
      requires live
      modifies this`metadata
      ensures b == this && metadata == MetadataOf(t)
    {
      SetType(t);
      b := this;
    }

    /** `set_output`: exactly one more output, of the given type, after those already declared. */
    method SetOutput(t: Descriptor)
      requires live
      modifies this`outputs
      ensures outputs == old(outputs) + [OutputBuilder.New().WithType(t)]
      ensures outputs[|outputs| - 1].metadata == MetadataOf(t)
    {
      outputs := outputs + [OutputBuilder.New().WithType(t)];
    }

    /** `with_output`: as `set_output`, handing the builder back. */
    method WithOutput(t: Descriptor) returns (b: SensorBuilder)
      requires live
      modifies this`outputs
      ensures b == this
      ensures outputs == old(outputs) + [OutputBuilder.New().WithType(t)]
    {
      SetOutput(t);
      b := this;
    }

    /**
     * `with_timer`: the pending duration becomes `d`, and `timer_system` is
     * registered on the robot on every call, also when `d` is None.
     */
    method WithTimer(d: Option<Timers.Duration>) returns (b: SensorBuilder)
      requires live
      modifies this`timer, robot
      ensures b == this && timer == d
      ensures robot.stage == old(robot.stage) + [TimerSystemId] && robot.runs == old(robot.runs)
    {
      timer := d;
      b := WithSystem(TimerSystemId);
    }

    /** `set_timer`, taking the builder by reference as its siblings do: `with_timer` without handing it back. */
    method SetTimer(d: Option<Timers.Duration>)
      requires live
      modifies this`timer, robot
      ensures timer == d
      ensures robot.stage == old(robot.stage) + [TimerSystemId] && robot.runs == old(robot.runs)
    {
      timer := d;
      SetSystem(TimerSystemId);
    }

    /**
     * `set_timer` as written: it takes the builder by value, so the
     * builder, with the duration just recorded, is dropped; only the
     * registration of `timer_system` survives.
     */
    method SetTimerByValue(d: Option<Timers.Duration>)
      requires live
      modifies this`timer, this`live, robot
      ensures !live
      ensures robot.stage == old(robot.stage) + [TimerSystemId] && robot.runs == old(robot.runs)
    {
      timer := d;
      SetSystemByValue(TimerSystemId);
    }

    /** `with_system`: one more registration of `s` on the robot, with no deduplication. */
    method WithSystem(s: SystemId) returns (b: SensorBuilder)
      requires live
      modifies robot
      ensures b == this
      ensures robot.stage == old(robot.stage) + [s] && robot.runs == old(robot.runs)
    {
      robot.AddSystem(s);
      b := this;
    }

    /** `set_system`, taking the builder by reference as its siblings do. */
    method SetSystem(s: SystemId)
      requires live
      modifies robot
      ensures robot.stage == old(robot.stage) + [s] && robot.runs == old(robot.runs)
    {
      robot.AddSystem(s);
    }

    /** `set_system` as written: it takes the builder by value, so the builder is dropped. */
    method SetSystemByValue(s: SystemId)
      requires live
      modifies this`live, robot
      ensures !live
      ensures robot.stage == old(robot.stage) + [s] && robot.runs == old(robot.runs)
    {
      robot.AddSystem(s);
      live := false;
    }

    /** `add_component`: the component goes into the sensor's entity at once, replacing one of its kind. */
    method AddComponent(c: Component)
      requires Valid() && live
      modifies robot.world
      ensures Valid()
      ensures robot.world.entities == old(robot.world.entities)[entity := old(robot.world.entities)[entity][KindOf(c) := c]]
    {
      robot.world.Insert(entity, c);
    }

    /** `with_component`: as `add_component`, handing the builder back. */
    method WithComponent(c: Component) returns (b: SensorBuilder)
      requires Valid() && live
      modifies robot.world
      ensures Valid() && b == this
      ensures robot.world.entities == old(robot.world.entities)[entity := old(robot.world.entities)[entity][KindOf(c) := c]]
    {
      AddComponent(c);
      b := this;
    }

    /** The first step of `build`: Name and Metadata, and a fresh Timer in Wait when a duration was given. */
    method InsertIdentity() returns (ghost timerC: Option<Component>)
      requires Valid() && live
      modifies robot.world
      ensures Valid()
      ensures robot.world.entities == old(robot.world.entities)[entity := Identified(old(robot.world.entities)[entity], name, metadata, timerC)]
      ensures timerC.Some? <==> timer.Some?
      ensures timer.Some? ==>
        timerC.value.TimerOf? && fresh(timerC.value.timer) && timerC.value.timer.duration == timer.value && timerC.value.timer.state == Timers.Wait
    {
      robot.world.Insert(entity, SensorName(name));
      robot.world.Insert(entity, Meta(metadata));
      timerC := None;
      if timer.Some? {
        var t := new Timers.Timer(timer.value);
        robot.world.Insert(entity, TimerOf(t));
        timerC := Some(TimerOf(t));
      }
    }

    /** The loop of `build` over the declared outputs, then the Features list naming them on the sensor's entity. */
    method AttachOutputs() returns (features: seq<Entity>, ghost rs: seq<Reading>)
      requires Valid()
      modifies robot.world
      ensures Valid()
      ensures robot.world.entities[entity] == old(robot.world.entities)[entity][FeaturesKind := Features(features)]
      ensures Spawned(old(robot.world.entities), robot.world.entities, entity, outputs, features)
      ensures Unchanged(old(robot.world.entities), robot.world.entities, {entity})
      ensures ReadingsOf(robot.world.entities, features, rs) && AllZero(rs) && forall r | r in rs :: fresh(r)
    {
      ghost var w1 := robot.world.entities;
      features := SpawnOutputs(outputs, entity, robot.world);
      ghost var w2 := robot.world.entities;
      rs :| ReadingsOf(w2, features, rs) && AllZero(rs) && forall r | r in rs :: fresh(r);
      robot.world.Insert(entity, Features(features));
      AttachFinish(w1, w2, robot.world.entities, entity, outputs, features, rs);
    }

    /**
     * `build`: the sensor's entity receives its Name and the pending
     * Metadata, a fresh Timer in Wait exactly when a duration was given, and
     * a Features list holding one new output entity per declared output, in
     * declaration order, each pointing back at the sensor and carrying the
     * declared metadata.  No other existing entity changes, and the
     * sensor's entity is returned.
     */
    method Build() returns (e: Entity)
      requires Valid() && live
      modifies this`live, robot.world
      ensures !live && e == entity
      ensures robot.world.Valid() && entity in robot.world.entities
      ensures NameKind in robot.world.entities[entity] && robot.world.entities[entity][NameKind] == SensorName(name)
      ensures MetadataKind in robot.world.entities[entity] && robot.world.entities[entity][MetadataKind] == Meta(metadata)
      ensures TimerKind !in old(robot.world.entities)[entity] ==> (TimerKind in robot.world.entities[entity] <==> timer.Some?)
      ensures Spawned(old(robot.world.entities), robot.world.entities, entity, outputs, FeaturesOf(robot.world.entities[entity]))
      ensures Unchanged(old(robot.world.entities), robot.world.entities, {entity})
      ensures timer.Some? ==> TimerKind in robot.world.entities[entity]
      ensures exists rs :: ReadingsOf(robot.world.entities, FeaturesOf(robot.world.entities[entity]), rs) && AllZero(rs) && forall r | r in rs :: fresh(r)
      ensures robot.world.entities[entity] ==
        Assembled(old(robot.world.entities)[entity], name, metadata,
                  if timer.Some? then Some(robot.world.entities[entity][TimerKind]) else None,
                  FeaturesOf(robot.world.entities[entity]))
      ensures timer.Some? ==>
        var c := robot.world.entities[entity][TimerKind];
        c.TimerOf? && fresh(c.timer) && c.timer.duration == timer.value && c.timer.state == Timers.Wait
    {
      ghost var w0 := robot.world.entities;
      ghost var timerC := InsertIdentity();
      ghost var w1 := robot.world.entities;
      var features, rs := AttachOutputs();
      BuildFinish(w0, w1, robot.world.entities, entity, name, metadata, timerC, outputs, features);
      live := false;
      e := entity;
    }
  }

  /** The output entities `fs` were spawned, one per declared output and in order, between store states `w0` and `w`. */
  ghost predicate Spawned(w0: map<Entity, Components>, w: map<Entity, Components>, sensor: Entity, outputs: seq<OutputBuilder>, fs: seq<Entity>)
  {
    && |fs| == |outputs|
    && (forall i | 0 <= i < |fs| :: fs[i] !in w0 && fs[i] in w)
    && (forall i, j | 0 <= i < j < |fs| :: fs[i] != fs[j])
    && w.Keys == w0.Keys + (set x | x in fs)
    && (forall i | 0 <= i < |fs| :: IsOutputOf(w[fs[i]], sensor, outputs[i].metadata))
    && (forall i, j | 0 <= i < j < |fs| :: w[fs[i]][ReadingKind].reading != w[fs[j]][ReadingKind].reading)
  }

  /** Every entity of `w0` outside `except` is still there, with the same components. */
  ghost predicate Unchanged(w0: map<Entity, Components>, w: map<Entity, Components>, except: set<Entity>)
  {
    forall x | x in w0 && x !in except :: x in w && w[x] == w0[x]
  }

  /**
   * The loop of `build` that builds each declared output against the
   * sensor, collecting the new entities in order.  Each output gets its own
   * new Reading, at 0.0.
   */
  method SpawnOutputs(outputs: seq<OutputBuilder>, sensor: Entity, world: World) returns (fs: seq<Entity>)
    requires world.Valid()
    modifies world
    ensures world.Valid()
    ensures Spawned(old(world.entities), world.entities, sensor, outputs, fs)
    ensures Unchanged(old(world.entities), world.entities, {})
    ensures exists rs :: ReadingsOf(world.entities, fs, rs) && AllZero(rs) && forall r | r in rs :: fresh(r)
  {
    fs := [];
    ghost var rs: seq<Reading> := [];
    for i := 0 to |outputs|
      invariant world.Valid()
      invariant Spawned(old(world.entities), world.entities, sensor, outputs[..i], fs)
      invariant Unchanged(old(world.entities), world.entities, {})
      invariant ReadingsOf(world.entities, fs, rs) && AllZero(rs)
      invariant forall r | r in rs :: fresh(r)
    {
      fs, rs := SpawnNext(outputs, i, fs, rs, sensor, world, old(world.entities));
    }
    assert outputs[..|outputs|] == outputs;
  }

  /** `rs` lists the Reading objects of the outputs `fs`, in order. */
  ghost predicate ReadingsOf(w: map<Entity, Components>, fs: seq<Entity>, rs: seq<Reading>)
  {
    && |rs| == |fs|
    && forall i | 0 <= i < |fs| :: fs[i] in w && ReadingKind in w[fs[i]] && w[fs[i]][ReadingKind] == ReadingOf(rs[i])
  }

  /** Every reading in `rs` stands at 0.0. */
  ghost predicate AllZero(rs: seq<Reading>)
    reads set r | r in rs
  {
    forall r | r in rs :: r.value == 0.0
  }

  /** One turn of the loop of `build`: the next output is built, with a new Reading, after those already built. */
  method SpawnNext(outputs: seq<OutputBuilder>, i: nat, fs: seq<Entity>, ghost rs: seq<Reading>, sensor: Entity, world: World,
                   ghost w0: map<Entity, Components>) returns (fs': seq<Entity>, ghost rs': seq<Reading>)
    requires world.Valid() && i < |outputs|
    requires Spawned(w0, world.entities, sensor, outputs[..i], fs) && Unchanged(w0, world.entities, {})
    requires ReadingsOf(world.entities, fs, rs) && AllZero(rs)
    modifies world
    ensures world.Valid()
    ensures Spawned(w0, world.entities, sensor, outputs[..i + 1], fs') && Unchanged(w0, world.entities, {})
    ensures ReadingsOf(world.entities, fs', rs') && AllZero(rs')
    ensures |rs'| == |rs| + 1 && rs' == rs + [rs'[|rs|]] && fresh(rs'[|rs|])
  {
    ghost var before := world.entities;
    var b := outputs[i];
    var f := b.Build(sensor, world);
    assert outputs[..i + 1] == outputs[..i] + [b];
    SpawnedStep(w0, before, world.entities, sensor, outputs[..i], fs, f, b);
    fs' := fs + [f];
    rs' := rs + [world.entities[f][ReadingKind].reading];
  }

  lemma SpawnedStep(w0: map<Entity, Components>, wa: map<Entity, Components>, wb: map<Entity, Components>,
                    sensor: Entity, outputs: seq<OutputBuilder>, fs: seq<Entity>, f: Entity, b: OutputBuilder)
    requires Spawned(w0, wa, sensor, outputs, fs) && Unchanged(w0, wa, {})
    requires f !in wa && f in wb && wb == wa[f := wb[f]] && IsOutputOf(wb[f], sensor, b.metadata)
    requires forall i | 0 <= i < |fs| :: wa[fs[i]][ReadingKind].reading != wb[f][ReadingKind].reading
    ensures Spawned(w0, wb, sensor, outputs + [b], fs + [f]) && Unchanged(w0, wb, {})
  {
    assert (set x | x in fs + [f]) == (set x | x in fs) + {f};
  }

  /** The store after `build`, from the three steps that produce it. */
  lemma BuildFinish(w0: map<Entity, Components>, w1: map<Entity, Components>, w3: map<Entity, Components>,
                    sensor: Entity, name: string, metadata: Metadata, timer: Option<Component>, outputs: seq<OutputBuilder>, fs: seq<Entity>)
    requires sensor in w0
    requires w1 == w0[sensor := Identified(w0[sensor], name, metadata, timer)]
    requires sensor in w3 && w3[sensor] == w1[sensor][FeaturesKind := Features(fs)]
    requires Spawned(w1, w3, sensor, outputs, fs) && Unchanged(w1, w3, {sensor})
    ensures FeaturesOf(w3[sensor]) == fs
    ensures Spawned(w0, w3, sensor, outputs, fs)
    ensures Unchanged(w0, w3, {sensor})
    ensures w3[sensor] == Assembled(w0[sensor], name, metadata, timer, fs)
    ensures NameKind in w3[sensor] && w3[sensor][NameKind] == SensorName(name)
    ensures MetadataKind in w3[sensor] && w3[sensor][MetadataKind] == Meta(metadata)
    ensures TimerKind !in w0[sensor] ==> (TimerKind in w3[sensor] <==> timer.Some?)
  {
  }

  /** The Features insert after the loop keeps the spawned outputs and their readings as they are. */
  lemma AttachFinish(w1: map<Entity, Components>, w2: map<Entity, Components>, w3: map<Entity, Components>,
                     sensor: Entity, outputs: seq<OutputBuilder>, fs: seq<Entity>, rs: seq<Reading>)
    requires sensor in w1
    requires Spawned(w1, w2, sensor, outputs, fs) && Unchanged(w1, w2, {})
    requires w3 == w2[sensor := w2[sensor][FeaturesKind := Features(fs)]]
    requires ReadingsOf(w2, fs, rs)
    ensures sensor in w3 && w3[sensor] == w1[sensor][FeaturesKind := Features(fs)]
    ensures Spawned(w1, w3, sensor, outputs, fs) && Unchanged(w1, w3, {sensor})
    ensures ReadingsOf(w3, fs, rs)
  {
    SpawnedFrame(w1, w2, sensor, outputs, fs, sensor, w2[sensor][FeaturesKind := Features(fs)]);
  }

  /** Replacing the components of an entity that existed before keeps the spawned outputs as they are. */
  lemma SpawnedFrame(w0: map<Entity, Components>, wa: map<Entity, Components>, sensor: Entity,
                     outputs: seq<OutputBuilder>, fs: seq<Entity>, x: Entity, c: Components)
    requires Spawned(w0, wa, sensor, outputs, fs) && x in w0
    ensures Spawned(w0, wa[x := c], sensor, outputs, fs)
  {
  }
}
