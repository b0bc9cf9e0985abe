/**
 * The Module registration protocol.  A Module initializes itself against
 * a Robot and hands back what it created.  The modules of this runtime do
 * so by running, for each sensor they declare, one SensorBuilder chain:
 * `new(name)`, a sequence of configuration calls, then `build`.  A module
 * is modelled as exactly that: a list of sensor recipes, each a name and
 * the configuration calls in order, and `init` builds them in order and
 * returns the built sensor entities.
 */
module Modules {

  import opened Wrappers
  import opened Descriptors
  import Timers
  import opened Store
  import opened Robots
  import opened Outputs
  import opened Sensors

  /** One configuration call on a SensorBuilder. */
  datatype Step =
    | StepType(descriptor: Descriptor)
    | StepOutput(output: Descriptor)
    | StepTimer(duration: Option<Timers.Duration>)
    | StepSystem(system: SystemId)
    | StepComponent(component: Component)

  /** `SensorBuilder::new(name)`, the configuration calls, then `build`. */
  datatype Recipe = Recipe(name: string, steps: seq<Step>)

  /** A module: the sensors it builds, in order. */
  datatype Module = Module(sensors: seq<Recipe>)

  /** The pending metadata after the calls: that of the last type given, else Undefined. */
  function PendingMetadata(steps: seq<Step>): Metadata
    decreases |steps|
  {
    if steps == [] then MetadataOf(UndefinedType)
    else if steps[|steps| - 1].StepType? then MetadataOf(steps[|steps| - 1].descriptor)
    else PendingMetadata(steps[..|steps| - 1])
  }

  /** The metadata of the declared outputs, in declaration order. */
  function PendingOutputs(steps: seq<Step>): seq<Metadata>
    decreases |steps|
  {
    if steps == [] then []
    else
      var rest := PendingOutputs(steps[..|steps| - 1]);
      if steps[|steps| - 1].StepOutput? then rest + [MetadataOf(steps[|steps| - 1].output)] else rest
  }

  /** The pending timer duration after the calls: the last one given, else none. */
  function PendingTimer(steps: seq<Step>): Option<Timers.Duration>
    decreases |steps|
  {
    if steps == [] then None
    else if steps[|steps| - 1].StepTimer? then steps[|steps| - 1].duration
    else PendingTimer(steps[..|steps| - 1])
  }

  /** The systems the calls register, in order: `timer_system` for every timer call. */
  function StepSystems(steps: seq<Step>): seq<SystemId>
    decreases |steps|
  {
    if steps == [] then []
    else
      var rest := StepSystems(steps[..|steps| - 1]);
      match steps[|steps| - 1]
      case StepTimer(_) => rest + [TimerSystemId]
      case StepSystem(s) => rest + [s]
      case _ => rest
  }

  /** The components the calls attach to the sensor's entity: a later one replaces an earlier one of its kind. */
  function PendingComponents(steps: seq<Step>): Components
    decreases |steps|
  {
    if steps == [] then map[]
    else
      var rest := PendingComponents(steps[..|steps| - 1]);
      if steps[|steps| - 1].StepComponent? then rest[KindOf(steps[|steps| - 1].component) := steps[|steps| - 1].component] else rest
  }

  /** The systems a module registers, recipe after recipe. */
  function ModuleSystems(sensors: seq<Recipe>): seq<SystemId>
    decreases |sensors|
  {
    if sensors == [] then [] else ModuleSystems(sensors[..|sensors| - 1]) + StepSystems(sensors[|sensors| - 1].steps)
  }

  lemma StageAfterTurn(stage0: seq<SystemId>, s0: seq<SystemId>, s1: seq<SystemId>, done: seq<Recipe>, r: Recipe)
    requires s0 == stage0 + ModuleSystems(done) && s1 == s0 + StepSystems(r.steps)
    ensures s1 == stage0 + ModuleSystems(done + [r])
  {
    ModuleSystemsSnoc(done, r);
  }

  lemma ModuleSystemsSnoc(sensors: seq<Recipe>, r: Recipe)
    ensures ModuleSystems(sensors + [r]) == ModuleSystems(sensors) + StepSystems(r.steps)
  {
    assert (sensors + [r])[..|sensors|] == sensors;
  }

  /** The output metadata a sensor's outputs carry. */
  function OutputMetadata(outputs: seq<OutputBuilder>): (ms: seq<Metadata>)
    ensures |ms| == |outputs| && forall i | 0 <= i < |outputs| :: ms[i] == outputs[i].metadata
  {
    seq(|outputs|, i requires 0 <= i < |outputs| => outputs[i].metadata)
  }

  /** The last type given wins: type calls before it, and calls of other kinds after it, do not matter. */
  lemma {:induction false} LastTypeWins(before: seq<Step>, t: Descriptor, after: seq<Step>)
    requires forall i | 0 <= i < |after| :: !after[i].StepType?
    ensures PendingMetadata(before + [StepType(t)] + after) == MetadataOf(t)
    decreases |after|
  {
    var all := before + [StepType(t)] + after;
    if after != [] {
      var shorter := after[..|after| - 1];
      assert all[..|all| - 1] == before + [StepType(t)] + shorter;
      LastTypeWins(before, t, shorter);
    }
  }

  /** Output declarations keep their order across any split of the calls. */
  lemma {:induction false} OutputsConcat(a: seq<Step>, b: seq<Step>)
    ensures PendingOutputs(a + b) == PendingOutputs(a) + PendingOutputs(b)
    decreases |b|
  {
    if b == [] {
      assert a + b == a;
    } else {
      var shorter := b[..|b| - 1];
      assert (a + b)[..|a + b| - 1] == a + shorter;
      OutputsConcat(a, shorter);
    }
  }

  /** The call attaches a component of kind `k`. */
  predicate Attaches(step: Step, k: Kind)
  {
    step.StepComponent? && KindOf(step.component) == k
  }

  /** The sensor's entity holds a component of kind `k` exactly when some call attached one of that kind. */
  lemma {:induction false} ComponentsAttached(steps: seq<Step>, k: Kind)
    ensures k in PendingComponents(steps) <==> exists i | 0 <= i < |steps| :: Attaches(steps[i], k)
    decreases |steps|
  {
    if steps != [] {
      var n := |steps| - 1;
      ComponentsAttached(steps[..n], k);
      if !Attaches(steps[n], k) {
        if exists i | 0 <= i < |steps| :: Attaches(steps[i], k) {
          var i :| 0 <= i < |steps| && Attaches(steps[i], k);
          assert steps[..n][i] == steps[i];
        }
        if exists i | 0 <= i < n :: Attaches(steps[..n][i], k) {
          var i :| 0 <= i < n && Attaches(steps[..n][i], k);
          assert steps[i] == steps[..n][i];
        }
      }
    }
  }

  /** The component of kind `k` the sensor's entity holds is the one the last call attaching that kind gave. */
  lemma {:induction false} LastComponentWins(before: seq<Step>, c: Component, after: seq<Step>)
    requires forall i | 0 <= i < |after| :: !Attaches(after[i], KindOf(c))
    ensures KindOf(c) in PendingComponents(before + [StepComponent(c)] + after)
    ensures PendingComponents(before + [StepComponent(c)] + after)[KindOf(c)] == c
    decreases |after|
  {
    var all := before + [StepComponent(c)] + after;
    if after != [] {
      var shorter := after[..|after| - 1];
      assert all[..|all| - 1] == before + [StepComponent(c)] + shorter;
      assert !Attaches(after[|after| - 1], KindOf(c));
      LastComponentWins(before, c, shorter);
    } else {
      assert all[..|all| - 1] == before;
    }
  }

  /** Every timer call registers `timer_system` once more, whether or not it gives a duration. */
  lemma {:induction false} TimerCallsRegister(steps: seq<Step>, d: Option<Timers.Duration>)
    ensures StepSystems(steps + [StepTimer(d)]) == StepSystems(steps) + [TimerSystemId]
    ensures PendingTimer(steps + [StepTimer(d)]) == d
  {
    assert (steps + [StepTimer(d)])[..|steps|] == steps;
  }

  /**
   * The sensor `e` stands in store `w` as recipe `r` builds it: the
   * components its calls attached, then its Name, the last type's Metadata,
   * a Timer with the last duration given (if any), and Features listing one
   * output per declaration, in order, each with its own Reading.
   */
  ghost predicate BuiltAs(w: map<Entity, Components>, e: Entity, r: Recipe)
  {
    && e in w
    && NameKind in w[e] && w[e][NameKind] == SensorName(r.name)
    && MetadataKind in w[e] && w[e][MetadataKind] == Meta(PendingMetadata(r.steps))
    && (PendingTimer(r.steps).Some? ==>
          TimerKind in w[e] && w[e][TimerKind].TimerOf? && w[e][TimerKind].timer.duration == PendingTimer(r.steps).value)
    && FeaturesKind in w[e] && w[e][FeaturesKind].Features?
    && w[e] == Assembled(PendingComponents(r.steps), r.name, PendingMetadata(r.steps),
                         if PendingTimer(r.steps).Some? then Some(w[e][TimerKind]) else None, FeaturesOf(w[e]))
    && var fs := FeaturesOf(w[e]);
    && |fs| == |PendingOutputs(r.steps)|
    && (forall j | 0 <= j < |fs| :: fs[j] in w && IsOutputOf(w[fs[j]], e, PendingOutputs(r.steps)[j]))
    && (forall j, k | 0 <= j < k < |fs| :: w[fs[j]][ReadingKind].reading != w[fs[k]][ReadingKind].reading)
  }

  lemma BuiltAsFrame(w: map<Entity, Components>, w': map<Entity, Components>, e: Entity, r: Recipe)
    requires BuiltAs(w, e, r) && Unchanged(w, w', {})
    ensures BuiltAs(w', e, r)
  {
  }

  /** The entities building sensor `e` creates: the sensor's own and those its Features list. */
  ghost function SensorKeys(w: map<Entity, Components>, e: Entity): set<Entity>
  {
    {e} + (if e in w then set x | x in FeaturesOf(w[e]) else {})
  }

  /** The Reading objects of the outputs sensor `e` lists. */
  ghost function SensorReadings(w: map<Entity, Components>, e: Entity): set<Reading>
  {
    if e !in w then {}
    else
      var fs := FeaturesOf(w[e]);
      set j | 0 <= j < |fs| && fs[j] in w && ReadingKind in w[fs[j]] && w[fs[j]][ReadingKind].ReadingOf? :: w[fs[j]][ReadingKind].reading
  }

  /** The Timer object `build` gave sensor `e`, when recipe `r` leaves a duration pending. */
  ghost function SensorTimer(w: map<Entity, Components>, e: Entity, r: Recipe): set<Timers.Timer>
  {
    if e in w && PendingTimer(r.steps).Some? && TimerKind in w[e] && w[e][TimerKind].TimerOf? then {w[e][TimerKind].timer} else {}
  }


  /** The Readings listed in order by `rs` are exactly those of sensor `e`'s outputs. */
  lemma ReadingsCollected(w: map<Entity, Components>, e: Entity, rs: seq<Reading>)
    requires e in w && ReadingsOf(w, FeaturesOf(w[e]), rs)
    ensures SensorReadings(w, e) == set x | x in rs
  {
    var fs := FeaturesOf(w[e]);
    forall x | x in rs ensures x in SensorReadings(w, e) {
      var j :| 0 <= j < |rs| && rs[j] == x;
      assert w[fs[j]][ReadingKind] == ReadingOf(rs[j]);
    }
  }

  /** A sensor whose entity and outputs are left as they were keeps its entities and its objects. */
  lemma SensorFrame(w: map<Entity, Components>, w': map<Entity, Components>, e: Entity, r: Recipe)
    requires BuiltAs(w, e, r) && Unchanged(w, w', {})
    ensures SensorKeys(w', e) == SensorKeys(w, e)
    ensures SensorTimer(w', e, r) == SensorTimer(w, e, r)
    ensures SensorReadings(w', e) == SensorReadings(w, e)
  {
    var fs := FeaturesOf(w[e]);
    assert FeaturesOf(w'[e]) == fs;
    forall j | 0 <= j < |fs| ensures fs[j] in w' && w'[fs[j]] == w[fs[j]] {
    }
  }

  /** One configuration call, made on the builder. */
  method ApplyStep(b: SensorBuilder, step: Step)
    requires b.Valid() && b.live
    modifies b, b.robot, b.robot.world
    ensures b.Valid() && b.live
    ensures b.name == old(b.name)
    ensures b.metadata == (if step.StepType? then MetadataOf(step.descriptor) else old(b.metadata))
    ensures OutputMetadata(b.outputs) == OutputMetadata(old(b.outputs)) + (if step.StepOutput? then [MetadataOf(step.output)] else [])
    ensures b.timer == (if step.StepTimer? then step.duration else old(b.timer))
    ensures b.robot.stage == old(b.robot.stage) + StepSystems([step]) && b.robot.runs == old(b.robot.runs)
    ensures b.robot.world.entities.Keys == old(b.robot.world.entities.Keys)
    ensures Unchanged(old(b.robot.world.entities), b.robot.world.entities, {b.entity})
    ensures b.robot.world.entities[b.entity] ==
      if step.StepComponent? then old(b.robot.world.entities)[b.entity][KindOf(step.component) := step.component]
      else old(b.robot.world.entities)[b.entity]
  {
    assert [step][..0] == [];
    match step
    case StepType(t) => var _ := b.WithType(t);
    case StepOutput(t) => var _ := b.WithOutput(t);
    case StepTimer(d) => var _ := b.WithTimer(d);
    case StepSystem(s) => var _ := b.WithSystem(s);
    case StepComponent(c) => var _ := b.WithComponent(c);
  }

  /** The recipe's configuration calls, made in order. */
  method ApplySteps(b: SensorBuilder, steps: seq<Step>)
    requires b.Valid() && b.live
    requires b.metadata == MetadataOf(UndefinedType) && b.outputs == [] && b.timer == None
    requires b.robot.world.entities[b.entity] == map[]
    modifies b, b.robot, b.robot.world
    ensures b.Valid() && b.live
    ensures b.name == old(b.name)
    ensures b.metadata == PendingMetadata(steps)
    ensures OutputMetadata(b.outputs) == PendingOutputs(steps)
    ensures b.timer == PendingTimer(steps)
    ensures b.robot.stage == old(b.robot.stage) + StepSystems(steps) && b.robot.runs == old(b.robot.runs)
    ensures b.robot.world.entities.Keys == old(b.robot.world.entities.Keys)
    ensures Unchanged(old(b.robot.world.entities), b.robot.world.entities, {b.entity})
    ensures b.robot.world.entities[b.entity] == PendingComponents(steps)
  {
    for i := 0 to |steps|
      invariant b.Valid() && b.live
      invariant b.name == old(b.name)
      invariant b.metadata == PendingMetadata(steps[..i])
      invariant OutputMetadata(b.outputs) == PendingOutputs(steps[..i])
      invariant b.timer == PendingTimer(steps[..i])
      invariant b.robot.stage == old(b.robot.stage) + StepSystems(steps[..i]) && b.robot.runs == old(b.robot.runs)
      invariant b.robot.world.entities.Keys == old(b.robot.world.entities.Keys)
      invariant Unchanged(old(b.robot.world.entities), b.robot.world.entities, {b.entity})
      invariant b.robot.world.entities[b.entity] == PendingComponents(steps[..i])
    {
      ApplyStep(b, steps[i]);
      assert steps[..i + 1][..i] == steps[..i];
    }
    assert steps[..|steps|] == steps;
  }

  /** One recipe: a new builder, its calls, and `build`. */
  method BuildRecipe(robot: Robot, r: Recipe) returns (e: Entity)
    requires robot.Valid()
    modifies robot, robot.world
    ensures robot.Valid()
    ensures e !in old(robot.world.entities)
    ensures BuiltAs(robot.world.entities, e, r)
    ensures Unchanged(old(robot.world.entities), robot.world.entities, {})
    ensures robot.world.entities.Keys == old(robot.world.entities.Keys) + SensorKeys(robot.world.entities, e)
    ensures robot.stage == old(robot.stage) + StepSystems(r.steps) && robot.runs == old(robot.runs)
    ensures PendingTimer(r.steps).Some? ==>
      fresh(robot.world.entities[e][TimerKind].timer) && robot.world.entities[e][TimerKind].timer.state == Timers.Wait
    ensures forall t | t in SensorTimer(robot.world.entities, e, r) :: t.state == Timers.Wait && fresh(t)
    ensures forall x | x in SensorReadings(robot.world.entities, e) :: x.value == 0.0 && fresh(x)
  {
    var b := Configured(robot, r);
    e := BuildConfigured(b, r);
  }

  /** `build` on a builder the recipe's calls have configured: the sensor stands as the recipe builds it. */
  method BuildConfigured(b: SensorBuilder, ghost r: Recipe) returns (e: Entity)
    requires b.Valid() && b.live
    requires b.name == r.name && b.metadata == PendingMetadata(r.steps)
    requires OutputMetadata(b.outputs) == PendingOutputs(r.steps) && b.timer == PendingTimer(r.steps)
    requires b.robot.world.entities[b.entity] == PendingComponents(r.steps)
    modifies b, b.robot.world
    ensures b.robot.Valid() && e == b.entity
    ensures BuiltAs(b.robot.world.entities, e, r)
    ensures Unchanged(old(b.robot.world.entities), b.robot.world.entities, {e})
    ensures b.robot.world.entities.Keys == old(b.robot.world.entities.Keys) + SensorKeys(b.robot.world.entities, e)
    ensures PendingTimer(r.steps).Some? ==>
      fresh(b.robot.world.entities[e][TimerKind].timer) && b.robot.world.entities[e][TimerKind].timer.state == Timers.Wait
    ensures forall t | t in SensorTimer(b.robot.world.entities, e, r) :: t.state == Timers.Wait && fresh(t)
    ensures forall x | x in SensorReadings(b.robot.world.entities, e) :: x.value == 0.0 && fresh(x)
  {
    ghost var w0 := b.robot.world.entities;
    e := b.Build();
    ghost var w := b.robot.world.entities;
    RecipeBuilt(w0, w, e, r, b.outputs);
    ghost var rs :| ReadingsOf(w, FeaturesOf(w[e]), rs) && AllZero(rs) && forall x | x in rs :: fresh(x);
    ReadingsCollected(w, e, rs);
  }

  /** A new builder for the recipe's sensor, with the recipe's calls made on it. */
  method Configured(robot: Robot, r: Recipe) returns (b: SensorBuilder)
    requires robot.Valid()
    modifies robot, robot.world
    ensures fresh(b) && b.robot == robot && b.Valid() && b.live
    ensures b.entity !in old(robot.world.entities)
    ensures b.name == r.name && b.metadata == PendingMetadata(r.steps)
    ensures OutputMetadata(b.outputs) == PendingOutputs(r.steps) && b.timer == PendingTimer(r.steps)
    ensures robot.world.entities[b.entity] == PendingComponents(r.steps)
    ensures Unchanged(old(robot.world.entities), robot.world.entities, {})
    ensures robot.world.entities.Keys == old(robot.world.entities.Keys) + {b.entity}
    ensures robot.stage == old(robot.stage) + StepSystems(r.steps) && robot.runs == old(robot.runs)
  {
    b := new SensorBuilder(r.name, robot);
    ApplySteps(b, r.steps);
  }

  /** What `build` leaves, after the recipe's calls, is the sensor standing as the recipe builds it. */
  lemma RecipeBuilt(w0: map<Entity, Components>, w: map<Entity, Components>, e: Entity, r: Recipe, outputs: seq<OutputBuilder>)
    requires e in w0 && w0[e] == PendingComponents(r.steps) && e in w
    requires OutputMetadata(outputs) == PendingOutputs(r.steps)
    requires PendingTimer(r.steps).Some? ==>
      TimerKind in w[e] && w[e][TimerKind].TimerOf? && w[e][TimerKind].timer.duration == PendingTimer(r.steps).value
    requires w[e] == Assembled(w0[e], r.name, PendingMetadata(r.steps),
                               if PendingTimer(r.steps).Some? then Some(w[e][TimerKind]) else None, FeaturesOf(w[e]))
    requires Spawned(w0, w, e, outputs, FeaturesOf(w[e]))
    ensures BuiltAs(w, e, r)
  {
  }

  /** `init`: the module's sensors, built in order into distinct new entities, and their systems registered in order. */
  method Init(m: Module, robot: Robot) returns (built: seq<Entity>)
    requires robot.Valid()
    modifies robot, robot.world
    ensures robot.Valid()
    ensures |built| == |m.sensors|
    ensures AllBuilt(old(robot.world.entities), robot.world.entities, built, m.sensors)
    ensures forall t | t in AllTimers(robot.world.entities, built, m.sensors) :: t.state == Timers.Wait && fresh(t)
    ensures forall x | x in AllReadings(robot.world.entities, built) :: x.value == 0.0 && fresh(x)
    ensures OwnObjects(robot.world.entities, built, m.sensors)
    ensures robot.stage == old(robot.stage) + ModuleSystems(m.sensors) && robot.runs == old(robot.runs)
  {
    built := [];
    for i := 0 to |m.sensors|
      invariant robot.Valid()
      invariant AllBuilt(old(robot.world.entities), robot.world.entities, built, m.sensors[..i])
      invariant forall t | t in AllTimers(robot.world.entities, built, m.sensors[..i]) :: t.state == Timers.Wait && fresh(t)
      invariant forall x | x in AllReadings(robot.world.entities, built) :: x.value == 0.0 && fresh(x)
      invariant ObjectsApart(robot.world.entities, built, m.sensors[..i])
      invariant robot.stage == old(robot.stage) + ModuleSystems(m.sensors[..i]) && robot.runs == old(robot.runs)
    {
      built := InitTurn(robot, old(robot.world.entities), old(robot.stage), built, m.sensors, i);
    }
    SlicesWhole(m.sensors);
    ObjectsApartEach(robot.world.entities, built, m.sensors);
  }

  lemma SlicesWhole(sensors: seq<Recipe>)
    ensures sensors[..|sensors|] == sensors
  {
  }

  /** One turn of `init`'s loop: the next recipe is built after those already built. */
  method InitTurn(robot: Robot, ghost w0: map<Entity, Components>, ghost stage0: seq<SystemId>,
                  built: seq<Entity>, sensors: seq<Recipe>, i: nat) returns (built': seq<Entity>)
    requires robot.Valid() && i < |sensors|
    requires AllBuilt(w0, robot.world.entities, built, sensors[..i])
    requires forall t | t in AllTimers(robot.world.entities, built, sensors[..i]) :: t.state == Timers.Wait
    requires forall x | x in AllReadings(robot.world.entities, built) :: x.value == 0.0
    requires ObjectsApart(robot.world.entities, built, sensors[..i])
    requires robot.stage == stage0 + ModuleSystems(sensors[..i])
    modifies robot, robot.world
    ensures robot.Valid()
    ensures AllBuilt(w0, robot.world.entities, built', sensors[..i + 1])
    ensures forall t | t in AllTimers(robot.world.entities, built', sensors[..i + 1]) ::
      t.state == Timers.Wait && (t in old(AllTimers(robot.world.entities, built, sensors[..i])) || fresh(t))
    ensures forall x | x in AllReadings(robot.world.entities, built') ::
      x.value == 0.0 && (x in old(AllReadings(robot.world.entities, built)) || fresh(x))
    ensures ObjectsApart(robot.world.entities, built', sensors[..i + 1])
    ensures robot.stage == stage0 + ModuleSystems(sensors[..i + 1]) && robot.runs == old(robot.runs)
  {
    ghost var done := sensors[..i];
    var r := sensors[i];
    ghost var s0 := robot.stage;
    built' := BuildNext(robot, w0, built, done, r, sensors[..i + 1]);
    StageAfterTurn(stage0, s0, robot.stage, done, r);
    assert sensors[..i + 1] == done + [r];
  }

  /** The next recipe, built after the sensors already built, which stay as they were. */
  method BuildNext(robot: Robot, ghost w0: map<Entity, Components>, built: seq<Entity>, ghost done: seq<Recipe>, r: Recipe,
                   ghost done': seq<Recipe>)
    returns (built': seq<Entity>)
    requires robot.Valid() && done' == done + [r]
    requires AllBuilt(w0, robot.world.entities, built, done)
    requires forall t | t in AllTimers(robot.world.entities, built, done) :: t.state == Timers.Wait
    requires forall x | x in AllReadings(robot.world.entities, built) :: x.value == 0.0
    requires ObjectsApart(robot.world.entities, built, done)
    modifies robot, robot.world
    ensures robot.Valid()
    ensures AllBuilt(w0, robot.world.entities, built', done')
    ensures forall t | t in AllTimers(robot.world.entities, built', done') ::
      t.state == Timers.Wait && (t in old(AllTimers(robot.world.entities, built, done)) || fresh(t))
    ensures forall x | x in AllReadings(robot.world.entities, built') ::
      x.value == 0.0 && (x in old(AllReadings(robot.world.entities, built)) || fresh(x))
    ensures ObjectsApart(robot.world.entities, built', done')
    ensures robot.stage == old(robot.stage) + StepSystems(r.steps) && robot.runs == old(robot.runs)
  {
    ghost var before := robot.world.entities;
    ghost var timers, readings := AllTimers(before, built, done), AllReadings(before, built);
    StoreAllocated(robot.world, built, done);
    var e := BuildRecipe(robot, r);
    assert forall t | t in timers :: t.state == Timers.Wait;
    assert forall x | x in readings :: x.value == 0.0;
    assert SensorTimer(robot.world.entities, e, r) !! timers;
    assert SensorReadings(robot.world.entities, e) !! readings;
    TurnFinish(w0, before, robot.world.entities, built, done, e, r);
    ApartSnoc(w0, before, robot.world.entities, built, done, e, r);
    built' := built + [e];
  }

  /** What one turn of `init`'s loop leaves, from what it found and the sensor it built. */
  lemma TurnFinish(w0: map<Entity, Components>, wb: map<Entity, Components>, wa: map<Entity, Components>,
                   built: seq<Entity>, done: seq<Recipe>, e: Entity, r: Recipe)
    requires AllBuilt(w0, wb, built, done)
    requires e !in wb && BuiltAs(wa, e, r) && Unchanged(wb, wa, {})
    requires wa.Keys == wb.Keys + SensorKeys(wa, e)
    ensures AllBuilt(w0, wa, built + [e], done + [r])
    ensures AllTimers(wa, built + [e], done + [r]) == AllTimers(wb, built, done) + SensorTimer(wa, e, r)
    ensures AllReadings(wa, built + [e]) == AllReadings(wb, built) + SensorReadings(wa, e)
  {
    InitStep(w0, wb, wa, built, e, done, r);
    SensorsBuiltEach(w0, wb, built, done);
    AllFrame(wb, wa, built, done);
    AllSnoc(wa, built, done, e, r);
  }

  /**
   * Between store states `w0` and `w`, the recipes were built one for one
   * into the entities `built`, with every entity of `w0` left as it was and
   * no entity created besides the sensors and their outputs.
   */
  ghost predicate AllBuilt(w0: map<Entity, Components>, w: map<Entity, Components>, built: seq<Entity>, sensors: seq<Recipe>)
  {
    && |built| == |sensors|
    && SensorsBuilt(w0, w, built, sensors)
    && Unchanged(w0, w, {})
    && w.Keys == w0.Keys + BuiltKeys(w, built)
  }

  /**
   * The recipes were built one for one into the entities `built`: distinct
   * entities that did not exist in `w0`, each standing in `w` as its recipe
   * builds it.
   */
  ghost predicate SensorsBuilt(w0: map<Entity, Components>, w: map<Entity, Components>, built: seq<Entity>, sensors: seq<Recipe>)
    decreases |built|
  {
    && |built| == |sensors|
    && (built != [] ==>
          var n := |built| - 1;
          && SensorsBuilt(w0, w, built[..n], sensors[..n])
          && built[n] !in w0 && built[n] !in built[..n]
          && BuiltAs(w, built[n], sensors[n]))
  }

  /** What `SensorsBuilt` says of each built sensor. */
  lemma {:induction false} SensorsBuiltEach(w0: map<Entity, Components>, w: map<Entity, Components>, built: seq<Entity>, sensors: seq<Recipe>)
    requires SensorsBuilt(w0, w, built, sensors)
    ensures |built| == |sensors|
    ensures forall j | 0 <= j < |built| :: built[j] !in w0 && built[j] in w && BuiltAs(w, built[j], sensors[j])
    ensures forall j, k | 0 <= j < k < |built| :: built[j] != built[k]
    decreases |built|
  {
    if built != [] {
      var n := |built| - 1;
      var bs, ss := built[..n], sensors[..n];
      SensorsBuiltEach(w0, w, bs, ss);
      forall j | 0 <= j < n ensures built[j] !in w0 && built[j] in w && BuiltAs(w, built[j], sensors[j]) {
        assert bs[j] == built[j] && ss[j] == sensors[j];
      }
      forall j, k | 0 <= j < k < |built| ensures built[j] != built[k] {
        assert bs[j] == built[j];
        if k < n {
          assert bs[k] == built[k];
        }
      }
    }
  }

  /** Built sensors stay built while their entities are left as they were. */
  lemma {:induction false} SensorsBuiltFrame(w0: map<Entity, Components>, wb: map<Entity, Components>, wa: map<Entity, Components>,
                                             built: seq<Entity>, sensors: seq<Recipe>)
    requires SensorsBuilt(w0, wb, built, sensors) && Unchanged(wb, wa, {})
    ensures SensorsBuilt(w0, wa, built, sensors)
    decreases |built|
  {
    if built != [] {
      var n := |built| - 1;
      SensorsBuiltFrame(w0, wb, wa, built[..n], sensors[..n]);
      BuiltAsFrame(wb, wa, built[n], sensors[n]);
    }
  }

  /** The entities building the sensors `built` created. */
  ghost function BuiltKeys(w: map<Entity, Components>, built: seq<Entity>): set<Entity>
    decreases |built|
  {
    if built == [] then {} else BuiltKeys(w, built[..|built| - 1]) + SensorKeys(w, built[|built| - 1])
  }

  /** The Timers building the sensors `built` from their recipes allocated. */
  ghost function AllTimers(w: map<Entity, Components>, built: seq<Entity>, sensors: seq<Recipe>): set<Timers.Timer>
    requires |built| == |sensors|
    decreases |built|
  {
    if built == [] then {}
    else AllTimers(w, built[..|built| - 1], sensors[..|built| - 1]) + SensorTimer(w, built[|built| - 1], sensors[|built| - 1])
  }

  /** The Readings of the outputs of the sensors `built`. */
  ghost function AllReadings(w: map<Entity, Components>, built: seq<Entity>): set<Reading>
    decreases |built|
  {
    if built == [] then {} else AllReadings(w, built[..|built| - 1]) + SensorReadings(w, built[|built| - 1])
  }

  /** The sensors built earlier keep their objects, and their state, when later turns leave their entities as they were. */
  lemma {:induction false} AllFrame(wb: map<Entity, Components>, wa: map<Entity, Components>, built: seq<Entity>, sensors: seq<Recipe>)
    requires |built| == |sensors| && (forall j | 0 <= j < |built| :: BuiltAs(wb, built[j], sensors[j])) && Unchanged(wb, wa, {})
    ensures BuiltKeys(wa, built) == BuiltKeys(wb, built)
    ensures AllTimers(wa, built, sensors) == AllTimers(wb, built, sensors)
    ensures AllReadings(wa, built) == AllReadings(wb, built)
    decreases |built|
  {
    if built != [] {
      var n := |built| - 1;
      assert forall j | 0 <= j < n :: built[..n][j] == built[j] && sensors[..n][j] == sensors[j];
      AllFrame(wb, wa, built[..n], sensors[..n]);
      SensorFrame(wb, wa, built[n], sensors[n]);
    }
  }

  /** The objects the store refers to exist. */
  lemma {:induction false} StoreAllocated(world: World, built: seq<Entity>, sensors: seq<Recipe>)
    requires |built| == |sensors|
    ensures forall t | t in AllTimers(world.entities, built, sensors) :: allocated(t)
    ensures forall x | x in AllReadings(world.entities, built) :: allocated(x)
    decreases |built|
  {
    if built != [] {
      StoreAllocated(world, built[..|built| - 1], sensors[..|built| - 1]);
    }
  }

  /** One more built sensor adds its own objects and its own state. */
  lemma AllSnoc(w: map<Entity, Components>, built: seq<Entity>, sensors: seq<Recipe>, e: Entity, r: Recipe)
    requires |built| == |sensors|
    ensures AllTimers(w, built + [e], sensors + [r]) == AllTimers(w, built, sensors) + SensorTimer(w, e, r)
    ensures AllReadings(w, built + [e]) == AllReadings(w, built) + SensorReadings(w, e)
  {
    assert (built + [e])[..|built|] == built && (sensors + [r])[..|built|] == sensors;
  }

  /** One turn of `init`'s loop keeps what the sensors built so far look like. */
  lemma InitStep(w0: map<Entity, Components>, wb: map<Entity, Components>, wa: map<Entity, Components>,
                 built: seq<Entity>, e: Entity, sensors: seq<Recipe>, r: Recipe)
    requires AllBuilt(w0, wb, built, sensors)
    requires e !in wb && BuiltAs(wa, e, r) && Unchanged(wb, wa, {})
    requires wa.Keys == wb.Keys + SensorKeys(wa, e)
    ensures AllBuilt(w0, wa, built + [e], sensors + [r])
  {
    SensorsBuiltSnoc(w0, wb, wa, built, sensors, e, r);
    KeysStep(w0, wb, wa, built, e, sensors);
  }

  /** One more sensor, built into an entity that did not exist before, joins those already built. */
  lemma SensorsBuiltSnoc(w0: map<Entity, Components>, wb: map<Entity, Components>, wa: map<Entity, Components>,
                         built: seq<Entity>, sensors: seq<Recipe>, e: Entity, r: Recipe)
    requires SensorsBuilt(w0, wb, built, sensors) && Unchanged(w0, wb, {}) && Unchanged(wb, wa, {})
    requires e !in wb && BuiltAs(wa, e, r)
    ensures SensorsBuilt(w0, wa, built + [e], sensors + [r])
  {
    SensorsBuiltEach(w0, wb, built, sensors);
    SensorsBuiltFrame(w0, wb, wa, built, sensors);
    var n := |built|;
    assert (built + [e])[..n] == built && (sensors + [r])[..n] == sensors;
    assert e !in built;
  }

  /** One turn of `init`'s loop adds exactly the entities of the sensor it built. */
  lemma KeysStep(w0: map<Entity, Components>, wb: map<Entity, Components>, wa: map<Entity, Components>,
                 built: seq<Entity>, e: Entity, sensors: seq<Recipe>)
    requires SensorsBuilt(w0, wb, built, sensors) && Unchanged(wb, wa, {})
    requires wb.Keys == w0.Keys + BuiltKeys(wb, built) && wa.Keys == wb.Keys + SensorKeys(wa, e)
    ensures wa.Keys == w0.Keys + BuiltKeys(wa, built + [e])
  {
    SensorsBuiltEach(w0, wb, built, sensors);
    AllFrame(wb, wa, built, sensors);
    assert (built + [e])[..|built|] == built;
  }

  /**
   * Each sensor owns its Timer and its Readings: no two built sensors share
   * one, as no two entities can share a component the store holds by value.
   */
  ghost predicate OwnObjects(w: map<Entity, Components>, built: seq<Entity>, sensors: seq<Recipe>)
    requires |built| == |sensors|
  {
    forall j, k | 0 <= j < k < |built| ::
      && SensorTimer(w, built[j], sensors[j]) !! SensorTimer(w, built[k], sensors[k])
      && SensorReadings(w, built[j]) !! SensorReadings(w, built[k])
  }

  /** `OwnObjects`, built up one sensor at a time: each sensor's objects are apart from those built before it. */
  ghost predicate ObjectsApart(w: map<Entity, Components>, built: seq<Entity>, sensors: seq<Recipe>)
    requires |built| == |sensors|
    decreases |built|
  {
    built != [] ==>
      var n := |built| - 1;
      && ObjectsApart(w, built[..n], sensors[..n])
      && SensorTimer(w, built[n], sensors[n]) !! AllTimers(w, built[..n], sensors[..n])
      && SensorReadings(w, built[n]) !! AllReadings(w, built[..n])
  }

  /** Every built sensor's objects are among those of all the built sensors. */
  lemma {:induction false} AllContains(w: map<Entity, Components>, built: seq<Entity>, sensors: seq<Recipe>)
    requires |built| == |sensors|
    ensures forall j | 0 <= j < |built| :: SensorTimer(w, built[j], sensors[j]) <= AllTimers(w, built, sensors)
    ensures forall j | 0 <= j < |built| :: SensorReadings(w, built[j]) <= AllReadings(w, built)
    decreases |built|
  {
    if built != [] {
      var n := |built| - 1;
      var bs, ss := built[..n], sensors[..n];
      AllContains(w, bs, ss);
      forall j | 0 <= j < n
        ensures SensorTimer(w, built[j], sensors[j]) <= AllTimers(w, built, sensors)
        ensures SensorReadings(w, built[j]) <= AllReadings(w, built)
      {
        assert bs[j] == built[j] && ss[j] == sensors[j];
      }
    }
  }

  /** Objects kept apart one sensor at a time are owned pairwise. */
  lemma {:induction false} ObjectsApartEach(w: map<Entity, Components>, built: seq<Entity>, sensors: seq<Recipe>)
    requires |built| == |sensors| && ObjectsApart(w, built, sensors)
    ensures OwnObjects(w, built, sensors)
    decreases |built|
  {
    if built != [] {
      var n := |built| - 1;
      var bs, ss := built[..n], sensors[..n];
      ObjectsApartEach(w, bs, ss);
      AllContains(w, bs, ss);
      forall j, k | 0 <= j < k < |built|
        ensures SensorTimer(w, built[j], sensors[j]) !! SensorTimer(w, built[k], sensors[k])
        ensures SensorReadings(w, built[j]) !! SensorReadings(w, built[k])
      {
        assert bs[j] == built[j] && ss[j] == sensors[j];
        if k < n {
          assert bs[k] == built[k] && ss[k] == sensors[k];
        }
      }
    }
  }

  /** Sensors whose entities are left as they were keep their objects apart. */
  lemma {:induction false} ApartFrame(wb: map<Entity, Components>, wa: map<Entity, Components>, built: seq<Entity>, sensors: seq<Recipe>)
    requires |built| == |sensors| && (forall j | 0 <= j < |built| :: BuiltAs(wb, built[j], sensors[j])) && Unchanged(wb, wa, {})
    requires ObjectsApart(wb, built, sensors)
    ensures ObjectsApart(wa, built, sensors)
    decreases |built|
  {
    if built != [] {
      var n := |built| - 1;
      var bs, ss := built[..n], sensors[..n];
      forall j | 0 <= j < n ensures BuiltAs(wb, bs[j], ss[j]) {
        assert bs[j] == built[j] && ss[j] == sensors[j];
      }
      ApartFrame(wb, wa, bs, ss);
      AllFrame(wb, wa, bs, ss);
      SensorFrame(wb, wa, built[n], sensors[n]);
    }
  }

  /** A new sensor whose objects are none of the earlier sensors' joins them with its objects apart. */
  lemma ApartSnoc(w0: map<Entity, Components>, wb: map<Entity, Components>, wa: map<Entity, Components>,
                  built: seq<Entity>, sensors: seq<Recipe>, e: Entity, r: Recipe)
    requires AllBuilt(w0, wb, built, sensors) && ObjectsApart(wb, built, sensors) && Unchanged(wb, wa, {})
    requires SensorTimer(wa, e, r) !! AllTimers(wb, built, sensors)
    requires SensorReadings(wa, e) !! AllReadings(wb, built)
    ensures ObjectsApart(wa, built + [e], sensors + [r])
  {
    SensorsBuiltEach(w0, wb, built, sensors);
    ApartFrame(wb, wa, built, sensors);
    AllFrame(wb, wa, built, sensors);
    assert (built + [e])[..|built|] == built && (sensors + [r])[..|built|] == sensors;
  }

  /** `Robot::add`: applies the module and returns what its `init` returns. */
  method Add(robot: Robot, m: Module) returns (built: seq<Entity>)
    requires robot.Valid()
    modifies robot, robot.world
    ensures robot.Valid()
    ensures AllBuilt(old(robot.world.entities), robot.world.entities, built, m.sensors)
    ensures forall t | t in AllTimers(robot.world.entities, built, m.sensors) :: t.state == Timers.Wait && fresh(t)
    ensures forall x | x in AllReadings(robot.world.entities, built) :: x.value == 0.0 && fresh(x)
    ensures OwnObjects(robot.world.entities, built, m.sensors)
    ensures robot.stage == old(robot.stage) + ModuleSystems(m.sensors) && robot.runs == old(robot.runs)
  {
    built := Init(m, robot);
  }

  /** `Robot::with`: the effect of `add`, discarding the module's result and handing back the same robot. */
  method With(robot: Robot, m: Module) returns (r: Robot)
    requires robot.Valid()
    modifies robot, robot.world
    ensures r == robot && robot.Valid()
    ensures exists built ::
      && AllBuilt(old(robot.world.entities), robot.world.entities, built, m.sensors)
      && (forall t | t in AllTimers(robot.world.entities, built, m.sensors) :: t.state == Timers.Wait && fresh(t))
      && (forall x | x in AllReadings(robot.world.entities, built) :: x.value == 0.0 && fresh(x))
      && OwnObjects(robot.world.entities, built, m.sensors)
    ensures robot.stage == old(robot.stage) + ModuleSystems(m.sensors) && robot.runs == old(robot.runs)
  {
    var _ := Add(robot, m);
    r := robot;
  }
}
