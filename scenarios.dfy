/**
 * The runtime's own test scenarios, stated as methods whose results are
 * proved: the SHT31 sensor of the runtime's unit test, and the demo
 * application that registers a temperature module, a moisture module and
 * a display module that refers to the other two.
 */
module Scenarios {

  import opened Wrappers
  import opened Descriptors
  import opened Store
  import opened Robots
  import opened Sensors
  import opened Modules
  import opened Outputs
  import Timers

  /** The metadata ids of the given entities. */
  function MetadataIds(w: map<Entity, Components>, fs: seq<Entity>): seq<U8>
    requires forall j | 0 <= j < |fs| :: fs[j] in w && MetadataKind in w[fs[j]] && w[fs[j]][MetadataKind].Meta?
  {
    seq(|fs|, j requires 0 <= j < |fs| => w[fs[j]][MetadataKind].metadata.id)
  }

  /**
   * The SHT31 sensor of the unit test: undefined type, outputs Humidity
   * then Temperature.  `ids` are the metadata ids of the entities its
   * Features list, in order.
   */
  method BuildSht31(robot: Robot) returns (sensor: Entity, ids: seq<U8>)
    requires robot.Valid()
    modifies robot.world
    ensures robot.Valid() && sensor in robot.world.entities
    ensures var w := robot.world.entities;
      var fs := FeaturesOf(w[sensor]);
      && |fs| == 2
      && (forall j | 0 <= j < 2 :: fs[j] in w && MetadataKind in w[fs[j]] && w[fs[j]][MetadataKind] == Meta(MetadataOf(OfOutput([Humidity, Temperature][j]))))
      && ids == MetadataIds(w, fs)
    ensures ids == [1, 0]
  {
    var b := Sht31Builder(robot);
    ghost var w0 := robot.world.entities;
    sensor := b.Build();
    var w: map<Entity, Components> := robot.world.entities;
    var fs := w[sensor][FeaturesKind].outputs;
    OutputsCarry(w0, w, sensor, b.outputs, FeaturesOf(w[sensor]));
    assert fs == FeaturesOf(w[sensor]);
    Sht31Ids(w, fs, b.outputs);
    ids := MetadataIds(w, fs);
  }

  /** Outputs carrying Humidity's then Temperature's metadata have ids 1 and 0. */
  lemma Sht31Ids(w: map<Entity, Components>, fs: seq<Entity>, outputs: seq<OutputBuilder>)
    requires |outputs| == 2 && outputs[0].metadata == MetadataOf(OfOutput(Humidity)) && outputs[1].metadata == MetadataOf(OfOutput(Temperature))
    requires |fs| == |outputs|
    requires forall j | 0 <= j < |fs| :: fs[j] in w && MetadataKind in w[fs[j]] && w[fs[j]][MetadataKind] == Meta(outputs[j].metadata)
    ensures forall j | 0 <= j < 2 :: fs[j] in w && MetadataKind in w[fs[j]] && w[fs[j]][MetadataKind] == Meta(MetadataOf(OfOutput([Humidity, Temperature][j])))
    ensures MetadataIds(w, fs) == [1, 0]
  {
    assert MetadataIds(w, fs)[0] == 1 && MetadataIds(w, fs)[1] == 0;
  }

  /** The spawned outputs carry their builders' metadata, in order. */
  lemma OutputsCarry(w0: map<Entity, Components>, w: map<Entity, Components>, sensor: Entity, outputs: seq<OutputBuilder>, fs: seq<Entity>)
    requires Spawned(w0, w, sensor, outputs, fs)
    ensures |fs| == |outputs|
    ensures forall j | 0 <= j < |fs| :: fs[j] in w && MetadataKind in w[fs[j]] && w[fs[j]][MetadataKind] == Meta(outputs[j].metadata)
  {
  }

  /** The SHT31 builder chain up to `build`: undefined type, outputs Humidity then Temperature. */
  method Sht31Builder(robot: Robot) returns (b: SensorBuilder)
    requires robot.Valid()
    modifies robot.world
    ensures fresh(b) && b.robot == robot && b.Valid() && b.live
    ensures b.metadata == MetadataOf(UndefinedType)
    ensures |b.outputs| == 2 && b.outputs[0].metadata == MetadataOf(OfOutput(Humidity)) && b.outputs[1].metadata == MetadataOf(OfOutput(Temperature))
  {
    b := new SensorBuilder("SHT31", robot);
    b := b.WithType(UndefinedType);
    b := b.WithOutput(OfOutput(Humidity));
    b := b.WithOutput(OfOutput(Temperature));
  }

  /**
   * The unit test: a robot with two systems, the SHT31 sensor, ten runs.
   * Its Features list the Humidity output first (id 1), then Temperature
   * (id 0), and the stage holds the two systems in registration order.
   */
  method Sht31Scenario() returns (ids: seq<U8>, stage: seq<SystemId>, runs: nat)
    ensures ids == [1, 0]
    ensures stage == [System("simulate_readings"), System("print_readings")]
    ensures runs == 10
  {
    var robot := new Robot();
    robot := robot.WithSystem(System("simulate_readings"));
    robot := robot.WithSystem(System("print_readings"));
    var sensor;
    sensor, ids := BuildSht31(robot);
    for k := 0 to 10
      invariant robot.stage == [System("simulate_readings"), System("print_readings")]
      invariant robot.runs == k
    {
      robot.Run();
    }
    stage := robot.stage;
    runs := robot.runs;
  }

  /** The temperature module of the demo: one sensor on port 10, outputs Temperature then Humidity. */
  function TemperatureModule(): Module
  {
    Module([Recipe("Temperature - Temperature Sensor", [
      StepType(Custom(101, "Temperature Sensor", "Sensor used to log the temperature and humidity")),
      StepOutput(OfOutput(Temperature)),
      StepOutput(OfOutput(Humidity)),
      StepComponent(Payload("TemperatureSensor", [10])),
      StepSystem(System("temperature_reading"))])])
  }

  /** The moisture module of the demo: one sensor on port 100, output Moisture. */
  function MoistureModule(): Module
  {
    Module([Recipe("Moisture - Moisture Sensor", [
      StepType(Custom(100, "Moisture Sensor", "Sensor used to log the soil moisture")),
      StepOutput(OfOutput(Moisture)),
      StepSystem(System("moisture_reading")),
      StepComponent(Payload("MoistureSensor", [100]))])])
  }

  /** The display module of the demo, referring to the temperature and moisture sensors by entity. */
  function DisplayModule(temp: Entity, moisture: Entity): Module
  {
    Module([Recipe("Display", [
      StepType(Custom(105, "Display", "Display sensor")),
      StepSystem(System("display_data")),
      StepComponent(Payload("DisplayComponent", [temp, moisture]))])])
  }

  lemma TemperatureRecipe()
    ensures PendingOutputs(TemperatureModule().sensors[0].steps) == [MetadataOf(OfOutput(Temperature)), MetadataOf(OfOutput(Humidity))]
    ensures ModuleSystems(TemperatureModule().sensors) == [System("temperature_reading")]
  {
    var t := TemperatureModule().sensors[0].steps;
    assert t[..4][..3] == t[..3] && t[..3][..2] == t[..2] && t[..2][..1] == t[..1] && t[..1][..0] == [];
    assert PendingOutputs(t[..1]) == [];
    assert PendingOutputs(t[..2]) == [MetadataOf(OfOutput(Temperature))];
    assert PendingOutputs(t[..3]) == [MetadataOf(OfOutput(Temperature)), MetadataOf(OfOutput(Humidity))];
    assert PendingOutputs(t[..4]) == PendingOutputs(t[..3]);
    assert t[..5] == t;
    assert StepSystems(t[..1]) == [];
    assert StepSystems(t[..2]) == [];
    assert StepSystems(t[..3]) == [];
    assert StepSystems(t[..4]) == [];
    assert StepSystems(t) == [System("temperature_reading")];
    assert TemperatureModule().sensors[..0] == [];
  }

  lemma MoistureRecipe()
    ensures PendingOutputs(MoistureModule().sensors[0].steps) == [MetadataOf(OfOutput(Moisture))]
    ensures ModuleSystems(MoistureModule().sensors) == [System("moisture_reading")]
  {
    var m := MoistureModule().sensors[0].steps;
    assert m[..3][..2] == m[..2] && m[..2][..1] == m[..1] && m[..1][..0] == [];
    assert PendingOutputs(m[..1]) == [];
    assert PendingOutputs(m[..2]) == [MetadataOf(OfOutput(Moisture))];
    assert PendingOutputs(m[..3]) == PendingOutputs(m[..2]);
    assert m[..4] == m;
    assert StepSystems(m[..1]) == [];
    assert StepSystems(m[..2]) == [];
    assert StepSystems(m[..3]) == [System("moisture_reading")];
    assert MoistureModule().sensors[..0] == [];
  }

  lemma DisplayRecipe(temp: Entity, moisture: Entity)
    ensures PendingOutputs(DisplayModule(temp, moisture).sensors[0].steps) == []
    ensures ModuleSystems(DisplayModule(temp, moisture).sensors) == [System("display_data")]
  {
    var d := DisplayModule(temp, moisture).sensors[0].steps;
    assert d[..2][..1] == d[..1] && d[..1][..0] == [];
    assert PendingOutputs(d[..1]) == [];
    assert PendingOutputs(d[..2]) == [];
    assert d[..3] == d;
    assert StepSystems(d[..1]) == [];
    assert StepSystems(d[..2]) == [System("display_data")];
    assert DisplayModule(temp, moisture).sensors[..0] == [];
  }

  /** The ids of a list of metadata. */
  function Ids(ms: seq<Metadata>): (ids: seq<U8>)
    ensures |ids| == |ms| && forall j | 0 <= j < |ms| :: ids[j] == ms[j].id
  {
    seq(|ms|, j requires 0 <= j < |ms| => ms[j].id)
  }

  /** `add` of a one-sensor module, reading back the sensor's output ids and whether it is a sensor. */
  method AddOne(robot: Robot, m: Module) returns (e: Entity, ids: seq<U8>, isSensor: bool)
    requires robot.Valid() && |m.sensors| == 1
    modifies robot, robot.world
    ensures robot.Valid()
    ensures e !in old(robot.world.entities) && e in robot.world.entities
    ensures Unchanged(old(robot.world.entities), robot.world.entities, {})
    ensures ids == Ids(PendingOutputs(m.sensors[0].steps))
    ensures isSensor <==> PendingOutputs(m.sensors[0].steps) != []
    ensures robot.stage == old(robot.stage) + ModuleSystems(m.sensors) && robot.runs == old(robot.runs)
  {
    ghost var w0 := robot.world.entities;
    var built := Add(robot, m);
    e := built[0];
    var w: map<Entity, Components> := robot.world.entities;
    SensorsBuiltEach(w0, w, built, m.sensors);
    assert BuiltAs(w, e, m.sensors[0]);
    var fs := w[e][FeaturesKind].outputs;
    assert fs == FeaturesOf(w[e]);
    ids := MetadataIds(w, fs);
    isSensor := IsSensor(fs);
  }

  /**
   * The demo application: the temperature, moisture and display modules
   * added in that order, then ten runs.  The three sensors are distinct
   * entities.  The temperature sensor's Features carry ids [0, 1], the
   * moisture sensor's [2] and the display's none, so of the three only the
   * display is not a sensor; the stage holds the three modules' systems in
   * the order the modules registered them, and the schedule ran ten times.
   */
  method DemoScenario() returns (sensors: seq<Entity>, ids: seq<seq<U8>>, isSensor: seq<bool>, stage: seq<SystemId>, runs: nat)
    ensures |sensors| == 3 && sensors[0] != sensors[1] && sensors[0] != sensors[2] && sensors[1] != sensors[2]
    ensures ids == [[0, 1], [2], []]
    ensures isSensor == [true, true, false]
    ensures stage == [System("temperature_reading"), System("moisture_reading"), System("display_data")]
    ensures runs == 10
  {
    var robot := new Robot();
    TemperatureRecipe();
    var temp, tempIds, tempIsSensor := AddOne(robot, TemperatureModule());
    MoistureRecipe();
    var moisture, moistureIds, moistureIsSensor := AddOne(robot, MoistureModule());
    DisplayRecipe(temp, moisture);
    var display, displayIds, displayIsSensor := AddOne(robot, DisplayModule(temp, moisture));
    for k := 0 to 10
      invariant robot.stage == [System("temperature_reading"), System("moisture_reading"), System("display_data")]
      invariant robot.runs == k
    {
      robot.Run();
    }
    assert tempIds == [0, 1] && moistureIds == [2] && displayIds == [];
    sensors, ids, isSensor := [temp, moisture, display], [tempIds, moistureIds, displayIds], [tempIsSensor, moistureIsSensor, displayIsSensor];
    stage, runs := robot.stage, robot.runs;
  }

  /**
   * A sensor whose chain uses `set_timer` as written: the builder is
   * consumed by the call, so `build` is never reached.  The sensor entity
   * stays empty (no Name, no Metadata, no Timer, no Features) while the
   * robot still gains a `timer_system` registration.
   */
  method SetTimerAsWrittenScenario() returns (named: bool, timed: bool, stage: seq<SystemId>)
    ensures !named && !timed
    ensures stage == [TimerSystemId]
  {
    var robot := new Robot();
    var b := new SensorBuilder("SHT31", robot);
    b.SetTimerByValue(Some(Timers.Millis(1000)));
    named := NameKind in robot.world.entities[b.entity];
    timed := TimerKind in robot.world.entities[b.entity];
    stage := robot.stage;
  }

  /** The same chain with `set_timer` taking the builder by reference: the sensor is built named and timed. */
  method SetTimerScenario() returns (named: bool, timed: bool, stage: seq<SystemId>)
    ensures named && timed
    ensures stage == [TimerSystemId]
  {
    var robot := new Robot();
    var b := new SensorBuilder("SHT31", robot);
    b.SetTimer(Some(Timers.Millis(1000)));
    var e := b.Build();
    named := NameKind in robot.world.entities[e];
    timed := TimerKind in robot.world.entities[e];
    stage := robot.stage;
  }

  /** A sensor whose chain uses `set_system` as written: the builder is consumed, so the sensor is never built. */
  method SetSystemAsWrittenScenario() returns (named: bool, stage: seq<SystemId>)
    ensures !named
    ensures stage == [System("display_data")]
  {
    var robot := new Robot();
    var b := new SensorBuilder("Display", robot);
    b.SetSystemByValue(System("display_data"));
    named := NameKind in robot.world.entities[b.entity];
    stage := robot.stage;
  }

  /** The same chain with `set_system` taking the builder by reference: the sensor is built and named. */
  method SetSystemScenario() returns (named: bool, stage: seq<SystemId>)
    ensures named
    ensures stage == [System("display_data")]
  {
    var robot := new Robot();
    var b := new SensorBuilder("Display", robot);
    b.SetSystem(System("display_data"));
    var e := b.Build();
    named := NameKind in robot.world.entities[e];
    stage := robot.stage;
  }
}
