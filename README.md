# RobotRS core, modelled in Dafny

RobotRS is a small runtime for robot sensor applications built on an
entity/component store. A `Robot` owns the store and a schedule with one
stage, `DefaultStage`. Modules register sensors through a `SensorBuilder`,
which spawns a sensor entity and attaches these components to it:
- its Name and Metadata;
- an optional polling Timer;
- a Features list naming one output entity per declared output.

Each output entity is spawned by an `OutputBuilder` with three components:
- an Output back-reference to the sensor;
- its Metadata;
- a Reading.

Anything that describes itself gets an id, a name and a description, and
`metadata()` packages the three. Timers rate-limit polling with the cycle
Wait → Waiting(start) → Ready → Wait, driven by the shared `timer_system`
and consumed by the `check_timer!` gate.

The project holds these modules:

- `Descriptors` (`descriptors.dfy`):
  - Metadata, the Descriptor protocol, UndefinedType and OutputType.
  - The open set of describing types is closed into a datatype with the cases UndefinedType, OfOutput and Custom.
- `Timers` (`timers.dfy`):
  - The Timer component as a class, with `update` proved against the state-transition function `Next`.
  - `timer_system` as a loop over the timers.
  - `check_timer!` as `Gate`/`CheckTimer`.
  - Lemmas about sequences of passes and gated reads.
- `Store` (`store.dfy`):
  - The entity/component store, reduced to spawn and insert over a map from entity to components, one component per kind.
  - The component vocabulary.
  - Reading as a class, because systems overwrite it in place.
- `Robots` (`robots.dfy`):
  - `Robot` with `new`, `run`, `add_system` and `with_system`.
  - The stage is the sequence of registered systems.
- `Outputs` (`outputs.dfy`): `OutputBuilder`.
- `Sensors` (`sensors.dfy`):
  - `SensorBuilder` as a class.
  - The Rust move of the builder is modelled by a `live` flag: `build`, and the by-value setters, consume the builder.
- `Modules` (`modules.dfy`):
  - The `Module` protocol, as used by this runtime's modules: a module is a list of sensor recipes, each a name and its builder calls in order.
  - `init` builds the recipes in order.
  - `Robot::add` and `Robot::with` live here, because Dafny modules cannot import each other in a cycle.
- `Scenarios` (`scenarios.dfy`):
  - The runtime's unit test (the SHT31 sensor) and the demo application, as methods with proved results.
  - The exhibits for the findings below.

Where the source's documentation and its code disagree, the model follows the code:

- `SensorBuilder::with_system` is documented as registering a system "if its not already present" (src/modules/sensor.rs:65). The code calls `add_system` unconditionally (src/lib.rs:66-71). The model never deduplicates: `Robots.RegistrationsAppend` states that each call adds one more registration. `Timers.DuplicateTimerSystem` states what a duplicate `timer_system` registration does.

`OutputBuilder::build` takes `self` by value (src/modules/output.rs:28), so each builder builds exactly one output. `Outputs.OutputBuilder.Build` models that single call.

## Model

| member | source | states |
|---|---|---|
| Descriptors.Id | src/modules/output.rs:83-89 | the output kinds answer ids below 3; among the built-in types only UndefinedType answers 255 (src/modules/mod.rs:41-43) |
| Descriptors.Name | src/modules/output.rs:91-97 | no built-in type has an empty name; among them only UndefinedType answers "Undefined" (src/modules/mod.rs:45-47) |
| Descriptors.Description | src/modules/mod.rs:49-51 | among the built-in types only UndefinedType answers "N/A"; the output kinds answer "Description" (src/modules/output.rs:99-105) |
| Descriptors.MetadataOf | src/modules/mod.rs:24-35 | the derived metadata carries exactly the descriptor's id, name and description |
| Descriptors.UndefinedMetadata | src/modules/mod.rs:37-52 | UndefinedType describes itself as id 255, "Undefined", "N/A" |
| Descriptors.DefaultOutputType | src/modules/output.rs:73-80 | the default output type is the one with id 0 named "Temperature" |
| Descriptors.OutputIdsDistinct | src/modules/output.rs:82-89 | Temperature, Humidity and Moisture have ids 0, 1 and 2, so distinct kinds never share an id |
| Descriptors.OutputNames | src/modules/output.rs:91-105 | each output kind is named after its variant and described as "Description" |
| Descriptors.UndefinedIdIsNotAnOutputId | src/modules/mod.rs:40-43 | an untyped output's id (255) differs from every output kind's id |
| Descriptors.KindOfMetadata | src/modules/mod.rs:28-34 | any built-in descriptor recovered from a Metadata value has exactly that metadata |
| Descriptors.BuiltinMetadataRoundTrip | src/modules/output.rs:82-105 | the metadata of UndefinedType and of each output kind determines the descriptor: reading it back yields the same descriptor |
| Timers.ReachedIffTotal | src/modules/timer.rs:31-36 | comparing the elapsed time truncated to the duration's unit against the magnitude holds exactly when the elapsed nanoseconds reach the full duration |
| Timers.Next | src/modules/timer.rs:22-44 | Wait starts waiting at the current time; Waiting becomes Ready exactly when the elapsed time reaches the duration and otherwise stays as it was; Ready goes back to Wait |
| Timers.Timer.IsReady | src/modules/timer.rs:18-20 | a timer is ready exactly when the `check_timer!` gate lets the guarded work proceed |
| Timers.Timer.constructor | src/modules/timer.rs:11-16 | a new timer keeps its duration, starts in Wait and is not ready |
| Timers.Timer.Update | src/modules/timer.rs:22-44 | the timer's new state is the transition `Next` of its old state at the current time |
| Timers.Pass | src/modules/timer.rs:62-68 | one `timer_system` pass leaves a Ready timer Ready and never leaves any timer in Wait |
| Timers.DuplicateTimerSystem | src/lib.rs:66-71 | a second `timer_system` registration makes a second pass, at a clock reading no earlier than the first. A waiting timer then ends as if passed once at the later reading. A timer in Wait reaches Ready within one run when the clock advanced by the duration between the passes. A timer consumed by a gated consumer between the passes starts waiting again in the same run |
| Timers.ReadyStaysReady | src/modules/timer.rs:62-68 | a Ready timer stays Ready across any number of `timer_system` passes until it is consumed |
| Timers.WaitingUntilReached | src/modules/timer.rs:29-39 | while the duration has not elapsed, passes leave a waiting timer waiting from the same start |
| Timers.TimerSystem | src/modules/timer.rs:62-68 | every timer in the query gets exactly one pass, at its own clock reading (readings never decreasing along the query), and only timers that are not ready are updated |
| Timers.Gate | src/modules/timer.rs:70-82 | guarded work proceeds exactly when the timer is Ready, which consumes it back to Wait; otherwise the timer is untouched and the work is skipped |
| Timers.CheckTimer | src/modules/timer.rs:70-82 | with no timer the work always proceeds; with a timer the result and its new state are those of `Gate` |
| Timers.ReadsAtMostEveryOtherTick | src/modules/timer.rs:62-82 | over n runs of `timer_system` plus one gated consumer, from any timer state, the work runs at most ceil(n/2) times |
| Timers.QuietAfterRead | src/modules/timer.rs:62-82 | the rate limit: after the gated work has run, it does not run again at any tick whose reading is less than the duration past the tick that restarts the timer |
| Timers.QuietWhileWaiting | src/modules/timer.rs:29-39 | while the duration has not elapsed since the recorded start, a waiting timer lets no gated work run |
| Timers.ReadOnceDurationElapsed | src/modules/timer.rs:62-82 | after the tick that restarts the timer, the gated work runs at the next tick exactly when the clock has advanced by the duration |
| Store.Reading.Default | src/modules/output.rs:57-59 | a default reading is 0.0 |
| Store.Reading.Set | src/modules/output.rs:60-64 | after `set(n)` the reading is n |
| Store.IsSensor | src/modules/sensor.rs:144-149 | an entity is a sensor exactly when its Features list names some output |
| Robots.Robot.constructor | src/lib.rs:41-49 | a new robot has an empty store and an empty DefaultStage |
| Robots.Robot.Run | src/lib.rs:51-53 | running the schedule leaves the registered systems as they are |
| Robots.Robot.AddSystem | src/lib.rs:66-71 | exactly one more registration is appended to DefaultStage, even if the system is already there |
| Robots.Robot.WithSystem | src/lib.rs:73-79 | the effect of `add_system`, handing back the same robot |
| Robots.Registrations | src/lib.rs:66-71 | a system has no registration exactly when it is not in the stage |
| Robots.RegistrationsAppend | src/lib.rs:66-71 | each `add_system` of a system adds one registration of it and none of any other system |
| Outputs.OutputBuilder.New | src/modules/output.rs:14-19 | a new output builder carries the Undefined metadata (255, "Undefined", "N/A") |
| Outputs.OutputBuilder.WithType | src/modules/output.rs:21-25 | the builder's metadata becomes the given type's id, name and description, whatever it was before |
| Outputs.OutputBuilder.Build | src/modules/output.rs:27-36 | spawns exactly one new entity holding just Output(sensor), the builder's metadata and a fresh reading of 0.0; no other entity changes |
| Sensors.SensorBuilder.constructor | src/modules/sensor.rs:20-32 | spawns an empty entity at once; the builder starts with Undefined metadata, no outputs and no timer |
| Sensors.SensorBuilder.SetType | src/modules/sensor.rs:40-42 | the pending metadata becomes that of the given type |
| Sensors.SensorBuilder.WithType | src/modules/sensor.rs:34-38 | the effect of `set_type`, handing back the same builder |
| Sensors.SensorBuilder.SetOutput | src/modules/sensor.rs:50-52 | one more pending output, carrying the given type's metadata, appended after the others |
| Sensors.SensorBuilder.WithOutput | src/modules/sensor.rs:44-48 | the effect of `set_output`, handing back the same builder |
| Sensors.SensorBuilder.WithTimer | src/modules/sensor.rs:54-58 | the pending timer becomes the given one, and `timer_system` is registered on every call, also for None |
| Sensors.SensorBuilder.SetTimer | src/modules/sensor.rs:60-63 | `set_timer` taking the builder by reference: the effect of `with_timer` without consuming the builder |
| Sensors.SensorBuilder.SetTimerByValue | src/modules/sensor.rs:60-63 | `set_timer` as written: the builder is consumed; only the `timer_system` registration survives |
| Sensors.SensorBuilder.WithSystem | src/modules/sensor.rs:65-72 | exactly one more registration of the system on the robot, handing back the same builder |
| Sensors.SensorBuilder.SetSystem | src/modules/sensor.rs:74-79 | `set_system` taking the builder by reference: one more registration, builder still usable |
| Sensors.SensorBuilder.SetSystemByValue | src/modules/sensor.rs:74-79 | `set_system` as written: one more registration, and the builder is consumed |
| Sensors.SensorBuilder.AddComponent | src/modules/sensor.rs:81-87 | the component goes into the sensor entity at once, replacing one of its kind; nothing else changes |
| Sensors.SensorBuilder.WithComponent | src/modules/sensor.rs:89-92 | the effect of `add_component`, handing back the same builder |
| Sensors.SensorBuilder.InsertIdentity | src/modules/sensor.rs:97-105 | the sensor entity gains its Name and Metadata, and a new Timer in Wait with the pending duration exactly when one is pending |
| Sensors.SpawnOutputs | src/modules/sensor.rs:107-110 | one new, distinct output entity per pending output, in order. Each holds exactly its builder's metadata and a back-reference to the sensor, with its own new Reading at 0.0, distinct from every other output's. Existing entities are unchanged |
| Sensors.SpawnNext | src/modules/sensor.rs:108-110 | one turn of the loop: the next output entity is built after the earlier ones, with a new Reading at 0.0; the earlier outputs and their readings stay as they were |
| Sensors.SensorBuilder.AttachOutputs | src/modules/sensor.rs:107-116 | the outputs are spawned as above, and the sensor entity gains a Features list naming them in order; nothing else about the sensor entity changes |
| Sensors.AttachFinish | src/modules/sensor.rs:112-116 | inserting Features on the sensor keeps the spawned outputs and their readings as they were |
| Sensors.BuildFinish | src/modules/sensor.rs:97-118 | after `build`'s steps, the sensor entity's components are its earlier ones plus Name, Metadata, the optional Timer and Features listing the spawned outputs in order |
| Sensors.SensorBuilder.Build | src/modules/sensor.rs:94-119 | consumes the builder and returns the sensor entity. The entity now holds Name, the pending Metadata, a fresh Timer in Wait if a duration is pending, and Features. Features lists one new output entity per pending output, in declaration order, each with its own new Reading at 0.0. No other existing entity changes |
| Modules.LastTypeWins | src/modules/sensor.rs:40-42 | the metadata a sensor is built with is that of the last `with_type` call; later calls of other kinds do not change it |
| Modules.OutputsConcat | src/modules/sensor.rs:50-52 | the outputs declared by two consecutive call sequences are those of the first followed by those of the second |
| Modules.ComponentsAttached | src/modules/sensor.rs:81-92 | the sensor entity holds a component of a kind exactly when some `with_component` call attached one of that kind |
| Modules.LastComponentWins | src/modules/sensor.rs:81-87 | of the components of one kind attached by the calls, the entity holds the last one; calls after it that attach other kinds do not change it |
| Modules.TimerCallsRegister | src/modules/sensor.rs:54-58 | a `with_timer` call registers `timer_system` whether or not a duration is given |
| Modules.ApplyStep | src/modules/sensor.rs:34-92 | one chaining call changes only the pending field it configures, the registrations it makes, or the one component it inserts into the sensor entity. The run count and the set of entities stay as they were |
| Modules.ApplySteps | src/modules/sensor.rs:34-92 | after a call sequence the builder holds the last type, all declared outputs in order and the last timer. The robot gained that sequence's registrations in order, and the run count is unchanged. The sensor entity holds the components the calls attached |
| Modules.Configured | src/test/temp_sensor.rs:32-37 | a new builder with the recipe's calls made. Exactly one new entity, the sensor's, exists, holding the attached components. The builder holds the pending spec the calls give, the robot their registrations, and the run count is unchanged |
| Modules.RecipeBuilt | src/modules/sensor.rs:94-119 | what `build` leaves after a recipe's calls is the sensor as the recipe describes it: attached components, Name, Metadata, a Timer exactly as the calls give, and outputs in order with distinct readings |
| Modules.BuildRecipe | src/test/temp_sensor.rs:32-38 | a `new(...)` … `build()` chain produces a new sensor entity that stands as the recipe describes. The only new entities are the sensor and the outputs its Features lists. Its Timer, when a duration was given, is fresh and in Wait, and its outputs' Readings are fresh and at 0.0. Every existing entity and the run count stay unchanged |
| Modules.InitTurn | src/test/temp_sensor.rs:29-41 | one turn of a module's `init` loop builds the next recipe after those already built. The earlier sensors keep their entities, Timers in Wait and Readings at 0.0; the new sensor adds only its own entities and fresh objects, so no two sensors share a Timer or a Reading; the run count is unchanged |
| Modules.Init | src/modules/mod.rs:8-14 | `init` builds each recipe, in order, into distinct new entities, and creates no entity besides those sensors and their outputs. Every Timer it creates is fresh and in Wait, and every Reading fresh and at 0.0. No two of its sensors share a Timer or a Reading, as no two entities share a component. It registers the recipes' systems in order and does not run the schedule |
| Modules.BuildConfigured | src/modules/sensor.rs:94-119 | `build` on a builder configured by a recipe's calls leaves the sensor standing as the recipe describes. It adds only the outputs' entities, with fresh Readings at 0.0, and a fresh Timer in Wait when a duration is pending |
| Modules.BuildNext | src/test/temp_sensor.rs:29-41 | building one more recipe keeps the sensors built before, their Timers in Wait and their Readings at 0.0, and adds only fresh objects, none of them an earlier sensor's |
| Modules.SensorFrame | src/modules/sensor.rs:94-119 | a built sensor whose entity and outputs are left as they were keeps its entities, its Timer and its Readings |
| Modules.ReadingsCollected | src/modules/sensor.rs:105-113 | the Readings `build` created, in order, are exactly those of the sensor's outputs |
| Modules.TurnFinish | src/modules/mod.rs:8-14 | after one more turn of `init`, the sensors built so far are the earlier ones plus the new one. Their entities, Timers and Readings are the earlier ones' plus the new sensor's |
| Modules.KeysStep | src/modules/mod.rs:8-14 | one turn of `init` adds exactly the entities of the sensor it built |
| Modules.AllFrame | src/modules/mod.rs:8-14 | sensors whose entities are left as they were keep their entities, Timers and Readings |
| Modules.SensorsBuiltEach | src/modules/mod.rs:8-14 | each sensor `init` built is a distinct entity that did not exist before and stands as its recipe builds it |
| Modules.SensorsBuiltSnoc | src/modules/mod.rs:8-14 | a sensor built into an entity that did not exist before joins the sensors built so far, which stay built |
| Modules.AllContains | src/modules/mod.rs:8-14 | every built sensor's Timer and Readings are among those of all the built sensors |
| Modules.ObjectsApartEach | src/modules/mod.rs:8-14 | sensors whose objects are apart from all earlier sensors' own their Timers and Readings pairwise: no two sensors share one |
| Modules.ApartFrame | src/modules/mod.rs:8-14 | sensors whose entities are left as they were keep their Timers and Readings apart |
| Modules.ApartSnoc | src/modules/mod.rs:8-14 | a new sensor whose Timer and Readings are none of the earlier sensors' joins them with all objects still apart |
| Modules.Add | src/lib.rs:61-64 | `add` applies the module and returns what its `init` returns, with `init`'s guarantees: the sensors, their entities only, fresh Timers in Wait, fresh Readings at 0.0, no Timer or Reading shared by two sensors, the systems in order, and the same run count |
| Modules.With | src/lib.rs:55-59 | `with` has the effect of `add`: the module's sensors are built, as `add` builds them, into distinct new entities and no others. Their Timers and Readings are fresh, in Wait and at 0.0, and no two sensors share one. Existing entities stay as they were, the systems are registered in order, the run count is unchanged, and the same robot is handed back |
| Scenarios.Sht31Builder | src/lib.rs:104-107 | the SHT31 chain up to `build` leaves the Undefined type pending, with the Humidity output declared before the Temperature output |
| Scenarios.BuildSht31 | src/lib.rs:104-108 | the SHT31 sensor's Features list two outputs, carrying Humidity's metadata then Temperature's, so the ids read from them are [1, 0] |
| Scenarios.Sht31Scenario | src/lib.rs:99-113 | the unit test ends with the two systems in registration order, ten runs, and SHT31's output ids [1, 0] |
| Scenarios.TemperatureRecipe | src/test/temp_sensor.rs:29-38 | the temperature module declares Temperature then Humidity and registers `temperature_reading` |
| Scenarios.MoistureRecipe | src/test/moisture_sensor.rs:30-38 | the moisture module declares Moisture and registers `moisture_reading` |
| Scenarios.DisplayRecipe | src/test/display.rs:33-40 | the display module declares no output and registers `display_data` |
| Scenarios.AddOne | src/test/mod.rs:16-18 | adding a one-sensor module yields a new sensor entity, with existing entities unchanged. Its output ids are those its recipe declares, and it is a sensor exactly when it declares an output |
| Scenarios.DemoScenario | src/test/mod.rs:12-28 | in the demo the three sensors are distinct entities. The temperature sensor's outputs have ids [0, 1], the moisture sensor's [2] and the display's none, so only the display is not a sensor. The stage holds the three modules' systems in order, and the schedule ran ten times |
| Scenarios.SetTimerAsWrittenScenario | src/modules/sensor.rs:60-63 | with `set_timer` as written, the sensor entity is never given a Name or a Timer, although `timer_system` is registered |
| Scenarios.SetTimerScenario | src/modules/sensor.rs:54-63 | with `set_timer` by reference, the same chain builds a named, timed sensor |
| Scenarios.SetSystemAsWrittenScenario | src/modules/sensor.rs:74-79 | with `set_system` as written, the sensor entity is never given a Name, although the system is registered |
| Scenarios.SetSystemScenario | src/modules/sensor.rs:74-79 | with `set_system` by reference, the same chain builds a named sensor |

## Left out

- The entity/component store library: queries, removal, entity generations, and the scheduler's execution machinery are not modelled. The store is a map from entity to components, one component per kind, with spawn and insert. Entities are fresh naturals.
- System bodies: `run` executes the registered systems, but the model records only their identity and the run count. What `simulate_readings`, `print_readings`, `temperature_reading`, `moisture_reading` and `display_data` do to readings is not modelled. `timer_system` and `check_timer!` are modelled on their own, as `Timers.TimerSystem` and `Timers.CheckTimer`.
- The wall clock: `SystemTime::now()` is a parameter `now`, in nanoseconds. `timer_system` gets one reading per timer, never decreasing along the query.
- Sensors.SensorBuilder: the source's builder holds the robot by exclusive mutable borrow, so while a builder is live no other builder, `add_system` or `run` can touch the robot. The model's builder keeps a plain reference, so two builders could interleave on one robot. No proved property relies on that exclusivity.
- Robots.Robot.Run: counts the run but executes no system, so across a `run` the model promises that no Reading and no Timer changes. In the source, `run` executes every registered system, and `simulate_readings` or `timer_system` change exactly those. `Timers.TimerSystem` and `Timers.CheckTimer` model those effects on their own, outside `run`.
- Timers.Timer.Update: requires that the clock has not gone back behind the recorded start. The source panics there, through `duration_since(...).unwrap()`.
- Timers.Duration: the magnitudes are unbounded naturals, not `u128`/`u64`.
- Floating point: Reading is a `real` without arithmetic. Driver counters such as `last_read` are a `Payload` of integers carrying only the port.
- The `Module` trait as an open interface is not modelled. A module is modelled as the builder chains it runs, which is how every module of this runtime is written. Its result is the sequence of built sensor entities.
- The `Descriptor` trait as an open interface is not modelled. Driver and display types are `Custom` descriptors with their own id, name and description.
- `Deref` implementations, `Debug` output and printing are left out.
- The `dev` and `prelude` re-exports are left out.

## Findings

| source | as written | input that shows it | evidently intended | confidence | as-written member | corrected member |
|---|---|---|---|---|---|---|
| src/modules/sensor.rs:60-63 | `set_timer` takes the builder by value (`mut self`). The builder, with the duration it just stored, is dropped, so `build` can no longer be called. The sensor entity stays empty, while `timer_system` is registered | `SensorBuilder::new("SHT31", &mut robot)` then `set_timer(Some(Duration::Millis(1000)))` | `&mut self`, like `set_type`, `set_output` and `add_component`, so the chain can still be built | medium, not executed | Sensors.SensorBuilder.SetTimerByValue, Scenarios.SetTimerAsWrittenScenario | Sensors.SensorBuilder.SetTimer, Scenarios.SetTimerScenario |
| src/modules/sensor.rs:74-79 | `set_system` takes the builder by value (`self`). The builder is dropped after registering the system, so `build` can no longer be called | `SensorBuilder::new("Display", &mut robot)` then `set_system(display_data)` | `&mut self`, like the other `set_*` methods | medium, not executed | Sensors.SensorBuilder.SetSystemByValue, Scenarios.SetSystemAsWrittenScenario | Sensors.SensorBuilder.SetSystem, Scenarios.SetSystemScenario |
