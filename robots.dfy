/**
 * The runtime: a Robot owns the store and a schedule holding one stage,
 * DefaultStage.  Systems are registered into that stage in order, with no
 * deduplication, and each `run` executes the stage once.  What a system
 * does when it executes is outside this model: a system is only its
 * identity here.
 */
module Robots {

  import opened Store

  /** A registered system, by identity: the shared `timer_system` or any other named system. */
  datatype SystemId = TimerSystemId | System(name: string)

  class Robot {
    /** The store; the Robot owns it for its whole life. */
    const world: World
    /** The systems of DefaultStage, in registration order. */
    var stage: seq<SystemId>
    /** How many times the schedule has been run. */
    var runs: nat

    ghost predicate Valid()
      reads this, world
    {
      world.Valid()
    }

    /** `Robot::new`: an empty store and a DefaultStage with no systems. */
    constructor ()
      ensures Valid() && fresh(world)
      ensures world.entities == map[] && stage == [] && runs == 0
    {
      world := new World();
      stage := [];
      runs := 0;
    }

    /** `run`: the schedule is executed once; the registered systems stay as they are. */
    method Run()
      modifies this
      ensures stage == old(stage) && runs == old(runs) + 1
    {
      runs := runs + 1;
    }

    /** `add_system`: exactly one more registration in DefaultStage, even of a system already there. */
    method AddSystem(s: SystemId)
      modifies this
      ensures stage == old(stage) + [s] && runs == old(runs)
    {
      stage := stage + [s];
    }

    /** `with_system`: the effect of `add_system`, handing back the same robot. */
    method WithSystem(s: SystemId) returns (r: Robot)
      modifies this
      ensures r == this
      ensures stage == old(stage) + [s] && runs == old(runs)
    {
      AddSystem(s);
      r := this;
    }
  }

  /** How many times a system is registered in a stage. */
  function Registrations(stage: seq<SystemId>, s: SystemId): (n: nat)
    ensures n <= |stage|
    ensures n == 0 <==> s !in stage
  {
    if stage == [] then 0
    else (if stage[0] == s then 1 else 0) + Registrations(stage[1..], s)
  }

  /** Registration never deduplicates: each `add_system` of `s` adds one more registration of `s`. */
  lemma {:induction false} RegistrationsAppend(stage: seq<SystemId>, s: SystemId, t: SystemId)
    ensures Registrations(stage + [t], s) == Registrations(stage, s) + (if t == s then 1 else 0)
    decreases |stage|
  {
    if stage == [] {
      assert stage + [t] == [t];
    } else {
      assert (stage + [t])[1..] == stage[1..] + [t];
      RegistrationsAppend(stage[1..], s, t);
    }
  }
}
