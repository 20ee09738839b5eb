/**
 * BottleneckMultiAgentEnv: every RL vehicle observes its own position, speed
 * and edge speed limit followed by (label, distance, speed) triples for the
 * vehicles ahead of and behind it in the lanes the lane filter keeps; every RL
 * vehicle is rewarded with the network's normalised outflow; actions
 * accelerate every agent and change lane inside the lane-change window.
 */
module Bottleneck {
  import opened Kernel
  import EnvParams

  /** Base number of lanes of the widest part of the network. */
  const MaxLanes: int := 4

  /** Edge-of-road padding: a lane to the side that does not exist. */
  const Pad: seq<real> := [-1.0, -1.0, -1.0]

  /** Substitute for a neighbour entry whose lane is the "no vehicle" value. */
  function NoVehicle(maxSpeed: real): seq<real> {
    [0.0, 1000.0, maxSpeed]
  }

  // ---------------------------------------------------------------------
  // Vehicle labels
  // ---------------------------------------------------------------------

  predicate IsPrefix(p: string, s: string) {
    |p| <= |s| && s[..|p|] == p
  }

  /** Python's `sub in s` on strings: `sub` occurs somewhere in `s`. */
  predicate Contains(s: string, sub: string)
    decreases |s|
  {
    IsPrefix(sub, s) || (|s| > 0 && Contains(s[1..], sub))
  }

  /** get_label: 2 for an RL vehicle id, 1 for a human one, 0 otherwise. */
  function Label(id: string): (r: real)
    ensures r == 0.0 || r == 1.0 || r == 2.0
  {
    if Contains(id, "rl") then 2.0
    else if Contains(id, "human") then 1.0
    else 0.0
  }

  // ---------------------------------------------------------------------
  // Observations
  // ---------------------------------------------------------------------

  /** Membership in Python's `range(start, stop)`. */
  predicate InRange(v: int, start: int, stop: int) {
    start <= v < stop
  }

  /**
   * What one zipped neighbour entry adds to the observation of a vehicle in
   * `lane`: its triple when its lane passes `in range(lane - 1, lane + 1)`,
   * the no-vehicle substitute when its lane is the simulator's -1001, and
   * nothing otherwise.
   */
  function Contribution(n: Neighbour, lane: int, maxSpeed: real): seq<real> {
    if InRange(n.lane, lane - 1, lane + 1) then [Label(n.id), n.dist, n.speed]
    else if n.lane == NoVehicleLane then NoVehicle(maxSpeed)
    else []
  }

  /** The contributions of a lane list, in list order. */
  function NeighbourPart(entries: seq<Neighbour>, lane: int, maxSpeed: real): seq<real>
    decreases |entries|
  {
    if entries == [] then []
    else NeighbourPart(entries[..|entries| - 1], lane, maxSpeed)
         + Contribution(entries[|entries| - 1], lane, maxSpeed)
  }

  /**
   * One block (headway or tailway): a leading pad when there is no lane below
   * `lane`, the neighbour part, and a trailing pad when `lane + 1` exceeds the
   * edge's lane count.
   */
  function Block(lane: int, numLanes: int, entries: seq<Neighbour>, maxSpeed: real): seq<real> {
    (if lane - 1 < 0 then Pad else [])
    + NeighbourPart(entries, lane, maxSpeed)
    + (if lane + 1 > numLanes then Pad else [])
  }

  /** The self representation: x-position, speed, speed limit of its edge. */
  function SelfFeatures(k: Snapshot, id: string): seq<real> {
    [k.xOf(id), k.speedOf(id), k.speedLimitOf(k.edgeOf(id))]
  }

  function HeadwayBlock(k: Snapshot, id: string): seq<real> {
    Block(k.laneOf(id), k.numLanesOf(k.edgeOf(id)), k.laneLeaders(id), k.maxSpeed)
  }

  function TailwayBlock(k: Snapshot, id: string): seq<real> {
    Block(k.laneOf(id), k.numLanesOf(k.edgeOf(id)), k.laneFollowers(id), k.maxSpeed)
  }

  /** The observation get_state assigns to RL vehicle `id`. */
  function Observation(k: Snapshot, id: string): seq<real> {
    SelfFeatures(k, id) + HeadwayBlock(k, id) + TailwayBlock(k, id)
  }

  /** The length the observation space declares: 4 * MAX_LANES * scaling + 4. */
  function DeclaredObservationSize(scaling: Pos): int {
    4 * MaxLanes * scaling + 4
  }

  /**
   * Appends the contributions of `entries` to `acc`, one entry at a time, as
   * the `for element in headway_cars_map` loop extends others_representation.
   */
  method ExtendNeighbours(acc: seq<real>, entries: seq<Neighbour>, lane: int, maxSpeed: real)
    returns (r: seq<real>)
    ensures r == acc + NeighbourPart(entries, lane, maxSpeed)
  {
    r := acc;
    var i := 0;
    while i < |entries|
      invariant 0 <= i <= |entries|
      invariant r == acc + NeighbourPart(entries[..i], lane, maxSpeed)
    {
      var e := entries[i];
      if InRange(e.lane, lane - 1, lane + 1) {
        r := r + [Label(e.id), e.dist, e.speed];
      } else if e.lane == NoVehicleLane {
        r := r + NoVehicle(maxSpeed);
      }
      assert entries[..i + 1][..i] == entries[..i];
      i := i + 1;
    }
    assert entries[..i] == entries;
  }

  /**
   * Extends `acc` with one block: the leading pad (`if lane - 1 < 0`), the
   * neighbour loop, and the trailing pad (`if lane + 1 > num_lanes(edge)`).
   */
  method ExtendBlock(acc: seq<real>, lane: int, numLanes: int, entries: seq<Neighbour>, maxSpeed: real)
    returns (r: seq<real>)
    ensures r == acc + Block(lane, numLanes, entries, maxSpeed)
  {
    r := acc;
    if lane - 1 < 0 {
      r := r + Pad;
    }
    r := ExtendNeighbours(r, entries, lane, maxSpeed);
    if lane + 1 > numLanes {
      r := r + Pad;
    }
  }

  // ---------------------------------------------------------------------
  // Reward
  // ---------------------------------------------------------------------

  /** Outflow over the last ten seconds normalised by 2000 * scaling. */
  function Reward(k: Snapshot, scaling: Pos): real {
    k.outflowRate / (2000.0 * scaling as real)
  }

  // ---------------------------------------------------------------------
  // Actions
  // ---------------------------------------------------------------------

  /** One entry of the action dictionary: (acceleration, lane-change direction). */
  datatype AgentAction = AgentAction(id: string, accel: real, direction: real)

  /** Python's `round` on a float: nearest integer, ties to the even one. */
  function RoundHalfEven(x: real): (r: int)
    ensures -0.5 <= x - r as real <= 0.5
    ensures x - r as real == 0.5 || x - r as real == -0.5 ==> r % 2 == 0
  {
    var f := x.Floor;
    var frac := x - f as real;
    if frac < 0.5 then f
    else if frac > 0.5 then f + 1
    else if f % 2 == 0 then f
    else f + 1
  }

  /**
   * `max(-1, min(round(direction), 1))`: right (1) exactly above 0.5, left (-1)
   * exactly below -0.5, and no change on [-0.5, 0.5], the two ties included.
   */
  function LaneChangeDirection(direction: real): (r: int)
    ensures -1 <= r <= 1
    ensures r == 1 <==> direction > 0.5
    ensures r == -1 <==> direction < -0.5
    ensures r == 0 <==> -0.5 <= direction <= 0.5
  {
    var n := RoundHalfEven(direction);
    if n < -1 then -1 else if n > 1 then 1 else n
  }

  /** The lane-change window: time_counter <= lane_change_duration + last_lc. */
  predicate LaneChangeAllowed(timeCounter: int, duration: real, lastLc: real) {
    timeCounter as real <= duration + lastLc
  }

  /** The commands one agent's action issues once the duration is known. */
  function AgentCommands(a: AgentAction, timeCounter: int, duration: real, lastLc: real): seq<Command> {
    [Accelerate(a.id, a.accel)]
    + (if LaneChangeAllowed(timeCounter, duration, lastLc)
       then [ChangeLane(a.id, LaneChangeDirection(a.direction))]
       else [])
  }

  /** The commands of all agents, in the dictionary's order. */
  function AllCommands(acts: seq<AgentAction>, timeCounter: int, duration: real, k: Snapshot): seq<Command>
    decreases |acts|
  {
    if acts == [] then []
    else
      var a := acts[|acts| - 1];
      AllCommands(acts[..|acts| - 1], timeCounter, duration, k)
      + AgentCommands(a, timeCounter, duration, k.lastLcOf(a.id))
  }

  /** What one call of _apply_rl_actions issues, and the error it raises if any. */
  datatype Applied = Applied(issued: seq<Command>, error: Option<Error>)

  /**
   * `if rl_actions:` skips None and the empty dictionary. Otherwise the first
   * agent is accelerated before "lane_change_duration" is looked up, so a
   * missing key leaves exactly that one command behind the KeyError.
   */
  function ApplyOutcome(rlActions: Option<seq<AgentAction>>, params: map<string, real>,
                        timeCounter: int, k: Snapshot): Applied
  {
    if rlActions.None? || rlActions.value == [] then Applied([], None)
    else if "lane_change_duration" !in params then
      Applied([Accelerate(rlActions.value[0].id, rlActions.value[0].accel)],
              Some(KeyError("lane_change_duration")))
    else Applied(AllCommands(rlActions.value, timeCounter, params["lane_change_duration"], k), None)
  }

  // ---------------------------------------------------------------------
  // The environment
  // ---------------------------------------------------------------------

  class BottleneckMultiAgentEnv {
    /** env_params.additional_params */
    const params: map<string, real>
    /** the network's scaling factor */
    const scaling: Pos
    /** network max speed read at construction */
    const maxSpeed: real
    /** the simulator's current step, read-only here */
    var k: Snapshot
    /** time_counter, advanced by the base environment's step */
    var timeCounter: int
    /** commands sent to the simulator so far */
    var commands: seq<Command>

    /** The part of `__init__` after the parameter check succeeded. */
    constructor (params: map<string, real>, scaling: Pos, k: Snapshot, timeCounter: int)
      requires EnvParams.AllSupplied(EnvParams.BottleneckRequired, params.Keys)
      ensures this.params == params && this.scaling == scaling && this.k == k
      ensures this.timeCounter == timeCounter && this.maxSpeed == k.maxSpeed
      ensures commands == []
    {
      this.params := params;
      this.scaling := scaling;
      this.k := k;
      this.timeCounter := timeCounter;
      this.maxSpeed := k.maxSpeed;
      this.commands := [];
    }

    /** `__init__`: raises KeyError exactly when "target_velocity" is missing. */
    static method Create(params: map<string, real>, scaling: Pos, k: Snapshot, timeCounter: int)
      returns (r: Result<BottleneckMultiAgentEnv>)
      ensures r.Err? <==> "target_velocity" !in params
      ensures r.Err? ==> r.error == KeyError("target_velocity")
      ensures r.Ok? ==> fresh(r.value) && r.value.params == params && r.value.scaling == scaling
      ensures r.Ok? ==> r.value.k == k && r.value.timeCounter == timeCounter && r.value.commands == []
    {
      var err := EnvParams.CheckParams(EnvParams.BottleneckRequired, params.Keys);
      assert EnvParams.BottleneckRequired[0] == "target_velocity";
      if err.Some? {
        return Err(err.value);
      }
      var env := new BottleneckMultiAgentEnv(params, scaling, k, timeCounter);
      return Ok(env);
    }

    /** observation_space: a [0, 1] box of the declared length. */
    function ObservationSpace(): (b: Box)
      ensures |b.low| == |b.high| == DeclaredObservationSize(scaling)
      ensures forall i :: 0 <= i < |b.low| ==> b.low[i] == 0.0 && b.high[i] == 1.0
    {
      var n := DeclaredObservationSize(scaling);
      Box(seq(n, _ => 0.0), seq(n, _ => 1.0))
    }

    /**
     * action_space: [-|max_decel|, max_accel] x [-1, 1]; the two keys are read
     * here without a prior check, "max_decel" first.
     */
    function ActionSpace(): (r: Result<Box>)
      ensures r.Err? <==> "max_decel" !in params || "max_accel" !in params
      ensures r.Err? ==>
        r.error == KeyError(if "max_decel" !in params then "max_decel" else "max_accel")
      ensures r.Ok? ==> |r.value.low| == |r.value.high| == 2
      ensures r.Ok? ==> r.value.low[0] <= 0.0 && Abs(r.value.low[0]) == Abs(params["max_decel"])
      ensures r.Ok? ==> r.value.high[0] == params["max_accel"]
      ensures r.Ok? ==> r.value.low[1] == -1.0 && r.value.high[1] == 1.0
    {
      if "max_decel" !in params then Err(KeyError("max_decel"))
      else if "max_accel" !in params then Err(KeyError("max_accel"))
      else Ok(Box([-Abs(params["max_decel"]), -1.0], [params["max_accel"], 1.0]))
    }

    /** The body of get_state's loop for one RL vehicle. */
    method VehicleObservation(id: string) returns (o: seq<real>)
      ensures o == Observation(k, id)
    {
      var edge := k.edgeOf(id);
      var lane := k.laneOf(id);
      var selfRepresentation := [k.xOf(id), k.speedOf(id), k.speedLimitOf(edge)];
      var others: seq<real> := [];
      others := ExtendBlock(others, lane, k.numLanesOf(edge), k.laneLeaders(id), k.maxSpeed);
      others := ExtendBlock(others, lane, k.numLanesOf(edge), k.laneFollowers(id), k.maxSpeed);
      o := selfRepresentation + others;
    }

    /** get_state: one observation per RL vehicle. */
    method GetState() returns (obs: map<string, seq<real>>)
      ensures obs.Keys == set id | id in k.rlIds
      ensures forall id :: id in obs ==> obs[id] == Observation(k, id)
    {
      obs := map[];
      var ids := k.rlIds;
      var i := 0;
      while i < |ids|
        invariant 0 <= i <= |ids|
        invariant obs.Keys == set id | id in ids[..i]
        invariant forall id :: id in obs ==> obs[id] == Observation(k, id)
      {
        var id := ids[i];
        var o := VehicleObservation(id);
        obs := obs[id := o];
        assert ids[..i + 1] == ids[..i] + [id];
        i := i + 1;
      }
      assert ids[..i] == ids;
    }

    /** compute_reward: the same normalised outflow for every RL vehicle. */
    method ComputeReward(rlActions: Option<seq<AgentAction>>, fail: bool)
      returns (rewards: map<string, real>)
      ensures rewards.Keys == set id | id in k.rlIds
      ensures forall id :: id in rewards ==> rewards[id] == Reward(k, scaling)
    {
      var reward := k.outflowRate / (2000.0 * scaling as real);
      rewards := map[];
      var ids := k.rlIds;
      var i := 0;
      while i < |ids|
        invariant 0 <= i <= |ids|
        invariant rewards.Keys == set id | id in ids[..i]
        invariant forall id :: id in rewards ==> rewards[id] == Reward(k, scaling)
      {
        rewards := rewards[ids[i] := reward];
        assert ids[..i + 1] == ids[..i] + [ids[i]];
        i := i + 1;
      }
      assert ids[..i] == ids;
    }

    /** _apply_rl_actions: accelerate every agent, change lane inside the window. */
    method ApplyRlActions(rlActions: Option<seq<AgentAction>>) returns (err: Option<Error>)
      modifies this`commands
      ensures commands == old(commands) + ApplyOutcome(rlActions, params, timeCounter, k).issued
      ensures err == ApplyOutcome(rlActions, params, timeCounter, k).error
    {
      err := None;
      if rlActions.Some? && rlActions.value != [] {
        var acts := rlActions.value;
        var i := 0;
        while i < |acts|
          invariant 0 <= i <= |acts|
          invariant i > 0 ==> "lane_change_duration" in params
          invariant i > 0 ==>
            commands == old(commands) + AllCommands(acts[..i], timeCounter, params["lane_change_duration"], k)
          invariant i == 0 ==> commands == old(commands)
        {
          var a := acts[i];
          commands := commands + [Accelerate(a.id, a.accel)];
          if "lane_change_duration" !in params {
            err := Some(KeyError("lane_change_duration"));
            return;
          }
          var duration := params["lane_change_duration"];
          if timeCounter as real <= duration + k.lastLcOf(a.id) {
            var direction := LaneChangeDirection(a.direction);
            commands := commands + [ChangeLane(a.id, direction)];
          }
          assert acts[..i + 1][..i] == acts[..i];
          i := i + 1;
        }
        assert acts[..i] == acts;
      }
    }
  }
}
