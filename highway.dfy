/**
 * MultiAgentHighwayPOEnv: each RL vehicle observes five normalised values
 * about itself, its leader and its follower; it is rewarded with its speed in
 * evaluation mode, nothing after a collision, and otherwise with the clipped
 * system-level velocity reward less a small-time-headway penalty; actions
 * only accelerate, and the leader and follower of every RL vehicle are marked
 * as observed.
 */
module Highway {
  import opened Kernel
  import EnvParams

  /** Smallest acceptable time headway. */
  const TMin: real := 1.0
  /** Weight of the system-level velocity term. */
  const Eta1: real := 1.0
  /** Weight of the time-headway penalty. */
  const Eta2: real := 0.1

  // ---------------------------------------------------------------------
  // Observations
  // ---------------------------------------------------------------------

  /** Leader speed, or the network max speed when no leader is visible. */
  function LeadSpeed(k: Snapshot, id: string): real {
    var lead := k.leaderOf(id);
    if Present(lead) then k.speedOf(lead.value) else k.maxSpeed
  }

  /** The leader's own headway, or the network length when no leader is visible. */
  function LeadHead(k: Snapshot, id: string): real {
    var lead := k.leaderOf(id);
    if Present(lead) then k.headwayOf(lead.value) else k.length
  }

  /** Follower speed, or 0 when no follower is visible. */
  function FollowSpeed(k: Snapshot, id: string): real {
    var follower := k.followerOf(id);
    if Present(follower) then k.speedOf(follower.value) else 0.0
  }

  /** The follower's headway, or the network length when no follower is visible. */
  function FollowHead(k: Snapshot, id: string): real {
    var follower := k.followerOf(id);
    if Present(follower) then k.headwayOf(follower.value) else k.length
  }

  /** The five-value observation of RL vehicle `id`. */
  function Observation(k: Snapshot, id: string): seq<real> {
    var thisSpeed := k.speedOf(id);
    [ thisSpeed / k.maxSpeed,
      (LeadSpeed(k, id) - thisSpeed) / k.maxSpeed,
      LeadHead(k, id) / k.length,
      (thisSpeed - FollowSpeed(k, id)) / k.maxSpeed,
      FollowHead(k, id) / k.length ]
  }

  // ---------------------------------------------------------------------
  // Reward
  // ---------------------------------------------------------------------

  /**
   * The small-time-headway penalty: with a visible leader and a positive own
   * speed, min((max(headway / speed, 0) - t_min) / t_min, 0); otherwise 0.
   */
  function HeadwayCost(k: Snapshot, id: string): real {
    var speed := k.speedOf(id);
    if Present(k.leaderOf(id)) && speed > 0.0 then
      var tHeadway := Max(k.headwayOf(id) / speed, 0.0);
      Min((tHeadway - TMin) / TMin, 0.0)
    else 0.0
  }

  /** The reward of one RL vehicle: evaluation first, then failure, then the clipped cost. */
  function AgentReward(k: Snapshot, evaluate: bool, fail: bool, id: string): real {
    if evaluate then k.speedOf(id)
    else if fail then 0.0
    else Max(Eta1 * k.desiredVelocity + Eta2 * HeadwayCost(k, id), 0.0)
  }

  // ---------------------------------------------------------------------
  // Actions and observed vehicles
  // ---------------------------------------------------------------------

  /** One entry of the action dictionary: its first value is the acceleration. */
  datatype AgentAction = AgentAction(id: string, accel: real)

  /** One acceleration command per agent, in the dictionary's order. */
  function AccelerationCommands(acts: seq<AgentAction>): seq<Command>
    decreases |acts|
  {
    if acts == [] then []
    else AccelerationCommands(acts[..|acts| - 1])
         + [Accelerate(acts[|acts| - 1].id, acts[|acts| - 1].accel)]
  }

  /** `if rl_actions:` skips None and the empty dictionary. */
  function ApplyCommands(rlActions: Option<seq<AgentAction>>): seq<Command> {
    if rlActions.None? then [] else AccelerationCommands(rlActions.value)
  }

  /** The marks one RL vehicle adds: its leader, then its follower, when present. */
  function MarksFor(k: Snapshot, id: string): seq<Command> {
    var lead := k.leaderOf(id);
    var follower := k.followerOf(id);
    (if Present(lead) then [SetObserved(lead.value)] else [])
    + (if Present(follower) then [SetObserved(follower.value)] else [])
  }

  /** The marks of a list of RL vehicles, in list order. */
  function ObservedMarks(k: Snapshot, ids: seq<string>): seq<Command>
    decreases |ids|
  {
    if ids == [] then []
    else ObservedMarks(k, ids[..|ids| - 1]) + MarksFor(k, ids[|ids| - 1])
  }

  // ---------------------------------------------------------------------
  // The environment
  // ---------------------------------------------------------------------

  class MultiAgentHighwayPOEnv {
    /** env_params.additional_params */
    const params: map<string, real>
    /** env_params.evaluate */
    const evaluate: bool
    /** the simulator's current step, read-only here */
    var k: Snapshot
    /** commands sent to the simulator so far */
    var commands: seq<Command>

    /** What construction guarantees: the three required keys are present. */
    predicate Valid() {
      "max_accel" in params && "max_decel" in params && "target_velocity" in params
    }

    /** The part of `__init__` after the parameter check succeeded. */
    constructor (params: map<string, real>, evaluate: bool, k: Snapshot)
      requires EnvParams.AllSupplied(EnvParams.HighwayRequired, params.Keys)
      ensures Valid()
      ensures this.params == params && this.evaluate == evaluate && this.k == k
      ensures commands == []
    {
      this.params := params;
      this.evaluate := evaluate;
      this.k := k;
      this.commands := [];
      assert EnvParams.HighwayRequired[0] == "max_accel";
      assert EnvParams.HighwayRequired[1] == "max_decel";
      assert EnvParams.HighwayRequired[2] == "target_velocity";
    }

    /**
     * `__init__`: raises KeyError exactly when one of max_accel, max_decel,
     * target_velocity is missing, naming the first missing one in that order.
     */
    static method Create(params: map<string, real>, evaluate: bool, k: Snapshot)
      returns (r: Result<MultiAgentHighwayPOEnv>)
      ensures r.Err? <==>
        "max_accel" !in params || "max_decel" !in params || "target_velocity" !in params
      ensures r.Err? ==> r.error == KeyError(
        if "max_accel" !in params then "max_accel"
        else if "max_decel" !in params then "max_decel"
        else "target_velocity")
      ensures r.Ok? ==> fresh(r.value) && r.value.Valid() && r.value.params == params
      ensures r.Ok? ==> r.value.evaluate == evaluate && r.value.k == k && r.value.commands == []
    {
      var err := EnvParams.CheckParams(EnvParams.HighwayRequired, params.Keys);
      EnvParams.HighwayRequiredIff(params.Keys);
      if err.Some? {
        var i :| 0 <= i < 3 && err.value == KeyError(EnvParams.HighwayRequired[i]) &&
          EnvParams.HighwayRequired[i] !in params.Keys &&
          EnvParams.AllSupplied(EnvParams.HighwayRequired[..i], params.Keys);
        assert i >= 1 ==> EnvParams.HighwayRequired[..i][0] == "max_accel";
        assert i >= 2 ==> EnvParams.HighwayRequired[..i][1] == "max_decel";
        return Err(err.value);
      }
      var env := new MultiAgentHighwayPOEnv(params, evaluate, k);
      return Ok(env);
    }

    /** observation_space: a [0, 1] box of shape (5,). */
    function ObservationSpace(): (b: Box)
      ensures |b.low| == |b.high| == 5
      ensures forall i :: 0 <= i < 5 ==> b.low[i] == 0.0 && b.high[i] == 1.0
    {
      Box([0.0, 0.0, 0.0, 0.0, 0.0], [1.0, 1.0, 1.0, 1.0, 1.0])
    }

    /** action_space: one acceleration in [-|max_decel|, max_accel]. */
    function ActionSpace(): (b: Box)
      requires Valid()
      ensures |b.low| == |b.high| == 1
      ensures b.low[0] <= 0.0 && Abs(b.low[0]) == Abs(params["max_decel"])
      ensures b.high[0] == params["max_accel"]
    {
      Box([-Abs(params["max_decel"])], [params["max_accel"]])
    }

    /** get_state: the five-value observation of every RL vehicle. */
    method GetState() returns (obs: map<string, seq<real>>)
      ensures obs.Keys == set id | id in k.rlIds
      ensures forall id :: id in obs ==> obs[id] == Observation(k, id)
    {
      obs := map[];
      var maxSpeed := k.maxSpeed;
      var maxLength := k.length;
      var ids := k.rlIds;
      var i := 0;
      while i < |ids|
        invariant 0 <= i <= |ids|
        invariant obs.Keys == set id | id in ids[..i]
        invariant forall id :: id in obs ==> obs[id] == Observation(k, id)
      {
        var id := ids[i];
        var thisSpeed := k.speedOf(id);
        var leadId := k.leaderOf(id);
        var follower := k.followerOf(id);
        var leadSpeed, leadHead, followSpeed, followHead;
        if !Present(leadId) {
          leadSpeed, leadHead := maxSpeed, maxLength;
        } else {
          leadSpeed, leadHead := k.speedOf(leadId.value), k.headwayOf(leadId.value);
        }
        if !Present(follower) {
          followSpeed, followHead := 0.0, maxLength;
        } else {
          followSpeed, followHead := k.speedOf(follower.value), k.headwayOf(follower.value);
        }
        var observation := [thisSpeed / maxSpeed, (leadSpeed - thisSpeed) / maxSpeed,
                            leadHead / maxLength, (thisSpeed - followSpeed) / maxSpeed,
                            followHead / maxLength];
        obs := obs[id := observation];
        assert ids[..i + 1] == ids[..i] + [id];
        i := i + 1;
      }
      assert ids[..i] == ids;
    }

    /** compute_reward: nothing in the warm-up steps, else one reward per RL vehicle. */
    method ComputeReward(rlActions: Option<seq<AgentAction>>, fail: bool)
      returns (rewards: map<string, real>)
      ensures rlActions.None? ==> rewards == map[]
      ensures rlActions.Some? ==> rewards.Keys == set id | id in k.rlIds
      ensures forall id :: id in rewards ==> rewards[id] == AgentReward(k, evaluate, fail, id)
    {
      if rlActions.None? {
        return map[];
      }
      rewards := map[];
      var ids := k.rlIds;
      var i := 0;
      while i < |ids|
        invariant 0 <= i <= |ids|
        invariant rewards.Keys == set id | id in ids[..i]
        invariant forall id :: id in rewards ==> rewards[id] == AgentReward(k, evaluate, fail, id)
      {
        var id := ids[i];
        var reward;
        if evaluate {
          reward := k.speedOf(id);
        } else if fail {
          reward := 0.0;
        } else {
          var cost1 := k.desiredVelocity;
          var cost2 := 0.0;
          var leadId := k.leaderOf(id);
          if Present(leadId) && k.speedOf(id) > 0.0 {
            var tHeadway := Max(k.headwayOf(id) / k.speedOf(id), 0.0);
            cost2 := cost2 + Min((tHeadway - TMin) / TMin, 0.0);
          }
          reward := Max(Eta1 * cost1 + Eta2 * cost2, 0.0);
        }
        rewards := rewards[id := reward];
        assert ids[..i + 1] == ids[..i] + [id];
        i := i + 1;
      }
      assert ids[..i] == ids;
    }

    /** _apply_rl_actions: one acceleration command per agent, nothing else. */
    method ApplyRlActions(rlActions: Option<seq<AgentAction>>)
      modifies this`commands
      ensures commands == old(commands) + ApplyCommands(rlActions)
    {
      if rlActions.Some? && rlActions.value != [] {
        var acts := rlActions.value;
        var i := 0;
        while i < |acts|
          invariant 0 <= i <= |acts|
          invariant commands == old(commands) + AccelerationCommands(acts[..i])
        {
          commands := commands + [Accelerate(acts[i].id, acts[i].accel)];
          assert acts[..i + 1][..i] == acts[..i];
          i := i + 1;
        }
        assert acts[..i] == acts;
      }
    }

    /** additional_command: mark the present leader and follower of each RL vehicle. */
    method AdditionalCommand()
      modifies this`commands
      ensures commands == old(commands) + ObservedMarks(k, k.rlIds)
    {
      var ids := k.rlIds;
      var i := 0;
      while i < |ids|
        invariant 0 <= i <= |ids|
        invariant commands == old(commands) + ObservedMarks(k, ids[..i])
      {
        var id := ids[i];
        var leadId := k.leaderOf(id);
        if Present(leadId) {
          commands := commands + [SetObserved(leadId.value)];
        }
        var followId := k.followerOf(id);
        if Present(followId) {
          commands := commands + [SetObserved(followId.value)];
        }
        assert ids[..i + 1][..i] == ids[..i];
        i := i + 1;
      }
      assert ids[..i] == ids;
    }
  }
}
