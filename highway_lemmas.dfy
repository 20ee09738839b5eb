/**
 * Properties of the highway environment's observations, rewards, actions and
 * observed-vehicle marks.
 */
module HighwayProofs {
  import opened Kernel
  import opened Highway

  // ---------------------------------------------------------------------
  // Observations
  // ---------------------------------------------------------------------

  /** Every observation has the five entries the observation space declares. */
  lemma ObservationFitsShape(env: MultiAgentHighwayPOEnv, id: string)
    ensures |Observation(env.k, id)| == |env.ObservationSpace().low| == 5
  {
  }

  /**
   * A missing leader ("" or None) counts as a vehicle at max speed one
   * network length ahead: entry 2 is exactly 1 and entry 1 is
   * (max_speed - speed) / max_speed.
   */
  lemma MissingLeader(k: Snapshot, id: string)
    requires !Present(k.leaderOf(id))
    ensures Observation(k, id)[1] == (k.maxSpeed - k.speedOf(id)) / k.maxSpeed
    ensures Observation(k, id)[2] == 1.0
    ensures Observation(k, id)[0] + Observation(k, id)[1] == 1.0
  {
    var m: real := k.maxSpeed;
    var s := k.speedOf(id);
    assert s / m + (m - s) / m == (s + (m - s)) / m;
  }

  /**
   * A missing follower counts as a stopped vehicle one network length behind:
   * entry 3 equals entry 0 and entry 4 is exactly 1.
   */
  lemma MissingFollower(k: Snapshot, id: string)
    requires !Present(k.followerOf(id))
    ensures Observation(k, id)[3] == Observation(k, id)[0]
    ensures Observation(k, id)[4] == 1.0
  {
    var l: real := k.length;
    assert l / l == 1.0;
  }

  /** With a visible leader, entry 1 relates the leader's speed to the vehicle's own. */
  lemma PresentLeader(k: Snapshot, id: string)
    requires Present(k.leaderOf(id))
    ensures Observation(k, id)[0] + Observation(k, id)[1] == k.speedOf(k.leaderOf(id).value) / k.maxSpeed
    ensures Observation(k, id)[2] == k.headwayOf(k.leaderOf(id).value) / k.length
  {
    var m: real := k.maxSpeed;
    var s := k.speedOf(id);
    var l := k.speedOf(k.leaderOf(id).value);
    assert s / m + (l - s) / m == (s + (l - s)) / m;
  }

  // ---------------------------------------------------------------------
  // Reward
  // ---------------------------------------------------------------------

  /**
   * The headway penalty is never positive and never below -1; it is 0 without
   * a visible leader or without positive speed, and with both it is 0 exactly
   * when the time headway is at least t_min (headway >= speed).
   */
  lemma HeadwayCostBounds(k: Snapshot, id: string)
    ensures -1.0 <= HeadwayCost(k, id) <= 0.0
    ensures !Present(k.leaderOf(id)) || k.speedOf(id) <= 0.0 ==> HeadwayCost(k, id) == 0.0
    ensures Present(k.leaderOf(id)) && k.speedOf(id) > 0.0 ==>
      (HeadwayCost(k, id) == 0.0 <==> k.headwayOf(id) >= k.speedOf(id))
  {
    var s := k.speedOf(id);
    if Present(k.leaderOf(id)) && s > 0.0 {
      var h := k.headwayOf(id);
      var t := Max(h / s, 0.0);
      assert (h / s) * s == h;
      if h >= s {
        assert h / s >= 1.0;
      } else {
        assert h / s < 1.0;
      }
      assert HeadwayCost(k, id) == Min(t - 1.0, 0.0);
    }
  }

  /** In evaluation mode the reward is the vehicle's speed, failure or not. */
  lemma EvaluateBeforeFail(k: Snapshot, fail: bool, id: string)
    ensures AgentReward(k, true, fail, id) == k.speedOf(id)
  {
  }

  /** Outside evaluation mode a failure gives every RL vehicle reward 0. */
  lemma FailGivesZero(k: Snapshot, id: string)
    ensures AgentReward(k, false, true, id) == 0.0
  {
  }

  /**
   * Outside evaluation mode the reward is never negative, never above the
   * clipped system-level term, and at most 0.1 below it.
   */
  lemma NormalRewardBounds(k: Snapshot, fail: bool, id: string)
    ensures AgentReward(k, false, fail, id) >= 0.0
    ensures !fail ==> AgentReward(k, false, fail, id) <= Max(k.desiredVelocity, 0.0)
    ensures !fail ==> AgentReward(k, false, fail, id) >= Max(k.desiredVelocity, 0.0) - 0.1
    ensures !fail && (!Present(k.leaderOf(id)) || k.speedOf(id) <= 0.0) ==>
      AgentReward(k, false, fail, id) == Max(k.desiredVelocity, 0.0)
  {
    HeadwayCostBounds(k, id);
  }

  /** A vehicle whose time headway is at least t_min (headway >= speed) pays no penalty in a collision-free step. */
  lemma SafeHeadwayNoPenalty(k: Snapshot, id: string)
    requires k.headwayOf(id) >= k.speedOf(id)
    ensures AgentReward(k, false, false, id) == Max(k.desiredVelocity, 0.0)
  {
    HeadwayCostBounds(k, id);
  }

  // ---------------------------------------------------------------------
  // Actions and observed vehicles
  // ---------------------------------------------------------------------

  /** Applying actions issues exactly one acceleration per agent, in order, and no other command. */
  lemma {:induction false} OnlyAccelerations(acts: seq<AgentAction>)
    ensures |AccelerationCommands(acts)| == |acts|
    ensures forall i :: 0 <= i < |acts| ==>
      AccelerationCommands(acts)[i] == Accelerate(acts[i].id, acts[i].accel)
    decreases |acts|
  {
    if acts != [] {
      var front := acts[..|acts| - 1];
      OnlyAccelerations(front);
      forall i | 0 <= i < |acts|
        ensures AccelerationCommands(acts)[i] == Accelerate(acts[i].id, acts[i].accel)
      {
        if i < |front| {
          assert AccelerationCommands(acts)[i] == AccelerationCommands(front)[i];
        }
      }
    }
  }

  /** None and the empty dictionary issue nothing. */
  lemma NoActionsNoCommands()
    ensures ApplyCommands(None) == []
    ensures ApplyCommands(Some([])) == []
  {
  }

  /**
   * Only non-empty ids are marked as observed, and they are exactly the
   * present leaders and followers of the listed RL vehicles.
   */
  lemma {:induction false} MarksExactlyPresentNeighbours(k: Snapshot, ids: seq<string>)
    ensures forall c :: c in ObservedMarks(k, ids) ==> c.SetObserved? && c.vehicle != ""
    ensures forall v :: SetObserved(v) in ObservedMarks(k, ids) <==>
      exists i :: 0 <= i < |ids| &&
        ((Present(k.leaderOf(ids[i])) && k.leaderOf(ids[i]).value == v) ||
         (Present(k.followerOf(ids[i])) && k.followerOf(ids[i]).value == v))
    decreases |ids|
  {
    if ids != [] {
      var front := ids[..|ids| - 1];
      var last := ids[|ids| - 1];
      MarksExactlyPresentNeighbours(k, front);
      forall v
        ensures SetObserved(v) in ObservedMarks(k, ids) <==>
          exists i :: 0 <= i < |ids| &&
            ((Present(k.leaderOf(ids[i])) && k.leaderOf(ids[i]).value == v) ||
             (Present(k.followerOf(ids[i])) && k.followerOf(ids[i]).value == v))
      {
        if SetObserved(v) in ObservedMarks(k, front) {
          var i :| 0 <= i < |front| &&
            ((Present(k.leaderOf(front[i])) && k.leaderOf(front[i]).value == v) ||
             (Present(k.followerOf(front[i])) && k.followerOf(front[i]).value == v));
          assert front[i] == ids[i];
        }
        if exists i :: 0 <= i < |ids| &&
            ((Present(k.leaderOf(ids[i])) && k.leaderOf(ids[i]).value == v) ||
             (Present(k.followerOf(ids[i])) && k.followerOf(ids[i]).value == v))
        {
          var i :| 0 <= i < |ids| &&
            ((Present(k.leaderOf(ids[i])) && k.leaderOf(ids[i]).value == v) ||
             (Present(k.followerOf(ids[i])) && k.followerOf(ids[i]).value == v));
          if i < |front| {
            assert ids[i] == front[i];
          }
        }
      }
    }
  }
}
