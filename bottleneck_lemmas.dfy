/**
 * Properties of the bottleneck environment's labels, observations, reward
 * and action handling.
 */
module BottleneckProofs {
  import opened Kernel
  import opened Bottleneck

  // ---------------------------------------------------------------------
  // Labels
  // ---------------------------------------------------------------------

  /** `sub` occurs in `s` at position `i`. */
  predicate OccursAt(s: string, sub: string, i: int) {
    0 <= i <= |s| - |sub| && s[i..i + |sub|] == sub
  }

  lemma OccursShift(s: string, sub: string, i: int)
    requires |s| > 0 && i >= 0
    ensures OccursAt(s, sub, i + 1) <==> OccursAt(s[1..], sub, i)
  {
    if 0 <= i <= |s[1..]| - |sub| {
      var t := s[1..];
      var a := s[i + 1..i + 1 + |sub|];
      var b := t[i..i + |sub|];
      assert |a| == |b|;
      forall j | 0 <= j < |sub|
        ensures a[j] == b[j]
      {
        assert a[j] == s[i + 1 + j];
        assert b[j] == t[i + j] == s[i + 1 + j];
      }
      assert a == b;
    }
  }

  /** `Contains` agrees with "occurs at some position". */
  lemma {:induction false} ContainsAt(s: string, sub: string)
    ensures Contains(s, sub) <==> exists i :: OccursAt(s, sub, i)
    decreases |s|
  {
    if IsPrefix(sub, s) {
      assert OccursAt(s, sub, 0);
    } else if |s| > 0 {
      assert !OccursAt(s, sub, 0);
      ContainsAt(s[1..], sub);
      if Contains(s[1..], sub) {
        var i :| OccursAt(s[1..], sub, i);
        OccursShift(s, sub, i);
      } else {
        forall i | 1 <= i
          ensures !OccursAt(s, sub, i)
        {
          OccursShift(s, sub, i - 1);
        }
      }
    } else {
      assert sub != "" by {
        assert s[..0] == "";
      }
    }
  }

  /** The empty id has label 0. */
  lemma EmptyIdLabel()
    ensures Label("") == 0.0
  {
    ContainsAt("", "rl");
    ContainsAt("", "human");
  }

  /** Any id in which "rl" occurs, at any position, has label 2, whatever else it contains. */
  lemma RlIdLabel(id: string, i: int)
    requires OccursAt(id, "rl", i)
    ensures Label(id) == 2.0
  {
    ContainsAt(id, "rl");
  }

  /** In particular "rl_" + n and n + "rl" are labelled 2. */
  lemma RlAffixLabel(n: string)
    ensures Label("rl_" + n) == 2.0
    ensures Label(n + "rl") == 2.0
  {
    RlIdLabel("rl_" + n, 0);
    RlIdLabel(n + "rl", |n|);
  }

  /** A prefix without an 'r' cannot create or hide an occurrence of "rl". */
  lemma RlAfterPrefix(p: string, n: string)
    requires forall j :: 0 <= j < |p| ==> p[j] != 'r'
    ensures Contains(p + n, "rl") <==> Contains(n, "rl")
  {
    var h := p + n;
    ContainsAt(h, "rl");
    ContainsAt(n, "rl");
    if Contains(n, "rl") {
      var i :| OccursAt(n, "rl", i);
      assert h[|p| + i..|p| + i + 2] == n[i..i + 2];
      assert OccursAt(h, "rl", |p| + i);
    } else {
      forall i | 0 <= i <= |h| - 2
        ensures !OccursAt(h, "rl", i)
      {
        if i < |p| {
          assert h[i..i + 2][0] == h[i] == p[i];
        } else {
          assert h[i..i + 2] == n[i - |p|..i - |p| + 2];
          assert !OccursAt(n, "rl", i - |p|);
        }
      }
    }
  }

  /** "human_" + n is labelled 1 unless n itself contains "rl". */
  lemma HumanIdLabel(n: string)
    ensures Label("human_" + n) == (if Contains(n, "rl") then 2.0 else 1.0)
  {
    var h := "human_" + n;
    assert OccursAt(h, "human", 0);
    ContainsAt(h, "human");
    RlAfterPrefix("human_", n);
  }

  // ---------------------------------------------------------------------
  // The neighbour part
  // ---------------------------------------------------------------------

  /** Entries that contribute a triple: lane lane-1, lane, or the no-vehicle lane. */
  predicate Kept(n: Neighbour, lane: int) {
    n.lane == lane - 1 || n.lane == lane || n.lane == NoVehicleLane
  }

  /** How many entries of a lane list contribute, counted from the front. */
  function KeptCount(entries: seq<Neighbour>, lane: int): nat
    decreases |entries|
  {
    if entries == [] then 0
    else (if Kept(entries[0], lane) then 1 else 0) + KeptCount(entries[1..], lane)
  }

  /**
   * A single entry contributes its (label, distance, speed) when its lane is
   * lane - 1 or lane, the no-vehicle triple (0, 1000, max speed) when its lane
   * is -1001, and nothing for any other lane.
   */
  lemma SingleEntry(n: Neighbour, lane: int, maxSpeed: real)
    ensures n.lane == lane - 1 || n.lane == lane ==>
      NeighbourPart([n], lane, maxSpeed) == [Label(n.id), n.dist, n.speed]
    ensures n.lane != lane - 1 && n.lane != lane && n.lane == -1001 ==>
      NeighbourPart([n], lane, maxSpeed) == [0.0, 1000.0, maxSpeed]
    ensures !Kept(n, lane) ==> NeighbourPart([n], lane, maxSpeed) == []
  {
    assert [n][..0] == [];
  }

  /** Lane-list order is kept: the part of a concatenation is the concatenation of the parts. */
  lemma {:induction false} NeighbourPartAppend(a: seq<Neighbour>, b: seq<Neighbour>, lane: int, maxSpeed: real)
    ensures NeighbourPart(a + b, lane, maxSpeed) == NeighbourPart(a, lane, maxSpeed) + NeighbourPart(b, lane, maxSpeed)
    decreases |b|
  {
    if b == [] {
      assert a + b == a;
    } else {
      var b' := b[..|b| - 1];
      assert (a + b)[..|a + b| - 1] == a + b';
      assert (a + b)[|a + b| - 1] == b[|b| - 1];
      NeighbourPartAppend(a, b', lane, maxSpeed);
    }
  }

  /** Every contributing entry adds exactly three values and the others none. */
  lemma {:induction false} NeighbourPartLength(entries: seq<Neighbour>, lane: int, maxSpeed: real)
    ensures |NeighbourPart(entries, lane, maxSpeed)| == 3 * KeptCount(entries, lane)
    decreases |entries|
  {
    if entries != [] {
      assert entries == [entries[0]] + entries[1..];
      NeighbourPartAppend([entries[0]], entries[1..], lane, maxSpeed);
      SingleEntry(entries[0], lane, maxSpeed);
      NeighbourPartLength(entries[1..], lane, maxSpeed);
    }
  }

  /**
   * With no vehicle in any listed lane (every entry reports lane -1001) and a
   * valid own lane, every entry becomes the no-vehicle triple.
   */
  lemma {:induction false} NoNeighboursPart(entries: seq<Neighbour>, lane: int, maxSpeed: real)
    requires lane >= 0
    requires forall i :: 0 <= i < |entries| ==> entries[i].lane == NoVehicleLane
    ensures |NeighbourPart(entries, lane, maxSpeed)| == 3 * |entries|
    ensures forall j :: 0 <= j < |entries| ==>
      NeighbourPart(entries, lane, maxSpeed)[3 * j..3 * j + 3] == [0.0, 1000.0, maxSpeed]
    decreases |entries|
  {
    if entries != [] {
      var front := entries[..|entries| - 1];
      NoNeighboursPart(front, lane, maxSpeed);
      var p := NeighbourPart(front, lane, maxSpeed);
      var whole := NeighbourPart(entries, lane, maxSpeed);
      assert whole == p + NoVehicle(maxSpeed);
      forall j | 0 <= j < |entries|
        ensures whole[3 * j..3 * j + 3] == [0.0, 1000.0, maxSpeed]
      {
        if j < |front| {
          assert whole[3 * j..3 * j + 3] == p[3 * j..3 * j + 3];
        } else {
          assert whole[3 * j..3 * j + 3] == NoVehicle(maxSpeed);
        }
      }
    }
  }

  // ---------------------------------------------------------------------
  // Blocks and observations
  // ---------------------------------------------------------------------

  /** Number of pads a block carries: one below lane 0, one when lane + 1 > lanes. */
  function Pads(lane: int, numLanes: int): nat {
    (if lane - 1 < 0 then 1 else 0) + (if lane + 1 > numLanes then 1 else 0)
  }

  /**
   * A block is a whole number of triples; it begins with the pad exactly when
   * lane - 1 < 0 (first triple) and ends with a pad when lane + 1 > num_lanes.
   */
  lemma BlockShape(lane: int, numLanes: int, entries: seq<Neighbour>, maxSpeed: real)
    ensures |Block(lane, numLanes, entries, maxSpeed)| ==
      3 * (Pads(lane, numLanes) + KeptCount(entries, lane))
    ensures lane < 1 ==> Block(lane, numLanes, entries, maxSpeed)[..3] == [-1.0, -1.0, -1.0]
    ensures lane + 1 > numLanes ==>
      var b := Block(lane, numLanes, entries, maxSpeed);
      b[|b| - 3..] == [-1.0, -1.0, -1.0]
    ensures lane >= 1 && lane + 1 <= numLanes ==>
      Block(lane, numLanes, entries, maxSpeed) == NeighbourPart(entries, lane, maxSpeed)
  {
    NeighbourPartLength(entries, lane, maxSpeed);
  }

  /**
   * Each observation is [x, speed, speed limit of the edge] followed by the
   * headway block and then the tailway block, 3 + 3k values in all.
   */
  lemma ObservationShape(k: Snapshot, id: string)
    ensures Observation(k, id)[..3] == [k.xOf(id), k.speedOf(id), k.speedLimitOf(k.edgeOf(id))]
    ensures Observation(k, id)[3..3 + |HeadwayBlock(k, id)|] == HeadwayBlock(k, id)
    ensures Observation(k, id)[3 + |HeadwayBlock(k, id)|..] == TailwayBlock(k, id)
    ensures |Observation(k, id)| == 3 + 3 * (2 * Pads(k.laneOf(id), k.numLanesOf(k.edgeOf(id)))
      + KeptCount(k.laneLeaders(id), k.laneOf(id)) + KeptCount(k.laneFollowers(id), k.laneOf(id)))
    ensures |Observation(k, id)| % 3 == 0
  {
    var lane := k.laneOf(id);
    var n := k.numLanesOf(k.edgeOf(id));
    BlockShape(lane, n, k.laneLeaders(id), k.maxSpeed);
    BlockShape(lane, n, k.laneFollowers(id), k.maxSpeed);
    ThreeParts(SelfFeatures(k, id), HeadwayBlock(k, id), TailwayBlock(k, id));
  }

  /** The three parts of `a + b + c` can be sliced back out of it. */
  lemma ThreeParts(a: seq<real>, b: seq<real>, c: seq<real>)
    ensures (a + b + c)[..|a|] == a
    ensures (a + b + c)[|a|..|a| + |b|] == b
    ensures (a + b + c)[|a| + |b|..] == c
  {
  }

  /**
   * In lane 0 both the headway block and the tailway block begin with the
   * (-1, -1, -1) pad, so the observation has a value below the declared box.
   */
  lemma LaneZeroPads(k: Snapshot, id: string)
    requires k.laneOf(id) == 0
    ensures Observation(k, id)[3..6] == [-1.0, -1.0, -1.0]
    ensures var t := 3 + |HeadwayBlock(k, id)|;
      t + 3 <= |Observation(k, id)| && Observation(k, id)[t..t + 3] == [-1.0, -1.0, -1.0]
    ensures Observation(k, id)[3] < 0.0
  {
    var lane := k.laneOf(id);
    var n := k.numLanesOf(k.edgeOf(id));
    BlockShape(lane, n, k.laneLeaders(id), k.maxSpeed);
    BlockShape(lane, n, k.laneFollowers(id), k.maxSpeed);
    var sf := SelfFeatures(k, id);
    var h := HeadwayBlock(k, id);
    var tb := TailwayBlock(k, id);
    assert Observation(k, id) == sf + (h + tb);
    SliceAfter(sf, h + tb, 3);
    assert (h + tb)[..3] == h[..3];
    assert Observation(k, id) == (sf + h) + tb;
    SliceAfter(sf + h, tb, 3);
  }

  /** The n values following a prefix `a` of `a + b` are the first n of `b`. */
  lemma SliceAfter(a: seq<real>, b: seq<real>, n: nat)
    requires n <= |b|
    ensures (a + b)[|a|..|a| + n] == b[..n]
  {
    var l := (a + b)[|a|..|a| + n];
    var r := b[..n];
    forall j | 0 <= j < n
      ensures l[j] == r[j]
    {
      assert l[j] == (a + b)[|a| + j];
    }
    assert l == r;
  }

  /**
   * The length is not the declared 4 * MAX_LANES * scaling + 4: a length of
   * the form 3 + 3k can equal it only when scaling leaves remainder 2 by 3.
   */
  lemma DeclaredSizeMismatch(k: Snapshot, id: string, scaling: Pos)
    requires scaling % 3 != 2
    ensures |Observation(k, id)| != DeclaredObservationSize(scaling)
  {
    ObservationShape(k, id);
    assert DeclaredObservationSize(scaling) == 3 * (5 * scaling + 1) + (scaling + 1);
  }

  /**
   * Two RL vehicles on the same edge that see no vehicle in any listed lane
   * get observations of different lengths when one is in lane 0 and the
   * other in lane 1: the length depends on the lane.
   */
  lemma LengthDependsOnLane(k: Snapshot, a: string, b: string)
    requires k.edgeOf(a) == k.edgeOf(b) && k.numLanesOf(k.edgeOf(a)) >= 2
    requires k.laneOf(a) == 0 && k.laneOf(b) == 1
    requires k.laneLeaders(a) == k.laneLeaders(b) && k.laneFollowers(a) == k.laneFollowers(b)
    requires forall i :: 0 <= i < |k.laneLeaders(a)| ==> k.laneLeaders(a)[i].lane == NoVehicleLane
    requires forall i :: 0 <= i < |k.laneFollowers(a)| ==> k.laneFollowers(a)[i].lane == NoVehicleLane
    ensures |Observation(k, a)| == |Observation(k, b)| + 6
  {
    ObservationShape(k, a);
    ObservationShape(k, b);
    NoNeighboursPart(k.laneLeaders(a), 0, k.maxSpeed);
    NoNeighboursPart(k.laneFollowers(a), 0, k.maxSpeed);
    NoNeighboursPart(k.laneLeaders(a), 1, k.maxSpeed);
    NoNeighboursPart(k.laneFollowers(a), 1, k.maxSpeed);
    NeighbourPartLength(k.laneLeaders(a), 0, k.maxSpeed);
    NeighbourPartLength(k.laneFollowers(a), 0, k.maxSpeed);
    NeighbourPartLength(k.laneLeaders(a), 1, k.maxSpeed);
    NeighbourPartLength(k.laneFollowers(a), 1, k.maxSpeed);
  }

  // ---------------------------------------------------------------------
  // Reward
  // ---------------------------------------------------------------------

  /** The outflow reward lies in [0, 1] while the outflow is in [0, 2000 * scaling]. */
  lemma RewardNormalised(k: Snapshot, scaling: Pos)
    requires 0.0 <= k.outflowRate <= 2000.0 * scaling as real
    ensures 0.0 <= Reward(k, scaling) <= 1.0
  {
    var d := 2000.0 * scaling as real;
    assert Reward(k, scaling) * d == k.outflowRate;
  }

  // ---------------------------------------------------------------------
  // Actions
  // ---------------------------------------------------------------------

  /** The acceleration commands of a log, in order. */
  function Accelerations(cmds: seq<Command>): seq<Command>
    decreases |cmds|
  {
    if cmds == [] then []
    else Accelerations(cmds[..|cmds| - 1])
         + (if cmds[|cmds| - 1].Accelerate? then [cmds[|cmds| - 1]] else [])
  }

  /** One acceleration command per action, carrying that action's first value. */
  function AccelerationsFor(acts: seq<AgentAction>): seq<Command>
    decreases |acts|
  {
    if acts == [] then []
    else AccelerationsFor(acts[..|acts| - 1])
         + [Accelerate(acts[|acts| - 1].id, acts[|acts| - 1].accel)]
  }

  lemma {:induction false} AccelerationsAppend(a: seq<Command>, b: seq<Command>)
    ensures Accelerations(a + b) == Accelerations(a) + Accelerations(b)
    decreases |b|
  {
    if b == [] {
      assert a + b == a;
    } else {
      var b' := b[..|b| - 1];
      assert (a + b)[..|a + b| - 1] == a + b';
      assert (a + b)[|a + b| - 1] == b[|b| - 1];
      AccelerationsAppend(a, b');
    }
  }

  /** Every agent gets exactly one acceleration command, in dictionary order. */
  lemma {:induction false} OneAccelerationPerAgent(acts: seq<AgentAction>, timeCounter: int, duration: real, k: Snapshot)
    ensures Accelerations(AllCommands(acts, timeCounter, duration, k)) == AccelerationsFor(acts)
    decreases |acts|
  {
    if acts != [] {
      var a := acts[|acts| - 1];
      var front := acts[..|acts| - 1];
      var mine := AgentCommands(a, timeCounter, duration, k.lastLcOf(a.id));
      OneAccelerationPerAgent(front, timeCounter, duration, k);
      AccelerationsAppend(AllCommands(front, timeCounter, duration, k), mine);
      if LaneChangeAllowed(timeCounter, duration, k.lastLcOf(a.id)) {
        var lc := ChangeLane(a.id, LaneChangeDirection(a.direction));
        AccelerationsAppend([Accelerate(a.id, a.accel)], [lc]);
        assert [lc][..0] == [];
        assert [Accelerate(a.id, a.accel)][..0] == [];
      } else {
        assert [Accelerate(a.id, a.accel)][..0] == [];
      }
    }
  }

  /**
   * A lane change is issued for an agent exactly when its window is open,
   * always in the direction LaneChangeDirection gives, so within {-1, 0, 1}.
   */
  lemma {:induction false} LaneChangesExactlyInWindow(acts: seq<AgentAction>, timeCounter: int, duration: real, k: Snapshot)
    ensures forall c :: c in AllCommands(acts, timeCounter, duration, k) && c.ChangeLane? ==>
      -1 <= c.direction <= 1 &&
      exists a :: a in acts && a.id == c.vehicle && c.direction == LaneChangeDirection(a.direction) &&
        LaneChangeAllowed(timeCounter, duration, k.lastLcOf(a.id))
    ensures forall a :: a in acts && LaneChangeAllowed(timeCounter, duration, k.lastLcOf(a.id)) ==>
      ChangeLane(a.id, LaneChangeDirection(a.direction)) in AllCommands(acts, timeCounter, duration, k)
    decreases |acts|
  {
    if acts != [] {
      var front := acts[..|acts| - 1];
      var last := acts[|acts| - 1];
      LaneChangesExactlyInWindow(front, timeCounter, duration, k);
      assert acts == front + [last];
      var all := AllCommands(acts, timeCounter, duration, k);
      assert all == AllCommands(front, timeCounter, duration, k)
        + AgentCommands(last, timeCounter, duration, k.lastLcOf(last.id));
      forall c | c in all && c.ChangeLane?
        ensures -1 <= c.direction <= 1 &&
          exists a :: a in acts && a.id == c.vehicle && c.direction == LaneChangeDirection(a.direction) &&
            LaneChangeAllowed(timeCounter, duration, k.lastLcOf(a.id))
      {
        if c !in AllCommands(front, timeCounter, duration, k) {
          assert c == ChangeLane(last.id, LaneChangeDirection(last.direction));
          assert last in acts;
        }
      }
    }
  }

  /** None and the empty dictionary issue nothing and raise nothing. */
  lemma NoActionsNoCommands(params: map<string, real>, timeCounter: int, k: Snapshot)
    ensures ApplyOutcome(None, params, timeCounter, k) == Applied([], None)
    ensures ApplyOutcome(Some([]), params, timeCounter, k) == Applied([], None)
  {
  }

  /**
   * With a non-empty action dictionary and no "lane_change_duration", the
   * KeyError comes after the first agent has been accelerated.
   */
  lemma MissingDurationAfterFirstAcceleration(acts: seq<AgentAction>, params: map<string, real>, timeCounter: int, k: Snapshot)
    requires acts != [] && "lane_change_duration" !in params
    ensures ApplyOutcome(Some(acts), params, timeCounter, k).issued == AccelerationsFor(acts[..1])
    ensures ApplyOutcome(Some(acts), params, timeCounter, k).error == Some(KeyError("lane_change_duration"))
  {
    assert acts[..1][..0] == [];
  }

  /** Every direction issued lies in the lane-change dimension of the action space. */
  lemma DirectionsWithinActionSpace(env: BottleneckMultiAgentEnv, acts: seq<AgentAction>)
    requires env.ActionSpace().Ok?
    requires "lane_change_duration" in env.params
    ensures forall c :: c in ApplyOutcome(Some(acts), env.params, env.timeCounter, env.k).issued && c.ChangeLane? ==>
      env.ActionSpace().value.low[1] <= c.direction as real <= env.ActionSpace().value.high[1]
  {
    LaneChangesExactlyInWindow(acts, env.timeCounter, env.params["lane_change_duration"], env.k);
  }
}
