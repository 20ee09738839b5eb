# Multi-agent traffic environments: a Dafny model

This project models the per-step logic of two multi-agent reinforcement-learning
environments for the Flow traffic framework:

- `BottleneckMultiAgentEnv` (`flow/envs/multiagent/bottleneck.py`). Each RL
  vehicle observes its x-position, its speed and the speed limit of its edge.
  These are followed by (label, distance, speed) triples for the vehicles ahead
  of it and behind it, taken from the per-lane leader and follower queries.
  Every RL vehicle gets the same outflow-based reward. Actions accelerate every
  agent, and they change lane only while the lane-change window is open. That
  window, `time_counter <= lane_change_duration + last_lc`, is the reverse of a
  cooldown: a lane change takes effect soon after the previous one and is
  ignored once the duration has elapsed.
- `MultiAgentHighwayPOEnv` (`flow/envs/multiagent/highway.py`). Each RL vehicle
  gets a five-value normalised observation of itself, its leader and its
  follower. The reward checks evaluation mode first, then failure, then applies
  a clipped cost with a time-headway penalty. Actions only accelerate, and
  `additional_command` marks each RL vehicle's leader and follower as observed.

The simulator behind `self.k.vehicle` and `self.k.network` is a read-only
`Kernel.Snapshot` record. It has per-vehicle getters, the zipped per-lane
neighbour lists, per-edge lane counts and speed limits, and the network's max
speed and length. The outflow rate and `desired_velocity` are opaque numbers.
Commands sent to the simulator (accelerate, change lane, mark as observed) are
appended to a `commands` log on each environment object.

Files:

- `kernel.dfy`: the snapshot, commands and errors.
- `env_params.dfy`: the parameter check both constructors run.
- `bottleneck.dfy` and `bottleneck_lemmas.dfy`: the bottleneck environment and
  its properties.
- `highway.dfy` and `highway_lemmas.dfy`: the highway environment and its
  properties.

What the bottleneck code does, as modelled:

- The lane filter `element[0] in range(lane-1, lane+1)` keeps neighbours in
  lanes `lane-1` and `lane` only.
- A neighbour entry whose lane is the simulator's error value -1001 becomes
  `(0, 1000, max_speed)`. This holds for the tailway block too: follower slots
  use the same substitute as leader slots, not a negative distance.
- The trailing pad is added only when `lane + 1 > num_lanes(edge)`.
- As a result, the observation length depends on the lane and on the
  neighbour lists, so it cannot always be the declared
  `4 * MAX_LANES * scaling + 4` (`BottleneckProofs.LengthDependsOnLane`). When
  scaling mod 3 is not 2 it is never the declared length
  (`BottleneckProofs.DeclaredSizeMismatch`). When scaling mod 3 is 2, some lane
  and neighbour lists do give exactly the declared length.
- The declared box bounds [0, 1] are not met either (`BottleneckProofs.LaneZeroPads`).

## Model

| member | source | states |
|---|---|---|
| `EnvParams.CheckParams` | flow/envs/multiagent/bottleneck.py:65-68 | the required-key loop (the same loop is in highway.py:61-64): no error exactly when every required key is supplied; otherwise a KeyError naming a missing key, with every earlier key present |
| `EnvParams.BottleneckRequiredIff` | flow/envs/multiagent/bottleneck.py:33-38 | the bottleneck's required keys are all supplied exactly when "target_velocity" is |
| `EnvParams.HighwayRequiredIff` | flow/envs/multiagent/highway.py:8-15 | the highway's required keys are all supplied exactly when "max_accel", "max_decel" and "target_velocity" are |
| `Bottleneck.BottleneckMultiAgentEnv.Create` | flow/envs/multiagent/bottleneck.py:63-77 | construction fails with KeyError("target_velocity") exactly when that key is missing; otherwise a fresh environment with an empty command log |
| `Bottleneck.BottleneckMultiAgentEnv.constructor` | flow/envs/multiagent/bottleneck.py:70-77 | after the check: stores the parameters and snapshot, and records the network max speed |
| `Bottleneck.BottleneckMultiAgentEnv.ObservationSpace` | flow/envs/multiagent/bottleneck.py:79-84 | a box of length 4 * MAX_LANES * scaling + 4 with every bound 0 below and 1 above |
| `Bottleneck.BottleneckMultiAgentEnv.ActionSpace` | flow/envs/multiagent/bottleneck.py:255-264 | KeyError for a missing "max_decel" (checked first) or "max_accel"; otherwise a 2-dimensional box whose acceleration range is [-abs(max_decel), max_accel] and whose lane-change range is [-1, 1] |
| `Bottleneck.Label` | flow/envs/multiagent/bottleneck.py:89-94 | a label is always one of 0, 1, 2 |
| `BottleneckProofs.ContainsAt` | flow/envs/multiagent/bottleneck.py:90-92 | the substring test used by get_label holds exactly when the pattern occurs at some position of the id |
| `BottleneckProofs.EmptyIdLabel` | flow/envs/multiagent/bottleneck.py:89-94 | the empty id (no neighbour) is labelled 0 |
| `BottleneckProofs.RlIdLabel` | flow/envs/multiagent/bottleneck.py:90-91 | any id in which "rl" occurs at some position is labelled 2, whatever else it contains; in particular "rl_" + n and n + "rl" |
| `BottleneckProofs.RlAffixLabel` | flow/envs/multiagent/bottleneck.py:90-91 | the RL naming forms "rl_" + n and n + "rl" are labelled 2 for every n |
| `BottleneckProofs.HumanIdLabel` | flow/envs/multiagent/bottleneck.py:90-93 | "human_" + n is labelled 1 unless n contains "rl", in which case "rl" wins with 2 |
| `Bottleneck.ExtendNeighbours` | flow/envs/multiagent/bottleneck.py:142-147 | the loop over a zipped lane list appends exactly the contributions of its entries, in list order |
| `Bottleneck.ExtendBlock` | flow/envs/multiagent/bottleneck.py:120-151 | one block is appended: the leading pad when lane - 1 < 0, the neighbour loop, and the trailing pad when lane + 1 > num_lanes |
| `Bottleneck.BottleneckMultiAgentEnv.VehicleObservation` | flow/envs/multiagent/bottleneck.py:105-211 | one RL vehicle's observation is its self representation, then its headway block, then its tailway block |
| `Bottleneck.BottleneckMultiAgentEnv.GetState` | flow/envs/multiagent/bottleneck.py:96-215 | one observation for each current RL id and no other key, each the vehicle's observation |
| `BottleneckProofs.SingleEntry` | flow/envs/multiagent/bottleneck.py:142-147 | an entry in lane lane-1 or lane gives (label, distance, speed); an entry in lane -1001 gives (0, 1000, max_speed); any other lane gives nothing |
| `BottleneckProofs.NeighbourPartAppend` | flow/envs/multiagent/bottleneck.py:142-147 | lane-list order is kept: the contributions of a concatenated list are the concatenated contributions |
| `BottleneckProofs.NeighbourPartLength` | flow/envs/multiagent/bottleneck.py:142-147 | every kept entry contributes exactly 3 values and every other entry contributes none |
| `BottleneckProofs.NoNeighboursPart` | flow/envs/multiagent/bottleneck.py:145-147 | with no vehicle in any listed lane and a valid own lane, every entry becomes the (0, 1000, max_speed) triple |
| `BottleneckProofs.BlockShape` | flow/envs/multiagent/bottleneck.py:120-151 | a block holds 3 values per pad and per kept entry; it starts with (-1,-1,-1) when lane < 1 and ends with it when lane + 1 > num_lanes; between those bounds it has no pads |
| `BottleneckProofs.ObservationShape` | flow/envs/multiagent/bottleneck.py:111-202 | an observation starts with [x, speed, speed limit of its edge], then the headway block, then the tailway block; its length is 3 + 3k |
| `BottleneckProofs.LaneZeroPads` | flow/envs/multiagent/bottleneck.py:122-160 | in lane 0 both the headway and the tailway block begin with (-1,-1,-1), so a value lies below the declared lower bound 0 |
| `BottleneckProofs.DeclaredSizeMismatch` | flow/envs/multiagent/bottleneck.py:82-84 | unless scaling mod 3 is 2, no observation has the declared length |
| `BottleneckProofs.LengthDependsOnLane` | flow/envs/multiagent/bottleneck.py:120-187 | with no neighbours on the same edge, a vehicle in lane 0 gets 6 more values than one in lane 1 |
| `Bottleneck.BottleneckMultiAgentEnv.ComputeReward` | flow/envs/multiagent/bottleneck.py:241-253 | every current RL id gets outflow / (2000 * scaling), whatever the actions and the fail flag |
| `BottleneckProofs.RewardNormalised` | flow/envs/multiagent/bottleneck.py:241-244 | an outflow in [0, 2000 * scaling] gives a reward in [0, 1] |
| `Bottleneck.RoundHalfEven` | flow/envs/multiagent/bottleneck.py:283 | Python's round: the result is within 1/2 of the input, and a tie goes to the even integer |
| `Bottleneck.LaneChangeDirection` | flow/envs/multiagent/bottleneck.py:283 | the clamped rounded direction lies in {-1, 0, 1}: it is 1 exactly above 0.5, -1 exactly below -0.5, and 0 on [-0.5, 0.5] with both ties included |
| `Bottleneck.BottleneckMultiAgentEnv.ApplyRlActions` | flow/envs/multiagent/bottleneck.py:266-284 | the log grows by exactly the commands of ApplyOutcome, and the error returned is that outcome's error |
| `BottleneckProofs.NoActionsNoCommands` | flow/envs/multiagent/bottleneck.py:272-273 | None and the empty action dictionary issue no command and raise nothing |
| `BottleneckProofs.OneAccelerationPerAgent` | flow/envs/multiagent/bottleneck.py:274-278 | the acceleration commands are one per agent, in dictionary order, each with the action's first value |
| `BottleneckProofs.LaneChangesExactlyInWindow` | flow/envs/multiagent/bottleneck.py:280-284 | a lane change is issued for an agent exactly when time_counter <= lane_change_duration + last_lc, with direction in [-1, 1] as LaneChangeDirection gives |
| `BottleneckProofs.MissingDurationAfterFirstAcceleration` | flow/envs/multiagent/bottleneck.py:278-281 | with actions present and no "lane_change_duration", exactly the first agent's acceleration is issued before the KeyError |
| `BottleneckProofs.DirectionsWithinActionSpace` | flow/envs/multiagent/bottleneck.py:261-284 | every issued lane-change direction lies within the action space's lane-change bounds |
| `Highway.MultiAgentHighwayPOEnv.Create` | flow/envs/multiagent/highway.py:60-66 | construction fails exactly when max_accel, max_decel or target_velocity is missing, naming the first missing one in that order |
| `Highway.MultiAgentHighwayPOEnv.constructor` | flow/envs/multiagent/highway.py:66 | after the check: the environment holds the three keys and has an empty command log |
| `Highway.MultiAgentHighwayPOEnv.ObservationSpace` | flow/envs/multiagent/highway.py:68-71 | a [0, 1] box of shape (5,) |
| `Highway.MultiAgentHighwayPOEnv.ActionSpace` | flow/envs/multiagent/highway.py:73-80 | a 1-dimensional box from -abs(max_decel) (never positive) to max_accel |
| `Highway.MultiAgentHighwayPOEnv.GetState` | flow/envs/multiagent/highway.py:97-136 | one entry per current RL id and no other key, each the five-value observation |
| `HighwayProofs.ObservationFitsShape` | flow/envs/multiagent/highway.py:126-132 | every observation has exactly the 5 entries the observation space declares |
| `HighwayProofs.MissingLeader` | flow/envs/multiagent/highway.py:110-113 | a missing leader ("" or None) gives entry 2 = 1 and entry 1 = (max_speed - speed) / max_speed |
| `HighwayProofs.MissingFollower` | flow/envs/multiagent/highway.py:118-121 | a missing follower gives entry 4 = 1 and entry 3 equal to entry 0 (follower speed 0) |
| `HighwayProofs.PresentLeader` | flow/envs/multiagent/highway.py:114-116 | with a visible leader, entries 0 and 1 add up to the leader's normalised speed, and entry 2 is the leader's own headway over the network length |
| `Highway.MultiAgentHighwayPOEnv.ComputeReward` | flow/envs/multiagent/highway.py:138-174 | None gives the empty mapping; any dictionary, even an empty one, gives every current RL id its AgentReward |
| `HighwayProofs.EvaluateBeforeFail` | flow/envs/multiagent/highway.py:146-148 | in evaluation mode the reward is the vehicle's speed, failure or not |
| `HighwayProofs.FailGivesZero` | flow/envs/multiagent/highway.py:149-151 | outside evaluation mode a failure gives reward 0 |
| `HighwayProofs.HeadwayCostBounds` | flow/envs/multiagent/highway.py:157-166 | the headway cost lies in [-1, 0]; it is 0 with no leader or speed <= 0; with both present it is 0 exactly when headway >= speed |
| `HighwayProofs.NormalRewardBounds` | flow/envs/multiagent/highway.py:153-171 | outside evaluation mode the reward is never negative; without failure it lies between max(desired velocity, 0) - 0.1 and max(desired velocity, 0), and equals the upper end with no leader or no positive speed |
| `HighwayProofs.SafeHeadwayNoPenalty` | flow/envs/multiagent/highway.py:160-171 | a time headway of at least t_min earns exactly max(desired velocity, 0) |
| `Highway.MultiAgentHighwayPOEnv.ApplyRlActions` | flow/envs/multiagent/highway.py:82-94 | the log grows by one acceleration command per agent, in dictionary order, and by nothing for None |
| `HighwayProofs.OnlyAccelerations` | flow/envs/multiagent/highway.py:85-94 | exactly one command per agent, the i-th being the acceleration of the i-th agent, and no other kind of command |
| `HighwayProofs.NoActionsNoCommands` | flow/envs/multiagent/highway.py:84-85 | None and the empty action dictionary issue nothing |
| `Highway.MultiAgentHighwayPOEnv.AdditionalCommand` | flow/envs/multiagent/highway.py:176-190 | the log grows by the observed-marks of the current RL ids, in order |
| `HighwayProofs.MarksExactlyPresentNeighbours` | flow/envs/multiagent/highway.py:182-190 | only non-empty ids are marked, and a vehicle is marked exactly when it is the present leader or follower of some RL vehicle |

## Left out

- The simulator itself is not modelled. This covers how the kernel computes
  leaders, followers, headways, tailways, lanes and the -1001 error lane, as
  well as `get_outflow_rate` and `rewards.desired_velocity`. All of these are
  fields of the snapshot.
- The base classes `MultiEnv` and `BottleneckEnv` (`super().__init__`, `step`,
  advancing `time_counter`) are not part of this model.
- Gym `Box` objects and numpy arrays are left out. A box is a pair of bound
  sequences, and observations are sequences of reals.
- Floating point is left out: `float32`/`float64` rounding and IEEE special
  values become exact `real` arithmetic.
- Division by zero is excluded by type. The network max speed and length are
  positive reals, and `scaling` is a positive integer.
- Every `print` call and all commented-out code are left out. This includes the
  highway's softmax lane change and the bottleneck's old reward and
  `additional_command` variants.
- `rl_id_list`, the deep copy of the initial RL ids made at construction, is
  not modelled: nothing in the modelled operations reads it.
- `get_key` is not modelled: it is never called.
- An action is a typed record: (acceleration, direction) for the bottleneck
  and (acceleration) for the highway. The IndexError that a shorter action
  vector would raise is not modelled, and neither are dictionary key uniqueness
  or the `str(rl_id)` conversion.
- The `fail` keyword argument is a boolean parameter. The KeyError raised when
  it is absent is not modelled.
