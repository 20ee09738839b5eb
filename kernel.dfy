/**
 * The simulator kernel as seen from the multi-agent environments: a read-only
 * snapshot of the current simulation step (what `k.vehicle` and `k.network`
 * answer), the commands an environment sends back, and the error it raises.
 */
module Kernel {

  datatype Option<+T> = None | Some(value: T)

  /** The only exception the modelled code raises: a missing parameter. */
  datatype Error = KeyError(key: string)

  datatype Result<+T> = Ok(value: T) | Err(error: Error)

  /** Strictly positive reals: the normalising constants the code divides by. */
  type PosReal = r: real | r > 0.0 witness 1.0

  /** Strictly positive integers (the network's `scaling` factor). */
  type Pos = n: int | n > 0 witness 1

  /**
   * One entry of a per-lane neighbour query, already zipped as the code zips it:
   * the neighbour's id ("" when the lane holds no such vehicle), the head- or
   * tailway to it, its speed, and its lane as `get_lane` reports it (the
   * simulator's error value -1001 when the id names no vehicle).
   */
  datatype Neighbour = Neighbour(id: string, dist: real, speed: real, lane: int)

  /** The simulator's lane value for a vehicle it does not know. */
  const NoVehicleLane: int := -1001

  /**
   * One simulation step's worth of answers from the vehicle and network
   * kernels. Per-vehicle and per-edge getters are total functions; what they
   * return for ids the simulator does not know is the simulator's business.
   */
  datatype Snapshot = Snapshot(
    rlIds: seq<string>,                    // get_rl_ids()
    edgeOf: string -> string,              // get_edge(veh)
    laneOf: string -> int,                 // get_lane(veh)
    xOf: string -> real,                   // get_x_by_id(veh)
    speedOf: string -> real,               // get_speed(veh)
    headwayOf: string -> real,             // get_headway(veh)
    lastLcOf: string -> real,              // get_last_lc(veh)
    leaderOf: string -> Option<string>,    // get_leader(veh), None or "" when absent
    followerOf: string -> Option<string>,  // get_follower(veh), None or "" when absent
    laneLeaders: string -> seq<Neighbour>, // lane leaders, headways, speeds and lanes
    laneFollowers: string -> seq<Neighbour>, // lane followers, tailways, speeds and lanes
    numLanesOf: string -> int,             // network.num_lanes(edge)
    speedLimitOf: string -> real,          // network.speed_limit(edge)
    maxSpeed: PosReal,                     // network.max_speed()
    length: PosReal,                       // network.length()
    outflowRate: real,                     // get_outflow_rate(10 * sim_step)
    desiredVelocity: real                  // rewards.desired_velocity(env, fail)
  )

  /** Commands sent to the simulator, recorded in the order they are issued. */
  datatype Command =
    | Accelerate(vehicle: string, accel: real)
    | ChangeLane(vehicle: string, direction: int)
    | SetObserved(vehicle: string)

  /**
   * A neighbour id is usable exactly when it is neither None nor "" — Python's
   * truthiness of a query result, and the negation of `id in ["", None]`.
   */
  predicate Present(id: Option<string>) {
    id.Some? && id.value != ""
  }

  /** A continuous box space: per-dimension lower and upper bounds. */
  datatype Box = Box(low: seq<real>, high: seq<real>)

  function Abs(x: real): (r: real)
    ensures r >= 0.0 && (r == x || r == -x)
  {
    if x < 0.0 then -x else x
  }

  function Max(a: real, b: real): (r: real)
    ensures r >= a && r >= b && (r == a || r == b)
  {
    if a >= b then a else b
  }

  function Min(a: real, b: real): (r: real)
    ensures r <= a && r <= b && (r == a || r == b)
  {
    if a <= b then a else b
  }
}
