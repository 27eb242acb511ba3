/** The CabDriver environment of a ride-hailing reinforcement-learning setup:
    a driver moves over m locations, 24 hours and 7 days; an action is a
    (pickup, drop) pair or the no-ride action (0, 0); the reward and the next
    state are read off a travel-time table indexed by origin, destination,
    hour and day. */
module Env {

  // ---------------------------------------------------------------------
  // Hyperparameters
  // ---------------------------------------------------------------------

  const M: nat := 5        // number of locations
  const T: nat := 24       // hours in a day
  const D: nat := 7        // days in a week
  const C: int := 5        // cost per hour of driving (or idling)
  const R: int := 9        // revenue per hour with a passenger
  const Horizon: nat := 720  // episode length in hours: 30 days

  // ---------------------------------------------------------------------
  // Data model
  // ---------------------------------------------------------------------

  /** (current location, hour of day, day of week) */
  datatype State = State(loc: nat, hour: nat, day: nat)

  /** (pickup location, drop location); Action(0, 0) means "no ride" */
  datatype Action = Action(pickup: nat, drop: nat)

  const NoRide: Action := Action(0, 0)

  predicate ValidState(s: State) {
    s.loc < M && s.hour < T && s.day < D
  }

  /** Both locations of the action index the travel-time table. */
  predicate InRange(a: Action) {
    a.pickup < M && a.drop < M
  }

  /** Travel hours, indexed [origin][destination][hour][day]. */
  type TimeMatrix = seq<seq<seq<seq<nat>>>>

  /** The table has the full m x m x t x d shape. */
  predicate Shaped(tm: TimeMatrix) {
    |tm| == M &&
    (forall o :: 0 <= o < M ==> |tm[o]| == M) &&
    (forall o, q :: 0 <= o < M && 0 <= q < M ==> |tm[o][q]| == T) &&
    (forall o, q, h :: 0 <= o < M && 0 <= q < M && 0 <= h < T ==> |tm[o][q][h]| == D)
  }

  function Lookup(tm: TimeMatrix, o: nat, q: nat, h: nat, dd: nat): nat
    requires Shaped(tm) && o < M && q < M && h < T && dd < D
  {
    tm[o][q][h][dd]
  }

  // ---------------------------------------------------------------------
  // Action space: every ordered pair (p, q) with p != q, p outer, q inner,
  // followed by the no-ride action. Row p of the double loop holds the
  // m - 1 locations other than p in increasing order, so ride i is
  // (i / (m - 1), the (i mod (m - 1))-th location other than i / (m - 1)).
  // Index arithmetic is written with the numbers themselves (4 = m - 1,
  // 20 = (m - 1) * m) so that it stays linear for the solver.
  // ---------------------------------------------------------------------

  /** The n-th location other than p, counting from 0. */
  function Skip(p: nat, n: nat): nat {
    if n < p then n else n + 1
  }

  /** Number of non-sentinel actions, (m - 1) * m. */
  const Rides: nat := 20

  function ActionSpace(): (r: seq<Action>)
    ensures |r| == Rides + 1 && r[Rides] == NoRide
  {
    seq(Rides, i requires 0 <= i => Action(i / 4, Skip(i / 4, i % 4))) + [NoRide]
  }

  /** Position of a ride (p, q), p != q, in the action space. */
  function RideIndex(a: Action): nat
    requires InRange(a) && a.pickup != a.drop
  {
    a.pickup * 4 + (if a.drop < a.pickup then a.drop else a.drop - 1)
  }

  /** Every ride (p, q) with p != q appears in the action space, at RideIndex. */
  lemma ActionSpaceComplete(a: Action)
    requires InRange(a) && a.pickup != a.drop
    ensures RideIndex(a) < Rides && ActionSpace()[RideIndex(a)] == a
  {
    var i := RideIndex(a);
    assert i / 4 == a.pickup && i % 4 == i - 4 * a.pickup;
  }

  /** The first (m - 1) * m entries are rides p != q with in-range locations,
      each at its own RideIndex; the last entry is the no-ride action. */
  lemma ActionSpaceEntries()
    ensures ActionSpace()[Rides] == NoRide
    ensures forall i :: 0 <= i < Rides ==>
      var a := ActionSpace()[i];
      InRange(a) && a.pickup != a.drop && RideIndex(a) == i
  {
    forall i | 0 <= i < Rides
      ensures var a := ActionSpace()[i];
              InRange(a) && a.pickup != a.drop && RideIndex(a) == i
    {
      assert i == (i / 4) * 4 + i % 4;
    }
  }

  /** Only the last entry is the no-ride action. */
  lemma RidesAreNotNoRide()
    ensures forall i :: 0 <= i < Rides ==> ActionSpace()[i] != NoRide
  {
    ActionSpaceEntries();
  }

  /** Rides come in the order of the double loop: by pickup, then by drop. */
  predicate RideBefore(a: Action, b: Action) {
    a.pickup < b.pickup || (a.pickup == b.pickup && a.drop < b.drop)
  }

  lemma ActionSpaceOrdered()
    ensures forall i, j :: 0 <= i < j < Rides ==> RideBefore(ActionSpace()[i], ActionSpace()[j])
  {
    forall i, j | 0 <= i < j < Rides
      ensures RideBefore(ActionSpace()[i], ActionSpace()[j])
    {
      assert i == (i / 4) * 4 + i % 4 && j == (j / 4) * 4 + j % 4;
    }
  }

  /** No action appears twice. */
  lemma ActionSpaceDistinct()
    ensures forall i, j :: 0 <= i < j < |ActionSpace()| ==> ActionSpace()[i] != ActionSpace()[j]
  {
    ActionSpaceEntries();
  }

  // ---------------------------------------------------------------------
  // State space: every (location, hour, day), location outer, hour middle,
  // day inner; entry i of the flattened triple loop is (i / (t * d),
  // (i mod (t * d)) / d, i mod d). Index arithmetic is written with the
  // numbers themselves (7 = d, 168 = t * d, 840 = m * t * d) so that it
  // stays linear for the solver.
  // ---------------------------------------------------------------------

  function StateSpace(): (r: seq<State>)
    ensures |r| == 840
  {
    seq(840, i requires 0 <= i => State(i / 168, i % 168 / 7, i % 7))
  }

  /** Position of a valid state in the state space. */
  function StateIndex(s: State): nat {
    s.loc * 168 + s.hour * 7 + s.day
  }

  /** Every valid state appears in the state space, at StateIndex. */
  lemma StateSpaceComplete(s: State)
    requires ValidState(s)
    ensures StateIndex(s) < |StateSpace()| && StateSpace()[StateIndex(s)] == s
  {
    var i := StateIndex(s);
    assert i / 168 == s.loc;
    assert i % 168 == s.hour * 7 + s.day;
  }

  /** Every entry of the state space is valid and sits at its own StateIndex. */
  lemma StateSpaceEntries()
    ensures forall i :: 0 <= i < |StateSpace()| ==>
      ValidState(StateSpace()[i]) && StateIndex(StateSpace()[i]) == i
  {
    forall i | 0 <= i < |StateSpace()|
      ensures ValidState(StateSpace()[i]) && StateIndex(StateSpace()[i]) == i
    {
      var r := i % 168;
      assert r == (r / 7) * 7 + r % 7;
      assert i % 7 == r % 7;
    }
  }

  /** States come in the order of the triple loop: by location, then hour,
      then day. */
  predicate StateBefore(s: State, u: State) {
    s.loc < u.loc || (s.loc == u.loc && (s.hour < u.hour || (s.hour == u.hour && s.day < u.day)))
  }

  lemma StateSpaceOrdered()
    ensures forall i, j :: 0 <= i < j < |StateSpace()| ==> StateBefore(StateSpace()[i], StateSpace()[j])
  {
    StateSpaceEntries();
  }

  /** No state appears twice. */
  lemma StateSpaceDistinct()
    ensures forall i, j :: 0 <= i < j < |StateSpace()| ==> StateSpace()[i] != StateSpace()[j]
  {
    StateSpaceEntries();
  }

  // ---------------------------------------------------------------------
  // State encoding
  // ---------------------------------------------------------------------

  /** The indicator vector of length m + t + d: ones at loc, m + hour and
      m + t + day, zeros elsewhere. */
  function OneHot(s: State): (v: seq<int>)
    requires ValidState(s)
    ensures |v| == M + T + D
  {
    seq(M + T + D, i => if i == s.loc || i == M + s.hour || i == M + T + s.day then 1 else 0)
  }

  /** The positions of the ones in a vector. */
  function Ones(v: seq<int>): set<nat> {
    set i: nat | i < |v| && v[i] == 1
  }

  /** Exactly three ones, one in each of the three disjoint blocks, the rest
      zeros. */
  lemma OneHotShape(s: State)
    requires ValidState(s)
    ensures Ones(OneHot(s)) == {s.loc, M + s.hour, M + T + s.day}
    ensures |Ones(OneHot(s))| == 3
    ensures s.loc < M <= M + s.hour < M + T <= M + T + s.day < M + T + D
    ensures forall i :: 0 <= i < M + T + D && i !in Ones(OneHot(s)) ==> OneHot(s)[i] == 0
  {
    var v := OneHot(s);
    assert v[s.loc] == 1 && v[M + s.hour] == 1 && v[M + T + s.day] == 1;
    assert Ones(v) == {s.loc, M + s.hour, M + T + s.day};
  }

  /** Distinct states have distinct encodings. */
  lemma OneHotInjective(s1: State, s2: State)
    requires ValidState(s1) && ValidState(s2)
    requires OneHot(s1) == OneHot(s2)
    ensures s1 == s2
  {
    assert OneHot(s1)[s1.loc] == 1;
    assert OneHot(s1)[M + s1.hour] == 1;
    assert OneHot(s1)[M + T + s1.day] == 1;
  }

  /** Writes the three ones into a fresh zero vector. */
  method EncodeState(s: State) returns (v: array<int>)
    requires ValidState(s)
    ensures fresh(v) && v[..] == OneHot(s)
  {
    v := new int[M + T + D](_ => 0);
    v[s.loc] := 1;
    v[M + s.hour] := 1;
    v[M + T + s.day] := 1;
  }

  // ---------------------------------------------------------------------
  // Requests at a location
  // ---------------------------------------------------------------------

  const MaxRequests: nat := 15

  /** The drawn request count, capped at 15. */
  function CappedRequests(drawn: nat): (k: nat)
    ensures k <= MaxRequests && k <= drawn
    ensures k == drawn || k == MaxRequests
  {
    if drawn > MaxRequests then MaxRequests else drawn
  }

  /** The offered (indices, actions): `chosen` is the sample of CappedRequests(drawn)
      distinct ride indices, and the no-ride action is appended at index m(m-1). */
  function Requests(drawn: nat, chosen: seq<nat>): (r: (seq<nat>, seq<Action>))
    requires |chosen| == CappedRequests(drawn)
    requires forall i :: 0 <= i < |chosen| ==> chosen[i] < Rides
    requires forall i, j :: 0 <= i < j < |chosen| ==> chosen[i] != chosen[j]
    ensures |r.0| == |r.1| == CappedRequests(drawn) + 1 <= MaxRequests + 1
    ensures r.0 == chosen + [Rides] && r.1[|chosen|] == NoRide
    ensures forall i :: 0 <= i < |r.0| ==> r.0[i] < |ActionSpace()| && r.1[i] == ActionSpace()[r.0[i]]
    ensures forall i :: 0 <= i < |chosen| ==> r.1[i] != NoRide
    ensures forall i, j :: 0 <= i < j < |r.1| ==> r.1[i] != r.1[j]
  {
    RidesAreNotNoRide();
    ActionSpaceDistinct();
    var actions := seq(|chosen|, i requires 0 <= i < |chosen| => ActionSpace()[chosen[i]]);
    (chosen + [Rides], actions + [NoRide])
  }

  // ---------------------------------------------------------------------
  // Time rollover
  // ---------------------------------------------------------------------

  /** Hour and day `delta` hours later, in the two-branch form Env.py uses
      for both legs: no rollover unless the hour passes 23. */
  function Roll(hour: nat, day: nat, delta: nat): (r: (nat, nat))
    ensures r.0 < T && (day < D ==> r.1 < D)
  {
    if hour + delta > 23 then
      var dayDelta := (hour + delta) / 24;
      ((hour + delta) % 24, (day + dayDelta) % 7)
    else
      (hour + delta, day)
  }

  /** Hour and day `delta` hours later, in closed form. */
  function Advance(hour: nat, day: nat, delta: nat): (r: (nat, nat))
    ensures r.0 < T && r.1 < D
  {
    ((hour + delta) % T, (day + (hour + delta) / T) % D)
  }

  /** From a valid hour and day, the two-branch rollover is the closed form. */
  lemma RollAdvance(hour: nat, day: nat, delta: nat)
    requires hour < T && day < D
    ensures Roll(hour, day, delta) == Advance(hour, day, delta)
  {
    if hour + delta <= 23 {
      assert (hour + delta) / T == 0;
    }
  }

  /** Advancing by t1 and then by t2 is advancing by t1 + t2. */
  lemma AdvanceAdvance(hour: nat, day: nat, t1: nat, t2: nat)
    ensures var mid := Advance(hour, day, t1);
            Advance(mid.0, mid.1, t2) == Advance(hour, day, t1 + t2)
  {
    var x := hour + t1;
    var q, h1 := x / 24, x % 24;
    var k := (h1 + t2) / 24;
    assert x + t2 == 24 * (q + k) + (h1 + t2) % 24;
    assert (x + t2) / 24 == q + k;
    assert (x + t2) % 24 == (h1 + t2) % 24;
    var d1 := (day + q) % 7;
    assert day + q == 7 * ((day + q) / 7) + d1;
    assert (d1 + k) % 7 == (day + q + k) % 7;
  }

  // ---------------------------------------------------------------------
  // The trip of a ride action: the reference both reward and transition
  // are proved against
  // ---------------------------------------------------------------------

  /** t1: hours to reach the pickup; pickupHour/pickupDay: clock at the pickup;
      t2: hours from pickup to drop; dropHour/dropDay: clock at the drop. */
  datatype Trip = Trip(t1: nat, pickupHour: nat, pickupDay: nat, t2: nat, dropHour: nat, dropDay: nat)

  function Plan(s: State, a: Action, tm: TimeMatrix): (p: Trip)
    requires ValidState(s) && InRange(a) && Shaped(tm)
    ensures p.pickupHour < T && p.pickupDay < D && p.dropHour < T && p.dropDay < D
  {
    var t1 := if s.loc == a.pickup then 0 else Lookup(tm, s.loc, a.pickup, s.hour, s.day);
    var pickup := Advance(s.hour, s.day, t1);
    var t2 := Lookup(tm, a.pickup, a.drop, pickup.0, pickup.1);
    var drop := Advance(pickup.0, pickup.1, t2);
    Trip(t1, pickup.0, pickup.1, t2, drop.0, drop.1)
  }

  /** The two-branch rollover, applied to the pickup leg and then to the drop
      leg, produces exactly the reference trip. */
  lemma RideTrip(s: State, a: Action, tm: TimeMatrix,
                 t1: nat, pTime: nat, pDay: nat, t2: nat, qTime: nat, qDay: nat)
    requires ValidState(s) && InRange(a) && Shaped(tm)
    requires t1 == if s.loc == a.pickup then 0 else Lookup(tm, s.loc, a.pickup, s.hour, s.day)
    requires (pTime, pDay) == Roll(s.hour, s.day, t1)
    requires pTime < T && pDay < D
    requires t2 == Lookup(tm, a.pickup, a.drop, pTime, pDay)
    requires (qTime, qDay) == Roll(pTime, pDay, t2)
    ensures Plan(s, a, tm) == Trip(t1, pTime, pDay, t2, qTime, qDay)
  {
    RollAdvance(s.hour, s.day, t1);
    RollAdvance(pTime, pDay, t2);
  }

  // ---------------------------------------------------------------------
  // Reward
  // ---------------------------------------------------------------------

  /** The pickup leg as reward_func computes it: t1, the clock at the pickup
      by the two-branch rollover, and t2. It is the reference trip's first
      half, so reward_func and next_state_func agree on all four values. */
  function PickupLeg(s: State, a: Action, tm: TimeMatrix): (r: (nat, nat, nat, nat))
    requires ValidState(s) && InRange(a) && Shaped(tm)
    ensures var p := Plan(s, a, tm);
            r == (p.t1, p.pickupHour, p.pickupDay, p.t2)
  {
    var t1 := if s.loc == a.pickup then 0 else Lookup(tm, s.loc, a.pickup, s.hour, s.day);
    RollAdvance(s.hour, s.day, t1);
    var pickup := Roll(s.hour, s.day, t1);
    (t1, pickup.0, pickup.1, Lookup(tm, a.pickup, a.drop, pickup.0, pickup.1))
  }

  /** Reward of taking `a` in `s`: revenue for the carrying leg, cost for both
      legs; idling costs one hour. */
  function Reward(s: State, a: Action, tm: TimeMatrix): (r: int)
    requires ValidState(s) && InRange(a) && Shaped(tm)
    ensures a == NoRide ==> r == -C
    ensures a != NoRide ==>
      var p := Plan(s, a, tm);
      r == R * p.t2 - C * (p.t1 + p.t2)
  {
    if a != NoRide then
      var (t1, _, _, t2) := PickupLeg(s, a, tm);
      R * t2 - C * (t1 + t2)
    else
      -C
  }

  // ---------------------------------------------------------------------
  // Transition (specification)
  // ---------------------------------------------------------------------

  /** The next state: the drop location at the drop time for a ride; the same
      location one hour later for no ride. */
  function Successor(s: State, a: Action, tm: TimeMatrix): (n: State)
    requires ValidState(s) && InRange(a) && Shaped(tm)
    ensures ValidState(n)
  {
    if a == NoRide then
      var next := Advance(s.hour, s.day, 1);
      State(s.loc, next.0, next.1)
    else
      var p := Plan(s, a, tm);
      State(a.drop, p.dropHour, p.dropDay)
  }

  /** Hours the step puts on the episode clock: one for no ride. Advancing
      the current hour and day by that many hours gives the successor's
      hour and day, so the clock and the next state stay in step. */
  function StepHours(s: State, a: Action, tm: TimeMatrix): (r: nat)
    requires ValidState(s) && InRange(a) && Shaped(tm)
    ensures a == NoRide ==> r == 1
    ensures var n := Successor(s, a, tm);
            Advance(s.hour, s.day, r) == (n.hour, n.day)
  {
    if a == NoRide then 1
    else
      var p := Plan(s, a, tm);
      AdvanceAdvance(s.hour, s.day, p.t1, p.t2);
      p.t1 + p.t2
  }

  /** The episode clock: elapsed hours and the terminal flag. */
  datatype Clock = Clock(elapsed: nat, terminal: bool)

  /** The clock after a step of `hours`: the flag is raised once 720 hours
      have elapsed and never lowered. */
  function Tick(c: Clock, hours: nat): (r: Clock)
    ensures r.elapsed == c.elapsed + hours
    ensures r.terminal <==> c.terminal || r.elapsed >= Horizon
  {
    var e := c.elapsed + hours;
    Clock(e, if e >= Horizon then true else c.terminal)
  }

  /** The next state is in the state space. */
  lemma SuccessorInStateSpace(s: State, a: Action, tm: TimeMatrix)
    requires ValidState(s) && InRange(a) && Shaped(tm)
    ensures Successor(s, a, tm) in StateSpace()
  {
    StateSpaceComplete(Successor(s, a, tm));
  }

  /** No ride: same location, hour + 1 mod 24, and the day moves on (mod 7)
      exactly when the hour wraps from 23; one hour elapses. */
  lemma IdleSuccessor(s: State, tm: TimeMatrix)
    requires ValidState(s) && Shaped(tm)
    ensures Successor(s, NoRide, tm) ==
      State(s.loc, (s.hour + 1) % T, if s.hour == T - 1 then (s.day + 1) % D else s.day)
    ensures StepHours(s, NoRide, tm) == 1
  {
    if s.hour < T - 1 {
      assert (s.hour + 1) / T == 0;
    }
  }

  /** A ride picked up where the driver stands: no approach leg, the ride
      starts now, and the reward is (R - C) times the carrying time. */
  lemma SamePickupReward(s: State, a: Action, tm: TimeMatrix)
    requires ValidState(s) && InRange(a) && Shaped(tm)
    requires a != NoRide && s.loc == a.pickup
    ensures Plan(s, a, tm).t1 == 0
    ensures Plan(s, a, tm).t2 == Lookup(tm, a.pickup, a.drop, s.hour, s.day)
    ensures Reward(s, a, tm) == (R - C) * Lookup(tm, a.pickup, a.drop, s.hour, s.day)
    ensures StepHours(s, a, tm) == Lookup(tm, a.pickup, a.drop, s.hour, s.day)
  {
    assert Advance(s.hour, s.day, 0) == (s.hour, s.day);
  }

  /** Every hour the clock moves costs C; only the carrying leg earns R. */
  lemma RewardChargesElapsedHours(s: State, a: Action, tm: TimeMatrix)
    requires ValidState(s) && InRange(a) && Shaped(tm)
    ensures Reward(s, a, tm) == (if a == NoRide then 0 else R * Plan(s, a, tm).t2) - C * StepHours(s, a, tm)
  {
  }

  /** Idling at the last hour of the last day wraps to hour 0 of day 0. */
  lemma WeekWrapExample(tm: TimeMatrix)
    requires Shaped(tm)
    ensures Reward(State(1, 23, 6), NoRide, tm) == -5
    ensures Successor(State(1, 23, 6), NoRide, tm) == State(1, 0, 0)
  {
    IdleSuccessor(State(1, 23, 6), tm);
  }

  /** State (0, 10, 3), ride (0, 2) taking 4 hours: reward 16, next (2, 14, 3). */
  lemma SamePickupExample(tm: TimeMatrix)
    requires Shaped(tm) && tm[0][2][10][3] == 4
    ensures Reward(State(0, 10, 3), Action(0, 2), tm) == 16
    ensures Successor(State(0, 10, 3), Action(0, 2), tm) == State(2, 14, 3)
  {
    SamePickupReward(State(0, 10, 3), Action(0, 2), tm);
  }

  // ---------------------------------------------------------------------
  // Episodes: repeated transitions
  // ---------------------------------------------------------------------

  predicate AllInRange(actions: seq<Action>) {
    forall i :: 0 <= i < |actions| ==> InRange(actions[i])
  }

  /** State and clock after taking `actions` in order from `s` with clock `c`.
      The state stays valid, the clock never runs back, and after at least one
      step the flag is set exactly when it was set at the start or 720 hours
      have elapsed by the end. */
  function Run(s: State, c: Clock, actions: seq<Action>, tm: TimeMatrix): (r: (State, Clock))
    requires ValidState(s) && Shaped(tm) && AllInRange(actions)
    ensures ValidState(r.0)
    ensures r.1.elapsed >= c.elapsed
    ensures c.terminal ==> r.1.terminal
    ensures actions == [] ==> r == (s, c)
    ensures r.1.terminal <==> c.terminal || (actions != [] && r.1.elapsed >= Horizon)
    decreases |actions|
  {
    if actions == [] then (s, c)
    else
      Run(Successor(s, actions[0], tm), Tick(c, StepHours(s, actions[0], tm)), actions[1..], tm)
  }

  /** Starting from a fresh clock, the flag after any run says exactly whether
      720 hours have elapsed. */
  lemma RunFromFreshClock(s: State, actions: seq<Action>, tm: TimeMatrix)
    requires ValidState(s) && Shaped(tm) && AllInRange(actions)
    ensures var r := Run(s, Clock(0, false), actions, tm);
            r.1.terminal <==> r.1.elapsed >= Horizon
  {
  }

  // ---------------------------------------------------------------------
  // Transition, step by step
  // ---------------------------------------------------------------------

  /** The ride branch of the transition: approach leg, rollover to the pickup
      clock, carrying leg, rollover to the drop clock. Returns the next state
      and the hours driven. */
  method RideLegs(s: State, a: Action, tm: TimeMatrix) returns (next: State, hours: nat)
    requires ValidState(s) && InRange(a) && Shaped(tm) && a != NoRide
    ensures next == Successor(s, a, tm) && hours == StepHours(s, a, tm)
  {
    var t1: nat := if s.loc == a.pickup then 0 else Lookup(tm, s.loc, a.pickup, s.hour, s.day);
    var pTime: nat, pDay: nat;
    if s.hour + t1 > 23 {
      pTime := (s.hour + t1) % 24;
      var dayDelta := (s.hour + t1) / 24;
      pDay := (s.day + dayDelta) % 7;
    } else {
      pTime := s.hour + t1;
      pDay := s.day;
    }
    var t2: nat := Lookup(tm, a.pickup, a.drop, pTime, pDay);
    var qTime: nat, qDay: nat;
    if pTime + t2 > 23 {
      qTime := (pTime + t2) % 24;
      var dayDelta := (pTime + t2) / 24;
      qDay := (pDay + dayDelta) % 7;
    } else {
      qTime := pTime + t2;
      qDay := pDay;
    }
    RideTrip(s, a, tm, t1, pTime, pDay, t2, qTime, qDay);
    next := State(a.drop, qTime, qDay);
    hours := t1 + t2;
  }

  /** The no-ride branch of the transition: one hour later, the day moving on
      when the hour passes 23 and the week wrapping after day 6. */
  method IdleHour(s: State) returns (next: State)
    requires ValidState(s)
    ensures next == State(s.loc, (s.hour + 1) % T, if s.hour == T - 1 then (s.day + 1) % D else s.day)
  {
    var qTime: nat, qDay: nat;
    if s.hour + 1 > 23 {
      qTime := 0;
      if s.day + 1 > 6 {
        qDay := 0;
      } else {
        qDay := s.day + 1;
      }
    } else {
      qTime := s.hour + 1;
      qDay := s.day;
    }
    next := State(s.loc, qTime, qDay);
  }

  // ---------------------------------------------------------------------
  // The environment object
  // ---------------------------------------------------------------------

  class CabDriver {
    const actionSpace: seq<Action>
    const stateSpace: seq<State>
    const stateInit: State
    var timeElapsed: nat
    var terminal: bool

    /** The spaces are the enumerations above and the initial state is one
        of the states; set once by the constructor, never changed. */
    ghost predicate SpacesBuilt()
      reads this
    {
      actionSpace == ActionSpace() && stateSpace == StateSpace() &&
      stateInit in stateSpace && ValidState(stateInit)
    }

    /** The episode invariant: terminal holds exactly when time elapsed has
        reached the 720-hour horizon. The constructor establishes it and
        NextState preserves it. */
    ghost predicate Valid()
      reads this
    {
      terminal == (timeElapsed >= Horizon)
    }

    function ClockOf(): Clock
      reads this
    {
      Clock(timeElapsed, terminal)
    }

    /** `choice` is the index the random draw of the initial state picked.
        The result of the trailing reset() call is discarded, so it has no
        counterpart here. */
    constructor (choice: nat)
      requires choice < 840
      ensures SpacesBuilt() && Valid()
      ensures stateInit == StateSpace()[choice]
      ensures timeElapsed == 0 && !terminal
    {
      actionSpace := ActionSpace();
      stateSpace := StateSpace();
      stateInit := StateSpace()[choice];
      timeElapsed := 0;
      terminal := false;
      new;
      StateSpaceEntries();
    }

    /** Moves the episode clock and returns the next state and the flag. */
    method NextState(s: State, a: Action, tm: TimeMatrix) returns (next: State, isTerminal: bool)
      requires ValidState(s) && InRange(a) && Shaped(tm)
      modifies this`timeElapsed, this`terminal
      ensures next == Successor(s, a, tm)
      ensures ClockOf() == Tick(old(ClockOf()), StepHours(s, a, tm))
      ensures isTerminal == terminal
      ensures old(terminal) ==> terminal
      ensures old(Valid()) ==> Valid()
    {
      var hours: nat;
      if a != NoRide {
        next, hours := RideLegs(s, a, tm);
      } else {
        next := IdleHour(s);
        hours := 1;
        IdleSuccessor(s, tm);
      }
      timeElapsed := timeElapsed + hours;
      if timeElapsed >= Horizon {
        terminal := true;
      }
      isTerminal := terminal;
    }

    /** The two spaces and the initial state; the clock is left as it is. */
    function Reset(): (r: (seq<State>, seq<Action>, State))
      reads this
      ensures r.2 == stateInit
      ensures SpacesBuilt() ==> r.0 == StateSpace() && r.1 == ActionSpace() && r.2 in r.0
    {
      (stateSpace, actionSpace, stateInit)
    }
  }
}
