# CabDriver environment — Dafny model

This project models the `CabDriver` environment of a reinforcement-learning
assistant for cab drivers (`Env.py`). A driver moves over m = 5 locations,
t = 24 hours of the day and d = 7 days of the week. A state is
(location, hour, day). An action is a (pickup, drop) pair of distinct
locations, or the no-ride action (0, 0). Given a travel-time table indexed by
(origin, destination, hour, day), the environment computes:

- the reward of an action: R = 9 per hour with a passenger, minus C = 5 per
  hour of driving or idling;
- the next state, with hour/day rollover;
- the episode clock: `time_elapsed` and the `terminal` flag, which is raised
  at 720 hours.

Everything is in `env.dfy`, module `Env`:

- **Data.** `State` and `Action` are datatypes. `TimeMatrix` is a nested
  sequence of naturals. `Shaped` says it has the full 5 × 5 × 24 × 7 shape.
- **Spaces.** `ActionSpace` and `StateSpace` are the two enumerations built
  in the constructor. Entry i of each is given by its index formula. Lemmas
  prove each one complete, correctly ordered and free of duplicates.
- **Rollover.** `Roll` is the two-branch hour/day rollover, written the way
  `Env.py` writes it. `Advance` is the closed form (h + Δ) mod 24,
  (d + (h + Δ) div 24) mod 7.
- **Reference trip.** `Plan` computes the trip of a ride with the closed
  form: t1, the pickup clock, t2 and the drop clock. `PickupLeg`
  (`reward_func`'s pickup leg) is proved equal to the first four fields of
  `Plan`, and `RideTrip`/`RideLegs` (`next_state_func`'s ride branch) to the
  whole of it. So `reward_func` and `next_state_func` compute the same t1,
  pickup hour, pickup day and t2.
- **The object.** `CabDriver` is a class. Its constant fields are the spaces
  and the initial state. Its mutable fields are `timeElapsed` and `terminal`.
  `NextState` updates them as `next_state_func` does.
- **Episodes.** `Run` applies a list of actions in turn and proves the
  episode-level invariants.

`reset()` is modelled as written: it returns the two spaces and the initial
state and leaves `timeElapsed` and `terminal` untouched. A second episode on
the same object therefore starts with the old clock.

## Model

| member | source | states |
|---|---|---|
| `Env.ActionSpace` | Env.py:19 | the action space has (m-1)·m + 1 = 21 entries and entry 20 is the no-ride action (0, 0) |
| `Env.ActionSpaceComplete` | Env.py:19 | every pair (p, q) of in-range locations with p ≠ q is in the action space, at index 4p + (q if q < p else q - 1) |
| `Env.ActionSpaceEntries` | Env.py:19 | entries 0..19 are pairs with p ≠ q and both in [0, m), each at its own index; entry 20 is (0, 0) |
| `Env.RidesAreNotNoRide` | Env.py:19 | the sentinel occurs only at index 20 |
| `Env.ActionSpaceOrdered` | Env.py:19 | the 20 rides appear in nested-loop order: by pickup, then by drop |
| `Env.ActionSpaceDistinct` | Env.py:19 | no action occurs twice |
| `Env.StateSpace` | Env.py:20 | the state space has m·t·d = 840 entries |
| `Env.StateSpaceComplete` | Env.py:20 | every in-range (location, hour, day) is in the state space, at index 168·loc + 7·hour + day |
| `Env.StateSpaceEntries` | Env.py:20 | the 840 entries are all in range, each at its own index |
| `Env.StateSpaceOrdered` | Env.py:20 | states appear in nested-loop order: by location, then hour, then day |
| `Env.StateSpaceDistinct` | Env.py:20 | no state occurs twice |
| `Env.CabDriver.constructor` | Env.py:17-24 | builds both spaces, takes the initial state from the state space, and sets time elapsed to 0 and terminal to false |
| `Env.OneHot` | Env.py:29-35 | the encoding has length m+t+d = 36 |
| `Env.OneHotShape` | Env.py:29-35 | the encoding has length m+t+d = 36, with ones exactly at loc, m+hour and m+t+day (three ones, in disjoint blocks) and zeros elsewhere |
| `Env.OneHotInjective` | Env.py:29-35 | two valid states with the same encoding are equal |
| `Env.EncodeState` | Env.py:29-35 | the freshly allocated array with its three cells written holds exactly the one-hot vector |
| `Env.CappedRequests` | Env.py:67-68 | the request count is at most 15; it equals the draw when the draw is at most 15 and is 15 otherwise |
| `Env.Requests` | Env.py:70-74 | the offer has capped count + 1 ≤ 16 entries; index 20 and the no-ride action are appended last; every action is the action space's entry at its index; no sampled entry is the no-ride action; given distinct sampled indices, as `random.sample` draws them, no action is offered twice |
| `Env.Roll` | Env.py:124-130 | the two-branch rollover always yields an hour below 24, and a day below 7 from a day below 7 |
| `Env.Advance` | Env.py:133-139 | the closed-form clock is always in range: hour < 24, day < 7 |
| `Env.AdvanceAdvance` | Env.py:119-139 | advancing the clock by t1 and then by t2 is advancing it by t1 + t2 |
| `Env.RollAdvance` | Env.py:91-97 | from a valid hour and day and for any Δ ≥ 0, both rollover branches give hour (h+Δ) mod 24 and day (d + (h+Δ) div 24) mod 7 |
| `Env.Plan` | Env.py:120-139 | the pickup and drop clocks are always in range, so every travel-time lookup is in bounds |
| `Env.RideTrip` | Env.py:120-139 | the two-branch rollover applied to the pickup leg and then the drop leg gives the reference trip |
| `Env.PickupLeg` | Env.py:87-98 | reward_func's t1, pickup hour, pickup day and t2 (two-branch rollover) are exactly those of the reference trip that next_state_func follows |
| `Env.Reward` | Env.py:79-104 | the no-ride action earns -C whatever the state or table; a ride earns R·t2 - C·(t1+t2), with t1 and t2 those of the reference trip |
| `Env.SamePickupReward` | Env.py:86-99 | when the driver stands at the pickup: t1 = 0, the ride starts at the current hour and day, and the reward is (R-C)·t2 |
| `Env.RewardChargesElapsedHours` | Env.py:99-102 | the reward is the carrying revenue minus C for every hour the step puts on the clock |
| `Env.SamePickupExample` | Env.py:86-99 | state (0,10,3), ride (0,2) with table entry 4: reward 16, next state (2,14,3) |
| `Env.Successor` | Env.py:140-153 | the next state is always in range |
| `Env.SuccessorInStateSpace` | Env.py:140-153 | the next state is an element of the state space |
| `Env.RideLegs` | Env.py:119-141 | the step-by-step ride branch returns (drop, drop hour, drop day) of the reference trip and t1 + t2 hours |
| `Env.IdleHour` | Env.py:143-153 | the no-ride branch keeps the location, sets hour (h+1) mod 24, and moves the day on mod 7 exactly when the hour wraps from 23 |
| `Env.IdleSuccessor` | Env.py:143-154 | the no-ride successor is that closed form, and the step takes 1 hour |
| `Env.WeekWrapExample` | Env.py:143-153 | idling at (1,23,6) earns -5 and leads to (1,0,0) |
| `Env.StepHours` | Env.py:141-154 | a no-ride step takes 1 hour; advancing the current hour and day by the step's hours gives exactly the successor's hour and day |
| `Env.Tick` | Env.py:141-157 | time elapsed grows by the step's hours; terminal is true afterwards iff it was true before or 720 hours have elapsed |
| `Env.CabDriver.NextState` | Env.py:108-159 | returns the reference successor; adds exactly t1+t2 (ride) or 1 (no ride) to time elapsed; sets terminal at 720 and never clears it; keeps terminal ⇔ time elapsed ≥ 720 |
| `Env.Run` | Env.py:141-157 | over any sequence of steps: the state stays in range, time elapsed never decreases, and terminal never goes back to false; after at least one step, terminal is true iff it was true at the start or 720 hours have elapsed |
| `Env.RunFromFreshClock` | Env.py:22-23 | from the initial clock (0, false), terminal after any run is true iff time elapsed ≥ 720 |
| `Env.CabDriver.Reset` | Env.py:163-164 | returns the initial state drawn by the constructor (an element of the state space), the state space and the action space; it is a read-only function, so time elapsed and terminal are unchanged |

## Left out

- Request sampling randomness. The Poisson draw (means 2, 12, 4, 7, 8 by location) and `random.sample` are inputs to `Requests`. The drawn count and the sampled indices are parameters, so the per-location means and the uniform distribution are not modelled.
- Initial-state randomness. `random.choice` is replaced by the constructor's `choice` parameter, the index of the drawn state.
- Numpy and the time table. Numpy arrays, the `int(...)` casts of table entries, and negative or fractional travel times are not modelled. Table entries are naturals, already truncated to whole hours.
- Reward: requires a state with location < 5, hour < 24 and day < 7, and an action whose locations are both < 5. Numpy's wrap-around for negative indices and its errors for out-of-range indices are not modelled.
- RideLegs: requires the same ranges as `Reward`, for the same reason.
- CabDriver.NextState: requires the same ranges as `Reward`, for the same reason.
- Requests: the state argument only chooses the Poisson mean, so it is not a parameter. The error for a location outside 0..4 is not modelled.
- ActionSpace and StateSpace: give entry i by a closed index formula, not by a nested comprehension. Their order is stated separately by the ordering lemmas.
- CabDriver.NextState: adds a step's hours to the clock after the ride/no-ride branch rather than inside each branch. The result is the same.
- The commented-out `state_encod_arch2` is dead code and is not modelled.
- Python's floor `%` and `//` agree with Dafny's Euclidean operators here, because every operand is non-negative.
