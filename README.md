# Single-car elevator dispatch, modelled and verified in Dafny

This project models the `Elevator` class of a small elevator simulator.
The car is one state machine driven one tick at a time. It has a floor and a
position, a direction (idle, up or down), a door with a dwell countdown, two
stop queues and a table of pending destinations:

- `up` is an ascending set of floors; its first element is its least.
- `down` is a descending set of floors; its first element is its greatest.
- The pending table maps each hall call's origin floor to the destinations
  filed under it.

`addHallCall(origin, dest)` clamps both floors into the building. It ignores
a call whose clamped floors are the same. Otherwise it appends the
destination to the origin's list and queues the origin by the car's
direction. A tick, `step()`, either counts down a dwell, or else does the
following in one call:

- if idle, commit to a direction (ties go up), or stop if both queues are
  empty;
- resolve the target, turning round when the active queue is empty, or going
  idle and stopping when both are;
- then, on reaching the target, arrive: open the door, dwell for two ticks,
  and queue the destinations filed under that floor;
- otherwise move one floor toward the target.

Files:

- `model.dfy`, module `ElevatorModel`: the car's state as a value
  (`CarState`) and one function per operation (`Init`, `AddHallCall`,
  `Step`, with `Arrive` and `Move`).
- `properties.dfy`, module `ElevatorProperties`: lemmas that state what the
  operations promise. They include the invariant `Inv`, which every reachable
  state keeps.
- `elevator.dfy`, module `ElevatorCore`: the class `Elevator`. Its fields are
  updated in place, as they are in `Elevator.java`. `AddHallCall`, `Step` and
  `ArriveAt` are each proved to keep `Valid()` (that is, `Inv`) and to leave
  exactly the state the corresponding `ElevatorModel` function gives.
  `Refile`, the loop of `arriveAt`, changes only the two queues.
- `example.dfy`, module `ElevatorExample`: the example run of the system
  wrapper, with 21 floors, the car at 0, rides (0→7) and (3→1), then 30
  ticks. The reported floors are proved equal to a golden sequence. The ride
  from 0 is proved never to be served: the idle car was at floor 0 when that
  call was filed, so floor 0 never joined a queue.

Two consequences of the code are worth knowing:

- An idle car can have queued floors. A hall call made while the car is
  idle queues its origin without changing direction
  (`Elevator.java:41-44`). So `Inv` does not say that an idle car has empty
  queues; it says which side of the car each queue lies on.
- In the example the ride from 0 stays filed forever, and floor 7 is never
  queued (`ElevatorExample.ExampleTrace`).

## Model

| member | source | states |
|---|---|---|
| `ElevatorModel.Clamp` | src/main/java/Elevator.java:114-116 | the result lies in `[lo, hi]` when that range is non-empty, equals `v` inside it, `lo` below it and `hi` above it; with `hi < lo` it is `lo` |
| `ElevatorModel.ClampFloor` | src/main/java/Elevator.java:35-36 | a clamped floor lies in the building (floor 0 when `numFloors < 1`), floors already in the building are kept, and out-of-range floors go to the nearer end |
| `ElevatorModel.Least` | src/main/java/Elevator.java:16 | the first floor of the ascending queue is in it and no floor in it is lower |
| `ElevatorModel.Greatest` | src/main/java/Elevator.java:17 | the first floor of the descending queue is in it and no floor in it is higher |
| `ElevatorModel.PollLeast` | src/main/java/Elevator.java:96 | polling the ascending queue removes exactly its least floor, and leaves an empty queue empty |
| `ElevatorModel.PollGreatest` | src/main/java/Elevator.java:97 | polling the descending queue removes exactly its greatest floor, and leaves an empty queue empty |
| `ElevatorModel.Resolve` | src/main/java/Elevator.java:74-80 | the resolved direction is up or down only when that queue has a floor, and idle exactly when both queues are empty; a committed direction whose queue has a floor is kept |
| `ElevatorModel.Heading` | src/main/java/Elevator.java:62-80 | the direction a non-dwelling tick heads in has a non-empty queue |
| `ElevatorModel.Target` | src/main/java/Elevator.java:74-78 | the target is the least floor of `up` when heading up and the greatest floor of `down` when heading down |
| `ElevatorModel.LeastExists` | src/main/java/Elevator.java:66 | every non-empty floor set has a least element, so `first()` of a non-empty ascending queue is defined |
| `ElevatorModel.GreatestExists` | src/main/java/Elevator.java:67 | every non-empty floor set has a greatest element, so `first()` of a non-empty descending queue is defined |
| `ElevatorModel.Init` | src/main/java/Elevator.java:8-31 | a new car has the given building size and stands at the clamped start floor with position equal to floor; it is idle with the door closed, empty queues and nothing filed, and satisfies `Inv` (partner: `ElevatorProperties.InitEstablishesInv`) |
| `ElevatorModel.Classify` | src/main/java/Elevator.java:41-52 | an origin joins `up` only if it is above the car, or at its floor while travelling up; `down` only if below, or at its floor while travelling down; neither exactly when the car is idle at that floor (partner: `ElevatorProperties.AddHallCallClassifies`) |
| `ElevatorModel.AddHallCall` | src/main/java/Elevator.java:34-53 | a hall call changes only the queues and the filed table; the queues only grow, and by at most the clamped origin; the invariant is kept (partners: `ElevatorProperties.AddHallCallFiles`, `AddHallCallClassifies`) |
| `ElevatorModel.ChooseDirection` | src/main/java/Elevator.java:62-71 | the idle car commits up only when `up` has a floor, down only when `down` has one, and stays idle exactly when both are empty (partner: `ElevatorProperties.IdleChoice`) |
| `ElevatorModel.Arrive` | src/main/java/Elevator.java:94-110 | the car stands at the floor with the door open for the full dwell; the floor's filed list is removed and each destination on it (other than the floor) is queued; the queues gain nothing else (partners: `ElevatorProperties.Arrival`, `ArriveKeepsInv`) |
| `ElevatorModel.Move` | src/main/java/Elevator.java:87-91 | the position moves at most one floor toward the target and never past it, the floor follows the position, the door is closed, and nothing else changes (partner: `ElevatorProperties.Motion`) |
| `ElevatorModel.Step` | src/main/java/Elevator.java:55-92 | a tick keeps the building size, and a dwelling tick counts the dwell down and leaves the queues alone (partners: `ElevatorProperties.StepKeepsInv`, `DwellTick`, `IdleChoice`, `ResolveDirection`, `Motion`, `Arrival`) |
| `ElevatorCore.Elevator.constructor` | src/main/java/Elevator.java:27-31 | a new car stands idle with the door closed at the clamped start floor, has empty queues and nothing filed, and satisfies the invariant |
| `ElevatorCore.Elevator.AddHallCall` | src/main/java/Elevator.java:34-53 | updates the fields in place to exactly `ElevatorModel.AddHallCall` of the old state, and keeps the invariant |
| `ElevatorCore.Elevator.Step` | src/main/java/Elevator.java:55-92 | updates the fields in place to exactly `ElevatorModel.Step` of the old state, and keeps the invariant |
| `ElevatorCore.Elevator.ArriveAt` | src/main/java/Elevator.java:94-110 | snaps the car to the floor, polls the active queue, opens the door for the full dwell, removes the floor's filed list and queues each filed destination on its side; the result equals `ElevatorModel.Arrive` and keeps the invariant |
| `ElevatorCore.Elevator.Refile` | src/main/java/Elevator.java:102-109 | the loop queues exactly the filed destinations above the floor on `up` and those below on `down`, and changes nothing else |
| `ElevatorCore.Elevator.IsAtFloor` | src/main/java/Elevator.java:112 | the car is at floor `f` exactly when its position is less than one floor from `f` |
| `ElevatorCore.RefiledExtend` | src/main/java/Elevator.java:104-108 | handling one more filed destination adds it to `up` if above the floor, to `down` if below, and to neither if equal |
| `ElevatorProperties.InitEstablishesInv` | src/main/java/Elevator.java:27-31 | the initial state has the given building size and satisfies the invariant, at the clamped start floor with position equal to floor |
| `ElevatorProperties.AddHallCallFiles` | src/main/java/Elevator.java:34-39 | a call whose floors clamp to one floor changes nothing; otherwise the clamped destination is appended to the clamped origin's list (duplicates kept), other lists are unchanged, and floor, position, direction, door and dwell are untouched |
| `ElevatorProperties.AddHallCallClassifies` | src/main/java/Elevator.java:41-52 | idle: origin above goes to `up`, below to `down`, equal to neither; up: origin at or above goes to `up`, else `down`; down: origin at or below goes to `down`, else `up` |
| `ElevatorProperties.AddHallCallKeepsInv` | src/main/java/Elevator.java:34-52 | a hall call keeps the invariant |
| `ElevatorProperties.QueuesDisjoint` | src/main/java/Elevator.java:41-52 | under the invariant no floor is in both queues |
| `ElevatorProperties.DwellTick` | src/main/java/Elevator.java:56-59 | a dwelling tick decrements the dwell, closes the door exactly when it reaches 0, and changes nothing else |
| `ElevatorProperties.IdleStable` | src/main/java/Elevator.java:62-71 | an idle car with empty queues and no dwell is unchanged by any number of ticks |
| `ElevatorProperties.IdleChoice` | src/main/java/Elevator.java:62-71 | an idle car with queued floors commits to a direction: up if only `up` has floors, down if only `down` has, and with both up exactly when the least up floor is no farther than the greatest down floor |
| `ElevatorProperties.ResolveDirection` | src/main/java/Elevator.java:74-80 | a travelling car keeps its direction while that queue has a floor, turns round when only the other has one, and otherwise goes idle with nothing else changed |
| `ElevatorProperties.TargetAhead` | src/main/java/Elevator.java:74-75 | under the invariant the target is never behind the car |
| `ElevatorProperties.Motion` | src/main/java/Elevator.java:87-91 | away from the target the door is closed and the position moves exactly one floor toward the target without passing it, the floor equals the position, and queues and filed lists are unchanged |
| `ElevatorProperties.Arrival` | src/main/java/Elevator.java:94-110 | at the target f the car stands at f with the door open for the full dwell, f has left both queues and the filed table, other filed lists are unchanged, and each queue is exactly its old floors without f plus the destinations filed under f on its side |
| `ElevatorProperties.ArriveKeepsInv` | src/main/java/Elevator.java:94-110 | arrival at the first floor of the active queue keeps the invariant |
| `ElevatorProperties.StepKeepsInv` | src/main/java/Elevator.java:55-92 | every tick keeps the invariant: floor equals position, everything lies in the building, the door is open exactly while dwelling (dwell 0..2), and each queue lies on its own side of the car |
| `ElevatorProperties.RunKeepsInv` | src/main/java/Elevator.java:55-92 | any number of ticks keeps the invariant, so the car never leaves `[0, numFloors-1]` |
| `ElevatorProperties.DwellContract` | src/main/java/Elevator.java:56-59 | right after an arrival the door stays open for one more tick, and after exactly the dwell period it is closed with no dwell left and nothing else changed |
| `ElevatorProperties.QueuedFloorsServed` | src/main/java/Elevator.java:94-97 | a floor leaves the queues only on a tick where the car arrives there and opens its door |
| `ElevatorProperties.FiledDestinationsKept` | src/main/java/Elevator.java:102-109 | a tick never invents a filed list; each list either stays as it was or, when the car arrives at its origin, is removed with every destination on it queued |
| `ElevatorExample.Floors` | src/main/java/ElevatorSystem.java:26-29 | the recorded floor list has one entry per tick, and entry k is the car's floor after k ticks |
| `ElevatorExample.ExampleRequests` | src/main/java/ElevatorSystem.java:22-24 | after the two requests `up = {3}`, `down = {}`, the filed table is `{0: [7], 3: [1]}`, and the car is still idle at floor 0 |
| `ElevatorExample.ExampleFloors` | src/main/java/ElevatorSystem.java:26-29 | the floors reported on the 30 ticks are 0,1,2,3,3,3,3,2,1 and then 1 to the end |
| `ElevatorExample.ExampleTrace` | src/main/java/ElevatorSystem.java:21-30 | from tick 12 on the car is idle at floor 1 with nothing queued; on every tick the ride from 0 is still filed, floor 7 is never queued, and the car never rises above floor 3 |
| `ElevatorExample.RunExample` | src/main/java/ElevatorSystem.java:21-30 | driving the object itself through the example gives the golden floor sequence and ends with empty queues and only the ride from 0 filed |
| `ElevatorExample.ClampExample` | src/main/java/Elevator.java:35-36 | in a 21-floor building a ride from -5 to 100 is the ride from 0 to 20 |
| `ElevatorExample.TieGoesUp` | src/main/java/Elevator.java:70 | an idle car equally far from its nearest up and down stops commits up |
| `ElevatorExample.SettleAlong` | src/main/java/Elevator.java:62-71 | a run that reaches an idle state with empty queues stays there for every later tick |

## Left out

- Floating point: `Elevator` keeps the position as a `double`, rounds it
  with `Math.round` and compares it to a floor within `1e-9`. The speed is
  one floor per tick and every target is a whole floor, so the position is
  always a whole number. The model keeps it as an integer, and `Inv` proves
  that it always equals the floor.
- ElevatorCore.Elevator.IsAtFloor: compares whole-floor positions exactly
  instead of within `1e-9`, for the reason above.
- Integer width: floors are unbounded integers. Every floor the car handles
  lies inside the building, so no differences or absolute values can
  overflow. The one wrap that is not modelled is `numFloors - 1` when
  `numFloors` is `Integer.MIN_VALUE`.
- `state()`: its `String.format` rendering of the fields and of the Java
  collections is not modelled. `ElevatorCore.Elevator.Snapshot` gives these
  fields, with the rest of the state, as a value.
- The system wrapper: `requestRide`, `step` and `state` only delegate to the
  car. `main` writes each state with `printf`. Its call sequence is modelled
  by `ElevatorExample.RunExample`, which records the reported floor where
  `main` prints it.
- Java collections: `TreeSet` ordering and balancing and `HashMap` hashing
  are not modelled. The queues are mathematical sets with least/greatest as
  "first", and the table is a map to sequences. `remove`, which may return
  null, is read as "the filed list, or the empty list", and an empty list
  refiles nothing.
- Liveness: "every request is eventually served" does not hold for this
  code, so it is not stated. `ElevatorExample.ExampleTrace` exhibits a ride
  that is never served. The safety halves are proved instead:
  `QueuedFloorsServed` and `FiledDestinationsKept`.
- Concurrency: the code is single-threaded and has no synchronisation.
