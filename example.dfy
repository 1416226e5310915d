/**
 The example run of the system wrapper: a 21-floor building, the car at
 floor 0, a ride from 0 to 7 and a ride from 3 to 1, then 30 ticks.  The
 ride from 0 is filed while the idle car stands at 0, so it never joins a
 queue and the car never goes to floor 7.
 */
module ElevatorExample {
  import opened ElevatorModel
  import opened ElevatorProperties
  import opened ElevatorCore

  /** The floor the car reports before each of `n` ticks, as the example prints it. */
  function Floors(c: CarState, n: nat): (r: seq<int>)
    ensures |r| == n
    ensures n > 0 ==> r[0] == c.current
    ensures forall k :: 0 <= k < n ==> r[k] == Run(c, k).current
    decreases n
  {
    if n == 0 then [] else [c.current] + Floors(Step(c), n - 1)
  }

  lemma {:induction false} RunSnoc(c: CarState, n: nat)
    ensures Run(c, n + 1) == Step(Run(c, n))
    decreases n
  {
    if n > 0 {
      RunSnoc(Step(c), n - 1);
    }
  }

  lemma {:induction false} FloorsSnoc(c: CarState, n: nat)
    ensures Floors(c, n + 1) == Floors(c, n) + [Run(c, n).current]
    decreases n
  {
    if n > 0 {
      FloorsSnoc(Step(c), n - 1);
    }
  }

  /** Ticking a number of states further is ticking in two stretches. */
  lemma {:induction false} RunAdd(c: CarState, a: nat, b: nat)
    ensures Run(c, a + b) == Run(Run(c, a), b)
    decreases a
  {
    if a > 0 {
      RunAdd(Step(c), a - 1, b);
    }
  }

  lemma {:induction false} FloorsAdd(c: CarState, a: nat, b: nat)
    ensures Floors(c, a + b) == Floors(c, a) + Floors(Run(c, a), b)
    decreases a
  {
    if a > 0 {
      FloorsAdd(Step(c), a - 1, b);
    }
  }

  /** An idle car with nothing queued reports the same floor on every tick. */
  lemma {:induction false} FloorsIdle(c: CarState, n: nat)
    requires c.dwellTicks <= 0 && c.dir == Idle && c.up == {} && c.down == {}
    ensures Floors(c, n) == seq(n, _ => c.current)
    decreases n
  {
    if n > 0 {
      assert Step(c) == c;
      FloorsIdle(c, n - 1);
    }
  }

  /** Following a list of states each of which is the tick of the one before. */
  lemma {:induction false} RunAlong(ss: seq<CarState>, i: nat)
    requires i < |ss|
    requires forall k :: 0 <= k < |ss| - 1 ==> Step(ss[k]) == ss[k + 1]
    ensures Run(ss[0], i) == ss[i]
    decreases i
  {
    if i > 0 {
      RunAlong(ss[1..], i - 1);
    }
  }

  lemma {:induction false} FloorsAlong(ss: seq<CarState>)
    requires |ss| > 0
    requires forall k :: 0 <= k < |ss| - 1 ==> Step(ss[k]) == ss[k + 1]
    ensures Floors(ss[0], |ss|) == seq(|ss|, k requires 0 <= k < |ss| => ss[k].current)
    decreases |ss|
  {
    if |ss| > 1 {
      FloorsAlong(ss[1..]);
    }
  }

  /** The state after the two rides are requested. */
  function Requested(): CarState
  {
    AddHallCall(AddHallCall(Init(21, 0), 0, 7), 3, 1)
  }

  /** Both rides filed, and the ride from 0 alone. */
  const Filed2: map<int, seq<int>> := map[0 := [7], 3 := [1]]
  const Filed1: map<int, seq<int>> := map[0 := [7]]

  /** Only origin 3 is queued; both rides are filed; the car is still idle at 0. */
  lemma ExampleRequests()
    ensures Requested() == T0
    ensures Requested().up == {3} && Requested().down == {}
    ensures Requested().pending == map[0 := [7], 3 := [1]]
    ensures Requested().dir == Idle && Requested().current == 0
  {
    var c1 := AddHallCall(Init(21, 0), 0, 7);
    assert ClampFloor(21, 0) == 0 && ClampFloor(21, 7) == 7;
    assert [] + [7] == [7];
    assert c1 == CarState(21, 0, 0, Idle, Closed, 0, {}, {}, Filed1);
    assert ClampFloor(21, 3) == 3 && ClampFloor(21, 1) == 1;
    assert [] + [1] == [1];
    assert Filed1[3 := [1]] == Filed2;
  }

  /** The states of the first twelve ticks, until the car is idle again. */
  const T0: CarState := CarState(21, 0, 0, Idle, Closed, 0, {3}, {}, Filed2)
  const T1: CarState := CarState(21, 1, 1, Up, Closed, 0, {3}, {}, Filed2)
  const T2: CarState := CarState(21, 2, 2, Up, Closed, 0, {3}, {}, Filed2)
  const T3: CarState := CarState(21, 3, 3, Up, Closed, 0, {3}, {}, Filed2)
  const T4: CarState := CarState(21, 3, 3, Up, Open, 2, {}, {1}, Filed1)
  const T5: CarState := CarState(21, 3, 3, Up, Open, 1, {}, {1}, Filed1)
  const T6: CarState := CarState(21, 3, 3, Up, Closed, 0, {}, {1}, Filed1)
  const T7: CarState := CarState(21, 2, 2, Down, Closed, 0, {}, {1}, Filed1)
  const T8: CarState := CarState(21, 1, 1, Down, Closed, 0, {}, {1}, Filed1)
  const T9: CarState := CarState(21, 1, 1, Down, Open, 2, {}, {}, Filed1)
  const T10: CarState := CarState(21, 1, 1, Down, Open, 1, {}, {}, Filed1)
  const T11: CarState := CarState(21, 1, 1, Down, Closed, 0, {}, {}, Filed1)
  const T12: CarState := CarState(21, 1, 1, Idle, Closed, 0, {}, {}, Filed1)

  function Ticks(): seq<CarState>
  {
    [T0, T1, T2, T3, T4, T5, T6, T7, T8, T9, T10, T11, T12]
  }

  lemma Tick0()
    ensures Step(T0) == T1
  {
  }

  lemma Tick1()
    ensures Step(T1) == T2
  {
  }

  lemma Tick2()
    ensures Step(T2) == T3
  {
  }

  lemma Tick3()
    ensures Step(T3) == T4
  {
  }

  lemma Tick4()
    ensures Step(T4) == T5
  {
  }

  lemma Tick5()
    ensures Step(T5) == T6
  {
  }

  lemma Tick6()
    ensures Step(T6) == T7
  {
  }

  lemma Tick7()
    ensures Step(T7) == T8
  {
  }

  lemma Tick8()
    ensures Step(T8) == T9
  {
  }

  lemma Tick9()
    ensures Step(T9) == T10
  {
  }

  lemma Tick10()
    ensures Step(T10) == T11
  {
  }

  lemma Tick11()
    ensures Step(T11) == T12
  {
  }

  lemma TicksFollow()
    ensures |Ticks()| == 13
    ensures forall k :: 0 <= k < |Ticks()| - 1 ==> Step(Ticks()[k]) == Ticks()[k + 1]
  {
    Tick0(); Tick1(); Tick2(); Tick3(); Tick4(); Tick5();
    Tick6(); Tick7(); Tick8(); Tick9(); Tick10(); Tick11();
  }

  /** The golden floor sequence of the example's 30 ticks. */
  const ExpectedFloors: seq<int> :=
    [0, 1, 2, 3, 3, 3, 3, 2, 1, 1, 1, 1] + seq(18, _ => 1)

  /** A car that reaches an idle state with nothing queued stays in it. */
  lemma SettleAlong(ss: seq<CarState>, t: nat)
    requires |ss| > 0 && t >= |ss| - 1
    requires forall k :: 0 <= k < |ss| - 1 ==> Step(ss[k]) == ss[k + 1]
    requires var last := ss[|ss| - 1]; last.dwellTicks <= 0 && last.dir == Idle && last.up == {} && last.down == {}
    ensures Run(ss[0], t) == ss[|ss| - 1]
  {
    var n := |ss| - 1;
    RunAlong(ss, n);
    RunAdd(ss[0], n, t - n);
    IdleStable(ss[n], t - n);
  }

  /** The floors reported along such a run: those of the list, then the last one forever. */
  lemma FloorsSettleAlong(start: CarState, ss: seq<CarState>, t: nat)
    requires |ss| > 0 && start == ss[0] && t >= |ss| - 1
    requires forall k :: 0 <= k < |ss| - 1 ==> Step(ss[k]) == ss[k + 1]
    requires var last := ss[|ss| - 1]; last.dwellTicks <= 0 && last.dir == Idle && last.up == {} && last.down == {}
    ensures Floors(start, t)
            == seq(|ss| - 1, k requires 0 <= k < |ss| - 1 => ss[k].current)
               + seq(t - (|ss| - 1), _ => ss[|ss| - 1].current)
  {
    var n := |ss| - 1;
    FloorsAlong(ss);
    FloorsAdd(ss[0], n, t - n);
    RunAlong(ss, n);
    FloorsIdle(ss[n], t - n);
    assert Floors(ss[0], n + 1) == Floors(ss[0], n) + [ss[n].current] by {
      FloorsSnoc(ss[0], n);
    }
    assert Floors(ss[0], n) == Floors(ss[0], n + 1)[..n];
  }

  /** The example's 30 reported floors are the golden sequence. */
  lemma ExampleFloors(c: CarState)
    requires c == Requested()
    ensures Floors(c, 30) == ExpectedFloors
  {
    ExampleRequests();
    TicksFollow();
    FloorsSettleAlong(c, Ticks(), 30);
    TickFloors();
  }

  /** The floors of the first twelve ticks. */
  lemma TickFloors()
    ensures seq(12, k requires 0 <= k < 12 => Ticks()[k].current) == [0, 1, 2, 3, 3, 3, 3, 2, 1, 1, 1, 1]
  {
  }

  /**
   The example on the value model: from the twelfth tick on the car is idle
   at floor 1 with the door closed and nothing queued, and for every number
   of ticks the ride from 0 is still filed, floor 7 is never queued, and the
   car never rises above floor 3.
   */
  lemma ExampleTrace(c: CarState)
    requires c == Requested()
    ensures forall t: nat :: t >= 12 ==> Run(c, t) == CarState(21, 1, 1, Idle, Closed, 0, {}, {}, map[0 := [7]])
    ensures forall t: nat :: 0 in Run(c, t).pending && Run(c, t).pending[0] == [7]
    ensures forall t: nat :: 7 !in Run(c, t).up && 7 !in Run(c, t).down
    ensures forall t: nat :: Run(c, t).current <= 3
  {
    ExampleRequests();
    TicksFollow();
    var ss := Ticks();
    forall t: nat
      ensures t >= 12 ==> Run(c, t) == ss[12]
      ensures 0 in Run(c, t).pending && Run(c, t).pending[0] == [7]
      ensures 7 !in Run(c, t).up && 7 !in Run(c, t).down
      ensures Run(c, t).current <= 3
    {
      if t <= 12 {
        RunAlong(ss, t);
      }
      if t >= 12 {
        SettleAlong(ss, t);
      }
    }
  }

  /** Clamping: a ride from -5 to 100 in a 21-floor building is the ride from 0 to 20. */
  lemma ClampExample()
    ensures AddHallCall(Init(21, 0), -5, 100) == AddHallCall(Init(21, 0), 0, 20)
    ensures AddHallCall(Init(21, 0), -5, 100).pending == map[0 := [20]]
  {
    assert [] + [20] == [20];
  }

  /** Tie-break: idle at 5 with stops at 7 and at 3, the car commits up. */
  lemma TieGoesUp()
    ensures Step(CarState(10, 5, 5, Idle, Closed, 0, {7}, {3}, map[])).dir == Up
  {
  }

  /**
   The example driven through the object: build the car, request the two
   rides, and tick 30 times, recording the floor reported before each tick.
   */
  method RunExample() returns (floors: seq<int>, up: set<int>, down: set<int>, pending: map<int, seq<int>>)
    ensures floors == ExpectedFloors
    ensures up == {} && down == {} && pending == map[0 := [7]]
  {
    var car := new Elevator(21, 0);
    car.AddHallCall(0, 7);
    car.AddHallCall(3, 1);
    ghost var start := car.Snapshot();
    assert start == Requested();
    floors := [];
    for t := 0 to 30
      invariant car.Valid()
      invariant car.Snapshot() == Run(start, t)
      invariant floors == Floors(start, t)
    {
      FloorsSnoc(start, t);
      RunSnoc(start, t);
      floors := floors + [car.current];
      car.Step();
    }
    ExampleFloors(start);
    ExampleTrace(start);
    up, down, pending := car.up, car.down, car.pendingDestinations;
  }
}
