/**
 The single elevator car as a value: the state the car carries from tick to
 tick, and one function per operation that gives the state after that
 operation.  The class in module ElevatorCore updates the same state in
 place and is proved to agree with these functions step by step.
 */
module ElevatorModel {

  datatype Direction = Idle | Up | Down

  datatype Door = Open | Closed

  /** Number of ticks the door stays open after an arrival. */
  const DwellTicks: int := 2

  /** Distance the car travels in one tick (one whole floor). */
  const FloorsPerTick: int := 1

  /**
   Everything the car knows.  `up` is the ascending queue (its first floor is
   its least), `down` the descending queue (its first floor is its greatest),
   `pending` files the destinations of each hall call under its origin.
   `pos` is the car's position; with one floor per tick and whole-floor
   targets it never leaves the whole numbers.
   */
  datatype CarState = CarState(
    numFloors: int,
    current: int,
    pos: int,
    dir: Direction,
    door: Door,
    dwellTicks: int,
    up: set<int>,
    down: set<int>,
    pending: map<int, seq<int>>)

  function Min(a: int, b: int): int { if a <= b then a else b }

  function Max(a: int, b: int): int { if a >= b then a else b }

  /** `max(lo, min(hi, v))`: the floor clamp used for every floor argument. */
  function Clamp(v: int, lo: int, hi: int): (r: int)
    ensures lo <= hi ==> lo <= r <= hi
    ensures lo <= v <= hi ==> r == v
    ensures lo <= hi && v < lo ==> r == lo
    ensures lo <= hi && hi < v ==> r == hi
    ensures hi < lo ==> r == lo
  {
    Max(lo, Min(hi, v))
  }

  /** The highest floor a clamp into `[0, numFloors - 1]` can yield. */
  function TopFloor(numFloors: int): int { Max(0, numFloors - 1) }

  predicate InBuilding(numFloors: int, f: int) { 0 <= f <= TopFloor(numFloors) }

  /** Clamping into the building is the same as clamping into `[0, TopFloor]`. */
  function ClampFloor(numFloors: int, v: int): (r: int)
    ensures InBuilding(numFloors, r)
    ensures InBuilding(numFloors, v) ==> r == v
    ensures v < 0 ==> r == 0
    ensures v > TopFloor(numFloors) ==> r == TopFloor(numFloors)
  {
    Clamp(v, 0, numFloors - 1)
  }

  predicate IsLeast(m: int, s: set<int>) { m in s && forall x :: x in s ==> m <= x }

  predicate IsGreatest(m: int, s: set<int>) { m in s && forall x :: x in s ==> x <= m }

  lemma Inhabited(s: set<int>)
    requires s != {}
    ensures exists y :: y in s
  {
    if forall y :: y !in s {
      assert false;
    }
  }

  lemma {:induction false} LeastExists(s: set<int>)
    requires s != {}
    ensures exists m :: IsLeast(m, s)
    decreases |s|
  {
    Inhabited(s);
    var y :| y in s;
    if s != {y} {
      var rest := s - {y};
      LeastExists(rest);
      var m :| IsLeast(m, rest);
      assert forall x :: x in s ==> x == y || x in rest;
      if y < m {
        assert IsLeast(y, s);
      } else {
        assert IsLeast(m, s);
      }
    } else {
      assert IsLeast(y, s);
    }
  }

  lemma {:induction false} GreatestExists(s: set<int>)
    requires s != {}
    ensures exists m :: IsGreatest(m, s)
    decreases |s|
  {
    Inhabited(s);
    var y :| y in s;
    if s != {y} {
      var rest := s - {y};
      GreatestExists(rest);
      var m :| IsGreatest(m, rest);
      assert forall x :: x in s ==> x == y || x in rest;
      if y > m {
        assert IsGreatest(y, s);
      } else {
        assert IsGreatest(m, s);
      }
    } else {
      assert IsGreatest(y, s);
    }
  }

  /** First floor of the ascending queue. */
  function Least(s: set<int>): (m: int)
    requires s != {}
    ensures IsLeast(m, s)
  {
    LeastExists(s);
    var m :| IsLeast(m, s); m
  }

  /** First floor of the descending queue. */
  function Greatest(s: set<int>): (m: int)
    requires s != {}
    ensures IsGreatest(m, s)
  {
    GreatestExists(s);
    var m :| IsGreatest(m, s); m
  }

  /** pollFirst on the ascending queue: drop its least floor, if any. */
  function PollLeast(s: set<int>): (r: set<int>)
    ensures s == {} ==> r == {}
    ensures s != {} ==> Least(s) !in r && r + {Least(s)} == s
  {
    if s == {} then s else s - {Least(s)}
  }

  /** pollFirst on the descending queue: drop its greatest floor, if any. */
  function PollGreatest(s: set<int>): (r: set<int>)
    ensures s == {} ==> r == {}
    ensures s != {} ==> Greatest(s) !in r && r + {Greatest(s)} == s
  {
    if s == {} then s else s - {Greatest(s)}
  }

  /** The destinations filed under `origin`, or none. */
  function Filed(pending: map<int, seq<int>>, origin: int): seq<int>
  {
    if origin in pending then pending[origin] else []
  }

  /** A freshly built car: at the clamped start floor, idle, door closed. */
  function Init(numFloors: int, startFloor: int): (r: CarState)
    ensures Inv(r)
    ensures r.numFloors == numFloors && r.current == ClampFloor(numFloors, startFloor) && r.pos == r.current
    ensures r.dir == Idle && r.door == Closed && r.up == {} && r.down == {} && r.pending == map[]
  {
    var f := ClampFloor(numFloors, startFloor);
    CarState(numFloors, f, f, Idle, Closed, 0, {}, {}, map[])
  }

  /** Which queue a new origin joins, given the car's direction and floor. */
  datatype Queue = UpQueue | DownQueue | NoQueue

  function Classify(dir: Direction, current: int, origin: int): (q: Queue)
    ensures q == UpQueue ==> origin > current || (dir == Up && origin == current)
    ensures q == DownQueue ==> origin < current || (dir == Down && origin == current)
    ensures q == NoQueue <==> dir == Idle && origin == current
  {
    match dir
    case Idle =>
      if origin > current then UpQueue
      else if origin < current then DownQueue
      else NoQueue
    case Up =>
      if origin >= current then UpQueue else DownQueue
    case Down =>
      if origin <= current then DownQueue else UpQueue
  }

  /** A hall call from `origin` to `dest`. */
  function AddHallCall(c: CarState, origin: int, dest: int): (r: CarState)
    ensures r.(up := c.up, down := c.down, pending := c.pending) == c
    ensures c.up <= r.up && c.down <= r.down && r.up + r.down <= c.up + c.down + {ClampFloor(c.numFloors, origin)}
    ensures Inv(c) ==> Inv(r)
  {
    var o := ClampFloor(c.numFloors, origin);
    var d := ClampFloor(c.numFloors, dest);
    if o == d then c
    else
      var filed := c.(pending := c.pending[o := Filed(c.pending, o) + [d]]);
      match Classify(c.dir, c.current, o)
      case UpQueue => filed.(up := c.up + {o})
      case DownQueue => filed.(down := c.down + {o})
      case NoQueue => filed
  }

  /** The initial direction an idle car commits to; ties go up. */
  function ChooseDirection(current: int, up: set<int>, down: set<int>): (r: Direction)
    ensures r == Up ==> up != {}
    ensures r == Down ==> down != {}
    ensures r == Idle <==> up == {} && down == {}
  {
    if up != {} && down == {} then Up
    else if up == {} && down != {} then Down
    else if up != {} && down != {} then
      var dUp := Abs(Least(up) - current);
      var dDown := Abs(current - Greatest(down));
      if dUp <= dDown then Up else Down
    else Idle
  }

  function Abs(x: int): int { if x < 0 then -x else x }

  /**
   The direction the car travels in once it has committed to `dir`: it keeps
   `dir` while that queue has a floor, turns round when only the other queue
   has one, and goes idle when neither has.  An unresolved `dir` other than
   `Up` is read as `Down`, as the conditional in `Elevator.step` does.
   */
  function Resolve(dir: Direction, up: set<int>, down: set<int>): (r: Direction)
    ensures r == Up ==> up != {}
    ensures r == Down ==> down != {}
    ensures r == Idle <==> up == {} && down == {}
    ensures dir == Up && up != {} ==> r == Up
    ensures dir != Up && down != {} ==> r == Down
  {
    if dir == Up then
      if up != {} then Up else if down != {} then Down else Idle
    else
      if down != {} then Down else if up != {} then Up else Idle
  }

  /** The direction in force after the idle-time choice, before resolution. */
  function Commit(c: CarState): Direction
  {
    if c.dir == Idle then ChooseDirection(c.current, c.up, c.down) else c.dir
  }

  /** The direction the car heads in on a tick it does not dwell. */
  function Heading(c: CarState): (r: Direction)
    ensures r == Up ==> c.up != {}
    ensures r == Down ==> c.down != {}
  {
    Resolve(Commit(c), c.up, c.down)
  }

  /** The floor the car heads for: the first floor of the queue it heads along. */
  function Target(c: CarState): (t: int)
    requires Heading(c) != Idle
    ensures Heading(c) == Up ==> t in c.up && forall x :: x in c.up ==> t <= x
    ensures Heading(c) == Down ==> t in c.down && forall x :: x in c.down ==> x <= t
  {
    if Heading(c) == Up then Least(c.up) else Greatest(c.down)
  }

  /** Floors among `dests` above (`above`) or below (`!above`) floor `f`. */
  function Refiled(dests: seq<int>, f: int, above: bool): set<int>
  {
    set d | d in dests && (if above then d > f else d < f)
  }

  /** Arrival at floor `f`: snap, poll the active queue, open, dwell, refile. */
  function Arrive(c: CarState, f: int): (r: CarState)
    ensures r.pos == f && r.current == f && r.door == Open && r.dwellTicks == DwellTicks
    ensures f !in r.pending && r.pending.Keys == c.pending.Keys - {f}
    ensures forall d :: d in Filed(c.pending, f) && d != f ==> d in r.up + r.down
    ensures r.up + r.down <= c.up + c.down + (set d | d in Filed(c.pending, f))
  {
    var dests := Filed(c.pending, f);
    var up := if c.dir == Up then PollLeast(c.up) else c.up;
    var down := if c.dir == Down then PollGreatest(c.down) else c.down;
    c.(pos := f, current := f,
       up := up + Refiled(dests, f, true),
       down := down + Refiled(dests, f, false),
       door := Open, dwellTicks := DwellTicks,
       pending := c.pending - {f})
  }

  /** One tick of travel toward `target`, never past it. */
  function Move(c: CarState, target: int): (r: CarState)
    ensures c.dir == Up && c.pos <= target ==> c.pos <= r.pos <= target && r.pos <= c.pos + FloorsPerTick
    ensures c.dir != Up && target <= c.pos ==> target <= r.pos <= c.pos && c.pos - FloorsPerTick <= r.pos
    ensures r.current == r.pos && r.door == Closed
    ensures r.(pos := c.pos, current := c.current, door := c.door) == c
  {
    var p := if c.dir == Up then Min(c.pos + FloorsPerTick, target)
             else Max(c.pos - FloorsPerTick, target);
    c.(door := Closed, pos := p, current := p)
  }

  /** One tick of the car. */
  function Step(c: CarState): (r: CarState)
    ensures r.numFloors == c.numFloors
    ensures c.dwellTicks > 0 ==> r.dwellTicks == c.dwellTicks - 1 && r.up == c.up && r.down == c.down
  {
    if c.dwellTicks > 0 then
      var d := c.dwellTicks - 1;
      c.(dwellTicks := d, door := if d == 0 then Closed else c.door)
    else if c.dir == Idle && c.up == {} && c.down == {} then c
    else if Heading(c) == Idle then c.(dir := Idle)
    else
      var t := Target(c);
      var c1 := c.(dir := Heading(c));
      if c1.pos == t then Arrive(c1, t) else Move(c1, t)
  }

  /** `n` ticks in a row. */
  function Run(c: CarState, n: nat): CarState
    decreases n
  {
    if n == 0 then c else Run(Step(c), n - 1)
  }

  /**
   The invariant every reachable state keeps: position and floor agree and lie
   in the building, every queued or filed floor lies in the building, a filed
   destination differs from its origin, the door is open exactly while the
   car dwells, and the queues lie on their own side of the car (the floor the
   car is at may be queued only on the side it is travelling toward).
   */
  ghost predicate Inv(c: CarState)
  {
    && c.pos == c.current
    && InBuilding(c.numFloors, c.current)
    && (forall f :: f in c.up ==> InBuilding(c.numFloors, f))
    && (forall f :: f in c.down ==> InBuilding(c.numFloors, f))
    && (forall o :: o in c.pending ==> InBuilding(c.numFloors, o))
    && (forall o, d :: o in c.pending && d in c.pending[o] ==> InBuilding(c.numFloors, d) && d != o)
    && 0 <= c.dwellTicks <= DwellTicks
    && (c.dwellTicks == 0 <==> c.door == Closed)
    && (forall f :: f in c.up ==> if c.dir == Up then f >= c.current else f > c.current)
    && (forall f :: f in c.down ==> if c.dir == Down then f <= c.current else f < c.current)
  }
}
