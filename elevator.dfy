/**
 The elevator car as an object whose fields each operation updates in place.
 Every method is proved to leave the object in the state that the
 corresponding function of module ElevatorModel gives, and to keep the
 invariant `ElevatorModel.Inv`.
 */
module ElevatorCore {
  import opened ElevatorModel
  import opened ElevatorProperties

  datatype Option<T> = None | Some(value: T)

  class Elevator {
    const numFloors: int
    var current: int
    var pos: int
    var dir: Direction
    var door: Door
    var dwellTicks: int

    /** Floors to stop at on the way up; the first is the least. */
    var up: set<int>
    /** Floors to stop at on the way down; the first is the greatest. */
    var down: set<int>
    /** Destinations filed under the origin floor of their hall call. */
    var pendingDestinations: map<int, seq<int>>

    /** The car's whole state as a value. */
    function Snapshot(): CarState
      reads this
    {
      CarState(numFloors, current, pos, dir, door, dwellTicks, up, down, pendingDestinations)
    }

    ghost predicate Valid()
      reads this
    {
      Inv(Snapshot())
    }

    constructor (numFloors: int, startFloor: int)
      ensures Valid()
      ensures Snapshot() == Init(numFloors, startFloor)
    {
      this.numFloors := numFloors;
      var start := Clamp(startFloor, 0, numFloors - 1);
      current := start;
      pos := start;
      dir := Idle;
      door := Closed;
      dwellTicks := 0;
      up, down := {}, {};
      pendingDestinations := map[];
      new;
      InitEstablishesInv(numFloors, startFloor);
    }

    /** Registers a hall call from `origin` to `dest`. */
    method AddHallCall(origin: int, dest: int)
      requires Valid()
      modifies this
      ensures Valid()
      ensures Snapshot() == ElevatorModel.AddHallCall(old(Snapshot()), origin, dest)
    {
      ghost var before := Snapshot();
      AddHallCallKeepsInv(before, origin, dest);
      var o := Clamp(origin, 0, numFloors - 1);
      var d := Clamp(dest, 0, numFloors - 1);
      if o == d {
        return;
      }

      pendingDestinations := pendingDestinations[o := Filed(pendingDestinations, o) + [d]];

      if dir == Idle {
        if o > current {
          up := up + {o};
        } else if o < current {
          down := down + {o};
        }
        return;
      }
      if dir == Up {
        if o >= current {
          up := up + {o};
        } else {
          down := down + {o};
        }
      } else {
        if o <= current {
          down := down + {o};
        } else {
          up := up + {o};
        }
      }
    }

    /** Advances the car by one tick. */
    method Step()
      requires Valid()
      modifies this
      ensures Valid()
      ensures Snapshot() == ElevatorModel.Step(old(Snapshot()))
    {
      ghost var before := Snapshot();
      StepKeepsInv(before);
      if dwellTicks > 0 {
        dwellTicks := dwellTicks - 1;
        if dwellTicks == 0 {
          door := Closed;
        }
        return;
      }

      if dir == Idle {
        if up != {} && down == {} {
          dir := Up;
        } else if up == {} && down != {} {
          dir := Down;
        } else if up != {} && down != {} {
          var nextUp := Least(up);
          var nextDown := Greatest(down);
          var dUp := Abs(nextUp - current);
          var dDown := Abs(current - nextDown);
          dir := if dUp <= dDown then Up else Down;
        } else {
          return;
        }
      }

      var target: Option<int> :=
        if dir == Up then (if up == {} then None else Some(Least(up)))
        else (if down == {} then None else Some(Greatest(down)));
      if target == None {
        if dir == Up && down != {} {
          dir := Down;
          target := Some(Greatest(down));
        } else if dir == Down && up != {} {
          dir := Up;
          target := Some(Least(up));
        } else {
          dir := Idle;
          return;
        }
      }
      var f := target.value;

      if IsAtFloor(f) {
        ArriveAt(f);
        return;
      }

      door := Closed;
      if dir == Up {
        pos := Min(pos + FloorsPerTick, f);
      } else {
        pos := Max(pos - FloorsPerTick, f);
      }
      current := pos;
    }

    /** Arrival at `floor`: snap, poll the active queue, open the door, refile. */
    method ArriveAt(floor: int)
      requires dir != Idle && pos == floor && dwellTicks == 0
      requires dir == Up ==> up != {} && floor == Least(up)
      requires dir == Down ==> down != {} && floor == Greatest(down)
      requires Valid()
      modifies this
      ensures Valid()
      ensures Snapshot() == Arrive(old(Snapshot()), floor)
    {
      ghost var c := Snapshot();
      ArriveKeepsInv(c, floor);
      pos := floor;
      current := floor;
      if dir == Up {
        up := PollLeast(up);
      } else if dir == Down {
        down := PollGreatest(down);
      }

      door := Open;
      dwellTicks := DwellTicks;

      var dests := Filed(pendingDestinations, floor);
      pendingDestinations := pendingDestinations - {floor};
      ghost var polledUp, polledDown := up, down;
      Refile(dests, floor);
      assert Arrive(c, floor) == CarState(c.numFloors, floor, floor, c.dir, Open, DwellTicks,
        polledUp + Refiled(dests, floor, true), polledDown + Refiled(dests, floor, false),
        c.pending - {floor});
    }

    /** Queues each destination filed under `floor` on its side of `floor`. */
    method Refile(dests: seq<int>, floor: int)
      modifies this`up, this`down
      ensures up == old(up) + Refiled(dests, floor, true)
      ensures down == old(down) + Refiled(dests, floor, false)
    {
      for i := 0 to |dests|
        invariant up == old(up) + Refiled(dests[..i], floor, true)
        invariant down == old(down) + Refiled(dests[..i], floor, false)
      {
        RefiledExtend(dests, i, floor);
        var d := dests[i];
        if d == floor {
          continue;
        }
        if d > floor {
          up := up + {d};
        } else if d < floor {
          down := down + {d};
        }
      }
      assert dests[..|dests|] == dests;
    }

    /** Whether the car is at floor `f`: positions are whole floors, so within a floor means there. */
    function IsAtFloor(f: int): (r: bool)
      reads this
      ensures r <==> -1 < pos - f < 1
    {
      pos == f
    }
  }

  /** Refiling one more destination adds it to its side's set and nothing else. */
  lemma RefiledExtend(dests: seq<int>, i: int, f: int)
    requires 0 <= i < |dests|
    ensures Refiled(dests[..i + 1], f, true)
            == Refiled(dests[..i], f, true) + (if dests[i] > f then {dests[i]} else {})
    ensures Refiled(dests[..i + 1], f, false)
            == Refiled(dests[..i], f, false) + (if dests[i] < f then {dests[i]} else {})
  {
    assert dests[..i + 1] == dests[..i] + [dests[i]];
  }
}
