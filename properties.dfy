/**
 What the car promises, stated over the value model: how a hall call is
 filed and classified, what each kind of tick does, and the invariant that
 every reachable state keeps.
 */
module ElevatorProperties {
  import opened ElevatorModel

  /** A new car satisfies the invariant and stands at the clamped start floor. */
  lemma InitEstablishesInv(numFloors: int, startFloor: int)
    ensures Inv(Init(numFloors, startFloor))
    ensures Init(numFloors, startFloor).numFloors == numFloors
    ensures Init(numFloors, startFloor).current == ClampFloor(numFloors, startFloor)
    ensures Init(numFloors, startFloor).pos == Init(numFloors, startFloor).current
  {
  }

  /**
   Filing: a call whose floors clamp to the same floor changes nothing;
   otherwise the clamped destination is appended to the list filed under the
   clamped origin, every other origin keeps its list, and the car itself is
   untouched.
   */
  lemma AddHallCallFiles(c: CarState, origin: int, dest: int)
    ensures var o, d := ClampFloor(c.numFloors, origin), ClampFloor(c.numFloors, dest);
            var c' := AddHallCall(c, origin, dest);
            && (o == d ==> c' == c)
            && (o != d ==>
                  && c'.pending.Keys == c.pending.Keys + {o}
                  && c'.pending[o] == Filed(c.pending, o) + [d]
                  && (forall k :: k in c.pending && k != o ==> c'.pending[k] == c.pending[k])
                  && c'.numFloors == c.numFloors && c'.current == c.current && c'.pos == c.pos
                  && c'.dir == c.dir && c'.door == c.door && c'.dwellTicks == c.dwellTicks)
  {
  }

  /**
   Classification of the clamped origin `o` of a call with `o != d`: while
   idle it joins the queue on its side of the car and neither queue when it
   is the car's floor; while travelling up, the floor the car is at and those
   above join `up`; while travelling down, the floor the car is at and those
   below join `down`.
   */
  lemma AddHallCallClassifies(c: CarState, origin: int, dest: int)
    requires ClampFloor(c.numFloors, origin) != ClampFloor(c.numFloors, dest)
    ensures var o, c' := ClampFloor(c.numFloors, origin), AddHallCall(c, origin, dest);
            && (c.dir == Idle && o > c.current ==> c'.up == c.up + {o} && c'.down == c.down)
            && (c.dir == Idle && o < c.current ==> c'.up == c.up && c'.down == c.down + {o})
            && (c.dir == Idle && o == c.current ==> c'.up == c.up && c'.down == c.down)
            && (c.dir == Up && o >= c.current ==> c'.up == c.up + {o} && c'.down == c.down)
            && (c.dir == Up && o < c.current ==> c'.up == c.up && c'.down == c.down + {o})
            && (c.dir == Down && o <= c.current ==> c'.up == c.up && c'.down == c.down + {o})
            && (c.dir == Down && o > c.current ==> c'.up == c.up + {o} && c'.down == c.down)
  {
  }

  lemma AddHallCallKeepsInv(c: CarState, origin: int, dest: int)
    requires Inv(c)
    ensures Inv(AddHallCall(c, origin, dest))
  {
  }

  /** The queues never share a floor. */
  lemma QueuesDisjoint(c: CarState)
    requires Inv(c)
    ensures c.up !! c.down
  {
    forall f | f in c.up ensures f !in c.down {
      if f in c.down {
        assert false;
      }
    }
  }

  /** A dwelling tick counts down, closes the door when the count reaches 0, and does nothing else. */
  lemma DwellTick(c: CarState)
    requires c.dwellTicks > 0
    ensures Step(c).dwellTicks == c.dwellTicks - 1
    ensures Step(c).door == (if c.dwellTicks == 1 then Closed else c.door)
    ensures Step(c).(dwellTicks := c.dwellTicks, door := c.door) == c
  {
  }

  /** An idle car with empty queues and no dwell stays exactly as it is, tick after tick. */
  lemma {:induction false} IdleStable(c: CarState, n: nat)
    requires c.dwellTicks <= 0 && c.dir == Idle && c.up == {} && c.down == {}
    ensures Run(c, n) == c
    decreases n
  {
    if n > 0 {
      assert Step(c) == c;
      IdleStable(c, n - 1);
    }
  }

  /**
   The idle-time choice: with floors queued on one side only the car heads
   that way; with floors on both sides it heads up exactly when the first up
   floor is no farther than the first down floor (ties go up).
   */
  lemma IdleChoice(c: CarState)
    requires c.dwellTicks <= 0 && c.dir == Idle && (c.up != {} || c.down != {})
    ensures Step(c).dir != Idle
    ensures c.up != {} && c.down == {} ==> Step(c).dir == Up
    ensures c.up == {} && c.down != {} ==> Step(c).dir == Down
    ensures c.up != {} && c.down != {} ==>
              (Step(c).dir == Up <==> Abs(Least(c.up) - c.current) <= Abs(c.current - Greatest(c.down)))
  {
  }

  /**
   Target resolution for a car already travelling: it keeps its direction
   while that queue has a floor, turns round when only the other queue has
   one, and otherwise goes idle with nothing else changed.
   */
  lemma ResolveDirection(c: CarState)
    requires c.dwellTicks <= 0 && c.dir != Idle
    ensures c.dir == Up && c.up != {} ==> Step(c).dir == Up
    ensures c.dir == Up && c.up == {} && c.down != {} ==> Step(c).dir == Down
    ensures c.dir == Down && c.down != {} ==> Step(c).dir == Down
    ensures c.dir == Down && c.down == {} && c.up != {} ==> Step(c).dir == Up
    ensures c.up == {} && c.down == {} ==> Step(c) == c.(dir := Idle)
  {
  }

  /**
   Motion: away from its target the car closes its door and moves exactly one
   floor toward the target (never past it, since the target is a whole floor
   away), its floor follows its position, and the queues and filed
   destinations stay as they were.
   */
  lemma Motion(c: CarState)
    requires Inv(c) && c.dwellTicks == 0 && Heading(c) != Idle && c.pos != Target(c)
    ensures var t, c' := Target(c), Step(c);
            && c'.door == Closed
            && c'.dir == Heading(c)
            && (c'.dir == Up ==> c.pos < t && c'.pos == c.pos + 1 <= t)
            && (c'.dir == Down ==> t < c.pos && t <= c'.pos == c.pos - 1)
            && c'.current == c'.pos
            && c'.up == c.up && c'.down == c.down && c'.pending == c.pending
            && c'.dwellTicks == 0
  {
  }

  /** Under the invariant the target never lies behind the car. */
  lemma TargetAhead(c: CarState)
    requires Inv(c) && Heading(c) != Idle
    ensures Heading(c) == Up ==> c.pos <= Target(c)
    ensures Heading(c) == Down ==> Target(c) <= c.pos
  {
  }

  /**
   Arrival at the target f: the car stands exactly at f with the door open
   for the full dwell, f has left both queues and the filed destinations,
   every destination filed under f is queued on its side of f, no other
   origin's list changes, and the queues are exactly the old ones without f
   plus those destinations.
   */
  lemma Arrival(c: CarState)
    requires Inv(c) && c.dwellTicks == 0 && Heading(c) != Idle && c.pos == Target(c)
    ensures var f, c' := Target(c), Step(c);
            && c'.pos == f && c'.current == f
            && c'.dir == Heading(c)
            && f !in c'.up && f !in c'.down
            && c'.door == Open && c'.dwellTicks == DwellTicks
            && f !in c'.pending
            && (forall d :: d in Filed(c.pending, f) && d > f ==> d in c'.up)
            && (forall d :: d in Filed(c.pending, f) && d < f ==> d in c'.down)
            && (forall k :: k in c.pending && k != f ==> k in c'.pending && c'.pending[k] == c.pending[k])
            && c'.pending.Keys == c.pending.Keys - {f}
            && c'.up == (c.up - {f}) + Refiled(Filed(c.pending, f), f, true)
            && c'.down == (c.down - {f}) + Refiled(Filed(c.pending, f), f, false)
            && c'.numFloors == c.numFloors
  {
  }

  /** Every tick keeps the invariant. */
  lemma StepKeepsInv(c: CarState)
    requires Inv(c)
    ensures Inv(Step(c))
  {
  }

  /** Arrival at the first floor of the active queue keeps the invariant. */
  lemma ArriveKeepsInv(c: CarState, f: int)
    requires c.dir != Idle && c.pos == f
    requires c.dir == Up ==> c.up != {} && f == Least(c.up)
    requires c.dir == Down ==> c.down != {} && f == Greatest(c.down)
    requires Inv(c) && c.dwellTicks == 0
    ensures Inv(Arrive(c, f))
  {
  }

  /** Any number of ticks keeps the invariant; in particular the car never leaves the building. */
  lemma {:induction false} RunKeepsInv(c: CarState, n: nat)
    requires Inv(c)
    ensures Inv(Run(c, n))
    ensures InBuilding(c.numFloors, Run(c, n).current) && Run(c, n).numFloors == c.numFloors
    decreases n
  {
    if n > 0 {
      StepKeepsInv(c);
      RunKeepsInv(Step(c), n - 1);
    }
  }

  /**
   The dwell contract: a car that has just opened its door for the full
   dwell still has it open one tick later, and after exactly the dwell
   period has it closed with no dwell left and nothing else changed.
   */
  lemma DwellContract(c: CarState)
    requires c.dwellTicks == DwellTicks && c.door == Open
    ensures Step(c).door == Open && Step(c).dwellTicks == 1
    ensures Run(c, DwellTicks) == c.(door := Closed, dwellTicks := 0)
  {
  }

  /**
   No queued floor is dropped: a floor leaves the queues on a tick only when
   the car arrives there and opens its door.
   */
  lemma QueuedFloorsServed(c: CarState)
    requires Inv(c)
    ensures var c' := Step(c);
            forall x :: x in c.up + c.down && x !in c'.up + c'.down ==>
              c'.current == x && c'.door == Open && c'.dwellTicks == DwellTicks
  {
  }

  /**
   No filed destination is lost: on a tick an origin's list either stays as
   it was or, when the car arrives at that origin, every destination on it
   is queued; no list appears from nowhere.
   */
  lemma FiledDestinationsKept(c: CarState)
    requires Inv(c)
    ensures var c' := Step(c);
            && c'.pending.Keys <= c.pending.Keys
            && forall o :: o in c.pending ==>
                 (o in c'.pending && c'.pending[o] == c.pending[o])
                 || (o !in c'.pending && c'.current == o && c'.door == Open
                     && forall d :: d in c.pending[o] ==> d in c'.up + c'.down)
  {
  }
}
