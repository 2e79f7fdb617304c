/** The lift of source/lift.py: a LOOK/SCAN car that moves one floor per
    `move`, resets its direction to NONE whenever no target exists, keeps
    boarding/alighting status flags, and boards while iterating the live
    waiting list (so the request behind each boarded one is passed over).

    `Step` is the pure transition one `move` performs; `Lift.Move` is proved
    to perform exactly it, and the lemmas below state what it guarantees. */
module SourceLift {
  import opened Lists
  import opened Dispatch
  import opened ReqQueues
  import opened SourceRequest

  /** The destination floors of a list of requests, in list order. */
  function Destinations(rs: seq<Request>): (d: seq<int>)
    ensures |d| == |rs| && forall i :: 0 <= i < |rs| ==> d[i] == rs[i].destinationFloor
  {
    if rs == [] then [] else Destinations(rs[..|rs| - 1]) + [rs[|rs| - 1].destinationFloor]
  }

  /** The origin floors of a list of requests, in list order. */
  function Origins(rs: seq<Request>): (o: seq<int>)
    ensures |o| == |rs| && forall i :: 0 <= i < |rs| ==> o[i] == rs[i].originFloor
  {
    if rs == [] then [] else Origins(rs[..|rs| - 1]) + [rs[|rs| - 1].originFloor]
  }

  /** "This request's destination is `floor`", the offload condition. */
  function ArrivesAt(floor: int): Request -> bool {
    (r: Request) => r.destinationFloor == floor
  }

  /** The lift's fields other than the fixed building size and capacity. */
  datatype LiftState = LiftState(
    floor: int,
    direction: Direction,
    queue: seq<Request>,
    onboard: seq<Request>,
    stop: bool,
    offboarding: bool,
    onboarding: bool)

  function Candidates(s: LiftState, capacity: int): seq<int> {
    CandidateFloors(Destinations(s.onboard), Origins(s.queue), |s.onboard|, capacity)
  }

  /** `_next_floor` as a function of the candidates, the floor and the
      direction before the call: the target (if any) and the new direction. */
  function ChooseNextFloor(c: seq<int>, current: int, d: Direction): (Option<int>, Direction)
  {
    if c == [] then (None, Idle)
    else
      match Look(c, current, Seeded(d))
      case Some((t, dir)) => (Some(t), dir)
      case None => (None, Idle)
  }

  /** What `_next_floor` promises: no target exactly when every candidate
      is the car's floor (the direction is then NONE); otherwise the target is
      a candidate other than the car's floor, the nearest one on the side
      the new direction faces, and the direction reverses only when no
      candidate lies ahead in the seeded old direction. */
  lemma ChooseNextFloorFacts(c: seq<int>, current: int, d: Direction)
    ensures var r := ChooseNextFloor(c, current, d);
      && (r.0.None? <==> forall x :: x in c ==> x == current)
      && (r.0.None? ==> r.1 == Idle)
      && (r.0.Some? ==> r.0.value in c && r.0.value != current && r.1 != Idle)
      && (r.0.Some? ==> IsNearest(c, current, Ahead(r.1), r.0.value))
      && (r.0.Some? && r.1 != Seeded(d) ==>
            r.1 == Reversed(Seeded(d)) && forall x :: x in c ==> !Beyond(Ahead(Seeded(d)), x, current))
  {
    LookFacts(c, current, Seeded(d));
  }

  /** The loop `for req in waiting_requests` of `_offload_and_onload_requests`
      over the LIVE waiting list: Python's list iterator reads position `i`
      of the list as it is now, and a boarding removes an element before the
      iterator moves on. Returns the final waiting list and onboard list. */
  function LiveOnload(queue: seq<Request>, onboard: seq<Request>, i: nat, floor: int, capacity: int): (r: (seq<Request>, seq<Request>))
    ensures onboard <= r.1
    decreases |queue| + 1 - i
  {
    if i >= |queue| then (queue, onboard)
    else
      var req := queue[i];
      if req.originFloor == floor && |onboard| < capacity then
        LiveOnload(RemoveFirst(queue, req), onboard + [req], i + 1, floor, capacity)
      else
        LiveOnload(queue, onboard, i + 1, floor, capacity)
  }

  /** `_offload_and_onload_requests` on a state: drop every onboard request
      bound for this floor, then board from the live waiting list. */
  function OffloadAndOnload(s: LiftState, capacity: int): LiftState {
    var served := Filter(s.onboard, ArrivesAt(s.floor), true);
    var staying := Filter(s.onboard, ArrivesAt(s.floor), false);
    var (queue, onboard) := LiveOnload(s.queue, staying, 0, s.floor, capacity);
    s.(queue := queue, onboard := onboard,
       offboarding := s.offboarding || served != [],
       onboarding := s.onboarding || |onboard| > |staying|)
  }

  /** The requests `OffloadAndOnload(s, capacity)` boards, in boarding order. */
  function Boarded(s: LiftState, capacity: int): seq<Request> {
    var staying := Filter(s.onboard, ArrivesAt(s.floor), false);
    LiveOnload(s.queue, staying, 0, s.floor, capacity).1[|staying|..]
  }

  /** What `_next_floor` decides in state `s`. */
  function Plan(s: LiftState, capacity: int): (Option<int>, Direction) {
    ChooseNextFloor(Candidates(s, capacity), s.floor, s.direction)
  }

  /** The start of every `move`: `_next_floor` has set the direction and
      the status flags are cleared. */
  function Planned(s: LiftState, capacity: int): LiftState {
    s.(direction := Plan(s, capacity).1, offboarding := false, onboarding := false)
  }

  /** The planned state `p` on reaching the floor next to `p.floor`
      toward `target`. */
  function Reached(p: LiftState, target: int): LiftState {
    p.(floor := StepToward(p.floor, target))
  }

  /** `_need_to_stop` in state `s`. */
  function StopHere(s: LiftState): bool {
    MustStop(Destinations(s.onboard), Origins(s.queue), s.floor)
  }

  /** What `move` does on the floor it has just reached: the stop check,
      the exchange of requests when stopping, and the reset to NONE when
      nothing is left. */
  function Visit(s: LiftState, capacity: int): LiftState {
    var after := if StopHere(s) then OffloadAndOnload(s.(stop := true), capacity) else s.(stop := false);
    if after.queue == [] && after.onboard == [] then after.(direction := Idle) else after
  }

  /** The requests `Visit(s, capacity)` boards. */
  function VisitBoarded(s: LiftState, capacity: int): seq<Request> {
    if StopHere(s) then Boarded(s, capacity) else []
  }

  /** The requests `Visit(s, capacity)` drops off. */
  function VisitServed(s: LiftState): seq<Request> {
    if StopHere(s) then Filter(s.onboard, ArrivesAt(s.floor), true) else []
  }

  /** One `move`. */
  function Step(s: LiftState, capacity: int): LiftState {
    var target := Plan(s, capacity).0;
    if target.None? then Planned(s, capacity)
    else Visit(Reached(Planned(s, capacity), target.value), capacity)
  }

  /** The requests one `move` boards. */
  function BoardedInStep(s: LiftState, capacity: int): seq<Request> {
    var target := Plan(s, capacity).0;
    if target.None? then [] else VisitBoarded(Reached(Planned(s, capacity), target.value), capacity)
  }

  /** The requests one `move` drops off. */
  function ServedInStep(s: LiftState, capacity: int): seq<Request> {
    var target := Plan(s, capacity).0;
    if target.None? then [] else VisitServed(Reached(Planned(s, capacity), target.value))
  }

  // ---------------------------------------------------------------------
  // The live-list onload

  /** Boarding only appends to the onboard list, only requests from this
      floor that were waiting, and never beyond the capacity; every boarded
      request leaves the waiting list (nothing is lost or duplicated). */
  lemma {:induction false} LiveOnloadFacts(queue: seq<Request>, onboard: seq<Request>, i: nat, floor: int, capacity: int)
    ensures var r := LiveOnload(queue, onboard, i, floor, capacity);
      && (|onboard| <= capacity ==> |r.1| <= capacity)
      && (forall k :: |onboard| <= k < |r.1| ==> r.1[k].originFloor == floor && r.1[k] in queue)
      && multiset(r.0) + multiset(r.1) == multiset(queue) + multiset(onboard)
    decreases |queue| + 1 - i
  {
    if i < |queue| {
      var req := queue[i];
      if req.originFloor == floor && |onboard| < capacity {
        var q' := RemoveFirst(queue, req);
        LiveOnloadFacts(q', onboard + [req], i + 1, floor, capacity);
        RemoveFirstMultiset(queue, req);
        var r := LiveOnload(q', onboard + [req], i + 1, floor, capacity);
        forall k | |onboard| <= k < |r.1| ensures r.1[k].originFloor == floor && r.1[k] in queue {
          if k > |onboard| {
            assert r.1[k] in multiset(q');
          } else {
            assert r.1[k] == (onboard + [req])[k];
          }
        }
      } else {
        LiveOnloadFacts(queue, onboard, i + 1, floor, capacity);
      }
    }
  }

  /** Positions before the iterator are never revisited: with distinct
      waiting requests, the first `i` of them are still waiting afterwards. */
  lemma {:induction false} LiveOnloadKeepsPassed(queue: seq<Request>, onboard: seq<Request>, i: nat, floor: int, capacity: int)
    requires NoDuplicates(queue) && i <= |queue|
    ensures queue[..i] <= LiveOnload(queue, onboard, i, floor, capacity).0
    decreases |queue| + 1 - i
  {
    if i < |queue| {
      var req := queue[i];
      if req.originFloor == floor && |onboard| < capacity {
        RemoveFirstDistinct(queue, i);
        var q' := RemoveFirst(queue, req);
        if i + 1 <= |q'| {
          LiveOnloadKeepsPassed(q', onboard + [req], i + 1, floor, capacity);
          assert queue[..i] <= q'[..i + 1];
        } else {
          assert queue[..i] == q';
        }
      } else {
        LiveOnloadKeepsPassed(queue, onboard, i + 1, floor, capacity);
      }
    }
  }

  /** The skip: when the request at the iterator's position boards, the
      request right behind it is never examined in this pass, so it is
      still waiting afterwards even if it waits on this very floor. */
  lemma LiveOnloadSkipsSuccessor(queue: seq<Request>, onboard: seq<Request>, i: nat, floor: int, capacity: int)
    requires NoDuplicates(queue) && i + 1 < |queue|
    requires queue[i].originFloor == floor && |onboard| < capacity
    ensures queue[i + 1] in LiveOnload(queue, onboard, i, floor, capacity).0
  {
    var req := queue[i];
    RemoveFirstDistinct(queue, i);
    var q' := RemoveFirst(queue, req);
    LiveOnloadKeepsPassed(q', onboard + [req], i + 1, floor, capacity);
    assert q'[..i + 1][i] == queue[i + 1];
  }

  /** The smallest case of the skip: two distinct requests waiting on the
      car's floor, room for both, and only the first boards. */
  lemma LiveOnloadBoardsOnlyFirstOfTwo(r1: Request, r2: Request, floor: int)
    requires r1 != r2 && r1.originFloor == floor && r2.originFloor == floor
    ensures LiveOnload([r1, r2], [], 0, floor, 2) == ([r2], [r1])
  {
    assert [r1, r2][0] == r1 && [r1, r2][1..] == [r2] && [] + [r1] == [r1];
    assert RemoveFirst([r1, r2], r1) == [r2];
    assert LiveOnload([r2], [r1], 1, floor, 2) == ([r2], [r1]);
  }

  // ---------------------------------------------------------------------
  // The visit of a floor

  /** The stop flag a visit leaves says exactly whether some onboard
      request ends on this floor or some waiting request starts on it;
      without a stop nobody boards or alights. */
  lemma VisitStopFlag(s: LiftState, capacity: int)
    ensures Visit(s, capacity).stop <==>
              (exists r :: r in s.onboard && r.destinationFloor == s.floor) ||
              (exists r :: r in s.queue && r.originFloor == s.floor)
    ensures !Visit(s, capacity).stop ==>
              Visit(s, capacity).queue == s.queue && Visit(s, capacity).onboard == s.onboard &&
              VisitBoarded(s, capacity) == [] && VisitServed(s) == []
  {
    var d, o := Destinations(s.onboard), Origins(s.queue);
    if s.floor in d {
      var k :| 0 <= k < |d| && d[k] == s.floor;
      assert s.onboard[k] in s.onboard;
    }
    if s.floor in o {
      var k :| 0 <= k < |o| && o[k] == s.floor;
      assert s.queue[k] in s.queue;
    }
    forall r | r in s.onboard && r.destinationFloor == s.floor ensures s.floor in d {
      var k :| 0 <= k < |s.onboard| && s.onboard[k] == r;
      assert d[k] == s.floor;
    }
    forall r | r in s.queue && r.originFloor == s.floor ensures s.floor in o {
      var k :| 0 <= k < |s.queue| && s.queue[k] == r;
      assert o[k] == s.floor;
    }
  }

  /** A visit keeps `len(onboard) <= capacity`. */
  lemma VisitKeepsCapacity(s: LiftState, capacity: int)
    requires |s.onboard| <= capacity
    ensures |Visit(s, capacity).onboard| <= capacity
  {
    var staying := Filter(s.onboard, ArrivesAt(s.floor), false);
    LiveOnloadFacts(s.queue, staying, 0, s.floor, capacity);
  }

  /** What a stopping visit does to the onboard list: exactly the requests
      bound for this floor leave the car, the others stay in order and are
      followed by the boarded requests, each of which waited on this floor. */
  lemma VisitExchangesRequests(s: LiftState, capacity: int)
    ensures var v := Visit(s, capacity);
      && v.floor == s.floor
      && (v.stop ==>
            && VisitServed(s) == Filter(s.onboard, ArrivesAt(s.floor), true)
            && v.onboard == Filter(s.onboard, ArrivesAt(s.floor), false) + VisitBoarded(s, capacity))
      && (forall r :: r in VisitBoarded(s, capacity) ==> r in s.queue && r.originFloor == s.floor)
  {
    if StopHere(s) {
      var staying := Filter(s.onboard, ArrivesAt(s.floor), false);
      LiveOnloadFacts(s.queue, staying, 0, s.floor, capacity);
      var r := LiveOnload(s.queue, staying, 0, s.floor, capacity);
      var boarded := r.1[|staying|..];
      assert r.1 == staying + boarded;
      forall x | x in boarded ensures x in s.queue && x.originFloor == s.floor {
        var k :| 0 <= k < |boarded| && boarded[k] == x;
        assert x == r.1[|staying| + k];
      }
    }
  }

  /** Boarding from `queue` after the drop-off leaves the staying requests
      in front, followed by the boarded ones, and moves requests from the
      waiting list into the car without losing or inventing any. */
  lemma LiveOnloadConserves(queue: seq<Request>, staying: seq<Request>, floor: int, capacity: int)
    ensures var r := LiveOnload(queue, staying, 0, floor, capacity);
      var boarded := r.1[|staying|..];
      && r.1 == staying + boarded
      && multiset(r.0) + multiset(boarded) == multiset(queue)
      && |r.0| + |boarded| == |queue|
  {
    LiveOnloadFacts(queue, staying, 0, floor, capacity);
    var r := LiveOnload(queue, staying, 0, floor, capacity);
    var boarded := r.1[|staying|..];
    assert r.1 == staying + boarded;
    MultisetCancel(multiset(r.0), multiset(boarded), multiset(queue), multiset(staying));
    assert |multiset(r.0) + multiset(boarded)| == |multiset(queue)|;
  }

  /** A visit loses and invents no request: the boarded requests leave the
      waiting list, the served ones leave the car, and the two lists
      together shrink by exactly the number served. */
  lemma VisitConservesRequests(s: LiftState, capacity: int)
    ensures var v, served, boarded := Visit(s, capacity), VisitServed(s), VisitBoarded(s, capacity);
      && multiset(v.queue) + multiset(boarded) == multiset(s.queue)
      && multiset(v.onboard) + multiset(served) == multiset(s.onboard) + multiset(boarded)
      && |v.queue| + |v.onboard| == |s.queue| + |s.onboard| - |served|
  {
    if StopHere(s) {
      StopRemovesBoarded(s, capacity);
      StopExchanges(s, capacity);
      StopCount(s, capacity);
    }
  }

  // The three parts of VisitConservesRequests for a visit that stops.

  lemma StopRemovesBoarded(s: LiftState, capacity: int)
    requires StopHere(s)
    ensures multiset(Visit(s, capacity).queue) + multiset(VisitBoarded(s, capacity)) == multiset(s.queue)
  {
    LiveOnloadConserves(s.queue, Filter(s.onboard, ArrivesAt(s.floor), false), s.floor, capacity);
  }

  lemma StopExchanges(s: LiftState, capacity: int)
    requires StopHere(s)
    ensures multiset(Visit(s, capacity).onboard) + multiset(VisitServed(s)) ==
            multiset(s.onboard) + multiset(VisitBoarded(s, capacity))
  {
    LiveOnloadConserves(s.queue, Filter(s.onboard, ArrivesAt(s.floor), false), s.floor, capacity);
    FilterSplit(s.onboard, ArrivesAt(s.floor));
  }

  lemma StopCount(s: LiftState, capacity: int)
    requires StopHere(s)
    ensures |Visit(s, capacity).queue| + |Visit(s, capacity).onboard| == |s.queue| + |s.onboard| - |VisitServed(s)|
  {
    LiveOnloadConserves(s.queue, Filter(s.onboard, ArrivesAt(s.floor), false), s.floor, capacity);
    FilterSplit(s.onboard, ArrivesAt(s.floor));
  }

  /** The status flags a visit leaves: alighting iff it was already raised
      or someone got off, boarding iff it was raised or someone got on. */
  lemma VisitStatusFlags(s: LiftState, capacity: int)
    ensures Visit(s, capacity).offboarding == (s.offboarding || VisitServed(s) != [])
    ensures Visit(s, capacity).onboarding == (s.onboarding || VisitBoarded(s, capacity) != [])
  {
    if StopHere(s) {
      var staying := Filter(s.onboard, ArrivesAt(s.floor), false);
      var r := LiveOnload(s.queue, staying, 0, s.floor, capacity);
      assert r.1 == staying + r.1[|staying|..];
    }
  }

  // ---------------------------------------------------------------------
  // One move

  /** With no target the floor and both lists stay as they are, the
      direction becomes NONE and nobody boards or alights; a target is
      never the car's own floor and is one floor away after the step. */
  lemma StepMovesOneFloor(s: LiftState, capacity: int)
    ensures Plan(s, capacity).0.None? ==>
              && Step(s, capacity) == s.(direction := Idle, offboarding := false, onboarding := false)
              && BoardedInStep(s, capacity) == [] && ServedInStep(s, capacity) == []
    ensures Plan(s, capacity).0.Some? ==>
              var t := Plan(s, capacity).0.value;
              && t != s.floor
              && Step(s, capacity).floor == (if t > s.floor then s.floor + 1 else s.floor - 1)
  {
  }

  /** No target exists exactly when every candidate floor is the car's own
      floor (in particular when there are no candidates at all). */
  lemma NoTargetExactly(s: LiftState, capacity: int)
    ensures Plan(s, capacity).0.None? <==> forall x :: x in Candidates(s, capacity) ==> x == s.floor
  {
  }

  /** LOOK: the target is the nearest candidate on the side the new
      direction faces; the direction reverses only when no candidate lies
      ahead in the (seeded) old direction. */
  lemma StepFollowsLook(s: LiftState, capacity: int)
    requires Plan(s, capacity).0.Some?
    ensures var (t, dir) := Plan(s, capacity);
      && dir != Idle
      && IsNearest(Candidates(s, capacity), s.floor, Ahead(dir), t.value)
      && (dir != Seeded(s.direction) ==>
            forall x :: x in Candidates(s, capacity) ==> !Beyond(Ahead(Seeded(s.direction)), x, s.floor))
  {
  }

  /** The car is never lured to a floor only to pick up when it is full:
      every target is an onboard destination, or an origin of a waiting
      request while the car has room. */
  lemma TargetIsARequestFloor(s: LiftState, capacity: int)
    requires Plan(s, capacity).0.Some?
    ensures var t := Plan(s, capacity).0.value;
      (exists r :: r in s.onboard && r.destinationFloor == t) ||
      (|s.onboard| < capacity && exists r :: r in s.queue && r.originFloor == t)
  {
    var t := Plan(s, capacity).0.value;
    var d, o := Destinations(s.onboard), Origins(s.queue);
    CandidateFloorsMembers(d, o, |s.onboard|, capacity);
    if t in d {
      var k :| 0 <= k < |d| && d[k] == t;
      assert s.onboard[k] in s.onboard;
    } else {
      var k :| 0 <= k < |o| && o[k] == t;
      assert s.queue[k] in s.queue;
    }
  }

  /** When every request floor (and the car) lies in `[1, totalFloors]`,
      the car stays in the building. */
  lemma StepStaysInBuilding(s: LiftState, capacity: int, totalFloors: int)
    requires 1 <= s.floor <= totalFloors
    requires forall r :: r in s.onboard ==> 1 <= r.destinationFloor <= totalFloors
    requires forall r :: r in s.queue ==> 1 <= r.originFloor <= totalFloors
    ensures 1 <= Step(s, capacity).floor <= totalFloors
  {
    var t := Plan(s, capacity).0;
    if t.Some? {
      TargetIsARequestFloor(s, capacity);
      StepTowardStaysBetween(s.floor, t.value, 1, totalFloors);
    }
  }

  /** After a step to a new floor the stop flag says exactly whether some
      onboard request ends there or some waiting request starts there; when
      it is false, nobody boards or alights. */
  lemma StepStopFlag(s: LiftState, capacity: int)
    requires Plan(s, capacity).0.Some?
    ensures var s' := Step(s, capacity);
      && (s'.stop <==> (exists r :: r in s.onboard && r.destinationFloor == s'.floor) ||
                       (exists r :: r in s.queue && r.originFloor == s'.floor))
      && (!s'.stop ==> s'.queue == s.queue && s'.onboard == s.onboard &&
                       BoardedInStep(s, capacity) == [] && ServedInStep(s, capacity) == [])
  {
    VisitStopFlag(Reached(Planned(s, capacity), Plan(s, capacity).0.value), capacity);
  }

  /** A move keeps `len(onboard) <= capacity`. */
  lemma StepKeepsCapacity(s: LiftState, capacity: int)
    requires |s.onboard| <= capacity
    ensures |Step(s, capacity).onboard| <= capacity
  {
    var t := Plan(s, capacity).0;
    if t.Some? {
      VisitKeepsCapacity(Reached(Planned(s, capacity), t.value), capacity);
    }
  }

  /** What a stopping move does to the two lists: exactly the onboard
      requests bound for the new floor leave the car, the others stay in
      order and are followed by the boarded requests, each of which waited
      on that floor and leaves the waiting list; requests are conserved. */
  lemma StepExchangesRequests(s: LiftState, capacity: int)
    ensures var s', served, boarded := Step(s, capacity), ServedInStep(s, capacity), BoardedInStep(s, capacity);
      && (Plan(s, capacity).0.Some? && s'.stop ==>
            && served == Filter(s.onboard, ArrivesAt(s'.floor), true)
            && s'.onboard == Filter(s.onboard, ArrivesAt(s'.floor), false) + boarded)
      && (forall r :: r in boarded ==> r in s.queue && r.originFloor == s'.floor)
      && multiset(s'.queue) + multiset(boarded) == multiset(s.queue)
      && multiset(s'.onboard) + multiset(served) == multiset(s.onboard) + multiset(boarded)
      && |s'.queue| + |s'.onboard| == |s.queue| + |s.onboard| - |served|
  {
    var t := Plan(s, capacity).0;
    if t.Some? {
      var a := Reached(Planned(s, capacity), t.value);
      VisitExchangesRequests(a, capacity);
      VisitConservesRequests(a, capacity);
    }
  }

  /** The status flags describe this move only: alighting iff someone got
      off, boarding iff someone got on. */
  lemma StepStatusFlags(s: LiftState, capacity: int)
    ensures Step(s, capacity).offboarding <==> ServedInStep(s, capacity) != []
    ensures Step(s, capacity).onboarding <==> BoardedInStep(s, capacity) != []
  {
    var t := Plan(s, capacity).0;
    if t.Some? {
      VisitStatusFlags(Reached(Planned(s, capacity), t.value), capacity);
    }
  }

  /** When a move leaves nothing waiting and nobody aboard, the direction
      is NONE. */
  lemma StepIdleWhenEmpty(s: LiftState, capacity: int)
    requires Step(s, capacity).queue == [] && Step(s, capacity).onboard == []
    ensures Step(s, capacity).direction == Idle
  {
  }

  /** A request waiting on the car's own floor with nothing else to do is
      never picked up: the move finds no target, returns without boarding,
      and repeating it changes nothing. */
  lemma RequestAtCarFloorIsStranded(s: LiftState, capacity: int, r: Request)
    requires s.queue == [r] && s.onboard == [] && r.originFloor == s.floor
    ensures Step(s, capacity) == s.(direction := Idle, offboarding := false, onboarding := false)
    ensures Step(Step(s, capacity), capacity) == Step(s, capacity)
  {
    var c := Candidates(s, capacity);
    assert Origins(s.queue) == [s.floor];
    assert forall x :: x in c ==> x == s.floor;
  }

  // ---------------------------------------------------------------------
  // The class

  class Lift {
    var currentFloor: int
    const totalFloors: int
    const capacity: int
    const requestQueue: ReqQueue<Request>
    var onboardRequests: seq<Request>
    var direction: Direction
    var currentFloorStop: bool
    var currentlyOffboarding: bool
    var currentlyOnboarding: bool

    /** The fields `move` changes, as a value. */
    function State(): LiftState
      reads this, requestQueue
    {
      LiftState(currentFloor, direction, requestQueue.requests, onboardRequests,
                currentFloorStop, currentlyOffboarding, currentlyOnboarding)
    }

    /** A new lift is on floor 1, idle, with an empty waiting queue of its
        own and nobody aboard. Neither argument is checked. */
    constructor (totalFloors: int, capacity: int)
      ensures this.totalFloors == totalFloors && this.capacity == capacity
      ensures fresh(requestQueue)
      ensures State() == LiftState(1, Idle, [], [], true, false, false)
    {
      currentFloor := 1;
      this.totalFloors := totalFloors;
      this.capacity := capacity;
      requestQueue := new ReqQueue();
      onboardRequests := [];
      direction := Idle;
      currentFloorStop := true;
      currentlyOffboarding := false;
      currentlyOnboarding := false;
    }

    predicate IsFull()
      reads this
    {
      |onboardRequests| >= capacity
    }

    /** `_get_candidate_floors`. */
    method GetCandidateFloors() returns (candidates: seq<int>)
      ensures candidates == Candidates(State(), capacity)
    {
      candidates := [];
      for i := 0 to |onboardRequests|
        invariant candidates == Destinations(onboardRequests[..i])
      {
        assert onboardRequests[..i + 1][..i] == onboardRequests[..i];
        candidates := candidates + [onboardRequests[i].destinationFloor];
      }
      assert onboardRequests[..|onboardRequests|] == onboardRequests;
      if !IsFull() {
        var waiting := requestQueue.GetRequests();
        ghost var base := candidates;
        for j := 0 to |waiting|
          invariant candidates == base + Origins(waiting[..j])
        {
          assert waiting[..j + 1][..j] == waiting[..j];
          candidates := candidates + [waiting[j].originFloor];
        }
        assert waiting[..|waiting|] == waiting;
      }
    }

    /** `_need_to_stop`: scans the onboard list, then the waiting list,
        returning as soon as a request ends or starts on this floor. */
    method NeedToStop() returns (stop: bool)
      ensures stop == MustStop(Destinations(onboardRequests), Origins(requestQueue.requests), currentFloor)
    {
      for i := 0 to |onboardRequests|
        invariant forall k :: 0 <= k < i ==> onboardRequests[k].destinationFloor != currentFloor
      {
        if onboardRequests[i].destinationFloor == currentFloor {
          assert Destinations(onboardRequests)[i] == currentFloor;
          return true;
        }
      }
      var waiting := requestQueue.GetRequests();
      for j := 0 to |waiting|
        invariant forall k :: 0 <= k < j ==> waiting[k].originFloor != currentFloor
      {
        if waiting[j].originFloor == currentFloor {
          assert Origins(waiting)[j] == currentFloor;
          return true;
        }
      }
      return false;
    }

    /** `_next_floor`: assigns the direction and returns the target. */
    method NextFloor() returns (next: Option<int>)
      modifies this`direction
      ensures (next, direction) == Plan(old(State()), capacity)
    {
      var candidates := GetCandidateFloors();
      if candidates == [] {
        direction := Idle;
        return None;
      }
      if direction == Idle {
        direction := Up;
      }
      assert Ahead(Up) == Above && Ahead(Down) == Below;
      assert Reversed(Up) == Down && Reversed(Down) == Up;
      if direction == Up {
        var nextUp := FilterCandidates(candidates, currentFloor, Above);
        if nextUp.Some? {
          return nextUp;
        }
        var nextDown := FilterCandidates(candidates, currentFloor, Below);
        if nextDown.Some? {
          direction := Down;
          return nextDown;
        }
      } else if direction == Down {
        var nextDown := FilterCandidates(candidates, currentFloor, Below);
        if nextDown.Some? {
          return nextDown;
        }
        var nextUp := FilterCandidates(candidates, currentFloor, Above);
        if nextUp.Some? {
          direction := Up;
          return nextUp;
        }
      }
      direction := Idle;
      return None;
    }

    /** `_offload_and_onload_requests`: the drop-off phase, then the
        boarding phase. */
    method OffloadAndOnloadRequests()
      modifies this`onboardRequests, this`currentlyOffboarding, this`currentlyOnboarding
      modifies requestQueue, requestQueue.requests
      ensures State() == OffloadAndOnload(old(State()), capacity)
      ensures forall r :: r in old(requestQueue.requests) ==>
                r.pickedUp == (old(r.pickedUp) || r in Boarded(old(State()), capacity))
    {
      ghost var s0 := State();
      OffloadServedRequests();
      ghost var staying := onboardRequests;
      OnloadWaitingRequests();
      ghost var r := LiveOnload(s0.queue, staying, 0, s0.floor, capacity);
      assert (requestQueue.requests, onboardRequests) == r;
      assert Boarded(s0, capacity) == r.1[|staying|..];
    }

    /** The first half of `_offload_and_onload_requests`: every onboard
        request bound for this floor is removed, the rest keep their order,
        and the alighting flag is raised when anyone got off. */
    method OffloadServedRequests()
      modifies this`onboardRequests, this`currentlyOffboarding
      ensures onboardRequests == Filter(old(onboardRequests), ArrivesAt(currentFloor), false)
      ensures currentlyOffboarding ==
                (old(currentlyOffboarding) || Filter(old(onboardRequests), ArrivesAt(currentFloor), true) != [])
    {
      var arrives := ArrivesAt(currentFloor);
      var servedRequests := Filter(onboardRequests, arrives, true);
      if servedRequests != [] {
        currentlyOffboarding := true;
      }
      for k := 0 to |servedRequests|
        invariant Filter(onboardRequests, arrives, false) == Filter(old(onboardRequests), arrives, false)
        invariant Filter(onboardRequests, arrives, true) == servedRequests[k..]
        invariant currentlyOffboarding == (old(currentlyOffboarding) || servedRequests != [])
      {
        var req := servedRequests[k];
        assert arrives(req);
        FilterRemoveDropped(onboardRequests, arrives, req);
        FilterRemoveKept(onboardRequests, arrives, req);
        onboardRequests := RemoveFirst(onboardRequests, req);
      }
      FilterNoneKept(onboardRequests, arrives);
    }

    /** The second half of `_offload_and_onload_requests`: the loop over the
        live waiting list, which performs exactly `LiveOnload`, marking each
        boarded request as picked up and raising the boarding flag. */
    method OnloadWaitingRequests()
      modifies this`onboardRequests, this`currentlyOnboarding, requestQueue, requestQueue.requests
      ensures (requestQueue.requests, onboardRequests)
              == LiveOnload(old(requestQueue.requests), old(onboardRequests), 0, currentFloor, capacity)
      ensures currentlyOnboarding == (old(currentlyOnboarding) || |onboardRequests| > |old(onboardRequests)|)
      ensures forall r :: r in old(requestQueue.requests) ==>
                r.pickedUp == (old(r.pickedUp) || r in onboardRequests[|old(onboardRequests)|..])
    {
      ghost var boarded: seq<Request> := [];
      var i := 0;
      while i < |requestQueue.requests|
        invariant LiveOnload(requestQueue.requests, onboardRequests, i, currentFloor, capacity)
                  == LiveOnload(old(requestQueue.requests), old(onboardRequests), 0, currentFloor, capacity)
        invariant onboardRequests == old(onboardRequests) + boarded
        invariant forall r :: r in requestQueue.requests ==> r in old(requestQueue.requests)
        invariant forall r :: r in old(requestQueue.requests) ==> r.pickedUp == (old(r.pickedUp) || r in boarded)
        invariant currentlyOnboarding == (old(currentlyOnboarding) || boarded != [])
        decreases |requestQueue.requests| + 1 - i
      {
        ghost var q, ob := requestQueue.requests, onboardRequests;
        var req := requestQueue.requests[i];
        if req.originFloor == currentFloor && !IsFull() {
          assert LiveOnload(q, ob, i, currentFloor, capacity)
                 == LiveOnload(RemoveFirst(q, req), ob + [req], i + 1, currentFloor, capacity);
          RemoveFirstSubset(q, req);
          onboardRequests := onboardRequests + [req];
          requestQueue.RemoveRequest(req);
          req.pickedUp := true;
          currentlyOnboarding := true;
          boarded := boarded + [req];
        } else {
          assert LiveOnload(q, ob, i, currentFloor, capacity)
                 == LiveOnload(q, ob, i + 1, currentFloor, capacity);
        }
        i := i + 1;
      }
      assert boarded == onboardRequests[|old(onboardRequests)|..];
    }

    /** `_reset_onboarding_offboarding_status`. */
    method ResetOnboardingOffboardingStatus()
      modifies this`currentlyOffboarding, this`currentlyOnboarding
      ensures State() == old(State()).(offboarding := false, onboarding := false)
    {
      currentlyOffboarding := false;
      currentlyOnboarding := false;
    }

    /** `move`: performs exactly `Step`, and marks every boarded request as
        picked up; no other request changes. */
    method Move()
      modifies this, requestQueue, requestQueue.requests
      ensures State() == Step(old(State()), capacity)
      ensures forall r :: r in old(requestQueue.requests) ==>
                r.pickedUp == (old(r.pickedUp) || r in BoardedInStep(old(State()), capacity))
    {
      ghost var s0 := State();
      var nextFloor := NextFloor();
      ResetOnboardingOffboardingStatus();
      ghost var planned := State();
      assert planned == Planned(s0, capacity);
      if nextFloor.None? {
        return;
      }
      if currentFloor < nextFloor.value {
        currentFloor := currentFloor + 1;
      } else if currentFloor > nextFloor.value {
        currentFloor := currentFloor - 1;
      }
      assert currentFloor == StepToward(planned.floor, nextFloor.value);
      assert State() == planned.(floor := currentFloor);
      VisitCurrentFloor();
    }

    /** The end of `move` on the floor just reached: the stop check, the
        exchange of requests when stopping, and the reset to NONE when no
        request is left; it performs exactly `Visit`. */
    method VisitCurrentFloor()
      modifies this, requestQueue, requestQueue.requests
      ensures State() == Visit(old(State()), capacity)
      ensures forall r :: r in old(requestQueue.requests) ==>
                r.pickedUp == (old(r.pickedUp) || r in VisitBoarded(old(State()), capacity))
    {
      ghost var s0 := State();
      currentFloorStop := NeedToStop();
      if currentFloorStop {
        assert State() == s0.(stop := true);
        OffloadAndOnloadRequests();
      }
      ghost var after := State();
      assert after == if StopHere(s0) then OffloadAndOnload(s0.(stop := true), capacity) else s0.(stop := false);
      var waiting := requestQueue.GetRequests();
      if waiting == [] && onboardRequests == [] {
        direction := Idle;
      }
    }
  }
}
