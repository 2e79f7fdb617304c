/** The floor arithmetic both lift versions share: which floors are
    candidates, the strict filter with min/max that `_filter_candidates`
    performs, the LOOK choice of the next target, and the one-floor step.
    Everything here is over plain floor numbers. */
module Dispatch {

  /** `Direction`: UP, DOWN, and NONE (here `Idle`). */
  datatype Direction = Up | Down | Idle

  datatype Option<T> = None | Some(value: T)

  /** `_get_candidate_floors`: every onboard destination, followed by every
      waiting origin when the car is not full. */
  function CandidateFloors(destinations: seq<int>, origins: seq<int>, onboardCount: int, capacity: int): seq<int> {
    destinations + (if onboardCount < capacity then origins else [])
  }

  /** A floor is a candidate exactly when it is an onboard destination, or
      a waiting origin while the car has room; destinations come first. */
  lemma CandidateFloorsMembers(destinations: seq<int>, origins: seq<int>, onboardCount: int, capacity: int)
    ensures var c := CandidateFloors(destinations, origins, onboardCount, capacity);
      && c[..|destinations|] == destinations
      && (forall f :: f in c <==> f in destinations || (onboardCount < capacity && f in origins))
  {
  }

  /** The two ways `_filter_candidates` is called: `(x > y, min)` looks
      above the car, `(x < y, max)` below it. */
  datatype Side = Above | Below

  predicate Beyond(side: Side, x: int, floor: int) {
    if side == Above then x > floor else x < floor
  }

  /** `floor` is the closest candidate strictly on `side` of `current`. */
  ghost predicate IsNearest(c: seq<int>, current: int, side: Side, floor: int) {
    && floor in c
    && Beyond(side, floor, current)
    && forall x :: x in c && Beyond(side, x, current) ==>
         (side == Above ==> floor <= x) && (side == Below ==> x <= floor)
  }

  /** The comprehension `[floor for floor in candidates if compare(floor,
      current_floor)]`. */
  function ValidFloors(c: seq<int>, current: int, side: Side): (r: seq<int>)
    ensures forall x :: x in r <==> x in c && Beyond(side, x, current)
  {
    if c == [] then []
    else
      assert c == [c[0]] + c[1..];
      (if Beyond(side, c[0], current) then [c[0]] else []) + ValidFloors(c[1..], current, side)
  }

  /** Python's `min` of a non-empty list. */
  function Least(s: seq<int>): (m: int)
    requires s != []
    ensures m in s && forall x :: x in s ==> m <= x
  {
    if |s| == 1 then s[0]
    else
      assert s == [s[0]] + s[1..];
      var rest := Least(s[1..]);
      if s[0] <= rest then s[0] else rest
  }

  /** Python's `max` of a non-empty list. */
  function Greatest(s: seq<int>): (m: int)
    requires s != []
    ensures m in s && forall x :: x in s ==> x <= m
  {
    if |s| == 1 then s[0]
    else
      assert s == [s[0]] + s[1..];
      var rest := Greatest(s[1..]);
      if s[0] >= rest then s[0] else rest
  }

  /** `_filter_candidates`: the nearest candidate strictly on `side` of the
      car, or None when there is none there. */
  function FilterCandidates(c: seq<int>, current: int, side: Side): Option<int> {
    var valid := ValidFloors(c, current, side);
    if valid == [] then None
    else if side == Above then Some(Least(valid))
    else Some(Greatest(valid))
  }

  /** `_filter_candidates` finds nothing exactly when no candidate lies
      strictly on `side` of the car, and otherwise the nearest one there. */
  lemma FilterCandidatesFacts(c: seq<int>, current: int, side: Side)
    ensures var r := FilterCandidates(c, current, side);
      && (r.None? <==> forall x :: x in c ==> !Beyond(side, x, current))
      && (r.Some? ==> IsNearest(c, current, side, r.value))
  {
  }

  /** The side of the car a direction of travel looks at. */
  function Ahead(d: Direction): Side
    requires d != Idle
  {
    if d == Up then Above else Below
  }

  function Reversed(d: Direction): (r: Direction)
    requires d != Idle
    ensures r != Idle && r != d
  {
    if d == Up then Down else Up
  }

  /** The seeding of `_next_floor`: an idle car is arbitrarily set going up. */
  function Seeded(d: Direction): (r: Direction)
    ensures d == Idle ==> r == Up
    ensures d != Idle ==> r == d
  {
    if d == Idle then Up else d
  }

  /** The LOOK choice both versions of `_next_floor` make once the direction
      is seeded: the nearest candidate ahead keeping the direction, else the
      nearest candidate behind with the direction reversed, else nothing. */
  function Look(c: seq<int>, current: int, d: Direction): Option<(int, Direction)>
    requires d != Idle
  {
    match FilterCandidates(c, current, Ahead(d))
    case Some(t) => Some((t, d))
    case None =>
      match FilterCandidates(c, current, Ahead(Reversed(d)))
      case Some(t) => Some((t, Reversed(d)))
      case None => None
  }

  /** LOOK finds nothing exactly when every candidate is the car's floor;
      otherwise its target is a candidate other than the car's floor, the
      nearest on the side the chosen direction faces, and the direction is
      kept exactly when some candidate lies ahead, else reversed. */
  lemma LookFacts(c: seq<int>, current: int, d: Direction)
    requires d != Idle
    ensures var r := Look(c, current, d);
      && (r.None? <==> forall x :: x in c ==> x == current)
      && (r.Some? ==> r.value.1 != Idle && r.value.0 in c && r.value.0 != current)
      && (r.Some? ==> IsNearest(c, current, Ahead(r.value.1), r.value.0))
      && (r.Some? && r.value.1 == d <==> exists x :: x in c && Beyond(Ahead(d), x, current))
      && (r.Some? && r.value.1 != d ==> r.value.1 == Reversed(d))
  {
    FilterCandidatesFacts(c, current, Ahead(d));
    FilterCandidatesFacts(c, current, Ahead(Reversed(d)));
  }

  /** One step toward `target`: up or down a floor, never further. */
  function StepToward(current: int, target: int): (next: int)
    ensures target > current ==> next == current + 1
    ensures target < current ==> next == current - 1
    ensures target == current ==> next == current
  {
    if current < target then current + 1
    else if current > target then current - 1
    else current
  }

  /** A step toward a target in `[lo, hi]` from a floor in `[lo, hi]` stays
      in `[lo, hi]`. */
  lemma StepTowardStaysBetween(current: int, target: int, lo: int, hi: int)
    requires lo <= current <= hi && lo <= target <= hi
    ensures lo <= StepToward(current, target) <= hi
  {
  }

  /** `_need_to_stop`: some onboard destination or some waiting origin is
      the car's floor. */
  predicate MustStop(destinations: seq<int>, origins: seq<int>, current: int) {
    current in destinations || current in origins
  }
}
