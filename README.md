# Lift simulator dispatch engine, modelled in Dafny

The repository simulates one lift car serving a building. Each call of
`Lift.move()` performs one tick of a LOOK/SCAN dispatcher:

1. It builds candidate floors: the destinations of the requests on board,
   plus the origins of waiting requests while the car is not full.
2. It picks the nearest candidate strictly ahead in the current direction,
   or reverses when there is none.
3. It steps one floor toward that candidate.
4. It stops when someone on board gets off there or someone waits there.
5. When it stops, it drops off the served requests and boards waiting ones
   up to the capacity.
6. It goes idle (direction NONE) when nothing is left.

The repository holds two versions of the car, and both are modelled:

- `source/lift.py` (module `SourceLift`):
  - keeps boarding and alighting status flags;
  - resets the direction to NONE whenever `_next_floor` finds no target;
  - boards while iterating the live waiting list. Each boarding removes an
    element, so Python's list iterator passes over the request right behind
    the boarded one.
- `sources/lift.py` (module `SourcesLift`):
  - has no status flags;
  - leaves the seeded direction (an idle car is set going UP) in place when
    there is no target;
  - boards from a copy of the waiting list, so every waiting request is
    examined.

The containers and value types are modelled too:

- `ReqQueue` (`sources/req_queue.py`, module `ReqQueues`): a list of waiting
  requests with a silent `remove`.
- The older `Queue` (`sources/queue.py`, module `Queues`): its `remove`
  raises on an absent request, and it has an order-preserving deduplication.
- Two `Request` classes:
  - `sources/request.py` (module `SourcesRequest`) validates the floors
    against the building;
  - `source/request.py` (module `SourceRequest`) does not.

Shared code lives in two modules:

- `Dispatch` holds the floor arithmetic both cars share. Their
  `_get_candidate_floors`, `_filter_candidates` and `_need_to_stop` are
  identical, and so is the LOOK choice inside `_next_floor`.
- `Lists` models Python's `list.remove` and the filtering list
  comprehension.

Requests are Dafny classes, because `Request` defines no `__eq__`.
Membership, `remove` and the `seen` set therefore compare requests by
identity, as Dafny compares object references.

Each car is modelled twice:

- a value `LiftState` with a pure transition `Step` (one `move`);
- a `class Lift` whose fields are the Python attributes. Its methods are
  written as the loops of the source. `Lift.Move` is proved to change the
  fields exactly as `Step` prescribes, and to set `pickedUp` on exactly the
  requests it boards.

The properties of `move` are then lemmas about `Step`: one-floor steps,
nearest-in-direction choice, the capacity bound, conservation of requests,
the stop flag, the status flags and going idle.

## Model

| member | source | states |
|---|---|---|
| `Lists.RemoveFirst` | sources/req_queue.py:45 | `list.remove` of an absent element changes nothing; of a present one it shortens the list by one |
| `Lists.RemoveFirstAt` | sources/req_queue.py:43-45 | removing a present element cuts out exactly its first occurrence; the others keep their order |
| `Lists.RemoveFirstMultiset` | source/lift.py:148 | `list.remove` takes out exactly one copy of the element, or none when it is absent |
| `Lists.Filter` | source/lift.py:144 | the comprehension keeps exactly the elements meeting the condition, each taken from the input |
| `Lists.FilterSplit` | source/lift.py:144-148 | the served requests and those staying aboard together are the onboard list, as multisets and in count |
| `Dispatch.CandidateFloors` | source/lift.py:52-65 | definition of `_get_candidate_floors` on floor lists; properties in `Dispatch.CandidateFloorsMembers` |
| `Dispatch.MustStop` | source/lift.py:80-90 | definition of `_need_to_stop` on floor lists; tied to the requests in `SourceLift.VisitStopFlag` |
| `Dispatch.CandidateFloorsMembers` | source/lift.py:52-65 | candidates start with the onboard destinations; a floor is a candidate iff it is an onboard destination, or a waiting origin while the car has room |
| `Dispatch.ValidFloors` | source/lift.py:76 | a floor survives the filter iff it is a candidate strictly on the chosen side of the car |
| `Dispatch.Least` | source/lift.py:111 | `min` returns an element no larger than any other |
| `Dispatch.Greatest` | source/lift.py:116 | `max` returns an element no smaller than any other |
| `Dispatch.FilterCandidates` | source/lift.py:68-77 | definition of `_filter_candidates`; properties in `Dispatch.FilterCandidatesFacts` |
| `Dispatch.FilterCandidatesFacts` | source/lift.py:68-77 | None iff no candidate lies strictly on that side; otherwise the nearest such candidate |
| `Dispatch.Seeded` | source/lift.py:104-106 | an idle direction becomes UP; UP and DOWN are kept |
| `Dispatch.Look` | source/lift.py:109-131 | definition of the LOOK choice of `_next_floor` after seeding; properties in `Dispatch.LookFacts` |
| `Dispatch.LookFacts` | source/lift.py:109-131 | no target iff every candidate is the car's floor; the direction is kept iff a candidate lies ahead, otherwise it is reversed; the target is the nearest candidate on the side the new direction faces |
| `Dispatch.StepToward` | source/lift.py:176-179 | the floor moves up one, down one, or not at all, according to where the target lies |
| `Dispatch.StepTowardStaysBetween` | source/lift.py:176-179 | a step toward a target in a range from a floor in that range stays in the range |
| `ReqQueues.ReqQueue.constructor` | sources/req_queue.py:34-35 | a new queue is empty |
| `ReqQueues.ReqQueue.GetRequests` | sources/req_queue.py:37-38 | returns the current contents in insertion order |
| `ReqQueues.ReqQueue.AddRequest` | sources/req_queue.py:40-41 | appends at the end; every earlier element keeps its position |
| `ReqQueues.ReqQueue.RemoveRequest` | sources/req_queue.py:43-45 | a present request loses its first occurrence only (length one less, order kept); an absent one leaves the queue unchanged without error |
| `Queues.UniqueMembers` | sources/queue.py:32-39 | deduplication keeps every request and adds none |
| `Queues.UniqueNoDuplicates` | sources/queue.py:32-39 | the deduplicated list has no repeated request |
| `Queues.UniqueLength` | sources/queue.py:33-39 | the result is at most as long as the input, and exactly as long iff the input has no repeats |
| `Queues.UniqueOfDistinct` | sources/queue.py:32-39 | a list without repeats comes back unchanged |
| `Queues.UniqueOrder` | sources/queue.py:35-38 | the result lists requests in the order of their first occurrences |
| `Queues.Unique` | sources/queue.py:32-39 | definition of the list `remove_duplicate_requests` returns; properties in `Queues.UniqueMembers`, `UniqueNoDuplicates`, `UniqueLength`, `UniqueOrder` |
| `Queues.Queue.constructor` | sources/queue.py:20-21 | a new queue is empty |
| `Queues.Queue.GetRequests` | sources/queue.py:23-24 | returns the current contents |
| `Queues.Queue.AddRequest` | sources/queue.py:26-27 | appends at the end |
| `Queues.Queue.RemoveRequest` | sources/queue.py:29-30 | ValueError, changing nothing, iff the request is absent; otherwise its first occurrence is cut out |
| `Queues.Queue.RemoveDuplicateRequests` | sources/queue.py:32-39 | the loop with its `seen` set computes the order-preserving deduplication, with no repeats, the same members, the length bound, and equal length iff there were no repeats; the queue is untouched |
| `SourcesRequest.IsValidRequest` | sources/request.py:17-24 | valid iff both floors are in `[1, NUM_FLOORS]` and differ |
| `SourcesRequest.Request.constructor` | sources/request.py:7-15 | a valid request stores its floors and the building size and starts not picked up |
| `SourcesRequest.Request.New` | sources/request.py:7-15 | construction raises ValueError exactly for an invalid request; otherwise it returns a new, valid, waiting request with the given floors |
| `SourcesRequest.Request.Status` | sources/request.py:32-34 | the status word is "picked up" iff the request is picked up, else "waiting" |
| `SourcesRequest.Request.IsUpward` | sources/request.py:26-27 | definition: destination above origin; properties in `SourcesRequest.ValidRequestHasOneDirection` |
| `SourcesRequest.Request.IsDownward` | sources/request.py:29-30 | definition: destination below origin; properties in `SourcesRequest.ValidRequestHasOneDirection` |
| `SourcesRequest.ValidRequestHasOneDirection` | sources/request.py:26-30 | a valid request is exactly one of upward and downward |
| `SourceRequest.Request.constructor` | source/request.py:7-10 | stores both floors unchecked; a new request is not picked up |
| `SourceRequest.Request.Status` | source/request.py:18-21 | the status word is "picked up" iff the request is picked up, else "waiting" |
| `SourceRequest.Request.IsUpward` | source/request.py:12-13 | definition: destination above origin; properties in `SourceRequest.DirectionsExclusive` |
| `SourceRequest.Request.IsDownward` | source/request.py:15-16 | definition: destination below origin; properties in `SourceRequest.DirectionsExclusive` |
| `SourceRequest.DirectionsExclusive` | source/request.py:12-16 | never both upward and downward; neither iff the two floors are equal |
| `SourceLift.Destinations` | source/lift.py:59-60 | one destination per onboard request, in list order |
| `SourceLift.Origins` | source/lift.py:63-64 | one origin per waiting request, in list order |
| `SourceLift.ChooseNextFloor` | source/lift.py:93-135 | definition of `_next_floor` on the candidates, floor and direction; properties in `SourceLift.ChooseNextFloorFacts` |
| `SourceLift.OffloadAndOnload` | source/lift.py:138-156 | definition of `_offload_and_onload_requests` on a state; properties in `SourceLift.VisitExchangesRequests`, `VisitConservesRequests`, `VisitStatusFlags` |
| `SourceLift.Visit` | source/lift.py:181-188 | definition of the end of `move` on the floor reached; properties in the `SourceLift.Visit*` lemmas |
| `SourceLift.Step` | source/lift.py:165-188 | definition of one `move`; properties in the `SourceLift.Step*` lemmas, `NoTargetExactly`, `TargetIsARequestFloor`, `RequestAtCarFloorIsStranded` |
| `SourceLift.ChooseNextFloorFacts` | source/lift.py:98-135 | `_next_floor` returns no target iff every candidate is the car's floor, and the direction is then NONE; a target is a candidate other than the car's floor, the nearest on the side the new direction faces, and the direction reverses only when nothing lies ahead |
| `SourceLift.LiveOnload` | source/lift.py:150-156 | boarding only appends to the onboard list |
| `SourceLift.LiveOnloadFacts` | source/lift.py:150-156 | boarding never exceeds the capacity, boards only waiting requests from this floor, and loses or duplicates none |
| `SourceLift.LiveOnloadConserves` | source/lift.py:150-156 | after boarding the car holds the staying requests followed by the boarded ones; the waiting list loses exactly the boarded requests |
| `SourceLift.LiveOnloadKeepsPassed` | source/lift.py:151-154 | with distinct waiting requests, those before the iterator's position are never boarded |
| `SourceLift.LiveOnloadSkipsSuccessor` | source/lift.py:151-154 | the request right behind a boarded one is passed over and still waits afterwards, even if it waits on this floor |
| `SourceLift.LiveOnloadBoardsOnlyFirstOfTwo` | source/lift.py:151-155 | two requests waiting on the car's floor with room for both: only the first boards |
| `SourceLift.VisitStopFlag` | source/lift.py:181-184 | the stop flag is true iff some onboard destination or waiting origin is the car's floor; without a stop nobody boards or alights |
| `SourceLift.VisitKeepsCapacity` | source/lift.py:152-153 | a visit keeps `len(onboard) <= capacity` |
| `SourceLift.VisitExchangesRequests` | source/lift.py:143-156 | a stop drops exactly the requests bound for the floor; the rest stay in order, followed by the boarded ones, each of which waited on this floor |
| `SourceLift.VisitConservesRequests` | source/lift.py:143-156 | the boarded requests leave the waiting list, the served ones leave the car, and the two lists together shrink by exactly the number served |
| `SourceLift.VisitStatusFlags` | source/lift.py:145-156 | the alighting flag is up afterwards iff it already was or someone got off; likewise the boarding flag and someone getting on |
| `SourceLift.StepMovesOneFloor` | source/lift.py:171-179 | without a target the state is unchanged except for direction NONE and cleared flags, and nobody boards or alights; a target differs from the car's floor, and the car ends one floor nearer to it |
| `SourceLift.NoTargetExactly` | source/lift.py:98-135 | no target iff every candidate floor is the car's floor |
| `SourceLift.StepFollowsLook` | source/lift.py:104-131 | the target is the nearest candidate on the side of the new direction, which reverses only when no candidate lies ahead |
| `SourceLift.TargetIsARequestFloor` | source/lift.py:52-65 | every target is an onboard destination, or a waiting origin while the car has room |
| `SourceLift.StepStaysInBuilding` | source/lift.py:176-179 | with the car and all request floors in `[1, total_floors]`, the car stays in that range |
| `SourceLift.StepStopFlag` | source/lift.py:181-184 | after a step the stop flag says whether anyone ends or starts on the new floor; when false, nobody boards or alights |
| `SourceLift.StepKeepsCapacity` | source/lift.py:152-153 | a move keeps `len(onboard) <= capacity` |
| `SourceLift.StepExchangesRequests` | source/lift.py:181-184 | a stopping move drops exactly the requests bound for the new floor and appends the boarded ones, all from that floor; requests are conserved and the total shrinks by the number served |
| `SourceLift.StepStatusFlags` | source/lift.py:159-172 | after a move the flags describe that move only: alighting iff someone got off, boarding iff someone got on |
| `SourceLift.StepIdleWhenEmpty` | source/lift.py:186-188 | a move that leaves nothing waiting and nobody aboard leaves direction NONE |
| `SourceLift.RequestAtCarFloorIsStranded` | source/lift.py:173-174 | a single request waiting on the car's own floor is never picked up: the move changes only the direction and flags, and repeating it changes nothing |
| `SourceLift.Lift.constructor` | source/lift.py:32-44 | a new lift is on floor 1, NONE, with an empty queue, nobody aboard, the stop flag set and both status flags clear |
| `SourceLift.Lift.IsFull` | source/lift.py:47-49 | definition of `_is_full`: at least `capacity` requests aboard; used by `OnloadWaitingRequests` |
| `SourceLift.Lift.GetCandidateFloors` | source/lift.py:52-65 | the two loops compute the candidate floors of the current state |
| `SourceLift.Lift.NeedToStop` | source/lift.py:80-90 | the scan with early return says whether an onboard destination or a waiting origin is the car's floor |
| `SourceLift.Lift.NextFloor` | source/lift.py:93-135 | returns the target and leaves the direction that `_next_floor` prescribes for the state before the call |
| `SourceLift.Lift.OffloadAndOnloadRequests` | source/lift.py:138-156 | performs the drop-off and live-list boarding of the model, and marks exactly the boarded requests as picked up |
| `SourceLift.Lift.OffloadServedRequests` | source/lift.py:144-148 | removing each served request leaves exactly the others, in order, and raises the alighting flag iff someone was served |
| `SourceLift.Lift.OnloadWaitingRequests` | source/lift.py:150-156 | the loop over the live list performs `LiveOnload`, raises the boarding flag iff someone boarded, and marks exactly the boarded requests as picked up |
| `SourceLift.Lift.ResetOnboardingOffboardingStatus` | source/lift.py:159-162 | clears both status flags and nothing else |
| `SourceLift.Lift.Move` | source/lift.py:165-188 | changes the fields exactly as `Step` prescribes and marks exactly the boarded requests as picked up |
| `SourceLift.Lift.VisitCurrentFloor` | source/lift.py:181-188 | the stop check, the exchange and the reset to NONE change the fields exactly as `Visit` prescribes |
| `SourcesLift.Destinations` | sources/lift.py:57-58 | one destination per onboard request, in list order |
| `SourcesLift.Origins` | sources/lift.py:61-62 | one origin per waiting request, in list order |
| `SourcesLift.ChooseNextFloor` | sources/lift.py:92-123 | definition of `_next_floor` on the candidates, floor and direction; properties in `SourcesLift.ChooseNextFloorFacts` |
| `SourcesLift.OffloadAndOnload` | sources/lift.py:126-142 | definition of `_offload_and_onload_requests` on a state; properties in `SourcesLift.VisitExchangesRequests`, `VisitConservesRequests`, `VisitClearsFloor` |
| `SourcesLift.Visit` | sources/lift.py:160-167 | definition of the end of `move` on the floor reached; properties in the `SourcesLift.Visit*` lemmas |
| `SourcesLift.Step` | sources/lift.py:145-167 | definition of one `move`; properties in the `SourcesLift.Step*` lemmas, `NoTargetExactly`, `TargetIsARequestFloor`, `IdleStepSeedsUp`, `RequestAtCarFloorIsStranded` |
| `SourcesLift.ChooseNextFloorFacts` | sources/lift.py:97-123 | no target iff every candidate is the car's floor, and the direction is then left as seeded; a target is a candidate other than the car's floor, the nearest on the side the new direction faces, and the direction reverses only when nothing lies ahead |
| `SourcesLift.SnapshotOnload` | sources/lift.py:137-142 | boarding from the copy only appends to the onboard list |
| `SourcesLift.SnapshotOnloadFacts` | sources/lift.py:137-142 | boarding never exceeds the capacity, boards only waiting requests from this floor, and loses or duplicates none |
| `SourcesLift.SnapshotOnloadFillsOrClears` | sources/lift.py:137-142 | since every request of the copy is examined, boarding ends with the car full or nobody left waiting on this floor |
| `SourcesLift.SnapshotOnloadConserves` | sources/lift.py:137-142 | after boarding the car holds the staying requests followed by the boarded ones; the waiting list loses exactly the boarded requests |
| `SourcesLift.VisitStopFlag` | sources/lift.py:160-163 | the stop flag is true iff some onboard destination or waiting origin is the car's floor; without a stop nobody boards or alights |
| `SourcesLift.VisitKeepsCapacity` | sources/lift.py:139-140 | a visit keeps `len(onboard) <= capacity` |
| `SourcesLift.VisitExchangesRequests` | sources/lift.py:131-142 | a stop drops exactly the requests bound for the floor; the rest stay in order, followed by the boarded ones, each of which waited on this floor |
| `SourcesLift.VisitConservesRequests` | sources/lift.py:131-142 | the boarded requests leave the waiting list, the served ones leave the car, and the two lists together shrink by exactly the number served |
| `SourcesLift.VisitClearsFloor` | sources/lift.py:132-142 | after a stop nobody aboard is bound for this floor, and the car is full or nobody waits here |
| `SourcesLift.StepMovesOneFloor` | sources/lift.py:151-158 | without a target only the direction changes (to the seeded one) and nobody boards or alights; a target differs from the car's floor, and the car ends one floor nearer to it |
| `SourcesLift.NoTargetExactly` | sources/lift.py:97-123 | no target iff every candidate floor is the car's floor |
| `SourcesLift.StepFollowsLook` | sources/lift.py:99-122 | the target is the nearest candidate on the side of the new direction, which reverses only when no candidate lies ahead |
| `SourcesLift.TargetIsARequestFloor` | sources/lift.py:50-63 | every target is an onboard destination, or a waiting origin while the car has room |
| `SourcesLift.StepStaysInBuilding` | sources/lift.py:155-158 | with the car in the building and every request valid for it, the car stays in `[1, total_floors]` |
| `SourcesLift.StepStopFlag` | sources/lift.py:160-163 | after a step the stop flag says whether anyone ends or starts on the new floor; when false, nobody boards or alights |
| `SourcesLift.StepKeepsCapacity` | sources/lift.py:139-140 | a move keeps `len(onboard) <= capacity` |
| `SourcesLift.StepExchangesRequests` | sources/lift.py:160-163 | a stopping move drops exactly the requests bound for the new floor and appends the boarded ones, all from that floor; requests are conserved and the total shrinks by the number served |
| `SourcesLift.StepClearsFloor` | sources/lift.py:132-142 | after a move that stopped, nobody aboard is bound for the car's floor, and the car is full or nobody waits there |
| `SourcesLift.StepIdleWhenEmpty` | sources/lift.py:165-167 | a move that found a target and leaves nothing waiting and nobody aboard leaves direction NONE |
| `SourcesLift.IdleStepSeedsUp` | sources/lift.py:99-100 | an idle, empty lift is left going UP by its first move, which every following move then repeats |
| `SourcesLift.RequestAtCarFloorIsStranded` | sources/lift.py:152-153 | a single request waiting on the car's own floor is never picked up: the move only seeds the direction, and repeating it changes nothing |
| `SourcesLift.Lift.constructor` | sources/lift.py:32-42 | a new lift is on floor 1, NONE, with an empty queue, nobody aboard and the stop flag set |
| `SourcesLift.Lift.IsFull` | sources/lift.py:45-47 | definition of `_is_full`: at least `capacity` requests aboard; used by `OnloadWaitingRequests` |
| `SourcesLift.Lift.GetCandidateFloors` | sources/lift.py:50-63 | the two loops compute the candidate floors of the current state |
| `SourcesLift.Lift.NeedToStop` | sources/lift.py:78-89 | the scan with early return says whether an onboard destination or a waiting origin is the car's floor |
| `SourcesLift.Lift.NextFloor` | sources/lift.py:92-123 | returns the target and leaves the direction that `_next_floor` prescribes for the state before the call |
| `SourcesLift.Lift.OffloadAndOnloadRequests` | sources/lift.py:126-142 | performs the drop-off and the boarding from the copy, and marks exactly the boarded requests as picked up |
| `SourcesLift.Lift.OffloadServedRequests` | sources/lift.py:132-134 | removing each served request leaves exactly the others, in order |
| `SourcesLift.Lift.OnloadWaitingRequests` | sources/lift.py:137-142 | the loop over the copy performs `SnapshotOnload` and marks exactly the boarded requests as picked up |
| `SourcesLift.Lift.Move` | sources/lift.py:145-167 | changes the fields exactly as `Step` prescribes and marks exactly the boarded requests as picked up |
| `SourcesLift.Lift.VisitCurrentFloor` | sources/lift.py:160-167 | the stop check, the exchange and the reset to NONE change the fields exactly as `Visit` prescribes |

## Behaviour of the code worth knowing

The model follows the code in each case below.

- A request waiting on the car's own floor is never served when nothing
  else is pending, although a caller would expect it to board at once
  (for instance a request from floor 1 to a new car). `_filter_candidates`
  only looks strictly above or below the car (source/lift.py:76,
  sources/lift.py:74). So `_next_floor` finds no target (source/lift.py:133-135,
  sources/lift.py:123), and `move` returns before the stop check
  (source/lift.py:173-174, sources/lift.py:152-153). Repeating the move
  changes nothing: `RequestAtCarFloorIsStranded` in both lift modules.
- In sources/lift.py an idle, empty car does not stay idle. The comment
  at sources/lift.py:123 says the lift "goes idle" when `_next_floor`
  returns None. But `_next_floor` has already seeded the direction UP
  (sources/lift.py:99-100) and does not reset it. `move` then returns
  before the reset to NONE (sources/lift.py:152-153, 165-167). The empty
  car is left going UP (`SourcesLift.IdleStepSeedsUp`). The reset that the
  comments at sources/lift.py:165 and source/lift.py:186 describe therefore
  happens only after a move that found a target
  (`SourcesLift.StepIdleWhenEmpty` requires one; `SourceLift.StepIdleWhenEmpty`
  does not, because source/lift.py:133-135 resets the direction itself).
- source/lift.py boards while iterating the live waiting list
  (source/lift.py:150-154). Every removal shifts the list under the
  iterator, so the request right behind each boarded one is passed over
  (`SourceLift.LiveOnloadSkipsSuccessor`,
  `SourceLift.LiveOnloadBoardsOnlyFirstOfTwo`). A stop there can leave
  someone waiting on the floor although the car has room. sources/lift.py
  iterates over a copy (sources/lift.py:137) and does not
  (`SourcesLift.VisitClearsFloor`).
- Neither `Lift.__init__` checks its arguments (source/lift.py:32-44,
  sources/lift.py:32-42). A caller passing a building size below 1 or a
  capacity below 1 gets a lift anyway, and the constructors of both models
  accept any integers.

## Left out

- The GUI, the plotting and testing scripts, the input parser, the random
  request generator and the stale `main` modules: they are presentation and
  I/O, or they call members no shown `Lift` has.
- `__repr__` of the lifts, of the queues and of the requests: only the
  request's status word is modelled (`Status`). The rest is string
  formatting.
- `get_requests` returns the live list in Python. `GetRequests` returns its
  value. Where the source mutates the queue while iterating the returned
  list (source/lift.py:150-154), the model re-reads `requests` at each step
  instead, which is the same list.
- `Queue` is not used by either lift; it is modelled on its own,
  generically over the element type, as `ReqQueue` is.
- Queue's docstring idea of pruning "visited combinations"
  (sources/queue.py:13-14): it is not implemented in the code.
- Termination of a run of moves: it does not hold in general (see the
  stranded request above), and no bound is stated.
- `_is_full` is the predicate `IsFull` of each `Lift` class. The
  `_filter_candidates`, `_need_to_stop` and selection logic of both
  versions is the same text; it is modelled once in `Dispatch` and cited at
  source/lift.py.
- `OffloadServedRequests`, `OnloadWaitingRequests` and `VisitCurrentFloor`
  are the two halves of `_offload_and_onload_requests` and the end of
  `move`, split out as methods so that each loop has its own contract.
  `ResetOnboardingOffboardingStatus` exists only in source/lift.py.
- The `Direction` enum's string values ("up", "down", None) are not
  modelled; only the three cases are.
