/** A lift request as sources/request.py defines it: construction checks
    both floors against the building and fails with ValueError on a bad
    request, so every request that exists is valid. */
module SourcesRequest {

  /** `is_valid_request`: both floors in `[1, numFloors]` and distinct. */
  function IsValidRequest(numFloors: int, originFloor: int, destinationFloor: int): (valid: bool)
    ensures valid <==> 1 <= originFloor <= numFloors && 1 <= destinationFloor <= numFloors
                       && originFloor != destinationFloor
  {
    if originFloor < 1 || destinationFloor < 1 then false
    else if originFloor > numFloors || destinationFloor > numFloors then false
    else if originFloor == destinationFloor then false
    else true
  }

  /** What construction yields: a request, or the ValueError it raises. */
  datatype Created = Created(request: Request) | ValueError

  class Request {
    const numFloors: int
    const originFloor: int
    const destinationFloor: int
    var pickedUp: bool

    /** The invariant construction establishes; the floors never change. */
    predicate Valid() {
      IsValidRequest(numFloors, originFloor, destinationFloor)
    }

    /** The successful path of `__init__`. */
    constructor (origin: int, destination: int, totalFloors: int)
      requires IsValidRequest(totalFloors, origin, destination)
      ensures numFloors == totalFloors
      ensures originFloor == origin && destinationFloor == destination
      ensures !pickedUp && Valid()
    {
      numFloors := totalFloors;
      originFloor := origin;
      destinationFloor := destination;
      pickedUp := false;
    }

    /** `Request(origin, destination, total_floors)`: raises ValueError
        exactly when the request is invalid, and otherwise returns a new
        waiting request holding the given floors. */
    static method New(origin: int, destination: int, totalFloors: int) returns (result: Created)
      ensures result.ValueError? <==> !IsValidRequest(totalFloors, origin, destination)
      ensures result.Created? ==>
                fresh(result.request) && result.request.Valid() &&
                result.request.numFloors == totalFloors &&
                result.request.originFloor == origin &&
                result.request.destinationFloor == destination &&
                !result.request.pickedUp
    {
      if !IsValidRequest(totalFloors, origin, destination) {
        return ValueError;
      }
      var r := new Request(origin, destination, totalFloors);
      result := Created(r);
    }

    predicate IsUpward() {
      destinationFloor > originFloor
    }

    predicate IsDownward() {
      destinationFloor < originFloor
    }

    /** The status word of the printed form. */
    function Status(): (status: string)
      reads this
      ensures status == "picked up" <==> pickedUp
      ensures status == "waiting" <==> !pickedUp
    {
      if pickedUp then "picked up" else "waiting"
    }
  }

  /** Every valid request goes exactly one way. */
  lemma ValidRequestHasOneDirection(r: Request)
    requires r.Valid()
    ensures r.IsUpward() != r.IsDownward()
    ensures r.IsUpward() <==> r.destinationFloor > r.originFloor
    ensures r.IsDownward() <==> r.destinationFloor < r.originFloor
  {
  }
}
