/** A lift request as source/request.py defines it: origin and destination
    are stored as given, with no validation, and `pickedUp` starts false and
    is set by the lift when the request boards. */
module SourceRequest {

  class Request {
    const originFloor: int
    const destinationFloor: int
    var pickedUp: bool

    /** Stores both floors unchecked; a new request is waiting. */
    constructor (origin: int, destination: int)
      ensures originFloor == origin && destinationFloor == destination
      ensures !pickedUp
    {
      originFloor := origin;
      destinationFloor := destination;
      pickedUp := false;
    }

    predicate IsUpward() {
      destinationFloor > originFloor
    }

    predicate IsDownward() {
      destinationFloor < originFloor
    }

    /** The status word of the printed form. */
    function Status(): (status: string)
      reads this
      ensures status == "picked up" <==> pickedUp
      ensures status == "waiting" <==> !pickedUp
    {
      if pickedUp then "picked up" else "waiting"
    }
  }

  /** A request is never both upward and downward; it is neither exactly
      when its two floors coincide, which this version does not rule out. */
  lemma DirectionsExclusive(r: Request)
    ensures r.IsUpward() ==> !r.IsDownward()
    ensures !r.IsUpward() && !r.IsDownward() <==> r.originFloor == r.destinationFloor
    ensures r.IsUpward() <==> r.destinationFloor > r.originFloor
    ensures r.IsDownward() <==> r.destinationFloor < r.originFloor
  {
  }
}
