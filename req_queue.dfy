/** The waiting-request container of sources/req_queue.py. Requests are
    compared by identity, so the element type only needs equality; the lift
    models instantiate it with their own `Request` classes. */
module ReqQueues {
  import opened Lists

  class ReqQueue<T(==)> {
    /** The waiting requests, in insertion order. */
    var requests: seq<T>

    /** A new queue holds no request. */
    constructor ()
      ensures requests == []
    {
      requests := [];
    }

    /** The current contents, oldest first. The source hands out the live
        list; here it is a value, and code that iterates the live list reads
        `requests` afresh at every step instead. */
    method GetRequests() returns (rs: seq<T>)
      ensures rs == requests
    {
      rs := requests;
    }

    /** Appends at the end; earlier requests keep their places. */
    method AddRequest(req: T)
      modifies this
      ensures requests == old(requests) + [req]
      ensures requests[..|old(requests)|] == old(requests) && requests[|old(requests)|] == req
    {
      requests := requests + [req];
    }

    /** Removes the first occurrence of `req` when it is queued, and does
        nothing (raises nothing) when it is not. */
    method RemoveRequest(req: T)
      modifies this
      ensures requests == RemoveFirst(old(requests), req)
      ensures req !in old(requests) ==> requests == old(requests)
      ensures req in old(requests) ==>
                var i := IndexOf(old(requests), req);
                requests == old(requests)[..i] + old(requests)[i + 1..] &&
                |requests| == |old(requests)| - 1
    {
      if req in requests {
        RemoveFirstAt(requests, req);
        requests := RemoveFirst(requests, req);
      }
    }
  }
}
