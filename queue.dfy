/** The older request container of sources/queue.py: the same list of
    requests as ReqQueue, but `remove_request` fails on an absent request,
    and `remove_duplicate_requests` returns the requests with repeated
    occurrences (by identity) dropped. */
module Queues {
  import opened Lists

  /** Outcome of an operation that can raise Python's ValueError. */
  datatype Outcome = Ok | ValueError

  /** The deduplicated list `remove_duplicate_requests` builds: the first
      occurrence of every request, in the order of those occurrences. It is
      defined on prefixes, as the loop builds it. */
  function Unique<T(==)>(s: seq<T>): seq<T>
  {
    if s == [] then []
    else
      var prefix := s[..|s| - 1];
      if s[|s| - 1] in prefix then Unique(prefix) else Unique(prefix) + [s[|s| - 1]]
  }

  /** Deduplication keeps every request and adds none. */
  lemma {:induction false} UniqueMembers<T>(s: seq<T>)
    ensures forall x :: x in Unique(s) <==> x in s
  {
    if s != [] {
      var prefix := s[..|s| - 1];
      assert s == prefix + [s[|s| - 1]];
      UniqueMembers(prefix);
    }
  }

  /** The result holds no request twice. */
  lemma {:induction false} UniqueNoDuplicates<T>(s: seq<T>)
    ensures NoDuplicates(Unique(s))
  {
    if s != [] {
      var prefix := s[..|s| - 1];
      UniqueNoDuplicates(prefix);
      UniqueMembers(prefix);
    }
  }

  /** The result is never longer than the input, and is exactly as long
      precisely when the input has no repeated request. */
  lemma {:induction false} UniqueLength<T>(s: seq<T>)
    ensures |Unique(s)| <= |s|
    ensures |Unique(s)| == |s| <==> NoDuplicates(s)
  {
    if s != [] {
      var prefix, x := s[..|s| - 1], s[|s| - 1];
      assert s == prefix + [x];
      UniqueLength(prefix);
      if x in prefix {
        var k :| 0 <= k < |prefix| && prefix[k] == x;
        assert s[k] == s[|s| - 1];
      } else {
        assert NoDuplicates(s) <==> NoDuplicates(prefix) by {
          if NoDuplicates(prefix) {
            forall i, j | 0 <= i < j < |s| ensures s[i] != s[j] {
              if j == |s| - 1 { assert s[i] in prefix; }
            }
          }
        }
      }
    }
  }

  /** A list with no repeats comes back unchanged. */
  lemma {:induction false} UniqueOfDistinct<T>(s: seq<T>)
    requires NoDuplicates(s)
    ensures Unique(s) == s
  {
    if s != [] {
      var prefix := s[..|s| - 1];
      assert s == prefix + [s[|s| - 1]];
      UniqueOfDistinct(prefix);
    }
  }

  /** The result lists the requests in the order of their first occurrences
      in the input. */
  lemma {:induction false} UniqueOrder<T>(s: seq<T>)
    ensures forall x :: x in Unique(s) ==> x in s
    ensures forall i, j :: 0 <= i < j < |Unique(s)| ==>
              IndexOf(s, Unique(s)[i]) < IndexOf(s, Unique(s)[j])
  {
    UniqueMembers(s);
    if s != [] {
      var prefix, x := s[..|s| - 1], s[|s| - 1];
      assert s == prefix + [x];
      UniqueOrder(prefix);
      UniqueMembers(prefix);
      var u := Unique(s);
      var up := Unique(prefix);
      forall i, j | 0 <= i < j < |u| ensures IndexOf(s, u[i]) < IndexOf(s, u[j]) {
        assert u[i] in up;
        IndexOfPrefix(prefix, [x], u[i]);
        if j < |up| {
          IndexOfPrefix(prefix, [x], u[j]);
        } else {
          assert u[j] == x && x !in prefix;
          assert IndexOf(s, x) == |prefix|;
        }
      }
    }
  }

  class Queue<T(==)> {
    /** The queued requests, in insertion order. */
    var requests: seq<T>

    /** A new queue holds no request. */
    constructor ()
      ensures requests == []
    {
      requests := [];
    }

    /** The current contents, oldest first. */
    method GetRequests() returns (rs: seq<T>)
      ensures rs == requests
    {
      rs := requests;
    }

    /** Appends at the end; earlier requests keep their places. */
    method AddRequest(req: T)
      modifies this
      ensures requests == old(requests) + [req]
    {
      requests := requests + [req];
    }

    /** `list.remove`: removes the first occurrence of a queued request, and
        raises ValueError, changing nothing, when the request is absent. */
    method RemoveRequest(req: T) returns (outcome: Outcome)
      modifies this
      ensures outcome == Ok <==> req in old(requests)
      ensures outcome == ValueError ==> requests == old(requests)
      ensures outcome == Ok ==>
                var i := IndexOf(old(requests), req);
                requests == old(requests)[..i] + old(requests)[i + 1..]
    {
      if req !in requests {
        return ValueError;
      }
      RemoveFirstAt(requests, req);
      requests := RemoveFirst(requests, req);
      outcome := Ok;
    }

    /** A fresh list of the queued requests without repeats, built with a
        `seen` set; the queue itself is left as it is. */
    method RemoveDuplicateRequests() returns (unique: seq<T>)
      ensures unique == Unique(requests)
      ensures NoDuplicates(unique)
      ensures forall x :: x in unique <==> x in requests
      ensures |unique| <= |requests|
      ensures |unique| == |requests| <==> NoDuplicates(requests)
    {
      unique := [];
      var seen: set<T> := {};
      for i := 0 to |requests|
        invariant unique == Unique(requests[..i])
        invariant forall x :: x in seen <==> x in requests[..i]
      {
        var req := requests[i];
        assert requests[..i + 1] == requests[..i] + [req];
        if req !in seen {
          unique := unique + [req];
          seen := seen + {req};
        }
      }
      assert requests[..|requests|] == requests;
      UniqueNoDuplicates(requests);
      UniqueMembers(requests);
      UniqueLength(requests);
    }
  }
}
