/**
 * The request middleware with behaviour of its own: the per-client
 * sliding-window rate limiter and the choice of a request id. Times are
 * nanosecond counts supplied by the caller in place of the clock.
 */
module Middleware {
  import opened Wrappers
  import opened Text

  /** One minute in nanoseconds: the width of the sliding window. */
  const Minute: int := 60 * 1000 * 1000 * 1000

  /** The status sent back for a refused request. */
  const TooManyRequests: int := 429

  /** A timestamp, kept when it is less than a minute older than `now`. */
  function Fresh(now: int, t: int): seq<int>
  {
    if now - t < Minute then [t] else []
  }

  /** The timestamps of `ts` less than a minute old, in their order. */
  function Recent(ts: seq<int>, now: int): seq<int>
  {
    if ts == [] then [] else Recent(ts[..|ts| - 1], now) + Fresh(now, ts[|ts| - 1])
  }

  /** Pruning keeps exactly the timestamps inside the window and never grows the list. */
  lemma {:induction false} RecentKeeps(ts: seq<int>, now: int)
    ensures |Recent(ts, now)| <= |ts|
    ensures forall t :: t in Recent(ts, now) <==> t in ts && now - t < Minute
  {
    if ts != [] {
      var front := ts[..|ts| - 1];
      RecentKeeps(front, now);
      assert ts == front + [ts[|ts| - 1]];
    }
  }

  /** Pruning an already pruned list changes nothing. */
  lemma {:induction false} RecentIdempotent(ts: seq<int>, now: int)
    ensures Recent(Recent(ts, now), now) == Recent(ts, now)
  {
    if ts != [] {
      var front := ts[..|ts| - 1];
      var last := ts[|ts| - 1];
      RecentIdempotent(front, now);
      var r := Recent(front, now);
      if now - last < Minute {
        assert (r + [last])[..|r|] == r;
      } else {
        assert r + [] == r;
      }
    }
  }

  /** The most entries a client's list may hold. A limit below one still lets
    * a client's first request through, so such a list holds one entry. */
  function Cap(requestsPerMinute: int): nat
  {
    if requestsPerMinute > 0 then requestsPerMinute else 1
  }

  /** `RateLimit(requestsPerMinute)`: the map from client address to the times
    * of its recent accepted requests, kept between calls. */
  class RateLimiter {
    const requestsPerMinute: int
    var clients: map<string, seq<int>>

    /** No client's list is longer than the limit allows. */
    ghost predicate Valid()
      reads this
    {
      forall ip :: ip in clients ==> |clients[ip]| <= Cap(requestsPerMinute)
    }

    constructor (requestsPerMinute: int)
      ensures Valid()
      ensures this.requestsPerMinute == requestsPerMinute && clients == map[]
    {
      this.requestsPerMinute := requestsPerMinute;
      clients := map[];
    }

    /** One request from `clientIP` at time `now`: prune the client's list to the
      * last minute, refuse when it already holds the limit, otherwise record
      * `now`. A refused request is not recorded; no other client's entry changes. */
    method Handle(clientIP: string, now: int) returns (allowed: bool)
      requires Valid()
      modifies this
      ensures Valid()
      ensures allowed <==> clientIP !in old(clients) || |Recent(old(clients)[clientIP], now)| < requestsPerMinute
      ensures !allowed ==> clients == old(clients)[clientIP := Recent(old(clients)[clientIP], now)]
      ensures allowed && clientIP in old(clients) ==>
        clients == old(clients)[clientIP := Recent(old(clients)[clientIP], now) + [now]]
      ensures allowed && clientIP !in old(clients) ==> clients == old(clients)[clientIP := [now]]
      ensures forall ip :: ip != clientIP && ip in old(clients) ==> ip in clients && clients[ip] == old(clients)[ip]
    {
      if clientIP in clients {
        var requests := clients[clientIP];
        var validRequests := [];
        for i := 0 to |requests|
          invariant validRequests == Recent(requests[..i], now)
        {
          assert requests[..i + 1][..i] == requests[..i];
          if now - requests[i] < Minute {
            validRequests := validRequests + [requests[i]];
          } else {
            assert validRequests + [] == validRequests;
          }
        }
        assert requests[..|requests|] == requests;
        RecentKeeps(requests, now);
        clients := clients[clientIP := validRequests];
      }
      if clientIP in clients {
        if |clients[clientIP]| >= requestsPerMinute {
          return false;
        }
      }
      // Go replaces a nil list by an empty one here; both hold no timestamps.
      var current := if clientIP in clients then clients[clientIP] else [];
      assert clientIP !in clients ==> current + [now] == [now];
      clients := clients[clientIP := current + [now]];
      return true;
    }
  }

  /** The body of the refusal. */
  function RefusalMessage(requestsPerMinute: int): string
  {
    "Maximum " + Itoa(requestsPerMinute) + " requests per minute allowed"
  }

  /** `generateRequestID`: the decimal text of the current time in nanoseconds. */
  function GenerateRequestID(nanos: int): (id: string)
    requires -MaxInt64 - 1 <= nanos <= MaxInt64
    ensures id != "" && ParseInt(id, MaxInt64) == Some(nanos)
  {
    ParseItoa(nanos, MaxInt64);
    Itoa(nanos)
  }

  /** `RequestID`: the incoming `X-Request-ID` header when it is set, otherwise a
    * fresh id made from the time `nanos`. */
  function RequestID(header: string, nanos: int): (id: string)
    requires -MaxInt64 - 1 <= nanos <= MaxInt64
    ensures header != "" ==> id == header
    ensures header == "" ==> id == GenerateRequestID(nanos) && id != ""
  {
    if header == "" then GenerateRequestID(nanos) else header
  }
}
