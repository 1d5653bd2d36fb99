/** `HttpApi._rate_ok` (sipgram/api.py:75-85): at most `rate_limit` requests per peer in any minute. */
module RateLimits {
  const WINDOW: real := 60.0

  type Peer = string

  /** How many of the times lie in the closed interval. */
  function Count(times: seq<real>, lo: real, hi: real): (n: nat)
    ensures n <= |times|
  {
    if times == [] then 0
    else Count(times[..|times| - 1], lo, hi) + if lo <= times[|times| - 1] <= hi then 1 else 0
  }

  predicate Sorted(times: seq<real>) {
    forall i, j :: 0 <= i < j < |times| ==> times[i] <= times[j]
  }

  predicate Below(times: seq<real>, hi: real) {
    forall i :: 0 <= i < |times| ==> times[i] <= hi
  }

  /** The requests that ought to get through: those that find fewer than `limit` of them in the preceding minute. */
  function Accepted(times: seq<real>, limit: nat): seq<real>
    decreases |times|
  {
    if times == [] then []
    else
      var before := Accepted(times[..|times| - 1], limit);
      var now := times[|times| - 1];
      if Count(before, now - WINDOW, now) < limit then before + [now] else before
  }

  lemma {:induction false} AcceptedSorted(times: seq<real>, limit: nat)
    requires Sorted(times)
    ensures Sorted(Accepted(times, limit))
    ensures times != [] ==> Below(Accepted(times, limit), times[|times| - 1])
    decreases |times|
  {
    hide Count;
    if times != [] {
      var front, now := times[..|times| - 1], times[|times| - 1];
      SortedFront(times);
      AcceptedSorted(front, limit);
      if front == [] {
        SortedSnoc([], now);
      } else {
        BelowLater(Accepted(front, limit), front[|front| - 1], now);
        SortedSnoc(Accepted(front, limit), now);
      }
    }
  }

  lemma SortedFront(times: seq<real>)
    requires Sorted(times) && times != []
    ensures Sorted(times[..|times| - 1]) && (|times| > 1 ==> times[..|times| - 1][|times| - 2] <= times[|times| - 1])
  {
  }

  lemma BelowLater(times: seq<real>, hi: real, later: real)
    requires Below(times, hi) && hi <= later
    ensures Below(times, later)
  {
  }

  lemma SortedSnoc(times: seq<real>, x: real)
    requires Sorted(times) && Below(times, x)
    ensures Sorted(times + [x]) && Below(times + [x], x)
  {
  }

  lemma CountSnoc(times: seq<real>, x: real, lo: real, hi: real)
    ensures Count(times + [x], lo, hi) == Count(times, lo, hi) + if lo <= x <= hi then 1 else 0
  {
    assert (times + [x])[..|times|] == times;
  }

  /** A wider interval that ends no earlier than the last time counts at least as many. */
  lemma {:induction false} CountWithin(times: seq<real>, lo: real, hi: real, lo2: real, hi2: real)
    requires lo2 <= lo && Below(times, hi2)
    ensures Count(times, lo, hi) <= Count(times, lo2, hi2)
    decreases |times|
  {
    if times != [] {
      CountWithin(times[..|times| - 1], lo, hi, lo2, hi2);
    }
  }

  /** Any closed minute contains at most `limit` accepted requests. */
  lemma {:induction false} NoBusyMinute(times: seq<real>, limit: nat, start: real)
    requires Sorted(times)
    ensures Count(Accepted(times, limit), start, start + WINDOW) <= limit
    decreases |times|
  {
    if times != [] {
      var front, now := times[..|times| - 1], times[|times| - 1];
      var before := Accepted(front, limit);
      NoBusyMinute(front, limit, start);
      AcceptedSorted(front, limit);
      if Count(before, now - WINDOW, now) < limit {
        CountSnoc(before, now, start, start + WINDOW);
        if start <= now <= start + WINDOW {
          if front != [] {
            assert front[|front| - 1] == times[|times| - 2] <= now;
          }
          assert Below(before, now);
          CountWithin(before, start, start + WINDOW, now - WINDOW, now);
        }
      }
    }
  }

  /** A request is refused if and only if exactly `limit` were accepted in the minute before it. */
  lemma RefusedIffFull(times: seq<real>, limit: nat, now: real)
    requires Sorted(times + [now])
    ensures Accepted(times + [now], limit) == Accepted(times, limit)
            <==> Count(Accepted(times, limit), now - WINDOW, now) == limit
  {
    assert (times + [now])[..|times|] == times;
    forall i, j | 0 <= i < j < |times| ensures times[i] <= times[j] {
      assert (times + [now])[i] <= (times + [now])[j];
    }
    NoBusyMinute(times, limit, now - WINDOW);
    assert now - WINDOW + WINDOW == now;
  }

  // ---- The deque ----

  /** Times older than the window, and the rest. */
  lemma {:induction false} CountSplits(stale: seq<real>, recent: seq<real>, lo: real, hi: real)
    requires forall i :: 0 <= i < |stale| ==> stale[i] < lo
    requires forall i :: 0 <= i < |recent| ==> lo <= recent[i] <= hi
    ensures Count(stale + recent, lo, hi) == |recent|
    decreases |recent|
  {
    if recent == [] {
      assert stale + recent == stale;
      AllStale(stale, lo, hi);
    } else {
      var front, last := recent[..|recent| - 1], recent[|recent| - 1];
      assert stale + recent == (stale + front) + [last];
      CountSnoc(stale + front, last, lo, hi);
      CountSplits(stale, front, lo, hi);
    }
  }

  lemma {:induction false} AllStale(stale: seq<real>, lo: real, hi: real)
    requires forall i :: 0 <= i < |stale| ==> stale[i] < lo
    ensures Count(stale, lo, hi) == 0
    decreases |stale|
  {
    if stale != [] {
      AllStale(stale[..|stale| - 1], lo, hi);
    }
  }

  /** The hits kept are the recent end of what was accepted; the rest left more than a minute before `now`. */
  predicate Recent(accepted: seq<real>, hits: seq<real>, now: real) {
    var cut := |accepted| - |hits|;
    cut >= 0 && accepted[cut..] == hits && forall i :: 0 <= i < cut ==> now - accepted[i] > WINDOW
  }

  /** One peer: its requests so far in order, and the hits kept of them. */
  predicate Kept(times: seq<real>, hits: seq<real>, limit: nat) {
    && Sorted(times)
    && if times == [] then hits == [] else Recent(Accepted(times, limit), hits, times[|times| - 1])
  }

  lemma PopHit(accepted: seq<real>, hits: seq<real>, now: real)
    requires Recent(accepted, hits, now) && hits != [] && now - hits[0] > WINDOW
    ensures Recent(accepted, hits[1..], now)
  {
    assert accepted[|accepted| - |hits|..][0] == hits[0];
  }

  lemma StillRecent(times: seq<real>, hits: seq<real>, limit: nat, now: real)
    requires Kept(times, hits, limit) && Sorted(times + [now])
    ensures Recent(Accepted(times, limit), hits, now)
  {
    if times != [] {
      assert (times + [now])[|times| - 1] <= (times + [now])[|times|];
    }
  }

  /** Once the stale hits are gone, as many are left as the last minute accepted. */
  lemma KeptCount(times: seq<real>, hits: seq<real>, limit: nat, now: real)
    requires Sorted(times + [now]) && Sorted(times) && Recent(Accepted(times, limit), hits, now)
    requires hits != [] ==> now - hits[0] <= WINDOW
    ensures Count(Accepted(times, limit), now - WINDOW, now) == |hits|
  {
    hide Accepted, Count;
    var accepted := Accepted(times, limit);
    var cut := |accepted| - |hits|;
    AcceptedSorted(times, limit);
    if times == [] {
      NoneAccepted(limit);
    } else {
      assert (times + [now])[|times| - 1] <= (times + [now])[|times|];
    }
    forall i | 0 <= i < |hits| ensures now - WINDOW <= hits[i] <= now {
      assert accepted[cut + i] == hits[i] && accepted[cut] == hits[0];
    }
    assert accepted == accepted[..cut] + hits;
    CountSplits(accepted[..cut], hits, now - WINDOW, now);
  }

  lemma NoneAccepted(limit: nat)
    ensures Accepted([], limit) == []
  {
  }

  lemma NextKept(times: seq<real>, hits: seq<real>, limit: nat, now: real)
    requires Sorted(times + [now]) && Sorted(times) && Recent(Accepted(times, limit), hits, now)
    requires hits != [] ==> now - hits[0] <= WINDOW
    ensures var ok := |hits| < limit;
            && Kept(times + [now], if ok then hits + [now] else hits, limit)
            && ok == (Count(Accepted(times, limit), now - WINDOW, now) < limit)
            && Accepted(times + [now], limit) == Accepted(times, limit) + (if ok then [now] else [])
  {
    hide Accepted, Count;
    KeptCount(times, hits, limit, now);
    AcceptedSnoc(times, limit, now);
    RecentSnoc(Accepted(times, limit), hits, now);
  }

  lemma AcceptedSnoc(times: seq<real>, limit: nat, now: real)
    ensures Accepted(times + [now], limit)
            == Accepted(times, limit) + if Count(Accepted(times, limit), now - WINDOW, now) < limit then [now] else []
  {
    assert (times + [now])[..|times|] == times;
    assert Accepted(times, limit) + [] == Accepted(times, limit);
  }

  lemma RecentSnoc(accepted: seq<real>, hits: seq<real>, now: real)
    requires Recent(accepted, hits, now)
    ensures Recent(accepted + [now], hits + [now], now) && Recent(accepted + [], hits, now)
  {
    var cut := |accepted| - |hits|;
    assert (accepted + [now])[cut..] == accepted[cut..] + [now];
    assert accepted + [] == accepted;
  }

  class RateLimiter {
    const limit: int
    var hits: map<Peer, seq<real>>
    /** The times of every peer's requests. */
    ghost var requests: map<Peer, seq<real>>

    ghost function Requests(peer: Peer): seq<real>
      reads `requests
    {
      if peer in requests then requests[peer] else []
    }

    function Hits(peer: Peer): seq<real>
      reads `hits
    {
      if peer in hits then hits[peer] else []
    }

    ghost predicate Valid()
      reads `hits, `requests
    {
      limit > 0 ==> forall peer :: Kept(Requests(peer), Hits(peer), limit)
    }

    constructor (limit: int)
      ensures Valid() && this.limit == limit && forall peer :: Requests(peer) == []
    {
      this.limit := limit;
      hits, requests := map[], map[];
    }

    /** `_rate_ok`; the clock never goes back. */
    method RateOk(peer: Peer, now: real) returns (ok: bool)
      requires Valid() && Sorted(Requests(peer) + [now])
      modifies this
      ensures Valid() && requests == old(requests)[peer := old(Requests(peer)) + [now]]
      ensures limit <= 0 ==> ok && hits == old(hits)
      ensures limit > 0 ==>
                ok == (Count(Accepted(old(Requests(peer)), limit), now - WINDOW, now) < limit)
                && Accepted(Requests(peer), limit) == Accepted(old(Requests(peer)), limit) + (if ok then [now] else [])
    {
      hide Kept, Recent, Accepted, Count;
      ghost var times := Requests(peer);
      if limit <= 0 {
        requests := requests[peer := times + [now]];
        return true;
      }
      var kept := Hits(peer);
      StillRecent(times, kept, limit, now);
      KeptSorted(times, kept, limit);
      while kept != [] && now - kept[0] > WINDOW
        invariant Recent(Accepted(times, limit), kept, now)
        modifies {}
        decreases |kept|
      {
        PopHit(Accepted(times, limit), kept, now);
        kept := kept[1..];
      }
      NextKept(times, kept, limit, now);
      ok := |kept| < limit;
      if ok {
        kept := kept + [now];
      }
      requests := requests[peer := times + [now]];
      hits := hits[peer := kept];
      forall p ensures Kept(Requests(p), Hits(p), limit) {
        if p != peer {
          assert old(Kept(Requests(p), Hits(p), limit));
        }
      }
    }
  }

  lemma KeptSorted(times: seq<real>, hits: seq<real>, limit: nat)
    requires Kept(times, hits, limit)
    ensures Sorted(times)
  {
  }
}
