/** Retransmission over UDP (sections 13.3.1.4 and 17.1.2.2 of RFC 3261): the timer shared by
    `SipCall._retransmit_final` and `SipAccount._retransmit`, for any T1, T2, timeout and late timers. */
module Retransmission {
  import opened Options
  import opened Sequences
  import opened UserAgents

  /** The wait in progress, when it is over, and when to give up. */
  datatype Retry = Retry(interval: real, due: real, deadline: real)

  function Begin(start: real, t1: real, timeout: real): Retry {
    Retry(t1, start + t1, start + timeout)
  }

  function Min(a: real, b: real): real {
    if a < b then a else b
  }

  /** One retransmission at `now`. */
  function Next(r: Retry, t2: real, now: real): Retry {
    var interval := Min(r.interval * 2.0, t2);
    Retry(interval, now + interval, r.deadline)
  }

  /** The times at which a timer that fires at `fires` sends. */
  function Sends(r: Retry, t2: real, fires: seq<real>): seq<real>
    decreases |fires|
  {
    if fires == [] || fires[0] > r.deadline then [] else [fires[0]] + Sends(Next(r, t2, fires[0]), t2, fires[1..])
  }

  /** A timer never fires early, and not again once it has given up. */
  predicate Timely(r: Retry, t2: real, fires: seq<real>)
    decreases |fires|
  {
    fires == [] ||
    (fires[0] >= r.due && if fires[0] > r.deadline then |fires| == 1 else Timely(Next(r, t2, fires[0]), t2, fires[1..]))
  }

  /** A timer that is always on time and goes on until it gives up. */
  predicate Exact(r: Retry, t2: real, fires: seq<real>)
    decreases |fires|
  {
    && fires != []
    && fires[0] == r.due
    && if fires[0] > r.deadline then |fires| == 1 else Exact(Next(r, t2, fires[0]), t2, fires[1..])
  }

  // ---- The schedule ----

  /** t * 2^k */
  function Doubled(t: real, k: nat): real {
    if k == 0 then t else 2.0 * Doubled(t, k - 1)
  }

  /** The wait between send k and send k + 1: min(T1 * 2^k, T2), but T1 the first time. */
  function Gap(t1: real, t2: real, k: nat): real {
    if k == 0 then t1 else Min(Doubled(t1, k), t2)
  }

  /** The least time from the first transmission to send n. */
  function Elapsed(t1: real, t2: real, n: nat): real {
    if n == 0 then 0.0 else Elapsed(t1, t2, n - 1) + Gap(t1, t2, n - 1)
  }

  lemma GapDoubles(t1: real, t2: real, k: nat)
    requires t1 > 0.0 && t2 > 0.0
    ensures Min(Gap(t1, t2, k) * 2.0, t2) == Gap(t1, t2, k + 1)
  {
    assert Doubled(t1, k + 1) == 2.0 * Doubled(t1, k);
  }

  /** Send k + 1 + i comes no earlier than the schedule says, and exactly then if the timer is on time. */
  lemma {:induction false} SendTimes(t1: real, t2: real, r: Retry, k: nat, from: real, fires: seq<real>, i: nat)
    requires t1 > 0.0 && t2 > 0.0 && r.interval == Gap(t1, t2, k) && r.due == from + Gap(t1, t2, k)
    requires Timely(r, t2, fires) && i < |Sends(r, t2, fires)|
    ensures Sends(r, t2, fires)[i] - from >= Elapsed(t1, t2, k + i + 1) - Elapsed(t1, t2, k)
    ensures Exact(r, t2, fires) ==> Sends(r, t2, fires)[i] - from == Elapsed(t1, t2, k + i + 1) - Elapsed(t1, t2, k)
    decreases |fires|
  {
    GapDoubles(t1, t2, k);
    if i > 0 {
      SendTimes(t1, t2, Next(r, t2, fires[0]), k + 1, fires[0], fires[1..], i - 1);
    }
  }

  /** Consecutive sends are at least min(T1 * 2^k, T2) apart. */
  lemma {:induction false} SendGaps(t1: real, t2: real, r: Retry, k: nat, fires: seq<real>, i: nat)
    requires t1 > 0.0 && t2 > 0.0 && r.interval == Gap(t1, t2, k)
    requires Timely(r, t2, fires) && i + 1 < |Sends(r, t2, fires)|
    ensures Sends(r, t2, fires)[i + 1] - Sends(r, t2, fires)[i] >= Gap(t1, t2, k + i + 1)
    ensures Exact(r, t2, fires) ==> Sends(r, t2, fires)[i + 1] - Sends(r, t2, fires)[i] == Gap(t1, t2, k + i + 1)
    decreases |fires|
  {
    GapDoubles(t1, t2, k);
    var next := Next(r, t2, fires[0]);
    assert Exact(r, t2, fires) ==> Exact(next, t2, fires[1..]);
    if i > 0 {
      SendGaps(t1, t2, next, k + 1, fires[1..], i - 1);
    }
  }

  lemma {:induction false} SendsBeforeDeadline(r: Retry, t2: real, fires: seq<real>, i: nat)
    requires i < |Sends(r, t2, fires)|
    ensures Sends(r, t2, fires)[i] <= r.deadline
    decreases |fires|
  {
    if i > 0 {
      SendsBeforeDeadline(Next(r, t2, fires[0]), t2, fires[1..], i - 1);
    }
  }

  /** An exact timer fires once more than it sends, past the deadline by no more than the last wait. */
  lemma {:induction false} GivesUp(t1: real, t2: real, r: Retry, k: nat, from: real, fires: seq<real>)
    requires t1 > 0.0 && t2 > 0.0 && r.interval == Gap(t1, t2, k) && r.due == from + Gap(t1, t2, k)
    requires from <= r.deadline
    requires Exact(r, t2, fires)
    ensures |fires| == |Sends(r, t2, fires)| + 1 && Timely(r, t2, fires)
    ensures r.deadline < fires[|fires| - 1] <= r.deadline + Gap(t1, t2, k + |fires| - 1)
    ensures fires[|fires| - 1] - from == Elapsed(t1, t2, k + |fires|) - Elapsed(t1, t2, k)
    decreases |fires|
  {
    GapDoubles(t1, t2, k);
    if fires[0] <= r.deadline {
      GivesUp(t1, t2, Next(r, t2, fires[0]), k + 1, fires[0], fires[1..]);
    }
  }

  // ---- How many ----

  /** m is the least number of doublings that take t to x. */
  predicate Reaches(t: real, x: real, m: nat) {
    Doubled(t, m) >= x && (m > 0 ==> Doubled(t, m - 1) < x)
  }

  /** The number of doublings from t to x. */
  function Doublings(t: real, x: real): (m: nat)
    requires t > 0.0
    ensures Reaches(t, x, m)
    decreases if t < x then (x / t).Floor else 0
  {
    if t >= x then 0
    else
      Halved(t, x);
      var m := Doublings(2.0 * t, x);
      DoubledTwice(t, m);
      if m > 0 then
        DoubledTwice(t, m - 1);
        m + 1
      else m + 1
  }

  lemma Halved(t: real, x: real)
    requires 0.0 < t < x
    ensures 2.0 * t < x ==> 0 <= (x / (2.0 * t)).Floor < (x / t).Floor
    ensures 0 < (x / t).Floor
  {
    var q, h := x / t, x / (2.0 * t);
    assert q * t == x && h * (2.0 * t) == x;
    assert q == 2.0 * h by {
      assert (q - 2.0 * h) * t == 0.0;
    }
    assert q > 1.0 by {
      assert (q - 1.0) * t > 0.0;
    }
  }

  lemma {:induction false} DoubledTwice(t: real, k: nat)
    ensures Doubled(2.0 * t, k) == Doubled(t, k + 1)
  {
    if k > 0 {
      DoubledTwice(t, k - 1);
    }
  }

  lemma {:induction false} DoubledGrows(t: real, k: nat, m: nat)
    requires t > 0.0 && k <= m
    ensures 0.0 < Doubled(t, k) <= Doubled(t, m)
    decreases m
  {
    if k < m {
      DoubledGrows(t, k, m - 1);
    } else if k > 0 {
      DoubledGrows(t, k - 1, k - 1);
    }
  }

  lemma {:induction false} ElapsedDoubling(t1: real, t2: real, m: nat, n: nat)
    requires 0.0 < t1 <= t2 && Reaches(t1, t2, m) && n <= m
    ensures Elapsed(t1, t2, n) == Doubled(t1, n) - t1
    decreases n
  {
    if n > 0 {
      ElapsedDoubling(t1, t2, m, n - 1);
      DoubledGrows(t1, n - 1, m - 1);
    }
  }

  lemma {:induction false} ElapsedSteady(t1: real, t2: real, m: nat, n: nat)
    requires 0.0 < t1 <= t2 && Reaches(t1, t2, m) && n >= m
    ensures Elapsed(t1, t2, n) == Doubled(t1, m) - t1 + (n - m) as real * t2
    decreases n
  {
    if n == m {
      ElapsedDoubling(t1, t2, m, n);
    } else {
      ElapsedSteady(t1, t2, m, n - 1);
      DoubledGrows(t1, m, n - 1);
      assert Gap(t1, t2, n - 1) == t2;
      OneMore(t2, n - 1 - m);
    }
  }

  lemma OneMore(t: real, k: int)
    ensures (k + 1) as real * t == k as real * t + t
  {
  }

  lemma {:induction false} ElapsedAtOnce(t1: real, t2: real, n: nat)
    requires 0.0 < t2 < t1 && n > 0
    ensures Elapsed(t1, t2, n) == t1 + (n - 1) as real * t2
  {
    if n > 1 {
      ElapsedAtOnce(t1, t2, n - 1);
      DoubledGrows(t1, 0, n - 1);
      OneMore(t2, n - 2);
    } else {
      FirstGap(t1, t2);
    }
  }

  /** Retransmissions before the deadline: first the doublings, and from T2 on one per T2. */
  function Count(t1: real, t2: real, timeout: real): int
    requires t1 > 0.0 && t2 > 0.0
  {
    var m := Doublings(t1, t2);
    if t1 > t2 then
      if timeout < t1 then 0 else 1 + ((timeout - t1) / t2).Floor
    else if timeout >= Doubled(t1, m) - t1 then
      m + ((timeout - (Doubled(t1, m) - t1)) / t2).Floor
    else
      var k := Doublings(t1, t1 + timeout);
      if Doubled(t1, k) > t1 + timeout then k - 1 else k
  }

  /** The count is where the schedule crosses the timeout. */
  lemma CountCrosses(t1: real, t2: real, timeout: real, n: nat)
    requires t1 > 0.0 && t2 > 0.0 && timeout >= 0.0
    ensures Elapsed(t1, t2, n) <= timeout <==> n <= Count(t1, t2, timeout)
  {
    hide Doubled, Elapsed, Reaches;
    FirstGap(t1, t2);
    if t1 > t2 {
      if n > 0 {
        ElapsedAtOnce(t1, t2, n);
        if timeout < t1 {
          ElapsedGrows(t1, t2, 1, n);
          ElapsedAtOnce(t1, t2, 1);
        } else {
          Quotient(timeout - t1, t2, n - 1);
        }
      } else if timeout >= t1 {
        Quotient(timeout - t1, t2, 0);
      }
    } else if timeout >= Doubled(t1, Doublings(t1, t2)) - t1 {
      CrossesSteady(t1, t2, timeout, n);
    } else {
      CrossesDoubling(t1, t2, timeout, n);
    }
  }

  /** With time for all the doublings. */
  lemma CrossesSteady(t1: real, t2: real, timeout: real, n: nat)
    requires 0.0 < t1 <= t2 && timeout >= Doubled(t1, Doublings(t1, t2)) - t1
    ensures Elapsed(t1, t2, n) <= timeout <==> n <= Count(t1, t2, timeout)
  {
    hide Doubled, Elapsed, Reaches;
    var m := Doublings(t1, t2);
    var base := Doubled(t1, m) - t1;
    if n >= m {
      ElapsedSteady(t1, t2, m, n);
      Quotient(timeout - base, t2, n - m);
    } else {
      ElapsedGrows(t1, t2, n, m);
      ElapsedDoubling(t1, t2, m, m);
    }
    Quotient(timeout - base, t2, 0);
  }

  /** With time for only some of them. */
  lemma CrossesDoubling(t1: real, t2: real, timeout: real, n: nat)
    requires 0.0 < t1 <= t2 && 0.0 <= timeout < Doubled(t1, Doublings(t1, t2)) - t1
    ensures Elapsed(t1, t2, n) <= timeout <==> n <= Count(t1, t2, timeout)
  {
    hide Doubled, Elapsed;
    var m := Doublings(t1, t2);
    var k := Doublings(t1, t1 + timeout);
    if n > m {
      ElapsedGrows(t1, t2, m, n);
      ElapsedDoubling(t1, t2, m, m);
    } else {
      ElapsedDoubling(t1, t2, m, n);
    }
    if k > m {
      DoubledGrows(t1, m, k - 1);
    }
    if n >= k {
      DoubledGrows(t1, k, n);
    } else {
      DoubledGrows(t1, n, k - 1);
    }
    if n > k {
      DoubledGrows(t1, k, n - 1);
      DoubledStrict(t1, n - 1);
    }
    DoubledStrict(t1, 0);
    FirstGap(t1, t2);
  }

  lemma DoubledStrict(t: real, k: nat)
    requires t > 0.0
    ensures Doubled(t, k) < Doubled(t, k + 1)
  {
    DoubledGrows(t, 0, k);
  }

  lemma Quotient(x: real, t: real, k: int)
    requires t > 0.0
    ensures k as real * t <= x <==> k <= (x / t).Floor
  {
    var q := x / t;
    assert q * t == x;
    if k as real <= q {
      Scale(t, k as real, q);
    } else {
      ScaleStrict(t, q, k as real);
    }
  }

  lemma Scale(t: real, a: real, b: real)
    requires t > 0.0 && a <= b
    ensures t * a <= t * b
  {
  }

  lemma ScaleStrict(t: real, a: real, b: real)
    requires t > 0.0 && a < b
    ensures t * a < t * b
  {
  }

  lemma {:induction false} ElapsedGrows(t1: real, t2: real, n: nat, m: nat)
    requires t1 > 0.0 && t2 > 0.0 && n <= m
    ensures Elapsed(t1, t2, n) <= Elapsed(t1, t2, m)
    decreases m - n
  {
    if n < m {
      ElapsedGrows(t1, t2, n, m - 1);
      GapPositive(t1, t2, m - 1);
    }
  }

  lemma {:induction false} GapPositive(t1: real, t2: real, k: nat)
    requires t1 > 0.0 && t2 > 0.0
    ensures Gap(t1, t2, k) > 0.0
    decreases k
  {
    if k > 0 {
      GapPositive(t1, t2, k - 1);
      GapDoubles(t1, t2, k - 1);
    }
  }

  /** However late its timer, a message is sent again at most Count times before its deadline, no two sends closer
      than the schedule; a timer on time sends exactly Count times and gives up no later than one full wait past the
      deadline. */
  lemma RetransmissionBound(start: real, t1: real, t2: real, timeout: real, fires: seq<real>)
    requires t1 > 0.0 && t2 > 0.0 && timeout >= 0.0
    requires Timely(Begin(start, t1, timeout), t2, fires)
    ensures var sends := Sends(Begin(start, t1, timeout), t2, fires);
            && |sends| <= Count(t1, t2, timeout)
            && forall i :: 0 <= i < |sends| ==> start + Elapsed(t1, t2, i + 1) <= sends[i] <= start + timeout
    ensures Exact(Begin(start, t1, timeout), t2, fires) ==>
              && |Sends(Begin(start, t1, timeout), t2, fires)| == Count(t1, t2, timeout)
              && start + timeout < fires[|fires| - 1] <= start + timeout + if t1 > t2 then t1 else t2
  {
    hide Exact, Timely, Elapsed, Count, Doubled, Gap;
    var r := Begin(start, t1, timeout);
    var sends := Sends(r, t2, fires);
    FirstGap(t1, t2);
    forall i | 0 <= i < |sends| ensures start + Elapsed(t1, t2, i + 1) <= sends[i] <= start + timeout {
      SendTimes(t1, t2, r, 0, start, fires, i);
      SendsBeforeDeadline(r, t2, fires, i);
    }
    CountCrosses(t1, t2, timeout, |sends|);
    if sends != [] {
      assert sends[|sends| - 1] <= start + timeout;
    }
    if Exact(r, t2, fires) {
      GivesUp(t1, t2, r, 0, start, fires);
      CountCrosses(t1, t2, timeout, |fires|);
      GapAtMost(t1, t2, |fires| - 1);
    }
  }

  lemma FirstGap(t1: real, t2: real)
    ensures Gap(t1, t2, 0) == t1 && Elapsed(t1, t2, 0) == 0.0 && Doubled(t1, 0) == t1
  {
  }

  lemma GapAtMost(t1: real, t2: real, k: nat)
    ensures Gap(t1, t2, k) <= if t1 > t2 then t1 else t2
  {
  }

  lemma DefaultCount()
    ensures Reaches(T1, T2, 3) && Doubled(T1, 3) == 4.0 && Count(T1, T2, TIMER_B) == 10
  {
    assert Doubled(T1, 1) == 1.0 && Doubled(T1, 2) == 2.0 && Doubled(T1, 3) == 4.0;
    DoublingsUnique(T1, T2, 3);
    assert (TIMER_B - (4.0 - T1)) / T2 == 7.125;
  }

  lemma DoublingsUnique(t: real, x: real, m: nat)
    requires t > 0.0 && Reaches(t, x, m)
    ensures Doublings(t, x) == m
  {
    hide Doubled;
    var k := Doublings(t, x);
    if k < m {
      DoubledGrows(t, k, m - 1);
    } else if m < k {
      DoubledGrows(t, m, k - 1);
    }
  }

  /** With T1 = 0.5 s, T2 = 4 s and 32 s: ten retransmissions, eleven sends in all, and the end at 35.5 s. */
  lemma DefaultSchedule(start: real, fires: seq<real>)
    requires Exact(Begin(start, T1, TIMER_B), T2, fires)
    ensures 1 + |Sends(Begin(start, T1, TIMER_B), T2, fires)| == 11
    ensures fires[|fires| - 1] == start + 35.5
  {
    hide Exact, Timely, Elapsed, Gap, Doubled, Reaches, Count;
    DefaultCount();
    FirstGap(T1, T2);
    GivesUp(T1, T2, Begin(start, T1, TIMER_B), 0, start, fires);
    RetransmissionBound(start, T1, T2, TIMER_B, fires);
    ElapsedSteady(T1, T2, 3, 11);
  }

  // ---- The final response of a call ----

  /** The timer of a call waiting for its ACK. */
  function RetryOf(c: Call): Retry
    requires c.timer.Some?
  {
    Retry(c.interval, c.timer.value, c.deadline)
  }

  predicate AwaitsAck(c: Call) {
    c.phase == Connected && c.timer.Some? && !c.acked && c.lastFinal.Some? && c.lastFinal.value.code == 200
  }

  function FireAll(c: Call, w: Wire, fires: seq<real>, udp: bool): Side
    decreases |fires|
  {
    if fires == [] then Side(c, w)
    else var side := Fire(c, w, fires[0], udp); FireAll(side.call, side.wire, fires[1..], udp)
  }

  function SentAt(r: Response, times: seq<real>): seq<Mark> {
    if times == [] then [] else [Sent(r, times[0])] + SentAt(r, times[1..])
  }

  /** An answered call without an ACK sends its 200 on that schedule and nothing else, and is hung up when the timer
      fires past the deadline. */
  lemma {:induction false} FinalRetransmissions(c: Call, w: Wire, fires: seq<real>, udp: bool)
    requires AwaitsAck(c) && Timely(RetryOf(c), T2, fires)
    ensures var side := FireAll(c, w, fires, udp);
            && side.wire.log == w.log + SentAt(c.lastFinal.value, Sends(RetryOf(c), T2, fires))
            && (fires != [] && fires[|fires| - 1] > c.deadline ==> side.call.phase == Terminated)
            && (fires == [] || fires[|fires| - 1] <= c.deadline ==> AwaitsAck(side.call))
    decreases |fires|
  {
    hide Fire;
    if fires == [] {
      assert w.log + [] == w.log;
    } else {
      var side := Fire(c, w, fires[0], udp);
      var r := c.lastFinal.value;
      FireOnce(c, w, fires[0], udp);
      if fires[0] > c.deadline {
        assert fires[1..] == [];
        assert FireAll(side.call, side.wire, [], udp) == side;
        assert w.log + [] == w.log;
      } else {
        FinalRetransmissions(side.call, side.wire, fires[1..], udp);
        Regroup(w.log, [Sent(r, fires[0])], SentAt(r, Sends(RetryOf(side.call), T2, fires[1..])));
        var sends := Sends(RetryOf(c), T2, fires);
        assert sends[1..] == Sends(RetryOf(side.call), T2, fires[1..]);
      }
    }
  }

  /** The 200 that a handler has just sent at `now` from a call that then waits for its ACK. */
  predicate JustSent(c: Call, w: Wire, side: Side, r: Response, now: real) {
    && AwaitsAck(side.call) && side.call.lastFinal == Some(r) && RetryOf(side.call) == Begin(now, T1, TIMER_B)
    && side.wire.log == w.log + [Sent(r, now)]
  }

  /** A call whose 200 is never acknowledged: the 200 goes out at most eleven times, on the schedule and not after the
      deadline, and nothing else does; the call is hung up by the first timer past the deadline and not before. With a
      timer on time there are exactly eleven sends, and the call is hung up 35.5 s after the first. */
  predicate GivenUp(w: Wire, ended: Side, r: Response, now: real, fires: seq<real>) {
    var sends := Sends(Begin(now, T1, TIMER_B), T2, fires);
    && ended.wire.log == w.log + ([Sent(r, now)] + SentAt(r, sends))
    && 1 + |sends| <= 11
    && (forall i :: 0 <= i < |sends| ==> now + Elapsed(T1, T2, i + 1) <= sends[i] <= now + TIMER_B)
    && (ended.call.phase == Terminated <==> fires != [] && fires[|fires| - 1] > now + TIMER_B)
    && (Exact(Begin(now, T1, TIMER_B), T2, fires) ==>
         && 1 + |sends| == 11 && fires[|fires| - 1] == now + 35.5 && ended.call.phase == Terminated
         && now + TIMER_B < fires[|fires| - 1] <= now + TIMER_B + T2)
  }

  lemma NoAckGivesUp(c: Call, w: Wire, side: Side, r: Response, now: real, fires: seq<real>)
    requires JustSent(c, w, side, r, now) && Timely(Begin(now, T1, TIMER_B), T2, fires)
    ensures GivenUp(w, FireAll(side.call, side.wire, fires, true), r, now, fires)
  {
    hide FireAll, Sends, SentAt, Timely, Exact, Elapsed, Count, Reaches, Doubled;
    FinalRetransmissions(side.call, side.wire, fires, true);
    RetransmissionBound(now, T1, T2, TIMER_B, fires);
    DefaultCount();
    Regroup(w.log, [Sent(r, now)], SentAt(r, Sends(Begin(now, T1, TIMER_B), T2, fires)));
    if Exact(Begin(now, T1, TIMER_B), T2, fires) {
      DefaultSchedule(now, fires);
      ExactFires(Begin(now, T1, TIMER_B), T2, fires);
    }
  }

  lemma ExactFires(r: Retry, t2: real, fires: seq<real>)
    requires Exact(r, t2, fires)
    ensures fires != []
  {
  }

  /** An answered call without an ACK. */
  lemma AnswerGivenUp(c: Call, w: Wire, now: real, fires: seq<real>)
    requires Answerable(c) && Timely(Begin(now, T1, TIMER_B), T2, fires)
    ensures var side := Answer(c, w, now, true);
            GivenUp(w, FireAll(side.call, side.wire, fires, true), Response(c.invite.value, 200, c.version), now, fires)
  {
    hide GivenUp, FireAll, Timely;
    NoAckGivesUp(c, w, Answer(c, w, now, true), Response(c.invite.value, 200, c.version), now, fires);
  }

  /** A re-INVITE accepted without an ACK. */
  lemma ReinviteGivenUp(c: Call, w: Wire, req: Request, now: real, fires: seq<real>)
    requires c.phase == Connected && !c.pending && Timely(Begin(now, T1, TIMER_B), T2, fires)
    ensures var side := Reinvite(c, w, req, now, true);
            && side.call.lastFinal.Some? && side.call.lastFinal.value.to == req && side.call.lastFinal.value.code == 200
            && GivenUp(w, FireAll(side.call, side.wire, fires, true), side.call.lastFinal.value, now, fires)
  {
    hide GivenUp, FireAll, Timely;
    var side := Reinvite(c, w, req, now, true);
    NoAckGivesUp(c, w, side, side.call.lastFinal.value, now, fires);
  }

  lemma FireOnce(c: Call, w: Wire, now: real, udp: bool)
    requires AwaitsAck(c) && now >= c.timer.value
    ensures var side := Fire(c, w, now, udp);
            if now > c.deadline then side.call.phase == Terminated && side.wire == w
            else AwaitsAck(side.call) && RetryOf(side.call) == Next(RetryOf(c), T2, now)
                 && side.call.lastFinal == c.lastFinal && side.call.deadline == c.deadline
                 && side.wire.log == w.log + [Sent(c.lastFinal.value, now)]
  {
  }

  /** After the ACK nothing is sent again, whenever the timer fires. */
  lemma {:induction false} NothingAfterAck(c: Call, w: Wire, fires: seq<real>, udp: bool)
    ensures FireAll(Acked(c), w, fires, udp) == Side(Acked(c), w)
    decreases |fires|
  {
    if fires != [] {
      NothingAfterAck(c, w, fires[1..], udp);
    }
  }

  // ---- Client transactions ----

  /** `ClientTxn` with `_send_request`, `_retransmit` and `_handle_response`. */
  class ClientTxn {
    const deadline: real
    /** Whether it belongs to a dialog, and whether someone wants to hear of provisional responses. */
    const dialog: bool
    const listens: bool
    var interval: real
    var timer: Option<real>
    var result: Option<nat>
    var sent: seq<real>
    /** The final responses that were acknowledged, and the provisional ones passed on. */
    var acks: seq<nat>
    var heard: seq<nat>

    ghost predicate Waiting()
      reads this
    {
      timer.Some? && result.None?
    }

    ghost function Schedule(): Retry
      requires timer.Some?
      reads this
    {
      Retry(interval, timer.value, deadline)
    }

    constructor (now: real, timeout: real, udp: bool, dialog: bool, listens: bool)
      ensures sent == [now] && result.None? && acks == [] && heard == [] && this.dialog == dialog
      ensures this.listens == listens
      ensures udp ==> Waiting() && Schedule() == Begin(now, T1, timeout)
      ensures !udp ==> timer.None?
    {
      deadline := now + timeout;
      this.dialog, this.listens, acks, heard := dialog, listens, [], [];
      interval := T1;
      result := None;
      sent := [now];
      timer := if udp then Some(now + T1) else None;
    }

    method Retransmit(now: real)
      requires timer.Some? && now >= timer.value
      modifies this
      ensures result == old(result) && acks == old(acks) && heard == old(heard)
      ensures old(result).None? && now <= deadline ==>
                sent == old(sent) + [now] && Waiting() && Schedule() == Next(old(Schedule()), T2, now)
      ensures old(result).Some? || now > deadline ==> sent == old(sent) && timer.None?
    {
      timer := None;
      if result.Some? {
        return;
      }
      if now > deadline {
        return;
      }
      sent := sent + [now];
      interval := if interval * 2.0 < T2 then interval * 2.0 else T2;
      timer := Some(now + interval);
    }

    /** A provisional response stops the retransmissions and is passed on; the first final one completes the
        transaction. Every response to an INVITE that refuses it is acknowledged, repeated ones too. */
    method HandleResponse(status: nat, invite: bool)
      modifies this
      ensures sent == old(sent) && interval == old(interval)
      ensures status < 200 ==> timer.None? && result == old(result)
      ensures status >= 200 ==>
              timer == old(timer) && result == (if old(result).Some? then old(result) else Some(status))
      ensures acks == old(acks) + if invite && dialog && status >= 300 then [status] else []
      ensures heard == old(heard) + if listens && status < 200 then [status] else []
    {
      if status < 200 {
        timer := None;
        if listens {
          heard := heard + [status];
        }
        return;
      }
      if invite && dialog && status >= 300 {
        acks := acks + [status];
      }
      if result.None? {
        result := Some(status);
      }
    }
  }
}
