/** Flap suppression of registration alerts (sipgram/alerts.py:55-83). */
module FlapSuppression {
  import opened Options

  type Account = string

  /** A report to the administrator. */
  datatype Report = Report(down: bool, at: real)

  /** One account: since when its registration is lost, whether that was reported, when the pending `_report_down`
      wakes up, every report that was started, those still on their way in the order they were started, and those
      delivered. */
  datatype Watch = Watch(downSince: Option<real>, reported: bool, wakes: Option<real>, reports: seq<Report>,
                         sending: seq<Report>, delivered: seq<Report>)

  const QUIET := Watch(None, false, None, [], [], [])

  /** `Delivered` is the end of one `_send`: the j-th of those on their way. */
  datatype Event = Up | Down | Wakes | Delivered(j: nat) | Shutdown

  datatype Timed = Timed(event: Event, at: real)

  /** What is left on its way when the task of `_report_down` is cancelled: the up reports, which have tasks of their
      own. */
  function Ups(reports: seq<Report>): (ups: seq<Report>)
    ensures forall i :: 0 <= i < |ups| ==> !ups[i].down
  {
    if reports == [] then [] else (if reports[0].down then [] else [reports[0]]) + Ups(reports[1..])
  }

  function Started(w: Watch, r: Report): Watch {
    w.(reports := w.reports + [r], sending := w.sending + [r])
  }

  /** `registration` with ok. */
  function WentUp(w: Watch, now: real): Watch {
    var calm := w.(downSince := None, reported := false, wakes := None, sending := Ups(w.sending));
    if w.reported then Started(calm, Report(false, now)) else calm
  }

  /** `registration` without. */
  function WentDown(w: Watch, now: real, downAfter: real): Watch {
    if w.downSince.Some? then w else w.(downSince := Some(now), wakes := Some(now + downAfter))
  }

  /** The end of the wait in `_report_down`. */
  function Woke(w: Watch, now: real): Watch {
    if w.wakes.None? || now < w.wakes.value then w
    else if w.downSince.None? then w.(wakes := None)
    else Started(w.(wakes := None, reported := true), Report(true, now))
  }

  function Without(reports: seq<Report>, j: nat): seq<Report>
    requires j < |reports|
  {
    reports[..j] + reports[j + 1..]
  }

  function Arrived(w: Watch, j: nat): Watch {
    if j >= |w.sending| then w
    else w.(delivered := w.delivered + [w.sending[j]], sending := Without(w.sending, j))
  }

  function Step(w: Watch, e: Event, now: real, downAfter: real): Watch {
    match e
    case Up => WentUp(w, now)
    case Down => WentDown(w, now, downAfter)
    case Wakes => Woke(w, now)
    case Delivered(j) => Arrived(w, j)
    case Shutdown => w.(wakes := None, sending := Ups(w.sending))
  }

  function Run(events: seq<Timed>, downAfter: real): Watch
    decreases |events|
  {
    if events == [] then QUIET
    else
      var last := events[|events| - 1];
      Step(Run(events[..|events| - 1], downAfter), last.event, last.at, downAfter)
  }

  // ---- What the events say ----

  /** When the present loss began, by the events alone: the first loss since the last time the registration was up. */
  function LostSince(events: seq<Timed>): Option<real>
    decreases |events|
  {
    if events == [] then None
    else
      var before, last := LostSince(events[..|events| - 1]), events[|events| - 1];
      match last.event
      case Up => None
      case Down => if before.Some? then before else Some(last.at)
      case _ => before
  }

  /** Reports alternate: down, up, down, ... */
  predicate Alternating(reports: seq<Report>) {
    forall i :: 0 <= i < |reports| ==> reports[i].down == (i % 2 == 0)
  }

  predicate Consistent(w: Watch, lost: Option<real>, downAfter: real) {
    && w.downSince == lost
    && (w.wakes.Some? ==> lost.Some? && !w.reported && w.wakes.value == lost.value + downAfter)
    && (w.reported ==> lost.Some?)
    && Alternating(w.reports)
    && (w.reported <==> |w.reports| % 2 == 1)
  }

  lemma AlternatingSnoc(reports: seq<Report>, r: Report)
    requires Alternating(reports) && r.down == (|reports| % 2 == 0)
    ensures Alternating(reports + [r])
  {
  }

  lemma {:induction false} RunConsistent(events: seq<Timed>, downAfter: real)
    ensures Consistent(Run(events, downAfter), LostSince(events), downAfter)
    decreases |events|
  {
    if events != [] {
      var front, last := events[..|events| - 1], events[|events| - 1];
      RunConsistent(front, downAfter);
      var w := Run(front, downAfter);
      if w.reported && last.event == Up {
        AlternatingSnoc(w.reports, Report(false, last.at));
      } else if !w.reported && last.event == Wakes {
        AlternatingSnoc(w.reports, Report(true, last.at));
      }
    }
  }

  /** For every interleaving of losses, recoveries, wake-ups and deliveries: the reports that are started for an account
      alternate, beginning with down. */
  lemma ReportsAlternate(events: seq<Timed>, downAfter: real)
    ensures Alternating(Run(events, downAfter).reports)
  {
    RunConsistent(events, downAfter);
  }

  /** A down report goes out only after at least `downAfter` seconds of loss without a recovery in between, an up report
      only when the registration returns, and nothing else is ever reported. */
  lemma ReportsAreDue(events: seq<Timed>, e: Event, now: real, downAfter: real)
    ensures var w := Run(events, downAfter); var x := Run(events + [Timed(e, now)], downAfter);
            || x.reports == w.reports
            || (x.reports == w.reports + [Report(true, now)] && LostSince(events).Some?
                && now - LostSince(events).value >= downAfter)
            || (x.reports == w.reports + [Report(false, now)] && e == Up && w.reported && LostSince(events).Some?)
  {
    assert (events + [Timed(e, now)])[..|events|] == events;
    RunConsistent(events, downAfter);
    var w := Run(events, downAfter);
    assert w.reports + [] == w.reports;
  }

  /** A loss that lasts is reported: the wake-up that the first loss asked for reports it if nothing came between. */
  lemma LossIsReported(events: seq<Timed>, begin: real, now: real, downAfter: real)
    requires LostSince(events).None? && now - begin >= downAfter
    ensures var x := Run(events + [Timed(Down, begin), Timed(Wakes, now)], downAfter);
            x.reported && x.reports == Run(events, downAfter).reports + [Report(true, now)]
  {
    var all := events + [Timed(Down, begin), Timed(Wakes, now)];
    assert all[..|events| + 1] == events + [Timed(Down, begin)];
    assert (events + [Timed(Down, begin)])[..|events|] == events;
    RunConsistent(events, downAfter);
  }

  // ---- What is delivered ----

  /** Nothing on its way is cancelled, and reports arrive in the order they were started. */
  predicate Smooth(w: Watch, e: Event) {
    match e
    case Up => Ups(w.sending) == w.sending
    case Shutdown => Ups(w.sending) == w.sending
    case Delivered(j) => j == 0 || j >= |w.sending|
    case _ => true
  }

  function RunOn(w: Watch, events: seq<Timed>, downAfter: real): Watch
    decreases |events|
  {
    if events == [] then w else RunOn(Step(w, events[0].event, events[0].at, downAfter), events[1..], downAfter)
  }

  lemma {:induction false} RunStepwise(w: Watch, events: seq<Timed>, downAfter: real)
    requires events != []
    ensures var last := events[|events| - 1];
            RunOn(w, events, downAfter)
                == Step(RunOn(w, events[..|events| - 1], downAfter), last.event, last.at, downAfter)
    decreases |events|
  {
    hide Step;
    if |events| > 1 {
      RunStepwise(Step(w, events[0].event, events[0].at, downAfter), events[1..], downAfter);
      assert events[1..][..|events| - 2] == events[..|events| - 1][1..];
    }
  }

  /** Both ways of running through the events come to the same. */
  lemma {:induction false} RunIsRunOn(events: seq<Timed>, downAfter: real)
    ensures Run(events, downAfter) == RunOn(QUIET, events, downAfter)
    decreases |events|
  {
    hide Step;
    if events != [] {
      RunIsRunOn(events[..|events| - 1], downAfter);
      RunStepwise(QUIET, events, downAfter);
    }
  }

  predicate AllSmooth(w: Watch, events: seq<Timed>, downAfter: real)
    decreases |events|
  {
    events == []
    || (Smooth(w, events[0].event)
        && AllSmooth(Step(w, events[0].event, events[0].at, downAfter), events[1..], downAfter))
  }

  /** Up reports that are on their way come before the one down report that may be. */
  predicate DownLast(sending: seq<Report>) {
    forall i :: 0 <= i < |sending| - 1 ==> !sending[i].down
  }

  /** A watch whose reports have all arrived or will, in order. */
  predicate InOrder(w: Watch) {
    && w.reports == w.delivered + w.sending && DownLast(w.sending)
    && Alternating(w.reports) && (w.reported <==> |w.reports| % 2 == 1)
    && Timely(w)
  }

  lemma {:induction false} UpsOfUps(reports: seq<Report>)
    requires Ups(reports) == reports
    ensures forall i :: 0 <= i < |reports| ==> !reports[i].down
  {
    assert forall i :: 0 <= i < |Ups(reports)| ==> !Ups(reports)[i].down;
  }

  lemma SmoothInOrder(w: Watch, e: Event, now: real, downAfter: real)
    requires InOrder(w) && Smooth(w, e)
    ensures InOrder(Step(w, e, now, downAfter))
  {
    match e {
      case Up =>
        UpsOfUps(w.sending);
        if w.reported {
          StartInOrder(w, Report(false, now));
        }
      case Wakes =>
        if w.wakes.Some? && now >= w.wakes.value {
          WakesAfterUps(w);
          StartInOrder(w, Report(true, now));
        }
      case Delivered(j) =>
        if w.sending != [] && j == 0 {
          assert Without(w.sending, 0) == w.sending[1..];
          assert w.delivered + w.sending == (w.delivered + [w.sending[0]]) + w.sending[1..];
        }
      case _ =>
    }
  }

  /** When a down report is started, no other is on its way. */
  lemma WakesAfterUps(w: Watch)
    requires InOrder(w) && !w.reported
    ensures forall i :: 0 <= i < |w.sending| ==> !w.sending[i].down
  {
    if w.sending != [] {
      assert w.reports[|w.reports| - 1] == w.sending[|w.sending| - 1];
    }
  }

  lemma StartInOrder(w: Watch, r: Report)
    requires w.reports == w.delivered + w.sending && Alternating(w.reports) && r.down == (|w.reports| % 2 == 0)
    requires forall i :: 0 <= i < |w.sending| ==> !w.sending[i].down
    ensures var x := Started(w, r);
            x.reports == x.delivered + x.sending && DownLast(x.sending) && Alternating(x.reports)
  {
    AlternatingSnoc(w.reports, r);
    assert (w.delivered + w.sending) + [r] == w.delivered + (w.sending + [r]);
  }

  lemma {:induction false} SmoothRun(w: Watch, events: seq<Timed>, downAfter: real)
    requires InOrder(w) && AllSmooth(w, events, downAfter)
    ensures InOrder(RunOn(w, events, downAfter))
    decreases |events|
  {
    hide Step, Smooth, InOrder;
    if events != [] {
      SmoothInOrder(w, events[0].event, events[0].at, downAfter);
      SmoothRun(Step(w, events[0].event, events[0].at, downAfter), events[1..], downAfter);
    }
  }

  lemma InOrderAlternates(w: Watch)
    requires InOrder(w)
    ensures Alternating(w.delivered)
  {
    assert forall i :: 0 <= i < |w.delivered| ==> w.delivered[i] == w.reports[i];
  }

  // ---- What cannot be made good ----

  /** Down reports less up reports. */
  function Net(reports: seq<Report>): int
    decreases |reports|
  {
    if reports == [] then 0 else Net(reports[..|reports| - 1]) + if reports[|reports| - 1].down then 1 else -1
  }

  lemma {:induction false} NetConcat(a: seq<Report>, b: seq<Report>)
    ensures Net(a + b) == Net(a) + Net(b)
    decreases |b|
  {
    if b == [] {
      assert a + b == a;
    } else {
      assert (a + b)[..|a + b| - 1] == a + b[..|b| - 1];
      NetConcat(a, b[..|b| - 1]);
    }
  }

  lemma NetOne(r: Report)
    ensures Net([r]) == if r.down then 1 else -1
  {
    assert [r][..0] == [];
  }

  lemma {:induction false} NetAlternating(reports: seq<Report>)
    requires Alternating(reports)
    ensures Net(reports) == |reports| % 2
    decreases |reports|
  {
    if reports != [] {
      NetAlternating(reports[..|reports| - 1]);
    }
  }

  lemma {:induction false} UpsNet(reports: seq<Report>)
    ensures Net(Ups(reports)) <= Net(reports) && (Ups(reports) != reports ==> Net(Ups(reports)) < Net(reports))
    decreases |reports|
  {
    if reports != [] {
      var first, rest := reports[0], reports[1..];
      UpsNet(rest);
      NetOne(first);
      NetConcat([first], rest);
      assert [first] + rest == reports;
      if !first.down {
        NetConcat([first], Ups(rest));
      } else {
        assert Ups(reports) == Ups(rest);
      }
    }
  }

  /** How many more downs than ups have been or will be delivered, against how many there should be. */
  function Balance(w: Watch): int {
    Net(w.delivered) + Net(w.sending) - if w.reported then 1 else 0
  }

  /** A loss that is waiting to be reported has not been, and what was reported is still lost. */
  predicate Timely(w: Watch) {
    (w.wakes.Some? ==> w.downSince.Some? && !w.reported) && (w.reported ==> w.downSince.Some?)
  }

  lemma StartedBalance(w: Watch, r: Report)
    ensures Net(Started(w, r).sending) == Net(w.sending) + if r.down then 1 else -1
  {
    NetOne(r);
    NetConcat(w.sending, [r]);
  }

  lemma ArrivedBalance(w: Watch, j: nat)
    requires j < |w.sending|
    ensures Balance(Arrived(w, j)) == Balance(w)
  {
    var r := w.sending[j];
    NetOne(r);
    NetConcat(w.delivered, [r]);
    NetConcat(w.sending[..j], w.sending[j + 1..]);
    NetConcat(w.sending[..j], [r]);
    NetConcat(w.sending[..j] + [r], w.sending[j + 1..]);
    assert w.sending == (w.sending[..j] + [r]) + w.sending[j + 1..];
  }

  /** The balance never gets better, and a report cancelled on its way makes it worse. */
  lemma BalanceFalls(w: Watch, e: Event, now: real, downAfter: real)
    requires Timely(w)
    ensures var x := Step(w, e, now, downAfter);
            && Timely(x) && Balance(x) <= Balance(w) && w.delivered <= x.delivered
            && ((e == Up || e == Shutdown) && !Smooth(w, e) ==> Balance(x) < Balance(w))
  {
    hide Net;
    UpsNet(w.sending);
    match e {
      case Up => StartedBalance(w.(downSince := None, reported := false, wakes := None, sending := Ups(w.sending)),
                                Report(false, now));
      case Wakes => StartedBalance(w.(wakes := None, reported := true), Report(true, now));
      case Delivered(j) =>
        if j < |w.sending| {
          ArrivedBalance(w, j);
        }
      case _ =>
    }
  }

  /** A watch that cannot come right: something was lost, or the wrong report has been delivered. */
  predicate Spoilt(w: Watch) {
    Timely(w) && (Balance(w) < 0 || !Alternating(w.delivered))
  }

  lemma PrefixAlternates(a: seq<Report>, b: seq<Report>)
    requires a <= b && Alternating(b)
    ensures Alternating(a)
  {
  }

  lemma {:induction false} SpoiltStays(w: Watch, events: seq<Timed>, downAfter: real)
    requires Spoilt(w)
    ensures Spoilt(RunOn(w, events, downAfter))
    decreases |events|
  {
    hide Step, Balance, Alternating;
    if events != [] {
      var x := Step(w, events[0].event, events[0].at, downAfter);
      BalanceFalls(w, events[0].event, events[0].at, downAfter);
      if Alternating(x.delivered) {
        PrefixAlternates(w.delivered, x.delivered);
      }
      SpoiltStays(x, events[1..], downAfter);
    }
  }

  /** Reports arriving out of order are wrong at once. */
  lemma OutOfOrder(w: Watch, j: nat)
    requires InOrder(w) && 0 < j < |w.sending|
    ensures !Alternating(Arrived(w, j).delivered)
  {
    var n := |w.delivered|;
    assert w.reports[n + j] == w.sending[j] && w.reports[n + j - 1] == w.sending[j - 1];
    assert w.reports[n] == w.sending[0] && w.reports[n + 1] == w.sending[1];
    assert w.sending[0].down != w.sending[1].down && !w.sending[0].down;
    assert Arrived(w, j).delivered[n] == w.sending[1];
  }

  lemma RoughSpoils(w: Watch, e: Event, now: real, downAfter: real)
    requires InOrder(w) && !Smooth(w, e)
    ensures Spoilt(Step(w, e, now, downAfter))
  {
    hide Net, Balance;
    BalanceFalls(w, e, now, downAfter);
    if e.Delivered? {
      OutOfOrder(w, e.j);
    } else {
      BalanceInOrder(w);
    }
  }

  lemma BalanceInOrder(w: Watch)
    requires InOrder(w)
    ensures Balance(w) == 0
  {
    NetAlternating(w.reports);
    NetConcat(w.delivered, w.sending);
  }

  lemma {:induction false} RoughRun(w: Watch, events: seq<Timed>, downAfter: real)
    requires InOrder(w) && !AllSmooth(w, events, downAfter)
    ensures Spoilt(RunOn(w, events, downAfter))
    decreases |events|
  {
    hide Step, Smooth, InOrder, Spoilt;
    var e, now := events[0].event, events[0].at;
    if Smooth(w, e) {
      SmoothInOrder(w, e, now, downAfter);
      RoughRun(Step(w, e, now, downAfter), events[1..], downAfter);
    } else {
      RoughSpoils(w, e, now, downAfter);
      SpoiltStays(Step(w, e, now, downAfter), events[1..], downAfter);
    }
  }

  // ---- Letting everything arrive ----

  function Deliveries(n: nat): (more: seq<Timed>)
    ensures |more| == n
  {
    if n == 0 then [] else [Timed(Delivered(0), 0.0)] + Deliveries(n - 1)
  }

  lemma {:induction false} AllArrive(w: Watch, downAfter: real)
    ensures AllSmooth(w, Deliveries(|w.sending|), downAfter)
    ensures RunOn(w, Deliveries(|w.sending|), downAfter) == w.(delivered := w.delivered + w.sending, sending := [])
    decreases |w.sending|
  {
    var more := Deliveries(|w.sending|);
    if w.sending == [] {
      assert w.delivered + [] == w.delivered;
    } else {
      assert more[1..] == Deliveries(|w.sending| - 1);
      assert Without(w.sending, 0) == w.sending[1..];
      assert (w.delivered + [w.sending[0]]) + w.sending[1..] == w.delivered + w.sending;
      AllArrive(Arrived(w, 0), downAfter);
    }
  }

  lemma {:induction false} SmoothAppend(w: Watch, events: seq<Timed>, more: seq<Timed>, downAfter: real)
    ensures RunOn(w, events + more, downAfter) == RunOn(RunOn(w, events, downAfter), more, downAfter)
    ensures AllSmooth(w, events + more, downAfter)
            <==> AllSmooth(w, events, downAfter) && AllSmooth(RunOn(w, events, downAfter), more, downAfter)
    decreases |events|
  {
    hide Step, Smooth;
    if events == [] {
      assert events + more == more;
    } else {
      assert (events + more)[0] == events[0] && (events + more)[1..] == events[1..] + more;
      SmoothAppend(Step(w, events[0].event, events[0].at, downAfter), events[1..], more, downAfter);
    }
  }

  /** From a spoilt watch, everything arriving and, if need be, the registration returning shows it. */
  lemma SpoiltShows(w: Watch, downAfter: real) returns (more: seq<Timed>)
    requires Spoilt(w)
    ensures AllSmooth(w, more, downAfter) && !Alternating(RunOn(w, more, downAfter).delivered)
  {
    hide Net, Alternating;
    var n := |w.sending|;
    AllArrive(w, downAfter);
    var x := w.(delivered := w.delivered + w.sending, sending := []);
    NetConcat(w.delivered, w.sending);
    assert w.delivered <= x.delivered;
    more := Deliveries(n);
    if Alternating(x.delivered) {
      PrefixAlternates(w.delivered, x.delivered);
      NetAlternating(x.delivered);
      ReturnShows(x, downAfter);
      SmoothAppend(w, more, Return(), downAfter);
      more := more + Return();
    }
  }

  function Return(): seq<Timed> {
    [Timed(Up, 0.0), Timed(Delivered(0), 0.0)]
  }

  lemma ReturnShows(w: Watch, downAfter: real)
    requires w.sending == [] && w.reported && Net(w.delivered) < 1
    ensures AllSmooth(w, Return(), downAfter) && !Alternating(RunOn(w, Return(), downAfter).delivered)
  {
    hide Net;
    var up := Report(false, 0.0);
    var a := Step(w, Up, 0.0, downAfter);
    assert a.sending == [up];
    var b := Step(a, Delivered(0), 0.0, downAfter);
    assert b.delivered == w.delivered + [up];
    assert Return()[1..] == [Timed(Delivered(0), 0.0)] && Return()[1..][1..] == [];
    assert RunOn(a, Return()[1..], downAfter) == b;
    NetOne(up);
    NetConcat(w.delivered, [up]);
    if Alternating(b.delivered) {
      NetAlternating(b.delivered);
    }
  }

  /** What the administrator gets alternates, down, up, down, ..., however the run goes on smoothly, if and only if no
      recovery and no shutdown fell between a wake-up and the delivery of its report, and no report overtook another. */
  lemma DeliveredIffSmooth(events: seq<Timed>, downAfter: real)
    ensures (forall more :: AllSmooth(Run(events, downAfter), more, downAfter) ==>
                Alternating(RunOn(Run(events, downAfter), more, downAfter).delivered))
            <==> AllSmooth(QUIET, events, downAfter)
  {
    hide AllSmooth, Run, RunOn, Alternating, Spoilt;
    var w := RunOn(QUIET, events, downAfter);
    RunIsRunOn(events, downAfter);
    QuietInOrder();
    if AllSmooth(QUIET, events, downAfter) {
      SmoothRun(QUIET, events, downAfter);
      forall more | AllSmooth(w, more, downAfter) ensures Alternating(RunOn(w, more, downAfter).delivered) {
        SmoothRun(w, more, downAfter);
        InOrderAlternates(RunOn(w, more, downAfter));
      }
    } else {
      RoughRun(QUIET, events, downAfter);
      var more := SpoiltShows(w, downAfter);
    }
  }

  lemma QuietInOrder()
    ensures InOrder(QUIET)
  {
  }

  /** Lost at 0, reported when the wait is over, back before the report is delivered: the administrator is told that the
      registration is back, and of nothing else. */
  lemma UpWithoutDown(downAfter: real, back: real)
    requires 0.0 <= downAfter <= back
    ensures var w := RunOn(QUIET,
            [Timed(Down, 0.0), Timed(Wakes, downAfter), Timed(Up, back), Timed(Delivered(0), back)], downAfter);
            w.delivered == [Report(false, back)] && w.reports == [Report(true, downAfter), Report(false, back)]
  {
    var a := Step(QUIET, Down, 0.0, downAfter);
    var b := Step(a, Wakes, downAfter, downAfter);
    assert b.sending == [Report(true, downAfter)] && b.sending[1..] == [];
    assert Ups(b.sending) == Ups([]);
    var c := Step(b, Up, back, downAfter);
    assert c.sending == [Report(false, back)];
    var d := Step(c, Delivered(0), back, downAfter);
    var events := [Timed(Down, 0.0), Timed(Wakes, downAfter), Timed(Up, back), Timed(Delivered(0), back)];
    assert events[1..] == [Timed(Wakes, downAfter), Timed(Up, back), Timed(Delivered(0), back)];
    assert events[1..][1..] == [Timed(Up, back), Timed(Delivered(0), back)];
    assert events[1..][1..][1..] == [Timed(Delivered(0), back)] && events[1..][1..][1..][1..] == [];
    assert RunOn(c, [Timed(Delivered(0), back)], downAfter) == d;
    assert RunOn(b, events[1..][1..], downAfter) == d;
    assert RunOn(a, events[1..], downAfter) == d;
  }

  // ---- The object ----

  class Alerts {
    const enabled: bool
    const downAfter: real
    var downSince: map<Account, real>
    var reported: set<Account>
    /** The tasks in `_timers`, by the time they wake up; None for one whose wait is over. */
    var timers: map<Account, Option<real>>
    /** The reports started so far, those on their way, and those the administrator has got. */
    var sent: map<Account, seq<Report>>
    var sending: map<Account, seq<Report>>
    var delivered: map<Account, seq<Report>>

    static function Of(reports: map<Account, seq<Report>>, account: Account): seq<Report> {
      if account in reports then reports[account] else []
    }

    function WatchOf(account: Account): Watch
      reads this
    {
      Watch(if account in downSince then Some(downSince[account]) else None, account in reported,
            if account in timers then timers[account] else None, Of(sent, account), Of(sending, account),
                Of(delivered, account))
    }

    constructor (enabled: bool, downAfter: real)
      ensures this.enabled == enabled && this.downAfter == downAfter && forall account :: WatchOf(account) == QUIET
    {
      this.enabled, this.downAfter := enabled, downAfter;
      downSince, reported, timers := map[], {}, map[];
      sent, sending, delivered := map[], map[], map[];
    }

    /** The start of `_send`. */
    method Send(account: Account, r: Report)
      modifies `sent, `sending
      ensures sent == old(sent)[account := Of(old(sent), account) + [r]]
      ensures sending == old(sending)[account := Of(old(sending), account) + [r]]
    {
      sent := sent[account := Of(sent, account) + [r]];
      sending := sending[account := Of(sending, account) + [r]];
    }

    /** The end of `_send`. */
    method Deliver(account: Account, j: nat)
      modifies `sending, `delivered
      ensures WatchOf(account) == Step(old(WatchOf(account)), Delivered(j), 0.0, downAfter)
      ensures forall other :: other != account ==> WatchOf(other) == old(WatchOf(other))
    {
      var waiting := Of(sending, account);
      if j < |waiting| {
        delivered := delivered[account := Of(delivered, account) + [waiting[j]]];
        sending := sending[account := Without(waiting, j)];
      }
    }

    /** `registration` */
    method Registration(account: Account, ok: bool, now: real)
      modifies this
      ensures enabled ==>
                WatchOf(account) == Step(old(WatchOf(account)), if ok then Up else Down, now, downAfter)
      ensures forall other :: other != account || !enabled ==> WatchOf(other) == old(WatchOf(other))
    {
      if !enabled {
        return;
      }
      if ok {
        downSince := downSince - {account};
        timers := timers - {account};
        sending := sending[account := Ups(Of(sending, account))];
        if account in reported {
          reported := reported - {account};
          Send(account, Report(false, now));
        }
        return;
      }
      if account in downSince {
        return;
      }
      downSince := downSince[account := now];
      timers := timers[account := Some(now + downAfter)];
    }

    /** `_report_down` once its wait is over */
    method ReportDown(account: Account, now: real)
      requires account in timers && timers[account].Some? && now >= timers[account].value
      modifies this
      ensures WatchOf(account) == Step(old(WatchOf(account)), Wakes, now, downAfter)
      ensures forall other :: other != account ==> WatchOf(other) == old(WatchOf(other))
    {
      timers := timers[account := None];
      if account !in downSince {
        return;
      }
      reported := reported + {account};
      Send(account, Report(true, now));
    }

    /** `cancel` */
    method Cancel()
      modifies `timers, `sending
      ensures forall account :: WatchOf(account) == Step(old(WatchOf(account)), Shutdown, 0.0, downAfter)
    {
      timers := map[];
      sending := map account | account in sending :: Ups(sending[account]);
    }
  }
}
