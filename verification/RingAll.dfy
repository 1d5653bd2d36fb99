/** `_ring_users` (sipgram/manager.py): one SIP call rings several Telegram users, the first to answer wins. */
module RingAll {
  import opened Options
  import opened Sequences

  type UserId = nat

  /** How a user's Telegram call would come out: answered, or failed with the SIP code that stands for the reason. */
  datatype Outcome = Answers(tg: nat) | Fails(code: nat)

  /** What one `asyncio.wait` returns: the calls that came out, in the order they are looked at, and whether the SIP
      caller has gone. */
  datatype Round = Round(done: seq<UserId>, ended: bool)

  /** `Blocked`: the user answered, but the handler waits for ever for the user's lock, and the SIP call gets no
      answer. */
  datatype Verdict =
    | Connected(user: UserId, tg: nat)
    | Blocked(user: UserId, tg: nat)
    | TooLate(user: UserId, tg: nat)
    | Rejected(code: nat)
    | Missed

  // ---- The schedule ----

  /** The users heard from, in order, up to the round in which the caller went. */
  function Heard(rounds: seq<Round>): seq<UserId> {
    if rounds == [] || rounds[0].ended then [] else rounds[0].done + Heard(rounds[1..])
  }

  predicate CallerGone(rounds: seq<Round>) {
    exists k :: 0 <= k < |rounds| && rounds[k].ended
  }

  predicate Unrepeated(s: seq<UserId>) {
    forall i, j :: 0 <= i < j < |s| ==> s[i] != s[j]
  }

  /** Every call comes out at most once, every wait returns something, and the waits go on until all have come out or
      the caller goes. */
  predicate Schedule(users: seq<UserId>, rounds: seq<Round>) {
    && (forall k :: 0 <= k < |rounds| ==> rounds[k].ended || rounds[k].done != [])
    && Unrepeated(Heard(rounds))
    && (forall u :: u in Heard(rounds) ==> u in users)
    && (CallerGone(rounds) || forall u :: u in users ==> u in Heard(rounds))
  }

  /** The first user of the list to answer. */
  function FirstAnswer(heard: seq<UserId>, outcome: map<UserId, Outcome>): (winner: Option<UserId>)
    requires forall u :: u in heard ==> u in outcome
    ensures winner.Some? ==> winner.value in heard && outcome[winner.value].Answers?
    ensures winner.None? ==> forall u :: u in heard ==> outcome[u].Fails?
  {
    if heard == [] then None
    else if outcome[heard[0]].Answers? then Some(heard[0])
    else FirstAnswer(heard[1..], outcome)
  }

  /** Where the first answer is: everyone heard before has failed. */
  lemma {:induction false} FirstAnswerIsFirst(heard: seq<UserId>, outcome: map<UserId, Outcome>, n: nat)
    requires forall u :: u in heard ==> u in outcome
    requires n <= |heard| && forall i :: 0 <= i < n ==> outcome[heard[i]].Fails?
    ensures n < |heard| && outcome[heard[n]].Answers? ==> FirstAnswer(heard, outcome) == Some(heard[n])
    ensures n == |heard| ==> FirstAnswer(heard, outcome) == None
    decreases n
  {
    if n > 0 {
      FirstAnswerIsFirst(heard[1..], outcome, n - 1);
    }
  }

  function Codes(heard: seq<UserId>, outcome: map<UserId, Outcome>): (codes: seq<nat>)
    requires forall u :: u in heard ==> u in outcome && outcome[u].Fails?
    ensures |codes| == |heard| && forall i :: 0 <= i < |codes| ==> codes[i] == outcome[heard[i]].code
  {
    seq(|heard|, i requires 0 <= i < |heard| => outcome[heard[i]].code)
  }

  predicate AllAre(codes: seq<nat>, code: nat) {
    codes != [] && forall i :: 0 <= i < |codes| ==> codes[i] == code
  }

  function RejectCode(codes: seq<nat>): nat {
    if AllAre(codes, 486) then 486 else if AllAre(codes, 603) then 603 else 480
  }

  /** What the arbitration comes to; `locked` are the users whose lock is lost. */
  function Judge(users: seq<UserId>, outcome: map<UserId, Outcome>, rounds: seq<Round>, alive: bool,
                 locked: set<UserId>): Verdict
    requires forall u :: u in users ==> u in outcome
    requires Schedule(users, rounds)
  {
    var winner := FirstAnswer(Heard(rounds), outcome);
    if winner.Some? then
      if !alive then TooLate(winner.value, outcome[winner.value].tg)
      else if winner.value in locked then Blocked(winner.value, outcome[winner.value].tg)
      else Connected(winner.value, outcome[winner.value].tg)
    else if alive then Rejected(RejectCode(Codes(Heard(rounds), outcome)))
    else Missed
  }

  // ---- The loop ----

  function One(u: Option<UserId>): set<UserId> {
    if u.Some? then {u.value} else {}
  }

  /** The tasks that are left, the failures so far and the winner, given who was heard. */
  ghost predicate Popped(users: seq<UserId>, outcome: map<UserId, Outcome>, heard: seq<UserId>, tasks: set<UserId>,
                         codes: seq<nat>, winner: Option<UserId>)
  {
    && (forall u :: u in heard ==> u in users && u in outcome)
    && (forall u :: u in tasks <==> u in users && u !in heard)
    && var failed := if winner.Some? then |heard| - 1 else |heard|;
       && 0 <= failed && |codes| == failed
       && (forall i :: 0 <= i < failed ==> outcome[heard[i]].Fails? && codes[i] == outcome[heard[i]].code)
       && (winner.Some? ==> heard[failed] == winner.value && outcome[winner.value].Answers?)
  }

  lemma PopNext(users: seq<UserId>, outcome: map<UserId, Outcome>, heard: seq<UserId>, tasks: set<UserId>,
                codes: seq<nat>, u: UserId)
    requires Popped(users, outcome, heard, tasks, codes, None) && u in users && u in outcome && u !in heard
    ensures u in tasks
    ensures outcome[u].Answers? ==> Popped(users, outcome, heard + [u], tasks - {u}, codes, Some(u))
    ensures outcome[u].Fails? ==> Popped(users, outcome, heard + [u], tasks - {u}, codes + [outcome[u].code], None)
  {
    var later := heard + [u];
    forall v ensures v in later <==> v in heard || v == u {
    }
  }

  /** The `for task in list(done)` loop. */
  method HearRound(ghost users: seq<UserId>, outcome: map<UserId, Outcome>, done: seq<UserId>,
                   ghost before: seq<UserId>, tasks: set<UserId>, codes: seq<nat>)
    returns (left: set<UserId>, pending: set<UserId>, failures: seq<nat>, winner: Option<UserId>,
             ghost heard: seq<UserId>)
    requires Popped(users, outcome, before, tasks, codes, None) && Unrepeated(before + done)
    requires forall u :: u in done ==> u in users && u in outcome
    ensures Popped(users, outcome, heard, left, failures, winner) && pending == left + One(winner)
    ensures before <= heard <= before + done && (winner.None? ==> heard == before + done)
  {
    hide Popped;
    left, pending, failures, winner := tasks, tasks, codes, None;
    heard := before;
    for i := 0 to |done|
      invariant winner.None? && heard == before + done[..i]
      invariant Popped(users, outcome, heard, left, failures, winner) && pending == left
    {
      var u := done[i];
      NotHeardYet(before, done, i);
      PopNext(users, outcome, heard, left, failures, u);
      Extends(before, done, i);
      left := left - {u};
      heard := heard + [u];
      match outcome[u] {
        case Answers(_) =>
          winner := Some(u);
          return;
        case Fails(code) =>
          failures := failures + [code];
          pending := pending - {u};
      }
    }
    assert done[..|done|] == done;
  }

  lemma NotHeardYet(before: seq<UserId>, done: seq<UserId>, i: nat)
    requires i < |done| && Unrepeated(before + done)
    ensures done[i] !in before + done[..i]
  {
    var all := before + done;
    forall u | u in before + done[..i] ensures u != done[i] {
      var j :| 0 <= j < |before + done[..i]| && (before + done[..i])[j] == u;
      assert all[j] == u && all[|before| + i] == done[i];
    }
  }

  lemma Extends(before: seq<UserId>, done: seq<UserId>, i: nat)
    requires i < |done|
    ensures (before + done[..i]) + [done[i]] == before + done[..i + 1] <= before + done
  {
    assert before + done == (before + done[..i + 1]) + done[i + 1..];
  }

  /** How far the loop has come: who was heard, and whom the rounds to come still bring. */
  ghost predicate Underway(rounds: seq<Round>, k: nat, heard: seq<UserId>) {
    k <= |rounds| && (forall j :: 0 <= j < k ==> !rounds[j].ended) && Heard(rounds) == heard + Heard(rounds[k..])
  }

  /** As long as a telephone rings, something will come. */
  lemma RoundsRunOut(users: seq<UserId>, outcome: map<UserId, Outcome>, rounds: seq<Round>, heard: seq<UserId>,
                     tasks: set<UserId>, codes: seq<nat>)
    requires Schedule(users, rounds) && Underway(rounds, |rounds|, heard)
    requires Popped(users, outcome, heard, tasks, codes, None)
    ensures tasks == {}
  {
    assert rounds[|rounds|..] == [];
    assert heard + [] == heard;
  }

  lemma NextRound(users: seq<UserId>, outcome: map<UserId, Outcome>, rounds: seq<Round>, k: nat, heard: seq<UserId>)
    requires Schedule(users, rounds) && k < |rounds| && Underway(rounds, k, heard)
    requires forall u :: u in users ==> u in outcome
    ensures rounds[k].ended ==> Heard(rounds) == heard
    ensures !rounds[k].ended ==>
              && Underway(rounds, k + 1, heard + rounds[k].done) && Unrepeated(heard + rounds[k].done)
              && heard + rounds[k].done <= Heard(rounds)
              && forall u :: u in rounds[k].done ==> u in users && u in outcome
  {
    assert rounds[k..][1..] == rounds[k + 1..];
    if rounds[k].ended {
      assert heard + [] == heard;
    } else {
      Regroup(heard, rounds[k].done, Heard(rounds[k + 1..]));
      Part(heard, rounds[k].done, Heard(rounds[k + 1..]), Heard(rounds));
    }
  }

  lemma Part(a: seq<UserId>, b: seq<UserId>, c: seq<UserId>, all: seq<UserId>)
    requires all == (a + b) + c && Unrepeated(all)
    ensures Unrepeated(a + b) && a + b <= all && forall u :: u in b ==> u in all
  {
    forall i, j | 0 <= i < j < |a + b| ensures (a + b)[i] != (a + b)[j] {
      assert all[i] == (a + b)[i] && all[j] == (a + b)[j];
    }
  }

  lemma Apart(heard: seq<UserId>, rest: seq<UserId>, u: UserId)
    requires Unrepeated(heard + rest) && u in rest
    ensures u !in heard
  {
    var all := heard + rest;
    var j :| 0 <= j < |rest| && rest[j] == u;
    forall v | v in heard ensures v != u {
      var i :| 0 <= i < |heard| && heard[i] == v;
      assert all[i] == v && all[|heard| + j] == u;
    }
  }

  /** When every telephone has been heard from, nothing is left to come. */
  lemma NothingLeft(users: seq<UserId>, heard: seq<UserId>, rest: seq<UserId>)
    requires Unrepeated(heard + rest) && (forall u :: u in rest ==> u in users)
    requires (forall u :: u in users ==> u in heard)
    ensures rest == []
  {
    if rest != [] {
      Apart(heard, rest, rest[0]);
    }
  }

  /** When the loop is over, the winner is the first to answer, or everyone heard has failed. */
  lemma Settled(users: seq<UserId>, outcome: map<UserId, Outcome>, rounds: seq<Round>, heard: seq<UserId>,
                tasks: set<UserId>, codes: seq<nat>, winner: Option<UserId>)
    requires Schedule(users, rounds) && heard <= Heard(rounds) && forall u :: u in users ==> u in outcome
    requires Popped(users, outcome, heard, tasks, codes, winner)
    requires winner.None? ==> tasks == {} || heard == Heard(rounds)
    ensures FirstAnswer(Heard(rounds), outcome) == winner
    ensures winner.None? ==> codes == Codes(Heard(rounds), outcome)
  {
    var all := Heard(rounds);
    assert forall i :: 0 <= i < |heard| ==> heard[i] == all[i];
    if winner.Some? {
      FirstAnswerIsFirst(all, outcome, |heard| - 1);
    } else {
      if tasks == {} {
        var rest := all[|heard|..];
        assert all == heard + rest;
        assert forall u :: u in users ==> u !in tasks;
        NothingLeft(users, heard, rest);
      }
      assert heard == all;
      FirstAnswerIsFirst(all, outcome, |all|);
    }
  }

  /** The loop over the telephones, and what follows it. `pending` are the users whose flag is set, `cancelled` those
      whose call was cancelled. */
  method RingUsers(users: seq<UserId>, outcome: map<UserId, Outcome>, rounds: seq<Round>, alive: bool,
                   locked: set<UserId>)
    returns (verdict: Verdict, pending: set<UserId>, cancelled: set<UserId>)
    requires forall u :: u in users ==> u in outcome
    requires Schedule(users, rounds)
    ensures verdict == Judge(users, outcome, rounds, alive, locked)
    ensures pending == {}
    ensures forall u :: u in cancelled ==> u in users && FirstAnswer(Heard(rounds), outcome) != Some(u)
    ensures forall u :: u in users && u !in cancelled ==>
              FirstAnswer(Heard(rounds), outcome) == Some(u) || (u in Heard(rounds) && outcome[u].Fails?)
  {
    hide Schedule, Unrepeated, FirstAnswer, Codes, Underway, Heard;
    var tasks := set u | u in users;
    var winner: Option<UserId> := None;
    var codes: seq<nat> := [];
    ghost var heard: seq<UserId> := [];
    pending := tasks;
    var k := 0;
    HeardUsers(users, outcome, rounds);
    StartUnderway(rounds);
    while tasks != {} && winner.None?
      invariant 0 <= k <= |rounds| && heard <= Heard(rounds)
      invariant winner.None? ==> Underway(rounds, k, heard)
      invariant Popped(users, outcome, heard, tasks, codes, winner) && pending == tasks + One(winner)
      decreases |rounds| - k
    {
      if k == |rounds| {
        RoundsRunOut(users, outcome, rounds, heard, tasks, codes);
      }
      NextRound(users, outcome, rounds, k, heard);
      if rounds[k].ended {
        break;
      }
      ghost var later := heard + rounds[k].done;
      tasks, pending, codes, winner, heard := HearRound(users, outcome, rounds[k].done, heard, tasks, codes);
      Shorter(heard, later, Heard(rounds));
      k := k + 1;
    }
    Settled(users, outcome, rounds, heard, tasks, codes, winner);
    cancelled := tasks;
    pending := pending - tasks;
    Remaining(users, outcome, rounds, heard, tasks, codes, winner);
    if winner.None? {
      verdict := if alive then Rejected(RejectCode(codes)) else Missed;
      return;
    }
    var tg := outcome[winner.value].tg;
    pending := pending - {winner.value};
    if !alive {
      verdict := TooLate(winner.value, tg);
    } else {
      verdict := if winner.value in locked then Blocked(winner.value, tg) else Connected(winner.value, tg);
    }
  }

  lemma StartUnderway(rounds: seq<Round>)
    ensures Underway(rounds, 0, [])
  {
    assert rounds[0..] == rounds && [] + Heard(rounds) == Heard(rounds);
  }

  lemma Shorter(a: seq<UserId>, b: seq<UserId>, c: seq<UserId>)
    requires a <= b <= c
    ensures a <= c
  {
  }

  lemma HeardUsers(users: seq<UserId>, outcome: map<UserId, Outcome>, rounds: seq<Round>)
    requires Schedule(users, rounds) && forall u :: u in users ==> u in outcome
    ensures forall u :: u in Heard(rounds) ==> u in outcome
  {
  }

  lemma Remaining(users: seq<UserId>, outcome: map<UserId, Outcome>, rounds: seq<Round>, heard: seq<UserId>,
                  tasks: set<UserId>, codes: seq<nat>, winner: Option<UserId>)
    requires Popped(users, outcome, heard, tasks, codes, winner) && heard <= Heard(rounds)
    ensures forall u :: u in tasks ==> u in users && winner != Some(u)
    ensures forall u :: u in users && u !in tasks ==>
            winner == Some(u) || (u in Heard(rounds) && u in outcome && outcome[u].Fails?)
  {
    var all := Heard(rounds);
    forall u | u in users && u !in tasks ensures winner == Some(u) || (u in all && u in outcome && outcome[u].Fails?) {
      var i :| 0 <= i < |heard| && heard[i] == u;
      assert all[i] == u;
    }
  }

  // ---- What the verdict says ----

  /** The SIP call is answered exactly when it is still there and the first user to answer has a free lock, and then for
      that user; if that user's lock is lost, the call is left neither answered nor rejected. */
  lemma AnsweredIffFirst(users: seq<UserId>, outcome: map<UserId, Outcome>, rounds: seq<Round>, alive: bool,
                         locked: set<UserId>)
    requires Schedule(users, rounds) && forall u :: u in users ==> u in outcome
    ensures Judge(users, outcome, rounds, alive, locked).Connected?
            <==> alive && exists i: nat :: FirstAt(Heard(rounds), outcome, i) && Heard(rounds)[i] !in locked
    ensures Judge(users, outcome, rounds, alive, locked).Blocked?
            <==> alive && exists i: nat :: FirstAt(Heard(rounds), outcome, i) && Heard(rounds)[i] in locked
    ensures Judge(users, outcome, rounds, alive, locked).TooLate?
            <==> !alive && exists i: nat :: FirstAt(Heard(rounds), outcome, i)
    ensures Judge(users, outcome, rounds, alive, locked).Missed?
            <==> !alive && !exists i: nat :: FirstAt(Heard(rounds), outcome, i)
    ensures var verdict := Judge(users, outcome, rounds, alive, locked);
            (verdict.Connected? || verdict.Blocked? || verdict.TooLate? ==>
              verdict.user in outcome && outcome[verdict.user] == Answers(verdict.tg))
    ensures var verdict := Judge(users, outcome, rounds, alive, locked);
            verdict.Connected? || verdict.Blocked? || verdict.TooLate? ==>
              exists i: nat :: FirstAt(Heard(rounds), outcome, i) && verdict.user == Heard(rounds)[i]
  {
    hide Schedule;
    HeardUsers(users, outcome, rounds);
    var heard := Heard(rounds);
    var winner := FirstAnswer(heard, outcome);
    if winner.Some? {
      FirstFound(heard, outcome);
    }
    forall i: nat | FirstAt(heard, outcome, i) ensures winner == Some(heard[i]) {
      FirstAnswerIsFirst(heard, outcome, i);
    }
  }

  /** The i-th user heard from answers and everyone before has failed. */
  predicate FirstAt(heard: seq<UserId>, outcome: map<UserId, Outcome>, i: nat) {
    && i < |heard| && heard[i] in outcome && outcome[heard[i]].Answers?
    && forall j :: 0 <= j < i ==> heard[j] in outcome && outcome[heard[j]].Fails?
  }

  lemma FirstShifts(heard: seq<UserId>, outcome: map<UserId, Outcome>, i: nat)
    requires heard != [] && heard[0] in outcome && outcome[heard[0]].Fails? && FirstAt(heard[1..], outcome, i)
    ensures FirstAt(heard, outcome, i + 1)
  {
    forall j | 0 <= j < i + 1 ensures heard[j] in outcome && outcome[heard[j]].Fails? {
      if j > 0 {
        assert heard[1..][j - 1] == heard[j];
      }
    }
  }

  lemma {:induction false} FirstFound(heard: seq<UserId>, outcome: map<UserId, Outcome>)
    requires (forall u :: u in heard ==> u in outcome) && FirstAnswer(heard, outcome).Some?
    ensures exists i: nat :: FirstAt(heard, outcome, i) && FirstAnswer(heard, outcome) == Some(heard[i])
    decreases |heard|
  {
    if outcome[heard[0]].Answers? {
      assert FirstAt(heard, outcome, 0);
    } else {
      FirstFound(heard[1..], outcome);
      var i: nat :| FirstAt(heard[1..], outcome, i) && FirstAnswer(heard[1..], outcome) == Some(heard[1..][i]);
      assert heard[1..][i] == heard[i + 1];
      FirstShifts(heard, outcome, i);
    }
  }

  /** A call that nobody answers and whose caller waits is rejected as busy or declined only if every rung user is busy,
      or every one has declined; in every other case as unavailable. */
  lemma RejectedByAgreement(users: seq<UserId>, outcome: map<UserId, Outcome>, rounds: seq<Round>, locked: set<UserId>,
                            code: nat)
    requires users != [] && Schedule(users, rounds) && !CallerGone(rounds) && forall u :: u in users ==> u in outcome
    requires forall u :: u in users ==> outcome[u].Fails?
    requires code == 486 || code == 603
    ensures var verdict := Judge(users, outcome, rounds, true, locked);
            && verdict.Rejected? && verdict.code in {480, 486, 603}
            && (verdict.code == code <==> forall u :: u in users ==> outcome[u].code == code)
  {
    hide Schedule, FirstAnswer;
    var heard := Heard(rounds);
    HeardUsers(users, outcome, rounds);
    AllSpoke(users, rounds);
    assert FirstAnswer(heard, outcome).None?;
    Agreement(users, outcome, heard, 486);
    Agreement(users, outcome, heard, 603);
    assert users[0] in users;
  }

  lemma AllSpoke(users: seq<UserId>, rounds: seq<Round>)
    requires Schedule(users, rounds) && !CallerGone(rounds)
    ensures forall u :: u in users <==> u in Heard(rounds)
  {
  }

  lemma Agreement(users: seq<UserId>, outcome: map<UserId, Outcome>, heard: seq<UserId>, code: nat)
    requires users != [] && (forall u :: u in users <==> u in heard)
    requires forall u :: u in heard ==> u in outcome && outcome[u].Fails?
    ensures AllAre(Codes(heard, outcome), code) <==> forall u :: u in users ==> outcome[u].code == code
  {
    var codes := Codes(heard, outcome);
    assert users[0] in heard;
    if AllAre(codes, code) {
      forall u | u in users ensures outcome[u].code == code {
        var i :| 0 <= i < |heard| && heard[i] == u;
        assert codes[i] == outcome[u].code;
      }
    }
  }
}
