/** The sending loop of `main`: one `sendmail` per message in order, a
    report of the outcome, a short pause after every message and a long
    pause after every fiftieth. */
module Dispatch {
  import opened Lists
  import opened Messages

  /** The server's answer to one `sendmail` call: accepted, or an exception
      with its text. */
  datatype Outcome = Accepted | Refused(reason: string)

  /** What the loop does, in order: hand a message to the server with the
      envelope sender and recipient, print its outcome, and sleep. */
  datatype Event =
    | Attempt(sender: string, to: string, msg: Message)
    | Sent(to: string)
    | Error(to: string, reason: string)
    | Pause
    | BatchPause

  /** Messages per batch; a long pause follows every message whose 1-based
      number is a multiple of it. */
  const BatchSize: nat := 50

  /** The events for message number `n`, answered with `o`. */
  function Step(sender: string, n: nat, m: Outbound, o: Outcome): seq<Event> {
    [Attempt(sender, m.to, m.msg)]
    + [if o.Accepted? then Sent(m.to) else Error(m.to, o.reason)]
    + [Pause]
    + (if n % BatchSize == 0 then [BatchPause] else [])
  }

  /** The events of sending `msgs` numbered from `first`, the server
      answering attempt number `n` with `server(n)`. */
  function Trace(sender: string, msgs: seq<Outbound>, server: nat -> Outcome, first: nat): seq<Event>
    decreases |msgs|
  {
    if msgs == [] then []
    else Step(sender, first, msgs[0], server(first)) + Trace(sender, msgs[1..], server, first + 1)
  }

  /** The loop itself; an exception from `sendmail` is caught and reported
      and the loop goes on. */
  method Dispatch(sender: string, msgs: seq<Outbound>, server: nat -> Outcome) returns (events: seq<Event>)
    ensures events == Trace(sender, msgs, server, 1)
  {
    events := [];
    var i := 0;
    while i < |msgs|
      invariant 0 <= i <= |msgs|
      invariant events == Trace(sender, msgs[..i], server, 1)
    {
      var m := msgs[i];
      var n := i + 1;
      var before := events;
      events := events + [Attempt(sender, m.to, m.msg)];
      var o := server(n);
      match o {
        case Accepted => events := events + [Sent(m.to)];
        case Refused(e) => events := events + [Error(m.to, e)];
      }
      events := events + [Pause];
      if n % BatchSize == 0 {
        events := events + [BatchPause];
      }
      assert events == before + Step(sender, n, m, o);
      TraceSnoc(sender, msgs, server, i);
      i := n;
    }
    TakeAll(msgs);
  }

  /** Sending a concatenation is sending the first part, then the second
      numbered on from where the first stopped. */
  lemma {:induction false} TraceAppend(sender: string, a: seq<Outbound>, b: seq<Outbound>, server: nat -> Outcome, first: nat)
    ensures Trace(sender, a + b, server, first)
            == Trace(sender, a, server, first) + Trace(sender, b, server, first + |a|)
    decreases |a|
  {
    if a == [] {
      EmptyAppend(a, b);
      EmptyAppend([], Trace(sender, b, server, first));
    } else {
      DropOfAppend(a, b);
      TraceAppend(sender, a[1..], b, server, first + 1);
      AppendAssoc(Step(sender, first, a[0], server(first)), Trace(sender, a[1..], server, first + 1),
                  Trace(sender, b, server, first + |a|));
    }
  }

  lemma TraceSingle(sender: string, m: Outbound, server: nat -> Outcome, n: nat)
    ensures Trace(sender, [m], server, n) == Step(sender, n, m, server(n))
  {
    assert [m][1..] == [];
    EmptyAppend([], Step(sender, n, m, server(n)));
  }

  lemma TraceSnoc(sender: string, msgs: seq<Outbound>, server: nat -> Outcome, i: nat)
    requires i < |msgs|
    ensures Trace(sender, msgs[..i + 1], server, 1)
            == Trace(sender, msgs[..i], server, 1) + Step(sender, i + 1, msgs[i], server(i + 1))
  {
    TakeSnoc(msgs, i);
    TraceAppend(sender, msgs[..i], [msgs[i]], server, 1);
    TraceSingle(sender, msgs[i], server, i + 1);
  }

  // Projections of a trace.

  predicate IsAttempt(e: Event) { e.Attempt? }

  /** The message an attempt hands over. */
  function Attempted(e: Event): Outbound {
    if e.Attempt? then Outbound(e.to, e.msg) else Outbound("", Message("", [], []))
  }

  predicate IsReport(e: Event) { e.Sent? || e.Error? }

  /** The recipient and outcome a report prints. */
  function Reported(e: Event): (string, Outcome) {
    match e
    case Sent(to) => (to, Accepted)
    case Error(to, reason) => (to, Refused(reason))
    case _ => ("", Accepted)
  }

  predicate IsPause(e: Event) { e.Pause? }

  predicate IsBatchPause(e: Event) { e.BatchPause? }

  lemma StepAttempts(sender: string, n: nat, m: Outbound, o: Outcome)
    ensures FilterMap(Step(sender, n, m, o), IsAttempt, Attempted) == [m]
  {
    var r := if o.Accepted? then Sent(m.to) else Error(m.to, o.reason);
    var b := if n % BatchSize == 0 then [BatchPause] else [];
    FilterMapThree(Attempt(sender, m.to, m.msg), r, Pause, b, IsAttempt, Attempted);
    if n % BatchSize == 0 {
      FilterMapSingle(BatchPause, IsAttempt, Attempted);
    }
  }

  lemma StepReports(sender: string, n: nat, m: Outbound, o: Outcome)
    ensures FilterMap(Step(sender, n, m, o), IsReport, Reported) == [(m.to, o)]
  {
    var r := if o.Accepted? then Sent(m.to) else Error(m.to, o.reason);
    var b := if n % BatchSize == 0 then [BatchPause] else [];
    FilterMapThree(Attempt(sender, m.to, m.msg), r, Pause, b, IsReport, Reported);
    if n % BatchSize == 0 {
      FilterMapSingle(BatchPause, IsReport, Reported);
    }
  }

  lemma StepCounts(sender: string, n: nat, m: Outbound, o: Outcome)
    ensures Count(Step(sender, n, m, o), IsPause) == 1
    ensures Count(Step(sender, n, m, o), IsBatchPause) == if n % BatchSize == 0 then 1 else 0
  {
    var r := if o.Accepted? then Sent(m.to) else Error(m.to, o.reason);
    var b := if n % BatchSize == 0 then [BatchPause] else [];
    CountThree(Attempt(sender, m.to, m.msg), r, Pause, b, IsPause);
    CountThree(Attempt(sender, m.to, m.msg), r, Pause, b, IsBatchPause);
    if n % BatchSize == 0 {
      CountSingle(BatchPause, IsPause);
      CountSingle(BatchPause, IsBatchPause);
    }
  }

  /** Every message is handed to the server exactly once, in order, whatever
      the server answers: a refused message does not stop the ones after it. */
  lemma {:induction false} AttemptsAreMessages(sender: string, msgs: seq<Outbound>, server: nat -> Outcome, first: nat)
    ensures FilterMap(Trace(sender, msgs, server, first), IsAttempt, Attempted) == msgs
    decreases |msgs|
  {
    if msgs != [] {
      var s := Step(sender, first, msgs[0], server(first));
      FilterMapAppend(s, Trace(sender, msgs[1..], server, first + 1), IsAttempt, Attempted);
      StepAttempts(sender, first, msgs[0], server(first));
      AttemptsAreMessages(sender, msgs[1..], server, first + 1);
      ConsAppend(msgs, []);
    }
  }

  /** Every attempt names the configured sender address as envelope sender. */
  lemma {:induction false} AttemptsFromSender(sender: string, msgs: seq<Outbound>, server: nat -> Outcome, first: nat)
    ensures forall e :: e in Trace(sender, msgs, server, first) && e.Attempt? ==> e.sender == sender
    decreases |msgs|
  {
    if msgs != [] {
      AttemptsFromSender(sender, msgs[1..], server, first + 1);
    }
  }

  /** One report per message, in order, carrying the server's answer to that
      message. */
  lemma {:induction false} ReportsFollowOutcomes(sender: string, msgs: seq<Outbound>, server: nat -> Outcome, first: nat)
    ensures |FilterMap(Trace(sender, msgs, server, first), IsReport, Reported)| == |msgs|
    ensures forall i :: 0 <= i < |msgs| ==>
              FilterMap(Trace(sender, msgs, server, first), IsReport, Reported)[i] == (msgs[i].to, server(first + i))
    decreases |msgs|
  {
    if msgs != [] {
      var s := Step(sender, first, msgs[0], server(first));
      var rest := Trace(sender, msgs[1..], server, first + 1);
      FilterMapAppend(s, rest, IsReport, Reported);
      StepReports(sender, first, msgs[0], server(first));
      ReportsFollowOutcomes(sender, msgs[1..], server, first + 1);
      forall i | 0 < i < |msgs|
        ensures FilterMap(Trace(sender, msgs, server, first), IsReport, Reported)[i] == (msgs[i].to, server(first + i))
      {
        assert msgs[1..][i - 1] == msgs[i];
      }
    }
  }

  /** Going from message number `a` to `a + 1` adds one long pause exactly
      when `a + 1` is a multiple of the batch size. */
  lemma DivStep(a: nat)
    ensures (a + 1) / BatchSize == a / BatchSize + (if (a + 1) % BatchSize == 0 then 1 else 0)
  {
    var q := a / BatchSize;
    var r := a % BatchSize;
    assert a == BatchSize * q + r && 0 <= r < BatchSize;
    if r == BatchSize - 1 {
      assert a + 1 == BatchSize * (q + 1) + 0;
    } else {
      assert a + 1 == BatchSize * q + (r + 1);
    }
  }

  /** One short pause per message, and one long pause for every multiple of
      the batch size among the message numbers. */
  lemma {:induction false} PauseCounts(sender: string, msgs: seq<Outbound>, server: nat -> Outcome, first: nat)
    requires first >= 1
    ensures Count(Trace(sender, msgs, server, first), IsPause) == |msgs|
    ensures Count(Trace(sender, msgs, server, first), IsBatchPause)
            == (first - 1 + |msgs|) / BatchSize - (first - 1) / BatchSize
    decreases |msgs|
  {
    if msgs != [] {
      var s := Step(sender, first, msgs[0], server(first));
      var rest := Trace(sender, msgs[1..], server, first + 1);
      CountAppend(s, rest, IsPause);
      CountAppend(s, rest, IsBatchPause);
      StepCounts(sender, first, msgs[0], server(first));
      PauseCounts(sender, msgs[1..], server, first + 1);
      DivStep(first - 1);
    }
  }

  /** The whole run: `n` short pauses and `n / 50` long ones. */
  lemma DispatchPauses(sender: string, msgs: seq<Outbound>, server: nat -> Outcome)
    ensures Count(Trace(sender, msgs, server, 1), IsPause) == |msgs|
    ensures Count(Trace(sender, msgs, server, 1), IsBatchPause) == |msgs| / BatchSize
  {
    PauseCounts(sender, msgs, server, 1);
  }

  /** After the first `k` messages the last thing done is a long pause when
      `k` is a multiple of the batch size and a short one otherwise. */
  lemma BatchPauseAfter(sender: string, msgs: seq<Outbound>, server: nat -> Outcome, k: nat)
    requires 1 <= k <= |msgs|
    ensures |Trace(sender, msgs[..k], server, 1)| > 0
    ensures Last(Trace(sender, msgs[..k], server, 1)) == if k % BatchSize == 0 then BatchPause else Pause
  {
    TraceSnoc(sender, msgs, server, k - 1);
  }

  function Last(events: seq<Event>): Event
    requires |events| > 0
  {
    events[|events| - 1]
  }

  /** The events of the first `k` messages begin the events of the whole run. */
  lemma TracePrefix(sender: string, msgs: seq<Outbound>, server: nat -> Outcome, k: nat)
    requires k <= |msgs|
    ensures Trace(sender, msgs, server, 1)
            == Trace(sender, msgs[..k], server, 1) + Trace(sender, msgs[k..], server, 1 + k)
  {
    SplitAt(msgs, k);
    TraceAppend(sender, msgs[..k], msgs[k..], server, 1);
  }

  /** Fifty-one messages get fifty-one short pauses and a single long pause,
      which follows the fiftieth message. */
  lemma FiftyOneMessages(sender: string, msgs: seq<Outbound>, server: nat -> Outcome)
    requires |msgs| == 51
    ensures Count(Trace(sender, msgs, server, 1), IsPause) == 51
    ensures Count(Trace(sender, msgs, server, 1), IsBatchPause) == 1
    ensures Last(Trace(sender, msgs[..50], server, 1)) == BatchPause
    ensures Last(Trace(sender, msgs, server, 1)) == Pause
  {
    DispatchPauses(sender, msgs, server);
    BatchPauseAfter(sender, msgs, server, 50);
    BatchPauseAfter(sender, msgs, server, 51);
    TakeAll(msgs);
  }
}
