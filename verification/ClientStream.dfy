/** How a client stream ends. Any number of goroutines may try to finish it: the receive loop
    on CloseStream, on a bad frame or on a window violation, the context watcher, and readers
    that met malformed data. One of them wins a compare-and-swap and then proceeds step by
    step, while headers, data and readers keep interleaving with it. */
module ClientStream {
  import opened Framing
  import opened FlowControl
  import opened Wrappers

  datatype Cause = NoError | DeadlineExceeded | ContextCanceled | Failure(code: nat)

  datatype Status = Eof | Deadline | Canceled | Code(code: nat)

  /** The errors `finishStream` translates. */
  function Normalize(c: Cause): Status {
    match c
    case NoError => Eof
    case DeadlineExceeded => Deadline
    case ContextCanceled => Canceled
    case Failure(code) => Code(code)
  }

  const CANCELED := 1
  const DEADLINE_EXCEEDED := 4
  const RESOURCE_EXHAUSTED := 8

  const WINDOW_EXCEEDED := Failure(RESOURCE_EXHAUSTED)

  /** The gRPC status code that a cause calls for, and the one that a status has. */
  function CauseCode(c: Cause): nat {
    match c
    case NoError => 0
    case DeadlineExceeded => DEADLINE_EXCEEDED
    case ContextCanceled => CANCELED
    case Failure(code) => code
  }

  function StatusCode(s: Status): nat {
    match s
    case Eof => 0
    case Deadline => DEADLINE_EXCEEDED
    case Canceled => CANCELED
    case Code(code) => code
  }

  /** The status is the cause's: end of file exactly for success, and the cause's code. */
  predicate Reports(s: Option<Status>, c: Cause) {
    s.Some? && (s == Some(Eof) <==> c.NoError?) && StatusCode(s.value) == CauseCode(c)
  }

  type Metadata = nat

  /** Where the winner of the compare-and-swap is. The last two are reached by `cancelStream` only. */
  datatype Phase = Open | Claimed | Removed | Published | QueueClosed | ContextEnded | QueueCancelled | CancelSent

  function Rank(p: Phase): nat {
    match p
    case Open => 0 case Claimed => 1 case Removed => 2 case Published => 3
    case QueueClosed => 4 case ContextEnded => 5 case QueueCancelled => 6 case CancelSent => 7
  }

  /** `claim` is what the winner was called with. The counters say how often each channel has
      been closed and the status written; closing twice would panic. `ends` are the statuses
      that readers have seen when `dequeue` reported the end, with what `Trailer` would have
      returned at that moment; `taken` are the frames that readers have dequeued. */
  datatype Stream = Stream(
    done: Option<Status>, statusWrites: nat,
    phase: Phase, claim: (Cause, Metadata, bool),
    registered: bool, gotHeaders: bool, headers: Option<Metadata>, trailers: Option<Metadata>,
    headersClosed: nat, doneClosed: nat, contextDone: bool,
    q: Queue, cancelsSent: nat, ends: seq<(Option<Status>, Option<Metadata>)>, taken: seq<Frame>)

  function Init(l: Limits): Stream {
    Stream(None, 0, Open, (NoError, 0, false), true, false, None, None, 0, 0, false, EmptyQueue(l), 0, [], [])
  }

  datatype Step =
    | Finish(cause: Cause, trailers: Metadata, cancel: bool)
    | Proceed
    | HeadersArrive(md: Metadata)
    | DataArrives(f: Frame)
    | Read

  predicate Enabled(s: Stream, step: Step) {
    match step
    case Proceed =>
      1 <= Rank(s.phase) < 5 || (s.claim.2 && 5 <= Rank(s.phase) < 7)
    case Read => s.q.cancelled || s.q.items != [] || s.q.closed
    case _ => true
  }

  /** The compare-and-swap at the head of `finishStream`. */
  function Claim(s: Stream, cause: Cause, trailers: Metadata, cancel: bool): Stream {
    if s.done.Some? then s
    else s.(done := Some(Normalize(cause)), statusWrites := s.statusWrites + 1, phase := Claimed, claim := (cause, trailers, cancel))
  }

  /** What the winner does next. */
  function Advance(s: Stream): Stream {
    match s.phase
    case Claimed => s.(phase := Removed, registered := false)
    case Removed =>
      s.(phase := Published, trailers := Some(s.claim.1), gotHeaders := true,
         headersClosed := s.headersClosed + (if s.gotHeaders then 0 else 1), doneClosed := s.doneClosed + 1)
    case Published => s.(phase := QueueClosed, q := CloseQueue(s.q))
    case QueueClosed => s.(phase := ContextEnded, contextDone := true)
    case ContextEnded => s.(phase := QueueCancelled, q := CancelQueue(s.q))
    case QueueCancelled => s.(phase := CancelSent, cancelsSent := s.cancelsSent + 1)
    case _ => s
  }

  function Do(l: Limits, s: Stream, step: Step): Stream
    requires Enabled(s, step)
  {
    match step
    case Finish(cause, trailers, cancel) => Claim(s, cause, trailers, cancel)
    case Proceed => Advance(s)
    case HeadersArrive(md) =>
      if s.gotHeaders then s
      else s.(gotHeaders := true, headers := Some(md), headersClosed := s.headersClosed + 1)
    case DataArrives(f) =>
      var (q, ok) := Accept(l, s.q, f);
      if ok then s.(q := q) else Claim(s, WINDOW_EXCEEDED, 0, false)
    case Read =>
      if s.q.cancelled || s.q.items == [] then
        s.(ends := s.ends + [(s.done, if s.doneClosed > 0 then s.trailers else None)])
      else s.(q := Take(l, s.q).0, taken := s.taken + [s.q.items[0]])
  }

  ghost predicate Reaches(l: Limits, s: Stream, steps: seq<Step>, t: Stream)
    decreases steps
  {
    if steps == [] then s == t else Enabled(s, steps[0]) && Reaches(l, Do(l, s, steps[0]), steps[1..], t)
  }

  predicate Inv(s: Stream) {
    var r := Rank(s.phase);
    && (s.done.None? <==> r == 0)
    && (r > 0 ==> s.done == Some(Normalize(s.claim.0)))
    && s.statusWrites == (if r > 0 then 1 else 0)
    && (s.registered <==> r < 2)
    && s.doneClosed == (if r >= 3 then 1 else 0)
    && s.headersClosed == (if s.gotHeaders then 1 else 0)
    && (!s.gotHeaders ==> s.headers.None?)
    && (r >= 3 ==> s.gotHeaders && s.trailers == Some(s.claim.1))
    && (s.q.closed <==> r >= 4)
    && (s.contextDone <==> r >= 5)
    && (s.q.cancelled <==> r >= 6)
    && (r >= 6 ==> s.claim.2)
    && s.cancelsSent == (if r >= 7 then 1 else 0)
    && (s.ends != [] ==> r >= 4 && s.q.items == [])
    && (s.q.cancelled ==> s.q.items == [])
    && forall i :: 0 <= i < |s.ends| ==> s.ends[i] == (s.done, s.trailers) && s.done.Some? && s.trailers.Some?
  }

  lemma StepInv(l: Limits, s: Stream, step: Step)
    requires Inv(s) && Enabled(s, step)
    ensures Inv(Do(l, s, step))
    ensures s.done.Some? ==> Do(l, s, step).done == s.done && Do(l, s, step).claim == s.claim
  {
  }

  lemma {:induction false} RunInv(l: Limits, s: Stream, steps: seq<Step>, t: Stream)
    requires Inv(s) && Reaches(l, s, steps, t)
    ensures Inv(t) && (s.done.Some? ==> t.done == s.done && t.claim == s.claim)
    decreases steps
  {
    if steps != [] {
      StepInv(l, s, steps[0]);
      RunInv(l, Do(l, s, steps[0]), steps[1..], t);
    }
  }

  /** Over every interleaving: the status is written at most once, each signal channel is closed
      at most once, at most one Cancel is sent, and every reader that was told of the end saw the
      final status and the trailers published with it. */
  lemma EndsOnce(l: Limits, steps: seq<Step>, t: Stream)
    requires Reaches(l, Init(l), steps, t)
    ensures t.statusWrites <= 1 && t.doneClosed <= 1 && t.headersClosed <= 1 && t.cancelsSent <= 1
    ensures forall i :: 0 <= i < |t.ends| ==> Reports(t.ends[i].0, t.claim.0) && t.ends[i].1 == Some(t.claim.1)
  {
    RunInv(l, Init(l), steps, t);
  }

  /** The first to finish the stream decides its status and trailers for good, whoever else
      tries later and however the steps of the winner are delayed. */
  lemma FirstWins(l: Limits, s: Stream, cause: Cause, trailers: Metadata, cancel: bool, steps: seq<Step>, t: Stream)
    requires Inv(s) && s.done.None? && Reaches(l, Do(l, s, Finish(cause, trailers, cancel)), steps, t)
    ensures Reports(t.done, cause) && t.claim == (cause, trailers, cancel)
    ensures t.doneClosed > 0 ==> t.trailers == Some(trailers)
  {
    StepInv(l, s, Finish(cause, trailers, cancel));
    RunInv(l, Do(l, s, Finish(cause, trailers, cancel)), steps, t);
  }

  lemma {:induction false} HeadersKept(l: Limits, s: Stream, steps: seq<Step>, t: Stream)
    requires Inv(s) && s.gotHeaders && Reaches(l, s, steps, t)
    ensures t.gotHeaders && t.headers == s.headers
    decreases steps
  {
    if steps != [] {
      StepInv(l, s, steps[0]);
      assert Do(l, s, steps[0]).gotHeaders && Do(l, s, steps[0]).headers == s.headers;
      HeadersKept(l, Do(l, s, steps[0]), steps[1..], t);
    }
  }

  /** The first headers to arrive on a stream that has not published its end are its headers for
      good, whatever headers follow; and if the end is published first, there are none for good. */
  lemma FirstHeaders(l: Limits, s: Stream, step: Step, steps: seq<Step>, t: Stream)
    requires Inv(s) && !s.gotHeaders && Enabled(s, step)
    requires Reaches(l, Do(l, s, step), steps, t)
    ensures step.HeadersArrive? ==> t.gotHeaders && t.headers == Some(step.md)
    ensures step.Proceed? && s.phase == Removed ==> t.gotHeaders && t.headers == None
  {
    StepInv(l, s, step);
    if Do(l, s, step).gotHeaders {
      HeadersKept(l, Do(l, s, step), steps, t);
    }
  }

  /** Frames read or still to be read. */
  predicate Keeps(s: Stream, items: seq<Frame>) {
    exists n :: 0 <= n <= |items| && s.q.items == items[n..]
  }

  /** What a step can do to a queue that is closed and will not be cancelled. */
  lemma ClosedQueueStep(l: Limits, s: Stream, step: Step)
    requires Inv(s) && s.q.closed && !s.claim.2 && Enabled(s, step)
    ensures var t := Do(l, s, step);
            && Inv(t) && t.q.closed && !t.claim.2
            && (t.q.items == s.q.items || (s.q.items != [] && t.q.items == s.q.items[1..]))
            && (|t.ends| > |s.ends| ==> s.q.items == [])
  {
    StepInv(l, s, step);
  }

  lemma {:induction false} EmptyStays(l: Limits, s: Stream, steps: seq<Step>, t: Stream)
    requires Inv(s) && s.q.closed && !s.claim.2 && s.q.items == [] && Reaches(l, s, steps, t)
    ensures t.q.items == []
    decreases steps
  {
    if steps != [] {
      ClosedQueueStep(l, s, steps[0]);
      EmptyStays(l, Do(l, s, steps[0]), steps[1..], t);
    }
  }

  /** Unless the winner was `cancelStream`, finishing throws away nothing: what was queued when
      the queue closed stays readable, in order, and no reader is told of the end before all of
      it has been read. */
  lemma {:induction false} QueuedSurvives(l: Limits, s: Stream, items: seq<Frame>, steps: seq<Step>, t: Stream)
    requires Inv(s) && s.q.closed && !s.claim.2 && Keeps(s, items) && Reaches(l, s, steps, t)
    ensures Keeps(t, items) && !t.q.cancelled
    ensures |t.ends| > |s.ends| ==> t.q.items == []
    decreases steps
  {
    hide Inv;
    NotCancelled(s);
    if steps != [] {
      var next := Do(l, s, steps[0]);
      ClosedQueueStep(l, s, steps[0]);
      var n :| 0 <= n <= |items| && s.q.items == items[n..];
      assert Keeps(next, items) by {
        assert next.q.items == items[n..] || next.q.items == items[n + 1..];
      }
      QueuedSurvives(l, next, items, steps[1..], t);
      if |next.ends| > |s.ends| {
        EmptyStays(l, s, steps, t);
      }
    }
  }

  lemma NotCancelled(s: Stream)
    requires Inv(s) && !s.claim.2
    ensures !s.q.cancelled
  {
  }

  // ---------------------------------------------------------------- the stream object

  function Advances(s: Stream, n: nat): Stream
    decreases n
  {
    if n == 0 then s else Advance(Advances(s, n - 1))
  }

  lemma NormalizeReports(c: Cause)
    ensures Reports(Some(Normalize(c)), c)
  {
  }

  /** A step, and if it wins the compare-and-swap all that the winner does next. */
  function Settle(s: Stream): Stream {
    if s.phase == Claimed then Advances(s, if s.claim.2 then 6 else 4) else s
  }

  /** No winner is under way. */
  predicate Quiet(s: Stream) { s.phase == Open || s.phase == ContextEnded || s.phase == CancelSent }

  lemma {:induction false} Then(l: Limits, s: Stream, steps: seq<Step>, t: Stream, step: Step)
    requires Reaches(l, s, steps, t) && Enabled(t, step)
    ensures Reaches(l, s, steps + [step], Do(l, t, step))
    decreases steps
  {
    if steps == [] {
      assert [step][1..] == [];
    } else {
      assert (steps + [step])[1..] == steps[1..] + [step];
      Then(l, Do(l, s, steps[0]), steps[1..], t, step);
    }
  }

  lemma {:induction false} AdvancesRun(l: Limits, s: Stream, before: seq<Step>, won: Stream, n: nat) returns (steps: seq<Step>)
    requires Inv(won) && won.phase == Claimed && n <= (if won.claim.2 then 6 else 4)
    requires Reaches(l, s, before, won)
    ensures Reaches(l, s, steps, Advances(won, n)) && Inv(Advances(won, n))
    ensures Rank(Advances(won, n).phase) == n + 1 && Advances(won, n).claim == won.claim
    decreases n
  {
    hide Inv, Do;
    steps := before;
    if n > 0 {
      steps := AdvancesRun(l, s, before, won, n - 1);
      var t := Advances(won, n - 1);
      AdvanceRank(l, t);
      StepInv(l, t, Proceed);
      Then(l, s, steps, t, Proceed);
      steps := steps + [Proceed];
    }
  }

  lemma AdvanceRank(l: Limits, s: Stream)
    requires Enabled(s, Proceed)
    ensures Do(l, s, Proceed) == Advance(s)
    ensures Rank(Advance(s).phase) == Rank(s.phase) + 1 && Advance(s).claim == s.claim
  {
  }

  /** So a call that is not interleaved with others is a run of the step system, and what holds
      over every run holds between the calls of an object's methods. */
  lemma CallIsRun(l: Limits, s: Stream, step: Step) returns (steps: seq<Step>)
    requires Inv(s) && Quiet(s) && Enabled(s, step) && !step.Proceed?
    ensures Reaches(l, s, steps, Settle(Do(l, s, step)))
    ensures Inv(Settle(Do(l, s, step))) && Quiet(Settle(Do(l, s, step)))
  {
    hide Inv;
    var next := Do(l, s, step);
    StepInv(l, s, step);
    Then(l, s, [], s, step);
    steps := [] + [step];
    if next.phase == Claimed {
      steps := AdvancesRun(l, s, steps, next, if next.claim.2 then 6 else 4);
    }
  }

  lemma FourSteps(s: Stream)
    requires s.phase == Claimed
    ensures Advances(s, 4)
            == s.(phase := ContextEnded, registered := false, trailers := Some(s.claim.1), gotHeaders := true,
                  headersClosed := s.headersClosed + (if s.gotHeaders then 0 else 1), doneClosed := s.doneClosed + 1,
                  q := CloseQueue(s.q), contextDone := true)
  {
    var s1 := Advance(s);
    var s2 := Advance(s1);
    var s3 := Advance(s2);
    assert Advances(s, 1) == s1;
    assert Advances(s, 2) == s2 && Advances(s, 3) == s3;
  }

  lemma SixSteps(s: Stream)
    requires Advances(s, 4).phase == ContextEnded
    ensures var t := Advances(s, 4);
            Advances(s, 6) == t.(phase := CancelSent, q := CancelQueue(t.q), cancelsSent := t.cancelsSent + 1)
  {
    assert Advances(s, 5) == Advance(Advances(s, 4));
  }

  /** What a call of `finishStream` that wins has done when it returns. */
  function Finished(s: Stream, cause: Cause, md: Metadata, cancel: bool): Stream {
    s.(done := Some(Normalize(cause)), statusWrites := s.statusWrites + 1, phase := ContextEnded, claim := (cause, md, cancel),
       registered := false, trailers := Some(md), gotHeaders := true,
       headersClosed := s.headersClosed + (if s.gotHeaders then 0 else 1), doneClosed := s.doneClosed + 1,
       q := CloseQueue(s.q), contextDone := true)
  }

  lemma WinnerFinishes(s: Stream, cause: Cause, md: Metadata, cancel: bool)
    requires Inv(s) && s.done.None?
    ensures Advances(Claim(s, cause, md, cancel), 4) == Finished(s, cause, md, cancel)
    ensures Inv(Finished(s, cause, md, cancel)) && s.doneClosed == 0 && s.statusWrites == 0
    ensures s.headersClosed == if s.gotHeaders then 1 else 0
  {
    var l := Limits(0, 0, 0);
    var won := Do(l, s, Finish(cause, md, cancel));
    StepInv(l, s, Finish(cause, md, cancel));
    FourSteps(won);
    var steps := AdvancesRun(l, won, [], won, 4);
  }

  /** `ends` records what readers have been told, and `phase` and `claim` who finished the stream
      and how far that call has come. */
  class TunnelClientStream {
    const receiver: Receiver
    var done: Option<Status>
    var registered: bool
    var gotHeaders: bool
    var headers: Option<Metadata>
    var trailers: Option<Metadata>
    var gotHeadersSignal: bool  // closed
    var doneSignal: bool        // closed
    var contextDone: bool
    var cancelsSent: nat
    ghost var phase: Phase
    ghost var claim: (Cause, Metadata, bool)
    ghost var ends: seq<(Option<Status>, Option<Metadata>)>
    ghost var taken: seq<Frame>

    ghost function State(): Stream
      reads this, receiver
    {
      Stream(done, if done.Some? then 1 else 0, phase, claim, registered, gotHeaders, headers, trailers,
             if gotHeadersSignal then 1 else 0, if doneSignal then 1 else 0, contextDone,
             receiver.State(), cancelsSent, ends, taken)
    }

    ghost predicate Valid()
      reads this, receiver
    {
      receiver.Valid() && Inv(State()) && Quiet(State())
    }

    constructor (receiver: Receiver)
      requires receiver.Valid() && receiver.State() == EmptyQueue(receiver.limits)
      ensures Valid() && this.receiver == receiver && State() == Init(receiver.limits)
    {
      this.receiver := receiver;
      done, registered, gotHeaders, headers, trailers := None, true, false, None, None;
      gotHeadersSignal, doneSignal, contextDone, cancelsSent := false, false, false, 0;
      phase, claim, ends, taken := Open, (NoError, 0, false), [], [];
    }

    /** The rest of `finishStream` for the winner: the section under `metaMu`, and then the two
        deferred calls. */
    method Complete(md: Metadata)
      requires receiver.Valid() && !doneSignal && gotHeadersSignal == gotHeaders
      modifies this`trailers, this`gotHeaders, this`gotHeadersSignal, this`doneSignal, this`contextDone, receiver
      ensures trailers == Some(md) && gotHeaders && gotHeadersSignal && doneSignal && contextDone
      ensures receiver.Valid() && receiver.State() == CloseQueue(old(receiver.State()))
    {
      trailers := Some(md);
      if !gotHeaders {
        gotHeaders := true;
        assert !gotHeadersSignal;
        gotHeadersSignal := true;
      }
      assert !doneSignal;
      doneSignal := true;
      receiver.Close();
      contextDone := true;
    }

    /** The whole of `finishStream` for a winner. */
    method Win(cause: Cause, md: Metadata, ghost cancel: bool)
      requires receiver.Valid() && done.None? && !doneSignal && gotHeadersSignal == gotHeaders
      modifies this, receiver
      ensures receiver.Valid() && State() == Finished(old(State()), cause, md, cancel)
    {
      hide Receiver.Valid, Normalize;
      done := Some(Normalize(cause));
      registered := false;
      Complete(md);
      phase, claim := ContextEnded, (cause, md, cancel);
    }

    /** The compare-and-swap, and for the winner four steps more. `cancel` is whether the caller is
        `cancelStream`, which has two more to take. */
    method FinishStream(cause: Cause, md: Metadata, ghost cancel: bool) returns (won: bool)
      requires Valid()
      modifies this, receiver
      ensures Valid() && won == old(done).None?
      ensures State() == if won then Advances(Claim(old(State()), cause, md, cancel), 4) else old(State())
      ensures won ==> Reports(done, cause) && trailers == Some(md)
    {
      if done.Some? {
        return false;
      }
      WinnerFinishes(State(), cause, md, cancel);
      NormalizeReports(cause);
      hide Inv, Advances, Claim, Receiver.Valid, Normalize, Reports;
      Win(cause, md, cancel);
      return true;
    }

    /** Only the call that finishes the stream drops what is queued and tells the server. */
    method CancelStream(cause: Cause)
      requires Valid()
      modifies this, receiver
      ensures Valid()
      ensures State() == Settle(Do(receiver.limits, old(State()), Finish(cause, 0, true)))
      ensures old(done).Some? ==> State() == old(State())
      ensures old(done).None? ==>
                && Reports(done, cause) && cancelsSent == old(cancelsSent) + 1
                && receiver.cancelled && receiver.closed && receiver.items == []
    {
      ghost var claimed := Claim(State(), cause, 0, true);
      ghost var _ := CallIsRun(receiver.limits, State(), Finish(cause, 0, true));
      hide Inv, Advances;
      var won := FinishStream(cause, 0, true);
      if !won {
        return;
      }
      WinnerFinishes(old(State()), cause, 0, true);
      SixSteps(claimed);
      receiver.Cancel();
      phase := QueueCancelled;
      cancelsSent := cancelsSent + 1;
      phase := CancelSent;
      assert State() == Advances(claimed, 6);
    }

    /** Only the first headers count, and none after the stream has finished. */
    method AcceptHeaders(md: Metadata)
      requires Valid()
      modifies this`gotHeaders, this`headers, this`gotHeadersSignal
      ensures Valid()
      ensures State() == Settle(Do(receiver.limits, old(State()), HeadersArrive(md)))
      ensures gotHeaders && headers == if old(gotHeaders) then old(headers) else Some(md)
    {
      if gotHeaders {
        return;
      }
      gotHeaders := true;
      headers := Some(md);
      assert !gotHeadersSignal;
      gotHeadersSignal := true;
    }

    /** A data frame that exceeds the window finishes the stream; any other is queued. */
    method AcceptData(f: Frame)
      requires Valid()
      modifies this, receiver
      ensures Valid()
      ensures State() == Settle(Do(receiver.limits, old(State()), DataArrives(f)))
      ensures old(done).Some? ==> done == old(done)
      ensures old(done).None? ==>
                if |Payload(f)| + (if f.Envelope? then receiver.limits.overhead else 0) <= old(receiver.currentWindow)
                then done.None? && receiver.items == old(receiver.items) + [f]
                else done.Some? && StatusCode(done.value) == RESOURCE_EXHAUSTED && receiver.items == old(receiver.items)
    {
      ghost var _ := CallIsRun(receiver.limits, State(), DataArrives(f));
      assert done.None? ==> !receiver.closed;
      hide Inv, Advances;
      var ok := receiver.AcceptItem(f);
      if !ok {
        assert State() == old(State());
        var _ := FinishStream(WINDOW_EXCEEDED, 0, false);
      }
    }

    /** A reader's `dequeue`, with what it finds in `done` at the end of the queue. A reader that
        has to wait leaves everything as it is. */
    method Dequeue() returns (d: Dequeued, err: Option<Status>)
      requires Valid()
      modifies this`ends, this`taken, receiver
      ensures Valid()
      ensures d.MustWait? <==> !Enabled(old(State()), Read)
      ensures State() == if d.MustWait? then old(State()) else Settle(Do(receiver.limits, old(State()), Read))
      ensures d.Item? ==> old(receiver.items) != [] && d.f == old(receiver.items)[0]
      ensures d.End? ==> err == done && err.Some?
    {
      err := None;
      var update;
      d, update := receiver.Dequeue();
      if d.Item? {
        taken := taken + [d.f];
      } else if d.End? {
        err := done;
        ends := ends + [(done, if doneSignal then trailers else None)];
      }
    }
  }
}
