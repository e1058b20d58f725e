/** How a server stream completes: what its handler, the receive loop and the goroutine spawned
    by `finishStream` put on the wire, under every interleaving.

    `writeMu` orders the handler's calls and `finishStream`; but the spawned goroutine sends
    without it, and `finishStream` may be called by the receive loop while the handler is
    still at work. */
module ServerStream {

  datatype Out = Headers | Data | Close

  /** The goroutine of the one `finishStream` that found the stream open. */
  datatype Goroutine = NotSpawned | HeadersThenClose | CloseOnly | Finished

  /** The handler inside `SendMsg`, where it holds the lock: `left` is what the message still has
      to send, in bytes (one for an empty message). `Blocked` waits for credit. */
  datatype Sending = NotSending | Running(left: nat) | Blocked(left: nat)

  /** `entering`: calls of `finishStream` that have not yet cancelled the context; `waiting`: calls
      that have, and are yet to take the lock. `foreign`: someone other than the returning
      handler has called it. `begun` are the sizes of the messages that the handler has begun to send. */
  datatype Stream = Stream(
    serverStreaming: bool, numSent: nat, begun: seq<nat>, sending: Sending, contextDone: bool, returned: bool, foreign: bool,
    entering: nat, waiting: nat, sentHeaders: bool, closed: bool, spawned: Goroutine, out: seq<Out>)

  function Init(serverStreaming: bool): Stream {
    Stream(serverStreaming, 0, [], NotSending, false, false, false, 0, 0, false, false, NotSpawned, [])
  }

  /** `BeginSend(0)` is a message that cannot be sent. `Grant` is an update of the window, for
      which the receive loop must be running, and `ContextEnds` a deadline. */
  datatype Step =
    | SetHeader(send: bool) | BeginSend(n: nat) | Return                 // the handler
    | SendChunk(k: nat) | Block | ContextWakes | EndSend                 // the handler inside `SendMsg`
    | FinishByOther                                                      // Cancel, bad frame, bad read
    | CancelContext | LockAndFinish | Spawned
    | Grant | ContextEnds

  predicate LockFree(s: Stream) { s.sending.NotSending? }

  predicate Enabled(s: Stream, step: Step) {
    match step
    case SetHeader(_) => !s.returned && LockFree(s)
    case BeginSend(_) => !s.returned && LockFree(s)
    case Return => !s.returned && LockFree(s)
    case SendChunk(k) => s.sending.Running? && 1 <= k <= s.sending.left
    case Block => s.sending.Running? && s.sending.left > 0
    case ContextWakes => s.sending.Blocked? && s.contextDone
    case EndSend => s.sending == Running(0)
    case FinishByOther => true
    case CancelContext => s.entering > 0
    case LockAndFinish => s.waiting > 0 && LockFree(s)
    case Spawned => s.spawned.HeadersThenClose? || s.spawned.CloseOnly?
    case Grant => s.sending.Blocked?
    case ContextEnds => true
  }

  function SendHeaders(s: Stream): Stream { s.(out := s.out + [Headers], sentHeaders := true) }

  function Do(s: Stream, step: Step): Stream
    requires Enabled(s, step)
  {
    match step
    case SetHeader(send) => if !s.sentHeaders && send then SendHeaders(s) else s
    case BeginSend(n) =>
      var s' := if s.sentHeaders then s else SendHeaders(s);
      if !s.serverStreaming && s.numSent == 1 then s' else s'.(numSent := s.numSent + 1, begun := s.begun + [n], sending := Running(n))
    case Return => s.(returned := true, entering := s.entering + 1)
    case SendChunk(k) => s.(out := s.out + [Data], sending := Running(s.sending.left - k))
    case Block => s.(sending := Blocked(s.sending.left))
    case ContextWakes => s.(sending := NotSending)
    case EndSend => s.(sending := NotSending)
    case FinishByOther => s.(foreign := true, entering := s.entering + 1)
    case CancelContext => s.(entering := s.entering - 1, waiting := s.waiting + 1, contextDone := true)
    case LockAndFinish =>
      if s.closed then s.(waiting := s.waiting - 1)
      else s.(waiting := s.waiting - 1, closed := true, sentHeaders := true,
              spawned := if s.sentHeaders then CloseOnly else HeadersThenClose)
    case Spawned =>
      if s.spawned.HeadersThenClose? then s.(out := s.out + [Headers], spawned := CloseOnly)
      else s.(out := s.out + [Close], spawned := Finished)
    case Grant => s.(sending := Running(s.sending.left))
    case ContextEnds => s.(contextDone := true)
  }

  ghost predicate Reaches(s: Stream, steps: seq<Step>, t: Stream)
    decreases steps
  {
    if steps == [] then s == t else Enabled(s, steps[0]) && Reaches(Do(s, steps[0]), steps[1..], t)
  }

  function Count(out: seq<Out>, o: Out): nat { multiset(out)[o] }

  /** Every Close has Headers somewhere before it. */
  predicate HeadersBeforeClose(out: seq<Out>) {
    forall j :: 0 <= j < |out| && out[j] == Close ==> Headers in out[..j]
  }

  /** What a stream should look like on the wire: headers, then data, then the close. */
  predicate WellFormed(out: seq<Out>) {
    forall i :: 0 <= i < |out| ==>
      && (i == 0 <==> out[i] == Headers)
      && (out[i] == Close ==> i == |out| - 1)
  }

  /** Headers and the close are sent, or still with the goroutine, exactly as the flags say. */
  predicate CountInv(s: Stream) {
    && Count(s.out, Headers) + (if s.spawned.HeadersThenClose? then 1 else 0) == (if s.sentHeaders then 1 else 0)
    && Count(s.out, Close) == (if s.spawned.Finished? then 1 else 0)
    && (s.closed <==> !s.spawned.NotSpawned?)
    && (s.closed ==> s.sentHeaders)
    && (!LockFree(s) ==> s.sentHeaders && !s.returned)
    && (s.returned || s.foreign ==> s.closed || s.waiting > 0 || s.entering > 0)
    && (s.waiting > 0 || s.closed ==> s.contextDone)
    && s.numSent == |s.begun| && (s.begun != [] ==> s.sentHeaders) && (!s.serverStreaming ==> s.numSent <= 1)
    && HeadersBeforeClose(s.out)
  }

  predicate NormalInv(s: Stream) {
    !s.foreign ==>
      && (s.entering > 0 || s.waiting > 0 || s.closed ==> s.returned)
      && (s.spawned.HeadersThenClose? ==> s.out == [])
      && WellFormed(s.out)
  }

  predicate Inv(s: Stream) { CountInv(s) && NormalInv(s) }

  lemma CountSnoc(out: seq<Out>, o: Out, x: Out)
    ensures Count(out + [x], o) == Count(out, o) + if x == o then 1 else 0
    ensures Count(out, o) > 0 <==> o in out
  {
  }

  lemma BeforeSnoc(out: seq<Out>, x: Out)
    requires HeadersBeforeClose(out) && (x == Close ==> Headers in out)
    ensures HeadersBeforeClose(out + [x])
  {
    forall j | 0 <= j <= |out| && (out + [x])[j] == Close ensures Headers in (out + [x])[..j] {
      assert (out + [x])[..j] == out[..j];
      assert out[..|out|] == out;
    }
  }

  lemma WellFormedStart(out: seq<Out>)
    requires WellFormed(out)
    ensures out == [] <==> Count(out, Headers) == 0
    ensures out != [] && Count(out, Close) == 0 ==> WellFormed(out + [Data]) && WellFormed(out + [Close])
  {
    assert out != [] ==> out[0] in out;
    assert forall i :: 0 <= i < |out| ==> out[i] in multiset(out);
  }

  lemma StepCounts(s: Stream, step: Step)
    requires CountInv(s) && Enabled(s, step)
    ensures CountInv(Do(s, step)) && Do(s, step).serverStreaming == s.serverStreaming
  {
    hide HeadersBeforeClose, Count;
    forall o, x ensures Count(s.out + [x], o) == Count(s.out, o) + (if x == o then 1 else 0) {
      CountSnoc(s.out, o, x);
    }
    CountSnoc(s.out, Headers, Data);
    BeforeSnoc(s.out, Headers);
    BeforeSnoc(s.out, Data);
    if Headers in s.out {
      BeforeSnoc(s.out, Close);
    }
  }

  lemma StepNormal(s: Stream, step: Step)
    requires Inv(s) && Enabled(s, step)
    ensures NormalInv(Do(s, step))
  {
    hide HeadersBeforeClose, Count;
    if !s.foreign {
      WellFormedStart(s.out);
    }
  }

  lemma StepInv(s: Stream, step: Step)
    requires Inv(s) && Enabled(s, step)
    ensures Inv(Do(s, step)) && Do(s, step).serverStreaming == s.serverStreaming
  {
    StepCounts(s, step);
    StepNormal(s, step);
  }

  lemma {:induction false} RunInv(s: Stream, steps: seq<Step>, t: Stream)
    requires Inv(s) && Reaches(s, steps, t)
    ensures Inv(t) && t.serverStreaming == s.serverStreaming
    decreases steps
  {
    if steps != [] {
      StepInv(s, steps[0]);
      RunInv(Do(s, steps[0]), steps[1..], t);
    }
  }

  predicate FinishCalled(s: Stream) { s.returned || s.foreign }

  /** At no point of any run has the stream sent headers or a close twice; and when a stream that
      has been finished has nothing left to do but its handler's own calls, it has sent each
      exactly once, headers first. */
  lemma CompletesOnce(serverStreaming: bool, steps: seq<Step>, t: Stream)
    requires Reaches(Init(serverStreaming), steps, t)
    ensures Count(t.out, Headers) <= 1 && Count(t.out, Close) <= 1 && HeadersBeforeClose(t.out)
    ensures FinishCalled(t) && LockFree(t)
            && !Enabled(t, CancelContext) && !Enabled(t, LockAndFinish) && !Enabled(t, Spawned) ==>
              Count(t.out, Headers) == 1 && Count(t.out, Close) == 1
  {
    RunInv(Init(serverStreaming), steps, t);
  }

  /** A method that is not server-streaming never sends a second response: once one has been begun,
      another attempt changes nothing. */
  lemma OneResponse(steps: seq<Step>, t: Stream)
    requires Reaches(Init(false), steps, t)
    ensures |t.begun| <= 1
    ensures forall n :: |t.begun| == 1 && Enabled(t, BeginSend(n)) ==> Do(t, BeginSend(n)) == t
  {
    RunInv(Init(false), steps, t);
  }

  /** As long as only the handler's return has finished the stream, the wire is well formed: the
      headers come first, and the close comes after all the data. */
  lemma NormalCompletion(serverStreaming: bool, steps: seq<Step>, t: Stream)
    requires Reaches(Init(serverStreaming), steps, t) && !t.foreign
    ensures WellFormed(t.out)
  {
    RunInv(Init(serverStreaming), steps, t);
  }

  /** Otherwise the handler may still be sending. Its data is put behind the headers exactly if
      the headers are not the spawned goroutine's to send, and behind the close exactly if that
      goroutine has finished; so a chunk keeps the wire well formed exactly if no goroutine has
      been spawned, or it has only the close left to send. */
  lemma DataOrder(serverStreaming: bool, steps: seq<Step>, t: Stream, k: nat)
    requires Reaches(Init(serverStreaming), steps, t) && Enabled(t, SendChunk(k))
    ensures Headers in t.out <==> !t.spawned.HeadersThenClose?
    ensures Close in t.out <==> t.spawned.Finished?
    ensures WellFormed(t.out) ==>
              (WellFormed(Do(t, SendChunk(k)).out) <==> t.spawned.NotSpawned? || t.spawned.CloseOnly?)
  {
    RunInv(Init(serverStreaming), steps, t);
    CountSnoc(t.out, Headers, Data);
    CountSnoc(t.out, Close, Data);
    var out := Do(t, SendChunk(k)).out;
    assert out == t.out + [Data];
    if WellFormed(t.out) {
      WellFormedStart(t.out);
    }
    if WellFormed(out) {
      assert out[0] == Headers;
      assert Headers in t.out;
      assert forall i :: 0 <= i < |t.out| ==> out[i] == t.out[i];
      assert forall i :: 0 <= i < |t.out| ==> t.out[i] != Close;
    }
  }

  /** One more step of a run. */
  lemma {:induction false} Then(s: Stream, steps: seq<Step>, t: Stream, step: Step)
    requires Reaches(s, steps, t) && Enabled(t, step)
    ensures Reaches(s, steps + [step], Do(t, step))
    decreases steps
  {
    if steps == [] {
      assert [step][1..] == [];
    } else {
      assert (steps + [step])[1..] == steps[1..] + [step];
      Then(Do(s, steps[0]), steps[1..], t, step);
    }
  }

  /** A Cancel arrives before the handler has sent anything, and takes the lock first. */
  lemma CancelledRun(n: nat) returns (steps: seq<Step>, t: Stream)
    ensures Reaches(Init(true), steps, t) && t.out == [] && t.spawned.HeadersThenClose? && t.sending == Running(n)
  {
    var s := Init(true);
    Then(s, [], s, FinishByOther);
    steps, t := [] + [FinishByOther], Do(s, FinishByOther);
    Then(s, steps, t, CancelContext);
    steps, t := steps + [CancelContext], Do(t, CancelContext);
    Then(s, steps, t, LockAndFinish);
    steps, t := steps + [LockAndFinish], Do(t, LockAndFinish);
    Then(s, steps, t, BeginSend(n));
    steps, t := steps + [BeginSend(n)], Do(t, BeginSend(n));
  }

  /** The handler then sends before the goroutine runs: data ahead of the headers, so the result is
      not well formed. */
  lemma CancelledDataOvertakesHeaders() returns (steps: seq<Step>, t: Stream)
    ensures Reaches(Init(true), steps, t)
    ensures t.out == [Data, Headers, Close]
  {
    var s := Init(true);
    steps, t := CancelledRun(1);
    Then(s, steps, t, SendChunk(1));
    steps, t := steps + [SendChunk(1)], Do(t, SendChunk(1));
    Then(s, steps, t, Spawned);
    steps, t := steps + [Spawned], Do(t, Spawned);
    Then(s, steps, t, Spawned);
    steps, t := steps + [Spawned], Do(t, Spawned);
  }

  // ---------------------------------------------------------------- the lock is always released

  /** Steps the holder of the lock takes by itself. */
  predicate HolderStep(step: Step) { step.SendChunk? || step.Block? || step.ContextWakes? || step.EndSend? }

  /** A bound on what the holder does before it releases the lock, unless it is granted credit. */
  function HolderWork(s: Stream): nat {
    match s.sending
    case NotSending => 0
    case Running(left) => 2 * left + 2
    case Blocked(left) => 2 * left + 1
  }

  lemma HolderWorkDrops(s: Stream, step: Step)
    requires Enabled(s, step)
    ensures HolderStep(step) ==> HolderWork(Do(s, step)) < HolderWork(s)
    ensures !HolderStep(step) && !step.BeginSend? && !step.Grant? ==> HolderWork(Do(s, step)) == HolderWork(s)
  {
  }

  ghost predicate HolderCanMove(s: Stream) { exists step :: HolderStep(step) && Enabled(s, step) }

  lemma HolderMoves(s: Stream)
    requires !LockFree(s)
    ensures HolderCanMove(s) <==> !(s.sending.Blocked? && !s.contextDone)
  {
    assert HolderStep(EndSend) && HolderStep(Block) && HolderStep(ContextWakes);
    assert Enabled(s, EndSend) || Enabled(s, Block) || Enabled(s, ContextWakes) || s.sending.Blocked?;
  }

  /** The receive loop never waits for the lock in vain. A holder of the lock depends on a window
      update, which only the receive loop can bring, exactly if it is short of credit and the
      context is live; but `finishStream` cancels the context before it asks for the lock. So as
      long as a call waits, the lock is free or its holder can go on by itself, and for no longer
      than its bound. */
  lemma LockIsReleased(serverStreaming: bool, steps: seq<Step>, t: Stream)
    requires Reaches(Init(serverStreaming), steps, t)
    ensures !LockFree(t) ==> (HolderCanMove(t) <==> !(t.sending.Blocked? && !t.contextDone))
    ensures t.waiting > 0 ==> Enabled(t, LockAndFinish) || HolderCanMove(t)
    ensures forall step :: HolderStep(step) && Enabled(t, step) ==> HolderWork(Do(t, step)) < HolderWork(t)
    ensures forall step :: Enabled(t, step) && !step.BeginSend? && !step.Grant? ==> HolderWork(Do(t, step)) <= HolderWork(t)
    ensures LockFree(t) <==> HolderWork(t) == 0
  {
    RunInv(Init(serverStreaming), steps, t);
    if !LockFree(t) {
      HolderMoves(t);
    }
    forall step | Enabled(t, step) {
      HolderWorkDrops(t, step);
    }
  }

  /** Steps that need neither the peer nor a deadline nor the handler's next call. */
  predicate OnItsOwn(step: Step) { HolderStep(step) || step.CancelContext? || step.LockAndFinish? || step.Spawned? }

  predicate AllOnTheirOwn(steps: seq<Step>) { forall i :: 0 <= i < |steps| ==> OnItsOwn(steps[i]) }

  lemma {:induction false} Release(s: Stream, steps: seq<Step>, t: Stream) returns (steps': seq<Step>, t': Stream)
    requires Reaches(s, steps, t) && AllOnTheirOwn(steps) && Inv(t) && t.contextDone
    ensures Reaches(s, steps', t') && AllOnTheirOwn(steps') && Inv(t') && LockFree(t')
    ensures t'.waiting == t.waiting && t'.spawned == t.spawned
    decreases HolderWork(t)
  {
    hide Inv;
    if LockFree(t) {
      return steps, t;
    }
    var step := if t.sending.Blocked? then ContextWakes else if t.sending.left == 0 then EndSend else SendChunk(t.sending.left);
    Then(s, steps, t, step);
    StepInv(t, step);
    steps', t' := Release(s, steps + [step], Do(t, step));
  }

  lemma {:induction false} CloseIsSent(s: Stream, steps: seq<Step>, t: Stream) returns (steps': seq<Step>, t': Stream)
    requires Reaches(s, steps, t) && AllOnTheirOwn(steps) && Inv(t) && t.closed
    ensures Reaches(s, steps', t') && AllOnTheirOwn(steps') && Inv(t') && t'.spawned.Finished?
    decreases if t.spawned.HeadersThenClose? then 2 else if t.spawned.CloseOnly? then 1 else 0
  {
    if t.spawned.Finished? {
      return steps, t;
    }
    assert Enabled(t, Spawned);
    hide Inv;
    Then(s, steps, t, Spawned);
    StepInv(t, Spawned);
    steps', t' := CloseIsSent(s, steps + [Spawned], Do(t, Spawned));
  }

  lemma Closing(s: Stream) returns (steps: seq<Step>, t: Stream)
    requires Inv(s) && FinishCalled(s)
    ensures Reaches(s, steps, t) && AllOnTheirOwn(steps) && Inv(t) && t.closed
  {
    steps, t := [], s;
    assert s.closed || s.waiting > 0 || s.entering > 0;
    assert s.waiting > 0 ==> s.contextDone;
    hide Inv;
    if !s.closed {
      if s.waiting == 0 {
        Then(s, steps, t, CancelContext);
        StepInv(t, CancelContext);
        steps, t := steps + [CancelContext], Do(t, CancelContext);
      }
      steps, t := Release(s, steps, t);
      Then(s, steps, t, LockAndFinish);
      StepInv(t, LockAndFinish);
      steps, t := steps + [LockAndFinish], Do(t, LockAndFinish);
    }
  }

  /** Once `finishStream` has been called, by whomever, nothing the peer does or fails to do can
      keep the stream from completing: without any window update, and without the handler
      returning, it goes on to send the headers and the close. */
  lemma FinishCompletes(serverStreaming: bool, before: seq<Step>, s: Stream) returns (steps: seq<Step>, t: Stream)
    requires Reaches(Init(serverStreaming), before, s) && FinishCalled(s)
    ensures Reaches(s, steps, t) && AllOnTheirOwn(steps)
    ensures Count(t.out, Headers) == 1 && Count(t.out, Close) == 1
  {
    RunInv(Init(serverStreaming), before, s);
    steps, t := Closing(s);
    steps, t := CloseIsSent(s, steps, t);
  }

  // ---------------------------------------------------------------- the stream object

  /** The sections of the server stream's methods that hold `writeMu`, and the goroutine. */
  class TunnelServerStream {
    const isServerStream: bool
    var numSent: nat
    ghost var begun: seq<nat>
    var sending: Sending
    var contextDone: bool
    var returned: bool
    var foreign: bool
    var entering: nat
    var waiting: nat
    var sentHeaders: bool
    var closed: bool
    var spawned: Goroutine
    var out: seq<Out>

    ghost function State(): Stream
      reads this
    {
      Stream(isServerStream, numSent, begun, sending, contextDone, returned, foreign, entering, waiting, sentHeaders, closed, spawned, out)
    }

    constructor (isServerStream: bool)
      ensures State() == Init(isServerStream) && Inv(State())
    {
      this.isServerStream := isServerStream;
      numSent, begun, sending, contextDone, returned, foreign, entering, waiting := 0, [], NotSending, false, false, false, 0, 0;
      sentHeaders, closed, spawned, out := false, false, NotSpawned, [];
    }

    method SendHeadersLocked()
      modifies this`out, this`sentHeaders
      ensures State() == SendHeaders(old(State()))
    {
      out := out + [Headers];
      sentHeaders := true;
    }

    /** `setHeader`; false is the "already sent headers" error. */
    method SetHeader(send: bool) returns (ok: bool)
      requires Inv(State()) && Enabled(State(), Step.SetHeader(send))
      modifies this
      ensures State() == Do(old(State()), Step.SetHeader(send)) && Inv(State())
      ensures ok <==> !old(sentHeaders)
      ensures out == old(out) + if send && ok then [Headers] else []
      ensures sentHeaders <==> old(sentHeaders) || send
    {
      StepInv(State(), Step.SetHeader(send));
      if sentHeaders {
        return false;
      }
      if send {
        SendHeadersLocked();
      }
      return true;
    }

    /** `SendMsg` up to the sending of the data; false is the "already sent response" error. */
    method StartMsg(n: nat) returns (ok: bool)
      requires Inv(State()) && Enabled(State(), BeginSend(n))
      modifies this
      ensures State() == Do(old(State()), BeginSend(n)) && Inv(State())
      ensures ok <==> isServerStream || old(numSent) != 1
      ensures out == old(out) + (if old(sentHeaders) then [] else [Headers]) && sentHeaders
      ensures if ok then begun == old(begun) + [n] && sending == Running(n) else begun == old(begun) && sending == old(sending)
    {
      StepInv(State(), BeginSend(n));
      if !sentHeaders {
        SendHeadersLocked();
      }
      if !isServerStream && numSent == 1 {
        return false;
      }
      numSent, begun := numSent + 1, begun + [n];
      sending := Running(n);
      return true;
    }

    /** `finishStream`, once it has the lock. */
    method FinishLocked()
      requires Inv(State()) && Enabled(State(), LockAndFinish)
      modifies this
      ensures State() == Do(old(State()), LockAndFinish) && Inv(State())
      ensures closed && out == old(out) && waiting == old(waiting) - 1
      ensures spawned == if old(closed) then old(spawned) else if old(sentHeaders) then CloseOnly else HeadersThenClose
    {
      StepInv(State(), LockAndFinish);
      waiting := waiting - 1;
      if closed {
        return;
      }
      var sendHeaders := !sentHeaders;
      if sendHeaders {
        sentHeaders := true;
      }
      spawned := if sendHeaders then HeadersThenClose else CloseOnly;
      closed := true;
    }
  }
}
