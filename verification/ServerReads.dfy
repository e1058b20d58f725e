/** A server's reads while the rest of the program runs on. `readMsgLocked` looks at the context,
    dequeues, and at the end of the queue loads the holder of the final error, in separate steps.
    Two parties end the queue: `halfClose`, which sets the holder and then closes the receiver,
    and the context watcher, which cancels the receiver once the context is done, by a timeout
    or by `finishStream`. */
module ServerReads {
  import opened Framing
  import opened Reader
  import opened Wrappers

  /** A call of `readMsgLocked`, once it has returned. `checked` is what its last look at the
      context said (whether it was done), and `loaded` what it found in the holder. A call that
      finds an earlier error looks at neither. */
  datatype Look = Look(result: Result, checked: Option<bool>, loaded: Option<Option<ReadError>>)

  /** `readMu` lets one reader in at a time; `st` is what it has assembled of a message. */
  datatype Pc = Resting | AtCheck(st: Assembly) | InDequeue(st: Assembly) | AtLoad

  /** `first` is the first look of a non-streaming read that is at its second. `taken` are the
      frames dequeued so far, `looks` the calls of `readMsgLocked` and `returned` those of `readMsg`. */
  datatype Reading = Reading(
    items: seq<Frame>, closed: bool, cancelled: bool, contextDone: bool, holder: Option<ReadError>,
    streaming: bool, pc: Pc, first: Option<Result>, readErr: Option<ReadError>,
    taken: seq<Frame>, looks: seq<Look>, returned: seq<Result>)

  function Initial(streaming: bool): Reading {
    Reading([], false, false, false, None, streaming, Resting, None, None, [], [], [])
  }

  datatype Step =
    | Arrive(f: Frame) | SetHolder(e: ReadError) | CloseReceiver | ContextExpires | WatcherCancels
    | Begin | CheckContext | TakeFrame | DequeueEnds | LoadHolder

  predicate Enabled(s: Reading, step: Step) {
    match step
    case Arrive(_) => true
    case SetHolder(_) => s.holder.None?
    case CloseReceiver => s.holder.Some?
    case ContextExpires => true
    case WatcherCancels => s.contextDone
    case Begin => s.pc.Resting?
    case CheckContext => s.pc.AtCheck?
    case TakeFrame => s.pc.InDequeue? && !s.cancelled && s.items != []
    case DequeueEnds => s.pc.InDequeue? && (s.cancelled || (s.items == [] && s.closed))
    case LoadHolder => s.pc.AtLoad?
  }

  /** A call of `readMsgLocked` returns: an error is kept, and `readMsg` goes on as it does. */
  function Return(s: Reading, l: Look): Reading {
    var s1 := s.(looks := s.looks + [l], readErr := if l.result.err.Some? then l.result.err else s.readErr,
                 pc := Resting, first := None);
    if s.streaming || (s.first.None? && l.result.err.Some?) then s1.(returned := s.returned + [l.result])
    else if s.first.None? then s1.(pc := AtCheck(Idle), first := Some(l.result))
    else if l.result.err.None? then
      s1.(readErr := Some(MultipleMessages), returned := s.returned + [Result([], false, Some(MultipleMessages))])
    else if l.result.err != Some(Eof) || !l.result.ok then
      s1.(returned := s.returned + [Result([], l.result.ok, l.result.err)])
    else s1.(returned := s.returned + [s.first.value])
  }

  /** What a step does, and the call of `readMsgLocked` that it completes, if any. */
  function Act(s: Reading, step: Step): (Reading, Option<Look>)
    requires Enabled(s, step)
  {
    match step
    case Arrive(f) => (if s.closed then s else s.(items := s.items + [f]), None)
    case SetHolder(e) => (s.(holder := Some(e)), None)
    case CloseReceiver => (s.(closed := true), None)
    case ContextExpires => (s.(contextDone := true), None)
    case WatcherCancels => (s.(cancelled := true, items := []), None)
    case Begin =>
      if s.readErr.Some? then (s, Some(Look(Result([], true, s.readErr), None, None)))
      else (s.(pc := AtCheck(Idle)), None)
    case CheckContext =>
      if s.contextDone then (s, Some(Look(Result([], true, Some(ContextEnded)), Some(true), None)))
      else (s.(pc := InDequeue(s.pc.st)), None)
    case TakeFrame =>
      var p := Feed(Parse([], s.pc.st), s.items[0]);
      var s' := s.(items := s.items[1..], taken := s.taken + [s.items[0]], pc := AtCheck(p.st));
      if p.out != [] then (s', Some(Look(Result(p.out[0], true, None), Some(false), None)))
      else if p.st.Failed? then (s', Some(Look(Result([], false, Some(Malformed(p.st.error))), Some(false), None)))
      else (s', None)
    case DequeueEnds => (s.(pc := AtLoad), None)
    case LoadHolder => (s, Some(Look(Result([], true, s.holder), Some(false), Some(s.holder))))
  }

  function Do(s: Reading, step: Step): Reading
    requires Enabled(s, step)
  {
    var (s', l) := Act(s, step);
    if l.Some? then Return(s', l.value) else s'
  }

  ghost predicate Reaches(s: Reading, steps: seq<Step>, t: Reading)
    decreases steps
  {
    if steps == [] then s == t else Enabled(s, steps[0]) && Reaches(Do(s, steps[0]), steps[1..], t)
  }

  // ---------------------------------------------------------------- invariant

  /** The data of all looks that report no error: what the reader takes for messages. */
  function DataOf(looks: seq<Look>): seq<Message> {
    if looks == [] then []
    else
      var l := looks[|looks| - 1];
      DataOf(looks[..|looks| - 1]) + if l.result.err.None? then [l.result.data] else []
  }

  /** Its check saw a live context and its load an unset holder. */
  predicate SawNoEnd(l: Look) { l.checked == Some(false) && l.loaded == Some(None) }

  ghost predicate Phantom(looks: seq<Look>) { exists l :: l in looks && SawNoEnd(l) }

  /** The end of the queue has a cause, and the cancelled queue has an ended context. */
  predicate EndInv(s: Reading) {
    && (s.closed ==> s.holder.Some?)
    && (s.cancelled ==> s.contextDone)
    && (s.pc.AtLoad? ==> s.holder.Some? || s.cancelled)
    && (s.readErr.Some? ==> s.pc.Resting?)
    && (s.first.Some? ==> !s.streaming && s.first.value.err.None? && !s.pc.Resting?)
  }

  /** The error a reader may be left with once a phantom has been returned. */
  predicate AfterPhantom(s: Reading) {
    s.readErr.None? || s.readErr == Some(ContextEnded) || (!s.streaming && s.readErr == Some(MultipleMessages))
  }

  /** What has been looked up so far is what the frames taken contain, and the reader's position
      is that of the parser, until a phantom has been returned. */
  ghost predicate DataInv(s: Reading) {
    var p := ParseAll(s.taken);
    && DataOf(s.looks) == p.out + (if Phantom(s.looks) then [[]] else [])
    && (Phantom(s.looks) ==> s.contextDone && (s.pc.Resting? || s.pc.AtCheck?) && AfterPhantom(s))
    && (!Phantom(s.looks) && s.readErr.None? ==>
          match s.pc
          case Resting => p.st == Idle
          case AtCheck(st) => p.st == st && !st.Failed?
          case InDequeue(st) => p.st == st && !st.Failed?
          case AtLoad => true)
  }

  /** A non-streaming read is over with its second look, whose error is kept. */
  ghost predicate OnceInv(s: Reading) {
    var ds := DataOf(s.looks);
    if s.streaming then
      && |s.returned| == |s.looks|
      && forall i :: 0 <= i < |s.looks| ==> s.returned[i] == s.looks[i].result
    else
      && (s.readErr.None? ==>
            ds == (if s.first.Some? then [s.first.value.data] else []) && s.returned == [])
      && |ds| <= 2
      && (Result([], false, Some(MultipleMessages)) in s.returned <==> |ds| == 2)
      && (forall r :: r in s.returned && r.err.None? ==> ds == [r.data] && !Phantom(s.looks))
      && (Phantom(s.looks) && |ds| == 1 ==>
            && (s.readErr.None? || s.readErr == Some(ContextEnded))
            && forall r :: r in s.returned ==> r == Result([], true, Some(ContextEnded)))
  }

  ghost predicate Inv(s: Reading) { EndInv(s) && DataInv(s) && OnceInv(s) }

  lemma LooksSnoc(looks: seq<Look>, l: Look)
    ensures DataOf(looks + [l]) == DataOf(looks) + if l.result.err.None? then [l.result.data] else []
    ensures Phantom(looks + [l]) <==> Phantom(looks) || SawNoEnd(l)
  {
    assert (looks + [l])[..|looks|] == looks;
    if Phantom(looks) {
      var k :| k in looks && SawNoEnd(k);
      assert k in looks + [l];
    }
    assert l in looks + [l];
  }

  lemma ReturnEnd(s: Reading, l: Look)
    requires (s.closed ==> s.holder.Some?) && (s.cancelled ==> s.contextDone)
    requires (s.first.Some? ==> !s.streaming) && (s.readErr.Some? ==> l.result.err.Some?)
    ensures EndInv(Return(s, l)) && Return(s, l).streaming == s.streaming
  {
  }

  lemma StepEnd(s: Reading, step: Step)
    requires EndInv(s) && Enabled(s, step)
    ensures EndInv(Do(s, step)) && Do(s, step).streaming == s.streaming
  {
    hide Return;
    var (s', l) := Act(s, step);
    if l.Some? {
      ReturnEnd(s', l.value);
    }
  }

  /** What a call of `readMsgLocked` returns fits what has been parsed so far. */
  ghost predicate Fits(s: Reading, l: Look) {
    var p, phantom := ParseAll(s.taken), Phantom(s.looks) || SawNoEnd(l);
    && DataOf(s.looks) + (if l.result.err.None? then [l.result.data] else []) == p.out + (if phantom then [[]] else [])
    && (phantom ==> s.contextDone)
    && (l.result.err.None? && !phantom ==> p.st == Idle)
    && (s.readErr.Some? ==> l.result.err.Some?)
    && (!l.result.ok ==> l.result.err.Some? && l.result.err.value.Malformed?)
    && (SawNoEnd(l) ==> l.result.err.None? && s.readErr.None?)
    && (Phantom(s.looks) ==>
          && AfterPhantom(s)
          && l.result == Result([], true, if s.readErr.Some? then s.readErr else Some(ContextEnded)))
  }

  lemma ReturnData(s: Reading, l: Look)
    requires Fits(s, l)
    ensures DataInv(Return(s, l))
  {
    hide ParseAll, Phantom, DataOf, SawNoEnd;
    LooksSnoc(s.looks, l);
  }

  lemma ParseNext(taken: seq<Frame>, f: Frame)
    ensures var p, q := ParseAll(taken), Feed(Parse([], ParseAll(taken).st), f);
            && ParseAll(taken + [f]) == Parse(p.out + q.out, q.st)
            && (q.out == [] || (q.out == [q.out[0]] && q.st == Idle))
  {
    FeedSnoc(START, taken, f);
    var p := ParseAll(taken);
    assert Feed(p, f).out == p.out + Feed(Parse([], p.st), f).out;
  }

  /** A frame that completes a message, breaks it off, or just adds to it. */
  lemma FoundFits(s: Reading, s': Reading, m: Message)
    requires !Phantom(s.looks) && s'.looks == s.looks && s'.readErr.None?
    requires ParseAll(s'.taken) == Parse(DataOf(s.looks) + [m], Idle)
    ensures Fits(s', Look(Result(m, true, None), Some(false), None))
  {
    hide Phantom, DataOf, ParseAll;
  }

  lemma BrokenFits(s: Reading, s': Reading, e: ParseError)
    requires !Phantom(s.looks) && s'.looks == s.looks && s'.readErr.None?
    requires ParseAll(s'.taken) == Parse(DataOf(s.looks), Failed(e))
    ensures Fits(s', Look(Result([], false, Some(Malformed(e))), Some(false), None))
  {
    hide Phantom, DataOf, ParseAll;
  }

  lemma TakeFits(s: Reading)
    requires Enabled(s, TakeFrame) && s.readErr.None? && !Phantom(s.looks)
    requires ParseAll(s.taken) == Parse(DataOf(s.looks), s.pc.st)
    ensures var (s', l) := Act(s, TakeFrame); if l.Some? then Fits(s', l.value) else DataInv(s')
  {
    hide Phantom, DataOf, ParseAll, Feed, AfterPhantom, Fits;
    var f, ds := s.items[0], DataOf(s.looks);
    var q := Feed(Parse([], s.pc.st), f);
    ParseNext(s.taken, f);
    var s' := s.(items := s.items[1..], taken := s.taken + [f], pc := AtCheck(q.st));
    if q.out != [] {
      FoundFits(s, s', q.out[0]);
    } else {
      assert ds + q.out == ds;
      if q.st.Failed? {
        BrokenFits(s, s', q.st.error);
      } else {
        assert ds + [] == ds;
      }
    }
  }

  lemma ActFits(s: Reading, step: Step)
    requires EndInv(s) && DataInv(s) && Enabled(s, step)
    ensures var (s', l) := Act(s, step); if l.Some? then Fits(s', l.value) else DataInv(s')
  {
    hide Phantom, DataOf, ParseAll;
    if step.TakeFrame? {
      TakeFits(s);
    }
  }

  lemma StepData(s: Reading, step: Step)
    requires EndInv(s) && DataInv(s) && Enabled(s, step)
    ensures DataInv(Do(s, step))
  {
    hide Act, Return, DataInv, Fits;
    ActFits(s, step);
    var (s', l) := Act(s, step);
    if l.Some? {
      ReturnData(s', l.value);
    }
  }

  lemma ReturnOnce(s: Reading, l: Look)
    requires OnceInv(s) && Fits(s, l) && (s.first.Some? ==> s.readErr.None? && s.first.value.err.None?)
    requires s.first.Some? && l.result.err == Some(Eof) ==> !Phantom(s.looks) && !SawNoEnd(l)
    ensures OnceInv(Return(s, l))
  {
    hide ParseAll, Phantom, DataOf, SawNoEnd;
    LooksSnoc(s.looks, l);
  }

  lemma StepOnce(s: Reading, step: Step)
    requires Inv(s) && Enabled(s, step)
    ensures OnceInv(Do(s, step))
  {
    hide Phantom, DataOf, Return, Fits, ParseAll;
    ActFits(s, step);
    var (s', l) := Act(s, step);
    if l.Some? {
      ReturnOnce(s', l.value);
    }
  }

  lemma StepInv(s: Reading, step: Step)
    requires Inv(s) && Enabled(s, step)
    ensures Inv(Do(s, step)) && Do(s, step).streaming == s.streaming
  {
    StepEnd(s, step);
    StepData(s, step);
    StepOnce(s, step);
  }

  lemma {:induction false} RunInv(s: Reading, steps: seq<Step>, t: Reading)
    requires Inv(s) && Reaches(s, steps, t)
    ensures Inv(t) && t.streaming == s.streaming
    decreases steps
  {
    hide Inv, Do, Enabled;
    if steps != [] {
      StepInv(s, steps[0]);
      RunInv(Do(s, steps[0]), steps[1..], t);
    }
  }

  lemma InitInv(streaming: bool)
    ensures Inv(Initial(streaming))
  {
  }

  // ---------------------------------------------------------------- over every run

  lemma ReachableInv(streaming: bool, steps: seq<Step>, t: Reading)
    requires Reaches(Initial(streaming), steps, t)
    ensures Inv(t) && t.streaming == streaming
  {
    InitInv(streaming);
    RunInv(Initial(streaming), steps, t);
  }

  function ContextError(s: Reading): Option<ReadError> { if s.contextDone then Some(ContextEnded) else None }

  /** Whenever the queue is at its end, the final error is set or the context has ended. */
  lemma EndIsSettled(streaming: bool, steps: seq<Step>, t: Reading)
    requires Reaches(Initial(streaming), steps, t) && (t.closed || t.cancelled || t.pc.AtLoad?)
    ensures Settled(ContextError(t), t.holder)
  {
    ReachableInv(streaming, steps, t);
  }

  /** Over every interleaving: what the looks pass for messages are the messages in the frames
      taken, in order, and then one empty message that nobody sent exactly if some look checked a
      live context and loaded an unset holder. A streaming read returns what its look returns. */
  lemma ReadsExact(streaming: bool, steps: seq<Step>, t: Reading)
    requires Reaches(Initial(streaming), steps, t)
    ensures DataOf(t.looks) == ParseAll(t.taken).out + (if Phantom(t.looks) then [[]] else [])
    ensures streaming ==>
              |t.returned| == |t.looks| && forall i :: 0 <= i < |t.looks| ==> t.returned[i] == t.looks[i].result
  {
    ReachableInv(streaming, steps, t);
  }

  /** A reader that can still be handed the phantom. */
  predicate Exposed(s: Reading) {
    s.readErr.None? && s.holder.None? && (s.contextDone ==> s.pc.InDequeue? || s.pc.AtLoad?)
  }

  lemma ReturnLooks(s: Reading, l: Look)
    ensures Return(s, l).looks == s.looks + [l]
  {
  }

  lemma ReturnCovered(s: Reading, l: Look)
    requires !SawNoEnd(l) && (l.result.err.Some? || s.readErr.Some? || s.holder.Some? || s.contextDone)
    ensures !Exposed(Return(s, l)) && (Phantom(Return(s, l).looks) ==> Phantom(s.looks))
  {
    hide Phantom, DataOf, SawNoEnd;
    ReturnLooks(s, l);
    LooksSnoc(s.looks, l);
  }

  lemma CoveredStep(s: Reading, step: Step)
    requires Inv(s) && !Exposed(s) && Enabled(s, step)
    ensures !Exposed(Do(s, step)) && (Phantom(Do(s, step).looks) ==> Phantom(s.looks))
  {
    hide Phantom, Feed, Return, DataInv, OnceInv;
    var (s', l) := Act(s, step);
    assert s'.looks == s.looks;
    if l.Some? {
      ReturnCovered(s', l.value);
    }
  }

  lemma {:induction false} CoveredRun(s: Reading, steps: seq<Step>, t: Reading)
    requires Inv(s) && !Exposed(s) && Reaches(s, steps, t)
    ensures Phantom(t.looks) ==> Phantom(s.looks)
    decreases steps
  {
    hide Inv, Exposed, Do, Enabled, Phantom;
    if steps != [] {
      CoveredStep(s, steps[0]);
      StepInv(s, steps[0]);
      CoveredRun(Do(s, steps[0]), steps[1..], t);
    }
  }

  lemma {:induction false} Then(s: Reading, steps: seq<Step>, t: Reading, step: Step)
    requires Reaches(s, steps, t) && Enabled(t, step)
    ensures Reaches(s, steps + [step], Do(t, step))
    decreases steps
  {
    if steps == [] {
      assert [step][1..] == [];
    } else {
      assert (steps + [step])[1..] == steps[1..] + [step];
      Then(Do(s, steps[0]), steps[1..], t, step);
    }
  }

  /** The look that passes off the end as a message. */
  const PHANTOM := Look(Result([], true, None), Some(false), Some(None))

  /** The context ends, the watcher cancels, and the read goes on. */
  lemma Overtake(s: Reading, steps: seq<Step>, t: Reading) returns (steps': seq<Step>, t': Reading)
    requires Reaches(s, steps, t) && t.pc.InDequeue? && t.readErr.None? && t.holder.None?
    ensures Reaches(s, steps', t') && Phantom(t'.looks)
    ensures t' == Return(t.(contextDone := true, cancelled := true, items := [], pc := AtLoad), PHANTOM)
  {
    var t1 := Do(t, ContextExpires);
    Then(s, steps, t, ContextExpires);
    var t2 := Do(t1, WatcherCancels);
    Then(s, steps + [ContextExpires], t1, WatcherCancels);
    var t3 := Do(t2, DequeueEnds);
    Then(s, steps + [ContextExpires] + [WatcherCancels], t2, DequeueEnds);
    steps', t' := steps + [ContextExpires] + [WatcherCancels] + [DequeueEnds] + [LoadHolder], Do(t3, LoadHolder);
    Then(s, steps + [ContextExpires] + [WatcherCancels] + [DequeueEnds], t3, LoadHolder);
    LooksSnoc(t3.looks, Act(t3, LoadHolder).1.value);
  }

  lemma ExposedRun(s: Reading) returns (steps: seq<Step>, t: Reading)
    requires Inv(s) && Exposed(s)
    ensures Reaches(s, steps, t) && Phantom(t.looks)
  {
    steps, t := [], s;
    if s.pc.AtLoad? {
      Then(s, [], s, LoadHolder);
      steps, t := [LoadHolder], Do(s, LoadHolder);
      LooksSnoc(s.looks, Act(s, LoadHolder).1.value);
      return;
    }
    if s.pc.Resting? {
      Then(s, steps, t, Begin);
      steps, t := [Begin], Do(t, Begin);
    }
    if t.pc.AtCheck? {
      Then(s, steps, t, CheckContext);
      steps, t := steps + [CheckContext], Do(t, CheckContext);
    }
    steps, t := Overtake(s, steps, t);
  }

  /** A run on which the phantom is returned. */
  ghost predicate Haunted(s: Reading, steps: seq<Step>, t: Reading) {
    Reaches(s, steps, t) && Phantom(t.looks) && !Phantom(s.looks)
  }

  /** From any reachable state: a phantom can still come about exactly if no error has been kept,
      the final error is not set, and the context is live or the reader is past its check. */
  lemma PhantomExact(streaming: bool, before: seq<Step>, s: Reading)
    requires Reaches(Initial(streaming), before, s)
    ensures (exists steps, t :: Haunted(s, steps, t)) <==> Exposed(s)
  {
    ReachableInv(streaming, before, s);
    if Exposed(s) {
      var steps, t := ExposedRun(s);
      assert Haunted(s, steps, t);
    } else {
      forall steps, t ensures !Haunted(s, steps, t) {
        if Reaches(s, steps, t) {
          CoveredRun(s, steps, t);
        }
      }
    }
  }

  lemma LaterStep(s: Reading, step: Step)
    requires Inv(s) && Phantom(s.looks) && Enabled(s, step)
    ensures var t := Do(s, step);
            && Phantom(t.looks) && s.looks <= t.looks
            && forall i :: |s.looks| <= i < |t.looks| ==> t.looks[i].result.err.Some?
  {
    hide Phantom, OnceInv, Feed;
    var l := Act(s, step).1;
    if l.Some? {
      LooksSnoc(s.looks, l.value);
    }
  }

  /** There is at most one: every look that returns after it returns an error. */
  lemma {:induction false} OnePhantom(s: Reading, steps: seq<Step>, t: Reading)
    requires Inv(s) && Phantom(s.looks) && Reaches(s, steps, t)
    ensures s.looks <= t.looks && forall i :: |s.looks| <= i < |t.looks| ==> t.looks[i].result.err.Some?
    decreases steps
  {
    hide Inv, Do, Enabled, Phantom;
    if steps != [] {
      var next := Do(s, steps[0]);
      LaterStep(s, steps[0]);
      StepInv(s, steps[0]);
      OnePhantom(next, steps[1..], t);
    }
  }

  /** A non-streaming read never returns the phantom: data comes back only if it is the one message
      in the frames taken. If the first look returns the phantom, the second finds the ended
      context, and its error is all there is to return. If the second look does, it passes
      for a second message: the read then complains of two messages exactly if there are two or
      there is one and a phantom. */
  lemma SingleReadExact(steps: seq<Step>, t: Reading)
    requires Reaches(Initial(false), steps, t)
    ensures forall r :: r in t.returned && r.err.None? ==> ParseAll(t.taken).out == [r.data] && !Phantom(t.looks)
    ensures Phantom(t.looks) && ParseAll(t.taken).out == [] ==>
              forall r :: r in t.returned ==> r == Result([], true, Some(ContextEnded))
    ensures Result([], false, Some(MultipleMessages)) in t.returned
            <==> |ParseAll(t.taken).out| == (if Phantom(t.looks) then 1 else 2)
  {
    ReachableInv(false, steps, t);
  }

  // ---------------------------------------------------------------- runs

  /** A read that has passed its check and waits in `dequeue`. */
  lemma WaitingRun(streaming: bool) returns (steps: seq<Step>, t: Reading)
    ensures Reaches(Initial(streaming), steps, t) && t == Initial(streaming).(pc := InDequeue(Idle))
  {
    var s := Initial(streaming);
    Then(s, [], s, Begin);
    var t1 := Do(s, Begin);
    Then(s, [Begin], t1, CheckContext);
    steps, t := [Begin] + [CheckContext], Do(t1, CheckContext);
  }

  /** The deadline expires while a read waits on an open and empty queue: a streaming method's
      handler is handed an empty message, and a non-streaming one's the context error. */
  lemma PhantomRun(streaming: bool) returns (steps: seq<Step>, t: Reading)
    ensures Reaches(Initial(streaming), steps, t)
    ensures t.taken == [] && PHANTOM in t.looks
    ensures t.returned == [Result([], true, if streaming then None else Some(ContextEnded))]
  {
    steps, t := WaitingRun(streaming);
    steps, t := Overtake(Initial(streaming), steps, t);
    if !streaming {
      Then(Initial(streaming), steps, t, CheckContext);
      steps, t := steps + [CheckContext], Do(t, CheckContext);
    }
  }

  /** A non-streaming read that has its message and waits for a second one. */
  lemma SecondLookRun(f: Frame) returns (steps: seq<Step>, t: Reading)
    requires f == Envelope(0, [])
    ensures Reaches(Initial(false), steps, t)
    ensures t.taken == [f] && ParseAll(t.taken) == Parse([[]], Idle) && t.returned == []
    ensures t.pc == InDequeue(Idle) && t.first.Some? && t.readErr.None? && t.holder.None?
  {
    var s := Initial(false);
    steps, t := WaitingRun(false);
    Then(s, steps, t, Arrive(f));
    steps, t := steps + [Arrive(f)], Do(t, Arrive(f));
    ParseNext(t.taken, f);
    Then(s, steps, t, TakeFrame);
    steps, t := steps + [TakeFrame], Do(t, TakeFrame);
    Then(s, steps, t, CheckContext);
    steps, t := steps + [CheckContext], Do(t, CheckContext);
  }

  /** One request message arrives, and the deadline expires while a non-streaming read looks for a
      second one: the call fails for having sent two. */
  lemma SpuriousSecondRun() returns (steps: seq<Step>, t: Reading)
    ensures Reaches(Initial(false), steps, t)
    ensures ParseAll(t.taken) == Parse([[]], Idle)
    ensures t.returned == [Result([], false, Some(MultipleMessages))]
  {
    steps, t := SecondLookRun(Envelope(0, []));
    hide ParseAll, Feed;
    ReachableInv(false, steps, t);
    steps, t := Overtake(Initial(false), steps, t);
  }

  // ---------------------------------------------------------------- undisturbed

  function Alone(s: Reading): ReaderState { ReaderState(s.items, ContextError(s), s.holder, s.readErr) }

  predicate ReaderStep(step: Step) {
    step.Begin? || step.CheckContext? || step.TakeFrame? || step.DequeueEnds? || step.LoadHolder?
  }

  /** A look from its first check on, with nobody else at work and the queue closed. */
  lemma {:induction false} ScanRun(s: Reading) returns (steps: seq<Step>, t: Reading)
    requires EndInv(s) && s.streaming && s.pc.AtCheck? && !s.pc.st.Failed?
    requires s.closed && !s.contextDone
    ensures Reaches(s, steps, t) && forall step :: step in steps ==> ReaderStep(step)
    ensures t.pc.Resting? && |t.returned| == |s.returned| + 1 && s.returned <= t.returned
    ensures var r := t.returned[|s.returned|];
            match Scan(s.items, s.pc.st)
            case Found(m, rest) => r == Result(m, true, None) && Alone(t) == Alone(s).(input := rest)
            case Broken(e, rest) =>
              && r == Result([], false, Some(Malformed(e)))
              && Alone(t) == Alone(s).(input := rest, readErr := Some(Malformed(e)))
            case Exhausted => r == Result([], true, s.holder) && Alone(t) == Alone(s).(input := [], readErr := s.holder)
    decreases |s.items|
  {
    var s1 := Do(s, CheckContext);
    Then(s, [], s, CheckContext);
    if s.items == [] {
      var s2 := Do(s1, DequeueEnds);
      Then(s, [CheckContext], s1, DequeueEnds);
      Then(s, [CheckContext] + [DequeueEnds], s2, LoadHolder);
      steps, t := [CheckContext] + [DequeueEnds] + [LoadHolder], Do(s2, LoadHolder);
    } else {
      var s2 := Do(s1, TakeFrame);
      Then(s, [CheckContext], s1, TakeFrame);
      steps, t := [CheckContext] + [TakeFrame], s2;
      if s2.pc.AtCheck? {
        var more;
        more, t := ScanRun(s2);
        Concat(s, steps, s2, more, t);
        steps := steps + more;
      }
    }
  }

  lemma {:induction false} Concat(s: Reading, a: seq<Step>, t: Reading, b: seq<Step>, u: Reading)
    requires Reaches(s, a, t) && Reaches(t, b, u)
    ensures Reaches(s, a + b, u)
    decreases a
  {
    if a == [] {
      assert a + b == b;
    } else {
      assert (a + b)[1..] == a[1..] + b;
      Concat(Do(s, a[0]), a[1..], t, b, u);
    }
  }

  /** With nobody else at work these steps are `ReadLocked`: from any reachable state between two
      streaming reads in which a read cannot block, the reader's own steps return its result and
      leave its state. */
  lemma Undisturbed(s: Reading) returns (steps: seq<Step>, t: Reading)
    requires Inv(s) && s.streaming && s.pc.Resting? && (s.closed || s.contextDone || s.readErr.Some?)
    ensures Reaches(s, steps, t) && forall step :: step in steps ==> ReaderStep(step)
    ensures t.pc.Resting? && |t.returned| == |s.returned| + 1
    ensures (Alone(t), t.returned[|s.returned|]) == ReadLocked(Alone(s))
  {
    var s1 := Do(s, Begin);
    Then(s, [], s, Begin);
    steps, t := [Begin], s1;
    if s.readErr.None? {
      if s.contextDone {
        Then(s, [Begin], s1, CheckContext);
        steps, t := [Begin] + [CheckContext], Do(s1, CheckContext);
      } else {
        StepInv(s, Begin);
        var more;
        more, t := ScanRun(s1);
        Concat(s, [Begin], s1, more, t);
        steps := [Begin] + more;
      }
    }
  }
}
