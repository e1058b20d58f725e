/** Reading messages back out of the queue: `readMsgLocked`, which reassembles one message,
    and `readMsg`, which for a non-streaming method insists on exactly one.

    A reader sees the frames that `dequeue` yields, in order, and then the end of the queue,
    where it returns the error it finds in a holder (`done` on the client, `halfClosed` on
    the server). A server's reader looks at its context before every `dequeue`. How long each
    `dequeue` has to wait is the business of `Link`; what happens when the context ends in the
    middle of a read is that of `ServerReads`. */
module Reader {
  import opened Framing
  import Grammar
  import opened Link
  import opened Delivery
  import opened Wrappers

  datatype ReadError = Eof | Malformed(e: ParseError) | MultipleMessages | ContextEnded | OtherStatus(code: nat)

  /** The three results of a Go call: data, whether the error is not the peer's fault, error. */
  datatype Result = Result(data: Message, ok: bool, err: Option<ReadError>)

  /** `context` is the error of the context, as it stays while nobody interferes; a client's
      reader does not look at it, and for that it is `None`. `end` is what the holder has when the
      queue ends; `None` if it is still nil. */
  datatype ReaderState =
    ReaderState(input: seq<Frame>, context: Option<ReadError>, end: Option<ReadError>, readErr: Option<ReadError>)

  function Fresh(input: seq<Frame>, context: Option<ReadError>, end: Option<ReadError>): ReaderState {
    ReaderState(input, context, end, None)
  }

  /** A queue comes to its end with the holder unset only if it was cancelled, and for that the
      context has ended before (`ServerReads.EndIsSettled`). */
  predicate Settled(context: Option<ReadError>, end: Option<ReadError>) { end.None? ==> context.Some? }

  // ---------------------------------------------------------------- the recursive decoder

  datatype Scanned = Found(m: Message, rest: seq<Frame>) | Broken(e: ParseError, rest: seq<Frame>) | Exhausted

  /** The next message, given what has been assembled already. */
  function Scan(fs: seq<Frame>, st: Assembly): Scanned
    requires !st.Failed?
  {
    if fs == [] then Exhausted
    else
      var p := Feed(Parse([], st), fs[0]);
      if p.out != [] then Found(p.out[0], fs[1..])
      else if p.st.Failed? then Broken(p.st.error, fs[1..])
      else Scan(fs[1..], p.st)
  }

  function ReadLocked(rs: ReaderState): (ReaderState, Result) {
    if rs.readErr.Some? then (rs, Result([], true, rs.readErr))
    else if rs.context.Some? then (rs.(readErr := rs.context), Result([], true, rs.context))
    else
      match Scan(rs.input, Idle)
      case Found(m, rest) => (rs.(input := rest), Result(m, true, None))
      case Broken(e, rest) => (rs.(input := rest, readErr := Some(Malformed(e))), Result([], false, Some(Malformed(e))))
      case Exhausted => (rs.(input := [], readErr := rs.end), Result([], true, rs.end))
  }

  /** A read for a non-streaming method looks for a second message as well. */
  function ReadOne(rs: ReaderState): (ReaderState, Result) {
    var (rs1, r1) := ReadLocked(rs);
    if r1.err.Some? then (rs1, r1)
    else
      var (rs2, r2) := ReadLocked(rs1);
      if r2.err.None? then (rs2.(readErr := Some(MultipleMessages)), Result([], false, Some(MultipleMessages)))
      else if r2.err != Some(Eof) || !r2.ok then (rs2, Result([], r2.ok, r2.err))
      else (rs2, r1)
  }

  // ---------------------------------------------------------------- the reader object

  /** What a read that got as far as the queue may return, said of the frames it has `taken` and
      those it has left: the message that they are; the error of the frame that does not fit; or
      what the holder has, if the frames run out in the middle of a message or before one. */
  ghost predicate ReadsAs(taken: seq<Frame>, left: seq<Frame>, end: Option<ReadError>, r: Result) {
    match r.err
    case None =>
      || (r.ok && Grammar.Group(r.data, taken))
      || (r == Result([], true, end) && left == [] && Grammar.Begun(taken))
    case Some(error) =>
      || (r == Result([], true, end) && left == [] && Grammar.Begun(taken))
      || (r.data == [] && !r.ok && error.Malformed? && taken != []
          && var n := |taken| - 1; Grammar.Begun(taken[..n]) && Grammar.Offends(error.e, taken[..n], taken[n]))
  }

  class MessageReader {
    const streaming: bool
    var input: seq<Frame>
    const context: Option<ReadError>
    const end: Option<ReadError>
    var readErr: Option<ReadError>

    function State(): ReaderState
      reads this
    {
      ReaderState(input, context, end, readErr)
    }

    constructor (streaming: bool, input: seq<Frame>, context: Option<ReadError>, end: Option<ReadError>)
      ensures this.streaming == streaming && State() == Fresh(input, context, end)
    {
      this.streaming, this.input, this.context, this.end, readErr := streaming, input, context, end, None;
    }

    /** `taken` are the frames that this call has dequeued. */
    method ReadMsgLocked() returns (data: Message, ok: bool, err: Option<ReadError>, ghost taken: seq<Frame>)
      modifies this
      ensures (State(), Result(data, ok, err)) == ReadLocked(old(State()))
      ensures old(input) == taken + input
      ensures if old(readErr).Some? then taken == [] && readErr == old(readErr) && data == [] && ok && err == readErr
              else if context.Some? then taken == [] && readErr == context && data == [] && ok && err == context
              else readErr == err && ReadsAs(taken, input, end, Result(data, ok, err))
    {
      taken := [];
      if readErr.Some? {
        return [], true, readErr, taken;
      }
      var msgLen: int := -1;
      var b: Message := [];
      while true
        invariant msgLen >= -1 && (msgLen >= 0 ==> |b| < msgLen)
        invariant readErr == None
        invariant context.None? ==>
                    Scan(old(input), Idle) == Scan(input, if msgLen == -1 then Idle else Partial(msgLen, b))
        invariant context.Some? ==> input == old(input)
        invariant old(input) == taken + input
        invariant if msgLen == -1 then taken == [] else Grammar.Open(msgLen, b, taken)
        invariant context.Some? ==> taken == []
        decreases |input|
      {
        if context.Some? {
          readErr := context;
          return [], true, context, taken;
        }
        BegunSoFar(taken, msgLen, b);
        if input == [] {
          readErr := end;
          return [], true, end, taken;
        }
        var f := input[0];
        ghost var begun := taken;
        input := input[1..];
        taken := taken + [f];
        NextTaken(begun, f, msgLen, b);
        hide Grammar.Open, Grammar.Begun, Grammar.Group, Grammar.Offends;
        match f {
          case Envelope(size, d) =>
            if msgLen != -1 {
              readErr := Some(Malformed(EnvelopeTooEarly));
              return [], false, readErr, taken;
            }
            msgLen := size;
            b := d;
          case More(d) =>
            if msgLen == -1 {
              readErr := Some(Malformed(MissingEnvelope));
              return [], false, readErr, taken;
            }
            b := b + d;
          case Unrecognized =>
            readErr := Some(Malformed(BadFrameType));
            return [], false, readErr, taken;
        }
        if |b| > msgLen {
          readErr := Some(Malformed(TooMuchData));
          return [], false, readErr, taken;
        }
        if |b| == msgLen {
          return b, true, None, taken;
        }
      }
    }

    method ReadMsg() returns (data: Message, ok: bool, err: Option<ReadError>)
      modifies this
      ensures (State(), Result(data, ok, err)) == if streaming then ReadLocked(old(State())) else ReadOne(old(State()))
      ensures err.Some? ==> readErr == err && data == []
    {
      ghost var taken;
      data, ok, err, taken := ReadMsgLocked();
      if err.None? && !streaming {
        var _, ok2, err2, _ := ReadMsgLocked();
        if err2.None? {
          readErr := Some(MultipleMessages);
          return [], false, readErr;
        }
        if err2 != Some(Eof) || !ok2 {
          return [], ok2, err2;
        }
      }
    }
  }

  lemma BegunSoFar(taken: seq<Frame>, msgLen: int, b: Message)
    requires if msgLen == -1 then taken == [] else msgLen >= 0 && Grammar.Open(msgLen, b, taken)
    ensures Grammar.Begun(taken)
  {
  }

  /** What one more frame makes of the frames taken so far. */
  lemma NextTaken(begun: seq<Frame>, f: Frame, msgLen: int, b: Message)
    requires if msgLen == -1 then begun == [] else msgLen >= 0 && Grammar.Open(msgLen, b, begun)
    ensures (begun + [f])[..|begun|] == begun && (begun + [f])[|begun|] == f
    ensures f.Unrecognized? ==> Grammar.Offends(BadFrameType, begun, f)
    ensures f.Envelope? && msgLen != -1 ==> Grammar.Offends(EnvelopeTooEarly, begun, f)
    ensures f.More? && msgLen == -1 ==> Grammar.Offends(MissingEnvelope, begun, f)
    ensures f.Envelope? && msgLen == -1 ==>
              && (|f.data| > f.size ==> Grammar.Offends(TooMuchData, begun, f))
              && (|f.data| == f.size ==> Grammar.Group(f.data, begun + [f]))
              && (|f.data| < f.size ==> Grammar.Open(f.size, f.data, begun + [f]))
    ensures f.More? && msgLen != -1 ==>
              && (|b + f.data| > msgLen ==> Grammar.Offends(TooMuchData, begun, f))
              && (|b + f.data| == msgLen ==> Grammar.Group(b + f.data, begun + [f]))
              && (|b + f.data| < msgLen ==> Grammar.Open(msgLen, b + f.data, begun + [f]))
  {
    if f.Envelope? && msgLen == -1 && |f.data| <= f.size {
      Grammar.OpenFirst(f);
    } else if f.More? && msgLen != -1 && |b + f.data| <= msgLen {
      Grammar.OpenNext(msgLen, b, begun, f);
    }
  }

  // ---------------------------------------------------------------- the decoder is the parser

  lemma FeedFront(p: Parse, fs: seq<Frame>)
    requires fs != []
    ensures FeedAll(p, fs) == FeedAll(Feed(p, fs[0]), fs[1..])
  {
    assert fs == [fs[0]] + fs[1..];
    FeedConcat(p, [fs[0]], fs[1..]);
    FeedSnoc(p, [], fs[0]);
    assert [] + [fs[0]] == [fs[0]];
  }

  /** One scan accounts for a front part of what the fold over all frames finds. */
  lemma {:induction false} ScanIsParse(out: seq<Message>, fs: seq<Frame>, st: Assembly)
    requires !st.Failed?
    ensures match Scan(fs, st)
            case Found(m, rest) =>
              |rest| < |fs| && FeedAll(Parse(out, st), fs) == FeedAll(Parse(out + [m], Idle), rest)
            case Broken(e, rest) => FeedAll(Parse(out, st), fs) == Parse(out, Failed(e))
            case Exhausted =>
              FeedAll(Parse(out, st), fs).out == out && !FeedAll(Parse(out, st), fs).st.Failed?
  {
    if fs != [] {
      FeedFront(Parse(out, st), fs);
      var p := Feed(Parse([], st), fs[0]);
      assert Feed(Parse(out, st), fs[0]) == Parse(out + p.out, p.st);
      if p.out == [] {
        assert out + p.out == out;
        if p.st.Failed? {
          ParsePrefix(Parse(out, p.st), fs[1..]);
        } else {
          ScanIsParse(out, fs[1..], p.st);
        }
      }
    }
  }

  /** The results of `n` successive calls. */
  function Calls(rs: ReaderState, n: nat): seq<Result>
    decreases n
  {
    if n == 0 then [] else [ReadLocked(rs).1] + Calls(ReadLocked(rs).0, n - 1)
  }

  /** What call number `i` should return, from the parse of everything. */
  function Expected(p: Parse, context: Option<ReadError>, end: Option<ReadError>, i: nat): Result {
    if context.Some? then Result([], true, context)
    else if i < |p.out| then Result(p.out[i], true, None)
    else
      match p.st
      case Failed(e) => Result([], i > |p.out|, Some(Malformed(e)))
      case _ => Result([], true, end)
  }

  lemma {:induction false} StickyCalls(rs: ReaderState, n: nat)
    requires rs.readErr.Some?
    ensures |Calls(rs, n)| == n && forall i :: 0 <= i < n ==> Calls(rs, n)[i] == Result([], true, rs.readErr)
  {
    if n > 0 {
      StickyCalls(rs, n - 1);
    }
  }

  lemma NoMoreFound(rs: ReaderState, out: seq<Message>)
    requires rs.readErr.None? && rs.context.None? && !Scan(rs.input, Idle).Found?
    ensures var p := FeedAll(Parse(out, Idle), rs.input);
            p.out == out && ReadLocked(rs).1 == Expected(p, None, rs.end, |out|)
    ensures Settled(None, rs.end) ==> ReadLocked(rs).0.readErr.Some?
    ensures Settled(None, rs.end) ==> forall i :: i > |out| ==>
              Expected(FeedAll(Parse(out, Idle), rs.input), None, rs.end, i) == Result([], true, ReadLocked(rs).0.readErr)
  {
    ScanIsParse(out, rs.input, Idle);
    hide FeedAll, Scan;
  }

  lemma FoundFirst(rs: ReaderState, out: seq<Message>)
    requires rs.readErr.None? && rs.context.None? && Scan(rs.input, Idle).Found?
    ensures var p, s := FeedAll(Parse(out, Idle), rs.input), Scan(rs.input, Idle);
            && ReadLocked(rs) == (rs.(input := s.rest), Expected(p, None, rs.end, |out|))
            && p == FeedAll(Parse(out + [s.m], Idle), s.rest)
  {
    var s := Scan(rs.input, Idle);
    ScanIsParse(out, rs.input, Idle);
    hide Scan;
    ParsePrefix(Parse(out + [s.m], Idle), s.rest);
    assert FeedAll(Parse(out, Idle), rs.input).out[|out|] == (out + [s.m])[|out|];
  }

  lemma ContextFirst(rs: ReaderState)
    requires rs.readErr.None? && rs.context.Some?
    ensures ReadLocked(rs) == (rs.(readErr := rs.context), Result([], true, rs.context))
    ensures forall p, i :: Expected(p, rs.context, rs.end, i) == Result([], true, rs.context)
  {
  }

  lemma {:induction false} CallsFrom(rs: ReaderState, out: seq<Message>, n: nat)
    requires rs.readErr.None? && Settled(rs.context, rs.end)
    ensures |Calls(rs, n)| == n
    ensures forall i :: 0 <= i < n ==>
              Calls(rs, n)[i] == Expected(FeedAll(Parse(out, Idle), rs.input), rs.context, rs.end, |out| + i)
    decreases n
  {
    hide FeedAll, Scan, Expected, ReadLocked;
    if n > 0 {
      var rs' := ReadLocked(rs).0;
      if rs.context.Some? {
        ContextFirst(rs);
        StickyCalls(rs', n - 1);
      } else if Scan(rs.input, Idle).Found? {
        FoundFirst(rs, out);
        CallsFrom(rs', out + [Scan(rs.input, Idle).m], n - 1);
      } else {
        NoMoreFound(rs, out);
        StickyCalls(rs', n - 1);
      }
    }
  }

  /** For every sequence of frames, well-formed or not, whose reading nobody interferes with:
      successive reads return the messages the parser finds, in order, and from then on always the
      same error; a reader whose context has ended returns the context's error throughout. */
  lemma ReaderRefinesParser(fs: seq<Frame>, context: Option<ReadError>, end: Option<ReadError>, n: nat)
    requires Settled(context, end)
    ensures |Calls(Fresh(fs, context, end), n)| == n
    ensures forall i :: 0 <= i < n ==>
              Calls(Fresh(fs, context, end), n)[i] == Expected(ParseAll(fs), context, end, i)
  {
    CallsFrom(Fresh(fs, context, end), [], n);
  }

  /** At every moment of every run of a link, whatever error ends the reading there: the reads of
      what has arrived return messages sent, in order, and all that are complete. */
  lemma ReadsArePrefix(c: Config, msgs: seq<Message>, steps: seq<Step>, t: State, end: ReadError, n: nat)
    requires ValidConfig(c) && Reaches(c, Init(c, msgs), steps, t)
    ensures var calls := Calls(Fresh(t.rx.read, None, Some(end)), n);
            && |calls| == n && |Delivered(t)| <= |msgs|
            && forall i :: 0 <= i < n ==>
                 calls[i] == if i < |Delivered(t)| then Result(msgs[i], true, None) else Result([], true, Some(end))
  {
    InitInv(c, msgs);
    RunInv(c, Init(c, msgs), steps, t);
    DeliveredPrefix(c, t);
    ReaderRefinesParser(t.rx.read, None, Some(end), n);
  }

  /** End to end: whatever the window, chunking and interleaving were, once the consumer has
      been told of the end the reads return the messages sent, in order, and then end of file. */
  lemma EndToEnd(c: Config, msgs: seq<Message>, steps: seq<Step>, t: State, n: nat)
    requires ValidConfig(c) && Reaches(c, Init(c, msgs), steps, t) && t.rx.pc.Ended?
    ensures |Calls(Fresh(t.rx.read, None, Some(Eof)), n)| == n
    ensures forall i :: 0 <= i < n ==>
              Calls(Fresh(t.rx.read, None, Some(Eof)), n)[i]
              == (if i < |msgs| then Result(msgs[i], true, None) else Result([], true, Some(Eof)))
  {
    InitInv(c, msgs);
    RunInv(c, Init(c, msgs), steps, t);
    EndedComplete(c, t);
    ReadsArePrefix(c, msgs, steps, t, Eof, n);
  }

  /** An undisturbed read succeeds if and only if the context is live and a message is there;
      all else is reported as an error. */
  lemma EndIsReported(fs: seq<Frame>, context: Option<ReadError>, end: Option<ReadError>)
    requires Settled(context, end)
    ensures ReadLocked(Fresh(fs, context, end)).1.err.None? <==> context.None? && ParseAll(fs).out != []
  {
    ScanIsParse([], fs, Idle);
    match Scan(fs, Idle)
    case Found(m, rest) => ParsePrefix(Parse([] + [m], Idle), rest);
    case _ =>
  }

  // ---------------------------------------------------------------- non-streaming reads

  /** The promise for a non-streaming method: one complete message and then a clean end, while
      the context is live. */
  predicate OneMessage(fs: seq<Frame>, context: Option<ReadError>, end: Option<ReadError>, m: Message) {
    context.None? && ParseAll(fs) == Parse([m], Idle) && end == Some(Eof)
  }

  function ReadOneResult(fs: seq<Frame>, context: Option<ReadError>, end: Option<ReadError>): Result {
    ReadOne(Fresh(fs, context, end)).1
  }

  /** What an undisturbed non-streaming read returns, and exactly when that is data. */
  lemma ReadOneExact(fs: seq<Frame>, context: Option<ReadError>, end: Option<ReadError>)
    requires Settled(context, end)
    ensures var p, r := ParseAll(fs), ReadOneResult(fs, context, end);
            && (r.err.None? <==> context.None? && |p.out| == 1 && !p.st.Failed? && end == Some(Eof))
            && (r.err.None? ==> r == Result(p.out[0], true, None))
            && (context.Some? ==> r == Result([], true, context))
            && (context.None? && |p.out| >= 2 ==> r == Result([], false, Some(MultipleMessages)))
            && (context.None? && |p.out| < 2 && p.st.Failed? ==> r == Result([], false, Some(Malformed(p.st.error))))
            && (context.None? && |p.out| < 2 && !p.st.Failed? && r.err.Some? ==> r == Result([], true, end))
  {
    ScanIsParse([], fs, Idle);
    match Scan(fs, Idle)
    case Found(m, rest) =>
      assert [] + [m] == [m];
      ScanIsParse([m], rest, Idle);
      if Scan(rest, Idle).Found? {
        ParsePrefix(Parse([m] + [Scan(rest, Idle).m], Idle), Scan(rest, Idle).rest);
      }
    case _ =>
  }

  /** Every error is final: all later reads return it again. And a non-streaming read that has
      returned a message has seen the end of file, which is what all later ones return. */
  lemma ErrorsAreKept(rs: ReaderState)
    ensures var (next, r) := ReadLocked(rs); r.err.Some? ==> ReadLocked(next) == (next, Result([], true, r.err))
    ensures var (next, r) := ReadOne(rs); ReadOne(next) == (next, Result([], true, if r.err.Some? then r.err else Some(Eof)))
  {
    hide Scan;
  }

  /** So one complete message with a clean end is always returned, but the converse fails
      for exactly one family: a second message that was begun and never finished. */
  lemma ReadOneMeetsPromise(fs: seq<Frame>, context: Option<ReadError>, end: Option<ReadError>)
    requires Settled(context, end)
    ensures forall m :: OneMessage(fs, context, end, m) ==> ReadOneResult(fs, context, end) == Result(m, true, None)
    ensures (ReadOneResult(fs, context, end).err.None? <==> exists m :: OneMessage(fs, context, end, m))
            <==> !(context.None? && end == Some(Eof) && |ParseAll(fs).out| == 1 && ParseAll(fs).st.Partial?)
  {
    ReadOneExact(fs, context, end);
    var p := ParseAll(fs);
    if |p.out| == 1 {
      assert p.out == [p.out[0]];
      if context.None? && p.st == Idle && end == Some(Eof) {
        assert OneMessage(fs, context, end, p.out[0]);
      }
    }
  }

  /** A member of that family: an empty message, and an envelope that announces one more byte. */
  lemma ReadOneIgnoresTruncatedSecond()
    ensures var fs := [Envelope(0, []), Envelope(1, [])];
            && ReadOneResult(fs, None, Some(Eof)) == Result([], true, None)
            && forall m :: !OneMessage(fs, None, Some(Eof), m)
  {
    var fs := [Envelope(0, []), Envelope(1, [])];
    FeedFront(START, fs);
    FeedFront(Feed(START, fs[0]), fs[1..]);
    ReadOneExact(fs, None, Some(Eof));
    assert fs[1..][0] == Envelope(1, []) && fs[1..][1..] == [];
  }
}
