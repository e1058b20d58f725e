/** What a client's non-streaming call comes to: the stream's end, as `ClientStream` has it, and
    the read of `Reader`, whose holder is the stream's `done`. */
module ClientCall {
  import opened Framing
  import opened Wrappers
  import Delivery
  import FlowControl
  import Link
  import Reader
  import Stream = ClientStream

  /** The error a read finds in `done`. */
  function InHolder(s: Stream.Status): Reader.ReadError {
    if s == Stream.Eof then Reader.Eof else Reader.OtherStatus(Stream.StatusCode(s))
  }

  /** What a read of the frames `fs` returns after the queue's end `end` was reported. */
  function ReadAtEnd(fs: seq<Frame>, end: Option<Stream.Status>): Reader.Result
    requires end.Some?
  {
    Reader.ReadOneResult(fs, None, Some(InHolder(end.value)))
  }

  lemma HolderOf(s: Option<Stream.Status>, c: Stream.Cause)
    requires Stream.Reports(s, c)
    ensures InHolder(s.value) == if c.NoError? then Reader.Eof else Reader.OtherStatus(Stream.CauseCode(c))
  {
  }

  /** Over every run of a client stream, for every reader that is told of the end, with whatever was
      dequeued: the call succeeds exactly if the stream was closed with OK first and one message can
      be read. If it was finished by anything else, and what was read is neither malformed nor a
      second message, the call returns the code of that: the window violation's is
      RESOURCE_EXHAUSTED. */
  lemma CallOutcome(l: FlowControl.Limits, steps: seq<Stream.Step>, t: Stream.Stream, i: nat)
    requires Stream.Reaches(l, Stream.Init(l), steps, t) && i < |t.ends|
    ensures t.ends[i].0.Some?
    ensures var p, r, cause := ParseAll(t.taken), ReadAtEnd(t.taken, t.ends[i].0), t.claim.0;
            && (r.err.None? <==> cause.NoError? && |p.out| == 1 && !p.st.Failed?)
            && (r.err.None? ==> r.ok && r.data == p.out[0])
            && (!cause.NoError? && |p.out| < 2 && !p.st.Failed? ==>
                  r == Reader.Result([], true, Some(Reader.OtherStatus(Stream.CauseCode(cause)))))
            && (cause == Stream.WINDOW_EXCEEDED && |p.out| < 2 && !p.st.Failed? ==>
                  r.err == Some(Reader.OtherStatus(Stream.RESOURCE_EXHAUSTED)))
  {
    Stream.EndsOnce(l, steps, t);
    HolderOf(t.ends[i].0, t.claim.0);
    Reader.ReadOneExact(t.taken, None, Some(InHolder(t.ends[i].0.value)));
  }

  /** End to end: one message is sent through a link and the stream is closed with OK; then the call
      returns that message. Closed by anything else, it returns the code of that. */
  lemma UnaryCall(c: Link.Config, m: Message, steps: seq<Link.Step>, s: Link.State,
                  l: FlowControl.Limits, ends: seq<Stream.Step>, t: Stream.Stream, i: nat)
    requires Link.ValidConfig(c) && Link.Reaches(c, Link.Init(c, [m]), steps, s) && s.rx.pc.Ended?
    requires Stream.Reaches(l, Stream.Init(l), ends, t) && i < |t.ends| && t.taken == s.rx.read
    ensures t.ends[i].0.Some?
    ensures ReadAtEnd(t.taken, t.ends[i].0)
            == if t.claim.0.NoError? then Reader.Result(m, true, None)
               else Reader.Result([], true, Some(Reader.OtherStatus(Stream.CauseCode(t.claim.0))))
  {
    Link.InitInv(c, [m]);
    Delivery.RunInv(c, Link.Init(c, [m]), steps, s);
    Delivery.EndedComplete(c, s);
    CallOutcome(l, ends, t, i);
  }
}
