/** The data frames of one direction of a stream: how a message is cut into frames,
    how many bytes of the flow control window a frame is charged, and how the frames
    are put together again.

    `RequestMessage`/`ResponseMessage` frames are both `Envelope` here, and
    `MoreRequestData`/`MoreResponseData` are both `More`: the two directions of the
    protocol treat them alike. */
module Framing {

  type Byte = b: int | 0 <= b < 256
  type Message = seq<Byte>

  datatype Frame =
    | Envelope(size: nat, data: Message)
    | More(data: Message)
    | Unrecognized

  // ---------------------------------------------------------------- charges

  function Min(a: nat, b: nat): nat { if a < b then a else b }

  function Payload(f: Frame): Message { if f.Unrecognized? then [] else f.data }

  /** What a receiver charges for a frame: its data, and the overhead if it starts a message. */
  function Charge(overhead: nat, f: Frame): nat {
    |Payload(f)| + if f.Envelope? then overhead else 0
  }

  function TotalCharge(overhead: nat, fs: seq<Frame>): nat {
    if fs == [] then 0 else Charge(overhead, fs[0]) + TotalCharge(overhead, fs[1..])
  }

  lemma {:induction false} TotalChargeConcat(overhead: nat, a: seq<Frame>, b: seq<Frame>)
    ensures TotalCharge(overhead, a + b) == TotalCharge(overhead, a) + TotalCharge(overhead, b)
  {
    if a == [] {
      assert a + b == b;
    } else {
      assert (a + b)[1..] == a[1..] + b;
      TotalChargeConcat(overhead, a[1..], b);
    }
  }

  lemma TotalChargeSnoc(overhead: nat, a: seq<Frame>, f: Frame)
    ensures TotalCharge(overhead, a + [f]) == TotalCharge(overhead, a) + Charge(overhead, f)
  {
    TotalChargeConcat(overhead, a, [f]);
    assert [f][1..] == [];
  }

  // ---------------------------------------------------------------- the reference parser

  datatype ParseError = TooMuchData | EnvelopeTooEarly | MissingEnvelope | BadFrameType

  datatype Assembly = Idle | Partial(size: nat, buf: Message) | Failed(error: ParseError)

  /** All complete messages found so far, and what has been assembled of the next one. */
  datatype Parse = Parse(out: seq<Message>, st: Assembly)

  function Assemble(out: seq<Message>, size: nat, buf: Message): Parse {
    if |buf| > size then Parse(out, Failed(TooMuchData))
    else if |buf| == size then Parse(out + [buf], Idle)
    else Parse(out, Partial(size, buf))
  }

  function Feed(p: Parse, f: Frame): Parse {
    match p.st
    case Failed(_) => p
    case Idle =>
      (match f
       case Envelope(size, data) => Assemble(p.out, size, data)
       case More(_) => Parse(p.out, Failed(MissingEnvelope))
       case Unrecognized => Parse(p.out, Failed(BadFrameType)))
    case Partial(size, buf) =>
      (match f
       case Envelope(_, _) => Parse(p.out, Failed(EnvelopeTooEarly))
       case More(data) => Assemble(p.out, size, buf + data)
       case Unrecognized => Parse(p.out, Failed(BadFrameType)))
  }

  function FeedAll(p: Parse, fs: seq<Frame>): Parse {
    if fs == [] then p else Feed(FeedAll(p, fs[..|fs| - 1]), fs[|fs| - 1])
  }

  const START := Parse([], Idle)

  /** The messages in a sequence of frames, by a fold over the frames. */
  function ParseAll(fs: seq<Frame>): Parse { FeedAll(START, fs) }

  lemma FeedSnoc(p: Parse, fs: seq<Frame>, f: Frame)
    ensures FeedAll(p, fs + [f]) == Feed(FeedAll(p, fs), f)
  {
    assert (fs + [f])[..|fs + [f]| - 1] == fs;
  }

  lemma {:induction false} FeedConcat(p: Parse, a: seq<Frame>, b: seq<Frame>)
    ensures FeedAll(p, a + b) == FeedAll(FeedAll(p, a), b)
  {
    if b == [] {
      assert a + b == a;
    } else {
      var b' := b[..|b| - 1];
      assert a + b == (a + b') + [b[|b| - 1]];
      FeedSnoc(p, a + b', b[|b| - 1]);
      FeedConcat(p, a, b');
    }
  }

  lemma ParseMore(a: seq<Frame>, b: seq<Frame>, p: Parse)
    requires ParseAll(a) == p
    ensures ParseAll(a + b) == FeedAll(p, b)
  {
    FeedConcat(START, a, b);
  }

  /** Parsing more frames never takes a message back. */
  lemma {:induction false} ParsePrefix(p: Parse, fs: seq<Frame>)
    ensures p.out <= FeedAll(p, fs).out
    ensures p.st.Failed? ==> FeedAll(p, fs) == p
  {
    if fs != [] {
      ParsePrefix(p, fs[..|fs| - 1]);
    }
  }

  // ---------------------------------------------------------------- chunking

  function Concat(fs: seq<Frame>): Message {
    if fs == [] then [] else Concat(fs[..|fs| - 1]) + Payload(fs[|fs| - 1])
  }

  /** `fs` are the first frames of some way to send `m`: exactly the first one is flagged
      as the start and announces the full size, and no frame is too large or needlessly empty. */
  ghost predicate ChunkPrefix(m: Message, maxChunk: nat, fs: seq<Frame>) {
    && Concat(fs) <= m
    && (fs != [] ==> fs[0].Envelope? && fs[0].size == |m|)
    && (forall i :: 1 <= i < |fs| ==> fs[i].More?)
    && (forall i :: 0 <= i < |fs| ==> |Payload(fs[i])| <= maxChunk)
    && (m != [] ==> forall i :: 0 <= i < |fs| ==> |Payload(fs[i])| >= 1)
    && (m == [] ==> |fs| <= 1)
  }

  /** `fs` is a complete way to send `m`. */
  ghost predicate Chunking(m: Message, maxChunk: nat, fs: seq<Frame>) {
    fs != [] && ChunkPrefix(m, maxChunk, fs) && Concat(fs) == m
  }

  lemma ConcatSnoc(fs: seq<Frame>, f: Frame)
    ensures Concat(fs + [f]) == Concat(fs) + Payload(f)
  {
    assert (fs + [f])[..|fs + [f]| - 1] == fs;
  }

  /** The frame that carries the next `n` bytes, as `sendFunc` builds it. */
  function NextFrame(m: Message, first: bool, data: Message, n: nat): Frame
    requires n <= |data|
  {
    if first then Envelope(|m|, data[..n]) else More(data[..n])
  }

  /** `fs` have been sent and `rest` is still to be sent; `charged` is what the frames cost. */
  ghost predicate Sending(m: Message, maxChunk: nat, overhead: nat, fs: seq<Frame>, rest: Message, charged: nat) {
    && ChunkPrefix(m, maxChunk, fs)
    && m == Concat(fs) + rest
    && (fs != [] ==> rest != [])
    && charged == TotalCharge(overhead, fs) == |Concat(fs)| + if fs == [] then 0 else overhead
  }

  lemma ChunkPrefixNext(m: Message, maxChunk: nat, fs: seq<Frame>, rest: Message, n: nat)
    requires ChunkPrefix(m, maxChunk, fs) && m == Concat(fs) + rest && (fs != [] ==> rest != [])
    requires n <= |rest| && n <= maxChunk && (rest != [] ==> n > 0)
    ensures var fs' := fs + [NextFrame(m, fs == [], rest, n)];
            ChunkPrefix(m, maxChunk, fs') && m == Concat(fs') + rest[n..] && |Concat(fs')| == |Concat(fs)| + n
  {
    ConcatSnoc(fs, NextFrame(m, fs == [], rest, n));
    assert rest == rest[..n] + rest[n..];
  }

  lemma SendingNext(m: Message, maxChunk: nat, overhead: nat, fs: seq<Frame>, rest: Message, charged: nat, first: bool, n: nat)
    requires Sending(m, maxChunk, overhead, fs, rest, charged) && (first <==> fs == [])
    requires n <= |rest| && n <= maxChunk && (rest != [] ==> n > 0)
    ensures var fs' := fs + [NextFrame(m, first, rest, n)];
            var charged' := charged + n + if first then overhead else 0;
            && (n < |rest| ==> Sending(m, maxChunk, overhead, fs', rest[n..], charged'))
            && (n == |rest| ==> Chunking(m, maxChunk, fs') && charged' == TotalCharge(overhead, fs') == |m| + overhead)
  {
    var f := NextFrame(m, first, rest, n);
    TotalChargeSnoc(overhead, fs, f);
    ChunkPrefixNext(m, maxChunk, fs, rest, n);
    assert n == |rest| ==> Concat(fs + [f]) == m;
  }

  lemma SendingStart(m: Message, maxChunk: nat, overhead: nat)
    ensures Sending(m, maxChunk, overhead, [], m, 0) && TotalCharge(overhead, []) == 0
  {
  }

  lemma SendingStops(m: Message, maxChunk: nat, overhead: nat, fs: seq<Frame>, rest: Message, charged: nat)
    requires Sending(m, maxChunk, overhead, fs, rest, charged)
    ensures ChunkPrefix(m, maxChunk, fs) && !Chunking(m, maxChunk, fs) && charged == TotalCharge(overhead, fs)
  {
  }

  /** What the parser holds after any initial part of any chunking. */
  lemma {:induction false} ParseChunkPrefix(out: seq<Message>, m: Message, maxChunk: nat, fs: seq<Frame>)
    requires ChunkPrefix(m, maxChunk, fs)
    ensures FeedAll(Parse(out, Idle), fs) ==
            if fs == [] then Parse(out, Idle)
            else if Concat(fs) == m then Parse(out + [m], Idle)
            else Parse(out, Partial(|m|, Concat(fs)))
  {
    if fs != [] {
      var init := fs[..|fs| - 1];
      assert Concat(init) <= Concat(fs);
      ParseChunkPrefix(out, m, maxChunk, init);
      if init == [] {
        assert Concat(fs) == Payload(fs[0]);
      } else {
        assert init[0] == fs[0];
        assert |Payload(fs[|fs| - 1])| >= 1;
        assert Concat(init) != m;
      }
    }
  }

  /** Whatever chunking is chosen for a message, parsing its frames gives back that message. */
  lemma RoundTrip(out: seq<Message>, m: Message, maxChunk: nat, fs: seq<Frame>)
    requires Chunking(m, maxChunk, fs)
    ensures FeedAll(Parse(out, Idle), fs) == Parse(out + [m], Idle)
  {
    ParseChunkPrefix(out, m, maxChunk, fs);
  }

  /** Concatenation of one chunking per message. */
  ghost predicate Chunkings(ms: seq<Message>, maxChunk: nat, groups: seq<seq<Frame>>) {
    |groups| == |ms| && forall i :: 0 <= i < |ms| ==> Chunking(ms[i], maxChunk, groups[i])
  }

  function Flatten(groups: seq<seq<Frame>>): seq<Frame> {
    if groups == [] then [] else Flatten(groups[..|groups| - 1]) + groups[|groups| - 1]
  }

  /** Any sequence of messages, each cut up in any way, parses to exactly those messages. */
  lemma {:induction false} RoundTripAll(ms: seq<Message>, maxChunk: nat, groups: seq<seq<Frame>>)
    requires Chunkings(ms, maxChunk, groups)
    ensures ParseAll(Flatten(groups)) == Parse(ms, Idle)
  {
    if ms != [] {
      var n := |ms| - 1;
      var sent := Flatten(groups[..n]);
      RoundTripAll(ms[..n], maxChunk, groups[..n]);
      ParseMore(sent, groups[n], Parse(ms[..n], Idle));
      RoundTrip(ms[..n], ms[n], maxChunk, groups[n]);
      assert ms[..n] + [ms[n]] == ms;
    }
  }
}
