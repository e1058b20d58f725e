/** Which sequences of frames carry which messages, said without a parser; and that the parser
    agrees, for every sequence of frames, well-formed or not. */
module Grammar {
  import opened Framing

  // ---------------------------------------------------------------- the grammar

  /** An envelope and continuations, with less data up to any point than the envelope announces. */
  ghost predicate Open(size: nat, buf: Message, fs: seq<Frame>) {
    && fs != [] && fs[0].Envelope? && fs[0].size == size
    && (forall i :: 1 <= i < |fs| ==> fs[i].More?)
    && (forall k :: 1 <= k <= |fs| ==> |Concat(fs[..k])| < size)
    && Concat(fs) == buf
  }

  /** One message: an envelope that announces its size, and continuations, whose data makes up the
      message with the last of them and not before. */
  ghost predicate Group(m: Message, fs: seq<Frame>) {
    && fs != [] && fs[0].Envelope? && fs[0].size == |m|
    && (forall i :: 1 <= i < |fs| ==> fs[i].More?)
    && (forall k :: 1 <= k < |fs| ==> |Concat(fs[..k])| < |m|)
    && Concat(fs) == m
  }

  ghost predicate Groups(ms: seq<Message>, groups: seq<seq<Frame>>) {
    |groups| == |ms| && forall i :: 0 <= i < |ms| ==> Group(ms[i], groups[i])
  }

  /** The frames since the last complete message, if nothing is wrong with them. */
  ghost predicate Begun(fs: seq<Frame>) { fs == [] || exists size :: Open(size, Concat(fs), fs) }

  /** Why a frame cannot follow what has been begun. */
  predicate Offends(e: ParseError, begun: seq<Frame>, f: Frame) {
    match e
    case BadFrameType => f.Unrecognized?
    case MissingEnvelope => begun == [] && f.More?
    case EnvelopeTooEarly => begun != [] && f.Envelope?
    case TooMuchData =>
      if begun == [] then f.Envelope? && |f.data| > f.size
      else begun[0].Envelope? && f.More? && |Concat(begun)| + |f.data| > begun[0].size
  }

  /** What is left behind the complete messages, for each state in which a parser may end. */
  ghost predicate Tail(fs: seq<Frame>, st: Assembly) {
    match st
    case Idle => fs == []
    case Partial(size, buf) => Open(size, buf, fs)
    case Failed(e) => exists k :: 0 <= k < |fs| && Begun(fs[..k]) && Offends(e, fs[..k], fs[k])
  }

  ghost predicate Splits(fs: seq<Frame>, p: Parse, groups: seq<seq<Frame>>, tail: seq<Frame>) {
    Groups(p.out, groups) && fs == Flatten(groups) + tail && Tail(tail, p.st)
  }

  // ---------------------------------------------------------------- what the grammar says is parsed

  lemma OpenShorter(size: nat, buf: Message, fs: seq<Frame>)
    requires Open(size, buf, fs) && |fs| > 1
    ensures var init := fs[..|fs| - 1];
            Open(size, Concat(init), init) && buf == Concat(init) + Payload(fs[|fs| - 1]) && |buf| < size
  {
    var init := fs[..|fs| - 1];
    forall k | 1 <= k <= |init| ensures |Concat(init[..k])| < size {
      assert init[..k] == fs[..k];
    }
    assert fs[..|fs|] == fs;
  }

  lemma OneFrame(p: Parse, fs: seq<Frame>)
    requires |fs| == 1
    ensures FeedAll(p, fs) == Feed(p, fs[0]) && Concat(fs) == Payload(fs[0])
  {
    assert fs[..0] == [] && FeedAll(p, []) == p;
    assert Concat(fs) == Concat([]) + Payload(fs[0]);
  }

  lemma {:induction false} OpenParse(out: seq<Message>, size: nat, buf: Message, fs: seq<Frame>)
    requires Open(size, buf, fs)
    ensures FeedAll(Parse(out, Idle), fs) == Parse(out, Partial(size, buf))
    decreases |fs|
  {
    assert fs[..|fs|] == fs;
    if |fs| == 1 {
      OneFrame(Parse(out, Idle), fs);
    } else {
      OpenShorter(size, buf, fs);
      OpenParse(out, size, Concat(fs[..|fs| - 1]), fs[..|fs| - 1]);
    }
  }

  lemma GroupParse(out: seq<Message>, m: Message, fs: seq<Frame>)
    requires Group(m, fs)
    ensures FeedAll(Parse(out, Idle), fs) == Parse(out + [m], Idle)
  {
    var init := fs[..|fs| - 1];
    if |fs| == 1 {
      OneFrame(Parse(out, Idle), fs);
    } else {
      forall k | 1 <= k <= |init| ensures |Concat(init[..k])| < |m| {
        assert init[..k] == fs[..k];
      }
      OpenParse(out, |m|, Concat(init), init);
    }
  }

  lemma {:induction false} GroupsParse(ms: seq<Message>, groups: seq<seq<Frame>>)
    requires Groups(ms, groups)
    ensures ParseAll(Flatten(groups)) == Parse(ms, Idle)
  {
    hide Group;
    if ms != [] {
      var n := |ms| - 1;
      GroupsParse(ms[..n], groups[..n]);
      ParseMore(Flatten(groups[..n]), groups[n], Parse(ms[..n], Idle));
      GroupParse(ms[..n], ms[n], groups[n]);
      assert ms[..n] + [ms[n]] == ms;
    }
  }

  lemma BegunParse(out: seq<Message>, fs: seq<Frame>)
    requires Begun(fs)
    ensures FeedAll(Parse(out, Idle), fs)
            == Parse(out, if fs == [] then Idle else Partial(fs[0].size, Concat(fs)))
    ensures fs != [] ==> fs[0].Envelope?
  {
    if fs != [] {
      var size :| Open(size, Concat(fs), fs);
      OpenParse(out, size, Concat(fs), fs);
    }
  }

  lemma FailsThere(out: seq<Message>, begun: seq<Frame>, f: Frame, e: ParseError)
    requires Begun(begun) && Offends(e, begun, f)
    ensures FeedAll(Parse(out, Idle), begun + [f]) == Parse(out, Failed(e))
  {
    BegunParse(out, begun);
    FeedSnoc(Parse(out, Idle), begun, f);
    hide Begun, FeedAll;
  }

  lemma TailParse(out: seq<Message>, fs: seq<Frame>, st: Assembly)
    requires Tail(fs, st)
    ensures FeedAll(Parse(out, Idle), fs) == Parse(out, st)
  {
    hide Begun, Open, Offends, Feed;
    match st
    case Idle =>
    case Partial(size, buf) => OpenParse(out, size, buf, fs);
    case Failed(e) =>
      var k :| 0 <= k < |fs| && Begun(fs[..k]) && Offends(e, fs[..k], fs[k]);
      FailsThere(out, fs[..k], fs[k], e);
      assert fs == (fs[..k] + [fs[k]]) + fs[k + 1..];
      FeedConcat(Parse(out, Idle), fs[..k] + [fs[k]], fs[k + 1..]);
      ParsePrefix(Parse(out, Failed(e)), fs[k + 1..]);
  }

  // ---------------------------------------------------------------- and nothing else is

  lemma OpenFirst(f: Frame)
    requires f.Envelope? && |f.data| <= f.size
    ensures |f.data| < f.size ==> Open(f.size, f.data, [f])
    ensures |f.data| == f.size ==> Group(f.data, [f])
  {
    assert Concat([f]) == [] + f.data;
    assert [f][..1] == [f];
  }

  lemma OpenNext(size: nat, buf: Message, fs: seq<Frame>, f: Frame)
    requires Open(size, buf, fs) && f.More? && |buf| + |f.data| <= size
    ensures |buf| + |f.data| < size ==> Open(size, buf + f.data, fs + [f])
    ensures |buf| + |f.data| == size ==> Group(buf + f.data, fs + [f])
  {
    ConcatSnoc(fs, f);
    assert (fs + [f])[..|fs| + 1] == fs + [f];
    forall k | 1 <= k <= |fs| ensures |Concat((fs + [f])[..k])| < size {
      assert (fs + [f])[..k] == fs[..k];
    }
  }

  lemma FailedNext(begun: seq<Frame>, f: Frame, e: ParseError)
    requires Begun(begun) && Offends(e, begun, f)
    ensures Tail(begun + [f], Failed(e))
  {
    assert (begun + [f])[..|begun|] == begun && (begun + [f])[|begun|] == f;
  }

  lemma FailedStays(tail: seq<Frame>, f: Frame, e: ParseError)
    requires Tail(tail, Failed(e))
    ensures Tail(tail + [f], Failed(e))
  {
    var k :| 0 <= k < |tail| && Begun(tail[..k]) && Offends(e, tail[..k], tail[k]);
    assert (tail + [f])[..k] == tail[..k] && (tail + [f])[k] == tail[k];
  }

  lemma GroupAdded(ms: seq<Message>, groups: seq<seq<Frame>>, m: Message, g: seq<Frame>)
    requires Groups(ms, groups) && Group(m, g)
    ensures Groups(ms + [m], groups + [g]) && Flatten(groups + [g]) == Flatten(groups) + g
  {
    assert (groups + [g])[..|groups|] == groups;
  }

  /** The next frame completes the message, or belongs to what is left behind the groups. */
  lemma TailNext(tail: seq<Frame>, st: Assembly, f: Frame)
    requires Tail(tail, st)
    ensures var p := Feed(Parse([], st), f);
            || (p.out == [] && Tail(tail + [f], p.st))
            || (p.st == Idle && exists m :: p.out == [m] && Group(m, tail + [f]))
  {
    var p := Feed(Parse([], st), f);
    match st {
      case Failed(e) => FailedStays(tail, f, e);
      case Idle =>
        assert tail + [f] == [f];
        if f.Envelope? && |f.data| <= f.size {
          OpenFirst(f);
          assert |f.data| == f.size ==> p.out == [f.data];
        } else {
          FailedNext(tail, f, p.st.error);
        }
      case Partial(size, buf) =>
        if f.More? && |buf| + |f.data| <= size {
          OpenNext(size, buf, tail, f);
          assert |buf| + |f.data| == size ==> p.out == [buf + f.data];
        } else {
          FailedNext(tail, f, p.st.error);
        }
    }
  }

  lemma FeedOut(p: Parse, f: Frame)
    ensures Feed(p, f) == Parse(p.out + Feed(Parse([], p.st), f).out, Feed(Parse([], p.st), f).st)
  {
    assert Feed(p, f).out == p.out + Feed(Parse([], p.st), f).out;
  }

  lemma SplitGroup(fs: seq<Frame>, p: Parse, groups: seq<seq<Frame>>, tail: seq<Frame>, f: Frame, m: Message)
    requires Splits(fs, p, groups, tail) && Group(m, tail + [f])
    ensures Splits(fs + [f], Parse(p.out + [m], Idle), groups + [tail + [f]], [])
  {
    GroupAdded(p.out, groups, m, tail + [f]);
    TailEmpty();
    hide Tail, Group, Groups, Flatten;
    var front := Flatten(groups);
    assert fs + [f] == front + (tail + [f]) == (front + (tail + [f])) + [];
  }

  lemma SplitTail(fs: seq<Frame>, p: Parse, groups: seq<seq<Frame>>, tail: seq<Frame>, f: Frame, st: Assembly)
    requires Splits(fs, p, groups, tail) && Tail(tail + [f], st)
    ensures Splits(fs + [f], Parse(p.out, st), groups, tail + [f])
  {
    hide Tail, Groups, Flatten;
    assert fs + [f] == Flatten(groups) + (tail + [f]);
  }

  lemma SplitNext(fs: seq<Frame>, p: Parse, groups: seq<seq<Frame>>, tail: seq<Frame>, f: Frame)
    returns (groups': seq<seq<Frame>>, tail': seq<Frame>)
    requires Splits(fs, p, groups, tail)
    ensures Splits(fs + [f], Feed(p, f), groups', tail')
  {
    FeedOut(p, f);
    assert Tail(tail, p.st);
    TailNext(tail, p.st, f);
    hide Splits, Tail, Group, Feed;
    var q := Feed(Parse([], p.st), f);
    if q.out != [] {
      var m :| q.out == [m] && Group(m, tail + [f]);
      SplitGroup(fs, p, groups, tail, f, m);
      groups', tail' := groups + [tail + [f]], [];
    } else {
      SplitTail(fs, p, groups, tail, f, q.st);
      groups', tail' := groups, tail + [f];
      assert p.out + [] == p.out;
    }
  }

  lemma NoFrames()
    ensures Splits([], ParseAll([]), [], [])
  {
  }

  lemma {:induction false} ParseSplits(fs: seq<Frame>) returns (groups: seq<seq<Frame>>, tail: seq<Frame>)
    ensures Splits(fs, ParseAll(fs), groups, tail)
  {
    hide Splits, Feed, FeedAll;
    if fs == [] {
      NoFrames();
      return [], [];
    }
    var init, f := fs[..|fs| - 1], fs[|fs| - 1];
    groups, tail := ParseSplits(init);
    FeedSnoc(START, init, f);
    groups, tail := SplitNext(init, ParseAll(init), groups, tail, f);
    assert fs == init + [f];
  }

  lemma TailEmpty()
    ensures Tail([], Idle)
  {
  }

  // ---------------------------------------------------------------- main results

  /** For every sequence of frames: the parser finds certain messages and ends in a certain state
      exactly if the frames are the groups of those messages and a rest that belongs to that
      state. In particular each error is reported exactly for its own cause. */
  lemma ParseExact(fs: seq<Frame>, p: Parse)
    ensures ParseAll(fs) == p <==> exists groups, tail :: Splits(fs, p, groups, tail)
  {
    if ParseAll(fs) == p {
      var groups, tail := ParseSplits(fs);
    }
    forall groups, tail | Splits(fs, p, groups, tail) ensures ParseAll(fs) == p {
      GroupsParse(p.out, groups);
      ParseMore(Flatten(groups), tail, Parse(p.out, Idle));
      TailParse(p.out, tail, p.st);
    }
  }

  /** The converse of `RoundTripAll`: frames that parse to messages with nothing left over are one
      group for each message. */
  lemma CompleteExact(fs: seq<Frame>, ms: seq<Message>)
    ensures ParseAll(fs) == Parse(ms, Idle) <==> exists groups :: Groups(ms, groups) && fs == Flatten(groups)
  {
    ParseExact(fs, Parse(ms, Idle));
    forall groups | Groups(ms, groups) && fs == Flatten(groups) ensures Splits(fs, Parse(ms, Idle), groups, []) {
      assert fs == Flatten(groups) + [];
    }
    forall groups, tail | Splits(fs, Parse(ms, Idle), groups, tail) ensures fs == Flatten(groups) {
      assert Flatten(groups) + [] == Flatten(groups);
    }
  }

  ghost predicate Extends(fs: seq<Frame>, more: seq<Frame>, ms: seq<Message>, groups: seq<seq<Frame>>) {
    Groups(ms, groups) && Flatten(groups) == fs + more
  }

  /** The frames are rejected exactly if they are not the front part of any sequence of messages. */
  lemma RejectedExact(fs: seq<Frame>)
    ensures ParseAll(fs).st.Failed? <==> forall more, ms, groups :: !Extends(fs, more, ms, groups)
  {
    var p := ParseAll(fs);
    if p.st.Failed? {
      forall more, ms, groups ensures !Extends(fs, more, ms, groups) {
        if Extends(fs, more, ms, groups) {
          GroupsParse(ms, groups);
          ParseMore(fs, more, p);
          ParsePrefix(p, more);
        }
      }
    } else {
      var more: seq<Frame>, ms := [], p.out;
      assert fs + [] == fs;
      if p.st.Partial? {
        PartialHasRoom(fs);
        var last := More(seq(p.st.size - |p.st.buf|, i => 0));
        FeedSnoc(START, fs, last);
        more, ms := [last], p.out + [p.st.buf + last.data];
      }
      assert ParseAll(fs + more) == Parse(ms, Idle);
      CompleteExact(fs + more, ms);
      var groups :| Groups(ms, groups) && fs + more == Flatten(groups);
      assert Extends(fs, more, ms, groups);
    }
  }

  lemma PartialHasRoom(fs: seq<Frame>)
    ensures ParseAll(fs).st.Partial? ==> |ParseAll(fs).st.buf| < ParseAll(fs).st.size
  {
    var groups, tail := ParseSplits(fs);
    if ParseAll(fs).st.Partial? {
      assert tail[..|tail|] == tail;
    }
  }

  /** The sizes announced by the envelopes among the frames, in order. */
  function Announced(fs: seq<Frame>): seq<nat> {
    if fs == [] then []
    else Announced(fs[..|fs| - 1]) + if fs[|fs| - 1].Envelope? then [fs[|fs| - 1].size] else []
  }

  /** Whatever the frames: message number i is exactly as long as envelope number i announced, and
      the message being assembled, which is the one after that, is not yet as long. */
  lemma {:induction false} AnnouncedExact(fs: seq<Frame>)
    ensures var p, sizes := ParseAll(fs), Announced(fs);
            && |p.out| <= |sizes| && (forall i :: 0 <= i < |p.out| ==> |p.out[i]| == sizes[i])
            && (p.st.Idle? ==> |sizes| == |p.out|)
            && (p.st.Partial? ==> |sizes| == |p.out| + 1 && |p.st.buf| < p.st.size == sizes[|p.out|])
  {
    if fs != [] {
      AnnouncedExact(fs[..|fs| - 1]);
    }
  }

  /** A chunking is a group: what a sender emits is in the grammar. */
  lemma ChunkingIsGroup(m: Message, maxChunk: nat, fs: seq<Frame>)
    requires Chunking(m, maxChunk, fs)
    ensures Group(m, fs)
  {
    forall k | 1 <= k < |fs| ensures |Concat(fs[..k])| < |m| {
      LaterChunks(m, maxChunk, fs, k);
    }
  }

  lemma {:induction false} LaterChunks(m: Message, maxChunk: nat, fs: seq<Frame>, k: nat)
    requires ChunkPrefix(m, maxChunk, fs) && 1 <= k < |fs|
    ensures |Concat(fs[..k])| < |Concat(fs)|
  {
    var init := fs[..|fs| - 1];
    assert |Payload(fs[|fs| - 1])| >= 1;
    if k < |init| {
      assert init[..k] == fs[..k];
      assert Concat(init) <= Concat(fs);
      LaterChunks(m, maxChunk, init, k);
    }
  }
}
