/** What holds over every run of a link: nothing is lost, reordered or rejected, no end ever
    waits for something that will not come, and every run is finite and can only stop once
    every message has been delivered. */
module Delivery {
  import opened Framing
  import opened FlowControl
  import opened Link

  // ---------------------------------------------------------------- what the invariant says

  /** The reader has assembled a prefix of what was given to be sent, and is not in the middle
      of anything malformed. */
  lemma DeliveredPrefix(c: Config, s: State)
    requires ValidConfig(c) && Inv(c, s)
    ensures Delivered(s) <= s.tx.msgs && !ParseAll(s.rx.read).st.Failed?
  {
    var later := s.rx.q.items + Frames(s.wire);
    assert s.tx.sent == s.rx.read + later;
    ParseMore(s.rx.read, later, ParseAll(s.rx.read));
    ParsePrefix(ParseAll(s.rx.read), later);
  }

  /** A reader that has been told of the end has everything. */
  lemma EndedComplete(c: Config, s: State)
    requires ValidConfig(c) && Inv(c, s) && s.rx.pc.Ended?
    ensures Delivered(s) == s.tx.msgs && ParseAll(s.rx.read).st == Idle
  {
    assert s.rx.read + s.rx.q.items + Frames(s.wire) == s.rx.read;
    assert s.tx.msgs[..s.tx.k] == s.tx.msgs;
  }

  predicate NothingInFlight(s: State) {
    s.wire == [] && s.updates == [] && !s.rx.pc.Updating? && !s.tx.pc.InHand? && !s.rx.halfClosed
  }

  lemma EmptyQueueHasRoom(c: Config, s: State)
    requires ValidConfig(c) && Inv(c, s) && s.rx.q.items == []
    ensures s.rx.q.window >= c.overhead + 1
    ensures NothingInFlight(s) && s.tx.k < |s.tx.msgs| ==> s.tx.window >= Need(c, s.tx)
  {
  }

  // ---------------------------------------------------------------- the termination measure

  /** Bytes not yet handed over, one for each message, and one for the half-close. */
  function Units(msgs: seq<Message>, k: nat): nat
    requires k <= |msgs|
    decreases |msgs| - k
  {
    if k == |msgs| then 0 else |msgs[k]| + 1 + Units(msgs, k + 1)
  }

  function Unsent(tx: Tx): nat {
    if Busy(tx) then |Rest(tx)| + 1 + Units(tx.msgs, tx.k + 1) + 1
    else if tx.pc.Closed? then 0 else 1
  }

  /** A load that has become stale costs more: it leads back to the top of the loop. */
  function SenderPhase(tx: Tx): nat {
    match tx.pc
    case Top => 3
    case Loaded(w) => if w == tx.window then 2 else 4
    case Parked => 1
    case InHand(_) => 1
    case Closed => 0
  }

  function TxWeight(tx: Tx): nat {
    14 * Unsent(tx) + SenderPhase(tx) + 4 * tx.signals + if tx.token then 3 else 0
  }

  function ConsumerPhase(pc: ConsumerPc): nat {
    match pc
    case Ready => 2
    case Waiting => 1
    case Updating(_) => 10
    case Ended => 0
  }

  function RxWeight(rx: Rx): nat {
    9 * |rx.q.items| + (if rx.halfClosed && !rx.q.closed then 9 else 0) + ConsumerPhase(rx.pc)
  }

  function Weight(s: State): nat {
    TxWeight(s.tx) + RxWeight(s.rx) + 11 * |s.wire| + 7 * |s.updates|
  }

  lemma TxWeightDrops(c: Config, tx: Tx, step: Step)
    requires TxInv(c, tx) && TxEnabled(c, tx, step)
    ensures TxWeight(TxDo(c, tx, step).0) + 11 * |TxDo(c, tx, step).1| < TxWeight(tx)
  {
    if step.Emit? {
      var tx' := TxDo(c, tx, step).0;
      assert Unsent(tx') < Unsent(tx);
    }
  }

  lemma TxApplyWeight(c: Config, tx: Tx, n: uint32)
    ensures TxWeight(TxApply(c, tx, n)) < TxWeight(tx) + 7
  {
  }

  lemma RxWeightDrops(c: Config, rx: Rx, step: Step)
    requires ValidConfig(c) && RxEnabled(rx, step)
    ensures RxWeight(RxDo(c, rx, step).0) + 7 * |RxDo(c, rx, step).1| < RxWeight(rx)
  {
  }

  lemma RxReceiveWeight(c: Config, rx: Rx, i: Item)
    requires ValidConfig(c)
    ensures RxWeight(RxReceive(c, rx, i)) < RxWeight(rx) + 11
  {
  }

  /** Every step of every interleaving uses the measure up. */
  lemma WeightDrops(c: Config, s: State, step: Step)
    requires ValidConfig(c) && Inv(c, s) && Enabled(c, s, step)
    ensures Weight(Do(c, s, step)) < Weight(s)
  {
    if TxStep(step) {
      TxWeightDrops(c, s.tx, step);
    } else if RxStep(step) {
      RxWeightDrops(c, s.rx, step);
    } else if step.Deliver? {
      RxReceiveWeight(c, s.rx, s.wire[0]);
    } else {
      TxApplyWeight(c, s.tx, s.updates[0]);
    }
  }

  // ---------------------------------------------------------------- liveness

  /** No step at all can be taken. */
  ghost predicate Stuck(c: Config, s: State) { forall step :: !Enabled(c, s, step) }

  lemma StuckSender(c: Config, tx: Tx)
    requires TxInv(c, tx) && forall step :: TxStep(step) ==> !TxEnabled(c, tx, step)
    ensures tx.signals == 0 && (tx.pc.Closed? || (tx.pc.Parked? && tx.k < |tx.msgs| && tx.window < Need(c, tx)))
  {
    assert TxStep(Load) && TxStep(Finish) && TxStep(Park) && TxStep(Swap) && TxStep(Wake) && TxStep(Signal) && TxStep(Emit);
  }

  lemma StuckReceiver(rx: Rx)
    requires ConsumerInv(rx) && forall step :: RxStep(step) ==> !RxEnabled(rx, step)
    ensures rx.q.items == [] && (rx.pc.Ended? || (rx.pc.Waiting? && !rx.halfClosed))
  {
    assert RxStep(Check) && RxStep(SendUpdate) && RxStep(CloseReceiver);
  }

  /** The only way to get stuck is to have finished. */
  lemma StuckIsDone(c: Config, s: State)
    requires ValidConfig(c) && Inv(c, s) && Stuck(c, s)
    ensures s.rx.pc.Ended? && s.tx.pc.Closed? && Delivered(s) == s.tx.msgs
  {
    hide TxEnabled, RxEnabled, CreditInv, FlowInv, ParseAll;
    assert !Enabled(c, s, Deliver) && !Enabled(c, s, Apply);
    forall step
      ensures TxStep(step) ==> !TxEnabled(c, s.tx, step)
      ensures RxStep(step) ==> !RxEnabled(s.rx, step)
    {
      assert !Enabled(c, s, step);
    }
    StuckSender(c, s.tx);
    StuckReceiver(s.rx);
    EmptyQueueHasRoom(c, s);
    EndedComplete(c, s);
  }

  lemma MsgsKept(c: Config, s: State, step: Step)
    requires ValidConfig(c) && Enabled(c, s, step)
    ensures Do(c, s, step).tx.msgs == s.tx.msgs
  {
  }

  lemma {:induction false} RunInv(c: Config, s: State, steps: seq<Step>, t: State)
    requires ValidConfig(c) && Inv(c, s) && Reaches(c, s, steps, t)
    ensures Inv(c, t) && t.tx.msgs == s.tx.msgs && |steps| + Weight(t) <= Weight(s)
    decreases steps
  {
    hide Inv, Do, Enabled, Weight;
    if steps != [] {
      var next := Do(c, s, steps[0]);
      StepInv(c, s, steps[0]);
      WeightDrops(c, s, steps[0]);
      MsgsKept(c, s, steps[0]);
      RunInv(c, next, steps[1..], t);
    }
  }

  // ---------------------------------------------------------------- over every run

  /** Credit conservation: until the receiving end is half-closed, all credit is somewhere: with
      the sender, paid for a chunk in hand or on the wire, queued, waiting to be acknowledged,
      or in an update. So no counter can wrap, and the check of the window never fails. */
  lemma CreditConserved(c: Config, msgs: seq<Message>, steps: seq<Step>, t: State)
    requires ValidConfig(c) && Reaches(c, Init(c, msgs), steps, t)
    ensures !t.rx.violated
    ensures !t.rx.halfClosed ==>
              t.tx.window + HandCharge(c, t.tx) + TotalCharge(c.overhead, Frames(t.wire)) + Sum(t.updates)
              + UpdateInHand(t.rx) + TotalCharge(c.overhead, t.rx.q.items) + t.rx.q.ack == c.initial
  {
    InitInv(c, msgs);
    RunInv(c, Init(c, msgs), steps, t);
  }

  /** Stall freedom. With an empty queue the receiver's view of the window has room for the
      overhead and a byte, however large the update minimum; so once nothing is in flight the
      sender has what its next chunk needs, be it a first, a later or an empty one. */
  lemma StallFree(c: Config, msgs: seq<Message>, steps: seq<Step>, t: State)
    requires ValidConfig(c) && Reaches(c, Init(c, msgs), steps, t) && t.rx.q.items == []
    ensures t.rx.q.window >= c.overhead + 1
    ensures NothingInFlight(t) && t.tx.k < |msgs| ==> t.tx.msgs == msgs && Busy(t.tx) && t.tx.window >= Need(c, t.tx)
  {
    InitInv(c, msgs);
    RunInv(c, Init(c, msgs), steps, t);
    EmptyQueueHasRoom(c, t);
  }

  /** No lost wake-up: a parked sender is still short of credit, or a token or a signal is on
      its way; a waiting consumer has an empty queue that is neither closed nor cancelled. */
  lemma NoLostWakeup(c: Config, msgs: seq<Message>, steps: seq<Step>, t: State)
    requires ValidConfig(c) && Reaches(c, Init(c, msgs), steps, t)
    ensures t.tx.pc.Parked? ==> Busy(t.tx) && (t.tx.window < Need(c, t.tx) || t.tx.token || t.tx.signals > 0)
    ensures t.rx.pc.Waiting? ==> t.rx.q.items == [] && !t.rx.q.closed && !t.rx.q.cancelled
  {
    InitInv(c, msgs);
    RunInv(c, Init(c, msgs), steps, t);
  }

  datatype SenderEvent = Own(step: Step) | FromPeer(n: uint32)

  ghost predicate SenderReaches(c: Config, tx: Tx, es: seq<SenderEvent>, t: Tx)
    decreases es
  {
    if es == [] then tx == t
    else
      match es[0]
      case Own(step) => TxEnabled(c, tx, step) && SenderReaches(c, TxDo(c, tx, step).0, es[1..], t)
      case FromPeer(n) => SenderReaches(c, TxApply(c, tx, n), es[1..], t)
  }

  /** The sender's wake-ups are safe against any peer, including one whose updates make the
      window wrap around. */
  lemma {:induction false} AnyPeerWakesSender(c: Config, tx: Tx, es: seq<SenderEvent>, t: Tx)
    requires ValidConfig(c) && TxInv(c, tx) && SenderReaches(c, tx, es, t)
    ensures TxInv(c, t)
    ensures t.pc.Parked? ==> Busy(t) && (t.window < Need(c, t) || t.token || t.signals > 0)
    decreases es
  {
    if es != [] {
      match es[0]
      case Own(step) =>
        OwnStepInv(c, tx, step);
        AnyPeerWakesSender(c, TxDo(c, tx, step).0, es[1..], t);
      case FromPeer(n) =>
        ApplyWakes(c, tx, n);
        AnyPeerWakesSender(c, TxApply(c, tx, n), es[1..], t);
    }
  }

  lemma OwnStepInv(c: Config, tx: Tx, step: Step)
    requires ValidConfig(c) && TxInv(c, tx) && TxEnabled(c, tx, step)
    ensures TxInv(c, TxDo(c, tx, step).0)
  {
  }

  /** The frames sent so far: a chunking of every message that is done, and the beginning of one
      of the message in progress. */
  ghost predicate Chunked(c: Config, tx: Tx, groups: seq<seq<Frame>>, cur: seq<Frame>) {
    && tx.k <= |tx.msgs| && Chunkings(tx.msgs[..tx.k], ChunkMax(c), groups) && tx.sent == Flatten(groups) + cur
    && (if tx.k == |tx.msgs| then cur == []
        else
          && Busy(tx) && ChunkPrefix(tx.msgs[tx.k], ChunkMax(c), cur) && tx.msgs[tx.k] == Concat(cur) + Rest(tx)
          && (cur != [] ==> Rest(tx) != []) && (First(tx) <==> cur == []))
    && (tx.pc.InHand? ==>
          Busy(tx) && tx.pc.n <= |Rest(tx)| && tx.pc.n <= ChunkMax(c) && (Rest(tx) != [] ==> tx.pc.n > 0))
  }

  lemma GroupDone(ms: seq<Message>, maxChunk: nat, groups: seq<seq<Frame>>, m: Message, g: seq<Frame>)
    requires Chunkings(ms, maxChunk, groups) && Chunking(m, maxChunk, g)
    ensures Chunkings(ms + [m], maxChunk, groups + [g]) && Flatten(groups + [g]) == Flatten(groups) + g
  {
    assert (groups + [g])[..|groups|] == groups;
  }

  lemma EmitChunked(c: Config, tx: Tx, groups: seq<seq<Frame>>, cur: seq<Frame>)
    returns (groups': seq<seq<Frame>>, cur': seq<Frame>)
    requires Chunked(c, tx, groups, cur) && TxEnabled(c, tx, Emit)
    ensures Chunked(c, TxDo(c, tx, Emit).0, groups', cur')
  {
    hide ChunkPrefix, Chunkings, Flatten, Concat;
    var m, n, ms := tx.msgs[tx.k], tx.pc.n, tx.msgs[..tx.k];
    var next := cur + [NextFrame(m, First(tx), Rest(tx), n)];
    var tx' := TxDo(c, tx, Emit).0;
    ChunkPrefixNext(m, ChunkMax(c), cur, Rest(tx), n);
    assert tx'.sent == Flatten(groups) + next;
    if n == |Rest(tx)| {
      assert Chunking(m, ChunkMax(c), next) by {
        assert Rest(tx)[n..] == [] && Concat(next) + [] == Concat(next);
      }
      GroupDone(ms, ChunkMax(c), groups, m, next);
      assert tx'.msgs[..tx'.k] == ms + [m];
      groups', cur' := groups + [next], [];
      assert tx'.sent == Flatten(groups') + cur';
      if tx'.k < |tx'.msgs| {
        NothingSentYet(tx'.msgs[tx'.k], ChunkMax(c));
        assert Rest(tx') == tx'.msgs[tx'.k];
      }
    } else {
      groups', cur' := groups, next;
      assert Rest(tx') == Rest(tx)[n..];
    }
  }

  lemma NothingSentYet(m: Message, maxChunk: nat)
    ensures ChunkPrefix(m, maxChunk, []) && Concat([]) + m == m
  {
  }

  lemma QuietChunked(c: Config, tx: Tx, groups: seq<seq<Frame>>, cur: seq<Frame>, step: Step)
    requires ValidConfig(c) && Chunked(c, tx, groups, cur) && !step.Emit? && TxEnabled(c, tx, step)
    ensures Chunked(c, TxDo(c, tx, step).0, groups, cur) && TxDo(c, tx, step).0.msgs == tx.msgs
  {
    hide ChunkPrefix, Chunkings, Flatten, Concat;
  }

  lemma PeerChunked(c: Config, tx: Tx, groups: seq<seq<Frame>>, cur: seq<Frame>, n: uint32)
    requires ValidConfig(c) && Chunked(c, tx, groups, cur)
    ensures Chunked(c, TxApply(c, tx, n), groups, cur) && TxApply(c, tx, n).msgs == tx.msgs
  {
    hide ChunkPrefix, Chunkings, Flatten, Concat;
  }

  lemma {:induction false} ChunksFrom(c: Config, tx: Tx, groups: seq<seq<Frame>>, cur: seq<Frame>, es: seq<SenderEvent>, t: Tx)
    returns (groups': seq<seq<Frame>>, cur': seq<Frame>)
    requires ValidConfig(c) && Chunked(c, tx, groups, cur) && SenderReaches(c, tx, es, t)
    ensures Chunked(c, t, groups', cur') && t.msgs == tx.msgs
    decreases es
  {
    hide Chunked, TxDo, TxApply, TxEnabled;
    groups', cur' := groups, cur;
    if es != [] {
      match es[0]
      case Own(step) =>
        if step.Emit? {
          groups', cur' := EmitChunked(c, tx, groups, cur);
          EmitKeepsMsgs(c, tx);
        } else {
          QuietChunked(c, tx, groups, cur, step);
        }
        groups', cur' := ChunksFrom(c, TxDo(c, tx, step).0, groups', cur', es[1..], t);
      case FromPeer(n) =>
        PeerChunked(c, tx, groups, cur, n);
        groups', cur' := ChunksFrom(c, TxApply(c, tx, n), groups', cur', es[1..], t);
    }
  }

  /** Whatever the peer grants and whenever: the step system's sender hands out its messages one
      after the other, each in frames that the contract of `Sender.Send` allows. */
  lemma SenderChunks(c: Config, msgs: seq<Message>, es: seq<SenderEvent>, t: Tx)
    returns (groups: seq<seq<Frame>>, cur: seq<Frame>)
    requires ValidConfig(c) && SenderReaches(c, InitTx(c, msgs), es, t)
    ensures t.k <= |msgs| && Chunkings(msgs[..t.k], ChunkMax(c), groups) && t.sent == Flatten(groups) + cur
    ensures t.k < |msgs| ==> ChunkPrefix(msgs[t.k], ChunkMax(c), cur) && !Chunking(msgs[t.k], ChunkMax(c), cur)
    ensures t.k == |msgs| ==> cur == []
  {
    var tx := InitTx(c, msgs);
    if msgs != [] {
      NothingSentYet(msgs[0], ChunkMax(c));
      assert Rest(tx) == msgs[0];
    }
    assert Chunked(c, tx, [], []);
    groups, cur := ChunksFrom(c, tx, [], [], es, t);
  }

  lemma EmitKeepsMsgs(c: Config, tx: Tx)
    requires TxEnabled(c, tx, Emit)
    ensures TxDo(c, tx, Emit).0.msgs == tx.msgs
  {
  }

  /** Total delivery. For any messages, overhead, window of at least the overhead and a byte,
      maximum chunk and update minimum: no run is longer than the measure of the start, and
      along every run what is read is a prefix of what is sent, nothing is rejected, and a
      run that cannot be extended has delivered every message and reported the end. */
  lemma TotalDelivery(c: Config, msgs: seq<Message>, steps: seq<Step>, t: State)
    requires ValidConfig(c) && Reaches(c, Init(c, msgs), steps, t)
    ensures |steps| + Weight(t) <= Weight(Init(c, msgs))
    ensures Delivered(t) <= msgs && !t.rx.violated
    ensures t.rx.pc.Ended? ==> Delivered(t) == msgs
    ensures Stuck(c, t) ==> t.rx.pc.Ended? && Delivered(t) == msgs
  {
    InitInv(c, msgs);
    RunInv(c, Init(c, msgs), steps, t);
    DeliveredPrefix(c, t);
    if t.rx.pc.Ended? {
      EndedComplete(c, t);
    }
    if Stuck(c, t) {
      StuckIsDone(c, t);
    }
  }
}
