/** One direction of one stream as a step system: a sender, the data wire, the receiver's
    queue, its single consumer, and the wire of window updates.

    The steps are as fine as the code's atomic operations: loading the window, parking,
    waking, the compare-and-swap, handing a chunk to the transport, the atomic addition of
    `updateWindow` and its later signal, the critical sections of the receiver, and the
    sending of an update after the receiver's lock is released. */
module Link {
  import opened Framing
  import opened FlowControl

  // ---------------------------------------------------------------- configuration

  datatype Config = Config(overhead: nat, initial: nat, maxChunk: nat, minUpdate: nat)

  predicate ValidConfig(c: Config) {
    c.overhead + 1 <= c.initial < UINT32_LIMIT && c.maxChunk >= 1
  }

  /** The clamps of `newSender` and `newReceiver`. */
  function ChunkMax(c: Config): nat { Min(c.maxChunk, c.initial) }

  function LimitsOf(c: Config): Limits
    requires ValidConfig(c)
  {
    Limits(c.overhead, c.initial, Min(c.minUpdate, c.initial))
  }

  // ---------------------------------------------------------------- state

  datatype Item = Data(f: Frame) | HalfClose

  datatype SenderPc = Top | Loaded(w: nat) | Parked | InHand(n: nat) | Closed

  /** The sending end: message `k` of `msgs` is being sent and `off` bytes of it are gone.
      `signals` counts calls of `updateWindow` that have added but not yet signalled. */
  datatype Tx = Tx(msgs: seq<Message>, k: nat, off: nat, pc: SenderPc,
                   window: uint32, token: bool, signals: nat, sent: seq<Frame>)

  datatype ConsumerPc = Ready | Waiting | Updating(n: uint32) | Ended

  /** The receiving end. `read` are the frames the consumer has dequeued. */
  datatype Rx = Rx(q: Queue, halfClosed: bool, pc: ConsumerPc, read: seq<Frame>, violated: bool)

  datatype State = State(tx: Tx, rx: Rx, wire: seq<Item>, updates: seq<uint32>)

  datatype Step =
    | Load | Park | Wake | Swap | Emit | Finish | Signal      // the sending end
    | Check | SendUpdate | CloseReceiver                      // the receiving end
    | Deliver | Apply                                         // the receive loops

  function Init(c: Config, msgs: seq<Message>): State
    requires ValidConfig(c)
  {
    State(InitTx(c, msgs), InitRx(c), [], [])
  }

  function InitTx(c: Config, msgs: seq<Message>): Tx
    requires ValidConfig(c)
  {
    Tx(msgs, 0, 0, Top, c.initial, false, 0, [])
  }

  function InitRx(c: Config): Rx
    requires ValidConfig(c)
  {
    Rx(EmptyQueue(LimitsOf(c)), false, Ready, [], false)
  }

  // ---------------------------------------------------------------- the sending end

  predicate Busy(tx: Tx) { tx.k < |tx.msgs| && tx.off <= |tx.msgs[tx.k]| }

  function Rest(tx: Tx): Message
    requires Busy(tx)
  {
    tx.msgs[tx.k][tx.off..]
  }

  predicate First(tx: Tx) { tx.off == 0 }

  function Need(c: Config, tx: Tx): nat
    requires Busy(tx)
  {
    Needed(c.overhead, First(tx), |Rest(tx)|)
  }

  predicate TxStep(s: Step) {
    s.Load? || s.Park? || s.Wake? || s.Swap? || s.Emit? || s.Finish? || s.Signal?
  }

  predicate TxEnabled(c: Config, tx: Tx, s: Step) {
    match s
    case Load => tx.pc.Top? && Busy(tx)
    case Park => tx.pc.Loaded? && Busy(tx) && tx.pc.w < Need(c, tx)
    case Wake => tx.pc.Parked? && tx.token
    case Swap => tx.pc.Loaded? && Busy(tx) && tx.pc.w >= Need(c, tx)
    case Emit => tx.pc.InHand? && Busy(tx) && tx.pc.n <= |Rest(tx)|
    case Finish => tx.pc.Top? && tx.k == |tx.msgs|
    case Signal => tx.signals > 0
    case _ => false
  }

  /** The new sending end, and what it puts on the data wire. */
  function TxDo(c: Config, tx: Tx, s: Step): (Tx, seq<Item>)
    requires TxEnabled(c, tx, s)
  {
    match s
    case Load => (tx.(pc := Loaded(tx.window)), [])
    case Park => (tx.(pc := Parked), [])
    case Wake => (tx.(pc := Top, token := false), [])
    case Swap =>
      if tx.window != tx.pc.w then (tx.(pc := Top), [])
      else
        var n := ChunkSize(c.overhead, First(tx), |Rest(tx)|, ChunkMax(c), tx.window);
        (tx.(pc := InHand(n), window := tx.window - ChunkOverhead(c.overhead, First(tx)) - n), [])
    case Emit =>
      var f := NextFrame(tx.msgs[tx.k], First(tx), Rest(tx), tx.pc.n);
      var tx' := tx.(pc := Top, sent := tx.sent + [f]);
      (if tx.pc.n == |Rest(tx)| then tx'.(k := tx.k + 1, off := 0) else tx'.(off := tx.off + tx.pc.n), [Data(f)])
    case Finish => (tx.(pc := Closed), [HalfClose])
    case Signal => (tx.(signals := tx.signals - 1, token := true), [])
  }

  /** The sending end's receive loop applies an update: the atomic addition, with the signal still to come. */
  function TxApply(c: Config, tx: Tx, n: uint32): Tx {
    if n == 0 then tx
    else tx.(window := AddWindow(tx.window, n),
             signals := tx.signals + if WakesSender(c.overhead, tx.window) then 1 else 0)
  }

  // ---------------------------------------------------------------- the receiving end

  predicate RxStep(s: Step) { s.Check? || s.SendUpdate? || s.CloseReceiver? }

  predicate RxEnabled(rx: Rx, s: Step) {
    match s
    case Check => rx.pc.Ready?
    case SendUpdate => rx.pc.Updating?
    case CloseReceiver => rx.halfClosed && !rx.q.closed
    case _ => false
  }

  /** A signal or broadcast of the condition variable. */
  function WakeConsumer(rx: Rx, doit: bool): ConsumerPc {
    if doit && rx.pc.Waiting? then Ready else rx.pc
  }

  /** The new receiving end, and the updates it puts on the update wire. */
  function RxDo(c: Config, rx: Rx, s: Step): (Rx, seq<uint32>)
    requires ValidConfig(c) && RxEnabled(rx, s)
  {
    match s
    case Check =>
      if rx.q.cancelled then (rx.(pc := Ended), [])
      else if rx.q.items != [] then
        var (q, update) := Take(LimitsOf(c), rx.q);
        (rx.(q := q, read := rx.read + [rx.q.items[0]], pc := if update > 0 then Updating(update) else Ready), [])
      else if rx.q.closed then (rx.(pc := Ended), [])
      else (rx.(pc := Waiting), [])
    case SendUpdate => (rx.(pc := Ready), if rx.halfClosed then [] else [rx.pc.n])
    case CloseReceiver =>
      (rx.(q := CloseQueue(rx.q), pc := WakeConsumer(rx, rx.q.items == [])), [])
  }

  /** The receiving end's receive loop handles a frame. */
  function RxReceive(c: Config, rx: Rx, i: Item): Rx
    requires ValidConfig(c)
  {
    match i
    case HalfClose => rx.(halfClosed := true)
    case Data(f) =>
      var (q, ok) := Accept(LimitsOf(c), rx.q, f);
      if ok then rx.(q := q, pc := WakeConsumer(rx, rx.q.items == [] && !rx.q.closed)) else rx.(violated := true)
  }

  // ---------------------------------------------------------------- the whole link

  predicate Enabled(c: Config, s: State, step: Step) {
    if TxStep(step) then TxEnabled(c, s.tx, step)
    else if RxStep(step) then RxEnabled(s.rx, step)
    else if step.Deliver? then s.wire != []
    else s.updates != []
  }

  function Do(c: Config, s: State, step: Step): State
    requires ValidConfig(c) && Enabled(c, s, step)
  {
    if TxStep(step) then
      var (tx, out) := TxDo(c, s.tx, step);
      s.(tx := tx, wire := s.wire + out)
    else if RxStep(step) then
      var (rx, out) := RxDo(c, s.rx, step);
      s.(rx := rx, updates := s.updates + out)
    else if step.Deliver? then
      s.(rx := RxReceive(c, s.rx, s.wire[0]), wire := s.wire[1..])
    else
      s.(tx := TxApply(c, s.tx, s.updates[0]), updates := s.updates[1..])
  }

  /** `t` is reached from `s` by the given steps, each enabled in its turn. */
  ghost predicate Reaches(c: Config, s: State, steps: seq<Step>, t: State)
    requires ValidConfig(c)
    decreases steps
  {
    if steps == [] then s == t
    else Enabled(c, s, steps[0]) && Reaches(c, Do(c, s, steps[0]), steps[1..], t)
  }

  /** What the reader has been able to assemble. */
  function Delivered(s: State): seq<Message> { ParseAll(s.rx.read).out }

  // ---------------------------------------------------------------- invariants

  /** Progress of the sending loop, and no lost wake-up: a sender that is parked, or about
      to park, is still short of credit, or will be woken. */
  predicate TxInv(c: Config, tx: Tx) {
    && tx.k <= |tx.msgs|
    && (tx.k == |tx.msgs| ==> tx.off == 0 && (tx.pc.Top? || tx.pc.Closed?))
    && (tx.pc.Closed? ==> tx.k == |tx.msgs|)
    && (tx.k < |tx.msgs| ==>
          && Busy(tx)
          && (tx.off > 0 ==> tx.off < |tx.msgs[tx.k]|)
          && (tx.pc.Parked? || (tx.pc.Loaded? && tx.pc.w < Need(c, tx)) ==>
                tx.window < Need(c, tx) || tx.token || tx.signals > 0)
          && (tx.pc.InHand? ==> tx.pc.n <= |Rest(tx)| && (Rest(tx) != [] ==> tx.pc.n > 0)))
  }

  /** What the frames sent so far parse to. */
  function SentParse(tx: Tx): Parse
    requires tx.k <= |tx.msgs| && (tx.off > 0 ==> Busy(tx))
  {
    Parse(tx.msgs[..tx.k],
          if tx.off == 0 then Idle else Partial(|tx.msgs[tx.k]|, tx.msgs[tx.k][..tx.off]))
  }

  function Sum(ns: seq<uint32>): nat { if ns == [] then 0 else ns[0] + Sum(ns[1..]) }

  function Frames(wire: seq<Item>): seq<Frame> {
    if wire == [] then []
    else (if wire[0].Data? then [wire[0].f] else []) + Frames(wire[1..])
  }

  /** Charge of a chunk that has been paid for but is not yet on the wire. */
  function HandCharge(c: Config, tx: Tx): nat {
    if tx.pc.InHand? then tx.pc.n + ChunkOverhead(c.overhead, First(tx)) else 0
  }

  function UpdateInHand(rx: Rx): nat { if rx.pc.Updating? then rx.pc.n else 0 }

  function Outstanding(c: Config, s: State): nat {
    s.tx.window + HandCharge(c, s.tx) + TotalCharge(c.overhead, Frames(s.wire)) + Sum(s.updates) + UpdateInHand(s.rx)
  }

  /** Credit conservation between the two ends: exact until the receiving end is half-closed,
      after which it stops sending updates. */
  predicate CreditInv(c: Config, s: State)
    requires ValidConfig(c)
  {
    && Balanced(LimitsOf(c), s.rx.q)
    && Outstanding(c, s) <= s.rx.q.window
    && (!s.rx.halfClosed ==> Outstanding(c, s) == s.rx.q.window)
  }

  /** No lost wake-up of the single consumer. */
  predicate ConsumerInv(rx: Rx) {
    && (rx.pc.Waiting? ==> rx.q.items == [] && !rx.q.closed)
    && (rx.pc.Ended? ==> rx.q.items == [] && rx.q.closed)
    && (rx.q.closed ==> rx.halfClosed)
    && !rx.q.cancelled && !rx.violated
  }

  /** The half-close is the last thing on the wire and the last thing to arrive. */
  predicate EndInv(s: State) {
    && (forall i :: 0 <= i < |s.wire| - 1 ==> s.wire[i].Data?)
    && (s.tx.pc.Closed? <==> (s.rx.halfClosed || (s.wire != [] && s.wire[|s.wire| - 1].HalfClose?)))
    && (s.rx.halfClosed ==> s.wire == [])
  }

  predicate FlowInv(s: State) {
    s.tx.sent == s.rx.read + s.rx.q.items + Frames(s.wire)
  }

  predicate Inv(c: Config, s: State)
    requires ValidConfig(c)
  {
    && TxInv(c, s.tx) && ParseAll(s.tx.sent) == SentParse(s.tx)
    && CreditInv(c, s) && ConsumerInv(s.rx) && EndInv(s) && FlowInv(s)
  }

  lemma InitInv(c: Config, msgs: seq<Message>)
    requires ValidConfig(c)
    ensures Inv(c, Init(c, msgs))
  {
  }

  // ---------------------------------------------------------------- preservation

  lemma {:induction false} FramesConcat(a: seq<Item>, b: seq<Item>)
    ensures Frames(a + b) == Frames(a) + Frames(b)
  {
    if a == [] {
      assert a + b == b;
    } else {
      assert (a + b)[0] == a[0] && (a + b)[1..] == a[1..] + b;
      FramesConcat(a[1..], b);
      var front := if a[0].Data? then [a[0].f] else [];
      assert front + (Frames(a[1..]) + Frames(b)) == (front + Frames(a[1..])) + Frames(b);
    }
  }

  lemma {:induction false} SumSnoc(ns: seq<uint32>, n: uint32)
    ensures Sum(ns + [n]) == Sum(ns) + n
  {
    if ns == [] {
      assert (ns + [n])[1..] == [];
    } else {
      assert (ns + [n])[1..] == ns[1..] + [n];
      SumSnoc(ns[1..], n);
    }
  }

  lemma QuietInv(c: Config, s: State, tx: Tx)
    requires ValidConfig(c) && Inv(c, s) && TxInv(c, tx) && !tx.pc.Closed? && !s.tx.pc.Closed?
    requires tx.msgs == s.tx.msgs && tx.k == s.tx.k && tx.off == s.tx.off && tx.sent == s.tx.sent
    requires tx.window + HandCharge(c, tx) == s.tx.window + HandCharge(c, s.tx)
    ensures Inv(c, s.(tx := tx))
  {
  }

  lemma TxQuiet(c: Config, s: State, step: Step)
    requires ValidConfig(c) && Inv(c, s) && Enabled(c, s, step)
    requires step.Load? || step.Park? || step.Wake? || step.Swap?
    ensures Inv(c, Do(c, s, step))
  {
    var (tx, out) := TxDo(c, s.tx, step);
    assert s.wire + out == s.wire;
    assert TxInv(c, tx);
    QuietInv(c, s, tx);
  }

  lemma SignalInv(c: Config, s: State)
    requires ValidConfig(c) && Inv(c, s) && Enabled(c, s, Signal)
    ensures Inv(c, Do(c, s, Signal))
  {
    assert s.wire + [] == s.wire;
  }

  /** Handing over a chunk moves the parse of everything sent to the sender's new position. */
  lemma EmitParse(c: Config, tx: Tx)
    requires TxInv(c, tx) && TxEnabled(c, tx, Emit) && ParseAll(tx.sent) == SentParse(tx)
    ensures TxInv(c, TxDo(c, tx, Emit).0)
    ensures ParseAll(TxDo(c, tx, Emit).0.sent) == SentParse(TxDo(c, tx, Emit).0)
  {
    var m := tx.msgs[tx.k];
    var n := tx.pc.n;
    var f := NextFrame(m, First(tx), Rest(tx), n);
    var tx' := TxDo(c, tx, Emit).0;
    FeedSnoc(START, tx.sent, f);
    EmitFeed(tx.msgs[..tx.k], m, tx.off, n);
    assert tx.msgs[..tx.k] + [m] == tx.msgs[..tx.k + 1];
    if n == |Rest(tx)| {
      assert SentParse(tx') == Parse(tx.msgs[..tx.k + 1], Idle);
    } else {
      assert SentParse(tx') == Parse(tx.msgs[..tx.k], Partial(|m|, m[..tx.off + n]));
    }
  }

  lemma EmitFeed(out: seq<Message>, m: Message, off: nat, n: nat)
    requires off + n <= |m| && (off > 0 ==> off < |m|) && (off < |m| ==> n > 0)
    ensures Feed(Parse(out, if off == 0 then Idle else Partial(|m|, m[..off])), NextFrame(m, off == 0, m[off..], n))
            == if off + n == |m| then Parse(out + [m], Idle) else Parse(out, Partial(|m|, m[..off + n]))
  {
    assert m[..off] + m[off..][..n] == m[..off + n];
    assert off == 0 ==> m[off..][..n] == m[..n];
    assert off + n == |m| ==> m[..off + n] == m;
  }

  lemma DataSnoc(overhead: nat, wire: seq<Item>, f: Frame)
    ensures Frames(wire + [Data(f)]) == Frames(wire) + [f]
    ensures TotalCharge(overhead, Frames(wire + [Data(f)])) == TotalCharge(overhead, Frames(wire)) + Charge(overhead, f)
  {
    FramesConcat(wire, [Data(f)]);
    assert Frames([Data(f)]) == [f] by { assert [Data(f)][1..] == []; }
    TotalChargeSnoc(overhead, Frames(wire), f);
  }

  lemma EmitEnd(s: State, s': State, f: Frame)
    requires EndInv(s) && !s.tx.pc.Closed? && !s'.tx.pc.Closed?
    requires s'.rx == s.rx && s'.wire == s.wire + [Data(f)]
    ensures EndInv(s')
  {
  }

  lemma EmitCredit(c: Config, s: State, s': State, f: Frame)
    requires ValidConfig(c) && CreditInv(c, s)
    requires s'.rx == s.rx && s'.wire == s.wire + [Data(f)] && s'.updates == s.updates
    requires s'.tx.window + HandCharge(c, s'.tx) + Charge(c.overhead, f) == s.tx.window + HandCharge(c, s.tx)
    ensures CreditInv(c, s')
  {
    DataSnoc(c.overhead, s.wire, f);
  }

  lemma EmitFlow(c: Config, s: State, s': State, f: Frame)
    requires FlowInv(s) && s'.rx == s.rx && s'.wire == s.wire + [Data(f)] && s'.tx.sent == s.tx.sent + [f]
    ensures FlowInv(s')
  {
    DataSnoc(c.overhead, s.wire, f);
  }

  lemma EmitInv(c: Config, s: State)
    requires ValidConfig(c) && Inv(c, s) && Enabled(c, s, Emit)
    ensures Inv(c, Do(c, s, Emit))
  {
    var f := NextFrame(s.tx.msgs[s.tx.k], First(s.tx), Rest(s.tx), s.tx.pc.n);
    var (tx, out) := TxDo(c, s.tx, Emit);
    var s' := s.(tx := tx, wire := s.wire + [Data(f)]);
    assert Do(c, s, Emit) == s';
    EmitParse(c, s.tx);
    EmitEnd(s, s', f);
    EmitCredit(c, s, s', f);
    EmitFlow(c, s, s', f);
  }

  lemma FinishInv(c: Config, s: State)
    requires ValidConfig(c) && Inv(c, s) && Enabled(c, s, Finish)
    ensures Inv(c, Do(c, s, Finish))
  {
    hide Balanced;
    FramesConcat(s.wire, [HalfClose]);
    assert Frames([HalfClose]) == [];
    assert Frames(s.wire) + [] == Frames(s.wire);
  }

  /** A dequeue gives the window exactly the update that is now in the consumer's hand. */
  lemma TakeCredit(c: Config, s: State, s': State)
    requires ValidConfig(c) && CreditInv(c, s) && s.rx.q.items != [] && !s.rx.pc.Updating?
    requires s'.tx == s.tx && s'.wire == s.wire && s'.updates == s.updates && s'.rx.halfClosed == s.rx.halfClosed
    requires (s'.rx.q, UpdateInHand(s'.rx)) == Take(LimitsOf(c), s.rx.q)
    ensures CreditInv(c, s')
  {
    TakeBalanced(LimitsOf(c), s.rx.q);
  }

  lemma TakeInv(c: Config, s: State, s': State, q: Queue, update: uint32)
    requires ValidConfig(c) && Inv(c, s) && s.rx.pc.Ready? && s.rx.q.items != []
    requires (q, update) == Take(LimitsOf(c), s.rx.q)
    requires s' == s.(rx := s'.rx)
    requires s'.rx == s.rx.(q := q, read := s.rx.read + [s.rx.q.items[0]], pc := if update > 0 then Updating(update) else Ready)
    ensures Inv(c, s')
  {
    TakeCredit(c, s, s');
    assert s'.rx.read + q.items == s.rx.read + s.rx.q.items;
  }

  lemma CheckInv(c: Config, s: State)
    requires ValidConfig(c) && Inv(c, s) && Enabled(c, s, Check)
    ensures Inv(c, Do(c, s, Check))
  {
    var (rx, out) := RxDo(c, s.rx, Check);
    var s' := Do(c, s, Check);
    assert s.updates + out == s.updates;
    if s.rx.q.items != [] {
      var (q, update) := Take(LimitsOf(c), s.rx.q);
      TakeInv(c, s, s', q, update);
    }
  }

  lemma SendUpdateInv(c: Config, s: State)
    requires ValidConfig(c) && Inv(c, s) && Enabled(c, s, SendUpdate)
    ensures Inv(c, Do(c, s, SendUpdate))
  {
    var s' := Do(c, s, SendUpdate);
    assert s'.tx == s.tx && s'.wire == s.wire && s'.rx == s.rx.(pc := Ready);
    assert s'.updates == if s.rx.halfClosed then s.updates else s.updates + [s.rx.pc.n];
    SumSnoc(s.updates, s.rx.pc.n);
  }

  lemma CloseReceiverInv(c: Config, s: State)
    requires ValidConfig(c) && Inv(c, s) && Enabled(c, s, CloseReceiver)
    ensures Inv(c, Do(c, s, CloseReceiver))
  {
    var s' := Do(c, s, CloseReceiver);
    assert s'.updates == s.updates && s'.tx == s.tx && s'.wire == s.wire;
  }

  lemma DataHead(overhead: nat, wire: seq<Item>)
    requires wire != [] && wire[0].Data?
    ensures Frames(wire) == [wire[0].f] + Frames(wire[1..])
    ensures TotalCharge(overhead, Frames(wire)) == Charge(overhead, wire[0].f) + TotalCharge(overhead, Frames(wire[1..]))
  {
    assert Frames(wire)[1..] == Frames(wire[1..]);
  }

  /** A frame from a conforming sender is never more than the window has room for. */
  lemma DeliverData(c: Config, s: State, s': State)
    requires ValidConfig(c) && CreditInv(c, s) && FlowInv(s) && !s.rx.q.closed && s.wire != [] && s.wire[0].Data?
    requires s' == s.(rx := RxReceive(c, s.rx, s.wire[0]), wire := s.wire[1..])
    ensures CreditInv(c, s') && FlowInv(s')
    ensures s'.rx.q == Accept(LimitsOf(c), s.rx.q, s.wire[0].f).0
    ensures s'.rx == s.rx.(q := s'.rx.q, pc := if s.rx.pc.Waiting? && s.rx.q.items == [] then Ready else s.rx.pc)
    ensures s'.rx.q.items != [] && s'.rx.q.closed == s.rx.q.closed && s'.rx.q.cancelled == s.rx.q.cancelled
  {
    DataHead(c.overhead, s.wire);
    AcceptBalanced(LimitsOf(c), s.rx.q, s.wire[0].f);
  }

  lemma DeliverDataInv(c: Config, s: State, s': State)
    requires ValidConfig(c) && Inv(c, s) && s.wire != [] && s.wire[0].Data?
    requires s' == s.(rx := RxReceive(c, s.rx, s.wire[0]), wire := s.wire[1..])
    ensures Inv(c, s')
  {
    hide CreditInv, FlowInv, TxInv, RxReceive, Balanced;
    DeliverData(c, s, s');
  }

  lemma DeliverHalfCloseInv(c: Config, s: State, s': State)
    requires ValidConfig(c) && Inv(c, s) && s.wire != [] && s.wire[0].HalfClose?
    requires s' == s.(rx := s.rx.(halfClosed := true), wire := s.wire[1..])
    ensures Inv(c, s')
  {
    hide TxInv, Balanced;
    assert s.wire[1..] == [];
    assert Frames(s.wire) == [];
  }

  lemma DeliverInv(c: Config, s: State)
    requires ValidConfig(c) && Inv(c, s) && Enabled(c, s, Deliver)
    ensures Inv(c, Do(c, s, Deliver))
  {
    hide Inv;
    var s' := Do(c, s, Deliver);
    if s.wire[0].Data? {
      DeliverDataInv(c, s, s');
    } else {
      DeliverHalfCloseInv(c, s, s');
    }
  }

  /** The wake-up rule is enough for any update of any peer, even one that makes the window wrap
      around: whatever leaves the window sufficient has signalled. */
  lemma ApplyWakes(c: Config, tx: Tx, n: uint32)
    requires TxInv(c, tx)
    ensures TxInv(c, TxApply(c, tx, n))
  {
  }

  lemma ApplyInv(c: Config, s: State)
    requires ValidConfig(c) && Inv(c, s) && Enabled(c, s, Apply)
    ensures Inv(c, Do(c, s, Apply))
  {
    var s' := Do(c, s, Apply);
    var n := s.updates[0];
    NoWrap(s.tx.window + n);
    assert s'.tx == s.tx.(window := s.tx.window + n, signals := s'.tx.signals);
    assert s'.rx == s.rx && s'.wire == s.wire;
    assert Sum(s.updates) == n + Sum(s'.updates);
    ApplyWakes(c, s.tx, n);
  }

  lemma StepInv(c: Config, s: State, step: Step)
    requires ValidConfig(c) && Inv(c, s) && Enabled(c, s, step)
    ensures Inv(c, Do(c, s, step))
  {
    match step
    case Emit => EmitInv(c, s);
    case Finish => FinishInv(c, s);
    case Deliver => DeliverInv(c, s);
    case Apply => ApplyInv(c, s);
    case Signal => SignalInv(c, s);
    case Check => CheckInv(c, s);
    case SendUpdate => SendUpdateInv(c, s);
    case CloseReceiver => CloseReceiverInv(c, s);
    case _ => TxQuiet(c, s, step);
  }
}
