/** Any number of links, in both directions, multiplexed on the two FIFO wires of one tunnel.

    A wire carries data of the links that run its way and updates of those that run the
    other way. The receive loop at its end always takes the front packet, whichever stream
    it is for, and never waits for a consumer. */
module Mux {
  import opened Framing
  import opened FlowControl
  import opened Link
  import opened Delivery

  datatype Packet = DataPacket(link: nat, item: Item) | UpdatePacket(link: nat, n: uint32)

  /** A link's configuration, and whether its data travels on the forward wire. */
  datatype Lane = Lane(c: Config, forward: bool)

  datatype Tunnel = Tunnel(tx: seq<Tx>, rx: seq<Rx>, forward: seq<Packet>, backward: seq<Packet>)

  datatype TunnelStep = Local(i: nat, step: Step) | Receive(forward: bool)

  predicate ValidLanes(ls: seq<Lane>) { forall i :: 0 <= i < |ls| ==> ValidConfig(ls[i].c) }

  // ---------------------------------------------------------------- a single link's view

  function ItemsOf(wire: seq<Packet>, i: nat): seq<Item> {
    if wire == [] then []
    else (if wire[0].DataPacket? && wire[0].link == i then [wire[0].item] else []) + ItemsOf(wire[1..], i)
  }

  function UpdatesOf(wire: seq<Packet>, i: nat): seq<uint32> {
    if wire == [] then []
    else (if wire[0].UpdatePacket? && wire[0].link == i then [wire[0].n] else []) + UpdatesOf(wire[1..], i)
  }

  predicate Shaped(ls: seq<Lane>, m: Tunnel) { |m.tx| == |m.rx| == |ls| }

  function Wire(m: Tunnel, forward: bool): seq<Packet> { if forward then m.forward else m.backward }

  /** Link `i` alone, with the packets of the others taken off the wires. */
  function View(ls: seq<Lane>, m: Tunnel, i: nat): State
    requires Shaped(ls, m) && i < |ls|
  {
    State(m.tx[i], m.rx[i], ItemsOf(Wire(m, ls[i].forward), i), UpdatesOf(Wire(m, !ls[i].forward), i))
  }

  // ---------------------------------------------------------------- steps

  function TagItems(i: nat, items: seq<Item>): seq<Packet> {
    seq(|items|, k requires 0 <= k < |items| => DataPacket(i, items[k]))
  }

  function TagUpdates(i: nat, ns: seq<uint32>): seq<Packet> {
    seq(|ns|, k requires 0 <= k < |ns| => UpdatePacket(i, ns[k]))
  }

  function Append(m: Tunnel, forward: bool, ps: seq<Packet>): Tunnel {
    if forward then m.(forward := m.forward + ps) else m.(backward := m.backward + ps)
  }

  function DropFront(m: Tunnel, forward: bool): Tunnel
    requires Wire(m, forward) != []
  {
    if forward then m.(forward := m.forward[1..]) else m.(backward := m.backward[1..])
  }

  /** A packet may be on the forward wire, or on the backward wire. */
  predicate Allowed(ls: seq<Lane>, p: Packet, forward: bool) {
    p.link < |ls| && (p.DataPacket? <==> ls[p.link].forward == forward)
  }

  predicate AllAllowed(ls: seq<Lane>, ps: seq<Packet>, forward: bool) {
    forall k :: 0 <= k < |ps| ==> Allowed(ls, ps[k], forward)
  }

  predicate Wires(ls: seq<Lane>, m: Tunnel) {
    AllAllowed(ls, m.forward, true) && AllAllowed(ls, m.backward, false)
  }

  predicate TunnelEnabled(ls: seq<Lane>, m: Tunnel, s: TunnelStep)
    requires ValidLanes(ls) && Shaped(ls, m)
  {
    match s
    case Local(i, step) =>
      i < |ls| && ((TxStep(step) && TxEnabled(ls[i].c, m.tx[i], step)) || (RxStep(step) && RxEnabled(m.rx[i], step)))
    case Receive(forward) => Wire(m, forward) != []
  }

  function Dispatch(ls: seq<Lane>, m: Tunnel, p: Packet): Tunnel
    requires ValidLanes(ls) && Shaped(ls, m) && p.link < |ls|
  {
    match p
    case DataPacket(i, item) => m.(rx := m.rx[i := RxReceive(ls[i].c, m.rx[i], item)])
    case UpdatePacket(i, n) => m.(tx := m.tx[i := TxApply(ls[i].c, m.tx[i], n)])
  }

  function TunnelDo(ls: seq<Lane>, m: Tunnel, s: TunnelStep): Tunnel
    requires ValidLanes(ls) && Shaped(ls, m) && Wires(ls, m) && TunnelEnabled(ls, m, s)
  {
    match s
    case Local(i, step) =>
      if TxStep(step) then
        var (tx, out) := TxDo(ls[i].c, m.tx[i], step);
        Append(m.(tx := m.tx[i := tx]), ls[i].forward, TagItems(i, out))
      else
        var (rx, out) := RxDo(ls[i].c, m.rx[i], step);
        Append(m.(rx := m.rx[i := rx]), !ls[i].forward, TagUpdates(i, out))
    case Receive(forward) =>
      Dispatch(ls, DropFront(m, forward), Wire(m, forward)[0])
  }

  function Start(ls: seq<Lane>, work: seq<seq<Message>>): Tunnel
    requires ValidLanes(ls) && |work| == |ls|
  {
    Tunnel(seq(|ls|, i requires 0 <= i < |ls| => InitTx(ls[i].c, work[i])),
           seq(|ls|, i requires 0 <= i < |ls| => InitRx(ls[i].c)), [], [])
  }

  ghost predicate TunnelReaches(ls: seq<Lane>, m: Tunnel, steps: seq<TunnelStep>, t: Tunnel)
    requires ValidLanes(ls)
    decreases steps
  {
    if steps == [] then m == t
    else
      && Shaped(ls, m) && Wires(ls, m) && TunnelEnabled(ls, m, steps[0])
      && TunnelReaches(ls, TunnelDo(ls, m, steps[0]), steps[1..], t)
  }

  // ---------------------------------------------------------------- refinement: one step, one link

  lemma {:induction false} ItemsConcat(a: seq<Packet>, b: seq<Packet>, i: nat)
    ensures ItemsOf(a + b, i) == ItemsOf(a, i) + ItemsOf(b, i)
  {
    if a == [] {
      assert a + b == b;
    } else {
      assert (a + b)[0] == a[0] && (a + b)[1..] == a[1..] + b;
      ItemsConcat(a[1..], b, i);
    }
  }

  lemma {:induction false} UpdatesConcat(a: seq<Packet>, b: seq<Packet>, i: nat)
    ensures UpdatesOf(a + b, i) == UpdatesOf(a, i) + UpdatesOf(b, i)
  {
    if a == [] {
      assert a + b == b;
    } else {
      assert (a + b)[0] == a[0] && (a + b)[1..] == a[1..] + b;
      UpdatesConcat(a[1..], b, i);
    }
  }

  lemma ProjectConcat(a: seq<Packet>, b: seq<Packet>, i: nat)
    ensures ItemsOf(a + b, i) == ItemsOf(a, i) + ItemsOf(b, i)
    ensures UpdatesOf(a + b, i) == UpdatesOf(a, i) + UpdatesOf(b, i)
  {
    ItemsConcat(a, b, i);
    UpdatesConcat(a, b, i);
  }

  lemma {:induction false} ProjectTagged(i: nat, j: nat, items: seq<Item>, ns: seq<uint32>)
    ensures ItemsOf(TagItems(i, items), j) == if i == j then items else []
    ensures UpdatesOf(TagItems(i, items), j) == []
    ensures UpdatesOf(TagUpdates(i, ns), j) == if i == j then ns else []
    ensures ItemsOf(TagUpdates(i, ns), j) == []
    decreases |items| + |ns|
  {
    if items != [] {
      assert TagItems(i, items)[1..] == TagItems(i, items[1..]);
      ProjectTagged(i, j, items[1..], ns);
    } else if ns != [] {
      assert TagUpdates(i, ns)[1..] == TagUpdates(i, ns[1..]);
      ProjectTagged(i, j, items, ns[1..]);
    }
  }

  /** The link a step belongs to, and what it is as a step of that link. */
  function Owner(ls: seq<Lane>, m: Tunnel, s: TunnelStep): nat
    requires ValidLanes(ls) && Shaped(ls, m) && TunnelEnabled(ls, m, s)
  {
    match s
    case Local(i, _) => i
    case Receive(forward) => Wire(m, forward)[0].link
  }

  function AsLinkStep(ls: seq<Lane>, m: Tunnel, s: TunnelStep): Step
    requires ValidLanes(ls) && Shaped(ls, m) && TunnelEnabled(ls, m, s)
  {
    match s
    case Local(_, step) => step
    case Receive(forward) => if Wire(m, forward)[0].DataPacket? then Deliver else Apply
  }

  /** `m'` is `m` after one step of link `i`, with every other link exactly as it was. */
  predicate OneLinkStep(ls: seq<Lane>, m: Tunnel, m': Tunnel, i: nat, step: Step)
    requires ValidLanes(ls) && Shaped(ls, m)
  {
    && Shaped(ls, m') && Wires(ls, m') && i < |ls|
    && Enabled(ls[i].c, View(ls, m, i), step)
    && View(ls, m', i) == Do(ls[i].c, View(ls, m, i), step)
    && forall j :: 0 <= j < |ls| && j != i ==> View(ls, m', j) == View(ls, m, j)
  }

  lemma AppendItems(wire: seq<Packet>, i: nat, items: seq<Item>, j: nat)
    ensures ItemsOf(wire + TagItems(i, items), j) == ItemsOf(wire, j) + if i == j then items else []
    ensures UpdatesOf(wire + TagItems(i, items), j) == UpdatesOf(wire, j)
  {
    ProjectConcat(wire, TagItems(i, items), j);
    ProjectTagged(i, j, items, []);
  }

  lemma AppendUpdates(wire: seq<Packet>, i: nat, ns: seq<uint32>, j: nat)
    ensures ItemsOf(wire + TagUpdates(i, ns), j) == ItemsOf(wire, j)
    ensures UpdatesOf(wire + TagUpdates(i, ns), j) == UpdatesOf(wire, j) + if i == j then ns else []
  {
    ProjectConcat(wire, TagUpdates(i, ns), j);
    ProjectTagged(i, j, [], ns);
  }

  lemma TxRefines(ls: seq<Lane>, m: Tunnel, i: nat, step: Step)
    requires ValidLanes(ls) && Shaped(ls, m) && Wires(ls, m) && TunnelEnabled(ls, m, Local(i, step)) && TxStep(step)
    ensures OneLinkStep(ls, m, TunnelDo(ls, m, Local(i, step)), i, step)
  {
    hide TxDo, TxEnabled;
    var m' := TunnelDo(ls, m, Local(i, step));
    var (tx, out) := TxDo(ls[i].c, m.tx[i], step);
    var forward := ls[i].forward;
    assert Wire(m', forward) == Wire(m, forward) + TagItems(i, out) && Wire(m', !forward) == Wire(m, !forward);
    forall j | 0 <= j < |ls|
      ensures View(ls, m', j) == if j == i then Do(ls[i].c, View(ls, m, i), step) else View(ls, m, j)
    {
      AppendItems(Wire(m, forward), i, out, j);
    }
  }

  lemma RxRefines(ls: seq<Lane>, m: Tunnel, i: nat, step: Step)
    requires ValidLanes(ls) && Shaped(ls, m) && Wires(ls, m) && TunnelEnabled(ls, m, Local(i, step)) && RxStep(step)
    ensures OneLinkStep(ls, m, TunnelDo(ls, m, Local(i, step)), i, step)
  {
    hide RxDo, RxEnabled;
    var m' := TunnelDo(ls, m, Local(i, step));
    var (rx, out) := RxDo(ls[i].c, m.rx[i], step);
    var forward := !ls[i].forward;
    assert Wire(m', forward) == Wire(m, forward) + TagUpdates(i, out) && Wire(m', !forward) == Wire(m, !forward);
    forall j | 0 <= j < |ls|
      ensures View(ls, m', j) == if j == i then Do(ls[i].c, View(ls, m, i), step) else View(ls, m, j)
    {
      AppendUpdates(Wire(m, forward), i, out, j);
    }
  }

  lemma ProjectFront(wire: seq<Packet>, j: nat)
    requires wire != []
    ensures ItemsOf(wire, j) == (if wire[0].DataPacket? && wire[0].link == j then [wire[0].item] else []) + ItemsOf(wire[1..], j)
    ensures UpdatesOf(wire, j) == (if wire[0].UpdatePacket? && wire[0].link == j then [wire[0].n] else []) + UpdatesOf(wire[1..], j)
  {
  }

  /** The front packet leaves only its own link's view of the wire. */
  lemma FrontViews(ls: seq<Lane>, m: Tunnel, m': Tunnel, forward: bool, j: nat)
    requires Shaped(ls, m) && Shaped(ls, m') && j < |ls| && Wire(m, forward) != []
    requires Allowed(ls, Wire(m, forward)[0], forward)
    requires Wire(m', forward) == Wire(m, forward)[1..] && Wire(m', !forward) == Wire(m, !forward)
    ensures var p := Wire(m, forward)[0];
            var v, v' := View(ls, m, j), View(ls, m', j);
            && (j != p.link ==> v'.wire == v.wire && v'.updates == v.updates)
            && (j == p.link && p.DataPacket? ==> v.wire != [] && v.wire[0] == p.item && v'.wire == v.wire[1..] && v'.updates == v.updates)
            && (j == p.link && p.UpdatePacket? ==> v.updates != [] && v.updates[0] == p.n && v'.updates == v.updates[1..] && v'.wire == v.wire)
  {
    ProjectFront(Wire(m, forward), j);
  }

  lemma ReceiveRefines(ls: seq<Lane>, m: Tunnel, forward: bool)
    requires ValidLanes(ls) && Shaped(ls, m) && Wires(ls, m) && TunnelEnabled(ls, m, Receive(forward))
    ensures var s := Receive(forward);
            OneLinkStep(ls, m, TunnelDo(ls, m, s), Owner(ls, m, s), AsLinkStep(ls, m, s))
  {
    hide RxReceive, TxApply, ItemsOf, UpdatesOf;
    var p := Wire(m, forward)[0];
    var m' := TunnelDo(ls, m, Receive(forward));
    assert Allowed(ls, p, forward);
    assert Wire(m', forward) == Wire(m, forward)[1..] && Wire(m', !forward) == Wire(m, !forward);
    assert Wires(ls, m');
    FrontViews(ls, m, m', forward, p.link);
    forall j | 0 <= j < |ls| && j != p.link
      ensures View(ls, m', j) == View(ls, m, j)
    {
      FrontViews(ls, m, m', forward, j);
    }
  }

  /** Multiplexing adds nothing: every step of the tunnel is a step of exactly one link, and no
      other link can tell that it happened. */
  lemma Refines(ls: seq<Lane>, m: Tunnel, s: TunnelStep)
    requires ValidLanes(ls) && Shaped(ls, m) && Wires(ls, m) && TunnelEnabled(ls, m, s)
    ensures OneLinkStep(ls, m, TunnelDo(ls, m, s), Owner(ls, m, s), AsLinkStep(ls, m, s))
  {
    match s
    case Local(i, step) => if TxStep(step) { TxRefines(ls, m, i, step); } else { RxRefines(ls, m, i, step); }
    case Receive(forward) => ReceiveRefines(ls, m, forward);
  }

  // ---------------------------------------------------------------- whole runs

  predicate TunnelInv(ls: seq<Lane>, m: Tunnel)
    requires ValidLanes(ls)
  {
    Shaped(ls, m) && Wires(ls, m) && forall i :: 0 <= i < |ls| ==> Inv(ls[i].c, View(ls, m, i))
  }

  function TotalWeight(ls: seq<Lane>, m: Tunnel, n: nat): nat
    requires Shaped(ls, m) && n <= |ls|
  {
    if n == 0 then 0 else TotalWeight(ls, m, n - 1) + Weight(View(ls, m, n - 1))
  }

  lemma {:induction false} TotalWeightDrops(ls: seq<Lane>, m: Tunnel, m': Tunnel, i: nat, n: nat)
    requires Shaped(ls, m) && Shaped(ls, m') && i < |ls| && n <= |ls|
    requires Weight(View(ls, m', i)) < Weight(View(ls, m, i))
    requires forall j :: 0 <= j < |ls| && j != i ==> View(ls, m', j) == View(ls, m, j)
    ensures TotalWeight(ls, m', n) + (if i < n then 1 else 0) <= TotalWeight(ls, m, n)
  {
    hide View, Weight;
    if n > 0 {
      TotalWeightDrops(ls, m, m', i, n - 1);
    }
  }

  lemma ViewTx(ls: seq<Lane>, m: Tunnel, i: nat)
    requires Shaped(ls, m) && i < |ls|
    ensures View(ls, m, i).tx == m.tx[i]
  {
  }

  lemma TunnelStepInv(ls: seq<Lane>, m: Tunnel, s: TunnelStep)
    requires ValidLanes(ls) && TunnelInv(ls, m) && TunnelEnabled(ls, m, s)
    ensures TunnelInv(ls, TunnelDo(ls, m, s))
    ensures TotalWeight(ls, TunnelDo(ls, m, s), |ls|) < TotalWeight(ls, m, |ls|)
    ensures forall i :: 0 <= i < |ls| ==> TunnelDo(ls, m, s).tx[i].msgs == m.tx[i].msgs
  {
    hide Inv, View, Do, Enabled, Weight, TunnelDo, TunnelEnabled;
    Refines(ls, m, s);
    var i, step, m' := Owner(ls, m, s), AsLinkStep(ls, m, s), TunnelDo(ls, m, s);
    StepInv(ls[i].c, View(ls, m, i), step);
    WeightDrops(ls[i].c, View(ls, m, i), step);
    TotalWeightDrops(ls, m, m', i, |ls|);
    MsgsKept(ls[i].c, View(ls, m, i), step);
    forall j | 0 <= j < |ls| ensures Inv(ls[j].c, View(ls, m', j)) && m'.tx[j].msgs == m.tx[j].msgs {
      ViewTx(ls, m, j);
      ViewTx(ls, m', j);
    }
  }

  lemma {:induction false} TunnelRunInv(ls: seq<Lane>, m: Tunnel, steps: seq<TunnelStep>, t: Tunnel)
    requires ValidLanes(ls) && TunnelInv(ls, m) && TunnelReaches(ls, m, steps, t)
    ensures TunnelInv(ls, t)
    ensures |steps| + TotalWeight(ls, t, |ls|) <= TotalWeight(ls, m, |ls|)
    ensures forall i :: 0 <= i < |ls| ==> t.tx[i].msgs == m.tx[i].msgs
    decreases steps
  {
    if steps != [] {
      TunnelStepInv(ls, m, steps[0]);
      TunnelRunInv(ls, TunnelDo(ls, m, steps[0]), steps[1..], t);
    }
  }

  lemma StartInv(ls: seq<Lane>, work: seq<seq<Message>>)
    requires ValidLanes(ls) && |work| == |ls|
    ensures TunnelInv(ls, Start(ls, work))
  {
    forall i | 0 <= i < |ls| ensures Inv(ls[i].c, View(ls, Start(ls, work), i)) {
      InitInv(ls[i].c, work[i]);
    }
  }

  /** Nothing is left to do except for the consumers of the stopped links. */
  ghost predicate OnlyStoppedLeft(ls: seq<Lane>, m: Tunnel, stopped: set<nat>)
    requires ValidLanes(ls) && Shaped(ls, m)
  {
    forall s :: TunnelEnabled(ls, m, s) ==> s.Local? && s.step.Check? && s.i in stopped
  }

  lemma OthersStuck(ls: seq<Lane>, m: Tunnel, stopped: set<nat>, i: nat)
    requires ValidLanes(ls) && Shaped(ls, m) && OnlyStoppedLeft(ls, m, stopped)
    requires i < |ls| && i !in stopped
    ensures Stuck(ls[i].c, View(ls, m, i))
  {
    assert !TunnelEnabled(ls, m, Receive(true)) && !TunnelEnabled(ls, m, Receive(false));
    forall step ensures !Enabled(ls[i].c, View(ls, m, i), step) {
      assert !TunnelEnabled(ls, m, Local(i, step));
    }
  }

  /** A run of the whole tunnel is finite, whoever stops. */
  lemma RunsAreFinite(ls: seq<Lane>, work: seq<seq<Message>>, steps: seq<TunnelStep>, t: Tunnel)
    requires ValidLanes(ls) && |work| == |ls| && TunnelReaches(ls, Start(ls, work), steps, t)
    ensures |steps| <= TotalWeight(ls, Start(ls, work), |ls|)
  {
    StartInv(ls, work);
    TunnelRunInv(ls, Start(ls, work), steps, t);
  }

  /** What link `i` has accepted is its own frames, in order and without a gap, and none was
      rejected, whatever the other links are doing. */
  lemma OwnFramesInOrder(ls: seq<Lane>, work: seq<seq<Message>>, steps: seq<TunnelStep>, t: Tunnel, i: nat)
    requires ValidLanes(ls) && |work| == |ls| && TunnelReaches(ls, Start(ls, work), steps, t) && i < |ls|
    ensures Shaped(ls, t) && t.rx[i].read + t.rx[i].q.items <= t.tx[i].sent && !t.rx[i].violated
    ensures Delivered(View(ls, t, i)) <= work[i]
  {
    StartInv(ls, work);
    TunnelRunInv(ls, Start(ls, work), steps, t);
    assert View(ls, t, i).tx.msgs == work[i] && View(ls, t, i).rx == t.rx[i];
    DeliveredPrefix(ls[i].c, View(ls, t, i));
  }

  /** Slow-stream isolation. Any set of consumers may stop for good at any point of any run. Once
      nothing else can move, every link that has not stopped has delivered all its messages. */
  lemma Isolation(ls: seq<Lane>, work: seq<seq<Message>>, steps: seq<TunnelStep>, t: Tunnel, stopped: set<nat>, i: nat)
    requires ValidLanes(ls) && |work| == |ls| && TunnelReaches(ls, Start(ls, work), steps, t)
    requires Shaped(ls, t) && OnlyStoppedLeft(ls, t, stopped) && i < |ls| && i !in stopped
    ensures t.rx[i].pc.Ended? && Delivered(View(ls, t, i)) == work[i]
  {
    StartInv(ls, work);
    TunnelRunInv(ls, Start(ls, work), steps, t);
    OthersStuck(ls, t, stopped, i);
    StuckIsDone(ls[i].c, View(ls, t, i));
  }
}
