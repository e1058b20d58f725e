/** The two ends of the credit protocol of one direction of a stream.

    The pure functions at the top are the critical sections of `flow_control.go`; the
    classes perform them on mutable state, and the step systems in `Link` and `Mux`
    interleave the very same functions. */
module FlowControl {
  import opened Framing

  const UINT32_LIMIT: nat := 0x1_0000_0000

  type uint32 = n: nat | n < UINT32_LIMIT

  // ---------------------------------------------------------------- sender arithmetic

  /** The overhead is charged on the first chunk of a message only. */
  function ChunkOverhead(overhead: nat, first: bool): nat { if first then overhead else 0 }

  /** The window the next chunk needs: its overhead and one byte of data (none if the
      message is empty), but never less than one byte. */
  function Needed(overhead: nat, first: bool, left: nat): nat {
    var n := ChunkOverhead(overhead, first) + Min(left, 1);
    if n < 1 then 1 else n
  }

  function ChunkSize(overhead: nat, first: bool, left: nat, maxChunk: nat, window: nat): (n: nat)
    requires window >= Needed(overhead, first, left)
    ensures n <= left && n <= maxChunk
    ensures n + ChunkOverhead(overhead, first) <= window
    ensures left > 0 && maxChunk > 0 ==> n > 0
  {
    Min(window - ChunkOverhead(overhead, first), Min(left, maxChunk))
  }

  /** `atomic.Uint32.Add`, with its wrap-around. */
  function AddWindow(window: uint32, add: uint32): uint32 { (window + add) % UINT32_LIMIT }

  /** Whether `updateWindow` wakes the sender, given the window before the addition. */
  predicate WakesSender(overhead: nat, previous: nat) { previous <= overhead }

  // ---------------------------------------------------------------- receiver critical sections

  datatype Limits = Limits(overhead: uint32, initial: uint32, minUpdate: uint32)

  datatype Queue = Queue(items: seq<Frame>, window: uint32, ack: uint32, closed: bool, cancelled: bool)

  function EmptyQueue(l: Limits): Queue { Queue([], l.initial, 0, false, false) }

  function Accept(l: Limits, q: Queue, f: Frame): (Queue, bool) {
    if q.closed then (q, true)
    else if Charge(l.overhead, f) > q.window then (q, false)
    else (q.(items := q.items + [f], window := q.window - Charge(l.overhead, f)), true)
  }

  /** Whether the bytes consumed so far are acknowledged now. The second case is the
      early update that revision two needs. */
  predicate SendsUpdate(l: Limits, window: nat, pending: nat) {
    || pending >= l.minUpdate
    || (l.overhead > 0 && pending > 0 && window <= l.overhead)
  }

  /** The queue after the front item is taken, and the update to send (zero for none). */
  function Take(l: Limits, q: Queue): (Queue, uint32)
    requires q.items != []
  {
    var pending: uint32 := (q.ack + Charge(l.overhead, q.items[0])) % UINT32_LIMIT;
    if SendsUpdate(l, q.window, pending) then
      (q.(items := q.items[1..], window := (q.window + pending) % UINT32_LIMIT, ack := 0), pending)
    else
      (q.(items := q.items[1..], ack := pending), 0)
  }

  function CloseQueue(q: Queue): Queue { q.(closed := true) }

  function CancelQueue(q: Queue): Queue { q.(cancelled := true, items := []) }

  // ---------------------------------------------------------------- receiver invariant

  predicate ValidLimits(l: Limits) { l.minUpdate <= l.initial && l.overhead < l.initial }

  /** Every byte of the initial window is accounted for, what is not yet acknowledged is
      below the minimum, and an empty queue leaves room for the smallest next chunk. */
  predicate Balanced(l: Limits, q: Queue) {
    && q.window + q.ack + TotalCharge(l.overhead, q.items) == l.initial
    && (q.ack < l.minUpdate || q.ack == 0)
    && (q.items == [] ==> q.window >= l.overhead + 1)
  }

  /** A rejected item changes nothing; an accepted one keeps the accounts. */
  lemma AcceptBalanced(l: Limits, q: Queue, f: Frame)
    requires ValidLimits(l) && Balanced(l, q) && !q.closed
    ensures Balanced(l, Accept(l, q, f).0)
    ensures Accept(l, q, f).1 <==> Charge(l.overhead, f) <= q.window
    ensures !Accept(l, q, f).1 ==> Accept(l, q, f).0 == q
    ensures Accept(l, q, f).1 ==> Accept(l, q, f).0.items == q.items + [f]
  {
    TotalChargeSnoc(l.overhead, q.items, f);
  }

  /** When an acknowledgement is called for: the second case is there because with an overhead a
      sender may be stuck although its window is not empty. */
  predicate Due(l: Limits, window: nat, pending: nat) {
    pending > 0 && (l.minUpdate <= pending || (l.overhead > 0 && window <= l.overhead))
  }

  /** Taking an item keeps the accounts, with no counter wrapping. An update is sent exactly if
      there is something to acknowledge, and it amounts to the minimum or the window has run down to
      the overhead; it acknowledges everything pending, and the window regains it. */
  lemma TakeBalanced(l: Limits, q: Queue)
    requires ValidLimits(l) && Balanced(l, q) && q.items != []
    ensures Balanced(l, Take(l, q).0)
    ensures Take(l, q).0.window == q.window + Take(l, q).1
    ensures Take(l, q).0.ack + Take(l, q).1 == q.ack + Charge(l.overhead, q.items[0])
    ensures var pending := q.ack + Charge(l.overhead, q.items[0]);
            && Take(l, q).1 == (if Due(l, q.window, pending) then pending else 0)
            && Take(l, q).0.items == q.items[1..]
  {
    var pending := q.ack + Charge(l.overhead, q.items[0]);
    var rest := TotalCharge(l.overhead, q.items[1..]);
    assert q.window + pending + rest == l.initial;
    NoWrap(pending);
    NoWrap(q.window + pending);
    if SendsUpdate(l, q.window, pending) {
      assert Take(l, q).0 == q.(items := q.items[1..], window := q.window + pending, ack := 0);
    } else {
      assert Take(l, q).0 == q.(items := q.items[1..], ack := pending);
    }
  }

  lemma NoWrap(n: nat)
    requires n < UINT32_LIMIT
    ensures n % UINT32_LIMIT == n
  {
  }

  // ---------------------------------------------------------------- any peer, any run

  datatype QueueOp = AcceptOp(f: Frame) | TakeOp

  /** What a run of operations did: the final queue, the bytes taken, the bytes acknowledged, and
      in how many updates. */
  datatype Account = Account(q: Queue, taken: nat, acked: nat, updates: nat)

  /** Frames arrive in any order from a peer that may ignore the window; `TakeOp` on an
      empty queue is a consumer that has to wait. */
  function Play(l: Limits, ops: seq<QueueOp>): Account {
    if ops == [] then Account(EmptyQueue(l), 0, 0, 0)
    else
      var a := Play(l, ops[..|ops| - 1]);
      match ops[|ops| - 1]
      case AcceptOp(f) => a.(q := Accept(l, a.q, f).0)
      case TakeOp =>
        if a.q.items == [] then a
        else
          var (q, update) := Take(l, a.q);
          Account(q, a.taken + Charge(l.overhead, a.q.items[0]), a.acked + update, a.updates + if update > 0 then 1 else 0)
  }

  /** Against an arbitrary peer: the accounts balance after every run, and everything taken
      has been acknowledged except a remainder below the update minimum. */
  lemma {:induction false} AnyPeerBalanced(l: Limits, ops: seq<QueueOp>)
    requires ValidLimits(l)
    ensures var a := Play(l, ops);
            && Balanced(l, a.q) && !a.q.closed
            && a.acked + a.q.ack == a.taken
            && (a.taken - a.acked < l.minUpdate || a.taken == a.acked)
  {
    if ops != [] {
      AnyPeerBalanced(l, ops[..|ops| - 1]);
      var a := Play(l, ops[..|ops| - 1]);
      match ops[|ops| - 1]
      case AcceptOp(f) => AcceptBalanced(l, a.q, f);
      case TakeOp =>
        if a.q.items != [] {
          TakeBalanced(l, a.q);
        }
    }
  }

  lemma OneMoreUpdate(updates: nat, minUpdate: nat, acked: nat, update: nat)
    requires updates * minUpdate <= acked && (update == 0 || minUpdate <= update)
    ensures (updates + if update > 0 then 1 else 0) * minUpdate <= acked + update
  {
    assert (updates + 1) * minUpdate == updates * minUpdate + minUpdate;
  }

  /** Without an overhead, acknowledgements are batched: however the frames arrive and are taken,
      there are no more updates than the bytes taken make up minima. */
  lemma {:induction false} UpdatesAreBatched(l: Limits, ops: seq<QueueOp>)
    requires ValidLimits(l) && l.overhead == 0
    ensures var a := Play(l, ops); a.updates * l.minUpdate <= a.acked <= a.taken
  {
    AnyPeerBalanced(l, ops);
    hide Take, Accept, Balanced;
    if ops != [] {
      var before := Play(l, ops[..|ops| - 1]);
      UpdatesAreBatched(l, ops[..|ops| - 1]);
      AnyPeerBalanced(l, ops[..|ops| - 1]);
      if ops[|ops| - 1].TakeOp? && before.q.items != [] {
        TakeBalanced(l, before.q);
        OneMoreUpdate(before.updates, l.minUpdate, before.acked, Take(l, before.q).1);
      }
    }
  }

  // ---------------------------------------------------------------- receiver

  datatype Dequeued = Item(f: Frame) | End | MustWait

  class Receiver {
    const limits: Limits
    var items: seq<Frame>
    var currentWindow: uint32
    var windowUpdate: uint32
    var closed: bool
    var cancelled: bool

    function State(): Queue
      reads this
    {
      Queue(items, currentWindow, windowUpdate, closed, cancelled)
    }

    ghost predicate Valid()
      reads this
    {
      && ValidLimits(limits)
      && currentWindow + windowUpdate + TotalCharge(limits.overhead, items) <= limits.initial
      && (!cancelled ==> Balanced(limits, State()))
    }

    /** The minimum update is clamped to the initial window. That the window exceeds the overhead
        is what both ends check before they create a stream. */
    constructor (initialWindowSize: uint32, minUpdateSize: uint32, msgOverhead: uint32)
      requires msgOverhead < initialWindowSize
      ensures Valid()
      ensures limits == Limits(msgOverhead, initialWindowSize, Min(minUpdateSize, initialWindowSize))
      ensures State() == EmptyQueue(limits)
    {
      limits := Limits(msgOverhead, initialWindowSize,
                       if minUpdateSize > initialWindowSize then initialWindowSize else minUpdateSize);
      items, currentWindow, windowUpdate := [], initialWindowSize, 0;
      closed, cancelled := false, false;
    }

    /** False is the window-exceeded error. */
    method AcceptItem(f: Frame) returns (ok: bool)
      requires Valid()
      modifies this
      ensures Valid()
      ensures (State(), ok) == Accept(limits, old(State()), f)
      ensures var sz := |Payload(f)| + if f.Envelope? then limits.overhead else 0;
              if old(closed) || sz > old(currentWindow) then State() == old(State()) && ok == old(closed)
              else ok && items == old(items) + [f] && currentWindow == old(currentWindow) - sz
                   && windowUpdate == old(windowUpdate) && closed == old(closed) && cancelled == old(cancelled)
    {
      var sz := Charge(limits.overhead, f);
      if closed {
        return true;
      }
      if sz > currentWindow {
        return false;
      }
      TotalChargeSnoc(limits.overhead, items, f);
      currentWindow := currentWindow - sz;
      items := items + [f];
      return true;
    }

    method Close()
      requires Valid()
      modifies this
      ensures Valid()
      ensures State() == CloseQueue(old(State())) == old(State()).(closed := true)
    {
      if closed {
        return;
      }
      closed := true;
    }

    method Cancel()
      requires Valid()
      modifies this
      ensures Valid()
      ensures State() == CancelQueue(old(State())) == old(State()).(cancelled := true, items := [])
    {
      cancelled := true;
      items := [];
    }

    /** One pass of the loop in `dequeue`, from acquiring the lock to releasing it. The
        counters are shown not to wrap: every assignment stays within 32 bits without `%`. */
    method Dequeue() returns (d: Dequeued, sendUpdate: uint32)
      requires Valid()
      modifies this
      ensures Valid()
      ensures d.Item? <==> !old(cancelled) && old(items) != []
      ensures d.End? <==> old(cancelled) || (old(items) == [] && old(closed))
      ensures d.Item? ==>
                && d.f == old(items)[0] && (State(), sendUpdate) == Take(limits, old(State()))
                && items == old(items)[1..] && closed == old(closed) && !cancelled
                && currentWindow + windowUpdate
                   == old(currentWindow) + old(windowUpdate) + |Payload(d.f)| + (if d.f.Envelope? then limits.overhead else 0)
                && sendUpdate == currentWindow - old(currentWindow)
      ensures sendUpdate > 0 ==>
                windowUpdate == 0 && (sendUpdate >= limits.minUpdate || (limits.overhead > 0 && old(currentWindow) <= limits.overhead))
      ensures d.Item? && sendUpdate == 0 && windowUpdate > 0 ==>
                windowUpdate < limits.minUpdate && (limits.overhead == 0 || old(currentWindow) > limits.overhead)
      ensures !d.Item? ==> State() == old(State()) && sendUpdate == 0
    {
      sendUpdate := 0;
      if cancelled {
        return End, 0;
      }
      if items != [] {
        TakeBalanced(limits, State());
        var f := items[0];
        items := items[1..];
        var newWindowUpdate: uint32 := windowUpdate + Charge(limits.overhead, f);
        var doSend := newWindowUpdate >= limits.minUpdate;
        if !doSend && limits.overhead > 0 && newWindowUpdate > 0 && currentWindow <= limits.overhead {
          doSend := true;
        }
        if doSend {
          currentWindow := currentWindow + newWindowUpdate;
          sendUpdate := newWindowUpdate;
          newWindowUpdate := 0;
        }
        windowUpdate := newWindowUpdate;
        return Item(f), sendUpdate;
      }
      if closed {
        return End, 0;
      }
      return MustWait, 0;
    }
  }

  // ---------------------------------------------------------------- sender

  /** What happens around a call of `send`: whole calls of `updateWindow`, the end of the
      context, and points at which the sender gets to run. */
  datatype Event = Update(add: uint32) | ContextDone | Yield

  /** The credit granted by the first `n` events. */
  function Granted(env: seq<Event>, n: nat): nat
    requires n <= |env|
  {
    if n == 0 then 0 else Granted(env, n - 1) + if env[n - 1].Update? then env[n - 1].add else 0
  }

  lemma GrantedNone(env: seq<Event>)
    ensures Granted(env, 0) == 0
  {
  }

  /** `StillParked` is a call still blocked when the events run out. */
  datatype Outcome = Sent | TooLarge | ContextError | StillParked

  /** How one pass of the sending loop ends: over again, with the call's outcome, or with `n` bytes
      to hand over that are paid for. */
  datatype Passed = Again | Stop(r: Outcome) | Paid(n: nat)

  class Sender {
    const maxChunkSize: uint32
    const msgOverhead: uint32
    var currentWindow: uint32
    var windowUpdates: bool  // the one-slot channel holds a token
    var contextDone: bool

    /** The maximum chunk is clamped to the peer's initial window. */
    constructor (initialWindowSize: uint32, maxChunk: uint32, overhead: uint32)
      ensures currentWindow == initialWindowSize && msgOverhead == overhead
      ensures maxChunkSize == Min(maxChunk, initialWindowSize)
      ensures !windowUpdates && !contextDone
    {
      maxChunkSize := if maxChunk > initialWindowSize then initialWindowSize else maxChunk;
      msgOverhead := overhead;
      currentWindow := initialWindowSize;
      windowUpdates, contextDone := false, false;
    }

    /** The window grows, and a token is left exactly if the sender may have been too short
        to send anything. */
    method UpdateWindow(add: uint32)
      modifies this`currentWindow, this`windowUpdates
      ensures currentWindow == old(currentWindow) + add - (if old(currentWindow) + add < UINT32_LIMIT then 0 else UINT32_LIMIT)
      ensures windowUpdates == (old(windowUpdates) || (add > 0 && old(currentWindow) <= msgOverhead))
    {
      if add == 0 {
        return;
      }
      currentWindow := AddWindow(currentWindow, add);
      var prevWindow := (currentWindow + UINT32_LIMIT - add) % UINT32_LIMIT;
      if WakesSender(msgOverhead, prevWindow) {
        windowUpdates := true;
      }
    }

    /** The rest of the program runs until the sender is scheduled again. `wraps` counts how
        often the window wrapped around. A window that may be too small to send anything does not
        change without leaving a token. */
    method Interfere(env: seq<Event>, at: nat) returns (next: nat, ghost wraps: nat)
      requires at <= |env|
      modifies this`currentWindow, this`windowUpdates, this`contextDone
      ensures at <= next <= |env|
      ensures at < |env| ==> at < next
      ensures currentWindow + UINT32_LIMIT * wraps + Granted(env, at) == old(currentWindow) + Granted(env, next)
      ensures next == at ==> currentWindow == old(currentWindow) && windowUpdates == old(windowUpdates) && contextDone == old(contextDone)
      ensures old(windowUpdates) ==> windowUpdates
      ensures old(currentWindow) <= msgOverhead ==> windowUpdates || currentWindow == old(currentWindow)
    {
      next, wraps := at, 0;
      while next < |env|
        invariant at <= next <= |env|
        invariant currentWindow + UINT32_LIMIT * wraps + Granted(env, at) == old(currentWindow) + Granted(env, next)
        invariant next == at ==> currentWindow == old(currentWindow) && windowUpdates == old(windowUpdates) && contextDone == old(contextDone)
        invariant old(windowUpdates) ==> windowUpdates
        invariant old(currentWindow) <= msgOverhead ==> windowUpdates || currentWindow == old(currentWindow)
      {
        var e := env[next];
        next := next + 1;
        match e
        case Yield => return;
        case ContextDone => contextDone := true;
        case Update(add) =>
          ghost var before := currentWindow;
          UpdateWindow(add);
          wraps := wraps + if before + add < UINT32_LIMIT then 0 else 1;
      }
    }

    /** The `select` of a sender whose window is too small: it ends with a token, or with the
        context. A sender still waiting when the events run out has the window it found. */
    method Select(env: seq<Event>, at: nat) returns (stop: Outcome, next: nat, ghost wraps: nat)
      requires at <= |env| && currentWindow <= msgOverhead
      modifies this`currentWindow, this`windowUpdates, this`contextDone
      ensures at <= next <= |env|
      ensures currentWindow + UINT32_LIMIT * wraps + Granted(env, at) == old(currentWindow) + Granted(env, next)
      ensures stop.Sent? ==> at < next || (old(windowUpdates) && !windowUpdates)
      ensures stop.Sent? || stop.ContextError? || stop.StillParked?
      ensures stop.ContextError? ==> contextDone
      ensures stop.StillParked? ==>
                next == |env| && !windowUpdates && !contextDone && currentWindow == old(currentWindow)
    {
      next, wraps := Interfere(env, at);
      while !windowUpdates && !contextDone && next < |env|
        invariant at <= next <= |env|
        invariant currentWindow + UINT32_LIMIT * wraps + Granted(env, at) == old(currentWindow) + Granted(env, next)
        invariant next == at ==> windowUpdates == old(windowUpdates)
        invariant windowUpdates || currentWindow == old(currentWindow)
        decreases |env| - next
      {
        ghost var w;
        next, w := Interfere(env, next);
        wraps := wraps + w;
      }
      if {
        case windowUpdates =>
          windowUpdates := false;
          stop := Sent;
        case contextDone => stop := ContextError;
        case !windowUpdates && !contextDone => stop := StillParked;
      }
    }

    /** The compare-and-swap of the window. It fails exactly if the window is not what it was. */
    method CompareAndSwap(windowSz: uint32, take: nat, env: seq<Event>, at: nat)
      returns (swapped: bool, next: nat, ghost wraps: nat)
      requires at <= |env| && windowSz == currentWindow && take <= windowSz
      modifies this
      ensures at <= next <= |env|
      ensures currentWindow + UINT32_LIMIT * wraps + Granted(env, at) + (if swapped then take else 0)
              == old(currentWindow) + Granted(env, next)
      ensures if swapped then currentWindow + take == windowSz else currentWindow != windowSz && at < next
      ensures next == at ==> windowUpdates == old(windowUpdates)
    {
      next, wraps := Interfere(env, at);
      swapped := currentWindow == windowSz;
      if swapped {
        currentWindow := windowSz - take;
      }
    }

    /** A window that has no room for one more byte: of data, or of an empty message's overhead. */
    predicate Short(window: nat, first: bool, left: nat) {
      window == 0 || (first && window < msgOverhead + if left == 0 then 0 else 1)
    }

    lemma ShortBound(window: nat, first: bool, left: nat)
      requires Short(window, first, left)
      ensures window <= msgOverhead && (!first ==> window == 0)
    {
    }

    /** The window was `window` at point `pos` of the schedule, with `paid` of the credit used up and
        the window wrapped around `wraps` times since point `from`, where it was `before`. */
    predicate WasAt(window: nat, before: nat, paid: nat, env: seq<Event>, from: nat, pos: nat, wraps: nat) {
      from <= pos <= |env| && window + paid + UINT32_LIMIT * wraps + Granted(env, from) == before + Granted(env, pos)
    }

    ghost predicate Was(window: nat, before: nat, paid: nat, env: seq<Event>, from: nat, to: nat) {
      exists pos: nat, wraps: nat :: WasAt(window, before, paid, env, from, pos, wraps) && pos <= to
    }

    lemma WasBefore(window: nat, before: nat, now: nat, paid: nat, wraps: nat, env: seq<Event>, from: nat, to: nat)
      requires from <= to <= |env| && Was(window, now, 0, env, from, to)
      requires now + paid + UINT32_LIMIT * wraps == before + Granted(env, from)
      ensures Was(window, before, paid, env, 0, to)
    {
      var pos: nat, w: nat :| WasAt(window, now, 0, env, from, pos, w) && pos <= to;
      GrantedNone(env);
      assert UINT32_LIMIT * (w + wraps) == UINT32_LIMIT * w + UINT32_LIMIT * wraps;
      assert WasAt(window, before, paid, env, 0, pos, w + wraps);
    }

    /** One pass of the sending loop, up to `sendFunc`: the load, the wait or the compare-and-swap.
        It waits exactly if the window it has loaded is too short, and a chunk is limited by nothing
        but the window, the maximum, and what is left. */
    method Pass(left: nat, first: bool, env: seq<Event>, at: nat)
      returns (p: Passed, next: nat, ghost wraps: nat, ghost loaded: nat)
      requires at <= |env|
      modifies this
      ensures at <= next <= |env|
      ensures currentWindow + UINT32_LIMIT * wraps + Granted(env, at)
              + (if p.Paid? then p.n + (if first then msgOverhead else 0) else 0)
              == old(currentWindow) + Granted(env, next)
      ensures at == |env| ==> loaded == old(currentWindow)
      ensures Was(loaded, old(currentWindow), 0, env, at, next)
      ensures p.Again? ==> at < next || (Short(loaded, first, left) && old(windowUpdates) && !windowUpdates)
      ensures p.Paid? ==>
                && !Short(loaded, first, left)
                && loaded == currentWindow + p.n + (if first then msgOverhead else 0)
                && p.n <= left && p.n <= maxChunkSize && (p.n == left || p.n == maxChunkSize || currentWindow == 0)
                && (left > 0 && maxChunkSize > 0 ==> p.n > 0)
      ensures p.Stop? ==>
                && Short(loaded, first, left)
                && ((p.r.ContextError? && contextDone)
                    || (p.r.StillParked? && next == |env| && !windowUpdates && !contextDone && currentWindow == loaded))
    {
      ghost var w;
      next, wraps := Interfere(env, at);
      var windowSz := currentWindow;
      loaded := windowSz;
      assert WasAt(loaded, old(currentWindow), 0, env, at, next, wraps);
      var overhead := ChunkOverhead(msgOverhead, first);
      if windowSz < Needed(msgOverhead, first, left) {
        var r;
        r, next, w := Select(env, next);
        wraps := wraps + w;
        return if r.Sent? then Again else Stop(r), next, wraps, loaded;
      }
      var chunkSz := ChunkSize(msgOverhead, first, left, maxChunkSize, windowSz);
      var swapped: bool;
      swapped, next, w := CompareAndSwap(windowSz, overhead + chunkSz, env, next);
      wraps := wraps + w;
      return if swapped then Paid(chunkSz) else Again, next, wraps, loaded;
    }

    /** What a finished call of `send` has handed out, and what that cost. */
    ghost predicate Result(r: Outcome, message: Message, frames: seq<Frame>, charged: nat) {
      match r
      case TooLarge => |message| >= UINT32_LIMIT && frames == [] && charged == 0
      case Sent => |message| < UINT32_LIMIT && Chunking(message, maxChunkSize, frames) && charged == |message| + msgOverhead
      case _ => |message| < UINT32_LIMIT && ChunkPrefix(message, maxChunkSize, frames) && !Chunking(message, maxChunkSize, frames)
    }

    /** How many frames a message takes if nothing but the maximum limits them. */
    predicate Fewest(m: Message, frames: nat) {
      if m == [] then frames == 1 else frames > 0 && (frames - 1) * maxChunkSize < |m| <= frames * maxChunkSize
    }

    lemma FewestNext(m: Message, frames: nat, left: nat, n: nat)
      requires maxChunkSize >= 1 && frames * maxChunkSize + left == |m| && (frames > 0 ==> left > 0)
      requires n <= left && n <= maxChunkSize && (n == left || n == maxChunkSize)
      ensures n == left ==> Fewest(m, frames + 1)
      ensures n < left ==> (frames + 1) * maxChunkSize + (left - n) == |m|
    {
      assert (frames + 1) * maxChunkSize == frames * maxChunkSize + maxChunkSize;
      assert frames == 0 ==> frames * maxChunkSize == 0;
    }

    /** Nothing strikes, and the window has room for all that is left: so far every chunk was full. */
    predicate Unhindered(window: nat, m: Message, frames: nat, left: nat) {
      && window >= 1 && window >= left + (if frames == 0 then msgOverhead else 0)
      && frames * maxChunkSize + left == |m|
    }

    lemma UnhinderedIsNotShort(window: nat, m: Message, frames: nat, left: nat)
      requires Unhindered(window, m, frames, left)
      ensures !Short(window, frames == 0, left)
    {
    }

    lemma ChunkSent(m: Message, frames: seq<Frame>, rest: Message, charged: nat, loaded: nat, window: nat, first: bool, n: nat, easy: bool)
      requires maxChunkSize >= 1 && Sending(m, maxChunkSize, msgOverhead, frames, rest, charged) && (first <==> frames == [])
      requires easy ==> Unhindered(loaded, m, |frames|, |rest|)
      requires loaded == window + n + (if first then msgOverhead else 0)
      requires n <= |rest| && n <= maxChunkSize && (rest != [] ==> n > 0) && (n == |rest| || n == maxChunkSize || window == 0)
      ensures var fs := frames + [NextFrame(m, first, rest, n)];
              var charged' := charged + n + if first then msgOverhead else 0;
              && (n < |rest| ==> Sending(m, maxChunkSize, msgOverhead, fs, rest[n..], charged'))
              && (n < |rest| && easy ==> Unhindered(window, m, |fs|, |rest| - n))
              && (n == |rest| ==> Chunking(m, maxChunkSize, fs) && charged' == TotalCharge(msgOverhead, fs) == |m| + msgOverhead)
              && (n == |rest| && easy ==> Fewest(m, |fs|))
    {
      SendingNext(m, maxChunkSize, msgOverhead, frames, rest, charged, first, n);
      if easy {
        FewestNext(m, |frames|, |rest|, n);
      }
    }

    /** What a call that is still parked says about the window, and about the credit it had. */
    lemma ParkedIsShort(m: Message, frames: seq<Frame>, rest: Message, charged: nat, window: nat, credit: nat)
      requires Sending(m, maxChunkSize, msgOverhead, frames, rest, charged) && Short(window, frames == [], |rest|)
      ensures window < if frames != [] || msgOverhead == 0 then 1 else if m == [] then msgOverhead else msgOverhead + 1
      ensures window + charged == credit ==> credit < 1 || credit < |m| + msgOverhead
    {
      assert frames == [] ==> Concat(frames) + rest == rest;
    }

    /** The loop itself. `rest` is what it has not handed out, and `charged` what it has paid. */
    method SendLoop(message: Message, env: seq<Event>)
      returns (r: Outcome, frames: seq<Frame>, used: nat, ghost wraps: nat, ghost charged: nat, ghost rest: Message)
      requires maxChunkSize >= 1
      modifies this
      ensures used <= |env| && (r.Sent? || r.ContextError? || r.StillParked?)
      ensures currentWindow + charged + UINT32_LIMIT * wraps == old(currentWindow) + Granted(env, used)
      ensures if r.Sent? then Chunking(message, maxChunkSize, frames) && charged == TotalCharge(msgOverhead, frames) == |message| + msgOverhead
              else Sending(message, maxChunkSize, msgOverhead, frames, rest, charged)
      ensures r.ContextError? ==> contextDone
      ensures r.StillParked? ==> used == |env| && !windowUpdates && !contextDone
      ensures r.StillParked? ==> Short(currentWindow, frames == [], |rest|)
      ensures r.ContextError? ==>
                exists window: nat :: Was(window, old(currentWindow), charged, env, 0, used) && Short(window, frames == [], |rest|)
      ensures env == [] && Unhindered(old(currentWindow), message, 0, |message|) ==> r.Sent? && Fewest(message, |frames|)
    {
      hide Sending, ChunkPrefix, Chunking, Concat, TotalCharge, Granted, Fewest, Unhindered, Short, Was, NextFrame;
      used, wraps, charged, frames := 0, 0, 0, [];
      SendingStart(message, maxChunkSize, msgOverhead);
      GrantedNone(env);
      ghost var easy := env == [] && Unhindered(currentWindow, message, 0, |message|);
      var data := message;
      var first := true;
      while true
        invariant used <= |env|
        invariant first <==> frames == []
        invariant Sending(message, maxChunkSize, msgOverhead, frames, data, charged)
        invariant currentWindow + charged + UINT32_LIMIT * wraps == old(currentWindow) + Granted(env, used)
        invariant easy ==> Unhindered(currentWindow, message, |frames|, |data|)
        decreases |env| - used, |data|, windowUpdates
      {
        if easy {
          UnhinderedIsNotShort(currentWindow, message, |frames|, |data|);
        }
        ghost var w, loaded, at, now, before := 0, 0, used, currentWindow, wraps;
        var p: Passed;
        p, used, w, loaded := Pass(|data|, first, env, used);
        wraps := wraps + w;
        match p {
          case Again =>
          case Stop(o) =>
            WasBefore(loaded, old(currentWindow), now, charged, before, env, at, used);
            return o, frames, used, wraps, charged, data;
          case Paid(chunkSz) =>
            ChunkSent(message, frames, data, charged, loaded, currentWindow, first, chunkSz, easy);
            frames := frames + [NextFrame(message, first, data, chunkSz)];
            charged := charged + chunkSz + ChunkOverhead(msgOverhead, first);
            if chunkSz == |data| {
              return Sent, frames, used, wraps, charged, [];
            }
            first := false;
            data := data[chunkSz..];
        }
      }
    }

    /** `send`, with the events of `env` striking before the load of the window, between the load
        and the compare-and-swap, and before and while it is parked.

        A maximum chunk of zero is replaced by a default before a sender is created. Whatever
        strikes when, the frames handed to `sendFunc` are a chunking of the message, and what was taken
        from the window is exactly their charge. A call that is still parked found a window with no
        room for another byte; so credit for the whole message is enough for the call to return. With
        that much credit from the start the message takes no more frames than it must. */
    method Send(message: Message, env: seq<Event>)
      returns (r: Outcome, frames: seq<Frame>, used: nat, ghost wraps: nat)
      requires maxChunkSize >= 1
      modifies this
      ensures used <= |env|
      ensures Result(r, message, frames, TotalCharge(msgOverhead, frames))
      ensures currentWindow + TotalCharge(msgOverhead, frames) + UINT32_LIMIT * wraps == old(currentWindow) + Granted(env, used)
      ensures r.ContextError? ==> contextDone
      ensures r.ContextError? ==>
                exists window: nat :: window <= msgOverhead && (frames != [] ==> window == 0)
                                 && Was(window, old(currentWindow), TotalCharge(msgOverhead, frames), env, 0, used)
      ensures r.StillParked? ==> used == |env| && !windowUpdates && !contextDone
      ensures r.StillParked? ==>
                currentWindow < (if frames != [] || msgOverhead == 0 then 1
                                 else if message == [] then msgOverhead else msgOverhead + 1)
      ensures |message| < UINT32_LIMIT && !r.ContextError? && wraps == 0 ==>
                var credit := old(currentWindow) + Granted(env, |env|);
                credit >= 1 && credit >= |message| + msgOverhead ==> r.Sent?
      ensures |message| < UINT32_LIMIT && env == [] ==>
                old(currentWindow) >= 1 && old(currentWindow) >= |message| + msgOverhead ==>
                  r.Sent? && Fewest(message, |frames|)
    {
      hide Sending, ChunkPrefix, Concat, TotalCharge, Granted, Fewest, Short, Was;
      if |message| >= UINT32_LIMIT {
        SendingStart(message, maxChunkSize, msgOverhead);
        GrantedNone(env);
        return TooLarge, [], 0, 0;
      }
      ghost var charged, rest;
      r, frames, used, wraps, charged, rest := SendLoop(message, env);
      if !r.Sent? {
        SendingStops(message, maxChunkSize, msgOverhead, frames, rest, charged);
      }
      if r.ContextError? {
        ghost var window: nat :| Was(window, old(currentWindow), charged, env, 0, used) && Short(window, frames == [], |rest|);
        ShortBound(window, frames == [], |rest|);
      }
      if r.StillParked? {
        ParkedIsShort(message, frames, rest, charged, currentWindow, old(currentWindow) + Granted(env, |env|));
      }
    }
  }
}
