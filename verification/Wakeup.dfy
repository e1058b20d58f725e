/** The condition variable of a receiver, against every order of arrivals, closing, cancelling
    and consuming, and why it needs a single consumer.

    `accept` signals one waiter and `handleClosure` all of them, but both do so only if the
    queue was empty. That is enough for one consumer, which `readMu` guarantees, and never
    enough for more. */
module Wakeup {
  import opened Framing
  import opened FlowControl

  /** Consumers outside `dequeue`, about to look at the queue, and asleep in `Wait`. */
  datatype Consumers = Consumers(q: Queue, away: nat, ready: nat, waiting: nat)

  datatype Op = Enter | Look | Arrive(f: Frame) | Close | Cancel

  predicate CanDo(s: Consumers, op: Op) {
    match op
    case Enter => s.away > 0
    case Look => s.ready > 0
    case _ => true
  }

  function WakeOne(s: Consumers, doit: bool): Consumers {
    if doit && s.waiting > 0 then s.(waiting := s.waiting - 1, ready := s.ready + 1) else s
  }

  function WakeAll(s: Consumers, doit: bool): Consumers {
    if doit then s.(waiting := 0, ready := s.ready + s.waiting) else s
  }

  function DoOp(l: Limits, s: Consumers, op: Op): Consumers
    requires CanDo(s, op)
  {
    match op
    case Enter => s.(away := s.away - 1, ready := s.ready + 1)
    case Look =>
      var back := s.(ready := s.ready - 1, away := s.away + 1);
      if s.q.cancelled then back
      else if s.q.items != [] then back.(q := Take(l, s.q).0)
      else if s.q.closed then back
      else s.(ready := s.ready - 1, waiting := s.waiting + 1)
    case Arrive(f) =>
      var (q, ok) := Accept(l, s.q, f);
      WakeOne(s.(q := q), ok && !s.q.closed && s.q.items == [])
    case Close => WakeAll(s.(q := CloseQueue(s.q)), !s.q.closed && s.q.items == [])
    case Cancel => WakeAll(s.(q := CancelQueue(s.q)), !s.q.cancelled && s.q.items == [])
  }

  ghost predicate Leads(l: Limits, s: Consumers, ops: seq<Op>, t: Consumers)
    decreases ops
  {
    if ops == [] then s == t else CanDo(s, ops[0]) && Leads(l, DoOp(l, s, ops[0]), ops[1..], t)
  }

  /** A consumer sleeps although it has something to do, and nobody is on the way to wake it. */
  predicate Lost(s: Consumers) {
    s.waiting > 0 && s.ready == 0 && (s.q.items != [] || s.q.closed || s.q.cancelled)
  }

  function Fresh(l: Limits, n: nat): Consumers { Consumers(EmptyQueue(l), n, 0, 0) }

  /** For one consumer, even more: it only ever sleeps on a queue that is empty, open and not cancelled. */
  predicate SleepsSoundly(s: Consumers) {
    && s.away + s.ready + s.waiting <= 1
    && (s.waiting > 0 ==> s.q.items == [] && !s.q.closed && !s.q.cancelled)
  }

  lemma {:induction false} OneConsumer(l: Limits, s: Consumers, ops: seq<Op>, t: Consumers)
    requires SleepsSoundly(s) && Leads(l, s, ops, t)
    ensures SleepsSoundly(t)
    decreases ops
  {
    if ops != [] {
      assert SleepsSoundly(DoOp(l, s, ops[0]));
      OneConsumer(l, DoOp(l, s, ops[0]), ops[1..], t);
    }
  }

  /** Two sleep; two frames arrive, and only the first of them signals; its consumer takes one
      frame and goes away. */
  lemma TwoConsumersLoseOne(l: Limits, n: nat) returns (ops: seq<Op>, t: Consumers)
    requires n >= 2
    ensures Leads(l, Fresh(l, n), ops, t) && Lost(t)
  {
    var f := More([]);
    ops := [Enter, Enter, Look, Look, Arrive(f), Arrive(f), Look];
    var s1 := DoOp(l, Fresh(l, n), Enter);
    var s2 := DoOp(l, s1, Enter);
    var s3 := DoOp(l, s2, Look);
    var s4 := DoOp(l, s3, Look);
    assert s4 == Consumers(EmptyQueue(l), n - 2, 0, 2);
    var s5 := DoOp(l, s4, Arrive(f));
    var s6 := DoOp(l, s5, Arrive(f));
    assert s6.waiting == 1 && s6.ready == 1 && s6.q.items == [f, f];
    t := DoOp(l, s6, Look);
    assert ops[1..] == [Enter, Look, Look, Arrive(f), Arrive(f), Look];
    assert ops[1..][1..] == [Look, Look, Arrive(f), Arrive(f), Look];
    assert ops[1..][1..][1..] == [Look, Arrive(f), Arrive(f), Look];
    assert Leads(l, t, [], t);
    assert Leads(l, s6, [Look], t) by { assert [Look][1..] == []; }
    assert Leads(l, s5, [Arrive(f), Look], t) by { assert [Arrive(f), Look][1..] == [Look]; }
    assert Leads(l, s4, [Arrive(f), Arrive(f), Look], t) by { assert [Arrive(f), Arrive(f), Look][1..] == [Arrive(f), Look]; }
    assert Leads(l, s3, [Look, Arrive(f), Arrive(f), Look], t) by {
      assert [Look, Arrive(f), Arrive(f), Look][1..] == [Arrive(f), Arrive(f), Look];
    }
  }

  ghost predicate CanLose(l: Limits, n: nat, t: Consumers) {
    Lost(t) && exists ops :: Leads(l, Fresh(l, n), ops, t)
  }

  /** No wake-up is ever lost, over all runs, exactly if there is at most one consumer. */
  lemma SingleConsumerExact(l: Limits, n: nat)
    ensures (forall t :: !CanLose(l, n, t)) <==> n <= 1
  {
    if n <= 1 {
      forall t ensures !CanLose(l, n, t) {
        if CanLose(l, n, t) {
          var ops :| Leads(l, Fresh(l, n), ops, t);
          OneConsumer(l, Fresh(l, n), ops, t);
        }
      }
    } else {
      var ops, t := TwoConsumersLoseOne(l, n);
      assert CanLose(l, n, t);
    }
  }
}
