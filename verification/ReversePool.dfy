/** The pools of reverse tunnels: one of all channels and one for each affinity key.

    A pool is guarded by its own lock, so registering a channel in the two pools, and taking
    it out of them, are separate steps that interleave with those of other channels. Each
    pool keeps a channel `avail` that is closed while the pool has members. */
module ReversePool {
  import opened Wrappers

  type Channel = nat
  type Key = nat

  datatype Entry = Entry(ch: Channel, key: Key)

  /** `closed` is whether the current `avail` has been closed; `panicked`, whether one was closed twice. */
  datatype Pool = Pool(chans: seq<Entry>, closed: bool, panicked: bool)

  const EMPTY_POOL := Pool([], false, false)

  predicate Agrees(p: Pool) { (p.closed <==> p.chans != []) && !p.panicked }

  function Add(p: Pool, e: Entry): Pool {
    var chans := p.chans + [e];
    if |chans| == 1 then Pool(chans, true, p.panicked || p.closed) else p.(chans := chans)
  }

  function Find(es: seq<Entry>, ch: Channel): (i: nat)
    ensures i <= |es| && (i < |es| ==> es[i].ch == ch)
    ensures forall k :: 0 <= k < i ==> es[k].ch != ch
  {
    if es == [] || es[0].ch == ch then 0 else 1 + Find(es[1..], ch)
  }

  /** The first entry of the channel is spliced out; an emptied pool gets a new `avail`. */
  function Remove(p: Pool, ch: Channel): (Pool, Option<Key>) {
    var i := Find(p.chans, ch);
    if i == |p.chans| then (p, None)
    else
      var chans := p.chans[..i] + p.chans[i + 1..];
      (Pool(chans, chans != [] && p.closed, p.panicked), Some(p.chans[i].key))
  }

  predicate IsFirst(es: seq<Entry>, i: nat, ch: Channel) {
    i < |es| && es[i].ch == ch && forall k :: 0 <= k < i ==> es[k].ch != ch
  }

  predicate Has(p: Pool, ch: Channel) { exists i :: 0 <= i < |p.chans| && p.chans[i].ch == ch }

  predicate Distinct(p: Pool) {
    forall i, j :: 0 <= i < j < |p.chans| ==> p.chans[i].ch != p.chans[j].ch
  }

  lemma AddMembers(p: Pool, e: Entry)
    requires Agrees(p)
    ensures Agrees(Add(p, e))
    ensures forall ch :: Has(Add(p, e), ch) <==> Has(p, ch) || ch == e.ch
    ensures Distinct(p) && !Has(p, e.ch) ==> Distinct(Add(p, e))
  {
    var q := Add(p, e);
    assert q.chans[|p.chans|] == e;
    forall ch ensures Has(q, ch) <==> Has(p, ch) || ch == e.ch {
      if Has(p, ch) {
        var i :| 0 <= i < |p.chans| && p.chans[i].ch == ch;
        assert q.chans[i].ch == ch;
      }
    }
  }

  lemma RemoveMembers(p: Pool, ch: Channel)
    requires Agrees(p) && Distinct(p)
    ensures var (q, key) := Remove(p, ch);
            && Agrees(q) && Distinct(q)
            && (forall c :: Has(q, c) <==> Has(p, c) && c != ch)
            && (key.Some? <==> Has(p, ch))
  {
    var q := Remove(p, ch).0;
    var i := Find(p.chans, ch);
    if i < |p.chans| {
      assert forall k :: 0 <= k < i ==> q.chans[k] == p.chans[k];
      assert forall k :: i <= k < |q.chans| ==> q.chans[k] == p.chans[k + 1];
      forall c ensures Has(q, c) <==> Has(p, c) && c != ch {
        if Has(p, c) && c != ch {
          var k :| 0 <= k < |p.chans| && p.chans[k].ch == c;
          assert q.chans[if k < i then k else k - 1].ch == c;
        }
      }
    }
  }

  /** The key handed back is the removed entry's, and the other entries stay. */
  lemma RemoveEntries(p: Pool, ch: Channel)
    requires Distinct(p)
    ensures var (q, key) := Remove(p, ch);
            && (key.Some? ==> Entry(ch, key.value) in p.chans)
            && (forall e :: e in q.chans <==> e in p.chans && e.ch != ch)
  {
    var q := Remove(p, ch).0;
    var i := Find(p.chans, ch);
    if i < |p.chans| {
      assert p.chans[i] in p.chans;
      assert p.chans == p.chans[..i] + [p.chans[i]] + p.chans[i + 1..];
      assert forall e :: e in p.chans[..i] || e in p.chans[i + 1..] ==> e.ch != ch;
    } else {
      assert forall e :: e in p.chans ==> e.ch != ch;
    }
  }

  // ---------------------------------------------------------------- round robin

  /** `pick` from a stored index that removals may have left out of range. */
  function Next(idx: nat, n: nat): nat { if idx + 1 >= n then 0 else idx + 1 }

  /** How often `x` is picked in `m` picks. */
  function Hits(idx: nat, n: nat, m: nat, x: nat): nat
    decreases m
  {
    if m == 0 then 0 else (if Next(idx, n) == x then 1 else 0) + Hits(Next(idx, n), n, m - 1, x)
  }

  function After(idx: nat, n: nat, m: nat): nat
    decreases m
  {
    if m == 0 then idx else After(Next(idx, n), n, m - 1)
  }

  lemma {:induction false} HitsAdd(idx: nat, n: nat, a: nat, b: nat, x: nat)
    ensures Hits(idx, n, a + b, x) == Hits(idx, n, a, x) + Hits(After(idx, n, a), n, b, x)
    decreases a
  {
    if a > 0 {
      HitsAdd(Next(idx, n), n, a - 1, b, x);
    }
  }

  /** Within one round, `x` is hit once, namely when its turn comes. */
  lemma {:induction false} HitsInRound(idx: nat, n: nat, m: nat, x: nat)
    requires idx < n && x < n && m <= n
    ensures Hits(idx, n, m, x) == if m > (if x > idx then x - idx - 1 else x + n - idx - 1) then 1 else 0
    decreases m
  {
    if m > 0 {
      HitsInRound(Next(idx, n), n, m - 1, x);
    }
  }

  lemma OneRound(idx: nat, n: nat, x: nat)
    requires x < n
    ensures Hits(idx, n, n, x) == 1
  {
    if idx < n {
      HitsInRound(idx, n, n, x);
    } else {
      assert Next(idx, n) == Next(n - 1, n);
      HitsInRound(n - 1, n, n, x);
    }
  }

  /** From any stored index, `k` rounds of picks without a membership change select each
      channel exactly `k` times. */
  lemma {:induction false} RoundRobin(idx: nat, n: nat, k: nat, x: nat)
    requires x < n
    ensures Hits(idx, n, k * n, x) == k
    decreases k
  {
    if k > 0 {
      assert k * n == n + (k - 1) * n;
      HitsAdd(idx, n, n, (k - 1) * n, x);
      OneRound(idx, n, x);
      RoundRobin(After(idx, n, n), n, k - 1, x);
    }
  }

  // ---------------------------------------------------------------- the pool object

  class ReverseChannels {
    var chans: seq<Entry>
    var idx: nat
    var availClosed: bool

    function State(): Pool
      reads this
    {
      Pool(chans, availClosed, false)
    }

    ghost predicate Valid()
      reads this
    {
      Agrees(State())
    }

    constructor ()
      ensures Valid() && State() == EMPTY_POOL && idx == 0
    {
      chans, idx, availClosed := [], 0, false;
    }

    method AddChannel(ch: Channel, key: Key)
      requires Valid()
      modifies this`chans, this`availClosed
      ensures Valid() && State() == Add(old(State()), Entry(ch, key))
      ensures chans == old(chans) + [Entry(ch, key)] && availClosed
    {
      chans := chans + [Entry(ch, key)];
      if |chans| == 1 {
        assert !availClosed;
        availClosed := true;
      }
    }

    method RemoveChannel(ch: Channel) returns (key: Option<Key>)
      requires Valid()
      modifies this`chans, this`availClosed
      ensures Valid() && (State(), key) == Remove(old(State()), ch)
      ensures key.None? ==> chans == old(chans) && forall e :: e in chans ==> e.ch != ch
      ensures key.Some? ==> exists i :: 0 <= i < |old(chans)| && IsFirst(old(chans), i, ch)
                              && key == Some(old(chans)[i].key) && chans == old(chans)[..i] + old(chans)[i + 1..]
    {
      for i := 0 to |chans|
        invariant chans == old(chans) && availClosed == old(availClosed)
        invariant forall k :: 0 <= k < i ==> chans[k].ch != ch
      {
        if chans[i].ch == ch {
          assert Find(chans, ch) == i && IsFirst(chans, i, ch);
          key := Some(chans[i].key);
          chans := chans[..i] + chans[i + 1..];
          if |chans| == 0 {
            availClosed := false;
          }
          return key;
        }
      }
      assert Find(chans, ch) == |chans|;
      return None;
    }

    /** Never out of range, whatever the index was. */
    method Pick() returns (ch: Option<Channel>)
      modifies this`idx
      ensures ch.None? <==> chans == []
      ensures chans == [] ==> idx == old(idx)
      ensures chans != [] ==> idx == Next(old(idx), |chans|) && idx < |chans| && ch == Some(chans[idx].ch)
      ensures chans != [] ==> idx == if old(idx) < |chans| - 1 then old(idx) + 1 else 0
    {
      if |chans| == 0 {
        return None;
      }
      idx := idx + 1;
      if idx >= |chans| {
        idx := 0;
      }
      return Some(chans[idx].ch);
    }
  }

  // ---------------------------------------------------------------- registering and closing

  /** Where `openReverseTunnel` is for a channel. */
  datatype Phase = Starting | InGlobal | Registered | OutOfKey | Returned

  /** `unregistering`: for each call of `unregister` that has taken a channel out of the global pool
      and is about to do so for its key, the channel and the key that the pool had for it.
      `closing`: channels on which `close` has begun. */
  datatype System = System(
    phase: map<Channel, Phase>, global: Pool, byKey: map<Key, Pool>,
    unregistering: multiset<Entry>, closing: set<Channel>, ended: set<Channel>)

  datatype Step =
    | Open(ch: Channel) | AddGlobal(ch: Channel) | AddKey(ch: Channel)
    | RemoveKey(ch: Channel) | RemoveGlobal(ch: Channel) | GiveUp(ch: Channel)
    | Unregister(ch: Channel) | UnregisterKey(e: Entry) | ContextEnds(ch: Channel)

  function PhaseOf(s: System, ch: Channel): Option<Phase> { if ch in s.phase then Some(s.phase[ch]) else None }

  function PoolOf(byKey: map<Key, Pool>, k: Key): Pool { if k in byKey then byKey[k] else EMPTY_POOL }

  predicate Enabled(s: System, step: Step) {
    match step
    case Open(ch) => ch !in s.phase
    case AddGlobal(ch) => PhaseOf(s, ch) == Some(Starting)
    case AddKey(ch) => PhaseOf(s, ch) == Some(InGlobal)
    case RemoveKey(ch) => PhaseOf(s, ch) == Some(Registered) && ch in s.ended
    case RemoveGlobal(ch) => PhaseOf(s, ch) == Some(OutOfKey)
    case GiveUp(ch) => PhaseOf(s, ch) == Some(Starting) && ch in s.ended
    case Unregister(ch) => ch in s.phase
    case UnregisterKey(e) => e in s.unregistering
    case ContextEnds(ch) => ch in s.phase
  }

  /** `keyOf` is the affinity function's answer for each channel. */
  function Do(keyOf: Channel -> Key, s: System, step: Step): System
    requires Enabled(s, step)
  {
    match step
    case Open(ch) => s.(phase := s.phase[ch := Starting])
    case AddGlobal(ch) => s.(phase := s.phase[ch := InGlobal], global := Add(s.global, Entry(ch, keyOf(ch))))
    case AddKey(ch) =>
      var k := keyOf(ch);
      s.(phase := s.phase[ch := Registered], byKey := s.byKey[k := Add(PoolOf(s.byKey, k), Entry(ch, k))])
    case RemoveKey(ch) =>
      var k := keyOf(ch);
      s.(phase := s.phase[ch := OutOfKey], byKey := s.byKey[k := Remove(PoolOf(s.byKey, k), ch).0])
    case RemoveGlobal(ch) => s.(phase := s.phase[ch := Returned], global := Remove(s.global, ch).0)
    case GiveUp(ch) => s.(phase := s.phase[ch := Returned])
    case Unregister(ch) =>
      var (p, key) := Remove(s.global, ch);
      s.(closing := s.closing + {ch}, global := p,
         unregistering := if key.Some? then s.unregistering + multiset{Entry(ch, key.value)} else s.unregistering)
    case UnregisterKey(e) =>
      var s' := s.(unregistering := s.unregistering - multiset{e});
      if e.key in s.byKey then s'.(byKey := s.byKey[e.key := Remove(s.byKey[e.key], e.ch).0]) else s'
    case ContextEnds(ch) => s.(ended := s.ended + {ch})
  }

  const NO_CHANNELS := System(map[], EMPTY_POOL, map[], multiset{}, {}, {})

  ghost predicate Reaches(keyOf: Channel -> Key, s: System, steps: seq<Step>, t: System)
    decreases steps
  {
    if steps == [] then s == t else Enabled(s, steps[0]) && Reaches(keyOf, Do(keyOf, s, steps[0]), steps[1..], t)
  }

  predicate MayBeGlobal(p: Option<Phase>) { p == Some(InGlobal) || p == Some(Registered) || p == Some(OutOfKey) }

  ghost predicate GlobalInv(s: System) {
    && Agrees(s.global) && Distinct(s.global)
    && (forall ch :: Has(s.global, ch) ==> MayBeGlobal(PhaseOf(s, ch)))
    && (forall ch :: MayBeGlobal(PhaseOf(s, ch)) && ch !in s.closing ==> Has(s.global, ch))
  }

  ghost predicate KeyInv(keyOf: Channel -> Key, s: System) {
    && (forall k :: k in s.byKey ==> Agrees(s.byKey[k]) && Distinct(s.byKey[k]))
    && (forall k, ch :: Has(PoolOf(s.byKey, k), ch) ==> keyOf(ch) == k && PhaseOf(s, ch) == Some(Registered))
    && (forall ch :: PhaseOf(s, ch) == Some(Registered) && ch !in s.closing ==> Has(PoolOf(s.byKey, keyOf(ch)), ch))
    && (forall e :: e in s.unregistering ==> e.ch in s.closing && e.key == keyOf(e.ch))
  }

  /** The global pool has each channel with its key. */
  ghost predicate EntriesInv(keyOf: Channel -> Key, s: System) {
    forall e :: e in s.global.chans ==> e.key == keyOf(e.ch)
  }

  lemma StepGlobal(keyOf: Channel -> Key, s: System, step: Step)
    requires GlobalInv(s) && Enabled(s, step)
    ensures GlobalInv(Do(keyOf, s, step))
  {
    match step
    case AddGlobal(ch) => AddMembers(s.global, Entry(ch, keyOf(ch)));
    case RemoveGlobal(ch) => RemoveMembers(s.global, ch);
    case Unregister(ch) => RemoveMembers(s.global, ch);
    case _ =>
  }

  /** One key's pool changes, for one channel with that key. */
  lemma PoolChanges(keyOf: Channel -> Key, s: System, t: System, ch: Channel, p: Pool)
    requires KeyInv(keyOf, s) && t.byKey == s.byKey[keyOf(ch) := p] && Agrees(p) && Distinct(p)
    requires t.closing == s.closing && t.unregistering <= s.unregistering
    requires forall c :: c != ch ==> PhaseOf(t, c) == PhaseOf(s, c)
    requires forall c :: c != ch ==> (Has(p, c) <==> Has(PoolOf(s.byKey, keyOf(ch)), c))
    requires Has(p, ch) ==> PhaseOf(t, ch) == Some(Registered)
    requires PhaseOf(t, ch) == Some(Registered) && ch !in t.closing ==> Has(p, ch)
    ensures KeyInv(keyOf, t)
  {
    assert PoolOf(t.byKey, keyOf(ch)) == p;
    forall k | k != keyOf(ch) ensures PoolOf(t.byKey, k) == PoolOf(s.byKey, k) {
    }
    forall k, c | Has(PoolOf(t.byKey, k), c) ensures keyOf(c) == k && PhaseOf(t, c) == Some(Registered) {
      assert c != ch ==> Has(PoolOf(s.byKey, k), c);
      assert c == ch && k != keyOf(ch) ==> Has(PoolOf(s.byKey, k), c);
    }
  }

  /** No key's pool changes, and no channel becomes, or ceases to be, registered. */
  lemma PoolsUnchanged(keyOf: Channel -> Key, s: System, t: System)
    requires KeyInv(keyOf, s) && t.byKey == s.byKey && s.closing <= t.closing
    requires forall c :: PhaseOf(t, c) == Some(Registered) <==> PhaseOf(s, c) == Some(Registered)
    requires forall e :: e in t.unregistering ==> e in s.unregistering || (e.ch in t.closing && e.key == keyOf(e.ch))
    ensures KeyInv(keyOf, t)
  {
    forall k, c | Has(PoolOf(t.byKey, k), c) ensures keyOf(c) == k && PhaseOf(t, c) == Some(Registered) {
      assert Has(PoolOf(s.byKey, k), c);
    }
  }

  lemma PoolFacts(keyOf: Channel -> Key, s: System, ch: Channel)
    requires KeyInv(keyOf, s)
    ensures var p := PoolOf(s.byKey, keyOf(ch));
            && Agrees(p) && Distinct(p)
            && (Has(p, ch) ==> PhaseOf(s, ch) == Some(Registered))
            && (forall e :: e in s.unregistering ==> e.ch in s.closing && e.key == keyOf(e.ch))
  {
  }

  lemma StepEntries(keyOf: Channel -> Key, s: System, step: Step)
    requires GlobalInv(s) && EntriesInv(keyOf, s) && Enabled(s, step)
    ensures EntriesInv(keyOf, Do(keyOf, s, step))
  {
    hide Remove, Has;
    match step
    case RemoveGlobal(ch) => RemoveEntries(s.global, ch);
    case Unregister(ch) => RemoveEntries(s.global, ch);
    case _ =>
  }

  lemma RemovedKey(keyOf: Channel -> Key, s: System, ch: Channel)
    requires GlobalInv(s) && EntriesInv(keyOf, s)
    ensures Remove(s.global, ch).1.Some? ==> Remove(s.global, ch).1.value == keyOf(ch)
  {
    RemoveEntries(s.global, ch);
  }

  lemma UnregisterKeyInv(keyOf: Channel -> Key, s: System, e: Entry)
    requires KeyInv(keyOf, s) && Enabled(s, UnregisterKey(e))
    ensures KeyInv(keyOf, Do(keyOf, s, UnregisterKey(e)))
  {
    hide KeyInv, Agrees, Distinct, Has, Add, Remove;
    var t := Do(keyOf, s, UnregisterKey(e));
    var p := PoolOf(s.byKey, e.key);
    PoolFacts(keyOf, s, e.ch);
    if e.key in s.byKey {
      RemoveMembers(p, e.ch);
      PoolChanges(keyOf, s, t, e.ch, Remove(p, e.ch).0);
    } else {
      PoolsUnchanged(keyOf, s, t);
    }
  }

  lemma StepKey(keyOf: Channel -> Key, s: System, step: Step)
    requires GlobalInv(s) && EntriesInv(keyOf, s) && KeyInv(keyOf, s) && Enabled(s, step)
    ensures KeyInv(keyOf, Do(keyOf, s, step))
  {
    hide KeyInv, GlobalInv, EntriesInv, Agrees, Distinct, Has, Add, Remove;
    var t := Do(keyOf, s, step);
    match step
    case AddKey(ch) =>
      var p := PoolOf(s.byKey, keyOf(ch));
      PoolFacts(keyOf, s, ch);
      AddMembers(p, Entry(ch, keyOf(ch)));
      PoolChanges(keyOf, s, t, ch, Add(p, Entry(ch, keyOf(ch))));
    case RemoveKey(ch) =>
      var p := PoolOf(s.byKey, keyOf(ch));
      PoolFacts(keyOf, s, ch);
      RemoveMembers(p, ch);
      PoolChanges(keyOf, s, t, ch, Remove(p, ch).0);
    case UnregisterKey(e) => UnregisterKeyInv(keyOf, s, e);
    case Unregister(ch) =>
      RemovedKey(keyOf, s, ch);
      PoolsUnchanged(keyOf, s, t);
    case _ => PoolsUnchanged(keyOf, s, t);
  }

  lemma {:induction false} RunInv(keyOf: Channel -> Key, s: System, steps: seq<Step>, t: System)
    requires GlobalInv(s) && EntriesInv(keyOf, s) && KeyInv(keyOf, s) && Reaches(keyOf, s, steps, t)
    ensures GlobalInv(t) && EntriesInv(keyOf, t) && KeyInv(keyOf, t)
    decreases steps
  {
    hide GlobalInv, EntriesInv, KeyInv, Do, Enabled;
    if steps != [] {
      StepGlobal(keyOf, s, steps[0]);
      StepEntries(keyOf, s, steps[0]);
      StepKey(keyOf, s, steps[0]);
      RunInv(keyOf, Do(keyOf, s, steps[0]), steps[1..], t);
    }
  }

  /** Under any interleaving of registrations and closes: every pool's `avail` is closed exactly
      while it has members, and none is ever closed twice; among the channels that are fully
      registered and not being closed, each key's pool has exactly the global pool's channels
      with that key; and a channel whose call has returned is in no pool. */
  lemma PoolsAgree(keyOf: Channel -> Key, steps: seq<Step>, t: System)
    requires Reaches(keyOf, NO_CHANNELS, steps, t)
    ensures Agrees(t.global) && forall k :: k in t.byKey ==> Agrees(t.byKey[k])
    ensures forall ch, k :: PhaseOf(t, ch) == Some(Registered) && ch !in t.closing ==>
              (Has(PoolOf(t.byKey, k), ch) <==> Has(t.global, ch) && keyOf(ch) == k)
    ensures forall ch :: PhaseOf(t, ch) == Some(Returned) ==> !Has(t.global, ch) && forall k :: !Has(PoolOf(t.byKey, k), ch)
    ensures forall e :: e in t.global.chans || e in t.unregistering ==> e.key == keyOf(e.ch)
  {
    RunInv(keyOf, NO_CHANNELS, steps, t);
  }

  lemma {:induction false} ReturnedForGood(keyOf: Channel -> Key, s: System, steps: seq<Step>, t: System, ch: Channel)
    requires PhaseOf(s, ch) == Some(Returned) && Reaches(keyOf, s, steps, t)
    ensures PhaseOf(t, ch) == Some(Returned)
    decreases steps
  {
    if steps != [] {
      ReturnedForGood(keyOf, Do(keyOf, s, steps[0]), steps[1..], t, ch);
    }
  }

  /** Once `openReverseTunnel` has returned, its channel is gone from every pool, and no call of
      `unregister` that is still under way, nor anything later, brings it back. */
  lemma GoneForGood(keyOf: Channel -> Key, steps: seq<Step>, s: System, later: seq<Step>, t: System, ch: Channel)
    requires Reaches(keyOf, NO_CHANNELS, steps, s) && PhaseOf(s, ch) == Some(Returned) && Reaches(keyOf, s, later, t)
    ensures !Has(t.global, ch) && forall k :: !Has(PoolOf(t.byKey, k), ch)
  {
    RunInv(keyOf, NO_CHANNELS, steps, s);
    RunInv(keyOf, s, later, t);
    ReturnedForGood(keyOf, s, later, t, ch);
  }

  lemma OutStep(keyOf: Channel -> Key, s: System, step: Step, ch: Channel)
    requires GlobalInv(s) && ch in s.phase && s.phase[ch] != Starting && !Has(s.global, ch) && Enabled(s, step)
    ensures var t := Do(keyOf, s, step); ch in t.phase && t.phase[ch] != Starting && !Has(t.global, ch)
  {
    hide Add, Remove;
    match step
    case AddGlobal(c) => AddMembers(s.global, Entry(c, keyOf(c)));
    case RemoveGlobal(c) => RemoveMembers(s.global, c);
    case Unregister(c) => RemoveMembers(s.global, c);
    case _ =>
  }

  lemma {:induction false} StaysOut(keyOf: Channel -> Key, s: System, steps: seq<Step>, t: System, ch: Channel)
    requires GlobalInv(s) && ch in s.phase && s.phase[ch] != Starting && !Has(s.global, ch) && Reaches(keyOf, s, steps, t)
    ensures !Has(t.global, ch)
    decreases steps
  {
    hide GlobalInv, Do, Enabled, Has;
    if steps != [] {
      OutStep(keyOf, s, steps[0], ch);
      StepGlobal(keyOf, s, steps[0]);
      StaysOut(keyOf, Do(keyOf, s, steps[0]), steps[1..], t, ch);
    }
  }

  /** Closing a channel that has been put into the global pool takes it out at once and for good, so
      no call is given it any more; and it is taken out of its key's pool when `unregister` gets to it. */
  lemma ClosedForGood(keyOf: Channel -> Key, before: seq<Step>, s: System, ch: Channel, steps: seq<Step>, t: System)
    requires Reaches(keyOf, NO_CHANNELS, before, s) && Enabled(s, Unregister(ch)) && s.phase[ch] != Starting
    requires Reaches(keyOf, Do(keyOf, s, Unregister(ch)), steps, t)
    ensures !Has(t.global, ch)
    ensures Has(s.global, ch) ==> Entry(ch, keyOf(ch)) in Do(keyOf, s, Unregister(ch)).unregistering
    ensures forall e :: Enabled(t, UnregisterKey(e)) ==> !Has(PoolOf(Do(keyOf, t, UnregisterKey(e)).byKey, keyOf(e.ch)), e.ch)
  {
    RunInv(keyOf, NO_CHANNELS, before, s);
    var next := Do(keyOf, s, Unregister(ch));
    RemoveMembers(s.global, ch);
    RemovedKey(keyOf, s, ch);
    StepGlobal(keyOf, s, Unregister(ch));
    StepEntries(keyOf, s, Unregister(ch));
    StepKey(keyOf, s, Unregister(ch));
    StaysOut(keyOf, next, steps, t, ch);
    RunInv(keyOf, next, steps, t);
    forall e | Enabled(t, UnregisterKey(e)) ensures !Has(PoolOf(Do(keyOf, t, UnregisterKey(e)).byKey, keyOf(e.ch)), e.ch) {
      UnregisterKeyTakes(keyOf, t, e);
    }
  }

  lemma UnregisterKeyTakes(keyOf: Channel -> Key, s: System, e: Entry)
    requires KeyInv(keyOf, s) && Enabled(s, UnregisterKey(e))
    ensures !Has(PoolOf(Do(keyOf, s, UnregisterKey(e)).byKey, keyOf(e.ch)), e.ch)
  {
    PoolFacts(keyOf, s, e.ch);
    if e.key in s.byKey {
      RemoveMembers(s.byKey[e.key], e.ch);
    }
  }
}
