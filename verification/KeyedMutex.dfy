/**
 The keyed promise-queue mutex. A call of `run` is split where the event loop may interleave others:
 the synchronous part that chains onto the key's tail, the moment its function starts, the moment the
 function settles, the moment the swallowed-rejection tail settles, and the resumption that reclaims
 the queue entry. The order of the last two is left open.
 */
module KeyedMutexModel {
  import opened Wrappers

  type Key = string

  datatype Phase = Queued | Running | Settled(rejected: bool, tailDone: bool, cleaned: bool)

  /** One call of `run`: its key, and the call whose tail it was chained onto, if any. */
  datatype Call = Call(key: Key, previous: Option<nat>, phase: Phase)

  /** `queues` maps a key to the call whose tail it holds; `calls` are the promises in call order. */
  datatype Mutex = Mutex(queues: map<Key, nat>, calls: seq<Call>)

  datatype Action =
    | Run(key: Key)
    | Start(c: nat)
    | Settle(c: nat, rejected: bool)
    | SettleTail(c: nat)
    | Cleanup(c: nat)

  predicate TailDone(m: Mutex, c: nat) {
    c < |m.calls| && m.calls[c].phase.Settled? && m.calls[c].phase.tailDone
  }

  predicate Enabled(m: Mutex, a: Action) {
    match a
    case Run(_) => true
    case Start(c) =>
      c < |m.calls| && m.calls[c].phase.Queued? &&
      (m.calls[c].previous.Some? ==> TailDone(m, m.calls[c].previous.value))
    case Settle(c, _) => c < |m.calls| && m.calls[c].phase.Running?
    case SettleTail(c) => c < |m.calls| && m.calls[c].phase.Settled? && !m.calls[c].phase.tailDone
    case Cleanup(c) => c < |m.calls| && m.calls[c].phase.Settled? && !m.calls[c].phase.cleaned
  }

  function WithPhase(m: Mutex, c: nat, phase: Phase): Mutex
    requires c < |m.calls|
  {
    m.(calls := m.calls[c := m.calls[c].(phase := phase)])
  }

  function Do(m: Mutex, a: Action): Mutex
    requires Enabled(m, a)
  {
    match a
    case Run(key) =>
      Mutex(m.queues[key := |m.calls|],
            m.calls + [Call(key, if key in m.queues then Some(m.queues[key]) else None, Queued)])
    case Start(c) => WithPhase(m, c, Running)
    case Settle(c, rejected) => WithPhase(m, c, Settled(rejected, false, false))
    case SettleTail(c) => WithPhase(m, c, m.calls[c].phase.(tailDone := true))
    case Cleanup(c) =>
      var done := WithPhase(m, c, m.calls[c].phase.(cleaned := true));
      var key := m.calls[c].key;
      if key in m.queues && m.queues[key] == c then done.(queues := m.queues - {key}) else done
  }

  const EMPTY := Mutex(map[], [])

  ghost predicate Step(m: Mutex, m': Mutex) {
    exists a :: Enabled(m, a) && m' == Do(m, a)
  }

  /** A schedule: calls made and promise reactions run in any order the event loop allows. */
  ghost predicate IsRun(run: seq<Mutex>) {
    |run| > 0 && run[0] == EMPTY && forall i :: 0 < i < |run| ==> Step(run[i - 1], run[i])
  }

  // ---------- the invariant ----------

  predicate Started(m: Mutex, c: nat) {
    c < |m.calls| && !m.calls[c].phase.Queued?
  }

  /** All calls on `key` before the `n`-th have settled. */
  predicate SettledBefore(m: Mutex, key: Key, n: nat) {
    forall i :: 0 <= i < n && i < |m.calls| && m.calls[i].key == key ==> m.calls[i].phase.Settled?
  }

  predicate NoneBetween(m: Mutex, key: Key, p: nat, n: nat) {
    forall i :: p < i < n && i < |m.calls| ==> m.calls[i].key != key
  }

  predicate ChainOk(m: Mutex, c: nat)
    requires c < |m.calls|
  {
    var call := m.calls[c];
    match call.previous
    case Some(p) => p < c && m.calls[p].key == call.key && NoneBetween(m, call.key, p, c)
    case None => SettledBefore(m, call.key, c)
  }

  /** An entry names the latest call on its key, whose cleanup is still to come. */
  predicate EntryOk(m: Mutex, key: Key)
    requires key in m.queues
  {
    var q := m.queues[key];
    && q < |m.calls| && m.calls[q].key == key && NoneBetween(m, key, q, |m.calls|)
    && !(m.calls[q].phase.Settled? && m.calls[q].phase.cleaned)
  }

  ghost predicate Inv(m: Mutex) {
    && (forall c :: 0 <= c < |m.calls| ==> ChainOk(m, c))
    && (forall c :: 0 <= c < |m.calls| && Started(m, c) ==> SettledBefore(m, m.calls[c].key, c))
    && (forall key :: key in m.queues ==> EntryOk(m, key))
    && (forall key :: key !in m.queues ==> SettledBefore(m, key, |m.calls|))
  }

  lemma StartFollowsPredecessors(m: Mutex, c: nat)
    requires Inv(m) && Enabled(m, Start(c))
    ensures SettledBefore(m, m.calls[c].key, c)
  {
    var call := m.calls[c];
    assert ChainOk(m, c);
    if call.previous.Some? {
      var p := call.previous.value;
      assert Started(m, p);
      forall i | 0 <= i < c && m.calls[i].key == call.key ensures m.calls[i].phase.Settled? {
        assert i <= p;
      }
    }
  }

  lemma RunKeepsInv(m: Mutex, key: Key)
    requires Inv(m)
    ensures Inv(Do(m, Run(key)))
  {
    var m' := Do(m, Run(key));
    forall c | 0 <= c < |m'.calls| ensures ChainOk(m', c) {
      if c < |m.calls| {
        assert ChainOk(m, c);
      } else if key in m.queues {
        assert EntryOk(m, key);
      } else {
        assert SettledBefore(m, key, |m.calls|);
      }
    }
    forall k | k in m'.queues ensures EntryOk(m', k) {
      if k != key { assert EntryOk(m, k); }
    }
    forall k | k !in m'.queues ensures SettledBefore(m', k, |m'.calls|) {
      assert SettledBefore(m, k, |m.calls|);
    }
    forall c | 0 <= c < |m'.calls| && Started(m', c) ensures SettledBefore(m', m'.calls[c].key, c) {
      assert Started(m, c);
    }
  }

  /** Phases only advance, so what has settled stays settled and what has started stays started. */
  lemma AdvanceShape(m: Mutex, a: Action)
    requires Enabled(m, a) && !a.Run?
    ensures var m' := Do(m, a);
            && |m'.calls| == |m.calls|
            && (forall i :: 0 <= i < |m.calls| ==>
                  && m'.calls[i].key == m.calls[i].key && m'.calls[i].previous == m.calls[i].previous
                  && (m.calls[i].phase.Settled? ==> m'.calls[i].phase.Settled?)
                  && (Started(m', i) ==> Started(m, i) || (a.Start? && i == a.c)))
            && (forall i :: 0 <= i < |m.calls| && i != a.c ==> m'.calls[i] == m.calls[i])
  {
  }

  lemma AdvanceKeepsQueues(m: Mutex, a: Action)
    requires Inv(m) && Enabled(m, a) && !a.Run?
    ensures var m' := Do(m, a);
            && (forall k :: k in m'.queues ==> EntryOk(m', k))
            && (forall k :: k !in m'.queues ==> SettledBefore(m', k, |m'.calls|))
  {
    var m' := Do(m, a);
    AdvanceShape(m, a);
    forall k | k in m'.queues ensures EntryOk(m', k) {
      assert EntryOk(m, k);
    }
    forall k | k !in m'.queues ensures SettledBefore(m', k, |m'.calls|) {
      if k in m.queues {
        assert EntryOk(m, k);
        assert Started(m, a.c) && SettledBefore(m, k, a.c);
      } else {
        assert SettledBefore(m, k, |m.calls|);
      }
    }
  }

  lemma AdvanceKeepsInv(m: Mutex, a: Action)
    requires Inv(m) && Enabled(m, a) && !a.Run?
    ensures Inv(Do(m, a))
  {
    var m' := Do(m, a);
    AdvanceShape(m, a);
    AdvanceKeepsQueues(m, a);
    if a.Start? { StartFollowsPredecessors(m, a.c); }
    forall c | 0 <= c < |m'.calls| ensures ChainOk(m', c) {
      assert ChainOk(m, c);
    }
    forall c | 0 <= c < |m'.calls| && Started(m', c) ensures SettledBefore(m', m'.calls[c].key, c) {
      assert SettledBefore(m, m.calls[c].key, c);
    }
  }

  lemma {:induction false} RunHasInv(run: seq<Mutex>, i: nat)
    requires IsRun(run) && i < |run|
    ensures Inv(run[i])
  {
    if i == 0 {
    } else {
      RunHasInv(run, i - 1);
      var m, m' := run[i - 1], run[i];
      assert Step(m, m');
      var a :| Enabled(m, a) && m' == Do(m, a);
      if a.Run? { RunKeepsInv(m, a.key); } else { AdvanceKeepsInv(m, a); }
    }
  }

  // ---------- what the mutex promises, over every schedule ----------

  /** Sections of one key run one at a time and in call order: once a section has started, every
      earlier call on its key has settled. */
  lemma SectionsRunInCallOrder(run: seq<Mutex>, n: nat, i: nat, j: nat)
    requires IsRun(run) && n < |run| && i < j < |run[n].calls| && run[n].calls[i].key == run[n].calls[j].key
    ensures Started(run[n], j) ==> run[n].calls[i].phase.Settled?
    ensures !(run[n].calls[i].phase.Running? && run[n].calls[j].phase.Running?)
  {
    RunHasInv(run, n);
  }

  /** A key is missing from the map only when everything ever queued on it has settled; while present it
      names the latest call on it. */
  lemma ReclaimedOnlyWhenSettled(run: seq<Mutex>, n: nat, key: Key)
    requires IsRun(run) && n < |run|
    ensures key !in run[n].queues ==>
              forall c :: 0 <= c < |run[n].calls| && run[n].calls[c].key == key ==> run[n].calls[c].phase.Settled?
    ensures key in run[n].queues ==>
              run[n].queues[key] < |run[n].calls| && run[n].calls[run[n].queues[key]].key == key &&
              forall c :: run[n].queues[key] < c < |run[n].calls| ==> run[n].calls[c].key != key
  {
    RunHasInv(run, n);
    if key in run[n].queues {
      assert EntryOk(run[n], key);
    }
  }

  predicate Finished(call: Call) {
    call.phase.Settled? && call.phase.tailDone && call.phase.cleaned
  }

  /** Once every call has been resumed the map is empty. */
  lemma MapDrains(run: seq<Mutex>, n: nat)
    requires IsRun(run) && n < |run|
    requires forall c :: 0 <= c < |run[n].calls| ==> Finished(run[n].calls[c])
    ensures run[n].queues == map[]
  {
    RunHasInv(run, n);
    forall key ensures key !in run[n].queues {
      assert key in run[n].queues ==> EntryOk(run[n], key);
    }
  }

  function StepsLeft(phase: Phase): nat {
    match phase
    case Queued => 4
    case Running => 3
    case Settled(_, tailDone, cleaned) => (if tailDone then 0 else 1) + (if cleaned then 0 else 1)
  }

  function Remaining(calls: seq<Call>): nat {
    if calls == [] then 0 else StepsLeft(calls[0].phase) + Remaining(calls[1..])
  }

  lemma {:induction false} RemainingUpdate(calls: seq<Call>, c: nat, call: Call)
    requires c < |calls|
    ensures Remaining(calls[c := call]) == Remaining(calls) - StepsLeft(calls[c].phase) + StepsLeft(call.phase)
  {
    if c == 0 {
      assert calls[c := call][1..] == calls[1..];
    } else {
      assert calls[c := call][1..] == calls[1..][c - 1 := call];
      RemainingUpdate(calls[1..], c - 1, call);
    }
  }

  /** A call that has not finished never waits on anything but an earlier call: whatever settled, and
      however (a rejection included), some step is enabled, and each one brings the end closer. */
  lemma NeverStuck(run: seq<Mutex>, n: nat, c: nat) returns (a: Action)
    requires IsRun(run) && n < |run| && c < |run[n].calls| && !Finished(run[n].calls[c])
    ensures Enabled(run[n], a) && !a.Run?
    ensures Remaining(Do(run[n], a).calls) == Remaining(run[n].calls) - 1
    decreases c
  {
    RunHasInv(run, n);
    var m := run[n];
    var call := m.calls[c];
    assert ChainOk(m, c);
    if call.phase.Queued? && call.previous.Some? && !TailDone(m, call.previous.value) {
      a := NeverStuck(run, n, call.previous.value);
    } else {
      a := match call.phase
           case Queued => Start(c)
           case Running => Settle(c, false)
           case Settled(_, tailDone, _) => if tailDone then Cleanup(c) else SettleTail(c);
      RemainingUpdate(m.calls, c, Do(m, a).calls[c]);
    }
  }

  /** Settling by rejection leaves exactly the same steps enabled as settling by success. */
  lemma RejectionBlocksNothing(m: Mutex, c: nat, a: Action)
    requires Enabled(m, Settle(c, true))
    ensures Enabled(Do(m, Settle(c, true)), a) <==> Enabled(Do(m, Settle(c, false)), a)
  {
    var x, y := Do(m, Settle(c, true)), Do(m, Settle(c, false));
    assert forall i :: 0 <= i < |m.calls| ==> TailDone(x, i) == TailDone(y, i);
  }

  // ---------- the class ----------

  class KeyedMutex {
    var queues: map<Key, nat>
    var calls: seq<Call>

    ghost function State(): Mutex
      reads this
    {
      Mutex(queues, calls)
    }

    constructor ()
      ensures State() == EMPTY
    {
      queues, calls := map[], [];
    }

    /** The synchronous part of `run`, up to its first await. */
    method Enqueue(key: Key) returns (c: nat)
      modifies this
      ensures State() == Do(old(State()), Run(key))
      ensures c == |old(calls)| && queues[key] == c
    {
      var previous := if key in queues then Some(queues[key]) else None;
      c := |calls|;
      calls := calls + [Call(key, previous, Queued)];
      queues := queues[key := c];
    }

    /** The event loop starts the critical section of a call whose predecessor's tail has settled. */
    method Begin(c: nat)
      requires Enabled(State(), Start(c))
      modifies this`calls
      ensures State() == Do(old(State()), Start(c))
    {
      calls := calls[c := calls[c].(phase := Running)];
    }

    method Finish(c: nat, rejected: bool)
      requires Enabled(State(), Settle(c, rejected))
      modifies this`calls
      ensures State() == Do(old(State()), Settle(c, rejected))
    {
      calls := calls[c := calls[c].(phase := Settled(rejected, false, false))];
    }

    method SwallowRejection(c: nat)
      requires Enabled(State(), SettleTail(c))
      modifies this`calls
      ensures State() == Do(old(State()), SettleTail(c))
    {
      calls := calls[c := calls[c].(phase := calls[c].phase.(tailDone := true))];
    }

    /** The `finally` block: reclaim the entry unless a later call replaced it. */
    method Reclaim(c: nat)
      requires Enabled(State(), Cleanup(c))
      modifies this
      ensures State() == Do(old(State()), Cleanup(c))
    {
      var key := calls[c].key;
      calls := calls[c := calls[c].(phase := calls[c].phase.(cleaned := true))];
      if key in queues && queues[key] == c {
        queues := queues - {key};
      }
    }
  }
}
