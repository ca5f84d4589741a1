/**
 The write transactions are not safe by doing nothing: from any rows at rest, every operation that is admitted there
 and fits the capacity has a run in which it commits.
 */
module PostgresProgress {
  import opened PostgresAccounting
  import opened PostgresHistory
  import opened PostgresTransactions
  import opened Preconditions
  import opened Wrappers

  /** What a request asks of the rows there are. */
  predicate Admitted(items: Items, op: Op) {
    var was := Lookup(items, Target(op));
    match op
    case WriteResource(_, _, guard) => WriteAllowed(IsLive(was), VersionIn(was), guard)
    case WriteChunk(rid, _, _, guard) => IsLive(Lookup(items, ResourceItem(rid))) && WriteAllowed(IsLive(was), VersionIn(was), guard)
    case WriteMetadata(_, guard) => IsLive(was) && MetaWriteAllowed(MetaVersionIn(was), guard)
    case DeleteResource(_, guard) => IsLive(was) && WriteAllowed(true, VersionIn(was), guard)
    case DeleteChunk(_, _, guard) => IsLive(was) && WriteAllowed(true, VersionIn(was), guard)
  }

  function BytesOf(op: Op): nat {
    if Upserts(op) then |op.bytes| else 0
  }

  function LiveSize(row: Option<Row>): nat {
    if IsLive(row) then row.value.size else 0
  }

  /** A write that does not grow what is stored fits, and so does one whose growth the capacity holds. */
  predicate Fits(cfg: Config, s: State, op: Op) {
    var growth := BytesOf(op) - LiveSize(Lookup(s.items, Target(op)));
    growth <= 0 || cfg.capacity.None? || s.usage + growth <= cfg.capacity.value
  }

  function Last(run: seq<State>): State
    requires run != []
  {
    run[|run| - 1]
  }

  lemma Extend(cfg: Config, run: seq<State>, a: Action) returns (run': seq<State>)
    requires IsRun(cfg, run) && Enabled(cfg, Last(run), 0, a)
    ensures IsRun(cfg, run') && run'[0] == run[0] && Last(run') == Do(cfg, Last(run), 0, a)
  {
    run' := run + [Do(cfg, Last(run), 0, a)];
    forall i | 0 < i < |run'| ensures Step(cfg, run'[i - 1], run'[i]) {
      if i < |run| { assert run'[i - 1] == run[i - 1] && run'[i] == run[i]; }
    }
  }

  /** One transaction at work on the rows, with every lock there is its own. */
  ghost predicate Alone(s: State, base: State, tx: Tx) {
    && s.items == base.items && s.usage == base.usage && s.log == base.log && s.txs == map[0 := tx]
    && (forall k :: k in s.owner ==> s.owner[k] == 0)
  }

  lemma Begins(cfg: Config, base: State, op: Op) returns (run: seq<State>)
    requires AtRest(cfg, base) && Admitted(base.items, op)
    ensures IsRun(cfg, run) && run[0] == base
    ensures Alone(Last(run), base, Tx(op, if op.WriteChunk? then ParentHeld else Started, None, {}, 0, 0, None, None))
  {
    assert IsRun(cfg, [base]);
    run := Extend(cfg, [base], Begin(op));
    if op.WriteChunk? {
      run := Extend(cfg, run, LockParent);
    }
  }

  /** Its row is located, or the lock of its creators taken. */
  lemma Locates(cfg: Config, base: State, op: Op) returns (run: seq<State>)
    requires AtRest(cfg, base) && Admitted(base.items, op)
    ensures IsRun(cfg, run) && run[0] == base
    ensures Alone(Last(run), base, Tx(op, Located, Lookup(base.items, Target(op)), {}, 0, 0, None, None))
  {
    run := Begins(cfg, base, op);
    if Target(op) in base.items {
      run := Extend(cfg, run, SelectFound);
    } else {
      run := Extend(cfg, run, SelectNone);
      run := Extend(cfg, run, LockCreate);
      run := Extend(cfg, run, SelectNoneAgain);
    }
  }

  function ChunksUnder(items: Items, rid: string): set<Item> {
    set i | i in items && i.ChunkItem? && i.rid == rid
  }

  lemma NoneLeft<T>(all: set<T>, done: set<T>)
    requires done <= all && all - done == {}
    ensures done == all
  {
    forall x | x in all ensures x in done {
      assert x !in all - done;
    }
  }

  /** A Resource delete takes the chunks one by one. */
  lemma Reaps(cfg: Config, before: seq<State>, base: State, tx: Tx) returns (run: seq<State>, reaped: Tx)
    requires IsRun(cfg, before) && before[0] == base && Alone(Last(before), base, tx)
    requires tx.op.DeleteResource? && tx.phase == Located && tx.prior.Some? && !tx.prior.value.deleted && GuardHolds(tx)
    requires tx.removes <= ChunksUnder(base.items, tx.op.rid)
    ensures IsRun(cfg, run) && run[0] == base && Alone(Last(run), base, reaped)
    ensures reaped == tx.(removes := ChunksUnder(base.items, tx.op.rid), freed := reaped.freed)
    decreases ChunksUnder(base.items, tx.op.rid) - tx.removes
  {
    var todo := ChunksUnder(base.items, tx.op.rid) - tx.removes;
    if todo == {} {
      NoneLeft(ChunksUnder(base.items, tx.op.rid), tx.removes);
      return before, tx;
    }
    var chunk :| chunk in todo;
    var next := tx.(removes := tx.removes + {chunk}, freed := tx.freed + base.items[chunk].size);
    var longer := Extend(cfg, before, Reap(chunk));
    assert chunk in ChunksUnder(base.items, tx.op.rid) - tx.removes && chunk !in ChunksUnder(base.items, tx.op.rid) - next.removes;
    run, reaped := Reaps(cfg, longer, base, next);
  }

  lemma ReadyToCharge(cfg: Config, base: State, op: Op) returns (run: seq<State>, tx: Tx)
    requires AtRest(cfg, base) && Admitted(base.items, op)
    ensures IsRun(cfg, run) && run[0] == base && Alone(Last(run), base, tx)
    ensures tx.op == op && tx.phase == Located && tx.prior == Lookup(base.items, Target(op)) && GuardHolds(tx) && tx.delta == 0 && tx.pending.None?
    ensures if op.DeleteResource? then tx.removes == ChunksUnder(base.items, op.rid) else tx.removes == {}
  {
    run := Locates(cfg, base, op);
    tx := Tx(op, Located, Lookup(base.items, Target(op)), {}, 0, 0, None, None);
    if op.DeleteResource? {
      run, tx := Reaps(cfg, run, base, tx);
    }
  }

  lemma ChargeIsOpen(cfg: Config, base: State, s: State, tx: Tx)
    requires AtRest(cfg, base) && Alone(s, base, tx) && Fits(cfg, base, tx.op) && !tx.op.WriteMetadata?
    requires tx.phase == Located && tx.prior == Lookup(base.items, Target(tx.op)) && GuardHolds(tx) && Admitted(base.items, tx.op)
    requires tx.op.DeleteResource? ==> tx.removes == ChunksUnder(base.items, tx.op.rid)
    ensures Enabled(cfg, s, 0, Charge)
  {
  }

  /** The counter charged, the row staged. */
  lemma Stages(cfg: Config, base: State, op: Op) returns (run: seq<State>)
    requires AtRest(cfg, base) && Admitted(base.items, op) && Fits(cfg, base, op)
    ensures IsRun(cfg, run) && run[0] == base
    ensures Last(run).log == [] && Last(run).txs.Keys == {0} && Last(run).txs[0].op == op && Last(run).txs[0].phase == Staged
  {
    var tx;
    run, tx := ReadyToCharge(cfg, base, op);
    if !op.WriteMetadata? {
      ChargeIsOpen(cfg, base, Last(run), tx);
      run := Extend(cfg, run, Charge);
    }
    run := Extend(cfg, run, Stage);
  }

  /** An admitted operation that fits commits in some run of its own, and is what that run logs. */
  lemma AdmittedOperationCommits(cfg: Config, base: State, op: Op) returns (run: seq<State>)
    requires AtRest(cfg, base) && Admitted(base.items, op) && Fits(cfg, base, op)
    ensures IsRun(cfg, run) && run[0] == base && Last(run).txs == map[] && |Last(run).log| == 1 && Last(run).log[0].op == op
  {
    run := Stages(cfg, base, op);
    run := Extend(cfg, run, Commit);
  }
}
