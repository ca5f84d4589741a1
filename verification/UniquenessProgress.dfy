/**
 Uniqueness is not kept by refusing everything: from any Collection at rest, a write that shares no claim with another
 Resource, a write free of claims and a delete each have a run in which they are carried out, on both backends.
 */
module UniquenessProgress {
  import opened JsonValues
  import P = PostgresUniqueness
  import opened UniqueClaims
  import opened UniquenessSteps
  import opened Wrappers

  // ---------- on the filesystem ----------

  function Last(run: seq<State>): State
    requires run != []
  {
    run[|run| - 1]
  }

  lemma Extend<T(!new)>(claims: Claiming<T>, run: seq<State>, a: Action) returns (run': seq<State>)
    requires IsRun(claims, run) && Enabled(claims, Last(run), 0, a)
    ensures IsRun(claims, run') && run'[0] == run[0] && Last(run') == Do(claims, Last(run), 0, a)
  {
    run' := run + [Do(claims, Last(run), 0, a)];
    forall i | 0 < i < |run'| ensures Next(claims, run'[i - 1], run'[i]) {
      if i < |run| { assert run'[i - 1] == run[i - 1] && run'[i] == run[i]; }
    }
  }

  /** The half of the Resource's claim that the operation does not write. */
  function OtherHalf(s: State, op: Op, file: Option<Rep>): Option<Json> {
    if op.JsonWrite? then CustomOf(s, op.id) else if file.Some? && file.value in s.reps then s.reps[file.value] else None
  }

  /** `file` is the one file of the Resource, if it is there. */
  predicate FileOf(s: State, id: Id, file: Option<Rep>) {
    if file.Some? then file.value in s.reps && file.value.id == id else RepsOf(s, id) == {}
  }

  /** No other Resource has a claim that the write would make. */
  ghost predicate SharesNoClaim<T(!new)>(claims: Claiming<T>, s: State, op: Op, file: Option<Rep>) {
    ClaimOp(op) ==>
      var made := if op.JsonWrite? then claims(Some(op.doc), OtherHalf(s, op, file)) else claims(OtherHalf(s, op, file), op.custom);
      forall r :: r in s.reps && r.id != op.id ==> claims(s.reps[r], CustomOf(s, r.id)) !! made
  }

  /** One section at work, with whatever locks are held its own. */
  predicate Alone(s: State, base: State, p: Proc) {
    && s.reps == base.reps && s.custom == base.custom && s.procs == map[0 := p]
    && (s.collectionLock.None? || s.collectionLock == Some(0)) && s.resourceLock == map[]
  }

  predicate Listed(base: State, p: Proc) {
    && p.listed == (set r | r in base.reps && r.id != p.op.id) && p.contents.Keys <= p.listed && p.customs.Keys <= p.listed
    && (forall r :: r in p.contents ==> p.contents[r] == base.reps[r]) && (forall r :: r in p.customs ==> p.customs[r] == CustomOf(base, r.id))
  }

  ghost predicate ScanningRun<T(!new)>(claims: Claiming<T>, run: seq<State>, base: State, p: Proc) {
    IsRun(claims, run) && run[0] == base && Alone(Last(run), base, p) && p.phase == Scanning && Listed(base, p)
  }

  lemma ContentIsRead<T(!new)>(claims: Claiming<T>, s: State, base: State, p: Proc, r: Rep)
    requires Alone(s, base, p) && p.phase == Scanning && Listed(base, p) && r in p.listed && r !in p.contents
    ensures var q := p.(contents := p.contents[r := base.reps[r]]);
            Enabled(claims, s, 0, ReadContent(r)) && Alone(Do(claims, s, 0, ReadContent(r)), base, q) && Listed(base, q)
  {
  }

  lemma CustomIsRead<T(!new)>(claims: Claiming<T>, s: State, base: State, p: Proc, r: Rep)
    requires Alone(s, base, p) && p.phase == Scanning && Listed(base, p) && r in p.listed && r !in p.customs
    ensures var q := p.(customs := p.customs[r := CustomOf(base, r.id)]);
            Enabled(claims, s, 0, ReadCustom(r)) && Alone(Do(claims, s, 0, ReadCustom(r)), base, q) && Listed(base, q)
  {
  }

  lemma OneLess<T>(all: set<T>, done: set<T>, x: T)
    requires x in all && x !in done
    ensures all - (done + {x}) < all - done
  {
    assert x in all - done;
  }

  lemma ReadsContent<T(!new)>(claims: Claiming<T>, before: seq<State>, base: State, p: Proc, r: Rep) returns (run: seq<State>, q: Proc)
    requires ScanningRun(claims, before, base, p) && r in p.listed && r !in p.contents
    ensures q == p.(contents := p.contents[r := base.reps[r]]) && ScanningRun(claims, run, base, q)
    ensures q.listed - q.contents.Keys < p.listed - p.contents.Keys
  {
    q := p.(contents := p.contents[r := base.reps[r]]);
    ContentIsRead(claims, Last(before), base, p, r);
    run := Extend(claims, before, ReadContent(r));
    assert q.contents.Keys == p.contents.Keys + {r};
    OneLess(p.listed, p.contents.Keys, r);
  }

  lemma ReadsCustom<T(!new)>(claims: Claiming<T>, before: seq<State>, base: State, p: Proc, r: Rep) returns (run: seq<State>, q: Proc)
    requires ScanningRun(claims, before, base, p) && r in p.listed && r !in p.customs
    ensures q == p.(customs := p.customs[r := CustomOf(base, r.id)]) && ScanningRun(claims, run, base, q)
    ensures q.listed - q.customs.Keys < p.listed - p.customs.Keys
  {
    q := p.(customs := p.customs[r := CustomOf(base, r.id)]);
    CustomIsRead(claims, Last(before), base, p, r);
    run := Extend(claims, before, ReadCustom(r));
    assert q.customs.Keys == p.customs.Keys + {r};
    OneLess(p.listed, p.customs.Keys, r);
  }

  lemma AllRead(p: Proc)
    requires p.contents.Keys <= p.listed && p.customs.Keys <= p.listed
    requires forall r :: r in p.listed ==> r in p.contents && r in p.customs
    ensures p.contents.Keys == p.listed && p.customs.Keys == p.listed
  {
  }

  /** The scan reads every other Resource's files. */
  lemma Scans<T(!new)>(claims: Claiming<T>, before: seq<State>, base: State, p: Proc) returns (run: seq<State>, q: Proc)
    requires ScanningRun(claims, before, base, p)
    ensures ScanningRun(claims, run, base, q)
    ensures q == p.(contents := q.contents, customs := q.customs) && q.contents.Keys == q.listed && q.customs.Keys == q.listed
    decreases p.listed - p.contents.Keys, p.listed - p.customs.Keys
  {
    if r :| r in p.listed && r !in p.contents {
      var longer, read := ReadsContent(claims, before, base, p, r);
      run, q := Scans(claims, longer, base, read);
    } else if r :| r in p.listed && r !in p.customs {
      var longer, read := ReadsCustom(claims, before, base, p, r);
      run, q := Scans(claims, longer, base, read);
    } else {
      AllRead(p);
      run, q := before, p;
    }
  }

  lemma ReadsOwn<T(!new)>(claims: Claiming<T>, before: seq<State>, base: State, p: Proc, file: Option<Rep>) returns (run: seq<State>)
    requires IsRun(claims, before) && before[0] == base && Alone(Last(before), base, p) && p.phase == Scanning && ClaimOp(p.op)
    requires p.own.NotRead? && FileOf(base, p.op.id, file)
    ensures IsRun(claims, run) && run[0] == base && Alone(Last(run), base, p.(own := Seen(OtherHalf(base, p.op, file))))
  {
    if p.op.JsonWrite? {
      run := Extend(claims, before, ReadOwn);
    } else {
      if file.Some? { assert file.value in RepsOf(base, p.op.id); }
      run := Extend(claims, before, PickOwn(file));
      if file.Some? {
        run := Extend(claims, run, ReadOwn);
      }
    }
  }

  lemma Lists<T(!new)>(claims: Claiming<T>, base: State, op: Op) returns (run: seq<State>, p: Proc)
    requires AtRest(base) && SharesNothing(claims, base) && ClaimOp(op)
    ensures ScanningRun(claims, run, base, p) && p.op == op && p.own.NotRead? && p.stale == {}
  {
    assert IsRun(claims, [base]);
    run := Extend(claims, [base], Begin(op));
    run := Extend(claims, run, TakeCollection);
    run := Extend(claims, run, List);
    p := Last(run).procs[0];
  }

  /** A checked write passes its check. */
  lemma Checks<T(!new)>(claims: Claiming<T>, base: State, op: Op, file: Option<Rep>) returns (run: seq<State>, p: Proc)
    requires AtRest(base) && SharesNothing(claims, base) && ClaimOp(op) && FileOf(base, op.id, file) && SharesNoClaim(claims, base, op, file)
    ensures IsRun(claims, run) && run[0] == base && Alone(Last(run), base, p) && p.op == op && p.phase == Checked && p.stale == {}
  {
    run, p := Lists(claims, base, op);
    run, p := Scans(claims, run, base, p);
    run := ReadsOwn(claims, run, base, p, file);
    p := p.(own := Seen(OtherHalf(base, op, file)));
    CheckIsOpen(claims, base, p, file);
    run := Extend(claims, run, Check);
    p := p.(phase := Checked);
  }

  lemma CheckIsOpen<T(!new)>(claims: Claiming<T>, base: State, p: Proc, file: Option<Rep>)
    requires ClaimOp(p.op) && Listed(base, p) && p.contents.Keys == p.listed && p.customs.Keys == p.listed
    requires p.own == Seen(OtherHalf(base, p.op, file)) && SharesNoClaim(claims, base, p.op, file)
    ensures ScanDone(p) && NoConflict(claims, p)
  {
  }

  /** The stale files go, one by one. */
  lemma Prunes<T(!new)>(claims: Claiming<T>, before: seq<State>, base: State) returns (run: seq<State>)
    requires IsRun(claims, before) && before[0] == base && 0 in Last(before).procs && Last(before).procs[0].phase == Pruning
    ensures IsRun(claims, run) && run[0] == base && 0 in Last(run).procs
    ensures Last(run).procs[0] == Last(before).procs[0].(stale := {})
    decreases Last(before).procs[0].stale
  {
    var p := Last(before).procs[0];
    if p.stale == {} {
      return before;
    }
    var rep :| rep in p.stale;
    var longer := Extend(claims, before, Prune(rep));
    assert Last(longer).procs[0].stale == p.stale - {rep};
    run := Prunes(claims, longer, base);
  }

  /** So each of them has a run in which its section comes to its end; what it then leaves is known of every run. */
  lemma SectionFinishes<T(!new)>(claims: Claiming<T>, base: State, op: Op, file: Option<Rep>) returns (run: seq<State>)
    requires AtRest(base) && SharesNothing(claims, base) && Fits(claims, op)
    requires FileOf(base, op.id, file) && SharesNoClaim(claims, base, op, file)
    ensures IsRun(claims, run) && run[0] == base && Enabled(claims, Last(run), 0, Finish) && Last(run).procs[0].op == op
  {
    var p;
    if ClaimOp(op) {
      run, p := Checks(claims, base, op, file);
    } else {
      assert IsRun(claims, [base]);
      run := Extend(claims, [base], Begin(op));
    }
    run := Extend(claims, run, TakeResource);
    run := Extend(claims, run, Write);
    run := Prunes(claims, run, base);
  }

  // ---------- on Postgres ----------

  lemma ExtendRows<T(!new)>(claims: Claiming<T>, run: seq<P.State>, a: P.Action) returns (run': seq<P.State>)
    requires P.IsRun(claims, run) && P.Enabled(claims, run[|run| - 1], 0, a)
    ensures P.IsRun(claims, run') && run'[0] == run[0] && run'[|run'| - 1] == P.Do(claims, run[|run| - 1], 0, a)
  {
    run' := run + [P.Do(claims, run[|run| - 1], 0, a)];
    forall i | 0 < i < |run'| ensures P.Step(claims, run'[i - 1], run'[i]) {
      if i < |run| { assert run'[i - 1] == run[i - 1] && run'[i] == run[i]; }
    }
  }

  ghost predicate RowsAtRest<T(!new)>(claims: Claiming<T>, s: P.State) {
    s.txs == map[] && s.uniqueLock.None? && s.rowLocks == map[] && P.Unique(claims, s.rows) && P.TombstonesBare(s.rows)
  }

  /** The write is admitted: a locking metadata write finds its row live, and no other row shares a claim with it. */
  ghost predicate RowWriteAdmitted<T(!new)>(claims: Claiming<T>, s: P.State, op: P.Op) {
    var row := P.RowOf(s, op.id);
    match op
    case WriteJson(id, doc) => forall other :: other in s.rows && other != id ==> P.RowClaims(claims, s.rows[other]) !! claims(Some(doc), row.custom)
    case WriteMeta(id, custom) =>
      row.live && forall other :: other in s.rows && other != id ==> P.RowClaims(claims, s.rows[other]) !! claims(row.content, custom)
    case _ => true
  }

  /** And then it commits in some run of its own. */
  lemma RowWriteCommits<T(!new)>(claims: Claiming<T>, base: P.State, op: P.Op) returns (run: seq<P.State>)
    requires RowsAtRest(claims, base) && P.Fits(claims, op) && RowWriteAdmitted(claims, base, op)
    ensures P.IsRun(claims, run) && run[0] == base
    ensures var s := run[|run| - 1]; P.Enabled(claims, s, 0, P.Commit) && s.txs[0].op == op && s.rows == base.rows
  {
    assert P.IsRun(claims, [base]);
    run := ExtendRows(claims, [base], P.Begin(op));
    if P.Locking(op) {
      run := ExtendRows(claims, run, P.TakeUniqueLock);
      if op.WriteMeta? { run := ExtendRows(claims, run, P.Locate); }
      run := ExtendRows(claims, run, P.ReadOwn);
      run := ExtendRows(claims, run, P.Scan);
      if op.WriteJson? { run := ExtendRows(claims, run, P.Locate); }
    } else {
      run := ExtendRows(claims, run, P.Locate);
    }
  }
}
