/**
 Whole runs of the Postgres write transactions: the accounting holds in every reachable state, and
 the committed content history of each Resource is a strictly increasing chain of versions, so an
 ETag is never reused and a conditional write cannot be won twice.
 */
module PostgresHistory {
  import opened Wrappers
  import opened Sizes
  import opened Preconditions
  import opened PostgresTransactions
  import opened PostgresAccounting

  // ---------- every reachable state ----------

  /** No transaction open, over the rows of any Space. */
  ghost predicate AtRest(cfg: Config, s: State) {
    Stored(cfg, s) && s.owner == map[] && s.txs == map[] && s.log == []
  }

  /** A run: any interleaving of any number of transactions. */
  ghost predicate IsRun(cfg: Config, run: seq<State>) {
    |run| > 0 && AtRest(cfg, run[0]) && forall i :: 0 < i < |run| ==> Step(cfg, run[i - 1], run[i])
  }

  lemma {:induction false} RunKeepsInv(cfg: Config, run: seq<State>, i: nat)
    requires IsRun(cfg, run) && i < |run|
    ensures Inv(cfg, run[i])
  {
    if i == 0 {
    } else {
      RunKeepsInv(cfg, run, i - 1);
      assert Step(cfg, run[i - 1], run[i]);
      var t, a :| Enabled(cfg, run[i - 1], t, a) && run[i] == Do(cfg, run[i - 1], t, a);
      StepKeepsInv(cfg, run[i - 1], t, a);
    }
  }

  lemma {:induction false} ZeroesDoNotCount(m: map<Item, nat>, ks: set<Item>)
    requires ks <= m.Keys && forall k :: k in ks ==> m[k] == 0
    ensures Total(m) == Total(m - ks)
    decreases |ks|
  {
    if ks == {} {
      assert m - ks == m;
    } else {
      var k :| k in ks;
      TotalRemove(m, k);
      assert (m - {k}) - (ks - {k}) == m - ks;
      ZeroesDoNotCount(m - {k}, ks - {k});
    }
  }

  lemma SizesAreStoredBytes(items: Items)
    requires RowsOk(items)
    ensures Total(SizesOf(items)) == StoredBytes(items)
  {
    var tombstones := set i | i in items && items[i].deleted;
    ZeroesDoNotCount(SizesOf(items), tombstones);
    assert SizesOf(items) - tombstones == map i | i in items && !items[i].deleted :: |items[i].bytes|;
  }

  /** In every committed state of every interleaving, `usage_bytes` is exactly the live Resource bytes
      plus the chunk bytes, it is within the configured capacity, and every chunk has a live parent. */
  lemma AccountingHolds(cfg: Config, run: seq<State>, i: nat)
    requires IsRun(cfg, run) && i < |run|
    ensures run[i].usage == StoredBytes(run[i].items)
    ensures cfg.capacity.Some? ==> run[i].usage <= cfg.capacity.value
    ensures forall c :: c in run[i].items && c.ChunkItem? ==> Live(run[i].items, ResourceItem(c.rid))
  {
    RunKeepsInv(cfg, run, i);
    SizesAreStoredBytes(run[i].items);
  }

  /** Whenever a transaction of a run may charge the counter, the new value is the plain sum. */
  lemma ChargeIsExact(cfg: Config, run: seq<State>, i: nat, t: TxId)
    requires IsRun(cfg, run) && i < |run| && Enabled(cfg, run[i], t, Charge)
    ensures var after := Do(cfg, run[i], t, Charge).txs[t];
            after.pending.GetOr(run[i].usage) == run[i].usage + after.delta
  {
    RunKeepsInv(cfg, run, i);
    ClampNeverFires(cfg, run[i], t);
  }

  /** A create-if-absent never meets a unique violation against the other write paths: when its INSERT
      is due the row is still absent. */
  lemma PlainInsertNeverConflicts(cfg: Config, run: seq<State>, i: nat, t: TxId)
    requires IsRun(cfg, run) && i < |run| && t in run[i].txs && run[i].txs[t].phase == Charged
    requires Upserts(run[i].txs[t].op) && run[i].txs[t].prior.None?
    ensures Target(run[i].txs[t].op) !in run[i].items
  {
    RunKeepsInv(cfg, run, i);
    assert TxInv(cfg, run[i], t, run[i].txs[t]);
  }

  // ---------- the same-key create lock is what the accounting rests on ----------

  function Creator(bytes: string): Tx {
    Tx(WriteResource("r", bytes, UNCONDITIONAL), Located, None, {}, 0, 0, None, None)
  }

  /** Two creators of one absent Resource that both located "no row" without the create lock. */
  function UnlockedCreators(a: string, b: string): State {
    State(map[], 0, map[], map[1 := Creator(a), 2 := Creator(b)], [])
  }

  /** Such a creator charges its full size and upserts, whatever row has appeared meanwhile. */
  lemma UnlockedCreatorCommits(cfg: Config, s: State, t: TxId, bytes: string) returns (s1: State, s2: State, s3: State)
    requires cfg.capacity.None? && |bytes| > 0 && s.owner == map[] && s.usage >= 0
    requires t in s.txs && s.txs[t] == Creator(bytes) && forall u :: u in s.txs ==> s.txs[u].op.WriteResource?
    ensures Step(cfg, s, s1) && Step(cfg, s1, s2) && Step(cfg, s2, s3)
    ensures s3.owner == map[] && s3.usage == s.usage + |bytes| && s3.txs == s.txs - {t}
    ensures s3.items.Keys == s.items.Keys + {ResourceItem("r")}
    ensures s3.items[ResourceItem("r")].bytes == bytes && !s3.items[ResourceItem("r")].deleted
  {
    assert Enabled(cfg, s, t, Charge);
    s1 := Do(cfg, s, t, Charge);
    assert s1.owner == map[SpaceLock := t];
    assert Enabled(cfg, s1, t, Stage);
    s2 := Do(cfg, s1, t, Stage);
    assert s2.owner == map[SpaceLock := t, ItemLock(ResourceItem("r")) := t];
    assert Enabled(cfg, s2, t, Commit);
    s3 := Do(cfg, s2, t, Commit);
    assert s3.txs == s.txs - {t};
  }

  lemma IsPath(cfg: Config, s0: State, s1: State, s2: State, s3: State, s4: State, s5: State, s6: State)
    requires Step(cfg, s0, s1) && Step(cfg, s1, s2) && Step(cfg, s2, s3) && Step(cfg, s3, s4) && Step(cfg, s4, s5) && Step(cfg, s5, s6)
    ensures var path := [s0, s1, s2, s3, s4, s5, s6];
            forall i :: 0 < i < |path| ==> Step(cfg, path[i - 1], path[i])
  {
  }

  lemma WithoutCreateLockUsageDrifts(cfg: Config, a: string, b: string) returns (path: seq<State>)
    requires cfg.capacity.None? && |a| > 0 && |b| > 0
    ensures |path| == 7 && path[0] == UnlockedCreators(a, b)
    ensures forall i :: 0 < i < |path| ==> Step(cfg, path[i - 1], path[i])
    ensures path[6].usage == |a| + |b| && StoredBytes(path[6].items) == |b|
  {
    var s0 := UnlockedCreators(a, b);
    var s1, s2, s3 := UnlockedCreatorCommits(cfg, s0, 1, a);
    assert s3.txs == map[2 := Creator(b)];
    var s4, s5, s6 := UnlockedCreatorCommits(cfg, s3, 2, b);
    OneLiveRow(s6.items, b);
    IsPath(cfg, s0, s1, s2, s3, s4, s5, s6);
    path := [s0, s1, s2, s3, s4, s5, s6];
  }

  lemma OneLiveRow(items: Items, bytes: string)
    requires items.Keys == {ResourceItem("r")} && !items[ResourceItem("r")].deleted && items[ResourceItem("r")].bytes == bytes
    ensures StoredBytes(items) == |bytes|
  {
    TotalUpdate(map[], ResourceItem("r"), |bytes|);
    assert (map i | i in items && !items[i].deleted :: |items[i].bytes|) == map[ResourceItem("r") := |bytes|];
  }

  // ---------- the log of commits ----------

  predicate RemovesChunk(op: Op, item: Item) {
    item.ChunkItem? && ((op.DeleteResource? && op.rid == item.rid) || (op.DeleteChunk? && Target(op) == item))
  }

  /** The row of an item after the logged operations, one after the other, on the rows the run began with. */
  function ItemAfter(base: Items, log: seq<Entry>, item: Item): Option<Row> {
    if log == [] then Lookup(base, item)
    else
      var e := log[|log| - 1];
      if Target(e.op) == item then e.after
      else if RemovesChunk(e.op, item) then None
      else ItemAfter(base, log[..|log| - 1], item)
  }

  predicate IsLive(row: Option<Row>) {
    row.Some? && !row.value.deleted
  }

  function VersionIn(row: Option<Row>): nat {
    if row.Some? then row.value.version else 0
  }

  function MetaVersionIn(row: Option<Row>): Option<nat> {
    if row.Some? then row.value.metaVersion else None
  }

  /** A write of bytes to a row: the next version of what was there, with the bytes of the operation. */
  predicate Stores(was: Option<Row>, after: Option<Row>, bytes: string) {
    IsLive(after) && after.value.version == VersionIn(was) + 1 && after.value.bytes == bytes
  }

  /** An operation was admitted on what the commits before it left, and left what it should. */
  ghost predicate EntryOk(base: Items, before: seq<Entry>, e: Entry) {
    var was := ItemAfter(base, before, Target(e.op));
    && e.before == was
    && match e.op
       case WriteResource(_, bytes, guard) =>
         && WriteAllowed(IsLive(was), VersionIn(was), guard) && Stores(was, e.after, bytes)
         && e.after.value.metaVersion == MetaVersionIn(was)
       case WriteChunk(rid, _, bytes, guard) =>
         && IsLive(ItemAfter(base, before, ResourceItem(rid)))
         && WriteAllowed(IsLive(was), VersionIn(was), guard) && Stores(was, e.after, bytes)
       case WriteMetadata(_, guard) =>
         && IsLive(was) && MetaWriteAllowed(MetaVersionIn(was), guard)
         && IsLive(e.after) && e.after.value.version == VersionIn(was) && e.after.value.bytes == was.value.bytes
         && e.after.value.metaVersion == Some(MetaVersionIn(was).GetOr(0) + 1)
       case DeleteResource(_, guard) =>
         && IsLive(was) && WriteAllowed(true, VersionIn(was), guard)
         && e.after.Some? && e.after.value.deleted && e.after.value.version == VersionIn(was) + 1 && e.after.value.metaVersion.None?
       case DeleteChunk(_, _, guard) =>
         IsLive(was) && WriteAllowed(true, VersionIn(was), guard) && e.after.None?
  }

  ghost predicate Linked(base: Items, log: seq<Entry>) {
    forall i :: 0 <= i < |log| ==> EntryOk(base, log[..i], log[i])
  }

  ghost predicate LogOk(base: Items, items: Items, log: seq<Entry>) {
    Linked(base, log) && forall item :: Lookup(items, item) == ItemAfter(base, log, item)
  }

  ghost predicate LogInv(base: Items, s: State) {
    LogOk(base, s.items, s.log)
  }

  lemma StepKeepsLog(cfg: Config, base: Items, s: State, t: TxId, a: Action)
    requires Inv(cfg, s) && LogInv(base, s) && Enabled(cfg, s, t, a)
    ensures LogInv(base, Do(cfg, s, t, a))
    ensures s.log <= Do(cfg, s, t, a).log
  {
    var s' := Do(cfg, s, t, a);
    if a.Commit? {
      CommitKeepsLog(cfg, base, s, t, s.txs[t]);
    } else {
      assert s'.items == s.items && s'.log == s.log;
    }
  }

  /** A commit changes the row of its target, to the one logged, and those it removes. */
  lemma CommitRow(cfg: Config, s: State, t: TxId, tx: Tx, item: Item)
    requires t in s.txs && s.txs[t] == tx && tx.phase == Staged && TxInv(cfg, s, t, tx) && RowsOk(s.items)
    ensures Lookup(Applied(s.items, tx), item) ==
            if item == Target(tx.op) then tx.write else if RemovesChunk(tx.op, item) then None else Lookup(s.items, item)
  {
  }

  lemma LoggedEntryOk(cfg: Config, base: Items, s: State, t: TxId, tx: Tx)
    requires t in s.txs && s.txs[t] == tx && tx.phase == Staged && TxInv(cfg, s, t, tx) && RowsOk(s.items)
    requires forall item :: Lookup(s.items, item) == ItemAfter(base, s.log, item)
    ensures EntryOk(base, s.log, Logged(s.items, tx))
  {
    assert Lookup(s.items, Target(tx.op)) == ItemAfter(base, s.log, Target(tx.op));
    assert Lookup(s.items, ResourceItem(tx.op.rid)) == ItemAfter(base, s.log, ResourceItem(tx.op.rid));
  }

  lemma CommitKeepsLog(cfg: Config, base: Items, s: State, t: TxId, tx: Tx)
    requires t in s.txs && s.txs[t] == tx && tx.phase == Staged && TxInv(cfg, s, t, tx) && RowsOk(s.items)
    requires LogOk(base, s.items, s.log)
    ensures LogOk(base, Applied(s.items, tx), s.log + [Logged(s.items, tx)])
  {
    var e := Logged(s.items, tx);
    LoggedEntryOk(cfg, base, s, t, tx);
    forall item ensures Lookup(Applied(s.items, tx), item) == ItemAfter(base, s.log + [e], item) {
      CommitRow(cfg, s, t, tx, item);
      assert Lookup(s.items, item) == ItemAfter(base, s.log, item);
      assert (s.log + [e])[..|s.log|] == s.log;
    }
    LinkedExtends(base, s.log, e);
  }

  lemma LinkedExtends(base: Items, log: seq<Entry>, e: Entry)
    requires Linked(base, log) && EntryOk(base, log, e)
    ensures Linked(base, log + [e])
  {
    var longer := log + [e];
    forall i | 0 <= i < |longer| ensures EntryOk(base, longer[..i], longer[i]) {
      assert longer[..i] == log[..i];
      if i == |log| { assert log[..i] == log; }
    }
  }

  lemma {:induction false} RunKeepsLog(cfg: Config, run: seq<State>, i: nat, j: nat)
    requires IsRun(cfg, run) && i <= j < |run|
    ensures LogInv(run[0].items, run[i]) && LogInv(run[0].items, run[j])
    ensures run[i].log <= run[j].log
    decreases j
  {
    if j == 0 {
    } else {
      RunKeepsLog(cfg, run, if i < j then i else j - 1, j - 1);
      RunKeepsInv(cfg, run, j - 1);
      assert Step(cfg, run[j - 1], run[j]);
      var t, a :| Enabled(cfg, run[j - 1], t, a) && run[j] == Do(cfg, run[j - 1], t, a);
      StepKeepsLog(cfg, run[0].items, run[j - 1], t, a);
    }
  }

  /** The committed operations are serial: in every state of every interleaving the rows are those the log leaves, one
      operation after the other, and each was admitted on, and computed from, what those before it left. */
  lemma CommitsAreSerial(cfg: Config, run: seq<State>, n: nat)
    requires IsRun(cfg, run) && n < |run|
    ensures forall item :: Lookup(run[n].items, item) == ItemAfter(run[0].items, run[n].log, item)
    ensures forall i :: 0 <= i < |run[n].log| ==> EntryOk(run[0].items, run[n].log[..i], run[n].log[i])
  {
    RunKeepsLog(cfg, run, n, n);
  }

  lemma AfterEntry(base: Items, log: seq<Entry>, i: nat, item: Item)
    requires i < |log|
    ensures ItemAfter(base, log[..i + 1], item) ==
            if Target(log[i].op) == item then log[i].after
            else if RemovesChunk(log[i].op, item) then None
            else ItemAfter(base, log[..i], item)
  {
    assert log[..i + 1][..i] == log[..i];
  }

  // ---------- contents of Resources ----------

  predicate ContentOp(op: Op) {
    op.WriteResource? || op.DeleteResource?
  }

  /** What a reader sees of a Resource id: its last content version, whether it is live, its bytes. */
  datatype View = View(version: nat, live: bool, bytes: string)

  function ViewOf(items: Items, rid: string): View {
    RowView(Lookup(items, ResourceItem(rid)))
  }

  function RowView(row: Option<Row>): View {
    View(VersionIn(row), IsLive(row), if IsLive(row) then row.value.bytes else "")
  }

  predicate MovesContent(e: Entry, rid: string) {
    ContentOp(e.op) && e.op.rid == rid
  }

  predicate DeletesResource(e: Entry, rid: string) {
    e.op.DeleteResource? && e.op.rid == rid
  }

  /** What one more commit does to the row of a Resource. */
  lemma NextRow(base: Items, log: seq<Entry>, n: nat, rid: string)
    requires Linked(base, log) && n < |log|
    ensures var was, next := ItemAfter(base, log[..n], ResourceItem(rid)), ItemAfter(base, log[..n + 1], ResourceItem(rid));
            && (if MovesContent(log[n], rid) then VersionIn(next) == VersionIn(was) + 1 else RowView(next) == RowView(was))
            && (IsLive(was) && !DeletesResource(log[n], rid) ==>
                  && IsLive(next) && MetaVersionIn(was).GetOr(0) <= MetaVersionIn(next).GetOr(0)
                  && (MetaVersionIn(was).Some? ==> MetaVersionIn(next).Some?))
  {
    AfterEntry(base, log, n, ResourceItem(rid));
    assert EntryOk(base, log[..n], log[n]);
  }

  /** Along the log an id's version never drops, and while it stays the same so does what a reader sees. */
  lemma {:induction false} ViewsGrow(base: Items, log: seq<Entry>, m: nat, n: nat, rid: string)
    requires Linked(base, log) && m <= n <= |log|
    ensures var before, after := RowView(ItemAfter(base, log[..m], ResourceItem(rid))), RowView(ItemAfter(base, log[..n], ResourceItem(rid)));
            before.version <= after.version && (before.version == after.version ==> before == after)
    decreases n
  {
    if m < n {
      ViewsGrow(base, log, m, n - 1, rid);
      NextRow(base, log, n - 1, rid);
    }
  }

  lemma ContentGrows(base: Items, log: seq<Entry>, i: nat, j: nat)
    requires Linked(base, log) && i < j < |log| && log[i].op.rid == log[j].op.rid && ContentOp(log[i].op) && ContentOp(log[j].op)
    ensures VersionIn(log[i].after) <= VersionIn(log[j].before) < VersionIn(log[j].after)
  {
    AfterEntry(base, log, i, ResourceItem(log[i].op.rid));
    ViewsGrow(base, log, i + 1, j, log[i].op.rid);
    assert EntryOk(base, log[..j], log[j]);
  }

  /** The content version of an id strictly increases at each committed content write or delete, across
      tombstones and re-creation, whatever ran in between. */
  lemma VersionsStrictlyIncrease(cfg: Config, run: seq<State>, n: nat, i: nat, j: nat)
    requires IsRun(cfg, run) && n < |run| && i < j < |run[n].log|
    requires run[n].log[i].op.rid == run[n].log[j].op.rid && ContentOp(run[n].log[i].op) && ContentOp(run[n].log[j].op)
    ensures VersionIn(run[n].log[i].after) <= VersionIn(run[n].log[j].before) < VersionIn(run[n].log[j].after)
  {
    RunKeepsLog(cfg, run, n, n);
    ContentGrows(run[0].items, run[n].log, i, j);
  }

  /** Of all the writes and deletes of one Resource that carry the same If-Match ETag, in any
      interleaving, at most one ever commits. */
  lemma IfMatchCommitsAtMostOnce(cfg: Config, run: seq<State>, n: nat, i: nat, j: nat, etag: string)
    requires IsRun(cfg, run) && n < |run| && i < |run[n].log| && j < |run[n].log|
    requires run[n].log[i].op.rid == run[n].log[j].op.rid && ContentOp(run[n].log[i].op) && ContentOp(run[n].log[j].op)
    requires run[n].log[i].op.guard == Guard(Some(etag), false) && run[n].log[j].op.guard == Guard(Some(etag), false)
    ensures i == j
  {
    RunKeepsLog(cfg, run, n, n);
    var base, log := run[0].items, run[n].log;
    assert EntryOk(base, log[..i], log[i]) && EntryOk(base, log[..j], log[j]);
    FormatEtagInjective(VersionIn(log[i].before), VersionIn(log[j].before));
    if i < j {
      ContentGrows(base, log, i, j);
    } else if j < i {
      ContentGrows(base, log, j, i);
    }
  }

  ghost predicate DeletedBetween(log: seq<Entry>, i: nat, j: nat, rid: string)
    requires j <= |log|
  {
    exists k :: i <= k < j && DeletesResource(log[k], rid)
  }

  /** Until a delete of it commits a live Resource stays live, and its metadata is written no less often. */
  lemma {:induction false} StaysLive(base: Items, log: seq<Entry>, i: nat, n: nat, rid: string)
    requires Linked(base, log) && i <= n <= |log| && IsLive(ItemAfter(base, log[..i], ResourceItem(rid)))
    requires !DeletedBetween(log, i, n, rid)
    ensures var before, after := ItemAfter(base, log[..i], ResourceItem(rid)), ItemAfter(base, log[..n], ResourceItem(rid));
            && IsLive(after) && MetaVersionIn(before).GetOr(0) <= MetaVersionIn(after).GetOr(0)
            && (MetaVersionIn(before).Some? ==> MetaVersionIn(after).Some?)
    decreases n
  {
    if i < n {
      StaysLive(base, log, i, n - 1, rid);
      assert !DeletesResource(log[n - 1], rid);
      NextRow(base, log, n - 1, rid);
    }
  }

  /** Two committed create-if-absent writes of one id have a committed delete of it between them. */
  lemma CreateIfAbsentCommitsOnce(cfg: Config, run: seq<State>, n: nat, i: nat, j: nat)
    requires IsRun(cfg, run) && n < |run| && i < j < |run[n].log|
    requires run[n].log[i].op.rid == run[n].log[j].op.rid
    requires run[n].log[i].op.WriteResource? && run[n].log[i].op.guard.ifNoneMatch
    requires run[n].log[j].op.WriteResource? && run[n].log[j].op.guard.ifNoneMatch
    ensures exists k :: i < k < j && run[n].log[k].op.DeleteResource? && run[n].log[k].op.rid == run[n].log[i].op.rid
  {
    RunKeepsLog(cfg, run, n, n);
    var base, log, rid := run[0].items, run[n].log, run[n].log[i].op.rid;
    AfterEntry(base, log, i, ResourceItem(rid));
    assert EntryOk(base, log[..i], log[i]) && EntryOk(base, log[..j], log[j]);
    if !DeletedBetween(log, i + 1, j, rid) {
      StaysLive(base, log, i + 1, j, rid);
    }
  }

  /** No ABA: if an id shows the same version in two states of a run, it shows the same bytes, so equal
      ETags mean equal content. */
  lemma EqualEtagsMeanEqualBytes(cfg: Config, run: seq<State>, m: nat, n: nat, rid: string)
    requires IsRun(cfg, run) && m <= n < |run|
    requires Live(run[m].items, ResourceItem(rid)) && Live(run[n].items, ResourceItem(rid))
    requires FormatEtag(run[m].items[ResourceItem(rid)].version) == FormatEtag(run[n].items[ResourceItem(rid)].version)
    ensures run[m].items[ResourceItem(rid)].bytes == run[n].items[ResourceItem(rid)].bytes
  {
    var base, log, item := run[0].items, run[n].log, ResourceItem(rid);
    RunKeepsLog(cfg, run, m, n);
    FormatEtagInjective(run[m].items[item].version, run[n].items[item].version);
    assert Lookup(run[m].items, item) == ItemAfter(base, run[m].log, item);
    assert Lookup(run[n].items, item) == ItemAfter(base, log, item);
    assert log[..|run[m].log|] == run[m].log && log[..|log|] == log;
    ViewsGrow(base, log, |run[m].log|, |log|, rid);
  }

  /** As long as no content write or delete of an id is added to the log, its version, liveness and bytes stay. */
  lemma {:induction false} OthersKeepView(base: Items, log: seq<Entry>, m: nat, n: nat, rid: string)
    requires Linked(base, log) && m <= n <= |log| && forall k :: m <= k < n ==> !MovesContent(log[k], rid)
    ensures RowView(ItemAfter(base, log[..n], ResourceItem(rid))) == RowView(ItemAfter(base, log[..m], ResourceItem(rid)))
    decreases n
  {
    if m < n {
      OthersKeepView(base, log, m, n - 1, rid);
      NextRow(base, log, n - 1, rid);
    }
  }

  function Added(before: seq<Entry>, after: seq<Entry>): seq<Entry> {
    if |before| <= |after| then after[|before|..] else []
  }

  lemma QuietAdded(before: seq<Entry>, after: seq<Entry>, rid: string)
    requires before <= after && forall e :: e in Added(before, after) ==> !MovesContent(e, rid)
    ensures forall k :: |before| <= k < |after| ==> !MovesContent(after[k], rid)
  {
    forall k | |before| <= k < |after| ensures !MovesContent(after[k], rid) {
      assert after[k] == Added(before, after)[k - |before|];
    }
  }

  lemma QuietLogKeepsView(base: Items, s: State, s': State, rid: string)
    requires LogInv(base, s) && LogInv(base, s') && s.log <= s'.log
    requires forall k :: |s.log| <= k < |s'.log| ==> !MovesContent(s'.log[k], rid)
    ensures ViewOf(s'.items, rid) == ViewOf(s.items, rid)
  {
    assert Lookup(s.items, ResourceItem(rid)) == ItemAfter(base, s.log, ResourceItem(rid));
    assert Lookup(s'.items, ResourceItem(rid)) == ItemAfter(base, s'.log, ResourceItem(rid));
    assert s'.log[..|s.log|] == s.log && s'.log[..|s'.log|] == s'.log;
    OthersKeepView(base, s'.log, |s.log|, |s'.log|, rid);
  }

  /** A step that commits no content write or delete of an id leaves that id's version, liveness and bytes alone:
      this covers every metadata write, every chunk operation and every operation on another id. */
  lemma OnlyContentOperationsMoveVersions(cfg: Config, run: seq<State>, n: nat, rid: string)
    requires IsRun(cfg, run) && n + 1 < |run|
    requires forall e :: e in Added(run[n].log, run[n + 1].log) ==> !MovesContent(e, rid)
    ensures ViewOf(run[n + 1].items, rid) == ViewOf(run[n].items, rid)
  {
    RunKeepsLog(cfg, run, n, n + 1);
    QuietAdded(run[n].log, run[n + 1].log, rid);
    QuietLogKeepsView(run[0].items, run[n], run[n + 1], rid);
  }

  // ---------- metadata ----------

  /** Of two committed metadata writes of one Resource under the same ETag, or both under create-if-absent, a committed
      delete of the Resource lies between. */
  lemma MetaGuardCommitsOnce(cfg: Config, run: seq<State>, n: nat, i: nat, j: nat)
    requires IsRun(cfg, run) && n < |run| && i < j < |run[n].log|
    requires run[n].log[i].op.WriteMetadata? && run[n].log[j].op == run[n].log[i].op && run[n].log[i].op.guard != UNCONDITIONAL
    ensures exists k :: i < k < j && run[n].log[k].op.DeleteResource? && run[n].log[k].op.rid == run[n].log[i].op.rid
  {
    RunKeepsLog(cfg, run, n, n);
    var base, log, rid := run[0].items, run[n].log, run[n].log[i].op.rid;
    AfterEntry(base, log, i, ResourceItem(rid));
    assert EntryOk(base, log[..i], log[i]) && EntryOk(base, log[..j], log[j]);
    FormatEtagInjective(MetaVersionIn(log[i].before).GetOr(0), MetaVersionIn(log[j].before).GetOr(0));
    if !DeletedBetween(log, i + 1, j, rid) {
      StaysLive(base, log, i + 1, j, rid);
    }
  }

  // ---------- chunks ----------

  ghost predicate RemovedBetween(log: seq<Entry>, i: nat, j: nat, chunk: Item)
    requires j <= |log|
  {
    exists k :: i <= k < j && RemovesChunk(log[k].op, chunk)
  }

  /** What one more commit that does not remove it does to the row of a chunk. */
  lemma NextChunk(base: Items, log: seq<Entry>, n: nat, chunk: Item)
    requires Linked(base, log) && n < |log| && chunk.ChunkItem? && !RemovesChunk(log[n].op, chunk)
    requires IsLive(ItemAfter(base, log[..n], chunk))
    ensures var was, next := ItemAfter(base, log[..n], chunk), ItemAfter(base, log[..n + 1], chunk);
            next == was || (IsLive(next) && was.value.version < next.value.version)
  {
    AfterEntry(base, log, n, chunk);
    assert EntryOk(base, log[..n], log[n]);
  }

  /** Until it is removed a chunk stays, its version never drops, and while that stays the same so do its bytes. */
  lemma {:induction false} ChunkGrows(base: Items, log: seq<Entry>, i: nat, n: nat, chunk: Item)
    requires Linked(base, log) && i <= n <= |log| && chunk.ChunkItem? && IsLive(ItemAfter(base, log[..i], chunk))
    requires !RemovedBetween(log, i, n, chunk)
    ensures var before, after := ItemAfter(base, log[..i], chunk), ItemAfter(base, log[..n], chunk);
            && IsLive(after) && before.value.version <= after.value.version
            && (before.value.version == after.value.version ==> before.value.bytes == after.value.bytes)
    decreases n
  {
    if i < n {
      ChunkGrows(base, log, i, n - 1, chunk);
      assert !RemovesChunk(log[n - 1].op, chunk);
      NextChunk(base, log, n - 1, chunk);
    }
  }

  /** Each committed chunk write was admitted beside a live Resource, raised the version of the chunk, 0 if there was
      none, by one, and stored its own bytes. */
  lemma ChunkWriteCommits(cfg: Config, run: seq<State>, n: nat, i: nat)
    requires IsRun(cfg, run) && n < |run| && i < |run[n].log| && run[n].log[i].op.WriteChunk?
    ensures var log, op, chunk := run[n].log, run[n].log[i].op, Target(run[n].log[i].op);
            var was, after := ItemAfter(run[0].items, log[..i], chunk), ItemAfter(run[0].items, log[..i + 1], chunk);
            && IsLive(ItemAfter(run[0].items, log[..i], ResourceItem(op.rid))) && WriteAllowed(IsLive(was), VersionIn(was), op.guard)
            && IsLive(after) && after.value.version == VersionIn(was) + 1 && after.value.bytes == op.bytes
  {
    RunKeepsLog(cfg, run, n, n);
    AfterEntry(run[0].items, run[n].log, i, Target(run[n].log[i].op));
    assert EntryOk(run[0].items, run[n].log[..i], run[n].log[i]);
  }

  /** Of two committed writes of one chunk under the same ETag, or both under create-if-absent, a commit that removed
      the chunk lies between. */
  lemma ChunkGuardCommitsOnce(cfg: Config, run: seq<State>, n: nat, i: nat, j: nat)
    requires IsRun(cfg, run) && n < |run| && i < j < |run[n].log|
    requires run[n].log[i].op.WriteChunk? && run[n].log[j].op.WriteChunk? && Target(run[n].log[i].op) == Target(run[n].log[j].op)
    requires run[n].log[i].op.guard == run[n].log[j].op.guard && run[n].log[i].op.guard != UNCONDITIONAL
    ensures exists k :: i < k < j && RemovesChunk(run[n].log[k].op, Target(run[n].log[i].op))
  {
    RunKeepsLog(cfg, run, n, n);
    var base, log, chunk := run[0].items, run[n].log, Target(run[n].log[i].op);
    AfterEntry(base, log, i, chunk);
    assert EntryOk(base, log[..i], log[i]) && EntryOk(base, log[..j], log[j]);
    FormatEtagInjective(VersionIn(log[i].before), VersionIn(log[j].before));
    if !RemovedBetween(log, i + 1, j, chunk) {
      ChunkGrows(base, log, i + 1, j, chunk);
    }
  }
}
