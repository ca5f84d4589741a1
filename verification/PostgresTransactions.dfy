/**
 The transactional write paths of the Postgres backend as an interleaved step machine over one
 Space, under READ COMMITTED: every statement sees the latest commit, row locks and advisory
 locks are held until the transaction ends, and a locking SELECT that finds no row locks nothing.
 Each transaction may also be rolled back at any point.
 */
module PostgresTransactions {
  import opened Wrappers
  import opened Sizes
  import opened Preconditions

  // ---------- committed state ----------

  datatype Item =
    | ResourceItem(rid: string)
    | ChunkItem(rid: string, index: nat)

  /** A row of `resources` or `chunks`; only Resource rows are ever tombstones or carry a metaVersion. */
  datatype Row = Row(version: nat, bytes: string, size: nat, deleted: bool, metaVersion: Option<nat>)

  type Items = map<Item, Row>
  type TxId = nat

  datatype LockKey = ItemLock(item: Item) | SpaceLock | CreateLock(hash: int)

  datatype Op =
    | WriteResource(rid: string, bytes: string, guard: Guard)
    | WriteChunk(rid: string, index: nat, bytes: string, guard: Guard)
    | WriteMetadata(rid: string, guard: Guard)
    | DeleteResource(rid: string, guard: Guard)
    | DeleteChunk(rid: string, index: nat, guard: Guard)

  /** Where a transaction stands between two of its statements. */
  datatype Phase = Started | ParentHeld | Missing | CreateHeld | Located | Charged | Staged

  datatype Tx = Tx(
    op: Op,
    phase: Phase,
    prior: Option<Row>,      // the row the locking SELECT returned
    removes: set<Item>,      // rows deleted by this transaction, not yet committed
    freed: nat,              // bytes RETURNING reported for the removed chunks
    delta: int,              // signed usage delta applied to the counter
    pending: Option<int>,    // the uncommitted value of usage_bytes
    write: Option<Row>)      // the uncommitted new version of the target row

  /** One committed operation: the row of its target as it was committed before, and as it left it. */
  datatype Entry = Entry(op: Op, before: Option<Row>, after: Option<Row>)

  datatype State = State(
    items: Items,
    usage: int,
    owner: map<LockKey, TxId>,
    txs: map<TxId, Tx>,
    log: seq<Entry>)

  /** The configured capacity, and the hash that turns a row identity into an advisory-lock key.
      Nothing is assumed of the hash: two rows may share a key. */
  datatype Config = Config(capacity: Option<nat>, hash: Item -> int)

  function Target(op: Op): Item {
    match op
    case WriteResource(rid, _, _) => ResourceItem(rid)
    case WriteMetadata(rid, _) => ResourceItem(rid)
    case DeleteResource(rid, _) => ResourceItem(rid)
    case WriteChunk(rid, index, _, _) => ChunkItem(rid, index)
    case DeleteChunk(rid, index, _) => ChunkItem(rid, index)
  }

  function Lookup(items: Items, item: Item): Option<Row> {
    if item in items then Some(items[item]) else None
  }

  predicate Live(items: Items, item: Item) {
    item in items && !items[item].deleted
  }

  predicate Upserts(op: Op) {
    op.WriteResource? || op.WriteChunk?
  }

  ghost function SizesOf(items: Items): map<Item, nat> {
    map i | i in items :: items[i].size
  }

  /** What `usage_bytes` is meant to be: live Resource bytes plus chunk bytes. */
  ghost function StoredBytes(items: Items): nat {
    Total(map i | i in items && !items[i].deleted :: |items[i].bytes|)
  }

  // ---------- the steps ----------

  datatype Action =
    | Begin(op: Op)
    | LockParent
    | SelectFound
    | SelectNone
    | LockCreate
    | SelectNoneAgain
    | Reap(chunk: Item)
    | Charge
    | Stage
    | Commit
    | Abort

  predicate Free(s: State, t: TxId, key: LockKey) {
    key !in s.owner || s.owner[key] == t
  }

  predicate Owns(s: State, t: TxId, key: LockKey) {
    key in s.owner && s.owner[key] == t
  }

  /** A chunk write holds its parent row FOR SHARE from its first statement on. */
  predicate Shares(tx: Tx, item: Item) {
    tx.op.WriteChunk? && tx.phase != Started && item == ResourceItem(tx.op.rid)
  }

  ghost predicate Lockable(s: State, t: TxId, item: Item) {
    Free(s, t, ItemLock(item)) && forall u | u in s.txs && u != t :: !Shares(s.txs[u], item)
  }

  predicate GuardHolds(tx: Tx) {
    if tx.op.WriteMetadata? then
      tx.prior.Some? && !tx.prior.value.deleted && MetaWriteAllowed(tx.prior.value.metaVersion, tx.op.guard)
    else
      var live := tx.prior.Some? && !tx.prior.value.deleted;
      var version := if tx.prior.Some? then tx.prior.value.version else 0;
      WriteAllowed(live, version, tx.op.guard)
  }

  /** The delta the operation hands to `#applyUsageDelta`. */
  function DeltaOf(tx: Tx): int
    requires Upserts(tx.op) || tx.prior.Some?
  {
    var live := tx.prior.Some? && !tx.prior.value.deleted;
    var priorSize := if live then tx.prior.value.size else 0;
    match tx.op
    case WriteResource(_, bytes, _) => |bytes| - priorSize
    case WriteChunk(_, _, bytes, _) => |bytes| - priorSize
    case WriteMetadata(_, _) => 0
    case DeleteResource(_, _) => 0 - (tx.prior.value.size + tx.freed)
    case DeleteChunk(_, _, _) => 0 - tx.prior.value.size
  }

  /** The row the INSERT ... ON CONFLICT DO UPDATE, or the UPDATE, leaves behind. */
  function NewRow(items: Items, tx: Tx): Option<Row>
    requires Upserts(tx.op) || tx.prior.Some?
  {
    match tx.op
    case WriteResource(rid, bytes, _) =>
      var current := Lookup(items, ResourceItem(rid));
      Some(Row(if current.Some? then current.value.version + 1 else tx.prior.GetOr(Row(0, "", 0, true, None)).version + 1,
               bytes, |bytes|, false, if current.Some? then current.value.metaVersion else None))
    case WriteChunk(rid, index, bytes, _) =>
      var current := Lookup(items, ChunkItem(rid, index));
      Some(Row(if current.Some? then current.value.version + 1 else tx.prior.GetOr(Row(0, "", 0, true, None)).version + 1,
               bytes, |bytes|, false, None))
    case WriteMetadata(_, _) =>
      Some(tx.prior.value.(metaVersion := Some(tx.prior.value.metaVersion.GetOr(0) + 1)))
    case DeleteResource(_, _) =>
      Some(Row(tx.prior.value.version + 1, "", 0, true, None))
    case DeleteChunk(_, _, _) => None
  }

  ghost predicate ChunksGone(items: Items, rid: string, removes: set<Item>) {
    forall i | i in items && i.ChunkItem? && i.rid == rid :: i in removes
  }

  ghost predicate MayCharge(cfg: Config, s: State, t: TxId, tx: Tx) {
    && tx.phase == Located && !tx.op.WriteMetadata? && GuardHolds(tx)
    && (Upserts(tx.op) || tx.prior.Some?)
    && (tx.op.DeleteResource? ==> !tx.prior.value.deleted && ChunksGone(s.items, tx.op.rid, tx.removes))
    && var delta := DeltaOf(tx);
       delta != 0 ==>
         && Free(s, t, SpaceLock)
         && (delta > 0 && cfg.capacity.Some? ==> s.usage + delta <= cfg.capacity.value)
  }

  ghost predicate MayStage(s: State, t: TxId, tx: Tx) {
    && (tx.phase == Charged || (tx.phase == Located && tx.op.WriteMetadata? && GuardHolds(tx)))
    && (Upserts(tx.op) || tx.prior.Some?)
    && Lockable(s, t, Target(tx.op))
    // the plain INSERT of a create-if-absent fails on a unique violation
    && !(Upserts(tx.op) && tx.op.guard.ifNoneMatch && tx.prior.None? && Target(tx.op) in s.items)
  }

  ghost predicate Enabled(cfg: Config, s: State, t: TxId, a: Action) {
    if a.Begin? then t !in s.txs
    else
      t in s.txs &&
      var tx := s.txs[t];
      var target := Target(tx.op);
      match a
      case LockParent =>
        tx.op.WriteChunk? && tx.phase == Started && Live(s.items, ResourceItem(tx.op.rid)) &&
        ItemLock(ResourceItem(tx.op.rid)) !in s.owner
      case SelectFound =>
        (tx.phase == CreateHeld || tx.phase == (if tx.op.WriteChunk? then ParentHeld else Started)) &&
        target in s.items && Lockable(s, t, target)
      case SelectNone =>
        // A waiting SELECT may also miss a row that was deleted and re-created meanwhile.
        Upserts(tx.op) && tx.phase == (if tx.op.WriteChunk? then ParentHeld else Started)
      case LockCreate => tx.phase == Missing && Free(s, t, CreateLock(cfg.hash(target)))
      case SelectNoneAgain => tx.phase == CreateHeld && target !in s.items
      case Reap(chunk) =>
        tx.phase == Located && tx.op.DeleteResource? && tx.prior.Some? && !tx.prior.value.deleted && GuardHolds(tx) &&
        chunk.ChunkItem? && chunk.rid == tx.op.rid && chunk in s.items && chunk !in tx.removes &&
        Lockable(s, t, chunk)
      case Charge => MayCharge(cfg, s, t, tx)
      case Stage => MayStage(s, t, tx)
      case Commit => tx.phase == Staged
      case Abort => true
  }

  /** The store after a transaction's own deletions and its row write. */
  function Applied(items: Items, tx: Tx): Items {
    var kept := items - tx.removes;
    if tx.write.Some? then kept[Target(tx.op) := tx.write.value] else kept
  }

  function Released(owner: map<LockKey, TxId>, t: TxId): map<LockKey, TxId> {
    map k | k in owner && owner[k] != t :: owner[k]
  }

  function Logged(items: Items, tx: Tx): Entry {
    Entry(tx.op, Lookup(items, Target(tx.op)), tx.write)
  }

  function Max(a: int, b: int): int { if a < b then b else a }

  /** `#applyUsageDelta`: takes the Space row lock unless there is nothing to apply. */
  function DoCharge(s: State, t: TxId, tx: Tx): State
    requires Upserts(tx.op) || tx.prior.Some?
  {
    var delta := DeltaOf(tx);
    if delta == 0 then s.(txs := s.txs[t := tx.(phase := Charged, delta := 0)])
    else
      s.(owner := s.owner[SpaceLock := t],
         txs := s.txs[t := tx.(phase := Charged, delta := delta, pending := Some(Max(s.usage + delta, 0)))])
  }

  function DoStage(s: State, t: TxId, tx: Tx): State
    requires Upserts(tx.op) || tx.prior.Some?
  {
    s.(owner := s.owner[ItemLock(Target(tx.op)) := t],
       txs := s.txs[t := tx.(phase := Staged, write := NewRow(s.items, tx),
                             removes := if tx.op.DeleteChunk? then {Target(tx.op)} else tx.removes)])
  }

  ghost function Do(cfg: Config, s: State, t: TxId, a: Action): State
    requires Enabled(cfg, s, t, a)
  {
    if a.Begin? then
      s.(txs := s.txs[t := Tx(a.op, Started, None, {}, 0, 0, None, None)])
    else
      var tx := s.txs[t];
      var target := Target(tx.op);
      match a
      case LockParent => s.(txs := s.txs[t := tx.(phase := ParentHeld)])
      case SelectFound =>
        s.(owner := s.owner[ItemLock(target) := t],
           txs := s.txs[t := tx.(phase := Located, prior := Some(s.items[target]))])
      case SelectNone => s.(txs := s.txs[t := tx.(phase := Missing)])
      case LockCreate =>
        s.(owner := s.owner[CreateLock(cfg.hash(target)) := t], txs := s.txs[t := tx.(phase := CreateHeld)])
      case SelectNoneAgain => s.(txs := s.txs[t := tx.(phase := Located, prior := None)])
      case Reap(chunk) =>
        s.(owner := s.owner[ItemLock(chunk) := t],
           txs := s.txs[t := tx.(removes := tx.removes + {chunk}, freed := tx.freed + s.items[chunk].size)])
      case Charge => DoCharge(s, t, tx)
      case Stage => DoStage(s, t, tx)
      case Commit =>
        State(Applied(s.items, tx), tx.pending.GetOr(s.usage), Released(s.owner, t), s.txs - {t},
              s.log + [Logged(s.items, tx)])
      case Abort => s.(owner := Released(s.owner, t), txs := s.txs - {t})
  }

  ghost predicate Step(cfg: Config, s: State, s': State) {
    exists t: TxId, a: Action :: Enabled(cfg, s, t, a) && s' == Do(cfg, s, t, a)
  }
}
