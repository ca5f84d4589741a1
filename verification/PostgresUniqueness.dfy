/**
 The uniqueness invariants on the Postgres backend: claiming writes hold a per-Collection advisory lock to
 commit, while the others never take it, and every statement sees the latest commit. What a row claims is a
 parameter, given at the end for the equality indexes and for the blinded attributes.
 */
module PostgresUniqueness {
  import B = BlindedIndex
  import opened UniqueClaims
  import opened EqualityIndex
  import opened JsonValues
  import opened Wrappers

  type Id = string
  type TxId = nat

  /** A row of `resources`; a tombstone is not live and holds neither content nor metadata. */
  datatype Row = Row(live: bool, content: Option<Json>, custom: Option<Json>)

  const TOMBSTONE := Row(false, None, None)

  /** Content and metadata writes, each either claiming or free of claims, and deletes. */
  datatype Op =
    | WriteJson(id: Id, doc: Json)
    | WriteFree(id: Id, content: Option<Json>)
    | WriteMeta(id: Id, custom: Option<Json>)
    | WriteMetaFree(id: Id, custom: Option<Json>)
    | Delete(id: Id)

  /** Only a write that claims nothing goes without the lock. */
  predicate Fits<T(!new)>(claims: Claiming<T>, op: Op) {
    match op
    case WriteFree(_, content) => claims(content, None) == iset{}
    case WriteMetaFree(_, custom) => claims(None, custom) == iset{}
    case _ => true
  }

  /** Its own side of the claim, as read by its own statement, and how far the transaction has come. */
  datatype Tx = Tx(op: Op, own: Option<Json>, read: bool, scanned: bool, located: bool)

  datatype State = State(
    rows: map<Id, Row>,
    uniqueLock: Option<TxId>,
    rowLocks: map<Id, TxId>,
    txs: map<TxId, Tx>)

  datatype Action = Begin(op: Op) | TakeUniqueLock | Locate | ReadOwn | Scan | Commit | Abort

  predicate Locking(op: Op) {
    op.WriteJson? || op.WriteMeta?
  }

  function RowOf(s: State, id: Id): Row {
    if id in s.rows then s.rows[id] else TOMBSTONE
  }

  ghost function RowClaims<T(!new)>(claims: Claiming<T>, r: Row): iset<T> {
    claims(r.content, r.custom)
  }

  ghost function NewClaims<T(!new)>(claims: Claiming<T>, tx: Tx): iset<T> {
    match tx.op
    case WriteJson(_, doc) => claims(Some(doc), tx.own)
    case WriteMeta(_, custom) => claims(tx.own, custom)
    case _ => iset{}
  }

  /** The row a commit leaves, computed from the row as it stands at that moment. */
  function NewRow(r: Row, op: Op): Row {
    match op
    case WriteJson(_, doc) => Row(true, Some(doc), r.custom)
    case WriteFree(_, content) => Row(true, content, r.custom)
    case WriteMeta(_, custom) => if r.live then r.(custom := custom) else r
    case WriteMetaFree(_, custom) => if r.live then r.(custom := custom) else r
    case Delete(_) => TOMBSTONE
  }

  predicate RowFree(s: State, t: TxId, id: Id) {
    id !in s.rowLocks || s.rowLocks[id] == t
  }

  predicate HoldsUnique(s: State, t: TxId) {
    s.uniqueLock == Some(t)
  }

  /** No live row but the target's own shares a claim with the write. */
  ghost predicate Clear<T(!new)>(claims: Claiming<T>, rows: map<Id, Row>, tx: Tx) {
    forall id :: id in rows && id != tx.op.id ==> RowClaims(claims, rows[id]) !! NewClaims(claims, tx)
  }

  ghost predicate Enabled<T(!new)>(claims: Claiming<T>, s: State, t: TxId, a: Action) {
    if a.Begin? then t !in s.txs && Fits(claims, a.op)
    else
      t in s.txs &&
      var tx := s.txs[t];
      match a
      case TakeUniqueLock => Locking(tx.op) && !tx.read && !tx.located && s.uniqueLock.None?
      // a content write locates its row last, a metadata write before it reads; an absent row locks nothing
      case Locate => !tx.located && RowFree(s, t, tx.op.id) &&
        (tx.op.WriteJson? ==> tx.scanned) && (tx.op.WriteMeta? ==> HoldsUnique(s, t) && RowOf(s, tx.op.id).live)
      case ReadOwn => Locking(tx.op) && HoldsUnique(s, t) && !tx.read && (tx.op.WriteMeta? ==> tx.located)
      case Scan => tx.read && !tx.scanned && Clear(claims, s.rows, tx)
      case Commit => tx.located && (Locking(tx.op) ==> tx.scanned) && RowFree(s, t, tx.op.id)
      case Abort => true
  }

  function Ended(s: State, t: TxId): State {
    s.(txs := s.txs - {t}, uniqueLock := if HoldsUnique(s, t) then None else s.uniqueLock,
       rowLocks := map id | id in s.rowLocks && s.rowLocks[id] != t :: s.rowLocks[id])
  }

  ghost function Do<T(!new)>(claims: Claiming<T>, s: State, t: TxId, a: Action): State
    requires Enabled(claims, s, t, a)
  {
    match a
    case Begin(op) => s.(txs := s.txs[t := Tx(op, None, false, false, false)])
    case TakeUniqueLock => s.(uniqueLock := Some(t))
    case Locate =>
      s.(txs := s.txs[t := s.txs[t].(located := true)],
         rowLocks := if s.txs[t].op.id in s.rows then s.rowLocks[s.txs[t].op.id := t] else s.rowLocks)
    case ReadOwn =>
      var r := RowOf(s, s.txs[t].op.id);
      s.(txs := s.txs[t := s.txs[t].(read := true, own := if s.txs[t].op.WriteJson? then r.custom else r.content)])
    case Scan => s.(txs := s.txs[t := s.txs[t].(scanned := true)])
    case Commit =>
      var op := s.txs[t].op;
      Ended(s.(rows := s.rows[op.id := NewRow(RowOf(s, op.id), op)]), t)
    case Abort => Ended(s, t)
  }

  ghost predicate Step<T(!new)>(claims: Claiming<T>, s: State, s': State) {
    exists t, a :: Enabled(claims, s, t, a) && s' == Do(claims, s, t, a)
  }

  /** A commit leaves what it was called for, and of its row the side it does not write as it stands at that moment; a
      row that is not there is described by no metadata write. */
  lemma CommitCarriesOut<T(!new)>(claims: Claiming<T>, s: State, t: TxId)
    requires Enabled(claims, s, t, Commit)
    ensures var op, rows := s.txs[t].op, Do(claims, s, t, Commit).rows;
            var was, row := RowOf(s, op.id), rows[op.id];
            && (forall id :: id != op.id ==> (id in rows <==> id in s.rows) && (id in rows ==> rows[id] == s.rows[id]))
            && match op
               case WriteJson(_, doc) => row.live && row.content == Some(doc) && row.custom == was.custom
               case WriteFree(_, content) => row.live && row.content == content && row.custom == was.custom
               case WriteMeta(_, custom) => if was.live then row.live && row.content == was.content && row.custom == custom else row == was
               case WriteMetaFree(_, custom) => if was.live then row.live && row.content == was.content && row.custom == custom else row == was
               case Delete(_) => !row.live && row.content.None? && row.custom.None?
  {
  }

  // ---------- the invariant ----------

  ghost predicate Unique<T(!new)>(claims: Claiming<T>, rows: map<Id, Row>) {
    forall a, b :: a in rows && b in rows && a != b ==> RowClaims(claims, rows[a]) !! RowClaims(claims, rows[b])
  }

  predicate TombstonesBare(rows: map<Id, Row>) {
    forall id :: id in rows && !rows[id].live ==> rows[id] == TOMBSTONE
  }

  /** A run starts at rest from any rows without a shared claim, as the scan at declaration time leaves them. */
  ghost predicate IsRun<T(!new)>(claims: Claiming<T>, run: seq<State>) {
    && |run| > 0 && run[0].txs == map[] && run[0].uniqueLock.None? && run[0].rowLocks == map[]
    && Unique(claims, run[0].rows) && TombstonesBare(run[0].rows)
    && forall i :: 0 < i < |run| ==> Step(claims, run[i - 1], run[i])
  }

  /** A locking transaction's own read stays good: a metadata write holds its live row, so the content cannot move. */
  predicate OwnOk(s: State, t: TxId, tx: Tx) {
    && (tx.read ==> Locking(tx.op) && HoldsUnique(s, t))
    && (tx.scanned ==> tx.read)
    && (tx.op.WriteMeta? && tx.located ==>
          HoldsUnique(s, t) && RowOf(s, tx.op.id).live && tx.op.id in s.rowLocks && s.rowLocks[tx.op.id] == t)
    && (tx.op.WriteMeta? && tx.read ==> tx.located && tx.own == RowOf(s, tx.op.id).content)
  }

  /** A content write's read of the metadata still stands, or what replaced it claims nothing. */
  ghost predicate MetaReadOk<T(!new)>(claims: Claiming<T>, s: State, tx: Tx) {
    tx.op.WriteJson? && tx.read ==> RowOf(s, tx.op.id).custom == tx.own || claims(None, RowOf(s, tx.op.id).custom) == iset{}
  }

  ghost predicate TxOk<T(!new)>(claims: Claiming<T>, s: State, t: TxId, tx: Tx) {
    OwnOk(s, t, tx) && MetaReadOk(claims, s, tx) && Fits(claims, tx.op) && (tx.scanned ==> Clear(claims, s.rows, tx))
  }

  ghost predicate Inv<T(!new)>(claims: Claiming<T>, s: State) {
    && Unique(claims, s.rows)
    && (forall t :: t in s.txs ==> TxOk(claims, s, t, s.txs[t]))
    && TombstonesBare(s.rows)
  }

  /** What a commit leaves claims no more than what was scanned, or than the row already claimed. */
  lemma CommitClaims<T(!new)>(claims: Claiming<T>, s: State, t: TxId)
    requires Additive(claims) && Inv(claims, s) && Enabled(claims, s, t, Commit)
    ensures var tx := s.txs[t];
            RowClaims(claims, NewRow(RowOf(s, tx.op.id), tx.op)) <=
              if Locking(tx.op) then NewClaims(claims, tx) else RowClaims(claims, RowOf(s, tx.op.id))
  {
    var tx, r := s.txs[t], RowOf(s, s.txs[t].op.id);
    assert TxOk(claims, s, t, tx);
    assert NewRow(r, tx.op).live ==> RowClaims(claims, NewRow(r, tx.op)) == claims(NewRow(r, tx.op).content, None) + claims(None, NewRow(r, tx.op).custom);
  }

  lemma ReplacedStaysUnique<T(!new)>(claims: Claiming<T>, rows: map<Id, Row>, k: Id, row: Row)
    requires Unique(claims, rows) && forall id :: id in rows && id != k ==> RowClaims(claims, rows[id]) !! RowClaims(claims, row)
    ensures Unique(claims, rows[k := row])
  {
  }

  lemma OtherIsClear<T(!new)>(claims: Claiming<T>, s: State, t: TxId, id: Id)
    requires Additive(claims) && Inv(claims, s) && Enabled(claims, s, t, Commit) && id in s.rows && id != s.txs[t].op.id
    ensures RowClaims(claims, s.rows[id]) !! RowClaims(claims, NewRow(RowOf(s, s.txs[t].op.id), s.txs[t].op))
  {
    var op := s.txs[t].op;
    CommitClaims(claims, s, t);
    assert TxOk(claims, s, t, s.txs[t]);
    if op.id in s.rows {
      assert RowClaims(claims, s.rows[id]) !! RowClaims(claims, s.rows[op.id]);
    }
  }

  lemma CommitKeepsUnique<T(!new)>(claims: Claiming<T>, s: State, t: TxId)
    requires Additive(claims) && Inv(claims, s) && Enabled(claims, s, t, Commit)
    ensures Unique(claims, Do(claims, s, t, Commit).rows)
  {
    var op := s.txs[t].op;
    var row := NewRow(RowOf(s, op.id), op);
    forall id | id in s.rows && id != op.id ensures RowClaims(claims, s.rows[id]) !! RowClaims(claims, row) {
      OtherIsClear(claims, s, t, id);
    }
    ReplacedStaysUnique(claims, s.rows, op.id, row);
  }

  /** While one transaction holds the advisory lock, the others that commit can only take claims away. */
  lemma OthersOnlyShrink<T(!new)>(claims: Claiming<T>, s: State, t: TxId, u: TxId)
    requires Additive(claims) && Inv(claims, s) && Enabled(claims, s, t, Commit) && u in s.txs && u != t && HoldsUnique(s, u)
    ensures !Locking(s.txs[t].op)
    ensures TxOk(claims, Do(claims, s, t, Commit), u, s.txs[u])
  {
    var tx, ux, s' := s.txs[t], s.txs[u], Do(claims, s, t, Commit);
    assert TxOk(claims, s, t, tx) && TxOk(claims, s, u, ux);
    CommitClaims(claims, s, t);
    if ux.scanned {
      forall id | id in s'.rows && id != ux.op.id ensures RowClaims(claims, s'.rows[id]) !! NewClaims(claims, ux) {
        if id in s.rows { assert RowClaims(claims, s.rows[id]) !! NewClaims(claims, ux); }
      }
    }
  }

  lemma CommitKeepsInv<T(!new)>(claims: Claiming<T>, s: State, t: TxId)
    requires Additive(claims) && Inv(claims, s) && Enabled(claims, s, t, Commit)
    ensures Inv(claims, Do(claims, s, t, Commit))
  {
    var s' := Do(claims, s, t, Commit);
    CommitKeepsUnique(claims, s, t);
    forall u | u in s'.txs ensures TxOk(claims, s', u, s'.txs[u]) {
      assert TxOk(claims, s, u, s.txs[u]);
      if HoldsUnique(s, u) { OthersOnlyShrink(claims, s, t, u); }
    }
  }

  lemma LocalKeepsInv<T(!new)>(claims: Claiming<T>, s: State, t: TxId, a: Action)
    requires Additive(claims) && Inv(claims, s) && Enabled(claims, s, t, a) && !a.Commit?
    ensures Inv(claims, Do(claims, s, t, a))
  {
    var s' := Do(claims, s, t, a);
    assert s'.rows == s.rows;
    forall u | u in s'.txs ensures TxOk(claims, s', u, s'.txs[u]) {
      if u in s.txs { assert TxOk(claims, s, u, s.txs[u]); }
    }
  }

  lemma {:induction false} RunHasInv<T(!new)>(claims: Claiming<T>, run: seq<State>, i: nat)
    requires Additive(claims) && IsRun(claims, run) && i < |run|
    ensures Inv(claims, run[i])
  {
    if i > 0 {
      RunHasInv(claims, run, i - 1);
      assert Step(claims, run[i - 1], run[i]);
      var t, a :| Enabled(claims, run[i - 1], t, a) && run[i] == Do(claims, run[i - 1], t, a);
      if a.Commit? { CommitKeepsInv(claims, run[i - 1], t); } else { LocalKeepsInv(claims, run[i - 1], t, a); }
    }
  }

  /** Under any interleaving of content writes, metadata writes and deletes, with any rollbacks, no two
      committed live rows of the Collection share a claim. */
  lemma NoSharedClaim<T(!new)>(claims: Claiming<T>, run: seq<State>, i: nat, a: Id, b: Id, term: T)
    requires Additive(claims) && IsRun(claims, run) && i < |run|
    requires a in run[i].rows && run[i].rows[a].live && b in run[i].rows && run[i].rows[b].live
    requires term in RowClaims(claims, run[i].rows[a]) && term in RowClaims(claims, run[i].rows[b])
    ensures a == b
  {
    RunHasInv(claims, run, i);
  }

  // ---------- the two kinds of claims ----------

  /** No two committed live rows hold the same (name, value) under the unique declarations. */
  lemma NoSharedEqualityClaim(indexes: seq<Declaration>, run: seq<State>, i: nat, a: Id, b: Id, term: Term)
    requires IsRun(EqualityClaims(indexes), run) && i < |run|
    requires a in run[i].rows && run[i].rows[a].live && b in run[i].rows && run[i].rows[b].live
    requires term in Claims(indexes, run[i].rows[a].content, run[i].rows[a].custom)
    requires term in Claims(indexes, run[i].rows[b].content, run[i].rows[b].custom)
    ensures a == b
  {
    EqualityClaimsAreAdditive(indexes);
    NoSharedClaim(EqualityClaims(indexes), run, i, a, b, term);
  }

  /** No two committed live documents hold the same (hmac id, name, value) marked unique in both. */
  lemma NoSharedBlindedClaim(run: seq<State>, i: nat, a: Id, b: Id, triple: B.Triple)
    requires IsRun(BlindedClaims(), run) && i < |run|
    requires a in run[i].rows && run[i].rows[a].live && run[i].rows[a].content.Some?
    requires b in run[i].rows && run[i].rows[b].live && run[i].rows[b].content.Some?
    requires B.ClaimsTriple(run[i].rows[a].content.value, triple) && B.ClaimsTriple(run[i].rows[b].content.value, triple)
    ensures a == b
  {
    NoSharedClaim(BlindedClaims(), run, i, a, b, triple);
  }
}
