/**
 What every step of every interleaving of the Postgres write transactions keeps: exact byte
 accounting, the capacity, and no chunk without a live parent.
 */
module PostgresAccounting {
  import opened Wrappers
  import opened Sizes
  import opened Preconditions
  import opened PostgresTransactions

  // ---------- the invariant ----------

  /** The prior row a transaction located is still the committed one, and cannot change under it:
      it holds the row lock, or, when there is no row, the lock every creator must take. */
  ghost predicate PriorPinned(cfg: Config, s: State, t: TxId, tx: Tx) {
    var target := Target(tx.op);
    && tx.prior == Lookup(s.items, target)
    && (tx.prior.Some? ==> Owns(s, t, ItemLock(target)))
    && (tx.prior.None? ==> Upserts(tx.op) && Owns(s, t, CreateLock(cfg.hash(target))))
  }

  /** The chunk rows deleted on behalf of a Resource delete are still there, locked, and add up. */
  ghost predicate ReapedPinned(s: State, t: TxId, tx: Tx) {
    && (forall r :: r in tx.removes ==>
          r in s.items && r.ChunkItem? && r.rid == tx.op.rid && Owns(s, t, ItemLock(r)))
    && tx.freed == Total(Restrict(SizesOf(s.items), tx.removes))
  }

  ghost predicate Untouched(tx: Tx) {
    tx.removes == {} && tx.freed == 0 && tx.delta == 0 && tx.pending == None && tx.write == None
  }

  ghost predicate Accounted(cfg: Config, s: State, t: TxId, tx: Tx) {
    if tx.delta == 0 then tx.pending == None
    else
      && Owns(s, t, SpaceLock) && tx.pending == Some(s.usage + tx.delta)
      && (tx.delta > 0 && cfg.capacity.Some? ==> s.usage + tx.delta <= cfg.capacity.value)
  }

  ghost predicate ReadyToWrite(s: State, tx: Tx) {
    && (Upserts(tx.op) || tx.prior.Some?)
    && GuardHolds(tx)
    && (tx.op.DeleteResource? ==> !tx.prior.value.deleted && ChunksGone(s.items, tx.op.rid, tx.removes))
    && tx.delta == DeltaOf(tx)
  }

  ghost predicate TxInv(cfg: Config, s: State, t: TxId, tx: Tx) {
    var target := Target(tx.op);
    && (tx.op.WriteChunk? && tx.phase != Started ==>
          Live(s.items, ResourceItem(tx.op.rid)) && ItemLock(ResourceItem(tx.op.rid)) !in s.owner)
    && (!tx.op.DeleteResource? && tx.phase != Staged ==> tx.removes == {})
    && match tx.phase
       case Started => Untouched(tx)
       case ParentHeld => Untouched(tx)
       case Missing => Untouched(tx) && Upserts(tx.op)
       case CreateHeld => Untouched(tx) && Upserts(tx.op) && Owns(s, t, CreateLock(cfg.hash(target)))
       case Located =>
         && PriorPinned(cfg, s, t, tx) && tx.delta == 0 && tx.pending == None && tx.write == None
         && (if tx.op.DeleteResource? then ReapedPinned(s, t, tx) else Untouched(tx))
       case Charged =>
         && PriorPinned(cfg, s, t, tx) && !tx.op.WriteMetadata? && ReadyToWrite(s, tx) && Accounted(cfg, s, t, tx)
         && tx.write == None
         && (tx.op.DeleteResource? ==> ReapedPinned(s, t, tx))
       case Staged =>
         && PriorPinned(cfg, s, t, tx) && ReadyToWrite(s, tx) && Accounted(cfg, s, t, tx)
         && Owns(s, t, ItemLock(target))
         && tx.write == NewRow(s.items, tx)
         && (tx.op.DeleteResource? ==> ReapedPinned(s, t, tx))
         && (tx.op.DeleteChunk? ==> tx.removes == {target})
         && (!tx.op.DeleteResource? && !tx.op.DeleteChunk? ==> tx.removes == {})
  }

  ghost predicate RowsOk(items: Items) {
    && (forall i :: i in items ==> items[i].size == |items[i].bytes|)
    && (forall i :: i in items && items[i].deleted ==> i.ResourceItem? && items[i].size == 0)
    && (forall i :: i in items ==> items[i].version > 0)
  }

  ghost predicate NoOrphans(items: Items) {
    forall i :: i in items && i.ChunkItem? ==> Live(items, ResourceItem(i.rid))
  }

  ghost predicate WithinCapacity(cfg: Config, s: State) {
    cfg.capacity.Some? ==> s.usage <= cfg.capacity.value
  }

  /** What is stored is counted, within the capacity, and without orphans. */
  ghost predicate Stored(cfg: Config, s: State) {
    RowsOk(s.items) && NoOrphans(s.items) && s.usage == Total(SizesOf(s.items)) && WithinCapacity(cfg, s)
  }

  ghost predicate Inv(cfg: Config, s: State) {
    && Stored(cfg, s)
    && (forall k :: k in s.owner ==> s.owner[k] in s.txs)
    && (forall t :: t in s.txs ==> TxInv(cfg, s, t, s.txs[t]))
  }

  // ---------- arithmetic of the store ----------

  lemma AppliedSizes(items: Items, tx: Tx)
    ensures SizesOf(Applied(items, tx)) ==
            if tx.write.Some? then (SizesOf(items) - tx.removes)[Target(tx.op) := tx.write.value.size]
            else SizesOf(items) - tx.removes
  {
  }

  /** What a commit does to the stored total is exactly the delta that was charged. */
  lemma CommitDelta(cfg: Config, s: State, t: TxId)
    requires Inv(cfg, s) && t in s.txs && s.txs[t].phase == Staged
    ensures Total(SizesOf(Applied(s.items, s.txs[t]))) == Total(SizesOf(s.items)) + s.txs[t].delta
  {
    var tx := s.txs[t];
    var m, target := SizesOf(s.items), Target(tx.op);
    AppliedSizes(s.items, tx);
    TotalSplit(m, tx.removes);
    match tx.op {
      case DeleteChunk(_, _, _) =>
        TotalRemove(m, target);
      case DeleteResource(_, _) =>
        TotalUpdate(m - tx.removes, target, 0);
      case _ =>
        assert m - tx.removes == m;
        TotalUpdate(m, target, tx.write.value.size);
    }
  }

  /** A charged counter never goes below zero, so the GREATEST(..., 0) clamp is never taken. */
  lemma ClampNeverFires(cfg: Config, s: State, t: TxId)
    requires Inv(cfg, s) && t in s.txs && MayCharge(cfg, s, t, s.txs[t])
    ensures s.usage + DeltaOf(s.txs[t]) >= 0
  {
    var tx := s.txs[t];
    var m, target := SizesOf(s.items), Target(tx.op);
    if tx.prior.Some? {
      TotalRemove(m, target);
      if tx.op.DeleteResource? {
        TotalSplit(m - {target}, tx.removes);
        assert Restrict(m - {target}, tx.removes) == Restrict(m, tx.removes);
      }
    }
  }

  // ---------- every step keeps the invariant ----------

  /** A step that changes neither the store nor the counter, and leaves every lock of `u` with `u`,
      leaves `u`'s part of the invariant alone. */
  lemma FrameTx(cfg: Config, s: State, s': State, u: TxId)
    requires u in s.txs && u in s'.txs && s'.txs[u] == s.txs[u]
    requires TxInv(cfg, s, u, s.txs[u])
    requires s'.items == s.items && s'.usage == s.usage
    requires forall k :: Owns(s, u, k) ==> Owns(s', u, k)
    requires forall i :: Shares(s.txs[u], i) && ItemLock(i) !in s.owner ==> ItemLock(i) !in s'.owner
    ensures TxInv(cfg, s', u, s'.txs[u])
  {
    var tx := s.txs[u];
    if tx.op.WriteChunk? && tx.phase != Started {
      assert Shares(tx, ResourceItem(tx.op.rid));
    }
  }

  lemma LockingStepKeepsOwn(cfg: Config, s: State, t: TxId, a: Action)
    requires Inv(cfg, s) && Enabled(cfg, s, t, a)
    requires a.LockParent? || a.SelectFound? || a.SelectNone? || a.LockCreate? || a.SelectNoneAgain?
    ensures var s' := Do(cfg, s, t, a); t in s'.txs && TxInv(cfg, s', t, s'.txs[t])
  {
    if a.SelectFound? {
      assert Restrict(SizesOf(s.items), {}) == map[];
    }
  }

  lemma ChargeKeepsOwn(cfg: Config, s: State, t: TxId, tx: Tx)
    requires t in s.txs && s.txs[t] == tx && TxInv(cfg, s, t, tx) && MayCharge(cfg, s, t, tx)
    requires s.usage + DeltaOf(tx) >= 0
    ensures TxInv(cfg, DoCharge(s, t, tx), t, DoCharge(s, t, tx).txs[t])
  {
    var s' := DoCharge(s, t, tx);
    var tx' := s'.txs[t];
    assert tx' == tx.(phase := Charged, delta := DeltaOf(tx), pending := tx'.pending);
    assert forall k :: Owns(s, t, k) ==> Owns(s', t, k);
    assert ReadyToWrite(s', tx');
    assert PriorPinned(cfg, s', t, tx');
    if tx.op.DeleteResource? {
      assert ReapedPinned(s', t, tx');
    }
  }

  lemma StageKeepsOwn(cfg: Config, s: State, t: TxId, tx: Tx)
    requires t in s.txs && s.txs[t] == tx && TxInv(cfg, s, t, tx) && MayStage(s, t, tx)
    ensures TxInv(cfg, DoStage(s, t, tx), t, DoStage(s, t, tx).txs[t])
  {
    var s' := DoStage(s, t, tx);
    var tx' := s'.txs[t];
    assert forall k :: Owns(s, t, k) ==> Owns(s', t, k);
    assert ReadyToWrite(s', tx');
    assert PriorPinned(cfg, s', t, tx');
    if tx.op.DeleteResource? {
      assert ReapedPinned(s', t, tx');
    }
  }

  /** What a statement other than COMMIT changes outside its own transaction: at most one lock,
      which nobody else held and no shared row lock forbade. */
  lemma LocalStepShape(cfg: Config, s: State, t: TxId, a: Action)
    requires Enabled(cfg, s, t, a) && !a.Commit? && !a.Abort? && !a.Begin?
    ensures var s' := Do(cfg, s, t, a);
            && s'.items == s.items && s'.usage == s.usage && s'.txs.Keys == s.txs.Keys
            && (forall u :: u in s.txs && u != t ==> s'.txs[u] == s.txs[u])
            && (forall k :: k in s.owner && s.owner[k] != t ==> k in s'.owner && s'.owner[k] == s.owner[k])
            && (forall k :: k in s'.owner && s'.owner[k] != t ==> k in s.owner && s'.owner[k] == s.owner[k])
            && (forall i, u :: ItemLock(i) in s'.owner && ItemLock(i) !in s.owner && u in s.txs && u != t ==>
                  !Shares(s.txs[u], i))
  {
  }

  lemma LocalStepKeepsInv(cfg: Config, s: State, t: TxId, a: Action)
    requires Inv(cfg, s) && Enabled(cfg, s, t, a) && !a.Commit? && !a.Abort? && !a.Begin?
    requires var s' := Do(cfg, s, t, a); t in s'.txs && TxInv(cfg, s', t, s'.txs[t])
    ensures Inv(cfg, Do(cfg, s, t, a))
  {
    var s' := Do(cfg, s, t, a);
    LocalStepShape(cfg, s, t, a);
    forall u | u in s'.txs && u != t ensures TxInv(cfg, s', u, s'.txs[u]) {
      FrameTx(cfg, s, s', u);
    }
  }

  lemma OwnStepKeepsOwn(cfg: Config, s: State, t: TxId, a: Action)
    requires Inv(cfg, s) && Enabled(cfg, s, t, a) && !a.Commit? && !a.Abort? && !a.Begin?
    ensures var s' := Do(cfg, s, t, a); t in s'.txs && TxInv(cfg, s', t, s'.txs[t])
  {
    match a {
      case Charge => ClampNeverFires(cfg, s, t); ChargeKeepsOwn(cfg, s, t, s.txs[t]);
      case Stage => StageKeepsOwn(cfg, s, t, s.txs[t]);
      case Reap(chunk) => ReapKeepsOwn(cfg, s, t, chunk);
      case _ => LockingStepKeepsOwn(cfg, s, t, a);
    }
  }

  lemma ReapKeepsOwn(cfg: Config, s: State, t: TxId, chunk: Item)
    requires t in s.txs && TxInv(cfg, s, t, s.txs[t]) && Enabled(cfg, s, t, Reap(chunk))
    ensures var s' := Do(cfg, s, t, Reap(chunk)); t in s'.txs && TxInv(cfg, s', t, s'.txs[t])
  {
    var s' := Do(cfg, s, t, Reap(chunk));
    var tx, tx' := s.txs[t], s'.txs[t];
    assert tx' == tx.(removes := tx.removes + {chunk}, freed := tx.freed + s.items[chunk].size);
    assert s'.owner == s.owner[ItemLock(chunk) := t];
    ReapAddsUp(s.items, tx.removes, chunk);
    assert ReapedPinned(s', t, tx');
  }

  lemma ReapAddsUp(items: Items, removes: set<Item>, chunk: Item)
    requires chunk in items && chunk !in removes
    ensures Total(Restrict(SizesOf(items), removes + {chunk})) == Total(Restrict(SizesOf(items), removes)) + items[chunk].size
  {
    var m := SizesOf(items);
    TotalUpdate(Restrict(m, removes), chunk, m[chunk]);
    assert Restrict(m, removes + {chunk}) == Restrict(m, removes)[chunk := m[chunk]];
  }

  lemma BeginAbortKeepInv(cfg: Config, s: State, t: TxId, a: Action)
    requires Inv(cfg, s) && Enabled(cfg, s, t, a) && (a.Abort? || a.Begin?)
    ensures Inv(cfg, Do(cfg, s, t, a))
  {
    var s' := Do(cfg, s, t, a);
    forall u | u in s'.txs ensures TxInv(cfg, s', u, s'.txs[u]) {
      if u != t {
        FrameTx(cfg, s, s', u);
      }
    }
  }

  /** A commit changes only rows its transaction holds exclusively. */
  lemma CommitTouchesOwned(cfg: Config, s: State, t: TxId, i: Item)
    requires Inv(cfg, s) && t in s.txs && s.txs[t].phase == Staged
    requires Lookup(Applied(s.items, s.txs[t]), i) != Lookup(s.items, i)
    ensures Owns(s, t, ItemLock(i))
    ensures i !in s.items ==> Owns(s, t, CreateLock(cfg.hash(i)))
    ensures i !in s.items && i.ChunkItem? ==> s.txs[t].op.WriteChunk? && s.txs[t].op.rid == i.rid
  {
  }

  /** What a commit leaves in place for another open transaction `u`. */
  ghost predicate Undisturbed(cfg: Config, s: State, s': State, u: TxId, tx: Tx) {
    && (forall k :: Owns(s, u, k) ==> Owns(s', u, k))
    && (forall k :: k !in s.owner ==> k !in s'.owner)
    && (forall i :: Owns(s, u, ItemLock(i)) ==> Lookup(s'.items, i) == Lookup(s.items, i))
    && (Owns(s, u, CreateLock(cfg.hash(Target(tx.op)))) && Target(tx.op) !in s.items ==> Target(tx.op) !in s'.items)
    && (Owns(s, u, SpaceLock) ==> s'.usage == s.usage)
    && (tx.op.WriteChunk? && tx.phase != Started ==> Live(s'.items, ResourceItem(tx.op.rid)))
    && (forall rid :: Owns(s, u, ItemLock(ResourceItem(rid))) ==> NoNewChunks(s, s', rid))
  }

  ghost predicate NoNewChunks(s: State, s': State, rid: string) {
    forall i :: i in s'.items && i.ChunkItem? && i.rid == rid ==> i in s.items
  }

  lemma CommitLeavesUndisturbed(cfg: Config, s: State, t: TxId, u: TxId)
    requires Inv(cfg, s) && t in s.txs && s.txs[t].phase == Staged && u in s.txs && u != t
    ensures Undisturbed(cfg, s, Do(cfg, s, t, Commit), u, s.txs[u])
  {
    var s' := Do(cfg, s, t, Commit);
    var tx := s.txs[u];
    var target := Target(tx.op);
    forall i | Owns(s, u, ItemLock(i)) ensures Lookup(s'.items, i) == Lookup(s.items, i) {
      if Lookup(s'.items, i) != Lookup(s.items, i) { CommitTouchesOwned(cfg, s, t, i); }
    }
    if Owns(s, u, CreateLock(cfg.hash(target))) && target !in s.items {
      if target in s'.items { CommitTouchesOwned(cfg, s, t, target); }
    }
    if Owns(s, u, SpaceLock) {
      assert s.txs[t].delta == 0;
    }
    if tx.op.WriteChunk? && tx.phase != Started {
      var parent := ResourceItem(tx.op.rid);
      if Lookup(s'.items, parent) != Lookup(s.items, parent) { CommitTouchesOwned(cfg, s, t, parent); }
    }
    forall rid | Owns(s, u, ItemLock(ResourceItem(rid))) ensures NoNewChunks(s, s', rid) {
      forall i | i in s'.items && i.ChunkItem? && i.rid == rid ensures i in s.items {
        if i !in s.items {
          CommitTouchesOwned(cfg, s, t, i);
          assert false;
        }
      }
    }
  }

  lemma ReapedFrame(cfg: Config, s: State, s': State, u: TxId, tx: Tx)
    requires Undisturbed(cfg, s, s', u, tx) && ReapedPinned(s, u, tx)
    ensures ReapedPinned(s', u, tx)
  {
    forall r | r in tx.removes ensures r in s'.items && s'.items[r] == s.items[r] {
      assert Owns(s, u, ItemLock(r));
      assert Lookup(s'.items, r) == Lookup(s.items, r);
    }
    assert Restrict(SizesOf(s'.items), tx.removes) == Restrict(SizesOf(s.items), tx.removes);
  }

  lemma NewRowFrame(cfg: Config, s: State, s': State, u: TxId, tx: Tx)
    requires Undisturbed(cfg, s, s', u, tx) && PriorPinned(cfg, s, u, tx)
    ensures PriorPinned(cfg, s', u, tx)
    ensures Upserts(tx.op) || tx.prior.Some?
    ensures NewRow(s'.items, tx) == NewRow(s.items, tx)
  {
  }

  lemma CommitFrame(cfg: Config, s: State, s': State, u: TxId, tx: Tx)
    requires TxInv(cfg, s, u, tx) && Undisturbed(cfg, s, s', u, tx)
    ensures TxInv(cfg, s', u, tx)
  {
    if tx.phase == Located || tx.phase == Charged || tx.phase == Staged {
      NewRowFrame(cfg, s, s', u, tx);
      if tx.op.DeleteResource? {
        ReapedFrame(cfg, s, s', u, tx);
        assert NoNewChunks(s, s', tx.op.rid);
      }
    }
  }

  lemma CommitKeepsNoOrphans(cfg: Config, s: State, t: TxId)
    requires Inv(cfg, s) && t in s.txs && s.txs[t].phase == Staged
    ensures NoOrphans(Applied(s.items, s.txs[t]))
  {
    var tx := s.txs[t];
    var after := Applied(s.items, tx);
    forall i | i in after && i.ChunkItem? ensures Live(after, ResourceItem(i.rid)) {
      if tx.op.DeleteResource? {
        assert i in s.items && i !in tx.removes;
      }
      assert Live(s.items, ResourceItem(i.rid));
    }
  }

  lemma CommitKeepsTxInv(cfg: Config, s: State, t: TxId, u: TxId)
    requires Inv(cfg, s) && t in s.txs && s.txs[t].phase == Staged && u in s.txs && u != t
    ensures TxInv(cfg, Do(cfg, s, t, Commit), u, s.txs[u])
  {
    CommitLeavesUndisturbed(cfg, s, t, u);
    CommitFrame(cfg, s, Do(cfg, s, t, Commit), u, s.txs[u]);
  }

  lemma CommitKeepsInv(cfg: Config, s: State, t: TxId)
    requires Inv(cfg, s) && Enabled(cfg, s, t, Commit)
    ensures Inv(cfg, Do(cfg, s, t, Commit))
  {
    var s' := Do(cfg, s, t, Commit);
    CommitDelta(cfg, s, t);
    CommitKeepsNoOrphans(cfg, s, t);
    forall u | u in s'.txs ensures TxInv(cfg, s', u, s'.txs[u]) {
      CommitKeepsTxInv(cfg, s, t, u);
    }
  }

  lemma StepKeepsInv(cfg: Config, s: State, t: TxId, a: Action)
    requires Inv(cfg, s) && Enabled(cfg, s, t, a)
    ensures Inv(cfg, Do(cfg, s, t, a))
  {
    match a {
      case Commit => CommitKeepsInv(cfg, s, t);
      case Abort => BeginAbortKeepInv(cfg, s, t, a);
      case Begin(_) => BeginAbortKeepInv(cfg, s, t, a);
      case _ => OwnStepKeepsOwn(cfg, s, t, a); LocalStepKeepsInv(cfg, s, t, a);
    }
  }
}
