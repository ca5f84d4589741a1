/**
 The Postgres rows of one Collection, updated one transaction at a time, against the Collection machine; and
 the Space's usage counter along serial histories.
 */
module PostgresStore {
  import opened CollectionStore
  import ChangeFeed
  import opened PostgresRows
  import opened Preconditions
  import opened Sizes
  import opened Wrappers

  datatype ChunkKey = ChunkKey(id: Id, index: nat)

  type Resources = map<Id, ResourceRow>
  type Chunks = map<ChunkKey, ChunkRow>

  datatype Outcome = Answered(answer: Answer) | QuotaExceeded

  // ---------- what the rows stand for ----------

  predicate RowStandsFor(json: JsonTypes, row: ResourceRow, r: Resource) {
    && RowConsistent(json, row) && row.contentType == r.contentType && row.content == r.content
    && row.version == r.version && row.metaVersion == r.metaVersion && row.custom == r.custom && row.epoch == r.epoch
    && row.createdBy == r.createdBy && row.createdAt == r.createdAt && row.updatedAt == r.updatedAt
  }

  predicate ChunkStandsFor(row: ChunkRow, c: Chunk) {
    row == ChunkRow(c.contentType, c.bytes, |c.bytes|, c.version)
  }

  ghost predicate ResourcesStandFor(json: JsonTypes, resources: Resources, s: Store) {
    resources.Keys == s.Keys && forall id :: id in resources ==> RowStandsFor(json, resources[id], s[id])
  }

  ghost predicate ChunksStandFor(chunks: Chunks, s: Store) {
    && (forall id, i :: ChunkKey(id, i) in chunks <==> HasChunk(s, id, i))
    && (forall k :: k in chunks ==> ChunkStandsFor(chunks[k], s[k.id].chunks[k.index]))
  }

  ghost predicate Represents(json: JsonTypes, resources: Resources, chunks: Chunks, s: Store) {
    NoOrphans(s) && ResourcesStandFor(json, resources, s) && ChunksStandFor(chunks, s)
  }

  ghost function ResourceSizes(resources: Resources): map<Id, nat> {
    map id | id in resources :: resources[id].sizeBytes
  }

  ghost function ChunkSizes(chunks: Chunks): map<ChunkKey, nat> {
    map k | k in chunks :: chunks[k].size
  }

  ghost function StoredBytes(resources: Resources, chunks: Chunks): nat {
    Total(ResourceSizes(resources)) + Total(ChunkSizes(chunks))
  }

  function KeysUnder(chunks: Chunks, id: Id): set<ChunkKey> {
    set k | k in chunks && k.id == id
  }

  function ContentBytes(s: Store, id: Id): nat {
    if Live(s, id) then |s[id].content.value| else 0
  }

  function ChunkBytes(s: Store, id: Id, index: nat): nat {
    if HasChunk(s, id, index) then |s[id].chunks[index].bytes| else 0
  }

  // ---------- one statement at a time ----------

  /** Writing a Resource row that keeps its chunks. */
  lemma {:induction false} RowWritten(json: JsonTypes, resources: Resources, chunks: Chunks, s: Store, id: Id, row: ResourceRow, r: Resource)
    requires Represents(json, resources, chunks, s)
    requires RowStandsFor(json, row, r) && Rooted(r) && r.chunks == ChunksOf(s, id)
    ensures Represents(json, resources[id := row], chunks, s[id := r])
  {
    var t := s[id := r];
    forall i, n ensures ChunkKey(i, n) in chunks <==> HasChunk(t, i, n) {
      assert ChunkKey(i, n) in chunks <==> HasChunk(s, i, n);
    }
    forall i | i in t ensures Rooted(t[i]) {
    }
  }

  /** Removing a Resource's chunk rows and turning its row into a tombstone. */
  lemma {:induction false} RowTombstoned(json: JsonTypes, resources: Resources, chunks: Chunks, s: Store, id: Id, row: ResourceRow, r: Resource)
    requires Represents(json, resources, chunks, s)
    requires RowStandsFor(json, row, r) && Rooted(r) && r.chunks == map[]
    ensures Represents(json, resources[id := row], chunks - KeysUnder(chunks, id), s[id := r])
  {
    var t, left := s[id := r], chunks - KeysUnder(chunks, id);
    forall i, n ensures ChunkKey(i, n) in left <==> HasChunk(t, i, n) {
      assert ChunkKey(i, n) in chunks <==> HasChunk(s, i, n);
    }
    forall k | k in left ensures ChunkStandsFor(left[k], t[k.id].chunks[k.index]) {
      assert ChunkStandsFor(chunks[k], s[k.id].chunks[k.index]);
    }
    forall i | i in t ensures Rooted(t[i]) {
    }
  }

  /** Writing one chunk row under a live Resource. */
  lemma ChunkRowWritten(json: JsonTypes, resources: Resources, chunks: Chunks, s: Store, k: ChunkKey, row: ChunkRow, r: Resource)
    requires Represents(json, resources, chunks, s) && Live(s, k.id) && row.size == |row.bytes|
    requires r == s[k.id].(chunks := s[k.id].chunks[k.index := Chunk(row.contentType, row.bytes, row.version)])
    ensures Represents(json, resources, chunks[k := row], s[k.id := r])
  {
    var t := s[k.id := r];
    forall i, n ensures ChunkKey(i, n) in chunks[k := row] <==> HasChunk(t, i, n) {
      assert ChunkKey(i, n) in chunks <==> HasChunk(s, i, n);
    }
    forall j | j in chunks && j != k ensures ChunkStandsFor(chunks[j], t[j.id].chunks[j.index]) {
      assert ChunkStandsFor(chunks[j], s[j.id].chunks[j.index]);
    }
  }

  /** Removing one chunk row. */
  lemma {:induction false} ChunkRowRemoved(json: JsonTypes, resources: Resources, chunks: Chunks, s: Store, k: ChunkKey, r: Resource)
    requires Represents(json, resources, chunks, s) && Live(s, k.id)
    requires r == s[k.id].(chunks := s[k.id].chunks - {k.index})
    ensures Represents(json, resources, chunks - {k}, s[k.id := r])
  {
    var t, left := s[k.id := r], chunks - {k};
    forall i, n ensures ChunkKey(i, n) in left <==> HasChunk(t, i, n) {
      assert ChunkKey(i, n) in chunks <==> HasChunk(s, i, n);
    }
    forall j | j in left ensures ChunkStandsFor(left[j], t[j.id].chunks[j.index]) {
      assert ChunkStandsFor(chunks[j], s[j.id].chunks[j.index]);
    }
  }

  /** What a SELECT of one chunk row tells about the chunk. */
  lemma ChunkRead(chunks: Chunks, s: Store, k: ChunkKey)
    requires ChunksStandFor(chunks, s)
    ensures k in chunks <==> HasChunk(s, k.id, k.index)
    ensures (if k in chunks then chunks[k].version else 0) == ChunkVersion(s, k.id, k.index)
    ensures (if k in chunks then chunks[k].size else 0) == ChunkBytes(s, k.id, k.index)
  {
    assert ChunkKey(k.id, k.index) in chunks <==> HasChunk(s, k.id, k.index);
  }

  /** What a locking SELECT of one Resource row tells about the Resource. */
  lemma RowRead(json: JsonTypes, resources: Resources, s: Store, id: Id)
    requires ResourcesStandFor(json, resources, s)
    ensures (id in resources && !resources[id].deleted) == Live(s, id)
    ensures (if id in resources then resources[id].version else 0) == VersionOf(s, id)
    ensures (if id in resources then resources[id].sizeBytes else 0) == ContentBytes(s, id)
  {
  }

  /** INSERT ... ON CONFLICT DO UPDATE: the columns the update names come from this write, the others stay. */
  function Upserted(json: JsonTypes, prior: Option<ResourceRow>, op: Op, now: Time): ResourceRow
    requires op.Put?
  {
    if prior.Some? then
      prior.value.(contentType := op.contentType, content := Some(op.bytes), isJson := op.contentType in json, sizeBytes := |op.bytes|,
                   version := prior.value.version + 1, deleted := false, updatedAt := now, epoch := op.epoch)
    else
      ResourceRow(op.contentType, Some(op.bytes), op.contentType in json, |op.bytes|, 1, None, None, false, now, now, op.creator, op.epoch)
  }

  lemma UpsertedStandsFor(json: JsonTypes, resources: Resources, s: Store, op: Op, now: Time)
    requires ResourcesStandFor(json, resources, s) && op.Put?
    ensures RowStandsFor(json, Upserted(json, if op.id in resources then Some(resources[op.id]) else None, op, now), AfterPut(s, op, now))
    ensures AfterPut(s, op, now).chunks == ChunksOf(s, op.id) && Rooted(AfterPut(s, op, now))
  {
  }

  /** UPDATE of the metadata columns. */
  function MetaRow(prior: ResourceRow, op: Op, now: Time): ResourceRow
    requires op.PutMeta?
  {
    prior.(metaVersion := Some(prior.metaVersion.GetOr(0) + 1), custom := if op.custom != EMPTY_CUSTOM then Some(op.custom) else None,
           updatedAt := now, epoch := if op.epoch.Some? then op.epoch else prior.epoch)
  }

  lemma MetaRowStandsFor(json: JsonTypes, resources: Resources, s: Store, op: Op, now: Time)
    requires ResourcesStandFor(json, resources, s) && NoOrphans(s) && op.PutMeta? && op.id in s
    ensures RowStandsFor(json, MetaRow(resources[op.id], op, now), AfterPutMeta(s[op.id], op, now))
    ensures AfterPutMeta(s[op.id], op, now).chunks == ChunksOf(s, op.id) && Rooted(AfterPutMeta(s[op.id], op, now))
    ensures resources[op.id].metaVersion == s[op.id].metaVersion
  {
    assert Rooted(s[op.id]);
  }

  lemma IsRooted(s: Store, id: Id)
    requires NoOrphans(s) && id in s
    ensures Rooted(s[id])
  {
  }

  // ---------- sums ----------

  lemma RowStored(resources: Resources, chunks: Chunks, id: Id, row: ResourceRow)
    ensures StoredBytes(resources[id := row], chunks) ==
            StoredBytes(resources, chunks) - (if id in resources then resources[id].sizeBytes else 0) + row.sizeBytes
  {
    TotalUpdate(ResourceSizes(resources), id, row.sizeBytes);
    assert ResourceSizes(resources[id := row]) == ResourceSizes(resources)[id := row.sizeBytes];
  }

  lemma ChunkStored(resources: Resources, chunks: Chunks, k: ChunkKey, row: ChunkRow)
    ensures StoredBytes(resources, chunks[k := row]) ==
            StoredBytes(resources, chunks) - (if k in chunks then chunks[k].size else 0) + row.size
  {
    TotalUpdate(ChunkSizes(chunks), k, row.size);
    assert ChunkSizes(chunks[k := row]) == ChunkSizes(chunks)[k := row.size];
  }

  lemma ChunksRemoved(resources: Resources, chunks: Chunks, ks: set<ChunkKey>)
    ensures StoredBytes(resources, chunks) == StoredBytes(resources, chunks - ks) + Total(Restrict(ChunkSizes(chunks), ks))
  {
    TotalSplit(ChunkSizes(chunks), ks);
    assert ChunkSizes(chunks) - ks == ChunkSizes(chunks - ks);
  }

  lemma ChunkRemoved(resources: Resources, chunks: Chunks, k: ChunkKey)
    requires k in chunks
    ensures StoredBytes(resources, chunks) == StoredBytes(resources, chunks - {k}) + chunks[k].size
  {
    TotalRemove(ChunkSizes(chunks), k);
    assert ChunkSizes(chunks) - {k} == ChunkSizes(chunks - {k});
  }

  /** What a write may free was counted, so the clamp at zero never acts. */
  lemma RowCounted(resources: Resources, chunks: Chunks, id: Id)
    ensures id in resources ==> resources[id].sizeBytes <= StoredBytes(resources, chunks)
  {
    if id in resources { TotalRemove(ResourceSizes(resources), id); }
  }

  lemma ChunkCounted(resources: Resources, chunks: Chunks, k: ChunkKey)
    ensures k in chunks ==> chunks[k].size <= StoredBytes(resources, chunks)
  {
    if k in chunks { TotalRemove(ChunkSizes(chunks), k); }
  }

  /** The bytes of a Resource and its chunks. */
  ghost function BytesUnder(resources: Resources, chunks: Chunks, id: Id): nat
    requires id in resources
  {
    resources[id].sizeBytes + Total(Restrict(ChunkSizes(chunks), KeysUnder(chunks, id)))
  }

  lemma FreedBytes(resources: Resources, chunks: Chunks, id: Id)
    requires id in resources
    ensures StoredBytes(resources, chunks) == StoredBytes(resources, chunks - KeysUnder(chunks, id)) +
                                              (BytesUnder(resources, chunks, id) - resources[id].sizeBytes)
    ensures BytesUnder(resources, chunks, id) <= StoredBytes(resources, chunks)
  {
    ChunksRemoved(resources, chunks, KeysUnder(chunks, id));
    RowCounted(resources, chunks - KeysUnder(chunks, id), id);
  }

  lemma NothingStored()
    ensures StoredBytes(map[], map[]) == 0
  {
    assert ResourceSizes(map[]) == map[] && ChunkSizes(map[]) == map[];
  }

  /** Adding up the `size` column of the removed rows. */
  method SumSizes(chunks: Chunks, ks: set<ChunkKey>) returns (total: nat)
    requires ks <= chunks.Keys
    ensures total == Total(Restrict(ChunkSizes(chunks), ks))
  {
    total := 0;
    var todo := ks;
    assert Restrict(ChunkSizes(chunks), {}) == map[];
    while todo != {}
      invariant todo <= ks
      invariant total == Total(Restrict(ChunkSizes(chunks), ks - todo))
      decreases |todo|
    {
      var k :| k in todo;
      ghost var before := Restrict(ChunkSizes(chunks), ks - todo);
      TotalUpdate(before, k, chunks[k].size);
      assert Restrict(ChunkSizes(chunks), ks - (todo - {k})) == before[k := chunks[k].size];
      total := total + chunks[k].size;
      todo := todo - {k};
    }
    assert ks - {} == ks;
  }

  /** A write is over quota when it grows what is stored past the capacity. */
  predicate Overflows(growth: int, usage: int, capacity: Option<nat>) {
    growth > 0 && capacity.Some? && usage + growth > capacity.value
  }

  /** How many bytes an operation adds to what is stored. */
  function Growth(s: Store, op: Op): int {
    match op
    case Put(id, _, bytes, _, _, _) => |bytes| - ContentBytes(s, id)
    case PutChunk(id, index, _, bytes, _) => |bytes| - ChunkBytes(s, id, index)
    case _ => 0
  }

  /** An operation is refused for the quota when it would otherwise take effect and its growth does not fit. */
  predicate OverQuota(s: Store, op: Op, now: Time, usage: int, capacity: Option<nat>) {
    Apply(s, op, now).1.Version? && Growth(s, op) > 0 && capacity.Some? && usage + Growth(s, op) > capacity.value
  }

  class PostgresStore {
    const json: JsonTypes
    const capacity: Option<nat>
    var resources: Resources
    var chunks: Chunks
    var usage: int
    ghost var store: Store
    /** Bytes held by the Space's other Collections. */
    ghost const elsewhere: nat

    /** The rows stand for `store`, chunk rows have live parents, and the counter is what is stored. */
    ghost predicate Valid()
      reads this
    {
      && Represents(json, resources, chunks, store)
      && usage == elsewhere + StoredBytes(resources, chunks)
    }

    constructor (json: JsonTypes, capacity: Option<nat>, usage: nat)
      ensures Valid() && store == map[] && this.json == json && this.capacity == capacity && elsewhere == usage
    {
      this.json, this.capacity, this.usage, elsewhere := json, capacity, usage, usage;
      resources, chunks, store := map[], map[], map[];
      NothingStored();
    }

    /** The rows of one Collection of a Space whose counter reads `usage`. */
    constructor FromRows(json: JsonTypes, capacity: Option<nat>, resources: Resources, chunks: Chunks, usage: int, ghost store: Store)
      requires Represents(json, resources, chunks, store) && StoredBytes(resources, chunks) <= usage
      ensures Valid() && this.json == json && this.capacity == capacity && this.store == store && this.usage == usage
      ensures this.resources == resources && this.chunks == chunks && elsewhere == usage - StoredBytes(resources, chunks)
    {
      this.json, this.capacity, this.usage, elsewhere := json, capacity, usage, usage - StoredBytes(resources, chunks);
      this.resources, this.chunks, this.store := resources, chunks, store;
    }

    /** Only a growing write can exhaust the quota; the clamp at zero is never what decides. */
    method ApplyUsageDelta(delta: int) returns (fits: bool)
      modifies this`usage
      ensures fits <==> delta <= 0 || capacity.None? || old(usage) + delta <= capacity.value
      ensures usage == if !fits then old(usage) else if old(usage) + delta < 0 then 0 else old(usage) + delta
    {
      if delta > 0 && capacity.Some? && usage + delta > capacity.value {
        return false;
      }
      usage := if usage + delta < 0 then 0 else usage + delta;
      return true;
    }

    /** The upsert or update of one Resource row, its size already charged. */
    method StoreRow(id: Id, row: ResourceRow, ghost r: Resource)
      requires Represents(json, resources, chunks, store) && RowStandsFor(json, row, r) && Rooted(r)
      requires r.chunks == ChunksOf(store, id)
      requires usage == elsewhere + StoredBytes(resources, chunks) - (if id in resources then resources[id].sizeBytes else 0) + row.sizeBytes
      modifies this`resources, this`store
      ensures Valid()
      ensures store == old(store)[id := r]
    {
      RowStored(resources, chunks, id, row);
      RowWritten(json, resources, chunks, store, id, row, r);
      store := store[id := r];
      resources := resources[id := row];
    }

    /** Removal of a Resource's chunk rows with its row's update to a tombstone, their bytes already returned. */
    method StoreTombstone(id: Id, row: ResourceRow, ghost r: Resource)
      requires Represents(json, resources, chunks, store) && RowStandsFor(json, row, r) && Rooted(r) && r.chunks == map[]
      requires id in resources && row.sizeBytes == 0
      requires usage == elsewhere + StoredBytes(resources, chunks) - BytesUnder(resources, chunks, id)
      modifies this`resources, this`chunks, this`store
      ensures Valid()
      ensures store == old(store)[id := r]
    {
      FreedBytes(resources, chunks, id);
      RowStored(resources, chunks - KeysUnder(chunks, id), id, row);
      RowTombstoned(json, resources, chunks, store, id, row, r);
      store := store[id := r];
      chunks := chunks - KeysUnder(chunks, id);
      resources := resources[id := row];
    }

    /** The upsert of one chunk row, its size already charged. */
    method StoreChunkRow(k: ChunkKey, row: ChunkRow, ghost r: Resource)
      requires Represents(json, resources, chunks, store) && Live(store, k.id) && row.size == |row.bytes|
      requires r == store[k.id].(chunks := store[k.id].chunks[k.index := Chunk(row.contentType, row.bytes, row.version)])
      requires usage == elsewhere + StoredBytes(resources, chunks) - (if k in chunks then chunks[k].size else 0) + row.size
      modifies this`chunks, this`store
      ensures Valid()
      ensures store == old(store)[k.id := r]
    {
      ChunkStored(resources, chunks, k, row);
      ChunkRowWritten(json, resources, chunks, store, k, row, r);
      store := store[k.id := r];
      chunks := chunks[k := row];
    }

    method ChargeAndStoreChunk(k: ChunkKey, row: ChunkRow, ghost r: Resource) returns (fits: bool)
      requires Valid() && Live(store, k.id) && row.size == |row.bytes|
      requires r == store[k.id].(chunks := store[k.id].chunks[k.index := Chunk(row.contentType, row.bytes, row.version)])
      modifies this
      ensures Valid()
      ensures capacity.Some? && old(usage) <= capacity.value ==> usage <= capacity.value
      ensures fits <==> !Overflows(row.size - ChunkBytes(old(store), k.id, k.index), old(usage), capacity)
      ensures store == if fits then old(store)[k.id := r] else old(store)
      ensures !fits ==> usage == old(usage)
    {
      ChunkRead(chunks, store, k);
      ChunkCounted(resources, chunks, k);
      var delta := row.size - if k in chunks then chunks[k].size else 0;
      if delta != 0 {
        fits := ApplyUsageDelta(delta);
        if !fits {
          return false;
        }
      }
      StoreChunkRow(k, row, r);
      return true;
    }

    /** DELETE of one chunk row, and its bytes returned. */
    method RemoveChunkRow(k: ChunkKey)
      requires Valid() && k in chunks && Live(store, k.id)
      modifies this
      ensures Valid()
      ensures capacity.Some? && old(usage) <= capacity.value ==> usage <= capacity.value
      ensures store == old(store)[k.id := old(store)[k.id].(chunks := old(store)[k.id].chunks - {k.index})]
    {
      var freedBytes: int := chunks[k].size;
      ghost var without := store[k.id].(chunks := store[k.id].chunks - {k.index});
      ChunkRemoved(resources, chunks, k);
      ChunkRowRemoved(json, resources, chunks, store, k, without);
      chunks := chunks - {k};
      if freedBytes > 0 {
        var fits := ApplyUsageDelta(-freedBytes);
      }
      store := store[k.id := without];
    }

    method WriteResource(op: Op, now: Time) returns (r: Outcome)
      requires op.Put? && Valid()
      modifies this
      ensures Valid()
      ensures capacity.Some? && old(usage) <= capacity.value ==> usage <= capacity.value
      ensures r.QuotaExceeded? ==> store == old(store) && usage == old(usage)
      ensures r.QuotaExceeded? <==> ApplyPut(old(store), op, now).1.Version? &&
                                    Overflows(|op.bytes| - ContentBytes(old(store), op.id), old(usage), capacity)
      ensures r.Answered? ==> (store, r.answer) == ApplyPut(old(store), op, now)
    {
      var prior := if op.id in resources then Some(resources[op.id]) else None;
      var isLive := prior.Some? && !prior.value.deleted;
      RowRead(json, resources, store, op.id);
      if !WriteAllowed(isLive, if prior.Some? then prior.value.version else 0, op.guard) {
        return Answered(PreconditionFailed);
      }
      var version := (if prior.Some? then prior.value.version else 0) + 1;
      var delta := |op.bytes| - if isLive then prior.value.sizeBytes else 0;
      RowCounted(resources, chunks, op.id);
      if delta != 0 {
        var fits := ApplyUsageDelta(delta);
        if !fits {
          return QuotaExceeded;
        }
      }
      UpsertedStandsFor(json, resources, store, op, now);
      StoreRow(op.id, Upserted(json, prior, op, now), AfterPut(store, op, now));
      return Answered(Version(version));
    }

    method WriteResourceMetadata(op: Op, now: Time) returns (r: Outcome)
      requires op.PutMeta? && Valid()
      modifies this
      ensures Valid() && r.Answered? && (store, r.answer) == ApplyPutMeta(old(store), op, now)
      ensures usage == old(usage)
    {
      RowRead(json, resources, store, op.id);
      if op.id !in resources || resources[op.id].deleted {
        return Answered(NotFound);
      }
      var prior := resources[op.id];
      if !MetaWriteAllowed(prior.metaVersion, op.guard) {
        return Answered(PreconditionFailed);
      }
      MetaRowStandsFor(json, resources, store, op, now);
      StoreRow(op.id, MetaRow(prior, op, now), AfterPutMeta(store[op.id], op, now));
      return Answered(MetaVersion(prior.metaVersion.GetOr(0) + 1));
    }

    method DeleteResource(op: Op, now: Time) returns (r: Outcome)
      requires op.Delete? && Valid()
      modifies this
      ensures capacity.Some? && old(usage) <= capacity.value ==> usage <= capacity.value
      ensures Valid() && r.Answered? && (store, r.answer) == ApplyDelete(old(store), op, now)
    {
      var prior := if op.id in resources then Some(resources[op.id]) else None;
      var isLive := prior.Some? && !prior.value.deleted;
      RowRead(json, resources, store, op.id);
      if !WriteAllowed(isLive, if prior.Some? then prior.value.version else 0, Guard(op.ifMatch, false)) {
        return Answered(PreconditionFailed);
      }
      if !isLive {
        return Answered(Done);
      }
      var removed := KeysUnder(chunks, op.id);
      var freedChunkBytes := SumSizes(chunks, removed);
      var freedBytes: int := prior.value.sizeBytes + freedChunkBytes;
      FreedBytes(resources, chunks, op.id);
      if freedBytes > 0 {
        var fits := ApplyUsageDelta(-freedBytes);
      }
      var row := prior.value.(content := None, sizeBytes := 0, version := prior.value.version + 1, metaVersion := None,
                              custom := None, epoch := None, deleted := true, updatedAt := now);
      StoreTombstone(op.id, row, Tombstone(store[op.id], now));
      return Answered(Done);
    }

    method WriteChunk(op: Op, now: Time) returns (r: Outcome)
      requires op.PutChunk? && Valid()
      modifies this
      ensures Valid()
      ensures capacity.Some? && old(usage) <= capacity.value ==> usage <= capacity.value
      ensures r.QuotaExceeded? ==> store == old(store) && usage == old(usage)
      ensures r.QuotaExceeded? <==> ApplyPutChunk(old(store), op).1.Version? &&
                                    Overflows(|op.bytes| - ChunkBytes(old(store), op.id, op.index), old(usage), capacity)
      ensures r.Answered? ==> (store, r.answer) == ApplyPutChunk(old(store), op)
    {
      if op.id !in resources || resources[op.id].deleted {
        return Answered(NotFound);
      }
      var k := ChunkKey(op.id, op.index);
      ChunkRead(chunks, store, k);
      var priorVersion := if k in chunks then chunks[k].version else 0;
      if !WriteAllowed(k in chunks, priorVersion, op.guard) {
        return Answered(PreconditionFailed);
      }
      var fits := ChargeAndStoreChunk(k, ChunkRow(op.contentType, op.bytes, |op.bytes|, priorVersion + 1), WithChunk(store, op));
      if !fits {
        return QuotaExceeded;
      }
      return Answered(Version(priorVersion + 1));
    }

    method DeleteChunk(op: Op, now: Time) returns (r: Outcome)
      requires op.DeleteChunk? && Valid()
      modifies this
      ensures capacity.Some? && old(usage) <= capacity.value ==> usage <= capacity.value
      ensures Valid() && r.Answered? && (store, r.answer) == ApplyDeleteChunk(old(store), op)
    {
      var k := ChunkKey(op.id, op.index);
      ChunkRead(chunks, store, k);
      if k !in chunks {
        return Answered(Removed(false));
      }
      if !WriteAllowed(true, chunks[k].version, Guard(op.ifMatch, false)) {
        return Answered(PreconditionFailed);
      }
      IsRooted(store, op.id);
      RemoveChunkRow(k);
      return Answered(Removed(true));
    }

    /** Dropping the Collection returns exactly its Resource and chunk bytes, and nothing else's. */
    method DeleteCollection()
      requires Valid()
      modifies this
      ensures Valid()
      ensures resources == map[] && chunks == map[]
      ensures store == map[] && usage == elsewhere
    {
      var resourceBytes := SumResourceSizes(resources);
      var chunkBytes := SumSizes(chunks, chunks.Keys);
      assert Restrict(ChunkSizes(chunks), chunks.Keys) == ChunkSizes(chunks);
      NothingStored();
      var freedBytes: int := resourceBytes + chunkBytes;
      resources, chunks, store := map[], map[], map[];
      if freedBytes > 0 {
        var fits := ApplyUsageDelta(-freedBytes);
      }
    }

    method Execute(op: Op, now: Time) returns (r: Outcome)
      requires Valid()
      modifies this
      ensures Valid()
      ensures capacity.Some? && old(usage) <= capacity.value ==> usage <= capacity.value
      ensures r.QuotaExceeded? <==> OverQuota(old(store), op, now, old(usage), capacity)
      ensures r.QuotaExceeded? ==> store == old(store) && usage == old(usage)
      ensures r.Answered? ==> (store, r.answer) == Apply(old(store), op, now)
    {
      match op {
        case Put(_, _, _, _, _, _) => r := WriteResource(op, now);
        case PutMeta(_, _, _, _) => r := WriteResourceMetadata(op, now);
        case Delete(_, _) => r := DeleteResource(op, now);
        case PutChunk(_, _, _, _, _) => r := WriteChunk(op, now);
        case DeleteChunk(_, _, _) => r := DeleteChunk(op, now);
      }
    }

    // ---------- reads ----------

    method GetResource(id: Id) returns (r: Option<Representation>)
      requires Valid()
      ensures r == ResourceOf(store, id)
    {
      if id !in resources || resources[id].deleted || resources[id].content.None? {
        return None;
      }
      return Some(Representation(resources[id].contentType, resources[id].content.value, resources[id].version));
    }

    method GetResourceMetadata(id: Id) returns (r: Option<Metadata>)
      requires Valid()
      ensures r == MetadataOf(store, id)
    {
      if id !in resources || resources[id].deleted {
        return None;
      }
      var row := resources[id];
      return Some(Metadata(row.contentType, row.sizeBytes, row.createdAt, row.updatedAt, row.createdBy, row.custom, row.epoch,
                           row.version, row.metaVersion));
    }

    method GetChunk(id: Id, index: nat) returns (c: Option<Chunk>)
      requires Valid()
      ensures c == ChunkOf(store, id, index)
    {
      var k := ChunkKey(id, index);
      ChunkRead(chunks, store, k);
      if k !in chunks {
        return None;
      }
      return Some(Chunk(chunks[k].contentType, chunks[k].bytes, chunks[k].version));
    }

    method ListChunks(id: Id) returns (l: seq<ListedChunk>)
      requires Valid()
      ensures IsListing(ChunksOf(store, id), l)
    {
      var selected := map k | k in chunks && k.id == id :: k.index := Chunk(chunks[k].contentType, chunks[k].bytes, chunks[k].version);
      assert selected == ChunksOf(store, id) by {
        forall i ensures i in selected <==> i in ChunksOf(store, id) {
          assert ChunkKey(id, i) in chunks <==> HasChunk(store, id, i);
        }
        forall i | i in selected ensures selected[i] == ChunksOf(store, id)[i] {
          assert ChunkStandsFor(chunks[ChunkKey(id, i)], store[id].chunks[i]);
        }
      }
      l := SortedListing(selected);
    }

    /** The rows the change feed selects. */
    method SelectFeed() returns (rows: ChangeFeed.Rows)
      requires Valid()
      ensures rows == FeedRows(json, store)
    {
      rows := map id | id in resources && resources[id].isJson ::
        var row := resources[id];
        if row.deleted then ChangeFeed.Row(row.version, row.metaVersion, row.createdBy, row.updatedAt, true, None, None, None, true)
        else ChangeFeed.Row(row.version, row.metaVersion, row.createdBy, row.updatedAt, false, row.content, row.custom, row.epoch, true);
      assert forall id :: id in store ==> Rooted(store[id]);
    }
  }

  lemma SizeAdded(done: Resources, id: Id, row: ResourceRow)
    requires id !in done
    ensures Total(ResourceSizes(done[id := row])) == Total(ResourceSizes(done)) + row.sizeBytes
  {
    TotalUpdate(ResourceSizes(done), id, row.sizeBytes);
    assert ResourceSizes(done[id := row]) == ResourceSizes(done)[id := row.sizeBytes];
  }

  method SumResourceSizes(resources: Resources) returns (total: nat)
    ensures total == Total(ResourceSizes(resources))
  {
    total := 0;
    var todo, done: Resources := resources.Keys, map[];
    assert ResourceSizes(done) == map[];
    while todo != {}
      invariant todo <= resources.Keys && done == resources - todo
      invariant total == Total(ResourceSizes(done))
      decreases |todo|
    {
      var id :| id in todo;
      SizeAdded(done, id, resources[id]);
      total := total + resources[id].sizeBytes;
      done := done[id := resources[id]];
      todo := todo - {id};
    }
    assert resources - {} == resources;
  }
}
