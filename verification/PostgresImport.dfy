/**
 Importing a Space archive into the Postgres backend: one transaction that adds what the destination lacks and
 touches nothing it holds. The archive arrives as a parsed plan; body encoding and tar reading are not modelled.
 */
module PostgresImport {
  import opened ImportPlan
  import R = ImportReport
  import opened PostgresRows
  import opened Sizes
  import opened Wrappers

  // ---------- the destination ----------

  /** A Collection row without a description is a placeholder. */
  datatype CollectionRow = CollectionRow(description: Option<string>, metadata: Option<string>)

  datatype ChunkKey = ChunkKey(parent: ResourceKey, index: nat)

  type Resources = map<ResourceKey, ResourceRow>
  type Chunks = map<ChunkKey, ChunkRow>

  datatype Space = Space(collections: map<Cid, CollectionRow>, resources: Resources, chunks: Chunks, policies: map<PolicyKey, string>)

  /** What an import is carried out with: the quotas, which media types hold JSON, and its clock reading. */
  datatype Setting = Setting(limits: Limits, json: iset<string>, now: string)

  predicate Described(s: Space, cid: Cid) {
    cid in s.collections && s.collections[cid].description.Some?
  }

  predicate Live(s: Space, k: ResourceKey) {
    k in s.resources && !s.resources[k].deleted
  }

  function LiveRows(resources: Resources): set<ResourceKey> {
    set k | k in resources && !resources[k].deleted
  }

  function DescribedIds(s: Space): set<Cid> {
    set cid | cid in s.collections && s.collections[cid].description.Some?
  }

  function Descriptions(s: Space): map<Cid, string> {
    map cid | cid in s.collections && s.collections[cid].description.Some? :: s.collections[cid].description.value
  }

  function ViewOf(s: Space): View {
    View(s.collections.Keys, DescribedIds(s), s.resources.Keys, |LiveRows(s.resources)|, s.policies)
  }

  ghost function ResourceSizes(resources: Resources): map<ResourceKey, nat> {
    map k | k in resources :: resources[k].sizeBytes
  }

  ghost function ChunkSizes(chunks: Chunks): map<ChunkKey, nat> {
    map k | k in chunks :: chunks[k].size
  }

  /** The sizes in Resource and chunk rows, which is what the usage counter is for. */
  ghost function StoredBytes(s: Space): nat {
    Total(ResourceSizes(s.resources)) + Total(ChunkSizes(s.chunks))
  }

  /** Every row's derived columns agree with its content. */
  ghost predicate Consistent(json: iset<string>, s: Space) {
    && (forall k :: k in s.resources ==> RowConsistent(json, s.resources[k]))
    && (forall k :: k in s.chunks ==> ChunkConsistent(s.chunks[k]))
  }

  /** Every chunk has a live parent. */
  ghost predicate ChunksRooted(s: Space) {
    forall k :: k in s.chunks ==> Live(s, k.parent)
  }

  // ---------- what an import may do ----------

  /** Nothing the destination holds changes: no row, live or tombstone, no description or Collection metadata,
      no placeholder it does not describe, no chunk, and no policy of anything it holds. */
  ghost predicate Merged(a: Space, b: Space) {
    && Kept(a.resources, b.resources)
    && Kept(a.chunks, b.chunks)
    && (forall cid :: cid in a.collections ==> cid in b.collections)
    && (forall cid :: Described(a, cid) || (cid in a.collections && !Described(b, cid)) ==> b.collections[cid] == a.collections[cid])
    && (forall k :: k in a.policies && Governed(ViewOf(a), k) ==> k in b.policies && b.policies[k] == a.policies[k])
  }

  lemma MergedTransitive(a: Space, b: Space, c: Space)
    requires Merged(a, b) && Merged(b, c)
    ensures Merged(a, c)
  {
    forall cid | cid in a.collections && !Described(c, cid) ensures c.collections[cid] == a.collections[cid] {
      assert !Described(b, cid);
    }
    forall k | k in a.policies && Governed(ViewOf(a), k) ensures k in c.policies && c.policies[k] == a.policies[k] {
      assert Governed(ViewOf(b), k);
    }
  }

  /** A merge that brings no id, no chunk and no policy is no change at all. */
  lemma NothingMerged(a: Space, b: Space)
    requires Merged(a, b) && ViewOf(b) == ViewOf(a) && b.chunks.Keys == a.chunks.Keys
    ensures b == a
  {
    assert a.resources == b.resources && a.chunks == b.chunks;
    forall cid | cid in a.collections ensures b.collections[cid] == a.collections[cid] {
      assert Described(a, cid) <==> cid in DescribedIds(a);
      assert Described(b, cid) <==> cid in DescribedIds(b);
    }
    assert a.collections == b.collections;
  }

  // ---------- merging chunk files into rows ----------

  datatype Slot = Slot(contentType: Option<string>, body: Bytes, version: Option<nat>)

  type Slots = map<ChunkKey, Slot>

  datatype ChunkEntry = ChunkEntry(key: ChunkKey, contentType: string, body: Bytes, version: Option<nat>)

  function SlotAfter(slots: Slots, cid: Cid, f: ChunkFile): Slots {
    var k := ChunkKey(ResourceKey(cid, f.rid), f.index);
    var slot := if k in slots then slots[k] else Slot(None, "", None);
    slots[k := if f.contentType.Some? then slot.(contentType := f.contentType, body := f.body)
               else if f.version.Some? then slot.(version := f.version)
               else slot]
  }

  function SlotsOf(slots: Slots, cid: Cid, files: seq<ChunkFile>): Slots {
    if files == [] then slots else SlotAfter(SlotsOf(slots, cid, files[..|files| - 1]), cid, files[|files| - 1])
  }

  function AllSlots(collections: seq<ArchivedCollection>): Slots {
    if collections == [] then map[]
    else
      var n := |collections| - 1;
      SlotsOf(AllSlots(collections[..n]), collections[n].cid, collections[n].chunkFiles)
  }

  /** A chunk is staged with a body exactly when the archive holds a representation of it. */
  predicate HasBody(slots: Slots, k: ChunkKey) {
    k in slots && slots[k].contentType.Some?
  }

  // ---------- what the archive has of a chunk ----------

  predicate FileOf(files: seq<ChunkFile>, k: ChunkKey, i: int) {
    0 <= i < |files| && files[i].rid == k.parent.rid && files[i].index == k.index
  }

  predicate BodyAt(files: seq<ChunkFile>, k: ChunkKey, i: int) {
    FileOf(files, k, i) && files[i].contentType.Some?
  }

  predicate VersionAt(files: seq<ChunkFile>, k: ChunkKey, i: int) {
    FileOf(files, k, i) && files[i].contentType.None? && files[i].version.Some?
  }

  /** The representation of the chunk that no later file replaces. */
  ghost predicate LastBody(files: seq<ChunkFile>, k: ChunkKey, i: int) {
    BodyAt(files, k, i) && forall j :: i < j ==> !BodyAt(files, k, j)
  }

  /** Its sidecar that no later one replaces. */
  ghost predicate LastVersion(files: seq<ChunkFile>, k: ChunkKey, i: int) {
    VersionAt(files, k, i) && forall j :: i < j ==> !VersionAt(files, k, j)
  }

  ghost predicate BodyArchived(files: seq<ChunkFile>, k: ChunkKey, contentType: Option<string>, body: Bytes) {
    exists i :: LastBody(files, k, i) && files[i].contentType == contentType && files[i].body == body
  }

  ghost predicate VersionArchived(files: seq<ChunkFile>, k: ChunkKey, version: Option<nat>) {
    if version.Some? then exists i :: LastVersion(files, k, i) && files[i].version == version
    else forall i :: !VersionAt(files, k, i)
  }

  ghost predicate SlotArchived(files: seq<ChunkFile>, k: ChunkKey, slot: Slot) {
    && (if slot.contentType.Some? then BodyArchived(files, k, slot.contentType, slot.body) else forall i :: !BodyAt(files, k, i))
    && VersionArchived(files, k, slot.version)
  }

  const NO_SLOT := Slot(None, "", None)

  lemma FilesOfOneMore(files: seq<ChunkFile>, k: ChunkKey)
    requires files != []
    ensures var n := |files| - 1;
            && (forall i :: BodyAt(files[..n], k, i) <==> i != n && BodyAt(files, k, i))
            && (forall i :: VersionAt(files[..n], k, i) <==> i != n && VersionAt(files, k, i))
  {
  }

  lemma BodyOfOneMore(files: seq<ChunkFile>, k: ChunkKey, contentType: Option<string>, body: Bytes)
    requires files != []
    ensures var n := |files| - 1;
            if BodyAt(files, k, n) then BodyArchived(files, k, files[n].contentType, files[n].body)
            else BodyArchived(files[..n], k, contentType, body) ==> BodyArchived(files, k, contentType, body)
  {
    var n := |files| - 1;
    FilesOfOneMore(files, k);
    if BodyAt(files, k, n) {
      assert LastBody(files, k, n);
    } else if BodyArchived(files[..n], k, contentType, body) {
      var i :| LastBody(files[..n], k, i) && files[..n][i].contentType == contentType && files[..n][i].body == body;
      assert LastBody(files, k, i);
    }
  }

  lemma VersionOfOneMore(files: seq<ChunkFile>, k: ChunkKey, version: Option<nat>)
    requires files != []
    ensures var n := |files| - 1;
            if VersionAt(files, k, n) then VersionArchived(files, k, files[n].version)
            else VersionArchived(files[..n], k, version) ==> VersionArchived(files, k, version)
  {
    var n := |files| - 1;
    FilesOfOneMore(files, k);
    if VersionAt(files, k, n) {
      assert LastVersion(files, k, n);
    } else if VersionArchived(files[..n], k, version) && version.Some? {
      var i :| LastVersion(files[..n], k, i) && files[..n][i].version == version;
      assert LastVersion(files, k, i);
    }
  }

  function SlotIn(slots: Slots, k: ChunkKey): Slot {
    if k in slots then slots[k] else NO_SLOT
  }

  /** A chunk of the Collection is staged as its files have it; of other Collections nothing changes. */
  lemma {:induction false} SlotsAsArchived(slots: Slots, cid: Cid, files: seq<ChunkFile>, k: ChunkKey)
    ensures k.parent.cid != cid ==> SlotIn(SlotsOf(slots, cid, files), k) == SlotIn(slots, k)
    ensures k.parent.cid == cid && k !in slots ==> SlotArchived(files, k, SlotIn(SlotsOf(slots, cid, files), k))
  {
    if files != [] {
      var n := |files| - 1;
      SlotsAsArchived(slots, cid, files[..n], k);
      if k.parent.cid == cid && k !in slots {
        var was, slot := SlotIn(SlotsOf(slots, cid, files[..n]), k), SlotIn(SlotsOf(slots, cid, files), k);
        assert FileOf(files, k, n) <==> k == ChunkKey(ResourceKey(cid, files[n].rid), files[n].index);
        FilesOfOneMore(files, k);
        BodyOfOneMore(files, k, was.contentType, was.body);
        VersionOfOneMore(files, k, was.version);
        assert slot.contentType == if BodyAt(files, k, n) then files[n].contentType else was.contentType;
      }
    }
  }

  lemma {:induction false} NotStagedYet(collections: seq<ArchivedCollection>, k: ChunkKey)
    requires k.parent.cid !in Cids(collections)
    ensures k !in AllSlots(collections)
  {
    if collections != [] {
      var n := |collections| - 1;
      CidsOfOneMore(collections);
      NotStagedYet(collections[..n], k);
      OtherKeysStay(AllSlots(collections[..n]), collections[n].cid, collections[n].chunkFiles, k);
    }
  }

  lemma {:induction false} OtherKeysStay(slots: Slots, cid: Cid, files: seq<ChunkFile>, k: ChunkKey)
    requires k.parent.cid != cid
    ensures k in SlotsOf(slots, cid, files) <==> k in slots
  {
    if files != [] { OtherKeysStay(slots, cid, files[..|files| - 1], k); }
  }

  /** Every chunk is staged as the files of its Collection have it: with the bytes and media type of its last
      representation and the version of its last sidecar. */
  lemma {:induction false} AllSlotsAsArchived(collections: Plan, c: ArchivedCollection, k: ChunkKey)
    requires c in collections && k.parent.cid == c.cid
    ensures SlotArchived(c.chunkFiles, k, SlotIn(AllSlots(collections), k))
    decreases |collections|
  {
    var n := |collections| - 1;
    var last, rest := collections[n], collections[..n];
    PrefixOfPlan(collections, n);
    SlotsAsArchived(AllSlots(rest), last.cid, last.chunkFiles, k);
    if last.cid == k.parent.cid {
      NotStagedYet(rest, k);
      assert collections == rest + [last];
      assert c != last ==> c.cid in Cids(rest);
    } else {
      assert collections == rest + [last];
      AllSlotsAsArchived(rest, c, k);
    }
  }

  /** The archive has a representation of the chunk. */
  ghost predicate Represented(collections: seq<ArchivedCollection>, k: ChunkKey) {
    exists c, i :: c in collections && c.cid == k.parent.cid && BodyAt(c.chunkFiles, k, i)
  }

  /** So a chunk is staged with a body exactly when the archive has a representation of it. */
  lemma StagedIffRepresented(collections: Plan, k: ChunkKey)
    ensures HasBody(AllSlots(collections), k) <==> Represented(collections, k)
  {
    if k.parent.cid in Cids(collections) {
      var c :| c in collections && c.cid == k.parent.cid;
      AllSlotsAsArchived(collections, c, k);
      if Represented(collections, k) {
        var d, i :| d in collections && d.cid == k.parent.cid && BodyAt(d.chunkFiles, k, i);
        AllSlotsAsArchived(collections, d, k);
      }
    } else {
      NotStagedYet(collections, k);
      assert forall c :: c in collections ==> c.cid in Cids(collections);
    }
  }

  function EntryOf(slots: Slots, k: ChunkKey): ChunkEntry
    requires HasBody(slots, k)
  {
    ChunkEntry(k, slots[k].contentType.value, slots[k].body, slots[k].version)
  }

  predicate Distinct(entries: seq<ChunkEntry>) {
    forall i, j :: 0 <= i < j < |entries| ==> entries[i].key != entries[j].key
  }

  /** The entries are the staged chunks, each once. */
  ghost predicate EntriesOf(slots: Slots, entries: seq<ChunkEntry>) {
    && Distinct(entries)
    && (forall k :: HasBody(slots, k) ==> EntryOf(slots, k) in entries)
    && (forall e :: e in entries ==> HasBody(slots, e.key) && e == EntryOf(slots, e.key))
  }

  function EntryBodies(entries: seq<ChunkEntry>): seq<Bytes> {
    seq(|entries|, i requires 0 <= i < |entries| => entries[i].body)
  }

  ghost function BodySizes(slots: Slots): map<ChunkKey, nat> {
    map k | k in slots && slots[k].contentType.Some? :: |slots[k].body|
  }

  /** All bytes of chunk representations that the archive stages. */
  ghost function StagedChunkBytes(slots: Slots): nat {
    Total(BodySizes(slots))
  }

  predicate ChunkTooLarge(max: Option<nat>, slots: Slots) {
    exists k :: k in slots && slots[k].contentType.Some? && TooLarge(max, slots[k].body)
  }

  function EntryKeys(entries: seq<ChunkEntry>): set<ChunkKey> {
    set e | e in entries :: e.key
  }

  lemma LastEntry(entries: seq<ChunkEntry>)
    requires entries != [] && Distinct(entries)
    ensures var n := |entries| - 1;
            && Distinct(entries[..n]) && entries[n].key !in EntryKeys(entries[..n])
            && EntryKeys(entries) == EntryKeys(entries[..n]) + {entries[n].key}
            && BytesOf(EntryBodies(entries)) == BytesOf(EntryBodies(entries[..n])) + |entries[n].body|
  {
    var n := |entries| - 1;
    assert entries == entries[..n] + [entries[n]];
    assert EntryBodies(entries)[..n] == EntryBodies(entries[..n]);
  }

  /** However the entries are ordered, their bytes add up to the same. */
  lemma {:induction false} EntriesSum(entries: seq<ChunkEntry>, sizes: map<ChunkKey, nat>)
    requires Distinct(entries) && sizes.Keys == EntryKeys(entries)
    requires forall e :: e in entries ==> sizes[e.key] == |e.body|
    ensures Total(sizes) == BytesOf(EntryBodies(entries))
    decreases |entries|
  {
    if entries == [] {
      assert sizes == map[];
    } else {
      var n := |entries| - 1;
      LastEntry(entries);
      assert entries[n] in entries && forall e :: e in entries[..n] ==> e in entries;
      EntriesSum(entries[..n], sizes - {entries[n].key});
      TotalRemove(sizes, entries[n].key);
    }
  }

  /** So are their sizes, one by one. */
  lemma EntriesAreStaged(slots: Slots, entries: seq<ChunkEntry>, max: Option<nat>)
    requires EntriesOf(slots, entries)
    ensures BytesOf(EntryBodies(entries)) == StagedChunkBytes(slots)
    ensures AnyTooLarge(max, EntryBodies(entries)) <==> ChunkTooLarge(max, slots)
  {
    forall k | k in BodySizes(slots) ensures k in EntryKeys(entries) {
      assert HasBody(slots, k) && EntryOf(slots, k) in entries;
    }
    assert BodySizes(slots).Keys == EntryKeys(entries);
    EntriesSum(entries, BodySizes(slots));
    if AnyTooLarge(max, EntryBodies(entries)) {
      var i :| 0 <= i < |entries| && TooLarge(max, EntryBodies(entries)[i]);
      assert entries[i] in entries && entries[i].key in slots;
    }
    if ChunkTooLarge(max, slots) {
      var k :| k in slots && slots[k].contentType.Some? && TooLarge(max, slots[k].body);
      assert HasBody(slots, k) && EntryOf(slots, k) in entries;
      var i :| 0 <= i < |entries| && entries[i] == EntryOf(slots, k);
      assert TooLarge(max, EntryBodies(entries)[i]);
    }
  }

  lemma EntriesArchived(collections: Plan, entries: seq<ChunkEntry>)
    requires EntriesOf(AllSlots(collections), entries)
    ensures forall e :: e in entries ==>
              exists c :: c in collections && c.cid == e.key.parent.cid &&
                          SlotArchived(c.chunkFiles, e.key, Slot(Some(e.contentType), e.body, e.version))
    ensures forall k :: Represented(collections, k) <==> exists e :: e in entries && e.key == k
  {
    forall e | e in entries
      ensures exists c :: c in collections && c.cid == e.key.parent.cid &&
                          SlotArchived(c.chunkFiles, e.key, Slot(Some(e.contentType), e.body, e.version))
    {
      StagedIffRepresented(collections, e.key);
      var c, i :| c in collections && c.cid == e.key.parent.cid && BodyAt(c.chunkFiles, e.key, i);
      AllSlotsAsArchived(collections, c, e.key);
    }
    forall k ensures Represented(collections, k) <==> exists e :: e in entries && e.key == k {
      StagedIffRepresented(collections, k);
      if Represented(collections, k) { assert EntryOf(AllSlots(collections), k) in entries; }
    }
  }

  /** One row per chunk with a representation, from the last of its representations and the last of its sidecars; a
      sidecar alone is no chunk. */
  method MergeChunkEntries(collections: Plan) returns (merged: seq<ChunkEntry>)
    ensures EntriesOf(AllSlots(collections), merged)
    ensures forall e :: e in merged ==>
              exists c :: c in collections && c.cid == e.key.parent.cid &&
                          SlotArchived(c.chunkFiles, e.key, Slot(Some(e.contentType), e.body, e.version))
    ensures forall k :: Represented(collections, k) <==> exists e :: e in merged && e.key == k
  {
    var staged := StageChunks(collections);
    merged := [];
    var todo := staged.Keys;
    while todo != {}
      invariant todo <= staged.Keys && Distinct(merged)
      invariant forall e :: e in merged ==> e.key !in todo && HasBody(staged, e.key) && e == EntryOf(staged, e.key)
      invariant forall k :: HasBody(staged, k) && k !in todo ==> EntryOf(staged, k) in merged
      decreases |todo|
    {
      var k :| k in todo;
      if staged[k].contentType.Some? {
        assert forall i :: 0 <= i < |merged| ==> merged[i] in merged;
        merged := merged + [EntryOf(staged, k)];
      }
      todo := todo - {k};
    }
    EntriesArchived(collections, merged);
  }

  method StageChunks(collections: seq<ArchivedCollection>) returns (staged: Slots)
    ensures staged == AllSlots(collections)
  {
    staged := map[];
    for i := 0 to |collections|
      invariant staged == AllSlots(collections[..i])
    {
      ghost var before := staged;
      var files := collections[i].chunkFiles;
      for j := 0 to |files|
        invariant staged == SlotsOf(before, collections[i].cid, files[..j])
      {
        staged := SlotAfter(staged, collections[i].cid, files[j]);
        assert files[..j + 1][..j] == files[..j];
      }
      assert files[..|files|] == files && collections[..i + 1][..i] == collections[..i];
    }
    assert collections[..|collections|] == collections;
  }

  // ---------- applying the plan ----------

  /** The state of the transaction: the rows as they will commit, and the running totals. */
  datatype Work = Work(space: Space, stats: R.Stats, collectionRows: nat, liveResources: nat, createdBytes: nat)

  /** What the quota checks and the skip decisions go by, the running total of live Resources included. */
  function WorkView(w: Work): View {
    View(w.space.collections.Keys, DescribedIds(w.space), w.space.resources.Keys, w.liveResources, w.space.policies)
  }

  /** The running totals are those of the rows. */
  predicate Counted(w: Work) {
    w.collectionRows == |w.space.collections.Keys| && w.liveResources == |LiveRows(w.space.resources)|
  }

  /** Part of an import: a merge of consistent rows, its bytes and its new rows counted. */
  ghost predicate Grew(json: iset<string>, w: Work, w': Work) {
    && Merged(w.space, w'.space)
    && (Consistent(json, w.space) ==> Consistent(json, w'.space))
    && (Counted(w) ==> Counted(w'))
    && StoredBytes(w'.space) - w'.createdBytes == StoredBytes(w.space) - w.createdBytes && w.createdBytes <= w'.createdBytes
    && Tallied(w, w')
  }

  /** Rows and descriptions created are those that are new. */
  predicate Tallied(w: Work, w': Work) {
    && |w'.space.resources| - w'.stats.resourcesCreated == |w.space.resources| - w.stats.resourcesCreated
    && |DescribedIds(w'.space)| - w'.stats.collectionsCreated == |DescribedIds(w.space)| - w.stats.collectionsCreated
  }

  lemma GrewTransitive(json: iset<string>, u: Work, v: Work, w: Work)
    requires Grew(json, u, v) && Grew(json, v, w)
    ensures Grew(json, u, w)
  {
    MergedTransitive(u.space, v.space, w.space);
  }

  lemma RowSizes(s: Space, k: ResourceKey, row: ResourceRow)
    requires k !in s.resources
    ensures StoredBytes(s.(resources := s.resources[k := row])) == StoredBytes(s) + row.sizeBytes
  {
    TotalUpdate(ResourceSizes(s.resources), k, row.sizeBytes);
    assert ResourceSizes(s.resources[k := row]) == ResourceSizes(s.resources)[k := row.sizeBytes];
  }

  lemma RowCounts(resources: Resources, k: ResourceKey, row: ResourceRow)
    requires k !in resources
    ensures |resources[k := row]| == |resources| + 1
  {
    assert resources[k := row].Keys == resources.Keys + {k};
  }

  lemma LiveRowCounts(resources: Resources, k: ResourceKey, row: ResourceRow)
    requires k !in resources
    ensures |LiveRows(resources[k := row])| == |LiveRows(resources)| + if row.deleted then 0 else 1
  {
    assert LiveRows(resources[k := row]) == if row.deleted then LiveRows(resources) else LiveRows(resources) + {k};
  }

  lemma RowAdded(json: iset<string>, s: Space, k: ResourceKey, row: ResourceRow)
    requires k !in s.resources && RowConsistent(json, row)
    ensures var t := s.(resources := s.resources[k := row]);
            Merged(s, t) && (Consistent(json, s) ==> Consistent(json, t))
  {
  }

  lemma ChunkAdded(json: iset<string>, s: Space, k: ChunkKey, row: ChunkRow)
    requires k !in s.chunks && ChunkConsistent(row)
    ensures var t := s.(chunks := s.chunks[k := row]);
            Merged(s, t) && (Consistent(json, s) ==> Consistent(json, t)) && StoredBytes(t) == StoredBytes(s) + row.size
  {
    TotalUpdate(ChunkSizes(s.chunks), k, row.size);
    assert ChunkSizes(s.chunks[k := row]) == ChunkSizes(s.chunks)[k := row.size];
  }

  /** A policy of something new. */
  lemma PolicyAdded(s: Space, k: PolicyKey, policy: string)
    requires !Governed(ViewOf(s), k)
    ensures Merged(s, s.(policies := s.policies[k := policy]))
  {
  }

  // ---------- Resources ----------

  const NO_SIDECAR := Sidecar(None, None, None, None, None, None, None, false, None)

  function RowOf(setting: Setting, contentType: string, body: Option<Bytes>, c: Option<Sidecar>): ResourceRow {
    var sidecar := c.GetOr(NO_SIDECAR);
    ResourceRow(contentType, body, contentType in setting.json, if body.Some? then |body.value| else 0, sidecar.version.GetOr(1),
                sidecar.metaVersion, sidecar.custom, body.None?, sidecar.createdAt.GetOr(setting.now), sidecar.updatedAt.GetOr(setting.now),
                sidecar.createdBy, sidecar.epoch)
  }

  function ImportedRow(setting: Setting, c: ArchivedCollection, r: ArchivedResource): ResourceRow {
    RowOf(setting, r.contentType, Some(r.body), Lookup(c.sidecars, r.rid))
  }

  function TombstoneRow(setting: Setting, sidecar: Sidecar): ResourceRow {
    RowOf(setting, sidecar.contentType.GetOr("application/octet-stream"), None, Some(sidecar))
  }

  /** The row an archived Collection prescribes for an id it holds: its first representation, else its tombstone. */
  ghost predicate Prescribes(setting: Setting, c: ArchivedCollection, rid: Rid, row: ResourceRow) {
    var first := FirstOf(c.resources, rid);
    if first.Some? then row == ImportedRow(setting, c, first.value)
    else rid in BuriedRids(c) && row == TombstoneRow(setting, c.sidecars[rid])
  }

  function Created(w: Work, k: ResourceKey, row: ResourceRow): Work {
    w.(space := w.space.(resources := w.space.resources[k := row]), createdBytes := w.createdBytes + row.sizeBytes,
       liveResources := w.liveResources + (if row.deleted then 0 else 1),
       stats := w.stats.(resourcesCreated := w.stats.resourcesCreated + 1))
  }

  function WithPolicy(w: Work, k: PolicyKey, policy: string): Work {
    w.(space := w.space.(policies := w.space.policies[k := policy]),
       stats := w.stats.(policiesCreated := w.stats.policiesCreated + 1))
  }

  function Skipped(w: Work, resource: bool, policy: bool): Work {
    w.(stats := w.stats.(resourcesSkipped := w.stats.resourcesSkipped + (if resource then 1 else 0),
                         policiesSkipped := w.stats.policiesSkipped + (if policy then 1 else 0)))
  }

  lemma CreatedGrows(json: iset<string>, w: Work, k: ResourceKey, row: ResourceRow)
    requires k !in w.space.resources && RowConsistent(json, row)
    ensures Grew(json, w, Created(w, k, row))
  {
    RowAdded(json, w.space, k, row);
    RowSizes(w.space, k, row);
    RowCounts(w.space.resources, k, row);
    LiveRowCounts(w.space.resources, k, row);
  }

  /** A new row and the policy that comes with it. */
  lemma CreatedWithPolicyGrows(json: iset<string>, w: Work, k: ResourceKey, row: ResourceRow, policy: string)
    requires k !in w.space.resources && RowConsistent(json, row)
    ensures Grew(json, w, WithPolicy(Created(w, k, row), OfResource(k), policy))
  {
    CreatedGrows(json, w, k, row);
    var policed := w.space.(policies := w.space.policies[OfResource(k) := policy]);
    PolicyAdded(w.space, OfResource(k), policy);
    RowAdded(json, policed, k, row);
    MergedTransitive(w.space, policed, policed.(resources := policed.resources[k := row]));
  }

  /** What one pass of an import leaves alone: description rows and chunks. */
  predicate OnlyResources(w: Work, w': Work) {
    w'.space.collections == w.space.collections && w'.space.chunks == w.space.chunks
  }

  function CreatedResource(setting: Setting, c: ArchivedCollection, r: ArchivedResource, w: Work): Work {
    var k := ResourceKey(c.cid, r.rid);
    var created := Created(w, k, ImportedRow(setting, c, r));
    if r.rid in c.resourcePolicies then WithPolicy(created, OfResource(k), c.resourcePolicies[r.rid]) else created
  }

  lemma CreatedResourceGrows(setting: Setting, c: ArchivedCollection, r: ArchivedResource, w: Work)
    requires ResourceKey(c.cid, r.rid) !in w.space.resources
    ensures Grew(setting.json, w, CreatedResource(setting, c, r, w))
  {
    var k := ResourceKey(c.cid, r.rid);
    if r.rid in c.resourcePolicies {
      CreatedWithPolicyGrows(setting.json, w, k, ImportedRow(setting, c, r), c.resourcePolicies[r.rid]);
    } else {
      CreatedGrows(setting.json, w, k, ImportedRow(setting, c, r));
    }
  }

  lemma CreatedResourceView(setting: Setting, c: ArchivedCollection, r: ArchivedResource, w: Work)
    requires ResourceKey(c.cid, r.rid) !in w.space.resources
    ensures WorkView(CreatedResource(setting, c, r, w)) == WithNewResource(c, r.rid, WorkView(w))
  {
    var next := CreatedResource(setting, c, r, w);
    assert next.space.resources.Keys == w.space.resources.Keys + {ResourceKey(c.cid, r.rid)};
  }

  /** A Resource the destination has under its id, live or tombstone, is skipped with its policy. */
  method ImportResource(setting: Setting, c: ArchivedCollection, r: ArchivedResource, w: Work) returns (res: Result<Work, Refusal>)
    ensures if ResourceKey(c.cid, r.rid) in w.space.resources then res == Ok(Skipped(w, true, r.rid in c.resourcePolicies))
            else if AtCap(setting.limits.maxResources, w.liveResources) then res == Err(TooManyResources)
            else res == Ok(CreatedResource(setting, c, r, w))
  {
    var k := ResourceKey(c.cid, r.rid);
    if k in w.space.resources {
      return Ok(Skipped(w, true, r.rid in c.resourcePolicies));
    }
    if setting.limits.maxResources.Some? && w.liveResources >= setting.limits.maxResources.value {
      return Err(TooManyResources);
    }
    var next := Created(w, k, ImportedRow(setting, c, r));
    if r.rid in c.resourcePolicies {
      next := WithPolicy(next, OfResource(k), c.resourcePolicies[r.rid]);
    }
    return Ok(next);
  }

  lemma SkippedGrows(json: iset<string>, w: Work, resource: bool, policy: bool)
    ensures Grew(json, w, Skipped(w, resource, policy)) && WorkView(Skipped(w, resource, policy)) == WorkView(w)
  {
  }

  /** Every row new in `after` is for one of the first `n` representations, the first for its id. */
  ghost predicate RowsUpTo(setting: Setting, c: ArchivedCollection, n: nat, before: Resources, after: Resources)
    requires n <= |c.resources|
  {
    forall k :: k in after && k !in before ==>
      var first := FirstOf(c.resources[..n], k.rid);
      k.cid == c.cid && first.Some? && after[k] == ImportedRow(setting, c, first.value)
  }

  lemma RowsUpToNext(setting: Setting, c: ArchivedCollection, i: nat, before: Resources, mid: Resources)
    requires i < |c.resources| && RowsUpTo(setting, c, i, before, mid)
    requires forall rid :: rid in RidsOf(c.resources[..i]) ==> ResourceKey(c.cid, rid) in mid
    ensures var r := c.resources[i];
            var k := ResourceKey(c.cid, r.rid);
            RowsUpTo(setting, c, i + 1, before, if k in mid then mid else mid[k := ImportedRow(setting, c, r)])
  {
    RidsOfOneMore(c.resources, i);
    FirstOfIsThere(c.resources[..i], c.resources[i].rid);
  }

  /** The state after the first `i` representations. */
  ghost predicate ResourcesGoneThrough(setting: Setting, c: ArchivedCollection, i: nat, w: Work, next: Work)
    requires i <= |c.resources|
  {
    var rids := RidsOf(c.resources[..i]);
    && Grew(setting.json, w, next) && OnlyResources(w, next) && next.createdBytes <= w.createdBytes + BodyBytes(c.resources[..i])
    && WorkView(next) == WithResources(c, rids, WorkView(w)) && !ResourcesExceeded(setting.limits, c.cid, rids, WorkView(w))
    && RowsUpTo(setting, c, i, w.space.resources, next.space.resources)
    && next.stats == R.ResourcesStats(c, c.resources[..i], WorkView(w), w.stats)
  }

  lemma NothingGrows(json: iset<string>, w: Work)
    ensures Grew(json, w, w)
  {
  }

  lemma NoneGoneThrough(setting: Setting, c: ArchivedCollection, w: Work)
    ensures ResourcesGoneThrough(setting, c, 0, w, w)
  {
    NoResources(setting.limits, c, WorkView(w));
    NothingGrows(setting.json, w);
    assert c.resources[..0] == [] && RidsOf([]) == {} && R.ResourcesStats(c, [], WorkView(w), w.stats) == w.stats;
  }

  lemma AllGoneThrough(setting: Setting, c: ArchivedCollection, w: Work, next: Work)
    requires ResourcesGoneThrough(setting, c, |c.resources|, w, next)
    ensures WorkView(next) == WithResources(c, RidsOf(c.resources), WorkView(w))
    ensures !ResourcesExceeded(setting.limits, c.cid, RidsOf(c.resources), WorkView(w))
    ensures next.createdBytes <= w.createdBytes + BodyBytes(c.resources)
    ensures next.stats == R.ResourcesStats(c, c.resources, WorkView(w), w.stats)
  {
    WholeOf(c.resources);
  }

  /** One representation more, skipped or created. */
  lemma OneMoreGoneThrough(setting: Setting, c: ArchivedCollection, i: nat, w: Work, next: Work, after: Work)
    requires i < |c.resources| && ResourcesGoneThrough(setting, c, i, w, next)
    requires Grew(setting.json, next, after) && OnlyResources(next, after)
    requires WorkView(after) == WithResources(c, {c.resources[i].rid}, WorkView(next))
    requires !ResourcesExceeded(setting.limits, c.cid, {c.resources[i].rid}, WorkView(next))
    requires after.createdBytes <= next.createdBytes + |c.resources[i].body|
    requires RowsUpTo(setting, c, i + 1, w.space.resources, after.space.resources)
    requires after.stats == R.ResourceStats(c, c.resources[i], WorkView(next), next.stats)
    ensures ResourcesGoneThrough(setting, c, i + 1, w, after)
  {
    R.StatsOfOneMore(c, i, WorkView(w), w.stats);
    RidsOfOneMore(c.resources, i);
    MoreResources(setting.limits, c, RidsOf(c.resources[..i]), {c.resources[i].rid}, WorkView(w));
    GrewTransitive(setting.json, w, next, after);
  }

  lemma NextExceeds(setting: Setting, c: ArchivedCollection, i: nat, w: Work, next: Work)
    requires i < |c.resources| && ResourcesGoneThrough(setting, c, i, w, next)
    requires ResourcesExceeded(setting.limits, c.cid, {c.resources[i].rid}, WorkView(next))
    ensures ResourcesExceeded(setting.limits, c.cid, RidsOf(c.resources), WorkView(w))
  {
    RidsOfOneMore(c.resources, i);
    MoreResources(setting.limits, c, RidsOf(c.resources[..i]), {c.resources[i].rid}, WorkView(w));
    RidsUpTo(c.resources, i + 1);
    ExceededStays(setting.limits, c.cid, RidsOf(c.resources[..i + 1]), RidsOf(c.resources[i + 1..]), WorkView(w));
  }

  lemma RowsAfterNext(setting: Setting, c: ArchivedCollection, i: nat, w: Work, next: Work)
    requires i < |c.resources| && ResourcesGoneThrough(setting, c, i, w, next)
    ensures var r := c.resources[i];
            var k := ResourceKey(c.cid, r.rid);
            RowsUpTo(setting, c, i + 1, w.space.resources,
                     if k in next.space.resources then next.space.resources else next.space.resources[k := ImportedRow(setting, c, r)])
  {
    var rids := RidsOf(c.resources[..i]);
    assert WorkView(next).held == w.space.resources.Keys + KeysOf(c.cid, rids);
    assert forall rid :: rid in rids ==> ResourceKey(c.cid, rid) in KeysOf(c.cid, rids);
    RowsUpToNext(setting, c, i, w.space.resources, next.space.resources);
  }

  /** What skipping or creating one representation does to what the checks go by and to the numbers. */
  ghost predicate ResourceStep(setting: Setting, c: ArchivedCollection, r: ArchivedResource, next: Work, after: Work) {
    && Grew(setting.json, next, after) && OnlyResources(next, after)
    && WorkView(after) == WithResources(c, {r.rid}, WorkView(next)) && !ResourcesExceeded(setting.limits, c.cid, {r.rid}, WorkView(next))
    && after.createdBytes <= next.createdBytes + |r.body|
    && after.stats == R.ResourceStats(c, r, WorkView(next), next.stats)
  }

  lemma SkippedStep(setting: Setting, c: ArchivedCollection, r: ArchivedResource, next: Work)
    requires ResourceKey(c.cid, r.rid) in next.space.resources
    ensures ResourceStep(setting, c, r, next, Skipped(next, true, r.rid in c.resourcePolicies))
  {
    SkippedGrows(setting.json, next, true, r.rid in c.resourcePolicies);
    OneResource(setting.limits, c, r.rid, WorkView(next));
  }

  lemma CreatedStats(setting: Setting, c: ArchivedCollection, r: ArchivedResource, next: Work)
    requires ResourceKey(c.cid, r.rid) !in next.space.resources
    ensures CreatedResource(setting, c, r, next).stats == R.ResourceStats(c, r, WorkView(next), next.stats)
    ensures CreatedResource(setting, c, r, next).createdBytes == next.createdBytes + |r.body|
    ensures OnlyResources(next, CreatedResource(setting, c, r, next))
  {
  }

  lemma CreatedStep(setting: Setting, c: ArchivedCollection, r: ArchivedResource, next: Work, after: Work)
    requires ResourceKey(c.cid, r.rid) !in next.space.resources && !AtCap(setting.limits.maxResources, next.liveResources)
    requires after == CreatedResource(setting, c, r, next)
    ensures ResourceStep(setting, c, r, next, after)
  {
    CreatedStats(setting, c, r, next);
    CreatedResourceGrows(setting, c, r, next);
    CreatedResourceView(setting, c, r, next);
    OneResource(setting.limits, c, r.rid, WorkView(next));
  }

  lemma NextGoneThrough(setting: Setting, c: ArchivedCollection, i: nat, w: Work, next: Work, after: Work)
    requires i < |c.resources| && ResourcesGoneThrough(setting, c, i, w, next) && ResourceStep(setting, c, c.resources[i], next, after)
    requires var k := ResourceKey(c.cid, c.resources[i].rid);
             after.space.resources == if k in next.space.resources then next.space.resources
                                      else next.space.resources[k := ImportedRow(setting, c, c.resources[i])]
    ensures ResourcesGoneThrough(setting, c, i + 1, w, after)
  {
    RowsAfterNext(setting, c, i, w, next);
    OneMoreGoneThrough(setting, c, i, w, next, after);
  }

  lemma NextRefused(setting: Setting, c: ArchivedCollection, i: nat, w: Work, next: Work)
    requires i < |c.resources| && ResourcesGoneThrough(setting, c, i, w, next)
    requires ResourceKey(c.cid, c.resources[i].rid) !in next.space.resources && AtCap(setting.limits.maxResources, next.liveResources)
    ensures ResourcesExceeded(setting.limits, c.cid, RidsOf(c.resources), WorkView(w))
  {
    OneResource(setting.limits, c, c.resources[i].rid, WorkView(next));
    NextExceeds(setting, c, i, w, next);
  }

  lemma NextStep(setting: Setting, c: ArchivedCollection, i: nat, w: Work, next: Work, after: Work)
    requires i < |c.resources| && ResourcesGoneThrough(setting, c, i, w, next)
    requires var r := c.resources[i];
             if ResourceKey(c.cid, r.rid) in next.space.resources then after == Skipped(next, true, r.rid in c.resourcePolicies)
             else !AtCap(setting.limits.maxResources, next.liveResources) && after == CreatedResource(setting, c, r, next)
    ensures ResourcesGoneThrough(setting, c, i + 1, w, after)
  {
    if ResourceKey(c.cid, c.resources[i].rid) in next.space.resources {
      SkippedStep(setting, c, c.resources[i], next);
    } else {
      CreatedStep(setting, c, c.resources[i], next, after);
    }
    NextGoneThrough(setting, c, i, w, next, after);
  }

  method ImportNext(setting: Setting, c: ArchivedCollection, i: nat, ghost w: Work, next: Work) returns (res: Result<Work, Refusal>)
    requires i < |c.resources| && ResourcesGoneThrough(setting, c, i, w, next)
    ensures res.Ok? ==> ResourcesGoneThrough(setting, c, i + 1, w, res.value)
    ensures res.Err? ==> res.error == TooManyResources && ResourcesExceeded(setting.limits, c.cid, RidsOf(c.resources), WorkView(w))
  {
    res := ImportResource(setting, c, c.resources[i], next);
    if res.Err? {
      NextRefused(setting, c, i, w, next);
    } else {
      NextStep(setting, c, i, w, next, res.value);
    }
  }

  method ImportResources(setting: Setting, c: ArchivedCollection, w: Work) returns (res: Result<Work, Refusal>)
    ensures if ResourcesExceeded(setting.limits, c.cid, RidsOf(c.resources), WorkView(w)) then res == Err(TooManyResources)
            else res.Ok? && ResourcesGoneThrough(setting, c, |c.resources|, w, res.value)
  {
    var next := w;
    NoneGoneThrough(setting, c, w);
    for i := 0 to |c.resources|
      invariant ResourcesGoneThrough(setting, c, i, w, next)
    {
      var step := ImportNext(setting, c, i, w, next);
      if step.Err? {
        return step;
      }
      next := step.value;
    }
    AllGoneThrough(setting, c, w, next);
    return Ok(next);
  }

  // ---------- tombstones ----------

  ghost predicate TombstonesFrom(setting: Setting, c: ArchivedCollection, before: Resources, after: Resources) {
    forall k :: k in after && k !in before ==>
      k.cid == c.cid && k.rid in BuriedRids(c) && k.rid !in RidsOf(c.resources) && after[k] == TombstoneRow(setting, c.sidecars[k.rid])
  }

  /** The state after some of the sidecars that are tombstones. */
  ghost predicate BuriedUpTo(setting: Setting, c: ArchivedCollection, done: set<Rid>, w: Work, next: Work) {
    && Grew(setting.json, w, next) && OnlyResources(w, next) && next.createdBytes == w.createdBytes
    && next.space.resources.Keys == w.space.resources.Keys + KeysOf(c.cid, done)
    && next.liveResources == w.liveResources && next.space.policies == w.space.policies
    && TombstonesFrom(setting, c, w.space.resources, next.space.resources)
    && TombstonesCounted(c, done, w, next)
  }

  ghost predicate TombstonesCounted(c: ArchivedCollection, done: set<Rid>, w: Work, next: Work) {
    next.stats == R.TombstonesStats(c, done - RidsOf(c.resources), WorkView(w), w.stats)
  }

  lemma BuriedView(setting: Setting, c: ArchivedCollection, w: Work, next: Work)
    requires BuriedUpTo(setting, c, BuriedRids(c), w, next)
    ensures WorkView(next) == WithTombstones(c, WorkView(w))
  {
  }

  lemma KeysOfOneMore(cid: Cid, done: set<Rid>, rid: Rid, before: Resources, mid: Resources, row: ResourceRow)
    requires mid.Keys == before.Keys + KeysOf(cid, done)
    ensures var k := ResourceKey(cid, rid);
            (if k in mid then mid else mid[k := row]).Keys == before.Keys + KeysOf(cid, done + {rid})
  {
    KeysOfUnion(cid, done, {rid});
    OneKey(cid, rid);
  }

  lemma TombstoneRowsGrow(setting: Setting, c: ArchivedCollection, rid: Rid, before: Resources, mid: Resources, after: Resources)
    requires TombstonesFrom(setting, c, before, mid) && rid in BuriedRids(c) && rid !in RidsOf(c.resources)
    requires after == mid[ResourceKey(c.cid, rid) := TombstoneRow(setting, c.sidecars[rid])]
    ensures TombstonesFrom(setting, c, before, after)
  {
  }

  /** The numbers after one tombstone more. */
  lemma BuriedStats(setting: Setting, c: ArchivedCollection, rid: Rid, done: set<Rid>, w: Work, next: Work)
    requires BuriedUpTo(setting, c, done, w, next) && rid !in done
    ensures var after := R.TombstonesStats(c, (done + {rid}) - RidsOf(c.resources), WorkView(w), w.stats);
            after == if rid in RidsOf(c.resources) then next.stats
                     else if ResourceKey(c.cid, rid) in next.space.resources then R.SkippedResource(false, next.stats)
                     else R.CreatedResource(false, next.stats)
  {
    var imported := RidsOf(c.resources);
    if rid in imported {
      assert (done + {rid}) - imported == done - imported;
    } else {
      assert (done + {rid}) - imported == (done - imported) + {rid};
      R.OneMoreTombstone(c, done - imported, rid, WorkView(w), w.stats);
    }
  }

  lemma OneMoreBuried(setting: Setting, c: ArchivedCollection, rid: Rid, done: set<Rid>, w: Work, next: Work)
    requires BuriedUpTo(setting, c, done, w, next) && rid in BuriedRids(c) && rid !in RidsOf(c.resources) && rid !in done
    requires ResourceKey(c.cid, rid) !in next.space.resources
    ensures BuriedUpTo(setting, c, done + {rid}, w, Created(next, ResourceKey(c.cid, rid), TombstoneRow(setting, c.sidecars[rid])))
  {
    var k, row := ResourceKey(c.cid, rid), TombstoneRow(setting, c.sidecars[rid]);
    var after := Created(next, k, row);
    KeysOfOneMore(c.cid, done, rid, w.space.resources, next.space.resources, row);
    CreatedGrows(setting.json, next, k, row);
    GrewTransitive(setting.json, w, next, after);
    TombstoneRowsGrow(setting, c, rid, w.space.resources, next.space.resources, after.space.resources);
    BuriedStats(setting, c, rid, done, w, next);
  }

  lemma ImportedIsBuried(setting: Setting, c: ArchivedCollection, rid: Rid, done: set<Rid>, w: Work, next: Work)
    requires BuriedUpTo(setting, c, done, w, next) && ResourceKey(c.cid, rid) in next.space.resources
    requires rid in RidsOf(c.resources) && rid !in done
    ensures BuriedUpTo(setting, c, done + {rid}, w, next)
  {
    KeysOfOneMore(c.cid, done, rid, w.space.resources, next.space.resources, TombstoneRow(setting, NO_SIDECAR));
    BuriedStats(setting, c, rid, done, w, next);
  }

  lemma HeldIsBuried(setting: Setting, c: ArchivedCollection, rid: Rid, done: set<Rid>, w: Work, next: Work)
    requires BuriedUpTo(setting, c, done, w, next) && ResourceKey(c.cid, rid) in next.space.resources
    requires rid !in RidsOf(c.resources) && rid !in done
    ensures BuriedUpTo(setting, c, done + {rid}, w, Skipped(next, true, false))
  {
    KeysOfOneMore(c.cid, done, rid, w.space.resources, next.space.resources, TombstoneRow(setting, NO_SIDECAR));
    SkippedGrows(setting.json, next, true, false);
    GrewTransitive(setting.json, w, next, Skipped(next, true, false));
    BuriedStats(setting, c, rid, done, w, next);
  }

  method ImportTombstone(setting: Setting, c: ArchivedCollection, rid: Rid, w: Work) returns (next: Work)
    requires rid in BuriedRids(c)
    ensures var k := ResourceKey(c.cid, rid);
            next == if k in w.space.resources then Skipped(w, true, false) else Created(w, k, TombstoneRow(setting, c.sidecars[rid]))
  {
    var k := ResourceKey(c.cid, rid);
    if k in w.space.resources {
      return Skipped(w, true, false);
    }
    return Created(w, k, TombstoneRow(setting, c.sidecars[rid]));
  }

  ghost predicate BuriedExcept(setting: Setting, c: ArchivedCollection, todo: set<Rid>, w: Work, next: Work) {
    BuriedUpTo(setting, c, BuriedRids(c) - todo, w, next)
  }

  lemma NoneBuried(setting: Setting, c: ArchivedCollection, w: Work)
    ensures BuriedExcept(setting, c, BuriedRids(c), w, w)
  {
    OneKey(c.cid, "");
    assert BuriedRids(c) - BuriedRids(c) == {} && {} - RidsOf(c.resources) == {};
  }

  lemma AllBuried(setting: Setting, c: ArchivedCollection, w: Work, next: Work)
    requires BuriedExcept(setting, c, {}, w, next)
    ensures BuriedUpTo(setting, c, BuriedRids(c), w, next)
  {
    assert BuriedRids(c) - {} == BuriedRids(c);
  }

  /** Tombstones without a representation in the archive are carried over, and block nothing already there. */
  method ImportTombstones(setting: Setting, c: ArchivedCollection, w: Work) returns (next: Work)
    requires KeysOf(c.cid, RidsOf(c.resources)) <= w.space.resources.Keys
    ensures BuriedExcept(setting, c, {}, w, next)
  {
    next := w;
    var imported := RidsOf(c.resources);
    var todo := BuriedRids(c);
    NoneBuried(setting, c, w);
    while todo != {}
      invariant todo <= BuriedRids(c) && BuriedExcept(setting, c, todo, w, next)
      decreases |todo|
    {
      var rid :| rid in todo;
      var rest := todo - {rid};
      assert |rest| < |todo|;
      next := ImportOneTombstone(setting, c, imported, rid, todo, w, next);
      todo := rest;
    }
  }

  method ImportOneTombstone(setting: Setting, c: ArchivedCollection, imported: set<Rid>, rid: Rid, ghost todo: set<Rid>, ghost w: Work, next: Work)
    returns (after: Work)
    requires rid in todo && todo <= BuriedRids(c) && imported == RidsOf(c.resources)
    requires KeysOf(c.cid, RidsOf(c.resources)) <= w.space.resources.Keys && BuriedExcept(setting, c, todo, w, next)
    ensures BuriedExcept(setting, c, todo - {rid}, w, after)
  {
    ghost var done := BuriedRids(c) - todo;
    OneLess(BuriedRids(c), todo, rid);
    if rid in imported {
      HeldRid(setting, c, rid, done, w, next);
      ImportedIsBuried(setting, c, rid, done, w, next);
      return next;
    }
    after := ImportTombstone(setting, c, rid, next);
    if ResourceKey(c.cid, rid) in next.space.resources {
      HeldIsBuried(setting, c, rid, done, w, next);
    } else {
      OneMoreBuried(setting, c, rid, done, w, next);
    }
  }

  lemma HeldRid(setting: Setting, c: ArchivedCollection, rid: Rid, done: set<Rid>, w: Work, next: Work)
    requires KeysOf(c.cid, RidsOf(c.resources)) <= w.space.resources.Keys && BuriedUpTo(setting, c, done, w, next)
    ensures rid in RidsOf(c.resources) ==> ResourceKey(c.cid, rid) in next.space.resources
  {
    assert rid in RidsOf(c.resources) ==> ResourceKey(c.cid, rid) in KeysOf(c.cid, RidsOf(c.resources));
  }

  // ---------- Collections ----------

  function Upserted(prior: Option<CollectionRow>, c: ArchivedCollection): CollectionRow {
    CollectionRow(Some(c.description),
                  if c.metadata.Some? then c.metadata else if prior.Some? then prior.value.metadata else None)
  }

  function WithRow(w: Work, c: ArchivedCollection): Work {
    w.(space := w.space.(collections := w.space.collections[c.cid := Upserted(Lookup(w.space.collections, c.cid), c)]),
       collectionRows := w.collectionRows + (if c.cid in w.space.collections then 0 else 1),
       stats := w.stats.(collectionsCreated := w.stats.collectionsCreated + 1))
  }

  function DescribedWork(w: Work, c: ArchivedCollection): Work {
    if c.policy.Some? then WithPolicy(WithRow(w, c), OfCollection(c.cid), c.policy.value) else WithRow(w, c)
  }

  function SkippedCollection(w: Work, c: ArchivedCollection): Work {
    w.(stats := w.stats.(collectionsSkipped := w.stats.collectionsSkipped + 1,
                         policiesSkipped := w.stats.policiesSkipped + (if c.policy.Some? then 1 else 0)))
  }

  lemma RowMerges(w: Work, c: ArchivedCollection)
    requires !Described(w.space, c.cid)
    ensures Merged(w.space, WithRow(w, c).space)
  {
  }

  lemma OneMoreKey<T>(keys: set<T>, k: T)
    ensures |keys + {k}| == |keys| + if k in keys then 0 else 1
  {
    if k in keys { assert keys + {k} == keys; }
  }

  lemma RowKeys(w: Work, c: ArchivedCollection)
    requires !Described(w.space, c.cid)
    ensures WithRow(w, c).space.collections.Keys == w.space.collections.Keys + {c.cid}
    ensures DescribedIds(WithRow(w, c).space) == DescribedIds(w.space) + {c.cid} && c.cid !in DescribedIds(w.space)
  {
    var next := WithRow(w, c).space;
    forall d ensures d in DescribedIds(next) <==> d in DescribedIds(w.space) || d == c.cid {
      assert d in DescribedIds(next) <==> d in next.collections && next.collections[d].description.Some?;
    }
  }

  lemma RowGrows(json: iset<string>, w: Work, c: ArchivedCollection)
    requires !Described(w.space, c.cid)
    ensures Grew(json, w, WithRow(w, c))
  {
    RowMerges(w, c);
    RowKeys(w, c);
    OneMoreKey(w.space.collections.Keys, c.cid);
    OneMoreKey(DescribedIds(w.space), c.cid);
  }

  lemma DescribedWorkGrows(json: iset<string>, w: Work, c: ArchivedCollection)
    requires !Described(w.space, c.cid)
    ensures Grew(json, w, DescribedWork(w, c))
  {
    RowGrows(json, w, c);
    if c.policy.Some? {
      var policed := w.(space := w.space.(policies := w.space.policies[OfCollection(c.cid) := c.policy.value]));
      PolicyAdded(w.space, OfCollection(c.cid), c.policy.value);
      RowMerges(policed, c);
      MergedTransitive(w.space, policed.space, WithRow(policed, c).space);
    }
  }

  lemma DescribedWorkView(w: Work, c: ArchivedCollection)
    requires !Described(w.space, c.cid)
    ensures WorkView(DescribedWork(w, c)) == WithDescription(c, WorkView(w))
  {
    var next := DescribedWork(w, c);
    assert next.space.collections.Keys == w.space.collections.Keys + {c.cid};
    assert DescribedIds(next.space) == DescribedIds(w.space) + {c.cid};
  }

  lemma SkippedCollectionView(json: iset<string>, w: Work, c: ArchivedCollection)
    requires Described(w.space, c.cid)
    ensures Grew(json, w, SkippedCollection(w, c))
    ensures WorkView(SkippedCollection(w, c)) == WorkView(w) == WithDescription(c, WorkView(w))
  {
  }

  /** A described Collection keeps its description, metadata and policy; otherwise the archive's come in together,
      the policy even over one left without a described Collection. */
  method ImportDescription(limits: Limits, c: ArchivedCollection, w: Work) returns (res: Result<Work, Refusal>)
    ensures if Described(w.space, c.cid) then res == Ok(SkippedCollection(w, c))
            else if c.cid !in w.space.collections && AtCap(limits.maxCollections, w.collectionRows) then res == Err(TooManyCollections)
            else res == Ok(DescribedWork(w, c))
  {
    if Described(w.space, c.cid) {
      return Ok(SkippedCollection(w, c));
    }
    var isNewRow := c.cid !in w.space.collections;
    if limits.maxCollections.Some? && isNewRow && w.collectionRows >= limits.maxCollections.value {
      return Err(TooManyCollections);
    }
    var row := Upserted(if isNewRow then None else Some(w.space.collections[c.cid]), c);
    var next := w.(space := w.space.(collections := w.space.collections[c.cid := row]),
                   collectionRows := w.collectionRows + (if isNewRow then 1 else 0),
                   stats := w.stats.(collectionsCreated := w.stats.collectionsCreated + 1));
    if c.policy.Some? {
      next := WithPolicy(next, OfCollection(c.cid), c.policy.value);
    }
    return Ok(next);
  }

  /** Every row new in `after` is one the archived Collection prescribes. */
  ghost predicate RowsFrom(setting: Setting, c: ArchivedCollection, before: Resources, after: Resources) {
    forall k :: k in after && k !in before ==> k.cid == c.cid && Prescribes(setting, c, k.rid, after[k])
  }

  /** A Collection of the archive gone through. */
  ghost predicate CollectionImported(setting: Setting, c: ArchivedCollection, w: Work, next: Work) {
    && Grew(setting.json, w, next) && next.space.chunks == w.space.chunks
    && next.createdBytes <= w.createdBytes + BodyBytes(c.resources)
    && WorkView(next) == WithCollection(c, WorkView(w)) && RowsFrom(setting, c, w.space.resources, next.space.resources)
    && DescriptionFrom(c, w.space, next.space)
    && next.stats == R.CollectionStats(c, WorkView(w), w.stats)
  }

  /** A description the destination lacked is the archive's, and so is its metadata if the archive has any. */
  ghost predicate DescriptionFrom(c: ArchivedCollection, before: Space, after: Space) {
    !Described(before, c.cid) ==>
      && c.cid in after.collections && after.collections[c.cid].description == Some(c.description)
      && after.collections[c.cid].metadata ==
         if c.metadata.Some? then c.metadata
         else if c.cid in before.collections then before.collections[c.cid].metadata
         else None
  }

  lemma RowsByPasses(setting: Setting, c: ArchivedCollection, before: Resources, filled: Resources, after: Resources)
    requires RowsUpTo(setting, c, |c.resources|, before, filled) && TombstonesFrom(setting, c, filled, after) && Kept(filled, after)
    ensures RowsFrom(setting, c, before, after)
  {
    assert c.resources[..|c.resources|] == c.resources;
    forall k | k in after && k !in before ensures k.cid == c.cid && Prescribes(setting, c, k.rid, after[k]) {
      FirstOfIsThere(c.resources, k.rid);
      if k in filled { assert after[k] == filled[k]; }
    }
  }

  /** A Collection described, its Resources still to come. */
  ghost predicate CollectionDescribed(setting: Setting, c: ArchivedCollection, w: Work, next: Work) {
    && Grew(setting.json, w, next) && WorkView(next) == WithDescription(c, WorkView(w))
    && next.space.resources == w.space.resources && next.space.chunks == w.space.chunks && next.createdBytes == w.createdBytes
    && DescriptionFrom(c, w.space, next.space)
    && next.stats == R.DescriptionStats(c, WorkView(w), w.stats)
  }

  lemma StatsByPasses(setting: Setting, c: ArchivedCollection, w: Work, described: Work, filled: Work, next: Work)
    requires WorkView(described) == WithDescription(c, WorkView(w)) && described.stats == R.DescriptionStats(c, WorkView(w), w.stats)
    requires WorkView(filled) == WithResources(c, RidsOf(c.resources), WorkView(described))
    requires filled.stats == R.ResourcesStats(c, c.resources, WorkView(described), described.stats)
    requires next.stats == R.TombstonesStats(c, BuriedRids(c) - RidsOf(c.resources), WorkView(filled), filled.stats)
    ensures next.stats == R.CollectionStats(c, WorkView(w), w.stats)
  {
  }

  lemma GrownByPasses(setting: Setting, c: ArchivedCollection, w: Work, described: Work, filled: Work, next: Work)
    requires CollectionDescribed(setting, c, w, described)
    requires ResourcesGoneThrough(setting, c, |c.resources|, described, filled)
    requires BuriedUpTo(setting, c, BuriedRids(c), filled, next)
    ensures Grew(setting.json, w, next) && DescriptionFrom(c, w.space, next.space)
  {
    GrewTransitive(setting.json, w, described, filled);
    GrewTransitive(setting.json, w, filled, next);
  }

  lemma CollectionByPasses(setting: Setting, c: ArchivedCollection, w: Work, described: Work, filled: Work, next: Work)
    requires CollectionDescribed(setting, c, w, described)
    requires ResourcesGoneThrough(setting, c, |c.resources|, described, filled)
    requires BuriedUpTo(setting, c, BuriedRids(c), filled, next)
    ensures CollectionImported(setting, c, w, next)
  {
    AllGoneThrough(setting, c, described, filled);
    BuriedView(setting, c, filled, next);
    RowsByPasses(setting, c, w.space.resources, filled.space.resources, next.space.resources);
    GrownByPasses(setting, c, w, described, filled, next);
    StatsByPasses(setting, c, w, described, filled, next);
  }

  lemma DescribedStats(c: ArchivedCollection, w: Work)
    ensures (if Described(w.space, c.cid) then SkippedCollection(w, c) else DescribedWork(w, c)).stats == R.DescriptionStats(c, WorkView(w), w.stats)
  {
    assert Described(w.space, c.cid) <==> c.cid in DescribedIds(w.space);
  }

  lemma DescribedWorkIsDescribed(setting: Setting, c: ArchivedCollection, w: Work)
    ensures CollectionDescribed(setting, c, w, if Described(w.space, c.cid) then SkippedCollection(w, c) else DescribedWork(w, c))
  {
    DescribedStats(c, w);
    if Described(w.space, c.cid) {
      SkippedCollectionView(setting.json, w, c);
    } else {
      DescribedWorkGrows(setting.json, w, c);
      DescribedWorkView(w, c);
    }
  }

  lemma RowsExceededIff(limits: Limits, c: ArchivedCollection, w: Work)
    requires Counted(w)
    ensures RowsExceeded(limits, c, WorkView(w)) <==>
            !Described(w.space, c.cid) && c.cid !in w.space.collections && AtCap(limits.maxCollections, w.collectionRows)
  {
    assert Described(w.space, c.cid) <==> c.cid in DescribedIds(w.space);
  }

  lemma RefusalAfterDescription(setting: Setting, c: ArchivedCollection, w: Work, described: Work)
    requires CollectionDescribed(setting, c, w, described) && !RowsExceeded(setting.limits, c, WorkView(w))
    ensures CollectionRefusal(setting.limits, c, WorkView(w)) ==
            if ResourcesExceeded(setting.limits, c.cid, RidsOf(c.resources), WorkView(described)) then Some(TooManyResources) else None
  {
  }

  lemma FilledHolds(setting: Setting, c: ArchivedCollection, w: Work, filled: Work)
    requires ResourcesGoneThrough(setting, c, |c.resources|, w, filled)
    ensures KeysOf(c.cid, RidsOf(c.resources)) <= filled.space.resources.Keys
  {
    AllGoneThrough(setting, c, w, filled);
    assert WorkView(filled).held == WorkView(w).held + KeysOf(c.cid, RidsOf(c.resources));
  }

  method DescribeCollection(setting: Setting, c: ArchivedCollection, w: Work) returns (res: Result<Work, Refusal>)
    requires Counted(w)
    ensures if RowsExceeded(setting.limits, c, WorkView(w)) then res == Err(TooManyCollections)
            else res.Ok? && CollectionDescribed(setting, c, w, res.value)
  {
    RowsExceededIff(setting.limits, c, w);
    DescribedWorkIsDescribed(setting, c, w);
    res := ImportDescription(setting.limits, c, w);
  }

  method FillCollection(setting: Setting, c: ArchivedCollection, ghost w: Work, described: Work) returns (res: Result<Work, Refusal>)
    requires CollectionDescribed(setting, c, w, described)
    ensures if ResourcesExceeded(setting.limits, c.cid, RidsOf(c.resources), WorkView(described)) then res == Err(TooManyResources)
            else res.Ok? && CollectionImported(setting, c, w, res.value)
  {
    var filled := ImportResources(setting, c, described);
    if filled.Err? {
      return filled;
    }
    FilledHolds(setting, c, described, filled.value);
    var next := ImportTombstones(setting, c, filled.value);
    AllBuried(setting, c, filled.value, next);
    CollectionByPasses(setting, c, w, described, filled.value, next);
    return Ok(next);
  }

  method ImportCollection(setting: Setting, c: ArchivedCollection, w: Work) returns (res: Result<Work, Refusal>)
    requires Counted(w)
    ensures var refusal := CollectionRefusal(setting.limits, c, WorkView(w));
            if refusal.Some? then res == Err(refusal.value) else res.Ok? && CollectionImported(setting, c, w, res.value)
  {
    var described := DescribeCollection(setting, c, w);
    if described.Err? {
      return described;
    }
    RefusalAfterDescription(setting, c, w, described.value);
    res := FillCollection(setting, c, w, described.value);
  }

  ghost predicate RowsFromAny(setting: Setting, collections: seq<ArchivedCollection>, before: Resources, after: Resources) {
    forall k :: k in after && k !in before ==> exists c :: c in collections && k.cid == c.cid && Prescribes(setting, c, k.rid, after[k])
  }

  lemma RowsFromAnyGrows(setting: Setting, collections: seq<ArchivedCollection>, c: ArchivedCollection, base: Resources, mid: Resources, after: Resources)
    requires RowsFromAny(setting, collections, base, mid) && Kept(mid, after) && RowsFrom(setting, c, mid, after)
    ensures RowsFromAny(setting, collections + [c], base, after)
  {
    forall k | k in after && k !in base
      ensures exists x :: x in collections + [c] && k.cid == x.cid && Prescribes(setting, x, k.rid, after[k])
    {
      if k in mid {
        var x :| x in collections && k.cid == x.cid && Prescribes(setting, x, k.rid, mid[k]);
        assert x in collections + [c];
      } else {
        assert c in collections + [c];
      }
    }
  }

  /** The state after the first `n` Collections of the plan. */
  ghost predicate PlanGoneThrough(setting: Setting, collections: seq<ArchivedCollection>, n: nat, w: Work, next: Work)
    requires n <= |collections|
  {
    && Grew(setting.json, w, next) && next.space.chunks == w.space.chunks
    && next.createdBytes <= w.createdBytes + CollectionBytes(collections[..n], false)
    && WorkView(next) == ViewAfter(collections[..n], WorkView(w)) && CountRefusal(setting.limits, collections[..n], WorkView(w)).None?
    && RowsFromAny(setting, collections[..n], w.space.resources, next.space.resources)
    && DescriptionsFrom(collections[..n], w.space, next.space)
    && next.stats == R.StatsAfter(collections[..n], WorkView(w), w.stats)
  }

  ghost predicate DescriptionsFrom(collections: seq<ArchivedCollection>, before: Space, after: Space) {
    forall c :: c in collections ==> DescriptionFrom(c, before, after)
  }

  lemma BytesOfOneMore(collections: seq<ArchivedCollection>, i: nat)
    requires i < |collections|
    ensures CollectionBytes(collections[..i + 1], false) == CollectionBytes(collections[..i], false) + BodyBytes(collections[i].resources)
  {
    assert collections[..i + 1][..i] == collections[..i];
  }

  lemma RowsOfOneMore(setting: Setting, collections: seq<ArchivedCollection>, i: nat, w: Work, next: Work, after: Work)
    requires i < |collections| && Grew(setting.json, next, after)
    requires RowsFromAny(setting, collections[..i], w.space.resources, next.space.resources)
    requires RowsFrom(setting, collections[i], next.space.resources, after.space.resources)
    ensures RowsFromAny(setting, collections[..i + 1], w.space.resources, after.space.resources)
  {
    RowsFromAnyGrows(setting, collections[..i], collections[i], w.space.resources, next.space.resources, after.space.resources);
    assert collections[..i + 1] == collections[..i] + [collections[i]];
  }

  lemma DescriptionsGrow(collections: Plan, i: nat, before: Space, mid: Space, after: Space)
    requires i < |collections| && Merged(before, mid) && Merged(mid, after) && DescriptionFrom(collections[i], mid, after)
    requires mid.collections.Keys == before.collections.Keys + Cids(collections[..i])
    requires DescribedIds(mid) == DescribedIds(before) + Cids(collections[..i])
    requires DescriptionsFrom(collections[..i], before, mid)
    ensures DescriptionsFrom(collections[..i + 1], before, after)
  {
    assert collections[..i + 1] == collections[..i] + [collections[i]];
    PrefixOfPlan(collections, i);
    var cid := collections[i].cid;
    assert Described(mid, cid) <==> cid in DescribedIds(mid);
    assert Described(before, cid) <==> cid in DescribedIds(before);
    assert Lookup(mid.collections, cid) == if Described(before, cid) then Lookup(mid.collections, cid) else Lookup(before.collections, cid);
    forall c | c in collections[..i] ensures DescriptionFrom(c, before, after) {
      assert DescriptionFrom(c, before, mid);
    }
  }

  lemma OneMoreImported(setting: Setting, collections: Plan, i: nat, w: Work, next: Work, after: Work)
    requires i < |collections| && PlanGoneThrough(setting, collections, i, w, next)
    requires CollectionRefusal(setting.limits, collections[i], WorkView(next)).None? && CollectionImported(setting, collections[i], next, after)
    ensures PlanGoneThrough(setting, collections, i + 1, w, after)
  {
    OneMoreView(setting.limits, collections, i, WorkView(w), WorkView(next), WorkView(after));
    GrewTransitive(setting.json, w, next, after);
    RowsOfOneMore(setting, collections, i, w, next, after);
    BytesOfOneMore(collections, i);
    R.StatsOfOneMoreCollection(collections, i, WorkView(w), w.stats);
    MergedIds(collections[..i], WorkView(w));
    DescriptionsGrow(collections, i, w.space, next.space, after.space);
  }

  lemma RefusalStands(setting: Setting, collections: seq<ArchivedCollection>, i: nat, w: Work, next: Work)
    requires i < |collections| && PlanGoneThrough(setting, collections, i, w, next)
    requires CollectionRefusal(setting.limits, collections[i], WorkView(next)).Some?
    ensures CountRefusal(setting.limits, collections, WorkView(w)) == CollectionRefusal(setting.limits, collections[i], WorkView(next))
  {
    ViewOfOneMore(setting.limits, collections, WorkView(w), i);
    FirstCountStands(setting.limits, collections, WorkView(w), i + 1);
  }

  method ImportCollections(setting: Setting, collections: Plan, w: Work) returns (res: Result<Work, Refusal>)
    requires Counted(w)
    ensures var refusal := CountRefusal(setting.limits, collections, WorkView(w));
            if refusal.Some? then res == Err(refusal.value)
            else res.Ok? && PlanGoneThrough(setting, collections, |collections|, w, res.value)
  {
    var next := w;
    for i := 0 to |collections|
      invariant PlanGoneThrough(setting, collections, i, w, next)
    {
      var step := ImportCollection(setting, collections[i], next);
      if step.Err? {
        RefusalStands(setting, collections, i, w, next);
        return step;
      }
      OneMoreImported(setting, collections, i, w, next, step.value);
      next := step.value;
    }
    assert collections[..|collections|] == collections;
    return Ok(next);
  }

  // ---------- chunks ----------

  function ChunkRowOf(e: ChunkEntry): ChunkRow {
    ChunkRow(e.contentType, e.body, |e.body|, e.version.GetOr(1))
  }

  /** A chunk goes in under a live parent, once. */
  predicate ChunkGoesIn(s: Space, k: ChunkKey) {
    Live(s, k.parent) && k !in s.chunks
  }

  /** INSERT ... ON CONFLICT DO NOTHING: a chunk already there adds no row and no bytes. */
  function InsertChunk(e: ChunkEntry, w: Work): Work {
    if e.key in w.space.chunks then w
    else w.(space := w.space.(chunks := w.space.chunks[e.key := ChunkRowOf(e)]), createdBytes := w.createdBytes + |e.body|)
  }

  /** The state after the first `n` entries. */
  ghost predicate ChunksGoneThrough(setting: Setting, entries: seq<ChunkEntry>, n: nat, w: Work, next: Work)
    requires n <= |entries|
  {
    && Grew(setting.json, w, next) && next.createdBytes <= w.createdBytes + BytesOf(EntryBodies(entries[..n]))
    && next == w.(space := w.space.(chunks := next.space.chunks), createdBytes := next.createdBytes)
    && ChunkRowsUpTo(entries[..n], w.space, next.space.chunks)
  }

  ghost predicate ChunkRowsUpTo(entries: seq<ChunkEntry>, start: Space, chunks: Chunks) {
    && (forall k :: k in chunks <==> k in start.chunks || (k in EntryKeys(entries) && Live(start, k.parent)))
    && (forall e :: e in entries && ChunkGoesIn(start, e.key) ==> Lookup(chunks, e.key) == Some(ChunkRowOf(e)))
  }

  lemma EntriesOfOneMore(entries: seq<ChunkEntry>, i: nat)
    requires i < |entries|
    ensures EntryKeys(entries[..i + 1]) == EntryKeys(entries[..i]) + {entries[i].key}
    ensures BytesOf(EntryBodies(entries[..i + 1])) == BytesOf(EntryBodies(entries[..i])) + |entries[i].body|
    ensures forall e :: e in entries[..i + 1] <==> e in entries[..i] || e == entries[i]
  {
    assert entries[..i + 1] == entries[..i] + [entries[i]];
    assert EntryBodies(entries[..i + 1])[..i] == EntryBodies(entries[..i]);
  }

  lemma InsertedGrows(json: iset<string>, e: ChunkEntry, w: Work)
    ensures Grew(json, w, InsertChunk(e, w))
  {
    if e.key !in w.space.chunks {
      ChunkAdded(json, w.space, e.key, ChunkRowOf(e));
    }
  }

  lemma KeyIsNew(entries: seq<ChunkEntry>, i: nat)
    requires i < |entries| && Distinct(entries)
    ensures entries[i].key !in EntryKeys(entries[..i])
  {
  }

  lemma ChunkRowsNext(entries: seq<ChunkEntry>, i: nat, start: Space, chunks: Chunks)
    requires i < |entries| && Distinct(entries) && ChunkRowsUpTo(entries[..i], start, chunks)
    ensures var e := entries[i];
            ChunkRowsUpTo(entries[..i + 1], start,
                          if Live(start, e.key.parent) && e.key !in chunks then chunks[e.key := ChunkRowOf(e)] else chunks)
  {
    EntriesOfOneMore(entries, i);
    KeyIsNew(entries, i);
  }

  lemma OneMoreChunk(setting: Setting, entries: seq<ChunkEntry>, i: nat, w: Work, next: Work)
    requires i < |entries| && Distinct(entries) && ChunksGoneThrough(setting, entries, i, w, next)
    ensures ChunksGoneThrough(setting, entries, i + 1, w, if Live(w.space, entries[i].key.parent) then InsertChunk(entries[i], next) else next)
  {
    EntriesOfOneMore(entries, i);
    ChunkRowsNext(entries, i, w.space, next.space.chunks);
    if Live(w.space, entries[i].key.parent) {
      InsertedGrows(setting.json, entries[i], next);
      GrewTransitive(setting.json, w, next, InsertChunk(entries[i], next));
    }
  }

  lemma NoChunksYet(setting: Setting, entries: seq<ChunkEntry>, w: Work)
    ensures ChunksGoneThrough(setting, entries, 0, w, w)
  {
  }

  method ImportChunks(setting: Setting, entries: seq<ChunkEntry>, w: Work) returns (next: Work)
    requires Distinct(entries)
    ensures ChunksGoneThrough(setting, entries, |entries|, w, next)
  {
    next := w;
    NoChunksYet(setting, entries, w);
    var parentLive: map<ResourceKey, bool> := map[];
    for i := 0 to |entries|
      invariant forall k :: k in parentLive ==> parentLive[k] == Live(w.space, k)
      invariant ChunksGoneThrough(setting, entries, i, w, next)
    {
      OneMoreChunk(setting, entries, i, w, next);
      var e := entries[i];
      if e.key.parent !in parentLive {
        parentLive := parentLive[e.key.parent := Live(next.space, e.key.parent)];
      }
      if parentLive[e.key.parent] {
        next := InsertChunk(e, next);
      }
    }
  }

  /** New chunks are the staged ones under what is live afterwards. */
  ghost predicate StagedImported(slots: Slots, before: Chunks, after: Space) {
    && (forall k :: k in after.chunks <==> k in before || (HasBody(slots, k) && Live(after, k.parent)))
    && (forall k :: k in after.chunks && k !in before ==> HasBody(slots, k) && after.chunks[k] == ChunkRowOf(EntryOf(slots, k)))
  }

  /** A row as the files of its Collection have the chunk: the bytes and media type of the last representation, the
      version of the last sidecar, or 1 where no sidecar has one. */
  ghost predicate RowArchived(files: seq<ChunkFile>, k: ChunkKey, row: ChunkRow) {
    && BodyArchived(files, k, Some(row.contentType), row.bytes) && row.size == |row.bytes|
    && (VersionArchived(files, k, Some(row.version)) || (row.version == 1 && VersionArchived(files, k, None)))
  }

  /** New chunks are exactly those the archive represents under what is live afterwards, each as the archive has it. */
  ghost predicate ChunksImported(collections: seq<ArchivedCollection>, before: Chunks, after: Space) {
    && (forall k :: k in after.chunks <==> k in before || (Represented(collections, k) && Live(after, k.parent)))
    && (forall k :: k in after.chunks && k !in before ==>
          exists c :: c in collections && c.cid == k.parent.cid && RowArchived(c.chunkFiles, k, after.chunks[k]))
  }

  lemma ImportedAsArchived(collections: Plan, before: Chunks, after: Space)
    requires StagedImported(AllSlots(collections), before, after)
    ensures ChunksImported(collections, before, after)
  {
    forall k ensures HasBody(AllSlots(collections), k) <==> Represented(collections, k) {
      StagedIffRepresented(collections, k);
    }
    forall k | k in after.chunks && k !in before
      ensures exists c :: c in collections && c.cid == k.parent.cid && RowArchived(c.chunkFiles, k, after.chunks[k])
    {
      StagedIffRepresented(collections, k);
      var c, i :| c in collections && c.cid == k.parent.cid && BodyAt(c.chunkFiles, k, i);
      AllSlotsAsArchived(collections, c, k);
      assert RowArchived(c.chunkFiles, k, after.chunks[k]);
    }
  }

  lemma ChunksByEntries(setting: Setting, slots: Slots, entries: seq<ChunkEntry>, w: Work, next: Work)
    requires EntriesOf(slots, entries) && ChunksGoneThrough(setting, entries, |entries|, w, next)
    ensures StagedImported(slots, w.space.chunks, next.space) && WorkView(next) == WorkView(w) && next.space.resources == w.space.resources
    ensures next.createdBytes <= w.createdBytes + StagedChunkBytes(slots) && next.space == w.space.(chunks := next.space.chunks)
    ensures Grew(setting.json, w, next)
  {
    assert entries[..|entries|] == entries;
    EntriesAreStaged(slots, entries, None);
    forall k ensures k in EntryKeys(entries) <==> HasBody(slots, k) {
      if HasBody(slots, k) { assert EntryOf(slots, k) in entries; }
    }
    forall k | k in next.space.chunks && k !in w.space.chunks ensures HasBody(slots, k) && next.space.chunks[k] == ChunkRowOf(EntryOf(slots, k)) {
      assert EntryOf(slots, k) in entries && ChunkGoesIn(w.space, k);
    }
  }

  // ---------- the import ----------

  /** Why an import is refused, if it is: the first offending body, then the bytes of all bodies against the
      capacity, those to be skipped included, then the first count quota met. */
  ghost function Verdict(limits: Limits, rejects: Rejects, s: Space, usage: int, archive: Archive): Option<Refusal> {
    var slots := AllSlots(archive.collections);
    var offence := PlanOffence(limits.maxUpload, rejects, Descriptions(s), archive.collections, false);
    if offence.Some? then offence
    else if ChunkTooLarge(limits.maxUpload, slots) then Some(PayloadTooLarge)
    else if limits.capacity.Some? && usage + StagedBytes(archive) > limits.capacity.value then Some(QuotaExceeded)
    else CountRefusal(limits, archive.collections, WithSpacePolicy(archive.spacePolicy, ViewOf(s)))
  }

  ghost function StagedBytes(archive: Archive): nat {
    CollectionBytes(archive.collections, false) + StagedChunkBytes(AllSlots(archive.collections))
  }

  /** A merge of consistent rows, its bytes and its new rows counted, and reported as every import reports. */
  ghost predicate ImportCounted(setting: Setting, archive: Archive, before: Space, after: Space, stats: R.Stats, createdBytes: int) {
    && Merged(before, after) && (Consistent(setting.json, before) ==> Consistent(setting.json, after))
    && StoredBytes(after) == StoredBytes(before) + createdBytes && 0 <= createdBytes <= StagedBytes(archive)
    && |after.resources| == |before.resources| + stats.resourcesCreated
    && |DescribedIds(after)| == |DescribedIds(before)| + stats.collectionsCreated
    && stats == R.Report(archive, ViewOf(before))
  }

  /** What a row has of the sidecar archived for its id, if there is one; without a version it starts at 1. */
  predicate SidecarRow(setting: Setting, sidecar: Option<Sidecar>, row: ResourceRow) {
    if sidecar.None? then
      && row.version == 1 && row.metaVersion.None? && row.custom.None? && row.createdBy.None? && row.epoch.None?
      && row.createdAt == setting.now && row.updatedAt == setting.now
    else
      var m := sidecar.value;
      && row.version == (if m.version.Some? then m.version.value else 1) && row.metaVersion == m.metaVersion
      && row.custom == m.custom && row.createdBy == m.createdBy && row.epoch == m.epoch
      && row.createdAt == (if m.createdAt.Some? then m.createdAt.value else setting.now)
      && row.updatedAt == (if m.updatedAt.Some? then m.updatedAt.value else setting.now)
  }

  /** A live row has the first representation archived under its id. */
  ghost predicate RepresentationRow(setting: Setting, c: ArchivedCollection, rid: Rid, row: ResourceRow) {
    exists i :: FirstAt(c.resources, rid, i) &&
      !row.deleted && row.content == Some(c.resources[i].body) && row.contentType == c.resources[i].contentType &&
      row.sizeBytes == |c.resources[i].body| && (row.isJson <==> row.contentType in setting.json) &&
      SidecarRow(setting, Lookup(c.sidecars, rid), row)
  }

  /** A tombstone has a sidecar that says so, and no representation. */
  predicate BareRow(setting: Setting, c: ArchivedCollection, rid: Rid, row: ResourceRow) {
    && (forall r :: r in c.resources ==> r.rid != rid) && rid in c.sidecars && c.sidecars[rid].deleted
    && row.deleted && row.content.None? && row.sizeBytes == 0 && (row.isJson <==> row.contentType in setting.json)
    && row.contentType == (if c.sidecars[rid].contentType.Some? then c.sidecars[rid].contentType.value else "application/octet-stream")
    && SidecarRow(setting, Some(c.sidecars[rid]), row)
  }

  /** Every new row is one the archive has for its id, field by field. */
  ghost predicate RowsAsArchived(setting: Setting, collections: seq<ArchivedCollection>, before: Resources, after: Resources) {
    forall k :: k in after && k !in before ==>
      exists c :: c in collections && c.cid == k.cid && (RepresentationRow(setting, c, k.rid, after[k]) || BareRow(setting, c, k.rid, after[k]))
  }

  lemma PrescribedIsArchived(setting: Setting, c: ArchivedCollection, rid: Rid, row: ResourceRow)
    requires Prescribes(setting, c, rid, row)
    ensures RepresentationRow(setting, c, rid, row) || BareRow(setting, c, rid, row)
  {
    FirstOfIsThere(c.resources, rid);
    if FirstOf(c.resources, rid).Some? {
      FirstOfIsFirst(c.resources, rid);
      var i :| FirstAt(c.resources, rid, i) && FirstOf(c.resources, rid) == Some(c.resources[i]);
      assert RepresentationRow(setting, c, rid, row);
    }
  }

  lemma RowsAreArchived(setting: Setting, collections: seq<ArchivedCollection>, before: Resources, after: Resources)
    requires RowsFromAny(setting, collections, before, after)
    ensures RowsAsArchived(setting, collections, before, after)
  {
    forall k | k in after && k !in before
      ensures exists c :: c in collections && c.cid == k.cid && (RepresentationRow(setting, c, k.rid, after[k]) || BareRow(setting, c, k.rid, after[k]))
    {
      var c :| c in collections && k.cid == c.cid && Prescribes(setting, c, k.rid, after[k]);
      PrescribedIsArchived(setting, c, k.rid, after[k]);
    }
  }

  /** Exactly what the archive has and the destination lacks is there, as the archive has it. */
  ghost predicate ImportBrought(setting: Setting, archive: Archive, before: Space, after: Space) {
    && ViewOf(after) == Imported(archive, ViewOf(before))
    && RowsAsArchived(setting, archive.collections, before.resources, after.resources)
    && DescriptionsFrom(archive.collections, before, after)
    && ChunksImported(archive.collections, before.chunks, after)
  }

  ghost predicate ImportDone(setting: Setting, archive: Archive, before: Space, after: Space, stats: R.Stats, createdBytes: int) {
    ImportCounted(setting, archive, before, after, stats, createdBytes) && ImportBrought(setting, archive, before, after)
  }

  function PolicedWork(policy: Option<string>, w: Work): Work {
    if policy.None? then w
    else if OfSpace in w.space.policies then Skipped(w, false, true)
    else WithPolicy(w, OfSpace, policy.value)
  }

  lemma PolicedWorkGrows(setting: Setting, policy: Option<string>, w: Work)
    ensures PolicedWork(policy, w).space == w.space.(policies := PolicedWork(policy, w).space.policies)
    ensures PolicedWork(policy, w).createdBytes == w.createdBytes
    ensures Grew(setting.json, w, PolicedWork(policy, w)) && WorkView(PolicedWork(policy, w)) == WithSpacePolicy(policy, WorkView(w))
  {
    if policy.Some? && OfSpace !in w.space.policies {
      PolicyAdded(w.space, OfSpace, policy.value);
    }
  }

  lemma CountedView(w: Work)
    requires Counted(w)
    ensures WorkView(w) == ViewOf(w.space)
  {
  }

  lemma DoneRows(setting: Setting, collections: Plan, policed: Work, filled: Work, before: Space, after: Space)
    requires PlanGoneThrough(setting, collections, |collections|, policed, filled)
    requires policed.space == before.(policies := policed.space.policies) && after == filled.space.(chunks := after.chunks)
    ensures RowsFromAny(setting, collections, before.resources, after.resources)
    ensures DescriptionsFrom(collections, before, after)
    ensures WorkView(filled) == ViewAfter(collections, WorkView(policed))
    ensures filled.createdBytes <= policed.createdBytes + CollectionBytes(collections, false)
    ensures filled.space.chunks == before.chunks && Grew(setting.json, policed, filled)
  {
    assert collections[..|collections|] == collections;
    forall c | c in collections ensures DescriptionFrom(c, before, after) {
      assert DescriptionFrom(c, policed.space, filled.space);
    }
  }

  lemma DoneView(archive: Archive, w: Work, policed: Work, filled: Work, next: Work)
    requires Counted(w) && Counted(next) && WorkView(policed) == WithSpacePolicy(archive.spacePolicy, WorkView(w))
    requires WorkView(filled) == ViewAfter(archive.collections, WorkView(policed)) && WorkView(next) == WorkView(filled)
    ensures ViewOf(next.space) == Imported(archive, ViewOf(w.space))
  {
    CountedView(w);
    CountedView(next);
  }

  lemma DoneGrown(json: iset<string>, w: Work, policed: Work, filled: Work, next: Work)
    requires Grew(json, w, policed) && Grew(json, policed, filled) && Grew(json, filled, next) && Counted(w) && w.createdBytes == 0 && w.stats == R.NO_STATS
    ensures Merged(w.space, next.space) && (Consistent(json, w.space) ==> Consistent(json, next.space)) && Counted(next)
    ensures StoredBytes(next.space) == StoredBytes(w.space) + next.createdBytes
    ensures Tallied(w, next)
  {
    GrewTransitive(json, w, policed, filled);
    GrewTransitive(json, w, filled, next);
  }

  /** The passes over the archive, from the state the Space policy left. */
  ghost predicate Passes(setting: Setting, archive: Archive, entries: seq<ChunkEntry>, policed: Work, filled: Work, next: Work) {
    && EntriesOf(AllSlots(archive.collections), entries) && policed.createdBytes == 0
    && PlanGoneThrough(setting, archive.collections, |archive.collections|, policed, filled)
    && ChunksGoneThrough(setting, entries, |entries|, filled, next)
  }

  lemma PassesGrow(setting: Setting, archive: Archive, entries: seq<ChunkEntry>, policed: Work, filled: Work, next: Work)
    requires Passes(setting, archive, entries, policed, filled, next)
    ensures Grew(setting.json, policed, filled) && Grew(setting.json, filled, next) && next.createdBytes <= StagedBytes(archive)
  {
    assert archive.collections[..|archive.collections|] == archive.collections;
    ChunksByEntries(setting, AllSlots(archive.collections), entries, filled, next);
  }

  lemma PolicedReport(setting: Setting, policy: Option<string>, w: Work)
    requires Counted(w)
    ensures WorkView(PolicedWork(policy, w)) == WithSpacePolicy(policy, ViewOf(w.space))
    ensures PolicedWork(policy, w).stats == R.SpacePolicyStats(policy, ViewOf(w.space), w.stats)
  {
    PolicedWorkGrows(setting, policy, w);
    CountedView(w);
  }

  lemma PassesReport(setting: Setting, archive: Archive, entries: seq<ChunkEntry>, w: Work, policed: Work, filled: Work, next: Work)
    requires PlanGoneThrough(setting, archive.collections, |archive.collections|, policed, filled) && next.stats == filled.stats
    requires policed == PolicedWork(archive.spacePolicy, w) && Counted(w) && w.stats == R.NO_STATS
    ensures next.stats == R.Report(archive, ViewOf(w.space))
  {
    PolicedReport(setting, archive.spacePolicy, w);
    PlanStats(setting, archive.collections, policed, filled);
  }

  lemma PlanStats(setting: Setting, collections: Plan, policed: Work, filled: Work)
    requires PlanGoneThrough(setting, collections, |collections|, policed, filled)
    ensures filled.stats == R.StatsAfter(collections, WorkView(policed), policed.stats)
  {
    assert collections[..|collections|] == collections;
  }

  lemma CountedByPasses(setting: Setting, archive: Archive, entries: seq<ChunkEntry>, w: Work, policed: Work, filled: Work, next: Work)
    requires Passes(setting, archive, entries, policed, filled, next) && policed == PolicedWork(archive.spacePolicy, w)
    requires Counted(w) && w.createdBytes == 0 && w.stats == R.NO_STATS
    ensures ImportCounted(setting, archive, w.space, next.space, next.stats, next.createdBytes) && Counted(next)
  {
    PolicedWorkGrows(setting, archive.spacePolicy, w);
    PassesGrow(setting, archive, entries, policed, filled, next);
    PassesReport(setting, archive, entries, w, policed, filled, next);
    DoneGrown(setting.json, w, policed, filled, next);
  }

  lemma ChunksBrought(setting: Setting, archive: Archive, entries: seq<ChunkEntry>, before: Space, filled: Work, next: Work)
    requires EntriesOf(AllSlots(archive.collections), entries) && ChunksGoneThrough(setting, entries, |entries|, filled, next)
    requires filled.space.chunks == before.chunks
    ensures ChunksImported(archive.collections, before.chunks, next.space) && WorkView(next) == WorkView(filled)
    ensures next.space == filled.space.(chunks := next.space.chunks)
  {
    ChunksByEntries(setting, AllSlots(archive.collections), entries, filled, next);
    ImportedAsArchived(archive.collections, before.chunks, next.space);
  }

  lemma BroughtByPasses(setting: Setting, archive: Archive, entries: seq<ChunkEntry>, w: Work, policed: Work, filled: Work, next: Work)
    requires Passes(setting, archive, entries, policed, filled, next) && policed == PolicedWork(archive.spacePolicy, w)
    requires Counted(w) && Counted(next)
    ensures ImportBrought(setting, archive, w.space, next.space)
  {
    PolicedWorkGrows(setting, archive.spacePolicy, w);
    assert filled.space.chunks == w.space.chunks;
    ChunksBrought(setting, archive, entries, w.space, filled, next);
    DoneRows(setting, archive.collections, policed, filled, w.space, next.space);
    DoneView(archive, w, policed, filled, next);
    RowsAreArchived(setting, archive.collections, w.space.resources, next.space.resources);
  }

  /** The apply loop: the Space policy, the Collections with their Resources and tombstones, then chunks under the
      rows now there. */
  method Apply(setting: Setting, archive: Archive, entries: seq<ChunkEntry>, w: Work) returns (res: Result<Work, Refusal>)
    requires Counted(w) && w.createdBytes == 0 && w.stats == R.NO_STATS && EntriesOf(AllSlots(archive.collections), entries)
    ensures var refusal := CountRefusal(setting.limits, archive.collections, WithSpacePolicy(archive.spacePolicy, ViewOf(w.space)));
            if refusal.Some? then res == Err(refusal.value) else res.Ok? && ImportDone(setting, archive, w.space, res.value.space, res.value.stats, res.value.createdBytes)
  {
    PolicedWorkGrows(setting, archive.spacePolicy, w);
    CountedView(w);
    var policed := PolicedWork(archive.spacePolicy, w);
    var filled := ImportCollections(setting, archive.collections, policed);
    if filled.Err? {
      return filled;
    }
    var next := ImportChunks(setting, entries, filled.value);
    CountedByPasses(setting, archive, entries, w, policed, filled.value, next);
    BroughtByPasses(setting, archive, entries, w, policed, filled.value, next);
    return Ok(next);
  }

  /** The whole import, in one transaction: it succeeds or is refused exactly as its verdict says. */
  method Import(setting: Setting, rejects: Rejects, archive: Archive, space: Space, usage: int) returns (res: Result<Work, Refusal>)
    ensures (if res.Err? then Some(res.error) else None) == Verdict(setting.limits, rejects, space, usage, archive)
    ensures res.Ok? ==> ImportDone(setting, archive, space, res.value.space, res.value.stats, res.value.createdBytes)
  {
    var entries := MergeChunkEntries(archive.collections);
    EntriesAreStaged(AllSlots(archive.collections), entries, setting.limits.maxUpload);
    var incoming := AssertBodiesFit(setting.limits.maxUpload, rejects, Descriptions(space), archive.collections, false, EntryBodies(entries));
    if incoming.Err? {
      return Err(incoming.error);
    }
    if setting.limits.capacity.Some? && usage + incoming.value > setting.limits.capacity.value {
      return Err(QuotaExceeded);
    }
    res := Apply(setting, archive, entries, Work(space, R.NO_STATS, |space.collections.Keys|, |LiveRows(space.resources)|, 0));
  }

  /** A policy the Space holds changes in an import exactly when what it is for is missing from the Space and the
      archive carries another with it. */
  lemma PolicyChangesIff(setting: Setting, archive: Archive, before: Space, after: Space, k: PolicyKey)
    requires ImportBrought(setting, archive, before, after) && k in before.policies
    ensures k in after.policies
    ensures after.policies[k] != before.policies[k] <==>
            !Governed(ViewOf(before), k) && Carried(archive, k).Some? && Carried(archive, k).value != before.policies[k]
  {
    HeldPolicyChangesIff(archive, ViewOf(before), k);
  }

  // ---------- importing again ----------

  lemma SameDescription(before: Space, after: Space, c: ArchivedCollection)
    requires Merged(before, after) && DescriptionFrom(c, before, after)
    ensures EffectiveDescription(Descriptions(after), c) == EffectiveDescription(Descriptions(before), c)
  {
    assert c.cid in Descriptions(before) <==> Described(before, c.cid);
    assert c.cid in Descriptions(after) <==> Described(after, c.cid);
  }

  lemma SameDescriptions(collections: seq<ArchivedCollection>, before: Space, after: Space)
    requires Merged(before, after) && DescriptionsFrom(collections, before, after)
    ensures forall c :: c in collections ==> EffectiveDescription(Descriptions(after), c) == EffectiveDescription(Descriptions(before), c)
  {
    forall c | c in collections
      ensures EffectiveDescription(Descriptions(after), c) == EffectiveDescription(Descriptions(before), c)
    {
      assert DescriptionFrom(c, before, after);
      SameDescription(before, after, c);
    }
  }

  /** After a finished import the same archive passes every check but one, whatever the quotas on counts: it is
      refused exactly when its staged bytes, all of them to be skipped, do not fit beside what is stored. */
  lemma SecondVerdict(setting: Setting, rejects: Rejects, archive: Archive, before: Space, usage: int, after: Space, usageAfter: int)
    requires Verdict(setting.limits, rejects, before, usage, archive).None?
    requires Merged(before, after) && ImportBrought(setting, archive, before, after)
    ensures Verdict(setting.limits, rejects, after, usageAfter, archive) ==
            if setting.limits.capacity.Some? && usageAfter + StagedBytes(archive) > setting.limits.capacity.value then Some(QuotaExceeded)
            else None
  {
    SameDescriptions(archive.collections, before, after);
    SameOffence(setting.limits.maxUpload, rejects, Descriptions(before), Descriptions(after), archive.collections, false);
    SecondImportIsIdle(setting.limits, archive, ViewOf(before));
  }

  lemma SameResources(once: Space, twice: Space)
    requires Merged(once, twice) && twice.resources.Keys == once.resources.Keys
    ensures twice.resources == once.resources
  {
  }

  lemma SameChunkKeys(collections: seq<ArchivedCollection>, before: Chunks, once: Space, twice: Space)
    requires ChunksImported(collections, before, once) && ChunksImported(collections, once.chunks, twice) && twice.resources == once.resources
    ensures twice.chunks.Keys == once.chunks.Keys
  {
    assert forall k: ChunkKey :: Live(twice, k.parent) == Live(once, k.parent);
  }

  /** And if it is not refused it creates nothing and changes nothing. */
  lemma SecondImportChangesNothing(first: Setting, second: Setting, archive: Archive, before: Space, once: Space, twice: Space,
                                   stats: R.Stats, createdBytes: int)
    requires ImportBrought(first, archive, before, once) && ImportDone(second, archive, once, twice, stats, createdBytes)
    ensures twice == once && createdBytes == 0 && R.NothingCreated(stats)
  {
    SecondImportIsIdle(first.limits, archive, ViewOf(before));
    R.SecondReportIsIdle(archive, ViewOf(before));
    SameResources(once, twice);
    SameChunkKeys(archive.collections, before.chunks, once, twice);
    NothingMerged(once, twice);
  }
}
