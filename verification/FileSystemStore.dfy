/**
 The Collection directory of the filesystem backend: representation files, metadata sidecars and chunk
 directories, updated one critical section at a time, against the Collection machine.
 */
module FileSystemStore {
  import opened CollectionStore
  import ChangeFeed
  import opened Preconditions
  import opened Wrappers

  /** A representation file; its name pairs the item it belongs to with its media type. */
  datatype Rep<K> = Rep(key: K, contentType: string)

  type Files<K(==)> = map<Rep<K>, Bytes>

  datatype Sidecar = Sidecar(
    createdAt: Time, updatedAt: Time, createdBy: Option<string>, version: nat, metaVersion: Option<nat>, custom: Option<string>,
    epoch: Option<string>, deleted: bool, contentType: Option<string>)

  datatype ChunkSidecar = ChunkSidecar(createdAt: Time, updatedAt: Time, version: nat)

  datatype ChunkDir = ChunkDir(files: Files<nat>, sidecars: map<nat, ChunkSidecar>)

  type Sidecars = map<Id, Sidecar>
  type ChunkDirs = map<Id, ChunkDir>

  datatype Body = Body(contentType: string, bytes: Bytes)

  // ---------- representation files ----------

  function FilesFor<K>(files: Files<K>, key: K): set<Rep<K>> {
    set rep | rep in files && rep.key == key
  }

  /** One representation per item: a file exists for exactly the media type an item has, with its bytes. */
  ghost predicate FilesStandFor<K(!new)>(files: Files<K>, bodies: map<K, Body>) {
    && (forall key, contentType :: Rep(key, contentType) in files <==> key in bodies && bodies[key].contentType == contentType)
    && (forall rep :: rep in files ==> files[rep] == bodies[rep.key].bytes)
  }

  lemma FileFound<K(!new)>(files: Files<K>, bodies: map<K, Body>, key: K)
    requires FilesStandFor(files, bodies)
    ensures FilesFor(files, key) == if key in bodies then {Rep(key, bodies[key].contentType)} else {}
  {
    forall rep | rep in FilesFor(files, key) ensures key in bodies && rep == Rep(key, bodies[key].contentType) {
      assert Rep(rep.key, rep.contentType) in files;
    }
    if key in bodies {
      assert Rep(key, bodies[key].contentType) in files;
    }
  }

  /** The first representation of an item; there is at most one, the item's. */
  method FindFile<K(!new, ==)>(files: Files<K>, key: K, ghost bodies: map<K, Body>) returns (found: Option<Rep<K>>)
    requires FilesStandFor(files, bodies)
    ensures found == if key in bodies then Some(Rep(key, bodies[key].contentType)) else None
    ensures found.Some? ==> found.value in files && files[found.value] == bodies[key].bytes
  {
    var listing := FilesFor(files, key);
    FileFound(files, bodies, key);
    if listing == {} {
      return None;
    }
    var rep :| rep in listing;
    return Some(rep);
  }

  lemma RepresentationReplaced<K(!new)>(files: Files<K>, bodies: map<K, Body>, key: K, body: Body)
    requires FilesStandFor(files, bodies)
    ensures FilesStandFor((files - FilesFor(files, key))[Rep(key, body.contentType) := body.bytes], bodies[key := body])
  {
    var after, now := (files - FilesFor(files, key))[Rep(key, body.contentType) := body.bytes], bodies[key := body];
    forall k, contentType ensures Rep(k, contentType) in after <==> k in now && now[k].contentType == contentType {
      assert Rep(k, contentType) in files <==> k in bodies && bodies[k].contentType == contentType;
    }
  }

  lemma RepresentationRemoved<K(!new)>(files: Files<K>, bodies: map<K, Body>, key: K)
    requires FilesStandFor(files, bodies)
    ensures FilesStandFor(files - FilesFor(files, key), bodies - {key})
  {
    var after, now := files - FilesFor(files, key), bodies - {key};
    forall k, contentType ensures Rep(k, contentType) in after <==> k in now && now[k].contentType == contentType {
      assert Rep(k, contentType) in files <==> k in bodies && bodies[k].contentType == contentType;
    }
  }

  /** Write-new-then-prune: the new representation is in place before any stale one from the given listing goes. */
  method ReplaceRepresentation<K(==)>(files: Files<K>, listing: set<Rep<K>>, keep: Rep<K>, bytes: Bytes) returns (after: Files<K>)
    ensures after == (files - listing)[keep := bytes]
  {
    after := files[keep := bytes];
    ghost var all := listing - {keep};
    var stale := listing - {keep};
    while stale != {}
      invariant stale <= all && keep in after
      invariant after == files[keep := bytes] - (all - stale)
      decreases |stale|
    {
      var rep :| rep in stale;
      assert all - (stale - {rep}) == (all - stale) + {rep};
      after := after - {rep};
      stale := stale - {rep};
    }
    assert all - {} == all;
  }

  // ---------- what the directory stands for ----------

  function LiveBodies(s: Store): map<Id, Body> {
    map id | id in s && s[id].content.Some? :: Body(s[id].contentType, s[id].content.value)
  }

  function ChunkBodies(chunks: map<nat, Chunk>): map<nat, Body> {
    map i | i in chunks :: Body(chunks[i].contentType, chunks[i].bytes)
  }

  predicate SidecarStandsFor(c: Sidecar, r: Resource) {
    && c.deleted == r.content.None?
    && c.contentType == (if c.deleted then Some(r.contentType) else None)
    && c.version == r.version && c.metaVersion == r.metaVersion && c.custom == r.custom && c.epoch == r.epoch
    && c.createdBy == r.createdBy && c.createdAt == r.createdAt && c.updatedAt == r.updatedAt
  }

  ghost predicate SidecarsStandFor(sidecars: Sidecars, s: Store) {
    sidecars.Keys == s.Keys && forall id :: id in sidecars ==> SidecarStandsFor(sidecars[id], s[id])
  }

  ghost predicate ChunkDirStandsFor(dir: ChunkDir, chunks: map<nat, Chunk>) {
    && FilesStandFor(dir.files, ChunkBodies(chunks))
    && dir.sidecars.Keys == chunks.Keys && forall i :: i in chunks ==> dir.sidecars[i].version == chunks[i].version
  }

  /** A chunk directory exists exactly where there are chunks. */
  ghost predicate ChunkDirsStandFor(dirs: ChunkDirs, s: Store) {
    && (forall id :: id in dirs <==> ChunksOf(s, id) != map[])
    && (forall id :: id in dirs ==> ChunkDirStandsFor(dirs[id], ChunksOf(s, id)))
  }

  ghost predicate Represents(files: Files<Id>, sidecars: Sidecars, dirs: ChunkDirs, s: Store) {
    WellFormed(s) && FilesStandFor(files, LiveBodies(s)) && SidecarsStandFor(sidecars, s) && ChunkDirsStandFor(dirs, s)
  }

  /** Replacing one Resource: what has to hold of its files, sidecar and chunk directory. */
  lemma ResourceChanged(files: Files<Id>, sidecars: Sidecars, dirs: ChunkDirs, s: Store, id: Id, r: Resource,
                        files': Files<Id>, c: Sidecar, dirs': ChunkDirs)
    requires Represents(files, sidecars, dirs, s)
    requires Clean(r) && SidecarStandsFor(c, r)
    requires FilesStandFor(files', LiveBodies(s[id := r]))
    requires ChunkDirsStandFor(dirs', s[id := r])
    ensures Represents(files', sidecars[id := c], dirs', s[id := r])
  {
    var t := s[id := r];
    forall i | i in t ensures Clean(t[i]) {
    }
  }

  lemma SameChunks(dirs: ChunkDirs, s: Store, id: Id, r: Resource)
    requires ChunkDirsStandFor(dirs, s) && r.chunks == ChunksOf(s, id)
    ensures ChunkDirsStandFor(dirs, s[id := r])
  {
    forall i ensures ChunksOf(s[id := r], i) == ChunksOf(s, i) {
    }
  }

  lemma NoChunks(dirs: ChunkDirs, s: Store, id: Id, r: Resource)
    requires ChunkDirsStandFor(dirs, s) && r.chunks == map[]
    ensures ChunkDirsStandFor(dirs - {id}, s[id := r])
  {
    forall i ensures ChunksOf(s[id := r], i) == if i == id then map[] else ChunksOf(s, i) {
    }
  }

  lemma ChunkDirChanged(dirs: ChunkDirs, s: Store, id: Id, r: Resource, dir: ChunkDir)
    requires ChunkDirsStandFor(dirs, s) && r.chunks != map[] && ChunkDirStandsFor(dir, r.chunks)
    ensures ChunkDirsStandFor(dirs[id := dir], s[id := r])
  {
    forall i ensures ChunksOf(s[id := r], i) == if i == id then r.chunks else ChunksOf(s, i) {
    }
  }

  lemma SameBodies(s: Store, id: Id, r: Resource)
    requires id in s && r.content == s[id].content && r.contentType == s[id].contentType
    ensures LiveBodies(s[id := r]) == LiveBodies(s)
  {
  }

  lemma ContentWritten(files: Files<Id>, sidecars: Sidecars, dirs: ChunkDirs, s: Store, id: Id, listing: set<Rep<Id>>,
                       body: Body, r: Resource, c: Sidecar)
    requires Represents(files, sidecars, dirs, s) && SidecarStandsFor(c, r) && Clean(r) && listing == FilesFor(files, id)
    requires r.chunks == ChunksOf(s, id) && LiveBodies(s[id := r]) == LiveBodies(s)[id := body]
    ensures Represents((files - listing)[Rep(id, body.contentType) := body.bytes], sidecars[id := c], dirs, s[id := r])
  {
    RepresentationReplaced(files, LiveBodies(s), id, body);
    SameChunks(dirs, s, id, r);
    ResourceChanged(files, sidecars, dirs, s, id, r, (files - FilesFor(files, id))[Rep(id, body.contentType) := body.bytes], c, dirs);
  }

  lemma SidecarWritten(files: Files<Id>, sidecars: Sidecars, dirs: ChunkDirs, s: Store, id: Id, r: Resource, c: Sidecar)
    requires Represents(files, sidecars, dirs, s) && Live(s, id) && SidecarStandsFor(c, r)
    requires r.content == s[id].content && r.contentType == s[id].contentType && r.chunks == s[id].chunks
    ensures Represents(files, sidecars[id := c], dirs, s[id := r])
  {
    SameBodies(s, id, r);
    SameChunks(dirs, s, id, r);
    ResourceChanged(files, sidecars, dirs, s, id, r, files, c, dirs);
  }

  /** An item's chunk directory, or an empty one before its first chunk. */
  function DirOf(dirs: ChunkDirs, id: Id): ChunkDir {
    if id in dirs then dirs[id] else ChunkDir(map[], map[])
  }

  lemma DirFound(dirs: ChunkDirs, s: Store, id: Id)
    requires ChunkDirsStandFor(dirs, s)
    ensures ChunkDirStandsFor(DirOf(dirs, id), ChunksOf(s, id))
  {
    if id !in dirs {
      assert ChunksOf(s, id) == map[];
      assert ChunkBodies(map[]) == map[];
    }
  }

  lemma ChunkReplaced(dir: ChunkDir, chunks: map<nat, Chunk>, i: nat, c: Chunk, sidecar: ChunkSidecar)
    requires ChunkDirStandsFor(dir, chunks) && sidecar.version == c.version
    ensures ChunkDirStandsFor(
              ChunkDir((dir.files - FilesFor(dir.files, i))[Rep(i, c.contentType) := c.bytes], dir.sidecars[i := sidecar]),
              chunks[i := c])
  {
    RepresentationReplaced(dir.files, ChunkBodies(chunks), i, Body(c.contentType, c.bytes));
    assert ChunkBodies(chunks[i := c]) == ChunkBodies(chunks)[i := Body(c.contentType, c.bytes)];
  }

  lemma ChunkRemoved(dir: ChunkDir, chunks: map<nat, Chunk>, i: nat)
    requires ChunkDirStandsFor(dir, chunks)
    ensures ChunkDirStandsFor(ChunkDir(dir.files - FilesFor(dir.files, i), dir.sidecars - {i}), chunks - {i})
  {
    RepresentationRemoved(dir.files, ChunkBodies(chunks), i);
    assert ChunkBodies(chunks - {i}) == ChunkBodies(chunks) - {i};
  }

  // ---------- sidecars ----------

  function SidecarVersion(c: Option<Sidecar>): nat {
    if c.Some? then c.value.version else 0
  }

  function ChunkSidecarVersion(dir: ChunkDir, i: nat): nat {
    if i in dir.sidecars then dir.sidecars[i].version else 0
  }

  /** What the directory listing and the sidecar tell about a Resource. */
  lemma ResourceRead(files: Files<Id>, sidecars: Sidecars, s: Store, id: Id)
    requires FilesStandFor(files, LiveBodies(s)) && SidecarsStandFor(sidecars, s)
    ensures FilesFor(files, id) == if Live(s, id) then {Rep(id, s[id].contentType)} else {}
    ensures id in sidecars <==> id in s
    ensures id in s ==> SidecarStandsFor(sidecars[id], s[id])
  {
    FileFound(files, LiveBodies(s), id);
  }

  lemma SidecarRead(sidecars: Sidecars, s: Store, id: Id)
    requires SidecarsStandFor(sidecars, s)
    ensures id in sidecars <==> id in s
    ensures id in s ==> SidecarStandsFor(sidecars[id], s[id])
  {
  }

  lemma ChunkRead(dirs: ChunkDirs, s: Store, id: Id, i: nat)
    requires ChunkDirsStandFor(dirs, s)
    ensures ChunkSidecarVersion(DirOf(dirs, id), i) == ChunkVersion(s, id, i)
    ensures ChunkDirStandsFor(DirOf(dirs, id), ChunksOf(s, id))
  {
    DirFound(dirs, s, id);
  }

  /** The sidecar a content write leaves: creator, times and metadata carry over from whatever was there,
      tombstone or not; the epoch does not. */
  function ContentSidecar(prior: Option<Sidecar>, op: Op, now: Time): Sidecar
    requires op.Put?
  {
    if prior.Some? then
      var c := prior.value;
      Sidecar(c.createdAt, now, c.createdBy, c.version + 1, c.metaVersion, c.custom, op.epoch, false, None)
    else Sidecar(now, now, op.creator, 1, None, None, op.epoch, false, None)
  }

  /** A metadata write keeps the creator, the content version and, unless it names one, the epoch. */
  function MetaSidecar(prior: Option<Sidecar>, op: Op, now: Time): Sidecar
    requires op.PutMeta?
  {
    var custom := if op.custom != EMPTY_CUSTOM then Some(op.custom) else None;
    if prior.Some? then
      var c := prior.value;
      Sidecar(c.createdAt, now, c.createdBy, c.version, Some(c.metaVersion.GetOr(0) + 1), custom,
              if op.epoch.Some? then op.epoch else c.epoch, false, None)
    else Sidecar(now, now, None, 0, Some(1), custom, op.epoch, false, None)
  }

  /** The sidecar that stays behind as the tombstone. */
  function TombstoneSidecar(prior: Option<Sidecar>, contentType: string, now: Time): Sidecar {
    if prior.Some? then
      Sidecar(prior.value.createdAt, now, prior.value.createdBy, prior.value.version + 1, None, None, None, true, Some(contentType))
    else Sidecar(now, now, None, 1, None, None, None, true, Some(contentType))
  }

  lemma ContentSidecarStandsFor(sidecars: Sidecars, s: Store, op: Op, now: Time)
    requires SidecarsStandFor(sidecars, s) && WellFormed(s) && op.Put?
    ensures SidecarStandsFor(ContentSidecar(if op.id in sidecars then Some(sidecars[op.id]) else None, op, now), AfterPut(s, op, now))
    ensures AfterPut(s, op, now).chunks == ChunksOf(s, op.id) && Clean(AfterPut(s, op, now))
    ensures LiveBodies(s[op.id := AfterPut(s, op, now)]) == LiveBodies(s)[op.id := Body(op.contentType, op.bytes)]
  {
  }

  // ---------- change-feed descriptors ----------

  function LiveDescriptors(json: JsonTypes, files: Files<Id>, sidecars: Sidecars, live: map<Id, Rep<Id>>): ChangeFeed.Rows
    requires forall id :: id in live ==> live[id] in files
  {
    map id | id in live && live[id].contentType in json && id in sidecars ::
      var c := sidecars[id];
      ChangeFeed.Row(c.version, c.metaVersion, c.createdBy, c.updatedAt, false, Some(files[live[id]]), c.custom, c.epoch, true)
  }

  function TombstoneDescriptors(json: JsonTypes, sidecars: Sidecars, live: map<Id, Rep<Id>>): ChangeFeed.Rows {
    map id | id in sidecars && id !in live && sidecars[id].deleted && sidecars[id].contentType.Some? &&
             sidecars[id].contentType.value in json ::
      var c := sidecars[id];
      ChangeFeed.Row(c.version, c.metaVersion, c.createdBy, c.updatedAt, true, None, None, None, true)
  }

  lemma DescriptorsAreFeed(json: JsonTypes, files: Files<Id>, sidecars: Sidecars, s: Store, live: map<Id, Rep<Id>>)
    requires WellFormed(s) && FilesStandFor(files, LiveBodies(s)) && SidecarsStandFor(sidecars, s)
    requires forall id :: id in live ==> live[id] in files && live[id].key == id
    requires forall rep :: rep in files ==> rep.key in live
    ensures LiveDescriptors(json, files, sidecars, live) + TombstoneDescriptors(json, sidecars, live) == FeedRows(json, s)
  {
    forall id {
      DescriptorIsFeedRow(json, files, sidecars, s, live, id);
    }
    UnionOfParts(LiveDescriptors(json, files, sidecars, live), TombstoneDescriptors(json, sidecars, live), FeedRows(json, s));
  }

  lemma UnionOfParts(a: ChangeFeed.Rows, b: ChangeFeed.Rows, all: ChangeFeed.Rows)
    requires forall id :: id in a ==> id in all && a[id] == all[id]
    requires forall id :: id in b ==> id in all && b[id] == all[id]
    requires forall id :: id in all ==> id in a || id in b
    ensures a + b == all
  {
  }

  lemma DescriptorIsFeedRow(json: JsonTypes, files: Files<Id>, sidecars: Sidecars, s: Store, live: map<Id, Rep<Id>>, id: Id)
    requires WellFormed(s) && FilesStandFor(files, LiveBodies(s)) && SidecarsStandFor(sidecars, s)
    requires forall id :: id in live ==> live[id] in files && live[id].key == id
    requires forall rep :: rep in files ==> rep.key in live
    ensures id in LiveDescriptors(json, files, sidecars, live) <==> Live(s, id) && id in FeedRows(json, s)
    ensures id in LiveDescriptors(json, files, sidecars, live) ==>
              LiveDescriptors(json, files, sidecars, live)[id] == FeedRows(json, s)[id]
    ensures id in TombstoneDescriptors(json, sidecars, live) <==> !Live(s, id) && id in FeedRows(json, s)
    ensures id in TombstoneDescriptors(json, sidecars, live) ==>
              TombstoneDescriptors(json, sidecars, live)[id] == FeedRows(json, s)[id]
  {
    ResourceRead(files, sidecars, s, id);
    if id in live { assert live[id] in FilesFor(files, id); }
    if Live(s, id) { assert Rep(id, s[id].contentType) in FilesFor(files, id); }
    assert id in s ==> Clean(s[id]);
  }

  class FileSystemStore {
    const json: JsonTypes
    var files: Files<Id>
    var sidecars: Sidecars
    var chunkDirs: ChunkDirs
    ghost var store: Store

    ghost predicate Valid()
      reads this
    {
      Represents(files, sidecars, chunkDirs, store)
    }

    constructor (json: JsonTypes)
      ensures Valid() && store == map[] && this.json == json
    {
      this.json := json;
      files, sidecars, chunkDirs, store := map[], map[], map[], map[];
    }

    function ReadSidecar(id: Id): Option<Sidecar>
      reads this
    {
      if id in sidecars then Some(sidecars[id]) else None
    }

    /** The write of a Resource's representation and sidecar, from the listing read before it. */
    method StoreContent(id: Id, body: Body, entries: set<Rep<Id>>, sidecar: Sidecar, ghost r: Resource)
      requires Valid() && entries == FilesFor(files, id) && SidecarStandsFor(sidecar, r) && Clean(r)
      requires r.chunks == ChunksOf(store, id) && LiveBodies(store[id := r]) == LiveBodies(store)[id := body]
      modifies this`files, this`sidecars, this`store
      ensures Valid() && store == old(store)[id := r]
    {
      ContentWritten(files, sidecars, chunkDirs, store, id, entries, body, r, sidecar);
      var written := ReplaceRepresentation(files, entries, Rep(id, body.contentType), body.bytes);
      files, sidecars := written, sidecars[id := sidecar];
      store := store[id := r];
    }

    /** The write of a live Resource's sidecar alone. */
    method StoreSidecar(id: Id, sidecar: Sidecar, ghost r: Resource)
      requires Valid() && Live(store, id) && SidecarStandsFor(sidecar, r)
      requires r.content == store[id].content && r.contentType == store[id].contentType && r.chunks == store[id].chunks
      modifies this`sidecars, this`store
      ensures Valid() && store == old(store)[id := r]
    {
      SidecarWritten(files, sidecars, chunkDirs, store, id, r, sidecar);
      sidecars := sidecars[id := sidecar];
      store := store[id := r];
    }

    /** One listing and one sidecar read, as every section begins. */
    method ProbeResource(id: Id) returns (isLive: bool, prior: Option<Sidecar>)
      requires Valid()
      ensures isLive == Live(store, id) && prior == ReadSidecar(id) && SidecarVersion(prior) == VersionOf(store, id)
    {
      var found := FindFile(files, id, LiveBodies(store));
      SidecarRead(sidecars, store, id);
      return found.Some?, ReadSidecar(id);
    }

    method WriteContent(op: Op, now: Time, entries: set<Rep<Id>>, prior: Option<Sidecar>)
      requires op.Put? && Valid() && entries == FilesFor(files, op.id) && prior == ReadSidecar(op.id)
      modifies this`files, this`sidecars, this`store
      ensures Valid() && store == old(store)[op.id := AfterPut(old(store), op, now)]
    {
      ContentSidecarStandsFor(sidecars, store, op, now);
      StoreContent(op.id, Body(op.contentType, op.bytes), entries, ContentSidecar(prior, op, now), AfterPut(store, op, now));
    }

    /** The critical section of a content write. */
    method WriteResource(op: Op, now: Time) returns (r: Answer)
      requires op.Put? && Valid()
      modifies this
      ensures Valid() && store == ApplyPut(old(store), op, now).0 && r == ApplyPut(old(store), op, now).1
    {
      var entries := FilesFor(files, op.id);
      var isLive, prior := ProbeResource(op.id);
      if !WriteAllowed(isLive, if isLive then SidecarVersion(prior) else 0, op.guard) {
        return PreconditionFailed;
      }
      WriteContent(op, now, entries, prior);
      return Version(SidecarVersion(prior) + 1);
    }

    method WriteResourceMetadata(op: Op, now: Time) returns (r: Answer)
      requires op.PutMeta? && Valid()
      modifies this
      ensures Valid() && store == ApplyPutMeta(old(store), op, now).0 && r == ApplyPutMeta(old(store), op, now).1
    {
      var found := FindFile(files, op.id, LiveBodies(store));
      SidecarRead(sidecars, store, op.id);
      if found.None? {
        return NotFound;
      }
      var prior := ReadSidecar(op.id);
      var metaVersion := if prior.Some? then prior.value.metaVersion else None;
      if !MetaWriteAllowed(metaVersion, op.guard) {
        return PreconditionFailed;
      }
      var sidecar := MetaSidecar(prior, op, now);
      StoreSidecar(op.id, sidecar, AfterPutMeta(store[op.id], op, now));
      return MetaVersion(metaVersion.GetOr(0) + 1);
    }

    /** A soft delete: content and chunk directory go, the sidecar stays as the tombstone. */
    method DeleteResource(op: Op, now: Time) returns (r: Answer)
      requires op.Delete? && Valid()
      modifies this
      ensures Valid() && store == ApplyDelete(old(store), op, now).0 && r == ApplyDelete(old(store), op, now).1
    {
      var existing := FilesFor(files, op.id);
      var found := FindFile(files, op.id, LiveBodies(store));
      SidecarRead(sidecars, store, op.id);
      var prior := ReadSidecar(op.id);
      if !WriteAllowed(found.Some?, if found.Some? then SidecarVersion(prior) else 0, Guard(op.ifMatch, false)) {
        return PreconditionFailed;
      }
      if found.None? {
        return Done;
      }
      var sidecar := TombstoneSidecar(prior, found.value.contentType, now);
      StoreTombstone(op.id, existing, sidecar, Tombstone(store[op.id], now));
      return Done;
    }

    /** Removal of the representations and the chunk directory, with the tombstone sidecar written. */
    method StoreTombstone(id: Id, existing: set<Rep<Id>>, sidecar: Sidecar, ghost r: Resource)
      requires Valid() && existing == FilesFor(files, id)
      requires Clean(r) && r.content.None? && SidecarStandsFor(sidecar, r)
      modifies this
      ensures Valid() && store == old(store)[id := r]
    {
      RepresentationRemoved(files, LiveBodies(store), id);
      assert LiveBodies(store[id := r]) == LiveBodies(store) - {id};
      NoChunks(chunkDirs, store, id, r);
      ResourceChanged(files, sidecars, chunkDirs, store, id, r, files - existing, sidecar, chunkDirs - {id});
      files := files - existing;
      chunkDirs := chunkDirs - {id};
      sidecars := sidecars[id := sidecar];
      store := store[id := r];
    }

    method Probe(id: Id) returns (present: bool)
      requires Valid()
      ensures present == Live(store, id)
    {
      var found := FindFile(files, id, LiveBodies(store));
      return found.Some?;
    }

    method ProbeChunk(id: Id, index: nat) returns (present: bool, version: nat)
      requires Valid()
      ensures present == HasChunk(store, id, index) && version == ChunkVersion(store, id, index)
    {
      var dir := DirOf(chunkDirs, id);
      ChunkRead(chunkDirs, store, id, index);
      var found := FindFile(dir.files, index, ChunkBodies(ChunksOf(store, id)));
      return found.Some?, ChunkSidecarVersion(dir, index);
    }

    method WriteChunk(op: Op, now: Time) returns (r: Answer)
      requires op.PutChunk? && Valid()
      modifies this
      ensures Valid() && store == ApplyPutChunk(old(store), op).0 && r == ApplyPutChunk(old(store), op).1
    {
      var parentExists := Probe(op.id);
      if !parentExists {
        return NotFound;
      }
      var present, version := ProbeChunk(op.id, op.index);
      if !WriteAllowed(present, version, op.guard) {
        return PreconditionFailed;
      }
      StoreChunk(op.id, op.index, Body(op.contentType, op.bytes), version + 1, now, WithChunk(store, op));
      return Version(version + 1);
    }

    /** A chunk directory with at least one chunk in it. */
    method StoreChunkDir(id: Id, dir: ChunkDir, ghost r: Resource)
      requires Valid() && Live(store, id) && r == store[id].(chunks := r.chunks)
      requires r.chunks != map[] && ChunkDirStandsFor(dir, r.chunks)
      modifies this`chunkDirs, this`store
      ensures Valid() && store == old(store)[id := r]
    {
      SameBodies(store, id, r);
      ChunkDirChanged(chunkDirs, store, id, r, dir);
      ResourceChanged(files, sidecars, chunkDirs, store, id, r, files, sidecars[id], chunkDirs[id := dir]);
      assert sidecars[id := sidecars[id]] == sidecars;
      chunkDirs := chunkDirs[id := dir];
      store := store[id := r];
    }

    method RemoveChunkDir(id: Id, ghost r: Resource)
      requires Valid() && Live(store, id) && r == store[id].(chunks := map[])
      modifies this`chunkDirs, this`store
      ensures Valid() && store == old(store)[id := r]
    {
      SameBodies(store, id, r);
      NoChunks(chunkDirs, store, id, r);
      ResourceChanged(files, sidecars, chunkDirs, store, id, r, files, sidecars[id], chunkDirs - {id});
      assert sidecars[id := sidecars[id]] == sidecars;
      chunkDirs := chunkDirs - {id};
      store := store[id := r];
    }

    /** The write of a chunk's representation and sidecar. */
    method StoreChunk(id: Id, index: nat, body: Body, version: nat, now: Time, ghost r: Resource)
      requires Valid() && Live(store, id)
      requires r == store[id].(chunks := store[id].chunks[index := Chunk(body.contentType, body.bytes, version)])
      modifies this`chunkDirs, this`store
      ensures Valid() && store == old(store)[id := r]
    {
      var dir := DirOf(chunkDirs, id);
      DirFound(chunkDirs, store, id);
      var written := ReplaceRepresentation(dir.files, FilesFor(dir.files, index), Rep(index, body.contentType), body.bytes);
      var sidecar := ChunkSidecar(if index in dir.sidecars then dir.sidecars[index].createdAt else now, now, version);
      ChunkReplaced(dir, store[id].chunks, index, Chunk(body.contentType, body.bytes, version), sidecar);
      assert index in r.chunks;
      StoreChunkDir(id, ChunkDir(written, dir.sidecars[index := sidecar]), r);
    }

    /** A hard delete; the directory goes with its last chunk. */
    method DeleteChunk(op: Op, now: Time) returns (r: Answer)
      requires op.DeleteChunk? && Valid()
      modifies this
      ensures Valid() && store == ApplyDeleteChunk(old(store), op).0 && r == ApplyDeleteChunk(old(store), op).1
    {
      var dir := DirOf(chunkDirs, op.id);
      ChunkRead(chunkDirs, store, op.id, op.index);
      var existing := FilesFor(dir.files, op.index);
      var found := FindFile(dir.files, op.index, ChunkBodies(ChunksOf(store, op.id)));
      if found.None? {
        return Removed(false);
      }
      assert Clean(store[op.id]);
      if !WriteAllowed(true, ChunkSidecarVersion(dir, op.index), Guard(op.ifMatch, false)) {
        return PreconditionFailed;
      }
      var remaining := ChunkDir(dir.files - existing, dir.sidecars - {op.index});
      ghost var target := store[op.id].(chunks := store[op.id].chunks - {op.index});
      ChunkRemoved(dir, ChunksOf(store, op.id), op.index);
      if remaining == ChunkDir(map[], map[]) {
        RemoveChunkDir(op.id, target);
      } else {
        StoreChunkDir(op.id, remaining, target);
      }
      return Removed(true);
    }

    method Execute(op: Op, now: Time) returns (r: Answer)
      requires Valid()
      modifies this
      ensures Valid() && store == Apply(old(store), op, now).0 && r == Apply(old(store), op, now).1
    {
      match op {
        case Put(_, _, _, _, _, _) => r := WriteResource(op, now);
        case PutMeta(_, _, _, _) => r := WriteResourceMetadata(op, now);
        case Delete(_, _) => r := DeleteResource(op, now);
        case PutChunk(_, _, _, _, _) => r := WriteChunk(op, now);
        case DeleteChunk(_, _, _) => r := DeleteChunk(op, now);
      }
    }

    // ---------- reads ----------

    method GetResource(id: Id) returns (r: Option<Representation>)
      requires Valid()
      ensures r == ResourceOf(store, id)
    {
      var found := FindFile(files, id, LiveBodies(store));
      SidecarRead(sidecars, store, id);
      if found.None? {
        return None;
      }
      var rep := found.value;
      return Some(Representation(rep.contentType, files[rep], SidecarVersion(ReadSidecar(id))));
    }

    method GetResourceMetadata(id: Id) returns (r: Option<Metadata>)
      requires Valid()
      ensures r == MetadataOf(store, id)
    {
      var found := FindFile(files, id, LiveBodies(store));
      SidecarRead(sidecars, store, id);
      if found.None? || id !in sidecars {
        return None;
      }
      var rep := found.value;
      var c := sidecars[id];
      return Some(Metadata(rep.contentType, |files[rep]|, c.createdAt, c.updatedAt, c.createdBy, c.custom, c.epoch, c.version, c.metaVersion));
    }

    method GetChunk(id: Id, index: nat) returns (c: Option<Chunk>)
      requires Valid()
      ensures c == ChunkOf(store, id, index)
    {
      var dir := DirOf(chunkDirs, id);
      ChunkRead(chunkDirs, store, id, index);
      var found := FindFile(dir.files, index, ChunkBodies(ChunksOf(store, id)));
      if found.None? {
        return None;
      }
      var rep := found.value;
      return Some(Chunk(rep.contentType, dir.files[rep], ChunkSidecarVersion(dir, index)));
    }

    method ListChunks(id: Id) returns (l: seq<ListedChunk>)
      requires Valid()
      ensures IsListing(ChunksOf(store, id), l)
    {
      var dir := DirOf(chunkDirs, id);
      DirFound(chunkDirs, store, id);
      var chunks := ReadChunks(dir, ChunksOf(store, id));
      l := SortedListing(chunks);
    }

    /** The change-feed candidates: a document per JSON file, and per JSON tombstone sidecar without a file. */
    method SelectFeed() returns (rows: ChangeFeed.Rows)
      requires Valid()
      ensures rows == FeedRows(json, store)
    {
      var live: map<Id, Rep<Id>> := map[];
      var todo := files.Keys;
      while todo != {}
        invariant todo <= files.Keys
        invariant forall id :: id in live ==> live[id] in files && live[id].key == id
        invariant forall rep :: rep in files && rep !in todo ==> rep.key in live
        decreases |todo|
      {
        var rep :| rep in todo;
        live := live[rep.key := rep];
        todo := todo - {rep};
      }
      DescriptorsAreFeed(json, files, sidecars, store, live);
      rows := LiveDescriptors(json, files, sidecars, live) + TombstoneDescriptors(json, sidecars, live);
    }
  }

  /** Every representation in a chunk directory, with the version its sidecar records. */
  method ReadChunks(dir: ChunkDir, ghost chunks: map<nat, Chunk>) returns (read: map<nat, Chunk>)
    requires ChunkDirStandsFor(dir, chunks)
    ensures read == chunks
  {
    read := map[];
    var todo := dir.files.Keys;
    while todo != {}
      invariant todo <= dir.files.Keys
      invariant forall i :: i in read <==> i in chunks && Rep(i, chunks[i].contentType) !in todo
      invariant forall i :: i in read ==> read[i] == chunks[i]
      decreases |todo|
    {
      var rep :| rep in todo;
      assert Rep(rep.key, rep.contentType) in dir.files;
      read := read[rep.key := Chunk(rep.contentType, dir.files[rep], ChunkSidecarVersion(dir, rep.key))];
      todo := todo - {rep};
    }
  }
}
