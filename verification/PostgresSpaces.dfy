/**
 One Space of the Postgres backend: the rows of all its Collections and its usage counter, under serial histories
 of writes, deletes, Collection deletes, policy writes and archive imports.
 */
module PostgresSpaces {
  import opened ImportPlan
  import opened PostgresRows
  import opened Sizes
  import opened Wrappers
  import C = CollectionStore
  import I = PostgresImport
  import R = ImportReport
  import P = PostgresStore

  // ---------- one Collection's rows ----------

  function RidsUnder(resources: I.Resources, cid: Cid): set<Rid> {
    set k | k in resources && k.cid == cid :: k.rid
  }

  function ResourcesUnder(s: I.Space, cid: Cid): P.Resources {
    map rid | rid in RidsUnder(s.resources, cid) :: s.resources[ResourceKey(cid, rid)]
  }

  function ChunkIdsUnder(chunks: I.Chunks, cid: Cid): set<P.ChunkKey> {
    set k | k in chunks && k.parent.cid == cid :: P.ChunkKey(k.parent.rid, k.index)
  }

  function ChunksUnder(s: I.Space, cid: Cid): P.Chunks {
    map k | k in ChunkIdsUnder(s.chunks, cid) :: s.chunks[I.ChunkKey(ResourceKey(cid, k.id), k.index)]
  }

  function KeysUnder(resources: I.Resources, cid: Cid): set<ResourceKey> {
    set k | k in resources && k.cid == cid
  }

  function ChunkKeysUnder(chunks: I.Chunks, cid: Cid): set<I.ChunkKey> {
    set k | k in chunks && k.parent.cid == cid
  }

  function Rekeyed(cid: Cid, resources: P.Resources): I.Resources {
    map k | k in KeysOf(cid, resources.Keys) :: resources[k.rid]
  }

  function ChunkKeysOf(cid: Cid, keys: set<P.ChunkKey>): set<I.ChunkKey> {
    set k | k in keys :: I.ChunkKey(ResourceKey(cid, k.id), k.index)
  }

  function RekeyedChunks(cid: Cid, chunks: P.Chunks): I.Chunks {
    map k | k in ChunkKeysOf(cid, chunks.Keys) :: chunks[P.ChunkKey(k.parent.rid, k.index)]
  }

  // ---------- what a Collection's rows stand for ----------

  function ChunksOf(s: I.Space, k: ResourceKey): map<nat, C.Chunk> {
    map i | i in (set c | c in s.chunks && c.parent == k :: c.index) ::
      var row := s.chunks[I.ChunkKey(k, i)];
      C.Chunk(row.contentType, row.bytes, row.version)
  }

  function ResourceOf(row: ResourceRow, chunks: map<nat, C.Chunk>): C.Resource {
    C.Resource(row.contentType, row.content, row.version, row.metaVersion, row.custom, row.epoch, row.createdBy, row.createdAt, row.updatedAt, chunks)
  }

  /** A Collection of the Space as its clients see it. */
  function CollectionOf(s: I.Space, cid: Cid): C.Store {
    map rid | rid in RidsUnder(s.resources, cid) :: ResourceOf(s.resources[ResourceKey(cid, rid)], ChunksOf(s, ResourceKey(cid, rid)))
  }

  lemma CollectionRead(s: I.Space, cid: Cid, rid: Rid)
    ensures var k := ResourceKey(cid, rid);
            && (rid in CollectionOf(s, cid) <==> k in s.resources) && (rid in ResourcesUnder(s, cid) <==> k in s.resources)
            && (k in s.resources ==> CollectionOf(s, cid)[rid] == ResourceOf(s.resources[k], ChunksOf(s, k)) && ResourcesUnder(s, cid)[rid] == s.resources[k])
  {
    var k := ResourceKey(cid, rid);
    if k in s.resources {
      assert k.rid in CollectionOf(s, cid) && k.rid in ResourcesUnder(s, cid);
    }
  }

  lemma ChunkRead(s: I.Space, cid: Cid, rid: Rid, index: nat)
    ensures var k := I.ChunkKey(ResourceKey(cid, rid), index);
            && (P.ChunkKey(rid, index) in ChunksUnder(s, cid) <==> k in s.chunks) && (index in ChunksOf(s, k.parent) <==> k in s.chunks)
            && (k in s.chunks ==> ChunksUnder(s, cid)[P.ChunkKey(rid, index)] == s.chunks[k] &&
                                  ChunksOf(s, k.parent)[index] == C.Chunk(s.chunks[k].contentType, s.chunks[k].bytes, s.chunks[k].version))
  {
    var k := I.ChunkKey(ResourceKey(cid, rid), index);
    if k in s.chunks {
      assert P.ChunkKey(k.parent.rid, k.index) in ChunksUnder(s, cid) && k.index in ChunksOf(s, k.parent);
    }
  }

  lemma RowsRepresent(json: iset<string>, s: I.Space, cid: Cid)
    requires I.Consistent(json, s) && I.ChunksRooted(s)
    ensures P.Represents(json, ResourcesUnder(s, cid), ChunksUnder(s, cid), CollectionOf(s, cid))
  {
    var store := CollectionOf(s, cid);
    forall rid {
      CollectionRead(s, cid, rid);
    }
    forall rid | rid in store ensures C.Rooted(store[rid]) {
      forall i | i in store[rid].chunks ensures store[rid].content.Some? {
        ChunkRead(s, cid, rid, i);
      }
    }
    forall rid, i ensures P.ChunkKey(rid, i) in ChunksUnder(s, cid) <==> C.HasChunk(store, rid, i) {
      ChunkRead(s, cid, rid, i);
    }
    forall k | k in ChunksUnder(s, cid) ensures P.ChunkStandsFor(ChunksUnder(s, cid)[k], store[k.id].chunks[k.index]) {
      ChunkRead(s, cid, k.id, k.index);
    }
  }

  /** Rows stand for one Collection only. */
  lemma RepresentedOnce(json: iset<string>, resources: P.Resources, chunks: P.Chunks, a: C.Store, b: C.Store)
    requires P.Represents(json, resources, chunks, a) && P.Represents(json, resources, chunks, b)
    ensures a == b
  {
    forall id | id in a ensures a[id] == b[id] {
      forall i ensures i in a[id].chunks <==> i in b[id].chunks {
        assert P.ChunkKey(id, i) in chunks <==> C.HasChunk(a, id, i);
        assert P.ChunkKey(id, i) in chunks <==> C.HasChunk(b, id, i);
      }
      forall i | i in a[id].chunks ensures a[id].chunks[i] == b[id].chunks[i] {
        var k := P.ChunkKey(id, i);
        assert k in chunks <==> C.HasChunk(a, id, i);
        assert P.ChunkStandsFor(chunks[k], a[k.id].chunks[k.index]) && P.ChunkStandsFor(chunks[k], b[k.id].chunks[k.index]);
      }
      assert a[id].chunks == b[id].chunks;
    }
  }

  // ---------- replacing a Collection's rows ----------

  ghost predicate ResourcesReplaced(a: I.Resources, b: I.Resources, cid: Cid, resources: P.Resources) {
    && (forall k :: k in b <==> if k.cid == cid then k.rid in resources else k in a)
    && (forall k :: k in b ==> b[k] == if k.cid == cid then resources[k.rid] else a[k])
  }

  ghost predicate ChunksReplaced(a: I.Chunks, b: I.Chunks, cid: Cid, chunks: P.Chunks) {
    && (forall k :: k in b <==> if k.parent.cid == cid then P.ChunkKey(k.parent.rid, k.index) in chunks else k in a)
    && (forall k :: k in b ==> b[k] == if k.parent.cid == cid then chunks[P.ChunkKey(k.parent.rid, k.index)] else a[k])
  }

  /** One Collection's rows are others now, and nothing else is. */
  ghost predicate Replaced(s: I.Space, t: I.Space, cid: Cid, resources: P.Resources, chunks: P.Chunks) {
    ResourcesReplaced(s.resources, t.resources, cid, resources) && ChunksReplaced(s.chunks, t.chunks, cid, chunks)
  }

  lemma ResourcesAreReplaced(a: I.Resources, cid: Cid, resources: P.Resources)
    ensures ResourcesReplaced(a, (a - KeysUnder(a, cid)) + Rekeyed(cid, resources), cid, resources)
  {
  }

  lemma ChunksAreReplaced(a: I.Chunks, cid: Cid, chunks: P.Chunks)
    ensures ChunksReplaced(a, (a - ChunkKeysUnder(a, cid)) + RekeyedChunks(cid, chunks), cid, chunks)
  {
    forall k ensures k in RekeyedChunks(cid, chunks) <==> k.parent.cid == cid && P.ChunkKey(k.parent.rid, k.index) in chunks {
      if k.parent.cid == cid && P.ChunkKey(k.parent.rid, k.index) in chunks {
        assert I.ChunkKey(ResourceKey(cid, k.parent.rid), k.index) in RekeyedChunks(cid, chunks);
      }
    }
  }

  /** A Collection's rows written back. */
  method PutBack(s: I.Space, cid: Cid, resources: P.Resources, chunks: P.Chunks) returns (t: I.Space)
    ensures Replaced(s, t, cid, resources, chunks) && t.collections == s.collections && t.policies == s.policies
  {
    t := s.(resources := (s.resources - KeysUnder(s.resources, cid)) + Rekeyed(cid, resources),
            chunks := (s.chunks - ChunkKeysUnder(s.chunks, cid)) + RekeyedChunks(cid, chunks));
    ResourcesAreReplaced(s.resources, cid, resources);
    ChunksAreReplaced(s.chunks, cid, chunks);
  }

  lemma ReplacedResources(s: I.Space, t: I.Space, cid: Cid, resources: P.Resources, chunks: P.Chunks)
    requires Replaced(s, t, cid, resources, chunks)
    ensures ResourcesUnder(t, cid) == resources
  {
    forall rid ensures rid in ResourcesUnder(t, cid) <==> rid in resources {
      CollectionRead(t, cid, rid);
    }
    forall rid | rid in resources ensures ResourcesUnder(t, cid)[rid] == resources[rid] {
      CollectionRead(t, cid, rid);
    }
  }

  lemma ReplacedChunks(s: I.Space, t: I.Space, cid: Cid, resources: P.Resources, chunks: P.Chunks)
    requires Replaced(s, t, cid, resources, chunks)
    ensures ChunksUnder(t, cid) == chunks
  {
    forall k ensures k in ChunksUnder(t, cid) <==> k in chunks {
      ChunkRead(t, cid, k.id, k.index);
      assert k == P.ChunkKey(k.id, k.index);
    }
    forall k | k in chunks ensures ChunksUnder(t, cid)[k] == chunks[k] {
      ChunkRead(t, cid, k.id, k.index);
      assert k == P.ChunkKey(k.id, k.index);
    }
  }

  ghost predicate ResourcesMirror(a: I.Resources, cid: Cid, under: P.Resources) {
    && (forall rid :: rid in under <==> ResourceKey(cid, rid) in a)
    && (forall rid :: rid in under ==> under[rid] == a[ResourceKey(cid, rid)])
  }

  ghost predicate ChunksMirror(a: I.Chunks, cid: Cid, under: P.Chunks) {
    && (forall rid, i :: P.ChunkKey(rid, i) in under <==> I.ChunkKey(ResourceKey(cid, rid), i) in a)
    && (forall rid, i :: P.ChunkKey(rid, i) in under ==> under[P.ChunkKey(rid, i)] == a[I.ChunkKey(ResourceKey(cid, rid), i)])
  }

  lemma ResourceBytesSplit(resources: I.Resources, cid: Cid, under: P.Resources)
    requires ResourcesMirror(resources, cid, under)
    ensures Total(I.ResourceSizes(resources)) == Total(I.ResourceSizes(resources - KeysUnder(resources, cid))) + Total(P.ResourceSizes(under))
  {
    var sizes, ks := I.ResourceSizes(resources), KeysUnder(resources, cid);
    TotalSplit(sizes, ks);
    assert sizes - ks == I.ResourceSizes(resources - ks);
    var rid := (k: ResourceKey) => k.rid;
    forall l | l in P.ResourceSizes(under) ensures exists k :: k in Restrict(sizes, ks) && rid(k) == l {
      assert ResourceKey(cid, l) in Restrict(sizes, ks) && rid(ResourceKey(cid, l)) == l;
    }
    TotalRenamed(Restrict(sizes, ks), P.ResourceSizes(under), rid);
  }

  lemma ChunkBytesSplit(chunks: I.Chunks, cid: Cid, under: P.Chunks)
    requires ChunksMirror(chunks, cid, under)
    ensures Total(I.ChunkSizes(chunks)) == Total(I.ChunkSizes(chunks - ChunkKeysUnder(chunks, cid))) + Total(P.ChunkSizes(under))
  {
    var sizes, ks := I.ChunkSizes(chunks), ChunkKeysUnder(chunks, cid);
    TotalSplit(sizes, ks);
    assert sizes - ks == I.ChunkSizes(chunks - ks);
    var key := (k: I.ChunkKey) => P.ChunkKey(k.parent.rid, k.index);
    forall l | l in P.ChunkSizes(under) ensures exists k :: k in Restrict(sizes, ks) && key(k) == l {
      var k := I.ChunkKey(ResourceKey(cid, l.id), l.index);
      assert P.ChunkKey(l.id, l.index) in under;
      assert k in Restrict(sizes, ks) && key(k) == l;
    }
    forall k | k in Restrict(sizes, ks) ensures key(k) in P.ChunkSizes(under) && P.ChunkSizes(under)[key(k)] == sizes[k] {
      assert I.ChunkKey(ResourceKey(cid, k.parent.rid), k.index) == k;
      assert P.ChunkKey(k.parent.rid, k.index) in under;
    }
    TotalRenamed(Restrict(sizes, ks), P.ChunkSizes(under), key);
  }

  lemma SlicesMirror(s: I.Space, cid: Cid)
    ensures ResourcesMirror(s.resources, cid, ResourcesUnder(s, cid)) && ChunksMirror(s.chunks, cid, ChunksUnder(s, cid))
  {
    forall rid {
      CollectionRead(s, cid, rid);
    }
    forall rid, i {
      ChunkRead(s, cid, rid, i);
    }
  }

  lemma ReplacedResourceBytes(a: I.Resources, b: I.Resources, cid: Cid, before: P.Resources, after: P.Resources)
    requires ResourcesMirror(a, cid, before) && ResourcesReplaced(a, b, cid, after)
    ensures Total(I.ResourceSizes(b)) == Total(I.ResourceSizes(a)) - Total(P.ResourceSizes(before)) + Total(P.ResourceSizes(after))
  {
    assert a - KeysUnder(a, cid) == b - KeysUnder(b, cid);
    assert ResourcesMirror(b, cid, after);
    ResourceBytesSplit(a, cid, before);
    ResourceBytesSplit(b, cid, after);
  }

  lemma ReplacedChunkBytes(a: I.Chunks, b: I.Chunks, cid: Cid, before: P.Chunks, after: P.Chunks)
    requires ChunksMirror(a, cid, before) && ChunksReplaced(a, b, cid, after)
    ensures Total(I.ChunkSizes(b)) == Total(I.ChunkSizes(a)) - Total(P.ChunkSizes(before)) + Total(P.ChunkSizes(after))
  {
    assert a - ChunkKeysUnder(a, cid) == b - ChunkKeysUnder(b, cid);
    assert ChunksMirror(b, cid, after);
    ChunkBytesSplit(a, cid, before);
    ChunkBytesSplit(b, cid, after);
  }

  /** Replacing a Collection's rows changes what is stored by what they differ in. */
  lemma ReplacedBytes(s: I.Space, t: I.Space, cid: Cid, before: P.Resources, beforeChunks: P.Chunks, after: P.Resources, afterChunks: P.Chunks)
    requires ResourcesMirror(s.resources, cid, before) && ChunksMirror(s.chunks, cid, beforeChunks)
    requires Replaced(s, t, cid, after, afterChunks)
    ensures I.StoredBytes(t) == I.StoredBytes(s) - P.StoredBytes(before, beforeChunks) + P.StoredBytes(after, afterChunks)
  {
    ReplacedResourceBytes(s.resources, t.resources, cid, before, after);
    ReplacedChunkBytes(s.chunks, t.chunks, cid, beforeChunks, afterChunks);
  }

  /** A Collection's share is part of what is stored. */
  lemma ShareIsStored(s: I.Space, cid: Cid, under: P.Resources, chunks: P.Chunks)
    requires ResourcesMirror(s.resources, cid, under) && ChunksMirror(s.chunks, cid, chunks)
    ensures P.StoredBytes(under, chunks) <= I.StoredBytes(s)
  {
    ResourceBytesSplit(s.resources, cid, under);
    ChunkBytesSplit(s.chunks, cid, chunks);
  }

  lemma ReplacedConsistent(json: iset<string>, s: I.Space, t: I.Space, cid: Cid, resources: P.Resources, chunks: P.Chunks, store: C.Store)
    requires I.Consistent(json, s) && I.ChunksRooted(s) && P.Represents(json, resources, chunks, store)
    requires Replaced(s, t, cid, resources, chunks)
    ensures I.Consistent(json, t) && I.ChunksRooted(t)
  {
    forall k | k in t.resources ensures RowConsistent(json, t.resources[k]) {
      if k.cid == cid { assert P.RowStandsFor(json, resources[k.rid], store[k.rid]); }
    }
    forall k | k in t.chunks ensures ChunkConsistent(t.chunks[k]) && I.Live(t, k.parent) {
      if k.parent.cid == cid {
        var j := P.ChunkKey(k.parent.rid, k.index);
        assert P.ChunkKey(j.id, j.index) in chunks <==> C.HasChunk(store, j.id, j.index);
        assert P.ChunkStandsFor(chunks[j], store[j.id].chunks[j.index]) && C.Rooted(store[j.id]);
        assert P.RowStandsFor(json, resources[j.id], store[j.id]);
      } else {
        assert I.Live(s, k.parent);
      }
    }
  }

  lemma OtherChunksStay(s: I.Space, t: I.Space, cid: Cid, resources: P.Resources, chunks: P.Chunks, k: ResourceKey)
    requires Replaced(s, t, cid, resources, chunks) && k.cid != cid
    ensures ChunksOf(t, k) == ChunksOf(s, k)
  {
    forall i ensures (i in ChunksOf(t, k) <==> i in ChunksOf(s, k)) && (i in ChunksOf(t, k) ==> ChunksOf(t, k)[i] == ChunksOf(s, k)[i]) {
      ChunkRead(s, k.cid, k.rid, i);
      ChunkRead(t, k.cid, k.rid, i);
      assert k == ResourceKey(k.cid, k.rid);
    }
  }

  lemma OtherCollectionStays(s: I.Space, t: I.Space, cid: Cid, resources: P.Resources, chunks: P.Chunks, other: Cid)
    requires Replaced(s, t, cid, resources, chunks) && other != cid
    ensures CollectionOf(t, other) == CollectionOf(s, other)
  {
    forall rid ensures (rid in CollectionOf(t, other) <==> rid in CollectionOf(s, other)) &&
                       (rid in CollectionOf(t, other) ==> CollectionOf(t, other)[rid] == CollectionOf(s, other)[rid])
    {
      CollectionRead(s, other, rid);
      CollectionRead(t, other, rid);
      OtherChunksStay(s, t, cid, resources, chunks, ResourceKey(other, rid));
    }
  }

  /** Replacing a Collection's rows by rows that stand for `store` makes it that, and leaves the others. */
  lemma ReplacedStandsFor(json: iset<string>, s: I.Space, t: I.Space, cid: Cid, resources: P.Resources, chunks: P.Chunks, store: C.Store)
    requires I.Consistent(json, s) && I.ChunksRooted(s) && P.Represents(json, resources, chunks, store)
    requires Replaced(s, t, cid, resources, chunks)
    ensures I.Consistent(json, t) && I.ChunksRooted(t)
    ensures CollectionOf(t, cid) == store
    ensures forall other :: other != cid ==> CollectionOf(t, other) == CollectionOf(s, other)
  {
    ReplacedConsistent(json, s, t, cid, resources, chunks, store);
    ReplacedResources(s, t, cid, resources, chunks);
    ReplacedChunks(s, t, cid, resources, chunks);
    RowsRepresent(json, t, cid);
    RepresentedOnce(json, resources, chunks, CollectionOf(t, cid), store);
    forall other | other != cid ensures CollectionOf(t, other) == CollectionOf(s, other) {
      OtherCollectionStays(s, t, cid, resources, chunks, other);
    }
  }

  // ---------- the bytes actually held ----------

  ghost function BodySizes(resources: I.Resources): map<ResourceKey, nat> {
    map k | k in resources :: if resources[k].content.Some? then |resources[k].content.value| else 0
  }

  ghost function ChunkBodySizes(chunks: I.Chunks): map<I.ChunkKey, nat> {
    map k | k in chunks :: |chunks[k].bytes|
  }

  /** The lengths of all representations and chunks, whatever any size column says. */
  ghost function HeldBytes(s: I.Space): nat {
    Total(BodySizes(s.resources)) + Total(ChunkBodySizes(s.chunks))
  }

  lemma StoredIsHeld(json: iset<string>, s: I.Space)
    requires I.Consistent(json, s)
    ensures I.StoredBytes(s) == HeldBytes(s)
  {
    assert I.ResourceSizes(s.resources) == BodySizes(s.resources);
    assert I.ChunkSizes(s.chunks) == ChunkBodySizes(s.chunks);
  }

  // ---------- the Space ----------

  /** The counter is what is stored, rows agree with their content, and every chunk has a live parent. */
  ghost predicate Sound(json: C.JsonTypes, s: I.Space, usage: int) {
    usage == I.StoredBytes(s) && I.Consistent(json, s) && I.ChunksRooted(s)
  }

  /** A placeholder row for a Collection that has none. */
  function WithPlaceholder(rows: map<Cid, I.CollectionRow>, cid: Cid): map<Cid, I.CollectionRow> {
    if cid in rows then rows else rows[cid := I.CollectionRow(None, None)]
  }

  /** A Collection has a row, a bare one if it had none, and the other rows stay. */
  predicate HasRow(rows: map<Cid, I.CollectionRow>, rows': map<Cid, I.CollectionRow>, cid: Cid) {
    && rows'.Keys == rows.Keys + {cid} && (forall c :: c in rows ==> rows'[c] == rows[c])
    && (cid !in rows ==> rows'[cid].description.None? && rows'[cid].metadata.None?)
  }

  /** The policy of the Collection, or of a Resource in it. */
  predicate IsUnder(k: PolicyKey, cid: Cid) {
    match k
    case OfSpace => false
    case OfCollection(c) => c == cid
    case OfResource(key) => key.cid == cid
  }

  /** The policies of the Collection and its Resources are gone, and no other is. */
  ghost predicate Unpoliced(policies: map<PolicyKey, string>, policies': map<PolicyKey, string>, cid: Cid) {
    forall k :: Lookup(policies', k) == if IsUnder(k, cid) then None else Lookup(policies, k)
  }

  lemma PlaceholderIsRow(rows: map<Cid, I.CollectionRow>, cid: Cid)
    ensures HasRow(rows, WithPlaceholder(rows, cid), cid)
  {
  }

  lemma OthersOutside(policies: map<PolicyKey, string>, cid: Cid)
    ensures Unpoliced(policies, PoliciesOutside(policies, cid), cid)
  {
  }

  /** The policies of the Space and of its other Collections. */
  function PoliciesOutside(policies: map<PolicyKey, string>, cid: Cid): map<PolicyKey, string> {
    map k | k in policies && (k.OfSpace? || CidOf(k) != cid) :: policies[k]
  }

  /** What is stored, and what a Collection's clients see, is in the Resource and chunk rows alone. */
  lemma SameRows(json: C.JsonTypes, s: I.Space, t: I.Space)
    requires t.resources == s.resources && t.chunks == s.chunks
    ensures I.StoredBytes(t) == I.StoredBytes(s)
    ensures I.Consistent(json, s) && I.ChunksRooted(s) ==> I.Consistent(json, t) && I.ChunksRooted(t)
    ensures forall cid :: CollectionOf(t, cid) == CollectionOf(s, cid)
  {
    forall cid ensures CollectionOf(t, cid) == CollectionOf(s, cid) {
      forall rid ensures (rid in CollectionOf(t, cid) <==> rid in CollectionOf(s, cid)) &&
                         (rid in CollectionOf(t, cid) ==> CollectionOf(t, cid)[rid] == CollectionOf(s, cid)[rid])
      {
        CollectionRead(s, cid, rid);
        CollectionRead(t, cid, rid);
        assert ChunksOf(t, ResourceKey(cid, rid)) == ChunksOf(s, ResourceKey(cid, rid));
      }
    }
  }

  /** The rows a Collection's transaction leaves, put back into the Space. */
  lemma RowsPutBack(json: C.JsonTypes, s: I.Space, usage: int, t: I.Space, after: int, cid: Cid, resources: P.Resources, chunks: P.Chunks,
                    store: C.Store)
    requires Sound(json, s, usage) && P.Represents(json, resources, chunks, store) && Replaced(s, t, cid, resources, chunks)
    requires after == I.StoredBytes(t)
    ensures Sound(json, t, after) && CollectionOf(t, cid) == store
    ensures forall other :: other != cid ==> CollectionOf(t, other) == CollectionOf(s, other)
  {
    ReplacedStandsFor(json, s, t, cid, resources, chunks, store);
  }

  lemma NothingRepresented(json: C.JsonTypes)
    ensures P.Represents(json, map[], map[], map[]) && P.StoredBytes(map[], map[]) == 0
  {
    P.NothingStored();
  }

  /** Dropping a Collection's rows returns exactly their bytes. */
  lemma DroppedBytes(s: I.Space, usage: int, t: I.Space, after: int, cid: Cid, own: P.Resources, ownChunks: P.Chunks)
    requires ResourcesMirror(s.resources, cid, own) && ChunksMirror(s.chunks, cid, ownChunks) && Replaced(s, t, cid, map[], map[])
    requires usage == I.StoredBytes(s) && after == usage - P.StoredBytes(own, ownChunks)
    ensures after == I.StoredBytes(t)
  {
    P.NothingStored();
    ReplacedBytes(s, t, cid, own, ownChunks, map[], map[]);
  }

  /** A Collection whose rows are gone. */
  lemma DroppedIsSound(json: C.JsonTypes, s: I.Space, usage: int, t: I.Space, after: int, cid: Cid)
    requires Sound(json, s, usage) && Replaced(s, t, cid, map[], map[]) && after == I.StoredBytes(t)
    ensures Sound(json, t, after) && CollectionOf(t, cid) == map[]
    ensures forall other :: other != cid ==> CollectionOf(t, other) == CollectionOf(s, other)
  {
    NothingRepresented(json);
    RowsPutBack(json, s, usage, t, after, cid, map[], map[], map[]);
  }

  /** One Collection's rows, read out of the Space. */
  method SelectRows(json: C.JsonTypes, s: I.Space, cid: Cid, ghost usage: int) returns (resources: P.Resources, chunks: P.Chunks)
    requires Sound(json, s, usage)
    ensures ResourcesMirror(s.resources, cid, resources) && ChunksMirror(s.chunks, cid, chunks)
    ensures P.Represents(json, resources, chunks, CollectionOf(s, cid)) && P.StoredBytes(resources, chunks) <= usage
  {
    resources, chunks := ResourcesUnder(s, cid), ChunksUnder(s, cid);
    RowsRepresent(json, s, cid);
    SlicesMirror(s, cid);
    ShareIsStored(s, cid, resources, chunks);
  }

  /** A Collection's transaction: its rows and the Space's counter before and after. */
  method Transact(json: C.JsonTypes, capacity: Option<nat>, resources: P.Resources, chunks: P.Chunks, ghost before: C.Store, usage: int,
                  op: C.Op, now: C.Time)
    returns (r: P.Outcome, resources': P.Resources, chunks': P.Chunks, ghost store: C.Store, after: int)
    requires P.Represents(json, resources, chunks, before) && P.StoredBytes(resources, chunks) <= usage
    ensures P.Represents(json, resources', chunks', store)
    ensures after == usage - P.StoredBytes(resources, chunks) + P.StoredBytes(resources', chunks')
    ensures r.QuotaExceeded? <==> P.OverQuota(before, op, now, usage, capacity)
    ensures r.Answered? ==> store == C.Apply(before, op, now).0 && r.answer == C.Apply(before, op, now).1
    ensures capacity.Some? && usage <= capacity.value ==> after <= capacity.value
  {
    var rows := new P.PostgresStore.FromRows(json, capacity, resources, chunks, usage, before);
    r := rows.Execute(op, now);
    resources', chunks', store, after := rows.resources, rows.chunks, rows.store, rows.usage;
  }

  lemma TransactedBytes(s: I.Space, t: I.Space, usage: int, after: int, cid: Cid, resources: P.Resources, chunks: P.Chunks,
                        resources': P.Resources, chunks': P.Chunks)
    requires ResourcesMirror(s.resources, cid, resources) && ChunksMirror(s.chunks, cid, chunks) && Replaced(s, t, cid, resources', chunks')
    requires usage == I.StoredBytes(s) && after == usage - P.StoredBytes(resources, chunks) + P.StoredBytes(resources', chunks')
    ensures after == I.StoredBytes(t)
  {
    ReplacedBytes(s, t, cid, resources, chunks, resources', chunks');
  }

  /** One operation on one Collection, in a transaction on its rows and the Space's counter. */
  method ExecuteOn(json: C.JsonTypes, capacity: Option<nat>, s: I.Space, usage: int, cid: Cid, op: C.Op, now: C.Time)
    returns (r: P.Outcome, t: I.Space, after: int)
    requires Sound(json, s, usage)
    ensures t.collections == s.collections && t.policies == s.policies
    ensures r.QuotaExceeded? <==> P.OverQuota(CollectionOf(s, cid), op, now, usage, capacity)
    ensures r.QuotaExceeded? ==> t == s && after == usage
    ensures r.Answered? ==> (CollectionOf(t, cid), r.answer) == C.Apply(CollectionOf(s, cid), op, now)
    ensures forall other :: other != cid ==> CollectionOf(t, other) == CollectionOf(s, other)
    ensures capacity.Some? && usage <= capacity.value ==> after <= capacity.value
    ensures Sound(json, t, after)
  {
    var resources, chunks := SelectRows(json, s, cid, usage);
    var resources', chunks'; ghost var store;
    r, resources', chunks', store, after := Transact(json, capacity, resources, chunks, CollectionOf(s, cid), usage, op, now);
    if r.QuotaExceeded? {
      return r, s, usage;
    }
    t := PutBack(s, cid, resources', chunks');
    TransactedBytes(s, t, usage, after, cid, resources, chunks, resources', chunks');
    RowsPutBack(json, s, usage, t, after, cid, resources', chunks', store);
  }

  lemma ImportIsSound(setting: I.Setting, archive: Archive, s: I.Space, usage: int, t: I.Space, after: int, stats: R.Stats, createdBytes: int)
    requires Sound(setting.json, s, usage) && I.ImportDone(setting, archive, s, t, stats, createdBytes) && after == usage + createdBytes
    ensures Sound(setting.json, t, after) && I.ImportDone(setting, archive, s, t, stats, after - usage)
  {
    assert after - usage == createdBytes;
    forall k | k in t.chunks ensures I.Live(t, k.parent) {
      if k in s.chunks { assert I.Live(s, k.parent); }
    }
  }

  /** The capacity holds, though the charge itself is not checked again. */
  lemma ImportFits(setting: I.Setting, rejects: Rejects, archive: Archive, s: I.Space, usage: int, t: I.Space, stats: R.Stats, createdBytes: int)
    requires I.Verdict(setting.limits, rejects, s, usage, archive).None? && I.ImportDone(setting, archive, s, t, stats, createdBytes)
    ensures setting.limits.capacity.Some? ==> usage + createdBytes <= setting.limits.capacity.value
  {
  }

  method ImportInto(setting: I.Setting, rejects: Rejects, archive: Archive, s: I.Space, usage: int)
    returns (res: Result<R.Stats, Refusal>, t: I.Space, after: int)
    requires Sound(setting.json, s, usage)
    ensures (if res.Err? then Some(res.error) else None) == I.Verdict(setting.limits, rejects, s, usage, archive)
    ensures res.Err? ==> t == s && after == usage
    ensures res.Ok? ==> I.ImportDone(setting, archive, s, t, res.value, after - usage)
    ensures setting.limits.capacity.Some? && usage <= setting.limits.capacity.value ==> after <= setting.limits.capacity.value
    ensures Sound(setting.json, t, after)
  {
    var applied := I.Import(setting, rejects, archive, s, usage);
    if applied.Err? {
      return Err(applied.error), s, usage;
    }
    var w := applied.value;
    t, after := w.space, usage + w.createdBytes;
    ImportIsSound(setting, archive, s, usage, t, after, w.stats, w.createdBytes);
    ImportFits(setting, rejects, archive, s, usage, t, w.stats, w.createdBytes);
    return Ok(w.stats), t, after;
  }

  method DropFrom(s: I.Space, cid: Cid) returns (t: I.Space)
    ensures Replaced(s, t, cid, map[], map[])
    ensures t.collections == s.collections - {cid} && Unpoliced(s.policies, t.policies, cid)
  {
    OthersOutside(s.policies, cid);
    var rows := PutBack(s, cid, map[], map[]);
    t := rows.(collections := rows.collections - {cid}, policies := PoliciesOutside(rows.policies, cid));
  }

  /** The counter without the size columns of some rows; clamped at zero, which it never reaches this way. */
  method Uncharged(usage: int, resources: P.Resources, chunks: P.Chunks) returns (after: int)
    requires P.StoredBytes(resources, chunks) <= usage
    ensures after == usage - P.StoredBytes(resources, chunks) && after <= usage
  {
    var resourceBytes := P.SumResourceSizes(resources);
    var chunkBytes := P.SumSizes(chunks, chunks.Keys);
    assert Restrict(P.ChunkSizes(chunks), chunks.Keys) == P.ChunkSizes(chunks);
    var freedBytes := resourceBytes + chunkBytes;
    return if usage - freedBytes < 0 then 0 else usage - freedBytes;
  }

  method DropCollection(json: C.JsonTypes, s: I.Space, usage: int, cid: Cid) returns (t: I.Space, after: int)
    requires Sound(json, s, usage)
    ensures Replaced(s, t, cid, map[], map[]) && after <= usage
    ensures t.collections == s.collections - {cid} && Unpoliced(s.policies, t.policies, cid)
    ensures CollectionOf(t, cid) == map[]
    ensures forall other :: other != cid ==> CollectionOf(t, other) == CollectionOf(s, other)
    ensures Sound(json, t, after)
  {
    var resources, chunks := SelectRows(json, s, cid, usage);
    after := Uncharged(usage, resources, chunks);
    t := DropFrom(s, cid);
    DroppedBytes(s, usage, t, after, cid, resources, chunks);
    DroppedIsSound(json, s, usage, t, after, cid);
  }

  method WriteCollectionRows(json: C.JsonTypes, s: I.Space, ghost usage: int, rows: map<Cid, I.CollectionRow>) returns (t: I.Space)
    requires Sound(json, s, usage)
    ensures t.policies == s.policies && t.collections == rows
    ensures forall any :: CollectionOf(t, any) == CollectionOf(s, any)
    ensures Sound(json, t, usage)
  {
    t := s.(collections := rows);
    SameRows(json, s, t);
  }

  method ExecuteInto(json: C.JsonTypes, capacity: Option<nat>, s: I.Space, usage: int, cid: Cid, op: C.Op, now: C.Time)
    returns (r: P.Outcome, t: I.Space, after: int)
    requires Sound(json, s, usage)
    ensures t.policies == s.policies
    ensures r.QuotaExceeded? <==> P.OverQuota(CollectionOf(s, cid), op, now, usage, capacity)
    ensures r.QuotaExceeded? ==> t == s && after == usage
    ensures r.Answered? ==> (CollectionOf(t, cid), r.answer) == C.Apply(CollectionOf(s, cid), op, now)
    ensures forall other :: other != cid ==> CollectionOf(t, other) == CollectionOf(s, other)
    ensures if r.Answered? && r.answer.Version? && op.Put? then HasRow(s.collections, t.collections, cid) else t.collections == s.collections
    ensures capacity.Some? && usage <= capacity.value ==> after <= capacity.value
    ensures Sound(json, t, after)
  {
    r, t, after := ExecuteOn(json, capacity, s, usage, cid, op, now);
    if r.Answered? && r.answer.Version? && op.Put? {
      t := WriteCollectionRows(json, t, after, WithPlaceholder(s.collections, cid));
      PlaceholderIsRow(s.collections, cid);
    }
  }

  class PostgresSpace {
    const limits: Limits
    const json: C.JsonTypes
    var space: I.Space
    var usage: int

    ghost predicate Valid()
      reads this
    {
      Sound(json, space, usage)
    }

    constructor (limits: Limits, json: C.JsonTypes)
      ensures Valid() && space == I.Space(map[], map[], map[], map[]) && usage == 0
      ensures this.limits == limits && this.json == json
    {
      this.limits, this.json := limits, json;
      space, usage := I.Space(map[], map[], map[], map[]), 0;
      assert I.ResourceSizes(map[]) == map[] && I.ChunkSizes(map[]) == map[];
    }

    /** A write, metadata write, delete, chunk write or chunk delete in one Collection: that Collection changes as
        its machine says, no other does, and it is refused for the quota exactly when its growth does not fit. */
    method Execute(cid: Cid, op: C.Op, now: C.Time) returns (r: P.Outcome)
      requires Valid()
      modifies this
      ensures space.policies == old(space).policies
      ensures r.QuotaExceeded? <==> P.OverQuota(CollectionOf(old(space), cid), op, now, old(usage), limits.capacity)
      ensures r.QuotaExceeded? ==> space == old(space) && usage == old(usage)
      ensures r.Answered? ==> (CollectionOf(space, cid), r.answer) == C.Apply(CollectionOf(old(space), cid), op, now)
      ensures forall other :: other != cid ==> CollectionOf(space, other) == CollectionOf(old(space), other)
      // a content write that takes effect has its Collection's row
      ensures if r.Answered? && r.answer.Version? && op.Put? then HasRow(old(space).collections, space.collections, cid)
              else space.collections == old(space).collections
      ensures limits.capacity.Some? && old(usage) <= limits.capacity.value ==> usage <= limits.capacity.value
      ensures Valid()
    {
      var t, after;
      r, t, after := ExecuteInto(json, limits.capacity, space, usage, cid, op, now);
      space, usage := t, after;
    }

    /** Dropping a Collection takes its row, its Resources and chunks and the policies under it, and returns exactly
        the bytes of those rows. */
    method DeleteCollection(cid: Cid)
      requires Valid()
      modifies this
      ensures Replaced(old(space), space, cid, map[], map[]) && usage <= old(usage)
      ensures space.collections == old(space).collections - {cid} && Unpoliced(old(space).policies, space.policies, cid)
      ensures CollectionOf(space, cid) == map[]
      ensures forall other :: other != cid ==> CollectionOf(space, other) == CollectionOf(old(space), other)
      ensures Valid()
    {
      var t, after := DropCollection(json, space, usage, cid);
      space, usage := t, after;
    }

    /** A policy is stored whether or not what it is for is there. */
    method WritePolicy(k: PolicyKey, policy: string)
      requires Valid()
      modifies this`space
      ensures space.policies == old(space).policies[k := policy]
      ensures space.resources == old(space).resources && space.chunks == old(space).chunks
      ensures match k
              case OfSpace => space.collections == old(space).collections
              case OfCollection(cid) => HasRow(old(space).collections, space.collections, cid)
              case OfResource(key) => HasRow(old(space).collections, space.collections, key.cid)
      ensures Valid()
    {
      var rows := if k.OfSpace? then space.collections else WithPlaceholder(space.collections, CidOf(k));
      if !k.OfSpace? { PlaceholderIsRow(space.collections, CidOf(k)); }
      var t := space.(collections := rows, policies := space.policies[k := policy]);
      SameRows(json, space, t);
      space := t;
    }

    /** The whole import, in one transaction: refused exactly as its verdict says, and then without a trace;
        otherwise a merge that brings exactly what the archive has and the Space lacks. */
    method ImportSpace(archive: Archive, rejects: Rejects, now: string) returns (res: Result<R.Stats, Refusal>)
      requires Valid()
      modifies this
      ensures (if res.Err? then Some(res.error) else None) == I.Verdict(limits, rejects, old(space), old(usage), archive)
      ensures res.Err? ==> space == old(space) && usage == old(usage)
      ensures res.Ok? ==> I.ImportDone(I.Setting(limits, json, now), archive, old(space), space, res.value, usage - old(usage))
      // the capacity holds, though the charge itself is not checked again
      ensures limits.capacity.Some? && old(usage) <= limits.capacity.value ==> usage <= limits.capacity.value
      ensures Valid()
    {
      var t, after;
      res, t, after := ImportInto(I.Setting(limits, json, now), rejects, archive, space, usage);
      space, usage := t, after;
    }
  }

  /** Importing an archive again creates nothing and changes nothing; it is refused, and then for the capacity,
      exactly when the archive's bytes do not fit beside what is stored, though all of them would be skipped. */
  method ImportTwice(target: PostgresSpace, archive: Archive, rejects: Rejects, now: string, later: string)
    returns (first: Result<R.Stats, Refusal>, second: Result<R.Stats, Refusal>, ghost once: I.Space)
    requires target.Valid()
    modifies target
    ensures target.Valid() && (first.Ok? ==> I.Merged(old(target.space), once) && target.space == once)
    ensures first.Ok? ==>
              (second.Ok? <==> target.limits.capacity.None? || target.usage + I.StagedBytes(archive) <= target.limits.capacity.value)
    ensures first.Ok? && second.Ok? ==> R.NothingCreated(second.value)
    ensures first.Ok? && second.Err? ==> second.error == QuotaExceeded
  {
    ghost var before, used := target.space, target.usage;
    first := target.ImportSpace(archive, rejects, now);
    once := target.space;
    ghost var usedOnce := target.usage;
    second := target.ImportSpace(archive, rejects, later);
    if first.Ok? {
      ghost var setting := I.Setting(target.limits, target.json, now);
      I.SecondVerdict(setting, rejects, archive, before, used, once, usedOnce);
      if second.Ok? {
        I.SecondImportChangesNothing(setting, I.Setting(target.limits, target.json, later), archive, before, once, target.space,
                                     second.value, target.usage - usedOnce);
      }
    }
  }

  // ---------- mixed histories ----------

  datatype Event =
    | Write(cid: Cid, op: C.Op, now: C.Time)
    | Drop(cid: Cid)
    | Policy(k: PolicyKey, policy: string)
    | Import(archive: Archive, rejects: Rejects, now: C.Time)

  datatype Moment = Moment(space: I.Space, usage: int)

  /** What each kind of event may do. */
  ghost predicate Follows(limits: Limits, json: C.JsonTypes, a: Moment, event: Event, b: Moment) {
    match event
    case Write(cid, op, now) =>
      if P.OverQuota(CollectionOf(a.space, cid), op, now, a.usage, limits.capacity) then b == a
      else
        && CollectionOf(b.space, cid) == C.Apply(CollectionOf(a.space, cid), op, now).0 && b.space.policies == a.space.policies
        && forall other :: other != cid ==> CollectionOf(b.space, other) == CollectionOf(a.space, other)
    case Drop(cid) =>
      && CollectionOf(b.space, cid) == map[]
      && (forall other :: other != cid ==> CollectionOf(b.space, other) == CollectionOf(a.space, other))
      && Unpoliced(a.space.policies, b.space.policies, cid)
    case Policy(k, policy) =>
      b.space.policies == a.space.policies[k := policy] && b.space.resources == a.space.resources && b.space.chunks == a.space.chunks && b.usage == a.usage
    case Import(archive, rejects, now) =>
      if I.Verdict(limits, rejects, a.space, a.usage, archive).Some? then b == a
      else I.Merged(a.space, b.space) && I.ImportBrought(I.Setting(limits, json, now), archive, a.space, b.space)
  }

  method Happen(target: PostgresSpace, event: Event)
    requires target.Valid()
    modifies target
    ensures Follows(target.limits, target.json, Moment(old(target.space), old(target.usage)), event, Moment(target.space, target.usage))
    ensures target.limits.capacity.Some? && old(target.usage) <= target.limits.capacity.value ==> target.usage <= target.limits.capacity.value
    ensures target.Valid()
  {
    match event {
      case Write(cid, op, now) => var r := target.Execute(cid, op, now);
      case Drop(cid) => target.DeleteCollection(cid);
      case Policy(k, policy) => target.WritePolicy(k, policy);
      case Import(archive, rejects, now) => var res := target.ImportSpace(archive, rejects, now);
    }
  }

  /** The counter is the number of bytes held, every chunk is under a live Resource, and no quota is passed. */
  ghost predicate Balanced(limits: Limits, m: Moment) {
    m.usage == HeldBytes(m.space) && I.ChunksRooted(m.space) && (limits.capacity.Some? ==> m.usage <= limits.capacity.value)
  }

  const START := Moment(I.Space(map[], map[], map[], map[]), 0)

  /** The Space from empty through the events, one moment after each. */
  ghost predicate IsHistory(next: (Moment, Event, Moment) -> bool, good: Moment -> bool, events: seq<Event>, moments: seq<Moment>) {
    && |moments| == |events| + 1 && moments[0] == START
    && (forall i :: 0 <= i < |events| ==> next(moments[i], events[i], moments[i + 1]))
    && (forall i :: 0 <= i < |moments| ==> good(moments[i]))
  }

  lemma HistoryAdvances(next: (Moment, Event, Moment) -> bool, good: Moment -> bool, events: seq<Event>, n: nat, moments: seq<Moment>, m: Moment)
    requires n < |events| && IsHistory(next, good, events[..n], moments) && next(moments[n], events[n], m) && good(m)
    ensures IsHistory(next, good, events[..n + 1], moments + [m])
  {
    var es, ms := events[..n + 1], moments + [m];
    forall i | 0 <= i < |es| ensures next(ms[i], es[i], ms[i + 1]) {
      if i < n { assert next(moments[i], events[..n][i], moments[i + 1]); }
    }
  }

  ghost function Next(limits: Limits, json: C.JsonTypes): (Moment, Event, Moment) -> bool {
    (a, event, b) => Follows(limits, json, a, event, b)
  }

  ghost function Good(limits: Limits): Moment -> bool {
    m => Balanced(limits, m)
  }

  lemma SoundIsBalanced(limits: Limits, json: C.JsonTypes, m: Moment)
    requires Sound(json, m.space, m.usage) && (limits.capacity.Some? ==> m.usage <= limits.capacity.value)
    ensures Balanced(limits, m)
  {
    StoredIsHeld(json, m.space);
  }

  method Start(limits: Limits, json: C.JsonTypes) returns (target: PostgresSpace)
    ensures fresh(target) && target.limits == limits && target.json == json
    ensures IsHistory(Next(limits, json), Good(limits), [], [START]) && START == Moment(target.space, target.usage)
    ensures target.Valid()
  {
    target := new PostgresSpace(limits, json);
    SoundIsBalanced(limits, json, START);
  }

  method Advance(target: PostgresSpace, events: seq<Event>, n: nat, ghost moments: seq<Moment>)
    requires n < |events| && IsHistory(Next(target.limits, target.json), Good(target.limits), events[..n], moments) && moments[n] == Moment(target.space, target.usage)
    requires target.Valid()
    modifies target
    ensures IsHistory(Next(target.limits, target.json), Good(target.limits), events[..n + 1], moments + [Moment(target.space, target.usage)])
    ensures target.Valid()
  {
    assert Good(target.limits)(moments[n]);
    Happen(target, events[n]);
    SoundIsBalanced(target.limits, target.json, Moment(target.space, target.usage));
    HistoryAdvances(Next(target.limits, target.json), Good(target.limits), events, n, moments, Moment(target.space, target.usage));
  }

  /** Any history of writes and deletes in any Collections, Collection deletes, policy writes and imports: each event
      does what it may, and at every moment the counter is exactly what is held. */
  method RunHistory(limits: Limits, json: C.JsonTypes, events: seq<Event>) returns (target: PostgresSpace, ghost moments: seq<Moment>)
    ensures fresh(target) && target.Valid() && target.usage == HeldBytes(target.space)
    ensures IsHistory(Next(limits, json), Good(limits), events, moments) && moments[|events|] == Moment(target.space, target.usage)
  {
    target := Start(limits, json);
    moments := [START];
    assert events[..0] == [];
    for n := 0 to |events|
      invariant fresh(target) && target.limits == limits && target.json == json
      invariant IsHistory(Next(limits, json), Good(limits), events[..n], moments) && moments[n] == Moment(target.space, target.usage)
      invariant target.Valid()
    {
      Advance(target, events, n, moments);
      moments := moments + [Moment(target.space, target.usage)];
    }
    assert events[..|events|] == events;
    StoredIsHeld(json, target.space);
  }

  // ---------- two imports worth knowing ----------

  /** An archive of one Collection with one Resource. */
  function OneResourceArchive(cid: Cid, rid: Rid, body: Bytes, policies: map<Rid, string>): Archive {
    var c := ArchivedCollection(cid, "", None, None, [ArchivedResource(rid, "text/plain", body)], policies, map[], []);
    assert OneEntryEach([c]);
    Archive(None, [c])
  }

  lemma OneBodyStaged(cid: Cid, rid: Rid, body: Bytes, policies: map<Rid, string>)
    ensures I.StagedBytes(OneResourceArchive(cid, rid, body, policies)) == |body|
    ensures I.AllSlots(OneResourceArchive(cid, rid, body, policies).collections) == map[]
  {
    var c := OneResourceArchive(cid, rid, body, policies).collections[0];
    assert [c][..0] == [] && c.resources[..0] == [];
    assert BodyBytes(c.resources[..0]) == 0 && BodyBytes(c.resources) == |body|;
    assert CollectionBytes([c][..0], false) == 0 && CollectionBytes([c], false) == |body|;
    assert I.AllSlots([c]) == I.SlotsOf(map[], cid, c.chunkFiles) == map[];
    assert I.BodySizes(map[]) == map[] && I.StagedChunkBytes(map[]) == 0;
    assert OneResourceArchive(cid, rid, body, policies).collections == [c];
  }

  /** Without limits but a capacity, only that can refuse it. */
  lemma OneBodyVerdict(limits: Limits, cid: Cid, rid: Rid, body: Bytes, policies: map<Rid, string>, s: I.Space, usage: int)
    requires limits.maxUpload.None? && limits.maxCollections.None? && limits.maxResources.None?
    requires limits.capacity.Some? ==> usage + |body| <= limits.capacity.value
    ensures I.Verdict(limits, iset{}, s, usage, OneResourceArchive(cid, rid, body, policies)).None?
  {
    var archive := OneResourceArchive(cid, rid, body, policies);
    OneBodyStaged(cid, rid, body, policies);
    var c := archive.collections[0];
    assert archive.collections == [c] && [c][..0] == [] && c.resources[..0] == [];
    assert ResourcesOffence(None, iset{}, EffectiveDescription(I.Descriptions(s), c), c.resources).None?;
    assert PlanOffence(None, iset{}, I.Descriptions(s), [c], false).None?;
    assert CountRefusal(limits, [c], WithSpacePolicy(None, I.ViewOf(s))).None?;
  }

  /** The Resource and its bytes are there afterwards, if nothing held its id. */
  lemma OneRowArrives(setting: I.Setting, cid: Cid, rid: Rid, body: Bytes, policies: map<Rid, string>, s: I.Space, t: I.Space)
    requires I.ViewOf(t) == Imported(OneResourceArchive(cid, rid, body, policies), I.ViewOf(s))
    ensures ResourceKey(cid, rid) in t.resources
  {
    var archive := OneResourceArchive(cid, rid, body, policies);
    var c := archive.collections[0];
    MergedIds(archive.collections, WithSpacePolicy(archive.spacePolicy, I.ViewOf(s)));
    assert c.resources[0] in c.resources;
    KeysAreArchived(archive.collections, c);
    assert ResourceKey(cid, rid) in KeysOf(cid, RidsOf(c.resources));
  }

  lemma OneRowSize(setting: I.Setting, cid: Cid, rid: Rid, body: Bytes, policies: map<Rid, string>, before: I.Resources, after: I.Resources)
    requires I.RowsAsArchived(setting, OneResourceArchive(cid, rid, body, policies).collections, before, after)
    requires ResourceKey(cid, rid) in after && ResourceKey(cid, rid) !in before
    ensures after[ResourceKey(cid, rid)].sizeBytes == |body|
  {
    var c := OneResourceArchive(cid, rid, body, policies).collections[0];
    assert c.resources[0] in c.resources && c.resources[0].rid == rid;
  }

  lemma OneBodyArrives(setting: I.Setting, cid: Cid, rid: Rid, body: Bytes, policies: map<Rid, string>, s: I.Space, t: I.Space)
    requires I.ImportBrought(setting, OneResourceArchive(cid, rid, body, policies), s, t) && ResourceKey(cid, rid) !in s.resources
    ensures |body| <= I.StoredBytes(t)
  {
    OneRowArrives(setting, cid, rid, body, policies, s, t);
    OneRowSize(setting, cid, rid, body, policies, s.resources, t.resources);
    TotalRemove(I.ResourceSizes(t.resources), ResourceKey(cid, rid));
  }

  /** An import that fits is refused the second time: everything it stages would be skipped, and is counted. */
  method SecondImportIsRefused(json: C.JsonTypes, now: C.Time) returns (first: Result<R.Stats, Refusal>, second: Result<R.Stats, Refusal>)
    ensures first.Ok? && second == Err(QuotaExceeded)
  {
    var limits := Limits(Some(10), None, None, None);
    var archive := OneResourceArchive("c", "r", "123456", map[]);
    var target := new PostgresSpace(limits, json);
    OneBodyVerdict(limits, "c", "r", "123456", map[], target.space, 0);
    OneBodyStaged("c", "r", "123456", map[]);
    ghost var before := target.space;
    first := target.ImportSpace(archive, iset{}, now);
    var setting := I.Setting(limits, json, now);
    OneBodyArrives(setting, "c", "r", "123456", map[], before, target.space);
    I.SecondVerdict(setting, iset{}, archive, before, 0, target.space, target.usage);
    second := target.ImportSpace(archive, iset{}, now);
  }

  /** A policy stored before its Resource exists does not survive the Resource's import with another. */
  method OrphanPolicyIsReplaced(json: C.JsonTypes, now: C.Time, cid: Cid, rid: Rid, mine: string, theirs: string)
    returns (target: PostgresSpace, stored: I.Space, res: Result<R.Stats, Refusal>)
    ensures var k := OfResource(ResourceKey(cid, rid));
            && Lookup(stored.policies, k) == Some(mine) && res.Ok? && Lookup(target.space.policies, k) == Some(theirs)
  {
    var limits := Limits(None, None, None, None);
    var archive := OneResourceArchive(cid, rid, "", map[rid := theirs]);
    var k := OfResource(ResourceKey(cid, rid));
    target := new PostgresSpace(limits, json);
    target.WritePolicy(k, mine);
    stored := target.space;
    OneBodyVerdict(limits, cid, rid, "", map[rid := theirs], target.space, target.usage);
    res := target.ImportSpace(archive, iset{}, now);
    OnePolicyCarried(cid, rid, "", map[rid := theirs]);
    PoliciesAfter(archive, I.ViewOf(stored), k);
  }

  lemma OnePolicyCarried(cid: Cid, rid: Rid, body: Bytes, policies: map<Rid, string>)
    ensures Carried(OneResourceArchive(cid, rid, body, policies), OfResource(ResourceKey(cid, rid))) == Lookup(policies, rid)
  {
    var c := OneResourceArchive(cid, rid, body, policies).collections[0];
    assert c.resources[0] in c.resources && [c][..0] == [];
    assert PolicyIn(c, OfResource(ResourceKey(cid, rid))) == Lookup(policies, rid);
    assert CollectionPolicyCarried([c][..0], OfResource(ResourceKey(cid, rid))) == None;
  }
}
