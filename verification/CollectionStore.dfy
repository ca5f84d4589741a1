/**
 One Collection as both backends present it: live Resources and tombstones, each with its chunks, under
 content writes, metadata writes, deletes, chunk writes and chunk deletes. Clock readings are inputs.
 */
module CollectionStore {
  import ChangeFeed
  import opened Preconditions
  import opened Wrappers

  type Id = string
  type Bytes = string
  type Time = string

  /** The user-writable object as its JSON text; `{}` clears it. */
  const EMPTY_CUSTOM := "{}"

  /** Which media types hold JSON documents. */
  type JsonTypes = iset<string>

  datatype Chunk = Chunk(contentType: string, bytes: Bytes, version: nat)

  /** A tombstone is a Resource without content. */
  datatype Resource = Resource(
    contentType: string, content: Option<Bytes>, version: nat, metaVersion: Option<nat>, custom: Option<string>,
    epoch: Option<string>, createdBy: Option<string>, createdAt: Time, updatedAt: Time, chunks: map<nat, Chunk>)

  type Store = map<Id, Resource>

  datatype Op =
    | Put(id: Id, contentType: string, bytes: Bytes, creator: Option<string>, epoch: Option<string>, guard: Guard)
    | PutMeta(id: Id, custom: string, epoch: Option<string>, guard: Guard)
    | Delete(id: Id, ifMatch: Option<string>)
    | PutChunk(id: Id, index: nat, contentType: string, bytes: Bytes, guard: Guard)
    | DeleteChunk(id: Id, index: nat, ifMatch: Option<string>)

  datatype Answer =
    | Version(version: nat)
    | MetaVersion(metaVersion: nat)
    | Done
    | Removed(removed: bool)
    | NotFound
    | PreconditionFailed

  predicate Live(s: Store, id: Id) {
    id in s && s[id].content.Some?
  }

  function VersionOf(s: Store, id: Id): nat {
    if id in s then s[id].version else 0
  }

  function ChunkVersion(s: Store, id: Id, index: nat): nat {
    if id in s && index in s[id].chunks then s[id].chunks[index].version else 0
  }

  predicate HasChunk(s: Store, id: Id, index: nat) {
    id in s && index in s[id].chunks
  }

  /** A content write: the creator and creation time belong to the first write ever made under the id,
      tombstones included; the epoch is this write's or none. */
  function AfterPut(s: Store, op: Op, now: Time): Resource
    requires op.Put?
  {
    if op.id in s then
      s[op.id].(contentType := op.contentType, content := Some(op.bytes), version := s[op.id].version + 1,
                epoch := op.epoch, updatedAt := now)
    else
      Resource(op.contentType, Some(op.bytes), 1, None, None, op.epoch, op.creator, now, now, map[])
  }

  /** A metadata write replaces `custom` whole; it keeps the epoch it does not name, and the content version. */
  function AfterPutMeta(r: Resource, op: Op, now: Time): Resource
    requires op.PutMeta?
  {
    r.(custom := if op.custom == EMPTY_CUSTOM then None else Some(op.custom), metaVersion := Some(r.metaVersion.GetOr(0) + 1),
       epoch := if op.epoch.Some? then op.epoch else r.epoch, updatedAt := now)
  }

  /** A delete drops content, metadata, epoch and chunks; the tombstone keeps the media type and the origin. */
  function Tombstone(r: Resource, now: Time): Resource {
    r.(content := None, version := r.version + 1, metaVersion := None, custom := None, epoch := None,
       updatedAt := now, chunks := map[])
  }

  function WithChunk(s: Store, op: Op): Resource
    requires op.PutChunk? && op.id in s
  {
    s[op.id].(chunks := s[op.id].chunks[op.index := Chunk(op.contentType, op.bytes, ChunkVersion(s, op.id, op.index) + 1)])
  }

  function ApplyPut(s: Store, op: Op, now: Time): (Store, Answer)
    requires op.Put?
  {
    if !WriteAllowed(Live(s, op.id), VersionOf(s, op.id), op.guard) then (s, PreconditionFailed)
    else (s[op.id := AfterPut(s, op, now)], Version(VersionOf(s, op.id) + 1))
  }

  function ApplyPutMeta(s: Store, op: Op, now: Time): (Store, Answer)
    requires op.PutMeta?
  {
    if !Live(s, op.id) then (s, NotFound)
    else if !MetaWriteAllowed(s[op.id].metaVersion, op.guard) then (s, PreconditionFailed)
    else (s[op.id := AfterPutMeta(s[op.id], op, now)], MetaVersion(s[op.id].metaVersion.GetOr(0) + 1))
  }

  /** Deleting what is not there succeeds and changes nothing, so a tombstone keeps its place in the feed. */
  function ApplyDelete(s: Store, op: Op, now: Time): (Store, Answer)
    requires op.Delete?
  {
    if !WriteAllowed(Live(s, op.id), VersionOf(s, op.id), Guard(op.ifMatch, false)) then (s, PreconditionFailed)
    else if !Live(s, op.id) then (s, Done)
    else (s[op.id := Tombstone(s[op.id], now)], Done)
  }

  function ApplyPutChunk(s: Store, op: Op): (Store, Answer)
    requires op.PutChunk?
  {
    if !Live(s, op.id) then (s, NotFound)
    else if !WriteAllowed(HasChunk(s, op.id, op.index), ChunkVersion(s, op.id, op.index), op.guard) then (s, PreconditionFailed)
    else (s[op.id := WithChunk(s, op)], Version(ChunkVersion(s, op.id, op.index) + 1))
  }

  /** A chunk leaves nothing behind, and deleting an absent one is reported. */
  function ApplyDeleteChunk(s: Store, op: Op): (Store, Answer)
    requires op.DeleteChunk?
  {
    if !HasChunk(s, op.id, op.index) then (s, Removed(false))
    else if !WriteAllowed(true, ChunkVersion(s, op.id, op.index), Guard(op.ifMatch, false)) then (s, PreconditionFailed)
    else (s[op.id := s[op.id].(chunks := s[op.id].chunks - {op.index})], Removed(true))
  }

  function Apply(s: Store, op: Op, now: Time): (Store, Answer) {
    match op
    case Put(_, _, _, _, _, _) => ApplyPut(s, op, now)
    case PutMeta(_, _, _, _) => ApplyPutMeta(s, op, now)
    case Delete(_, _) => ApplyDelete(s, op, now)
    case PutChunk(_, _, _, _, _) => ApplyPutChunk(s, op)
    case DeleteChunk(_, _, _) => ApplyDeleteChunk(s, op)
  }

  // ---------- what clients read ----------

  datatype Metadata = Metadata(
    contentType: string, size: nat, createdAt: Time, updatedAt: Time, createdBy: Option<string>, custom: Option<string>,
    epoch: Option<string>, version: nat, metaVersion: Option<nat>)

  datatype Representation = Representation(contentType: string, bytes: Bytes, version: nat)

  function ResourceOf(s: Store, id: Id): Option<Representation> {
    if Live(s, id) then Some(Representation(s[id].contentType, s[id].content.value, s[id].version)) else None
  }

  function MetadataOf(s: Store, id: Id): Option<Metadata> {
    if !Live(s, id) then None
    else
      var r := s[id];
      Some(Metadata(r.contentType, |r.content.value|, r.createdAt, r.updatedAt, r.createdBy, r.custom, r.epoch, r.version, r.metaVersion))
  }

  function ChunkOf(s: Store, id: Id, index: nat): Option<Chunk> {
    if HasChunk(s, id, index) then Some(s[id].chunks[index]) else None
  }

  datatype ListedChunk = ListedChunk(index: nat, size: nat, contentType: string, version: nat)

  function Listed(index: nat, c: Chunk): ListedChunk {
    ListedChunk(index, |c.bytes|, c.contentType, c.version)
  }

  function ChunksOf(s: Store, id: Id): map<nat, Chunk> {
    if id in s then s[id].chunks else map[]
  }

  predicate ByIndex(l: seq<ListedChunk>) {
    forall i, j :: 0 <= i < j < |l| ==> l[i].index < l[j].index
  }

  /** A chunk listing: every chunk once, by ascending index. */
  ghost predicate IsListing(chunks: map<nat, Chunk>, l: seq<ListedChunk>) {
    ByIndex(l) && forall e :: e in l <==> e.index in chunks && e == Listed(e.index, chunks[e.index])
  }

  lemma FirstHasLeastIndex(l: seq<ListedChunk>, e: ListedChunk)
    requires ByIndex(l) && e in l
    ensures e == l[0] || l[0].index < e.index
  {
    var i :| 0 <= i < |l| && l[i] == e;
  }

  lemma {:induction false} SortedIsUnique(a: seq<ListedChunk>, b: seq<ListedChunk>)
    requires ByIndex(a) && ByIndex(b) && forall e :: e in a <==> e in b
    ensures a == b
  {
    if a == [] {
      assert forall i :: 0 <= i < |b| ==> b[i] in b;
    } else {
      assert a[0] in a;
      FirstHasLeastIndex(b, a[0]);
      assert b[0] in b;
      FirstHasLeastIndex(a, b[0]);
      assert a == [a[0]] + a[1..] && b == [b[0]] + b[1..];
      forall e ensures e in a[1..] <==> e in b[1..] {
        assert e in a <==> e in b;
      }
      SortedIsUnique(a[1..], b[1..]);
    }
  }

  /** There is one listing of any set of chunks. */
  lemma ListingIsUnique(chunks: map<nat, Chunk>, a: seq<ListedChunk>, b: seq<ListedChunk>)
    requires IsListing(chunks, a) && IsListing(chunks, b)
    ensures a == b
  {
    SortedIsUnique(a, b);
  }

  function InsertListed(l: seq<ListedChunk>, e: ListedChunk): seq<ListedChunk> {
    if l == [] || e.index < l[0].index then [e] + l else [l[0]] + InsertListed(l[1..], e)
  }

  lemma {:induction false} InsertListedSorts(l: seq<ListedChunk>, e: ListedChunk)
    requires ByIndex(l) && forall x :: x in l ==> x.index != e.index
    ensures ByIndex(InsertListed(l, e)) && forall x :: x in InsertListed(l, e) <==> x in l || x == e
  {
    if l != [] && e.index >= l[0].index {
      var rest := InsertListed(l[1..], e);
      InsertListedSorts(l[1..], e);
      assert l[0] in l;
      assert l == [l[0]] + l[1..];
      forall i | 0 <= i < |rest| ensures l[0].index < rest[i].index {
        assert rest[i] in rest;
      }
    }
  }

  /** The sort both listings end in. */
  method SortedListing(chunks: map<nat, Chunk>) returns (l: seq<ListedChunk>)
    ensures IsListing(chunks, l)
  {
    l := [];
    var todo := chunks.Keys;
    while todo != {}
      invariant todo <= chunks.Keys && ByIndex(l)
      invariant forall e :: e in l <==> e.index in chunks && e.index !in todo && e == Listed(e.index, chunks[e.index])
      decreases |todo|
    {
      var i :| i in todo;
      InsertListedSorts(l, Listed(i, chunks[i]));
      l := InsertListed(l, Listed(i, chunks[i]));
      todo := todo - {i};
    }
  }

  /** The Resource as the change feed reports it: a tombstone without metadata. */
  function FeedRow(json: JsonTypes, r: Resource): ChangeFeed.Row {
    ChangeFeed.Row(r.version, r.metaVersion, r.createdBy, r.updatedAt, r.content.None?, r.content,
                   if r.content.Some? then r.custom else None, if r.content.Some? then r.epoch else None, r.contentType in json)
  }

  function FeedRows(json: JsonTypes, s: Store): ChangeFeed.Rows {
    map id | id in s && s[id].contentType in json :: FeedRow(json, s[id])
  }

  // ---------- runs ----------

  datatype Step = Step(op: Op, now: Time)

  function StoreAfter(s: Store, steps: seq<Step>): Store {
    if steps == [] then s
    else Apply(StoreAfter(s, steps[..|steps| - 1]), steps[|steps| - 1].op, steps[|steps| - 1].now).0
  }

  function Answers(s: Store, steps: seq<Step>): seq<Answer> {
    if steps == [] then []
    else
      var before := steps[..|steps| - 1];
      Answers(s, before) + [Apply(StoreAfter(s, before), steps[|steps| - 1].op, steps[|steps| - 1].now).1]
  }

  // ---------- laws of the machine ----------

  /** Chunks and user metadata exist only under a live Resource. */
  predicate Clean(r: Resource) {
    r.content.Some? || (r.chunks == map[] && r.custom.None? && r.metaVersion.None? && r.epoch.None?)
  }

  /** Chunks exist only under a live Resource. */
  predicate Rooted(r: Resource) {
    r.content.Some? || r.chunks == map[]
  }

  predicate NoOrphans(s: Store) {
    forall id :: id in s ==> Rooted(s[id])
  }

  predicate WellFormed(s: Store) {
    forall id :: id in s ==> Clean(s[id])
  }

  lemma ApplyKeepsWellFormed(s: Store, op: Op, now: Time)
    requires WellFormed(s)
    ensures WellFormed(Apply(s, op, now).0)
  {
    var t := Apply(s, op, now).0;
    assert op.id in s ==> Clean(s[op.id]);
    forall id | id in t ensures Clean(t[id]) {
      if id != op.id { assert Clean(s[id]); }
    }
  }

  lemma {:induction false} StoreStaysWellFormed(s: Store, steps: seq<Step>)
    requires WellFormed(s)
    ensures WellFormed(StoreAfter(s, steps))
  {
    if steps != [] {
      var n := |steps| - 1;
      StoreStaysWellFormed(s, steps[..n]);
      ApplyKeepsWellFormed(StoreAfter(s, steps[..n]), steps[n].op, steps[n].now);
    }
  }

  /** Whatever happens under an id once it exists, through any deletes and re-creations: who created it and
      when never changes (a creator never recorded is never filled in later), and its version never drops. */
  lemma {:induction false} OriginIsForever(s: Store, steps: seq<Step>, id: Id)
    requires id in s
    ensures var t := StoreAfter(s, steps);
            id in t && t[id].createdBy == s[id].createdBy && t[id].createdAt == s[id].createdAt && s[id].version <= t[id].version
  {
    if steps != [] {
      OriginIsForever(s, steps[..|steps| - 1], id);
    }
  }

  /** Within one version nothing but metadata and chunks can have changed: equal versions mean the same bytes
      under the same media type, across any run. */
  lemma {:induction false} SameVersionSameContent(s: Store, steps: seq<Step>, id: Id)
    requires id in s
    ensures var t := StoreAfter(s, steps);
            id in t && s[id].version <= t[id].version &&
            (t[id].version == s[id].version ==> t[id].content == s[id].content && t[id].contentType == s[id].contentType)
  {
    if steps != [] {
      SameVersionSameContent(s, steps[..|steps| - 1], id);
    }
  }

  /** A Resource created again after a delete starts with no chunks, no metadata and only its own epoch. */
  lemma {:induction false} RecreatedStartsClean(s: Store, steps: seq<Step>, id: Id, put: Op, now: Time)
    requires WellFormed(s) && put.Put? && put.id == id && !Live(StoreAfter(s, steps), id)
    requires Apply(StoreAfter(s, steps), put, now).1.Version?
    ensures var r := Apply(StoreAfter(s, steps), put, now).0[id];
            r.chunks == map[] && r.custom.None? && r.metaVersion.None? && r.epoch == put.epoch && r.content == Some(put.bytes)
  {
    StoreStaysWellFormed(s, steps);
  }

  /** Operations on one id leave every other as it was. */
  lemma OtherIdsUntouched(s: Store, op: Op, now: Time, id: Id)
    requires op.id != id
    ensures var t := Apply(s, op, now).0; (id in t <==> id in s) && (id in s ==> t[id] == s[id])
  {
  }

  // ---------- compare-and-swap over runs ----------

  function At(s: Store, steps: seq<Step>, i: nat): Store
    requires i <= |steps|
  {
    StoreAfter(s, steps[..i])
  }

  lemma AtNext(s: Store, steps: seq<Step>, i: nat)
    requires i < |steps|
    ensures At(s, steps, i + 1) == Apply(At(s, steps, i), steps[i].op, steps[i].now).0
  {
    assert steps[..i + 1][..i] == steps[..i];
  }

  function ContentGuard(op: Op): Guard
    requires op.Put? || op.Delete?
  {
    if op.Put? then op.guard else Guard(op.ifMatch, false)
  }

  /** A content write or delete that takes effect. */
  predicate Moves(s: Store, op: Op) {
    && (op.Put? || op.Delete?)
    && WriteAllowed(Live(s, op.id), VersionOf(s, op.id), ContentGuard(op))
    && (op.Delete? ==> Live(s, op.id))
  }

  /** The version of an id goes up by one at each content write or delete that takes effect, and at nothing else. */
  lemma VersionMoves(s: Store, op: Op, now: Time, id: Id)
    ensures VersionOf(Apply(s, op, now).0, id) == VersionOf(s, id) + if op.id == id && Moves(s, op) then 1 else 0
  {
    if op.id != id { OtherIdsUntouched(s, op, now, id); }
  }

  lemma {:induction false} VersionNeverDrops(s: Store, steps: seq<Step>, i: nat, j: nat, id: Id)
    requires i <= j <= |steps|
    ensures VersionOf(At(s, steps, i), id) <= VersionOf(At(s, steps, j), id)
    decreases j
  {
    if i < j {
      VersionNeverDrops(s, steps, i, j - 1, id);
      AtNext(s, steps, j - 1);
      VersionMoves(At(s, steps, j - 1), steps[j - 1].op, steps[j - 1].now, id);
    }
  }

  /** Over any run the version strictly increases from one effective content write or delete of an id to the
      next, whatever comes between, a tombstone and a re-creation included. */
  lemma VersionsStrictlyIncrease(s: Store, steps: seq<Step>, i: nat, j: nat)
    requires i < j < |steps| && steps[i].op.id == steps[j].op.id
    requires Moves(At(s, steps, i), steps[i].op) && Moves(At(s, steps, j), steps[j].op)
    ensures var id := steps[i].op.id;
            VersionOf(At(s, steps, i), id) < VersionOf(At(s, steps, i + 1), id) <= VersionOf(At(s, steps, j), id) < VersionOf(At(s, steps, j + 1), id)
  {
    var id := steps[i].op.id;
    AtNext(s, steps, i);
    VersionMoves(At(s, steps, i), steps[i].op, steps[i].now, id);
    AtNext(s, steps, j);
    VersionMoves(At(s, steps, j), steps[j].op, steps[j].now, id);
    VersionNeverDrops(s, steps, i + 1, j, id);
  }

  /** Of all the content writes and deletes of one id that carry the same ETag, in any run, at most one takes
      effect. */
  lemma IfMatchTakesEffectOnce(s: Store, steps: seq<Step>, i: nat, j: nat, etag: string)
    requires i < |steps| && j < |steps| && steps[i].op.id == steps[j].op.id
    requires Moves(At(s, steps, i), steps[i].op) && Moves(At(s, steps, j), steps[j].op)
    requires ContentGuard(steps[i].op) == ContentGuard(steps[j].op) == Guard(Some(etag), false)
    ensures i == j
  {
    var id := steps[i].op.id;
    FormatEtagInjective(VersionOf(At(s, steps, i), id), VersionOf(At(s, steps, j), id));
    if i < j {
      VersionsStrictlyIncrease(s, steps, i, j);
    } else if j < i {
      VersionsStrictlyIncrease(s, steps, j, i);
    }
  }

  /** So once a writer with an ETag has had its effect, every later one with it is refused. */
  lemma SecondWriterIsRefused(s: Store, steps: seq<Step>, i: nat, j: nat, etag: string)
    requires i < j < |steps| && steps[i].op.id == steps[j].op.id && Moves(At(s, steps, i), steps[i].op)
    requires steps[j].op.Put? || steps[j].op.Delete?
    requires ContentGuard(steps[i].op) == ContentGuard(steps[j].op) == Guard(Some(etag), false)
    ensures Apply(At(s, steps, j), steps[j].op, steps[j].now) == (At(s, steps, j), PreconditionFailed)
  {
    if Moves(At(s, steps, j), steps[j].op) {
      IfMatchTakesEffectOnce(s, steps, i, j, etag);
    }
  }

  lemma {:induction false} StaysLive(s: Store, steps: seq<Step>, i: nat, j: nat, id: Id)
    requires i <= j <= |steps| && Live(At(s, steps, i), id)
    requires forall k :: i <= k < j && steps[k].op.Delete? && steps[k].op.id == id ==> !Moves(At(s, steps, k), steps[k].op)
    ensures Live(At(s, steps, j), id)
    decreases j
  {
    if i < j {
      StaysLive(s, steps, i, j - 1, id);
      AtNext(s, steps, j - 1);
      var op := steps[j - 1].op;
      if op.id != id { OtherIdsUntouched(At(s, steps, j - 1), op, steps[j - 1].now, id); }
    }
  }

  /** Between two effective create-if-absent writes of one id lies an effective delete of it. */
  lemma CreateIfAbsentTakesEffectOnce(s: Store, steps: seq<Step>, i: nat, j: nat)
    requires i < j < |steps| && steps[i].op.id == steps[j].op.id
    requires steps[i].op.Put? && steps[i].op.guard.ifNoneMatch && Moves(At(s, steps, i), steps[i].op)
    requires steps[j].op.Put? && steps[j].op.guard.ifNoneMatch && Moves(At(s, steps, j), steps[j].op)
    ensures exists k :: i < k < j && steps[k].op.Delete? && steps[k].op.id == steps[i].op.id && Moves(At(s, steps, k), steps[k].op)
  {
    if !exists k :: i < k < j && steps[k].op.Delete? && steps[k].op.id == steps[i].op.id && Moves(At(s, steps, k), steps[k].op) {
      AtNext(s, steps, i);
      StaysLive(s, steps, i + 1, j, steps[i].op.id);
    }
  }

  // ---------- chunk versions ----------

  predicate WritesChunk(s: Store, op: Op, id: Id, index: nat) {
    op.PutChunk? && op.id == id && op.index == index && ApplyPutChunk(s, op).1.Version?
  }

  /** How many writes of one chunk a run accepted. */
  function ChunkWrites(s: Store, steps: seq<Step>, id: Id, index: nat): nat {
    if steps == [] then 0
    else
      var before, last := steps[..|steps| - 1], steps[|steps| - 1];
      ChunkWrites(s, before, id, index) + if WritesChunk(StoreAfter(s, before), last.op, id, index) then 1 else 0
  }

  /** Some step of the run took the chunk away: its own delete, or the delete of its Resource. */
  ghost predicate ChunkTakenAway(s: Store, steps: seq<Step>, id: Id, index: nat) {
    exists i :: 0 <= i < |steps| && TakesChunkAway(s, steps, i, id, index)
  }

  ghost predicate TakesChunkAway(s: Store, steps: seq<Step>, i: nat, id: Id, index: nat)
    requires i < |steps|
  {
    HasChunk(At(s, steps, i), id, index) && !HasChunk(At(s, steps, i + 1), id, index)
  }

  lemma ChunkTakenAwayGrows(s: Store, steps: seq<Step>, id: Id, index: nat)
    requires steps != []
    ensures ChunkTakenAway(s, steps, id, index) <==>
            ChunkTakenAway(s, steps[..|steps| - 1], id, index) || TakesChunkAway(s, steps, |steps| - 1, id, index)
  {
    var before := steps[..|steps| - 1];
    forall i | 0 <= i < |before| ensures TakesChunkAway(s, steps, i, id, index) <==> TakesChunkAway(s, before, i, id, index) {
      assert before[..i] == steps[..i] && before[..i + 1] == steps[..i + 1];
    }
    if ChunkTakenAway(s, before, id, index) {
      var i :| 0 <= i < |before| && TakesChunkAway(s, before, i, id, index);
      assert TakesChunkAway(s, steps, i, id, index);
    }
  }

  lemma ChunkStep(s: Store, op: Op, now: Time, id: Id, index: nat)
    ensures var t := Apply(s, op, now).0;
            if WritesChunk(s, op, id, index) then
              HasChunk(t, id, index) && ChunkVersion(t, id, index) == ChunkVersion(s, id, index) + 1
            else
              !HasChunk(t, id, index) || (HasChunk(s, id, index) && t[id].chunks[index] == s[id].chunks[index])
  {
    if op.id != id { OtherIdsUntouched(s, op, now, id); }
  }

  /** Over any run a chunk's version is its starting version plus the writes accepted since, unless it was
      taken away meanwhile, in which case it is less. */
  lemma {:induction false} ChunkVersionCountsWrites(s: Store, steps: seq<Step>, id: Id, index: nat)
    requires HasChunk(s, id, index) && s[id].chunks[index].version >= 1
    ensures var t, count := StoreAfter(s, steps), s[id].chunks[index].version + ChunkWrites(s, steps, id, index);
            if ChunkTakenAway(s, steps, id, index) then ChunkVersion(t, id, index) < count
            else HasChunk(t, id, index) && ChunkVersion(t, id, index) == count &&
                 (ChunkWrites(s, steps, id, index) == 0 ==> t[id].chunks[index] == s[id].chunks[index])
  {
    if steps != [] {
      var n := |steps| - 1;
      ChunkVersionCountsWrites(s, steps[..n], id, index);
      ChunkTakenAwayGrows(s, steps, id, index);
      assert steps[..|steps|] == steps;
      ChunkStep(StoreAfter(s, steps[..n]), steps[n].op, steps[n].now, id, index);
    }
  }

  /** A chunk present at both ends of a run has counted every accepted write exactly when it was never taken
      away; and then an unchanged version means an unchanged chunk. */
  lemma ChunkVersionsIdentifyBytesIffNeverRemoved(s: Store, steps: seq<Step>, id: Id, index: nat)
    requires HasChunk(s, id, index) && s[id].chunks[index].version >= 1 && HasChunk(StoreAfter(s, steps), id, index)
    ensures var before, after := s[id].chunks[index], StoreAfter(s, steps)[id].chunks[index];
            && (after.version == before.version + ChunkWrites(s, steps, id, index) <==> !ChunkTakenAway(s, steps, id, index))
            && (!ChunkTakenAway(s, steps, id, index) && after.version == before.version ==> after == before)
  {
    ChunkVersionCountsWrites(s, steps, id, index);
  }

  /** Every chunk has a version of at least 1. */
  ghost predicate ChunksNumbered(s: Store) {
    forall id, index :: HasChunk(s, id, index) ==> s[id].chunks[index].version >= 1
  }

  lemma {:induction false} ChunksStayNumbered(s: Store, steps: seq<Step>)
    requires ChunksNumbered(s)
    ensures ChunksNumbered(StoreAfter(s, steps))
  {
    if steps != [] {
      var n := |steps| - 1;
      ChunksStayNumbered(s, steps[..n]);
      var before, after := StoreAfter(s, steps[..n]), StoreAfter(s, steps);
      forall id, index | HasChunk(after, id, index) ensures after[id].chunks[index].version >= 1 {
        ChunkStep(before, steps[n].op, steps[n].now, id, index);
      }
    }
  }

  /** So whenever a run comes to it, starting from numbered chunks, a chunk's version identifies its bytes for as long
      as no step takes it away. */
  lemma ChunkVersionsIdentifyBytesInRuns(s: Store, earlier: seq<Step>, later: seq<Step>, id: Id, index: nat)
    requires ChunksNumbered(s)
    requires HasChunk(StoreAfter(s, earlier), id, index) && HasChunk(StoreAfter(StoreAfter(s, earlier), later), id, index)
    ensures var start := StoreAfter(s, earlier);
            var before, after := start[id].chunks[index], StoreAfter(start, later)[id].chunks[index];
            && (after.version == before.version + ChunkWrites(start, later, id, index) <==> !ChunkTakenAway(start, later, id, index))
            && (!ChunkTakenAway(start, later, id, index) && FormatEtag(after.version) == FormatEtag(before.version) ==> after == before)
  {
    ChunksStayNumbered(s, earlier);
    var start := StoreAfter(s, earlier);
    ChunkVersionsIdentifyBytesIffNeverRemoved(start, later, id, index);
    FormatEtagInjective(StoreAfter(start, later)[id].chunks[index].version, start[id].chunks[index].version);
  }

  function Rewrites(id: Id, index: nat, bytes: Bytes, n: nat): seq<Step> {
    seq(n, _ => Step(PutChunk(id, index, "application/octet-stream", bytes, UNCONDITIONAL), ""))
  }

  lemma {:induction false} RewritesCount(s: Store, id: Id, index: nat, bytes: Bytes, n: nat)
    requires Live(s, id) && !HasChunk(s, id, index)
    ensures var t := StoreAfter(s, Rewrites(id, index, bytes, n));
            Live(t, id) && ChunkVersion(t, id, index) == n && (n > 0 ==> HasChunk(t, id, index) && t[id].chunks[index].bytes == bytes)
  {
    if n > 0 {
      RewritesCount(s, id, index, bytes, n - 1);
      assert Rewrites(id, index, bytes, n)[..n - 1] == Rewrites(id, index, bytes, n - 1);
    }
  }

  /** The condition is needed for every chunk: delete it and write it as often as before, and any bytes at all
      carry the ETag it had, which a conditional write then accepts. */
  lemma ChunkEtagsAreReused(s: Store, id: Id, index: nat, bytes: Bytes, mine: Bytes, now: Time)
    requires Live(s, id) && HasChunk(s, id, index) && s[id].chunks[index].version >= 1
    ensures var v := s[id].chunks[index].version;
            var gone := Apply(s, DeleteChunk(id, index, None), now).0;
            var t := StoreAfter(gone, Rewrites(id, index, bytes, v));
            && HasChunk(t, id, index) && t[id].chunks[index].version == v && t[id].chunks[index].bytes == bytes
            && Apply(t, PutChunk(id, index, "text/plain", mine, Guard(Some(FormatEtag(v)), false)), now).1 == Version(v + 1)
  {
    RewritesCount(Apply(s, DeleteChunk(id, index, None), now).0, id, index, bytes, s[id].chunks[index].version);
  }
}
