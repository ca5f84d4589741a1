/**
 What clients find after each operation on a Collection, when each operation is admitted, and what a conditional
 write of metadata or of a chunk is worth over whole runs.
 */
module StoreLaws {
  import ChangeFeed
  import opened CollectionStore
  import opened Preconditions
  import opened Wrappers

  // ---------- when an operation is admitted ----------

  /** Every answer, exactly, and a refusal changes nothing. */
  lemma AnswerIsExact(s: Store, op: Op, now: Time)
    ensures var t, answer := Apply(s, op, now).0, Apply(s, op, now).1;
            && (answer.NotFound? || answer.PreconditionFailed? || answer == Removed(false) ==> t == s)
            && match op
               case Put(id, _, _, _, _, guard) =>
                 answer == if WriteAllowed(Live(s, id), VersionOf(s, id), guard) then Version(VersionOf(s, id) + 1) else PreconditionFailed
               case PutMeta(id, _, _, guard) =>
                 answer == if !Live(s, id) then NotFound
                           else if MetaWriteAllowed(s[id].metaVersion, guard) then
                             MetaVersion((if s[id].metaVersion.Some? then s[id].metaVersion.value else 0) + 1)
                           else PreconditionFailed
               case Delete(id, ifMatch) =>
                 answer == if WriteAllowed(Live(s, id), VersionOf(s, id), Guard(ifMatch, false)) then Done else PreconditionFailed
               case PutChunk(id, index, _, _, guard) =>
                 answer == if !Live(s, id) then NotFound
                           else if WriteAllowed(HasChunk(s, id, index), ChunkVersion(s, id, index), guard) then Version(ChunkVersion(s, id, index) + 1)
                           else PreconditionFailed
               case DeleteChunk(id, index, ifMatch) =>
                 answer == if !HasChunk(s, id, index) then Removed(false)
                           else if WriteAllowed(true, ChunkVersion(s, id, index), Guard(ifMatch, false)) then Removed(true)
                           else PreconditionFailed
  {
  }

  // ---------- what is read afterwards ----------

  ghost predicate SameChunks(s: Store, t: Store, id: Id) {
    forall i: nat :: ChunkOf(t, id, i) == ChunkOf(s, id, i)
  }

  /** A content write is read back with the answered version and the time of the write. Over a live Resource it keeps
      metadata, chunks and origin; over a tombstone the origin alone; otherwise the origin is its own. */
  lemma ReadAfterPut(s: Store, op: Op, now: Time)
    requires op.Put? && Apply(s, op, now).1.Version?
    ensures var t, v := Apply(s, op, now).0, Apply(s, op, now).1.version;
            && ResourceOf(t, op.id) == Some(Representation(op.contentType, op.bytes, v))
            && MetadataOf(t, op.id).Some?
            && var m := MetadataOf(t, op.id).value;
               && m.contentType == op.contentType && m.size == |op.bytes| && m.version == v && m.updatedAt == now && m.epoch == op.epoch
               && (MetadataOf(s, op.id).Some? ==>
                     var before := MetadataOf(s, op.id).value;
                     && m.custom == before.custom && m.metaVersion == before.metaVersion
                     && m.createdAt == before.createdAt && m.createdBy == before.createdBy && SameChunks(s, t, op.id))
               && (op.id in s ==> m.createdAt == s[op.id].createdAt && m.createdBy == s[op.id].createdBy)
               && (op.id !in s ==> m.createdAt == now && m.createdBy == op.creator)
               && (WellFormed(s) && !Live(s, op.id) ==>
                     m.custom.None? && m.metaVersion.None? && forall i: nat :: ChunkOf(t, op.id, i).None?)
  {
    assert WellFormed(s) && op.id in s ==> Clean(s[op.id]);
  }

  /** A metadata write replaces `custom` whole, the empty object clearing it, and touches no content and no chunk. */
  lemma ReadAfterPutMeta(s: Store, op: Op, now: Time)
    requires op.PutMeta? && Apply(s, op, now).1.MetaVersion?
    ensures var t, v := Apply(s, op, now).0, Apply(s, op, now).1.metaVersion;
            && ResourceOf(t, op.id) == ResourceOf(s, op.id) && SameChunks(s, t, op.id)
            && MetadataOf(s, op.id).Some? && MetadataOf(t, op.id).Some?
            && var before, m := MetadataOf(s, op.id).value, MetadataOf(t, op.id).value;
               && m.custom == (if op.custom == "{}" then None else Some(op.custom))
               && m.metaVersion == Some(v) && m.updatedAt == now
               && m.epoch == (if op.epoch.Some? then op.epoch else before.epoch)
               && m.contentType == before.contentType && m.size == before.size && m.version == before.version
               && m.createdAt == before.createdAt && m.createdBy == before.createdBy
  {
  }

  /** After a delete there is nothing to read; what was live leaves a tombstone of the next version and the same media
      type and origin, stamped with the time of the delete, and what was not live stays as it was. */
  lemma ReadAfterDelete(s: Store, op: Op, now: Time)
    requires op.Delete? && Apply(s, op, now).1.Done?
    ensures var t := Apply(s, op, now).0;
            && ResourceOf(t, op.id).None? && MetadataOf(t, op.id).None?
            && (NoOrphans(s) ==> forall i: nat :: ChunkOf(t, op.id, i).None?)
            && (!Live(s, op.id) ==> t == s)
            && (Live(s, op.id) ==>
                  && op.id in t && t[op.id].version == VersionOf(s, op.id) + 1 && t[op.id].updatedAt == now
                  && t[op.id].contentType == s[op.id].contentType
                  && t[op.id].createdAt == s[op.id].createdAt && t[op.id].createdBy == s[op.id].createdBy)
  {
    assert NoOrphans(s) && op.id in s ==> Rooted(s[op.id]);
  }

  /** A chunk write is read back, and the Resource, its metadata and the other chunks are as before. */
  lemma ReadAfterPutChunk(s: Store, op: Op, now: Time)
    requires op.PutChunk? && Apply(s, op, now).1.Version?
    ensures var t, v := Apply(s, op, now).0, Apply(s, op, now).1.version;
            && ChunkOf(t, op.id, op.index) == Some(Chunk(op.contentType, op.bytes, v))
            && (forall i: nat :: i != op.index ==> ChunkOf(t, op.id, i) == ChunkOf(s, op.id, i))
            && ResourceOf(t, op.id) == ResourceOf(s, op.id) && MetadataOf(t, op.id) == MetadataOf(s, op.id)
  {
  }

  lemma ReadAfterDeleteChunk(s: Store, op: Op, now: Time)
    requires op.DeleteChunk? && Apply(s, op, now).1 == Removed(true)
    ensures var t := Apply(s, op, now).0;
            && ChunkOf(t, op.id, op.index).None?
            && (forall i: nat :: i != op.index ==> ChunkOf(t, op.id, i) == ChunkOf(s, op.id, i))
            && ResourceOf(t, op.id) == ResourceOf(s, op.id) && MetadataOf(t, op.id) == MetadataOf(s, op.id)
  {
  }

  /** What the reads show of a Resource, and what the feed reports of it. */
  lemma ReadsAreStored(s: Store, id: Id, json: JsonTypes)
    ensures ResourceOf(s, id).Some? <==> Live(s, id)
    ensures Live(s, id) ==>
              var r := s[id];
              && ResourceOf(s, id).value.bytes == r.content.value && ResourceOf(s, id).value.contentType == r.contentType
              && ResourceOf(s, id).value.version == r.version
              && MetadataOf(s, id).value == Metadata(r.contentType, |r.content.value|, r.createdAt, r.updatedAt, r.createdBy, r.custom,
                                                     r.epoch, r.version, r.metaVersion)
    ensures id in FeedRows(json, s) <==> id in s && s[id].contentType in json
    ensures id in FeedRows(json, s) ==>
              var r, row := s[id], FeedRows(json, s)[id];
              && row.isJson && row.updatedAt == r.updatedAt && row.version == r.version && row.createdBy == r.createdBy
              && (row.deleted <==> !Live(s, id)) && row.metaVersion == r.metaVersion
              && (Live(s, id) ==> row.data == r.content && row.custom == r.custom && row.epoch == r.epoch)
              && (!Live(s, id) ==> row.data.None? && row.custom.None? && row.epoch.None?)
  {
  }

  // ---------- conditional metadata writes over runs ----------

  predicate MetaMoves(s: Store, op: Op) {
    op.PutMeta? && Live(s, op.id) && MetaWriteAllowed(s[op.id].metaVersion, op.guard)
  }

  function MetaVersionOf(s: Store, id: Id): Option<nat> {
    if Live(s, id) then s[id].metaVersion else None
  }

  /** A conditional metadata write takes effect exactly at the version its ETag names, a create-if-absent exactly before
      the first. */
  lemma MetaWriteTakesEffectIff(s: Store, op: Op, now: Time, seen: nat)
    requires op.PutMeta? && Live(s, op.id)
    ensures op.guard == Guard(Some(FormatEtag(seen)), false) ==>
              (Apply(s, op, now).1.MetaVersion? <==> MetaVersionOf(s, op.id).GetOr(0) == seen)
    ensures op.guard.ifNoneMatch ==> (Apply(s, op, now).1.MetaVersion? <==> MetaVersionOf(s, op.id).None?)
  {
    FormatEtagInjective(MetaVersionOf(s, op.id).GetOr(0), seen);
  }

  predicate Removes(s: Store, op: Op, id: Id) {
    op.Delete? && op.id == id && Moves(s, op)
  }

  lemma MetaStep(s: Store, op: Op, now: Time, id: Id)
    requires Live(s, id) && !Removes(s, op, id)
    ensures var t := Apply(s, op, now).0;
            Live(t, id) && t[id].metaVersion == if op.id == id && MetaMoves(s, op) then Some(s[id].metaVersion.GetOr(0) + 1) else s[id].metaVersion
  {
    if op.id != id { OtherIdsUntouched(s, op, now, id); }
  }

  lemma {:induction false} MetaVersionGrows(s: Store, steps: seq<Step>, i: nat, j: nat, id: Id)
    requires i <= j <= |steps| && Live(At(s, steps, i), id)
    requires forall k :: i <= k < j ==> !Removes(At(s, steps, k), steps[k].op, id)
    ensures Live(At(s, steps, j), id)
    ensures MetaVersionOf(At(s, steps, i), id).GetOr(0) <= MetaVersionOf(At(s, steps, j), id).GetOr(0)
    ensures MetaVersionOf(At(s, steps, i), id).Some? ==> MetaVersionOf(At(s, steps, j), id).Some?
    decreases j
  {
    if i < j {
      MetaVersionGrows(s, steps, i, j - 1, id);
      assert !Removes(At(s, steps, j - 1), steps[j - 1].op, id);
      MetaStepAt(s, steps, j - 1, id);
    }
  }

  lemma MetaStepAt(s: Store, steps: seq<Step>, k: nat, id: Id)
    requires k < |steps| && Live(At(s, steps, k), id) && !Removes(At(s, steps, k), steps[k].op, id)
    ensures Live(At(s, steps, k + 1), id)
    ensures var before := MetaVersionOf(At(s, steps, k), id);
            MetaVersionOf(At(s, steps, k + 1), id) ==
            if steps[k].op.id == id && MetaMoves(At(s, steps, k), steps[k].op) then Some(before.GetOr(0) + 1) else before
  {
    AtNext(s, steps, k);
    MetaStep(At(s, steps, k), steps[k].op, steps[k].now, id);
  }

  /** Of two metadata writes of one id that took effect in a run under the same ETag, or both under create-if-absent, an
      effective delete of the id lies between. */
  lemma MetaGuardTakesEffectOnce(s: Store, steps: seq<Step>, i: nat, j: nat)
    requires i < j < |steps| && steps[i].op.id == steps[j].op.id
    requires MetaMoves(At(s, steps, i), steps[i].op) && MetaMoves(At(s, steps, j), steps[j].op)
    requires steps[i].op.guard == steps[j].op.guard && steps[i].op.guard != UNCONDITIONAL
    ensures exists k :: i < k < j && Removes(At(s, steps, k), steps[k].op, steps[i].op.id)
  {
    var id := steps[i].op.id;
    MetaStepAt(s, steps, i, id);
    FormatEtagInjective(MetaVersionOf(At(s, steps, i), id).GetOr(0), MetaVersionOf(At(s, steps, j), id).GetOr(0));
    if forall k :: i < k < j ==> !Removes(At(s, steps, k), steps[k].op, id) {
      MetaVersionGrows(s, steps, i + 1, j, id);
    }
  }

  // ---------- conditional chunk writes over runs ----------

  lemma {:induction false} ChunkVersionGrows(s: Store, steps: seq<Step>, i: nat, j: nat, id: Id, index: nat)
    requires i <= j <= |steps| && HasChunk(At(s, steps, i), id, index)
    requires forall k :: i <= k < j ==> !TakesChunkAway(s, steps, k, id, index)
    ensures HasChunk(At(s, steps, j), id, index)
    ensures ChunkVersion(At(s, steps, i), id, index) <= ChunkVersion(At(s, steps, j), id, index)
    decreases j
  {
    if i < j {
      ChunkVersionGrows(s, steps, i, j - 1, id, index);
      AtNext(s, steps, j - 1);
      ChunkStep(At(s, steps, j - 1), steps[j - 1].op, steps[j - 1].now, id, index);
      assert !TakesChunkAway(s, steps, j - 1, id, index);
    }
  }

  /** Of two accepted writes of one chunk under the same ETag, or both under create-if-absent, a step that took the
      chunk away lies between. */
  lemma ChunkGuardTakesEffectOnce(s: Store, steps: seq<Step>, i: nat, j: nat, id: Id, index: nat)
    requires i < j < |steps| && WritesChunk(At(s, steps, i), steps[i].op, id, index) && WritesChunk(At(s, steps, j), steps[j].op, id, index)
    requires steps[i].op.guard == steps[j].op.guard && steps[i].op.guard != UNCONDITIONAL
    ensures exists k :: i < k < j && TakesChunkAway(s, steps, k, id, index)
  {
    AtNext(s, steps, i);
    ChunkStep(At(s, steps, i), steps[i].op, steps[i].now, id, index);
    FormatEtagInjective(ChunkVersion(At(s, steps, i), id, index), ChunkVersion(At(s, steps, j), id, index));
    if forall k :: i < k < j ==> !TakesChunkAway(s, steps, k, id, index) {
      ChunkVersionGrows(s, steps, i + 1, j, id, index);
    }
  }

  /** Only the delete of the chunk or of its Resource takes a chunk away. */
  lemma TakenAwayByDelete(s: Store, steps: seq<Step>, k: nat, id: Id, index: nat)
    requires k < |steps| && TakesChunkAway(s, steps, k, id, index)
    ensures var op, answer := steps[k].op, Apply(At(s, steps, k), steps[k].op, steps[k].now).1;
            op.id == id && ((op.Delete? && answer == Done) || (op.DeleteChunk? && op.index == index && answer == Removed(true)))
  {
    AtNext(s, steps, k);
    if steps[k].op.id != id { OtherIdsUntouched(At(s, steps, k), steps[k].op, steps[k].now, id); }
  }

  /** A listing shows each chunk that can be read, with its size, media type and version, by ascending index. */
  lemma ListingShowsChunks(s: Store, id: Id, l: seq<ListedChunk>, index: nat)
    requires IsListing(ChunksOf(s, id), l)
    ensures forall i, j :: 0 <= i < j < |l| ==> l[i].index < l[j].index
    ensures ChunkOf(s, id, index).Some? <==> exists e :: e in l && e.index == index
    ensures forall e :: e in l && e.index == index ==>
              var c := ChunkOf(s, id, index).value; e.size == |c.bytes| && e.contentType == c.contentType && e.version == c.version
  {
    if ChunkOf(s, id, index).Some? {
      assert Listed(index, ChunksOf(s, id)[index]) in l;
    }
  }
}
