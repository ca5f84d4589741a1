/**
 The critical sections of the filesystem backend, file by file, under the keyed mutex: content writes, metadata
 writes, deletes, chunk writes and chunk deletes of any Resources of a Collection, interleaved in every way the
 mutex allows. Whatever the interleaving, the sections have the effects and answers of their operations applied
 one at a time in the order they finish.
 */
module FileSystemSections {
  import opened CollectionStore
  import opened FileSystemStore
  import M = KeyedMutexModel
  import opened Preconditions
  import opened Wrappers

  // ---------- the files of one Resource ----------

  /** Its representations by media type, its sidecar, and its chunk directory. */
  datatype Folder = Folder(files: map<string, Bytes>, sidecar: Option<Sidecar>, chunks: Option<ChunkDir>)

  const NOTHING := Folder(map[], None, None)

  /** A chunk directory may be there without a chunk: a chunk write that failed leaves one. */
  ghost predicate FolderStandsFor(f: Folder, s: Store, id: Id) {
    if id !in s then f == NOTHING
    else
      var r := s[id];
      && f.sidecar.Some? && SidecarStandsFor(f.sidecar.value, r)
      && f.files == (if r.content.Some? then map[r.contentType := r.content.value] else map[])
      && ChunkDirStandsFor(ChunksDir(f), r.chunks)
  }

  function ChunksDir(f: Folder): ChunkDir {
    f.chunks.GetOr(ChunkDir(map[], map[]))
  }

  // ---------- the writes of a section ----------

  /** Single writes, and removals that are started together and finish in any order. */
  datatype Stage =
    | PutFile(contentType: string, bytes: Bytes)
    | RemoveFiles(contentTypes: set<string>)
    | PutSidecar(sidecar: Sidecar)
    | DropChunks
    | PutChunkFile(rep: Rep<nat>, chunkBytes: Bytes)
    | RemoveChunkFiles(reps: set<Rep<nat>>)
    | PutChunkSidecar(index: nat, chunkSidecar: ChunkSidecar)
    | DropChunkSidecar(index: nat)
    | DropEmptyChunkDir

  /** What a section does once it has read its Resource's files, and what it answers. */
  datatype Plan = Plan(stages: seq<Stage>, answer: Answer)

  function Effect(f: Folder, e: Stage): Folder {
    var dir := ChunksDir(f);
    match e
    case PutFile(m, bytes) => f.(files := f.files[m := bytes])
    case RemoveFiles(ms) => f.(files := f.files - ms)
    case PutSidecar(c) => f.(sidecar := Some(c))
    case DropChunks => f.(chunks := None)
    case PutChunkFile(rep, bytes) => f.(chunks := Some(dir.(files := dir.files[rep := bytes])))
    case RemoveChunkFiles(reps) => if f.chunks.None? then f else f.(chunks := Some(dir.(files := dir.files - reps)))
    case PutChunkSidecar(i, c) => f.(chunks := Some(dir.(sidecars := dir.sidecars[i := c])))
    case DropChunkSidecar(i) => if f.chunks.None? then f else f.(chunks := Some(dir.(sidecars := dir.sidecars - {i})))
    case DropEmptyChunkDir => if dir == ChunkDir(map[], map[]) then f.(chunks := None) else f
  }

  function Outcome(f: Folder, stages: seq<Stage>): Folder
    decreases |stages|
  {
    if stages == [] then f else Outcome(Effect(f, stages[0]), stages[1..])
  }

  function PutPlan(f: Folder, op: Op, now: Time): Plan
    requires op.Put?
  {
    var live := f.files != map[];
    if !WriteAllowed(live, if live then SidecarVersion(f.sidecar) else 0, op.guard) then Plan([], PreconditionFailed)
    else
      Plan([PutFile(op.contentType, op.bytes), RemoveFiles(f.files.Keys - {op.contentType}),
            PutSidecar(ContentSidecar(f.sidecar, op, now))],
           Version(SidecarVersion(f.sidecar) + 1))
  }

  function PutMetaPlan(f: Folder, op: Op, now: Time): Plan
    requires op.PutMeta?
  {
    var metaVersion := if f.sidecar.Some? then f.sidecar.value.metaVersion else None;
    if f.files == map[] then Plan([], NotFound)
    else if !MetaWriteAllowed(metaVersion, op.guard) then Plan([], PreconditionFailed)
    else Plan([PutSidecar(MetaSidecar(f.sidecar, op, now))], MetaVersion(metaVersion.GetOr(0) + 1))
  }

  ghost function DeletePlan(f: Folder, op: Op, now: Time): Plan
    requires op.Delete?
  {
    var live := f.files != map[];
    if !WriteAllowed(live, if live then SidecarVersion(f.sidecar) else 0, Guard(op.ifMatch, false)) then Plan([], PreconditionFailed)
    else if !live then Plan([], Done)
    else
      var contentType :| contentType in f.files;
      Plan([RemoveFiles(f.files.Keys), DropChunks, PutSidecar(TombstoneSidecar(f.sidecar, contentType, now))], Done)
  }

  function PutChunkPlan(f: Folder, op: Op, now: Time): Plan
    requires op.PutChunk?
  {
    var dir := ChunksDir(f);
    var listing, version := FilesFor(dir.files, op.index), ChunkSidecarVersion(dir, op.index);
    if f.files == map[] then Plan([], NotFound)
    else if !WriteAllowed(listing != {}, version, op.guard) then Plan([], PreconditionFailed)
    else
      var createdAt := if op.index in dir.sidecars then dir.sidecars[op.index].createdAt else now;
      Plan([PutChunkFile(Rep(op.index, op.contentType), op.bytes), RemoveChunkFiles(listing - {Rep(op.index, op.contentType)}),
            PutChunkSidecar(op.index, ChunkSidecar(createdAt, now, version + 1))],
           Version(version + 1))
  }

  function DeleteChunkPlan(f: Folder, op: Op): Plan
    requires op.DeleteChunk?
  {
    var dir := ChunksDir(f);
    var listing := FilesFor(dir.files, op.index);
    if listing == {} then Plan([], Removed(false))
    else if !WriteAllowed(true, ChunkSidecarVersion(dir, op.index), Guard(op.ifMatch, false)) then Plan([], PreconditionFailed)
    else Plan([RemoveChunkFiles(listing), DropChunkSidecar(op.index), DropEmptyChunkDir], Removed(true))
  }

  ghost function PlanOf(f: Folder, op: Op, now: Time): Plan {
    match op
    case Put(_, _, _, _, _, _) => PutPlan(f, op, now)
    case PutMeta(_, _, _, _) => PutMetaPlan(f, op, now)
    case Delete(_, _) => DeletePlan(f, op, now)
    case PutChunk(_, _, _, _, _) => PutChunkPlan(f, op, now)
    case DeleteChunk(_, _, _) => DeleteChunkPlan(f, op)
  }

  // ---------- a whole section has the effect of its operation ----------

  lemma ThreeStages(f: Folder, a: Stage, b: Stage, c: Stage)
    ensures Outcome(f, [a, b, c]) == Effect(Effect(Effect(f, a), b), c)
  {
    assert [a, b, c][1..] == [b, c] && [b, c][1..] == [c] && [c][1..] == [];
    assert Outcome(Effect(f, a), [b, c]) == Outcome(Effect(Effect(f, a), b), [c]);
  }

  lemma PutIsPlanned(f: Folder, s: Store, op: Op, now: Time)
    requires op.Put? && FolderStandsFor(f, s, op.id)
    ensures var plan := PutPlan(f, op, now);
            plan.answer == ApplyPut(s, op, now).1 && FolderStandsFor(Outcome(f, plan.stages), ApplyPut(s, op, now).0, op.id)
  {
    assert f.files != map[] <==> Live(s, op.id) by {
      if Live(s, op.id) { assert s[op.id].contentType in f.files; }
    }
    var plan := PutPlan(f, op, now);
    if plan.stages != [] {
      ThreeStages(f, plan.stages[0], plan.stages[1], plan.stages[2]);
      assert f.files[op.contentType := op.bytes] - (f.files.Keys - {op.contentType}) == map[op.contentType := op.bytes];
      if op.id !in s { assert ChunkBodies(map[]) == map[]; }
    }
  }

  lemma PutMetaIsPlanned(f: Folder, s: Store, op: Op, now: Time)
    requires op.PutMeta? && FolderStandsFor(f, s, op.id)
    ensures var plan := PutMetaPlan(f, op, now);
            plan.answer == ApplyPutMeta(s, op, now).1 && FolderStandsFor(Outcome(f, plan.stages), ApplyPutMeta(s, op, now).0, op.id)
  {
    assert f.files != map[] <==> Live(s, op.id) by {
      if Live(s, op.id) { assert s[op.id].contentType in f.files; }
    }
    var c := PutSidecar(MetaSidecar(f.sidecar, op, now));
    assert Outcome(f, [c]) == Outcome(Effect(f, c), []);
  }

  lemma DeleteIsPlanned(f: Folder, s: Store, op: Op, now: Time)
    requires op.Delete? && FolderStandsFor(f, s, op.id)
    ensures var plan := DeletePlan(f, op, now);
            plan.answer == ApplyDelete(s, op, now).1 && FolderStandsFor(Outcome(f, plan.stages), ApplyDelete(s, op, now).0, op.id)
  {
    assert f.files != map[] <==> Live(s, op.id) by {
      if Live(s, op.id) { assert s[op.id].contentType in f.files; }
    }
    var plan := DeletePlan(f, op, now);
    if plan.stages != [] {
      ThreeStages(f, plan.stages[0], plan.stages[1], plan.stages[2]);
      assert f.files - f.files.Keys == map[];
      assert ChunkBodies(map[]) == map[];
    }
  }

  /** What the section reads of a chunk. */
  lemma ChunkSeen(f: Folder, s: Store, id: Id, i: nat)
    requires FolderStandsFor(f, s, id)
    ensures FilesFor(ChunksDir(f).files, i) == if HasChunk(s, id, i) then {Rep(i, s[id].chunks[i].contentType)} else {}
    ensures ChunkSidecarVersion(ChunksDir(f), i) == ChunkVersion(s, id, i)
    ensures f.files != map[] <==> Live(s, id)
  {
    if id in s {
      FileFound(ChunksDir(f).files, ChunkBodies(s[id].chunks), i);
    } else {
      assert FilesFor(ChunksDir(f).files, i) == {};
    }
    if Live(s, id) { assert s[id].contentType in f.files; }
  }

  lemma ChunkWritten(dir: ChunkDir, chunks: map<nat, Chunk>, i: nat, c: Chunk, sidecar: ChunkSidecar)
    requires ChunkDirStandsFor(dir, chunks) && sidecar.version == c.version
    ensures var rep := Rep(i, c.contentType);
            ChunkDirStandsFor(ChunkDir(dir.files[rep := c.bytes] - (FilesFor(dir.files, i) - {rep}), dir.sidecars[i := sidecar]),
                              chunks[i := c])
  {
    var rep, listing := Rep(i, c.contentType), FilesFor(dir.files, i);
    assert dir.files[rep := c.bytes] - (listing - {rep}) == (dir.files - listing)[rep := c.bytes];
    ChunkReplaced(dir, chunks, i, c, sidecar);
  }

  lemma PutChunkIsPlanned(f: Folder, s: Store, op: Op, now: Time)
    requires op.PutChunk? && FolderStandsFor(f, s, op.id)
    ensures var plan := PutChunkPlan(f, op, now);
            plan.answer == ApplyPutChunk(s, op).1 && FolderStandsFor(Outcome(f, plan.stages), ApplyPutChunk(s, op).0, op.id)
  {
    ChunkSeen(f, s, op.id, op.index);
    var plan := PutChunkPlan(f, op, now);
    if plan.stages != [] {
      ThreeStages(f, plan.stages[0], plan.stages[1], plan.stages[2]);
      var c := Chunk(op.contentType, op.bytes, ChunkVersion(s, op.id, op.index) + 1);
      ChunkWritten(ChunksDir(f), s[op.id].chunks, op.index, c, plan.stages[2].chunkSidecar);
    }
  }

  lemma DeleteChunkIsPlanned(f: Folder, s: Store, op: Op)
    requires op.DeleteChunk? && FolderStandsFor(f, s, op.id)
    ensures var plan := DeleteChunkPlan(f, op);
            plan.answer == ApplyDeleteChunk(s, op).1 && FolderStandsFor(Outcome(f, plan.stages), ApplyDeleteChunk(s, op).0, op.id)
  {
    ChunkSeen(f, s, op.id, op.index);
    var plan, dir := DeleteChunkPlan(f, op), ChunksDir(f);
    if plan.stages != [] {
      ThreeStages(f, plan.stages[0], plan.stages[1], plan.stages[2]);
      ChunkRemoved(dir, s[op.id].chunks, op.index);
    }
  }

  lemma PlanIsOperation(f: Folder, s: Store, op: Op, now: Time)
    requires FolderStandsFor(f, s, op.id)
    ensures PlanOf(f, op, now).answer == Apply(s, op, now).1
    ensures FolderStandsFor(Outcome(f, PlanOf(f, op, now).stages), Apply(s, op, now).0, op.id)
  {
    match op {
      case Put(_, _, _, _, _, _) => PutIsPlanned(f, s, op, now);
      case PutMeta(_, _, _, _) => PutMetaIsPlanned(f, s, op, now);
      case Delete(_, _) => DeleteIsPlanned(f, s, op, now);
      case PutChunk(_, _, _, _, _) => PutChunkIsPlanned(f, s, op, now);
      case DeleteChunk(_, _, _) => DeleteChunkIsPlanned(f, s, op);
    }
  }
}
