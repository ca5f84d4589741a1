/**
 Empty chunk directories of the filesystem backend. A chunk delete removes the directory with its last chunk, but a
 chunk write makes the directory before it writes the body, so a body that is refused leaves one behind. Over every
 schedule, this is exactly when one is there.
 */
module ChunkDirectories {
  import opened CollectionStore
  import opened FileSystemRuns
  import opened FileSystemSections
  import opened FileSystemStore
  import M = KeyedMutexModel
  import opened Preconditions
  import opened Wrappers

  predicate EmptyDir(f: Folder) {
    f.chunks == Some(ChunkDir(map[], map[]))
  }

  /** What an operation on a Resource, live or not before it, answers when it puts no chunk and removes none. */
  predicate LeavesChunksAlone(op: Op, answer: Answer, live: bool) {
    match op
    case Put(_, _, _, _, _, _) => true
    case PutMeta(_, _, _, _) => true
    case Delete(_, _) => answer.PreconditionFailed? || !live
    case PutChunk(_, _, _, _, _) => !answer.Version?
    case DeleteChunk(_, _, _) => answer != Removed(true)
  }

  // ---------- one section ----------

  lemma PutChunkPlanFills(f: Folder, s: Store, op: Op, now: Time)
    requires op.PutChunk? && FolderStandsFor(f, s, op.id) && PutChunkPlan(f, op, now).stages != []
    ensures !EmptyDir(Outcome(f, PutChunkPlan(f, op, now).stages))
  {
    var stages := PutChunkPlan(f, op, now).stages;
    ThreeStages(f, stages[0], stages[1], stages[2]);
    assert Rep(op.index, op.contentType) in Outcome(f, stages).chunks.value.files;
  }

  lemma DeleteChunkPlanClears(f: Folder, op: Op)
    requires op.DeleteChunk?
    ensures DeleteChunkPlan(f, op).stages != [] ==> !EmptyDir(f) && !EmptyDir(Outcome(f, DeleteChunkPlan(f, op).stages))
    ensures EmptyDir(f) ==> DeleteChunkPlan(f, op).answer == Removed(false)
  {
    var stages := DeleteChunkPlan(f, op).stages;
    if stages != [] {
      ThreeStages(f, stages[0], stages[1], stages[2]);
    }
  }

  /** A section that runs to its end leaves an empty directory exactly when it found one and left the chunks alone. */
  lemma PlanLeavesEmptyIff(f: Folder, s: Store, op: Op, now: Time)
    requires FolderStandsFor(f, s, op.id)
    ensures var plan := PlanOf(f, op, now);
            EmptyDir(Outcome(f, plan.stages)) <==> EmptyDir(f) && LeavesChunksAlone(op, plan.answer, Live(s, op.id))
  {
    assert f.files != map[] <==> Live(s, op.id) by {
      if Live(s, op.id) { assert s[op.id].contentType in f.files; }
    }
    var stages := PlanOf(f, op, now).stages;
    if stages != [] {
      match op {
        case PutMeta(_, _, _, _) => assert Outcome(f, stages) == Outcome(Effect(f, stages[0]), []);
        case PutChunk(_, _, _, _, _) => PutChunkPlanFills(f, s, op, now);
        case DeleteChunk(_, _, _) => DeleteChunkPlanClears(f, op);
        case _ => ThreeStages(f, stages[0], stages[1], stages[2]);
      }
    } else if op.DeleteChunk? {
      DeleteChunkPlanClears(f, op);
    }
  }

  // ---------- whole runs ----------

  /** The body of a chunk of the Resource was refused. */
  ghost predicate ChunkRefused(s: State, s': State, id: Id) {
    exists c: nat :: Enabled(s, Refuse(c)) && s.sections[c].op.id == id && s.sections[c].phase.stages[0].PutChunkFile? && s' == Do(s, Refuse(c))
  }

  /** A section of the Resource finished that put a chunk or removed some, or the whole Resource. */
  predicate ChunksTouched(s: State, s': State, id: Id) {
    |s'.log| == |s.log| + 1 &&
    var e := s'.log[|s.log|];
    e.step.op.id == id && !LeavesChunksAlone(e.step.op, e.answer, Live(Committed(s), id))
  }

  ghost predicate LeftEmptyBy(s: State, s': State, id: Id, before: bool) {
    if ChunkRefused(s, s', id) then ChunksOf(Committed(s), id) == map[]
    else if ChunksTouched(s, s', id) then false
    else before
  }

  /** What last decided it left the directory empty: the refusal of a chunk of a Resource without chunks, or how the
      files were when the run began. */
  ghost predicate LeftEmpty(run: seq<State>, n: nat, id: Id)
    requires n < |run|
  {
    if n == 0 then EmptyDir(FolderOf(run[0].folders, id))
    else LeftEmptyBy(run[n - 1], run[n], id, LeftEmpty(run, n - 1, id))
  }

  ghost predicate SectionTracked(f: Folder, section: Section, s: Store, left: bool)
    requires section.phase.Editing?
  {
    var p := section.phase;
    && (EmptyDir(Outcome(f, p.stages)) <==> left && LeavesChunksAlone(section.op, p.answer, Live(s, section.op.id)))
    && (p.stages != [] && WritesBytes(p.stages[0]) ==> (EmptyDir(f) <==> left))
  }

  ghost predicate Tracked(st: State, id: Id, left: bool) {
    && (NoEditor(st, id) ==> (EmptyDir(FolderOf(st.folders, id)) <==> left))
    && forall c :: 0 <= c < |st.sections| && st.sections[c].op.id == id && IsEditing(st, c) ==>
         SectionTracked(FolderIn(st, c), st.sections[c], Committed(st), left)
  }

  lemma SectionGoesOn(st: State, a: Action, c: nat)
    requires Enabled(st, a) && IsEditing(st, c) && a != Refuse(c)
    ensures c < |Do(st, a).sections| && Do(st, a).sections[c].phase != Ended(None)
  {
  }

  /** Only the refusal of a chunk and the end of a section decide anything. */
  predicate Decides(st: State, a: Action, id: Id)
    requires Enabled(st, a)
  {
    || (a.Refuse? && st.sections[a.c].op.id == id && st.sections[a.c].phase.stages[0].PutChunkFile?)
    || (a.Finish? && st.sections[a.c].op.id == id)
  }

  lemma OthersDecideNothing(st: State, a: Action, id: Id, left: bool)
    requires Enabled(st, a) && !Decides(st, a, id)
    ensures !ChunkRefused(st, Do(st, a), id) && !ChunksTouched(st, Do(st, a), id)
    ensures LeftEmptyBy(st, Do(st, a), id, left) == left
  {
    forall c: nat | Enabled(st, Refuse(c)) && st.sections[c].op.id == id && st.sections[c].phase.stages[0].PutChunkFile?
      ensures Do(st, a) != Do(st, Refuse(c))
    {
      SectionGoesOn(st, a, c);
    }
  }

  /** Steps that are none of the Resource's. */
  lemma OthersTrack(st: State, st': State, id: Id, left: bool)
    requires Tracked(st, id, left) && FolderOf(st'.folders, id) == FolderOf(st.folders, id)
    requires |st.sections| <= |st'.sections|
    requires forall c :: 0 <= c < |st.sections| && st.sections[c].op.id == id ==> st'.sections[c] == st.sections[c]
    requires forall c :: 0 <= c < |st'.sections| && st'.sections[c].op.id == id && IsEditing(st', c) ==>
                           c < |st.sections| && st.sections[c].op.id == id
    requires SameAt(Committed(st), Committed(st'), id)
    ensures Tracked(st', id, left)
  {
    if NoEditor(st', id) {
      assert NoEditor(st, id);
    }
    forall c | 0 <= c < |st'.sections| && st'.sections[c].op.id == id && IsEditing(st', c)
      ensures SectionTracked(FolderIn(st', c), st'.sections[c], Committed(st'), left)
    {
      assert IsEditing(st, c) && st'.sections[c] == st.sections[c];
    }
  }

  predicate Own(st: State, st': State, c: nat, id: Id) {
    c < |st.sections| && st.sections[c].op.id == id && OnlyThisSection(st, st', c)
  }

  /** A step of the section that holds the Resource's lock. */
  lemma OwnTracks(st: State, st': State, c: nat, id: Id, left: bool)
    requires Inv(st) && Own(st, st', c, id) && st.mutex.calls[c].phase.Running?
    requires if IsEditing(st', c) then SectionTracked(FolderIn(st', c), st'.sections[c], Committed(st'), left)
             else EmptyDir(FolderOf(st'.folders, id)) <==> left
    ensures Tracked(st', id, left)
  {
    forall d | 0 <= d < |st'.sections| && st'.sections[d].op.id == id && IsEditing(st', d)
      ensures SectionTracked(FolderIn(st', d), st'.sections[d], Committed(st'), left)
    {
      if d != c {
        EditorRuns(st, d);
        OneRunning(st, c, d);
      }
    }
    if NoEditor(st', id) { assert !IsEditing(st', c); }
  }

  lemma NotEditing(st: State, c: nat)
    requires Inv(st) && c < |st.sections| && c < |st.mutex.calls| && st.mutex.calls[c].phase.Running? && !st.sections[c].phase.Editing?
    ensures NoEditor(st, st.sections[c].op.id)
  {
    forall d | 0 <= d < |st.sections| && st.sections[d].op.id == st.sections[c].op.id ensures !st.sections[d].phase.Editing? {
      if st.sections[d].phase.Editing? {
        EditorRuns(st, d);
        OneRunning(st, c, d);
      }
    }
  }

  lemma ReadTracks(st: State, c: nat, now: Time, left: bool)
    requires Inv(st) && Enabled(st, Read(c, now)) && Tracked(st, st.sections[c].op.id, left)
    ensures Tracked(Do(st, Read(c, now)), st.sections[c].op.id, left)
  {
    var st', op := Do(st, Read(c, now)), st.sections[c].op;
    NotEditing(st, c);
    PlanLeavesEmptyIff(FolderIn(st, c), Committed(st), op, now);
    OwnTracks(st, st', c, op.id, left);
  }

  /** A removal or a write of the section leads to the same end. */
  lemma EditShape(st: State, a: Action, c: nat)
    requires Enabled(st, a) && (a.Unlink? || a.Perform?) && a.c == c
    ensures var st', before := Do(st, a), st.sections[c];
            && Own(st, st', c, before.op.id) && IsEditing(st', c) && Committed(st') == Committed(st)
            && st'.sections[c] == before.(phase := before.phase.(stages := st'.sections[c].phase.stages))
            && Outcome(FolderIn(st', c), st'.sections[c].phase.stages) == Outcome(FolderIn(st, c), before.phase.stages)
            && (st'.sections[c].phase.stages != [] ==> !WritesBytes(st'.sections[c].phase.stages[0]) || st'.sections[c].phase.stages == before.phase.stages[1..])
  {
    if a.Unlink? {
      RemovedPiecewise(FolderIn(st, c), st.sections[c].phase.stages, a.part);
    }
  }

  /** And nothing of it can be refused any more. */
  lemma EditTracks(st: State, a: Action, c: nat, left: bool)
    requires Inv(st) && Enabled(st, a) && (a.Unlink? || a.Perform?) && a.c == c && Tracked(st, st.sections[c].op.id, left)
    ensures Tracked(Do(st, a), st.sections[c].op.id, left)
  {
    EditorRuns(st, c);
    assert SectionTracked(FolderIn(st, c), st.sections[c], Committed(st), left) && SectionOk(FolderIn(st, c), st.sections[c], Committed(st));
    EditShape(st, a, c);
    OwnTracks(st, Do(st, a), c, st.sections[c].op.id, left);
  }

  lemma ChunkRefusalTracks(st: State, c: nat, left: bool)
    requires Inv(st) && Enabled(st, Refuse(c)) && st.sections[c].phase.stages[0].PutChunkFile?
    ensures var st', id := Do(st, Refuse(c)), st.sections[c].op.id; Tracked(st', id, LeftEmptyBy(st, st', id, left))
  {
    var st', id := Do(st, Refuse(c)), st.sections[c].op.id;
    EditorRuns(st, c);
    RefusalShape(st, c);
    RefusedChunkLeavesEmptyIff(st, c);
    assert ChunkRefused(st, st', id);
    OwnTracks(st, st', c, id, ChunksOf(Committed(st), id) == map[]);
  }

  lemma OtherRefusalTracks(st: State, c: nat, left: bool)
    requires Inv(st) && Enabled(st, Refuse(c)) && !st.sections[c].phase.stages[0].PutChunkFile?
    requires Tracked(st, st.sections[c].op.id, left)
    ensures Tracked(Do(st, Refuse(c)), st.sections[c].op.id, left)
  {
    EditorRuns(st, c);
    RefusalShape(st, c);
    assert SectionTracked(FolderIn(st, c), st.sections[c], Committed(st), left);
    OwnTracks(st, Do(st, Refuse(c)), c, st.sections[c].op.id, left);
  }

  lemma RefusedChunkLeavesEmptyIff(st: State, c: nat)
    requires Inv(st) && Enabled(st, Refuse(c)) && st.sections[c].phase.stages[0].PutChunkFile?
    ensures EmptyDir(FolderIn(Do(st, Refuse(c)), c)) <==> ChunksOf(Committed(st), st.sections[c].op.id) == map[]
  {
    var f, s, id := FolderIn(st, c), Committed(st), st.sections[c].op.id;
    assert SectionOk(f, st.sections[c], s) && id in s;
    if ChunksOf(s, id) == map[] {
      assert ChunkBodies(map[]) == map[];
      assert forall rep :: rep in ChunksDir(f).files ==> Rep(rep.key, rep.contentType) in ChunksDir(f).files;
    }
  }

  lemma FinishIsNoRefusal(st: State, c: nat, id: Id)
    requires Enabled(st, Finish(c))
    ensures !ChunkRefused(st, Do(st, Finish(c)), id)
  {
    forall d: nat | Enabled(st, Refuse(d)) && st.sections[d].op.id == id && st.sections[d].phase.stages[0].PutChunkFile?
      ensures Do(st, Finish(c)) != Do(st, Refuse(d))
    {
      SectionGoesOn(st, Finish(c), d);
    }
  }

  lemma FinishTracks(st: State, c: nat, left: bool)
    requires Inv(st) && Enabled(st, Finish(c)) && Tracked(st, st.sections[c].op.id, left)
    ensures var st', id := Do(st, Finish(c)), st.sections[c].op.id; Tracked(st', id, LeftEmptyBy(st, st', id, left))
  {
    var st', id := Do(st, Finish(c)), st.sections[c].op.id;
    EditorRuns(st, c);
    assert SectionTracked(FolderIn(st, c), st.sections[c], Committed(st), left);
    FinishIsNoRefusal(st, c, id);
    OwnTracks(st, st', c, id, LeftEmptyBy(st, st', id, left));
  }

  lemma OtherFinishKeeps(st: State, c: nat, id: Id)
    requires Enabled(st, Finish(c)) && st.sections[c].op.id != id
    ensures SameAt(Committed(st), Committed(Do(st, Finish(c))), id)
  {
    var op, p := st.sections[c].op, st.sections[c].phase;
    LogGrows(st.base, st.log, Entry(c, Step(op, p.now), p.answer));
    OtherIdsUntouched(Committed(st), op, p.now, id);
  }

  lemma OwnStepTracks(st: State, a: Action, c: nat, left: bool)
    requires Inv(st) && Enabled(st, a) && (a.Read? || a.Unlink? || a.Perform? || a.Refuse?) && a.c == c
    requires Tracked(st, st.sections[c].op.id, left) && !Decides(st, a, st.sections[c].op.id)
    ensures Tracked(Do(st, a), st.sections[c].op.id, left)
  {
    match a {
      case Read(_, now) => ReadTracks(st, c, now, left);
      case Refuse(_) => OtherRefusalTracks(st, c, left);
      case _ => EditTracks(st, a, c, left);
    }
  }

  lemma OtherStepTracks(st: State, a: Action, id: Id, left: bool)
    requires Enabled(st, a) && Tracked(st, id, left)
    requires a.Call? || a.Schedule? || a.Settle? || st.sections[a.c].op.id != id
    ensures Tracked(Do(st, a), id, left)
  {
    if a.Finish? {
      OtherFinishKeeps(st, a.c, id);
    }
    OthersTrack(st, Do(st, a), id, left);
  }

  lemma StepTracks(st: State, a: Action, id: Id, left: bool)
    requires Inv(st) && Enabled(st, a) && Tracked(st, id, left)
    ensures Tracked(Do(st, a), id, LeftEmptyBy(st, Do(st, a), id, left))
  {
    if Decides(st, a, id) {
      if a.Finish? { FinishTracks(st, a.c, left); } else { ChunkRefusalTracks(st, a.c, left); }
    } else {
      OthersDecideNothing(st, a, id, left);
      if a.Call? || a.Schedule? || a.Settle? || st.sections[a.c].op.id != id {
        OtherStepTracks(st, a, id, left);
      } else {
        OwnStepTracks(st, a, a.c, left);
      }
    }
  }

  lemma {:induction false} RunTracks(run: seq<State>, n: nat, id: Id)
    requires IsRun(run) && n < |run|
    ensures Tracked(run[n], id, LeftEmpty(run, n, id))
  {
    if n > 0 {
      RunTracks(run, n - 1, id);
      RunHasInv(run, n - 1);
      assert Next(run[n - 1], run[n]);
      var a :| Enabled(run[n - 1], a) && run[n] == Do(run[n - 1], a);
      StepTracks(run[n - 1], a, id, LeftEmpty(run, n - 1, id));
    }
  }

  // ---------- when an empty directory is there ----------

  /** Under any schedule, while no section edits the Resource its chunk directory is there and empty exactly when the
      last thing to decide it was a refused chunk of a Resource without chunks, or it was so from the beginning. */
  lemma EmptyChunkDirIff(run: seq<State>, n: nat, id: Id)
    requires IsRun(run) && n < |run| && NoEditor(run[n], id)
    ensures EmptyDir(FolderOf(run[n].folders, id)) <==> LeftEmpty(run, n, id)
  {
    RunTracks(run, n, id);
  }

  /** A refused chunk leaves an empty directory exactly when its Resource has no chunk; any other refused body leaves
      every file as it was. */
  lemma RefusalLeavesEmptyIff(run: seq<State>, n: nat, c: nat)
    requires IsRun(run) && n < |run| && Enabled(run[n], Refuse(c))
    ensures var after := FolderIn(Do(run[n], Refuse(c)), c);
            if run[n].sections[c].phase.stages[0].PutChunkFile? then
              EmptyDir(after) <==> ChunksOf(Committed(run[n]), run[n].sections[c].op.id) == map[]
            else after == FolderIn(run[n], c)
  {
    RunHasInv(run, n);
    if run[n].sections[c].phase.stages[0].PutChunkFile? {
      RefusedChunkLeavesEmptyIff(run[n], c);
    }
  }

  /** Section `c` read its files at `m` and has been at work since. */
  ghost predicate AtWork(run: seq<State>, m: nat, n: nat, c: nat) {
    && m < n < |run| && c < |run[m].sections| && run[m].sections[c].phase.Waiting?
    && forall k :: m < k <= n ==> IsEditing(run[k], c) && run[k].sections[c].op == run[m].sections[c].op
  }

  lemma NextOfEditor(st: State, a: Action, c: nat)
    requires Inv(st) && Enabled(st, a) && IsEditing(st, c) && IsEditing(Do(st, a), c)
    ensures !Decides(st, a, st.sections[c].op.id)
  {
    EditorRuns(st, c);
    if a.Finish? || a.Refuse? {
      EditorRuns(st, a.c);
      if st.sections[a.c].op.id == st.sections[c].op.id { OneRunning(st, c, a.c); }
    }
  }

  ghost predicate Decided(run: seq<State>, k: nat, id: Id)
    requires 0 < k < |run|
  {
    ChunkRefused(run[k - 1], run[k], id) || ChunksTouched(run[k - 1], run[k], id)
  }

  lemma ActionAt(run: seq<State>, k: nat) returns (a: Action)
    requires IsRun(run) && 0 < k < |run|
    ensures Inv(run[k - 1]) && Enabled(run[k - 1], a) && run[k] == Do(run[k - 1], a)
  {
    RunHasInv(run, k - 1);
    assert Next(run[k - 1], run[k]);
    a :| Enabled(run[k - 1], a) && run[k] == Do(run[k - 1], a);
  }

  lemma StepAtWork(st: State, a: Action, c: nat)
    requires Inv(st) && Enabled(st, a) && c < |st.sections| && !st.sections[c].phase.Ended? && IsEditing(Do(st, a), c)
    ensures var st', id := Do(st, a), st.sections[c].op.id; !ChunkRefused(st, st', id) && !ChunksTouched(st, st', id)
  {
    if st.sections[c].phase.Editing? {
      NextOfEditor(st, a, c);
    } else {
      BeginsToRead(st, a, c);
    }
    OthersDecideNothing(st, a, st.sections[c].op.id, false);
  }

  lemma NothingDecidedAtWork(run: seq<State>, m: nat, k: nat, c: nat, id: Id)
    requires IsRun(run) && AtWork(run, m, k, c) && id == run[m].sections[c].op.id
    ensures !Decided(run, k, id)
  {
    var a := ActionAt(run, k);
    var st := run[k - 1];
    assert IsEditing(run[k], c);
    assert c < |st.sections| && !st.sections[c].phase.Ended? && st.sections[c].op.id == id by {
      if k - 1 > m { assert IsEditing(run[k - 1], c); }
    }
    StepAtWork(st, a, c);
  }

  lemma UndecidedStep(run: seq<State>, k: nat, id: Id)
    requires 0 < k < |run| && !Decided(run, k, id)
    ensures LeftEmpty(run, k, id) == LeftEmpty(run, k - 1, id)
  {
  }

  lemma {:induction false} Unchanged(history: seq<bool>, m: nat, n: nat)
    requires m <= n < |history| && forall k :: m < k <= n ==> history[k] == history[k - 1]
    ensures history[n] == history[m]
    decreases n
  {
    if m < n {
      Unchanged(history, m, n - 1);
    }
  }

  ghost function History(run: seq<State>, id: Id): seq<bool> {
    seq(|run|, k requires 0 <= k < |run| => LeftEmpty(run, k, id))
  }

  lemma WorkKeepsLeft(run: seq<State>, m: nat, n: nat, c: nat)
    requires IsRun(run) && AtWork(run, m, n, c)
    ensures var id := run[m].sections[c].op.id; LeftEmpty(run, n, id) == LeftEmpty(run, m, id)
  {
    var id := run[m].sections[c].op.id;
    forall k | m < k <= n ensures History(run, id)[k] == History(run, id)[k - 1] {
      NothingDecidedAtWork(run, m, k, c, id);
      UndecidedStep(run, k, id);
    }
    Unchanged(History(run, id), m, n);
  }

  lemma BeginsToRead(st: State, a: Action, c: nat)
    requires Inv(st) && Enabled(st, a) && c < |st.sections| && st.sections[c].phase.Waiting? && IsEditing(Do(st, a), c)
    ensures a.Read? && a.c == c && NoEditor(st, st.sections[c].op.id)
  {
    NotEditing(st, c);
  }

  lemma BeginsAlone(st: State, st': State, c: nat)
    requires Inv(st) && Next(st, st') && c < |st.sections| && st.sections[c].phase.Waiting? && IsEditing(st', c)
    ensures NoEditor(st, st.sections[c].op.id)
  {
    var a :| Enabled(st, a) && st' == Do(st, a);
    BeginsToRead(st, a, c);
  }

  lemma EmptyWhenRead(run: seq<State>, m: nat, n: nat, c: nat)
    requires IsRun(run) && AtWork(run, m, n, c)
    ensures EmptyDir(FolderIn(run[m], c)) <==> LeftEmpty(run, m, run[m].sections[c].op.id)
  {
    RunHasInv(run, m);
    assert IsEditing(run[m + 1], c);
    BeginsAlone(run[m], run[m + 1], c);
    EmptyChunkDirIff(run, m, run[m].sections[c].op.id);
  }

  lemma EmptyWhenFinished(run: seq<State>, n: nat, c: nat)
    requires IsRun(run) && n < |run| && Enabled(run[n], Finish(c))
    ensures var section := run[n].sections[c];
            EmptyDir(FolderIn(run[n], c)) <==>
            LeftEmpty(run, n, section.op.id) &&
            LeavesChunksAlone(section.op, section.phase.answer, Live(Committed(run[n]), section.op.id))
  {
    var id := run[n].sections[c].op.id;
    RunTracks(run, n, id);
    assert SectionTracked(FolderIn(run[n], c), run[n].sections[c], Committed(run[n]), LeftEmpty(run, n, id));
  }

  /** A section that ends without a refusal leaves an empty directory exactly when it found one and its operation left
      the chunks alone. */
  lemma FinishedSectionLeavesEmptyIff(run: seq<State>, m: nat, n: nat, c: nat)
    requires IsRun(run) && AtWork(run, m, n, c) && Enabled(run[n], Finish(c))
    ensures var section := run[n].sections[c];
            EmptyDir(FolderIn(run[n], c)) <==>
            EmptyDir(FolderIn(run[m], c)) &&
            LeavesChunksAlone(section.op, section.phase.answer, Live(Committed(run[n]), section.op.id))
  {
    EmptyWhenRead(run, m, n, c);
    WorkKeepsLeft(run, m, n, c);
    EmptyWhenFinished(run, n, c);
  }

  // ---------- a directory that is left ----------

  lemma FirstChunkIsPlanned(f: Folder, s: Store, op: Op, now: Time)
    requires FolderStandsFor(f, s, op.id) && op.PutChunk? && op.guard == UNCONDITIONAL && Live(s, op.id)
    ensures var stages := PlanOf(f, op, now).stages; stages != [] && stages[0].PutChunkFile?
  {
    ChunkSeen(f, s, op.id, op.index);
  }

  /** The first call of a run, made and begun. */
  function Begun(st: State, op: Op): State {
    st.(mutex := M.Mutex(map[LockKey(st.collection, op.id) := 0], [M.Call(LockKey(st.collection, op.id), None, M.Running)]),
        sections := [Section(op, Waiting)])
  }

  lemma FirstCallBegins(st: State, op: Op) returns (called: State)
    requires AtRest(st)
    ensures Next(st, called) && Next(called, Begun(st, op))
  {
    called := Do(st, Call(op));
    assert Do(called, Schedule(M.Start(0))) == Begun(st, op);
  }

  lemma FirstChunkIsRead(st: State, op: Op, now: Time) returns (read: State)
    requires AtRest(st) && op.PutChunk? && op.guard == UNCONDITIONAL && Live(st.base, op.id)
    ensures Next(Begun(st, op), read) && Enabled(read, Refuse(0)) && read.sections[0].phase.stages[0].PutChunkFile?
    ensures |read.sections| == 1 && read.sections[0].op == op && Committed(read) == st.base
  {
    var begun := Begun(st, op);
    assert FolderStandsFor(FolderOf(st.folders, op.id), st.base, op.id);
    FirstChunkIsPlanned(FolderIn(begun, 0), st.base, op, now);
    read := Do(begun, Read(0, now));
  }

  /** Wherever a Resource has no chunk, the refusal of its first one leaves the directory. */
  lemma RefusedFirstChunk(st: State, op: Op, now: Time) returns (run: seq<State>)
    requires AtRest(st) && op.PutChunk? && op.guard == UNCONDITIONAL && Live(st.base, op.id) && ChunksOf(st.base, op.id) == map[]
    ensures IsRun(run) && run[0] == st && |run| == 5
    ensures Enabled(run[3], Refuse(0)) && run[4] == Do(run[3], Refuse(0))
    ensures NoEditor(run[4], op.id) && EmptyDir(FolderOf(run[4].folders, op.id))
  {
    var called := FirstCallBegins(st, op);
    var read := FirstChunkIsRead(st, op, now);
    var refused := Do(read, Refuse(0));
    run := [st, called, Begun(st, op), read, refused];
    assert Next(read, refused);
    RefusalLeavesEmptyIff(run, 3, 0);
  }

  /** A Collection of one text file without chunks. */
  function OneFile(): State {
    var sidecar := Sidecar("", "", None, 1, None, None, None, false, None);
    var r := Resource("text/plain", Some("text"), 1, None, None, None, None, "", "", map[]);
    State("c", map["r" := r], M.EMPTY, [], map["r" := Folder(map["text/plain" := "text"], Some(sidecar), None)], [])
  }

  lemma EmptyDirectoryIsLeft() returns (run: seq<State>)
    ensures IsRun(run) && run[0] == OneFile() && |run| == 5
    ensures NoEditor(run[4], "r") && EmptyDir(FolderOf(run[4].folders, "r")) && !EmptyDir(FolderOf(run[0].folders, "r"))
  {
    var st := OneFile();
    assert ChunkBodies(map[]) == map[];
    assert AtRest(st);
    run := RefusedFirstChunk(st, PutChunk("r", 0, "text/plain", "body", UNCONDITIONAL), "");
  }
}
