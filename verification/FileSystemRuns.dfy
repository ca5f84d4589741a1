/**
 Many calls on one Collection of the filesystem backend at once. Each call queues its section on the keyed mutex
 under its Resource's key, at any time, so also while a uniqueness check holds its Collection's key around it. The
 sections of different Resources interleave file by file, and so do the removals inside one section. Whatever the
 schedule, the finished sections have the answers and the effects of their operations applied one at a time, in the
 order they finish.
 */
module FileSystemRuns {
  import opened CollectionStore
  import opened FileSystemStore
  import opened FileSystemSections
  import M = KeyedMutexModel
  import L = StoreLaws
  import opened Preconditions
  import opened Wrappers

  datatype Phase =
    | Waiting
    | Editing(now: Time, stages: seq<Stage>, answer: Answer)
    | Ended(result: Option<Answer>)

  datatype Section = Section(op: Op, phase: Phase)

  /** What a finished section did. */
  datatype Entry = Entry(call: nat, step: Step, answer: Answer)

  /** `collection` is the Collection's part of its lock keys, and `base` what its files stood for before the first
      call; call `c` of the mutex runs section `c`. */
  datatype State = State(
    collection: string, base: Store, mutex: M.Mutex, sections: seq<Section>, folders: map<Id, Folder>, log: seq<Entry>)

  function LockKey(collection: string, id: Id): M.Key {
    collection + "/" + id
  }

  function FolderOf(folders: map<Id, Folder>, id: Id): Folder {
    if id in folders then folders[id] else NOTHING
  }

  // ---------- one file at a time ----------

  datatype Part = File(contentType: string) | ChunkFile(rep: Rep<nat>) | ChunkSidecarFile(index: nat)

  /** The files a stage may be removing, in any order. */
  predicate Removes(e: Stage, part: Part) {
    match e
    case RemoveFiles(ms) => part.File? && part.contentType in ms
    case RemoveChunkFiles(reps) => part.ChunkFile? && part.rep in reps
    case DropChunks => !part.File?
    case _ => false
  }

  function Without(f: Folder, part: Part): Folder {
    match part
    case File(m) => f.(files := f.files - {m})
    case ChunkFile(rep) => if f.chunks.None? then f else f.(chunks := Some(ChunksDir(f).(files := ChunksDir(f).files - {rep})))
    case ChunkSidecarFile(i) => if f.chunks.None? then f else f.(chunks := Some(ChunksDir(f).(sidecars := ChunksDir(f).sidecars - {i})))
  }

  /** What is left of a stage once one of its files is gone. */
  function LeftOf(e: Stage, part: Part): Stage
    requires Removes(e, part)
  {
    match e
    case RemoveFiles(ms) => RemoveFiles(ms - {part.contentType})
    case RemoveChunkFiles(reps) => RemoveChunkFiles(reps - {part.rep})
    case _ => e
  }

  lemma RemovedPiecewise(f: Folder, stages: seq<Stage>, part: Part)
    requires stages != [] && Removes(stages[0], part)
    ensures Outcome(Without(f, part), [LeftOf(stages[0], part)] + stages[1..]) == Outcome(f, stages)
  {
    var e, left := stages[0], LeftOf(stages[0], part);
    assert ([left] + stages[1..])[1..] == stages[1..];
    match e {
      case RemoveFiles(ms) =>
        assert (f.files - {part.contentType}) - (ms - {part.contentType}) == f.files - ms;
      case RemoveChunkFiles(reps) =>
        assert (ChunksDir(f).files - {part.rep}) - (reps - {part.rep}) == ChunksDir(f).files - reps;
      case DropChunks =>
    }
  }

  /** The write of a body, which its size, a quota or its digest may refuse. */
  predicate WritesBytes(e: Stage) {
    e.PutFile? || e.PutChunkFile?
  }

  /** A refused body leaves nothing but, before the first chunk, an empty chunk directory. */
  function AfterRefusal(f: Folder, e: Stage): Folder {
    if e.PutChunkFile? then f.(chunks := Some(ChunksDir(f))) else f
  }

  // ---------- the machine ----------

  datatype Action =
    | Call(op: Op)
    | Schedule(move: M.Action)
    | Read(c: nat, now: Time)
    | Unlink(c: nat, part: Part)
    | Perform(c: nat)
    | Refuse(c: nat)
    | Finish(c: nat)
    | Settle(c: nat)

  predicate IsEditing(st: State, c: nat) {
    c < |st.sections| && st.sections[c].phase.Editing?
  }

  predicate HasStage(st: State, c: nat) {
    IsEditing(st, c) && st.sections[c].phase.stages != []
  }

  predicate Enabled(st: State, a: Action) {
    match a
    case Call(_) => true
    case Schedule(move) => !move.Run? && !move.Settle? && M.Enabled(st.mutex, move)
    case Read(c, _) => c < |st.sections| && c < |st.mutex.calls| && st.sections[c].phase.Waiting? && st.mutex.calls[c].phase.Running?
    case Unlink(c, part) => HasStage(st, c) && Removes(st.sections[c].phase.stages[0], part)
    case Perform(c) => HasStage(st, c)
    case Refuse(c) => HasStage(st, c) && WritesBytes(st.sections[c].phase.stages[0])
    case Finish(c) => IsEditing(st, c) && st.sections[c].phase.stages == []
    case Settle(c) => c < |st.sections| && st.sections[c].phase.Ended? && M.Enabled(st.mutex, M.Settle(c, true))
  }

  function WithPhase(st: State, c: nat, phase: Phase): State
    requires c < |st.sections|
  {
    st.(sections := st.sections[c := st.sections[c].(phase := phase)])
  }

  function WithFolder(st: State, c: nat, f: Folder): State
    requires c < |st.sections|
  {
    st.(folders := st.folders[st.sections[c].op.id := f])
  }

  function FolderIn(st: State, c: nat): Folder
    requires c < |st.sections|
  {
    FolderOf(st.folders, st.sections[c].op.id)
  }

  function Rejected(result: Option<Answer>): bool {
    result.None? || result.value.NotFound? || result.value.PreconditionFailed?
  }

  ghost function Do(st: State, a: Action): State
    requires Enabled(st, a)
  {
    match a
    case Call(op) =>
      st.(mutex := M.Do(st.mutex, M.Run(LockKey(st.collection, op.id))), sections := st.sections + [Section(op, Waiting)])
    case Schedule(move) => st.(mutex := M.Do(st.mutex, move))
    case Read(c, now) =>
      var plan := PlanOf(FolderIn(st, c), st.sections[c].op, now);
      WithPhase(st, c, Editing(now, plan.stages, plan.answer))
    case Unlink(c, part) =>
      var p := st.sections[c].phase;
      WithPhase(WithFolder(st, c, Without(FolderIn(st, c), part)), c, p.(stages := [LeftOf(p.stages[0], part)] + p.stages[1..]))
    case Perform(c) =>
      var p := st.sections[c].phase;
      WithPhase(WithFolder(st, c, Effect(FolderIn(st, c), p.stages[0])), c, p.(stages := p.stages[1..]))
    case Refuse(c) =>
      WithPhase(WithFolder(st, c, AfterRefusal(FolderIn(st, c), st.sections[c].phase.stages[0])), c, Ended(None))
    case Finish(c) =>
      var p := st.sections[c].phase;
      WithPhase(st, c, Ended(Some(p.answer))).(log := st.log + [Entry(c, Step(st.sections[c].op, p.now), p.answer)])
    case Settle(c) => st.(mutex := M.Do(st.mutex, M.Settle(c, Rejected(st.sections[c].phase.result))))
  }

  ghost predicate Next(st: State, st': State) {
    exists a :: Enabled(st, a) && st' == Do(st, a)
  }

  /** No call made yet, over the files of any Collection; an empty chunk directory may be among them. */
  ghost predicate AtRest(st: State) {
    && st.mutex == M.EMPTY && st.sections == [] && st.log == []
    && WellFormed(st.base) && forall id :: FolderStandsFor(FolderOf(st.folders, id), st.base, id)
  }

  /** Any number of calls, at any time, in any schedule. */
  ghost predicate IsRun(run: seq<State>) {
    |run| > 0 && AtRest(run[0]) && forall i :: 0 < i < |run| ==> Next(run[i - 1], run[i])
  }

  // ---------- what the sections see of each other ----------

  function Steps(log: seq<Entry>): seq<Step> {
    seq(|log|, i requires 0 <= i < |log| => log[i].step)
  }

  function Committed(st: State): Store {
    StoreAfter(st.base, Steps(st.log))
  }

  predicate SameAt(s: Store, t: Store, id: Id) {
    (id in s <==> id in t) && (id in s ==> s[id] == t[id])
  }

  /** An operation reads and writes its own Resource only. */
  lemma ApplyIsLocal(s: Store, t: Store, op: Op, now: Time)
    requires SameAt(s, t, op.id)
    ensures Apply(s, op, now).1 == Apply(t, op, now).1 && SameAt(Apply(s, op, now).0, Apply(t, op, now).0, op.id)
  {
  }

  /** The files of a Resource stand for it as it is without any section, or as it will be once its section is done. */
  ghost predicate SectionOk(f: Folder, section: Section, s: Store)
    requires section.phase.Editing?
  {
    var op, p := section.op, section.phase;
    && p.answer == Apply(s, op, p.now).1
    && FolderStandsFor(Outcome(f, p.stages), Apply(s, op, p.now).0, op.id)
    && (p.stages != [] && WritesBytes(p.stages[0]) ==> FolderStandsFor(f, s, op.id) && (p.stages[0].PutChunkFile? ==> op.id in s))
    && (p.stages != [] && !op.Delete? ==> Live(Apply(s, op, p.now).0, op.id))
    && (forall k :: 0 < k < |p.stages| ==> !WritesBytes(p.stages[k]))
  }

  lemma SectionOkIsLocal(f: Folder, section: Section, s: Store, t: Store)
    requires section.phase.Editing? && SectionOk(f, section, s) && SameAt(s, t, section.op.id)
    ensures SectionOk(f, section, t)
  {
    ApplyIsLocal(s, t, section.op, section.phase.now);
  }

  lemma PlanStages(f: Folder, s: Store, op: Op, now: Time)
    requires FolderStandsFor(f, s, op.id) && WellFormed(s)
    ensures var stages := PlanOf(f, op, now).stages;
            && (stages != [] && !op.Delete? ==> Live(Apply(s, op, now).0, op.id))
            && (forall k :: 0 < k < |stages| ==> !WritesBytes(stages[k]))
  {
    assert f.files != map[] <==> Live(s, op.id) by {
      if Live(s, op.id) { assert s[op.id].contentType in f.files; }
    }
    if op.PutChunk? || op.DeleteChunk? { ChunkSeen(f, s, op.id, op.index); }
    if op.id in s { assert Clean(s[op.id]); }
  }

  lemma ReadIsOk(f: Folder, s: Store, op: Op, now: Time)
    requires FolderStandsFor(f, s, op.id) && WellFormed(s)
    ensures var plan := PlanOf(f, op, now);
            SectionOk(f, Section(op, Editing(now, plan.stages, plan.answer)), s)
  {
    PlanIsOperation(f, s, op, now);
    PlanStages(f, s, op, now);
  }

  /** Any next write or removal of a section, in any order, leads to the same end. */
  lemma EditIsOk(f: Folder, section: Section, s: Store, f': Folder, stages: seq<Stage>)
    requires section.phase.Editing? && SectionOk(f, section, s) && section.phase.stages != []
    requires Outcome(f', stages) == Outcome(f, section.phase.stages)
    requires stages == section.phase.stages[1..] ||
             (|stages| == |section.phase.stages| && stages[1..] == section.phase.stages[1..] && !WritesBytes(stages[0]))
    ensures SectionOk(f', section.(phase := section.phase.(stages := stages)), s)
  {
    assert forall k :: 0 < k < |stages| && |stages| == |section.phase.stages| ==> stages[k] == stages[1..][k - 1] == section.phase.stages[k];
  }

  lemma RefusedLeavesNothing(f: Folder, s: Store, id: Id, e: Stage)
    requires FolderStandsFor(f, s, id) && WritesBytes(e) && (e.PutChunkFile? ==> id in s)
    ensures FolderStandsFor(AfterRefusal(f, e), s, id)
  {
  }

  // ---------- the invariant ----------

  predicate PhaseOk(call: M.Phase, section: Phase) {
    match call
    case Queued => section.Waiting?
    case Running => true
    case Settled(_, _, _) => section.Ended?
  }

  ghost predicate Aligned(st: State) {
    && M.Inv(st.mutex) && |st.mutex.calls| == |st.sections|
    && forall c :: 0 <= c < |st.sections| ==>
         st.mutex.calls[c].key == LockKey(st.collection, st.sections[c].op.id) && PhaseOk(st.mutex.calls[c].phase, st.sections[c].phase)
  }

  predicate NoEditor(st: State, id: Id) {
    forall c :: 0 <= c < |st.sections| && st.sections[c].op.id == id ==> !st.sections[c].phase.Editing?
  }

  ghost predicate FoldersOk(st: State) {
    forall id :: NoEditor(st, id) ==> FolderStandsFor(FolderOf(st.folders, id), Committed(st), id)
  }

  ghost predicate SectionsOk(st: State) {
    forall c :: 0 <= c < |st.sections| && IsEditing(st, c) ==> SectionOk(FolderIn(st, c), st.sections[c], Committed(st))
  }

  predicate EntryOk(st: State, e: Entry) {
    e.call < |st.sections| && st.sections[e.call] == Section(e.step.op, Ended(Some(e.answer)))
  }

  predicate LogOrdered(log: seq<Entry>) {
    forall i, j :: 0 <= i < j < |log| && log[i].step.op.id == log[j].step.op.id ==> log[i].call < log[j].call
  }

  function LoggedAnswers(log: seq<Entry>): seq<Answer> {
    seq(|log|, i requires 0 <= i < |log| => log[i].answer)
  }

  predicate Answered(st: State, c: nat) {
    c < |st.sections| && st.sections[c].phase.Ended? && st.sections[c].phase.result.Some?
  }

  predicate Logged(log: seq<Entry>, c: nat) {
    exists i :: 0 <= i < |log| && log[i].call == c
  }

  ghost predicate LogOk(st: State) {
    && (forall c :: Answered(st, c) ==> Logged(st.log, c))
    && (forall i :: 0 <= i < |st.log| ==> EntryOk(st, st.log[i]))
    && LogOrdered(st.log)
    && LoggedAnswers(st.log) == Answers(st.base, Steps(st.log))
  }

  ghost predicate Inv(st: State) {
    Aligned(st) && FoldersOk(st) && SectionsOk(st) && LogOk(st) && WellFormed(st.base)
  }

  /** The mutex admits one section of a Resource at a time. */
  lemma OneRunning(st: State, c: nat, d: nat)
    requires Aligned(st) && c < |st.sections| && d < |st.sections| && st.sections[c].op.id == st.sections[d].op.id
    requires st.mutex.calls[c].phase.Running? && st.mutex.calls[d].phase.Running?
    ensures c == d
  {
    assert M.Started(st.mutex, c) && M.Started(st.mutex, d);
    assert M.SettledBefore(st.mutex, st.mutex.calls[d].key, d) && M.SettledBefore(st.mutex, st.mutex.calls[c].key, c);
  }

  lemma EditorRuns(st: State, c: nat)
    requires Aligned(st) && c < |st.sections| && st.sections[c].phase.Editing?
    ensures st.mutex.calls[c].phase.Running?
  {
  }

  predicate OnlyThisSection(st: State, st': State, c: nat)
    requires c < |st.sections|
  {
    && |st'.sections| == |st.sections| && st'.sections[c].op == st.sections[c].op
    && forall d :: 0 <= d < |st.sections| && d != c ==> st'.sections[d] == st.sections[d]
  }

  /** A change by the section that holds its Resource's lock is seen by no other section. */
  lemma OwnChange(st: State, st': State, c: nat)
    requires Aligned(st) && FoldersOk(st) && SectionsOk(st) && c < |st.sections| && st.mutex.calls[c].phase.Running?
    requires OnlyThisSection(st, st', c)
    requires forall id :: id != st.sections[c].op.id ==>
                            FolderOf(st'.folders, id) == FolderOf(st.folders, id) && SameAt(Committed(st), Committed(st'), id)
    requires if IsEditing(st', c) then SectionOk(FolderIn(st', c), st'.sections[c], Committed(st'))
             else FolderStandsFor(FolderIn(st', c), Committed(st'), st.sections[c].op.id)
    ensures FoldersOk(st') && SectionsOk(st')
  {
    var own := st.sections[c].op.id;
    forall id | NoEditor(st', id) ensures FolderStandsFor(FolderOf(st'.folders, id), Committed(st'), id) {
      if id == own {
        assert !IsEditing(st', c);
      } else {
        assert NoEditor(st, id) by {
          assert forall d :: 0 <= d < |st.sections| && d != c ==> st'.sections[d] == st.sections[d];
        }
      }
    }
    forall d | 0 <= d < |st'.sections| && IsEditing(st', d) ensures SectionOk(FolderIn(st', d), st'.sections[d], Committed(st')) {
      if d != c {
        EditorRuns(st, d);
        if st.sections[d].op.id == own { OneRunning(st, c, d); }
        SectionOkIsLocal(FolderIn(st, d), st.sections[d], Committed(st), Committed(st'));
      }
    }
  }

  lemma AlignedStays(st: State, st': State, c: nat)
    requires Aligned(st) && c < |st.sections| && st.mutex.calls[c].phase.Running?
    requires st'.mutex == st.mutex && st'.collection == st.collection && OnlyThisSection(st, st', c)
    ensures Aligned(st')
  {
  }

  lemma LogStays(st: State, st': State, c: nat)
    requires LogOk(st) && st'.log == st.log && st'.base == st.base && |st'.sections| >= |st.sections|
    requires forall d :: 0 <= d < |st.sections| && d != c ==> st'.sections[d] == st.sections[d]
    requires c <= |st.sections| && |st'.sections| <= if c < |st.sections| then |st.sections| else |st.sections| + 1
    requires (c < |st.sections| ==> !st.sections[c].phase.Ended?) && !Answered(st', c)
    ensures LogOk(st')
  {
    forall d | Answered(st', d) ensures Logged(st'.log, d) {
      assert Answered(st, d);
    }
    forall i | 0 <= i < |st.log| ensures EntryOk(st', st.log[i]) {
      assert EntryOk(st, st.log[i]);
    }
  }

  /** A section that has not answered yet leaves the log as it is. */
  lemma UnansweredKeepsInv(st: State, st': State, c: nat)
    requires Inv(st) && c < |st.sections| && st.mutex.calls[c].phase.Running? && !st.sections[c].phase.Ended?
    requires st'.mutex == st.mutex && st'.collection == st.collection && st'.base == st.base && st'.log == st.log && OnlyThisSection(st, st', c)
    requires forall id :: id != st.sections[c].op.id ==> FolderOf(st'.folders, id) == FolderOf(st.folders, id)
    requires if IsEditing(st', c) then SectionOk(FolderIn(st', c), st'.sections[c], Committed(st))
             else FolderStandsFor(FolderIn(st', c), Committed(st), st.sections[c].op.id)
    requires !Answered(st', c)
    ensures Inv(st')
  {
    OwnChange(st, st', c);
    AlignedStays(st, st', c);
    LogStays(st, st', c);
  }

  lemma ReadKeepsInv(st: State, c: nat, now: Time)
    requires Inv(st) && Enabled(st, Read(c, now))
    ensures Inv(Do(st, Read(c, now)))
  {
    var st', op := Do(st, Read(c, now)), st.sections[c].op;
    assert NoEditor(st, op.id) by {
      forall d | 0 <= d < |st.sections| && st.sections[d].op.id == op.id ensures !st.sections[d].phase.Editing? {
        if st.sections[d].phase.Editing? {
          EditorRuns(st, d);
          OneRunning(st, c, d);
        }
      }
    }
    StoreStaysWellFormed(st.base, Steps(st.log));
    ReadIsOk(FolderIn(st, c), Committed(st), op, now);
    UnansweredKeepsInv(st, st', c);
  }

  lemma EditKeepsInv(st: State, c: nat, f': Folder, stages: seq<Stage>)
    requires Inv(st) && HasStage(st, c)
    requires SectionOk(f', st.sections[c].(phase := st.sections[c].phase.(stages := stages)), Committed(st))
    ensures Inv(WithPhase(WithFolder(st, c, f'), c, st.sections[c].phase.(stages := stages)))
  {
    var st' := WithPhase(WithFolder(st, c, f'), c, st.sections[c].phase.(stages := stages));
    EditorRuns(st, c);
    UnansweredKeepsInv(st, st', c);
  }

  lemma UnlinkKeepsInv(st: State, c: nat, part: Part)
    requires Inv(st) && Enabled(st, Unlink(c, part))
    ensures Inv(Do(st, Unlink(c, part)))
  {
    var f, section := FolderIn(st, c), st.sections[c];
    var stages := section.phase.stages;
    RemovedPiecewise(f, stages, part);
    var left := [LeftOf(stages[0], part)] + stages[1..];
    assert left[1..] == stages[1..];
    EditIsOk(f, section, Committed(st), Without(f, part), left);
    EditKeepsInv(st, c, Without(f, part), left);
  }

  lemma PerformKeepsInv(st: State, c: nat)
    requires Inv(st) && Enabled(st, Perform(c))
    ensures Inv(Do(st, Perform(c)))
  {
    var f, section := FolderIn(st, c), st.sections[c];
    var stages := section.phase.stages;
    EditIsOk(f, section, Committed(st), Effect(f, stages[0]), stages[1..]);
    EditKeepsInv(st, c, Effect(f, stages[0]), stages[1..]);
  }

  lemma RefusedStandsFor(st: State, c: nat)
    requires Inv(st) && Enabled(st, Refuse(c))
    ensures FolderStandsFor(AfterRefusal(FolderIn(st, c), st.sections[c].phase.stages[0]), Committed(st), st.sections[c].op.id)
  {
    assert SectionOk(FolderIn(st, c), st.sections[c], Committed(st));
    RefusedLeavesNothing(FolderIn(st, c), Committed(st), st.sections[c].op.id, st.sections[c].phase.stages[0]);
  }

  lemma RefusalShape(st: State, c: nat)
    requires Enabled(st, Refuse(c))
    ensures var st', id := Do(st, Refuse(c)), st.sections[c].op.id;
            && st'.mutex == st.mutex && st'.collection == st.collection && st'.base == st.base && st'.log == st.log
            && OnlyThisSection(st, st', c) && !IsEditing(st', c) && !Answered(st', c)
            && FolderOf(st'.folders, id) == FolderIn(st', c) == AfterRefusal(FolderIn(st, c), st.sections[c].phase.stages[0])
            && forall other :: other != id ==> FolderOf(st'.folders, other) == FolderOf(st.folders, other)
  {
  }

  lemma RefuseKeepsInv(st: State, c: nat)
    requires Inv(st) && Enabled(st, Refuse(c))
    ensures Inv(Do(st, Refuse(c)))
  {
    var st' := Do(st, Refuse(c));
    EditorRuns(st, c);
    RefusedStandsFor(st, c);
    RefusalShape(st, c);
    UnansweredKeepsInv(st, st', c);
  }

  lemma LogGrows(base: Store, log: seq<Entry>, e: Entry)
    ensures Steps(log + [e]) == Steps(log) + [e.step]
    ensures StoreAfter(base, Steps(log + [e])) == Apply(StoreAfter(base, Steps(log)), e.step.op, e.step.now).0
    ensures LoggedAnswers(log) == Answers(base, Steps(log)) && e.answer == Apply(StoreAfter(base, Steps(log)), e.step.op, e.step.now).1 ==>
              LoggedAnswers(log + [e]) == Answers(base, Steps(log + [e]))
  {
    var more := Steps(log + [e]);
    assert more == Steps(log) + [e.step];
    assert more[..|more| - 1] == Steps(log);
    assert LoggedAnswers(log + [e]) == LoggedAnswers(log) + [e.answer];
  }

  lemma LoggedGrows(log: seq<Entry>, e: Entry)
    ensures forall c :: Logged(log, c) || c == e.call ==> Logged(log + [e], c)
  {
    assert (log + [e])[|log|] == e;
    forall c | Logged(log, c) ensures Logged(log + [e], c) {
      var i :| 0 <= i < |log| && log[i].call == c;
      assert (log + [e])[i].call == c;
    }
  }

  /** Finished sections of one Resource are logged in call order. */
  lemma LaterThanLogged(st: State, c: nat, i: nat)
    requires Inv(st) && IsEditing(st, c) && i < |st.log| && st.log[i].step.op.id == st.sections[c].op.id
    ensures st.log[i].call < c
  {
    var d := st.log[i].call;
    EditorRuns(st, c);
    assert EntryOk(st, st.log[i]);
    assert M.Started(st.mutex, d) && M.SettledBefore(st.mutex, st.mutex.calls[d].key, d);
  }

  lemma OrderGrows(st: State, c: nat, e: Entry)
    requires Inv(st) && IsEditing(st, c) && e.call == c && e.step.op == st.sections[c].op
    ensures LogOrdered(st.log + [e])
  {
    forall i | 0 <= i < |st.log| && st.log[i].step.op.id == e.step.op.id ensures st.log[i].call < c {
      LaterThanLogged(st, c, i);
    }
  }

  lemma FinishKeepsEntries(st: State, c: nat)
    requires Inv(st) && Enabled(st, Finish(c))
    ensures var st' := Do(st, Finish(c)); forall i :: 0 <= i < |st'.log| ==> EntryOk(st', st'.log[i])
  {
    var st' := Do(st, Finish(c));
    forall i | 0 <= i < |st'.log| ensures EntryOk(st', st'.log[i]) {
      if i < |st.log| { assert EntryOk(st, st.log[i]); }
    }
  }

  lemma FinishKeepsLog(st: State, c: nat)
    requires Inv(st) && Enabled(st, Finish(c))
    ensures LogOk(Do(st, Finish(c)))
  {
    var st', p := Do(st, Finish(c)), st.sections[c].phase;
    var e := Entry(c, Step(st.sections[c].op, p.now), p.answer);
    LogGrows(st.base, st.log, e);
    LoggedGrows(st.log, e);
    OrderGrows(st, c, e);
    FinishKeepsEntries(st, c);
    forall d | Answered(st', d) ensures Logged(st'.log, d) {
      if d != c { assert Answered(st, d); }
    }
  }

  lemma FinishKeepsInv(st: State, c: nat)
    requires Inv(st) && Enabled(st, Finish(c))
    ensures Inv(Do(st, Finish(c)))
  {
    var st', op, p := Do(st, Finish(c)), st.sections[c].op, st.sections[c].phase;
    LogGrows(st.base, st.log, Entry(c, Step(op, p.now), p.answer));
    EditorRuns(st, c);
    assert SectionOk(FolderIn(st, c), st.sections[c], Committed(st));
    forall id | id != op.id ensures SameAt(Committed(st), Committed(st'), id) {
      OtherIdsUntouched(Committed(st), op, p.now, id);
    }
    OwnChange(st, st', c);
    AlignedStays(st, st', c);
    FinishKeepsLog(st, c);
  }

  /** Calls and promise reactions touch no file. */
  lemma QueueKeepsInv(st: State, st': State)
    requires Inv(st) && st'.folders == st.folders && st'.base == st.base && st'.log == st.log && Aligned(st')
    requires st'.sections == st.sections || (exists op :: st'.sections == st.sections + [Section(op, Waiting)])
    ensures Inv(st')
  {
    forall id | NoEditor(st', id) ensures NoEditor(st, id) {
      forall c | 0 <= c < |st.sections| && st.sections[c].op.id == id ensures !st.sections[c].phase.Editing? {
        assert st'.sections[c] == st.sections[c];
      }
    }
    forall c | 0 <= c < |st'.sections| && IsEditing(st', c) ensures SectionOk(FolderIn(st', c), st'.sections[c], Committed(st')) {
      assert c < |st.sections| && st'.sections[c] == st.sections[c];
      assert IsEditing(st, c);
    }
    LogStays(st, st', |st.sections|);
  }

  lemma CallKeepsInv(st: State, op: Op)
    requires Inv(st)
    ensures Inv(Do(st, Call(op)))
  {
    M.RunKeepsInv(st.mutex, LockKey(st.collection, op.id));
    QueueKeepsInv(st, Do(st, Call(op)));
  }

  lemma ScheduleKeepsAligned(st: State, move: M.Action)
    requires Aligned(st) && Enabled(st, Schedule(move))
    ensures Aligned(Do(st, Schedule(move)))
  {
    M.AdvanceKeepsInv(st.mutex, move);
    M.AdvanceShape(st.mutex, move);
  }

  lemma ScheduleKeepsInv(st: State, move: M.Action)
    requires Inv(st) && Enabled(st, Schedule(move))
    ensures Inv(Do(st, Schedule(move)))
  {
    ScheduleKeepsAligned(st, move);
    QueueKeepsInv(st, Do(st, Schedule(move)));
  }

  lemma SettleKeepsInv(st: State, c: nat)
    requires Inv(st) && Enabled(st, Settle(c))
    ensures Inv(Do(st, Settle(c)))
  {
    M.AdvanceKeepsInv(st.mutex, M.Settle(c, Rejected(st.sections[c].phase.result)));
    QueueKeepsInv(st, Do(st, Settle(c)));
  }

  lemma StepKeepsInv(st: State, a: Action)
    requires Inv(st) && Enabled(st, a)
    ensures Inv(Do(st, a))
  {
    match a {
      case Call(op) => CallKeepsInv(st, op);
      case Schedule(move) => ScheduleKeepsInv(st, move);
      case Read(c, now) => ReadKeepsInv(st, c, now);
      case Unlink(c, part) => UnlinkKeepsInv(st, c, part);
      case Perform(c) => PerformKeepsInv(st, c);
      case Refuse(c) => RefuseKeepsInv(st, c);
      case Finish(c) => FinishKeepsInv(st, c);
      case Settle(c) => SettleKeepsInv(st, c);
    }
  }

  lemma {:induction false} RunHasInv(run: seq<State>, n: nat)
    requires IsRun(run) && n < |run|
    ensures Inv(run[n]) && run[n].base == run[0].base
  {
    if n == 0 {
    } else {
      RunHasInv(run, n - 1);
      assert Next(run[n - 1], run[n]);
      var a :| Enabled(run[n - 1], a) && run[n] == Do(run[n - 1], a);
      StepKeepsInv(run[n - 1], a);
    }
  }

  // ---------- what holds in every schedule ----------

  /** The sections take effect one at a time: the log replayed on the Collection there was gives every logged answer;
      each Resource no section is editing has exactly the files that replay leaves it; the log is in call order
      for each Resource; and a call is in it, once, exactly when its section answered. */
  lemma SectionsTakeEffectInLogOrder(run: seq<State>, n: nat)
    requires IsRun(run) && n < |run|
    ensures var st := run[n];
            && LoggedAnswers(st.log) == Answers(run[0].base, Steps(st.log))
            && (forall id :: NoEditor(st, id) ==> FolderStandsFor(FolderOf(st.folders, id), StoreAfter(run[0].base, Steps(st.log)), id))
            && (forall i, j :: 0 <= i < j < |st.log| && st.log[i].step.op.id == st.log[j].step.op.id ==> st.log[i].call < st.log[j].call)
            && (forall i :: 0 <= i < |st.log| ==> EntryOk(st, st.log[i]))
            && (forall c :: Answered(st, c) <==> Logged(st.log, c))
            && (forall i, j :: 0 <= i < |st.log| && 0 <= j < |st.log| && st.log[i].call == st.log[j].call ==> i == j)
  {
    RunHasInv(run, n);
    var st := run[n];
    forall c | Logged(st.log, c) ensures Answered(st, c) {
      var i :| 0 <= i < |st.log| && st.log[i].call == c;
      assert EntryOk(st, st.log[i]);
    }
    forall i, j | 0 <= i < |st.log| && 0 <= j < |st.log| && st.log[i].call == st.log[j].call ensures i == j {
      assert EntryOk(st, st.log[i]) && EntryOk(st, st.log[j]);
    }
  }

  predicate Orphaned(f: Folder) {
    f.files == map[] && ChunksDir(f).files != map[]
  }

  lemma {:induction false} StagesOnlyRemove(f: Folder, stages: seq<Stage>)
    requires forall k :: 0 <= k < |stages| ==> !WritesBytes(stages[k])
    ensures Outcome(f, stages).files.Keys <= f.files.Keys
    decreases |stages|
  {
    if stages != [] {
      StagesOnlyRemove(Effect(f, stages[0]), stages[1..]);
    }
  }

  lemma NotOrphaned(f: Folder, s: Store, id: Id)
    requires WellFormed(s) && FolderStandsFor(f, s, id)
    ensures !Orphaned(f) && (Live(s, id) ==> f.files != map[])
  {
    if id in s {
      assert Clean(s[id]);
      if Live(s, id) {
        assert s[id].contentType in f.files;
      } else {
        assert ChunkBodies(s[id].chunks) == map[];
        assert forall rep :: rep in ChunksDir(f).files ==> Rep(rep.key, rep.contentType) in ChunksDir(f).files;
      }
    }
  }

  lemma EditingLeavesNoOrphans(f: Folder, section: Section, s: Store)
    requires WellFormed(s) && section.phase.Editing? && SectionOk(f, section, s) && !section.op.Delete?
    ensures !Orphaned(f)
  {
    var p, id := section.phase, section.op.id;
    var t := Apply(s, section.op, p.now).0;
    ApplyKeepsWellFormed(s, section.op, p.now);
    if p.stages == [] {
      NotOrphaned(f, t, id);
    } else if WritesBytes(p.stages[0]) {
      NotOrphaned(f, s, id);
    } else {
      StagesOnlyRemove(f, p.stages);
      NotOrphaned(Outcome(f, p.stages), t, id);
    }
  }

  lemma EditingKeepsAFile(f: Folder, section: Section, s: Store)
    requires WellFormed(s) && section.phase.Editing? && SectionOk(f, section, s) && !section.op.Delete? && Live(s, section.op.id)
    ensures f.files != map[]
  {
    var p, id := section.phase, section.op.id;
    var t := Apply(s, section.op, p.now).0;
    ApplyKeepsWellFormed(s, section.op, p.now);
    assert Live(t, id);
    if p.stages != [] && WritesBytes(p.stages[0]) {
      NotOrphaned(f, s, id);
    } else {
      StagesOnlyRemove(f, p.stages);
      NotOrphaned(Outcome(f, p.stages), t, id);
    }
  }

  /** A Resource is never momentarily absent: through any sections of it but a delete, refused ones included, it
      has a representation file at every moment of every schedule. */
  lemma NeverAbsent(run: seq<State>, n: nat, id: Id)
    requires IsRun(run) && n < |run| && Live(Committed(run[n]), id)
    requires forall c :: 0 <= c < |run[n].sections| && IsEditing(run[n], c) && run[n].sections[c].op.id == id ==> !run[n].sections[c].op.Delete?
    ensures FolderOf(run[n].folders, id).files != map[]
  {
    var st := run[n];
    RunHasInv(run, n);
    StoreStaysWellFormed(st.base, Steps(st.log));
    if NoEditor(st, id) {
      NotOrphaned(FolderOf(st.folders, id), Committed(st), id);
    } else {
      var c :| 0 <= c < |st.sections| && st.sections[c].op.id == id && st.sections[c].phase.Editing?;
      assert IsEditing(st, c);
      EditingKeepsAFile(FolderIn(st, c), st.sections[c], Committed(st));
    }
  }

  /** A chunk file without a representation of its Resource is there only while a delete of that Resource is at
      work: at every point where no section holds the Resource's lock, and during every other section, there is none. */
  lemma OrphansOnlyDuringDelete(run: seq<State>, n: nat, id: Id)
    requires IsRun(run) && n < |run| && Orphaned(FolderOf(run[n].folders, id))
    ensures exists c: nat :: IsEditing(run[n], c) && run[n].sections[c].op.Delete? && run[n].sections[c].op.id == id
  {
    var st := run[n];
    RunHasInv(run, n);
    StoreStaysWellFormed(st.base, Steps(st.log));
    if NoEditor(st, id) {
      NotOrphaned(FolderOf(st.folders, id), Committed(st), id);
    }
    var c :| 0 <= c < |st.sections| && st.sections[c].op.id == id && st.sections[c].phase.Editing?;
    assert IsEditing(st, c);
    if !st.sections[c].op.Delete? {
      EditingLeavesNoOrphans(FolderIn(st, c), st.sections[c], Committed(st));
    }
  }

  lemma {:induction false} AnswerAt(s: Store, steps: seq<Step>, i: nat)
    requires i < |steps|
    ensures |Answers(s, steps)| == |steps| && Answers(s, steps)[i] == Apply(At(s, steps, i), steps[i].op, steps[i].now).1
  {
    var before := steps[..|steps| - 1];
    if i < |before| {
      AnswerAt(s, before, i);
      assert before[..i] == steps[..i];
    } else {
      if before != [] { AnswerAt(s, before, 0); }
    }
  }

  /** A content write that answered a version, or a conditional delete that answered, took effect. */
  predicate Effective(e: Entry) {
    (e.answer.Version? && e.step.op.Put?) || (e.answer.Done? && e.step.op.Delete? && e.step.op.ifMatch.Some?)
  }

  lemma EffectiveMoves(run: seq<State>, n: nat, i: nat)
    requires IsRun(run) && n < |run| && i < |run[n].log| && Effective(run[n].log[i])
    ensures var steps, op := Steps(run[n].log), run[n].log[i].step.op;
            && Moves(At(run[0].base, steps, i), op)
            && (op.Put? ==> run[n].log[i].answer.version == VersionOf(At(run[0].base, steps, i), op.id) + 1)
  {
    RunHasInv(run, n);
    AnswerAt(run[0].base, Steps(run[n].log), i);
    assert LoggedAnswers(run[n].log)[i] == run[n].log[i].answer;
  }

  /** Whatever the interleaving, one ETag admits at most one content write or delete of a Resource. */
  lemma IfMatchSucceedsOnce(run: seq<State>, n: nat, i: nat, j: nat, etag: string)
    requires IsRun(run) && n < |run| && i < |run[n].log| && j < |run[n].log|
    requires Effective(run[n].log[i]) && Effective(run[n].log[j]) && run[n].log[i].step.op.id == run[n].log[j].step.op.id
    requires ContentGuard(run[n].log[i].step.op) == ContentGuard(run[n].log[j].step.op) == Guard(Some(etag), false)
    ensures i == j && run[n].log[i].call == run[n].log[j].call
  {
    EffectiveMoves(run, n, i);
    EffectiveMoves(run, n, j);
    IfMatchTakesEffectOnce(run[0].base, Steps(run[n].log), i, j, etag);
  }

  /** The versions answered to the content writes of a Resource strictly increase in call order. */
  lemma AnsweredVersionsIncrease(run: seq<State>, n: nat, i: nat, j: nat)
    requires IsRun(run) && n < |run| && i < |run[n].log| && j < |run[n].log|
    requires run[n].log[i].step.op.Put? && run[n].log[i].answer.Version? && run[n].log[j].step.op.Put? && run[n].log[j].answer.Version?
    requires run[n].log[i].step.op.id == run[n].log[j].step.op.id && run[n].log[i].call < run[n].log[j].call
    ensures run[n].log[i].answer.version < run[n].log[j].answer.version
  {
    SectionsTakeEffectInLogOrder(run, n);
    EffectiveMoves(run, n, i);
    EffectiveMoves(run, n, j);
    VersionsStrictlyIncrease(run[0].base, Steps(run[n].log), i, j);
  }

  /** Two creations of one Resource by create-if-absent have a delete of it that took effect between them. */
  lemma CreateIfAbsentSucceedsOnce(run: seq<State>, n: nat, i: nat, j: nat)
    requires IsRun(run) && n < |run| && i < j < |run[n].log| && run[n].log[i].step.op.id == run[n].log[j].step.op.id
    requires run[n].log[i].step.op.Put? && run[n].log[i].step.op.guard.ifNoneMatch && run[n].log[i].answer.Version?
    requires run[n].log[j].step.op.Put? && run[n].log[j].step.op.guard.ifNoneMatch && run[n].log[j].answer.Version?
    ensures exists k :: i < k < j && run[n].log[k].step.op.Delete? && run[n].log[k].step.op.id == run[n].log[i].step.op.id &&
                        run[n].log[k].answer.Done?
  {
    EffectiveMoves(run, n, i);
    EffectiveMoves(run, n, j);
    var steps := Steps(run[n].log);
    CreateIfAbsentTakesEffectOnce(run[0].base, steps, i, j);
    var k :| i < k < j && steps[k].op.Delete? && steps[k].op.id == steps[i].op.id && Moves(At(run[0].base, steps, k), steps[k].op);
    RunHasInv(run, n);
    AnswerAt(run[0].base, steps, k);
    assert LoggedAnswers(run[n].log)[k] == run[n].log[k].answer;
  }

  lemma AnsweredAs(run: seq<State>, n: nat, i: nat)
    requires IsRun(run) && n < |run| && i < |run[n].log|
    ensures var steps, e := Steps(run[n].log), run[n].log[i];
            |steps| == |run[n].log| && steps[i] == e.step && e.answer == Apply(At(run[0].base, steps, i), e.step.op, e.step.now).1
  {
    RunHasInv(run, n);
    AnswerAt(run[0].base, Steps(run[n].log), i);
    assert LoggedAnswers(run[n].log)[i] == run[n].log[i].answer;
  }

  /** Of two metadata writes of a Resource answered under the same ETag, or both under create-if-absent, an answered
      delete of the Resource lies between. */
  lemma MetaGuardSucceedsOnce(run: seq<State>, n: nat, i: nat, j: nat)
    requires IsRun(run) && n < |run| && i < j < |run[n].log|
    requires var d, e := run[n].log[i], run[n].log[j];
             && d.step.op.PutMeta? && e.step.op.PutMeta? && d.step.op.id == e.step.op.id && d.answer.MetaVersion? && e.answer.MetaVersion?
             && d.step.op.guard == e.step.op.guard && d.step.op.guard != UNCONDITIONAL
    ensures exists k :: i < k < j && run[n].log[k].step.op.Delete? && run[n].log[k].step.op.id == run[n].log[i].step.op.id &&
                        run[n].log[k].answer == Done
  {
    var base, steps := run[0].base, Steps(run[n].log);
    AnsweredAs(run, n, i);
    AnsweredAs(run, n, j);
    L.MetaGuardTakesEffectOnce(base, steps, i, j);
    var k :| i < k < j && L.Removes(At(base, steps, k), steps[k].op, steps[i].op.id);
    AnsweredAs(run, n, k);
  }

  /** Of two writes of a chunk answered under the same ETag, or both under create-if-absent, an answered delete of the
      chunk or of its Resource lies between. */
  lemma ChunkGuardSucceedsOnce(run: seq<State>, n: nat, i: nat, j: nat)
    requires IsRun(run) && n < |run| && i < j < |run[n].log|
    requires var d, e := run[n].log[i], run[n].log[j];
             && d.step.op.PutChunk? && e.step.op.PutChunk? && d.step.op.id == e.step.op.id && d.step.op.index == e.step.op.index
             && d.answer.Version? && e.answer.Version? && d.step.op.guard == e.step.op.guard && d.step.op.guard != UNCONDITIONAL
    ensures exists k :: i < k < j && run[n].log[k].step.op.id == run[n].log[i].step.op.id &&
                        (var op, answer := run[n].log[k].step.op, run[n].log[k].answer;
                         (op.Delete? && answer == Done) || (op.DeleteChunk? && op.index == run[n].log[i].step.op.index && answer == Removed(true)))
  {
    var base, steps, id, index := run[0].base, Steps(run[n].log), run[n].log[i].step.op.id, run[n].log[i].step.op.index;
    AnsweredAs(run, n, i);
    AnsweredAs(run, n, j);
    L.ChunkGuardTakesEffectOnce(base, steps, i, j, id, index);
    var k :| i < k < j && TakesChunkAway(base, steps, k, id, index);
    L.TakenAwayByDelete(base, steps, k, id, index);
    AnsweredAs(run, n, k);
  }

  /** A call that has not finished never waits on anything but an earlier one: some section can take its next step, or
      some promise reaction is due. */
  lemma NeverStuck(run: seq<State>, n: nat, c: nat) returns (a: Action)
    requires IsRun(run) && n < |run| && c < |run[n].sections| && c < |run[n].mutex.calls| && !M.Finished(run[n].mutex.calls[c])
    ensures Enabled(run[n], a) && (a.Schedule? || a.Read? || a.Perform? || a.Finish? || a.Settle?)
    decreases c
  {
    RunHasInv(run, n);
    var st := run[n];
    var call := st.mutex.calls[c];
    assert M.ChainOk(st.mutex, c);
    if call.phase.Queued? && call.previous.Some? && !M.TailDone(st.mutex, call.previous.value) {
      a := NeverStuck(run, n, call.previous.value);
    } else {
      a := match call.phase
           case Queued => Schedule(M.Start(c))
           case Running =>
             (match st.sections[c].phase
              case Waiting => Read(c, "")
              case Editing(_, stages, _) => if stages == [] then Finish(c) else Perform(c)
              case Ended(_) => Settle(c))
           case Settled(_, tailDone, _) => Schedule(if tailDone then M.Cleanup(c) else M.SettleTail(c));
    }
  }
}
