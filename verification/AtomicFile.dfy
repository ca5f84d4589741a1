/**
 The atomic file helpers as steps on one directory with volatile and durable state: any number of calls
 interleave, any call may fail before it publishes, and the machine may crash between any two steps.
 */
module AtomicFile {
  import opened Wrappers

  type Bytes = string
  type CallId = nat
  type Inode = nat

  /** `target` paths are the callers'; each call stages into a temp name of its own. */
  datatype Name = Target(path: string) | Temp(call: CallId)

  /** A file body; until it is synced a crash may leave anything in it. */
  datatype File = File(content: Bytes, synced: bool)

  datatype Kind = Write | Create | Commit

  /** `Refused` creates found their target taken; `Failed` calls threw before publishing; `Thrown` ones published, and then the directory sync failed. */
  datatype Phase = Opened | Filled | Synced | Published | Unlinked | Returned | Thrown | Refused | Failed

  datatype Call = Call(kind: Kind, path: string, data: Bytes, inode: Inode, phase: Phase) {
    predicate HasPublished() {
      phase == Published || phase == Unlinked || phase == Returned || phase == Thrown
    }
  }

  /** `after` holds, for each name, every inode (or absence) a crash may leave it with: the entry on
      stable storage and each entry made since the directory was last synced. */
  datatype Disk = Disk(
    files: seq<File>,
    dir: map<Name, Inode>,
    after: map<Name, set<Option<Inode>>>,
    calls: map<CallId, Call>,
    published: seq<CallId>)           // calls in the order they renamed or linked

  /** Whether the platform can sync a directory handle; where it cannot, the error is swallowed. */
  datatype Platform = Platform(syncsDirectories: bool)

  function Entry(d: Disk, n: Name): Option<Inode> {
    if n in d.dir then Some(d.dir[n]) else None
  }

  function AfterCrash(d: Disk, n: Name): set<Option<Inode>> {
    if n in d.after then d.after[n] else {None}
  }

  /** The body a crash may leave under a name: that of any possible entry, torn if it was never synced. */
  ghost predicate MaySurvive(d: Disk, n: Name, body: Option<Bytes>) {
    exists e :: e in AfterCrash(d, n) && BodyOf(d, e, body)
  }

  predicate BodyOf(d: Disk, e: Option<Inode>, body: Option<Bytes>) {
    match e
    case None => body == None
    case Some(i) => i < |d.files| && body.Some? && (d.files[i].synced ==> body.value == d.files[i].content)
  }

  /** What a reader of the running system finds under a name. */
  function Visible(d: Disk, n: Name): Option<Bytes> {
    if n in d.dir && d.dir[n] < |d.files| then Some(d.files[d.dir[n]].content) else None
  }

  function Link(d: Disk, n: Name, e: Option<Inode>): Disk {
    d.(dir := if e.Some? then d.dir[n := e.value] else d.dir - {n},
       after := d.after[n := AfterCrash(d, n) + {e}])
  }

  datatype Action =
    | Begin(kind: Kind, path: string, data: Bytes)
    | FillPart(part: Bytes)
    | Fill
    | SyncFile
    | Publish
    | UnlinkTemp(removed: bool)         // its own failure is ignored
    | SyncDirectory(ok: bool)
    | Refuse(cleaned: bool)
    | Fail(cleaned: bool)               // so is that of the cleanup

  predicate Enabled(d: Disk, c: CallId, a: Action) {
    if a.Begin? then c !in d.calls && Temp(c) !in d.dir
    else
      c in d.calls && d.calls[c].inode < |d.files| &&
      var call := d.calls[c];
      match a
      case FillPart(_) => call.phase == Opened
      case Fill => call.phase == Opened
      case SyncFile => call.phase == Filled
      case Publish => call.phase == Synced && (call.kind == Create ==> Target(call.path) !in d.dir)
      case Refuse(_) => call.phase == Synced && call.kind == Create && Target(call.path) in d.dir
      case UnlinkTemp(_) => call.phase == Published
      case SyncDirectory(_) => call.phase == Unlinked
      case Fail(_) => call.phase == Opened || call.phase == Filled || call.phase == Synced
  }

  function DoBegin(d: Disk, c: CallId, kind: Kind, path: string, data: Bytes): Disk {
    // a commit finds the temp file its caller streamed into: written, not yet synced
    var body := File(if kind == Commit then data else "", false);
    Link(d, Temp(c), Some(|d.files|)).(
      files := d.files + [body],
      calls := d.calls[c := Call(kind, path, data, |d.files|, if kind == Commit then Filled else Opened)])
  }

  function WithBody(d: Disk, c: CallId, f: File, phase: Phase): Disk
    requires c in d.calls && d.calls[c].inode < |d.files|
  {
    d.(files := d.files[d.calls[c].inode := f], calls := d.calls[c := d.calls[c].(phase := phase)])
  }

  /** A rename also removes the temp name; a hard link leaves it to be unlinked. */
  function DoPublish(d: Disk, c: CallId): Disk
    requires c in d.calls
  {
    var call := d.calls[c];
    var linked := Link(d, Target(call.path), Some(call.inode));
    (if call.kind == Create then linked else Link(linked, Temp(c), None)).(
      calls := d.calls[c := call.(phase := if call.kind == Create then Published else Unlinked)],
      published := d.published + [c])
  }

  function AfterUnlink(d: Disk, c: CallId, removed: bool, phase: Phase): Disk
    requires c in d.calls
  {
    (if removed then Link(d, Temp(c), None) else d).(calls := d.calls[c := d.calls[c].(phase := phase)])
  }

  function Flushed(d: Disk): Disk {
    d.(after := map n | n in d.after.Keys + d.dir.Keys :: {Entry(d, n)})
  }

  /** On a platform that cannot sync a directory the error is swallowed and the call returns all the same. */
  function DoSyncDirectory(p: Platform, d: Disk, c: CallId, ok: bool): Disk
    requires c in d.calls
  {
    var d' := if p.syncsDirectories && ok then Flushed(d) else d;
    d'.(calls := d.calls[c := d.calls[c].(phase := if p.syncsDirectories && !ok then Thrown else Returned)])
  }

  function Do(p: Platform, d: Disk, c: CallId, a: Action): Disk
    requires Enabled(d, c, a)
  {
    match a
    case Begin(kind, path, data) => DoBegin(d, c, kind, path, data)
    case FillPart(part) => WithBody(d, c, File(part, false), Opened)
    case Fill => WithBody(d, c, File(d.calls[c].data, false), Filled)
    case SyncFile => WithBody(d, c, d.files[d.calls[c].inode].(synced := true), Synced)
    case Publish => DoPublish(d, c)
    case UnlinkTemp(removed) => AfterUnlink(d, c, removed, Unlinked)
    case SyncDirectory(ok) => DoSyncDirectory(p, d, c, ok)
    case Refuse(cleaned) => AfterUnlink(d, c, cleaned, Refused)
    case Fail(cleaned) => AfterUnlink(d, c, cleaned, Failed)
  }

  ghost predicate Step(p: Platform, d: Disk, d': Disk) {
    exists c, a :: Enabled(d, c, a) && d' == Do(p, d, c, a)
  }

  /** A directory at rest: everything in it is on stable storage, and no call is under way. */
  ghost predicate AtRest(d: Disk) {
    && d.calls == map[] && d.published == []
    && (forall n :: n in d.dir ==> n.Target? && d.dir[n] < |d.files|)
    && (forall i :: 0 <= i < |d.files| ==> d.files[i].synced)
    && (forall n :: AfterCrash(d, n) == {Entry(d, n)})
  }

  ghost predicate IsRun(p: Platform, run: seq<Disk>) {
    |run| > 0 && AtRest(run[0]) && forall i :: 0 < i < |run| ==> Step(p, run[i - 1], run[i])
  }

  // ---------- what one step may touch ----------

  /** A call never changes what it was asked to write, or where. */
  predicate SameCall(a: Call, b: Call) {
    a == b.(phase := a.phase)
  }

  ghost predicate CallsFrame(d: Disk, d': Disk, c: CallId) {
    && d'.calls.Keys == d.calls.Keys + {c}
    && (forall b :: b in d.calls && b != c ==> d'.calls[b] == d.calls[b])
    && (c in d.calls ==> SameCall(d.calls[c], d'.calls[c]))
    && (c !in d.calls ==> d'.calls[c].inode == |d.files| && !d'.calls[c].HasPublished())
  }

  ghost predicate FilesFrame(d: Disk, d': Disk, c: CallId) {
    && |d.files| <= |d'.files|
    && (c !in d.calls ==> |d.files| < |d'.files|)
    && (forall i :: 0 <= i < |d.files| && (c in d.calls ==> i != d.calls[c].inode) ==> d'.files[i] == d.files[i])
  }

  lemma StepFrames(p: Platform, d: Disk, c: CallId, a: Action)
    requires Enabled(d, c, a)
    ensures CallsFrame(d, Do(p, d, c, a), c) && FilesFrame(d, Do(p, d, c, a), c)
    ensures Do(p, d, c, a).published == if a.Publish? then d.published + [c] else d.published
  {
  }

  /** Only a publication touches a target, and it adds one possibility; a directory sync removes some. */
  ghost predicate TargetMove(p: Platform, d: Disk, d': Disk, c: CallId, a: Action, path: string)
    requires Enabled(d, c, a)
  {
    if a.Publish? && d.calls[c].path == path then
      && Entry(d', Target(path)) == Some(d.calls[c].inode)
      && AfterCrash(d', Target(path)) == AfterCrash(d, Target(path)) + {Some(d.calls[c].inode)}
    else
      && Entry(d', Target(path)) == Entry(d, Target(path))
      && AfterCrash(d', Target(path)) ==
           if a.SyncDirectory? && a.ok && p.syncsDirectories then {Entry(d, Target(path))}
           else AfterCrash(d, Target(path))
  }

  lemma TargetFrame(p: Platform, d: Disk, c: CallId, a: Action, path: string)
    requires Enabled(d, c, a)
    ensures TargetMove(p, d, Do(p, d, c, a), c, a, path)
  {
  }

  /** A step as seen without file bodies: the calls, the publications and the targets. */
  ghost predicate Evolves(p: Platform, d: Disk, d': Disk, c: CallId, a: Action) {
    && Enabled(d, c, a)
    && (forall b :: b in d.published ==> b in d.calls)
    && CallsFrame(d, d', c)
    && d'.published == (if a.Publish? then d.published + [c] else d.published)
    && (forall path :: TargetMove(p, d, d', c, a, path))
    && (c in d'.calls && d'.calls[c].phase == Returned && p.syncsDirectories ==> a == SyncDirectory(true))
    && (c in d'.calls && d'.calls[c].phase == Refused ==> a.Refuse?)
    && (a.Refuse? ==> Target(d.calls[c].path) in d.dir)
    && (a.Publish? && d.calls[c].kind == Create ==> Target(d.calls[c].path) !in d.dir)
  }

  lemma StepEvolves(p: Platform, d: Disk, c: CallId, a: Action)
    requires Enabled(d, c, a) && forall b :: b in d.published ==> b in d.calls
    ensures Evolves(p, d, Do(p, d, c, a), c, a)
  {
    StepFrames(p, d, c, a);
    forall path ensures TargetMove(p, d, Do(p, d, c, a), c, a, path) {
      TargetFrame(p, d, c, a, path);
    }
  }

  // ---------- the invariant ----------

  /** The body of a call's file follows its phase, and a published file is whole and synced. */
  ghost predicate CallOk(d0: Disk, d: Disk, c: CallId)
    requires c in d.calls
  {
    var call := d.calls[c];
    && |d0.files| <= call.inode < |d.files|
    && (call.phase == Filled ==> d.files[call.inode].content == call.data)
    && (call.phase == Synced || call.HasPublished() ==> d.files[call.inode] == File(call.data, true))
    && (c in d.published <==> call.HasPublished())
  }

  /** A target may come up, after a crash, only with its original file or with that of a call that
      published to it. */
  ghost predicate Accounted(d0: Disk, d: Disk, path: string, e: Option<Inode>) {
    e == Entry(d0, Target(path)) || exists c :: PublishedTo(d, c, path) && e == Some(d.calls[c].inode)
  }

  predicate PublishedTo(d: Disk, c: CallId, path: string) {
    c in d.published && c in d.calls && d.calls[c].path == path
  }

  ghost predicate CallsOk(d0: Disk, d: Disk) {
    && |d0.files| <= |d.files| && (forall i :: 0 <= i < |d0.files| ==> d.files[i] == d0.files[i])
    && (forall c :: c in d.calls ==> CallOk(d0, d, c))
    && (forall b, c :: b in d.calls && c in d.calls && b != c ==> d.calls[b].inode != d.calls[c].inode)
    && (forall c :: c in d.published ==> c in d.calls)
  }

  ghost predicate TargetsOk(d0: Disk, d: Disk) {
    forall path :: Entry(d, Target(path)) in AfterCrash(d, Target(path)) &&
                   forall e :: e in AfterCrash(d, Target(path)) ==> Accounted(d0, d, path, e)
  }

  ghost predicate Inv(d0: Disk, d: Disk) {
    CallsOk(d0, d) && TargetsOk(d0, d)
  }

  lemma ActingCallOk(p: Platform, d0: Disk, d: Disk, c: CallId, a: Action)
    requires CallsOk(d0, d) && Enabled(d, c, a)
    ensures c in Do(p, d, c, a).calls && CallOk(d0, Do(p, d, c, a), c)
  {
    StepFrames(p, d, c, a);
    if c in d.calls { assert CallOk(d0, d, c); }
  }

  /** The other calls keep their files, since no two calls share one. */
  lemma FramesKeepCallsOk(d0: Disk, d: Disk, d': Disk, c: CallId)
    requires CallsOk(d0, d) && CallsFrame(d, d', c) && FilesFrame(d, d', c)
    requires d.published <= d'.published && forall b :: b in d'.published ==> b in d.published || b == c
    requires c in d'.calls && CallOk(d0, d', c)
    ensures CallsOk(d0, d')
  {
    if c in d.calls { assert CallOk(d0, d, c); }
    forall b | b in d'.calls ensures CallOk(d0, d', b) {
      if b != c { assert CallOk(d0, d, b); }
    }
    forall i | 0 <= i < |d0.files| ensures d'.files[i] == d0.files[i] {
      assert c in d.calls ==> i != d.calls[c].inode;
    }
    forall b, e | b in d'.calls && e in d'.calls && b != e ensures d'.calls[b].inode != d'.calls[e].inode {
      if b in d.calls { assert CallOk(d0, d, b); }
      if e in d.calls { assert CallOk(d0, d, e); }
    }
  }

  lemma StepKeepsCallsOk(p: Platform, d0: Disk, d: Disk, c: CallId, a: Action)
    requires CallsOk(d0, d) && Enabled(d, c, a)
    ensures CallsOk(d0, Do(p, d, c, a))
  {
    StepFrames(p, d, c, a);
    ActingCallOk(p, d0, d, c, a);
    FramesKeepCallsOk(d0, d, Do(p, d, c, a), c);
  }

  lemma StepKeepsTargetsOk(p: Platform, d0: Disk, d: Disk, c: CallId, a: Action)
    requires CallsOk(d0, d) && TargetsOk(d0, d) && Enabled(d, c, a)
    ensures TargetsOk(d0, Do(p, d, c, a))
  {
    var d' := Do(p, d, c, a);
    StepFrames(p, d, c, a);
    forall path
      ensures Entry(d', Target(path)) in AfterCrash(d', Target(path))
      ensures forall e :: e in AfterCrash(d', Target(path)) ==> Accounted(d0, d', path, e)
    {
      TargetFrame(p, d, c, a, path);
      forall e | e in AfterCrash(d', Target(path)) ensures Accounted(d0, d', path, e) {
        if e in AfterCrash(d, Target(path)) {
          AccountedGrows(d0, d, d', path, e);
        } else {
          assert PublishedTo(d', c, path);
        }
      }
    }
  }

  lemma AccountedGrows(d0: Disk, d: Disk, d': Disk, path: string, e: Option<Inode>)
    requires Accounted(d0, d, path, e) && d.published <= d'.published
    requires forall c :: c in d.calls ==> c in d'.calls && SameCall(d.calls[c], d'.calls[c])
    ensures Accounted(d0, d', path, e)
  {
    if e != Entry(d0, Target(path)) {
      var c :| PublishedTo(d, c, path) && e == Some(d.calls[c].inode);
      assert PublishedTo(d', c, path);
    }
  }

  lemma AtRestHasInv(d: Disk)
    requires AtRest(d)
    ensures Inv(d, d)
  {
    forall path
      ensures Entry(d, Target(path)) in AfterCrash(d, Target(path))
      ensures forall e :: e in AfterCrash(d, Target(path)) ==> Accounted(d, d, path, e)
    {
      assert AfterCrash(d, Target(path)) == {Entry(d, Target(path))};
    }
  }

  lemma {:induction false} RunHasInv(p: Platform, run: seq<Disk>, i: nat)
    requires IsRun(p, run) && i < |run|
    ensures Inv(run[0], run[i])
  {
    if i == 0 {
      AtRestHasInv(run[0]);
    } else {
      RunHasInv(p, run, i - 1);
      var d := run[i - 1];
      assert Step(p, d, run[i]);
      var c, a :| Enabled(d, c, a) && run[i] == Do(p, d, c, a);
      StepKeepsCallsOk(p, run[0], d, c, a);
      StepKeepsTargetsOk(p, run[0], d, c, a);
    }
  }

  // ---------- crash safety ----------

  /** Whenever the machine stops, what a target comes back with is wholly its original body or wholly the
      data of one call that published to it; a running reader likewise never sees a part of a file. */
  lemma CrashLeavesOldOrNew(p: Platform, run: seq<Disk>, i: nat, path: string, body: Option<Bytes>)
    requires IsRun(p, run) && i < |run|
    requires MaySurvive(run[i], Target(path), body) || body == Visible(run[i], Target(path))
    ensures body == Visible(run[0], Target(path)) ||
            exists c :: PublishedTo(run[i], c, path) && body == Some(run[i].calls[c].data)
  {
    RunHasInv(p, run, i);
    var d0, d := run[0], run[i];
    if MaySurvive(d, Target(path), body) {
      var e :| e in AfterCrash(d, Target(path)) && BodyOf(d, e, body);
      AccountedBody(d0, d, path, e, body);
    } else {
      assert Entry(d, Target(path)) in AfterCrash(d, Target(path));
      AccountedBody(d0, d, path, Entry(d, Target(path)), body);
    }
  }

  lemma AccountedBody(d0: Disk, d: Disk, path: string, e: Option<Inode>, body: Option<Bytes>)
    requires AtRest(d0) && CallsOk(d0, d) && Accounted(d0, d, path, e)
    requires BodyOf(d, e, body) || (e == Entry(d, Target(path)) && body == Visible(d, Target(path)))
    ensures body == Visible(d0, Target(path)) || exists c :: PublishedTo(d, c, path) && body == Some(d.calls[c].data)
  {
    if e != Entry(d0, Target(path)) {
      var c :| PublishedTo(d, c, path) && e == Some(d.calls[c].inode);
      assert CallOk(d0, d, c);
    }
  }

  // ---------- durability of a returned call ----------

  /** `e` is the file of a call that published to `path` as the k-th publication or later. */
  ghost predicate From(d: Disk, k: nat, path: string, e: Option<Inode>) {
    exists j :: k <= j < |d.published| && PublishedTo(d, d.published[j], path) && e == Some(d.calls[d.published[j]].inode)
  }

  ghost predicate OrderAt(p: Platform, d: Disk, k: nat)
    requires k < |d.published|
  {
    d.published[k] in d.calls &&
    var call := d.calls[d.published[k]];
    && From(d, k, call.path, Entry(d, Target(call.path)))
    && (p.syncsDirectories && call.phase == Returned ==>
          forall e :: e in AfterCrash(d, Target(call.path)) ==> From(d, k, call.path, e))
  }

  ghost predicate OrderOk(p: Platform, d: Disk) {
    forall k :: 0 <= k < |d.published| ==> OrderAt(p, d, k)
  }

  lemma FromGrows(d: Disk, d': Disk, k: nat, path: string, e: Option<Inode>)
    requires From(d, k, path, e) && d.published <= d'.published
    requires forall c :: c in d.calls ==> c in d'.calls && SameCall(d.calls[c], d'.calls[c])
    ensures From(d', k, path, e)
  {
    var j :| k <= j < |d.published| && PublishedTo(d, d.published[j], path) && e == Some(d.calls[d.published[j]].inode);
    assert d'.published[j] == d.published[j];
  }

  lemma PublisherIsFrom(p: Platform, d: Disk, d': Disk, c: CallId, a: Action, k: nat)
    requires Evolves(p, d, d', c, a) && a.Publish? && k < |d'.published|
    ensures From(d', k, d.calls[c].path, Some(d.calls[c].inode))
  {
    assert d'.published[|d.published|] == c && PublishedTo(d', c, d.calls[c].path);
  }

  lemma StepKeepsOrderAt(p: Platform, d: Disk, d': Disk, c: CallId, a: Action, k: nat)
    requires Evolves(p, d, d', c, a) && OrderOk(p, d) && k < |d'.published|
    ensures OrderAt(p, d', k)
  {
    var b := d'.published[k];
    if k < |d.published| { assert OrderAt(p, d, k) && b == d.published[k]; }
    var path := d'.calls[b].path;
    assert TargetMove(p, d, d', c, a, path);
    if a.Publish? { PublisherIsFrom(p, d, d', c, a, k); }
    if !(a.Publish? && d.calls[c].path == path) {
      FromGrows(d, d', k, path, Entry(d, Target(path)));
    }
    if p.syncsDirectories && d'.calls[b].phase == Returned {
      forall e | e in AfterCrash(d', Target(path)) ensures From(d', k, path, e) {
        if !(a.Publish? && d.calls[c].path == path && e == Some(d.calls[c].inode)) && !(a.SyncDirectory? && a.ok) {
          FromGrows(d, d', k, path, e);
        }
      }
    }
  }

  lemma {:induction false} RunHasOrder(p: Platform, run: seq<Disk>, i: nat)
    requires IsRun(p, run) && i < |run|
    ensures OrderOk(p, run[i])
  {
    if i > 0 {
      RunHasOrder(p, run, i - 1);
      RunHasInv(p, run, i - 1);
      assert Step(p, run[i - 1], run[i]);
      var c, a :| Enabled(run[i - 1], c, a) && run[i] == Do(p, run[i - 1], c, a);
      StepEvolves(p, run[i - 1], c, a);
      forall k | 0 <= k < |run[i].published| ensures OrderAt(p, run[i], k) {
        StepKeepsOrderAt(p, run[i - 1], run[i], c, a, k);
      }
    }
  }

  /** The k-th publication is the latest one on its path. */
  ghost predicate LatestOn(d: Disk, k: nat, path: string) {
    k < |d.published| && PublishedTo(d, d.published[k], path) &&
    forall j :: k < j < |d.published| ==> !PublishedTo(d, d.published[j], path)
  }

  /** Where directories can be synced, a call that returned survives any crash until another call
      publishes to its path. */
  lemma ReturnedCallSurvives(p: Platform, run: seq<Disk>, i: nat, k: nat, path: string, body: Option<Bytes>)
    requires IsRun(p, run) && i < |run| && p.syncsDirectories
    requires LatestOn(run[i], k, path) && run[i].calls[run[i].published[k]].phase == Returned
    requires MaySurvive(run[i], Target(path), body)
    ensures body == Some(run[i].calls[run[i].published[k]].data)
  {
    RunHasOrder(p, run, i);
    var d := run[i];
    RunHasInv(p, run, i);
    var e :| e in AfterCrash(d, Target(path)) && BodyOf(d, e, body);
    assert OrderAt(p, d, k);
    var j :| k <= j < |d.published| && PublishedTo(d, d.published[j], path) && e == Some(d.calls[d.published[j]].inode);
    assert CallOk(run[0], d, d.published[k]);
  }

  /** Where they cannot, the original may come back however many calls have returned. */
  lemma {:induction false} WithoutDirectorySyncTheOriginalMayReturn(p: Platform, run: seq<Disk>, i: nat, path: string)
    requires IsRun(p, run) && i < |run| && !p.syncsDirectories
    ensures Entry(run[0], Target(path)) in AfterCrash(run[i], Target(path))
    ensures MaySurvive(run[i], Target(path), Visible(run[0], Target(path)))
  {
    if i > 0 {
      WithoutDirectorySyncTheOriginalMayReturn(p, run, i - 1, path);
      assert Step(p, run[i - 1], run[i]);
      var c, a :| Enabled(run[i - 1], c, a) && run[i] == Do(p, run[i - 1], c, a);
      TargetFrame(p, run[i - 1], c, a, path);
    }
    RunHasInv(p, run, i);
    assert BodyOf(run[i], Entry(run[0], Target(path)), Visible(run[0], Target(path)));
  }

  /** So a returned call that changed its target is sure to survive exactly where directories can be synced. */
  lemma ReturnedIsDurableIff(p: Platform, run: seq<Disk>, i: nat, k: nat, path: string)
    requires IsRun(p, run) && i < |run|
    requires LatestOn(run[i], k, path) && run[i].calls[run[i].published[k]].phase == Returned
    requires Visible(run[0], Target(path)) != Some(run[i].calls[run[i].published[k]].data)
    ensures (forall body :: MaySurvive(run[i], Target(path), body) ==> body == Some(run[i].calls[run[i].published[k]].data))
            <==> p.syncsDirectories
  {
    if p.syncsDirectories {
      forall body | MaySurvive(run[i], Target(path), body) ensures body == Some(run[i].calls[run[i].published[k]].data) {
        ReturnedCallSurvives(p, run, i, k, path, body);
      }
    } else {
      WithoutDirectorySyncTheOriginalMayReturn(p, run, i, path);
    }
  }

  // ---------- exclusive creation ----------

  ghost predicate PathOk(d0: Disk, d: Disk, path: string) {
    Target(path) in d.dir <==> Target(path) in d0.dir || exists c :: PublishedTo(d, c, path)
  }

  /** A create publishes only to a path that nothing holds and nothing has published to. */
  ghost predicate CreateAt(d0: Disk, d: Disk, k: nat)
    requires k < |d.published|
  {
    d.published[k] in d.calls &&
    var call := d.calls[d.published[k]];
    call.kind == Create ==>
      Target(call.path) !in d0.dir && forall j :: 0 <= j < k ==> !PublishedTo(d, d.published[j], call.path)
  }

  ghost predicate CreatesOk(d0: Disk, d: Disk) {
    && (forall path :: PathOk(d0, d, path))
    && (forall c :: c in d.calls && d.calls[c].phase == Refused ==> Target(d.calls[c].path) in d.dir)
    && (forall k :: 0 <= k < |d.published| ==> CreateAt(d0, d, k))
  }

  lemma StepKeepsPathOk(p: Platform, d0: Disk, d: Disk, d': Disk, c: CallId, a: Action, path: string)
    requires Evolves(p, d, d', c, a) && PathOk(d0, d, path)
    ensures PathOk(d0, d', path)
  {
    assert TargetMove(p, d, d', c, a, path);
    if a.Publish? && d.calls[c].path == path {
      assert PublishedTo(d', c, path);
    } else {
      forall b ensures PublishedTo(d', b, path) ==> PublishedTo(d, b, path) {
      }
      if b :| PublishedTo(d, b, path) { assert PublishedTo(d', b, path); }
    }
  }

  lemma StepKeepsCreateAt(p: Platform, d0: Disk, d: Disk, d': Disk, c: CallId, a: Action, k: nat)
    requires Evolves(p, d, d', c, a) && k < |d'.published|
    requires k < |d.published| ==> CreateAt(d0, d, k)
    requires forall path :: PathOk(d0, d, path)
    ensures CreateAt(d0, d', k)
  {
    var b := d'.published[k];
    if k < |d.published| {
      assert b == d.published[k];
      forall j | 0 <= j < k && d'.calls[b].kind == Create ensures !PublishedTo(d', d'.published[j], d'.calls[b].path) {
        assert !PublishedTo(d, d.published[j], d.calls[b].path);
      }
    } else if d.calls[c].kind == Create {
      assert PathOk(d0, d, d.calls[c].path);
      forall j | 0 <= j < k ensures !PublishedTo(d', d'.published[j], d.calls[c].path) {
        assert !PublishedTo(d, d.published[j], d.calls[c].path);
      }
    }
  }

  lemma StepKeepsCreatesOk(p: Platform, d0: Disk, d: Disk, d': Disk, c: CallId, a: Action)
    requires Evolves(p, d, d', c, a) && CreatesOk(d0, d)
    ensures CreatesOk(d0, d')
  {
    forall path ensures PathOk(d0, d', path) {
      StepKeepsPathOk(p, d0, d, d', c, a, path);
    }
    forall b | b in d'.calls && d'.calls[b].phase == Refused ensures Target(d'.calls[b].path) in d'.dir {
      assert TargetMove(p, d, d', c, a, d'.calls[b].path);
    }
    forall k | 0 <= k < |d'.published| ensures CreateAt(d0, d', k) {
      StepKeepsCreateAt(p, d0, d, d', c, a, k);
    }
  }

  lemma {:induction false} RunHasCreatesOk(p: Platform, run: seq<Disk>, i: nat)
    requires IsRun(p, run) && i < |run|
    ensures CreatesOk(run[0], run[i])
  {
    if i > 0 {
      RunHasCreatesOk(p, run, i - 1);
      RunHasInv(p, run, i - 1);
      assert Step(p, run[i - 1], run[i]);
      var c, a :| Enabled(run[i - 1], c, a) && run[i] == Do(p, run[i - 1], c, a);
      StepEvolves(p, run[i - 1], c, a);
      StepKeepsCreatesOk(p, run[0], run[i - 1], run[i], c, a);
    }
  }

  /** Of any number of creates on one path at most one publishes, whoever else writes there, and none does
      where the path already existed. */
  lemma AtMostOneCreateWins(p: Platform, run: seq<Disk>, i: nat, path: string, b: CallId, c: CallId)
    requires IsRun(p, run) && i < |run|
    requires PublishedTo(run[i], b, path) && run[i].calls[b].kind == Create
    requires PublishedTo(run[i], c, path) && run[i].calls[c].kind == Create
    ensures b == c && Target(path) !in run[0].dir
  {
    RunHasCreatesOk(p, run, i);
    var pub := run[i].published;
    var j :| 0 <= j < |pub| && pub[j] == b;
    var k :| 0 <= k < |pub| && pub[k] == c;
    assert CreateAt(run[0], run[i], j) && CreateAt(run[0], run[i], k);
  }

  /** Creates alone never alter an existing target, on the running system or after a crash. */
  lemma CreateLeavesExistingAlone(p: Platform, run: seq<Disk>, i: nat, path: string)
    requires IsRun(p, run) && i < |run| && Target(path) in run[0].dir
    requires forall c :: c in run[i].calls && run[i].calls[c].path == path ==> run[i].calls[c].kind == Create
    ensures Visible(run[i], Target(path)) == Visible(run[0], Target(path))
    ensures forall body :: MaySurvive(run[i], Target(path), body) ==> body == Visible(run[0], Target(path))
  {
    forall c ensures !PublishedTo(run[i], c, path) {
      if PublishedTo(run[i], c, path) { AtMostOneCreateWins(p, run, i, path, c, c); }
    }
    CrashLeavesOldOrNew(p, run, i, path, Visible(run[i], Target(path)));
    forall body | MaySurvive(run[i], Target(path), body) ensures body == Visible(run[0], Target(path)) {
      CrashLeavesOldOrNew(p, run, i, path, body);
    }
  }

  /** Creates racing on an absent path, all settled without an I/O error: exactly one wins, the others are
      refused, and the winner's data is in place. */
  lemma ExactlyOneCreateWins(p: Platform, run: seq<Disk>, i: nat, path: string) returns (winner: CallId)
    requires IsRun(p, run) && i < |run| && Target(path) !in run[0].dir
    requires forall c :: c in run[i].calls && run[i].calls[c].path == path ==>
      run[i].calls[c].kind == Create && (run[i].calls[c].phase == Returned || run[i].calls[c].phase == Refused)
    requires exists c :: c in run[i].calls && run[i].calls[c].path == path
    ensures winner in run[i].calls && run[i].calls[winner].path == path && run[i].calls[winner].phase == Returned
    ensures forall c :: c in run[i].calls && run[i].calls[c].path == path && c != winner ==> run[i].calls[c].phase == Refused
    ensures Visible(run[i], Target(path)) == Some(run[i].calls[winner].data)
  {
    RunHasInv(p, run, i);
    RunHasCreatesOk(p, run, i);
    var d := run[i];
    var some :| some in d.calls && d.calls[some].path == path;
    assert CallOk(run[0], d, some) && PathOk(run[0], d, path);
    if d.calls[some].phase == Returned { assert PublishedTo(d, some, path); }
    winner :| PublishedTo(d, winner, path);
    forall c | c in d.calls && d.calls[c].path == path && c != winner ensures d.calls[c].phase == Refused {
      assert CallOk(run[0], d, c);
      if d.calls[c].phase == Returned { AtMostOneCreateWins(p, run, i, path, c, winner); }
    }
    assert CallOk(run[0], d, winner);
    assert Accounted(run[0], d, path, Entry(d, Target(path)));
  }

  /** A call that threw before publishing, or was refused, has left nothing under its target. */
  lemma UnpublishedCallsLeaveNoTrace(p: Platform, run: seq<Disk>, i: nat, c: CallId, path: string)
    requires IsRun(p, run) && i < |run|
    requires c in run[i].calls && !run[i].calls[c].HasPublished()
    ensures !PublishedTo(run[i], c, path)
    ensures Some(run[i].calls[c].inode) !in AfterCrash(run[i], Target(path))
  {
    RunHasInv(p, run, i);
    assert CallOk(run[0], run[i], c);
    if Some(run[i].calls[c].inode) in AfterCrash(run[i], Target(path)) {
      assert Accounted(run[0], run[i], path, Some(run[i].calls[c].inode));
    }
  }

  // ---------- a call on its own ----------

  lemma Extend(p: Platform, run: seq<Disk>, c: CallId, a: Action) returns (run': seq<Disk>)
    requires IsRun(p, run) && Enabled(run[|run| - 1], c, a)
    ensures IsRun(p, run') && run'[0] == run[0] && run'[|run'| - 1] == Do(p, run[|run| - 1], c, a)
  {
    run' := run + [Do(p, run[|run| - 1], c, a)];
    forall i | 0 < i < |run'| ensures Step(p, run'[i - 1], run'[i]) {
      if i < |run| { assert run'[i - 1] == run[i - 1] && run'[i] == run[i]; }
    }
  }

  /** The temp file written, or streamed into before, and synced. */
  lemma Stages(p: Platform, d: Disk, kind: Kind, path: string, data: Bytes) returns (run: seq<Disk>)
    requires AtRest(d)
    ensures IsRun(p, run) && run[0] == d
    ensures var last, i := run[|run| - 1], |d.files|;
            && last.calls == map[0 := Call(kind, path, data, i, Synced)] && last.dir == d.dir[Temp(0) := i]
            && |last.files| == i + 1 && last.files[i] == File(data, true)
  {
    assert IsRun(p, [d]);
    assert Temp(0) !in d.dir;
    run := Extend(p, [d], 0, Begin(kind, path, data));
    if kind != Commit {
      run := Extend(p, run, 0, Fill);
    }
    run := Extend(p, run, 0, SyncFile);
  }

  /** Met by no error, a write, a commit, and a create of a path that is not there each return with their data in place. */
  lemma LoneCallReturns(p: Platform, d: Disk, kind: Kind, path: string, data: Bytes) returns (run: seq<Disk>)
    requires AtRest(d) && (kind == Create ==> Target(path) !in d.dir)
    ensures IsRun(p, run) && run[0] == d
    ensures var last := run[|run| - 1]; last.calls.Keys == {0} && last.calls[0].phase == Returned && Visible(last, Target(path)) == Some(data)
  {
    run := Stages(p, d, kind, path, data);
    run := Extend(p, run, 0, Publish);
    if kind == Create {
      run := Extend(p, run, 0, UnlinkTemp(true));
    }
    run := Extend(p, run, 0, SyncDirectory(true));
  }
}
