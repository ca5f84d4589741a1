/**
 Importing a Space archive into the filesystem backend: file by file, each only where nothing is there, and
 without a transaction, so an import refused half way keeps what it had written.
 */
module FileSystemImport {
  import opened ImportPlan
  import R = ImportReport
  import opened Wrappers

  datatype FileKey = FileKey(key: ResourceKey, contentType: string)

  /** A file of a chunk directory: the representation of an index under a media type, or its sidecar. */
  datatype ChunkFileKey = ChunkFileKey(parent: ResourceKey, index: nat, contentType: Option<string>)

  type Files = map<FileKey, Bytes>
  type ChunkFiles = map<ChunkFileKey, Bytes>

  datatype Tree = Tree(
    descriptions: map<Cid, string>, metadata: map<Cid, string>, files: Files,
    sidecars: map<ResourceKey, Sidecar>, chunkFiles: ChunkFiles, policies: map<PolicyKey, string>)

  /** The ids with a representation. */
  function LiveIds(files: Files): set<ResourceKey> {
    set f | f in files :: f.key
  }

  /** What blocks an import for an id: a representation, or a sidecar, which may be a tombstone's. */
  function HeldIds(t: Tree): set<ResourceKey> {
    LiveIds(t.files) + t.sidecars.Keys
  }

  /** Nothing there changes, and nothing is added under an id that held anything: no tombstone is revived. */
  ghost predicate Merged(a: Tree, b: Tree) {
    && Kept(a.files, b.files) && Kept(a.sidecars, b.sidecars) && Kept(a.chunkFiles, b.chunkFiles) && Kept(a.descriptions, b.descriptions)
    && (forall f :: f in b.files && f !in a.files ==> f.key !in HeldIds(a))
    && (forall k :: k in b.sidecars && k !in a.sidecars ==> k !in HeldIds(a))
    && (forall cid :: cid in a.descriptions || cid !in b.descriptions ==> Lookup(b.metadata, cid) == Lookup(a.metadata, cid))
    && (forall k :: k in a.policies && Stays(a, k) ==> k in b.policies && b.policies[k] == a.policies[k])
  }

  /** What the policy is for is there already. */
  predicate Stays(t: Tree, k: PolicyKey) {
    match k
    case OfSpace => true
    case OfCollection(cid) => cid in t.descriptions
    case OfResource(key) => key in HeldIds(t)
  }

  lemma HeldStays(a: Tree, b: Tree)
    requires Kept(a.files, b.files) && Kept(a.sidecars, b.sidecars)
    ensures LiveIds(a.files) <= LiveIds(b.files) && HeldIds(a) <= HeldIds(b)
  {
  }

  lemma MergedTransitive(a: Tree, b: Tree, c: Tree)
    requires Merged(a, b) && Merged(b, c)
    ensures Merged(a, c)
  {
    HeldStays(a, b);
    forall cid | cid in a.descriptions || cid !in c.descriptions ensures Lookup(c.metadata, cid) == Lookup(a.metadata, cid) {
      assert cid in b.descriptions ==> cid in c.descriptions;
    }
    forall k | k in a.policies && Stays(a, k) ensures k in c.policies && c.policies[k] == a.policies[k] {
      assert Stays(b, k);
    }
  }

  /** A merge that brings no id, no chunk file and no policy is no change at all. */
  lemma NothingMerged(a: Tree, b: Tree)
    requires Merged(a, b) && b.descriptions.Keys == a.descriptions.Keys && HeldIds(b) == HeldIds(a)
    requires b.chunkFiles.Keys == a.chunkFiles.Keys && b.policies == a.policies
    ensures b == a
  {
    forall f | f in b.files ensures f in a.files {
      assert f.key in LiveIds(b.files);
    }
    assert b.files == a.files && b.sidecars == a.sidecars && b.chunkFiles == a.chunkFiles && b.descriptions == a.descriptions;
    forall cid ensures cid in b.metadata <==> cid in a.metadata {
      assert Lookup(b.metadata, cid) == Lookup(a.metadata, cid);
    }
    forall cid | cid in a.metadata ensures b.metadata[cid] == a.metadata[cid] {
      assert Lookup(b.metadata, cid) == Lookup(a.metadata, cid);
    }
    assert b.metadata == a.metadata;
  }

  /** The tree as written so far, the Collection directories seen, and the running totals. */
  datatype Work = Work(tree: Tree, collections: set<Cid>, liveResources: nat, stats: R.Stats)

  /** A count quota met half way, and what had been written by then. */
  datatype Stop = Stop(work: Work, refusal: Refusal)

  function WorkView(w: Work): View {
    View(w.collections, w.tree.descriptions.Keys, HeldIds(w.tree), w.liveResources, w.tree.policies)
  }

  function ViewOf(t: Tree, collections: set<Cid>): View {
    View(collections, t.descriptions.Keys, HeldIds(t), |LiveIds(t.files)|, t.policies)
  }

  /** The running totals are those of the tree. */
  predicate Counted(w: Work) {
    w.liveResources == |LiveIds(w.tree.files)| && w.tree.descriptions.Keys <= w.collections
  }

  /** Descriptions and ids created are those that are new. */
  predicate Tallied(w: Work, w': Work) {
    && |HeldIds(w'.tree)| - w'.stats.resourcesCreated == |HeldIds(w.tree)| - w.stats.resourcesCreated
    && |w'.tree.descriptions.Keys| - w'.stats.collectionsCreated == |w.tree.descriptions.Keys| - w.stats.collectionsCreated
  }

  ghost predicate Grew(w: Work, w': Work) {
    Merged(w.tree, w'.tree) && (Counted(w) ==> Counted(w')) && Tallied(w, w') && w.collections <= w'.collections
  }

  lemma GrewTransitive(u: Work, v: Work, w: Work)
    requires Grew(u, v) && Grew(v, w)
    ensures Grew(u, w)
  {
    MergedTransitive(u.tree, v.tree, w.tree);
  }

  // ---------- one item at a time ----------

  function WithFile(t: Tree, c: ArchivedCollection, r: ArchivedResource): Tree {
    var k := ResourceKey(c.cid, r.rid);
    t.(files := t.files[FileKey(k, r.contentType) := r.body],
       sidecars := if r.rid in c.sidecars then t.sidecars[k := c.sidecars[r.rid]] else t.sidecars,
       policies := if r.rid in c.resourcePolicies then t.policies[OfResource(k) := c.resourcePolicies[r.rid]] else t.policies)
  }

  function CreatedFile(w: Work, c: ArchivedCollection, r: ArchivedResource): Work {
    w.(tree := WithFile(w.tree, c, r), liveResources := w.liveResources + 1,
       stats := R.CreatedResource(r.rid in c.resourcePolicies, w.stats))
  }

  function Skipped(w: Work, policy: bool): Work {
    w.(stats := R.SkippedResource(policy, w.stats))
  }

  lemma SkippedGrows(w: Work, policy: bool)
    ensures Grew(w, Skipped(w, policy)) && WorkView(Skipped(w, policy)) == WorkView(w)
  {
  }

  lemma FileIds(t: Tree, c: ArchivedCollection, r: ArchivedResource)
    ensures var k, t' := ResourceKey(c.cid, r.rid), WithFile(t, c, r);
            HeldIds(t') == HeldIds(t) + {k} && LiveIds(t'.files) == LiveIds(t.files) + {k}
  {
    var k, t' := ResourceKey(c.cid, r.rid), WithFile(t, c, r);
    assert t'.files.Keys == t.files.Keys + {FileKey(k, r.contentType)};
    assert FileKey(k, r.contentType) in t'.files;
    forall f | f in t.files ensures f.key in LiveIds(t'.files) {
      assert f in t'.files;
    }
  }

  lemma FileMerges(t: Tree, c: ArchivedCollection, r: ArchivedResource)
    requires ResourceKey(c.cid, r.rid) !in HeldIds(t)
    ensures Merged(t, WithFile(t, c, r))
  {
    var k := ResourceKey(c.cid, r.rid);
    assert FileKey(k, r.contentType) in t.files ==> k in LiveIds(t.files);
  }

  lemma NewIdCounts(ids: set<ResourceKey>, k: ResourceKey)
    requires k !in ids
    ensures |ids + {k}| == |ids| + 1
  {
  }

  lemma FileView(w: Work, c: ArchivedCollection, r: ArchivedResource)
    requires ResourceKey(c.cid, r.rid) !in HeldIds(w.tree)
    ensures WorkView(CreatedFile(w, c, r)) == WithNewResource(c, r.rid, WorkView(w))
  {
    FileIds(w.tree, c, r);
  }

  lemma FileCounts(w: Work, c: ArchivedCollection, r: ArchivedResource)
    requires ResourceKey(c.cid, r.rid) !in HeldIds(w.tree)
    ensures Tallied(w, CreatedFile(w, c, r)) && (Counted(w) ==> Counted(CreatedFile(w, c, r)))
  {
    FileIds(w.tree, c, r);
    NewIdCounts(HeldIds(w.tree), ResourceKey(c.cid, r.rid));
    NewIdCounts(LiveIds(w.tree.files), ResourceKey(c.cid, r.rid));
  }

  lemma FileGrows(w: Work, c: ArchivedCollection, r: ArchivedResource)
    requires ResourceKey(c.cid, r.rid) !in HeldIds(w.tree)
    ensures Grew(w, CreatedFile(w, c, r)) && WorkView(CreatedFile(w, c, r)) == WithNewResource(c, r.rid, WorkView(w))
  {
    FileView(w, c, r);
    FileCounts(w, c, r);
    FileMerges(w.tree, c, r);
  }

  method ImportResource(limits: Limits, c: ArchivedCollection, r: ArchivedResource, w: Work) returns (res: Result<Work, Refusal>)
    ensures if ResourceKey(c.cid, r.rid) in HeldIds(w.tree) then res == Ok(Skipped(w, r.rid in c.resourcePolicies))
            else if AtCap(limits.maxResources, w.liveResources) then res == Err(TooManyResources)
            else res == Ok(CreatedFile(w, c, r))
  {
    var k := ResourceKey(c.cid, r.rid);
    if k in LiveIds(w.tree.files) || k in w.tree.sidecars {
      return Ok(Skipped(w, r.rid in c.resourcePolicies));
    }
    if limits.maxResources.Some? && w.liveResources >= limits.maxResources.value {
      return Err(TooManyResources);
    }
    return Ok(CreatedFile(w, c, r));
  }

  /** New representations are the first of one of the first `n` for its id. */
  ghost predicate FilesUpTo(c: ArchivedCollection, n: nat, before: Files, after: Files)
    requires n <= |c.resources|
  {
    forall f :: f in after && f !in before ==>
      var first := FirstOf(c.resources[..n], f.key.rid);
      f.key.cid == c.cid && first.Some? && f.contentType == first.value.contentType && after[f] == first.value.body
  }

  /** New sidecars are the archive's. */
  ghost predicate SidecarsFrom(c: ArchivedCollection, before: map<ResourceKey, Sidecar>, after: map<ResourceKey, Sidecar>) {
    forall k :: k in after && k !in before ==> k.cid == c.cid && Lookup(c.sidecars, k.rid) == Some(after[k])
  }

  /** A new representation has the sidecar archived for its id, if there is one. */
  ghost predicate FileSidecars(c: ArchivedCollection, before: Tree, after: Tree) {
    forall f :: f in after.files && f !in before.files ==> Lookup(after.sidecars, f.key) == Lookup(c.sidecars, f.key.rid)
  }

  lemma SidecarStays(before: Tree, after: Tree, f: FileKey)
    requires Merged(before, after) && f in before.files
    ensures Lookup(after.sidecars, f.key) == Lookup(before.sidecars, f.key)
  {
    assert f.key in LiveIds(before.files);
  }

  lemma FileSidecarsGrow(c: ArchivedCollection, before: Tree, mid: Tree, after: Tree)
    requires FileSidecars(c, before, mid) && FileSidecars(c, mid, after) && Merged(mid, after)
    ensures FileSidecars(c, before, after)
  {
    forall f | f in after.files && f !in before.files ensures Lookup(after.sidecars, f.key) == Lookup(c.sidecars, f.key.rid) {
      if f in mid.files { SidecarStays(mid, after, f); }
    }
  }

  /** The state after the first `i` representations. */
  ghost predicate ResourcesGoneThrough(limits: Limits, c: ArchivedCollection, i: nat, w: Work, next: Work)
    requires i <= |c.resources|
  {
    var rids := RidsOf(c.resources[..i]);
    && Grew(w, next) && next.collections == w.collections && next.tree.chunkFiles == w.tree.chunkFiles
    && WorkView(next) == WithResources(c, rids, WorkView(w)) && !ResourcesExceeded(limits, c.cid, rids, WorkView(w))
    && FilesUpTo(c, i, w.tree.files, next.tree.files) && SidecarsFrom(c, w.tree.sidecars, next.tree.sidecars)
    && next.tree.descriptions == w.tree.descriptions && FileSidecars(c, w.tree, next.tree)
    && next.stats == R.ResourcesStats(c, c.resources[..i], WorkView(w), w.stats)
  }

  lemma NoneGoneThrough(limits: Limits, c: ArchivedCollection, w: Work)
    ensures ResourcesGoneThrough(limits, c, 0, w, w)
  {
    NoResources(limits, c, WorkView(w));
    NothingGrows(w);
    assert c.resources[..0] == [] && RidsOf([]) == {} && R.ResourcesStats(c, [], WorkView(w), w.stats) == w.stats;
  }

  lemma AllGoneThrough(limits: Limits, c: ArchivedCollection, w: Work, next: Work)
    requires ResourcesGoneThrough(limits, c, |c.resources|, w, next)
    ensures WorkView(next) == WithResources(c, RidsOf(c.resources), WorkView(w))
    ensures !ResourcesExceeded(limits, c.cid, RidsOf(c.resources), WorkView(w))
    ensures next.stats == R.ResourcesStats(c, c.resources, WorkView(w), w.stats)
  {
    WholeOf(c.resources);
  }

  lemma FilesUpToNext(c: ArchivedCollection, i: nat, before: Files, mid: Files)
    requires i < |c.resources| && FilesUpTo(c, i, before, mid)
    ensures FilesUpTo(c, i + 1, before, mid)
    ensures var r := c.resources[i];
            r.rid !in RidsOf(c.resources[..i]) ==> FilesUpTo(c, i + 1, before, mid[FileKey(ResourceKey(c.cid, r.rid), r.contentType) := r.body])
  {
    RidsOfOneMore(c.resources, i);
    FirstOfIsThere(c.resources[..i], c.resources[i].rid);
  }

  lemma GoneThroughIsHeld(limits: Limits, c: ArchivedCollection, i: nat, w: Work, next: Work, rid: Rid)
    requires i <= |c.resources| && ResourcesGoneThrough(limits, c, i, w, next) && rid in RidsOf(c.resources[..i])
    ensures ResourceKey(c.cid, rid) in HeldIds(next.tree)
  {
    assert WorkView(next).held == WorkView(w).held + KeysOf(c.cid, RidsOf(c.resources[..i]));
    assert ResourceKey(c.cid, rid) in KeysOf(c.cid, RidsOf(c.resources[..i]));
  }

  lemma FilesAfterNext(limits: Limits, c: ArchivedCollection, i: nat, w: Work, next: Work)
    requires i < |c.resources| && ResourcesGoneThrough(limits, c, i, w, next)
    ensures var r := c.resources[i];
            FilesUpTo(c, i + 1, w.tree.files,
                      if ResourceKey(c.cid, r.rid) in HeldIds(next.tree) then next.tree.files else WithFile(next.tree, c, r).files)
  {
    var rid := c.resources[i].rid;
    FilesUpToNext(c, i, w.tree.files, next.tree.files);
    if rid in RidsOf(c.resources[..i]) {
      GoneThroughIsHeld(limits, c, i, w, next, rid);
    }
  }

  /** What skipping or creating one representation does to what the checks go by and to the numbers. */
  ghost predicate ResourceStep(limits: Limits, c: ArchivedCollection, r: ArchivedResource, next: Work, after: Work) {
    && Grew(next, after) && after.collections == next.collections && after.tree.chunkFiles == next.tree.chunkFiles
    && WorkView(after) == WithResources(c, {r.rid}, WorkView(next)) && !ResourcesExceeded(limits, c.cid, {r.rid}, WorkView(next))
    && SidecarsFrom(c, next.tree.sidecars, after.tree.sidecars) && after.tree.descriptions == next.tree.descriptions
    && FileSidecars(c, next.tree, after.tree)
    && after.stats == R.ResourceStats(c, r, WorkView(next), next.stats)
  }

  /** One representation more, skipped or created. */
  lemma OneMoreGoneThrough(limits: Limits, c: ArchivedCollection, i: nat, w: Work, next: Work, after: Work)
    requires i < |c.resources| && ResourcesGoneThrough(limits, c, i, w, next) && ResourceStep(limits, c, c.resources[i], next, after)
    requires FilesUpTo(c, i + 1, w.tree.files, after.tree.files)
    ensures ResourcesGoneThrough(limits, c, i + 1, w, after)
  {
    FileSidecarsGrow(c, w.tree, next.tree, after.tree);
    R.StatsOfOneMore(c, i, WorkView(w), w.stats);
    RidsOfOneMore(c.resources, i);
    MoreResources(limits, c, RidsOf(c.resources[..i]), {c.resources[i].rid}, WorkView(w));
    GrewTransitive(w, next, after);
  }

  lemma SkippedStep(limits: Limits, c: ArchivedCollection, r: ArchivedResource, next: Work)
    requires ResourceKey(c.cid, r.rid) in HeldIds(next.tree)
    ensures ResourceStep(limits, c, r, next, Skipped(next, r.rid in c.resourcePolicies))
  {
    SkippedGrows(next, r.rid in c.resourcePolicies);
    OneResource(limits, c, r.rid, WorkView(next));
  }

  lemma CreatedStats(c: ArchivedCollection, r: ArchivedResource, next: Work)
    requires ResourceKey(c.cid, r.rid) !in HeldIds(next.tree)
    ensures CreatedFile(next, c, r).stats == R.ResourceStats(c, r, WorkView(next), next.stats)
  {
  }

  lemma CreatedSidecars(c: ArchivedCollection, r: ArchivedResource, t: Tree)
    requires ResourceKey(c.cid, r.rid) !in HeldIds(t)
    ensures var after := WithFile(t, c, r);
            && SidecarsFrom(c, t.sidecars, after.sidecars) && FileSidecars(c, t, after)
            && after.descriptions == t.descriptions && after.chunkFiles == t.chunkFiles
  {
  }

  lemma CreatedView(limits: Limits, c: ArchivedCollection, r: ArchivedResource, next: Work)
    requires ResourceKey(c.cid, r.rid) !in HeldIds(next.tree) && !AtCap(limits.maxResources, next.liveResources)
    ensures WorkView(CreatedFile(next, c, r)) == WithResources(c, {r.rid}, WorkView(next))
    ensures !ResourcesExceeded(limits, c.cid, {r.rid}, WorkView(next))
  {
    FileView(next, c, r);
    OneResource(limits, c, r.rid, WorkView(next));
  }

  lemma CreatedStep(limits: Limits, c: ArchivedCollection, r: ArchivedResource, next: Work, after: Work)
    requires ResourceKey(c.cid, r.rid) !in HeldIds(next.tree) && !AtCap(limits.maxResources, next.liveResources)
    requires after == CreatedFile(next, c, r)
    ensures ResourceStep(limits, c, r, next, after)
  {
    FileGrows(next, c, r);
    CreatedStats(c, r, next);
    CreatedSidecars(c, r, next.tree);
    CreatedView(limits, c, r, next);
  }

  lemma NextExceeds(limits: Limits, c: ArchivedCollection, i: nat, w: Work, next: Work)
    requires i < |c.resources| && ResourcesGoneThrough(limits, c, i, w, next)
    requires ResourcesExceeded(limits, c.cid, {c.resources[i].rid}, WorkView(next))
    ensures ResourcesExceeded(limits, c.cid, RidsOf(c.resources), WorkView(w))
  {
    RidsOfOneMore(c.resources, i);
    MoreResources(limits, c, RidsOf(c.resources[..i]), {c.resources[i].rid}, WorkView(w));
    RidsUpTo(c.resources, i + 1);
    ExceededStays(limits, c.cid, RidsOf(c.resources[..i + 1]), RidsOf(c.resources[i + 1..]), WorkView(w));
  }

  lemma NextRefused(limits: Limits, c: ArchivedCollection, i: nat, w: Work, next: Work)
    requires i < |c.resources| && ResourcesGoneThrough(limits, c, i, w, next)
    requires ResourceKey(c.cid, c.resources[i].rid) !in HeldIds(next.tree) && AtCap(limits.maxResources, next.liveResources)
    ensures ResourcesExceeded(limits, c.cid, RidsOf(c.resources), WorkView(w))
  {
    OneResource(limits, c, c.resources[i].rid, WorkView(next));
    NextExceeds(limits, c, i, w, next);
  }

  lemma NextStep(limits: Limits, c: ArchivedCollection, i: nat, w: Work, next: Work, after: Work)
    requires i < |c.resources| && ResourcesGoneThrough(limits, c, i, w, next)
    requires var r := c.resources[i];
             if ResourceKey(c.cid, r.rid) in HeldIds(next.tree) then after == Skipped(next, r.rid in c.resourcePolicies)
             else !AtCap(limits.maxResources, next.liveResources) && after == CreatedFile(next, c, r)
    ensures ResourcesGoneThrough(limits, c, i + 1, w, after)
  {
    FilesAfterNext(limits, c, i, w, next);
    if ResourceKey(c.cid, c.resources[i].rid) in HeldIds(next.tree) {
      SkippedStep(limits, c, c.resources[i], next);
    } else {
      CreatedStep(limits, c, c.resources[i], next, after);
    }
    OneMoreGoneThrough(limits, c, i, w, next, after);
  }

  method ImportNext(limits: Limits, c: ArchivedCollection, i: nat, ghost w: Work, next: Work) returns (res: Result<Work, Refusal>)
    requires i < |c.resources| && ResourcesGoneThrough(limits, c, i, w, next)
    ensures res.Ok? ==> ResourcesGoneThrough(limits, c, i + 1, w, res.value)
    ensures res.Err? ==> res.error == TooManyResources && ResourcesExceeded(limits, c.cid, RidsOf(c.resources), WorkView(w))
  {
    res := ImportResource(limits, c, c.resources[i], next);
    if res.Err? {
      NextRefused(limits, c, i, w, next);
    } else {
      NextStep(limits, c, i, w, next, res.value);
    }
  }

  method ImportResources(limits: Limits, c: ArchivedCollection, w: Work) returns (res: Result<Work, Stop>)
    ensures if ResourcesExceeded(limits, c.cid, RidsOf(c.resources), WorkView(w)) then
              res.Err? && res.error.refusal == TooManyResources && Grew(w, res.error.work)
            else
              res.Ok? && ResourcesGoneThrough(limits, c, |c.resources|, w, res.value)
  {
    var next := w;
    NoneGoneThrough(limits, c, w);
    for i := 0 to |c.resources|
      invariant ResourcesGoneThrough(limits, c, i, w, next)
    {
      var step := ImportNext(limits, c, i, w, next);
      if step.Err? {
        return Err(Stop(next, step.error));
      }
      next := step.value;
    }
    AllGoneThrough(limits, c, w, next);
    return Ok(next);
  }

  // ---------- tombstones ----------

  /** A tombstone is a sidecar alone. */
  function Buried(w: Work, k: ResourceKey, sidecar: Sidecar): Work {
    w.(tree := w.tree.(sidecars := w.tree.sidecars[k := sidecar]), stats := R.CreatedResource(false, w.stats))
  }

  lemma BuriedIds(t: Tree, k: ResourceKey, sidecar: Sidecar)
    ensures HeldIds(t.(sidecars := t.sidecars[k := sidecar])) == HeldIds(t) + {k}
  {
    assert t.sidecars[k := sidecar].Keys == t.sidecars.Keys + {k};
  }

  lemma BuriedMerges(t: Tree, k: ResourceKey, sidecar: Sidecar)
    requires k !in HeldIds(t)
    ensures Merged(t, t.(sidecars := t.sidecars[k := sidecar]))
  {
  }

  lemma BuriedGrows(w: Work, k: ResourceKey, sidecar: Sidecar)
    requires k !in HeldIds(w.tree)
    ensures Grew(w, Buried(w, k, sidecar)) && HeldIds(Buried(w, k, sidecar).tree) == HeldIds(w.tree) + {k}
  {
    BuriedIds(w.tree, k, sidecar);
    BuriedMerges(w.tree, k, sidecar);
    NewIdCounts(HeldIds(w.tree), k);
  }

  /** The state after some of the sidecars that are tombstones. */
  ghost predicate BuriedUpTo(c: ArchivedCollection, done: set<Rid>, w: Work, next: Work) {
    && Grew(w, next) && next.collections == w.collections && next.liveResources == w.liveResources
    && next.tree == w.tree.(sidecars := next.tree.sidecars) && SidecarsFrom(c, w.tree.sidecars, next.tree.sidecars)
    && HeldIds(next.tree) == HeldIds(w.tree) + KeysOf(c.cid, done)
    && TombstonesCounted(c, done, w, next)
  }

  ghost predicate TombstonesCounted(c: ArchivedCollection, done: set<Rid>, w: Work, next: Work) {
    next.stats == R.TombstonesStats(c, done - RidsOf(c.resources), WorkView(w), w.stats)
  }

  lemma BuriedView(c: ArchivedCollection, w: Work, next: Work)
    requires BuriedUpTo(c, BuriedRids(c), w, next)
    ensures WorkView(next) == WithTombstones(c, WorkView(w))
  {
  }

  lemma KeysOfOneMore(cid: Cid, done: set<Rid>, rid: Rid, held: set<ResourceKey>)
    ensures held + KeysOf(cid, done + {rid}) == held + KeysOf(cid, done) + {ResourceKey(cid, rid)}
  {
    KeysOfUnion(cid, done, {rid});
    OneKey(cid, rid);
  }

  /** The numbers after one tombstone more. */
  lemma BuriedStats(c: ArchivedCollection, rid: Rid, done: set<Rid>, w: Work, next: Work)
    requires BuriedUpTo(c, done, w, next) && rid !in done
    ensures var after := R.TombstonesStats(c, (done + {rid}) - RidsOf(c.resources), WorkView(w), w.stats);
            after == if rid in RidsOf(c.resources) then next.stats
                     else if ResourceKey(c.cid, rid) in HeldIds(next.tree) then R.SkippedResource(false, next.stats)
                     else R.CreatedResource(false, next.stats)
  {
    var imported := RidsOf(c.resources);
    if rid in imported {
      assert (done + {rid}) - imported == done - imported;
    } else {
      assert (done + {rid}) - imported == (done - imported) + {rid};
      R.OneMoreTombstone(c, done - imported, rid, WorkView(w), w.stats);
    }
  }

  lemma ImportedIsBuried(c: ArchivedCollection, rid: Rid, done: set<Rid>, w: Work, next: Work)
    requires BuriedUpTo(c, done, w, next) && ResourceKey(c.cid, rid) in HeldIds(next.tree) && rid in RidsOf(c.resources) && rid !in done
    ensures BuriedUpTo(c, done + {rid}, w, next)
  {
    KeysOfOneMore(c.cid, done, rid, HeldIds(w.tree));
    assert HeldIds(next.tree) + {ResourceKey(c.cid, rid)} == HeldIds(next.tree);
    BuriedStats(c, rid, done, w, next);
  }

  lemma HeldIsBuried(c: ArchivedCollection, rid: Rid, done: set<Rid>, w: Work, next: Work)
    requires BuriedUpTo(c, done, w, next) && ResourceKey(c.cid, rid) in HeldIds(next.tree) && rid !in RidsOf(c.resources) && rid !in done
    ensures BuriedUpTo(c, done + {rid}, w, Skipped(next, false))
  {
    KeysOfOneMore(c.cid, done, rid, HeldIds(w.tree));
    assert HeldIds(next.tree) + {ResourceKey(c.cid, rid)} == HeldIds(next.tree);
    SkippedGrows(next, false);
    GrewTransitive(w, next, Skipped(next, false));
    BuriedStats(c, rid, done, w, next);
  }

  lemma OneMoreBuried(c: ArchivedCollection, rid: Rid, done: set<Rid>, w: Work, next: Work)
    requires BuriedUpTo(c, done, w, next) && rid in BuriedRids(c) && ResourceKey(c.cid, rid) !in HeldIds(next.tree)
    requires rid !in RidsOf(c.resources) && rid !in done
    ensures BuriedUpTo(c, done + {rid}, w, Buried(next, ResourceKey(c.cid, rid), c.sidecars[rid]))
  {
    KeysOfOneMore(c.cid, done, rid, HeldIds(w.tree));
    BuriedGrows(next, ResourceKey(c.cid, rid), c.sidecars[rid]);
    GrewTransitive(w, next, Buried(next, ResourceKey(c.cid, rid), c.sidecars[rid]));
    BuriedStats(c, rid, done, w, next);
  }

  ghost predicate BuriedExcept(c: ArchivedCollection, todo: set<Rid>, w: Work, next: Work) {
    BuriedUpTo(c, BuriedRids(c) - todo, w, next)
  }

  lemma NoneBuried(c: ArchivedCollection, w: Work)
    ensures BuriedExcept(c, BuriedRids(c), w, w)
  {
    OneKey(c.cid, "");
    assert BuriedRids(c) - BuriedRids(c) == {} && {} - RidsOf(c.resources) == {};
  }

  lemma AllBuried(c: ArchivedCollection, w: Work, next: Work)
    requires BuriedExcept(c, {}, w, next)
    ensures BuriedUpTo(c, BuriedRids(c), w, next)
  {
    assert BuriedRids(c) - {} == BuriedRids(c);
  }

  lemma HeldRid(c: ArchivedCollection, rid: Rid, done: set<Rid>, w: Work, next: Work)
    requires KeysOf(c.cid, RidsOf(c.resources)) <= HeldIds(w.tree) && BuriedUpTo(c, done, w, next) && rid in RidsOf(c.resources)
    ensures ResourceKey(c.cid, rid) in HeldIds(next.tree)
  {
    assert ResourceKey(c.cid, rid) in KeysOf(c.cid, RidsOf(c.resources));
  }

  method ImportTombstone(c: ArchivedCollection, imported: set<Rid>, rid: Rid, ghost todo: set<Rid>, ghost w: Work, next: Work) returns (after: Work)
    requires rid in todo && todo <= BuriedRids(c) && imported == RidsOf(c.resources)
    requires KeysOf(c.cid, RidsOf(c.resources)) <= HeldIds(w.tree) && BuriedExcept(c, todo, w, next)
    ensures BuriedExcept(c, todo - {rid}, w, after)
  {
    ghost var done := BuriedRids(c) - todo;
    OneLess(BuriedRids(c), todo, rid);
    after := next;
    if rid in imported {
      HeldRid(c, rid, done, w, next);
      ImportedIsBuried(c, rid, done, w, next);
    } else if ResourceKey(c.cid, rid) in HeldIds(next.tree) {
      HeldIsBuried(c, rid, done, w, next);
      after := Skipped(next, false);
    } else {
      OneMoreBuried(c, rid, done, w, next);
      after := Buried(next, ResourceKey(c.cid, rid), c.sidecars[rid]);
    }
  }

  /** Tombstones without a representation in the archive are carried over: only the sidecar is written. */
  method ImportTombstones(c: ArchivedCollection, w: Work) returns (next: Work)
    requires KeysOf(c.cid, RidsOf(c.resources)) <= HeldIds(w.tree)
    ensures BuriedExcept(c, {}, w, next)
  {
    next := w;
    var imported := RidsOf(c.resources);
    var todo := BuriedRids(c);
    NoneBuried(c, w);
    while todo != {}
      invariant todo <= BuriedRids(c) && BuriedExcept(c, todo, w, next)
      decreases |todo|
    {
      var rid :| rid in todo;
      var rest := todo - {rid};
      assert |rest| < |todo|;
      next := ImportTombstone(c, imported, rid, todo, w, next);
      todo := rest;
    }
  }

  // ---------- chunk files ----------

  function ChunkFileOf(cid: Cid, f: ChunkFile): ChunkFileKey {
    ChunkFileKey(ResourceKey(cid, f.rid), f.index, f.contentType)
  }

  function ChunkFileKeys(cid: Cid, files: seq<ChunkFile>): set<ChunkFileKey> {
    set f | f in files :: ChunkFileOf(cid, f)
  }

  /** The body a chunk file goes in with: that of the archive's first file of the name. */
  function FirstBody(cid: Cid, files: seq<ChunkFile>, k: ChunkFileKey): Option<Bytes> {
    if files == [] then None
    else
      var n := |files| - 1;
      var earlier := FirstBody(cid, files[..n], k);
      if earlier.Some? then earlier else if ChunkFileOf(cid, files[n]) == k then Some(files[n].body) else None
  }

  /** Exactly the files of the archive under a live parent are in, where no file of the name was. */
  ghost predicate ChunkFilesUpTo(cid: Cid, files: seq<ChunkFile>, live: set<ResourceKey>, before: ChunkFiles, after: ChunkFiles) {
    forall k :: Lookup(after, k) ==
                if k in before then Lookup(before, k)
                else if k.parent in live then FirstBody(cid, files, k)
                else None
  }

  lemma {:induction false} FirstBodyIsThere(cid: Cid, files: seq<ChunkFile>, k: ChunkFileKey)
    ensures FirstBody(cid, files, k).Some? <==> k in ChunkFileKeys(cid, files)
  {
    if files != [] {
      var n := |files| - 1;
      assert files == files[..n] + [files[n]];
      FirstBodyIsThere(cid, files[..n], k);
    }
  }

  lemma ChunkFilesNext(cid: Cid, files: seq<ChunkFile>, i: nat, live: set<ResourceKey>, before: ChunkFiles, mid: ChunkFiles)
    requires i < |files| && ChunkFilesUpTo(cid, files[..i], live, before, mid)
    ensures var f := files[i];
            var k := ChunkFileOf(cid, f);
            ChunkFilesUpTo(cid, files[..i + 1], live, before, if k.parent in live && k !in mid then mid[k := f.body] else mid)
  {
    var f := files[i];
    var k := ChunkFileOf(cid, f);
    var after := if k.parent in live && k !in mid then mid[k := f.body] else mid;
    assert files[..i + 1][..i] == files[..i];
    assert k in mid <==> Lookup(mid, k).Some?;
    forall j ensures Lookup(after, j) ==
                     if j in before then Lookup(before, j) else if j.parent in live then FirstBody(cid, files[..i + 1], j) else None
    {
      assert Lookup(mid, j) == if j in before then Lookup(before, j) else if j.parent in live then FirstBody(cid, files[..i], j) else None;
    }
  }

  /** A chunk file goes in only under a live parent, and only where no file of that name is. */
  method ImportChunkFiles(c: ArchivedCollection, w: Work) returns (next: Work)
    ensures next == w.(tree := w.tree.(chunkFiles := next.tree.chunkFiles))
    ensures ChunkFilesUpTo(c.cid, c.chunkFiles, LiveIds(w.tree.files), w.tree.chunkFiles, next.tree.chunkFiles)
  {
    next := w;
    var live := LiveIds(w.tree.files);
    var parentIsLive: map<Rid, bool> := map[];
    assert ChunkFilesUpTo(c.cid, c.chunkFiles[..0], live, w.tree.chunkFiles, w.tree.chunkFiles);
    for i := 0 to |c.chunkFiles|
      invariant next == w.(tree := w.tree.(chunkFiles := next.tree.chunkFiles))
      invariant forall rid :: rid in parentIsLive ==> parentIsLive[rid] == (ResourceKey(c.cid, rid) in live)
      invariant ChunkFilesUpTo(c.cid, c.chunkFiles[..i], live, w.tree.chunkFiles, next.tree.chunkFiles)
    {
      var f := c.chunkFiles[i];
      ChunkFilesNext(c.cid, c.chunkFiles, i, live, w.tree.chunkFiles, next.tree.chunkFiles);
      if f.rid !in parentIsLive {
        parentIsLive := parentIsLive[f.rid := ResourceKey(c.cid, f.rid) in LiveIds(next.tree.files)];
      }
      if parentIsLive[f.rid] && ChunkFileOf(c.cid, f) !in next.tree.chunkFiles {
        next := next.(tree := next.tree.(chunkFiles := next.tree.chunkFiles[ChunkFileOf(c.cid, f) := f.body]));
      }
    }
    assert c.chunkFiles[..|c.chunkFiles|] == c.chunkFiles;
  }

  lemma ChunkFilesGrow(c: ArchivedCollection, w: Work, next: Work)
    requires next == w.(tree := w.tree.(chunkFiles := next.tree.chunkFiles))
    requires ChunkFilesUpTo(c.cid, c.chunkFiles, LiveIds(w.tree.files), w.tree.chunkFiles, next.tree.chunkFiles)
    ensures Grew(w, next) && WorkView(next) == WorkView(w)
  {
    forall k | k in w.tree.chunkFiles ensures k in next.tree.chunkFiles && next.tree.chunkFiles[k] == w.tree.chunkFiles[k] {
      assert Lookup(next.tree.chunkFiles, k) == Lookup(w.tree.chunkFiles, k);
    }
  }

  // ---------- Collections ----------

  function DescribedTree(t: Tree, c: ArchivedCollection): Tree {
    t.(descriptions := t.descriptions[c.cid := c.description],
       metadata := if c.metadata.Some? then t.metadata[c.cid := c.metadata.value] else t.metadata,
       policies := if c.policy.Some? then t.policies[OfCollection(c.cid) := c.policy.value] else t.policies)
  }

  function DescribedWork(w: Work, c: ArchivedCollection): Work {
    w.(tree := DescribedTree(w.tree, c), collections := w.collections + {c.cid},
       stats := R.CreatedCollection(c.policy.Some?, w.stats))
  }

  function SkippedCollection(w: Work, c: ArchivedCollection): Work {
    w.(stats := R.SkippedCollection(c.policy.Some?, w.stats))
  }

  method ImportDescription(limits: Limits, c: ArchivedCollection, w: Work) returns (res: Result<Work, Refusal>)
    ensures if c.cid in w.tree.descriptions then res == Ok(SkippedCollection(w, c))
            else if c.cid !in w.collections && AtCap(limits.maxCollections, |w.collections|) then res == Err(TooManyCollections)
            else res == Ok(DescribedWork(w, c))
  {
    if c.cid in w.tree.descriptions {
      return Ok(SkippedCollection(w, c));
    }
    if limits.maxCollections.Some? && c.cid !in w.collections && |w.collections| >= limits.maxCollections.value {
      return Err(TooManyCollections);
    }
    return Ok(DescribedWork(w, c));
  }

  /** A description the destination lacked is the archive's, and so is its metadata if the archive has any. */
  predicate DescriptionFrom(c: ArchivedCollection, before: Tree, after: Tree) {
    c.cid !in before.descriptions ==>
      && Lookup(after.descriptions, c.cid) == Some(c.description)
      && Lookup(after.metadata, c.cid) == if c.metadata.Some? then c.metadata else Lookup(before.metadata, c.cid)
  }

  /** A Collection described, its Resources still to come. */
  ghost predicate CollectionDescribed(c: ArchivedCollection, w: Work, next: Work) {
    && Grew(w, next) && WorkView(next) == WithDescription(c, WorkView(w)) && DescriptionFrom(c, w.tree, next.tree)
    && next.tree.files == w.tree.files && next.tree.sidecars == w.tree.sidecars && next.tree.chunkFiles == w.tree.chunkFiles
    && next.stats == R.DescriptionStats(c, WorkView(w), w.stats)
  }

  lemma DescribedMerges(t: Tree, c: ArchivedCollection)
    requires c.cid !in t.descriptions
    ensures Merged(t, DescribedTree(t, c))
  {
  }

  lemma DescribedCounts(w: Work, c: ArchivedCollection)
    requires c.cid !in w.tree.descriptions
    ensures DescribedTree(w.tree, c).descriptions.Keys == w.tree.descriptions.Keys + {c.cid}
    ensures |DescribedTree(w.tree, c).descriptions.Keys| == |w.tree.descriptions.Keys| + 1
  {
    assert DescribedTree(w.tree, c).descriptions.Keys == w.tree.descriptions.Keys + {c.cid};
  }

  lemma DescribedWorkIsDescribed(c: ArchivedCollection, w: Work)
    requires c.cid !in w.tree.descriptions
    ensures CollectionDescribed(c, w, DescribedWork(w, c))
  {
    DescribedMerges(w.tree, c);
    DescribedCounts(w, c);
    assert HeldIds(DescribedTree(w.tree, c)) == HeldIds(w.tree);
  }

  lemma SkippedIsDescribed(c: ArchivedCollection, w: Work)
    requires c.cid in w.tree.descriptions
    ensures CollectionDescribed(c, w, SkippedCollection(w, c))
  {
  }

  method DescribeCollection(limits: Limits, c: ArchivedCollection, w: Work) returns (res: Result<Work, Refusal>)
    ensures if RowsExceeded(limits, c, WorkView(w)) then res == Err(TooManyCollections)
            else res.Ok? && CollectionDescribed(c, w, res.value)
  {
    if c.cid in w.tree.descriptions {
      SkippedIsDescribed(c, w);
    } else {
      DescribedWorkIsDescribed(c, w);
    }
    res := ImportDescription(limits, c, w);
  }

  lemma RefusalAfterDescription(limits: Limits, c: ArchivedCollection, w: Work, described: Work)
    requires CollectionDescribed(c, w, described) && !RowsExceeded(limits, c, WorkView(w))
    ensures CollectionRefusal(limits, c, WorkView(w)) ==
            if ResourcesExceeded(limits, c.cid, RidsOf(c.resources), WorkView(described)) then Some(TooManyResources) else None
  {
  }

  /** What a Collection of the archive brings, as the archive has it. */
  ghost predicate BroughtFrom(c: ArchivedCollection, before: Tree, after: Tree) {
    && FilesUpTo(c, |c.resources|, before.files, after.files) && SidecarsFrom(c, before.sidecars, after.sidecars)
    && DescriptionFrom(c, before, after) && FileSidecars(c, before, after)
    && ChunkFilesUpTo(c.cid, c.chunkFiles, LiveIds(after.files), before.chunkFiles, after.chunkFiles)
  }

  /** A Collection of the archive gone through. */
  ghost predicate CollectionImported(c: ArchivedCollection, w: Work, next: Work) {
    && Grew(w, next) && WorkView(next) == WithCollection(c, WorkView(w)) && BroughtFrom(c, w.tree, next.tree)
    && next.stats == R.CollectionStats(c, WorkView(w), w.stats)
  }

  lemma BroughtByPasses(limits: Limits, c: ArchivedCollection, w: Work, described: Work, filled: Work, buried: Work, next: Work)
    requires CollectionDescribed(c, w, described) && ResourcesGoneThrough(limits, c, |c.resources|, described, filled)
    requires BuriedUpTo(c, BuriedRids(c), filled, buried)
    requires next == buried.(tree := buried.tree.(chunkFiles := next.tree.chunkFiles))
    requires ChunkFilesUpTo(c.cid, c.chunkFiles, LiveIds(buried.tree.files), buried.tree.chunkFiles, next.tree.chunkFiles)
    ensures BroughtFrom(c, w.tree, next.tree)
  {
  }

  lemma ImportedByPasses(limits: Limits, c: ArchivedCollection, w: Work, described: Work, filled: Work, buried: Work, next: Work)
    requires CollectionDescribed(c, w, described) && ResourcesGoneThrough(limits, c, |c.resources|, described, filled)
    requires BuriedUpTo(c, BuriedRids(c), filled, buried) && Grew(buried, next) && WorkView(next) == WorkView(buried)
    requires next.stats == buried.stats
    ensures Grew(w, next) && WorkView(next) == WithCollection(c, WorkView(w)) && next.stats == R.CollectionStats(c, WorkView(w), w.stats)
  {
    AllGoneThrough(limits, c, described, filled);
    BuriedView(c, filled, buried);
    GrewTransitive(w, described, filled);
    GrewTransitive(w, filled, buried);
    GrewTransitive(w, buried, next);
  }

  lemma FilledHolds(limits: Limits, c: ArchivedCollection, w: Work, filled: Work)
    requires ResourcesGoneThrough(limits, c, |c.resources|, w, filled)
    ensures KeysOf(c.cid, RidsOf(c.resources)) <= HeldIds(filled.tree)
  {
    AllGoneThrough(limits, c, w, filled);
    assert WorkView(filled).held == WorkView(w).held + KeysOf(c.cid, RidsOf(c.resources));
  }

  method FillCollection(limits: Limits, c: ArchivedCollection, ghost w: Work, described: Work) returns (res: Result<Work, Stop>)
    requires CollectionDescribed(c, w, described)
    ensures if ResourcesExceeded(limits, c.cid, RidsOf(c.resources), WorkView(described)) then
              res.Err? && res.error.refusal == TooManyResources && Grew(w, res.error.work)
            else
              res.Ok? && CollectionImported(c, w, res.value)
  {
    var filled := ImportResources(limits, c, described);
    if filled.Err? {
      GrewTransitive(w, described, filled.error.work);
      return filled;
    }
    FilledHolds(limits, c, described, filled.value);
    var buried := ImportTombstones(c, filled.value);
    AllBuried(c, filled.value, buried);
    var next := ImportChunkFiles(c, buried);
    ChunkFilesGrow(c, buried, next);
    ImportedByPasses(limits, c, w, described, filled.value, buried, next);
    BroughtByPasses(limits, c, w, described, filled.value, buried, next);
    return Ok(next);
  }

  method ImportCollection(limits: Limits, c: ArchivedCollection, w: Work) returns (res: Result<Work, Stop>)
    ensures var refusal := CollectionRefusal(limits, c, WorkView(w));
            if refusal.Some? then res.Err? && res.error.refusal == refusal.value && Grew(w, res.error.work)
            else res.Ok? && CollectionImported(c, w, res.value)
  {
    var described := DescribeCollection(limits, c, w);
    if described.Err? {
      NothingGrows(w);
      return Err(Stop(w, described.error));
    }
    RefusalAfterDescription(limits, c, w, described.value);
    res := FillCollection(limits, c, w, described.value);
  }

  lemma NothingGrows(w: Work)
    ensures Grew(w, w)
  {
  }

  // ---------- the plan ----------

  /** The body the archive has for a chunk file, under the one entry of its Collection. */
  function CarriedChunk(collections: seq<ArchivedCollection>, k: ChunkFileKey): Option<Bytes> {
    if collections == [] then None
    else
      var n := |collections| - 1;
      if collections[n].cid == k.parent.cid then FirstBody(k.parent.cid, collections[n].chunkFiles, k)
      else CarriedChunk(collections[..n], k)
  }

  /** Exactly the archived chunk files under what is live afterwards are in, where no file of the name was. */
  ghost predicate ChunkFilesImported(collections: seq<ArchivedCollection>, before: ChunkFiles, after: Tree) {
    forall k :: Lookup(after.chunkFiles, k) ==
                if k in before then Lookup(before, k)
                else if k.parent in LiveIds(after.files) then CarriedChunk(collections, k)
                else None
  }

  /** New files and sidecars are ones the archive has for the id. */
  ghost predicate FilesFromAny(collections: seq<ArchivedCollection>, before: Tree, after: Tree) {
    && (forall f :: f in after.files && f !in before.files ==> exists c :: c in collections && BringsFile(c, f, after.files[f], Lookup(after.sidecars, f.key)))
    && (forall k :: k in after.sidecars && k !in before.sidecars ==> exists c :: c in collections && BringsSidecar(c, k, after.sidecars[k]))
  }

  /** The file has the first representation archived under its id, and its sidecar is the one archived for it. */
  ghost predicate BringsFile(c: ArchivedCollection, f: FileKey, body: Bytes, sidecar: Option<Sidecar>) {
    && f.key.cid == c.cid && sidecar == Lookup(c.sidecars, f.key.rid)
    && exists i :: FirstAt(c.resources, f.key.rid, i) && f.contentType == c.resources[i].contentType && body == c.resources[i].body
  }

  predicate BringsSidecar(c: ArchivedCollection, k: ResourceKey, sidecar: Sidecar) {
    k.cid == c.cid && Lookup(c.sidecars, k.rid) == Some(sidecar)
  }

  ghost predicate DescriptionsFrom(collections: seq<ArchivedCollection>, before: Tree, after: Tree) {
    forall c :: c in collections ==> DescriptionFrom(c, before, after)
  }

  ghost predicate Brought(collections: seq<ArchivedCollection>, before: Tree, after: Tree) {
    && FilesFromAny(collections, before, after) && DescriptionsFrom(collections, before, after)
    && ChunkFilesImported(collections, before.chunkFiles, after)
  }

  lemma NewFileIsBrought(c: ArchivedCollection, mid: Tree, after: Tree, f: FileKey)
    requires FilesUpTo(c, |c.resources|, mid.files, after.files) && FileSidecars(c, mid, after) && f in after.files && f !in mid.files
    ensures BringsFile(c, f, after.files[f], Lookup(after.sidecars, f.key))
  {
    assert c.resources[..|c.resources|] == c.resources;
    FirstOfIsFirst(c.resources, f.key.rid);
  }

  lemma FilesFromMore(collections: seq<ArchivedCollection>, c: ArchivedCollection, before: Tree, mid: Tree, after: Tree)
    requires FilesFromAny(collections, before, mid) && Merged(mid, after) && FileSidecars(c, mid, after)
    requires FilesUpTo(c, |c.resources|, mid.files, after.files) && SidecarsFrom(c, mid.sidecars, after.sidecars)
    ensures FilesFromAny(collections + [c], before, after)
  {
    assert c in collections + [c];
    forall f | f in after.files && f !in before.files
      ensures exists x :: x in collections + [c] && BringsFile(x, f, after.files[f], Lookup(after.sidecars, f.key))
    {
      if f in mid.files {
        SidecarStays(mid, after, f);
        var x :| x in collections && BringsFile(x, f, mid.files[f], Lookup(mid.sidecars, f.key));
        assert x in collections + [c];
      } else {
        NewFileIsBrought(c, mid, after, f);
      }
    }
    forall k | k in after.sidecars && k !in before.sidecars ensures exists x :: x in collections + [c] && BringsSidecar(x, k, after.sidecars[k]) {
      if k in mid.sidecars {
        var x :| x in collections && BringsSidecar(x, k, mid.sidecars[k]);
        assert x in collections + [c];
      } else {
        assert BringsSidecar(c, k, after.sidecars[k]);
      }
    }
  }

  lemma DescriptionsFromMore(collections: seq<ArchivedCollection>, c: ArchivedCollection, before: Tree, mid: Tree, after: Tree)
    requires DescriptionsFrom(collections, before, mid) && Merged(before, mid) && Merged(mid, after) && DescriptionFrom(c, mid, after)
    requires c.cid in mid.descriptions ==> c.cid in before.descriptions
    ensures DescriptionsFrom(collections + [c], before, after)
  {
    forall x | x in collections + [c] ensures DescriptionFrom(x, before, after) {
      if x in collections { assert DescriptionFrom(x, before, mid); }
    }
  }

  lemma {:induction false} OtherCollectionsBody(cid: Cid, files: seq<ChunkFile>, k: ChunkFileKey)
    requires k.parent.cid != cid
    ensures FirstBody(cid, files, k).None?
  {
    if files != [] {
      OtherCollectionsBody(cid, files[..|files| - 1], k);
    }
  }

  lemma {:induction false} NotCarriedYet(collections: seq<ArchivedCollection>, k: ChunkFileKey)
    requires k.parent.cid !in Cids(collections)
    ensures CarriedChunk(collections, k).None?
  {
    if collections != [] {
      CidsOfOneMore(collections);
      NotCarriedYet(collections[..|collections| - 1], k);
    }
  }

  /** Under another Collection nothing becomes live. */
  lemma OthersStayDead(c: ArchivedCollection, mid: Tree, after: Tree, k: ResourceKey)
    requires Merged(mid, after) && FilesUpTo(c, |c.resources|, mid.files, after.files) && k.cid != c.cid
    ensures k in LiveIds(after.files) <==> k in LiveIds(mid.files)
  {
    HeldStays(mid, after);
  }

  lemma ChunkFilesFromMore(collections: seq<ArchivedCollection>, c: ArchivedCollection, before: ChunkFiles, mid: Tree, after: Tree)
    requires ChunkFilesImported(collections, before, mid) && c.cid !in Cids(collections) && Merged(mid, after)
    requires FilesUpTo(c, |c.resources|, mid.files, after.files)
    requires ChunkFilesUpTo(c.cid, c.chunkFiles, LiveIds(after.files), mid.chunkFiles, after.chunkFiles)
    ensures ChunkFilesImported(collections + [c], before, after)
  {
    var more := collections + [c];
    assert more[..|collections|] == collections;
    forall k ensures Lookup(after.chunkFiles, k) ==
                     if k in before then Lookup(before, k)
                     else if k.parent in LiveIds(after.files) then CarriedChunk(more, k) else None
    {
      var was := Lookup(mid.chunkFiles, k);
      assert was == if k in before then Lookup(before, k) else if k.parent in LiveIds(mid.files) then CarriedChunk(collections, k) else None;
      assert k in mid.chunkFiles <==> was.Some?;
      if k.parent.cid == c.cid {
        NotCarriedYet(collections, k);
      } else {
        OtherCollectionsBody(c.cid, c.chunkFiles, k);
        OthersStayDead(c, mid, after, k.parent);
      }
    }
  }

  /** The state after the first `n` Collections of the plan. */
  ghost predicate PlanGoneThrough(limits: Limits, collections: seq<ArchivedCollection>, n: nat, w: Work, next: Work)
    requires n <= |collections|
  {
    && Grew(w, next) && WorkView(next) == ViewAfter(collections[..n], WorkView(w)) && CountRefusal(limits, collections[..n], WorkView(w)).None?
    && Brought(collections[..n], w.tree, next.tree)
    && next.stats == R.StatsAfter(collections[..n], WorkView(w), w.stats)
  }

  lemma OneMoreBrought(collections: Plan, i: nat, before: Tree, mid: Tree, after: Tree)
    requires i < |collections| && Brought(collections[..i], before, mid) && BroughtFrom(collections[i], mid, after)
    requires Merged(before, mid) && Merged(mid, after) && mid.descriptions.Keys == before.descriptions.Keys + Cids(collections[..i])
    ensures Brought(collections[..i + 1], before, after)
  {
    assert collections[..i + 1] == collections[..i] + [collections[i]];
    PrefixOfPlan(collections, i);
    FilesFromMore(collections[..i], collections[i], before, mid, after);
    DescriptionsFromMore(collections[..i], collections[i], before, mid, after);
    ChunkFilesFromMore(collections[..i], collections[i], before.chunkFiles, mid, after);
  }

  lemma OneMoreImported(limits: Limits, collections: Plan, i: nat, w: Work, next: Work, after: Work)
    requires i < |collections| && PlanGoneThrough(limits, collections, i, w, next) && w.tree.descriptions.Keys <= w.collections
    requires CollectionRefusal(limits, collections[i], WorkView(next)).None? && CollectionImported(collections[i], next, after)
    ensures PlanGoneThrough(limits, collections, i + 1, w, after)
  {
    OneMoreView(limits, collections, i, WorkView(w), WorkView(next), WorkView(after));
    R.StatsOfOneMoreCollection(collections, i, WorkView(w), w.stats);
    MergedIds(collections[..i], WorkView(w));
    OneMoreBrought(collections, i, w.tree, next.tree, after.tree);
    GrewTransitive(w, next, after);
  }

  lemma RefusalStands(limits: Limits, collections: seq<ArchivedCollection>, i: nat, w: Work, next: Work)
    requires i < |collections| && PlanGoneThrough(limits, collections, i, w, next)
    requires CollectionRefusal(limits, collections[i], WorkView(next)).Some?
    ensures CountRefusal(limits, collections, WorkView(w)) == CollectionRefusal(limits, collections[i], WorkView(next))
  {
    ViewOfOneMore(limits, collections, WorkView(w), i);
    FirstCountStands(limits, collections, WorkView(w), i + 1);
  }

  lemma NoneImported(limits: Limits, collections: seq<ArchivedCollection>, w: Work)
    ensures PlanGoneThrough(limits, collections, 0, w, w)
  {
    assert collections[..0] == [];
  }

  /** The plan gone through, or the first count quota met and what was written by then. */
  method ImportCollections(limits: Limits, collections: Plan, w: Work) returns (res: Result<Work, Stop>)
    requires Counted(w)
    ensures var refusal := CountRefusal(limits, collections, WorkView(w));
            if refusal.Some? then res.Err? && res.error.refusal == refusal.value && Grew(w, res.error.work)
            else res.Ok? && PlanGoneThrough(limits, collections, |collections|, w, res.value)
  {
    var next := w;
    NoneImported(limits, collections, w);
    for i := 0 to |collections|
      invariant PlanGoneThrough(limits, collections, i, w, next)
    {
      var step := ImportCollection(limits, collections[i], next);
      if step.Err? {
        RefusalStands(limits, collections, i, w, next);
        GrewTransitive(w, next, step.error.work);
        return step;
      }
      OneMoreImported(limits, collections, i, w, next, step.value);
      next := step.value;
    }
    assert collections[..|collections|] == collections;
    return Ok(next);
  }

  // ---------- the import ----------

  /** Everything the archive stages, chunk sidecars included. */
  function StagedBytes(archive: Archive): nat {
    CollectionBytes(archive.collections, true)
  }

  /** Headroom is what the measured usage leaves of the capacity, and none at all refuses even an empty import. */
  predicate FitsHeadroom(limits: Limits, measured: nat, archive: Archive) {
    limits.capacity.Some? ==> measured < limits.capacity.value && measured + StagedBytes(archive) <= limits.capacity.value
  }

  /** Why an import is refused, if it is: the first offending body, then the bytes of all bodies against the
      headroom, those to be skipped included, then the first count quota met. */
  function Verdict(limits: Limits, rejects: Rejects, t: Tree, collections: set<Cid>, measured: nat, archive: Archive): Option<Refusal> {
    var offence := Offence(limits.maxUpload, rejects, t.descriptions, archive.collections, true, []);
    if offence.Some? then offence
    else if !FitsHeadroom(limits, measured, archive) then Some(QuotaExceeded)
    else CountRefusal(limits, archive.collections, WithSpacePolicy(archive.spacePolicy, ViewOf(t, collections)))
  }

  /** The archive's first file of that name. */
  predicate FirstFileAt(files: seq<ChunkFile>, k: ChunkFileKey, i: int) {
    0 <= i < |files| && ChunkFileOf(k.parent.cid, files[i]) == k && forall j :: 0 <= j < i ==> ChunkFileOf(k.parent.cid, files[j]) != k
  }

  ghost predicate ChunkFileArchived(collections: seq<ArchivedCollection>, k: ChunkFileKey, body: Bytes) {
    exists c, i :: c in collections && c.cid == k.parent.cid && FirstFileAt(c.chunkFiles, k, i) && c.chunkFiles[i].body == body
  }

  lemma {:induction false} FirstBodyIsFirst(files: seq<ChunkFile>, k: ChunkFileKey)
    ensures FirstBody(k.parent.cid, files, k).None? ==> forall j :: 0 <= j < |files| ==> ChunkFileOf(k.parent.cid, files[j]) != k
    ensures FirstBody(k.parent.cid, files, k).Some? ==> exists i :: FirstFileAt(files, k, i) && FirstBody(k.parent.cid, files, k) == Some(files[i].body)
  {
    if files != [] {
      var n := |files| - 1;
      FirstBodyIsFirst(files[..n], k);
      if FirstBody(k.parent.cid, files[..n], k).Some? {
        var i :| FirstFileAt(files[..n], k, i) && FirstBody(k.parent.cid, files[..n], k) == Some(files[..n][i].body);
        assert FirstFileAt(files, k, i);
      } else if ChunkFileOf(k.parent.cid, files[n]) == k {
        assert forall j :: 0 <= j < n ==> files[j] == files[..n][j];
        assert FirstFileAt(files, k, n);
      }
    }
  }

  lemma {:induction false} CarriedIsArchived(collections: seq<ArchivedCollection>, k: ChunkFileKey)
    requires CarriedChunk(collections, k).Some?
    ensures ChunkFileArchived(collections, k, CarriedChunk(collections, k).value)
  {
    var n := |collections| - 1;
    if collections[n].cid == k.parent.cid {
      FirstBodyIsFirst(collections[n].chunkFiles, k);
    } else {
      CarriedIsArchived(collections[..n], k);
    }
  }

  /** Every new chunk file has the body of the archive's first file of its name. */
  ghost predicate ChunkFilesArchived(collections: seq<ArchivedCollection>, before: ChunkFiles, after: ChunkFiles) {
    forall k :: k in after && k !in before ==> ChunkFileArchived(collections, k, after[k])
  }

  lemma ImportedAreArchived(collections: seq<ArchivedCollection>, before: ChunkFiles, after: Tree)
    requires ChunkFilesImported(collections, before, after)
    ensures ChunkFilesArchived(collections, before, after.chunkFiles)
  {
    forall k | k in after.chunkFiles && k !in before ensures ChunkFileArchived(collections, k, after.chunkFiles[k]) {
      assert Lookup(after.chunkFiles, k).Some?;
      CarriedIsArchived(collections, k);
    }
  }

  /** A finished import: exactly what the archive has and the destination lacks is there, counted, and reported as
      every import reports. */
  ghost predicate ImportDone(archive: Archive, before: Tree, collections: set<Cid>, after: Tree, collections': set<Cid>, stats: R.Stats) {
    && ViewOf(after, collections') == Imported(archive, ViewOf(before, collections))
    && Brought(archive.collections, before, after) && ChunkFilesArchived(archive.collections, before.chunkFiles, after.chunkFiles)
    && stats == R.Report(archive, ViewOf(before, collections))
    && |HeldIds(after)| == |HeldIds(before)| + stats.resourcesCreated
    && |after.descriptions.Keys| == |before.descriptions.Keys| + stats.collectionsCreated
  }

  function PolicedWork(policy: Option<string>, w: Work): Work {
    if policy.None? then w
    else if OfSpace in w.tree.policies then w.(stats := w.stats.(policiesSkipped := w.stats.policiesSkipped + 1))
    else w.(tree := w.tree.(policies := w.tree.policies[OfSpace := policy.value]),
            stats := w.stats.(policiesCreated := w.stats.policiesCreated + 1))
  }

  lemma PolicedMerges(policy: Option<string>, w: Work)
    ensures var t := PolicedWork(policy, w).tree;
            Merged(w.tree, t) && t == w.tree.(policies := t.policies) && HeldIds(t) == HeldIds(w.tree)
  {
  }

  lemma PolicedView(policy: Option<string>, w: Work)
    ensures var v, after := WorkView(w), PolicedWork(policy, w);
            WorkView(after) == WithSpacePolicy(policy, v) && after.stats == R.SpacePolicyStats(policy, v, w.stats)
  {
    PolicedMerges(policy, w);
  }

  lemma PolicedWorkGrows(policy: Option<string>, w: Work)
    ensures Grew(w, PolicedWork(policy, w)) && WorkView(PolicedWork(policy, w)) == WithSpacePolicy(policy, WorkView(w))
    ensures PolicedWork(policy, w).tree == w.tree.(policies := PolicedWork(policy, w).tree.policies)
    ensures PolicedWork(policy, w).stats == R.SpacePolicyStats(policy, WorkView(w), w.stats)
  {
    PolicedMerges(policy, w);
    PolicedView(policy, w);
  }

  lemma CountedView(w: Work)
    requires Counted(w)
    ensures WorkView(w) == ViewOf(w.tree, w.collections)
  {
  }

  lemma BroughtFromPoliced(collections: seq<ArchivedCollection>, before: Tree, policed: Tree, after: Tree)
    requires policed == before.(policies := policed.policies) && Brought(collections, policed, after)
    ensures Brought(collections, before, after)
  {
    forall c | c in collections ensures DescriptionFrom(c, before, after) {
      assert DescriptionFrom(c, policed, after);
    }
  }

  lemma DoneByPlan(limits: Limits, archive: Archive, w: Work, next: Work)
    requires Counted(w) && w.stats == R.NO_STATS
    requires PlanGoneThrough(limits, archive.collections, |archive.collections|, PolicedWork(archive.spacePolicy, w), next)
    ensures ImportDone(archive, w.tree, w.collections, next.tree, next.collections, next.stats) && Grew(w, next)
  {
    var policed := PolicedWork(archive.spacePolicy, w);
    PolicedWorkGrows(archive.spacePolicy, w);
    assert archive.collections[..|archive.collections|] == archive.collections;
    GrewTransitive(w, policed, next);
    BroughtFromPoliced(archive.collections, w.tree, policed.tree, next.tree);
    ImportedAreArchived(archive.collections, w.tree.chunkFiles, next.tree);
    CountedView(w);
    CountedView(next);
  }

  /** The apply loop, kept as far as it got. */
  method Apply(limits: Limits, archive: Archive, w: Work) returns (res: Result<Work, Stop>)
    requires Counted(w) && w.stats == R.NO_STATS
    ensures var refusal := CountRefusal(limits, archive.collections, WithSpacePolicy(archive.spacePolicy, ViewOf(w.tree, w.collections)));
            if refusal.Some? then res.Err? && res.error.refusal == refusal.value && Grew(w, res.error.work)
            else res.Ok? && Grew(w, res.value) &&
                 ImportDone(archive, w.tree, w.collections, res.value.tree, res.value.collections, res.value.stats)
  {
    PolicedWorkGrows(archive.spacePolicy, w);
    CountedView(w);
    var policed := PolicedWork(archive.spacePolicy, w);
    res := ImportCollections(limits, archive.collections, policed);
    if res.Err? {
      GrewTransitive(w, policed, res.error.work);
    } else {
      DoneByPlan(limits, archive, w, res.value);
    }
  }

  /** `measured` is what the disk-usage measurement says the Space holds. */
  method Import(limits: Limits, rejects: Rejects, archive: Archive, t: Tree, collections: set<Cid>, measured: nat)
    returns (res: Result<R.Stats, Refusal>, after: Tree, collections': set<Cid>)
    requires t.descriptions.Keys <= collections
    ensures (if res.Err? then Some(res.error) else None) == Verdict(limits, rejects, t, collections, measured, archive)
    ensures Merged(t, after) && after.descriptions.Keys <= collections'
    ensures res.Err? && !res.error.TooManyCollections? && !res.error.TooManyResources? ==> after == t && collections' == collections
    ensures res.Ok? ==> ImportDone(archive, t, collections, after, collections', res.value)
  {
    after, collections' := t, collections;
    var incoming := AssertBodiesFit(limits.maxUpload, rejects, t.descriptions, archive.collections, true, []);
    if incoming.Err? {
      return Err(incoming.error), t, collections;
    }
    if limits.capacity.Some? && (measured >= limits.capacity.value || incoming.value > limits.capacity.value - measured) {
      return Err(QuotaExceeded), t, collections;
    }
    var applied := Apply(limits, archive, Work(t, collections, |LiveIds(t.files)|, R.NO_STATS));
    if applied.Err? {
      OnlyCountsStop(limits, archive.collections, WithSpacePolicy(archive.spacePolicy, ViewOf(t, collections)));
      return Err(applied.error.refusal), applied.error.work.tree, applied.error.work.collections;
    }
    return Ok(applied.value.stats), applied.value.tree, applied.value.collections;
  }

  lemma {:induction false} OnlyCountsStop(limits: Limits, collections: seq<ArchivedCollection>, v: View)
    ensures var refusal := CountRefusal(limits, collections, v);
            refusal.Some? ==> refusal.value.TooManyCollections? || refusal.value.TooManyResources?
  {
    if collections != [] {
      OnlyCountsStop(limits, collections[..|collections| - 1], v);
    }
  }

  // ---------- what a finished import has done ----------

  lemma {:induction false} CarriedIff(collections: Plan, k: ChunkFileKey)
    ensures CarriedChunk(collections, k).Some? <==> exists c, f :: c in collections && f in c.chunkFiles && ChunkFileOf(c.cid, f) == k
    decreases |collections|
  {
    if collections != [] {
      var n := |collections| - 1;
      var c, rest := collections[n], collections[..n];
      PrefixOfPlan(collections, n);
      assert collections == rest + [c];
      if c.cid == k.parent.cid {
        FirstBodyIsThere(c.cid, c.chunkFiles, k);
        assert forall d :: d in rest ==> d.cid in Cids(rest);
      } else {
        CarriedIff(rest, k);
      }
    }
  }

  /** A chunk file is new exactly when the archive has it, no file of the name was there, and its Resource is live
      once the archive's Resources are in. */
  lemma ChunkFileIsNewIff(archive: Archive, before: Tree, after: Tree, k: ChunkFileKey)
    requires Brought(archive.collections, before, after)
    ensures k in after.chunkFiles && k !in before.chunkFiles <==>
            && k !in before.chunkFiles && k.parent in LiveIds(after.files)
            && exists c, f :: c in archive.collections && f in c.chunkFiles && ChunkFileOf(c.cid, f) == k
  {
    CarriedIff(archive.collections, k);
    assert k in after.chunkFiles <==> Lookup(after.chunkFiles, k).Some?;
  }

  /** So a chunk that is held gains a second representation exactly when its Resource is live and the archive has
      the chunk under a media type that is not there. */
  lemma SecondRepresentationIff(archive: Archive, before: Tree, after: Tree, parent: ResourceKey, index: nat, held: string, other: string)
    requires Merged(before, after) && Brought(archive.collections, before, after) && other != held
    requires ChunkFileKey(parent, index, Some(held)) in before.chunkFiles && ChunkFileKey(parent, index, Some(other)) !in before.chunkFiles
    ensures var mine, theirs := ChunkFileKey(parent, index, Some(held)), ChunkFileKey(parent, index, Some(other));
            && mine in after.chunkFiles && after.chunkFiles[mine] == before.chunkFiles[mine]
            && (theirs in after.chunkFiles <==>
                  parent in LiveIds(after.files) &&
                  exists c, f :: c in archive.collections && f in c.chunkFiles && ChunkFileOf(c.cid, f) == theirs)
  {
    ChunkFileIsNewIff(archive, before, after, ChunkFileKey(parent, index, Some(other)));
  }

  /** A policy the Space holds changes in an import exactly when what it is for is missing from the Space and the
      archive carries another with it. */
  lemma PolicyChangesIff(archive: Archive, before: Tree, collections: set<Cid>, after: Tree, collections': set<Cid>, k: PolicyKey)
    requires ViewOf(after, collections') == Imported(archive, ViewOf(before, collections)) && k in before.policies
    ensures k in after.policies
    ensures after.policies[k] != before.policies[k] <==>
            !Governed(ViewOf(before, collections), k) && Carried(archive, k).Some? && Carried(archive, k).value != before.policies[k]
  {
    HeldPolicyChangesIff(archive, ViewOf(before, collections), k);
  }

  // ---------- importing again ----------

  lemma SameDescriptions(collections: seq<ArchivedCollection>, before: Tree, after: Tree)
    requires Merged(before, after) && DescriptionsFrom(collections, before, after)
    ensures forall c :: c in collections ==> EffectiveDescription(after.descriptions, c) == EffectiveDescription(before.descriptions, c)
  {
    forall c | c in collections ensures EffectiveDescription(after.descriptions, c) == EffectiveDescription(before.descriptions, c) {
      assert DescriptionFrom(c, before, after);
    }
  }

  /** After a finished import the same archive passes every check but one, whatever the quotas on counts. */
  lemma SecondVerdict(limits: Limits, rejects: Rejects, archive: Archive, before: Tree, collections: set<Cid>, measured: nat,
                      after: Tree, collections': set<Cid>, later: nat)
    requires before.descriptions.Keys <= collections && Verdict(limits, rejects, before, collections, measured, archive).None?
    requires Merged(before, after) && Brought(archive.collections, before, after)
    requires ViewOf(after, collections') == Imported(archive, ViewOf(before, collections))
    ensures Verdict(limits, rejects, after, collections', later, archive) == if FitsHeadroom(limits, later, archive) then None else Some(QuotaExceeded)
  {
    SameDescriptions(archive.collections, before, after);
    SameOffence(limits.maxUpload, rejects, before.descriptions, after.descriptions, archive.collections, true);
    SecondImportIsIdle(limits, archive, ViewOf(before, collections));
  }

  lemma SameChunkFiles(archive: Archive, before: Tree, once: Tree, twice: Tree)
    requires Brought(archive.collections, before, once) && Brought(archive.collections, once, twice)
    requires once.files == twice.files && Kept(once.chunkFiles, twice.chunkFiles)
    ensures twice.chunkFiles.Keys == once.chunkFiles.Keys
  {
    forall k | k in twice.chunkFiles ensures k in once.chunkFiles {
      ChunkFileIsNewIff(archive, once, twice, k);
      ChunkFileIsNewIff(archive, before, once, k);
      assert k in before.chunkFiles ==> Lookup(once.chunkFiles, k) == Lookup(before.chunkFiles, k);
    }
  }

  lemma SameFiles(once: Tree, twice: Tree)
    requires Merged(once, twice) && HeldIds(twice) == HeldIds(once)
    ensures twice.files == once.files
  {
    forall f | f in twice.files ensures f in once.files {
      assert f.key in LiveIds(twice.files);
    }
  }

  /** And if it is not refused it creates nothing and changes nothing. */
  lemma SecondImportChangesNothing(limits: Limits, archive: Archive, before: Tree, collections: set<Cid>, once: Tree, collections': set<Cid>,
                                   twice: Tree, collections'': set<Cid>, stats: R.Stats)
    requires before.descriptions.Keys <= collections
    requires ViewOf(once, collections') == Imported(archive, ViewOf(before, collections)) && Brought(archive.collections, before, once)
    requires Merged(once, twice) && ImportDone(archive, once, collections', twice, collections'', stats)
    ensures twice == once && collections'' == collections' && R.NothingCreated(stats)
  {
    SecondImportIsIdle(limits, archive, ViewOf(before, collections));
    R.SecondReportIsIdle(archive, ViewOf(before, collections));
    assert ViewOf(twice, collections'') == ViewOf(once, collections');
    SameFiles(once, twice);
    SameChunkFiles(archive, before, once, twice);
    NothingMerged(once, twice);
  }

  class FileSystemSpace {
    const limits: Limits
    var tree: Tree
    var collections: set<Cid>

    /** A described Collection has a directory. */
    predicate Valid()
      reads this
    {
      tree.descriptions.Keys <= collections
    }

    constructor (limits: Limits)
      ensures Valid() && tree == Tree(map[], map[], map[], map[], map[], map[]) && collections == {} && this.limits == limits
    {
      this.limits := limits;
      tree, collections := Tree(map[], map[], map[], map[], map[], map[]), {};
    }

    /** The whole import, `measured` being what the Space holds on disk: finished or refused exactly as its verdict
        says. Refused for a body or for headroom it leaves no trace; refused for a count it leaves what it had
        written, and that too is a merge. */
    method ImportSpace(archive: Archive, rejects: Rejects, measured: nat) returns (res: Result<R.Stats, Refusal>)
      requires Valid()
      modifies this
      ensures Valid()
      ensures (if res.Err? then Some(res.error) else None) == Verdict(limits, rejects, old(tree), old(collections), measured, archive)
      ensures Merged(old(tree), tree)
      ensures res.Err? && !res.error.TooManyCollections? && !res.error.TooManyResources? ==>
                tree == old(tree) && collections == old(collections)
      ensures res.Ok? ==> ImportDone(archive, old(tree), old(collections), tree, collections, res.value)
    {
      var after, directories;
      res, after, directories := Import(limits, rejects, archive, tree, collections, measured);
      tree, collections := after, directories;
    }

    /** Importing an archive again creates nothing and changes nothing; it is refused, and then for the capacity,
        exactly when its bytes do not fit the headroom by then. */
    method ImportTwice(archive: Archive, rejects: Rejects, measured: nat, later: nat)
      returns (first: Result<R.Stats, Refusal>, second: Result<R.Stats, Refusal>, ghost once: Tree)
      requires Valid()
      modifies this
      ensures Merged(old(tree), once)
      ensures first.Ok? ==> tree == once && if FitsHeadroom(limits, later, archive) then second.Ok? && R.NothingCreated(second.value)
                                            else second == Err(QuotaExceeded)
    {
      ghost var before, directories := tree, collections;
      first := ImportSpace(archive, rejects, measured);
      once := tree;
      ghost var directories' := collections;
      second := ImportSpace(archive, rejects, later);
      if first.Ok? {
        SecondVerdict(limits, rejects, archive, before, directories, measured, once, directories', later);
        if second.Ok? {
          SecondImportChangesNothing(limits, archive, before, directories, once, directories', tree, collections, second.value);
        }
      }
    }
  }

  // ---------- a chunk with two representations ----------

  /** An archive of one Resource with one chunk. */
  function OneChunkArchive(contentType: string, bytes: Bytes): Archive {
    var c := ArchivedCollection("c", "", None, None, [ArchivedResource("r", "text/plain", "")], map[], map[],
                                [ChunkFile("r", 0, Some(contentType), None, bytes)]);
    assert OneEntryEach([c]);
    Archive(None, [c])
  }

  lemma OneChunkVerdict(contentType: string, bytes: Bytes, t: Tree, collections: set<Cid>)
    ensures Verdict(Limits(None, None, None, None), iset{}, t, collections, 0, OneChunkArchive(contentType, bytes)).None?
  {
    var limits := Limits(None, None, None, None);
    var archive := OneChunkArchive(contentType, bytes);
    var c := archive.collections[0];
    assert archive.collections == [c];
    BodiesFitIff(None, iset{}, t.descriptions, archive.collections, true, []);
    assert [c][..0] == [];
    assert CountRefusal(limits, [c], WithSpacePolicy(None, ViewOf(t, collections))).None?;
  }

  lemma OneChunkArrives(contentType: string, bytes: Bytes, before: Tree, collections: set<Cid>, after: Tree, collections': set<Cid>)
    requires before.descriptions.Keys <= collections && ResourceKey("c", "r") !in before.sidecars
    requires Merged(before, after) && Brought(OneChunkArchive(contentType, bytes).collections, before, after)
    requires ViewOf(after, collections') == Imported(OneChunkArchive(contentType, bytes), ViewOf(before, collections))
    ensures ResourceKey("c", "r") in LiveIds(after.files) && ResourceKey("c", "r") !in after.sidecars
    ensures ChunkFileKey(ResourceKey("c", "r"), 0, Some(contentType)) in after.chunkFiles
  {
    var archive, k := OneChunkArchive(contentType, bytes), ResourceKey("c", "r");
    var c := archive.collections[0];
    assert archive.collections == [c] && c.resources[0] in c.resources && c.chunkFiles[0] in c.chunkFiles;
    MergedIds(archive.collections, WithSpacePolicy(archive.spacePolicy, ViewOf(before, collections)));
    KeysAreArchived(archive.collections, c);
    assert k in KeysOf("c", RidsOf(c.resources)) && k in HeldIds(after);
    assert ChunkFileOf(c.cid, c.chunkFiles[0]) == ChunkFileKey(k, 0, Some(contentType));
    if ChunkFileKey(k, 0, Some(contentType)) !in before.chunkFiles {
      ChunkFileIsNewIff(archive, before, after, ChunkFileKey(k, 0, Some(contentType)));
    }
  }

  /** Where this backend and Postgres part ways: a chunk archived under another media type than the one held is
      a file of another name, so it goes in beside the first and the chunk has two representations. */
  method ChunkGetsTwoRepresentations(mine: Bytes, theirs: Bytes) returns (target: FileSystemSpace, first: Result<R.Stats, Refusal>, second: Result<R.Stats, Refusal>)
    ensures first.Ok? && second.Ok?
    ensures ChunkFileKey(ResourceKey("c", "r"), 0, Some("text/plain")) in target.tree.chunkFiles
    ensures ChunkFileKey(ResourceKey("c", "r"), 0, Some("application/octet-stream")) in target.tree.chunkFiles
  {
    target := new FileSystemSpace(Limits(None, None, None, None));
    ghost var before, directories := target.tree, target.collections;
    OneChunkVerdict("text/plain", mine, before, directories);
    first := target.ImportSpace(OneChunkArchive("text/plain", mine), iset{}, 0);
    ghost var once, directories' := target.tree, target.collections;
    OneChunkArrives("text/plain", mine, before, directories, once, directories');
    OneChunkVerdict("application/octet-stream", theirs, once, directories');
    second := target.ImportSpace(OneChunkArchive("application/octet-stream", theirs), iset{}, 0);
    OneChunkArrives("application/octet-stream", theirs, once, directories', target.tree, target.collections);
  }
}
