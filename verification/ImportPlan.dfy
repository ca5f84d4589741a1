/**
 A Space archive as the importers see it after parsing, the checks both make before writing anything, and the
 merge both carry out: which rows and policies an import adds, and when a count quota refuses it.
 */
module ImportPlan {
  import opened Wrappers

  type Bytes = string
  type Cid = string
  type Rid = string

  /** The metadata sidecar of a Resource, a member it lacks being `None`. */
  datatype Sidecar = Sidecar(
    version: Option<nat>, metaVersion: Option<nat>, custom: Option<string>, createdAt: Option<string>, updatedAt: Option<string>,
    createdBy: Option<string>, epoch: Option<string>, deleted: bool, contentType: Option<string>)

  datatype ArchivedResource = ArchivedResource(rid: Rid, contentType: string, body: Bytes)

  /** One file of a chunk directory: a representation has a content type, a sidecar may have a version. */
  datatype ChunkFile = ChunkFile(rid: Rid, index: nat, contentType: Option<string>, version: Option<nat>, body: Bytes)

  datatype ArchivedCollection = ArchivedCollection(
    cid: Cid, description: string, metadata: Option<string>, policy: Option<string>,
    resources: seq<ArchivedResource>, resourcePolicies: map<Rid, string>, sidecars: map<Rid, Sidecar>, chunkFiles: seq<ChunkFile>)

  predicate OneEntryEach(collections: seq<ArchivedCollection>) {
    forall i, j :: 0 <= i < j < |collections| ==> collections[i].cid != collections[j].cid
  }

  /** The plan stages each Collection directory of the archive once. */
  type Plan = collections: seq<ArchivedCollection> | OneEntryEach(collections) witness []

  datatype Archive = Archive(spacePolicy: Option<string>, collections: Plan)

  datatype ResourceKey = ResourceKey(cid: Cid, rid: Rid)

  datatype PolicyKey = OfSpace | OfCollection(cid: Cid) | OfResource(key: ResourceKey)

  datatype Refusal = PayloadTooLarge | EncryptionMismatch | QuotaExceeded | TooManyCollections | TooManyResources

  datatype Limits = Limits(capacity: Option<nat>, maxUpload: Option<nat>, maxCollections: Option<nat>, maxResources: Option<nat>)

  /** Everything in `a` is in `b`, unchanged. */
  ghost predicate Kept<K, V>(a: map<K, V>, b: map<K, V>) {
    forall k :: k in a ==> k in b && b[k] == a[k]
  }

  function Lookup<K, V>(m: map<K, V>, k: K): Option<V> {
    if k in m then Some(m[k]) else None
  }

  // ---------- before anything is written ----------

  /** The bodies that fail the encryption check of a Collection with the given description. */
  type Rejects = iset<(string, ArchivedResource)>

  predicate TooLarge(max: Option<nat>, body: Bytes) {
    max.Some? && |body| > max.value
  }

  predicate AnyTooLarge(max: Option<nat>, bodies: seq<Bytes>) {
    exists i :: 0 <= i < |bodies| && TooLarge(max, bodies[i])
  }

  /** The description that decides: the destination's where it has one, else the archive's. */
  function EffectiveDescription(descriptions: map<Cid, string>, c: ArchivedCollection): string {
    if c.cid in descriptions then descriptions[c.cid] else c.description
  }

  function BodyOffence(max: Option<nat>, rejects: Rejects, description: string, r: ArchivedResource): Option<Refusal> {
    if TooLarge(max, r.body) then Some(PayloadTooLarge)
    else if (description, r) in rejects then Some(EncryptionMismatch)
    else None
  }

  function ResourcesOffence(max: Option<nat>, rejects: Rejects, description: string, resources: seq<ArchivedResource>): Option<Refusal> {
    if resources == [] then None
    else
      var earlier := ResourcesOffence(max, rejects, description, resources[..|resources| - 1]);
      if earlier.Some? then earlier else BodyOffence(max, rejects, description, resources[|resources| - 1])
  }

  function ChunkBodies(files: seq<ChunkFile>): seq<Bytes> {
    seq(|files|, i requires 0 <= i < |files| => files[i].body)
  }

  /** `withChunks` tallies each Collection's chunk files right after its Resources. */
  function CollectionOffence(max: Option<nat>, rejects: Rejects, descriptions: map<Cid, string>, c: ArchivedCollection, withChunks: bool): Option<Refusal> {
    var first := ResourcesOffence(max, rejects, EffectiveDescription(descriptions, c), c.resources);
    if first.None? && withChunks && AnyTooLarge(max, ChunkBodies(c.chunkFiles)) then Some(PayloadTooLarge) else first
  }

  /** The offence of the first offending body, in archive order. */
  function PlanOffence(max: Option<nat>, rejects: Rejects, descriptions: map<Cid, string>, collections: seq<ArchivedCollection>, withChunks: bool): Option<Refusal> {
    if collections == [] then None
    else
      var n := |collections| - 1;
      var earlier := PlanOffence(max, rejects, descriptions, collections[..n], withChunks);
      if earlier.Some? then earlier else CollectionOffence(max, rejects, descriptions, collections[n], withChunks)
  }

  function Offence(max: Option<nat>, rejects: Rejects, descriptions: map<Cid, string>, collections: seq<ArchivedCollection>, withChunks: bool,
                   trailing: seq<Bytes>): Option<Refusal> {
    var first := PlanOffence(max, rejects, descriptions, collections, withChunks);
    if first.None? && AnyTooLarge(max, trailing) then Some(PayloadTooLarge) else first
  }

  function BytesOf(bodies: seq<Bytes>): nat {
    if bodies == [] then 0 else BytesOf(bodies[..|bodies| - 1]) + |bodies[|bodies| - 1]|
  }

  function BodyBytes(resources: seq<ArchivedResource>): nat {
    if resources == [] then 0 else BodyBytes(resources[..|resources| - 1]) + |resources[|resources| - 1].body|
  }

  function CollectionBytes(collections: seq<ArchivedCollection>, withChunks: bool): nat {
    if collections == [] then 0
    else
      var n := |collections| - 1;
      CollectionBytes(collections[..n], withChunks) + BodyBytes(collections[n].resources) +
      if withChunks then BytesOf(ChunkBodies(collections[n].chunkFiles)) else 0
  }

  /** The pass over bare bodies: a cap and a running total. */
  method TallyBodies(max: Option<nat>, bodies: seq<Bytes>, before: nat) returns (res: Result<nat, Refusal>)
    ensures res == if AnyTooLarge(max, bodies) then Err(PayloadTooLarge) else Ok(before + BytesOf(bodies))
  {
    var total := before;
    for i := 0 to |bodies|
      invariant total == before + BytesOf(bodies[..i])
      invariant forall j :: 0 <= j < i ==> !TooLarge(max, bodies[j])
    {
      if TooLarge(max, bodies[i]) {
        return Err(PayloadTooLarge);
      }
      assert bodies[..i + 1][..i] == bodies[..i];
      total := total + |bodies[i]|;
    }
    assert bodies[..|bodies|] == bodies;
    return Ok(total);
  }

  method TallyResources(max: Option<nat>, rejects: Rejects, description: string, resources: seq<ArchivedResource>, before: nat)
    returns (res: Result<nat, Refusal>)
    ensures var offence := ResourcesOffence(max, rejects, description, resources);
            res == if offence.Some? then Err(offence.value) else Ok(before + BodyBytes(resources))
  {
    var total := before;
    for i := 0 to |resources|
      invariant total == before + BodyBytes(resources[..i])
      invariant ResourcesOffence(max, rejects, description, resources[..i]).None?
    {
      assert resources[..i + 1][..i] == resources[..i];
      if TooLarge(max, resources[i].body) {
        FirstOffenceStands(max, rejects, description, resources, i + 1);
        return Err(PayloadTooLarge);
      }
      if (description, resources[i]) in rejects {
        FirstOffenceStands(max, rejects, description, resources, i + 1);
        return Err(EncryptionMismatch);
      }
      total := total + |resources[i].body|;
    }
    assert resources[..|resources|] == resources;
    return Ok(total);
  }

  lemma {:induction false} FirstOffenceStands(max: Option<nat>, rejects: Rejects, description: string, resources: seq<ArchivedResource>, n: nat)
    requires n <= |resources| && ResourcesOffence(max, rejects, description, resources[..n]).Some?
    ensures ResourcesOffence(max, rejects, description, resources) == ResourcesOffence(max, rejects, description, resources[..n])
    decreases |resources| - n
  {
    if n < |resources| {
      assert resources[..n + 1][..n] == resources[..n];
      FirstOffenceStands(max, rejects, description, resources, n + 1);
    } else {
      assert resources[..n] == resources;
    }
  }

  lemma {:induction false} FirstCollectionStands(max: Option<nat>, rejects: Rejects, descriptions: map<Cid, string>,
                                                 collections: seq<ArchivedCollection>, withChunks: bool, n: nat)
    requires n <= |collections| && PlanOffence(max, rejects, descriptions, collections[..n], withChunks).Some?
    ensures PlanOffence(max, rejects, descriptions, collections, withChunks) == PlanOffence(max, rejects, descriptions, collections[..n], withChunks)
    decreases |collections| - n
  {
    if n < |collections| {
      assert collections[..n + 1][..n] == collections[..n];
      FirstCollectionStands(max, rejects, descriptions, collections, withChunks, n + 1);
    } else {
      assert collections[..n] == collections;
    }
  }

  method TallyCollection(max: Option<nat>, rejects: Rejects, descriptions: map<Cid, string>, c: ArchivedCollection, withChunks: bool, before: nat)
    returns (res: Result<nat, Refusal>)
    ensures var offence := CollectionOffence(max, rejects, descriptions, c, withChunks);
            res == if offence.Some? then Err(offence.value)
                   else Ok(before + BodyBytes(c.resources) + if withChunks then BytesOf(ChunkBodies(c.chunkFiles)) else 0)
  {
    res := TallyResources(max, rejects, EffectiveDescription(descriptions, c), c.resources, before);
    if res.Ok? && withChunks {
      res := TallyBodies(max, ChunkBodies(c.chunkFiles), res.value);
    }
  }

  lemma OneMoreCollection(max: Option<nat>, rejects: Rejects, descriptions: map<Cid, string>, collections: seq<ArchivedCollection>,
                          withChunks: bool, i: nat)
    requires i < |collections|
    ensures CollectionBytes(collections[..i + 1], withChunks) ==
            CollectionBytes(collections[..i], withChunks) + BodyBytes(collections[i].resources) +
            if withChunks then BytesOf(ChunkBodies(collections[i].chunkFiles)) else 0
    ensures PlanOffence(max, rejects, descriptions, collections[..i + 1], withChunks) ==
            var earlier := PlanOffence(max, rejects, descriptions, collections[..i], withChunks);
            if earlier.Some? then earlier else CollectionOffence(max, rejects, descriptions, collections[i], withChunks)
  {
    assert collections[..i + 1][..i] == collections[..i];
  }

  /** Nothing wrong with the first `n` Collections, and what they stage. */
  predicate Tallied(max: Option<nat>, rejects: Rejects, descriptions: map<Cid, string>, collections: seq<ArchivedCollection>,
                    withChunks: bool, n: nat, total: nat)
    requires n <= |collections|
  {
    PlanOffence(max, rejects, descriptions, collections[..n], withChunks).None? && total == CollectionBytes(collections[..n], withChunks)
  }

  lemma OneMoreTallied(max: Option<nat>, rejects: Rejects, descriptions: map<Cid, string>, collections: seq<ArchivedCollection>,
                       withChunks: bool, i: nat, before: nat, total: nat)
    requires i < |collections| && Tallied(max, rejects, descriptions, collections, withChunks, i, before)
    ensures var c := collections[i];
            var offence := CollectionOffence(max, rejects, descriptions, c, withChunks);
            if offence.Some? then PlanOffence(max, rejects, descriptions, collections, withChunks) == offence
            else total == before + BodyBytes(c.resources) + (if withChunks then BytesOf(ChunkBodies(c.chunkFiles)) else 0) ==>
                   Tallied(max, rejects, descriptions, collections, withChunks, i + 1, total)
  {
    OneMoreCollection(max, rejects, descriptions, collections, withChunks, i);
    if CollectionOffence(max, rejects, descriptions, collections[i], withChunks).Some? {
      FirstCollectionStands(max, rejects, descriptions, collections, withChunks, i + 1);
    }
  }

  method TallyPlan(max: Option<nat>, rejects: Rejects, descriptions: map<Cid, string>, collections: seq<ArchivedCollection>, withChunks: bool)
    returns (res: Result<nat, Refusal>)
    ensures var offence := PlanOffence(max, rejects, descriptions, collections, withChunks);
            res == if offence.Some? then Err(offence.value) else Ok(CollectionBytes(collections, withChunks))
  {
    var total := 0;
    for i := 0 to |collections|
      invariant Tallied(max, rejects, descriptions, collections, withChunks, i, total)
    {
      var step := TallyCollection(max, rejects, descriptions, collections[i], withChunks, total);
      OneMoreTallied(max, rejects, descriptions, collections, withChunks, i, total, if step.Ok? then step.value else 0);
      if step.Err? {
        return step;
      }
      total := step.value;
    }
    assert collections[..|collections|] == collections;
    return Ok(total);
  }

  /** The shared pre-flight: the first offence in order, or the sum of all staged bodies, those that will be
      skipped included. */
  method AssertBodiesFit(max: Option<nat>, rejects: Rejects, descriptions: map<Cid, string>, collections: seq<ArchivedCollection>,
                         withChunks: bool, trailing: seq<Bytes>)
    returns (res: Result<nat, Refusal>)
    ensures var offence := Offence(max, rejects, descriptions, collections, withChunks, trailing);
            res == if offence.Some? then Err(offence.value) else Ok(CollectionBytes(collections, withChunks) + BytesOf(trailing))
  {
    res := TallyPlan(max, rejects, descriptions, collections, withChunks);
    if res.Ok? {
      res := TallyBodies(max, trailing, res.value);
    }
  }

  predicate ResourceFits(max: Option<nat>, rejects: Rejects, description: string, r: ArchivedResource) {
    !TooLarge(max, r.body) && (description, r) !in rejects
  }

  predicate CollectionFits(max: Option<nat>, rejects: Rejects, descriptions: map<Cid, string>, c: ArchivedCollection, withChunks: bool) {
    && (forall r :: r in c.resources ==> ResourceFits(max, rejects, EffectiveDescription(descriptions, c), r))
    && (withChunks ==> !AnyTooLarge(max, ChunkBodies(c.chunkFiles)))
  }

  lemma {:induction false} ResourcesFitIff(max: Option<nat>, rejects: Rejects, description: string, resources: seq<ArchivedResource>)
    ensures ResourcesOffence(max, rejects, description, resources).None? <==>
            forall r :: r in resources ==> ResourceFits(max, rejects, description, r)
  {
    if resources != [] {
      var n := |resources| - 1;
      assert resources == resources[..n] + [resources[n]];
      ResourcesFitIff(max, rejects, description, resources[..n]);
      assert ResourcesOffence(max, rejects, description, resources).None? <==>
             ResourcesOffence(max, rejects, description, resources[..n]).None? && ResourceFits(max, rejects, description, resources[n]);
    }
  }

  lemma {:induction false} PlanFitsIff(max: Option<nat>, rejects: Rejects, descriptions: map<Cid, string>,
                                       collections: seq<ArchivedCollection>, withChunks: bool)
    ensures PlanOffence(max, rejects, descriptions, collections, withChunks).None? <==>
            forall c :: c in collections ==> CollectionFits(max, rejects, descriptions, c, withChunks)
  {
    if collections != [] {
      var n := |collections| - 1;
      assert collections == collections[..n] + [collections[n]];
      PlanFitsIff(max, rejects, descriptions, collections[..n], withChunks);
      ResourcesFitIff(max, rejects, EffectiveDescription(descriptions, collections[n]), collections[n].resources);
      assert PlanOffence(max, rejects, descriptions, collections, withChunks).None? <==>
             PlanOffence(max, rejects, descriptions, collections[..n], withChunks).None? &&
             CollectionFits(max, rejects, descriptions, collections[n], withChunks);
    }
  }

  /** The pre-flight passes exactly when every body, skipped ones included, is within the upload cap, and every
      Resource body conforms to the encryption of the Collection it is for. */
  lemma BodiesFitIff(max: Option<nat>, rejects: Rejects, descriptions: map<Cid, string>, collections: seq<ArchivedCollection>,
                     withChunks: bool, trailing: seq<Bytes>)
    ensures Offence(max, rejects, descriptions, collections, withChunks, trailing).None? <==>
            (forall c :: c in collections ==> CollectionFits(max, rejects, descriptions, c, withChunks)) && !AnyTooLarge(max, trailing)
  {
    PlanFitsIff(max, rejects, descriptions, collections, withChunks);
  }

  /** Which, spelled out, is: no body is longer than the cap, and no Resource body is one that the description in force,
      the destination's own where it has one, rejects. */
  lemma BodiesFitExactly(max: Option<nat>, rejects: Rejects, descriptions: map<Cid, string>, collections: seq<ArchivedCollection>,
                         withChunks: bool, trailing: seq<Bytes>)
    ensures Offence(max, rejects, descriptions, collections, withChunks, trailing).None? <==>
            && (forall c, r :: c in collections && r in c.resources ==>
                  && (max.Some? ==> |r.body| <= max.value)
                  && (if c.cid in descriptions then descriptions[c.cid] else c.description, r) !in rejects)
            && (withChunks ==> forall c, f :: c in collections && f in c.chunkFiles ==> (max.Some? ==> |f.body| <= max.value))
            && (forall body :: body in trailing ==> (max.Some? ==> |body| <= max.value))
  {
    BodiesFitIff(max, rejects, descriptions, collections, withChunks, trailing);
    ChunksFitExactly(max, trailing);
    forall c | c in collections
      ensures !AnyTooLarge(max, ChunkBodies(c.chunkFiles)) <==> forall f :: f in c.chunkFiles ==> (max.Some? ==> |f.body| <= max.value)
    {
      ChunksFitExactly(max, ChunkBodies(c.chunkFiles));
      assert forall i :: 0 <= i < |c.chunkFiles| ==> ChunkBodies(c.chunkFiles)[i] == c.chunkFiles[i].body;
      if !AnyTooLarge(max, ChunkBodies(c.chunkFiles)) {
        forall f | f in c.chunkFiles && max.Some? ensures |f.body| <= max.value {
          var i :| 0 <= i < |c.chunkFiles| && c.chunkFiles[i] == f;
          assert ChunkBodies(c.chunkFiles)[i] in ChunkBodies(c.chunkFiles);
        }
      }
    }
  }

  lemma ChunksFitExactly(max: Option<nat>, bodies: seq<Bytes>)
    ensures !AnyTooLarge(max, bodies) <==> forall body :: body in bodies ==> (max.Some? ==> |body| <= max.value)
  {
    if !AnyTooLarge(max, bodies) {
      forall body | body in bodies && max.Some? ensures |body| <= max.value {
        var i :| 0 <= i < |bodies| && bodies[i] == body;
        assert !TooLarge(max, bodies[i]);
      }
    }
  }

  /** The offence turns on the descriptions in force, and on nothing else of the destination. */
  lemma {:induction false} SameOffence(max: Option<nat>, rejects: Rejects, before: map<Cid, string>, after: map<Cid, string>, collections: seq<ArchivedCollection>,
                                       withChunks: bool)
    requires forall c :: c in collections ==> EffectiveDescription(after, c) == EffectiveDescription(before, c)
    ensures PlanOffence(max, rejects, after, collections, withChunks) == PlanOffence(max, rejects, before, collections, withChunks)
  {
    if collections != [] {
      var n := |collections| - 1;
      assert forall c :: c in collections[..n] ==> c in collections;
      assert collections[n] in collections;
      SameOffence(max, rejects, before, after, collections[..n], withChunks);
    }
  }

  // ---------- the merge ----------

  /** What decides which parts of an archive go in: the Collection ids there, those described, the Resource ids
      held (a tombstone holds its id), the number of live Resources, and the policies. */
  datatype View = View(rows: set<Cid>, described: set<Cid>, held: set<ResourceKey>, live: nat, policies: map<PolicyKey, string>)

  function RidsOf(resources: seq<ArchivedResource>): set<Rid> {
    set r | r in resources :: r.rid
  }

  function BuriedRids(c: ArchivedCollection): set<Rid> {
    set rid | rid in c.sidecars && c.sidecars[rid].deleted
  }

  function KeysOf(cid: Cid, rids: set<Rid>): set<ResourceKey> {
    set rid | rid in rids :: ResourceKey(cid, rid)
  }

  function PoliciesOf(c: ArchivedCollection, created: set<ResourceKey>): map<PolicyKey, string> {
    map k | k in created && k.rid in c.resourcePolicies :: OfResource(k) := c.resourcePolicies[k.rid]
  }

  /** A Collection the destination does not describe comes in with its policy. */
  function WithDescription(c: ArchivedCollection, v: View): View {
    if c.cid in v.described then v
    else
      v.(rows := v.rows + {c.cid}, described := v.described + {c.cid},
         policies := if c.policy.Some? then v.policies[OfCollection(c.cid) := c.policy.value] else v.policies)
  }

  /** Resources under ids not held come in, each with its policy. */
  function WithResources(c: ArchivedCollection, rids: set<Rid>, v: View): View {
    var created := KeysOf(c.cid, rids) - v.held;
    v.(held := v.held + KeysOf(c.cid, rids), live := v.live + |created|, policies := v.policies + PoliciesOf(c, created))
  }

  /** A tombstone comes in under an id nothing holds; no policy travels with it. */
  function WithTombstones(c: ArchivedCollection, v: View): View {
    v.(held := v.held + KeysOf(c.cid, BuriedRids(c)))
  }

  function WithCollection(c: ArchivedCollection, v: View): View {
    WithTombstones(c, WithResources(c, RidsOf(c.resources), WithDescription(c, v)))
  }

  predicate AtCap(cap: Option<nat>, count: nat) {
    cap.Some? && count >= cap.value
  }

  predicate RowsExceeded(limits: Limits, c: ArchivedCollection, v: View) {
    c.cid !in v.described && c.cid !in v.rows && AtCap(limits.maxCollections, |v.rows|)
  }

  predicate ResourcesExceeded(limits: Limits, cid: Cid, rids: set<Rid>, v: View) {
    var created := |KeysOf(cid, rids) - v.held|;
    created > 0 && limits.maxResources.Some? && v.live + created > limits.maxResources.value
  }

  /** A quota counts what would be created, and what it would be created beside. */
  function CollectionRefusal(limits: Limits, c: ArchivedCollection, v: View): Option<Refusal> {
    if RowsExceeded(limits, c, v) then Some(TooManyCollections)
    else if ResourcesExceeded(limits, c.cid, RidsOf(c.resources), v) then Some(TooManyResources)
    else None
  }

  function ViewAfter(collections: seq<ArchivedCollection>, v: View): View {
    if collections == [] then v
    else WithCollection(collections[|collections| - 1], ViewAfter(collections[..|collections| - 1], v))
  }

  /** The first count quota that an import runs into. */
  function CountRefusal(limits: Limits, collections: seq<ArchivedCollection>, v: View): Option<Refusal> {
    if collections == [] then None
    else
      var n := |collections| - 1;
      var earlier := CountRefusal(limits, collections[..n], v);
      if earlier.Some? then earlier else CollectionRefusal(limits, collections[n], ViewAfter(collections[..n], v))
  }

  function WithSpacePolicy(policy: Option<string>, v: View): View {
    if policy.Some? && OfSpace !in v.policies then v.(policies := v.policies[OfSpace := policy.value]) else v
  }

  function Imported(archive: Archive, v: View): View {
    ViewAfter(archive.collections, WithSpacePolicy(archive.spacePolicy, v))
  }

  lemma {:induction false} FirstCountStands(limits: Limits, collections: seq<ArchivedCollection>, v: View, n: nat)
    requires n <= |collections| && CountRefusal(limits, collections[..n], v).Some?
    ensures CountRefusal(limits, collections, v) == CountRefusal(limits, collections[..n], v)
    decreases |collections| - n
  {
    if n < |collections| {
      assert collections[..n + 1][..n] == collections[..n];
      FirstCountStands(limits, collections, v, n + 1);
    } else {
      assert collections[..n] == collections;
    }
  }

  lemma WholeOf<T>(s: seq<T>)
    ensures s[..|s|] == s
  {
  }

  lemma SizeOfUnion<T>(a: set<T>, b: set<T>)
    requires a !! b
    ensures |a + b| == |a| + |b|
  {
  }

  lemma KeysOfUnion(cid: Cid, a: set<Rid>, b: set<Rid>)
    ensures KeysOf(cid, a + b) == KeysOf(cid, a) + KeysOf(cid, b)
  {
  }

  lemma NewInTwo(cid: Cid, a: set<Rid>, b: set<Rid>, held: set<ResourceKey>)
    ensures KeysOf(cid, a + b) == KeysOf(cid, a) + KeysOf(cid, b)
    ensures var first, second := KeysOf(cid, a) - held, KeysOf(cid, b) - (held + KeysOf(cid, a));
            KeysOf(cid, a + b) - held == first + second && |KeysOf(cid, a + b) - held| == |first| + |second|
  {
    KeysOfUnion(cid, a, b);
    SetsInTwo(KeysOf(cid, a), KeysOf(cid, b), held);
  }

  lemma SetsInTwo<T>(a: set<T>, b: set<T>, held: set<T>)
    ensures (a + b) - held == (a - held) + (b - (held + a)) && |(a + b) - held| == |a - held| + |b - (held + a)|
  {
    assert (a + b) - held == (a - held) + (b - (held + a));
    SizeOfUnion(a - held, b - (held + a));
  }

  lemma PoliciesInTwo(c: ArchivedCollection, first: set<ResourceKey>, second: set<ResourceKey>, policies: map<PolicyKey, string>)
    ensures policies + PoliciesOf(c, first) + PoliciesOf(c, second) == policies + PoliciesOf(c, first + second)
  {
    assert PoliciesOf(c, first + second) == PoliciesOf(c, first) + PoliciesOf(c, second);
  }

  /** What a few more ids add to what some have added. */
  lemma MoreResources(limits: Limits, c: ArchivedCollection, a: set<Rid>, b: set<Rid>, v: View)
    ensures WithResources(c, b, WithResources(c, a, v)) == WithResources(c, a + b, v)
    ensures !ResourcesExceeded(limits, c.cid, a, v) ==>
              (ResourcesExceeded(limits, c.cid, a + b, v) <==> ResourcesExceeded(limits, c.cid, b, WithResources(c, a, v)))
  {
    var x, y := KeysOf(c.cid, a), KeysOf(c.cid, b);
    NewInTwo(c.cid, a, b, v.held);
    PoliciesInTwo(c, x - v.held, y - (v.held + x), v.policies);
    assert v.held + x + y == v.held + (x + y);
  }

  lemma HeldChangesNothing(c: ArchivedCollection, rids: set<Rid>, v: View)
    requires KeysOf(c.cid, rids) <= v.held
    ensures WithResources(c, rids, v) == v && KeysOf(c.cid, rids) - v.held == {}
  {
    var keys := KeysOf(c.cid, rids);
    assert keys - v.held == {} && v.held + keys == v.held;
    assert PoliciesOf(c, {}) == map[];
  }

  /** A Resource created under an id not held. */
  function WithNewResource(c: ArchivedCollection, rid: Rid, v: View): View {
    v.(held := v.held + {ResourceKey(c.cid, rid)}, live := v.live + 1,
       policies := if rid in c.resourcePolicies then v.policies[OfResource(ResourceKey(c.cid, rid)) := c.resourcePolicies[rid]] else v.policies)
  }

  lemma OneKey(cid: Cid, rid: Rid)
    ensures KeysOf(cid, {rid}) == {ResourceKey(cid, rid)} && KeysOf(cid, {}) == {}
  {
  }

  lemma OnePolicy(c: ArchivedCollection, rid: Rid, policies: map<PolicyKey, string>)
    ensures var k := ResourceKey(c.cid, rid);
            policies + PoliciesOf(c, {k}) == if rid in c.resourcePolicies then policies[OfResource(k) := c.resourcePolicies[rid]] else policies
  {
    var k := ResourceKey(c.cid, rid);
    assert PoliciesOf(c, {k}) == if rid in c.resourcePolicies then map[OfResource(k) := c.resourcePolicies[rid]] else map[];
  }

  lemma NewKey(held: set<ResourceKey>, k: ResourceKey)
    ensures {k} - held == (if k in held then {} else {k}) && |{k} - held| == if k in held then 0 else 1
  {
    assert {k} - held == if k in held then {} else {k};
  }

  /** One id more, held or not. */
  lemma OneResource(limits: Limits, c: ArchivedCollection, rid: Rid, v: View)
    ensures WithResources(c, {rid}, v) == if ResourceKey(c.cid, rid) in v.held then v else WithNewResource(c, rid, v)
    ensures ResourcesExceeded(limits, c.cid, {rid}, v) <==> ResourceKey(c.cid, rid) !in v.held && AtCap(limits.maxResources, v.live)
  {
    OneKey(c.cid, rid);
    NewKey(v.held, ResourceKey(c.cid, rid));
    if ResourceKey(c.cid, rid) in v.held {
      HeldChangesNothing(c, {rid}, v);
    } else {
      OnePolicy(c, rid, v.policies);
    }
  }

  lemma NoResources(limits: Limits, c: ArchivedCollection, v: View)
    ensures WithResources(c, {}, v) == v && !ResourcesExceeded(limits, c.cid, {}, v)
  {
    OneKey(c.cid, "");
    HeldChangesNothing(c, {}, v);
  }

  /** Past a quota once, past it with any more. */
  lemma ExceededStays(limits: Limits, cid: Cid, a: set<Rid>, b: set<Rid>, v: View)
    requires ResourcesExceeded(limits, cid, a, v)
    ensures ResourcesExceeded(limits, cid, a + b, v)
  {
    NewInTwo(cid, a, b, v.held);
  }

  lemma ViewOfOneMore(limits: Limits, collections: seq<ArchivedCollection>, v: View, i: nat)
    requires i < |collections|
    ensures ViewAfter(collections[..i + 1], v) == WithCollection(collections[i], ViewAfter(collections[..i], v))
    ensures CountRefusal(limits, collections[..i + 1], v) ==
            var earlier := CountRefusal(limits, collections[..i], v);
            if earlier.Some? then earlier else CollectionRefusal(limits, collections[i], ViewAfter(collections[..i], v))
  {
    assert collections[..i + 1][..i] == collections[..i];
  }

  lemma OneMoreView(limits: Limits, collections: seq<ArchivedCollection>, i: nat, v: View, next: View, after: View)
    requires i < |collections| && next == ViewAfter(collections[..i], v) && after == WithCollection(collections[i], next)
    requires CountRefusal(limits, collections[..i], v).None? && CollectionRefusal(limits, collections[i], next).None?
    ensures after == ViewAfter(collections[..i + 1], v) && CountRefusal(limits, collections[..i + 1], v).None?
  {
    ViewOfOneMore(limits, collections, v, i);
  }

  lemma OneLess<T>(all: set<T>, todo: set<T>, x: T)
    requires todo <= all && x in todo
    ensures all - (todo - {x}) == (all - todo) + {x}
  {
  }

  // ---------- the merge as a whole ----------

  function Cids(collections: seq<ArchivedCollection>): set<Cid> {
    set c | c in collections :: c.cid
  }

  /** The ids the archive has representations for, and those it has tombstones for. */
  function ArchivedKeys(collections: seq<ArchivedCollection>): set<ResourceKey> {
    if collections == [] then {}
    else
      var n := |collections| - 1;
      ArchivedKeys(collections[..n]) + KeysOf(collections[n].cid, RidsOf(collections[n].resources))
  }

  function BuriedKeys(collections: seq<ArchivedCollection>): set<ResourceKey> {
    if collections == [] then {}
    else
      var n := |collections| - 1;
      BuriedKeys(collections[..n]) + KeysOf(collections[n].cid, BuriedRids(collections[n]))
  }

  lemma PrefixOfPlan(collections: Plan, n: nat)
    requires n < |collections|
    ensures OneEntryEach(collections[..n]) && collections[n].cid !in Cids(collections[..n])
    ensures Cids(collections[..n + 1]) == Cids(collections[..n]) + {collections[n].cid}
  {
    var c := collections[n];
    assert collections[..n + 1] == collections[..n] + [c];
    forall d | d in Cids(collections[..n + 1]) ensures d in Cids(collections[..n]) + {c.cid} {
      var x :| x in collections[..n + 1] && x.cid == d;
      assert x in collections[..n] || x == c;
    }
    assert c in collections[..n + 1];
    forall d | d in Cids(collections[..n]) ensures d in Cids(collections[..n + 1]) {
      var x :| x in collections[..n] && x.cid == d;
      assert x in collections[..n + 1];
    }
  }

  lemma {:induction false} KeysAreUnderCids(collections: seq<ArchivedCollection>)
    ensures forall k :: k in ArchivedKeys(collections) || k in BuriedKeys(collections) ==> k.cid in Cids(collections)
  {
    if collections != [] {
      var n := |collections| - 1;
      KeysAreUnderCids(collections[..n]);
      assert collections[n] in collections;
      forall d | d in Cids(collections[..n]) ensures d in Cids(collections) {
        var x :| x in collections[..n] && x.cid == d;
        assert x in collections;
      }
    }
  }

  lemma WithCollectionAdds(c: ArchivedCollection, v: View)
    ensures var w := WithCollection(c, v);
            && w.described == v.described + {c.cid} && (v.described <= v.rows ==> w.rows == v.rows + {c.cid})
            && w.held == v.held + KeysOf(c.cid, RidsOf(c.resources)) + KeysOf(c.cid, BuriedRids(c))
            && w.live == v.live + |KeysOf(c.cid, RidsOf(c.resources)) - v.held|
  {
  }

  lemma CidsOfOneMore(collections: seq<ArchivedCollection>)
    requires collections != []
    ensures Cids(collections) == Cids(collections[..|collections| - 1]) + {collections[|collections| - 1].cid}
  {
    var n := |collections| - 1;
    assert collections == collections[..n] + [collections[n]];
  }

  lemma UnionStep<T>(a: set<T>, b: set<T>, c: set<T>, d: set<T>, e: set<T>)
    ensures a + b + c + d + e == a + (b + d) + (c + e)
  {
  }

  lemma {:induction false} MergedIds(collections: seq<ArchivedCollection>, v: View)
    requires v.described <= v.rows
    ensures var w := ViewAfter(collections, v);
            && w.rows == v.rows + Cids(collections) && w.described == v.described + Cids(collections)
            && w.held == v.held + ArchivedKeys(collections) + BuriedKeys(collections)
  {
    if collections == [] {
      assert Cids(collections) == {};
    } else {
      var n := |collections| - 1;
      var c, rest := collections[n], collections[..n];
      MergedIds(rest, v);
      var w := ViewAfter(rest, v);
      assert w.described <= w.rows;
      WithCollectionAdds(c, w);
      CidsOfOneMore(collections);
      UnionStep(v.held, ArchivedKeys(rest), BuriedKeys(rest), KeysOf(c.cid, RidsOf(c.resources)), KeysOf(c.cid, BuriedRids(c)));
      UnionStep(v.rows, {}, Cids(rest), {}, {c.cid});
      UnionStep(v.described, {}, Cids(rest), {}, {c.cid});
    }
  }

  lemma NewToRest(held: set<ResourceKey>, archived: set<ResourceKey>, buried: set<ResourceKey>, keys: set<ResourceKey>)
    requires keys !! archived && keys !! buried
    ensures keys - (held + archived + buried) == keys - held
    ensures (archived + keys) - held == (archived - held) + (keys - held) && archived - held !! keys - held
    ensures |(archived + keys) - held| == |archived - held| + |keys - held|
  {
    assert (archived + keys) - held == (archived - held) + (keys - held);
    SizeOfUnion(archived - held, keys - held);
  }

  /** The ids of one Collection are new to what the rest of the plan brings. */
  lemma NewKeys(collections: Plan, v: View, n: nat)
    requires v.described <= v.rows && n + 1 == |collections|
    ensures var c, rest := collections[n], collections[..n];
            var keys := KeysOf(c.cid, RidsOf(c.resources));
            && OneEntryEach(rest) && c.cid !in Cids(rest)
            && keys - ViewAfter(rest, v).held == keys - v.held
            && |ArchivedKeys(collections) - v.held| == |ArchivedKeys(rest) - v.held| + |keys - v.held|
  {
    var c, rest := collections[n], collections[..n];
    PrefixOfPlan(collections, n);
    MergedIds(rest, v);
    KeysAreUnderCids(rest);
    var keys := KeysOf(c.cid, RidsOf(c.resources));
    assert forall k :: k in keys ==> k.cid == c.cid;
    NewToRest(v.held, ArchivedKeys(rest), BuriedKeys(rest), keys);
  }

  /** What is there after a merge: each archived id, and of live Resources exactly those new to the destination. */
  lemma {:induction false} MergedView(collections: Plan, v: View)
    requires v.described <= v.rows
    ensures var w := ViewAfter(collections, v);
            && w.rows == v.rows + Cids(collections) && w.described == v.described + Cids(collections)
            && w.held == v.held + ArchivedKeys(collections) + BuriedKeys(collections)
            && w.live == v.live + |ArchivedKeys(collections) - v.held|
    decreases |collections|
  {
    MergedIds(collections, v);
    if collections != [] {
      var n := |collections| - 1;
      NewKeys(collections, v, n);
      MergedView(collections[..n], v);
      WithCollectionAdds(collections[n], ViewAfter(collections[..n], v));
    }
  }

  predicate RowsFit(limits: Limits, collections: seq<ArchivedCollection>, v: View) {
    var created := |Cids(collections) - v.rows|;
    created == 0 || limits.maxCollections.None? || |v.rows| + created <= limits.maxCollections.value
  }

  predicate ResourcesFit(limits: Limits, collections: seq<ArchivedCollection>, v: View) {
    var created := |ArchivedKeys(collections) - v.held|;
    created == 0 || limits.maxResources.None? || v.live + created <= limits.maxResources.value
  }

  lemma OneMoreId(rows: set<Cid>, cids: set<Cid>, cid: Cid)
    requires cid !in cids
    ensures |(cids + {cid}) - rows| == |cids - rows| + if cid in rows then 0 else 1
    ensures |rows + cids| == |rows| + |cids - rows|
  {
    SizeOfUnion(rows, cids - rows);
    assert rows + cids == rows + (cids - rows);
    if cid in rows {
      assert (cids + {cid}) - rows == cids - rows;
    } else {
      assert (cids + {cid}) - rows == (cids - rows) + {cid};
    }
  }

  lemma RowsFitStep(limits: Limits, collections: Plan, v: View, n: nat)
    requires v.described <= v.rows && n + 1 == |collections|
    ensures RowsFit(limits, collections, v) <==>
            RowsFit(limits, collections[..n], v) && !RowsExceeded(limits, collections[n], ViewAfter(collections[..n], v))
  {
    var cid, rest := collections[n].cid, Cids(collections[..n]);
    PrefixOfPlan(collections, n);
    CidsOfOneMore(collections);
    MergedIds(collections[..n], v);
    OneMoreId(v.rows, rest, cid);
    assert cid in v.rows + rest <==> cid in v.rows;
  }

  lemma ResourcesFitStep(limits: Limits, collections: Plan, v: View, n: nat)
    requires v.described <= v.rows && n + 1 == |collections|
    ensures ResourcesFit(limits, collections, v) <==>
            ResourcesFit(limits, collections[..n], v) &&
            !ResourcesExceeded(limits, collections[n].cid, RidsOf(collections[n].resources), ViewAfter(collections[..n], v))
  {
    NewKeys(collections, v, n);
    MergedView(collections[..n], v);
  }

  /** No count quota is in the way of an import exactly when, for Collections and for live Resources alike,
      it creates none or the quota holds what was there and what it creates. */
  lemma {:induction false} CountsFitIff(limits: Limits, collections: Plan, v: View)
    requires v.described <= v.rows
    ensures CountRefusal(limits, collections, v).None? <==> RowsFit(limits, collections, v) && ResourcesFit(limits, collections, v)
    decreases |collections|
  {
    if collections == [] {
      assert Cids(collections) == {};
    } else {
      var n := |collections| - 1;
      NewKeys(collections, v, n);
      CountsFitIff(limits, collections[..n], v);
      RowsFitStep(limits, collections, v, n);
      ResourcesFitStep(limits, collections, v, n);
    }
  }

  /** The representation that goes in for an id: the archive's first. */
  function FirstOf(resources: seq<ArchivedResource>, rid: Rid): Option<ArchivedResource> {
    if resources == [] then None
    else
      var n := |resources| - 1;
      var earlier := FirstOf(resources[..n], rid);
      if earlier.Some? then earlier else if resources[n].rid == rid then Some(resources[n]) else None
  }

  lemma {:induction false} FirstOfIsThere(resources: seq<ArchivedResource>, rid: Rid)
    ensures FirstOf(resources, rid).Some? <==> rid in RidsOf(resources)
    ensures FirstOf(resources, rid).Some? ==> FirstOf(resources, rid).value in resources && FirstOf(resources, rid).value.rid == rid
  {
    if resources != [] {
      var n := |resources| - 1;
      FirstOfIsThere(resources[..n], rid);
      assert resources == resources[..n] + [resources[n]];
      assert forall r :: r in resources <==> r in resources[..n] || r == resources[n];
    }
  }

  /** The first representation of an id, by where it is. */
  predicate FirstAt(resources: seq<ArchivedResource>, rid: Rid, i: int) {
    0 <= i < |resources| && resources[i].rid == rid && forall j :: 0 <= j < i ==> resources[j].rid != rid
  }

  lemma NoneBefore(resources: seq<ArchivedResource>, rid: Rid, n: nat)
    requires n < |resources| && resources[n].rid == rid && FirstOf(resources[..n], rid).None?
    ensures FirstAt(resources, rid, n)
  {
    FirstOfIsThere(resources[..n], rid);
    forall j | 0 <= j < n ensures resources[j].rid != rid {
      assert resources[..n][j] in resources[..n];
    }
  }

  lemma {:induction false} FirstOfIsFirst(resources: seq<ArchivedResource>, rid: Rid)
    ensures FirstOf(resources, rid).Some? ==> exists i :: FirstAt(resources, rid, i) && FirstOf(resources, rid) == Some(resources[i])
  {
    if resources != [] {
      var n := |resources| - 1;
      FirstOfIsFirst(resources[..n], rid);
      if FirstOf(resources[..n], rid).Some? {
        var i :| FirstAt(resources[..n], rid, i) && FirstOf(resources[..n], rid) == Some(resources[..n][i]);
        assert FirstAt(resources, rid, i);
      } else if resources[n].rid == rid {
        NoneBefore(resources, rid, n);
      }
    }
  }

  lemma RidsOfOneMore(resources: seq<ArchivedResource>, i: nat)
    requires i < |resources|
    ensures RidsOf(resources[..i + 1]) == RidsOf(resources[..i]) + {resources[i].rid}
    ensures BodyBytes(resources[..i + 1]) == BodyBytes(resources[..i]) + |resources[i].body|
    ensures forall rid :: FirstOf(resources[..i + 1], rid) ==
                          if FirstOf(resources[..i], rid).Some? then FirstOf(resources[..i], rid)
                          else if resources[i].rid == rid then Some(resources[i]) else None
  {
    assert resources[..i + 1][..i] == resources[..i];
    assert resources[..i + 1] == resources[..i] + [resources[i]];
  }

  lemma RidsUpTo(resources: seq<ArchivedResource>, n: nat)
    requires n <= |resources|
    ensures RidsOf(resources) == RidsOf(resources[..n]) + RidsOf(resources[n..])
  {
    assert resources == resources[..n] + resources[n..];
  }

  // ---------- importing again ----------

  /** The destination already holds every id the archive could bring. */
  predicate NothingNew(c: ArchivedCollection, v: View) {
    c.cid in v.described && KeysOf(c.cid, RidsOf(c.resources)) <= v.held && KeysOf(c.cid, BuriedRids(c)) <= v.held
  }

  lemma NothingNewChangesNothing(limits: Limits, c: ArchivedCollection, v: View)
    requires NothingNew(c, v)
    ensures WithCollection(c, v) == v && CollectionRefusal(limits, c, v).None?
  {
    HeldChangesNothing(c, RidsOf(c.resources), v);
    assert WithDescription(c, v) == v && v.held + KeysOf(c.cid, BuriedRids(c)) == v.held;
  }

  lemma {:induction false} NothingNewAnywhere(limits: Limits, collections: seq<ArchivedCollection>, v: View)
    requires forall c :: c in collections ==> NothingNew(c, v)
    ensures ViewAfter(collections, v) == v && CountRefusal(limits, collections, v).None?
  {
    if collections != [] {
      var n := |collections| - 1;
      assert forall c :: c in collections[..n] ==> c in collections;
      NothingNewAnywhere(limits, collections[..n], v);
      assert collections[n] in collections;
      NothingNewChangesNothing(limits, collections[n], v);
    }
  }

  lemma {:induction false} KeysAreArchived(collections: seq<ArchivedCollection>, c: ArchivedCollection)
    requires c in collections
    ensures KeysOf(c.cid, RidsOf(c.resources)) <= ArchivedKeys(collections) && KeysOf(c.cid, BuriedRids(c)) <= BuriedKeys(collections)
  {
    var n := |collections| - 1;
    if c != collections[n] {
      assert collections == collections[..n] + [collections[n]];
      KeysAreArchived(collections[..n], c);
    }
  }

  /** Importing an archive again brings nothing and meets no count quota, whatever the quotas are by then. */
  lemma SecondImportIsIdle(limits: Limits, archive: Archive, v: View)
    requires v.described <= v.rows
    ensures var w := Imported(archive, v);
            && Imported(archive, w) == w
            && CountRefusal(limits, archive.collections, WithSpacePolicy(archive.spacePolicy, w)).None?
  {
    var w := Imported(archive, v);
    MergedIds(archive.collections, WithSpacePolicy(archive.spacePolicy, v));
    forall c | c in archive.collections ensures NothingNew(c, w) {
      KeysAreArchived(archive.collections, c);
    }
    SpacePolicyStays(archive.collections, WithSpacePolicy(archive.spacePolicy, v));
    NothingNewAnywhere(limits, archive.collections, w);
  }

  lemma {:induction false} SpacePolicyStays(collections: seq<ArchivedCollection>, v: View)
    ensures Lookup(ViewAfter(collections, v).policies, OfSpace) == Lookup(v.policies, OfSpace)
  {
    if collections != [] {
      SpacePolicyStays(collections[..|collections| - 1], v);
      PolicyAfterOne(collections[|collections| - 1], ViewAfter(collections[..|collections| - 1], v), OfSpace);
    }
  }

  // ---------- policies ----------

  function CidOf(k: PolicyKey): Cid
    requires !k.OfSpace?
  {
    if k.OfCollection? then k.cid else k.key.cid
  }

  /** What the policy is for is there already. */
  predicate Governed(v: View, k: PolicyKey) {
    match k
    case OfSpace => OfSpace in v.policies
    case OfCollection(cid) => cid in v.described
    case OfResource(key) => key in v.held
  }

  /** The policy a Collection of the archive brings for `k`; a Resource's comes with its representation only. */
  function PolicyIn(c: ArchivedCollection, k: PolicyKey): Option<string> {
    match k
    case OfSpace => None
    case OfCollection(cid) => if cid == c.cid then c.policy else None
    case OfResource(key) => if key.cid == c.cid && key.rid in RidsOf(c.resources) then Lookup(c.resourcePolicies, key.rid) else None
  }

  function CollectionPolicyCarried(collections: seq<ArchivedCollection>, k: PolicyKey): Option<string> {
    if collections == [] then None
    else
      var last := PolicyIn(collections[|collections| - 1], k);
      if last.Some? then last else CollectionPolicyCarried(collections[..|collections| - 1], k)
  }

  function Carried(archive: Archive, k: PolicyKey): Option<string> {
    if k.OfSpace? then archive.spacePolicy else CollectionPolicyCarried(archive.collections, k)
  }

  lemma OneCollectionCarries(collections: Plan, k: PolicyKey, n: nat)
    requires n + 1 == |collections| && PolicyIn(collections[n], k).Some?
    ensures forall c :: c in collections[..n] ==> PolicyIn(c, k).None?
  {
    PrefixOfPlan(collections, n);
    forall c | c in collections[..n] ensures PolicyIn(c, k).None? {
      assert c.cid in Cids(collections[..n]);
    }
  }

  lemma {:induction false} CarriedByCollectionIff(collections: Plan, k: PolicyKey, policy: string)
    ensures CollectionPolicyCarried(collections, k) == Some(policy) <==> exists c :: c in collections && PolicyIn(c, k) == Some(policy)
    decreases |collections|
  {
    if collections != [] {
      var n := |collections| - 1;
      var last, rest := collections[n], collections[..n];
      PrefixOfPlan(collections, n);
      assert forall c :: c in collections <==> c in rest || c == last by { assert collections == rest + [last]; }
      if PolicyIn(last, k).Some? {
        OneCollectionCarries(collections, k, n);
      } else {
        CarriedByCollectionIff(rest, k, policy);
      }
    }
  }

  /** The archive carries the Space's policy, the policy of a Collection it has, and the policy of a Resource it has a
      representation of; of a Resource without one it carries none. */
  lemma CarriedIff(archive: Archive, k: PolicyKey, policy: string)
    ensures Carried(archive, k) == Some(policy) <==>
            match k
            case OfSpace => archive.spacePolicy == Some(policy)
            case OfCollection(cid) => exists c :: c in archive.collections && c.cid == cid && c.policy == Some(policy)
            case OfResource(key) =>
              exists c, r :: c in archive.collections && c.cid == key.cid && r in c.resources && r.rid == key.rid &&
                key.rid in c.resourcePolicies && c.resourcePolicies[key.rid] == policy
  {
    CarriedByCollectionIff(archive.collections, k, policy);
    if k.OfCollection? && Carried(archive, k) == Some(policy) {
      var c :| c in archive.collections && PolicyIn(c, k) == Some(policy);
      assert c.cid == k.cid && c.policy == Some(policy);
    }
    if k.OfResource? && Carried(archive, k) == Some(policy) {
      var c :| c in archive.collections && PolicyIn(c, k) == Some(policy);
      var r :| r in c.resources && r.rid == k.key.rid;
    }
    if k.OfCollection? {
      if c :| c in archive.collections && c.cid == k.cid && c.policy == Some(policy) { assert PolicyIn(c, k) == Some(policy); }
    }
    if k.OfResource? {
      if c, r :| c in archive.collections && c.cid == k.key.cid && r in c.resources && r.rid == k.key.rid &&
                 k.key.rid in c.resourcePolicies && c.resourcePolicies[k.key.rid] == policy {
        assert PolicyIn(c, k) == Some(policy);
      }
    }
  }

  lemma PolicyWithDescription(c: ArchivedCollection, v: View, k: PolicyKey)
    ensures Lookup(WithDescription(c, v).policies, k) ==
            if k == OfCollection(c.cid) && c.cid !in v.described && c.policy.Some? then c.policy else Lookup(v.policies, k)
  {
  }

  lemma PolicyWithResources(c: ArchivedCollection, rids: set<Rid>, v: View, k: PolicyKey)
    ensures Lookup(WithResources(c, rids, v).policies, k) ==
            if k.OfResource? && k.key.cid == c.cid && k.key.rid in rids && k.key !in v.held && k.key.rid in c.resourcePolicies
            then Some(c.resourcePolicies[k.key.rid]) else Lookup(v.policies, k)
  {
    var created := KeysOf(c.cid, rids) - v.held;
    assert k.OfResource? ==> (k.key in KeysOf(c.cid, rids) <==> k.key.cid == c.cid && k.key.rid in rids);
    assert k in PoliciesOf(c, created) <==> k.OfResource? && k.key in created && k.key.rid in c.resourcePolicies;
  }

  lemma PolicyAfterOne(c: ArchivedCollection, v: View, k: PolicyKey)
    ensures Lookup(WithCollection(c, v).policies, k) ==
            if PolicyIn(c, k).Some? && !Governed(v, k) then PolicyIn(c, k) else Lookup(v.policies, k)
    ensures !k.OfSpace? && CidOf(k) != c.cid ==> (Governed(WithCollection(c, v), k) <==> Governed(v, k))
  {
    PolicyWithDescription(c, v, k);
    PolicyWithResources(c, RidsOf(c.resources), WithDescription(c, v), k);
    WithCollectionAdds(c, v);
  }

  lemma {:induction false} NotCarried(collections: seq<ArchivedCollection>, v: View, k: PolicyKey)
    requires !k.OfSpace? && CidOf(k) !in Cids(collections)
    ensures CollectionPolicyCarried(collections, k).None? && Lookup(ViewAfter(collections, v).policies, k) == Lookup(v.policies, k)
    ensures Governed(ViewAfter(collections, v), k) <==> Governed(v, k)
  {
    if collections != [] {
      CidsOfOneMore(collections);
      NotCarried(collections[..|collections| - 1], v, k);
      PolicyAfterOne(collections[|collections| - 1], ViewAfter(collections[..|collections| - 1], v), k);
    }
  }

  lemma {:induction false} PolicyAfterAll(collections: Plan, v: View, k: PolicyKey)
    requires !k.OfSpace?
    ensures Lookup(ViewAfter(collections, v).policies, k) ==
            if CollectionPolicyCarried(collections, k).Some? && !Governed(v, k) then CollectionPolicyCarried(collections, k)
            else Lookup(v.policies, k)
    decreases |collections|
  {
    if collections != [] {
      var n := |collections| - 1;
      PrefixOfPlan(collections, n);
      PolicyAfterOne(collections[n], ViewAfter(collections[..n], v), k);
      if CidOf(k) == collections[n].cid {
        NotCarried(collections[..n], v, k);
      } else {
        PolicyAfterAll(collections[..n], v, k);
      }
    }
  }

  /** Every policy after an import, exactly: the archive's where it carries one for something the destination does
      not hold, and what was there otherwise. */
  lemma PoliciesAfter(archive: Archive, v: View, k: PolicyKey)
    ensures Lookup(Imported(archive, v).policies, k) ==
            if Carried(archive, k).Some? && !Governed(v, k) then Carried(archive, k) else Lookup(v.policies, k)
  {
    var start := WithSpacePolicy(archive.spacePolicy, v);
    if k.OfSpace? {
      SpacePolicyStays(archive.collections, start);
    } else {
      PolicyAfterAll(archive.collections, start, k);
    }
  }

  /** A policy the destination holds is replaced exactly when what it is for is missing there and the archive
      carries another. */
  lemma HeldPolicyChangesIff(archive: Archive, v: View, k: PolicyKey)
    requires k in v.policies
    ensures k in Imported(archive, v).policies
    ensures Imported(archive, v).policies[k] != v.policies[k] <==>
            !Governed(v, k) && Carried(archive, k).Some? && Carried(archive, k).value != v.policies[k]
  {
    PoliciesAfter(archive, v, k);
  }
}
