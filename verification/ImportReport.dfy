/**
 What an import reports: how many Collections, Resources and policies it created and how many it skipped, item by item
 as both backends count them, and what those numbers come to for a whole archive.
 */
module ImportReport {
  import opened ImportPlan
  import opened Wrappers

  datatype Stats = Stats(
    collectionsCreated: nat, collectionsSkipped: nat, resourcesCreated: nat, resourcesSkipped: nat,
    policiesCreated: nat, policiesSkipped: nat)

  const NO_STATS := Stats(0, 0, 0, 0, 0, 0)

  predicate NothingCreated(stats: Stats) {
    stats.collectionsCreated == 0 && stats.resourcesCreated == 0 && stats.policiesCreated == 0
  }

  // ---------- item by item ----------

  function OnePolicyIf(there: bool): nat {
    if there then 1 else 0
  }

  function CreatedCollection(policy: bool, s: Stats): Stats {
    s.(collectionsCreated := s.collectionsCreated + 1, policiesCreated := s.policiesCreated + OnePolicyIf(policy))
  }

  function SkippedCollection(policy: bool, s: Stats): Stats {
    s.(collectionsSkipped := s.collectionsSkipped + 1, policiesSkipped := s.policiesSkipped + OnePolicyIf(policy))
  }

  function CreatedResource(policy: bool, s: Stats): Stats {
    s.(resourcesCreated := s.resourcesCreated + 1, policiesCreated := s.policiesCreated + OnePolicyIf(policy))
  }

  function SkippedResource(policy: bool, s: Stats): Stats {
    s.(resourcesSkipped := s.resourcesSkipped + 1, policiesSkipped := s.policiesSkipped + OnePolicyIf(policy))
  }

  function ResourceStats(c: ArchivedCollection, r: ArchivedResource, v: View, s: Stats): Stats {
    if ResourceKey(c.cid, r.rid) in v.held then SkippedResource(r.rid in c.resourcePolicies, s)
    else CreatedResource(r.rid in c.resourcePolicies, s)
  }

  /** Each representation finds what those before it left. */
  function ResourcesStats(c: ArchivedCollection, resources: seq<ArchivedResource>, v: View, s: Stats): Stats {
    if resources == [] then s
    else
      var n := |resources| - 1;
      ResourceStats(c, resources[n], WithResources(c, RidsOf(resources[..n]), v), ResourcesStats(c, resources[..n], v, s))
  }

  /** The tombstones of an archived Collection that have no representation there. */
  function BareRids(c: ArchivedCollection): set<Rid> {
    BuriedRids(c) - RidsOf(c.resources)
  }

  function TombstonesStats(c: ArchivedCollection, rids: set<Rid>, v: View, s: Stats): Stats {
    s.(resourcesCreated := s.resourcesCreated + |KeysOf(c.cid, rids) - v.held|,
       resourcesSkipped := s.resourcesSkipped + |KeysOf(c.cid, rids) * v.held|)
  }

  function DescriptionStats(c: ArchivedCollection, v: View, s: Stats): Stats {
    if c.cid in v.described then SkippedCollection(c.policy.Some?, s) else CreatedCollection(c.policy.Some?, s)
  }

  function CollectionStats(c: ArchivedCollection, v: View, s: Stats): Stats {
    var described := WithDescription(c, v);
    TombstonesStats(c, BareRids(c), WithResources(c, RidsOf(c.resources), described),
                    ResourcesStats(c, c.resources, described, DescriptionStats(c, v, s)))
  }

  function StatsAfter(collections: seq<ArchivedCollection>, v: View, s: Stats): Stats {
    if collections == [] then s
    else
      var n := |collections| - 1;
      CollectionStats(collections[n], ViewAfter(collections[..n], v), StatsAfter(collections[..n], v, s))
  }

  function SpacePolicyStats(policy: Option<string>, v: View, s: Stats): Stats {
    if policy.None? then s
    else if OfSpace in v.policies then s.(policiesSkipped := s.policiesSkipped + 1)
    else s.(policiesCreated := s.policiesCreated + 1)
  }

  /** What the whole import reports. */
  function Report(archive: Archive, v: View): Stats {
    StatsAfter(archive.collections, WithSpacePolicy(archive.spacePolicy, v), SpacePolicyStats(archive.spacePolicy, v, NO_STATS))
  }

  lemma StatsOfOneMore(c: ArchivedCollection, i: nat, v: View, s: Stats)
    requires i < |c.resources|
    ensures ResourcesStats(c, c.resources[..i + 1], v, s) ==
            ResourceStats(c, c.resources[i], WithResources(c, RidsOf(c.resources[..i]), v), ResourcesStats(c, c.resources[..i], v, s))
  {
    assert c.resources[..i + 1][..i] == c.resources[..i];
  }

  lemma StatsOfOneMoreCollection(collections: seq<ArchivedCollection>, i: nat, v: View, s: Stats)
    requires i < |collections|
    ensures StatsAfter(collections[..i + 1], v, s) ==
            CollectionStats(collections[i], ViewAfter(collections[..i], v), StatsAfter(collections[..i], v, s))
  {
    assert collections[..i + 1][..i] == collections[..i];
  }

  lemma OneMoreInOrOut<T>(keys: set<T>, k: T, held: set<T>)
    requires k !in keys
    ensures |(keys + {k}) - held| == |keys - held| + if k in held then 0 else 1
    ensures |(keys + {k}) * held| == |keys * held| + if k in held then 1 else 0
  {
    if k in held {
      assert (keys + {k}) - held == keys - held && (keys + {k}) * held == keys * held + {k};
    } else {
      assert (keys + {k}) - held == (keys - held) + {k} && (keys + {k}) * held == keys * held;
    }
  }

  lemma OneMoreTombstone(c: ArchivedCollection, done: set<Rid>, rid: Rid, v: View, s: Stats)
    requires rid !in done
    ensures TombstonesStats(c, done + {rid}, v, s) ==
            var t := TombstonesStats(c, done, v, s);
            if ResourceKey(c.cid, rid) in v.held then SkippedResource(false, t) else CreatedResource(false, t)
  {
    KeysOfUnion(c.cid, done, {rid});
    OneKey(c.cid, rid);
    OneMoreInOrOut(KeysOf(c.cid, done), ResourceKey(c.cid, rid), v.held);
  }

  // ---------- what the numbers come to ----------

  /** How many policies go with the representations, one for each time an id with a policy appears. */
  function PoliciesOffered(c: ArchivedCollection, resources: seq<ArchivedResource>): nat {
    if resources == [] then 0
    else PoliciesOffered(c, resources[..|resources| - 1]) + OnePolicyIf(resources[|resources| - 1].rid in c.resourcePolicies)
  }

  /** The policies that go with representations of the given ids. */
  function PolicyKeysOf(c: ArchivedCollection, rids: set<Rid>): set<PolicyKey> {
    set rid | rid in rids && rid in c.resourcePolicies :: OfResource(ResourceKey(c.cid, rid))
  }

  function Ungoverned(keys: set<PolicyKey>, v: View): set<PolicyKey> {
    set k | k in keys && !Governed(v, k)
  }

  /** Each kind of item up by so many created, and by so many gone through in all. */
  predicate Counts(s: Stats, t: Stats, collections: nat, collectionsAll: nat, resources: nat, resourcesAll: nat, policies: nat, policiesAll: nat) {
    && t.collectionsCreated == s.collectionsCreated + collections
    && t.collectionsCreated + t.collectionsSkipped == s.collectionsCreated + s.collectionsSkipped + collectionsAll
    && t.resourcesCreated == s.resourcesCreated + resources
    && t.resourcesCreated + t.resourcesSkipped == s.resourcesCreated + s.resourcesSkipped + resourcesAll
    && t.policiesCreated == s.policiesCreated + policies
    && t.policiesCreated + t.policiesSkipped == s.policiesCreated + s.policiesSkipped + policiesAll
  }

  lemma PolicyKeysOfOneMore(c: ArchivedCollection, rids: set<Rid>, rid: Rid, v: View)
    ensures var before, after := Ungoverned(PolicyKeysOf(c, rids), v), Ungoverned(PolicyKeysOf(c, rids + {rid}), v);
            var k := ResourceKey(c.cid, rid);
            |after| == |before| + OnePolicyIf(rid in c.resourcePolicies && k !in v.held && k !in KeysOf(c.cid, rids))
  {
    var before, after := Ungoverned(PolicyKeysOf(c, rids), v), Ungoverned(PolicyKeysOf(c, rids + {rid}), v);
    var k := ResourceKey(c.cid, rid);
    if rid in c.resourcePolicies && k !in v.held && k !in KeysOf(c.cid, rids) {
      assert OfResource(k) in PolicyKeysOf(c, rids + {rid});
      assert after == before + {OfResource(k)};
    } else {
      assert after == before;
    }
  }

  lemma NewIdsOfOneMore(cid: Cid, rids: set<Rid>, rid: Rid, held: set<ResourceKey>)
    ensures |KeysOf(cid, rids + {rid}) - held| == |KeysOf(cid, rids) - held| + if ResourceKey(cid, rid) in held + KeysOf(cid, rids) then 0 else 1
  {
    NewInTwo(cid, rids, {rid}, held);
    OneKey(cid, rid);
    NewKey(held + KeysOf(cid, rids), ResourceKey(cid, rid));
  }

  lemma {:induction false} ResourcesCount(c: ArchivedCollection, resources: seq<ArchivedResource>, v: View, s: Stats)
    ensures Counts(s, ResourcesStats(c, resources, v, s), 0, 0,
                   |KeysOf(c.cid, RidsOf(resources)) - v.held|, |resources|,
                   |Ungoverned(PolicyKeysOf(c, RidsOf(resources)), v)|, PoliciesOffered(c, resources))
  {
    if resources == [] {
      OneKey(c.cid, "");
      assert RidsOf(resources) == {};
      assert KeysOf(c.cid, {}) - v.held == {} && Ungoverned(PolicyKeysOf(c, {}), v) == {};
    } else {
      var n := |resources| - 1;
      var rids, rid := RidsOf(resources[..n]), resources[n].rid;
      ResourcesCount(c, resources[..n], v, s);
      RidsOfOneMore(resources, n);
      assert resources[..n + 1] == resources;
      NewIdsOfOneMore(c.cid, rids, rid, v.held);
      PolicyKeysOfOneMore(c, rids, rid, v);
    }
  }

  lemma KeysOfOneMore(cid: Cid, rids: set<Rid>, rid: Rid)
    requires rid !in rids
    ensures |KeysOf(cid, rids + {rid})| == |KeysOf(cid, rids)| + 1
  {
    KeysOfUnion(cid, rids, {rid});
    OneKey(cid, rid);
    assert ResourceKey(cid, rid) !in KeysOf(cid, rids);
  }

  lemma {:induction false} SizeOfKeys(cid: Cid, rids: set<Rid>)
    ensures |KeysOf(cid, rids)| == |rids|
  {
    if rids == {} {
      OneKey(cid, "");
    } else {
      var rid :| rid in rids;
      var rest := rids - {rid};
      SizeOfKeys(cid, rest);
      KeysOfOneMore(cid, rest, rid);
      assert rest + {rid} == rids;
    }
  }

  lemma TombstonesCount(c: ArchivedCollection, rids: set<Rid>, v: View, s: Stats)
    ensures Counts(s, TombstonesStats(c, rids, v, s), 0, 0, |KeysOf(c.cid, rids) - v.held|, |rids|, 0, 0)
  {
    var keys := KeysOf(c.cid, rids);
    SizeOfKeys(c.cid, rids);
    assert keys == (keys - v.held) + (keys * v.held);
    SizeOfUnion(keys - v.held, keys * v.held);
  }

  /** The ids a Collection of the archive has, with a representation or as a tombstone. */
  function IdsOf(c: ArchivedCollection): set<ResourceKey> {
    KeysOf(c.cid, RidsOf(c.resources)) + KeysOf(c.cid, BuriedRids(c))
  }

  function PolicyKeysIn(c: ArchivedCollection): set<PolicyKey> {
    (if c.policy.Some? then {OfCollection(c.cid)} else {}) + PolicyKeysOf(c, RidsOf(c.resources))
  }

  /** Representations, repeated ids included, and tombstones without one. */
  function ItemsIn(c: ArchivedCollection): nat {
    |c.resources| + |BareRids(c)|
  }

  function OffersIn(c: ArchivedCollection): nat {
    OnePolicyIf(c.policy.Some?) + PoliciesOffered(c, c.resources)
  }

  lemma IdsCount(c: ArchivedCollection, held: set<ResourceKey>)
    ensures var rids, bare := KeysOf(c.cid, RidsOf(c.resources)), KeysOf(c.cid, BareRids(c));
            |IdsOf(c) - held| == |rids - held| + |bare - (held + rids)|
  {
    var rids := RidsOf(c.resources);
    NewInTwo(c.cid, rids, BareRids(c), held);
    KeysOfUnion(c.cid, rids, BuriedRids(c));
    assert rids + BareRids(c) == rids + BuriedRids(c);
  }

  lemma UngovernedAdds(a: set<PolicyKey>, b: set<PolicyKey>, v: View)
    requires a !! b
    ensures |Ungoverned(a + b, v)| == |Ungoverned(a, v)| + |Ungoverned(b, v)|
  {
    assert Ungoverned(a + b, v) == Ungoverned(a, v) + Ungoverned(b, v);
    SizeOfUnion(Ungoverned(a, v), Ungoverned(b, v));
  }

  lemma UngovernedOne(there: bool, k: PolicyKey, v: View)
    ensures |Ungoverned(if there then {k} else {}, v)| == OnePolicyIf(there && !Governed(v, k))
  {
    assert Ungoverned(if there then {k} else {}, v) == if there && !Governed(v, k) then {k} else {};
  }

  lemma UngovernedAlike(keys: set<PolicyKey>, v: View, w: View)
    requires forall k :: k in keys ==> (Governed(v, k) <==> Governed(w, k))
    ensures Ungoverned(keys, v) == Ungoverned(keys, w)
  {
  }

  lemma PoliciesInCount(c: ArchivedCollection, v: View)
    ensures |Ungoverned(PolicyKeysIn(c), v)| ==
            OnePolicyIf(c.policy.Some? && c.cid !in v.described) + |Ungoverned(PolicyKeysOf(c, RidsOf(c.resources)), WithDescription(c, v))|
  {
    var own, rest := if c.policy.Some? then {OfCollection(c.cid)} else {}, PolicyKeysOf(c, RidsOf(c.resources));
    assert own !! rest;
    UngovernedAdds(own, rest, v);
    UngovernedOne(c.policy.Some?, OfCollection(c.cid), v);
    UngovernedAlike(rest, v, WithDescription(c, v));
  }

  lemma CollectionCounts(c: ArchivedCollection, v: View, s: Stats)
    ensures Counts(s, CollectionStats(c, v, s), if c.cid in v.described then 0 else 1, 1, |IdsOf(c) - v.held|, ItemsIn(c),
                   |Ungoverned(PolicyKeysIn(c), v)|, OffersIn(c))
  {
    var described := WithDescription(c, v);
    var filled := WithResources(c, RidsOf(c.resources), described);
    var a := DescriptionStats(c, v, s);
    var b := ResourcesStats(c, c.resources, described, a);
    ResourcesCount(c, c.resources, described, a);
    TombstonesCount(c, BareRids(c), filled, b);
    IdsCount(c, v.held);
    PoliciesInCount(c, v);
  }

  function PolicyKeys(collections: seq<ArchivedCollection>): set<PolicyKey> {
    if collections == [] then {} else PolicyKeys(collections[..|collections| - 1]) + PolicyKeysIn(collections[|collections| - 1])
  }

  function Items(collections: seq<ArchivedCollection>): nat {
    if collections == [] then 0 else Items(collections[..|collections| - 1]) + ItemsIn(collections[|collections| - 1])
  }

  function Offers(collections: seq<ArchivedCollection>): nat {
    if collections == [] then 0 else Offers(collections[..|collections| - 1]) + OffersIn(collections[|collections| - 1])
  }

  lemma {:induction false} PolicyKeysAreUnderCids(collections: seq<ArchivedCollection>)
    ensures forall k :: k in PolicyKeys(collections) ==> !k.OfSpace? && CidOf(k) in Cids(collections)
  {
    if collections != [] {
      PolicyKeysAreUnderCids(collections[..|collections| - 1]);
      CidsOfOneMore(collections);
    }
  }

  lemma IdsApart(collections: Plan, n: nat)
    requires n + 1 == |collections|
    ensures IdsOf(collections[n]) !! ArchivedKeys(collections[..n]) + BuriedKeys(collections[..n])
  {
    PrefixOfPlan(collections, n);
    KeysAreUnderCids(collections[..n]);
    assert forall k :: k in IdsOf(collections[n]) ==> k.cid == collections[n].cid;
  }

  lemma OthersChangeNothing(ids: set<ResourceKey>, held: set<ResourceKey>, archived: set<ResourceKey>, buried: set<ResourceKey>)
    requires ids !! archived + buried
    ensures ids - (held + archived + buried) == ids - held
  {
  }

  lemma NewInBoth(archived: set<ResourceKey>, buried: set<ResourceKey>, a: set<ResourceKey>, b: set<ResourceKey>, held: set<ResourceKey>)
    requires a + b !! archived + buried
    ensures |((archived + a) + (buried + b)) - held| == |(archived + buried) - held| + |(a + b) - held|
  {
    assert ((archived + a) + (buried + b)) - held == ((archived + buried) - held) + ((a + b) - held);
    SizeOfUnion((archived + buried) - held, (a + b) - held);
  }

  lemma PoliciesSeenAsBefore(collections: Plan, v: View, n: nat)
    requires n + 1 == |collections|
    ensures Ungoverned(PolicyKeysIn(collections[n]), ViewAfter(collections[..n], v)) == Ungoverned(PolicyKeysIn(collections[n]), v)
  {
    var c, rest := collections[n], collections[..n];
    PrefixOfPlan(collections, n);
    forall k | k in PolicyKeysIn(c) ensures Governed(ViewAfter(rest, v), k) <==> Governed(v, k) {
      NotCarried(rest, v, k);
    }
    UngovernedAlike(PolicyKeysIn(c), ViewAfter(rest, v), v);
  }

  /** A Collection of the plan meets its own ids and policies as the destination had them. */
  lemma SeenAsBefore(collections: Plan, v: View, n: nat)
    requires v.described <= v.rows && n + 1 == |collections|
    ensures var c, u := collections[n], ViewAfter(collections[..n], v);
            && (c.cid in u.described <==> c.cid in v.described)
            && IdsOf(c) - u.held == IdsOf(c) - v.held
            && Ungoverned(PolicyKeysIn(c), u) == Ungoverned(PolicyKeysIn(c), v)
  {
    var rest := collections[..n];
    PrefixOfPlan(collections, n);
    MergedIds(rest, v);
    IdsApart(collections, n);
    OthersChangeNothing(IdsOf(collections[n]), v.held, ArchivedKeys(rest), BuriedKeys(rest));
    PoliciesSeenAsBefore(collections, v, n);
  }

  lemma NewIdsAdd(collections: Plan, held: set<ResourceKey>, n: nat)
    requires n + 1 == |collections|
    ensures var rest := collections[..n];
            |(ArchivedKeys(collections) + BuriedKeys(collections)) - held| ==
            |(ArchivedKeys(rest) + BuriedKeys(rest)) - held| + |IdsOf(collections[n]) - held|
  {
    var c, rest := collections[n], collections[..n];
    IdsApart(collections, n);
    NewInBoth(ArchivedKeys(rest), BuriedKeys(rest), KeysOf(c.cid, RidsOf(c.resources)), KeysOf(c.cid, BuriedRids(c)), held);
  }

  lemma PoliciesApart(collections: Plan, n: nat)
    requires n + 1 == |collections|
    ensures PolicyKeys(collections[..n]) !! PolicyKeysIn(collections[n])
  {
    PrefixOfPlan(collections, n);
    PolicyKeysAreUnderCids(collections[..n]);
    assert forall k :: k in PolicyKeysIn(collections[n]) ==> !k.OfSpace? && CidOf(k) == collections[n].cid;
  }

  lemma NewPoliciesAdd(collections: Plan, v: View, n: nat)
    requires n + 1 == |collections|
    ensures |Ungoverned(PolicyKeys(collections), v)| ==
            |Ungoverned(PolicyKeys(collections[..n]), v)| + |Ungoverned(PolicyKeysIn(collections[n]), v)|
  {
    PoliciesApart(collections, n);
    UngovernedAdds(PolicyKeys(collections[..n]), PolicyKeysIn(collections[n]), v);
  }

  lemma {:induction false} PlanCounts(collections: Plan, v: View, s: Stats)
    requires v.described <= v.rows
    ensures Counts(s, StatsAfter(collections, v, s), |Cids(collections) - v.described|, |collections|,
                   |(ArchivedKeys(collections) + BuriedKeys(collections)) - v.held|, Items(collections),
                   |Ungoverned(PolicyKeys(collections), v)|, Offers(collections))
    decreases |collections|
  {
    if collections == [] {
      assert Cids(collections) == {} && Ungoverned({}, v) == {};
    } else {
      var n := |collections| - 1;
      var rest := collections[..n];
      PrefixOfPlan(collections, n);
      PlanCounts(rest, v, s);
      CollectionCounts(collections[n], ViewAfter(rest, v), StatsAfter(rest, v, s));
      SeenAsBefore(collections, v, n);
      CidsOfOneMore(collections);
      OneMoreId(v.described, Cids(rest), collections[n].cid);
      NewIdsAdd(collections, v.held, n);
      NewPoliciesAdd(collections, v, n);
    }
  }

  /** The policies an archive carries. */
  function CarriedKeys(archive: Archive): set<PolicyKey> {
    (if archive.spacePolicy.Some? then {OfSpace} else {}) + PolicyKeys(archive.collections)
  }

  lemma {:induction false} PolicyKeysAreCarried(collections: seq<ArchivedCollection>, k: PolicyKey)
    ensures k in PolicyKeys(collections) <==> CollectionPolicyCarried(collections, k).Some?
  {
    if collections != [] {
      PolicyKeysAreCarried(collections[..|collections| - 1], k);
    }
  }

  lemma CarriedKeysAreCarried(archive: Archive)
    ensures forall k :: k in CarriedKeys(archive) <==> Carried(archive, k).Some?
  {
    forall k ensures k in CarriedKeys(archive) <==> Carried(archive, k).Some? {
      PolicyKeysAreUnderCids(archive.collections);
      PolicyKeysAreCarried(archive.collections, k);
    }
  }

  lemma ArchivePoliciesCount(archive: Archive, v: View)
    ensures |Ungoverned(CarriedKeys(archive), v)| ==
            OnePolicyIf(archive.spacePolicy.Some? && OfSpace !in v.policies) +
            |Ungoverned(PolicyKeys(archive.collections), WithSpacePolicy(archive.spacePolicy, v))|
  {
    var own, rest := if archive.spacePolicy.Some? then {OfSpace} else {}, PolicyKeys(archive.collections);
    PolicyKeysAreUnderCids(archive.collections);
    assert own !! rest;
    UngovernedAdds(own, rest, v);
    UngovernedOne(archive.spacePolicy.Some?, OfSpace, v);
    UngovernedAlike(rest, v, WithSpacePolicy(archive.spacePolicy, v));
  }

  lemma ReportCounts(archive: Archive, v: View)
    requires v.described <= v.rows
    ensures Counts(NO_STATS, Report(archive, v), |Cids(archive.collections) - v.described|, |archive.collections|,
                   |(ArchivedKeys(archive.collections) + BuriedKeys(archive.collections)) - v.held|, Items(archive.collections),
                   |Ungoverned(CarriedKeys(archive), v)|, OnePolicyIf(archive.spacePolicy.Some?) + Offers(archive.collections))
  {
    PlanCounts(archive.collections, WithSpacePolicy(archive.spacePolicy, v), SpacePolicyStats(archive.spacePolicy, v, NO_STATS));
    ArchivePoliciesCount(archive, v);
  }

  /** What an import reports, exactly: created are the Collections without a description before, the ids not held
      before, and the policies carried for what was not there; created and skipped together are all the archive has. */
  lemma ReportIsExact(archive: Archive, v: View)
    requires v.described <= v.rows
    ensures var r, missing := Report(archive, v), Ungoverned(CarriedKeys(archive), v);
            && r.collectionsCreated == |Cids(archive.collections) - v.described|
            && r.collectionsCreated + r.collectionsSkipped == |archive.collections|
            && r.resourcesCreated == |(ArchivedKeys(archive.collections) + BuriedKeys(archive.collections)) - v.held|
            && r.resourcesCreated + r.resourcesSkipped == Items(archive.collections)
            && (forall k :: k in missing <==> Carried(archive, k).Some? && !Governed(v, k))
            && r.policiesCreated == |missing|
            && r.policiesCreated + r.policiesSkipped == OnePolicyIf(archive.spacePolicy.Some?) + Offers(archive.collections)
  {
    ReportCounts(archive, v);
    CarriedKeysAreCarried(archive);
  }

  /** After an import nothing of the same archive counts as created. */
  lemma SecondReportIsIdle(archive: Archive, v: View)
    requires v.described <= v.rows
    ensures NothingCreated(Report(archive, Imported(archive, v)))
  {
    var w := Imported(archive, v);
    var start := WithSpacePolicy(archive.spacePolicy, v);
    MergedIds(archive.collections, start);
    ReportIsExact(archive, w);
    assert Cids(archive.collections) - w.described == {};
    assert (ArchivedKeys(archive.collections) + BuriedKeys(archive.collections)) - w.held == {};
    forall k | Carried(archive, k).Some? ensures Governed(w, k) {
      CarriedIsGoverned(archive, v, k);
    }
    assert Ungoverned(CarriedKeys(archive), w) == {};
  }

  lemma CarriedIsGoverned(archive: Archive, v: View, k: PolicyKey)
    requires v.described <= v.rows && Carried(archive, k).Some?
    ensures Governed(Imported(archive, v), k)
  {
    MergedIds(archive.collections, WithSpacePolicy(archive.spacePolicy, v));
    if k.OfSpace? {
      PoliciesAfter(archive, v, k);
    } else {
      PolicyKeysAreCarried(archive.collections, k);
      PolicyKeysAreThere(archive.collections, k);
    }
  }

  lemma {:induction false} PolicyKeysAreThere(collections: seq<ArchivedCollection>, k: PolicyKey)
    requires k in PolicyKeys(collections)
    ensures k.OfCollection? ==> k.cid in Cids(collections)
    ensures k.OfResource? ==> k.key in ArchivedKeys(collections)
  {
    CidsOfOneMore(collections);
    if k !in PolicyKeysIn(collections[|collections| - 1]) {
      PolicyKeysAreThere(collections[..|collections| - 1], k);
    }
  }
}
