/** No interleaving of checked writes, writes free of claims and deletes lets two live Resources share a claim. */
module UniquenessRuns {
  import opened Wrappers
  import B = BlindedIndex
  import opened EqualityIndex
  import opened UniqueClaims
  import opened JsonValues
  import opened UniquenessSteps

  /** A live Resource holds a claim: one of its representations, with its metadata, makes it. */
  ghost predicate Holds<T(!new)>(claims: Claiming<T>, s: State, id: Id, term: T) {
    exists r :: r in s.reps && r.id == id && term in claims(s.reps[r], CustomOf(s, id))
  }

  ghost predicate Disjoint<T(!new)>(claims: Claiming<T>, s: State) {
    forall a, b, term :: a != b && Holds(claims, s, a, term) ==> !Holds(claims, s, b, term)
  }

  // ---------- the invariant ----------

  ghost predicate LocksOk(s: State) {
    && (s.collectionLock.Some? ==>
          var t := s.collectionLock.value; t in s.procs && ClaimOp(s.procs[t].op) && s.procs[t].phase != Idle)
    && (forall id :: id in s.resourceLock ==>
          var t := s.resourceLock[id];
          t in s.procs && s.procs[t].op.id == id && (s.procs[t].phase == Holding || s.procs[t].phase == Pruning))
    && (forall t :: t in s.procs ==> ProcLocks(s, t, s.procs[t]))
  }

  predicate ProcLocks(s: State, t: ProcId, p: Proc) {
    && (ClaimOp(p.op) && p.phase != Idle ==> s.collectionLock == Some(t))
    && (!ClaimOp(p.op) ==> p.phase == Idle || p.phase == Holding || p.phase == Pruning)
    && (p.phase == Holding || p.phase == Pruning ==> p.op.id in s.resourceLock && s.resourceLock[p.op.id] == t)
    && (p.phase != Pruning ==> p.stale == {})
    && (forall r :: r in p.stale ==> r in s.reps && r.id == p.op.id)
    && (p.phase == Pruning ==> PruningOk(s, p))
  }

  /** A Resource that is there has the metadata. */
  predicate Describes(s: State, id: Id, custom: Option<Json>) {
    forall r :: r in s.reps && r.id == id ==> CustomOf(s, id) == custom
  }

  /** The new file is there, and the others of its Resource are the stale ones. */
  predicate Replacing(s: State, stale: set<Rep>, rep: Rep) {
    rep in s.reps && rep !in stale && forall r :: r in s.reps && r.id == rep.id ==> r in stale || r == rep
  }

  /** While a section prunes, the files of its Resource are the stale ones and the one it wrote, as it wrote it. */
  predicate PruningOk(s: State, p: Proc) {
    match p.op
    case MetaWrite(id, custom) => p.stale == {} && Describes(s, id, custom)
    case FreeMeta(id, custom) => p.stale == {} && Describes(s, id, custom)
    case Delete(id) => forall r :: r in s.reps && r.id == id ==> r in p.stale
    case JsonWrite(id, media, doc) => Replacing(s, p.stale, Rep(id, media)) && s.reps[Rep(id, media)] == Some(doc)
    case FreeWrite(id, media, content) => Replacing(s, p.stale, Rep(id, media)) && s.reps[Rep(id, media)] == content
  }

  /** A representation nobody is about to remove. */
  predicate Stable(s: State, r: Rep) {
    r in s.reps &&
    (r.id in s.resourceLock && s.resourceLock[r.id] in s.procs ==> r !in s.procs[s.resourceLock[r.id]].stale)
  }

  ghost predicate FilesOk(s: State) {
    && (forall q, r :: Stable(s, q) && Stable(s, r) && q.id == r.id ==> q == r)
    && (forall id :: id in s.custom ==> Backed(s, id))
  }

  /** Metadata outlives its Resource's files only while the delete that removed them finishes. */
  ghost predicate Backed(s: State, id: Id) {
    || (exists r :: Stable(s, r) && r.id == id)
    || BeingDeleted(s, id)
  }

  predicate BeingDeleted(s: State, id: Id) {
    id in s.resourceLock && s.resourceLock[id] in s.procs && s.procs[s.resourceLock[id]].op.Delete? &&
    s.procs[s.resourceLock[id]].phase == Pruning
  }

  /** What a scan in progress knows: a claim of another Resource can only disappear behind its back. */
  ghost predicate ScanOk<T(!new)>(claims: Claiming<T>, s: State, p: Proc) {
    && (forall r, term :: r in s.reps && r.id != p.op.id && term in claims(s.reps[r], None) ==>
          r in p.listed && (r in p.contents ==> p.contents[r] == s.reps[r]))
    && (forall r :: r in s.reps && r.id != p.op.id && claims(None, CustomOf(s, r.id)) != iset{} ==> exists q :: q in p.listed && q.id == r.id)
    && (forall q :: q in p.customs && claims(None, CustomOf(s, q.id)) != iset{} ==> p.customs[q] == CustomOf(s, q.id))
  }

  ghost predicate OwnOk<T(!new)>(claims: Claiming<T>, s: State, p: Proc) {
    if p.op.JsonWrite? then
      p.own.NotRead? || (p.own.Seen? && (p.own.value == CustomOf(s, p.op.id) || claims(None, CustomOf(s, p.op.id)) == iset{}))
    else
      forall r, term :: Stable(s, r) && r.id == p.op.id && term in claims(s.reps[r], None) ==>
        match p.own
        case NotRead => true
        case Picked(q) => q == r
        case Seen(value) => value == s.reps[r]
  }

  ghost predicate PassedCheck<T(!new)>(claims: Claiming<T>, s: State, p: Proc)
    requires ClaimOp(p.op)
  {
    p.own.Seen? && forall id, term :: id != p.op.id && term in NewClaims(claims, p) ==> !Holds(claims, s, id, term)
  }

  predicate Unread(p: Proc) {
    p.own.NotRead? && p.contents == map[] && p.customs == map[]
  }

  ghost predicate ProcOk<T(!new)>(claims: Claiming<T>, s: State, p: Proc) {
    && Fits(claims, p.op)
    && (ClaimOp(p.op) ==>
      match p.phase
      case Idle => Unread(p)
      case Locked => Unread(p)
      case Scanning => ScanOk(claims, s, p) && OwnOk(claims, s, p)
      case Checked => PassedCheck(claims, s, p) && OwnOk(claims, s, p)
      case Holding => PassedCheck(claims, s, p) && OwnOk(claims, s, p)
      case Pruning => true)
  }

  ghost predicate Inv<T(!new)>(claims: Claiming<T>, s: State) {
    LocksOk(s) && FilesOk(s) && Disjoint(claims, s) && forall t :: t in s.procs ==> ProcOk(claims, s, s.procs[t])
  }

  // ---------- steps that touch no file ----------

  predicate IsLocal(a: Action) {
    !a.Write? && !a.Prune? && !a.Finish?
  }

  /** What a step of `t` leaves alone for everyone else: their records, and the locks they hold. */
  ghost predicate OthersKept(s: State, s': State, t: ProcId) {
    && (forall u :: u != t ==> (u in s'.procs <==> u in s.procs))
    && (forall u :: u != t && u in s.procs ==> s'.procs[u] == s.procs[u])
    && (forall u :: u != t ==> (s'.collectionLock == Some(u) <==> s.collectionLock == Some(u)))
    && (forall id :: id in s.resourceLock && s.resourceLock[id] != t ==>
          id in s'.resourceLock && s'.resourceLock[id] == s.resourceLock[id])
    && (forall id :: id in s'.resourceLock && s'.resourceLock[id] != t ==>
          id in s.resourceLock && s.resourceLock[id] == s'.resourceLock[id])
  }

  lemma LocalLeavesOthers<T(!new)>(claims: Claiming<T>, s: State, t: ProcId, a: Action)
    requires Enabled(claims, s, t, a) && IsLocal(a)
    requires LocksOk(s)
    ensures var s' := Do(claims, s, t, a); s'.reps == s.reps && s'.custom == s.custom && OthersKept(s, s', t)
  {
    if !a.Begin? { assert ProcLocks(s, t, s.procs[t]); }
  }

  lemma LocalShape<T(!new)>(claims: Claiming<T>, s: State, t: ProcId, a: Action)
    requires Enabled(claims, s, t, a) && IsLocal(a)
    requires LocksOk(s)
    ensures var s' := Do(claims, s, t, a);
            && (t in s'.procs ==> ProcLocks(s', t, s'.procs[t]) && s'.procs[t].phase != Pruning)
            && (t !in s'.procs ==> s'.collectionLock != Some(t) && forall id :: id in s'.resourceLock ==> s'.resourceLock[id] != t)
            && (t in s.procs ==> s.procs[t].phase != Pruning)
            && (s'.collectionLock == Some(t) ==> ClaimOp(s'.procs[t].op) && s'.procs[t].phase != Idle)
            && (forall id :: id in s'.resourceLock && s'.resourceLock[id] == t ==>
                  s'.procs[t].op.id == id && s'.procs[t].phase == Holding)
  {
    if !a.Begin? { assert ProcLocks(s, t, s.procs[t]); }
  }

  lemma OtherProcLocks(s: State, s': State, t: ProcId, u: ProcId)
    requires OthersKept(s, s', t) && u != t && u in s.procs && ProcLocks(s, u, s.procs[u])
    requires s.procs[u].phase == Pruning ==>
               && (forall r: Rep :: r.id == s.procs[u].op.id ==> (r in s'.reps <==> r in s.reps) && (r in s.reps ==> s'.reps[r] == s.reps[r]))
               && CustomOf(s', s.procs[u].op.id) == CustomOf(s, s.procs[u].op.id)
    ensures u in s'.procs && ProcLocks(s', u, s'.procs[u])
  {
  }

  lemma OthersKeepLocks(s: State, s': State, t: ProcId)
    requires LocksOk(s) && OthersKept(s, s', t) && s'.reps == s.reps && s'.custom == s.custom
    requires t in s'.procs ==> ProcLocks(s', t, s'.procs[t])
    requires t !in s'.procs ==> s'.collectionLock != Some(t) && forall id :: id in s'.resourceLock ==> s'.resourceLock[id] != t
    requires s'.collectionLock == Some(t) ==> t in s'.procs && ClaimOp(s'.procs[t].op) && s'.procs[t].phase != Idle
    requires forall id :: id in s'.resourceLock && s'.resourceLock[id] == t ==>
                            t in s'.procs && s'.procs[t].op.id == id && s'.procs[t].phase == Holding
    ensures LocksOk(s')
  {
    forall u | u in s'.procs ensures ProcLocks(s', u, s'.procs[u]) {
      if u != t { OtherProcLocks(s, s', t, u); }
    }
  }

  lemma LocalKeepsLocks<T(!new)>(claims: Claiming<T>, s: State, t: ProcId, a: Action)
    requires LocksOk(s) && Enabled(claims, s, t, a) && IsLocal(a)
    ensures LocksOk(Do(claims, s, t, a))
  {
    LocalLeavesOthers(claims, s, t, a);
    LocalShape(claims, s, t, a);
    OthersKeepLocks(s, Do(claims, s, t, a), t);
  }

  /** A process with nothing to remove, before and after, moves no file's stability. */
  lemma QuietKeepsStable(s: State, s': State, t: ProcId)
    requires s'.reps == s.reps && s'.custom == s.custom && OthersKept(s, s', t)
    requires t in s.procs ==> s.procs[t].stale == {} && s.procs[t].phase != Pruning
    requires t in s'.procs ==> s'.procs[t].stale == {}
    ensures forall r :: Stable(s', r) <==> Stable(s, r)
    ensures forall id :: Backed(s, id) ==> Backed(s', id)
  {
    forall r ensures Stable(s', r) <==> Stable(s, r) {
      if r.id in s.resourceLock && s.resourceLock[r.id] != t {
        assert s'.resourceLock[r.id] == s.resourceLock[r.id];
      }
    }
    forall id | Backed(s, id) ensures Backed(s', id) {
      if r :| Stable(s, r) && r.id == id {
        assert Stable(s', r);
      }
    }
  }

  lemma LocalKeepsStable<T(!new)>(claims: Claiming<T>, s: State, t: ProcId, a: Action)
    requires LocksOk(s) && Enabled(claims, s, t, a) && IsLocal(a)
    ensures var s' := Do(claims, s, t, a);
            && s'.reps == s.reps && s'.custom == s.custom
            && (forall r :: Stable(s', r) <==> Stable(s, r))
            && (forall id :: Backed(s, id) ==> Backed(s', id))
  {
    LocalLeavesOthers(claims, s, t, a);
    LocalShape(claims, s, t, a);
    if t in s.procs { assert ProcLocks(s, t, s.procs[t]); }
    QuietKeepsStable(s, Do(claims, s, t, a), t);
  }

  /** A process whose own record did not change keeps what it knows as long as the files did not either. */
  lemma SameFilesKeepProcOk<T(!new)>(claims: Claiming<T>, s: State, s': State, p: Proc)
    requires s'.reps == s.reps && s'.custom == s.custom && (forall r :: Stable(s', r) <==> Stable(s, r))
    requires ProcOk(claims, s, p)
    ensures ProcOk(claims, s', p)
  {
    if ClaimOp(p.op) && (p.phase == Checked || p.phase == Holding) {
      forall id, term | Holds(claims, s', id, term) ensures Holds(claims, s, id, term) {
      }
    }
  }

  /** Whatever file of its Resource a metadata write picks, a stable one that makes claims is that file:
      only a write free of claims or a delete can be pruning meanwhile. */
  lemma PickIsStable<T(!new)>(claims: Claiming<T>, s: State, t: ProcId, q: Rep, r: Rep, term: T)
    requires LocksOk(s) && FilesOk(s) && t in s.procs && s.procs[t].op.MetaWrite? && s.procs[t].phase == Scanning
    requires forall u :: u in s.procs ==> Fits(claims, s.procs[u].op)
    requires q in s.reps && Stable(s, r) && q.id == r.id && term in claims(s.reps[r], None)
    ensures q == r
  {
    if q.id in s.resourceLock {
      var u := s.resourceLock[q.id];
      assert ProcLocks(s, u, s.procs[u]) && ProcLocks(s, t, s.procs[t]);
      assert Fits(claims, s.procs[u].op);
    }
    assert Stable(s, q);
  }

  /** Whatever another Resource claims now, the scan has read. */
  lemma HeldIsScanned<T(!new)>(claims: Claiming<T>, s: State, p: Proc, r: Rep, term: T)
    requires Additive(claims)
    requires ScanOk(claims, s, p) && ScanDone(p)
    requires r in s.reps && r.id != p.op.id && term in claims(s.reps[r], CustomOf(s, r.id))
    ensures exists q :: q in p.listed && term in claims(p.contents[q], p.customs[q])
  {
    ClaimsAdd(claims, s.reps[r], CustomOf(s, r.id));
    if term in claims(s.reps[r], None) {
      ClaimsAdd(claims, p.contents[r], p.customs[r]);
    } else {
      var q :| q in p.listed && q.id == r.id;
      ClaimsAdd(claims, p.contents[q], p.customs[q]);
    }
  }

  /** The check refuses any claim some other live Resource holds now, though it was read piecemeal. */
  lemma CheckIsSound<T(!new)>(claims: Claiming<T>, s: State, p: Proc)
    requires Additive(claims)
    requires ClaimOp(p.op) && ScanOk(claims, s, p) && ScanDone(p) && NoConflict(claims, p)
    ensures PassedCheck(claims, s, p)
  {
    forall id, term | id != p.op.id && Holds(claims, s, id, term) ensures term !in NewClaims(claims, p) {
      var r :| r in s.reps && r.id == id && term in claims(s.reps[r], CustomOf(s, id));
      HeldIsScanned(claims, s, p, r, term);
    }
  }

  lemma ListingIsComplete<T(!new)>(claims: Claiming<T>, s: State, t: ProcId)
    requires LocksOk(s) && t in s.procs && s.procs[t].phase == Locked && Unread(s.procs[t])
    ensures var s' := Do(claims, s, t, List); ProcOk(claims, s', s'.procs[t])
  {
    var s' := Do(claims, s, t, List);
    var p' := s'.procs[t];
    assert ProcLocks(s, t, s.procs[t]);
    assert p'.listed == set r | r in s.reps && r.id != p'.op.id;
    assert ScanOk(claims, s', p') && OwnOk(claims, s', p');
  }

  lemma ReadsKeepScan<T(!new)>(claims: Claiming<T>, s: State, t: ProcId, a: Action)
    requires LocksOk(s) && Enabled(claims, s, t, a) && (a.ReadContent? || a.ReadCustom? || a.ReadOwn?)
    requires ProcOk(claims, s, s.procs[t])
    ensures var p' := Do(claims, s, t, a).procs[t]; ProcOk(claims, s, p')
  {
    assert ProcLocks(s, t, s.procs[t]);
  }

  lemma PickKeepsScan<T(!new)>(claims: Claiming<T>, s: State, t: ProcId, choice: Option<Rep>)
    requires LocksOk(s) && FilesOk(s) && Enabled(claims, s, t, PickOwn(choice)) && forall u :: u in s.procs ==> ProcOk(claims, s, s.procs[u])
    ensures var p' := Do(claims, s, t, PickOwn(choice)).procs[t]; ProcOk(claims, s, p')
  {
    var p' := Do(claims, s, t, PickOwn(choice)).procs[t];
    forall r, term | Stable(s, r) && r.id == p'.op.id && term in claims(s.reps[r], None)
      ensures p'.own == Picked(r)
    {
      assert r in RepsOf(s, p'.op.id);
      PickIsStable(claims, s, t, choice.value, r, term);
    }
  }

  /** A process that scans knows the files as they are. */
  lemma ScanKeepsOwnProcOk<T(!new)>(claims: Claiming<T>, s: State, t: ProcId, a: Action)
    requires Additive(claims)
    requires Inv(claims, s) && Enabled(claims, s, t, a) && (a.PickOwn? || a.Check? || a.ReadContent? || a.ReadCustom? || a.ReadOwn?)
    ensures t in Do(claims, s, t, a).procs && ProcOk(claims, s, Do(claims, s, t, a).procs[t])
  {
    match a {
      case PickOwn(choice) => PickKeepsScan(claims, s, t, choice);
      case Check => CheckIsSound(claims, s, s.procs[t]);
      case _ => ReadsKeepScan(claims, s, t, a);
    }
  }

  lemma LocalKeepsOwnProcOk<T(!new)>(claims: Claiming<T>, s: State, t: ProcId, a: Action)
    requires Additive(claims)
    requires Inv(claims, s) && Enabled(claims, s, t, a) && IsLocal(a) && !a.Abort?
    ensures var s' := Do(claims, s, t, a); t in s'.procs && ProcOk(claims, s', s'.procs[t])
  {
    var s' := Do(claims, s, t, a);
    LocalKeepsStable(claims, s, t, a);
    if a.List? {
      ListingIsComplete(claims, s, t);
    } else if a.TakeResource? {
      SameFilesKeepProcOk(claims, s, s', s'.procs[t]);
    } else if !a.Begin? && !a.TakeCollection? {
      ScanKeepsOwnProcOk(claims, s, t, a);
      SameFilesKeepProcOk(claims, s, s', s'.procs[t]);
    }
  }

  lemma LocalKeepsInv<T(!new)>(claims: Claiming<T>, s: State, t: ProcId, a: Action)
    requires Additive(claims)
    requires Inv(claims, s) && Enabled(claims, s, t, a) && IsLocal(a)
    ensures Inv(claims, Do(claims, s, t, a))
  {
    var s' := Do(claims, s, t, a);
    LocalKeepsLocks(claims, s, t, a);
    LocalKeepsStable(claims, s, t, a);
    forall x, y, term | x != y && Holds(claims, s', x, term) ensures !Holds(claims, s', y, term) {
      assert Holds(claims, s, x, term);
      assert !Holds(claims, s, y, term);
    }
    forall u | u in s'.procs ensures ProcOk(claims, s', s'.procs[u]) {
      if u == t {
        LocalKeepsOwnProcOk(claims, s, t, a);
      } else {
        SameFilesKeepProcOk(claims, s, s', s.procs[u]);
      }
    }
  }

  // ---------- steps that can only take claims away ----------

  /** Files and metadata only go, except for a file or metadata without claims; such a file appears beside other
      files of its Resource or where there is no metadata. */
  ghost predicate Shrinks<T(!new)>(claims: Claiming<T>, s: State, s': State) {
    && (forall r :: r in s'.reps ==> (r in s.reps && s'.reps[r] == s.reps[r]) || claims(s'.reps[r], None) == iset{})
    && (forall r :: r in s'.reps && r !in s.reps && r.id in s'.custom ==> exists q :: q in s.reps && q.id == r.id)
    && (forall id :: CustomOf(s', id) == CustomOf(s, id) || claims(None, CustomOf(s', id)) == iset{})
    && (forall r :: Stable(s', r) ==> claims(s'.reps[r], None) == iset{} || Stable(s, r))
  }

  lemma ShrinkKeepsHolds<T(!new)>(claims: Claiming<T>, s: State, s': State, id: Id, term: T)
    requires Additive(claims)
    requires Shrinks(claims, s, s') && Holds(claims, s', id, term)
    ensures Holds(claims, s, id, term)
  {
    ClaimsAdd(claims, None, None);
    var r :| r in s'.reps && r.id == id && term in claims(s'.reps[r], CustomOf(s', id));
    ClaimsAdd(claims, s'.reps[r], CustomOf(s', id));
    if r in s.reps {
      ClaimsAdd(claims, s.reps[r], CustomOf(s, id));
    } else {
      var q :| q in s.reps && q.id == r.id;
      ClaimsAdd(claims, s.reps[q], CustomOf(s, id));
    }
  }

  lemma ShrinkKeepsProcOk<T(!new)>(claims: Claiming<T>, s: State, s': State, p: Proc)
    requires Additive(claims)
    requires Shrinks(claims, s, s') && ProcOk(claims, s, p)
    ensures ProcOk(claims, s', p)
  {
    ClaimsAdd(claims, None, None);
    if ClaimOp(p.op) {
      if p.phase == Scanning {
        forall r | r in s'.reps && r.id != p.op.id && claims(None, CustomOf(s', r.id)) != iset{} ensures exists q :: q in p.listed && q.id == r.id {
          if r !in s.reps {
            var q0 :| q0 in s.reps && q0.id == r.id;
          }
        }
      } else if p.phase == Checked || p.phase == Holding {
        forall id, term | id != p.op.id && term in NewClaims(claims, p) ensures !Holds(claims, s', id, term) {
          if Holds(claims, s', id, term) { ShrinkKeepsHolds(claims, s, s', id, term); }
        }
      }
    }
  }

  lemma ShrinkKeepsDisjoint<T(!new)>(claims: Claiming<T>, s: State, s': State)
    requires Additive(claims)
    requires Shrinks(claims, s, s') && Disjoint(claims, s)
    ensures Disjoint(claims, s')
  {
    forall x, y, term | x != y && Holds(claims, s', x, term) ensures !Holds(claims, s', y, term) {
      ShrinkKeepsHolds(claims, s, s', x, term);
      if Holds(claims, s', y, term) { ShrinkKeepsHolds(claims, s, s', y, term); }
    }
  }

  // ---------- the file steps ----------

  /** Assembling the lock part of the invariant after a step of `t` that keeps its locks. */
  lemma LocksReassembled(s: State, s': State, t: ProcId)
    requires LocksOk(s) && t in s.procs && t in s'.procs && OthersKept(s, s', t)
    requires s.procs[t].phase == Holding || s.procs[t].phase == Pruning
    requires s'.procs[t].phase == Pruning && s'.procs[t].op == s.procs[t].op
    requires s'.collectionLock == s.collectionLock && s'.resourceLock == s.resourceLock
    requires forall r: Rep :: r.id != s.procs[t].op.id ==> (r in s'.reps <==> r in s.reps) && (r in s.reps ==> s'.reps[r] == s.reps[r])
    requires forall id :: id != s.procs[t].op.id ==> CustomOf(s', id) == CustomOf(s, id)
    requires ProcLocks(s', t, s'.procs[t])
    ensures LocksOk(s')
  {
    assert ProcLocks(s, t, s.procs[t]);
    forall u | u in s'.procs ensures ProcLocks(s', u, s'.procs[u]) {
      if u != t {
        assert ProcLocks(s, u, s.procs[u]);
        OtherProcLocks(s, s', t, u);
      }
    }
  }

  lemma SameStableKeepsFiles(s: State, s': State)
    requires FilesOk(s) && forall r :: Stable(s', r) <==> Stable(s, r)
    requires forall r :: r in s'.reps ==> r in s.reps && s'.reps[r] == s.reps[r]
    requires forall id :: id in s'.custom ==> id in s.custom && (BeingDeleted(s, id) ==> BeingDeleted(s', id))
    ensures FilesOk(s')
  {
    forall id | id in s'.custom ensures Backed(s', id) {
      assert Backed(s, id);
      if r :| Stable(s, r) && r.id == id { assert Stable(s', r); }
    }
  }

  lemma PruneKeepsStable(s: State, t: ProcId, p: Proc, rep: Rep)
    requires LocksOk(s) && t in s.procs && s.procs[t] == p && p.phase == Pruning && rep in p.stale
    ensures forall r :: Stable(DoPrune(s, t, p, rep), r) <==> Stable(s, r)
  {
    assert ProcLocks(s, t, p);
  }

  lemma PruneKeepsLocks(s: State, t: ProcId, p: Proc, rep: Rep)
    requires LocksOk(s) && t in s.procs && s.procs[t] == p && p.phase == Pruning && rep in p.stale
    ensures LocksOk(DoPrune(s, t, p, rep))
  {
    var s' := DoPrune(s, t, p, rep);
    assert ProcLocks(s, t, p);
    assert ProcLocks(s', t, s'.procs[t]);
    LocksReassembled(s, s', t);
  }

  lemma PruneKeepsFiles(s: State, t: ProcId, p: Proc, rep: Rep)
    requires LocksOk(s) && FilesOk(s) && t in s.procs && s.procs[t] == p && p.phase == Pruning && rep in p.stale
    ensures LocksOk(DoPrune(s, t, p, rep)) && FilesOk(DoPrune(s, t, p, rep))
  {
    PruneKeepsLocks(s, t, p, rep);
    PruneKeepsStable(s, t, p, rep);
    SameStableKeepsFiles(s, DoPrune(s, t, p, rep));
  }

  lemma PruneShrinks<T(!new)>(claims: Claiming<T>, s: State, t: ProcId, p: Proc, rep: Rep)
    requires forall r :: Stable(DoPrune(s, t, p, rep), r) <==> Stable(s, r)
    ensures Shrinks(claims, s, DoPrune(s, t, p, rep))
  {
  }

  lemma UnlockedShape(s: State, t: ProcId)
    ensures var s' := Unlocked(s, t);
            && OthersKept(s, s', t) && s'.reps == s.reps && s'.custom == s.custom && t !in s'.procs
            && s'.collectionLock != Some(t) && forall id :: id in s'.resourceLock ==> s'.resourceLock[id] != t
  {
  }

  lemma FinishShape(s: State, t: ProcId, p: Proc)
    ensures var s' := DoFinish(s, t, p);
            && OthersKept(s, s', t) && s'.reps == s.reps && t !in s'.procs
            && (forall id :: id != p.op.id ==> CustomOf(s', id) == CustomOf(s, id))
            && s'.collectionLock != Some(t) && forall id :: id in s'.resourceLock ==> s'.resourceLock[id] != t
  {
    UnlockedShape(if p.op.Delete? then s.(custom := s.custom - {p.op.id}) else s, t);
  }

  lemma FinishKeepsLocks(s: State, t: ProcId, p: Proc)
    requires LocksOk(s) && t in s.procs && s.procs[t] == p && p.phase == Pruning && p.stale == {}
    ensures LocksOk(DoFinish(s, t, p))
  {
    var s' := DoFinish(s, t, p);
    FinishShape(s, t, p);
    forall u | u in s'.procs ensures ProcLocks(s', u, s'.procs[u]) {
      assert ProcLocks(s, u, s.procs[u]);
      OtherProcLocks(s, s', t, u);
    }
  }

  lemma FinishKeepsStable(s: State, t: ProcId, p: Proc)
    requires LocksOk(s) && t in s.procs && s.procs[t] == p && p.phase == Pruning && p.stale == {}
    ensures var s' := DoFinish(s, t, p);
            && (forall r :: Stable(s', r) <==> Stable(s, r))
            && (forall id :: id in s'.custom && BeingDeleted(s, id) ==> BeingDeleted(s', id))
  {
    var s' := DoFinish(s, t, p);
    FinishShape(s, t, p);
    forall r ensures Stable(s', r) <==> Stable(s, r) {
      if r.id in s.resourceLock && s.resourceLock[r.id] != t {
        assert s'.resourceLock[r.id] == s.resourceLock[r.id];
      }
    }
    forall id | id in s'.custom && BeingDeleted(s, id) ensures BeingDeleted(s', id) {
      assert s.resourceLock[id] != t;
    }
  }

  lemma FinishKeepsFiles(s: State, t: ProcId, p: Proc)
    requires LocksOk(s) && FilesOk(s) && t in s.procs && s.procs[t] == p && p.phase == Pruning && p.stale == {}
    ensures LocksOk(DoFinish(s, t, p)) && FilesOk(DoFinish(s, t, p))
  {
    FinishKeepsLocks(s, t, p);
    FinishKeepsStable(s, t, p);
    SameStableKeepsFiles(s, DoFinish(s, t, p));
  }

  lemma FinishShrinks<T(!new)>(claims: Claiming<T>, s: State, t: ProcId, p: Proc)
    requires Additive(claims)
    requires forall r :: Stable(DoFinish(s, t, p), r) <==> Stable(s, r)
    ensures Shrinks(claims, s, DoFinish(s, t, p))
  {
    FinishShape(s, t, p);
  }

  /** Under the Resource lock, before writing, every file of the Resource is stable and its metadata is
      backed by one of them. */
  lemma HoldingView(s: State, t: ProcId)
    requires LocksOk(s) && FilesOk(s) && t in s.procs && s.procs[t].phase == Holding
    ensures forall r :: r in s.reps && r.id == s.procs[t].op.id ==> Stable(s, r)
    ensures s.procs[t].op.id in s.custom ==> RepsOf(s, s.procs[t].op.id) != {}
  {
    var id := s.procs[t].op.id;
    assert ProcLocks(s, t, s.procs[t]);
    if id in s.custom {
      assert Backed(s, id);
      var r :| Stable(s, r) && r.id == id;
      assert r in RepsOf(s, id);
    }
  }

  /** After a content write exactly the new file is stable. */
  lemma ContentWriteStable(s: State, t: ProcId, p: Proc, content: Option<Json>)
    requires LocksOk(s) && t in s.procs && s.procs[t] == p && p.phase == Holding && (p.op.JsonWrite? || p.op.FreeWrite?)
    ensures var s' := DoContentWrite(s, t, p, content);
            forall r: Rep :: Stable(s', r) <==> if r.id == p.op.id then r == NewRep(p.op) else Stable(s, r)
  {
    var s' := DoContentWrite(s, t, p, content);
    assert ProcLocks(s, t, p);
    forall r: Rep ensures Stable(s', r) <==> if r.id == p.op.id then r == NewRep(p.op) else Stable(s, r) {
      if r.id in s.resourceLock && r.id != p.op.id {
        assert s.resourceLock[r.id] != t;
      }
    }
  }

  lemma ContentWriteKeepsLocks(s: State, t: ProcId, p: Proc, content: Option<Json>)
    requires LocksOk(s) && t in s.procs && s.procs[t] == p && p.phase == Holding && ((p.op.JsonWrite? && content == Some(p.op.doc)) || (p.op.FreeWrite? && content == p.op.content))
    ensures LocksOk(DoContentWrite(s, t, p, content))
  {
    var s' := DoContentWrite(s, t, p, content);
    assert ProcLocks(s, t, p);
    assert ProcLocks(s', t, s'.procs[t]);
    LocksReassembled(s, s', t);
  }

  lemma ContentWriteKeepsBacked(s: State, t: ProcId, p: Proc, content: Option<Json>, id: Id)
    requires LocksOk(s) && FilesOk(s) && t in s.procs && s.procs[t] == p && p.phase == Holding && (p.op.JsonWrite? || p.op.FreeWrite?)
    requires id in DoContentWrite(s, t, p, content).custom
    ensures Backed(DoContentWrite(s, t, p, content), id)
  {
    var s' := DoContentWrite(s, t, p, content);
    ContentWriteStable(s, t, p, content);
    if id == p.op.id {
      assert Stable(s', NewRep(p.op));
    } else {
      OtherStaysBacked(s, s', t, id);
    }
  }

  lemma ContentWriteKeepsFiles(s: State, t: ProcId, p: Proc, content: Option<Json>)
    requires LocksOk(s) && FilesOk(s) && t in s.procs && s.procs[t] == p && p.phase == Holding
    requires (p.op.JsonWrite? && content == Some(p.op.doc)) || (p.op.FreeWrite? && content == p.op.content)
    ensures var s' := DoContentWrite(s, t, p, content);
            && LocksOk(s') && FilesOk(s')
            && forall r: Rep :: Stable(s', r) <==> if r.id == p.op.id then r == NewRep(p.op) else Stable(s, r)
  {
    var s' := DoContentWrite(s, t, p, content);
    ContentWriteKeepsLocks(s, t, p, content);
    ContentWriteStable(s, t, p, content);
    forall id | id in s'.custom ensures Backed(s', id) {
      ContentWriteKeepsBacked(s, t, p, content, id);
    }
  }

  lemma OtherStaysBacked(s: State, s': State, t: ProcId, id: Id)
    requires LocksOk(s) && OthersKept(s, s', t) && Backed(s, id) && t in s.procs && s.procs[t].op.id != id
    requires forall r: Rep :: r.id == id ==> (Stable(s', r) <==> Stable(s, r))
    ensures Backed(s', id)
  {
    if r :| Stable(s, r) && r.id == id { assert Stable(s', r); }
  }

  lemma MetaWriteShape(s: State, t: ProcId, p: Proc, custom: Option<Json>)
    requires LocksOk(s) && t in s.procs && s.procs[t] == p && p.phase == Holding && (p.op.MetaWrite? || p.op.FreeMeta?)
    ensures var s' := DoMetaWrite(s, t, p, custom);
            OthersKept(s, s', t) && forall r: Rep :: Stable(s', r) <==> Stable(s, r)
  {
    assert ProcLocks(s, t, p);
  }

  lemma MetaWriteDescribes(s: State, t: ProcId, p: Proc)
    requires p.op.MetaWrite? || p.op.FreeMeta?
    ensures var s' := DoMetaWrite(s, t, p, p.op.custom);
            && s'.reps == s.reps && Describes(s', p.op.id, p.op.custom) && s'.procs == s.procs[t := p.(phase := Pruning)]
            && forall id :: id != p.op.id ==> CustomOf(s', id) == CustomOf(s, id)
  {
    forall r | r in s.reps && r.id == p.op.id ensures RepsOf(s, p.op.id) != {} {
      assert r in RepsOf(s, p.op.id);
    }
  }

  lemma MetaWriteKeepsLocks(s: State, t: ProcId, p: Proc, custom: Option<Json>)
    requires LocksOk(s) && t in s.procs && s.procs[t] == p && p.phase == Holding && (p.op.MetaWrite? || p.op.FreeMeta?) && custom == p.op.custom
    ensures var s' := DoMetaWrite(s, t, p, custom);
            LocksOk(s') && OthersKept(s, s', t) && forall r: Rep :: Stable(s', r) <==> Stable(s, r)
  {
    var s' := DoMetaWrite(s, t, p, custom);
    MetaWriteShape(s, t, p, custom);
    MetaWriteDescribes(s, t, p);
    assert ProcLocks(s, t, p);
    assert ProcLocks(s', t, s'.procs[t]);
    LocksReassembled(s, s', t);
  }

  lemma MetaWriteKeepsFiles(s: State, t: ProcId, p: Proc, custom: Option<Json>)
    requires LocksOk(s) && FilesOk(s) && t in s.procs && s.procs[t] == p && p.phase == Holding && (p.op.MetaWrite? || p.op.FreeMeta?) && custom == p.op.custom
    ensures var s' := DoMetaWrite(s, t, p, custom); LocksOk(s') && FilesOk(s')
  {
    var s' := DoMetaWrite(s, t, p, custom);
    MetaWriteKeepsLocks(s, t, p, custom);
    HoldingView(s, t);
    forall id | id in s'.custom ensures Backed(s', id) {
      if id == p.op.id {
        var r :| r in RepsOf(s, id);
        assert Stable(s', r);
      } else {
        OtherStaysBacked(s, s', t, id);
      }
    }
  }

  lemma DeleteKeepsLocks(s: State, t: ProcId, p: Proc)
    requires LocksOk(s) && t in s.procs && s.procs[t] == p && p.phase == Holding && p.op.Delete?
    ensures LocksOk(DoDelete(s, t, p))
  {
    var s' := DoDelete(s, t, p);
    assert ProcLocks(s, t, p);
    assert ProcLocks(s', t, s'.procs[t]);
    LocksReassembled(s, s', t);
  }

  lemma DeleteStable(s: State, t: ProcId, p: Proc)
    requires LocksOk(s) && t in s.procs && s.procs[t] == p && p.phase == Holding && p.op.Delete?
    ensures forall r: Rep :: Stable(DoDelete(s, t, p), r) <==> r.id != p.op.id && Stable(s, r)
  {
    var s' := DoDelete(s, t, p);
    assert ProcLocks(s, t, p);
    forall r: Rep ensures Stable(s', r) <==> r.id != p.op.id && Stable(s, r) {
      if r.id in s.resourceLock && r.id != p.op.id {
        assert s.resourceLock[r.id] != t;
      }
    }
  }

  lemma DeleteKeepsFiles(s: State, t: ProcId, p: Proc)
    requires LocksOk(s) && FilesOk(s) && t in s.procs && s.procs[t] == p && p.phase == Holding && p.op.Delete?
    ensures var s' := DoDelete(s, t, p);
            && LocksOk(s') && FilesOk(s')
            && forall r: Rep :: Stable(s', r) <==> r.id != p.op.id && Stable(s, r)
  {
    var s' := DoDelete(s, t, p);
    DeleteKeepsLocks(s, t, p);
    DeleteStable(s, t, p);
    assert ProcLocks(s, t, p);
    forall id | id in s'.custom ensures Backed(s', id) {
      if id != p.op.id { OtherStaysBacked(s, s', t, id); }
    }
  }

  lemma FreeWriteShrinksClaims<T(!new)>(claims: Claiming<T>, s: State, t: ProcId, p: Proc)
    requires p.op.FreeWrite? && Fits(claims, p.op) && (p.op.id in s.custom ==> RepsOf(s, p.op.id) != {})
    requires var s' := DoContentWrite(s, t, p, p.op.content);
             forall r: Rep :: Stable(s', r) <==> if r.id == p.op.id then r == NewRep(p.op) else Stable(s, r)
    ensures Shrinks(claims, s, DoContentWrite(s, t, p, p.op.content))
  {
    var s' := DoContentWrite(s, t, p, p.op.content);
    forall r | r in s'.reps && r !in s.reps && r.id in s'.custom ensures exists q :: q in s.reps && q.id == r.id {
      var q :| q in RepsOf(s, r.id);
    }
  }

  lemma FreeWriteShrinks<T(!new)>(claims: Claiming<T>, s: State, t: ProcId, p: Proc)
    requires LocksOk(s) && FilesOk(s) && t in s.procs && s.procs[t] == p && p.phase == Holding && p.op.FreeWrite? && Fits(claims, p.op)
    ensures var s' := DoContentWrite(s, t, p, p.op.content); LocksOk(s') && FilesOk(s') && Shrinks(claims, s, s')
  {
    HoldingView(s, t);
    ContentWriteKeepsFiles(s, t, p, p.op.content);
    FreeWriteShrinksClaims(claims, s, t, p);
  }

  lemma MetaShrinksClaims<T(!new)>(claims: Claiming<T>, s: State, t: ProcId, p: Proc)
    requires p.op.FreeMeta? && Fits(claims, p.op)
    requires forall r: Rep :: Stable(DoMetaWrite(s, t, p, p.op.custom), r) <==> Stable(s, r)
    ensures Shrinks(claims, s, DoMetaWrite(s, t, p, p.op.custom))
  {
  }

  lemma FreeMetaShrinks<T(!new)>(claims: Claiming<T>, s: State, t: ProcId, p: Proc)
    requires LocksOk(s) && FilesOk(s) && t in s.procs && s.procs[t] == p && p.phase == Holding && p.op.FreeMeta? && Fits(claims, p.op)
    ensures var s' := DoMetaWrite(s, t, p, p.op.custom); LocksOk(s') && FilesOk(s') && Shrinks(claims, s, s')
  {
    MetaWriteKeepsLocks(s, t, p, p.op.custom);
    MetaWriteKeepsFiles(s, t, p, p.op.custom);
    MetaShrinksClaims(claims, s, t, p);
  }

  lemma DeleteShrinksClaims<T(!new)>(claims: Claiming<T>, s: State, t: ProcId, p: Proc)
    requires forall r: Rep :: Stable(DoDelete(s, t, p), r) ==> Stable(s, r)
    ensures Shrinks(claims, s, DoDelete(s, t, p))
  {
  }

  lemma DeleteShrinks<T(!new)>(claims: Claiming<T>, s: State, t: ProcId, p: Proc)
    requires LocksOk(s) && FilesOk(s) && t in s.procs && s.procs[t] == p && p.phase == Holding && p.op.Delete?
    ensures var s' := DoDelete(s, t, p); LocksOk(s') && FilesOk(s') && Shrinks(claims, s, s')
  {
    DeleteKeepsFiles(s, t, p);
    DeleteShrinksClaims(claims, s, t, p);
  }

  lemma UncheckedWriteShrinks<T(!new)>(claims: Claiming<T>, s: State, t: ProcId, p: Proc)
    requires LocksOk(s) && FilesOk(s) && t in s.procs && s.procs[t] == p && p.phase == Holding && !ClaimOp(p.op) && Fits(claims, p.op)
    ensures LocksOk(DoWrite(s, t, p)) && FilesOk(DoWrite(s, t, p)) && Shrinks(claims, s, DoWrite(s, t, p))
  {
    match p.op {
      case FreeWrite(_, _, _) => FreeWriteShrinks(claims, s, t, p);
      case FreeMeta(_, _) => FreeMetaShrinks(claims, s, t, p);
      case Delete(_) => DeleteShrinks(claims, s, t, p);
    }
  }

  /** A checked write adds only claims that passed its check: the half it did not write is the half it
      read, or has since been dropped. */
  lemma JsonWriteAddsOnlyNewClaims<T(!new)>(claims: Claiming<T>, s: State, t: ProcId, p: Proc, id: Id, term: T)
    requires Additive(claims)
    requires p.op.JsonWrite? && p.own.Seen? && OwnOk(claims, s, p)
    requires Holds(claims, DoContentWrite(s, t, p, Some(p.op.doc)), id, term)
    ensures Holds(claims, s, id, term) || (id == p.op.id && term in NewClaims(claims, p))
  {
    var s' := DoContentWrite(s, t, p, Some(p.op.doc));
    var r :| r in s'.reps && r.id == id && term in claims(s'.reps[r], CustomOf(s', id));
    if r == NewRep(p.op) {
      ClaimsAdd(claims, Some(p.op.doc), CustomOf(s', id));
      ClaimsAdd(claims, Some(p.op.doc), p.own.value);
      ClaimsAdd(claims, None, None);
    }
  }

  lemma MetaWriteAddsOnlyNewClaims<T(!new)>(claims: Claiming<T>, s: State, t: ProcId, p: Proc, id: Id, term: T)
    requires Additive(claims)
    requires p.op.MetaWrite? && p.own.Seen? && OwnOk(claims, s, p)
    requires forall r :: r in s.reps && r.id == p.op.id ==> Stable(s, r)
    requires Holds(claims, DoMetaWrite(s, t, p, p.op.custom), id, term)
    ensures Holds(claims, s, id, term) || (id == p.op.id && term in NewClaims(claims, p))
  {
    var s' := DoMetaWrite(s, t, p, p.op.custom);
    var r :| r in s'.reps && r.id == id && term in claims(s'.reps[r], CustomOf(s', id));
    if id == p.op.id {
      assert r in RepsOf(s, id);
      assert CustomOf(s', id) == p.op.custom;
      ClaimsAdd(claims, s.reps[r], p.op.custom);
      ClaimsAdd(claims, p.own.value, p.op.custom);
    }
  }

  lemma CheckedWriteAddsOnlyNewClaims<T(!new)>(claims: Claiming<T>, s: State, t: ProcId, p: Proc, id: Id, term: T)
    requires Additive(claims)
    requires Inv(claims, s) && t in s.procs && s.procs[t] == p && p.phase == Holding && ClaimOp(p.op)
    requires Holds(claims, DoWrite(s, t, p), id, term)
    ensures Holds(claims, s, id, term) || (id == p.op.id && term in NewClaims(claims, p))
  {
    assert ProcOk(claims, s, p);
    if p.op.JsonWrite? {
      JsonWriteAddsOnlyNewClaims(claims, s, t, p, id, term);
    } else {
      HoldingView(s, t);
      MetaWriteAddsOnlyNewClaims(claims, s, t, p, id, term);
    }
  }

  lemma CheckedWriteKeepsDisjoint<T(!new)>(claims: Claiming<T>, s: State, t: ProcId, p: Proc)
    requires Additive(claims)
    requires Inv(claims, s) && t in s.procs && s.procs[t] == p && p.phase == Holding && ClaimOp(p.op)
    ensures Disjoint(claims, DoWrite(s, t, p))
  {
    var s' := DoWrite(s, t, p);
    assert ProcOk(claims, s, p);
    forall x, y, term | x != y && Holds(claims, s', x, term) ensures !Holds(claims, s', y, term) {
      if Holds(claims, s', y, term) {
        CheckedWriteAddsOnlyNewClaims(claims, s, t, p, x, term);
        CheckedWriteAddsOnlyNewClaims(claims, s, t, p, y, term);
      }
    }
  }

  /** While a checked write holds the Collection lock, no other checked write has begun to read. */
  lemma OnlyOneChecker<T(!new)>(claims: Claiming<T>, s: State, s': State, t: ProcId, u: ProcId)
    requires Inv(claims, s) && t in s.procs && ClaimOp(s.procs[t].op) && s.procs[t].phase != Idle
    requires u in s.procs && u != t
    ensures ProcOk(claims, s', s.procs[u])
  {
    assert ProcLocks(s, t, s.procs[t]) && ProcLocks(s, u, s.procs[u]);
    assert ProcOk(claims, s, s.procs[u]);
  }

  lemma WriteShape(s: State, t: ProcId, p: Proc)
    requires t in s.procs && s.procs[t] == p
    ensures var s' := DoWrite(s, t, p);
            && t in s'.procs && s'.procs[t].phase == Pruning && s'.procs[t].op == p.op
            && (forall u :: u in s'.procs && u != t ==> u in s.procs && s'.procs[u] == s.procs[u])
  {
    var q: Proc := match p.op
                   case JsonWrite(_, _, _) => p.(phase := Pruning, stale := RepsOf(s, p.op.id) - {NewRep(p.op)})
                   case FreeWrite(_, _, _) => p.(phase := Pruning, stale := RepsOf(s, p.op.id) - {NewRep(p.op)})
                   case MetaWrite(_, _) => p.(phase := Pruning)
                   case FreeMeta(_, _) => p.(phase := Pruning)
                   case Delete(_) => p.(phase := Pruning, stale := RepsOf(s, p.op.id));
    assert DoWrite(s, t, p).procs == s.procs[t := q];
  }

  lemma CheckedWriteKeepsInv<T(!new)>(claims: Claiming<T>, s: State, t: ProcId, p: Proc)
    requires Additive(claims)
    requires Inv(claims, s) && t in s.procs && s.procs[t] == p && p.phase == Holding && ClaimOp(p.op)
    ensures Inv(claims, DoWrite(s, t, p))
  {
    var s' := DoWrite(s, t, p);
    WriteShape(s, t, p);
    assert LocksOk(s') && FilesOk(s') by {
      if p.op.JsonWrite? { ContentWriteKeepsFiles(s, t, p, Some(p.op.doc)); } else { MetaWriteKeepsFiles(s, t, p, p.op.custom); }
    }
    CheckedWriteKeepsDisjoint(claims, s, t, p);
    forall u | u in s'.procs ensures ProcOk(claims, s', s'.procs[u]) {
      if u != t { OnlyOneChecker(claims, s, s', t, u); }
    }
  }

  lemma UncheckedWriteKeepsInv<T(!new)>(claims: Claiming<T>, s: State, t: ProcId, p: Proc)
    requires Additive(claims)
    requires Inv(claims, s) && t in s.procs && s.procs[t] == p && p.phase == Holding && !ClaimOp(p.op)
    ensures Inv(claims, DoWrite(s, t, p))
  {
    var s' := DoWrite(s, t, p);
    WriteShape(s, t, p);
    UncheckedWriteShrinks(claims, s, t, p);
    ShrinkKeepsDisjoint(claims, s, s');
    forall u | u in s'.procs ensures ProcOk(claims, s', s'.procs[u]) {
      if u != t { ShrinkKeepsProcOk(claims, s, s', s.procs[u]); }
    }
  }

  lemma PruneKeepsInv<T(!new)>(claims: Claiming<T>, s: State, t: ProcId, p: Proc, rep: Rep)
    requires Additive(claims)
    requires Inv(claims, s) && t in s.procs && s.procs[t] == p && p.phase == Pruning && rep in p.stale
    ensures Inv(claims, DoPrune(s, t, p, rep))
  {
    var s' := DoPrune(s, t, p, rep);
    PruneKeepsFiles(s, t, p, rep);
    PruneKeepsStable(s, t, p, rep);
    PruneShrinks(claims, s, t, p, rep);
    ShrinkKeepsDisjoint(claims, s, s');
    forall u | u in s'.procs ensures ProcOk(claims, s', s'.procs[u]) {
      if u != t { ShrinkKeepsProcOk(claims, s, s', s.procs[u]); }
    }
  }

  lemma FinishKeepsInv<T(!new)>(claims: Claiming<T>, s: State, t: ProcId, p: Proc)
    requires Additive(claims)
    requires Inv(claims, s) && t in s.procs && s.procs[t] == p && p.phase == Pruning && p.stale == {}
    ensures Inv(claims, DoFinish(s, t, p))
  {
    var s' := DoFinish(s, t, p);
    FinishKeepsFiles(s, t, p);
    FinishKeepsStable(s, t, p);
    FinishShrinks(claims, s, t, p);
    ShrinkKeepsDisjoint(claims, s, s');
    forall u | u in s'.procs ensures ProcOk(claims, s', s'.procs[u]) {
      assert u in s.procs && s'.procs[u] == s.procs[u];
      ShrinkKeepsProcOk(claims, s, s', s.procs[u]);
    }
  }

  lemma StepKeepsInv<T(!new)>(claims: Claiming<T>, s: State, t: ProcId, a: Action)
    requires Additive(claims)
    requires Inv(claims, s) && Enabled(claims, s, t, a)
    ensures Inv(claims, Do(claims, s, t, a))
  {
    match a {
      case Write =>
        var p := s.procs[t];
        if ClaimOp(p.op) { CheckedWriteKeepsInv(claims, s, t, p); } else { UncheckedWriteKeepsInv(claims, s, t, p); }
      case Prune(rep) => PruneKeepsInv(claims, s, t, s.procs[t], rep);
      case Finish => FinishKeepsInv(claims, s, t, s.procs[t]);
      case _ => LocalKeepsInv(claims, s, t, a);
    }
  }

  lemma AtRestHasInv<T(!new)>(claims: Claiming<T>, s: State)
    requires AtRest(s) && SharesNothing(claims, s)
    ensures Inv(claims, s)
  {
    forall id | id in s.custom ensures Backed(s, id) {
      var r :| r in s.reps && r.id == id;
      assert Stable(s, r);
    }
    forall a, b, term | a != b && Holds(claims, s, a, term) ensures !Holds(claims, s, b, term) {
      var q :| q in s.reps && q.id == a && term in claims(s.reps[q], CustomOf(s, a));
      forall r | r in s.reps && r.id == b ensures term !in claims(s.reps[r], CustomOf(s, b)) {
        assert claims(s.reps[q], CustomOf(s, q.id)) !! claims(s.reps[r], CustomOf(s, r.id));
      }
    }
  }

  lemma {:induction false} RunHasInv<T(!new)>(claims: Claiming<T>, run: seq<State>, i: nat)
    requires Additive(claims)
    requires IsRun(claims, run) && i < |run|
    ensures Inv(claims, run[i])
  {
    if i == 0 {
      AtRestHasInv(claims, run[0]);
    } else {
      RunHasInv(claims, run, i - 1);
      var s, s' := run[i - 1], run[i];
      assert Next(claims, s, s');
      var t, a :| Enabled(claims, s, t, a) && s' == Do(claims, s, t, a);
      StepKeepsInv(claims, s, t, a);
    }
  }

  /** What an operation leaves of its Resource. */
  ghost predicate CarriedOut(s: State, op: Op) {
    match op
    case JsonWrite(id, media, doc) => RepsOf(s, id) == {Rep(id, media)} && s.reps[Rep(id, media)] == Some(doc)
    case FreeWrite(id, media, content) => RepsOf(s, id) == {Rep(id, media)} && s.reps[Rep(id, media)] == content
    case MetaWrite(id, custom) => RepsOf(s, id) != {} ==> CustomOf(s, id) == custom
    case FreeMeta(id, custom) => RepsOf(s, id) != {} ==> CustomOf(s, id) == custom
    case Delete(id) => RepsOf(s, id) == {} && CustomOf(s, id).None?
  }

  lemma FinishCarriesOut(s: State, t: ProcId, p: Proc)
    requires p.phase == Pruning && p.stale == {} && PruningOk(s, p)
    ensures CarriedOut(DoFinish(s, t, p), p.op)
  {
    if (p.op.MetaWrite? || p.op.FreeMeta?) && RepsOf(s, p.op.id) != {} {
      var r :| r in RepsOf(s, p.op.id);
    }
  }

  /** A section that finishes leaves what it was called for, whatever ran beside it: a content write its one file with
      its content, a metadata write its metadata on a Resource that is there, a delete nothing. */
  lemma FinishedSectionIsCarriedOut<T(!new)>(claims: Claiming<T>, run: seq<State>, n: nat, t: ProcId)
    requires Additive(claims)
    requires IsRun(claims, run) && n < |run| && Enabled(claims, run[n], t, Finish)
    ensures CarriedOut(Do(claims, run[n], t, Finish), run[n].procs[t].op)
  {
    RunHasInv(claims, run, n);
    assert ProcLocks(run[n], t, run[n].procs[t]);
    FinishCarriesOut(run[n], t, run[n].procs[t]);
  }

  /** For any claims that content and metadata add up to: from any directory at rest without a shared claim, in no
      reachable state do two different live Resources share one. */
  lemma NoSharedClaim<T(!new)>(claims: Claiming<T>, run: seq<State>, n: nat, q: Rep, r: Rep)
    requires Additive(claims)
    requires IsRun(claims, run) && n < |run|
    requires q in run[n].reps && r in run[n].reps && q.id != r.id
    ensures claims(run[n].reps[q], CustomOf(run[n], q.id)) !! claims(run[n].reps[r], CustomOf(run[n], r.id))
  {
    RunHasInv(claims, run, n);
    var s := run[n];
    forall term | term in claims(s.reps[q], CustomOf(s, q.id)) ensures term !in claims(s.reps[r], CustomOf(s, r.id)) {
      assert Holds(claims, s, q.id, term);
      assert !Holds(claims, s, r.id, term);
    }
  }

  /** No two different live Resources hold the same (name, value) under the unique declarations. */
  lemma NoSharedEqualityClaim(indexes: seq<Declaration>, run: seq<State>, n: nat, q: Rep, r: Rep)
    requires IsRun(EqualityClaims(indexes), run) && n < |run|
    requires q in run[n].reps && r in run[n].reps && q.id != r.id
    ensures Claims(indexes, run[n].reps[q], CustomOf(run[n], q.id)) !! Claims(indexes, run[n].reps[r], CustomOf(run[n], r.id))
  {
    EqualityClaimsAreAdditive(indexes);
    NoSharedClaim(EqualityClaims(indexes), run, n, q, r);
    var s := run[n];
    forall term | term in Claims(indexes, s.reps[q], CustomOf(s, q.id)) ensures term !in Claims(indexes, s.reps[r], CustomOf(s, r.id)) {
      assert term in EqualityClaims(indexes)(s.reps[q], CustomOf(s, q.id));
    }
  }

  /** No two different live documents hold the same (hmac id, name, value) marked unique in both. */
  lemma NoSharedBlindedClaim(run: seq<State>, n: nat, q: Rep, r: Rep, triple: B.Triple)
    requires IsRun(BlindedClaims(), run) && n < |run|
    requires q in run[n].reps && run[n].reps[q].Some? && r in run[n].reps && run[n].reps[r].Some?
    requires B.ClaimsTriple(run[n].reps[q].value, triple) && B.ClaimsTriple(run[n].reps[r].value, triple)
    ensures q.id == r.id
  {
    assert triple in BlindedClaims()(run[n].reps[q], CustomOf(run[n], q.id));
    if q.id != r.id {
      NoSharedClaim(BlindedClaims(), run, n, q, r);
    }
  }
}
