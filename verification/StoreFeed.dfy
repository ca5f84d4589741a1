/**
 The change feed of a Collection under its own operations: a follower pulls pages while Resources are written, described,
 deleted and chunked, and converges on what the Collection holds.
 */
module StoreFeed {
  import F = ChangeFeed
  import opened CollectionStore
  import opened Pagination
  import opened Wrappers

  /** Every Resource and tombstone as the feed would report it, those of other media types included. */
  function AllRows(json: JsonTypes, s: Store): F.Rows {
    map id | id in s :: FeedRow(json, s[id])
  }

  /** The Collection, when the last operation was carried out, and how far the follower is. */
  datatype State = State(store: Store, clock: Time, follower: map<Id, F.Row>, checkpoint: Option<string>)

  datatype Event =
    | Carry(op: Op, now: Time)
    | Pull(pageSize: nat, page: F.FeedPage)

  function ReplicaOf(json: JsonTypes, s: State): F.Replica {
    F.Replica(AllRows(json, s.store), s.follower, s.checkpoint)
  }

  /** A Resource in the feed is not overwritten by one of another kind of media type. */
  predicate StaysJson(json: JsonTypes, s: Store, op: Op) {
    op.Put? && op.id in s && s[op.id].contentType in json ==> op.contentType in json
  }

  /** The clock only moves forward, and every operation has its own instant. */
  ghost predicate Occurs(json: JsonTypes, s: State, e: Event) {
    match e
    case Carry(op, now) => |now| == F.INSTANT_LENGTH && Less(s.clock, now) && StaysJson(json, s.store, op)
    case Pull(pageSize, page) => pageSize >= 1 && F.IsPage(AllRows(json, s.store), s.checkpoint, pageSize, page)
  }

  function After(s: State, e: Event): State {
    match e
    case Carry(op, now) => s.(store := Apply(s.store, op, now).0, clock := now)
    case Pull(_, page) =>
      s.(follower := s.follower + page.documents, checkpoint := if page.checkpoint.Some? then page.checkpoint else s.checkpoint)
  }

  ghost predicate Next(json: JsonTypes, s: State, t: State) {
    exists e :: Occurs(json, s, e) && t == After(s, e)
  }

  /** Nothing is stamped after the clock. */
  ghost predicate Clocked(s: Store, clock: Time) {
    forall id :: id in s ==> |s[id].updatedAt| == F.INSTANT_LENGTH && (s[id].updatedAt == clock || Less(s[id].updatedAt, clock))
  }

  ghost predicate IsHistory(json: JsonTypes, h: seq<State>) {
    && |h| > 0 && Clocked(h[0].store, h[0].clock) && h[0].follower == map[] && h[0].checkpoint == None
    && forall i :: 0 < i < |h| ==> Next(json, h[i - 1], h[i])
  }

  // ---------- operations are commits of the feed ----------

  /** A content write, metadata write or delete that changed something. */
  predicate Effective(s: Store, op: Op, now: Time) {
    var answer := Apply(s, op, now).1;
    (op.Put? && answer.Version?) || (op.PutMeta? && answer.MetaVersion?) || (op.Delete? && answer.Done? && Live(s, op.id))
  }

  lemma LaterThanStored(s: Store, clock: Time, now: Time, id: Id)
    requires Clocked(s, clock) && Less(clock, now) && id in s
    ensures Less(s[id].updatedAt, now)
  {
    if s[id].updatedAt != clock { LessTransitive(s[id].updatedAt, clock, now); }
  }

  lemma IneffectiveKeepsRows(json: JsonTypes, s: Store, op: Op, now: Time)
    requires !Effective(s, op, now)
    ensures AllRows(json, Apply(s, op, now).0) == AllRows(json, s)
  {
  }

  lemma EffectiveRow(json: JsonTypes, s: Store, op: Op, now: Time)
    requires Effective(s, op, now)
    ensures var t := Apply(s, op, now).0;
            && op.id in t && AllRows(json, t) == AllRows(json, s)[op.id := FeedRow(json, t[op.id])]
            && var row := FeedRow(json, t[op.id]);
               row.updatedAt == now && row.deleted == op.Delete? && (op.Put? ==> row.data == Some(op.bytes))
  {
  }

  lemma EffectiveIsReplicable(json: JsonTypes, s: State, op: Op, now: Time)
    requires Clocked(s.store, s.clock) && Occurs(json, s, Carry(op, now)) && Effective(s.store, op, now)
    ensures var t := After(s, Carry(op, now)).store;
            op.id in t && F.Replicable(ReplicaOf(json, s), op.id, FeedRow(json, t[op.id]))
  {
    EffectiveRow(json, s.store, op, now);
    var rows := AllRows(json, s.store);
    forall id | id in rows ensures Less(rows[id].updatedAt, now) {
      LaterThanStored(s.store, s.clock, now, id);
    }
  }

  /** An effective operation commits one row, stamped with its own time, later than everything stored; every other
      operation, those on chunks included, leaves the feed as it is. */
  lemma OperationIsCommit(json: JsonTypes, s: State, op: Op, now: Time)
    requires Clocked(s.store, s.clock) && Occurs(json, s, Carry(op, now))
    ensures var t := After(s, Carry(op, now));
            if Effective(s.store, op, now) then
              && op.id in t.store
              && var row := FeedRow(json, t.store[op.id]);
                 && row.updatedAt == now && F.Occurs(ReplicaOf(json, s), F.Mutate(op.id, row)) && F.Replicable(ReplicaOf(json, s), op.id, row)
                 && ReplicaOf(json, t) == F.After(ReplicaOf(json, s), F.Mutate(op.id, row))
                 && row.deleted == op.Delete? && (op.Put? ==> row.data == Some(op.bytes))
            else ReplicaOf(json, t) == ReplicaOf(json, s)
  {
    if Effective(s.store, op, now) {
      EffectiveRow(json, s.store, op, now);
      EffectiveIsReplicable(json, s, op, now);
    } else {
      IneffectiveKeepsRows(json, s.store, op, now);
    }
  }

  lemma StepKeepsClocked(json: JsonTypes, s: State, op: Op, now: Time)
    requires Clocked(s.store, s.clock) && Occurs(json, s, Carry(op, now))
    ensures Clocked(After(s, Carry(op, now)).store, now)
  {
    var t := After(s, Carry(op, now)).store;
    forall id | id in t ensures |t[id].updatedAt| == F.INSTANT_LENGTH && (t[id].updatedAt == now || Less(t[id].updatedAt, now)) {
      if id in s.store { LaterThanStored(s.store, s.clock, now, id); }
    }
  }

  lemma CarryKeepsAgreement(json: JsonTypes, s: State, op: Op, now: Time)
    requires Clocked(s.store, s.clock) && Occurs(json, s, Carry(op, now))
    requires F.Agrees(ReplicaOf(json, s)) && F.CheckpointReached(ReplicaOf(json, s))
    ensures var t := After(s, Carry(op, now)); F.Agrees(ReplicaOf(json, t)) && F.CheckpointReached(ReplicaOf(json, t))
  {
    OperationIsCommit(json, s, op, now);
    if Effective(s.store, op, now) {
      var row := FeedRow(json, After(s, Carry(op, now)).store[op.id]);
      F.MutateKeepsAgreement(ReplicaOf(json, s), op.id, row);
      F.MutateKeepsCheckpointReached(ReplicaOf(json, s), op.id, row);
    }
  }

  lemma PullKeepsAgreement(json: JsonTypes, s: State, pageSize: nat, page: F.FeedPage)
    requires Occurs(json, s, Pull(pageSize, page)) && F.Agrees(ReplicaOf(json, s)) && F.CheckpointReached(ReplicaOf(json, s))
    ensures var t := After(s, Pull(pageSize, page)); F.Agrees(ReplicaOf(json, t)) && F.CheckpointReached(ReplicaOf(json, t))
  {
    F.PullKeepsAgreement(ReplicaOf(json, s), pageSize, page);
    F.PullKeepsCheckpointReached(ReplicaOf(json, s), pageSize, page);
    assert ReplicaOf(json, After(s, Pull(pageSize, page))) == F.After(ReplicaOf(json, s), F.Pull(pageSize, page));
  }

  lemma {:induction false} HistoryAgrees(json: JsonTypes, h: seq<State>, n: nat)
    requires IsHistory(json, h) && n < |h|
    ensures Clocked(h[n].store, h[n].clock) && F.Agrees(ReplicaOf(json, h[n])) && F.CheckpointReached(ReplicaOf(json, h[n]))
  {
    if n > 0 {
      HistoryAgrees(json, h, n - 1);
      var s := h[n - 1];
      assert Next(json, s, h[n]);
      var e :| Occurs(json, s, e) && h[n] == After(s, e);
      match e {
        case Carry(op, now) =>
          StepKeepsClocked(json, s, op, now);
          CarryKeepsAgreement(json, s, op, now);
        case Pull(pageSize, page) =>
          PullKeepsAgreement(json, s, pageSize, page);
      }
    }
  }

  // ---------- what the follower has ----------

  /** Under any operations between any pulls, a follower has every JSON Resource and tombstone at or below its checkpoint
      as the Collection holds it now. */
  lemma FollowerHasWhatIsStored(json: JsonTypes, h: seq<State>, n: nat, id: Id)
    requires IsHistory(json, h) && n < |h| && id in h[n].store && h[n].store[id].contentType in json
    requires !F.Above(h[n].checkpoint, F.Position(h[n].store[id].updatedAt, id))
    ensures id in h[n].follower && h[n].follower[id] == FeedRow(json, h[n].store[id])
  {
    HistoryAgrees(json, h, n);
    assert F.PositionOf(AllRows(json, h[n].store), id) == F.Position(h[n].store[id].updatedAt, id);
  }

  lemma NothingAboveWhenDrained(json: JsonTypes, s: State, pageSize: nat, page: F.FeedPage, id: Id)
    requires Occurs(json, s, Pull(pageSize, page)) && page.checkpoint.None? && F.Agrees(ReplicaOf(json, s))
    requires id in s.store && s.store[id].contentType in json
    ensures id in s.follower && s.follower[id] == FeedRow(json, s.store[id])
  {
    F.PageCovers(ReplicaOf(json, s), pageSize, page, id);
  }

  /** When a page comes back empty the follower holds exactly the Collection's feed. */
  lemma DrainedFollowerHasTheFeed(json: JsonTypes, h: seq<State>, n: nat, pageSize: nat, page: F.FeedPage)
    requires IsHistory(json, h) && n < |h| && Occurs(json, h[n], Pull(pageSize, page)) && page.checkpoint.None?
    ensures h[n].follower == FeedRows(json, h[n].store)
  {
    HistoryAgrees(json, h, n);
    forall id | id in FeedRows(json, h[n].store) ensures id in h[n].follower && h[n].follower[id] == FeedRows(json, h[n].store)[id] {
      NothingAboveWhenDrained(json, h[n], pageSize, page, id);
    }
    forall id | id in h[n].follower ensures id in FeedRows(json, h[n].store) {
      assert id in AllRows(json, h[n].store) && AllRows(json, h[n].store)[id].isJson;
    }
  }

  /** An operation that takes effect on a JSON Resource is pending for every follower, wherever it is. */
  lemma EffectIsPending(json: JsonTypes, h: seq<State>, n: nat, op: Op, now: Time)
    requires IsHistory(json, h) && n < |h| && Occurs(json, h[n], Carry(op, now)) && Effective(h[n].store, op, now)
    requires Apply(h[n].store, op, now).0[op.id].contentType in json
    ensures op.id in F.Pending(ReplicaOf(json, After(h[n], Carry(op, now))))
  {
    HistoryAgrees(json, h, n);
    OperationIsCommit(json, h[n], op, now);
    F.LaterIsAbove(ReplicaOf(json, h[n]), op.id, FeedRow(json, Apply(h[n].store, op, now).0[op.id]));
  }
}
