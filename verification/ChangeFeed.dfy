/**
 The replication change feed: JSON Resources and JSON tombstones in (updatedAt, resourceId) order, paged
 from a checkpoint, and a follower that applies the pages while the primary keeps changing.
 */
module ChangeFeed {
  import opened Wrappers
  import opened Pagination

  type Id = string

  /** A stored Resource or tombstone as the feed reports it. */
  datatype Row = Row(
    version: nat, metaVersion: Option<nat>, createdBy: Option<string>, updatedAt: string, deleted: bool,
    data: Option<string>, custom: Option<string>, epoch: Option<string>, isJson: bool)

  type Rows = map<Id, Row>

  /** ISO 8601 instants as the server writes them all have this many characters. */
  const INSTANT_LENGTH := 24

  predicate Stamped(rows: Rows) {
    forall id :: id in rows ==> |rows[id].updatedAt| == INSTANT_LENGTH
  }

  /** A feed position. Instants have a fixed width, so one string orders like the pair. */
  function Position(updatedAt: string, id: Id): string {
    updatedAt + id
  }

  lemma {:induction false} PositionOrdersLikePair(t: string, a: Id, u: string, b: Id)
    requires |t| == |u|
    ensures Less(Position(t, a), Position(u, b)) <==> Less(t, u) || (t == u && Less(a, b))
    ensures Position(t, a) == Position(u, b) <==> t == u && a == b
  {
    if t == "" {
      assert t + a == a && u + b == b;
      LessIrreflexive(t);
    } else {
      PositionOrdersLikePair(t[1..], a, u[1..], b);
      assert (t + a)[1..] == t[1..] + a && (u + b)[1..] == u[1..] + b;
      assert t == [t[0]] + t[1..] && u == [u[0]] + u[1..];
      assert t + a == [t[0]] + (t[1..] + a) && u + b == [u[0]] + (u[1..] + b);
      LessIrreflexive(t);
    }
  }

  function PositionOf(rows: Rows, id: Id): string
    requires id in rows
  {
    Position(rows[id].updatedAt, id)
  }

  // ---------- the sorted feed ----------

  function Insert(sorted: seq<string>, k: string): seq<string> {
    if sorted == [] || Less(k, sorted[0]) then [k] + sorted else [sorted[0]] + Insert(sorted[1..], k)
  }

  lemma {:induction false} InsertSorts(sorted: seq<string>, k: string)
    requires Ascending(sorted) && k !in sorted
    ensures Ascending(Insert(sorted, k))
    ensures forall x :: x in Insert(sorted, k) <==> x in sorted || x == k
  {
    if sorted == [] {
    } else if Less(k, sorted[0]) {
      forall i | 0 < i < |sorted| ensures Less(k, sorted[i]) { LessTransitive(k, sorted[0], sorted[i]); }
    } else {
      LessTotal(k, sorted[0]);
      var rest := Insert(sorted[1..], k);
      InsertSorts(sorted[1..], k);
      forall i | 0 <= i < |rest| ensures Less(sorted[0], rest[i]) {
        assert rest[i] in rest;
      }
    }
  }

  /** A feed of the JSON rows: ascending, and exactly their positions. */
  ghost predicate IsFeed(rows: Rows, feed: seq<string>) {
    && Ascending(feed)
    && forall k :: k in feed <==> exists id :: id in rows && rows[id].isJson && PositionOf(rows, id) == k
  }

  lemma HeadIsLeast(s: seq<string>, x: string)
    requires Ascending(s) && x in s
    ensures x == s[0] || Less(s[0], x)
  {
    var i :| 0 <= i < |s| && s[i] == x;
  }

  /** A feed is determined by its rows: there is one ascending sequence of any set of positions. */
  lemma {:induction false} AscendingUnique(a: seq<string>, b: seq<string>)
    requires Ascending(a) && Ascending(b) && forall k :: k in a <==> k in b
    ensures a == b
  {
    if a == [] {
      assert forall i :: 0 <= i < |b| ==> b[i] in b;
    } else {
      assert a[0] in a;
      HeadIsLeast(b, a[0]);
      assert b[0] in b;
      HeadIsLeast(a, b[0]);
      LessTotal(a[0], b[0]);
      forall k ensures k in a[1..] <==> k in b[1..] {
        LessIrreflexive(a[0]);
        assert a == [a[0]] + a[1..] && b == [b[0]] + b[1..];
        assert k in a <==> k in b;
      }
      AscendingUnique(a[1..], b[1..]);
      assert a == [a[0]] + a[1..] && b == [b[0]] + b[1..];
    }
  }

  ghost predicate IdsOf(rows: Rows, ids: map<string, Id>) {
    forall k :: k in ids ==> ids[k] in rows && rows[ids[k]].isJson && PositionOf(rows, ids[k]) == k
  }

  /** The sort of `changesSince`: every JSON row inserted at its position. */
  method SortedFeed(rows: Rows) returns (feed: seq<string>, ids: map<string, Id>)
    requires Stamped(rows)
    ensures IsFeed(rows, feed)
    ensures forall k :: k in feed <==> k in ids
    ensures IdsOf(rows, ids)
  {
    feed, ids := [], map[];
    var todo := rows.Keys;
    while todo != {}
      invariant todo <= rows.Keys && Ascending(feed)
      invariant forall k :: k in feed <==> exists id :: id in rows && id !in todo && rows[id].isJson && PositionOf(rows, id) == k
      invariant forall k :: k in feed <==> k in ids
      invariant IdsOf(rows, ids)
      decreases |todo|
    {
      var id :| id in todo;
      ghost var before := feed;
      if rows[id].isJson {
        var k := PositionOf(rows, id);
        assert k !in feed by {
          forall other | other in rows && other !in todo ensures PositionOf(rows, other) != k {
            PositionOrdersLikePair(rows[other].updatedAt, other, rows[id].updatedAt, id);
          }
        }
        InsertSorts(feed, k);
        feed := Insert(feed, k);
        ids := ids[k := id];
      }
      todo := todo - {id};
    }
  }

  /** The documents of one page, and the checkpoint it hands out. */
  datatype FeedPage = FeedPage(positions: seq<string>, documents: map<Id, Row>, checkpoint: Option<string>)

  ghost predicate IsPage(rows: Rows, checkpoint: Option<string>, pageSize: nat, page: FeedPage) {
    exists feed :: IsFeed(rows, feed) && page.positions == PageOf(feed, checkpoint, pageSize).ids
                   && page.checkpoint == Last(page.positions)
                   && page.documents == DocumentsAt(rows, page.positions)
  }

  function DocumentsAt(rows: Rows, positions: seq<string>): map<Id, Row> {
    map id | id in rows && rows[id].isJson && PositionOf(rows, id) in positions :: rows[id]
  }

  /** The filesystem form: sort every descriptor, seek past the checkpoint, slice, then read bodies. */
  method ChangesSince(rows: Rows, checkpoint: Option<string>, limit: int) returns (page: FeedPage)
    requires Stamped(rows)
    ensures IsPage(rows, checkpoint, ResolvePageSize(Some(limit)), page)
  {
    var feed, ids := SortedFeed(rows);
    var positions := SeekSlice(feed, checkpoint, ResolvePageSize(Some(limit)));
    var documents := ReadBodies(rows, ids, positions);
    page := FeedPage(positions, documents, Last(positions));
  }

  method SeekSlice(feed: seq<string>, checkpoint: Option<string>, pageSize: nat) returns (positions: seq<string>)
    ensures positions == PageOf(feed, checkpoint, pageSize).ids
    ensures forall k :: k in positions ==> k in feed
  {
    var start := 0;
    if checkpoint.Some? {
      while start < |feed| && !Less(checkpoint.value, feed[start])
        invariant 0 <= start <= |feed|
        invariant forall j :: 0 <= j < start ==> !Less(checkpoint.value, feed[j])
      {
        start := start + 1;
      }
    }
    SeekIs(feed, checkpoint, start);
    var end := if start + pageSize < |feed| then start + pageSize else |feed|;
    positions := feed[start..end];
  }

  method ReadBodies(rows: Rows, ids: map<string, Id>, positions: seq<string>) returns (documents: map<Id, Row>)
    requires Stamped(rows) && IdsOf(rows, ids) && forall k :: k in positions ==> k in ids
    ensures documents == DocumentsAt(rows, positions)
  {
    documents := map[];
    for i := 0 to |positions|
      invariant documents == DocumentsAt(rows, positions[..i])
    {
      assert positions[i] in positions;
      var id := ids[positions[i]];
      documents := documents[id := rows[id]];
      assert positions[..i + 1] == positions[..i] + [positions[i]];
      OneMoreDocument(rows, positions[..i], id);
    }
    assert positions[..|positions|] == positions;
  }

  /** Both backends return the same page: sort-seek-slice equals the keyset query, for the one feed there is. */
  lemma PageIsKeysetQuery(rows: Rows, checkpoint: Option<string>, pageSize: nat, page: FeedPage, feed: seq<string>)
    requires IsPage(rows, checkpoint, pageSize, page) && IsFeed(rows, feed)
    ensures page == FeedPage(KeysetPage(feed, checkpoint, pageSize).ids,
                             DocumentsAt(rows, KeysetPage(feed, checkpoint, pageSize).ids),
                             Last(KeysetPage(feed, checkpoint, pageSize).ids))
  {
    var other :| IsFeed(rows, other) && page.positions == PageOf(other, checkpoint, pageSize).ids
                 && page.checkpoint == Last(page.positions) && page.documents == DocumentsAt(rows, page.positions);
    AscendingUnique(feed, other);
    SeekPageIsKeysetPage(feed, checkpoint, pageSize);
  }

  lemma OneMoreDocument(rows: Rows, positions: seq<string>, id: Id)
    requires Stamped(rows) && id in rows && rows[id].isJson
    ensures DocumentsAt(rows, positions + [PositionOf(rows, id)]) == DocumentsAt(rows, positions)[id := rows[id]]
  {
    forall other | other in rows && PositionOf(rows, other) == PositionOf(rows, id) ensures other == id {
      PositionOrdersLikePair(rows[other].updatedAt, other, rows[id].updatedAt, id);
    }
  }

  // ---------- a follower ----------

  /** The primary's rows, what the follower has applied, and the checkpoint it resumes from. */
  datatype Replica = Replica(rows: Rows, follower: map<Id, Row>, checkpoint: Option<string>)

  datatype Event =
    | Mutate(id: Id, row: Row)                   // a write, metadata write or delete commits on the primary
    | Pull(pageSize: nat, page: FeedPage)        // the follower applies one page

  predicate Above(checkpoint: Option<string>, position: string) {
    checkpoint.Some? ==> Less(checkpoint.value, position)
  }

  /** Stamps strictly increase in commit order: a commit is later than everything stored. */
  ghost predicate Later(rows: Rows, row: Row) {
    forall id :: id in rows ==> Less(rows[id].updatedAt, row.updatedAt)
  }

  /** The conditions the convergence rests on: strictly increasing stamps, and a Resource in the feed stays JSON. */
  ghost predicate Replicable(s: Replica, id: Id, row: Row) {
    Later(s.rows, row) && (id in s.rows && s.rows[id].isJson ==> row.isJson)
  }

  ghost predicate Occurs(s: Replica, e: Event) {
    match e
    case Mutate(_, row) => |row.updatedAt| == INSTANT_LENGTH
    case Pull(pageSize, page) => pageSize >= 1 && IsPage(s.rows, s.checkpoint, pageSize, page)
  }

  function After(s: Replica, e: Event): Replica {
    match e
    case Mutate(id, row) => s.(rows := s.rows[id := row])
    case Pull(_, page) =>
      s.(follower := s.follower + page.documents,
         checkpoint := if page.checkpoint.Some? then page.checkpoint else s.checkpoint)
  }

  ghost predicate Next(s: Replica, s': Replica) {
    exists e :: Occurs(s, e) && (e.Mutate? ==> Replicable(s, e.id, e.row)) && s' == After(s, e)
  }

  ghost predicate IsHistory(h: seq<Replica>) {
    && |h| > 0 && h[0].follower == map[] && h[0].checkpoint == None && Stamped(h[0].rows)
    && forall i :: 0 < i < |h| ==> Next(h[i - 1], h[i])
  }

  ghost predicate Agrees(s: Replica) {
    && Stamped(s.rows)
    && (forall id :: id in s.rows && s.rows[id].isJson && !Above(s.checkpoint, PositionOf(s.rows, id)) ==>
          id in s.follower && s.follower[id] == s.rows[id])
    && (forall id :: id in s.follower ==> id in s.rows && s.rows[id].isJson)
  }

  predicate StampedBy(checkpoint: string, instant: string) {
    |checkpoint| >= INSTANT_LENGTH && !Less(instant, checkpoint[..INSTANT_LENGTH])
  }

  /** The checkpoint's instant is no later than some stored row's. */
  ghost predicate CheckpointReached(s: Replica) {
    s.checkpoint.Some? ==> exists id :: id in s.rows && StampedBy(s.checkpoint.value, s.rows[id].updatedAt)
  }

  /** A commit later than everything stored therefore lands past the checkpoint. */
  lemma LaterIsAbove(s: Replica, id: Id, row: Row)
    requires Stamped(s.rows) && CheckpointReached(s) && |row.updatedAt| == INSTANT_LENGTH && Later(s.rows, row)
    ensures Above(s.checkpoint, Position(row.updatedAt, id))
  {
    if s.checkpoint.Some? {
      var c := s.checkpoint.value;
      var t, rest := c[..INSTANT_LENGTH], c[INSTANT_LENGTH..];
      var stored :| stored in s.rows && StampedBy(c, s.rows[stored].updatedAt);
      LessTotal(t, s.rows[stored].updatedAt);
      if t != s.rows[stored].updatedAt { LessTransitive(t, s.rows[stored].updatedAt, row.updatedAt); }
      PositionOrdersLikePair(t, rest, row.updatedAt, id);
      assert c == Position(t, rest);
    }
  }

  lemma PullKeepsCheckpointReached(s: Replica, pageSize: nat, page: FeedPage)
    requires Stamped(s.rows) && CheckpointReached(s) && Occurs(s, Pull(pageSize, page))
    ensures CheckpointReached(After(s, Pull(pageSize, page)))
  {
    if page.checkpoint.Some? {
      var feed :| IsFeed(s.rows, feed) && page.positions == PageOf(feed, s.checkpoint, pageSize).ids
                  && page.checkpoint == Last(page.positions);
      PageIsSlice(feed, s.checkpoint, pageSize);
      assert page.checkpoint.value in feed;
      var id :| id in s.rows && s.rows[id].isJson && PositionOf(s.rows, id) == page.checkpoint.value;
      var t := s.rows[id].updatedAt;
      assert PositionOf(s.rows, id)[..INSTANT_LENGTH] == t;
      LessIrreflexive(t);
    }
  }

  lemma MutateKeepsCheckpointReached(s: Replica, id: Id, row: Row)
    requires CheckpointReached(s) && Later(s.rows, row)
    ensures CheckpointReached(After(s, Mutate(id, row)))
  {
    if s.checkpoint.Some? {
      var stored :| stored in s.rows && StampedBy(s.checkpoint.value, s.rows[stored].updatedAt);
      var t := s.checkpoint.value[..INSTANT_LENGTH];
      if stored == id && Less(row.updatedAt, t) {
        LessTransitive(s.rows[stored].updatedAt, row.updatedAt, t);
      }
      var s' := After(s, Mutate(id, row));
      assert stored in s'.rows && StampedBy(s.checkpoint.value, s'.rows[stored].updatedAt);
    }
  }

  /** What a page covers: the JSON rows above the checkpoint, up to the position it hands out. */
  lemma PageCovers(s: Replica, pageSize: nat, page: FeedPage, id: Id)
    requires Stamped(s.rows) && pageSize >= 1 && IsPage(s.rows, s.checkpoint, pageSize, page)
    requires id in s.rows && s.rows[id].isJson
    ensures id in page.documents <==>
            Above(s.checkpoint, PositionOf(s.rows, id)) && page.checkpoint.Some? &&
            !Less(page.checkpoint.value, PositionOf(s.rows, id))
    ensures page.checkpoint.None? ==> !Above(s.checkpoint, PositionOf(s.rows, id))
    ensures page.checkpoint.Some? ==> Above(s.checkpoint, page.checkpoint.value)
  {
    var feed :| IsFeed(s.rows, feed) && page.positions == PageOf(feed, s.checkpoint, pageSize).ids
                && page.checkpoint == Last(page.positions) && page.documents == DocumentsAt(s.rows, page.positions);
    PageShape(feed, s.checkpoint, pageSize);
    PageIsSlice(feed, s.checkpoint, pageSize);
    var k := PositionOf(s.rows, id);
    assert k in feed;
    if page.positions != [] {
      var last := page.checkpoint.value;
      LessIrreflexive(last);
      forall i | 0 <= i < |page.positions| ensures !Less(last, page.positions[i]) {
        LessTotal(last, page.positions[i]);
      }
    }
  }

  lemma PullKeepsAgreement(s: Replica, pageSize: nat, page: FeedPage)
    requires Agrees(s) && Occurs(s, Pull(pageSize, page))
    ensures Agrees(After(s, Pull(pageSize, page)))
  {
    var s' := After(s, Pull(pageSize, page));
    forall id | id in s'.rows && s'.rows[id].isJson && !Above(s'.checkpoint, PositionOf(s'.rows, id))
      ensures id in s'.follower && s'.follower[id] == s'.rows[id]
    {
      PageCovers(s, pageSize, page, id);
    }
  }

  lemma MutateKeepsAgreement(s: Replica, id: Id, row: Row)
    requires Agrees(s) && CheckpointReached(s) && Occurs(s, Mutate(id, row)) && Replicable(s, id, row)
    ensures Agrees(After(s, Mutate(id, row)))
  {
    LaterIsAbove(s, id, row);
  }

  lemma {:induction false} HistoryAgrees(h: seq<Replica>, i: nat)
    requires IsHistory(h) && i < |h|
    ensures Agrees(h[i]) && CheckpointReached(h[i])
  {
    if i == 0 {
    } else {
      HistoryAgrees(h, i - 1);
      var s, s' := h[i - 1], h[i];
      assert Next(s, s');
      var e :| Occurs(s, e) && (e.Mutate? ==> Replicable(s, e.id, e.row)) && s' == After(s, e);
      match e {
        case Mutate(id, row) =>
          MutateKeepsAgreement(s, id, row);
          MutateKeepsCheckpointReached(s, id, row);
        case Pull(pageSize, page) =>
          PullKeepsAgreement(s, pageSize, page);
          PullKeepsCheckpointReached(s, pageSize, page);
      }
    }
  }

  /** At every moment, whatever was written between pages, the follower agrees with the primary on every
      Resource at or below its checkpoint. */
  lemma FollowerAgreesBelowCheckpoint(h: seq<Replica>, n: nat, id: Id)
    requires IsHistory(h) && n < |h| && id in h[n].rows && h[n].rows[id].isJson
    requires !Above(h[n].checkpoint, PositionOf(h[n].rows, id))
    ensures id in h[n].follower && h[n].follower[id] == h[n].rows[id]
  {
    HistoryAgrees(h, n);
  }

  function JsonRows(rows: Rows): map<Id, Row> {
    map id | id in rows && rows[id].isJson :: rows[id]
  }

  /** When a page comes back empty the follower holds exactly the primary's JSON rows and tombstones. */
  lemma DrainedFollowerEqualsPrimary(h: seq<Replica>, n: nat, pageSize: nat, page: FeedPage)
    requires IsHistory(h) && n < |h| && Occurs(h[n], Pull(pageSize, page)) && page.checkpoint.None?
    ensures h[n].follower == JsonRows(h[n].rows)
  {
    HistoryAgrees(h, n);
    forall id | id in h[n].rows && h[n].rows[id].isJson
      ensures id in h[n].follower && h[n].follower[id] == h[n].rows[id]
    {
      PageCovers(h[n], pageSize, page, id);
    }
  }

  ghost function Pending(s: Replica): set<Id> {
    set id | id in s.rows && s.rows[id].isJson && Above(s.checkpoint, PositionOf(s.rows, id))
  }

  /** While writes pause, every non-empty page leaves strictly fewer rows to deliver, so draining ends. */
  lemma PullsDrain(s: Replica, pageSize: nat, page: FeedPage)
    requires Agrees(s) && Occurs(s, Pull(pageSize, page)) && page.checkpoint.Some?
    ensures Pending(After(s, Pull(pageSize, page))) < Pending(s)
  {
    var s' := After(s, Pull(pageSize, page));
    var feed :| IsFeed(s.rows, feed) && page.positions == PageOf(feed, s.checkpoint, pageSize).ids
                && page.checkpoint == Last(page.positions) && page.documents == DocumentsAt(s.rows, page.positions);
    PageIsSlice(feed, s.checkpoint, pageSize);
    var last := page.checkpoint.value;
    assert last in feed;
    var delivered :| delivered in s.rows && s.rows[delivered].isJson && PositionOf(s.rows, delivered) == last;
    PageCovers(s, pageSize, page, delivered);
    LessIrreflexive(last);
    forall id | id in Pending(s') ensures id in Pending(s) {
      PageCovers(s, pageSize, page, id);
      if s.checkpoint.Some? { LessTransitive(s.checkpoint.value, last, PositionOf(s.rows, id)); }
    }
    assert delivered in Pending(s) && delivered !in Pending(s');
  }

  // ---------- exactly when a commit reaches the follower ----------

  ghost predicate PullsOnly(h: seq<Replica>) {
    |h| > 0 && forall i :: 0 < i < |h| ==> PullNext(h[i - 1], h[i])
  }

  ghost predicate PullNext(s: Replica, s': Replica) {
    exists pageSize, page :: Occurs(s, Pull(pageSize, page)) && s' == After(s, Pull(pageSize, page))
  }

  ghost predicate Drained(s: Replica) {
    Pending(s) == {}
  }

  lemma {:induction false} BelowIsNeverDelivered(h: seq<Replica>, id: Id, i: nat)
    requires PullsOnly(h) && Stamped(h[0].rows) && i < |h| && id in h[0].rows
    requires !h[0].rows[id].isJson || !Above(h[0].checkpoint, PositionOf(h[0].rows, id))
    ensures h[i].rows == h[0].rows
    ensures h[0].rows[id].isJson ==> !Above(h[i].checkpoint, PositionOf(h[0].rows, id))
    ensures (id in h[i].follower <==> id in h[0].follower) && (id in h[0].follower ==> h[i].follower[id] == h[0].follower[id])
  {
    if i > 0 {
      BelowIsNeverDelivered(h, id, i - 1);
      var s, s' := h[i - 1], h[i];
      assert PullNext(s, s');
      var pageSize, page :| Occurs(s, Pull(pageSize, page)) && s' == After(s, Pull(pageSize, page));
      if s.rows[id].isJson {
        PageCovers(s, pageSize, page, id);
        if page.checkpoint.Some? && s.checkpoint.Some? && Less(page.checkpoint.value, PositionOf(s.rows, id)) {
          LessTransitive(s.checkpoint.value, page.checkpoint.value, PositionOf(s.rows, id));
        }
      } else {
        var feed :| IsFeed(s.rows, feed) && page.documents == DocumentsAt(s.rows, page.positions);
      }
    }
  }

  /** Between pulls from an agreeing state, let one commit land, then only pull until nothing is pending.
      The follower ends up with the committed row if and only if the row is JSON and its position is
      after the checkpoint the follower already held: a commit in the same instant as, and with a smaller
      id than, the last row handed out is lost to it, and so is an overwrite by a non-JSON media type. */
  lemma CommitReachesFollowerIff(s: Replica, id: Id, row: Row, h: seq<Replica>)
    requires Agrees(s) && Occurs(s, Mutate(id, row)) && !(id in s.follower && s.follower[id] == row)
    requires PullsOnly(h) && h[0] == After(s, Mutate(id, row)) && Drained(h[|h| - 1])
    ensures var last := h[|h| - 1];
            (id in last.follower && last.follower[id] == row) <==>
            row.isJson && Above(s.checkpoint, Position(row.updatedAt, id))
  {
    var start := h[0];
    if row.isJson && Above(s.checkpoint, Position(row.updatedAt, id)) {
      AgreementSurvivesPulls(h, |h| - 1);
      assert id !in Pending(h[|h| - 1]);
    } else {
      BelowIsNeverDelivered(h, id, |h| - 1);
    }
  }

  /** Two ways a commit is lost to a follower that has drained a feed of one JSON row: a second Resource
      stamped in the same instant under a smaller id, and the row's own overwrite by a binary one. Either way
      nothing is pending afterwards and the follower differs from the primary. */
  lemma LostCommits(b: Id, row: Row, a: Id, same: Row, binary: Row) returns (h: seq<Replica>)
    requires |row.updatedAt| == INSTANT_LENGTH && row.isJson
    requires Less(a, b) && same.updatedAt == row.updatedAt && same.isJson
    requires |binary.updatedAt| == INSTANT_LENGTH && Less(row.updatedAt, binary.updatedAt) && !binary.isJson
    ensures IsHistory(h) && |h| == 2 && Drained(h[1]) && h[1].follower == h[1].rows == map[b := row]
    ensures var s := After(h[1], Mutate(a, same)); Drained(s) && a !in s.follower && s.rows[a] == same
    ensures var s := After(h[1], Mutate(b, binary)); Drained(s) && s.follower[b] == row && s.rows[b] == binary
  {
    var rows := map[b := row];
    var start := Replica(rows, map[], None);
    var k := Position(row.updatedAt, b);
    var page := FeedPage([k], rows, Some(k));
    assert IsFeed(rows, [k]) by {
      assert PositionOf(rows, b) == k;
    }
    assert DocumentsAt(rows, [k]) == rows;
    assert IsPage(rows, None, 1, page);
    h := [start, After(start, Pull(1, page))];
    assert Occurs(start, Pull(1, page)) && Next(start, h[1]);
    LessIrreflexive(k);
    PositionOrdersLikePair(row.updatedAt, b, row.updatedAt, a);
    LessTotal(a, b);
    LessIrreflexive(row.updatedAt);
    if Less(b, a) { LessTransitive(a, b, a); LessIrreflexive(a); }
    PositionOrdersLikePair(row.updatedAt, b, row.updatedAt, b);
    assert h[1].checkpoint == Some(k);
  }

  lemma {:induction false} AgreementSurvivesPulls(h: seq<Replica>, i: nat)
    requires PullsOnly(h) && i < |h| && Stamped(h[0].rows)
    requires forall id :: id in h[0].rows && h[0].rows[id].isJson && !Above(h[0].checkpoint, PositionOf(h[0].rows, id)) ==>
               id in h[0].follower && h[0].follower[id] == h[0].rows[id]
    ensures h[i].rows == h[0].rows
    ensures forall id :: id in h[i].rows && h[i].rows[id].isJson && !Above(h[i].checkpoint, PositionOf(h[i].rows, id)) ==>
               id in h[i].follower && h[i].follower[id] == h[i].rows[id]
  {
    if i > 0 {
      AgreementSurvivesPulls(h, i - 1);
      var s, s' := h[i - 1], h[i];
      assert PullNext(s, s');
      var pageSize, page :| Occurs(s, Pull(pageSize, page)) && s' == After(s, Pull(pageSize, page));
      forall id | id in s'.rows && s'.rows[id].isJson && !Above(s'.checkpoint, PositionOf(s'.rows, id))
        ensures id in s'.follower && s'.follower[id] == s'.rows[id]
      {
        PageCovers(s, pageSize, page, id);
      }
    }
  }
}
