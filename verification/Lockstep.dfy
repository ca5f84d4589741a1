/** Both backends side by side: the same operations, answer for answer and read for read. */
module Lockstep {
  import opened CollectionStore
  import ChangeFeed
  import F = FileSystemStore
  import P = PostgresStore
  import Pagination
  import opened Wrappers

  lemma OneMoreStep(steps: seq<Step>, i: nat)
    requires i < |steps|
    ensures StoreAfter(map[], steps[..i + 1]) == Apply(StoreAfter(map[], steps[..i]), steps[i].op, steps[i].now).0
    ensures Answers(map[], steps[..i + 1]) ==
            Answers(map[], steps[..i]) + [Apply(StoreAfter(map[], steps[..i]), steps[i].op, steps[i].now).1]
  {
    assert steps[..i + 1][..i] == steps[..i];
  }

  /** Any sequence of operations on two fresh backends, one of each kind and neither near a quota: every answer
      is the same, and both end standing for the same Collection. */
  method RunBoth(json: JsonTypes, steps: seq<Step>)
    returns (pg: P.PostgresStore, fs: F.FileSystemStore, pgAnswers: seq<Answer>, fsAnswers: seq<Answer>)
    ensures fresh(pg) && fresh(fs) && pg.Valid() && fs.Valid() && pg.json == fs.json == json
    ensures pgAnswers == fsAnswers == Answers(map[], steps)
    ensures pg.store == fs.store == StoreAfter(map[], steps)
  {
    pg := new P.PostgresStore(json, None, 0);
    fs := new F.FileSystemStore(json);
    pgAnswers, fsAnswers := [], [];
    for i := 0 to |steps|
      invariant fresh(pg) && fresh(fs) && pg.Valid() && fs.Valid() && pg.json == fs.json == json && pg.capacity.None?
      invariant pgAnswers == fsAnswers == Answers(map[], steps[..i])
      invariant pg.store == fs.store == StoreAfter(map[], steps[..i])
    {
      OneMoreStep(steps, i);
      var outcome := pg.Execute(steps[i].op, steps[i].now);
      var answer := fs.Execute(steps[i].op, steps[i].now);
      pgAnswers, fsAnswers := pgAnswers + [outcome.answer], fsAnswers + [answer];
    }
    assert steps[..|steps|] == steps;
  }

  /** There is one page for any rows, checkpoint and size. */
  lemma PageIsUnique(rows: ChangeFeed.Rows, checkpoint: Option<string>, pageSize: nat, a: ChangeFeed.FeedPage, b: ChangeFeed.FeedPage)
    requires ChangeFeed.IsPage(rows, checkpoint, pageSize, a) && ChangeFeed.IsPage(rows, checkpoint, pageSize, b)
    ensures a == b
  {
    var f :| ChangeFeed.IsFeed(rows, f) && a.positions == Pagination.PageOf(f, checkpoint, pageSize).ids;
    var g :| ChangeFeed.IsFeed(rows, g) && b.positions == Pagination.PageOf(g, checkpoint, pageSize).ids;
    ChangeFeed.AscendingUnique(f, g);
  }

  /** Backends that stand for the same Collection answer every read alike: content, metadata, a chunk, the
      chunk listing, and a change-feed page from any checkpoint. */
  method ReadBoth(pg: P.PostgresStore, fs: F.FileSystemStore, id: Id, index: nat, checkpoint: Option<string>, limit: int)
    returns (alike: bool)
    requires pg.Valid() && fs.Valid() && pg.store == fs.store && pg.json == fs.json
    requires ChangeFeed.Stamped(FeedRows(pg.json, pg.store))
    ensures alike
  {
    var pgContent := pg.GetResource(id);
    var fsContent := fs.GetResource(id);
    var pgMetadata := pg.GetResourceMetadata(id);
    var fsMetadata := fs.GetResourceMetadata(id);
    var pgChunk := pg.GetChunk(id, index);
    var fsChunk := fs.GetChunk(id, index);
    var pgListing := pg.ListChunks(id);
    var fsListing := fs.ListChunks(id);
    ListingIsUnique(ChunksOf(pg.store, id), pgListing, fsListing);
    var pgRows := pg.SelectFeed();
    var pgPage := QueryPage(pgRows, checkpoint, limit);
    var fsRows := fs.SelectFeed();
    var fsPage := ChangeFeed.ChangesSince(fsRows, checkpoint, limit);
    PageIsUnique(pgRows, checkpoint, Pagination.ResolvePageSize(Some(limit)), pgPage, fsPage);
    alike := pgContent == fsContent && pgMetadata == fsMetadata && pgChunk == fsChunk && pgListing == fsListing && pgPage == fsPage;
  }

  /** The keyset query: the first rows past the checkpoint in feed order. */
  method QueryPage(rows: ChangeFeed.Rows, checkpoint: Option<string>, limit: int) returns (page: ChangeFeed.FeedPage)
    requires ChangeFeed.Stamped(rows)
    ensures ChangeFeed.IsPage(rows, checkpoint, Pagination.ResolvePageSize(Some(limit)), page)
  {
    var feed, ids := ChangeFeed.SortedFeed(rows);
    var pageSize := Pagination.ResolvePageSize(Some(limit));
    Pagination.SeekPageIsKeysetPage(feed, checkpoint, pageSize);
    var positions := Pagination.KeysetPage(feed, checkpoint, pageSize).ids;
    page := ChangeFeed.FeedPage(positions, ChangeFeed.DocumentsAt(rows, positions), Pagination.Last(positions));
  }

  /** Clock readings written as instants of fixed width make every feed row stamped. */
  lemma FeedIsStamped(json: JsonTypes, steps: seq<Step>)
    requires forall step :: step in steps ==> |step.now| == ChangeFeed.INSTANT_LENGTH
    ensures ChangeFeed.Stamped(FeedRows(json, StoreAfter(map[], steps)))
  {
    TimesAreInstants(steps);
  }

  lemma {:induction false} TimesAreInstants(steps: seq<Step>)
    requires forall step :: step in steps ==> |step.now| == ChangeFeed.INSTANT_LENGTH
    ensures forall id :: id in StoreAfter(map[], steps) ==> |StoreAfter(map[], steps)[id].updatedAt| == ChangeFeed.INSTANT_LENGTH
  {
    if steps != [] {
      var n := |steps| - 1;
      assert steps[n] in steps;
      assert forall step :: step in steps[..n] ==> step in steps;
      TimesAreInstants(steps[..n]);
    }
  }
}
