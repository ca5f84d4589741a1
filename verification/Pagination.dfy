/**
 Keyset pagination in code-unit order: one page, the equality query that pages over its matches, and
 whole traversals that follow cursors while the Collection changes between pages.
 */
module Pagination {
  import opened Wrappers
  import opened EqualityIndex
  import opened JsonValues

  // ---------- the order ----------

  /** Code-unit order, the order both the sort and the cursor seek use. */
  predicate Less(a: string, b: string) {
    b != "" && (a == "" || a[0] < b[0] || (a[0] == b[0] && Less(a[1..], b[1..])))
  }

  lemma {:induction false} LessTransitive(a: string, b: string, c: string)
    requires Less(a, b) && Less(b, c)
    ensures Less(a, c)
  {
    if a != "" && a[0] == b[0] && b[0] == c[0] {
      LessTransitive(a[1..], b[1..], c[1..]);
    }
  }

  lemma {:induction false} LessIrreflexive(a: string)
    ensures !Less(a, a)
  {
    if a != "" { LessIrreflexive(a[1..]); }
  }

  lemma {:induction false} LessTotal(a: string, b: string)
    ensures Less(a, b) || a == b || Less(b, a)
    ensures !(Less(a, b) && Less(b, a)) && !Less(a, a)
  {
    LessIrreflexive(a);
    if a != "" && b != "" {
      LessTotal(a[1..], b[1..]);
      assert a == [a[0]] + a[1..] && b == [b[0]] + b[1..];
    }
  }

  /** The order is that of the first difference, a proper prefix coming first. */
  lemma {:induction false} LessIff(a: string, b: string)
    ensures Less(a, b) <==> exists k :: DiffersAt(a, b, k)
  {
    if Less(a, b) {
      if a == "" || a[0] < b[0] {
        assert DiffersAt(a, b, 0);
      } else {
        LessIff(a[1..], b[1..]);
        var k :| DiffersAt(a[1..], b[1..], k);
        assert a == [a[0]] + a[1..] && b == [b[0]] + b[1..];
        assert a[..k + 1] == [a[0]] + a[1..][..k] && b[..k + 1] == [b[0]] + b[1..][..k];
        assert DiffersAt(a, b, k + 1);
      }
    }
    if k :| DiffersAt(a, b, k) {
      if k > 0 {
        assert a[0] == a[..k][0] == b[..k][0] == b[0];
        assert a[1..][..k - 1] == a[..k][1..] && b[1..][..k - 1] == b[..k][1..];
        assert DiffersAt(a[1..], b[1..], k - 1);
        LessIff(a[1..], b[1..]);
      }
    }
  }

  predicate DiffersAt(a: string, b: string, k: int) {
    0 <= k < |b| && k <= |a| && a[..k] == b[..k] && (k == |a| || a[k] < b[k])
  }

  predicate Ascending(ids: seq<string>) {
    forall i, j :: 0 <= i < j < |ids| ==> Less(ids[i], ids[j])
  }

  // ---------- one page ----------

  const DEFAULT_PAGE_SIZE := 100
  const MAX_PAGE_SIZE := 1000

  function ResolvePageSize(limit: Option<int>): (n: nat)
    ensures 1 <= n <= MAX_PAGE_SIZE
    ensures limit.Some? && 1 <= limit.value <= MAX_PAGE_SIZE ==> n == limit.value
  {
    if limit.None? then DEFAULT_PAGE_SIZE
    else if limit.value < 1 then 1
    else if limit.value > MAX_PAGE_SIZE then MAX_PAGE_SIZE
    else limit.value
  }

  /** Absent, 100; otherwise what was asked for, brought within 1 and 1000. */
  lemma PageSizeIsExact(limit: int)
    ensures ResolvePageSize(None) == 100
    ensures ResolvePageSize(Some(limit)) == if limit > 1000 then 1000 else if limit < 1 then 1 else limit
  {
  }

  /** The first position strictly after the cursor's anchor, whether or not the anchor still exists. */
  function Seek(ids: seq<string>, after: Option<string>): nat {
    if after.None? || ids == [] || Less(after.value, ids[0]) then 0 else 1 + Seek(ids[1..], after)
  }

  lemma {:induction false} SeekSplits(ids: seq<string>, after: Option<string>)
    requires Ascending(ids)
    ensures Seek(ids, after) <= |ids|
    ensures after.Some? ==> forall i :: 0 <= i < |ids| ==> (Less(after.value, ids[i]) <==> Seek(ids, after) <= i)
  {
    if after.None? || ids == [] {
    } else if Less(after.value, ids[0]) {
      forall i | 0 < i < |ids| ensures Less(after.value, ids[i]) {
        LessTransitive(after.value, ids[0], ids[i]);
      }
    } else {
      SeekSplits(ids[1..], after);
      forall i | 0 < i < |ids| ensures Less(after.value, ids[i]) <==> Seek(ids, after) <= i {
        assert ids[i] == ids[1..][i - 1];
      }
    }
  }

  datatype Page = Page(ids: seq<string>, hasMore: bool)

  function PageOf(ids: seq<string>, after: Option<string>, pageSize: nat): Page {
    var start := Seek(ids, after);
    var rest := if start <= |ids| then ids[start..] else [];
    if |rest| > pageSize then Page(rest[..pageSize], true) else Page(rest, false)
  }

  /** The keyset form of a page: the rows after the anchor, in order, one more than a page of them. */
  function Above(ids: seq<string>, after: Option<string>): seq<string> {
    if ids == [] then []
    else (if after.None? || Less(after.value, ids[0]) then [ids[0]] else []) + Above(ids[1..], after)
  }

  function KeysetPage(ids: seq<string>, after: Option<string>, pageSize: nat): Page {
    var rows := var all := Above(ids, after); if |all| > pageSize + 1 then all[..pageSize + 1] else all;
    if |rows| > pageSize then Page(rows[..pageSize], true) else Page(rows, false)
  }

  lemma {:induction false} AboveIsSuffix(ids: seq<string>, after: Option<string>)
    requires Ascending(ids)
    ensures Seek(ids, after) <= |ids| && Above(ids, after) == ids[Seek(ids, after)..]
  {
    SeekSplits(ids, after);
    if ids != [] {
      AboveIsSuffix(ids[1..], after);
      if Seek(ids, after) == 0 {
        SeekSplits(ids[1..], after);
        if after.Some? && |ids| > 1 {
          assert Less(after.value, ids[1..][0]) by { LessTransitive(after.value, ids[0], ids[1]); }
        }
        assert ids == [ids[0]] + ids[1..];
      }
    }
  }

  /** Sort-seek-slice and the SQL keyset query with its extra row return the same page. */
  lemma SeekPageIsKeysetPage(ids: seq<string>, after: Option<string>, pageSize: nat)
    requires Ascending(ids)
    ensures PageOf(ids, after, pageSize) == KeysetPage(ids, after, pageSize)
  {
    AboveIsSuffix(ids, after);
  }

  // ---------- the equality query ----------

  datatype Query = Equals(elements: seq<map<string, Json>>) | Has(names: seq<string>)

  function ValuesNamed(indexes: seq<Declaration>, c: Candidate, name: string): set<Json> {
    set d, v | d in indexes && d.name == name && v in ValuesOf(d, c.content, c.custom) :: v
  }

  /** Strict, typed matching: some element with all its pairs held, or every named attribute present. */
  predicate Matches(indexes: seq<Declaration>, c: Candidate, query: Query) {
    match query
    case Equals(elements) =>
      exists e :: e in elements && e != map[] && forall n :: n in e ==> e[n] in ValuesNamed(indexes, c, n)
    case Has(names) => forall n :: n in names ==> ValuesNamed(indexes, c, n) != {}
  }

  /** A Resource matches `equals` when some non-empty element has each of its values carried under its name, of the same
      type, and `has` when each name carries any value. */
  lemma MatchesIff(indexes: seq<Declaration>, c: Candidate, query: Query)
    ensures Matches(indexes, c, query) <==>
            match query
            case Equals(elements) =>
              exists e :: e in elements && |e| > 0 &&
                forall n :: n in e ==> exists d :: d in indexes && d.name == n && Carries(d, c.content, c.custom, e[n])
            case Has(names) =>
              forall n :: n in names ==> exists d, v :: d in indexes && d.name == n && Carries(d, c.content, c.custom, v)
  {
    forall n, v ensures v in ValuesNamed(indexes, c, n) <==> exists d :: d in indexes && d.name == n && Carries(d, c.content, c.custom, v) {
      if d :| d in indexes && d.name == n && Carries(d, c.content, c.custom, v) {
        ValuesAreCarried(d, c.content, c.custom, v);
      }
      if v in ValuesNamed(indexes, c, n) {
        var d :| d in indexes && d.name == n && v in ValuesOf(d, c.content, c.custom);
        ValuesAreCarried(d, c.content, c.custom, v);
      }
    }
    if query.Has? {
      forall n | n in query.names
        ensures ValuesNamed(indexes, c, n) != {} <==> exists d, v :: d in indexes && d.name == n && Carries(d, c.content, c.custom, v)
      {
        if ValuesNamed(indexes, c, n) != {} {
          var v :| v in ValuesNamed(indexes, c, n);
          assert exists d :: d in indexes && d.name == n && Carries(d, c.content, c.custom, v);
        }
        if d, v :| d in indexes && d.name == n && Carries(d, c.content, c.custom, v) {
          assert v in ValuesNamed(indexes, c, n);
        }
      }
    }
  }

  function Ids(cs: seq<Candidate>): (ids: seq<string>)
    ensures |ids| == |cs| && forall i :: 0 <= i < |cs| ==> ids[i] == cs[i].id
  {
    seq(|cs|, i requires 0 <= i < |cs| => cs[i].id)
  }

  predicate DistinctIds(cs: seq<Candidate>) {
    forall i, j :: 0 <= i < j < |cs| ==> cs[i].id != cs[j].id
  }

  datatype Answer = Count(n: nat) | Documents(page: seq<Candidate>, hasMore: bool, cursor: Option<string>)

  /** The matches in ascending id order: the filter and the sort. */
  method SortedMatches(candidates: seq<Candidate>, query: Query, indexes: seq<Declaration>)
    returns (sorted: seq<Candidate>)
    requires DistinctIds(candidates)
    ensures Ascending(Ids(sorted))
    ensures forall c :: c in sorted <==> c in candidates && Matches(indexes, c, query)
  {
    sorted := [];
    for i := 0 to |candidates|
      invariant Ascending(Ids(sorted))
      invariant forall c :: c in sorted <==> c in candidates[..i] && Matches(indexes, c, query)
    {
      var c := candidates[i];
      if Matches(indexes, c, query) {
        assert forall d :: d in sorted ==> d.id != c.id;
        sorted := InsertById(sorted, c);
      }
    }
  }

  method InsertById(sorted: seq<Candidate>, c: Candidate) returns (r: seq<Candidate>)
    requires Ascending(Ids(sorted)) && forall d :: d in sorted ==> d.id != c.id
    ensures Ascending(Ids(r)) && forall d :: d in r <==> d in sorted || d == c
  {
    var i := 0;
    while i < |sorted| && Less(sorted[i].id, c.id)
      invariant 0 <= i <= |sorted| && forall j :: 0 <= j < i ==> Less(sorted[j].id, c.id)
    {
      i := i + 1;
    }
    r := sorted[..i] + [c] + sorted[i..];
    forall j | i <= j < |sorted| ensures Less(c.id, sorted[j].id) {
      LessTotal(c.id, sorted[i].id);
      assert sorted[i] in sorted;
      if i < j {
        assert Less(Ids(sorted)[i], Ids(sorted)[j]);
        LessTransitive(c.id, sorted[i].id, sorted[j].id);
      }
    }
    forall j, k | 0 <= j < k < |r| ensures Less(Ids(r)[j], Ids(r)[k]) {
      if k < i {
        assert Less(Ids(sorted)[j], Ids(sorted)[k]);
      } else if j > i {
        assert Less(Ids(sorted)[j - 1], Ids(sorted)[k - 1]);
      } else if j < i < k {
        assert Less(Ids(sorted)[j], Ids(sorted)[k - 1]);
      }
    }
    assert sorted == sorted[..i] + sorted[i..];
  }

  /** All the matches of a query, in ascending id order. */
  ghost predicate IsMatchList(candidates: seq<Candidate>, query: Query, indexes: seq<Declaration>, all: seq<Candidate>) {
    Ascending(Ids(all)) && forall c :: c in all <==> c in candidates && Matches(indexes, c, query)
  }

  /** The answer over such a list: its length, or its page past the cursor with a cursor naming the last id
      exactly when more follows. */
  predicate IsAnswer(answer: Answer, all: seq<Candidate>, count: bool, limit: Option<int>, after: Option<string>) {
    if count then answer == Count(|all|)
    else
      && answer.Documents? && Page(Ids(answer.page), answer.hasMore) == PageOf(Ids(all), after, ResolvePageSize(limit))
      && (forall c :: c in answer.page ==> c in all)
      && (if answer.hasMore then |answer.page| > 0 && answer.cursor == Some(answer.page[|answer.page| - 1].id)
          else answer.cursor == None)
  }

  /** The cursor an answer hands out resumes right where its page ends. */
  lemma CursorResumesAfterPage(answer: Answer, all: seq<Candidate>, limit: Option<int>, after: Option<string>)
    requires Ascending(Ids(all)) && IsAnswer(answer, all, false, limit, after) && answer.hasMore
    ensures answer.cursor.Some? && Seek(Ids(all), answer.cursor) == Seek(Ids(all), after) + |answer.page|
  {
    var ids, start, n := Ids(all), Seek(Ids(all), after), |answer.page|;
    SeekSplits(ids, after);
    var rest := ids[start..];
    assert Ids(answer.page) == rest[..ResolvePageSize(limit)];
    assert answer.cursor.value == Ids(answer.page)[n - 1] == rest[n - 1] == ids[start + n - 1];
    SeekSplits(ids, answer.cursor);
    LessIrreflexive(answer.cursor.value);
    assert start + n < |ids| && Less(ids[start + n - 1], ids[start + n]);
  }

  method RunEqualityQuery(candidates: seq<Candidate>, query: Query, indexes: seq<Declaration>, count: bool,
                          limit: Option<int>, after: Option<string>)
    returns (answer: Answer)
    requires DistinctIds(candidates)
    ensures exists all :: IsMatchList(candidates, query, indexes, all) && IsAnswer(answer, all, count, limit, after)
  {
    var matches := SortedMatches(candidates, query, indexes);
    assert IsMatchList(candidates, query, indexes, matches);
    if count {
      return Count(|matches|);
    }
    var page, hasMore := SeekPage(matches, after, ResolvePageSize(limit));
    return Documents(page, hasMore, if hasMore then Some(page[|page| - 1].id) else None);
  }

  lemma IdsOfSlice(items: seq<Candidate>, a: nat, b: nat)
    requires a <= b <= |items|
    ensures Ids(items[a..b]) == Ids(items)[a..b]
  {
  }

  method SeekStart(items: seq<Candidate>, after: Option<string>) returns (start: nat)
    ensures start <= |items| && start == Seek(Ids(items), after)
  {
    start := 0;
    if after.Some? {
      while start < |items| && !Less(after.value, items[start].id)
        invariant 0 <= start <= |items|
        invariant forall j :: 0 <= j < start ==> !Less(after.value, items[j].id)
      {
        start := start + 1;
      }
    }
    SeekIs(Ids(items), after, start);
  }

  /** One page of a list in keyset order: find the anchor's successor, then take one item more than a page. */
  method SeekPage(items: seq<Candidate>, after: Option<string>, pageSize: nat)
    returns (page: seq<Candidate>, hasMore: bool)
    requires pageSize >= 1
    ensures Page(Ids(page), hasMore) == PageOf(Ids(items), after, pageSize)
    ensures forall c :: c in page ==> c in items
    ensures hasMore ==> |page| > 0
  {
    var start := SeekStart(items, after);
    var end := if start + pageSize + 1 < |items| then start + pageSize + 1 else |items|;
    hasMore := end - start > pageSize;
    var stop := if hasMore then start + pageSize else end;
    page := items[start..stop];
    IdsOfSlice(items, start, stop);
    assert Ids(items)[start..][..stop - start] == Ids(items)[start..stop];
  }

  lemma {:induction false} SeekIs(ids: seq<string>, after: Option<string>, start: nat)
    requires start <= |ids|
    requires after.None? ==> start == 0
    requires after.Some? ==> forall j :: 0 <= j < start ==> !Less(after.value, ids[j])
    requires after.Some? && start < |ids| ==> Less(after.value, ids[start])
    ensures Seek(ids, after) == start
  {
    if start > 0 {
      assert forall j :: 0 <= j < |ids| - 1 ==> ids[1..][j] == ids[j + 1];
      SeekIs(ids[1..], after, start - 1);
    }
  }

  // ---------- whole traversals ----------

  function Last(page: seq<string>): Option<string> {
    if page == [] then None else Some(page[|page| - 1])
  }

  /** A client follows cursors to the end; the snapshot each request sees, and its page size, are its own. */
  ghost predicate Traversal(snapshots: seq<seq<string>>, sizes: seq<nat>, after: Option<string>, pages: seq<seq<string>>)
    decreases |snapshots|
  {
    && |snapshots| == |sizes| == |pages| > 0
    && Ascending(snapshots[0]) && sizes[0] >= 1
    && var page := PageOf(snapshots[0], after, sizes[0]);
       pages[0] == page.ids &&
       if page.hasMore then Traversal(snapshots[1..], sizes[1..], Last(page.ids), pages[1..]) else |pages| == 1
  }

  function Concat(pages: seq<seq<string>>): seq<string> {
    if pages == [] then [] else pages[0] + Concat(pages[1..])
  }

  predicate AllAfter(ids: seq<string>, after: Option<string>) {
    after.Some? ==> forall i :: 0 <= i < |ids| ==> Less(after.value, ids[i])
  }

  lemma PageIsSlice(ids: seq<string>, after: Option<string>, pageSize: nat)
    requires Ascending(ids) && pageSize >= 1
    ensures var page, start := PageOf(ids, after, pageSize), Seek(ids, after);
            && start + |page.ids| <= |ids| && page.ids == ids[start..start + |page.ids|]
            && (page.hasMore ==> |page.ids| == pageSize && start + pageSize < |ids|)
            && (!page.hasMore ==> start + |page.ids| == |ids|)
  {
    SeekSplits(ids, after);
  }

  lemma PageShape(ids: seq<string>, after: Option<string>, pageSize: nat)
    requires Ascending(ids) && pageSize >= 1
    ensures var page := PageOf(ids, after, pageSize);
            && Ascending(page.ids) && AllAfter(page.ids, after)
            && (page.hasMore ==> page.ids != [])
            && (forall id :: id in ids && (after.Some? ==> Less(after.value, id)) ==>
                  id in page.ids || (page.hasMore && Less(Last(page.ids).value, id)))
  {
    SeekSplits(ids, after);
    PageIsSlice(ids, after, pageSize);
    forall id | id in ids && (after.Some? ==> Less(after.value, id))
      ensures var page := PageOf(ids, after, pageSize); id in page.ids || (page.hasMore && Less(Last(page.ids).value, id))
    {
      OnPageOrBeyond(ids, after, pageSize, id);
    }
  }

  /** Where an id past the cursor sits: on the page, or past the page's last id with more to follow. */
  lemma OnSliceOrBeyond(ids: seq<string>, start: nat, pageSize: nat, i: nat)
    requires Ascending(ids) && pageSize >= 1 && start <= i < |ids|
    ensures i < start + pageSize ==> ids[i] in ids[start..if start + pageSize < |ids| then start + pageSize else |ids|]
    ensures i >= start + pageSize ==> start + pageSize < |ids| && Less(ids[start + pageSize - 1], ids[i])
  {
    if i < start + pageSize {
      var end := if start + pageSize < |ids| then start + pageSize else |ids|;
      assert ids[start..end][i - start] == ids[i];
    }
  }

  lemma OnPageOrBeyond(ids: seq<string>, after: Option<string>, pageSize: nat, id: string)
    requires Ascending(ids) && pageSize >= 1 && id in ids && (after.Some? ==> Less(after.value, id))
    ensures var page := PageOf(ids, after, pageSize);
            id in page.ids || (page.hasMore && page.ids != [] && Less(Last(page.ids).value, id))
  {
    var start := Seek(ids, after);
    SeekSplits(ids, after);
    PageIsSlice(ids, after, pageSize);
    var i :| 0 <= i < |ids| && ids[i] == id;
    OnSliceOrBeyond(ids, start, pageSize, i);
  }

  /** What a traversal returns is strictly ascending, so nothing is returned twice. */
  lemma {:induction false} TraversalAscends(snapshots: seq<seq<string>>, sizes: seq<nat>, after: Option<string>,
                                           pages: seq<seq<string>>)
    requires Traversal(snapshots, sizes, after, pages)
    ensures Ascending(Concat(pages)) && AllAfter(Concat(pages), after)
    decreases |snapshots|
  {
    PageShape(snapshots[0], after, sizes[0]);
    var page := PageOf(snapshots[0], after, sizes[0]);
    var rest := Concat(pages[1..]);
    if page.hasMore {
      var last := Last(page.ids).value;
      TraversalAscends(snapshots[1..], sizes[1..], Some(last), pages[1..]);
      forall i, j | 0 <= i < |page.ids| && 0 <= j < |rest| ensures Less(page.ids[i], rest[j]) {
        if i < |page.ids| - 1 { LessTransitive(page.ids[i], last, rest[j]); }
      }
      if after.Some? {
        forall j | 0 <= j < |rest| ensures Less(after.value, rest[j]) { LessTransitive(after.value, last, rest[j]); }
      }
    } else {
      assert pages[1..] == [];
    }
    assert Concat(pages) == page.ids + rest;
  }

  /** Every match that is present throughout is returned exactly once, whatever is added or deleted
      between pages, anchors included. */
  lemma {:induction false} PresentThroughoutIsReturned(snapshots: seq<seq<string>>, sizes: seq<nat>,
                                                      after: Option<string>, pages: seq<seq<string>>, id: string)
    requires Traversal(snapshots, sizes, after, pages) && (after.Some? ==> Less(after.value, id))
    requires forall k :: 0 <= k < |snapshots| ==> id in snapshots[k]
    ensures id in Concat(pages)
    ensures forall i, j :: 0 <= i < j < |Concat(pages)| ==> !(Concat(pages)[i] == id && Concat(pages)[j] == id)
    decreases |snapshots|
  {
    TraversalAscends(snapshots, sizes, after, pages);
    PageShape(snapshots[0], after, sizes[0]);
    var page := PageOf(snapshots[0], after, sizes[0]);
    if id !in page.ids {
      PresentThroughoutIsReturned(snapshots[1..], sizes[1..], Last(page.ids), pages[1..], id);
    }
    forall i, j | 0 <= i < j < |Concat(pages)| ensures !(Concat(pages)[i] == id && Concat(pages)[j] == id) {
      LessTotal(id, id);
    }
  }

  /** Each page holds only matches of the snapshot it was read from, past the cursor it was asked for with. */
  lemma {:induction false} ReturnedWasPresent(snapshots: seq<seq<string>>, sizes: seq<nat>, after: Option<string>,
                                             pages: seq<seq<string>>, k: nat, id: string)
    requires Traversal(snapshots, sizes, after, pages) && k < |pages| && id in pages[k]
    ensures id in snapshots[k]
    ensures k > 0 ==> Last(pages[k - 1]).Some? && Less(Last(pages[k - 1]).value, id)
    decreases k
  {
    var page := PageOf(snapshots[0], after, sizes[0]);
    if k == 0 {
      SeekSplits(snapshots[0], after);
      assert id in snapshots[0];
    } else {
      ReturnedWasPresent(snapshots[1..], sizes[1..], Last(page.ids), pages[1..], k - 1, id);
      if k == 1 {
        PageShape(snapshots[0], after, sizes[0]);
        PageShape(snapshots[1], Last(page.ids), sizes[1]);
        var i :| 0 <= i < |pages[1]| && pages[1][i] == id;
      }
    }
  }

  /** A full page ends where the next one starts. */
  lemma FullPageLeadsOn(ids: seq<string>, after: Option<string>, pageSize: nat)
    requires Ascending(ids) && pageSize >= 1 && PageOf(ids, after, pageSize).hasMore
    ensures var start, page := Seek(ids, after), PageOf(ids, after, pageSize).ids;
            start + pageSize < |ids| && page == ids[start..start + pageSize] && Seek(ids, Last(page)) == start + pageSize
  {
    PageIsSlice(ids, after, pageSize);
    var start := Seek(ids, after);
    assert Last(ids[start..start + pageSize]) == Some(ids[start + pageSize - 1]);
    SeekIsAfterLast(ids, start + pageSize - 1);
  }

  lemma SliceJoins(ids: seq<string>, a: nat, b: nat)
    requires a <= b <= |ids|
    ensures ids[a..b] + ids[b..] == ids[a..]
  {
  }

  /** Over an unchanging Collection a traversal returns every match in order, whatever the page sizes, so
      the count form equals the number of documents returned, and it takes at most one page per match. */
  lemma {:induction false} StaticTraversalIsComplete(ids: seq<string>, snapshots: seq<seq<string>>, sizes: seq<nat>,
                                                    after: Option<string>, pages: seq<seq<string>>)
    requires Traversal(snapshots, sizes, after, pages) && forall k :: 0 <= k < |snapshots| ==> snapshots[k] == ids
    ensures Seek(ids, after) <= |ids| && Concat(pages) == ids[Seek(ids, after)..]
    ensures |pages| <= |ids| - Seek(ids, after) + 1
    decreases |snapshots|
  {
    assert snapshots[0] == ids;
    var start, page := Seek(ids, after), PageOf(ids, after, sizes[0]);
    if page.hasMore {
      FullPageLeadsOn(ids, after, sizes[0]);
      StaticTraversalIsComplete(ids, snapshots[1..], sizes[1..], Last(page.ids), pages[1..]);
      SliceJoins(ids, start, start + sizes[0]);
    } else {
      PageIsSlice(ids, after, sizes[0]);
      assert pages[1..] == [];
    }
  }

  lemma SeekIsAfterLast(ids: seq<string>, i: nat)
    requires Ascending(ids) && i < |ids|
    ensures Seek(ids, Some(ids[i])) == i + 1
  {
    forall j | 0 <= j < i + 1 ensures !Less(ids[i], ids[j]) {
      LessTotal(ids[i], ids[j]);
      if j < i { assert Less(ids[j], ids[i]); }
    }
    SeekIs(ids, Some(ids[i]), i + 1);
  }
}
