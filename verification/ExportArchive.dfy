/**
 The Space export archive: the packer that walks an entry tree of any depth, the manifest built from the same
 tree, and why the two cannot drift apart. Paths are plain strings, as in the archive.
 */
module ExportArchive {

  type Bytes = string

  datatype Entry = FileEntry(name: string, bytes: Bytes) | Directory(name: string, files: seq<Entry>)

  datatype Packed = PackedDir(path: string) | PackedFile(path: string, bytes: Bytes)

  // ---------- the manifest ----------

  datatype Url = UbcManifestUrl | SpaceUrl | CollectionUrl | CollectionMetaUrl | ResourceUrl | PolicyUrl | MetaUrl

  datatype ManifestEntry = Bare(name: string) | Documented(name: string, url: Url) | Contents(name: string, contents: seq<ManifestEntry>)

  datatype Manifest = Manifest(revocations: seq<string>, spaceId: string, space: seq<ManifestEntry>)

  const COLLECTION_META_FILE_PREFIX := ".collectionmeta."
  const COLLECTION_FILE_PREFIX := ".collection."
  const POLICY_FILE_PREFIX := ".policy."
  const META_FILE_PREFIX := ".meta."
  const REPRESENTATION_PREFIX := "r."

  const PREFIXES := [(COLLECTION_META_FILE_PREFIX, CollectionMetaUrl), (COLLECTION_FILE_PREFIX, CollectionUrl),
                     (POLICY_FILE_PREFIX, PolicyUrl), (META_FILE_PREFIX, MetaUrl), (REPRESENTATION_PREFIX, ResourceUrl)]

  function CollectionManifestEntry(fileName: string): ManifestEntry {
    if COLLECTION_META_FILE_PREFIX <= fileName then Documented(fileName, CollectionMetaUrl)
    else if COLLECTION_FILE_PREFIX <= fileName then Documented(fileName, CollectionUrl)
    else if POLICY_FILE_PREFIX <= fileName then Documented(fileName, PolicyUrl)
    else if META_FILE_PREFIX <= fileName then Documented(fileName, MetaUrl)
    else if REPRESENTATION_PREFIX <= fileName then Documented(fileName, ResourceUrl)
    else Bare(fileName)
  }

  /** The prefixes exclude one another, so the order of the tests is immaterial: a name is documented with a
      URL exactly when it carries that URL's prefix. */
  lemma ClassificationIsOrderFree(fileName: string, i: nat)
    requires i < |PREFIXES|
    ensures CollectionManifestEntry(fileName) == Documented(fileName, PREFIXES[i].1) <==> PREFIXES[i].0 <= fileName
  {
    assert COLLECTION_META_FILE_PREFIX <= fileName ==> fileName[1] == 'c' && fileName[11] == 'm';
    assert COLLECTION_FILE_PREFIX <= fileName ==> fileName[1] == 'c' && fileName[11] == '.';
    assert POLICY_FILE_PREFIX <= fileName ==> fileName[1] == 'p';
    assert META_FILE_PREFIX <= fileName ==> fileName[1] == 'm';
    assert REPRESENTATION_PREFIX <= fileName ==> fileName[1] == '.';
  }

  /** The relative paths of a directory's files, in tree order. */
  function FlattenEntryNames(entries: seq<Entry>): seq<string>
    decreases entries
  {
    if entries == [] then []
    else
      (match entries[0]
       case FileEntry(name, _) => [name]
       case Directory(name, files) => Prefixed(name + "/", FlattenEntryNames(files)))
      + FlattenEntryNames(entries[1..])
  }

  function Prefixed(prefix: string, names: seq<string>): seq<string> {
    seq(|names|, i requires 0 <= i < |names| => prefix + names[i])
  }

  /** The description of one top-level entry handed to the manifest builder. */
  datatype SpaceEntry = TopFile(name: string) | TopDirectory(name: string, files: seq<string>)

  function SpaceEntryOf(e: Entry): SpaceEntry {
    match e
    case FileEntry(name, _) => TopFile(name)
    case Directory(name, files) => TopDirectory(name, FlattenEntryNames(files))
  }

  function ManifestEntryOf(e: SpaceEntry): ManifestEntry {
    match e
    case TopFile(name) => Bare(name)
    case TopDirectory(name, files) => Contents(name, seq(|files|, i requires 0 <= i < |files| => CollectionManifestEntry(files[i])))
  }

  function Described(entries: seq<Entry>): seq<ManifestEntry> {
    if entries == [] then [] else Described(entries[..|entries| - 1]) + [ManifestEntryOf(SpaceEntryOf(entries[|entries| - 1]))]
  }

  method BuildExportManifest(spaceId: string, entries: seq<Entry>, revocations: seq<string>) returns (m: Manifest)
    ensures m == Manifest(revocations, spaceId, Described(entries))
  {
    var spaceContents := [];
    for i := 0 to |entries|
      invariant spaceContents == Described(entries[..i])
    {
      spaceContents := spaceContents + [ManifestEntryOf(SpaceEntryOf(entries[i]))];
      assert entries[..i + 1][..i] == entries[..i];
    }
    assert entries[..|entries|] == entries;
    return Manifest(revocations, spaceId, spaceContents);
  }

  /** The file paths a reader finds in the manifest under the Space, in order. */
  function ListedPaths(contents: seq<ManifestEntry>): seq<string>
    decreases contents
  {
    if contents == [] then []
    else
      (match contents[0]
       case Bare(name) => [name]
       case Documented(name, _) => [name]
       case Contents(name, inner) => Prefixed(name + "/", ListedPaths(inner)))
      + ListedPaths(contents[1..])
  }

  // ---------- the packer ----------

  function PackEntries(target: string, entries: seq<Entry>): seq<Packed>
    decreases entries, 0
  {
    if entries == [] then []
    else PackEntry(target, entries[0]) + PackEntries(target, entries[1..])
  }

  function PackEntry(target: string, e: Entry): seq<Packed>
    decreases e, 1
  {
    match e
    case FileEntry(name, bytes) => [PackedFile(target + "/" + name, bytes)]
    case Directory(name, files) => [PackedDir(target + "/" + name + "/")] + PackEntries(target + "/" + name, files)
  }

  function PackFiles(target: string, files: seq<(string, Bytes)>): seq<Packed> {
    seq(|files|, i requires 0 <= i < |files| => PackedFile(target + "/" + files[i].0, files[i].1))
  }

  function SpaceTarget(spaceId: string): string {
    "space" + "/" + spaceId
  }

  function RevocationBlock(revocations: seq<(string, Bytes)>): seq<Packed> {
    if revocations == [] then [] else [PackedDir("revocations/")] + PackFiles("revocations", revocations)
  }

  function Header(spaceId: string, manifestYaml: Bytes): seq<Packed> {
    [PackedFile("manifest.yml", manifestYaml), PackedDir("space/"), PackedDir(SpaceTarget(spaceId) + "/")]
  }

  function Archive(spaceId: string, entries: seq<Entry>, revocations: seq<(string, Bytes)>, manifestYaml: Bytes): seq<Packed> {
    Header(spaceId, manifestYaml) + PackEntries(SpaceTarget(spaceId), entries) + RevocationBlock(revocations)
  }

  class Pack {
    var entries: seq<Packed>

    constructor ()
      ensures entries == []
    {
      entries := [];
    }

    method Add(p: Packed)
      modifies this
      ensures entries == old(entries) + [p]
    {
      entries := entries + [p];
    }

    method PackDirectory(target: string, files: seq<Entry>)
      modifies this
      ensures entries == old(entries) + [PackedDir(target + "/")] + PackEntries(target, files)
      decreases files, 1
    {
      Add(PackedDir(target + "/"));
      PackAll(target, files);
    }

    /** The loop both packers run over their children. */
    method PackAll(target: string, files: seq<Entry>)
      modifies this
      ensures entries == old(entries) + PackEntries(target, files)
      decreases files, 0
    {
      for i := 0 to |files|
        invariant entries + PackEntries(target, files[i..]) == old(entries) + PackEntries(target, files)
      {
        ghost var before, rest := entries, PackEntries(target, files[i + 1..]);
        assert files[i..][0] == files[i] && files[i..][1..] == files[i + 1..];
        assert files[i] in files;
        match files[i] {
          case FileEntry(name, bytes) => Add(PackedFile(target + "/" + name, bytes));
          case Directory(name, inner) => PackDirectory(target + "/" + name, inner);
        }
        assert entries + rest == before + (PackEntry(target, files[i]) + rest);
      }
    }

    method PackSpaceArchive(spaceId: string, files: seq<Entry>, revocations: seq<(string, Bytes)>, manifestYaml: Bytes)
      requires entries == []
      modifies this
      ensures entries == Archive(spaceId, files, revocations, manifestYaml)
    {
      Add(PackedFile("manifest.yml", manifestYaml));
      Add(PackedDir("space/"));
      Add(PackedDir(SpaceTarget(spaceId) + "/"));
      PackAll(SpaceTarget(spaceId), files);
      if |revocations| > 0 {
        PackRevocations(revocations);
      }
    }

    method PackRevocations(revocations: seq<(string, Bytes)>)
      modifies this
      ensures entries == old(entries) + [PackedDir("revocations/")] + PackFiles("revocations", revocations)
    {
      Add(PackedDir("revocations/"));
      for i := 0 to |revocations|
        invariant entries == old(entries) + [PackedDir("revocations/")] + PackFiles("revocations", revocations[..i])
      {
        Add(PackedFile("revocations" + "/" + revocations[i].0, revocations[i].1));
        assert PackFiles("revocations", revocations[..i + 1]) ==
               PackFiles("revocations", revocations[..i]) + [PackedFile("revocations" + "/" + revocations[i].0, revocations[i].1)];
      }
      assert revocations[..|revocations|] == revocations;
    }
  }

  // ---------- manifest and archive agree ----------

  type PathAndBytes = (string, Bytes)

  /** The regular files of an archive under a directory, with paths relative to it. */
  function FilesUnder(dir: string, packed: seq<Packed>): seq<PathAndBytes> {
    if packed == [] then []
    else
      (if packed[0].PackedFile? && dir <= packed[0].path then [(packed[0].path[|dir|..], packed[0].bytes)] else [])
      + FilesUnder(dir, packed[1..])
  }

  /** The files of an entry tree, each with the bytes the tree holds for it. */
  function FilesIn(prefix: string, entries: seq<Entry>): seq<PathAndBytes>
    decreases entries
  {
    if entries == [] then []
    else
      (match entries[0]
       case FileEntry(name, bytes) => [(prefix + name, bytes)]
       case Directory(name, files) => FilesIn(prefix + (name + "/"), files))
      + FilesIn(prefix, entries[1..])
  }

  function Paths(files: seq<PathAndBytes>): seq<string> {
    seq(|files|, i requires 0 <= i < |files| => files[i].0)
  }

  lemma {:induction false} FilesUnderAppend(dir: string, a: seq<Packed>, b: seq<Packed>)
    ensures FilesUnder(dir, a + b) == FilesUnder(dir, a) + FilesUnder(dir, b)
  {
    if a == [] {
      assert a + b == b;
    } else {
      assert (a + b)[1..] == a[1..] + b;
      FilesUnderAppend(dir, a[1..], b);
    }
  }

  lemma {:induction false} PathsInTree(prefix: string, entries: seq<Entry>)
    ensures Paths(FilesIn(prefix, entries)) == Prefixed(prefix, FlattenEntryNames(entries))
    decreases entries
  {
    if entries != [] {
      PathsInTree(prefix, entries[1..]);
      match entries[0] {
        case FileEntry(name, _) =>
          PrefixedAppend(prefix, [name], FlattenEntryNames(entries[1..]));
        case Directory(name, files) =>
          PathsInTree(prefix + (name + "/"), files);
          var names := FlattenEntryNames(files);
          forall i | 0 <= i < |names| ensures prefix + ((name + "/") + names[i]) == (prefix + (name + "/")) + names[i] {
          }
          assert Prefixed(prefix, Prefixed(name + "/", names)) == Prefixed(prefix + (name + "/"), names);
          PrefixedAppend(prefix, Prefixed(name + "/", names), FlattenEntryNames(entries[1..]));
      }
    }
  }

  lemma PrefixedAppend(prefix: string, a: seq<string>, b: seq<string>)
    ensures Prefixed(prefix, a + b) == Prefixed(prefix, a) + Prefixed(prefix, b)
  {
  }

  /** What the packer emits at `target`, seen from an enclosing directory `dir`. */
  lemma {:induction false} PackedFilesAreInTree(dir: string, target: string, prefix: string, entries: seq<Entry>)
    requires target + "/" == dir + prefix
    ensures FilesUnder(dir, PackEntries(target, entries)) == FilesIn(prefix, entries)
    decreases entries, 0
  {
    if entries != [] {
      PackedEntryIsInTree(dir, target, prefix, entries[0]);
      PackedFilesAreInTree(dir, target, prefix, entries[1..]);
      FilesUnderAppend(dir, PackEntry(target, entries[0]), PackEntries(target, entries[1..]));
    }
  }

  lemma {:induction false} PackedEntryIsInTree(dir: string, target: string, prefix: string, e: Entry)
    requires target + "/" == dir + prefix
    ensures FilesUnder(dir, PackEntry(target, e)) ==
            if e.FileEntry? then [(prefix + e.name, e.bytes)] else FilesIn(prefix + (e.name + "/"), e.files)
    decreases e, 1
  {
    match e {
      case FileEntry(name, bytes) =>
        var path := target + "/" + name;
        assert path == dir + (prefix + name);
        assert path[|dir|..] == prefix + name;
      case Directory(name, files) =>
        assert target + "/" + name + "/" == dir + (prefix + (name + "/"));
        PackedFilesAreInTree(dir, target + "/" + name, prefix + (name + "/"), files);
    }
  }

  lemma {:induction false} ListedPathsAppend(a: seq<ManifestEntry>, b: seq<ManifestEntry>)
    ensures ListedPaths(a + b) == ListedPaths(a) + ListedPaths(b)
    decreases |a|
  {
    if a == [] {
      assert a + b == b;
    } else {
      assert (a + b)[1..] == a[1..] + b;
      ListedPathsAppend(a[1..], b);
    }
  }

  lemma {:induction false} FlattenAppend(a: seq<Entry>, b: seq<Entry>)
    ensures FlattenEntryNames(a + b) == FlattenEntryNames(a) + FlattenEntryNames(b)
    decreases |a|
  {
    if a == [] {
      assert a + b == b;
    } else {
      assert (a + b)[1..] == a[1..] + b;
      FlattenAppend(a[1..], b);
    }
  }

  lemma {:induction false} ClassifiedPaths(names: seq<string>)
    ensures ListedPaths(seq(|names|, i requires 0 <= i < |names| => CollectionManifestEntry(names[i]))) == names
    decreases |names|
  {
    if names != [] {
      var all := seq(|names|, i requires 0 <= i < |names| => CollectionManifestEntry(names[i]));
      ClassifiedPaths(names[1..]);
      assert all[1..] == seq(|names[1..]|, i requires 0 <= i < |names[1..]| => CollectionManifestEntry(names[1..][i]));
    }
  }

  lemma {:induction false} ManifestListsFlattenedNames(entries: seq<Entry>)
    ensures ListedPaths(Described(entries)) == FlattenEntryNames(entries)
    decreases |entries|
  {
    if entries != [] {
      var n := |entries| - 1;
      var e := entries[n];
      ManifestListsFlattenedNames(entries[..n]);
      ListedPathsAppend(Described(entries[..n]), [ManifestEntryOf(SpaceEntryOf(e))]);
      FlattenAppend(entries[..n], [e]);
      assert entries[..n] + [e] == entries;
      if e.Directory? {
        ClassifiedPaths(FlattenEntryNames(e.files));
      }
      assert FlattenEntryNames([e]) == ListedPaths([ManifestEntryOf(SpaceEntryOf(e))]);
    }
  }

  lemma ArchiveFiles(spaceId: string, entries: seq<Entry>, revocations: seq<(string, Bytes)>, manifestYaml: Bytes)
    ensures FilesUnder(SpaceTarget(spaceId) + "/", Archive(spaceId, entries, revocations, manifestYaml)) == FilesIn("", entries)
  {
    var base := SpaceTarget(spaceId);
    var dir := base + "/";
    var head, tree, tail := Header(spaceId, manifestYaml), PackEntries(base, entries), RevocationBlock(revocations);
    HeaderIsOutside(spaceId, manifestYaml);
    RevocationsAreOutside(spaceId, revocations);
    NothingUnder(dir, head);
    NothingUnder(dir, tail);
    FilesUnderAppend(dir, head + tree, tail);
    FilesUnderAppend(dir, head, tree);
    PackedFilesAreInTree(dir, base, "", entries);
  }

  predicate Outside(dir: string, p: Packed) {
    p.PackedDir? || !(dir <= p.path)
  }

  lemma HeaderIsOutside(spaceId: string, manifestYaml: Bytes)
    ensures forall p :: p in Header(spaceId, manifestYaml) ==> Outside(SpaceTarget(spaceId) + "/", p)
  {
    assert "manifest.yml"[0] == 'm' && (SpaceTarget(spaceId) + "/")[0] == 's';
  }

  lemma RevocationsAreOutside(spaceId: string, revocations: seq<(string, Bytes)>)
    ensures forall p :: p in RevocationBlock(revocations) ==> Outside(SpaceTarget(spaceId) + "/", p)
  {
    assert (SpaceTarget(spaceId) + "/")[0] == 's';
    forall p | p in PackFiles("revocations", revocations) ensures p.path[..1] == "r" {
    }
  }

  /** For every entry tree, the regular files the archive holds under the Space's directory are exactly the
      tree's files with their bytes, and the manifest lists exactly their paths, in the same order. */
  lemma ManifestMatchesArchive(spaceId: string, entries: seq<Entry>, revocations: seq<(string, Bytes)>, manifestYaml: Bytes)
    ensures var files := FilesUnder(SpaceTarget(spaceId) + "/", Archive(spaceId, entries, revocations, manifestYaml));
            files == FilesIn("", entries) && Paths(files) == ListedPaths(Described(entries))
  {
    ArchiveFiles(spaceId, entries, revocations, manifestYaml);
    PathsInTree("", entries);
    var names := FlattenEntryNames(entries);
    assert forall i :: 0 <= i < |names| ==> Prefixed("", names)[i] == names[i];
    assert Prefixed("", names) == names;
    ManifestListsFlattenedNames(entries);
  }

  lemma {:induction false} NothingUnder(dir: string, packed: seq<Packed>)
    requires forall p :: p in packed ==> Outside(dir, p)
    ensures FilesUnder(dir, packed) == []
  {
    if packed != [] {
      assert Outside(dir, packed[0]);
      NothingUnder(dir, packed[1..]);
    }
  }

  // ---------- nothing collides in the archive ----------

  predicate SlashFree(name: string) {
    name != "" && '/' !in name
  }

  /** Names as the backends generate them: no slash, and no two siblings alike, at every level. */
  ghost predicate WellNamed(entries: seq<Entry>)
    decreases entries
  {
    && (forall i, j :: 0 <= i < j < |entries| ==> entries[i].name != entries[j].name)
    && (forall e :: e in entries ==> SlashFree(e.name) && (e.Directory? ==> WellNamed(e.files)))
  }

  /** Every path packed for one entry is its own path, or continues it after a slash. */
  lemma {:induction false} PathsStartWithName(target: string, entries: seq<Entry>, p: Packed)
    requires p in PackEntries(target, entries)
    ensures exists e :: e in entries && p in PackEntry(target, e)
    decreases |entries|
  {
    if p in PackEntry(target, entries[0]) {
      assert entries[0] in entries;
    } else {
      PathsStartWithName(target, entries[1..], p);
    }
  }

  lemma {:induction false} EntryPath(target: string, e: Entry, p: Packed)
    requires p in PackEntry(target, e)
    ensures p.path == target + "/" + e.name || (target + "/" + e.name + "/" <= p.path && e.Directory?)
    decreases e
  {
    if e.Directory? && p != PackedDir(target + "/" + e.name + "/") {
      PathsStartWithName(target + "/" + e.name, e.files, p);
      var inner :| inner in e.files && p in PackEntry(target + "/" + e.name, inner);
      EntryPath(target + "/" + e.name, inner, p);
    }
  }

  /** Two differently named siblings never pack the same path. */
  lemma SiblingsDisjoint(target: string, a: Entry, b: Entry, p: Packed, q: Packed)
    requires SlashFree(a.name) && SlashFree(b.name) && a.name != b.name
    requires p in PackEntry(target, a) && q in PackEntry(target, b)
    ensures p.path != q.path
  {
    EntryPath(target, a, p);
    EntryPath(target, b, q);
    if p.path == q.path {
      var rest := p.path[|target| + 1..];
      assert rest == a.name || a.name + "/" <= rest;
      assert rest == b.name || b.name + "/" <= rest;
      FirstSegmentUnique(a.name, b.name, rest);
    }
  }

  lemma FirstSegmentUnique(a: string, b: string, rest: string)
    requires SlashFree(a) && SlashFree(b)
    requires rest == a || a + "/" <= rest
    requires rest == b || b + "/" <= rest
    ensures a == b
  {
    assert |a| < |rest| ==> rest[|a|] == '/';
    assert |b| < |rest| ==> rest[|b|] == '/';
    assert forall i :: 0 <= i < |a| ==> rest[i] == a[i] && a[i] in a;
    assert forall i :: 0 <= i < |b| ==> rest[i] == b[i] && b[i] in b;
    assert a == rest[..|a|] && b == rest[..|b|];
  }

  predicate DistinctPaths(packed: seq<Packed>) {
    forall i, j :: 0 <= i < j < |packed| ==> packed[i].path != packed[j].path
  }

  /** With slash-free, sibling-distinct names no two entries of the archive share a path, so extracting it
      loses nothing. */
  lemma {:induction false} PathsAreDistinct(target: string, entries: seq<Entry>)
    requires WellNamed(entries)
    ensures DistinctPaths(PackEntries(target, entries))
    decreases entries, 0
  {
    if entries != [] {
      var first, rest := PackEntry(target, entries[0]), PackEntries(target, entries[1..]);
      EntryPathsAreDistinct(target, entries[0]);
      PathsAreDistinct(target, entries[1..]);
      forall p, q | p in first && q in rest ensures p.path != q.path {
        PathsStartWithName(target, entries[1..], q);
        var e :| e in entries[1..] && q in PackEntry(target, e);
        SiblingsDisjoint(target, entries[0], e, p, q);
      }
      var packed := first + rest;
      forall i, j | 0 <= i < j < |packed| ensures packed[i].path != packed[j].path {
        if j < |first| {
          assert first[i].path != first[j].path;
        } else if i < |first| {
          assert packed[i] in first && packed[j] in rest;
        } else {
          assert rest[i - |first|].path != rest[j - |first|].path;
        }
      }
    }
  }

  lemma {:induction false} EntryPathsAreDistinct(target: string, e: Entry)
    requires WellNamed([e])
    ensures DistinctPaths(PackEntry(target, e))
    decreases e, 1
  {
    if e.Directory? {
      assert e in [e];
      var inner := target + "/" + e.name;
      PathsAreDistinct(inner, e.files);
      var packed := PackEntry(target, e);
      forall j | 0 < j < |packed| ensures packed[0].path != packed[j].path {
        var p := packed[j];
        assert p == PackEntries(inner, e.files)[j - 1];
        PathsStartWithName(inner, e.files, p);
        var child :| child in e.files && p in PackEntry(inner, child);
        EntryPath(inner, child, p);
        assert |p.path| > |inner| + 1;
      }
      forall i, j | 0 <= i < j < |packed| ensures packed[i].path != packed[j].path {
        if i > 0 {
          var files := PackEntries(inner, e.files);
          assert packed[i] == files[i - 1] && packed[j] == files[j - 1];
          assert files[i - 1].path != files[j - 1].path;
        }
      }
    }
  }

  // ---------- what is in an archive ----------

  /** The tree has a file with the given bytes at the end of the route. */
  predicate HasFile(entries: seq<Entry>, route: seq<string>, bytes: Bytes)
    decreases |route|
  {
    && route != []
    && if |route| == 1 then FileEntry(route[0], bytes) in entries
       else exists e :: e in entries && e.Directory? && e.name == route[0] && HasFile(e.files, route[1..], bytes)
  }

  function PathOf(target: string, route: seq<string>): string
    decreases |route|
  {
    if route == [] then target else PathOf(target + "/" + route[0], route[1..])
  }

  /** Every file of the tree is packed with its bytes, under the names along its route. */
  lemma {:induction false} EveryFileIsPacked(target: string, entries: seq<Entry>, route: seq<string>, bytes: Bytes)
    requires HasFile(entries, route, bytes)
    ensures PackedFile(PathOf(target, route), bytes) in PackEntries(target, entries)
    decreases |route|, |entries|
  {
    var head, rest := entries[0], entries[1..];
    assert entries == [head] + rest;
    if HasFile(rest, route, bytes) {
      EveryFileIsPacked(target, rest, route, bytes);
    } else if |route| == 1 {
      assert PathOf(target, route) == PathOf(target + "/" + route[0], []);
    } else {
      var e :| e in entries && e.Directory? && e.name == route[0] && HasFile(e.files, route[1..], bytes);
      assert e == head;
      EveryFileIsPacked(target + "/" + e.name, e.files, route[1..], bytes);
    }
  }

  /** And nothing else is packed as a file. */
  lemma {:induction false} PackedFileIsInTree(target: string, entries: seq<Entry>, path: string, bytes: Bytes) returns (route: seq<string>)
    requires PackedFile(path, bytes) in PackEntries(target, entries)
    ensures HasFile(entries, route, bytes) && path == PathOf(target, route)
    decreases entries
  {
    var head, rest := entries[0], entries[1..];
    assert entries == [head] + rest;
    if PackedFile(path, bytes) in PackEntries(target, rest) {
      route := PackedFileIsInTree(target, rest, path, bytes);
    } else {
      match head {
        case FileEntry(name, _) =>
          route := [name];
          assert PathOf(target, route) == PathOf(target + "/" + name, []);
        case Directory(name, files) =>
          var inner := PackedFileIsInTree(target + "/" + name, files, path, bytes);
          route := [name] + inner;
          assert route[1..] == inner;
      }
    }
  }

  /** An archive opens with the manifest, has the Space's files under its id, and every revocation under its name. */
  lemma ArchiveLayout(spaceId: string, entries: seq<Entry>, revocations: seq<(string, Bytes)>, manifestYaml: Bytes)
    ensures var a, space := Archive(spaceId, entries, revocations, manifestYaml), "space/" + spaceId;
            && a[..3] == [PackedFile("manifest.yml", manifestYaml), PackedDir("space/"), PackedDir(space + "/")]
            && (forall route, bytes :: HasFile(entries, route, bytes) ==> PackedFile(PathOf(space, route), bytes) in a)
            && (forall r :: r in revocations ==> PackedFile("revocations/" + r.0, r.1) in a)
  {
    var a, space := Archive(spaceId, entries, revocations, manifestYaml), "space/" + spaceId;
    assert SpaceTarget(spaceId) == space;
    forall route, bytes | HasFile(entries, route, bytes) ensures PackedFile(PathOf(space, route), bytes) in a {
      EveryFileIsPacked(space, entries, route, bytes);
    }
    forall r | r in revocations ensures PackedFile("revocations/" + r.0, r.1) in a {
      var i :| 0 <= i < |revocations| && revocations[i] == r;
      assert "revocations" + "/" + r.0 == "revocations/" + r.0;
      assert PackFiles("revocations", revocations)[i] in RevocationBlock(revocations);
    }
  }

  /** A file of a Collection directory is documented by the prefix of its name, and any other is bare. */
  lemma ClassificationByPrefix(name: string)
    ensures ".collectionmeta." <= name ==> CollectionManifestEntry(name) == Documented(name, CollectionMetaUrl)
    ensures ".collection." <= name ==> CollectionManifestEntry(name) == Documented(name, CollectionUrl)
    ensures ".policy." <= name ==> CollectionManifestEntry(name) == Documented(name, PolicyUrl)
    ensures ".meta." <= name ==> CollectionManifestEntry(name) == Documented(name, MetaUrl)
    ensures "r." <= name ==> CollectionManifestEntry(name) == Documented(name, ResourceUrl)
    ensures !(".collectionmeta." <= name) && !(".collection." <= name) && !(".policy." <= name) && !(".meta." <= name) && !("r." <= name) ==>
              CollectionManifestEntry(name) == Bare(name)
  {
    ClassificationIsOrderFree(name, 0);
    ClassificationIsOrderFree(name, 1);
    ClassificationIsOrderFree(name, 2);
    ClassificationIsOrderFree(name, 3);
    ClassificationIsOrderFree(name, 4);
  }
}
