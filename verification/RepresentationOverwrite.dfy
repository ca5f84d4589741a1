/**
 The files of one Resource while its content is overwritten, as a reader may find them at any moment: one file
 per media type, writes that may fail, removals that finish in any order, and a process that may stop anywhere.
 */
module RepresentationOverwrite {
  import opened Wrappers

  type MediaType = string
  type Bytes = string

  /** An overwrite under way: what it writes, and what the directory listing read before it held. */
  datatype Overwrite = Overwrite(contentType: MediaType, bytes: Bytes, listing: set<MediaType>, written: bool)

  datatype State = State(files: map<MediaType, Bytes>, current: Option<Overwrite>)

  datatype Action =
    | Begin(contentType: MediaType, bytes: Bytes)
    | WriteFails
    | Write
    | Remove(stale: MediaType)
    | Finish
    | Stop                      // a crash, or an error after the write

  predicate Enabled(s: State, a: Action) {
    match a
    case Begin(_, _) => s.current.None?
    case WriteFails => s.current.Some? && !s.current.value.written
    case Write => s.current.Some? && !s.current.value.written
    case Remove(stale) => s.current.Some? && s.current.value.written && stale in s.files &&
      stale in s.current.value.listing - {s.current.value.contentType}
    case Finish => s.current.Some? && s.current.value.written &&
      s.files.Keys !! s.current.value.listing - {s.current.value.contentType}
    case Stop => s.current.Some?
  }

  function Do(s: State, a: Action): State
    requires Enabled(s, a)
  {
    match a
    case Begin(contentType, bytes) => s.(current := Some(Overwrite(contentType, bytes, s.files.Keys, false)))
    case WriteFails => s.(current := None)
    case Write =>
      var o := s.current.value;
      State(s.files[o.contentType := o.bytes], Some(o.(written := true)))
    case Remove(stale) => s.(files := s.files - {stale})
    case Finish => s.(current := None)
    case Stop => s.(current := None)
  }

  ghost predicate Step(s: State, t: State) {
    exists a :: Enabled(s, a) && t == Do(s, a)
  }

  ghost predicate IsRun(run: seq<State>) {
    |run| > 0 && run[0].current.None? && forall i :: 0 < i < |run| ==> Step(run[i - 1], run[i])
  }

  /** Before the write the files are those listed; after it the new one is there, and nothing else but listed ones. */
  predicate Inv(s: State) {
    s.current.Some? ==>
      var o := s.current.value;
      if o.written then o.contentType in s.files && s.files[o.contentType] == o.bytes && s.files.Keys <= o.listing + {o.contentType}
      else s.files.Keys == o.listing
  }

  lemma {:induction false} RunHasInv(run: seq<State>, i: nat)
    requires IsRun(run) && i < |run|
    ensures Inv(run[i])
  {
    if i > 0 {
      RunHasInv(run, i - 1);
      assert Step(run[i - 1], run[i]);
    }
  }

  /** Once a Resource has content it is never momentarily absent: through any overwrites, failed, interrupted
      or complete, at least one whole representation is there. */
  lemma {:induction false} NeverAbsent(run: seq<State>, i: nat, j: nat)
    requires IsRun(run) && i <= j < |run| && run[i].files != map[]
    ensures run[j].files != map[]
    decreases j
  {
    if i < j {
      NeverAbsent(run, i, j - 1);
      RunHasInv(run, j - 1);
      assert Step(run[j - 1], run[j]);
      var s := run[j - 1];
      var a :| Enabled(s, a) && run[j] == Do(s, a);
      if a.Remove? {
        assert s.current.value.contentType in run[j].files;
      } else if a.Write? {
        assert s.current.value.contentType in run[j].files;
      }
    }
  }

  /** An overwrite that completes leaves exactly one representation, the new one, whatever earlier
      interruptions had left beside it. */
  lemma CompletionLeavesExactlyTheNew(run: seq<State>, i: nat)
    requires IsRun(run) && i < |run| && Enabled(run[i], Finish)
    ensures var o := run[i].current.value; Do(run[i], Finish).files == map[o.contentType := o.bytes]
  {
    RunHasInv(run, i);
  }

  /** A byte write that fails leaves every file as it was when the overwrite began. */
  lemma {:induction false} UnwrittenChangesNothing(run: seq<State>, i: nat, j: nat)
    requires IsRun(run) && i < j < |run| && run[i].current.None?
    requires forall k :: i < k < j ==> run[k].current.Some? && !run[k].current.value.written
    requires run[j].current.None? || !run[j].current.value.written
    ensures run[j].files == run[i].files
    decreases j
  {
    assert Step(run[j - 1], run[j]);
    if i < j - 1 {
      UnwrittenChangesNothing(run, i, j - 1);
    }
  }

  /** Every representation a reader can find holds, whole, the bytes it held at the start or those of some
      overwrite begun for its media type. */
  lemma {:induction false} ReadersSeeWholeWrites(run: seq<State>, i: nat, contentType: MediaType)
    requires IsRun(run) && i < |run| && contentType in run[i].files
    ensures (contentType in run[0].files && run[0].files[contentType] == run[i].files[contentType]) ||
            exists k :: 0 < k <= i && run[k].current.Some? && run[k].current.value.contentType == contentType &&
                        run[k].current.value.bytes == run[i].files[contentType]
  {
    if i > 0 {
      RunHasInv(run, i);
      assert Step(run[i - 1], run[i]);
      var a :| Enabled(run[i - 1], a) && run[i] == Do(run[i - 1], a);
      if !(a.Write? && run[i].current.value.contentType == contentType) {
        ReadersSeeWholeWrites(run, i - 1, contentType);
      }
    }
  }

  lemma Extend(run: seq<State>, a: Action) returns (run': seq<State>)
    requires IsRun(run) && Enabled(run[|run| - 1], a)
    ensures IsRun(run') && run <= run' && run'[|run'| - 1] == Do(run[|run| - 1], a)
  {
    run' := run + [Do(run[|run| - 1], a)];
    forall i | 0 < i < |run'| ensures Step(run'[i - 1], run'[i]) {
      if i < |run| { assert run'[i - 1] == run[i - 1] && run'[i] == run[i]; }
    }
  }

  lemma {:induction false} StaleGo(run: seq<State>, o: Overwrite) returns (run': seq<State>)
    requires IsRun(run) && run[|run| - 1].current == Some(o) && o.written
    ensures IsRun(run') && run <= run' && run'[|run'| - 1].current == Some(o) && Enabled(run'[|run'| - 1], Finish)
    decreases run[|run| - 1].files.Keys
  {
    var s := run[|run| - 1];
    if s.files.Keys !! o.listing - {o.contentType} {
      return run;
    }
    var stale :| stale in s.files.Keys && stale in o.listing - {o.contentType};
    var longer := Extend(run, Remove(stale));
    assert stale in s.files.Keys && longer[|longer| - 1].files.Keys == s.files.Keys - {stale};
    run' := StaleGo(longer, o);
  }

  /** Whatever earlier overwrites left, one that meets no error ends with its own bytes under its own media type, alone. */
  lemma OverwriteCompletes(run: seq<State>, contentType: MediaType, bytes: Bytes) returns (run': seq<State>)
    requires IsRun(run) && run[|run| - 1].current.None?
    ensures IsRun(run') && run <= run' && run'[|run'| - 1] == State(map[contentType := bytes], None)
  {
    var begun := Extend(run, Begin(contentType, bytes));
    var written := Extend(begun, Write);
    var pruned := StaleGo(written, written[|written| - 1].current.value);
    CompletionLeavesExactlyTheNew(pruned, |pruned| - 1);
    run' := Extend(pruned, Finish);
  }
}
