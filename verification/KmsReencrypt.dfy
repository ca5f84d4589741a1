/**
 The offline pass that brings every stored key record to one at-rest form: the per-record rewrite, the walk
 over the keystore tree, and what a run, a second run and an interrupted run leave behind.
 Ciphertexts are symbolic: they hold the secret, and open only under the key that sealed them.
 */
module KmsReencrypt {
  import opened Wrappers

  type Key = nat

  datatype Kek = Kek(id: string, key: Key)

  datatype Cipher = Sealing(key: Key, secret: string, nonce: nat) | Garbled

  datatype Body = Plain(secret: string) | Sealed(kekId: string, cipher: Cipher)

  /** A record file: not JSON, JSON of the wrong shape, or a record with its public fields in the clear. */
  datatype RecordFile = Unreadable | Malformed | Record(fields: string, body: Body)

  datatype Label = Label(keystore: string, name: string)

  /** How the atomic replacement of a file ends; it can throw after the new file is already in place. */
  datatype WriteEnd = Written | NotWritten | WrittenThenThrew

  datatype Env = Env(
    keks: map<string, Key>,
    currentId: Option<string>,
    dryRun: bool,
    nonce: Label -> nat,
    writeEnd: Label -> WriteEnd)
  {
    function Current(): Option<Kek> {
      if currentId.Some? && currentId.value in keks then Some(Kek(currentId.value, keks[currentId.value])) else None
    }
  }

  function Decrypt(keks: map<string, Key>, body: Body): Option<string> {
    match body
    case Plain(secret) => Some(secret)
    case Sealed(id, Sealing(key, secret, _)) => if id in keks && keks[id] == key then Some(secret) else None
    case Sealed(_, Garbled) => None
  }

  function Encrypt(kek: Kek, secret: string, nonce: nat): Body {
    Sealed(kek.id, Sealing(kek.key, secret, nonce))
  }

  datatype Action = Rewrapped | Encrypted | Decrypted | AlreadyCurrent | AlreadyPlaintext | Failed

  datatype Summary = Summary(rewrapped: nat, encrypted: nat, decrypted: nat, alreadyCurrent: nat, alreadyPlaintext: nat, failed: nat) {
    function Count(a: Action): Summary {
      match a
      case Rewrapped => this.(rewrapped := rewrapped + 1)
      case Encrypted => this.(encrypted := encrypted + 1)
      case Decrypted => this.(decrypted := decrypted + 1)
      case AlreadyCurrent => this.(alreadyCurrent := alreadyCurrent + 1)
      case AlreadyPlaintext => this.(alreadyPlaintext := alreadyPlaintext + 1)
      case Failed => this.(failed := failed + 1)
    }

    function Sum(): nat {
      rewrapped + encrypted + decrypted + alreadyCurrent + alreadyPlaintext + failed
    }
  }

  const NOTHING_YET := Summary(0, 0, 0, 0, 0, 0)

  // ---------- one record ----------

  /** The form the pass brings records to, as it recognises it: by the envelope's key id alone. */
  predicate InTargetForm(env: Env, f: RecordFile) {
    f.Record? &&
    match env.Current()
    case Some(kek) => f.body.Sealed? && f.body.kekId == kek.id
    case None => f.body.Plain?
  }

  function Secret(env: Env, f: RecordFile): Option<string> {
    if f.Record? then Decrypt(env.keks, f.body) else None
  }

  predicate Convertible(env: Env, f: RecordFile) {
    !InTargetForm(env, f) && Secret(env, f).Some?
  }

  function Converted(env: Env, l: Label, f: RecordFile): RecordFile
    requires Convertible(env, f)
  {
    var secret := Secret(env, f).value;
    f.(body := match env.Current()
               case Some(kek) => Encrypt(kek, secret, env.nonce(l))
               case None => Plain(secret))
  }

  function ActionOn(env: Env, l: Label, f: RecordFile): Action {
    if InTargetForm(env, f) then (if env.Current().Some? then AlreadyCurrent else AlreadyPlaintext)
    else if !Convertible(env, f) || (!env.dryRun && env.writeEnd(l) != Written) then Failed
    else if env.Current().None? then Decrypted
    else if f.body.Sealed? then Rewrapped
    else Encrypted
  }

  function FileAfter(env: Env, l: Label, f: RecordFile): RecordFile {
    if Convertible(env, f) && !env.dryRun && env.writeEnd(l) != NotWritten then Converted(env, l, f) else f
  }

  class KeyTree {
    var files: map<Label, RecordFile>
    var summary: Summary

    constructor (files: map<Label, RecordFile>)
      ensures this.files == files && summary == NOTHING_YET
    {
      this.files, summary := files, NOTHING_YET;
    }

    /** The atomic replacement of one record file. */
    method WriteAtomically(env: Env, l: Label, f: RecordFile) returns (threw: bool)
      modifies this`files
      ensures files == if env.writeEnd(l) == NotWritten then old(files) else old(files)[l := f]
      ensures threw <==> env.writeEnd(l) != Written
    {
      if env.writeEnd(l) != NotWritten {
        files := files[l := f];
      }
      threw := env.writeEnd(l) != Written;
    }

    method ReencryptRecordFile(env: Env, l: Label)
      modifies this
      ensures files == if l in old(files) then old(files)[l := FileAfter(env, l, old(files)[l])] else old(files)
      ensures summary == old(summary).Count(if l in old(files) then ActionOn(env, l, old(files)[l]) else Failed)
    {
      if l !in files || !files[l].Record? {
        summary := summary.Count(Failed);
        return;
      }
      var record, current := files[l], env.Current();
      if record.body.Sealed? && current.Some? && record.body.kekId == current.value.id {
        summary := summary.Count(AlreadyCurrent);
        return;
      }
      if record.body.Plain? && current.None? {
        summary := summary.Count(AlreadyPlaintext);
        return;
      }
      var secret := Decrypt(env.keks, record.body);
      if secret.None? {
        summary := summary.Count(Failed);
        return;
      }
      var action, rewritten;
      if current.Some? {
        rewritten := record.(body := Encrypt(current.value, secret.value, env.nonce(l)));
        action := if record.body.Sealed? then Rewrapped else Encrypted;
      } else {
        rewritten := record.(body := Plain(secret.value));
        action := Decrypted;
      }
      if !env.dryRun {
        var threw := WriteAtomically(env, l, rewritten);
        if threw {
          summary := summary.Count(Failed);
          return;
        }
      }
      summary := summary.Count(action);
    }

    method WalkKeys(env: Env, keystore: string, names: seq<string>)
      modifies this
      ensures files == FilesAfter(env, old(files), Labels(keystore, names))
      ensures summary == Tally(env, old(files), Labels(keystore, names), old(summary))
    {
      for j := 0 to |names|
        invariant files == FilesAfter(env, old(files), Labels(keystore, names[..j]))
        invariant summary == Tally(env, old(files), Labels(keystore, names[..j]), old(summary))
      {
        ReencryptRecordFile(env, Label(keystore, names[j]));
        assert Labels(keystore, names[..j + 1]) == Labels(keystore, names[..j]) + [Label(keystore, names[j])];
      }
      assert names[..|names|] == names;
    }

    /** The walk: keystores in order, and in each its record files; a keystore without a keys directory is skipped. */
    method Walk(env: Env, keystores: seq<string>, listing: map<string, seq<string>>)
      modifies this
      ensures files == FilesAfter(env, old(files), Visits(keystores, listing))
      ensures summary == Tally(env, old(files), Visits(keystores, listing), old(summary))
    {
      for i := 0 to |keystores|
        invariant files == FilesAfter(env, old(files), Visits(keystores[..i], listing))
        invariant summary == Tally(env, old(files), Visits(keystores[..i], listing), old(summary))
      {
        assert keystores[..i + 1][..i] == keystores[..i];
        if keystores[i] in listing {
          RunAppend(env, old(files), Visits(keystores[..i], listing), Labels(keystores[i], listing[keystores[i]]), old(summary));
          WalkKeys(env, keystores[i], listing[keystores[i]]);
        } else {
          assert Visits(keystores[..i + 1], listing) == Visits(keystores[..i], listing);
        }
      }
      assert keystores[..|keystores|] == keystores;
    }
  }

  function Labels(keystore: string, names: seq<string>): seq<Label> {
    seq(|names|, i requires 0 <= i < |names| => Label(keystore, names[i]))
  }

  function Visits(keystores: seq<string>, listing: map<string, seq<string>>): seq<Label> {
    if keystores == [] then []
    else
      var n := |keystores| - 1;
      Visits(keystores[..n], listing) + if keystores[n] in listing then Labels(keystores[n], listing[keystores[n]]) else []
  }

  // ---------- a whole run ----------

  function FilesAfter(env: Env, files: map<Label, RecordFile>, visits: seq<Label>): map<Label, RecordFile> {
    if visits == [] then files
    else
      var l := visits[|visits| - 1];
      var before := FilesAfter(env, files, visits[..|visits| - 1]);
      if l in before then before[l := FileAfter(env, l, before[l])] else before
  }

  function Tally(env: Env, files: map<Label, RecordFile>, visits: seq<Label>, s: Summary): Summary {
    if visits == [] then s
    else
      var l := visits[|visits| - 1];
      var before := FilesAfter(env, files, visits[..|visits| - 1]);
      Tally(env, files, visits[..|visits| - 1], s).Count(if l in before then ActionOn(env, l, before[l]) else Failed)
  }

  lemma {:induction false} RunAppend(env: Env, files: map<Label, RecordFile>, v: seq<Label>, w: seq<Label>, s: Summary)
    ensures FilesAfter(env, files, v + w) == FilesAfter(env, FilesAfter(env, files, v), w)
    ensures Tally(env, files, v + w, s) == Tally(env, FilesAfter(env, files, v), w, Tally(env, files, v, s))
    decreases |w|
  {
    if w == [] {
      assert v + w == v;
    } else {
      RunAppend(env, files, v, w[..|w| - 1], s);
      assert (v + w)[..|v + w| - 1] == v + w[..|w| - 1];
    }
  }

  /** A converted file is in the target form, and converting is done once: the same file is then left alone. */
  lemma FileAfterSettles(env: Env, l: Label, f: RecordFile, again: Env)
    requires again.keks == env.keks && again.currentId == env.currentId
    ensures InTargetForm(env, FileAfter(env, l, f)) <==>
            InTargetForm(env, f) || (Convertible(env, f) && !env.dryRun && env.writeEnd(l) != NotWritten)
    ensures InTargetForm(env, FileAfter(env, l, f)) ==> FileAfter(again, l, FileAfter(env, l, f)) == FileAfter(env, l, f)
    ensures Secret(env, FileAfter(env, l, f)) == Secret(env, f)
  {
  }

  /** What one run does to each record, whatever else it visits and in whatever order. */
  lemma {:induction false} EachFileAfter(env: Env, files: map<Label, RecordFile>, visits: seq<Label>, l: Label)
    requires l in files
    ensures FilesAfter(env, files, visits).Keys == files.Keys
    ensures FilesAfter(env, files, visits)[l] == if l in visits then FileAfter(env, l, files[l]) else files[l]
  {
    if visits != [] {
      var rest := visits[..|visits| - 1];
      EachFileAfter(env, files, rest, l);
      assert l in visits <==> l in rest || l == visits[|visits| - 1];
      FileAfterSettles(env, l, files[l], env);
    }
  }

  /** A run keeps every record's public fields and secret, and leaves what it cannot open, or only looked
      at, exactly as it was. */
  lemma {:induction false} RunPreservesMeaning(env: Env, files: map<Label, RecordFile>, visits: seq<Label>, l: Label)
    requires l in files
    ensures l in FilesAfter(env, files, visits)
    ensures var f := FilesAfter(env, files, visits)[l];
            && Secret(env, f) == Secret(env, files[l])
            && (files[l].Record? ==> f.Record? && f.fields == files[l].fields)
            && (Secret(env, files[l]).None? || env.dryRun || l !in visits ==> f == files[l])
  {
    EachFileAfter(env, files, visits, l);
  }

  /** Afterwards a visited record is in the target form exactly when it was already, or when it opened and
      its replacement reached the disk. */
  lemma InTargetFormAfterRunIff(env: Env, files: map<Label, RecordFile>, visits: seq<Label>, l: Label)
    requires l in files && l in visits
    ensures l in FilesAfter(env, files, visits)
    ensures InTargetForm(env, FilesAfter(env, files, visits)[l]) <==>
            InTargetForm(env, files[l]) || (Secret(env, files[l]).Some? && !env.dryRun && env.writeEnd(l) != NotWritten)
  {
    EachFileAfter(env, files, visits, l);
    FileAfterSettles(env, l, files[l], env);
  }

  /** A record that did not fail is in the target form; it also opens to its original secret exactly when it
      opened before. A record under the current key id is not opened, so a damaged one still passes. */
  lemma {:induction false} NonFailedOpensIff(env: Env, l: Label, f: RecordFile)
    requires ActionOn(env, l, f) != Failed && !env.dryRun
    ensures InTargetForm(env, FileAfter(env, l, f))
    ensures Secret(env, FileAfter(env, l, f)).Some? <==> !InTargetForm(env, f) || Secret(env, f).Some?
  {
    FileAfterSettles(env, l, f, env);
  }

  lemma DamagedCurrentRecordIsNotNoticed(env: Env, l: Label, fields: string)
    requires env.Current().Some?
    ensures var f := Record(fields, Sealed(env.Current().value.id, Garbled));
            ActionOn(env, l, f) == AlreadyCurrent && Secret(env, FileAfter(env, l, f)) == None
  {
  }

  /** A failed record is untouched, except when its write threw with the new file already in place;
      then it is fully converted. */
  lemma {:induction false} FailedIsUntouchedIff(env: Env, l: Label, f: RecordFile)
    requires ActionOn(env, l, f) == Failed
    ensures FileAfter(env, l, f) == f <==> !(Convertible(env, f) && !env.dryRun && env.writeEnd(l) == WrittenThenThrew)
    ensures FileAfter(env, l, f) != f ==> FileAfter(env, l, f) == Converted(env, l, f)
  {
    FileAfterSettles(env, l, f, env);
  }

  /** The counters account for every record visited. */
  lemma {:induction false} CountersSumToVisits(env: Env, files: map<Label, RecordFile>, visits: seq<Label>, s: Summary)
    ensures Tally(env, files, visits, s).Sum() == s.Sum() + |visits|
  {
    if visits != [] {
      CountersSumToVisits(env, files, visits[..|visits| - 1], s);
    }
  }

  /** Runs that agree on the keys: each may draw its own nonces and meet its own write errors. */
  predicate SameKeys(a: Env, b: Env) {
    a.keks == b.keks && a.currentId == b.currentId
  }

  /** A later run rewrites nothing that is in the target form, and with nothing left to convert it changes no file. */
  lemma LaterRunKeepsConverted(first: Env, later: Env, files: map<Label, RecordFile>, v: seq<Label>, w: seq<Label>, l: Label)
    requires SameKeys(first, later) && l in files
    ensures l in FilesAfter(first, files, v) && l in FilesAfter(later, FilesAfter(first, files, v), w)
    ensures var once := FilesAfter(first, files, v)[l];
            var twice := FilesAfter(later, FilesAfter(first, files, v), w)[l];
            InTargetForm(first, once) || Secret(first, once).None? ==> twice == once
  {
    EachFileAfter(first, files, v, l);
    EachFileAfter(later, FilesAfter(first, files, v), w, l);
  }

  lemma SecondRunChangesNothing(first: Env, later: Env, files: map<Label, RecordFile>, v: seq<Label>)
    requires SameKeys(first, later) && !first.dryRun && forall l :: l in v ==> first.writeEnd(l) != NotWritten
    ensures FilesAfter(later, FilesAfter(first, files, v), v) == FilesAfter(first, files, v)
  {
    var once := FilesAfter(first, files, v);
    DomainKept(first, files, v);
    DomainKept(later, once, v);
    forall l | l in files ensures FilesAfter(later, once, v)[l] == once[l] {
      EachFileAfter(first, files, v, l);
      EachFileAfter(later, once, v, l);
      FileAfterSettles(first, l, files[l], later);
    }
  }

  lemma {:induction false} DomainKept(env: Env, files: map<Label, RecordFile>, visits: seq<Label>)
    ensures FilesAfter(env, files, visits).Keys == files.Keys
  {
    if visits != [] {
      DomainKept(env, files, visits[..|visits| - 1]);
    }
  }

  /** Equal but for the nonce an envelope was sealed with. */
  predicate Alike(a: RecordFile, b: RecordFile) {
    a == b ||
    (a.Record? && b.Record? && a.fields == b.fields && a.body.Sealed? && b.body.Sealed? && a.body.kekId == b.body.kekId &&
     a.body.cipher.Sealing? && b.body.cipher.Sealing? && a.body.cipher == b.body.cipher.(nonce := a.body.cipher.nonce))
  }

  /** Stopping a run anywhere and starting over ends, up to nonces, where an uninterrupted run ends. */
  lemma InterruptedRunCatchesUp(first: Env, later: Env, files: map<Label, RecordFile>, v: seq<Label>, n: nat, l: Label)
    requires SameKeys(first, later) && first.dryRun == later.dryRun && n <= |v| && l in files
    requires forall k :: k in v ==> later.writeEnd(k) != NotWritten
    ensures l in FilesAfter(later, FilesAfter(first, files, v[..n]), v) && l in FilesAfter(later, files, v)
    ensures Alike(FilesAfter(later, FilesAfter(first, files, v[..n]), v)[l], FilesAfter(later, files, v)[l])
  {
    EachFileAfter(first, files, v[..n], l);
    EachFileAfter(later, FilesAfter(first, files, v[..n]), v, l);
    EachFileAfter(later, files, v, l);
    assert l in v[..n] ==> l in v;
    FileAfterSettles(first, l, files[l], later);
  }

  // ---------- what is counted ----------

  /** A record in the clear opens, and a sealed one exactly under the key registered for its id. */
  lemma OpensIff(keks: map<string, Key>, id: string, key: Key, secret: string, nonce: nat)
    ensures Decrypt(keks, Plain(secret)) == Some(secret)
    ensures Decrypt(keks, Encrypt(Kek(id, key), secret, nonce)) == (if id in keks && keks[id] == key then Some(secret) else None)
    ensures Decrypt(keks, Sealed(id, Garbled)).None?
  {
  }

  /** What the pass reports of a record file, by what it is: under the current key, in the clear while there is none, or
      opened and rewritten to the form it was not in. Everything else failed. */
  lemma ActionIsExact(env: Env, l: Label, f: RecordFile)
    ensures var action, current := ActionOn(env, l, f), env.Current();
            var written := env.dryRun || env.writeEnd(l) == Written;
            && (action == AlreadyCurrent <==> f.Record? && current.Some? && f.body.Sealed? && f.body.kekId == current.value.id)
            && (action == AlreadyPlaintext <==> f.Record? && current.None? && f.body.Plain?)
            && (action == Encrypted <==> f.Record? && current.Some? && f.body.Plain? && written)
            && (action == Rewrapped <==>
                  f.Record? && current.Some? && f.body.Sealed? && f.body.kekId != current.value.id && Decrypt(env.keks, f.body).Some? && written)
            && (action == Decrypted <==> f.Record? && current.None? && f.body.Sealed? && Decrypt(env.keks, f.body).Some? && written)
  {
  }

  /** The actions of a run, in order. */
  function Actions(env: Env, files: map<Label, RecordFile>, visits: seq<Label>): (r: seq<Action>)
    ensures |r| == |visits|
  {
    if visits == [] then []
    else
      var l := visits[|visits| - 1];
      var before := FilesAfter(env, files, visits[..|visits| - 1]);
      Actions(env, files, visits[..|visits| - 1]) + [if l in before then ActionOn(env, l, before[l]) else Failed]
  }

  function CountOf(s: Summary, a: Action): nat {
    match a
    case Rewrapped => s.rewrapped
    case Encrypted => s.encrypted
    case Decrypted => s.decrypted
    case AlreadyCurrent => s.alreadyCurrent
    case AlreadyPlaintext => s.alreadyPlaintext
    case Failed => s.failed
  }

  lemma OneMoreAction(actions: seq<Action>, last: Action, a: Action)
    ensures multiset(actions + [last])[a] == multiset(actions)[a] + if a == last then 1 else 0
  {
  }

  lemma OneMoreCounted(s: Summary, last: Action, a: Action)
    ensures CountOf(s.Count(last), a) == CountOf(s, a) + if a == last then 1 else 0
  {
  }

  lemma LastVisit(env: Env, files: map<Label, RecordFile>, visits: seq<Label>) returns (last: Action)
    requires visits != []
    ensures Actions(env, files, visits) == Actions(env, files, visits[..|visits| - 1]) + [last]
    ensures Tally(env, files, visits, NOTHING_YET) == Tally(env, files, visits[..|visits| - 1], NOTHING_YET).Count(last)
  {
    var l := visits[|visits| - 1];
    var before := FilesAfter(env, files, visits[..|visits| - 1]);
    last := if l in before then ActionOn(env, l, before[l]) else Failed;
  }

  /** Each counter counts the actions of its name. */
  lemma {:induction false} CountersCountActions(env: Env, files: map<Label, RecordFile>, visits: seq<Label>, a: Action)
    ensures CountOf(Tally(env, files, visits, NOTHING_YET), a) == multiset(Actions(env, files, visits))[a]
  {
    if visits != [] {
      var rest := visits[..|visits| - 1];
      CountersCountActions(env, files, rest, a);
      var last := LastVisit(env, files, visits);
      OneMoreAction(Actions(env, files, rest), last, a);
      OneMoreCounted(Tally(env, files, rest, NOTHING_YET), last, a);
    }
  }

  /** And the action counted for a record is the one its own form calls for, at its first visit. */
  lemma ActionOfFirstVisit(env: Env, files: map<Label, RecordFile>, visits: seq<Label>, l: Label)
    requires visits != [] && l == visits[|visits| - 1] && l !in visits[..|visits| - 1] && l in files
    ensures Actions(env, files, visits)[|visits| - 1] == ActionOn(env, l, files[l])
  {
    EachFileAfter(env, files, visits[..|visits| - 1], l);
  }
}
