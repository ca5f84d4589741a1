/**
 Uniqueness-checked writes of the filesystem backend as interleaved steps over one Collection: a write
 that can create a claim holds the Collection lock and scans file by file; writes free of claims and deletes
 take only their Resource lock, and run between any two of those reads. What a Resource claims is a parameter.
 */
module UniquenessSteps {
  import opened Wrappers
  import opened UniqueClaims
  import opened JsonValues

  type Id = string
  type ProcId = nat

  /** A representation file: the filename codec pairs id and media type injectively. */
  datatype Rep = Rep(id: Id, media: string)

  /** Content and metadata writes, each either checked or free of claims, and deletes. A file that is not JSON has no
      parsed content. */
  datatype Op =
    | JsonWrite(id: Id, media: string, doc: Json)
    | MetaWrite(id: Id, custom: Option<Json>)
    | FreeWrite(id: Id, media: string, content: Option<Json>)
    | FreeMeta(id: Id, custom: Option<Json>)
    | Delete(id: Id)

  /** Only a write that claims nothing goes without the Collection lock. */
  ghost predicate Fits<T(!new)>(claims: Claiming<T>, op: Op) {
    match op
    case FreeWrite(_, _, content) => claims(content, None) == iset{}
    case FreeMeta(_, custom) => claims(None, custom) == iset{}
    case _ => true
  }

  datatype Phase = Idle | Locked | Scanning | Checked | Holding | Pruning

  /** The half of the written Resource's own claim that the operation does not write: stored `custom`
      for a content write, stored JSON content for a metadata write. */
  datatype Own = NotRead | Picked(rep: Rep) | Seen(value: Option<Json>)

  datatype Proc = Proc(
    op: Op,
    phase: Phase,
    listed: set<Rep>,                       // the directory listing, the written id excluded
    contents: map<Rep, Option<Json>>,       // file reads so far
    customs: map<Rep, Option<Json>>,        // sidecar reads so far
    own: Own,
    stale: set<Rep>)                        // representations still to remove

  datatype State = State(
    reps: map<Rep, Option<Json>>,
    custom: map<Id, Json>,
    collectionLock: Option<ProcId>,
    resourceLock: map<Id, ProcId>,
    procs: map<ProcId, Proc>)

  function CustomOf(s: State, id: Id): Option<Json> {
    if id in s.custom then Some(s.custom[id]) else None
  }

  function RepsOf(s: State, id: Id): set<Rep> {
    set r | r in s.reps && r.id == id
  }

  predicate ClaimOp(op: Op) {
    op.JsonWrite? || op.MetaWrite?
  }

  function NewRep(op: Op): Rep
    requires op.JsonWrite? || op.FreeWrite?
  {
    Rep(op.id, op.media)
  }

  /** What the Resource will claim once the operation has been carried out. */
  ghost function NewClaims<T(!new)>(claims: Claiming<T>, p: Proc): iset<T>
    requires p.own.Seen? && ClaimOp(p.op)
  {
    if p.op.JsonWrite? then claims(Some(p.op.doc), p.own.value)
    else claims(p.own.value, p.op.custom)
  }

  datatype Action =
    | Begin(op: Op)
    | TakeCollection
    | List
    | ReadContent(rep: Rep)
    | ReadCustom(rep: Rep)
    | PickOwn(choice: Option<Rep>)
    | ReadOwn
    | Check
    | TakeResource
    | Write
    | Prune(rep: Rep)
    | Finish
    | Abort

  predicate ScanDone(p: Proc) {
    p.own.Seen? && p.listed <= p.contents.Keys && p.listed <= p.customs.Keys
  }

  ghost predicate NoConflict<T(!new)>(claims: Claiming<T>, p: Proc)
    requires ScanDone(p) && ClaimOp(p.op)
  {
    forall r :: r in p.listed ==> claims(p.contents[r], p.customs[r]) !! NewClaims(claims, p)
  }

  ghost predicate Enabled<T(!new)>(claims: Claiming<T>, s: State, t: ProcId, a: Action) {
    if a.Begin? then t !in s.procs && Fits(claims, a.op)
    else
      t in s.procs &&
      var p := s.procs[t];
      match a
      case TakeCollection => ClaimOp(p.op) && p.phase == Idle && s.collectionLock == None
      case List => p.phase == Locked
      case ReadContent(rep) => p.phase == Scanning && rep in p.listed && rep !in p.contents
      case ReadCustom(rep) => p.phase == Scanning && rep in p.listed && rep !in p.customs
      case PickOwn(choice) =>
        p.phase == Scanning && p.op.MetaWrite? && p.own.NotRead? &&
        (if choice.Some? then choice.value in RepsOf(s, p.op.id) else RepsOf(s, p.op.id) == {})
      case ReadOwn => p.phase == Scanning && (p.own.Picked? || (p.own.NotRead? && p.op.JsonWrite?))
      case Check => p.phase == Scanning && ClaimOp(p.op) && ScanDone(p) && NoConflict(claims, p)
      case TakeResource => p.phase == (if ClaimOp(p.op) then Checked else Idle) && p.op.id !in s.resourceLock
      case Write => p.phase == Holding
      case Prune(rep) => p.phase == Pruning && rep in p.stale
      case Finish => p.phase == Pruning && p.stale == {}
      case Abort => p.phase != Pruning
  }

  function Unlocked(s: State, t: ProcId): State {
    s.(collectionLock := if s.collectionLock == Some(t) then None else s.collectionLock,
       resourceLock := map id | id in s.resourceLock && s.resourceLock[id] != t :: s.resourceLock[id],
       procs := s.procs - {t})
  }

  function With(s: State, t: ProcId, p: Proc): State {
    s.(procs := s.procs[t := p])
  }

  /** New bytes first; the files listed before the write are the stale ones to prune. */
  function DoContentWrite(s: State, t: ProcId, p: Proc, content: Option<Json>): State
    requires p.op.JsonWrite? || p.op.FreeWrite?
  {
    With(s, t, p.(phase := Pruning, stale := RepsOf(s, p.op.id) - {NewRep(p.op)})).(reps := s.reps[NewRep(p.op) := content])
  }

  /** Full replacement of `custom`; does nothing for an absent Resource. */
  function DoMetaWrite(s: State, t: ProcId, p: Proc, custom: Option<Json>): State {
    var id := p.op.id;
    With(s, t, p.(phase := Pruning)).(custom :=
      if RepsOf(s, id) == {} then s.custom else if custom.Some? then s.custom[id := custom.value] else s.custom - {id})
  }

  function DoDelete(s: State, t: ProcId, p: Proc): State {
    With(s, t, p.(phase := Pruning, stale := RepsOf(s, p.op.id)))
  }

  /** The write proper, under the Resource lock. */
  function DoWrite(s: State, t: ProcId, p: Proc): State {
    match p.op
    case JsonWrite(_, _, doc) => DoContentWrite(s, t, p, Some(doc))
    case FreeWrite(_, _, content) => DoContentWrite(s, t, p, content)
    case MetaWrite(_, custom) => DoMetaWrite(s, t, p, custom)
    case FreeMeta(_, custom) => DoMetaWrite(s, t, p, custom)
    case Delete(_) => DoDelete(s, t, p)
  }

  function DoPrune(s: State, t: ProcId, p: Proc, rep: Rep): State {
    With(s, t, p.(stale := p.stale - {rep})).(reps := s.reps - {rep})
  }

  /** The sidecar write and the release of the locks; a tombstone keeps no `custom`. */
  function DoFinish(s: State, t: ProcId, p: Proc): State {
    Unlocked(if p.op.Delete? then s.(custom := s.custom - {p.op.id}) else s, t)
  }

  ghost function Do<T(!new)>(claims: Claiming<T>, s: State, t: ProcId, a: Action): State
    requires Enabled(claims, s, t, a)
  {
    if a.Begin? then With(s, t, Proc(a.op, Idle, {}, map[], map[], NotRead, {}))
    else
      var p := s.procs[t];
      match a
      case TakeCollection => With(s, t, p.(phase := Locked)).(collectionLock := Some(t))
      case List => With(s, t, p.(phase := Scanning, listed := set r | r in s.reps && r.id != p.op.id))
      case ReadContent(rep) =>
        With(s, t, p.(contents := p.contents[rep := if rep in s.reps then s.reps[rep] else None]))
      case ReadCustom(rep) => With(s, t, p.(customs := p.customs[rep := CustomOf(s, rep.id)]))
      case PickOwn(choice) => With(s, t, p.(own := if choice.Some? then Picked(choice.value) else Seen(None)))
      case ReadOwn =>
        With(s, t, p.(own := Seen(
          if p.op.JsonWrite? then CustomOf(s, p.op.id)
          else if p.own.Picked? && p.own.rep in s.reps then s.reps[p.own.rep]
          else None)))
      case Check => With(s, t, p.(phase := Checked))
      case TakeResource => With(s, t, p.(phase := Holding)).(resourceLock := s.resourceLock[p.op.id := t])
      case Write => DoWrite(s, t, p)
      case Prune(rep) => DoPrune(s, t, p, rep)
      case Finish => DoFinish(s, t, p)
      case Abort => Unlocked(s, t)
  }

  ghost predicate Next<T(!new)>(claims: Claiming<T>, s: State, s': State) {
    exists t: ProcId, a: Action :: Enabled(claims, s, t, a) && s' == Do(claims, s, t, a)
  }

  /** A Collection directory with no section under way: one representation per Resource, metadata only beside one. */
  ghost predicate AtRest(s: State) {
    && s.collectionLock.None? && s.resourceLock == map[] && s.procs == map[]
    && (forall q, r :: q in s.reps && r in s.reps && q.id == r.id ==> q == r)
    && (forall id :: id in s.custom ==> exists r :: r in s.reps && r.id == id)
  }

  /** No two Resources share a claim: what the scan at declaration time establishes. */
  ghost predicate SharesNothing<T(!new)>(claims: Claiming<T>, s: State) {
    forall q, r :: q in s.reps && r in s.reps && q.id != r.id ==>
      claims(s.reps[q], CustomOf(s, q.id)) !! claims(s.reps[r], CustomOf(s, r.id))
  }

  ghost predicate IsRun<T(!new)>(claims: Claiming<T>, run: seq<State>) {
    && |run| > 0 && AtRest(run[0]) && SharesNothing(claims, run[0])
    && forall i :: 0 < i < |run| ==> Next(claims, run[i - 1], run[i])
  }
}
