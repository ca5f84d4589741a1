/**
 The filesystem backend's use of the keyed mutex: plain operations hold one key, and a uniqueness-checked
 write holds its Collection key while it waits for, and holds, its Resource key. Keys are the strings
 the backend builds from slash-free ids.
 */
module LockNesting {
  import opened Wrappers
  import opened KeyedMutexModel

  // ---------- the lock keys ----------

  datatype Lock =
    | ResourceLock(space: string, collection: string, resource: string)
    | UniqueLock(space: string, collection: string)
    | DescriptionLock(space: string, collection: string)
    | MetadataLock(space: string, collection: string)
    | KeystoreLock(keystore: string)

  predicate SlashFree(id: string) {
    '/' !in id
  }

  predicate ValidLock(l: Lock) {
    match l
    case ResourceLock(s, c, r) => SlashFree(s) && SlashFree(c) && SlashFree(r)
    case UniqueLock(s, c) => SlashFree(s) && SlashFree(c)
    case DescriptionLock(s, c) => SlashFree(s) && SlashFree(c)
    case MetadataLock(s, c) => SlashFree(s) && SlashFree(c)
    case KeystoreLock(k) => SlashFree(k)
  }

  /** The text before the first slash of a key, and the text after it if there is one. */
  function Head(l: Lock): string {
    match l
    case ResourceLock(s, _, _) => s
    case UniqueLock(s, _) => "unique:" + s
    case DescriptionLock(s, _) => "desc:" + s
    case MetadataLock(s, _) => "cmeta:" + s
    case KeystoreLock(k) => "keystore:" + k
  }

  function Tail(l: Lock): Option<string> {
    match l
    case ResourceLock(_, c, r) => Some(c + "/" + r)
    case UniqueLock(_, c) => Some(c)
    case DescriptionLock(_, c) => Some(c)
    case MetadataLock(_, c) => Some(c)
    case KeystoreLock(_) => None
  }

  function KeyOf(l: Lock): Key {
    if Tail(l).None? then Head(l) else Head(l) + "/" + Tail(l).value
  }

  /** The text of each key. */
  lemma KeyTexts(s: string, c: string, r: string)
    ensures KeyOf(ResourceLock(s, c, r)) == s + "/" + c + "/" + r
    ensures KeyOf(UniqueLock(s, c)) == "unique:" + s + "/" + c
    ensures KeyOf(DescriptionLock(s, c)) == "desc:" + s + "/" + c
    ensures KeyOf(MetadataLock(s, c)) == "cmeta:" + s + "/" + c
    ensures KeyOf(KeystoreLock(s)) == "keystore:" + s
  {
    assert s + "/" + (c + "/" + r) == s + "/" + c + "/" + r;
  }

  lemma SplitAtSlash(x: string, a: string, y: string, b: string)
    requires SlashFree(x) && SlashFree(y) && x + "/" + a == y + "/" + b
    ensures x == y && a == b
  {
    var s := x + "/" + a;
    assert s[|x|] == '/' && forall i :: 0 <= i < |x| ==> s[i] == x[i];
    assert s == y + "/" + b && s[|y|] == '/' && forall i :: 0 <= i < |y| ==> s[i] == y[i];
    assert |x| == |y|;
    assert s[..|x|] == x && s[..|y|] == y;
    assert s[|x| + 1..] == a && s[|y| + 1..] == b;
  }

  /** Only a keystore key has no slash, and only a Resource key has two. */
  lemma KeyShape(l: Lock)
    requires ValidLock(l)
    ensures SlashFree(Head(l))
    ensures Tail(l).Some? <==> '/' in KeyOf(l)
    ensures Tail(l).Some? ==> (l.ResourceLock? <==> '/' in Tail(l).value)
  {
    if Tail(l).Some? {
      assert KeyOf(l)[|Head(l)|] == '/';
    }
    if l.ResourceLock? {
      assert Tail(l).value[|l.collection|] == '/';
    }
  }

  /** The five key namespaces are injective and disjoint: over slash-free ids, equal keys mean the same
      lock of the same kind, even for ids that spell another namespace's prefix. */
  lemma KeysAreInjective(a: Lock, b: Lock)
    requires ValidLock(a) && ValidLock(b) && KeyOf(a) == KeyOf(b)
    ensures a == b
  {
    KeyShape(a);
    KeyShape(b);
    if Tail(a).None? {
      assert a.keystore == KeyOf(a)[9..] && b.keystore == KeyOf(b)[9..];
    } else {
      SplitAtSlash(Head(a), Tail(a).value, Head(b), Tail(b).value);
      if a.ResourceLock? {
        SplitAtSlash(a.collection, a.resource, b.collection, b.resource);
      } else {
        assert Head(a)[0] == Head(b)[0];
        var n := if a.UniqueLock? then 7 else if a.DescriptionLock? then 5 else 6;
        assert a.space == Head(a)[n..] && b.space == Head(b)[n..];
      }
    }
  }

  // ---------- operations over the mutex ----------

  /** What the function of a mutex call does: a plain section only performs I/O; a nesting one calls
      `run` again on its Resource key, and settles after that call. */
  datatype Section = Plain(lock: Lock) | Nesting(lock: Lock, inner: Lock, child: Option<nat>)

  datatype System = System(mutex: Mutex, sections: seq<Section>)

  datatype Step =
    | CallPlain(lock: Lock)
    | CallNesting(space: string, collection: string, resource: string)
    | Nest(c: nat)
    | Advance(a: Action)

  predicate StepEnabled(s: System, step: Step) {
    match step
    case CallPlain(lock) => ValidLock(lock) && !lock.UniqueLock?
    case CallNesting(sp, co, re) => ValidLock(ResourceLock(sp, co, re))
    case Nest(c) =>
      c < |s.sections| && s.sections[c].Nesting? && s.sections[c].child.None? &&
      c < |s.mutex.calls| && s.mutex.calls[c].phase.Running?
    case Advance(a) =>
      !a.Run? && Enabled(s.mutex, a) &&
      // the outer function is still awaiting the nested call
      (a.Settle? && a.c < |s.sections| && s.sections[a.c].Nesting? && s.sections[a.c].child.Some? ==>
         var d := s.sections[a.c].child.value; d < |s.mutex.calls| && s.mutex.calls[d].phase.Settled?)
  }

  function Take(s: System, step: Step): System
    requires StepEnabled(s, step)
  {
    match step
    case CallPlain(lock) => System(Do(s.mutex, Run(KeyOf(lock))), s.sections + [Plain(lock)])
    case CallNesting(sp, co, re) =>
      System(Do(s.mutex, Run(KeyOf(UniqueLock(sp, co)))),
             s.sections + [Nesting(UniqueLock(sp, co), ResourceLock(sp, co, re), None)])
    case Nest(c) =>
      var inner := s.sections[c].inner;
      System(Do(s.mutex, Run(KeyOf(inner))),
             s.sections[c := s.sections[c].(child := Some(|s.mutex.calls|))] + [Plain(inner)])
    case Advance(a) => s.(mutex := Do(s.mutex, a))
  }

  ghost predicate Next(s: System, s': System) {
    exists step :: StepEnabled(s, step) && s' == Take(s, step)
  }

  ghost predicate IsHistory(h: seq<System>) {
    |h| > 0 && h[0] == System(EMPTY, []) && forall i :: 0 < i < |h| ==> Next(h[i - 1], h[i])
  }

  predicate SectionOk(s: System, c: nat)
    requires c < |s.sections| == |s.mutex.calls|
  {
    var section := s.sections[c];
    && ValidLock(section.lock) && s.mutex.calls[c].key == KeyOf(section.lock)
    && (section.Plain? <==> !section.lock.UniqueLock?)
    && (section.Nesting? ==> ValidLock(section.inner) && section.inner.ResourceLock?)
    && (section.Nesting? && section.child.Some? ==>
          section.child.value < |s.sections| && s.sections[section.child.value].Plain?)
  }

  ghost predicate SystemInv(s: System) {
    && Inv(s.mutex) && |s.sections| == |s.mutex.calls|
    && forall c :: 0 <= c < |s.sections| ==> SectionOk(s, c)
  }

  lemma StepKeepsSystemInv(s: System, step: Step)
    requires SystemInv(s) && StepEnabled(s, step)
    ensures SystemInv(Take(s, step))
  {
    var s' := Take(s, step);
    match step {
      case CallPlain(lock) => RunKeepsInv(s.mutex, KeyOf(lock));
      case CallNesting(sp, co, re) => RunKeepsInv(s.mutex, KeyOf(UniqueLock(sp, co)));
      case Nest(c) => assert SectionOk(s, c); RunKeepsInv(s.mutex, KeyOf(s.sections[c].inner));
      case Advance(a) => AdvanceKeepsInv(s.mutex, a);
    }
    forall c | 0 <= c < |s'.sections| ensures SectionOk(s', c) {
      if c < |s.sections| { assert SectionOk(s, c); }
    }
  }

  lemma {:induction false} HistoryHasInv(h: seq<System>, i: nat)
    requires IsHistory(h) && i < |h|
    ensures SystemInv(h[i])
  {
    if i == 0 {
    } else {
      HistoryHasInv(h, i - 1);
      var s, s' := h[i - 1], h[i];
      assert Next(s, s');
      var step :| StepEnabled(s, step) && s' == Take(s, step);
      StepKeepsSystemInv(s, step);
    }
  }

  // ---------- no deadlock ----------

  function Unnested(sections: seq<Section>): nat {
    if sections == [] then 0
    else (if sections[0].Nesting? && sections[0].child.None? then 1 else 0) + Unnested(sections[1..])
  }

  lemma {:induction false} UnnestedChange(a: seq<Section>, c: nat, x: Section, more: seq<Section>)
    requires c < |a| && a[c].Nesting? && a[c].child.None? && x.Nesting? && x.child.Some?
    requires more == [] || (|more| == 1 && more[0].Plain?)
    ensures Unnested(a[c := x] + more) == Unnested(a) - 1
  {
    var b := a[c := x] + more;
    if c == 0 {
      assert b[1..] == a[1..] + more;
      UnnestedAppendPlain(a[1..], more);
    } else {
      assert b[1..] == a[1..][c - 1 := x] + more;
      UnnestedChange(a[1..], c - 1, x, more);
    }
  }

  lemma {:induction false} UnnestedAppendPlain(a: seq<Section>, more: seq<Section>)
    requires more == [] || (|more| == 1 && more[0].Plain?)
    ensures Unnested(a + more) == Unnested(a)
  {
    if a == [] {
      assert a + more == more;
    } else {
      assert (a + more)[1..] == a[1..] + more;
      UnnestedAppendPlain(a[1..], more);
    }
  }

  lemma {:induction false} RemainingAppend(calls: seq<Call>, call: Call)
    ensures Remaining(calls + [call]) == Remaining(calls) + StepsLeft(call.phase)
  {
    if calls == [] {
    } else {
      assert (calls + [call])[1..] == calls[1..] + [call];
      RemainingAppend(calls[1..], call);
    }
  }

  /** How much the calls made so far can still do: the measure that bounds every operation. */
  function Measure(s: System): nat {
    Remaining(s.mutex.calls) + 5 * Unnested(s.sections)
  }

  predicate Internal(step: Step) {
    step.Nest? || step.Advance?
  }

  lemma InternalStepsDecrease(s: System, step: Step)
    requires SystemInv(s) && StepEnabled(s, step) && Internal(step)
    ensures Measure(Take(s, step)) == Measure(s) - 1
  {
    match step {
      case Nest(c) =>
        var x := s.sections[c].(child := Some(|s.mutex.calls|));
        UnnestedChange(s.sections, c, x, [Plain(s.sections[c].inner)]);
        RemainingAppend(s.mutex.calls, Take(s, step).mutex.calls[|s.mutex.calls|]);
      case Advance(a) =>
        RemainingUpdate(s.mutex.calls, a.c, Do(s.mutex, a).calls[a.c]);
    }
  }

  /** A section that waits in a queue waits on a section of the same lock. */
  lemma PredecessorHasSameLock(s: System, c: nat)
    requires SystemInv(s) && c < |s.sections| && s.mutex.calls[c].previous.Some?
    ensures s.mutex.calls[c].previous.value < c
    ensures s.sections[s.mutex.calls[c].previous.value].lock == s.sections[c].lock
    ensures s.sections[s.mutex.calls[c].previous.value].Plain? == s.sections[c].Plain?
  {
    var p := s.mutex.calls[c].previous.value;
    assert ChainOk(s.mutex, c) && SectionOk(s, c) && SectionOk(s, p);
    KeysAreInjective(s.sections[p].lock, s.sections[c].lock);
  }

  function OwnStep(call: Call, c: nat): Action {
    match call.phase
    case Queued => Start(c)
    case Running => Settle(c, false)
    case Settled(_, tailDone, _) => if tailDone then Cleanup(c) else SettleTail(c)
  }

  lemma PlainProgress(s: System, c: nat) returns (step: Step)
    requires SystemInv(s) && c < |s.sections| && s.sections[c].Plain? && !Finished(s.mutex.calls[c])
    ensures Internal(step) && StepEnabled(s, step)
    decreases c
  {
    var call := s.mutex.calls[c];
    if call.phase.Queued? && call.previous.Some? && !TailDone(s.mutex, call.previous.value) {
      PredecessorHasSameLock(s, c);
      step := PlainProgress(s, call.previous.value);
    } else {
      step := Advance(OwnStep(call, c));
    }
  }

  /** No deadlock: while any call is unfinished, some internal step is enabled. The Collection key is
      always the outer one, so an outer section waits only on outer sections or on its own inner call. */
  lemma NoDeadlock(h: seq<System>, n: nat, c: nat) returns (step: Step)
    requires IsHistory(h) && n < |h| && c < |h[n].mutex.calls| && !Finished(h[n].mutex.calls[c])
    ensures Internal(step) && StepEnabled(h[n], step)
    decreases c
  {
    HistoryHasInv(h, n);
    var s := h[n];
    var call := s.mutex.calls[c];
    assert SectionOk(s, c);
    if s.sections[c].Plain? {
      step := PlainProgress(s, c);
    } else if call.phase.Queued? && call.previous.Some? && !TailDone(s.mutex, call.previous.value) {
      PredecessorHasSameLock(s, c);
      step := NoDeadlock(h, n, call.previous.value);
    } else if call.phase.Running? && s.sections[c].child.None? {
      step := Nest(c);
    } else if call.phase.Running? && !s.mutex.calls[s.sections[c].child.value].phase.Settled? {
      step := PlainProgress(s, s.sections[c].child.value);
    } else {
      step := Advance(OwnStep(call, c));
    }
  }

  ghost predicate InternalPath(path: seq<System>) {
    |path| > 0 && forall i :: 0 < i < |path| ==> InternalNext(path[i - 1], path[i])
  }

  ghost predicate InternalNext(s: System, s': System) {
    exists step :: Internal(step) && StepEnabled(s, step) && s' == Take(s, step)
  }

  /** Every operation finishes: with no new calls made, at most `Measure` further steps can be taken,
      however they are scheduled; and by `NoDeadlock` they stop only when every call is finished. */
  lemma {:induction false} EveryPathIsBounded(h: seq<System>, n: nat, path: seq<System>)
    requires IsHistory(h) && n < |h| && InternalPath(path) && path[0] == h[n]
    ensures SystemInv(path[|path| - 1])
    ensures Measure(path[|path| - 1]) + |path| - 1 == Measure(h[n])
    decreases |path|
  {
    if |path| == 1 {
      HistoryHasInv(h, n);
    } else {
      var front := path[..|path| - 1];
      assert InternalPath(front) by {
        forall i | 0 < i < |front| ensures InternalNext(front[i - 1], front[i]) {
          assert InternalNext(path[i - 1], path[i]);
        }
      }
      EveryPathIsBounded(h, n, front);
      var s, s' := path[|path| - 2], path[|path| - 1];
      assert InternalNext(s, s');
      var step :| Internal(step) && StepEnabled(s, step) && s' == Take(s, step);
      StepKeepsSystemInv(s, step);
      InternalStepsDecrease(s, step);
    }
  }

  /** Why the namespaces must be disjoint: if the nested key were the outer key, the nested call would
      be queued behind the very section that awaits it, and neither could move. */
  lemma SameKeyNestingIsStuck(key: Key)
    ensures var m := Do(Do(Do(EMPTY, Run(key)), Start(0)), Run(key));
            && m.calls[0].phase.Running? && m.calls[1].phase.Queued?
            && forall a :: Enabled(m, a) && !a.Run? ==> a.Settle? && a.c == 0
  {
    var m := Do(Do(Do(EMPTY, Run(key)), Start(0)), Run(key));
    assert m.calls == [Call(key, None, Running), Call(key, Some(0), Queued)];
  }
}
