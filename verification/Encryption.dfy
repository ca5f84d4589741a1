/**
 Collection encryption descriptors: the shape check on an incoming descriptor, the transition rails on an
 update, and what the rails guarantee over every history of accepted updates.
 */
module Encryption {
  import opened JsonValues
  import opened Wrappers

  // ---------- shape ----------

  type Object = map<string, Json>

  datatype EpochFault = NotAnObject | WithoutId | DuplicateId | WithoutRecipients | BadRecipient(recipient: nat)

  datatype Violation = NotTogether | EpochsNotAList | AtEpoch(epoch: nat, fault: EpochFault) | CurrentNotText | CurrentUnknown

  predicate IsText(j: Json) {
    j.JString? && j.s != ""
  }

  predicate HasText(o: Object, name: string) {
    name in o && IsText(o[name])
  }

  predicate RecipientOk(j: Json) {
    && j.JObject? && "header" in j.members && j.members["header"].JObject?
    && HasText(j.members["header"].members, "kid") && HasText(j.members["header"].members, "alg")
    && "encrypted_key" in j.members && j.members["encrypted_key"].JString?
  }

  predicate HasRecipients(o: Object) {
    "recipients" in o && o["recipients"].JArray? && o["recipients"].elements != []
  }

  predicate EpochOk(j: Json) {
    && j.JObject? && HasText(j.members, "id") && HasRecipients(j.members)
    && forall r :: r in j.members["recipients"].elements ==> RecipientOk(r)
  }

  function IdOf(j: Json): Option<string> {
    if j.JObject? && HasText(j.members, "id") then Some(j.members["id"].s) else None
  }

  ghost predicate EpochsOk(epochs: seq<Json>) {
    && (forall i :: 0 <= i < |epochs| ==> EpochOk(epochs[i]))
    && (forall i, j :: 0 <= i < j < |epochs| ==> IdOf(epochs[i]) != IdOf(epochs[j]))
  }

  predicate HasEpochs(d: Object) {
    "epochs" in d && "currentEpoch" in d && d["epochs"].JArray? && d["epochs"].elements != []
  }

  ghost predicate WellFormed(d: Object) {
    ("epochs" !in d && "currentEpoch" !in d) ||
    (HasEpochs(d) && EpochsOk(d["epochs"].elements) && HasText(d, "currentEpoch") &&
     Listed(d["epochs"].elements, d["currentEpoch"].s))
  }

  ghost predicate Listed(epochs: seq<Json>, id: string) {
    exists e :: e in epochs && IdOf(e) == Some(id)
  }

  ghost predicate HasFault(epochs: seq<Json>, i: nat, fault: EpochFault)
    requires i < |epochs|
  {
    match fault
    case NotAnObject => !epochs[i].JObject?
    case WithoutId => epochs[i].JObject? && IdOf(epochs[i]).None?
    case DuplicateId => IdOf(epochs[i]).Some? && Listed(epochs[..i], IdOf(epochs[i]).value)
    case WithoutRecipients => IdOf(epochs[i]).Some? && !HasRecipients(epochs[i].members)
    case BadRecipient(k) =>
      && IdOf(epochs[i]).Some? && HasRecipients(epochs[i].members)
      && FirstBad(epochs[i].members["recipients"].elements, k)
  }

  predicate FirstBad(recipients: seq<Json>, k: nat) {
    k < |recipients| && !RecipientOk(recipients[k]) && forall j :: 0 <= j < k ==> RecipientOk(recipients[j])
  }

  /** What a rejection says about the descriptor: every member checked before the offending one is in order. */
  ghost predicate Names(d: Object, v: Violation) {
    match v
    case NotTogether => ("epochs" in d) != ("currentEpoch" in d)
    case EpochsNotAList => "epochs" in d && "currentEpoch" in d && (!d["epochs"].JArray? || d["epochs"].elements == [])
    case AtEpoch(i, fault) =>
      && HasEpochs(d) && i < |d["epochs"].elements|
      && EpochsOk(d["epochs"].elements[..i]) && HasFault(d["epochs"].elements, i, fault)
    case CurrentNotText => HasEpochs(d) && EpochsOk(d["epochs"].elements) && !IsText(d["currentEpoch"])
    case CurrentUnknown =>
      && HasEpochs(d) && EpochsOk(d["epochs"].elements) && IsText(d["currentEpoch"])
      && !Listed(d["epochs"].elements, d["currentEpoch"].s)
  }

  /** One entry of the list, against the ids of the entries before it. */
  method CheckEpoch(epochs: seq<Json>, i: nat, ids: set<string>) returns (fault: Option<EpochFault>)
    requires i < |epochs|
    requires forall id :: id in ids <==> Listed(epochs[..i], id)
    ensures fault.None? <==> EpochOk(epochs[i]) && IdOf(epochs[i]).value !in ids
    ensures fault.Some? ==> HasFault(epochs, i, fault.value)
  {
    var epoch := epochs[i];
    if !epoch.JObject? {
      return Some(NotAnObject);
    }
    if !HasText(epoch.members, "id") {
      return Some(WithoutId);
    }
    if epoch.members["id"].s in ids {
      return Some(DuplicateId);
    }
    if !HasRecipients(epoch.members) {
      return Some(WithoutRecipients);
    }
    var recipients := epoch.members["recipients"].elements;
    for k := 0 to |recipients|
      invariant forall j :: 0 <= j < k ==> RecipientOk(recipients[j])
    {
      if !RecipientOk(recipients[k]) {
        return Some(BadRecipient(k));
      }
    }
    return None;
  }

  lemma ListedGrows(epochs: seq<Json>, i: nat, id: string)
    requires i < |epochs|
    ensures Listed(epochs[..i + 1], id) <==> Listed(epochs[..i], id) || IdOf(epochs[i]) == Some(id)
  {
    assert epochs[..i + 1] == epochs[..i] + [epochs[i]];
    if Listed(epochs[..i], id) {
      var e :| e in epochs[..i] && IdOf(e) == Some(id);
      assert e in epochs[..i + 1];
    }
    if IdOf(epochs[i]) == Some(id) { assert epochs[i] in epochs[..i + 1]; }
  }

  lemma EpochsOkGrows(epochs: seq<Json>, i: nat)
    requires i < |epochs| && EpochsOk(epochs[..i]) && EpochOk(epochs[i])
    requires !Listed(epochs[..i], IdOf(epochs[i]).value)
    ensures EpochsOk(epochs[..i + 1])
  {
    assert epochs[..i + 1] == epochs[..i] + [epochs[i]];
    forall j | 0 <= j < i ensures IdOf(epochs[j]) != IdOf(epochs[i]) {
      assert epochs[..i][j] in epochs[..i];
    }
  }

  lemma PrefixOfEpochsOk(epochs: seq<Json>, i: nat)
    requires i < |epochs| && (!EpochOk(epochs[i]) || Listed(epochs[..i], IdOf(epochs[i]).value))
    ensures !EpochsOk(epochs)
  {
    if EpochOk(epochs[i]) {
      var e :| e in epochs[..i] && IdOf(e) == IdOf(epochs[i]);
      var j :| 0 <= j < i && epochs[..i][j] == e;
      assert IdOf(epochs[j]) == IdOf(epochs[i]);
    }
  }

  /** A descriptor passes exactly when it is well formed, and a rejection points at its first fault. */
  method ValidateEpochs(d: Object) returns (r: Result<(), Violation>)
    ensures r.Ok? <==> WellFormed(d)
    ensures r.Err? ==> Names(d, r.error)
  {
    if ("epochs" in d) != ("currentEpoch" in d) {
      return Err(NotTogether);
    }
    if "epochs" !in d {
      return Ok(());
    }
    if !d["epochs"].JArray? || d["epochs"].elements == [] {
      return Err(EpochsNotAList);
    }
    var epochs := d["epochs"].elements;
    var ids: set<string> := {};
    for i := 0 to |epochs|
      invariant EpochsOk(epochs[..i])
      invariant forall id :: id in ids <==> Listed(epochs[..i], id)
    {
      var fault := CheckEpoch(epochs, i, ids);
      if fault.Some? {
        PrefixOfEpochsOk(epochs, i);
        return Err(AtEpoch(i, fault.value));
      }
      EpochsOkGrows(epochs, i);
      forall id { ListedGrows(epochs, i, id); }
      ids := ids + {epochs[i].members["id"].s};
    }
    assert epochs[..|epochs|] == epochs;
    if !IsText(d["currentEpoch"]) {
      return Err(CurrentNotText);
    }
    if d["currentEpoch"].s !in ids {
      return Err(CurrentUnknown);
    }
    return Ok(());
  }

  // ---------- transitions ----------

  /** The members of a descriptor that the rails look at; recipients may change freely. */
  datatype Descriptor = Descriptor(scheme: string, epochs: Option<seq<string>>, currentEpoch: Option<string>, version: Option<real>)

  datatype Rejection =
    | Cleared
    | SchemeChanged
    | EpochRemoved(id: string)
    | CurrentMovedBack(epoch: string)
    | VersionRemoved
    | VersionDecreased(from: real, to: real)

  function Ids(d: Descriptor): set<string> {
    set id | id in d.epochs.GetOr([])
  }

  predicate Valid(d: Descriptor) {
    && (d.epochs.Some? <==> d.currentEpoch.Some?)
    && (d.epochs.Some? ==> d.currentEpoch.value in Ids(d))
  }

  function DescriptorOf(o: Object): Descriptor {
    Descriptor(
      if "scheme" in o && o["scheme"].JString? then o["scheme"].s else "",
      if "epochs" in o && o["epochs"].JArray? then
        var epochs := o["epochs"].elements;
        Some(seq(|epochs|, i requires 0 <= i < |epochs| => IdOf(epochs[i]).GetOr("")))
      else None,
      if HasText(o, "currentEpoch") then Some(o["currentEpoch"].s) else None,
      if "version" in o && o["version"].JNumber? then Some(o["version"].n) else None)
  }

  /** What passes the shape check satisfies what the rails rely on: ids as many as epochs, current one listed. */
  lemma WellFormedIsValid(o: Object)
    requires WellFormed(o)
    ensures Valid(DescriptorOf(o))
    ensures "epochs" in o ==> |Ids(DescriptorOf(o))| == |o["epochs"].elements|
  {
    if "epochs" in o {
      var epochs, d := o["epochs"].elements, DescriptorOf(o);
      var e :| e in epochs && IdOf(e) == Some(o["currentEpoch"].s);
      var i :| 0 <= i < |epochs| && epochs[i] == e;
      assert d.epochs.value[i] == d.currentEpoch.value;
      assert EpochsOk(epochs);
      forall i, j | 0 <= i < j < |epochs| ensures d.epochs.value[i] != d.epochs.value[j] {
        assert EpochOk(epochs[i]) && EpochOk(epochs[j]) && IdOf(epochs[i]) != IdOf(epochs[j]);
      }
      DistinctCount(d.epochs.value);
      assert Ids(d) == set id | id in d.epochs.value;
    }
  }

  lemma {:induction false} DistinctCount(s: seq<string>)
    requires forall i, j :: 0 <= i < j < |s| ==> s[i] != s[j]
    ensures |set x | x in s| == |s|
  {
    if s != [] {
      var n := |s| - 1;
      DistinctCount(s[..n]);
      assert (set x | x in s) == (set x | x in s[..n]) + {s[n]};
    }
  }

  predicate EpochsKept(existing: Descriptor, incoming: Descriptor) {
    Ids(existing) == {} ||
    (Ids(existing) <= Ids(incoming) &&
     (incoming.currentEpoch == existing.currentEpoch || incoming.currentEpoch.None? ||
      incoming.currentEpoch.value !in Ids(existing)))
  }

  predicate VersionKept(existing: Descriptor, incoming: Descriptor) {
    existing.version.None? || (incoming.version.Some? && existing.version.value <= incoming.version.value)
  }

  predicate Allowed(existing: Option<Descriptor>, incoming: Option<Descriptor>) {
    existing.None? ||
    (incoming.Some? && existing.value.scheme == incoming.value.scheme &&
     EpochsKept(existing.value, incoming.value) && VersionKept(existing.value, incoming.value))
  }

  /** Both descriptors are there, under one scheme. */
  predicate SameScheme(existing: Option<Descriptor>, incoming: Option<Descriptor>) {
    existing.Some? && incoming.Some? && existing.value.scheme == incoming.value.scheme
  }

  /** Each rejection is raised exactly when its rail is the first one broken. */
  method CheckTransition(existing: Option<Descriptor>, incoming: Option<Descriptor>) returns (r: Result<(), Rejection>)
    ensures r.Ok? <==> Allowed(existing, incoming)
    ensures r == Err(Cleared) <==> existing.Some? && incoming.None?
    ensures r == Err(SchemeChanged) <==> existing.Some? && incoming.Some? && existing.value.scheme != incoming.value.scheme
    ensures r.Err? && r.error.EpochRemoved? <==> SameScheme(existing, incoming) && !(Ids(existing.value) <= Ids(incoming.value))
    ensures r.Err? && r.error.EpochRemoved? ==> r.error.id in Ids(existing.value) - Ids(incoming.value)
    ensures forall e :: r == Err(CurrentMovedBack(e)) <==>
              SameScheme(existing, incoming) && Ids(existing.value) <= Ids(incoming.value) && e in Ids(existing.value) &&
              incoming.value.currentEpoch == Some(e) && existing.value.currentEpoch != Some(e)
    ensures r == Err(VersionRemoved) <==>
              SameScheme(existing, incoming) && EpochsKept(existing.value, incoming.value) &&
              existing.value.version.Some? && incoming.value.version.None?
    ensures forall v, w :: r == Err(VersionDecreased(v, w)) <==>
              SameScheme(existing, incoming) && EpochsKept(existing.value, incoming.value) &&
              existing.value.version == Some(v) && incoming.value.version == Some(w) && w < v
  {
    if existing.None? {
      return Ok(());
    }
    if incoming.None? {
      return Err(Cleared);
    }
    var before, after := existing.value, incoming.value;
    if before.scheme != after.scheme {
      return Err(SchemeChanged);
    }
    var epochs := before.epochs.GetOr([]);
    if epochs != [] {
      var incomingIds := Ids(after);
      for i := 0 to |epochs|
        invariant forall j :: 0 <= j < i ==> epochs[j] in incomingIds
      {
        if epochs[i] !in incomingIds {
          assert epochs[i] in Ids(before);
          return Err(EpochRemoved(epochs[i]));
        }
      }
      assert epochs[0] in Ids(before);
      if after.currentEpoch != before.currentEpoch && after.currentEpoch.Some? && after.currentEpoch.value in Ids(before) {
        return Err(CurrentMovedBack(after.currentEpoch.value));
      }
    }
    if before.version.Some? {
      if after.version.None? {
        return Err(VersionRemoved);
      }
      if after.version.value < before.version.value {
        return Err(VersionDecreased(before.version.value, after.version.value));
      }
    }
    return Ok(());
  }

  predicate ValidOpt(d: Option<Descriptor>) {
    d.Some? ==> Valid(d.value)
  }

  /** On valid descriptors the accepted transitions form a preorder: re-sending what is stored is accepted,
      and two accepted updates reach nothing that one could not. */
  lemma AllowedIsPreorder(a: Option<Descriptor>, b: Option<Descriptor>, c: Option<Descriptor>)
    requires ValidOpt(a) && ValidOpt(b) && ValidOpt(c)
    ensures Allowed(a, a)
    ensures Allowed(a, b) && Allowed(b, c) ==> Allowed(a, c)
  {
  }

  // ---------- histories ----------

  /** What a Collection has stored after each accepted update; every stored descriptor passed the shape
      check, and every update was checked against what was stored when it was applied. */
  ghost predicate IsHistory(h: seq<Option<Descriptor>>) {
    && (forall i :: 0 <= i < |h| ==> ValidOpt(h[i]))
    && (forall i :: 0 < i < |h| ==> Allowed(h[i - 1], h[i]))
  }

  lemma {:induction false} HistoryIsAllowed(h: seq<Option<Descriptor>>, i: nat, j: nat)
    requires IsHistory(h) && i <= j < |h|
    ensures Allowed(h[i], h[j])
    decreases j
  {
    if i < j {
      HistoryIsAllowed(h, i, j - 1);
      AllowedIsPreorder(h[i], h[j - 1], h[j]);
    }
  }

  /** Over any run of accepted updates: once declared a descriptor stays, its scheme is constant, its
      version never drops or vanishes, its epochs only grow, and its current epoch is always listed. */
  lemma DescriptorOnlyGrows(h: seq<Option<Descriptor>>, i: nat, j: nat)
    requires IsHistory(h) && i <= j < |h| && h[i].Some?
    ensures h[j].Some? && h[j].value.scheme == h[i].value.scheme
    ensures h[i].value.version.Some? ==> h[j].value.version.Some? && h[i].value.version.value <= h[j].value.version.value
    ensures Ids(h[i].value) <= Ids(h[j].value)
    ensures h[i].value.epochs.Some? ==> h[j].value.currentEpoch.Some? && h[j].value.currentEpoch.value in Ids(h[j].value)
  {
    HistoryIsAllowed(h, i, j);
  }

  /** An epoch that has stopped being current is never current again. */
  lemma RetiredEpochNeverReturns(h: seq<Option<Descriptor>>, i: nat, j: nat, k: nat, epoch: string)
    requires IsHistory(h) && i < j < k < |h|
    requires h[i].Some? && h[i].value.currentEpoch == Some(epoch)
    requires h[j].Some? && h[j].value.currentEpoch != Some(epoch)
    ensures h[k].Some? && h[k].value.currentEpoch != Some(epoch)
    ensures epoch in Ids(h[k].value)
  {
    HistoryIsAllowed(h, i, j);
    HistoryIsAllowed(h, j, k);
  }

  /** What some run of accepted updates can reach is exactly what one accepted update can. */
  lemma ReachableIffAllowed(a: Option<Descriptor>, b: Option<Descriptor>)
    requires ValidOpt(a) && ValidOpt(b)
    ensures (exists h :: IsHistory(h) && |h| > 0 && h[0] == a && h[|h| - 1] == b) <==> Allowed(a, b)
  {
    if h :| IsHistory(h) && |h| > 0 && h[0] == a && h[|h| - 1] == b {
      HistoryIsAllowed(h, 0, |h| - 1);
    }
    if Allowed(a, b) {
      var h := [a, b];
      assert IsHistory(h) && h[0] == a && h[|h| - 1] == b;
    }
  }

  /** Rotation is always open: appending a new epoch and making it current is accepted. */
  lemma RotationIsAccepted(d: Descriptor, next: string)
    requires Valid(d) && next !in Ids(d)
    ensures var rotated := d.(epochs := Some(d.epochs.GetOr([]) + [next]), currentEpoch := Some(next));
            Valid(rotated) && Allowed(Some(d), Some(rotated))
  {
    var rotated := d.(epochs := Some(d.epochs.GetOr([]) + [next]), currentEpoch := Some(next));
    assert next in rotated.epochs.value;
    forall id | id in Ids(d) ensures id in Ids(rotated) {
      assert id in rotated.epochs.value;
    }
  }

  /** Why the rails run again inside the write: two updates that each pass against the same read can,
      applied one after the other without that second check, lose an epoch. */
  lemma EarlyCheckAloneLosesEpochs(d: Descriptor, one: string, two: string)
    requires Valid(d) && d.epochs.Some? && one != two && one !in Ids(d) && two !in Ids(d)
    ensures var first := d.(epochs := Some(d.epochs.value + [one]));
            var second := d.(epochs := Some(d.epochs.value + [two]));
            && Valid(first) && Valid(second)
            && Allowed(Some(d), Some(first)) && Allowed(Some(d), Some(second))
            && !Allowed(Some(first), Some(second)) && one in Ids(first) - Ids(second)
  {
    var first := d.(epochs := Some(d.epochs.value + [one]));
    var second := d.(epochs := Some(d.epochs.value + [two]));
    assert one in first.epochs.value && one !in second.epochs.value;
    forall id | id in Ids(d) ensures id in Ids(first) && id in Ids(second) {
      assert id in first.epochs.value && id in second.epochs.value;
    }
    assert one in Ids(first) && one !in Ids(second);
  }

  // ---------- what is read of a descriptor ----------

  /** A recipient carries a header with a non-empty `kid` and `alg`, and a wrapped key, all text. */
  lemma RecipientOkIff(j: Json)
    ensures RecipientOk(j) <==>
            j.JObject? && "header" in j.members && "encrypted_key" in j.members && j.members["header"].JObject? &&
            "kid" in j.members["header"].members && "alg" in j.members["header"].members &&
            exists kid, alg, wrapped :: kid != "" && alg != "" && j.members["header"].members["kid"] == JString(kid) &&
              j.members["header"].members["alg"] == JString(alg) && j.members["encrypted_key"] == JString(wrapped)
  {
    if RecipientOk(j) {
      var header := j.members["header"].members;
      assert header["kid"] == JString(header["kid"].s) && header["alg"] == JString(header["alg"].s);
      assert j.members["encrypted_key"] == JString(j.members["encrypted_key"].s);
    }
  }

  /** An epoch is an object with a non-empty id and at least one recipient, every one of them in order. */
  lemma EpochOkIff(j: Json)
    ensures EpochOk(j) <==>
            j.JObject? && "id" in j.members && "recipients" in j.members &&
            (exists id :: id != "" && j.members["id"] == JString(id)) &&
            exists first, more :: j.members["recipients"] == JArray([first] + more) && forall r :: r in [first] + more ==> RecipientOk(r)
  {
    if EpochOk(j) {
      var id, all := j.members["id"].s, j.members["recipients"].elements;
      assert j.members["id"] == JString(id) && all == [all[0]] + all[1..] && j.members["recipients"] == JArray([all[0]] + all[1..]);
    }
  }

  lemma IdOfIff(j: Json, id: string)
    ensures IdOf(j) == Some(id) <==> j.JObject? && "id" in j.members && j.members["id"] == JString(id) && id != ""
  {
  }

  /** The rails read a descriptor's scheme, version and current epoch off the members of those names, and as its epochs
      the ids listed. */
  lemma DescriptorIsRead(o: Object)
    ensures var d := DescriptorOf(o);
            && (forall s :: "scheme" in o && o["scheme"] == JString(s) ==> d.scheme == s)
            && (forall v :: d.version == Some(v) <==> "version" in o && o["version"] == JNumber(v))
            && (forall e :: d.currentEpoch == Some(e) <==> "currentEpoch" in o && o["currentEpoch"] == JString(e) && e != "")
            && (d.epochs.Some? <==> "epochs" in o && o["epochs"].JArray?)
            && (WellFormed(o) ==> forall id :: id in Ids(d) <==> "epochs" in o && Listed(o["epochs"].elements, id))
  {
    if WellFormed(o) && "epochs" in o {
      var epochs, d := o["epochs"].elements, DescriptorOf(o);
      forall id ensures id in Ids(d) <==> Listed(epochs, id) {
        if id in Ids(d) {
          var i :| 0 <= i < |epochs| && d.epochs.value[i] == id;
          assert EpochOk(epochs[i]) && IdOf(epochs[i]) == Some(id) && epochs[i] in epochs;
        }
        if Listed(epochs, id) {
          var e :| e in epochs && IdOf(e) == Some(id);
          var i :| 0 <= i < |epochs| && epochs[i] == e;
          assert d.epochs.value[i] == id;
        }
      }
    }
  }

  predicate HasNumber(o: Object, name: string, v: real) {
    name in o && o[name] == JNumber(v)
  }

  ghost predicate ListsEpoch(o: Object, id: string) {
    "epochs" in o && o["epochs"].JArray? && Listed(o["epochs"].elements, id)
  }

  /** On stored and sent descriptors that passed the shape check, under their schemes: an update is accepted exactly when
      the scheme stays, every listed epoch stays listed, the current epoch stays or becomes one not listed before, and a
      version stays and does not drop. */
  lemma UpdateIsAcceptedIff(stored: Object, sent: Object, before: string, after: string)
    requires WellFormed(stored) && WellFormed(sent)
    requires "scheme" in stored && stored["scheme"] == JString(before) && "scheme" in sent && sent["scheme"] == JString(after)
    ensures Allowed(Some(DescriptorOf(stored)), Some(DescriptorOf(sent))) <==>
            && before == after
            && (forall id :: ListsEpoch(stored, id) ==> ListsEpoch(sent, id))
            && (forall id :: ListsEpoch(stored, id) && "currentEpoch" in sent && sent["currentEpoch"] == JString(id) ==>
                  "currentEpoch" in stored && stored["currentEpoch"] == JString(id))
            && (forall v :: HasNumber(stored, "version", v) ==> exists w :: HasNumber(sent, "version", w) && v <= w)
  {
    DescriptorIsRead(stored);
    DescriptorIsRead(sent);
    var d, e := DescriptorOf(stored), DescriptorOf(sent);
    assert forall id :: id in Ids(d) <==> ListsEpoch(stored, id);
    assert forall id :: id in Ids(e) <==> ListsEpoch(sent, id);
    CurrentStaysOrIsNew(stored, sent);
    VersionKeptIff(stored, sent);
  }

  lemma CurrentStaysOrIsNew(stored: Object, sent: Object)
    requires WellFormed(stored) && WellFormed(sent)
    ensures var d, e := DescriptorOf(stored), DescriptorOf(sent);
            EpochsKept(d, e) <==>
              && Ids(d) <= Ids(e)
              && (forall id :: id in Ids(d) && "currentEpoch" in sent && sent["currentEpoch"] == JString(id) ==>
                    "currentEpoch" in stored && stored["currentEpoch"] == JString(id))
  {
    DescriptorIsRead(stored);
    DescriptorIsRead(sent);
    var d, e := DescriptorOf(stored), DescriptorOf(sent);
    forall id | id in Ids(d)
      ensures (e.currentEpoch == Some(id) <==> "currentEpoch" in sent && sent["currentEpoch"] == JString(id))
      ensures (d.currentEpoch == Some(id) <==> "currentEpoch" in stored && stored["currentEpoch"] == JString(id))
    {
      assert Listed(stored["epochs"].elements, id) && id != "";
    }
  }

  lemma VersionKeptIff(stored: Object, sent: Object)
    ensures VersionKept(DescriptorOf(stored), DescriptorOf(sent)) <==>
            forall v :: HasNumber(stored, "version", v) ==> exists w :: HasNumber(sent, "version", w) && v <= w
  {
    DescriptorIsRead(stored);
    DescriptorIsRead(sent);
    var d, e := DescriptorOf(stored), DescriptorOf(sent);
    assert forall v :: HasNumber(stored, "version", v) <==> d.version == Some(v);
    assert forall w :: HasNumber(sent, "version", w) <==> e.version == Some(w);
    if d.version.Some? && e.version.Some? {
      assert HasNumber(stored, "version", d.version.value) && HasNumber(sent, "version", e.version.value);
    }
  }
}
