/**
 Plaintext equality indexes: which (name, value) claims a Resource makes under a Collection's declared
 indexes, the write-time conflict check, and the declare-time violation scan.
 */
module EqualityIndex {
  import opened JsonValues
  import opened Wrappers

  datatype Source = Content | Custom

  datatype Declaration = Declaration(name: string, source: Source, unique: bool)

  /** A live Resource as the scans see it: JSON content if any, custom metadata if any. */
  datatype Candidate = Candidate(id: string, content: Option<Json>, custom: Option<Json>)

  /** A claim; the source keys its sets by the JSON text of the pair, which is injective. */
  datatype Term = Term(name: string, value: Json)

  predicate Indexable(j: Json) {
    j.JBool? || j.JNumber? || j.JString?
  }

  predicate NamesUnique(indexes: seq<Declaration>) {
    forall i, j :: 0 <= i < j < |indexes| ==> indexes[i].name != indexes[j].name
  }

  /** The member a declaration reads: its own source only, and only when that is a plain object. */
  function MemberOf(d: Declaration, content: Option<Json>, custom: Option<Json>): Option<Json> {
    var source := if d.source == Custom then custom else content;
    if source.Some? && source.value.JObject? && d.name in source.value.members
    then Some(source.value.members[d.name]) else None
  }

  /** What a Resource is indexed under for one declaration: an indexable member, or each indexable
      element of an array member. */
  function ValuesOf(d: Declaration, content: Option<Json>, custom: Option<Json>): set<Json> {
    var member := MemberOf(d, content, custom);
    if member.None? then {}
    else if member.value.JArray? then set v | v in member.value.elements && Indexable(v)
    else if Indexable(member.value) then {member.value}
    else {}
  }

  /** The claims of a Resource: its values under the unique declarations. */
  function Claims(indexes: seq<Declaration>, content: Option<Json>, custom: Option<Json>): set<Term> {
    set d, v | d in indexes && d.unique && v in ValuesOf(d, content, custom) :: Term(d.name, v)
  }

  function ClaimsOf(indexes: seq<Declaration>, c: Candidate): set<Term> {
    Claims(indexes, c.content, c.custom)
  }

  // ---------- extraction ----------

  method ExtractEqualityAttributes(indexes: seq<Declaration>, content: Option<Json>, custom: Option<Json>)
    returns (extracted: map<string, seq<Json>>)
    requires NamesUnique(indexes)
    ensures forall d, v :: d in indexes ==>
              (d.name in extracted && v in extracted[d.name] <==> v in ValuesOf(d, content, custom))
    ensures forall name :: name in extracted ==> extracted[name] != [] && exists d :: d in indexes && d.name == name
  {
    extracted := map[];
    for i := 0 to |indexes|
      invariant forall k, v :: 0 <= k < i ==>
                  (indexes[k].name in extracted && v in extracted[indexes[k].name]
                   <==> v in ValuesOf(indexes[k], content, custom))
      invariant forall name :: name in extracted ==>
                  extracted[name] != [] && exists k :: 0 <= k < i && indexes[k].name == name
    {
      var d := indexes[i];
      var member := MemberOf(d, content, custom);
      var values: seq<Json> := [];
      if member.Some? {
        if member.value.JArray? {
          var elements := member.value.elements;
          for j := 0 to |elements|
            invariant forall v :: v in values <==> v in elements[..j] && Indexable(v)
          {
            if Indexable(elements[j]) {
              values := values + [elements[j]];
            }
          }
        } else if Indexable(member.value) {
          values := [member.value];
        }
      }
      assert forall v :: v in values <==> v in ValuesOf(d, content, custom);
      if values != [] {
        extracted := extracted[d.name := values];
      }
    }
  }

  method UniqueIndexesOf(indexes: seq<Declaration>) returns (unique: seq<Declaration>)
    ensures forall d :: d in unique <==> d in indexes && d.unique
    ensures NamesUnique(indexes) ==> NamesUnique(unique)
  {
    unique := [];
    for i := 0 to |indexes|
      invariant forall d :: d in unique <==> d in indexes[..i] && d.unique
      invariant NamesUnique(indexes) ==> NamesUnique(unique)
    {
      if indexes[i].unique {
        unique := unique + [indexes[i]];
      }
    }
  }

  method CollectUniqueEqualityTerms(indexes: seq<Declaration>, content: Option<Json>, custom: Option<Json>)
    returns (terms: seq<Term>)
    requires NamesUnique(indexes)
    ensures forall t :: t in terms <==> t in Claims(indexes, content, custom)
  {
    terms := [];
    var unique := UniqueIndexesOf(indexes);
    if |unique| == 0 {
      assert forall d :: d in indexes && d.unique ==> d in unique;
      return;
    }
    var extracted := ExtractEqualityAttributes(unique, content, custom);
    var names := extracted.Keys;
    while names != {}
      invariant names <= extracted.Keys
      invariant forall t :: t in terms <==>
                  t.name in extracted && t.name !in names && t.value in extracted[t.name]
      decreases |names|
    {
      var name :| name in names;
      var values := extracted[name];
      ghost var before := terms;
      for j := 0 to |values|
        invariant forall t :: t in terms <==> t in before || (t.name == name && t.value in values[..j])
      {
        terms := terms + [Term(name, values[j])];
      }
      names := names - {name};
    }
    ClaimsFromExtraction(indexes, unique, content, custom, extracted, terms);
  }

  lemma ClaimsFromExtraction(indexes: seq<Declaration>, unique: seq<Declaration>, content: Option<Json>,
                             custom: Option<Json>, extracted: map<string, seq<Json>>, terms: seq<Term>)
    requires forall d :: d in unique <==> d in indexes && d.unique
    requires forall d, v :: d in unique ==>
               (d.name in extracted && v in extracted[d.name] <==> v in ValuesOf(d, content, custom))
    requires forall name :: name in extracted ==> exists d :: d in unique && d.name == name
    requires forall t :: t in terms <==> t.name in extracted && t.value in extracted[t.name]
    ensures forall t :: t in terms <==> t in Claims(indexes, content, custom)
  {
    forall t | t in terms ensures t in Claims(indexes, content, custom) {
      var d :| d in unique && d.name == t.name;
      assert t.value in ValuesOf(d, content, custom);
      assert t == Term(d.name, t.value);
    }
    forall t | t in Claims(indexes, content, custom) ensures t in terms {
      var d, v :| d in indexes && d.unique && v in ValuesOf(d, content, custom) && t == Term(d.name, v);
      assert d in unique;
    }
  }

  // ---------- the write-time check ----------

  /** Conflicts exactly when another live Resource holds one of the incoming claims. */
  method AssertNoUniqueEqualityConflict(indexes: seq<Declaration>, content: Option<Json>, custom: Option<Json>,
                                        candidates: seq<Candidate>)
    returns (conflict: bool)
    requires NamesUnique(indexes)
    ensures conflict <==> exists c :: c in candidates && !(ClaimsOf(indexes, c) !! Claims(indexes, content, custom))
  {
    var incoming := CollectUniqueEqualityTerms(indexes, content, custom);
    var claimed := set t | t in incoming;
    if |incoming| == 0 {
      assert claimed == {};
      return false;
    }
    for i := 0 to |candidates|
      invariant forall c :: c in candidates[..i] ==> ClaimsOf(indexes, c) !! claimed
    {
      var held := CollectUniqueEqualityTerms(indexes, candidates[i].content, candidates[i].custom);
      for j := 0 to |held|
        invariant forall t :: t in held[..j] ==> t !in claimed
      {
        if held[j] in claimed {
          assert candidates[i] in candidates && held[j] in ClaimsOf(indexes, candidates[i]);
          return true;
        }
      }
      assert forall t :: t in ClaimsOf(indexes, candidates[i]) ==> t in held;
    }
    return false;
  }

  // ---------- the Collection-wide invariant ----------

  /** No two different Resources share a claim. */
  ghost predicate UniqueAcross(indexes: seq<Declaration>, candidates: seq<Candidate>) {
    forall a, b :: a in candidates && b in candidates && a.id != b.id ==> ClaimsOf(indexes, a) !! ClaimsOf(indexes, b)
  }

  /** The declare-time scan: `None` exactly when no two different Resources share a claim; otherwise a
      claim really held by two of them. */
  method FindEqualityUniqueViolation(indexes: seq<Declaration>, candidates: seq<Candidate>)
    returns (violation: Option<Term>)
    requires NamesUnique(indexes)
    ensures violation.None? <==> UniqueAcross(indexes, candidates)
    ensures violation.Some? ==>
              exists a, b :: a in candidates && b in candidates && a.id != b.id &&
                             violation.value in ClaimsOf(indexes, a) && violation.value in ClaimsOf(indexes, b)
  {
    var holders: map<Term, string> := map[];
    ghost var claimed := ClaimedBy(indexes, candidates);
    for i := 0 to |candidates|
      invariant HoldersOk(claimed[..i], holders)
    {
      var candidate := candidates[i];
      var held := CollectUniqueEqualityTerms(indexes, candidate.content, candidate.custom);
      var recorded, clash := RecordClaims(holders, held, candidate.id);
      if clash.Some? {
        RealConflict(claimed, i, holders, clash.value);
        SharedIsReal(indexes, candidates, clash.value);
        return clash;
      }
      assert claimed[..i + 1] == claimed[..i] + [claimed[i]];
      HoldersExtend(claimed[..i], holders, claimed[i], recorded);
      holders := recorded;
    }
    assert claimed[..|candidates|] == claimed;
    NothingShared(indexes, candidates, holders);
    return None;
  }

  /** The inner loop of the scan: record one Resource's claims, stopping at one another already holds. */
  method RecordClaims(before: map<Term, string>, held: seq<Term>, id: string)
    returns (holders: map<Term, string>, clash: Option<Term>)
    ensures clash.Some? ==> clash.value in held && clash.value in before && before[clash.value] != id
    ensures clash.None? ==> forall t :: t in holders <==> t in before || t in held
    ensures clash.None? ==> forall t :: t in holders ==> holders[t] == if t in held then id else before[t]
    ensures clash.None? ==> forall t :: t in held && t in before ==> before[t] == id
  {
    holders := before;
    for j := 0 to |held|
      invariant forall t :: t in holders <==> t in before || t in held[..j]
      invariant forall t :: t in holders ==> holders[t] == if t in held[..j] then id else before[t]
      invariant forall t :: t in held[..j] && t in before ==> before[t] == id
    {
      var term := held[j];
      if term in holders && holders[term] != id {
        return holders, Some(term);
      }
      holders := holders[term := id];
    }
    return holders, None;
  }

  lemma NothingShared(indexes: seq<Declaration>, candidates: seq<Candidate>, holders: map<Term, string>)
    requires HoldersOk(ClaimedBy(indexes, candidates), holders)
    ensures UniqueAcross(indexes, candidates)
  {
    var claimed := ClaimedBy(indexes, candidates);
    forall a, b | a in candidates && b in candidates && a.id != b.id
      ensures ClaimsOf(indexes, a) !! ClaimsOf(indexes, b)
    {
      var k :| 0 <= k < |candidates| && candidates[k] == a;
      var l :| 0 <= l < |candidates| && candidates[l] == b;
      assert claimed[k].id == a.id && claimed[l].id == b.id;
      forall t | t in claimed[k].claims ensures t !in claimed[l].claims {
        assert holders[t] == a.id;
      }
    }
  }

  /** A Resource id with the claims it makes. */
  datatype Claimed = Claimed(id: string, claims: set<Term>)

  function ClaimedBy(indexes: seq<Declaration>, candidates: seq<Candidate>): (r: seq<Claimed>)
    ensures |r| == |candidates|
    ensures forall i :: 0 <= i < |r| ==> r[i] == Claimed(candidates[i].id, ClaimsOf(indexes, candidates[i]))
  {
    seq(|candidates|, i requires 0 <= i < |candidates| => Claimed(candidates[i].id, ClaimsOf(indexes, candidates[i])))
  }

  /** `holders` maps every claim seen so far to the one id that holds it. */
  ghost predicate HoldersOk(seen: seq<Claimed>, holders: map<Term, string>) {
    && (forall k, t :: 0 <= k < |seen| && t in seen[k].claims ==> t in holders && holders[t] == seen[k].id)
    && (forall t :: t in holders ==> exists k :: 0 <= k < |seen| && seen[k].id == holders[t] && t in seen[k].claims)
  }

  lemma HoldersExtend(seen: seq<Claimed>, before: map<Term, string>, c: Claimed, holders: map<Term, string>)
    requires HoldersOk(seen, before)
    requires forall t :: t in holders <==> t in before || t in c.claims
    requires forall t :: t in holders ==> holders[t] == if t in c.claims then c.id else before[t]
    requires forall t :: t in c.claims && t in before ==> before[t] == c.id
    ensures HoldersOk(seen + [c], holders)
  {
    var more := seen + [c];
    assert more[|seen|] == c;
    forall t | t in holders ensures exists k :: 0 <= k < |more| && more[k].id == holders[t] && t in more[k].claims {
      if t !in c.claims {
        var k :| 0 <= k < |seen| && seen[k].id == before[t] && t in seen[k].claims;
        assert more[k] == seen[k];
      }
    }
  }

  ghost predicate Shared(claimed: seq<Claimed>, t: Term) {
    exists k, l :: 0 <= k < |claimed| && 0 <= l < |claimed| && claimed[k].id != claimed[l].id &&
                   t in claimed[k].claims && t in claimed[l].claims
  }

  lemma RealConflict(claimed: seq<Claimed>, i: nat, before: map<Term, string>, t: Term)
    requires i < |claimed| && HoldersOk(claimed[..i], before)
    requires t in before && before[t] != claimed[i].id && t in claimed[i].claims
    ensures Shared(claimed, t)
  {
    var k :| 0 <= k < i && claimed[..i][k].id == before[t] && t in claimed[..i][k].claims;
    assert claimed[..i][k] == claimed[k];
  }

  lemma SharedIsReal(indexes: seq<Declaration>, candidates: seq<Candidate>, t: Term)
    requires Shared(ClaimedBy(indexes, candidates), t)
    ensures exists a, b :: a in candidates && b in candidates && a.id != b.id &&
                           t in ClaimsOf(indexes, a) && t in ClaimsOf(indexes, b)
    ensures !UniqueAcross(indexes, candidates)
  {
    var claimed := ClaimedBy(indexes, candidates);
    var k, l :| 0 <= k < |claimed| && 0 <= l < |claimed| && claimed[k].id != claimed[l].id &&
                t in claimed[k].claims && t in claimed[l].claims;
    assert candidates[k] in candidates && candidates[l] in candidates;
  }

  /** The scan establishes what the check preserves: from a Collection with no shared claim, replacing or
      adding one Resource keeps it so exactly when the check against the others finds no conflict. */
  lemma {:induction false} CheckDecidesInvariant(indexes: seq<Declaration>, others: seq<Candidate>, written: Candidate)
    requires UniqueAcross(indexes, others) && forall c :: c in others ==> c.id != written.id
    ensures UniqueAcross(indexes, others + [written]) <==>
            !exists c :: c in others && !(ClaimsOf(indexes, c) !! ClaimsOf(indexes, written))
  {
    if exists c :: c in others && !(ClaimsOf(indexes, c) !! ClaimsOf(indexes, written)) {
      var c :| c in others && !(ClaimsOf(indexes, c) !! ClaimsOf(indexes, written));
      assert c in others + [written] && written in others + [written];
    }
  }

  lemma ValuesSplit(d: Declaration, content: Option<Json>, custom: Option<Json>)
    ensures ValuesOf(d, content, custom) == if d.source == Custom then ValuesOf(d, None, custom) else ValuesOf(d, content, None)
    ensures d.source == Custom ==> ValuesOf(d, content, None) == {}
    ensures d.source == Content ==> ValuesOf(d, None, custom) == {}
  {
  }

  /** Content-sourced and custom-sourced claims are separate: a Resource never makes a claim that neither
      side makes alone. */
  lemma {:induction false} ClaimsSplit(indexes: seq<Declaration>, content: Option<Json>, custom: Option<Json>)
    ensures Claims(indexes, content, custom) == Claims(indexes, content, None) + Claims(indexes, None, custom)
  {
    forall d ensures forall v :: v in ValuesOf(d, content, custom) <==>
                       v in ValuesOf(d, content, None) || v in ValuesOf(d, None, custom)
    {
      ValuesSplit(d, content, custom);
    }
  }

  // ---------- which members claim ----------

  /** The declaration reads the value off its own source: a plain object with the value, or a list that holds it, under
      the declared name. Only strings, numbers and booleans are read. */
  predicate Carries(d: Declaration, content: Option<Json>, custom: Option<Json>, v: Json) {
    match (if d.source == Custom then custom else content)
    case Some(JObject(members)) =>
      && d.name in members && (members[d.name] == v || (members[d.name].JArray? && v in members[d.name].elements))
      && (match v
          case JString(_) => true
          case JNumber(_) => true
          case JBool(_) => true
          case JNull => false
          case JArray(_) => false
          case JObject(_) => false)
    case _ => false
  }

  lemma ValuesAreCarried(d: Declaration, content: Option<Json>, custom: Option<Json>, v: Json)
    ensures v in ValuesOf(d, content, custom) <==> Carries(d, content, custom, v)
  {
  }

  /** A Resource claims exactly what a unique declaration reads off it. */
  lemma ClaimsAreCarried(indexes: seq<Declaration>, content: Option<Json>, custom: Option<Json>, t: Term)
    ensures t in Claims(indexes, content, custom) <==>
            exists d :: d in indexes && d.unique && d.name == t.name && Carries(d, content, custom, t.value)
  {
    if t in Claims(indexes, content, custom) {
      var d, v :| d in indexes && d.unique && v in ValuesOf(d, content, custom) && t == Term(d.name, v);
      ValuesAreCarried(d, content, custom, v);
    }
    if d :| d in indexes && d.unique && d.name == t.name && Carries(d, content, custom, t.value) {
      ValuesAreCarried(d, content, custom, t.value);
      assert t == Term(d.name, t.value);
    }
  }

  /** What is claimed under a unique declaration of an source, by the shape of the member there. */
  lemma MemberClaims(indexes: seq<Declaration>, d: Declaration, members: map<string, Json>, other: Option<Json>)
    requires NamesUnique(indexes) && d in indexes && d.unique && d.name in members
    ensures var source := Some(JObject(members));
            var claims := if d.source == Content then Claims(indexes, source, other) else Claims(indexes, other, source);
            match members[d.name]
            case JString(s) => forall v :: Term(d.name, v) in claims <==> v == JString(s)
            case JNumber(n) => forall v :: Term(d.name, v) in claims <==> v == JNumber(n)
            case JBool(b) => forall v :: Term(d.name, v) in claims <==> v == JBool(b)
            case JNull => forall v :: Term(d.name, v) !in claims
            case JObject(_) => forall v :: Term(d.name, v) !in claims
            case JArray(elements) =>
              && (forall s :: Term(d.name, JString(s)) in claims <==> JString(s) in elements)
              && (forall n :: Term(d.name, JNumber(n)) in claims <==> JNumber(n) in elements)
              && (forall b :: Term(d.name, JBool(b)) in claims <==> JBool(b) in elements)
              && (forall v :: Term(d.name, v) in claims ==> v.JString? || v.JNumber? || v.JBool?)
  {
    var content := if d.source == Content then Some(JObject(members)) else other;
    var custom := if d.source == Content then other else Some(JObject(members));
    forall v ensures Term(d.name, v) in Claims(indexes, content, custom) <==> Carries(d, content, custom, v) {
      ClaimsAreCarried(indexes, content, custom, Term(d.name, v));
    }
  }

  /** A source that is no plain object, or lacks the member, claims nothing under the name. */
  lemma NothingToClaim(indexes: seq<Declaration>, d: Declaration, content: Option<Json>, custom: Option<Json>, v: Json)
    requires NamesUnique(indexes) && d in indexes
    requires var source := if d.source == Content then content else custom;
             source.None? || !source.value.JObject? || d.name !in source.value.members || !d.unique
    ensures Term(d.name, v) !in Claims(indexes, content, custom)
  {
    ClaimsAreCarried(indexes, content, custom, Term(d.name, v));
  }

  /** Two Resources with the same string, number or boolean under a unique declaration share a claim: the write-time
      check finds a conflict with the one for the other, and the scan finds them. */
  lemma SameValueIsShared(indexes: seq<Declaration>, d: Declaration, a: Candidate, b: Candidate, v: Json, candidates: seq<Candidate>)
    requires d in indexes && d.unique && Carries(d, a.content, a.custom, v) && Carries(d, b.content, b.custom, v)
    requires a in candidates && b in candidates && a.id != b.id
    ensures exists c :: c in candidates && c.id != b.id && !(ClaimsOf(indexes, c) !! Claims(indexes, b.content, b.custom))
    ensures !UniqueAcross(indexes, candidates)
  {
    ClaimsAreCarried(indexes, a.content, a.custom, Term(d.name, v));
    ClaimsAreCarried(indexes, b.content, b.custom, Term(d.name, v));
    assert Term(d.name, v) in ClaimsOf(indexes, a) && Term(d.name, v) in ClaimsOf(indexes, b);
  }

  /** So a write that repeats a value another Resource holds is refused. */
  method RepeatedValueIsRefused(indexes: seq<Declaration>, d: Declaration, written: Candidate, others: seq<Candidate>, other: Candidate, v: Json)
    returns (conflict: bool)
    requires NamesUnique(indexes) && d in indexes && d.unique && other in others && other.id != written.id
    requires Carries(d, written.content, written.custom, v) && Carries(d, other.content, other.custom, v)
    ensures conflict
  {
    conflict := AssertNoUniqueEqualityConflict(indexes, written.content, written.custom, others);
    ClaimsAreCarried(indexes, written.content, written.custom, Term(d.name, v));
    ClaimsAreCarried(indexes, other.content, other.custom, Term(d.name, v));
    assert Term(d.name, v) in ClaimsOf(indexes, other);
  }

  /** And a Collection that holds it twice is found out when the declaration is made. */
  method RepeatedValueIsFound(indexes: seq<Declaration>, d: Declaration, candidates: seq<Candidate>, a: Candidate, b: Candidate, v: Json)
    returns (violation: Option<Term>)
    requires NamesUnique(indexes) && d in indexes && d.unique && a in candidates && b in candidates && a.id != b.id
    requires Carries(d, a.content, a.custom, v) && Carries(d, b.content, b.custom, v)
    ensures violation.Some?
  {
    violation := FindEqualityUniqueViolation(indexes, candidates);
    SameValueIsShared(indexes, d, a, b, v, candidates);
  }
}
