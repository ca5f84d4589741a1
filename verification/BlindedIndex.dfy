/**
 Blinded indexes of encrypted documents: the attribute terms a document carries, the query match over
 joined `name:value` terms, and the uniqueness claims over (hmac id, name, value) triples.
 */
module BlindedIndex {
  import opened Wrappers
  import opened EqualityIndex
  import opened JsonValues

  // ---------- reading a document ----------

  function Member(j: Json, name: string): Option<Json> {
    if j.JObject? && name in j.members then Some(j.members[name]) else None
  }

  function StringMember(j: Json, name: string): Option<string> {
    var m := Member(j, name);
    if m.Some? && m.value.JString? then Some(m.value.s) else None
  }

  function ArrayMember(j: Json, name: string): Option<seq<Json>> {
    var m := Member(j, name);
    if m.Some? && m.value.JArray? then Some(m.value.elements) else None
  }

  /** The `indexed` entries of a document; a document without an `indexed` array has none. */
  function Entries(document: Json): seq<Json> {
    ArrayMember(document, "indexed").GetOr([])
  }

  function Attributes(entry: Json): seq<Json> {
    ArrayMember(entry, "attributes").GetOr([])
  }

  function HmacId(entry: Json): Option<string> {
    var hmac := Member(entry, "hmac");
    if hmac.Some? then StringMember(hmac.value, "id") else None
  }

  predicate InScope(entry: Json, scopedTo: Option<string>) {
    scopedTo.Some? ==> HmacId(entry) == scopedTo
  }

  predicate IsUnique(attribute: Json) {
    Member(attribute, "unique") == Some(JBool(true))
  }

  datatype Triple = Triple(hmacId: string, name: string, value: string)

  /** One attribute's uniqueness claim under its entry's HMAC key. */
  predicate ClaimedBy(entry: Json, attribute: Json, t: Triple) {
    && attribute in Attributes(entry) && IsUnique(attribute)
    && HmacId(entry) == Some(t.hmacId)
    && StringMember(attribute, "name") == Some(t.name) && StringMember(attribute, "value") == Some(t.value)
  }

  /** Whether a document claims a triple: some entry and attribute, marked unique, carries it. */
  ghost predicate ClaimsTriple(document: Json, t: Triple) {
    exists e, a :: e in Entries(document) && ClaimedBy(e, a, t)
  }

  // ---------- uniqueness ----------

  method CollectUniqueBlindedTerms(document: Json) returns (terms: seq<Triple>)
    ensures forall t :: t in terms <==> ClaimsTriple(document, t)
  {
    terms := [];
    var entries := Entries(document);
    for i := 0 to |entries|
      invariant forall t :: t in terms <==> exists k, a :: 0 <= k < i && ClaimedBy(entries[k], a, t)
    {
      var entry := entries[i];
      var hmac := HmacId(entry);
      ghost var before := terms;
      if hmac.Some? {
        var attributes := Attributes(entry);
        for j := 0 to |attributes|
          invariant forall t :: t in terms <==> t in before || exists k :: 0 <= k < j && ClaimedBy(entry, attributes[k], t)
        {
          var name, value := StringMember(attributes[j], "name"), StringMember(attributes[j], "value");
          if IsUnique(attributes[j]) && name.Some? && value.Some? {
            terms := terms + [Triple(hmac.value, name.value, value.value)];
          }
        }
        assert forall t, a :: ClaimedBy(entry, a, t) ==> exists k :: 0 <= k < |attributes| && attributes[k] == a;
      }
    }
    assert forall e :: e in entries ==> exists k :: 0 <= k < |entries| && entries[k] == e;
  }

  datatype Stored = Stored(id: string, document: Json)

  /** Conflicts exactly when another document claims, as unique too, a triple this one claims. */
  method AssertNoUniqueBlindedConflict(document: Json, candidates: seq<Stored>) returns (conflict: bool)
    ensures conflict <==> exists c, t :: c in candidates && ClaimsTriple(c.document, t) && ClaimsTriple(document, t)
  {
    var incoming := CollectUniqueBlindedTerms(document);
    if |incoming| == 0 {
      assert forall t :: ClaimsTriple(document, t) ==> t in incoming;
      return false;
    }
    for i := 0 to |candidates|
      invariant forall k, t :: 0 <= k < i ==> !(ClaimsTriple(candidates[k].document, t) && t in incoming)
    {
      var held := CollectUniqueBlindedTerms(candidates[i].document);
      for j := 0 to |held|
        invariant forall k :: 0 <= k < j ==> held[k] !in incoming
      {
        if held[j] in incoming {
          assert candidates[i] in candidates && ClaimsTriple(candidates[i].document, held[j]);
          return true;
        }
      }
    }
    return false;
  }

  ghost predicate TriplesUnique(stored: seq<Stored>) {
    forall a, b, t :: a in stored && b in stored && a.id != b.id ==>
      !(ClaimsTriple(a.document, t) && ClaimsTriple(b.document, t))
  }

  /** The write-time check keeps the Collection-wide invariant, and refuses nothing that would. */
  lemma {:induction false} BlindedCheckDecidesInvariant(others: seq<Stored>, written: Stored)
    requires TriplesUnique(others) && forall c :: c in others ==> c.id != written.id
    ensures TriplesUnique(others + [written]) <==>
            !exists c, t :: c in others && ClaimsTriple(c.document, t) && ClaimsTriple(written.document, t)
  {
    if c, t :| c in others && ClaimsTriple(c.document, t) && ClaimsTriple(written.document, t) {
      assert c in others + [written] && written in others + [written];
    }
  }

  // ---------- queries over joined terms ----------

  function Join(name: string, value: string): string {
    name + ":" + value
  }

  function NameOf(attribute: Json): Option<string> {
    StringMember(attribute, "name")
  }

  /** The joined term of an attribute whose name and value are both strings. */
  function TermOf(attribute: Json): Option<string> {
    var name, value := NameOf(attribute), StringMember(attribute, "value");
    if name.Some? && value.Some? then Some(Join(name.value, value.value)) else None
  }

  ghost predicate EntryHasName(e: Json, scopedTo: Option<string>, name: string) {
    InScope(e, scopedTo) && exists a :: a in Attributes(e) && NameOf(a) == Some(name)
  }

  ghost predicate EntryHasTerm(e: Json, scopedTo: Option<string>, term: string) {
    InScope(e, scopedTo) && exists a :: a in Attributes(e) && TermOf(a) == Some(term)
  }

  ghost predicate EntryHasPair(e: Json, scopedTo: Option<string>, name: string, value: string) {
    InScope(e, scopedTo) &&
    exists a :: a in Attributes(e) && NameOf(a) == Some(name) && StringMember(a, "value") == Some(value)
  }

  ghost predicate HasName(indexed: seq<Json>, scopedTo: Option<string>, name: string) {
    exists e :: e in indexed && EntryHasName(e, scopedTo, name)
  }

  ghost predicate HasTerm(indexed: seq<Json>, scopedTo: Option<string>, term: string) {
    exists e :: e in indexed && EntryHasTerm(e, scopedTo, term)
  }

  /** An attribute pair present in an entry of the queried scope. */
  ghost predicate HasPair(indexed: seq<Json>, scopedTo: Option<string>, name: string, value: string) {
    exists e :: e in indexed && EntryHasPair(e, scopedTo, name, value)
  }

  ghost predicate NamesOf(attributes: seq<Json>, names: set<string>) {
    && (forall k :: 0 <= k < |attributes| && NameOf(attributes[k]).Some? ==> NameOf(attributes[k]).value in names)
    && (forall n :: n in names ==> exists k :: 0 <= k < |attributes| && NameOf(attributes[k]) == Some(n))
  }

  ghost predicate TermsOf(attributes: seq<Json>, terms: set<string>) {
    && (forall k :: 0 <= k < |attributes| && TermOf(attributes[k]).Some? ==> TermOf(attributes[k]).value in terms)
    && (forall t :: t in terms ==> exists k :: 0 <= k < |attributes| && TermOf(attributes[k]) == Some(t))
  }

  lemma NamesGrow(attributes: seq<Json>, names: set<string>, a: Json)
    requires NamesOf(attributes, names)
    ensures NamesOf(attributes + [a], if NameOf(a).Some? then names + {NameOf(a).value} else names)
  {
    var more := attributes + [a];
    assert more[|attributes|] == a;
    forall n | n in names ensures exists k :: 0 <= k < |more| && NameOf(more[k]) == Some(n) {
      var k :| 0 <= k < |attributes| && NameOf(attributes[k]) == Some(n);
      assert more[k] == attributes[k];
    }
  }

  lemma TermsGrow(attributes: seq<Json>, terms: set<string>, a: Json)
    requires TermsOf(attributes, terms)
    ensures TermsOf(attributes + [a], if TermOf(a).Some? then terms + {TermOf(a).value} else terms)
  {
    var more := attributes + [a];
    assert more[|attributes|] == a;
    forall t | t in terms ensures exists k :: 0 <= k < |more| && TermOf(more[k]) == Some(t) {
      var k :| 0 <= k < |attributes| && TermOf(attributes[k]) == Some(t);
      assert more[k] == attributes[k];
    }
  }

  /** The inner loop of `collectIndexedAttributes`: one entry's names and joined terms. */
  method CollectEntryAttributes(entry: Json) returns (names: set<string>, terms: set<string>)
    ensures forall n :: n in names <==> EntryHasName(entry, None, n)
    ensures forall t :: t in terms <==> EntryHasTerm(entry, None, t)
  {
    names, terms := {}, {};
    var attributes := Attributes(entry);
    for j := 0 to |attributes|
      invariant NamesOf(attributes[..j], names) && TermsOf(attributes[..j], terms)
    {
      assert attributes[..j + 1] == attributes[..j] + [attributes[j]];
      NamesGrow(attributes[..j], names, attributes[j]);
      TermsGrow(attributes[..j], terms, attributes[j]);
      var name, term := NameOf(attributes[j]), TermOf(attributes[j]);
      if name.Some? {
        names := names + {name.value};
        if term.Some? {
          terms := terms + {term.value};
        }
      }
    }
    assert attributes[..|attributes|] == attributes;
  }

  method CollectIndexedAttributes(indexed: seq<Json>, scopedTo: Option<string>)
    returns (names: set<string>, terms: set<string>)
    ensures forall n :: n in names <==> HasName(indexed, scopedTo, n)
    ensures forall t :: t in terms <==> HasTerm(indexed, scopedTo, t)
  {
    names, terms := {}, {};
    for i := 0 to |indexed|
      invariant forall n :: n in names <==> exists k :: 0 <= k < i && EntryHasName(indexed[k], scopedTo, n)
      invariant forall t :: t in terms <==> exists k :: 0 <= k < i && EntryHasTerm(indexed[k], scopedTo, t)
    {
      var entry := indexed[i];
      if InScope(entry, scopedTo) {
        var entryNames, entryTerms := CollectEntryAttributes(entry);
        names, terms := names + entryNames, terms + entryTerms;
      }
    }
    assert forall e :: e in indexed <==> exists k :: 0 <= k < |indexed| && indexed[k] == e;
  }

  /** A joined term is present exactly when some pair that joins to it is. */
  lemma {:induction false} TermsComeFromPairs(indexed: seq<Json>, scopedTo: Option<string>, term: string)
    ensures HasTerm(indexed, scopedTo, term) <==>
            exists n, v :: HasPair(indexed, scopedTo, n, v) && Join(n, v) == term
  {
    if HasTerm(indexed, scopedTo, term) {
      var e :| e in indexed && EntryHasTerm(e, scopedTo, term);
      var a :| a in Attributes(e) && TermOf(a) == Some(term);
      assert EntryHasPair(e, scopedTo, NameOf(a).value, StringMember(a, "value").value);
      assert HasPair(indexed, scopedTo, NameOf(a).value, StringMember(a, "value").value);
    }
    if n, v :| HasPair(indexed, scopedTo, n, v) && Join(n, v) == term {
      var e :| e in indexed && EntryHasPair(e, scopedTo, n, v);
      var a :| a in Attributes(e) && NameOf(a) == Some(n) && StringMember(a, "value") == Some(v);
      assert TermOf(a) == Some(term);
      assert EntryHasTerm(e, scopedTo, term);
    }
  }

  /** Either `equals` (any element, all of its pairs) or `has` (every name). */
  datatype Query =
    | Equals(index: string, elements: seq<map<string, string>>)
    | Has(index: string, names: seq<string>)

  /** What an element of `equals` is documented to ask: all its pairs present under the queried key. */
  ghost predicate ElementHolds(indexed: seq<Json>, index: string, element: map<string, string>) {
    element != map[] && forall n :: n in element ==> HasPair(indexed, Some(index), n, element[n])
  }

  /** What the code asks: all its joined terms present. */
  ghost predicate ElementMatches(indexed: seq<Json>, index: string, element: map<string, string>) {
    element != map[] && forall n :: n in element ==> HasTerm(indexed, Some(index), Join(n, element[n]))
  }

  method MatchesBlindedIndexQuery(document: Json, query: Query) returns (matches: bool)
    ensures var indexed := Entries(document);
            matches <==>
              && (exists n :: HasName(indexed, Some(query.index), n))
              && match query
                 case Equals(_, elements) => exists e :: e in elements && ElementMatches(indexed, query.index, e)
                 case Has(_, names) => forall n :: n in names ==> HasName(indexed, None, n)
  {
    var indexed := Entries(document);
    var scopedNames, scopedTerms := CollectIndexedAttributes(indexed, Some(query.index));
    if scopedNames == {} {
      assert forall n :: HasName(indexed, Some(query.index), n) ==> n in scopedNames;
      return false;
    }
    assert exists n :: n in scopedNames && HasName(indexed, Some(query.index), n);
    match query {
      case Equals(index, elements) =>
        for i := 0 to |elements|
          invariant forall k :: 0 <= k < i ==> !ElementMatches(indexed, index, elements[k])
        {
          var element := elements[i];
          if element != map[] && forall n :: n in element ==> Join(n, element[n]) in scopedTerms {
            assert ElementMatches(indexed, index, element);
            return true;
          }
        }
        return false;
      case Has(_, names) =>
        var allNames, _ := CollectIndexedAttributes(indexed, None);
        return forall n :: n in names ==> n in allNames;
    }
  }

  // ---------- when the joined form is exact ----------

  lemma FirstColon(s: string) returns (i: nat)
    requires ':' in s
    ensures i < |s| && s == s[..i] + ":" + s[i + 1..]
  {
    i :| 0 <= i < |s| && s[i] == ':';
  }

  lemma ColonFreeJoinIsExact(n: string, v: string, n': string, v': string)
    requires ':' !in n && ':' !in v && Join(n', v') == Join(n, v)
    ensures n' == n && v' == v
  {
    var s := Join(n, v);
    assert s[|n'|] == ':' by { assert Join(n', v')[|n'|] == ':'; }
    assert forall i :: 0 <= i < |s| && s[i] == ':' ==> i == |n| by {
      assert forall i :: 0 <= i < |n| ==> s[i] == n[i];
      assert forall i :: |n| < i < |s| ==> s[i] == v[i - |n| - 1];
    }
    assert s[..|n|] == n && s[|n| + 1..] == v;
    assert Join(n', v')[..|n'|] == n' && Join(n', v')[|n'| + 1..] == v';
  }

  /** A pair with a colon in its name or value collides with a different pair. */
  lemma ColonCollides(n: string, v: string) returns (n': string, v': string)
    requires ':' in n || ':' in v
    ensures Join(n', v') == Join(n, v) && (n' != n || v' != v)
  {
    if ':' in n {
      var i := FirstColon(n);
      n', v' := n[..i], n[i + 1..] + ":" + v;
      assert |v'| > |v|;
    } else {
      var i := FirstColon(v);
      n', v' := n + ":" + v[..i], v[i + 1..];
      assert |n'| > |n|;
      assert Join(n', v') == n + ":" + (v[..i] + ":" + v[i + 1..]);
    }
  }

  // ---------- documents with given pairs ----------

  function PairObject(n: string, v: string): Json {
    JObject(map["name" := JString(n), "value" := JString(v)])
  }

  function DocumentOf(index: string, pairs: seq<(string, string)>): Json {
    JObject(map["indexed" := JArray([JObject(map[
      "hmac" := JObject(map["id" := JString(index)]),
      "attributes" := JArray(seq(|pairs|, i requires 0 <= i < |pairs| => PairObject(pairs[i].0, pairs[i].1)))])])])
  }

  lemma EntryOfDocument(index: string, pairs: seq<(string, string)>) returns (entry: Json)
    ensures Entries(DocumentOf(index, pairs)) == [entry] && HmacId(entry) == Some(index)
    ensures Attributes(entry) == seq(|pairs|, i requires 0 <= i < |pairs| => PairObject(pairs[i].0, pairs[i].1))
  {
    entry := Entries(DocumentOf(index, pairs))[0];
  }

  lemma DocumentHas(index: string, pairs: seq<(string, string)>, n: string, v: string)
    ensures HasPair(Entries(DocumentOf(index, pairs)), Some(index), n, v) <==> (n, v) in pairs
  {
    var entry := EntryOfDocument(index, pairs);
    var attributes := Attributes(entry);
    if (n, v) in pairs {
      var i :| 0 <= i < |pairs| && pairs[i] == (n, v);
      assert attributes[i] in attributes && NameOf(attributes[i]) == Some(n) && StringMember(attributes[i], "value") == Some(v);
      assert entry in [entry] && EntryHasPair(entry, Some(index), n, v);
    }
    if HasPair([entry], Some(index), n, v) {
      var a :| a in attributes && NameOf(a) == Some(n) && StringMember(a, "value") == Some(v);
      var i :| 0 <= i < |pairs| && attributes[i] == a;
      assert pairs[i] == (n, v);
    }
  }

  /** Any pairs at all, as a sequence. */
  lemma {:induction false} PairsListed(element: map<string, string>) returns (pairs: seq<(string, string)>)
    ensures forall n, v :: (n, v) in pairs <==> n in element && element[n] == v
  {
    if element == map[] {
      pairs := [];
    } else {
      var k :| k in element;
      var rest := PairsListed(element - {k});
      pairs := rest + [(k, element[k])];
    }
  }

  predicate ColonFree(element: map<string, string>) {
    forall n :: n in element ==> ':' !in n && ':' !in element[n]
  }

  lemma PairIffTerm(indexed: seq<Json>, index: string, n: string, v: string)
    requires ':' !in n && ':' !in v
    ensures HasTerm(indexed, Some(index), Join(n, v)) <==> HasPair(indexed, Some(index), n, v)
  {
    TermsComeFromPairs(indexed, Some(index), Join(n, v));
    forall n', v' | HasPair(indexed, Some(index), n', v') && Join(n', v') == Join(n, v) ensures n' == n && v' == v {
      ColonFreeJoinIsExact(n, v, n', v');
    }
  }

  lemma ColonFreeIsExact(index: string, element: map<string, string>, document: Json)
    requires ColonFree(element)
    ensures ElementMatches(Entries(document), index, element) <==> ElementHolds(Entries(document), index, element)
  {
    forall n | n in element
      ensures HasTerm(Entries(document), Some(index), Join(n, element[n])) <==> HasPair(Entries(document), Some(index), n, element[n])
    {
      PairIffTerm(Entries(document), index, n, element[n]);
    }
  }

  /** A document that holds every other pair of the element, and for one with a colon a pair that joins to the same
      term: it matches without holding the element. */
  lemma ColonIsNotExact(index: string, element: map<string, string>) returns (document: Json)
    requires !ColonFree(element)
    ensures ElementMatches(Entries(document), index, element) && !ElementHolds(Entries(document), index, element)
  {
    var n :| n in element && (':' in n || ':' in element[n]);
    var n', v' := ColonCollides(n, element[n]);
    var others := PairsListed(element - {n});
    var pairs := others + [(n', v')];
    document := DocumentOf(index, pairs);
    DocumentHas(index, pairs, n, element[n]);
    forall m | m in element ensures HasTerm(Entries(document), Some(index), Join(m, element[m])) {
      if m == n {
        DocumentHas(index, pairs, n', v');
        assert (n', v') in pairs;
        TermsComeFromPairs(Entries(document), Some(index), Join(n', v'));
      } else {
        DocumentHas(index, pairs, m, element[m]);
        assert (m, element[m]) in others;
        TermsComeFromPairs(Entries(document), Some(index), Join(m, element[m]));
      }
    }
    assert (n, element[n]) !in others;
  }

  /** The documented meaning of an element of `equals` and the joined-term test agree on every document exactly when
      no name and no value in it contains a colon. */
  lemma JoinedMatchExactIffColonFree(index: string, element: map<string, string>)
    ensures (forall document: Json :: ElementMatches(Entries(document), index, element) <==> ElementHolds(Entries(document), index, element))
            <==> ColonFree(element)
  {
    if ColonFree(element) {
      forall document: Json
        ensures ElementMatches(Entries(document), index, element) <==> ElementHolds(Entries(document), index, element)
      {
        ColonFreeIsExact(index, element, document);
      }
    } else {
      var document := ColonIsNotExact(index, element);
    }
  }

  // ---------- where in a document the attributes are ----------

  /** An entry under the HMAC key, and an attribute of it with the given name and value. */
  ghost predicate AttributeOf(entry: Json, hmacId: Option<string>, attribute: map<string, Json>) {
    match entry
    case JObject(members) =>
      && "attributes" in members && members["attributes"].JArray? && JObject(attribute) in members["attributes"].elements
      && (hmacId.Some? ==>
            "hmac" in members && members["hmac"].JObject? && "id" in members["hmac"].members &&
            members["hmac"].members["id"] == JString(hmacId.value))
    case _ => false
  }

  ghost predicate Indexed(document: Json, entry: Json) {
    match document
    case JObject(members) => "indexed" in members && members["indexed"].JArray? && entry in members["indexed"].elements
    case _ => false
  }

  lemma MembersOfEntry(entry: Json, hmacId: Option<string>, a: Json)
    ensures a in Attributes(entry) && InScope(entry, hmacId) && a.JObject? <==> a.JObject? && AttributeOf(entry, hmacId, a.members)
  {
  }

  lemma EntriesAreIndexed(document: Json, entry: Json)
    ensures entry in Entries(document) <==> Indexed(document, entry)
  {
  }

  predicate Named(attribute: map<string, Json>, name: string) {
    "name" in attribute && attribute["name"] == JString(name)
  }

  predicate Valued(attribute: map<string, Json>, value: string) {
    "value" in attribute && attribute["value"] == JString(value)
  }

  predicate Marked(attribute: map<string, Json>) {
    "unique" in attribute && attribute["unique"] == JBool(true)
  }

  ghost predicate Bears(document: Json, hmacId: Option<string>, attribute: map<string, Json>) {
    exists entry :: Indexed(document, entry) && AttributeOf(entry, hmacId, attribute)
  }

  lemma BearsIff(document: Json, hmacId: Option<string>, attribute: map<string, Json>)
    ensures Bears(document, hmacId, attribute) <==>
            exists e :: e in Entries(document) && InScope(e, hmacId) && JObject(attribute) in Attributes(e)
  {
    forall e ensures e in Entries(document) && InScope(e, hmacId) && JObject(attribute) in Attributes(e) <==>
                     Indexed(document, e) && AttributeOf(e, hmacId, attribute)
    {
      EntriesAreIndexed(document, e);
      MembersOfEntry(e, hmacId, JObject(attribute));
    }
  }

  /** A claim is an attribute with `unique` true and a string name and value, in an entry of `indexed` whose key has the
      given string id. */
  lemma ClaimsTripleIff(document: Json, t: Triple)
    ensures ClaimsTriple(document, t) <==>
            exists a :: Bears(document, Some(t.hmacId), a) && Marked(a) && Named(a, t.name) && Valued(a, t.value)
  {
    if ClaimsTriple(document, t) {
      var e, a :| e in Entries(document) && ClaimedBy(e, a, t);
      BearsIff(document, Some(t.hmacId), a.members);
    }
    if a :| Bears(document, Some(t.hmacId), a) && Marked(a) && Named(a, t.name) && Valued(a, t.value) {
      BearsIff(document, Some(t.hmacId), a);
      var e :| e in Entries(document) && InScope(e, Some(t.hmacId)) && JObject(a) in Attributes(e);
      assert ClaimedBy(e, JObject(a), t);
    }
  }

  /** A pair is held under a key by an attribute in an entry of that key, and under no key in particular by one of any. */
  lemma HasPairIff(document: Json, scopedTo: Option<string>, name: string, value: string)
    ensures HasPair(Entries(document), scopedTo, name, value) <==>
            exists a :: Bears(document, scopedTo, a) && Named(a, name) && Valued(a, value)
  {
    if HasPair(Entries(document), scopedTo, name, value) {
      var e :| e in Entries(document) && EntryHasPair(e, scopedTo, name, value);
      var a :| a in Attributes(e) && NameOf(a) == Some(name) && StringMember(a, "value") == Some(value);
      BearsIff(document, scopedTo, a.members);
    }
    if a :| Bears(document, scopedTo, a) && Named(a, name) && Valued(a, value) {
      BornePairIsHeld(document, scopedTo, a, name, value);
    }
  }

  lemma BornePairIsHeld(document: Json, scopedTo: Option<string>, a: map<string, Json>, name: string, value: string)
    requires Bears(document, scopedTo, a) && Named(a, name) && Valued(a, value)
    ensures HasPair(Entries(document), scopedTo, name, value)
  {
    BearsIff(document, scopedTo, a);
    var e :| e in Entries(document) && InScope(e, scopedTo) && JObject(a) in Attributes(e);
    assert EntryHasPair(e, scopedTo, name, value);
  }

  lemma HasNameIff(document: Json, scopedTo: Option<string>, name: string)
    ensures HasName(Entries(document), scopedTo, name) <==> exists a :: Bears(document, scopedTo, a) && Named(a, name)
  {
    if HasName(Entries(document), scopedTo, name) {
      var e :| e in Entries(document) && EntryHasName(e, scopedTo, name);
      var a :| a in Attributes(e) && NameOf(a) == Some(name);
      BearsIff(document, scopedTo, a.members);
    }
    if a :| Bears(document, scopedTo, a) && Named(a, name) {
      BearsIff(document, scopedTo, a);
      var e :| e in Entries(document) && InScope(e, scopedTo) && JObject(a) in Attributes(e);
      assert EntryHasName(e, scopedTo, name);
    }
  }
}
