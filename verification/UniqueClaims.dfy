/**
 What a Resource claims for itself under a uniqueness rule: equality terms under unique declarations, or blinded
 triples marked unique. The rules of both kinds are enforced the same way, so the runs take the claims as a parameter.
 */
module UniqueClaims {
  import B = BlindedIndex
  import opened EqualityIndex
  import opened JsonValues
  import opened Wrappers

  /** What content and metadata claim together; nothing that neither side claims alone. */
  type Claiming<!T> = (Option<Json>, Option<Json>) -> iset<T>

  ghost predicate Additive<T(!new)>(claims: Claiming<T>) {
    && claims(None, None) == iset{}
    && forall content, custom :: claims(content, custom) == claims(content, None) + claims(None, custom)
  }

  /** A claim is made by the content or by the metadata. */
  lemma ClaimsAdd<T(!new)>(claims: Claiming<T>, content: Option<Json>, custom: Option<Json>)
    requires Additive(claims)
    ensures claims(content, custom) == claims(content, None) + claims(None, custom) && claims(None, None) == iset{}
  {
  }

  // ---------- the two kinds of claims ----------

  ghost function EqualityClaims(indexes: seq<Declaration>): Claiming<Term> {
    (content, custom) => iset t | t in Claims(indexes, content, custom)
  }

  /** Triples marked unique in the content; metadata claims none. */
  ghost function BlindedClaims(): Claiming<B.Triple> {
    (content: Option<Json>, custom: Option<Json>) => iset t | content.Some? && B.ClaimsTriple(content.value, t)
  }

  lemma EqualityClaimsAreAdditive(indexes: seq<Declaration>)
    ensures Additive(EqualityClaims(indexes))
  {
    forall content, custom
      ensures EqualityClaims(indexes)(content, custom) == EqualityClaims(indexes)(content, None) + EqualityClaims(indexes)(None, custom)
    {
      ClaimsSplit(indexes, content, custom);
    }
    ClaimsSplit(indexes, None, None);
  }
}
