/** The curator's proposal as the host sees it (packages/domain/schemas/staging.py). */
module Curator {
  import opened Basics

  type Raw = nat
  type Statement = nat

  /** A claim operation. `statement` is None when blank; `reverifies` marks an operation with an existing claim
      id; `undated` a temporal fact without a reference date; `gated` a type the period gate looks at. */
  datatype Claim = Claim(gated: bool, statement: Option<Statement>, reverifies: bool, undated: bool)

  datatype Link = Link(claim: int, evidence: int, supports: bool)

  /** Fragment and page text of a source assertion, each of them possibly missing. */
  datatype Texts = Texts(fragment: Option<Raw>, page: Option<Raw>)

  datatype Proposal = Proposal(claims: seq<Claim>, links: seq<Link>)

  /** What a gate reads of an operation: of a re-verification, the target's statement when there is one. */
  function Subject(c: Claim, i: nat, overrides: map<nat, Option<Statement>>): Option<Statement> {
    if c.reverifies && i in overrides && overrides[i].Some? then overrides[i] else c.statement
  }
}
