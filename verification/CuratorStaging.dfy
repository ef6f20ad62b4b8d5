/** Staging of an accepted proposal: surviving operations are renumbered, their evidence links follow them, and
    the origin of each link's value is decided in two passes (apps/orchestrator/orchestrator.py,
    apps/orchestrator/attribution_keys.py). */
module CuratorStaging {
  import opened Basics
  import opened Curator
  import B = CuratorBoundary
  import R = CuratorRejections

  type Key = nat

  datatype Status = Attributed | NoValueAttribution | ValueNotAttributed | OtherStatus

  /** How the value and the primary were paired: in the fragment, in the publication window, or (third mode)
      through a list of sources and keys already known. */
  datatype Pairing = Strict | Publication | Bibliography | OwnPublication

  datatype Decision = Decision(status: Status, derivative: bool, key: Option<Key>, pairing: Pairing)

  /** `detect` decides a link of evidence and claim given the known keys; `recorded` are the keys recorded with
      the anchor of a re-verification, none for a new claim. */
  datatype Accepted = Accepted(p: Proposal, dropped: set<nat>, removed: set<nat>, evidenceCount: nat,
                               detect: (int, int, set<Key>) -> Option<Decision>, recorded: int -> set<Key>)

  /** The structural gate refuses a proposal with a link out of range. */
  predicate LinksInRange(x: Accepted) {
    forall k :: 0 <= k < |x.p.links| ==>
      0 <= x.p.links[k].claim < |x.p.claims| && 0 <= x.p.links[k].evidence < x.evidenceCount
  }

  // ----- renumbering -----

  /** Surviving operations below `n`, in order. */
  function Active(dropped: set<nat>, n: nat): seq<nat> {
    if n == 0 then [] else Active(dropped, n - 1) + if n - 1 in dropped then [] else [n - 1]
  }

  /** The staged index of an operation: how many survive before it. */
  function Rank(dropped: set<nat>, c: nat): nat { |Active(dropped, c)| }

  lemma {:induction false} RankBelow(dropped: set<nat>, c: nat, n: nat)
    requires c <= n
    ensures Active(dropped, c) <= Active(dropped, n)
  {
    if c < n { RankBelow(dropped, c, n - 1); }
  }

  /** Staging is an order-preserving bijection of the survivors onto 0..m-1. */
  lemma RankIsBijection(dropped: set<nat>, n: nat, c: nat)
    requires c < n && c !in dropped
    ensures Rank(dropped, c) < |Active(dropped, n)| && Active(dropped, n)[Rank(dropped, c)] == c
  {
    RankBelow(dropped, c + 1, n);
    assert Active(dropped, c + 1) == Active(dropped, c) + [c];
  }

  lemma RankKeepsOrder(dropped: set<nat>, b: nat, c: nat)
    requires b < c && b !in dropped
    ensures Rank(dropped, b) < Rank(dropped, c)
  {
    RankBelow(dropped, b + 1, c);
    assert Active(dropped, b + 1) == Active(dropped, b) + [b];
  }

  lemma {:induction false} EveryPlaceIsTaken(dropped: set<nat>, n: nat, j: nat)
    requires j < |Active(dropped, n)|
    ensures var c := Active(dropped, n)[j]; c < n && c !in dropped && Rank(dropped, c) == j
  {
    if n - 1 in dropped || j < |Active(dropped, n - 1)| { EveryPlaceIsTaken(dropped, n - 1, j); }
  }

  /** The operations that survive, in order. */
  function Kept(claims: seq<Claim>, dropped: set<nat>, n: nat): (r: seq<Claim>)
    requires n <= |claims|
    ensures |r| == |Active(dropped, n)|
  {
    if n == 0 then [] else Kept(claims, dropped, n - 1) + if n - 1 in dropped then [] else [claims[n - 1]]
  }

  /** A surviving operation is staged at its rank. */
  lemma {:induction false} KeptAtRank(claims: seq<Claim>, dropped: set<nat>, n: nat, c: nat)
    requires c < n <= |claims| && c !in dropped
    ensures Rank(dropped, c) < |Kept(claims, dropped, n)| && Kept(claims, dropped, n)[Rank(dropped, c)] == claims[c]
  {
    RankIsBijection(dropped, n, c);
    if c < n - 1 {
      KeptAtRank(claims, dropped, n - 1, c);
    }
  }

  // ----- attribution -----

  /** Strict and publication decisions name a producer by the evidence's own text; nothing else gives a key. */
  function KeyOf(d: Option<Decision>): (r: Option<Key>)
    ensures r.Some? <==> d.Some? && d.value.derivative && d.value.key.Some? && d.value.pairing in {Strict, Publication}
    ensures r.Some? ==> d.value.key == r
  {
    if d.None? || !d.value.derivative || d.value.key.None? then None
    else if d.value.pairing == Strict || d.value.pairing == Publication then d.value.key
    else None
  }

  predicate IsStaged(x: Accepted, k: nat) { k < |x.p.links| && x.p.links[k].claim !in x.dropped && k !in x.removed }

  function FirstPass(x: Accepted, k: nat): Option<Decision> {
    if k < |x.p.links| then x.detect(x.p.links[k].evidence, x.p.links[k].claim, {}) else None
  }

  predicate GivesKey(x: Accepted, k: nat, c: int, key: Key) {
    IsStaged(x, k) && x.p.links[k].claim == c && KeyOf(FirstPass(x, k)) == Some(key)
  }

  function KeysUpTo(x: Accepted, c: int, n: nat): set<Key>
    requires n <= |x.p.links|
  {
    if n == 0 then {}
    else
      var key := if IsStaged(x, n - 1) && x.p.links[n - 1].claim == c then KeyOf(FirstPass(x, n - 1)) else None;
      KeysUpTo(x, c, n - 1) + if key.Some? then {key.value} else {}
  }

  /** The keys of a claim are those its staged links give in the first pass. */
  lemma {:induction false} KeysAre(x: Accepted, c: int, n: nat, key: Key)
    requires n <= |x.p.links|
    ensures key in KeysUpTo(x, c, n) <==> exists k: nat :: k < n && GivesKey(x, k, c, key)
  {
    if n > 0 {
      KeysAre(x, c, n - 1, key);
      if GivesKey(x, n - 1, c, key) { assert key in KeysUpTo(x, c, n); }
    }
  }

  function KnownKeys(x: Accepted, c: int): set<Key> { KeysUpTo(x, c, |x.p.links|) + x.recorded(c) }

  /** Decided without keys; only a link left without attribution is decided again, with the claim's keys. */
  function FinalDecision(x: Accepted, k: nat): Option<Decision>
    requires k < |x.p.links|
  {
    var d := FirstPass(x, k);
    if d.Some? && (d.value.status == NoValueAttribution || d.value.status == ValueNotAttributed)
    then x.detect(x.p.links[k].evidence, x.p.links[k].claim, KnownKeys(x, x.p.links[k].claim))
    else d
  }

  /** `there` carries the links of `x` to those of `y` and `back` is its inverse. */
  ghost predicate Permutes(x: Accepted, y: Accepted, there: nat -> nat, back: nat -> nat) {
    && y.p.claims == x.p.claims && y.dropped == x.dropped && y.evidenceCount == x.evidenceCount
    && y.detect == x.detect && y.recorded == x.recorded && |y.p.links| == |x.p.links|
    && (forall k: nat :: k < |x.p.links| ==> there(k) < |y.p.links| && back(there(k)) == k)
    && (forall k: nat :: k < |x.p.links| ==> y.p.links[there(k)] == x.p.links[k])
    && (forall k: nat :: k < |x.p.links| ==> (k in x.removed <==> there(k) in y.removed))
    && (forall k: nat :: k < |y.p.links| ==> back(k) < |x.p.links| && there(back(k)) == k)
  }

  lemma PermutedKeys(x: Accepted, y: Accepted, there: nat -> nat, back: nat -> nat, c: int)
    requires Permutes(x, y, there, back)
    ensures KnownKeys(x, c) == KnownKeys(y, c)
  {
    var n := |x.p.links|;
    forall key: Key ensures key in KeysUpTo(x, c, n) <==> key in KeysUpTo(y, c, n) {
      KeysAre(x, c, n, key);
      KeysAre(y, c, n, key);
      if k: nat :| k < n && GivesKey(x, k, c, key) { assert GivesKey(y, there(k), c, key); }
      if k: nat :| k < n && GivesKey(y, k, c, key) { assert GivesKey(x, back(k), c, key); }
    }
  }

  /** The order of the links changes no decision. */
  lemma DecisionsFollowLinks(x: Accepted, y: Accepted, there: nat -> nat, back: nat -> nat, k: nat)
    requires Permutes(x, y, there, back) && k < |x.p.links|
    ensures FinalDecision(y, there(k)) == FinalDecision(x, k) && (IsStaged(y, there(k)) <==> IsStaged(x, k))
  {
    PermutedKeys(x, y, there, back, x.p.links[k].claim);
  }

  /** No chain of derived keys: what the detector says when it is given keys never becomes a key. */
  lemma NoChains(x: Accepted, y: Accepted, c: int)
    requires y == x.(detect := y.detect)
    requires forall e: int, d: int :: y.detect(e, d, {}) == x.detect(e, d, {})
    ensures KnownKeys(y, c) == KnownKeys(x, c)
  {
    var n := |x.p.links|;
    forall key: Key ensures key in KeysUpTo(x, c, n) <==> key in KeysUpTo(y, c, n) {
      KeysAre(x, c, n, key);
      KeysAre(y, c, n, key);
      assert forall k: nat :: GivesKey(x, k, c, key) <==> GivesKey(y, k, c, key);
    }
  }

  // ----- staging -----

  datatype EvidenceOp = EvidenceOp(evidence: int, claim: nat, supports: bool, decision: Option<Decision>)

  function OpOf(x: Accepted, k: nat): EvidenceOp
    requires k < |x.p.links| && x.p.links[k].claim >= 0
  {
    EvidenceOp(x.p.links[k].evidence, Rank(x.dropped, x.p.links[k].claim), x.p.links[k].supports, FinalDecision(x, k))
  }

  function Ops(x: Accepted, n: nat): seq<EvidenceOp>
    requires LinksInRange(x) && n <= |x.p.links|
  {
    if n == 0 then [] else Ops(x, n - 1) + if IsStaged(x, n - 1) then [OpOf(x, n - 1)] else []
  }

  predicate PointsAt(x: Accepted, staged: nat, claim: int) {
    var active := Active(x.dropped, |x.p.claims|);
    staged < |active| && active[staged] == claim
  }

  predicate ComesFrom(x: Accepted, op: EvidenceOp, k: nat)
    requires LinksInRange(x)
  {
    IsStaged(x, k) && op == OpOf(x, k) && PointsAt(x, op.claim, x.p.links[k].claim)
  }

  /** Every staged entry comes from a link that was neither removed nor of a dropped operation, and its index
      names that link's own operation among the staged ones. */
  lemma {:induction false} OpsPointHome(x: Accepted, n: nat, j: nat)
    requires LinksInRange(x) && n <= |x.p.links| && j < |Ops(x, n)|
    ensures exists k: nat :: k < n && ComesFrom(x, Ops(x, n)[j], k)
  {
    if j < |Ops(x, n - 1)| {
      OpsPointHome(x, n - 1, j);
      var k: nat :| k < n - 1 && ComesFrom(x, Ops(x, n - 1)[j], k);
      assert ComesFrom(x, Ops(x, n)[j], k);
    } else {
      RankIsBijection(x.dropped, |x.p.claims|, x.p.links[n - 1].claim);
      assert ComesFrom(x, Ops(x, n)[j], n - 1);
    }
  }

  lemma {:induction false} EveryStagedLinkHasOp(x: Accepted, n: nat, k: nat)
    requires LinksInRange(x) && k < n <= |x.p.links| && IsStaged(x, k)
    ensures OpOf(x, k) in Ops(x, n)
  {
    if k < n - 1 { EveryStagedLinkHasOp(x, n - 1, k); }
  }

  // ----- the entries from the links alone -----

  ghost predicate Increasing(s: seq<nat>) { forall i, j :: 0 <= i < j < |s| ==> s[i] < s[j] }

  /** Link `j` of the claim will be staged, and the detector, given no keys, derives its value from `key` by the
      evidence's own text. */
  predicate DerivesFrom(x: Accepted, j: nat, c: int, key: Key) {
    && j < |x.p.links| && x.p.links[j].claim == c && c !in x.dropped && j !in x.removed
    && var d := x.detect(x.p.links[j].evidence, c, {});
      && d.Some? && d.value.derivative && d.value.key == Some(key)
      && (d.value.pairing.Strict? || d.value.pairing.Publication?)
  }

  ghost predicate AreKeysOf(x: Accepted, c: int, keys: set<Key>) {
    forall key :: key in keys <==> key in x.recorded(c) || exists j: nat :: DerivesFrom(x, j, c, key)
  }

  predicate Unattributed(d: Option<Decision>) {
    d.Some? && (d.value.status.NoValueAttribution? || d.value.status.ValueNotAttributed?)
  }

  /** The detector's answer without keys, unless that attributes nothing: then its answer with the claim's keys. */
  ghost predicate IsDecision(x: Accepted, k: nat, d: Option<Decision>)
    requires k < |x.p.links|
  {
    var link := x.p.links[k];
    if Unattributed(x.detect(link.evidence, link.claim, {}))
    then exists keys :: AreKeysOf(x, link.claim, keys) && d == x.detect(link.evidence, link.claim, keys)
    else d == x.detect(link.evidence, link.claim, {})
  }

  /** `ids` are the operations that were not dropped, in their order, and `claims` their contents. */
  ghost predicate IsRenumbering(x: Accepted, ids: seq<nat>, claims: seq<Claim>) {
    && Increasing(ids) && |claims| == |ids|
    && (forall i: nat :: i in ids <==> i < |x.p.claims| && i !in x.dropped)
    && forall j :: 0 <= j < |ids| ==> ids[j] < |x.p.claims| && claims[j] == x.p.claims[ids[j]]
  }

  /** The entry is about link `k`, and names that link's operation by its place among `ids`. */
  ghost predicate IsEntryOf(x: Accepted, ids: seq<nat>, k: nat, op: EvidenceOp) {
    && k < |x.p.links| && op.evidence == x.p.links[k].evidence && op.supports == x.p.links[k].supports
    && op.claim < |ids| && ids[op.claim] == x.p.links[k].claim && IsDecision(x, k, op.decision)
  }

  /** `links` are those neither removed nor of a dropped operation, in their order, and `ops` their entries. */
  ghost predicate AreEntries(x: Accepted, ids: seq<nat>, links: seq<nat>, ops: seq<EvidenceOp>) {
    && Increasing(links) && |ops| == |links|
    && (forall k: nat :: k in links <==> k < |x.p.links| && x.p.links[k].claim !in x.dropped && k !in x.removed)
    && forall j :: 0 <= j < |ops| ==> IsEntryOf(x, ids, links[j], ops[j])
  }

  lemma StillIncreasing(s: seq<nat>, x: nat)
    requires Increasing(s) && forall y :: y in s ==> y < x
    ensures Increasing(s + [x])
  {
    assert forall i :: 0 <= i < |s| ==> s[i] in s;
  }

  lemma {:induction false} ActiveTells(dropped: set<nat>, n: nat)
    ensures Increasing(Active(dropped, n)) && forall i: nat :: i in Active(dropped, n) <==> i < n && i !in dropped
  {
    if n > 0 {
      ActiveTells(dropped, n - 1);
      StillIncreasing(Active(dropped, n - 1), n - 1);
    }
  }

  lemma {:induction false} KeptTells(claims: seq<Claim>, dropped: set<nat>, n: nat, j: nat)
    requires n <= |claims| && j < |Active(dropped, n)|
    ensures Active(dropped, n)[j] < n && Kept(claims, dropped, n)[j] == claims[Active(dropped, n)[j]]
  {
    if j < |Active(dropped, n - 1)| { KeptTells(claims, dropped, n - 1, j); }
  }

  lemma RenumberingTells(x: Accepted)
    ensures IsRenumbering(x, Active(x.dropped, |x.p.claims|), Kept(x.p.claims, x.dropped, |x.p.claims|))
  {
    var n := |x.p.claims|;
    ActiveTells(x.dropped, n);
    forall j | 0 <= j < |Active(x.dropped, n)|
      ensures Active(x.dropped, n)[j] < n
      ensures Kept(x.p.claims, x.dropped, n)[j] == x.p.claims[Active(x.dropped, n)[j]]
    {
      KeptTells(x.p.claims, x.dropped, n, j);
    }
  }

  function StagedLinks(x: Accepted, n: nat): seq<nat> {
    if n == 0 then [] else StagedLinks(x, n - 1) + if IsStaged(x, n - 1) then [n - 1] else []
  }

  lemma {:induction false} StagedLinksTell(x: Accepted, n: nat)
    ensures Increasing(StagedLinks(x, n)) && forall k: nat :: k in StagedLinks(x, n) <==> k < n && IsStaged(x, k)
  {
    if n > 0 {
      StagedLinksTell(x, n - 1);
      StillIncreasing(StagedLinks(x, n - 1), n - 1);
    }
  }

  lemma KeysTell(x: Accepted, c: int)
    ensures c !in x.dropped ==> AreKeysOf(x, c, KnownKeys(x, c))
  {
    if c !in x.dropped {
      forall key: Key
        ensures key in KnownKeys(x, c) <==> key in x.recorded(c) || exists j: nat :: DerivesFrom(x, j, c, key)
      {
        KeysAre(x, c, |x.p.links|, key);
        forall j: nat ensures GivesKey(x, j, c, key) <==> DerivesFrom(x, j, c, key) {}
      }
    }
  }

  lemma EntryTells(x: Accepted, k: nat)
    requires LinksInRange(x) && IsStaged(x, k)
    ensures IsEntryOf(x, Active(x.dropped, |x.p.claims|), k, OpOf(x, k))
  {
    var link := x.p.links[k];
    RankIsBijection(x.dropped, |x.p.claims|, link.claim);
    KeysTell(x, link.claim);
    assert IsDecision(x, k, FinalDecision(x, k));
  }

  lemma {:induction false} OpsTell(x: Accepted, n: nat, j: nat)
    requires LinksInRange(x) && n <= |x.p.links|
    ensures |Ops(x, n)| == |StagedLinks(x, n)|
    ensures j < |Ops(x, n)| ==>
      IsEntryOf(x, Active(x.dropped, |x.p.claims|), StagedLinks(x, n)[j], Ops(x, n)[j])
  {
    if n > 0 {
      OpsTell(x, n - 1, j);
      if IsStaged(x, n - 1) { EntryTells(x, n - 1); }
    }
  }

  lemma EntriesTell(x: Accepted)
    requires LinksInRange(x)
    ensures AreEntries(x, Active(x.dropped, |x.p.claims|), StagedLinks(x, |x.p.links|), Ops(x, |x.p.links|))
  {
    var n, ids := |x.p.links|, Active(x.dropped, |x.p.claims|);
    StagedLinksTell(x, n);
    OpsTell(x, n, 0);
    forall j | 0 <= j < |Ops(x, n)| ensures IsEntryOf(x, ids, StagedLinks(x, n)[j], Ops(x, n)[j]) { OpsTell(x, n, j); }
  }

  type Known = map<int, set<Key>>

  function KeysIn(known: Known, c: int): set<Key> { if c in known then known[c] else {} }

  function WithKey(known: Known, c: int, key: Option<Key>): Known {
    if key.None? then known else known[c := KeysIn(known, c) + {key.value}]
  }

  /** The first pass: decisions without keys, and the keys they give. */
  method Pass1(x: Accepted) returns (decisions: map<nat, Option<Decision>>, known: Known)
    ensures forall k: nat :: IsStaged(x, k) ==> k in decisions && decisions[k] == FirstPass(x, k)
    ensures forall c: int :: KeysIn(known, c) == KeysUpTo(x, c, |x.p.links|)
  {
    decisions, known := map[], map[];
    for n := 0 to |x.p.links|
      invariant forall k: nat :: k < n && IsStaged(x, k) ==> k in decisions && decisions[k] == FirstPass(x, k)
      invariant forall c: int :: KeysIn(known, c) == KeysUpTo(x, c, n)
    {
      if IsStaged(x, n) {
        var d := FirstPass(x, n);
        decisions := decisions[n := d];
        known := WithKey(known, x.p.links[n].claim, KeyOf(d));
      }
    }
  }

  /** The second look at a link the first pass left without attribution. */
  method Pass2(x: Accepted, k: nat, first: Option<Decision>, known: Known) returns (d: Option<Decision>)
    requires k < |x.p.links| && first == FirstPass(x, k)
    requires forall c: int :: KeysIn(known, c) == KeysUpTo(x, c, |x.p.links|)
    ensures d == FinalDecision(x, k)
  {
    d := first;
    if d.Some? && (d.value.status == NoValueAttribution || d.value.status == ValueNotAttributed) {
      var link := x.p.links[k];
      d := x.detect(link.evidence, link.claim, KeysIn(known, link.claim) + x.recorded(link.claim));
    }
  }

  /** The operations in their staged order and the evidence entries, from two passes over the links. */
  method Stage(x: Accepted) returns (claims: seq<Claim>, ops: seq<EvidenceOp>)
    requires LinksInRange(x)
    ensures claims == Kept(x.p.claims, x.dropped, |x.p.claims|)
    ensures ops == Ops(x, |x.p.links|)
    ensures exists ids, links :: IsRenumbering(x, ids, claims) && AreEntries(x, ids, links, ops)
  {
    RenumberingTells(x);
    EntriesTell(x);
    var index: map<nat, nat>;
    claims, index := Renumber(x);
    var decisions, known := Pass1(x);
    ops := [];
    for n := 0 to |x.p.links|
      invariant ops == Ops(x, n)
    {
      if IsStaged(x, n) {
        var link := x.p.links[n];
        assert RankAt(index, x.dropped, link.claim);
        var d := Pass2(x, n, decisions[n], known);
        ops := ops + [EvidenceOp(link.evidence, index[link.claim], link.supports, d)];
      }
    }
  }

  predicate RankAt(index: map<nat, nat>, dropped: set<nat>, c: nat) { c in index && index[c] == Rank(dropped, c) }

  method Renumber(x: Accepted) returns (claims: seq<Claim>, index: map<nat, nat>)
    ensures claims == Kept(x.p.claims, x.dropped, |x.p.claims|)
    ensures forall c: nat {:trigger RankAt(index, x.dropped, c)} :: c < |x.p.claims| && c !in x.dropped ==>
      RankAt(index, x.dropped, c)
  {
    claims, index := [], map[];
    for n := 0 to |x.p.claims|
      invariant claims == Kept(x.p.claims, x.dropped, n)
      invariant forall c: nat {:trigger RankAt(index, x.dropped, c)} :: c < n && c !in x.dropped ==>
        RankAt(index, x.dropped, c)
    {
      if n !in x.dropped {
        ghost var before := index;
        index := index[n := |claims|];
        claims := claims + [x.p.claims[n]];
        forall c: nat | c < n && c !in x.dropped ensures RankAt(index, x.dropped, c) {
          assert RankAt(before, x.dropped, c);
        }
      }
    }
  }

  // ----- with the boundary's outcome -----

  /** What is staged after the boundary accepted. */
  ghost predicate StagesOutcome(b: B.Input, x: Accepted) {
    && B.Boundary(b).Accepted? && x.p.links == b.p.links
    && x.dropped == B.Boundary(b).final.dropped.Keys && x.removed == B.Boundary(b).final.removed
  }

  /** No supports link on a source assertion that the value gate judged absent is staged, and the counters links
      of surviving operations all are. */
  lemma GatedLinksAreNotStaged(b: B.Input, x: Accepted, k: nat)
    requires StagesOutcome(b, x) && k < |x.p.links|
    ensures R.IsRemoved(B.ValueInput(b, B.AfterReverify(b)), k) ==> !IsStaged(x, k)
    ensures !x.p.links[k].supports ==> (IsStaged(x, k) <==> x.p.links[k].claim !in x.dropped)
  {
    B.AcceptedIsFinal(b);
    if R.IsRemoved(B.ValueInput(b, B.AfterReverify(b)), k) { B.AbsentValueIsRemoved(b, k); }
    if k in x.removed { B.RemovedAreSupports(b, k); }
  }
}
