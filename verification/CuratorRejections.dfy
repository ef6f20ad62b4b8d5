/** Per-operation and per-link refusals of a curator proposal (apps/orchestrator/curator_rejections.py). */
module CuratorRejections {
  import opened Basics
  import opened Curator

  // ----- problem lines -----

  /** A problem line and the operation it names, when it names one. */
  datatype Line = Line(operation: Option<nat>, text: nat)

  function LinesOf(lines: seq<Line>, op: Option<nat>): (r: seq<Line>)
    ensures forall x :: x in r <==> x in lines && x.operation == op
  {
    if lines == [] then []
    else
      var init, last := lines[..|lines| - 1], lines[|lines| - 1];
      assert lines == init + [last];
      LinesOf(init, op) + if last.operation == op then [last] else []
  }

  type Groups = map<nat, seq<Line>>

  function GroupOf(groups: Groups, i: nat): seq<Line> { if i in groups then groups[i] else [] }

  function Grouped(groups: Groups, i: nat, line: Line): Groups { groups[i := GroupOf(groups, i) + [line]] }

  /** The first `n` lines that name an operation, by operation. */
  function NamedGroups(lines: seq<Line>, n: nat): Groups
    requires n <= |lines|
  {
    if n == 0 then map[]
    else
      var groups, line := NamedGroups(lines, n - 1), lines[n - 1];
      if line.operation.None? then groups else Grouped(groups, line.operation.value, line)
  }

  lemma {:induction false} NamedGroupAt(lines: seq<Line>, n: nat, i: nat)
    requires n <= |lines|
    ensures GroupOf(NamedGroups(lines, n), i) == LinesOf(lines[..n], Some(i))
    ensures i in NamedGroups(lines, n) ==> LinesOf(lines[..n], Some(i)) != []
  {
    if n > 0 {
      NamedGroupAt(lines, n - 1, i);
      assert lines[..n][..n - 1] == lines[..n - 1];
    }
  }

  /** Lines about one operation go to it, all others refuse the proposal as a whole; nothing is lost. */
  method SplitStructural(problems: seq<Line>) returns (whole: seq<Line>, perOperation: Groups)
    ensures whole == LinesOf(problems, None)
    ensures forall i: nat :: GroupOf(perOperation, i) == LinesOf(problems, Some(i))
    ensures forall i :: i in perOperation ==> perOperation[i] != []
  {
    whole, perOperation := [], map[];
    for n := 0 to |problems|
      invariant whole == LinesOf(problems[..n], None) && perOperation == NamedGroups(problems, n)
    {
      assert problems[..n + 1][..n] == problems[..n];
      var line := problems[n];
      match line.operation
      case None => whole := whole + [line];
      case Some(i) => perOperation := Grouped(perOperation, i, line);
    }
    assert problems[..|problems|] == problems;
    forall i: nat
      ensures GroupOf(perOperation, i) == LinesOf(problems, Some(i)) && (i in perOperation ==> perOperation[i] != [])
    {
      NamedGroupAt(problems, |problems|, i);
    }
  }

  /** The operation a rules line belongs to: the nearest one named at or before it. */
  function Owner(lines: seq<Line>, k: nat): (r: Option<nat>)
    requires k < |lines|
    ensures r.None? <==> forall j :: 0 <= j <= k ==> lines[j].operation.None?
    ensures r.Some? ==>
      exists j :: 0 <= j <= k && lines[j].operation == r && forall m :: j < m <= k ==> lines[m].operation.None?
  {
    if lines[k].operation.Some? then lines[k].operation else if k == 0 then None else Owner(lines, k - 1)
  }

  function OwnedBy(lines: seq<Line>, i: nat, n: nat): seq<Line>
    requires n <= |lines|
  {
    if n == 0 then [] else OwnedBy(lines, i, n - 1) + if Owner(lines, n - 1) == Some(i) then [lines[n - 1]] else []
  }

  function RuleGroups(lines: seq<Line>, n: nat): Groups
    requires n <= |lines|
  {
    if n == 0 then map[]
    else
      var owner := Owner(lines, n - 1);
      if owner.None? then RuleGroups(lines, n - 1) else Grouped(RuleGroups(lines, n - 1), owner.value, lines[n - 1])
  }

  /** Each operation's group is its own lines in order. */
  lemma {:induction false} RuleGroupAt(lines: seq<Line>, n: nat, i: nat)
    requires n <= |lines|
    ensures GroupOf(RuleGroups(lines, n), i) == OwnedBy(lines, i, n)
    ensures i in RuleGroups(lines, n) ==> OwnedBy(lines, i, n) != []
  {
    if n > 0 { RuleGroupAt(lines, n - 1, i); }
  }

  /** Continuation lines follow the operation named before them; lines before the first name are dropped. */
  method GroupRules(problems: seq<Line>) returns (grouped: Groups)
    ensures grouped == RuleGroups(problems, |problems|)
  {
    grouped := map[];
    var current: Option<nat> := None;
    for n := 0 to |problems|
      invariant current == if n == 0 then None else Owner(problems, n - 1)
      invariant grouped == RuleGroups(problems, n)
    {
      if problems[n].operation.Some? { current := problems[n].operation; }
      if current.Some? { grouped := Grouped(grouped, current.value, problems[n]); }
    }
  }

  // ----- the value on a link -----

  datatype Outcome = Unchecked | Present | Absent

  type ValueGate = (Option<Statement>, Texts) -> Outcome

  /** The gate's inputs: operations refused so far, the texts of source assertions, target statements. */
  datatype Links = Links(p: Proposal, dropped: set<nat>, texts: map<nat, Texts>,
                         overrides: map<nat, Option<Statement>>, gate: ValueGate)

  predicate IsJudged(v: Links, k: nat) {
    && k < |v.p.links| && v.p.links[k].supports && 0 <= v.p.links[k].claim < |v.p.claims|
    && v.p.links[k].claim !in v.dropped && k in v.texts
  }

  /** A link goes exactly when it supports a live operation with a source assertion whose texts lack the value. */
  predicate IsRemoved(v: Links, k: nat) {
    IsJudged(v, k)
      && v.gate(Subject(v.p.claims[v.p.links[k].claim], v.p.links[k].claim, v.overrides), v.texts[k]) == Absent
  }

  predicate IsLinkOf(p: Proposal, k: nat, c: int) { k < |p.links| && p.links[k].claim == c }

  /** An operation goes with its last link: some link was removed, and none of either relation is left. */
  ghost predicate LosesAll(v: Links, c: nat) {
    && (exists k: nat :: IsLinkOf(v.p, k, c) && IsRemoved(v, k))
    && forall k: nat :: IsLinkOf(v.p, k, c) ==> IsRemoved(v, k)
  }

  method LinksWithoutValue(v: Links) returns (removed: set<nat>, drops: set<nat>)
    ensures forall k: nat :: k in removed <==> IsRemoved(v, k)
    ensures forall c: nat :: c in drops <==> LosesAll(v, c)
  {
    removed := RemovedLinks(v);
    drops := {};
    var touched := set k | k in removed :: v.p.links[k].claim;
    var kept := KeptClaims(v, removed);
    drops := set c: nat | c in touched && c !in kept;
    forall c: nat ensures c in drops <==> LosesAll(v, c) {
      if c in drops {
        var k :| k in removed && v.p.links[k].claim == c;
        assert IsLinkOf(v.p, k, c);
      }
      if LosesAll(v, c) {
        var k: nat :| IsLinkOf(v.p, k, c) && IsRemoved(v, k);
        assert k in removed && v.p.links[k].claim == c;
      }
    }
  }

  method RemovedLinks(v: Links) returns (removed: set<nat>)
    ensures forall k: nat :: k in removed <==> IsRemoved(v, k)
  {
    removed := {};
    for n := 0 to |v.p.links|
      invariant forall k: nat :: k in removed <==> k < n && IsRemoved(v, k)
    {
      if IsJudged(v, n) {
        var c := v.p.links[n].claim;
        if v.gate(Subject(v.p.claims[c], c, v.overrides), v.texts[n]) == Absent { removed := removed + {n}; }
      }
    }
  }

  /** Operations some link of which is still there. */
  method KeptClaims(v: Links, removed: set<nat>) returns (kept: set<int>)
    ensures forall c: int :: c in kept <==> exists k: nat :: IsLinkOf(v.p, k, c) && k !in removed
  {
    kept := {};
    for n := 0 to |v.p.links|
      invariant forall c: int :: c in kept <==> exists k: nat :: k < n && IsLinkOf(v.p, k, c) && k !in removed
    {
      if n !in removed {
        assert IsLinkOf(v.p, n, v.p.links[n].claim);
        kept := kept + {v.p.links[n].claim};
      }
    }
  }

  /** No counters link is ever removed, and an operation with one is never dropped by this gate. */
  lemma CountersStay(v: Links, k: nat)
    requires k < |v.p.links| && !v.p.links[k].supports
    ensures !IsRemoved(v, k)
    ensures v.p.links[k].claim >= 0 ==> !LosesAll(v, v.p.links[k].claim)
  {
    assert IsLinkOf(v.p, k, v.p.links[k].claim);
  }

  /** The gate adds no reason to an operation that already has one. */
  lemma DroppedAreSkipped(v: Links, c: nat)
    requires LosesAll(v, c)
    ensures c < |v.p.claims| && c !in v.dropped
  {
    var k: nat :| IsLinkOf(v.p, k, c) && IsRemoved(v, k);
  }
}
