/** The boundary every curator proposal passes before anything is staged (apps/orchestrator/orchestrator.py,
    _curator_boundary): stages that drop single operations and links with a named reason, and points at which
    the proposal is refused as a whole. */
module CuratorBoundary {
  import opened Basics
  import opened Curator
  import R = CuratorRejections
  import P = PeriodGate

  /** Why an operation was dropped; the stages in their order. */
  datatype Reason = SearchStatement(text: nat) | BadReference | NoHead | ValueAbsent | Period(reason: P.Reason)
                  | NoReferenceDate | Rules(text: nat)

  datatype Reference = Unresolved | Headless | Anchor(statement: Option<Statement>)

  /** Everything the stages look at. `structural` and `rules` are the lines of those checks, the latter as a
      function of the removed links and the staged operations; `converted` are the operations the duplicate gate turns
      into re-verifications, with their target's statement; `relied` the resolved relied ids. */
  datatype Input = Input(
    p: Proposal, structural: seq<R.Line>, emptyDefect: bool, reference: nat -> Reference, relied: seq<nat>,
    texts: map<nat, Texts>, gate: R.ValueGate,
    converted: (set<nat>, set<nat>) -> map<nat, Option<Statement>>,
    lexicon: P.Lexicon, gatesOn: bool,
    rules: (set<nat>, seq<Claim>) -> seq<R.Line>,
    declaredCheck: bool, reliedOnlyAllowed: bool)

  type Drops = map<nat, Reason>

  /** `removed` are the evidence links that will not be staged. */
  datatype State = State(dropped: Drops, removed: set<nat>)

  datatype Kind = HostValidation | EmptyDefect | ReverifyUnresolved | EvidenceValueAbsent | PeriodNotNearValue
                | ByDate | ByRules

  datatype Result = Rejected(kind: Kind) | Accepted(final: State, staged: seq<Claim>)

  // ----- the stages -----

  /** Stage by stage, an operation without a reason may get one; a reason given is never replaced. */
  ghost predicate Grows(a: State, b: State) {
    && a.removed <= b.removed
    && forall i :: i in a.dropped ==> i in b.dropped && b.dropped[i] == a.dropped[i]
  }

  ghost predicate InRange(x: Input, s: State) {
    && (forall i :: i in s.dropped ==> i < |x.p.claims|)
    && (forall k :: k in s.removed ==> k < |x.p.links|)
  }

  predicate AllDropped(x: Input, s: State) { x.p.claims != [] && |s.dropped| == |x.p.claims| }

  /** The reason kept of an operation's lines is the first one. */
  function FirstText(lines: seq<R.Line>): nat { if lines == [] then 0 else lines[0].text }

  /** The reasons a stage gives: to operations without one yet. */
  function Given(dropped: Drops, n: nat, verdict: nat -> Option<Reason>): Drops {
    Tabulate(n, (i: nat) => if i in dropped then None else verdict(i))
  }

  function SearchVerdict(x: Input, i: nat): Option<Reason> {
    var lines := R.LinesOf(x.structural, Some(i));
    if lines == [] then None else Some(SearchStatement(FirstText(lines)))
  }

  /** Refusals the search-statement lines name; the lines come from a walk over the operations. */
  function SearchDrops(x: Input): Drops {
    Tabulate(|x.p.claims|, (i: nat) => SearchVerdict(x, i))
  }

  function ReverifyVerdict(x: Input, i: nat): Option<Reason> {
    if i >= |x.p.claims| || !x.p.claims[i].reverifies then None
    else match x.reference(i)
      case Unresolved => Some(BadReference)
      case Headless => Some(NoHead)
      case Anchor(_) => None
  }

  function ReverifyDrops(x: Input, s: State): Drops {
    Given(s.dropped, |x.p.claims|, (i: nat) => ReverifyVerdict(x, i))
  }

  function AnchorOf(x: Input, s: State, i: nat): Option<Option<Statement>> {
    if i < |x.p.claims| && i !in s.dropped && x.p.claims[i].reverifies && x.reference(i).Anchor?
    then Some(x.reference(i).statement) else None
  }

  function Anchors(x: Input, s: State): map<nat, Option<Statement>> {
    Tabulate(|x.p.claims|, (i: nat) => AnchorOf(x, s, i))
  }

  /** What the value gate is given after the re-verification references. */
  function ValueInput(x: Input, s: State): R.Links {
    R.Links(x.p, s.dropped.Keys, x.texts, Anchors(x, AfterSearch(x)), x.gate)
  }

  /** Converted operations are staged as re-verifications. */
  function Staged(x: Input, converted: map<nat, Option<Statement>>): seq<Claim> {
    seq(|x.p.claims|,
      i requires 0 <= i < |x.p.claims| => if i in converted then x.p.claims[i].(reverifies := true) else x.p.claims[i])
  }

  predicate InPeriodGate(x: Input, s: State, k: nat) {
    k < |x.p.links| && k !in s.removed && x.p.links[k].supports && k in x.texts && x.p.links[k].claim >= 0
  }

  function Present(t: Texts): seq<Raw> {
    (if t.fragment.Some? then [t.fragment.value] else []) + (if t.page.Some? then [t.page.value] else [])
  }

  function PeriodTextsOf(x: Input, s: State, k: nat): Option<seq<Raw>> {
    if InPeriodGate(x, s, k) then Some(Present(x.texts[k])) else None
  }

  function PeriodTexts(x: Input, s: State): map<nat, seq<Raw>> {
    Tabulate(|x.p.links|, (k: nat) => PeriodTextsOf(x, s, k))
  }

  function PeriodLinks(x: Input, s: State, i: nat, n: nat): (r: seq<nat>)
    requires n <= |x.p.links|
    ensures forall k: nat :: k in r <==> k < n && InPeriodGate(x, s, k) && x.p.links[k].claim == i
  {
    if n == 0 then []
    else PeriodLinks(x, s, i, n - 1) + if InPeriodGate(x, s, n - 1) && x.p.links[n - 1].claim == i then [n - 1] else []
  }

  /** What the period gate is given after the duplicate gate. */
  function PeriodInput(x: Input, s: State, anchors: map<nat, Option<Statement>>): P.Gate {
    var converted := x.converted(s.dropped.Keys, s.removed);
    P.Gate(x.lexicon, Staged(x, converted), PeriodTexts(x, s),
           Tabulate(|x.p.claims|, (i: nat) => Some(PeriodLinks(x, s, i, |x.p.links|))),
           s.dropped.Keys, anchors + converted)
  }

  function PeriodVerdict(g: P.Gate, i: nat): Option<Reason> {
    var r := P.RejectionOf(g, i);
    if r.Some? then Some(Period(r.value)) else None
  }

  function PeriodDrops(g: P.Gate): Drops { Tabulate(|g.claims|, (i: nat) => PeriodVerdict(g, i)) }

  /** A link the period gate rejects; one of an operation it dropped is named by that operation's entry only. */
  predicate LosesPeriod(x: Input, s: State, g: P.Gate, k: nat) {
    && InPeriodGate(x, s, k) && P.IsChecked(g, x.p.links[k].claim)
    && P.Faults(P.LinkVerdict(g, x.p.links[k].claim, k)) && P.RejectionOf(g, x.p.links[k].claim).None?
  }

  predicate IsDateless(staged: seq<Claim>, i: nat) { i < |staged| && staged[i].undated && !staged[i].reverifies }

  function DateVerdict(staged: seq<Claim>, i: nat): Option<Reason> {
    if IsDateless(staged, i) then Some(NoReferenceDate) else None
  }

  function DateDrops(s: State, staged: seq<Claim>): Drops {
    Given(s.dropped, |staged|, (i: nat) => DateVerdict(staged, i))
  }

  function RulesVerdict(lines: seq<R.Line>, i: nat): Option<Reason> {
    var mine := R.OwnedBy(lines, i, |lines|);
    if mine == [] then None else Some(Rules(FirstText(mine)))
  }

  function RulesDrops(x: Input, s: State, lines: seq<R.Line>): Drops {
    Given(s.dropped, |x.p.claims|, (i: nat) => RulesVerdict(lines, i))
  }

  function AfterSearch(x: Input): State { State(SearchDrops(x), {}) }

  function AfterReverify(x: Input): State {
    var s := AfterSearch(x);
    s.(dropped := s.dropped + ReverifyDrops(x, s))
  }

  ghost function ValueVerdict(x: Input, c: nat): Option<Reason> {
    if R.LosesAll(ValueInput(x, AfterReverify(x)), c) then Some(ValueAbsent) else None
  }

  ghost function ValueDrops(x: Input): Drops {
    Tabulate(|x.p.claims|, (c: nat) => ValueVerdict(x, c))
  }

  /** The value gate sees the anchors of the references resolved just before. */
  ghost function AfterValue(x: Input): State {
    var s := AfterReverify(x);
    State(s.dropped + ValueDrops(x), set k: nat | 0 <= k < |x.p.links| && R.IsRemoved(ValueInput(x, s), k))
  }

  ghost function PeriodGateOf(x: Input): P.Gate { PeriodInput(x, AfterValue(x), Anchors(x, AfterSearch(x))) }

  function PeriodState(x: Input, s: State, g: P.Gate): State {
    State(s.dropped + PeriodDrops(g), s.removed + PeriodLosses(x, s, g))
  }

  function PeriodLosses(x: Input, s: State, g: P.Gate): set<nat> {
    set k: nat | 0 <= k < |x.p.links| && LosesPeriod(x, s, g, k)
  }

  ghost function AfterPeriod(x: Input): State {
    if !x.gatesOn then AfterValue(x) else PeriodState(x, AfterValue(x), PeriodGateOf(x))
  }

  ghost function StagedClaims(x: Input): seq<Claim> {
    Staged(x, x.converted(AfterValue(x).dropped.Keys, AfterValue(x).removed))
  }

  ghost function AfterDates(x: Input): State {
    var s := AfterPeriod(x);
    s.(dropped := s.dropped + DateDrops(s, StagedClaims(x)))
  }

  /** The rules engine sees all operations, dropped ones too, and the links that are left. */
  ghost function RuleLines(x: Input): seq<R.Line> { x.rules(AfterDates(x).removed, StagedClaims(x)) }

  ghost function AfterRules(x: Input): State {
    var s := AfterDates(x);
    s.(dropped := s.dropped + RulesDrops(x, s, RuleLines(x)))
  }

  /** After the correction round, resolved relied ids can stand as the whole answer. */
  predicate ReliedOnly(x: Input) { x.reliedOnlyAllowed && x.relied != [] }

  /** Whether a stage that dropped something leaves nothing. */
  predicate Exhausts(x: Input, before: State, after: State) {
    before.dropped.Keys != after.dropped.Keys && AllDropped(x, after)
  }

  /** The state after each stage. */
  datatype Stages = Stages(search: State, reverify: State, value: State, period: State, dates: State, rules: State,
                           lines: seq<R.Line>, staged: seq<Claim>)

  ghost function StagesOf(x: Input): Stages {
    Stages(AfterSearch(x), AfterReverify(x), AfterValue(x), AfterPeriod(x), AfterDates(x), AfterRules(x), RuleLines(x),
      StagedClaims(x))
  }

  /** The points at which the proposal is refused as a whole. */
  function Verdict(x: Input, t: Stages): Result {
    if R.LinesOf(x.structural, None) != [] || AllDropped(x, t.search) then Rejected(HostValidation)
    else if x.declaredCheck && x.emptyDefect then Rejected(EmptyDefect)
    else if Exhausts(x, t.search, t.reverify) then Rejected(ReverifyUnresolved)
    else if Exhausts(x, t.reverify, t.value) && !ReliedOnly(x) then Rejected(EvidenceValueAbsent)
    else if Exhausts(x, t.value, t.period) && !ReliedOnly(x) then Rejected(PeriodNotNearValue)
    else if Exhausts(x, t.period, t.dates) then Rejected(ByDate)
    else if t.lines != [] && AllDropped(x, t.rules) then Rejected(ByRules)
    else Accepted(t.rules, t.staged)
  }

  ghost function Boundary(x: Input): Result { Verdict(x, StagesOf(x)) }

  // ----- what the stages keep -----

  lemma ValueStageGrows(x: Input)
    ensures Grows(AfterReverify(x), AfterValue(x)) && InRange(x, AfterValue(x))
  {
    forall c | c in ValueDrops(x) ensures c !in AfterReverify(x).dropped {
      R.DroppedAreSkipped(ValueInput(x, AfterReverify(x)), c);
    }
  }

  lemma PeriodStageGrows(x: Input)
    ensures Grows(AfterValue(x), AfterPeriod(x)) && InRange(x, AfterPeriod(x))
  {
    ValueStageGrows(x);
  }

  ghost predicate Chain(x: Input, t: Stages) {
    && Grows(t.search, t.reverify) && Grows(t.reverify, t.value) && Grows(t.value, t.period)
    && Grows(t.period, t.dates) && Grows(t.dates, t.rules)
    && InRange(x, t.rules)
    && (t.lines == [] ==> t.rules == t.dates)
  }

  lemma DateStageGrows(x: Input, s: State, staged: seq<Claim>)
    requires InRange(x, s) && |staged| == |x.p.claims|
    ensures var after := s.(dropped := s.dropped + DateDrops(s, staged)); Grows(s, after) && InRange(x, after)
  {
  }

  lemma RulesStageGrows(x: Input, s: State, lines: seq<R.Line>)
    requires InRange(x, s)
    ensures var after := s.(dropped := s.dropped + RulesDrops(x, s, lines));
      Grows(s, after) && InRange(x, after) && (lines == [] ==> after == s)
  {
    if lines == [] { assert RulesDrops(x, s, lines) == map[]; }
  }

  /** Through all stages the dropped set only grows and the first reason of an operation stays. */
  lemma StagesGrow(x: Input)
    ensures Chain(x, StagesOf(x))
  {
    assert Grows(AfterSearch(x), AfterReverify(x));
    ValueStageGrows(x);
    PeriodStageGrows(x);
    DateStageGrows(x, AfterPeriod(x), StagedClaims(x));
    RulesStageGrows(x, AfterDates(x), RuleLines(x));
  }

  // ----- what an accepted proposal has -----

  ghost predicate Survives(x: Input, s: State, i: nat) { i < |x.p.claims| && i !in s.dropped }

  function Below(n: nat): (r: set<nat>)
    ensures |r| == n && forall i: nat :: i in r <==> i < n
  {
    if n == 0 then {} else Below(n - 1) + {n - 1}
  }

  /** Counting the dropped operations finds out whether one is left. */
  lemma AllDroppedIff(x: Input, s: State)
    requires InRange(x, s)
    ensures AllDropped(x, s) <==> x.p.claims != [] && forall i: nat :: !Survives(x, s, i)
  {
    var n := |x.p.claims|;
    assert |s.dropped.Keys| == |s.dropped|;
    SubsetSize(s.dropped.Keys, Below(n));
    if forall i: nat :: !Survives(x, s, i) {
      forall i | i in Below(n) ensures i in s.dropped.Keys { assert !Survives(x, s, i); }
      assert s.dropped.Keys == Below(n);
    }
    if |s.dropped| == n {
      forall i: nat ensures !Survives(x, s, i) { assert i < n ==> i in Below(n); }
    }
  }

  /** Exhaustion that is let through: the value or the period gate took the last operation and relied ids stand in. */
  ghost predicate StoodIn(x: Input, t: Stages) {
    ReliedOnly(x) && (Exhausts(x, t.reverify, t.value) || Exhausts(x, t.value, t.period))
  }

  lemma AnswerOf(x: Input, t: Stages)
    requires Chain(x, t) && Verdict(x, t).Accepted? && AllDropped(x, t.rules)
    ensures StoodIn(x, t) && t.lines == []
  {
    SameDrops(x, t.search, t.reverify);
    SameDrops(x, t.reverify, t.value);
    SameDrops(x, t.value, t.period);
    SameDrops(x, t.period, t.dates);
  }

  lemma SameDrops(x: Input, before: State, after: State)
    requires Grows(before, after)
    ensures before.dropped.Keys == after.dropped.Keys ==> AllDropped(x, after) == AllDropped(x, before)
  {
    assert |after.dropped.Keys| == |after.dropped| && |before.dropped.Keys| == |before.dropped|;
  }

  /** An accepted proposal has a surviving operation, unless it had none or relied ids stand in, and then
      without a single line from the rules engine. */
  lemma AcceptedHasAnswer(x: Input)
    requires Boundary(x).Accepted?
    ensures var s := Boundary(x).final;
      x.p.claims == [] || (exists i: nat :: Survives(x, s, i)) || (StoodIn(x, StagesOf(x)) && RuleLines(x) == [])
  {
    StagesGrow(x);
    AllDroppedIff(x, StagesOf(x).rules);
    if AllDropped(x, StagesOf(x).rules) { AnswerOf(x, StagesOf(x)); }
  }

  /** Once nothing is left, later stages have nothing to drop. */
  lemma AllStays(x: Input, before: State, after: State)
    requires Grows(before, after) && InRange(x, after) && AllDropped(x, before)
    ensures AllDropped(x, after) && before.dropped.Keys == after.dropped.Keys
  {
    AllDroppedIff(x, before);
    forall i | i in after.dropped ensures i in before.dropped { assert !Survives(x, before, i); }
    assert before.dropped.Keys == after.dropped.Keys;
    SameDrops(x, before, after);
  }

  lemma NotAllBefore(x: Input, before: State, after: State)
    requires Grows(before, after) && InRange(x, after) && !AllDropped(x, after)
    ensures InRange(x, before) && !AllDropped(x, before)
  {
    if AllDropped(x, before) { AllStays(x, before, after); }
  }

  lemma SurvivorDecides(x: Input, t: Stages)
    requires Chain(x, t) && !AllDropped(x, t.rules)
    requires R.LinesOf(x.structural, None) == [] && !(x.declaredCheck && x.emptyDefect)
    ensures Verdict(x, t).Accepted?
  {
    NotAllBefore(x, t.dates, t.rules);
    NotAllBefore(x, t.period, t.dates);
    NotAllBefore(x, t.value, t.period);
    NotAllBefore(x, t.reverify, t.value);
    NotAllBefore(x, t.search, t.reverify);
  }

  /** One survivor is enough: only a line about the whole proposal or a defect of an empty one refuses it then. */
  lemma SurvivorIsAccepted(x: Input, i: nat)
    requires Survives(x, AfterRules(x), i)
    ensures Boundary(x).Accepted? <==> R.LinesOf(x.structural, None) == [] && !(x.declaredCheck && x.emptyDefect)
  {
    StagesGrow(x);
    AllDroppedIff(x, StagesOf(x).rules);
    assert Survives(x, StagesOf(x).rules, i);
    if R.LinesOf(x.structural, None) == [] && !(x.declaredCheck && x.emptyDefect) { SurvivorDecides(x, StagesOf(x)); }
  }

  /** The operations are gone after the value and period gates, and nothing before them refused the proposal. */
  ghost predicate TakenByGates(x: Input, t: Stages) {
    && R.LinesOf(x.structural, None) == [] && !(x.declaredCheck && x.emptyDefect)
    && !AllDropped(x, t.reverify) && AllDropped(x, t.period)
  }

  lemma RescuedIff(x: Input, t: Stages)
    requires Chain(x, t) && TakenByGates(x, t)
    ensures Verdict(x, t).Accepted? <==> ReliedOnly(x) && t.lines == []
  {
    AllStays(x, t.period, t.dates);
    AllStays(x, t.dates, t.rules);
    if AllDropped(x, t.search) { AllStays(x, t.search, t.reverify); }
    SameDrops(x, t.reverify, t.value);
    SameDrops(x, t.value, t.period);
    if AllDropped(x, t.value) { AllStays(x, t.value, t.period); }
  }

  /** Relied ids rescue a proposal whose operations the value and period gates took exactly when the rules
      engine has nothing to say, not even of an operation that is already dropped. */
  lemma ReliedOnlyIff(x: Input)
    requires TakenByGates(x, StagesOf(x))
    ensures Boundary(x).Accepted? <==> ReliedOnly(x) && RuleLines(x) == []
  {
    StagesGrow(x);
    RescuedIff(x, StagesOf(x));
  }

  /** One operation with its value but not its period on the page, an allowed relied id, and an engine that objects
      to the operation's link as long as it sees it. */
  function Unlucky(): Input {
    Input(Proposal([Claim(true, Some(0), false, false)], [Link(0, 0, true)]), [], false, i => Unresolved, [9],
          map[0 := Texts(Some(5), None)], (st, t) => R.Present, (d, l) => map[],
          P.Lexicon(t => Some(t), (t, st) => true, (tok, t, st) => false, (tok, t) => false, st => [P.MAY],
            st => false),
          true, (l, c) => if 0 in l then [] else [R.Line(Some(0), 1)], false, true)
  }

  lemma UnluckyBeforePeriod()
    ensures AfterReverify(Unlucky()).dropped == map[] && AfterValue(Unlucky()) == State(map[], {})
  {
    var x := Unlucky();
    assert R.LinesOf([], Some(0)) == [];
    assert AfterReverify(x).dropped == map[];
    assert forall k: nat :: !R.IsRemoved(ValueInput(x, AfterReverify(x)), k);
    assert ValueDrops(x) == map[];
  }

  lemma UnluckyPeriod()
    ensures P.RejectionOf(PeriodGateOf(Unlucky()), 0).Some? && |PeriodGateOf(Unlucky()).claims| == 1
  {
    UnluckyBeforePeriod();
    var g := PeriodGateOf(Unlucky());
    assert P.LinksOf(g, 0) == [0] by { assert PeriodLinks(Unlucky(), State(map[], {}), 0, 0) == []; }
    assert P.RawOf(g, 0) == [5];
    MissingPeriodRejects(g);
  }

  /** One link whose one text carries the value and misses the one period. */
  lemma MissingPeriodRejects(g: P.Gate)
    requires P.IsChecked(g, 0) && P.LinksOf(g, 0) == [0] && P.RawOf(g, 0) == [5] && g.lx.scan(5) == Some(5)
    requires var st := P.StatementOf(g, 0).value;
      g.lx.tokens(st) == [P.MAY] && g.lx.usable(5, st) && !g.lx.found(P.MAY, 5, st)
    ensures P.RejectionOf(g, 0).Some?
  {
    var st := P.StatementOf(g, 0).value;
    assert [5][..0] == [] && P.Scanned(g.lx, []) == [];
    assert P.TextsOf(g, 0) == [5] && 5 in P.TextsOf(g, 0);
    assert P.IsUsable(g, 0, 0) && P.Speaks(g, 0, 0, P.MAY);
    assert P.Named(g, 0, P.MAY);
    forall l | P.Speaks(g, 0, l, P.MAY) ensures P.Misses(g, 0, l, P.MAY) { assert l == 0; }
    P.ClaimFaultIff(g, 0);
  }

  lemma PeriodStageParts(x: Input)
    requires x.gatesOn
    ensures AfterPeriod(x).dropped.Keys == AfterValue(x).dropped.Keys + PeriodDrops(PeriodGateOf(x)).Keys
    ensures AfterPeriod(x).removed == AfterValue(x).removed + PeriodLosses(x, AfterValue(x), PeriodGateOf(x))
  {
  }

  /** A period gate that rejects the one operation drops it and takes none of its links. */
  lemma OneIsTaken(x: Input)
    requires x.gatesOn && AfterValue(x) == State(map[], {}) && |PeriodGateOf(x).claims| == 1
    requires P.RejectionOf(PeriodGateOf(x), 0).Some? && forall k: nat :: k < |x.p.links| ==> x.p.links[k].claim == 0
    ensures AfterPeriod(x).dropped.Keys == {0} && AfterPeriod(x).removed == {}
  {
    PeriodStageParts(x);
    NoLossOfDropped(x, AfterValue(x), PeriodGateOf(x));
    OnlyDrop(PeriodGateOf(x));
  }

  lemma UnluckyIsTaken()
    ensures AfterPeriod(Unlucky()).dropped.Keys == {0} && AfterPeriod(Unlucky()).removed == {}
  {
    UnluckyBeforePeriod();
    UnluckyPeriod();
    OneIsTaken(Unlucky());
  }

  lemma OnlyDrop(g: P.Gate)
    requires |g.claims| == 1 && P.RejectionOf(g, 0).Some?
    ensures PeriodDrops(g).Keys == {0}
  {
    forall i ensures i in PeriodDrops(g) <==> i == 0 { assert i in PeriodDrops(g) ==> i < 1; }
  }

  lemma NoLossOfDropped(x: Input, s: State, g: P.Gate)
    requires forall k: nat :: k < |x.p.links| ==> x.p.links[k].claim == 0
    requires P.RejectionOf(g, 0).Some?
    ensures PeriodLosses(x, s, g) == {}
  {
  }

  /** The period gate took the only operation and relied ids could stand in. The operation's link is still in the
      engine's view, and the line about the operation that is already dropped sinks the whole answer. */
  lemma DroppedOperationSinksAnswer()
    ensures TakenByGates(Unlucky(), StagesOf(Unlucky())) && ReliedOnly(Unlucky()) && 0 in AfterPeriod(Unlucky()).dropped
    ensures 0 !in AfterRules(Unlucky()).removed && Boundary(Unlucky()).Rejected?
  {
    var x := Unlucky();
    UnluckyBeforePeriod();
    UnluckyIsTaken();
    assert |AfterPeriod(x).dropped.Keys| == 1 && |AfterPeriod(x).dropped| == |AfterPeriod(x).dropped.Keys|;
    assert RuleLines(x) != [];
    ReliedOnlyIff(x);
  }

  lemma AcceptedIsFinal(x: Input)
    requires Boundary(x).Accepted?
    ensures Boundary(x).final == AfterRules(x)
  {
    VerdictIsFinal(x, StagesOf(x));
  }

  lemma VerdictIsFinal(x: Input, t: Stages)
    ensures Verdict(x, t).Accepted? ==> Verdict(x, t).final == t.rules
  {
  }

  /** A link that will not be staged is a supports link of a source assertion; no counters link is removed. */
  lemma RemovedAreSupports(x: Input, k: nat)
    requires k in AfterRules(x).removed
    ensures k < |x.p.links| && x.p.links[k].supports && k in x.texts
  {
  }

  /** A supports link whose texts lack the value of an operation that got through is not among the staged ones. */
  lemma AbsentValueIsRemoved(x: Input, k: nat)
    requires R.IsRemoved(ValueInput(x, AfterReverify(x)), k)
    ensures k in AfterRules(x).removed
  {
  }

  // ----- the boundary from the proposal alone -----

  /** Line `k` is the first that names the operation. */
  ghost predicate NamesFirst(lines: seq<R.Line>, k: int, i: nat) {
    0 <= k < |lines| && lines[k].operation == Some(i) && forall j :: 0 <= j < k ==> lines[j].operation != Some(i)
  }

  /** Operations with a reason keep it and the others get a new one or stay. */
  ghost predicate KeepsReasons(a: Drops, b: Drops) { forall i :: i in a ==> i in b && b[i] == a[i] }

  /** An operation falls for the first structural line that names it. */
  ghost predicate SearchAccount(x: Input, b: State) {
    && b.removed == {}
    && (forall i: nat :: i in b.dropped <==> i < |x.p.claims| && exists k :: NamesFirst(x.structural, k, i))
    && (forall i: nat, k :: i in b.dropped && NamesFirst(x.structural, k, i) ==>
          b.dropped[i] == SearchStatement(x.structural[k].text))
  }

  predicate HasReference(x: Input, i: nat) { i < |x.p.claims| && x.p.claims[i].reverifies }

  /** Then a re-verification whose target cannot be resolved or has no head. */
  ghost predicate ReverifyAccount(x: Input, a: State, b: State) {
    && b.removed == a.removed && KeepsReasons(a.dropped, b.dropped)
    && (forall i: nat :: i !in a.dropped ==> (i in b.dropped <==> HasReference(x, i) && !x.reference(i).Anchor?))
    && (forall i: nat :: i !in a.dropped && i in b.dropped ==>
          b.dropped[i] == if x.reference(i).Unresolved? then BadReference else NoHead)
  }

  /** The statement a link is judged by: of a re-verification, the target's when it has one. */
  function TargetOr(x: Input, i: nat): Option<Statement>
    requires i < |x.p.claims|
  {
    if x.p.claims[i].reverifies && x.reference(i).Anchor? && x.reference(i).statement.Some?
    then x.reference(i).statement else x.p.claims[i].statement
  }

  /** The link supports an operation that is still there, and its texts lack the value. */
  predicate LacksValue(x: Input, a: State, k: nat) {
    && k < |x.p.links| && x.p.links[k].supports && k in x.texts
    && 0 <= x.p.links[k].claim < |x.p.claims| && x.p.links[k].claim !in a.dropped
    && x.gate(TargetOr(x, x.p.links[k].claim), x.texts[k]) == R.Absent
  }

  /** Then the links without the value go, and an operation with the last of its links. */
  ghost predicate ValueAccount(x: Input, a: State, b: State) {
    && KeepsReasons(a.dropped, b.dropped)
    && (forall k: nat :: k in b.removed <==> LacksValue(x, a, k))
    && (forall i: nat :: i !in a.dropped ==> (i in b.dropped <==> LosesEvery(x, a, i)))
    && (forall i: nat :: i !in a.dropped && i in b.dropped ==> b.dropped[i] == ValueAbsent)
  }

  ghost predicate LosesEvery(x: Input, a: State, i: nat) {
    && (exists k: nat :: k < |x.p.links| && x.p.links[k].claim == i && LacksValue(x, a, k))
    && forall k: nat :: k < |x.p.links| && x.p.links[k].claim == i ==> LacksValue(x, a, k)
  }

  /** Converted operations are staged as re-verifications, the others as proposed. */
  ghost predicate StagedAccount(x: Input, a: State, staged: seq<Claim>) {
    var converted := x.converted(a.dropped.Keys, a.removed);
    && |staged| == |x.p.claims|
    && forall i: nat :: i < |staged| ==>
      staged[i] == if i in converted then x.p.claims[i].(reverifies := true) else x.p.claims[i]
  }

  /** Then the temporal facts without a date that are neither re-verifications nor converted into one. */
  ghost predicate DatesAccount(x: Input, before: State, a: State, b: State) {
    var converted := x.converted(before.dropped.Keys, before.removed);
    && b.removed == a.removed && KeepsReasons(a.dropped, b.dropped)
    && (forall i: nat :: i !in a.dropped ==> (i in b.dropped <==> NeedsDate(x, i) && i !in converted))
    && (forall i: nat :: i !in a.dropped && i in b.dropped ==> b.dropped[i] == NoReferenceDate)
  }

  predicate NeedsDate(x: Input, i: nat) { i < |x.p.claims| && x.p.claims[i].undated && !x.p.claims[i].reverifies }

  /** Then for the first rules line that names the operation. */
  ghost predicate RulesAccount(x: Input, lines: seq<R.Line>, a: State, b: State) {
    && b.removed == a.removed && KeepsReasons(a.dropped, b.dropped)
    && (forall i: nat :: i !in a.dropped ==>
          (i in b.dropped <==> i < |x.p.claims| && exists k :: NamesFirst(lines, k, i)))
    && (forall i: nat, k :: i !in a.dropped && i in b.dropped && NamesFirst(lines, k, i) ==>
          b.dropped[i] == Rules(lines[k].text))
  }

  lemma {:induction false} FirstOfLines(lines: seq<R.Line>, i: nat)
    ensures R.LinesOf(lines, Some(i)) == [] <==> forall k :: !NamesFirst(lines, k, i)
    ensures forall k :: NamesFirst(lines, k, i) ==> FirstText(R.LinesOf(lines, Some(i))) == lines[k].text
  {
    if lines != [] {
      var n := |lines| - 1;
      FirstOfLines(lines[..n], i);
      forall k ensures k != n ==> (NamesFirst(lines, k, i) <==> NamesFirst(lines[..n], k, i)) {}
      if R.LinesOf(lines[..n], Some(i)) != [] {
        var k :| NamesFirst(lines[..n], k, i);
        assert NamesFirst(lines, k, i);
      } else {
        NoneBefore(lines[..n], i, n);
        assert lines[n].operation == Some(i) ==> NamesFirst(lines, n, i);
      }
    }
  }

  /** Without a first line there is none. */
  lemma {:induction false} NoneBefore(lines: seq<R.Line>, i: nat, n: nat)
    requires n <= |lines| && forall k :: !NamesFirst(lines, k, i)
    ensures forall j :: 0 <= j < n ==> lines[j].operation != Some(i)
  {
    if n > 0 {
      NoneBefore(lines, i, n - 1);
      assert !NamesFirst(lines, n - 1, i);
    }
  }

  lemma {:induction false} FirstOwned(lines: seq<R.Line>, i: nat, n: nat)
    requires n <= |lines|
    ensures R.OwnedBy(lines, i, n) == [] <==> forall k :: 0 <= k < n ==> lines[k].operation != Some(i)
    ensures forall k :: NamesFirst(lines, k, i) && k < n ==> FirstText(R.OwnedBy(lines, i, n)) == lines[k].text
  {
    if n > 0 {
      FirstOwned(lines, i, n - 1);
      assert lines[n - 1].operation == Some(i) ==> R.Owner(lines, n - 1) == Some(i);
      assert R.OwnedBy(lines, i, n - 1) != [] ==>
        FirstText(R.OwnedBy(lines, i, n)) == FirstText(R.OwnedBy(lines, i, n - 1));
    }
  }

  /** The rules verdict of an operation is the first line that names it. */
  lemma RulesReasonNamesIt(lines: seq<R.Line>, i: nat)
    ensures RulesVerdict(lines, i).Some? <==> exists k :: NamesFirst(lines, k, i)
    ensures forall k :: NamesFirst(lines, k, i) ==> RulesVerdict(lines, i) == Some(Rules(lines[k].text))
  {
    FirstOwned(lines, i, |lines|);
    if forall k :: !NamesFirst(lines, k, i) { NoneBefore(lines, i, |lines|); }
  }

  lemma SearchTells(x: Input)
    ensures SearchAccount(x, AfterSearch(x))
  {
    forall i: nat ensures SearchVerdict(x, i).Some? <==> exists k :: NamesFirst(x.structural, k, i) {
      FirstOfLines(x.structural, i);
    }
    forall i: nat, k | NamesFirst(x.structural, k, i)
      ensures SearchVerdict(x, i) == Some(SearchStatement(x.structural[k].text))
    {
      FirstOfLines(x.structural, i);
    }
  }

  lemma ReverifyTells(x: Input)
    ensures ReverifyAccount(x, AfterSearch(x), AfterReverify(x))
  {
  }

  lemma JudgedBy(x: Input, i: nat)
    requires i < |x.p.claims| && i !in AfterReverify(x).dropped
    ensures Subject(x.p.claims[i], i, Anchors(x, AfterSearch(x))) == TargetOr(x, i)
  {
    SurvivesReverify(x, i);
  }

  lemma ValueTells(x: Input)
    ensures ValueAccount(x, AfterReverify(x), AfterValue(x))
  {
    var a, v := AfterReverify(x), ValueInput(x, AfterReverify(x));
    forall k: nat ensures R.IsRemoved(v, k) <==> LacksValue(x, a, k) {
      if R.IsJudged(v, k) { JudgedBy(x, x.p.links[k].claim); }
    }
    forall i: nat ensures R.LosesAll(v, i) <==> LosesEvery(x, a, i) { LosesTells(x, v, a, i); }
    forall i: nat ensures i in ValueDrops(x) <==> LosesEvery(x, a, i) {
      if R.LosesAll(v, i) { R.DroppedAreSkipped(v, i); }
    }
    ValueStageGrows(x);
  }

  lemma LosesTells(x: Input, v: R.Links, a: State, i: nat)
    requires v.p == x.p && forall k: nat :: R.IsRemoved(v, k) <==> LacksValue(x, a, k)
    ensures R.LosesAll(v, i) <==> LosesEvery(x, a, i)
  {
    forall k: nat ensures R.IsLinkOf(v.p, k, i) <==> k < |x.p.links| && x.p.links[k].claim == i {}
    if k: nat :| R.IsLinkOf(v.p, k, i) && R.IsRemoved(v, k) { assert LacksValue(x, a, k); }
    if k: nat :| k < |x.p.links| && x.p.links[k].claim == i && LacksValue(x, a, k) {
      assert R.IsLinkOf(v.p, k, i) && R.IsRemoved(v, k);
    }
  }

  lemma StagedTells(x: Input)
    ensures StagedAccount(x, AfterValue(x), StagedClaims(x))
  {
  }

  lemma DatesTell(x: Input)
    ensures DatesAccount(x, AfterValue(x), AfterPeriod(x), AfterDates(x))
  {
    var staged := StagedClaims(x);
    var converted := x.converted(AfterValue(x).dropped.Keys, AfterValue(x).removed);
    forall i: nat ensures DateVerdict(staged, i).Some? <==> NeedsDate(x, i) && i !in converted {}
  }

  lemma RulesTell(x: Input)
    ensures RulesAccount(x, RuleLines(x), AfterDates(x), AfterRules(x))
  {
    var lines := RuleLines(x);
    forall i: nat ensures RulesVerdict(lines, i).Some? <==> exists k :: NamesFirst(lines, k, i) {
      RulesReasonNamesIt(lines, i);
    }
    forall i: nat, k | NamesFirst(lines, k, i) ensures RulesVerdict(lines, i) == Some(Rules(lines[k].text)) {
      RulesReasonNamesIt(lines, i);
    }
  }

  /** The period gate looks at the link. */
  predicate ToPeriodGate(x: Input, a: State, k: nat) {
    k < |x.p.links| && x.p.links[k].supports && k in x.texts && x.p.links[k].claim >= 0 && k !in a.removed
  }

  /** The statement the gate reads in place of the operation's own, if any: the duplicate's, or the target's. */
  ghost predicate OverrideIs(x: Input, search: State, a: State, i: nat, st: Option<Option<Statement>>) {
    var converted := x.converted(a.dropped.Keys, a.removed);
    if i in converted then st == Some(converted[i])
    else if HasReference(x, i) && x.reference(i).Anchor? && i !in search.dropped then
      st == Some(x.reference(i).statement)
    else st == None
  }

  /** What the period gate is given. */
  ghost predicate GateFor(x: Input, search: State, a: State, staged: seq<Claim>, g: P.Gate) {
    && g.lx == x.lexicon && g.claims == staged && g.dropped == a.dropped.Keys
    && (forall k: nat :: k in g.texts <==> ToPeriodGate(x, a, k))
    && (forall k, raw: Raw :: k in g.texts ==>
          (raw in g.texts[k] <==> Some(raw) == x.texts[k].fragment || Some(raw) == x.texts[k].page))
    && (forall i: nat :: i in g.links <==> i < |x.p.claims|)
    && (forall i, k: nat :: i in g.links ==> (k in g.links[i] <==> ToPeriodGate(x, a, k) && x.p.links[k].claim == i))
    && (forall i: nat :: OverrideIs(x, search, a, i, if i in g.overrides then Some(g.overrides[i]) else None))
  }

  /** Then the claims and the links that the period gate rejects; a rejected claim keeps its links in the list. */
  ghost predicate PeriodAccount(x: Input, g: P.Gate, a: State, b: State) {
    if !x.gatesOn then b == a
    else
      && KeepsReasons(a.dropped, b.dropped)
      && (forall i: nat :: i !in a.dropped ==> (i in b.dropped <==> P.ClaimFalls(g, i)))
      && (forall i: nat :: i !in a.dropped && i in b.dropped ==>
            b.dropped[i].Period? && (b.dropped[i].reason.forecast <==> P.ForecastFalls(g, i)))
      && (forall k: nat :: k in b.removed <==> k in a.removed || FallsAlone(x, g, a, k))
  }

  ghost predicate FallsAlone(x: Input, g: P.Gate, a: State, k: nat) {
    ToPeriodGate(x, a, k) && P.LinkFalls(g, x.p.links[k].claim, k) && !P.ClaimFalls(g, x.p.links[k].claim)
  }

  lemma OverrideTells(x: Input, search: State, a: State, i: nat)
    ensures var g := PeriodInput(x, a, Anchors(x, search));
      OverrideIs(x, search, a, i, if i in g.overrides then Some(g.overrides[i]) else None)
  {
  }

  lemma GateInputTells(x: Input, search: State, a: State)
    ensures var staged := Staged(x, x.converted(a.dropped.Keys, a.removed));
      GateFor(x, search, a, staged, PeriodInput(x, a, Anchors(x, search)))
  {
    var g := PeriodInput(x, a, Anchors(x, search));
    forall i, k: nat | i in g.links
      ensures k in g.links[i] <==> ToPeriodGate(x, a, k) && x.p.links[k].claim == i
    {
      PeriodLinksOf(x, a, Anchors(x, search), i, k);
    }
    forall i: nat ensures OverrideIs(x, search, a, i, if i in g.overrides then Some(g.overrides[i]) else None) {
      OverrideTells(x, search, a, i);
    }
  }

  lemma GateTells(x: Input)
    ensures GateFor(x, AfterSearch(x), AfterValue(x), StagedClaims(x), PeriodGateOf(x))
  {
    GateInputTells(x, AfterSearch(x), AfterValue(x));
  }

  lemma PeriodTells(x: Input)
    ensures PeriodAccount(x, PeriodGateOf(x), AfterValue(x), AfterPeriod(x))
  {
    if x.gatesOn {
      var a, g := AfterValue(x), PeriodGateOf(x);
      PeriodStageGrows(x);
      forall i: nat ensures (P.RejectionOf(g, i).Some? <==> P.ClaimFalls(g, i))
          && (P.RejectionOf(g, i).Some? ==> (P.RejectionOf(g, i).value.forecast <==> P.ForecastFalls(g, i))) {
        P.ClaimRejectedIff(g, i);
      }
      forall k: nat ensures k in PeriodLosses(x, a, g) <==> FallsAlone(x, g, a, k) { LossTells(x, k); }
    }
  }

  lemma LossTells(x: Input, k: nat)
    ensures k in PeriodLosses(x, AfterValue(x), PeriodGateOf(x)) <==> FallsAlone(x, PeriodGateOf(x), AfterValue(x), k)
  {
    var a, g := AfterValue(x), PeriodGateOf(x);
    if ToPeriodGate(x, a, k) && x.p.links[k].claim < |x.p.claims| {
      PeriodLinksOf(x, a, Anchors(x, AfterSearch(x)), x.p.links[k].claim, k);
      P.LinkRejectedIff(g, x.p.links[k].claim, k);
      P.ClaimRejectedIff(g, x.p.links[k].claim);
    }
  }

  ghost predicate IsAccount(x: Input, t: Stages, g: P.Gate) {
    && SearchAccount(x, t.search) && ReverifyAccount(x, t.search, t.reverify) && ValueAccount(x, t.reverify, t.value)
    && StagedAccount(x, t.value, t.staged) && GateFor(x, t.search, t.value, t.staged, g)
    && PeriodAccount(x, g, t.value, t.period) && DatesAccount(x, t.value, t.period, t.dates)
    && t.lines == x.rules(t.dates.removed, t.staged) && RulesAccount(x, t.lines, t.dates, t.rules)
  }

  /** The stage took the last operations there were. */
  ghost predicate TakesLast(x: Input, a: State, b: State) {
    && (exists i :: i in b.dropped && i !in a.dropped)
    && forall i: nat :: i < |x.p.claims| ==> i in b.dropped
  }

  ghost predicate IsRuling(x: Input, t: Stages, r: Result) {
    if (exists l :: l in x.structural && l.operation.None?)
      || (x.p.claims != [] && forall i: nat :: i < |x.p.claims| ==> i in t.search.dropped) then
      r == Rejected(HostValidation)
    else if x.declaredCheck && x.emptyDefect then r == Rejected(EmptyDefect)
    else if TakesLast(x, t.search, t.reverify) then r == Rejected(ReverifyUnresolved)
    else if TakesLast(x, t.reverify, t.value) && !(x.reliedOnlyAllowed && x.relied != []) then
      r == Rejected(EvidenceValueAbsent)
    else if TakesLast(x, t.value, t.period) && !(x.reliedOnlyAllowed && x.relied != []) then
      r == Rejected(PeriodNotNearValue)
    else if TakesLast(x, t.period, t.dates) then r == Rejected(ByDate)
    else if t.lines != [] && x.p.claims != [] && (forall i: nat :: i < |x.p.claims| ==> i in t.rules.dropped) then
      r == Rejected(ByRules)
    else r == Accepted(t.rules, t.staged)
  }

  lemma NoneLeftTells(x: Input, s: State)
    requires InRange(x, s)
    ensures AllDropped(x, s) <==> x.p.claims != [] && forall i: nat :: i < |x.p.claims| ==> i in s.dropped
  {
    AllDroppedIff(x, s);
    assert forall i: nat :: i < |x.p.claims| ==> (Survives(x, s, i) <==> i !in s.dropped);
  }

  lemma TakesLastTells(x: Input, a: State, b: State)
    requires Grows(a, b) && InRange(x, b)
    ensures Exhausts(x, a, b) <==> TakesLast(x, a, b)
  {
    NoneLeftTells(x, b);
    assert a.dropped.Keys == b.dropped.Keys <==> forall i :: i in b.dropped ==> i in a.dropped;
  }

  lemma RulingTells(x: Input, t: Stages)
    requires Chain(x, t)
    ensures IsRuling(x, t, Verdict(x, t))
  {
    NoneLeftTells(x, t.search);
    TakesLastTells(x, t.search, t.reverify);
    TakesLastTells(x, t.reverify, t.value);
    TakesLastTells(x, t.value, t.period);
    TakesLastTells(x, t.period, t.dates);
    NoneLeftTells(x, t.rules);
    var whole := R.LinesOf(x.structural, None);
    assert whole != [] ==> whole[0] in whole;
  }

  /** The whole boundary, told stage by stage from the proposal and the checks' answers. */
  lemma BoundaryTells(x: Input)
    ensures IsAccount(x, StagesOf(x), PeriodGateOf(x)) && IsRuling(x, StagesOf(x), Boundary(x))
  {
    SearchTells(x);
    ReverifyTells(x);
    ValueTells(x);
    StagedTells(x);
    GateTells(x);
    PeriodTells(x);
    DatesTell(x);
    RulesTell(x);
    StagesGrow(x);
    RulingTells(x, StagesOf(x));
  }

  // ----- which operations survive -----

  /** The operation fails none of the checks, each judged on what its stage sees. */
  ghost predicate Passes(x: Input, i: nat)
    requires i < |x.p.claims|
  {
    && SearchVerdict(x, i).None?
    && (x.p.claims[i].reverifies ==> x.reference(i).Anchor?)
    && !R.LosesAll(ValueInput(x, AfterReverify(x)), i)
    && (x.gatesOn ==> P.RejectionOf(PeriodGateOf(x), i).None?)
    && !IsDateless(StagedClaims(x), i)
    && RulesVerdict(RuleLines(x), i).None?
  }

  lemma SurvivesReverify(x: Input, i: nat)
    requires i < |x.p.claims|
    ensures i !in AfterReverify(x).dropped <==>
      SearchVerdict(x, i).None? && (x.p.claims[i].reverifies ==> x.reference(i).Anchor?)
  {
  }

  lemma SurvivesGates(x: Input, i: nat)
    requires i < |x.p.claims|
    ensures i !in AfterPeriod(x).dropped <==>
      && i !in AfterReverify(x).dropped && !R.LosesAll(ValueInput(x, AfterReverify(x)), i)
      && (x.gatesOn ==> P.RejectionOf(PeriodGateOf(x), i).None?)
  {
    assert i in AfterValue(x).dropped <==> i in AfterReverify(x).dropped || i in ValueDrops(x);
    if x.gatesOn {
      assert i in AfterPeriod(x).dropped <==> i in AfterValue(x).dropped || i in PeriodDrops(PeriodGateOf(x));
    }
  }

  lemma SurvivesLast(x: Input, i: nat)
    requires i < |x.p.claims|
    ensures i !in AfterRules(x).dropped <==>
      i !in AfterPeriod(x).dropped && !IsDateless(StagedClaims(x), i) && RulesVerdict(RuleLines(x), i).None?
  {
    assert i in AfterDates(x).dropped <==>
      i in AfterPeriod(x).dropped || i in DateDrops(AfterPeriod(x), StagedClaims(x));
    assert i in AfterRules(x).dropped <==>
      i in AfterDates(x).dropped || i in RulesDrops(x, AfterDates(x), RuleLines(x));
  }

  /** An operation is staged if and only if it fails none of the checks. */
  lemma SurvivesIff(x: Input, i: nat)
    requires i < |x.p.claims|
    ensures Survives(x, AfterRules(x), i) <==> Passes(x, i)
  {
    SurvivesReverify(x, i);
    SurvivesGates(x, i);
    SurvivesLast(x, i);
  }

  // ----- survivors without evidence -----

  /** The operation proposed a link. */
  ghost predicate HasLink(x: Input, i: nat) { exists k: nat :: R.IsLinkOf(x.p, k, i) }

  /** None of its links will be staged. */
  ghost predicate IsStranded(x: Input, i: nat) { forall k: nat :: R.IsLinkOf(x.p, k, i) ==> k in AfterRules(x).removed }

  /** Every link the value gate left is one the period gate looks at, and that gate takes them all. */
  ghost predicate PeriodTakesRest(x: Input, i: nat) {
    && x.gatesOn && P.IsChecked(PeriodGateOf(x), i) && P.EveryLinkGoes(PeriodGateOf(x), i)
    && forall k: nat :: R.IsLinkOf(x.p, k, i) && k !in AfterValue(x).removed ==> InPeriodGate(x, AfterValue(x), k)
  }

  lemma PeriodLinksAre(x: Input, i: nat, k: nat)
    requires i < |x.p.claims|
    ensures k in P.LinksOf(PeriodGateOf(x), i) <==> R.IsLinkOf(x.p, k, i) && InPeriodGate(x, AfterValue(x), k)
  {
  }

  /** The value gate drops an operation with its last link, so a survivor with links has one left after it. */
  lemma ValueLeavesOne(x: Input, i: nat)
    requires i < |x.p.claims| && !R.LosesAll(ValueInput(x, AfterReverify(x)), i) && HasLink(x, i)
    ensures exists k: nat :: R.IsLinkOf(x.p, k, i) && k !in AfterValue(x).removed
  {
    var v := ValueInput(x, AfterReverify(x));
    var first: nat :| R.IsLinkOf(x.p, first, i);
    if R.IsRemoved(v, first) {
      var k: nat :| R.IsLinkOf(v.p, k, i) && !R.IsRemoved(v, k);
      assert k !in AfterValue(x).removed;
    }
  }

  lemma RemovedIff(x: Input, k: nat)
    ensures k in AfterRules(x).removed <==>
      k in AfterValue(x).removed || (x.gatesOn && k < |x.p.links| && LosesPeriod(x, AfterValue(x), PeriodGateOf(x), k))
  {
  }

  /** A survivor that proposed links has none left to stage if and only if the period gate takes all that the value
      gate left: there the operation does not go with its last link. */
  lemma StrandedIff(x: Input, i: nat)
    requires i < |x.p.claims| && Survives(x, AfterRules(x), i) && HasLink(x, i)
    ensures IsStranded(x, i) <==> PeriodTakesRest(x, i)
  {
    SurvivesIff(x, i);
    ValueLeavesOne(x, i);
    var g := PeriodGateOf(x);
    forall k: nat ensures k in P.LinksOf(g, i) <==> R.IsLinkOf(x.p, k, i) && InPeriodGate(x, AfterValue(x), k) {
      PeriodLinksAre(x, i, k);
    }
    forall k: nat | R.IsLinkOf(x.p, k, i) && k !in AfterValue(x).removed
      ensures k in AfterRules(x).removed <==>
        x.gatesOn && InPeriodGate(x, AfterValue(x), k) && P.IsChecked(g, i) && P.Faults(P.LinkVerdict(g, i, k))
    {
      RemovedIff(x, k);
    }
    if PeriodTakesRest(x, i) { RestIsTaken(x, i); }
    if IsStranded(x, i) { StrandedTakesRest(x, i); }
  }

  lemma RestIsTaken(x: Input, i: nat)
    requires i < |x.p.claims| && Survives(x, AfterRules(x), i) && PeriodTakesRest(x, i)
    ensures IsStranded(x, i)
  {
    SurvivesIff(x, i);
    forall k: nat | R.IsLinkOf(x.p, k, i) ensures k in AfterRules(x).removed {
      RemovedIff(x, k);
      PeriodLinksAre(x, i, k);
    }
  }

  lemma StrandedTakesRest(x: Input, i: nat)
    requires i < |x.p.claims| && Survives(x, AfterRules(x), i) && HasLink(x, i) && IsStranded(x, i)
    ensures PeriodTakesRest(x, i)
  {
    SurvivesIff(x, i);
    ValueLeavesOne(x, i);
    forall k: nat | R.IsLinkOf(x.p, k, i) && k !in AfterValue(x).removed
      ensures x.gatesOn && LosesPeriod(x, AfterValue(x), PeriodGateOf(x), k)
    {
      RemovedIff(x, k);
    }
    var first: nat :| R.IsLinkOf(x.p, first, i) && first !in AfterValue(x).removed;
    PeriodLinksAre(x, i, first);
    forall l | l in P.LinksOf(PeriodGateOf(x), i) ensures P.Faults(P.LinkVerdict(PeriodGateOf(x), i, l)) {
      PeriodLinksAre(x, i, l);
    }
  }

  /** One operation with a period and a document date, each confirmed by its own page. */
  function Torn(): Input {
    Input(Proposal([Claim(true, Some(0), false, false)], [Link(0, 0, true), Link(0, 1, true)]), [], false,
          i => Unresolved, [], map[0 := Texts(Some(5), None), 1 := Texts(Some(6), None)], (st, t) => R.Present,
          (d, l) => map[], P.Pages(P.DECREE), true, (l, c) => [], true, false)
  }

  lemma TornBeforePeriod()
    ensures AfterReverify(Torn()).dropped == map[] && AfterValue(Torn()) == State(map[], {})
  {
    var x := Torn();
    assert R.LinesOf([], Some(0)) == [];
    assert SearchDrops(x) == map[];
    assert AfterReverify(x).dropped == map[];
    assert forall k: nat :: !R.IsRemoved(ValueInput(x, AfterReverify(x)), k);
    assert ValueDrops(x) == map[];
  }

  lemma TornLinks()
    ensures P.IsChecked(PeriodGateOf(Torn()), 0) && PeriodGateOf(Torn()).lx == P.Pages(P.DECREE)
    ensures P.StatementOf(PeriodGateOf(Torn()), 0) == Some(0) && |PeriodGateOf(Torn()).claims| == 1
    ensures forall l :: l in P.LinksOf(PeriodGateOf(Torn()), 0) <==> l == 0 || l == 1
    ensures P.TextsOf(PeriodGateOf(Torn()), 0) == [5] && P.TextsOf(PeriodGateOf(Torn()), 1) == [6]
  {
    TornBeforePeriod();
    var x, g := Torn(), PeriodGateOf(Torn());
    forall l: nat ensures l in P.LinksOf(g, 0) <==> l == 0 || l == 1 {
      PeriodLinksOf(x, AfterValue(x), Anchors(x, AfterSearch(x)), 0, l);
    }
    assert P.RawOf(g, 0) == [5] && P.RawOf(g, 1) == [6];
    P.OneText(P.DECREE, 5);
    P.OneText(P.DECREE, 6);
  }

  lemma TornPasses()
    ensures Passes(Torn(), 0)
  {
    var x := Torn();
    TornBeforePeriod();
    TornLinks();
    P.TwoLinksTogether(PeriodGateOf(x), P.DECREE);
    assert R.LinesOf([], Some(0)) == [];
    assert ValueVerdict(x, 0).None?;
    assert RuleLines(x) == [];
  }

  /** An accepted operation that is staged without any of the evidence it was proposed with. */
  lemma AcceptedWithoutEvidence()
    ensures Boundary(Torn()).Accepted? && Survives(Torn(), AfterRules(Torn()), 0)
    ensures HasLink(Torn(), 0) && IsStranded(Torn(), 0)
  {
    var x := Torn();
    TornPasses();
    SurvivesIff(x, 0);
    assert R.LinesOf([], None) == [];
    SurvivorIsAccepted(x, 0);
    assert R.IsLinkOf(x.p, 0, 0);
    TornRest();
    StrandedIff(x, 0);
  }

  lemma TornRest()
    ensures PeriodTakesRest(Torn(), 0)
  {
    TornBeforePeriod();
    TornLinks();
    P.TwoLinks(PeriodGateOf(Torn()), P.DECREE);
  }

  // ----- the boundary as it runs -----

  /** One pass over the operations: each one without a reason gets the verdict's, if any. */
  method DropEach(dropped: Drops, n: nat, verdict: nat -> Option<Reason>) returns (out: Drops)
    ensures out == dropped + Given(dropped, n, verdict)
  {
    out := dropped;
    for i := 0 to n
      invariant out == dropped + Given(dropped, i, verdict)
    {
      if i !in out && verdict(i).Some? { out := out[i := verdict(i).value]; }
    }
  }

  method SearchStage(x: Input) returns (whole: seq<R.Line>, s: State)
    ensures whole == R.LinesOf(x.structural, None) && s == AfterSearch(x)
  {
    var perOperation: R.Groups;
    whole, perOperation := R.SplitStructural(x.structural);
    var verdict := (i: nat) => if i in perOperation then Some(SearchStatement(FirstText(perOperation[i]))) else None;
    var dropped := DropEach(map[], |x.p.claims|, verdict);
    forall i: nat ensures verdict(i) == SearchVerdict(x, i) {
      assert R.GroupOf(perOperation, i) == R.LinesOf(x.structural, Some(i));
    }
    SearchDropsGiven(x, verdict);
    s := State(dropped, {});
  }

  lemma SearchDropsGiven(x: Input, verdict: nat -> Option<Reason>)
    requires forall i: nat :: verdict(i) == SearchVerdict(x, i)
    ensures map[] + Given(map[], |x.p.claims|, verdict) == SearchDrops(x)
  {
  }

  method ReverifyStage(x: Input, s: State) returns (t: State)
    requires s == AfterSearch(x)
    ensures t == AfterReverify(x)
  {
    var dropped := DropEach(s.dropped, |x.p.claims|, (i: nat) => ReverifyVerdict(x, i));
    t := s.(dropped := dropped);
  }

  method ValueStage(x: Input, anchors: map<nat, Option<Statement>>, s: State) returns (t: State)
    requires s == AfterReverify(x) && anchors == Anchors(x, AfterSearch(x))
    ensures t == AfterValue(x)
  {
    var removed, drops := R.LinksWithoutValue(R.Links(x.p, s.dropped.Keys, x.texts, anchors, x.gate));
    ValueStageIs(x, removed, drops);
    t := State(s.dropped + ValueAbsents(|x.p.claims|, drops), removed);
  }

  function ValueAbsents(n: nat, drops: set<nat>): Drops {
    Tabulate(n, (c: nat) => if c in drops then Some(ValueAbsent) else None)
  }

  lemma ValueStageIs(x: Input, removed: set<nat>, drops: set<nat>)
    requires forall k: nat :: k in removed <==> R.IsRemoved(ValueInput(x, AfterReverify(x)), k)
    requires forall c: nat :: c in drops <==> R.LosesAll(ValueInput(x, AfterReverify(x)), c)
    ensures ValueAbsents(|x.p.claims|, drops) == ValueDrops(x) && removed == AfterValue(x).removed
  {
    var given, n := ValueAbsents(|x.p.claims|, drops), |x.p.claims|;
    forall c: nat ensures c in given <==> c in ValueDrops(x) {
      assert ValueVerdict(x, c).Some? <==> c in drops;
    }
    assert given == ValueDrops(x);
  }

  lemma PeriodLinksAreOwn(x: Input, s: State, anchors: map<nat, Option<Statement>>)
    ensures P.OwnLinks(PeriodInput(x, s, anchors))
  {
  }

  function DropsBy(d: P.Decision, n: nat): Drops {
    Tabulate(n, (i: nat) => if i in d.claims then Some(Period(d.claims[i])) else None)
  }

  function LostBy(x: Input, d: P.Decision): set<nat> {
    set k | k in d.links && k < |x.p.links| && x.p.links[k].claim !in d.claims
  }

  /** The single verdicts of the period gate are the drops and removals of the stage. */
  lemma PeriodStageIs(x: Input, s: State, anchors: map<nat, Option<Statement>>, d: P.Decision)
    requires var g := PeriodInput(x, s, anchors); P.Decides(g, |g.claims|, d)
    ensures var g := PeriodInput(x, s, anchors);
      DropsBy(d, |g.claims|) == PeriodDrops(g) && LostBy(x, d) == PeriodLosses(x, s, g)
  {
    DropsByIs(PeriodInput(x, s, anchors), d);
    LostByIs(x, s, anchors, d);
  }

  lemma DropsByIs(g: P.Gate, d: P.Decision)
    requires d.claims == P.ClaimRejections(g, |g.claims|)
    ensures DropsBy(d, |g.claims|) == PeriodDrops(g)
  {
    var n := |g.claims|;
    forall i: nat ensures i in DropsBy(d, n) <==> i in PeriodDrops(g) { P.ClaimRejectionsAt(g, n, i); }
    forall i: nat | i in DropsBy(d, n) ensures DropsBy(d, n)[i] == PeriodDrops(g)[i] { P.ClaimRejectionsAt(g, n, i); }
  }

  lemma LostByIs(x: Input, s: State, anchors: map<nat, Option<Statement>>, d: P.Decision)
    requires var g := PeriodInput(x, s, anchors); P.Decides(g, |g.claims|, d)
    ensures LostBy(x, d) == PeriodLosses(x, s, PeriodInput(x, s, anchors))
  {
    var g := PeriodInput(x, s, anchors);
    forall k: nat ensures k in LostBy(x, d) <==> k in PeriodLosses(x, s, g) { PeriodLinkIs(x, s, anchors, d, k); }
  }

  lemma PeriodLinkIs(x: Input, s: State, anchors: map<nat, Option<Statement>>, d: P.Decision, k: nat)
    requires var g := PeriodInput(x, s, anchors); P.Decides(g, |g.claims|, d)
    ensures k in LostBy(x, d) <==> LosesPeriod(x, s, PeriodInput(x, s, anchors), k)
  {
    var g := PeriodInput(x, s, anchors);
    if k < |x.p.links| && x.p.links[k].claim >= 0 { P.ClaimRejectionsAt(g, |g.claims|, x.p.links[k].claim); }
    PeriodLinkDecided(x, s, anchors, d.links, k);
  }

  /** A link the period gate rejects is one of its links whose own verdict is a fault. */
  lemma PeriodLinkDecided(x: Input, s: State, anchors: map<nat, Option<Statement>>, links: map<nat, P.Verdict>, k: nat)
    requires var g := PeriodInput(x, s, anchors); P.LinksDecided(g, |g.claims|, links)
    ensures var g := PeriodInput(x, s, anchors);
      k in links <==>
        InPeriodGate(x, s, k) && P.IsChecked(g, x.p.links[k].claim) && P.Faults(P.LinkVerdict(g, x.p.links[k].claim, k))
  {
    var g := PeriodInput(x, s, anchors);
    if k in links {
      var i: nat :| i < |g.claims| && P.IsChecked(g, i) && k in P.LinksOf(g, i);
      PeriodLinksOf(x, s, anchors, i, k);
      assert P.LinkDecided(P.LinkVerdict(g, i, k), k, links);
    }
    if InPeriodGate(x, s, k) && P.IsChecked(g, x.p.links[k].claim) {
      PeriodLinksOf(x, s, anchors, x.p.links[k].claim, k);
      assert P.LinkDecided(P.LinkVerdict(g, x.p.links[k].claim, k), k, links);
    }
  }

  lemma PeriodLinksOf(x: Input, s: State, anchors: map<nat, Option<Statement>>, i: nat, k: nat)
    requires i < |x.p.claims|
    ensures k in P.LinksOf(PeriodInput(x, s, anchors), i) <==> InPeriodGate(x, s, k) && x.p.links[k].claim == i
  {
  }

  method JudgePeriods(x: Input, s: State, anchors: map<nat, Option<Statement>>) returns (t: State)
    ensures t == PeriodState(x, s, PeriodInput(x, s, anchors))
  {
    PeriodLinksAreOwn(x, s, anchors);
    var d := P.RejectionsByLinks(PeriodInput(x, s, anchors));
    PeriodStageIs(x, s, anchors, d);
    t := State(s.dropped + DropsBy(d, |x.p.claims|), s.removed + LostBy(x, d));
  }

  method PeriodStage(x: Input, anchors: map<nat, Option<Statement>>, s: State) returns (t: State)
    requires s == AfterValue(x) && anchors == Anchors(x, AfterSearch(x))
    ensures t == AfterPeriod(x)
  {
    if !x.gatesOn { return s; }
    t := JudgePeriods(x, s, anchors);
  }

  method DateStage(s: State, staged: seq<Claim>) returns (t: State)
    ensures t == s.(dropped := s.dropped + DateDrops(s, staged))
  {
    var dropped := DropEach(s.dropped, |staged|, (i: nat) => DateVerdict(staged, i));
    t := s.(dropped := dropped);
  }

  method RulesStage(x: Input, s: State, lines: seq<R.Line>) returns (t: State)
    ensures t == s.(dropped := s.dropped + RulesDrops(x, s, lines))
  {
    var grouped := R.GroupRules(lines);
    var verdict := (i: nat) => if i in grouped then Some(Rules(FirstText(grouped[i]))) else None;
    var dropped := DropEach(s.dropped, |x.p.claims|, verdict);
    forall i: nat ensures verdict(i) == RulesVerdict(lines, i) { R.RuleGroupAt(lines, |lines|, i); }
    RulesDropsGiven(x, s, lines, verdict);
    t := s.(dropped := dropped);
  }

  lemma RulesDropsGiven(x: Input, s: State, lines: seq<R.Line>, verdict: nat -> Option<Reason>)
    requires forall i: nat :: verdict(i) == RulesVerdict(lines, i)
    ensures Given(s.dropped, |x.p.claims|, verdict) == RulesDrops(x, s, lines)
  {
  }

  /** The stages up to the period gate, where relied ids can stand in. */
  method FirstStages(x: Input) returns (refused: Option<Kind>, s: State, staged: seq<Claim>)
    ensures refused.Some? ==> Boundary(x) == Rejected(refused.value)
    ensures refused.None? ==>
      s == AfterPeriod(x) && staged == StagedClaims(x) && Boundary(x) == LastVerdict(x, StagesOf(x))
  {
    staged := [];
    var whole, s0 := SearchStage(x);
    s := s0;
    if whole != [] || AllDropped(x, s0) { return Some(HostValidation), s, staged; }
    if x.declaredCheck && x.emptyDefect { return Some(EmptyDefect), s, staged; }
    var anchors := Anchors(x, s0);
    var s1 := ReverifyStage(x, s0);
    if Exhausts(x, s0, s1) { return Some(ReverifyUnresolved), s, staged; }
    var s2 := ValueStage(x, anchors, s1);
    if Exhausts(x, s1, s2) && !ReliedOnly(x) { return Some(EvidenceValueAbsent), s, staged; }
    staged := Staged(x, x.converted(s2.dropped.Keys, s2.removed));
    var s3 := PeriodStage(x, anchors, s2);
    if Exhausts(x, s2, s3) && !ReliedOnly(x) { return Some(PeriodNotNearValue), s, staged; }
    return None, s3, staged;
  }

  function LastVerdict(x: Input, t: Stages): Result {
    if Exhausts(x, t.period, t.dates) then Rejected(ByDate)
    else if t.lines != [] && AllDropped(x, t.rules) then Rejected(ByRules)
    else Accepted(t.rules, t.staged)
  }

  /** The whole boundary. */
  method RunBoundary(x: Input) returns (r: Result)
    ensures r == Boundary(x)
    ensures exists t, g :: IsAccount(x, t, g) && IsRuling(x, t, r)
  {
    BoundaryTells(x);
    var refused, s, staged := FirstStages(x);
    if refused.Some? { return Rejected(refused.value); }
    var t := DateStage(s, staged);
    if Exhausts(x, s, t) { return Rejected(ByDate); }
    var lines := x.rules(t.removed, staged);
    var u := RulesStage(x, t, lines);
    if lines != [] && AllDropped(x, u) { return Rejected(ByRules); }
    return Accepted(u, staged);
  }
}
