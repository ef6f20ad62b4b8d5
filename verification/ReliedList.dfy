/** The list of recorded claims an answer relies on: the curator's own ids and four host contributors under one
    cap (apps/orchestrator/orchestrator.py, apps/orchestrator/relied_supplement.py). */
module ReliedList {
  import opened Basics

  type Id = nat

  const RELIED_CLAIMS_LIMIT := 8

  ghost predicate Distinct(s: seq<Id>) { forall i, j :: 0 <= i < j < |s| ==> s[i] != s[j] }

  // ----- references -----

  /** A model's reference: a full id, a hex prefix, or neither. */
  datatype Ref = Full(id: Id) | Prefix(digits: nat) | Unparseable

  /** `matches` says that the digits begin the id. */
  type Matching = (nat, Id) -> bool

  function Candidates(matches: Matching, digits: nat, visible: seq<Id>): (r: seq<Id>)
    ensures forall c :: c in r <==> c in visible && matches(digits, c)
  {
    if visible == [] then []
    else
      var init, last := visible[..|visible| - 1], visible[|visible| - 1];
      assert visible == init + [last];
      Candidates(matches, digits, init) + if matches(digits, last) then [last] else []
  }

  /** Only a visible id, and never a guess among several. */
  function Resolve(matches: Matching, ref: Ref, visible: seq<Id>): (r: Option<Id>)
    ensures r.Some? ==> r.value in visible
    ensures r.Some? && ref.Prefix? ==> forall c :: c in visible && matches(ref.digits, c) ==> c == r.value
  {
    match ref
    case Full(id) => if id in visible then Some(id) else None
    case Prefix(digits) =>
      var c := Candidates(matches, digits, visible);
      if |c| == 1 then Some(c[0]) else None
    case Unparseable => None
  }

  lemma {:induction false} OneCandidate(matches: Matching, digits: nat, visible: seq<Id>, c: Id)
    requires Distinct(visible) && c in visible && matches(digits, c)
    requires forall d :: d in visible && matches(digits, d) ==> d == c
    ensures |Candidates(matches, digits, visible)| == 1
  {
    var init, last := visible[..|visible| - 1], visible[|visible| - 1];
    assert visible == init + [last];
    if last == c {
      NoCandidate(matches, digits, init);
    } else {
      OneCandidate(matches, digits, init, c);
    }
  }

  lemma {:induction false} NoCandidate(matches: Matching, digits: nat, visible: seq<Id>)
    requires forall d :: d in visible ==> !matches(digits, d)
    ensures Candidates(matches, digits, visible) == []
  {
    if visible != [] { NoCandidate(matches, digits, visible[..|visible| - 1]); }
  }

  /** A full id resolves exactly when it is visible, a prefix exactly when it begins one visible id, to that id. */
  lemma ResolvesIff(matches: Matching, ref: Ref, visible: seq<Id>, id: Id)
    requires Distinct(visible)
    ensures ref.Full? ==> (Resolve(matches, ref, visible) == Some(id) <==> ref.id == id && id in visible)
    ensures ref.Prefix? ==> (Resolve(matches, ref, visible) == Some(id) <==>
      id in visible && matches(ref.digits, id) && forall d :: d in visible && matches(ref.digits, d) ==> d == id)
    ensures ref.Unparseable? ==> Resolve(matches, ref, visible) == None
  {
    if ref.Prefix? {
      var c := Candidates(matches, ref.digits, visible);
      if id in visible && matches(ref.digits, id) && forall d :: d in visible && matches(ref.digits, d) ==> d == id {
        OneCandidate(matches, ref.digits, visible, id);
      }
      if |c| == 1 { assert c[0] in c; }
    }
  }

  function Resolved(matches: Matching, refs: seq<Ref>, visible: seq<Id>): (r: seq<Option<Id>>)
    ensures |r| == |refs|
    ensures forall i :: 0 <= i < |r| && r[i].Some? ==> r[i].value in visible
  {
    seq(|refs|, i requires 0 <= i < |refs| => Resolve(matches, refs[i], visible))
  }

  // ----- one contributor -----

  /** `have` and the new ids among the first candidates that are not blocked, while there is room. */
  function Extended(have: seq<Id>, cands: seq<Option<Id>>, blocked: set<Id>, n: nat): seq<Id>
    requires n <= |cands|
  {
    if n == 0 then have
    else
      var sofar := Extended(have, cands, blocked, n - 1);
      if Admissible(sofar, cands[n - 1], blocked) then sofar + [cands[n - 1].value] else sofar
  }

  predicate Admissible(have: seq<Id>, cand: Option<Id>, blocked: set<Id>) {
    cand.Some? && cand.value !in have && cand.value !in blocked && |have| < RELIED_CLAIMS_LIMIT
  }

  /** The additions are new, unblocked candidates; no id twice and never over the cap. */
  ghost predicate Adds(have: seq<Id>, all: seq<Id>, cands: seq<Option<Id>>, blocked: set<Id>) {
    && have <= all && Distinct(all) && |all| <= RELIED_CLAIMS_LIMIT
    && forall i :: |have| <= i < |all| ==> Some(all[i]) in cands && all[i] !in blocked
  }

  lemma {:induction false} ExtendedAdds(have: seq<Id>, cands: seq<Option<Id>>, blocked: set<Id>, n: nat)
    requires n <= |cands| && Distinct(have) && |have| <= RELIED_CLAIMS_LIMIT
    ensures Adds(have, Extended(have, cands, blocked, n), cands, blocked)
  {
    if n > 0 {
      ExtendedAdds(have, cands, blocked, n - 1);
      assert cands[n - 1] in cands;
    }
  }

  /** And nothing admissible is left out while there is room. */
  lemma {:induction false} ExtendedIsComplete(have: seq<Id>, cands: seq<Option<Id>>, blocked: set<Id>, n: nat, k: nat)
    requires k < n <= |cands| && cands[k].Some? && cands[k].value !in blocked
    ensures cands[k].value in Extended(have, cands, blocked, n)
      || |Extended(have, cands, blocked, n)| >= RELIED_CLAIMS_LIMIT
  {
    if k < n - 1 { ExtendedIsComplete(have, cands, blocked, n - 1, k); }
  }

  /** The references refused by name: those that do not resolve, those over the cap, and, where the contributor
      says so, those to a blocked id. */
  function Refused(have: seq<Id>, cands: seq<Option<Id>>, blocked: set<Id>, namesBlocked: bool, n: nat): seq<nat>
    requires n <= |cands|
  {
    if n == 0 then []
    else
      var c, sofar := cands[n - 1], Extended(have, cands, blocked, n - 1);
      Refused(have, cands, blocked, namesBlocked, n - 1) + if IsRefused(sofar, c, blocked, namesBlocked) then [n - 1]
        else []
  }

  predicate IsRefused(sofar: seq<Id>, c: Option<Id>, blocked: set<Id>, namesBlocked: bool) {
    c.None? || (c.value !in sofar && if c.value in blocked then namesBlocked else |sofar| >= RELIED_CLAIMS_LIMIT)
  }

  /** Every reference is on the list, blocked, or refused by name. */
  lemma {:induction false} ListedOrRefused(have: seq<Id>, cands: seq<Option<Id>>, blocked: set<Id>, namesBlocked: bool,
      n: nat, k: nat)
    requires k < n <= |cands|
    ensures k in Refused(have, cands, blocked, namesBlocked, n)
      || (cands[k].Some? && (cands[k].value in Extended(have, cands, blocked, n) || cands[k].value in blocked))
  {
    if k < n - 1 { ListedOrRefused(have, cands, blocked, namesBlocked, n - 1, k); }
  }

  // ----- fresher forecasts -----

  /** A record on the card: a new operation of the proposal, or a recorded claim. */
  datatype Record = New(index: nat) | Recorded(id: Id)

  datatype Kind = Actual | Outdated | Undated

  datatype Mark = Mark(kind: Kind, series: nat)

  type Marks = map<Record, Mark>

  predicate SameSeries(marks: Marks, r: Record, series: nat) { r in marks && marks[r].series == series }

  /** The record is actual and its series is on the card with outdated records only. */
  predicate IsFresher(marks: Marks, card: seq<Record>, r: Record) {
    && r in marks && marks[r].kind == Actual
    && (exists c :: c in card && SameSeries(marks, c, marks[r].series))
    && (forall c :: c in card && SameSeries(marks, c, marks[r].series) ==> marks[c].kind == Outdated)
  }

  function Fresher(marks: Marks, card: seq<Record>, pack: seq<Id>): (r: seq<Option<Id>>)
    ensures |r| == |pack|
    ensures forall i :: 0 <= i < |r| && r[i].Some? ==>
      r[i].value in pack && IsFresher(marks, card, Recorded(r[i].value))
  {
    seq(|pack|, i requires 0 <= i < |pack| => if IsFresher(marks, card, Recorded(pack[i])) then Some(pack[i]) else None)
  }

  // ----- the whole list -----

  /** A surviving operation: a new claim, or a re-verification of a recorded one. */
  datatype Survivor = NewClaim(index: nat) | Reverify(target: Ref)

  /** One curator decision. `visible` are the ids of the knowledge text, `evidence` those of the pack's evidence
      section; `declared` and `firstDeclared` the ids the accepted and the rejected first proposal rely on;
      `survivors` the operations that are kept, `droppedRefs` the targets of dropped re-verifications, `answer` the
      references in the final answer; `inTable` the ids with a claims row; `marks` the forecast marks of card and
      pack records together. */
  datatype Input = Input(matches: Matching, visible: seq<Id>, evidence: seq<Id>, declared: seq<Ref>,
                         firstDeclared: seq<Ref>, roundHeld: bool, noClaims: bool,
                         survivors: seq<Survivor>, droppedRefs: seq<Ref>, answer: seq<Ref>,
                         inTable: Id -> bool, marks: (seq<Record>, seq<Id>) -> Marks)

  /** A proposal without claims has no operations. */
  predicate WellFormed(x: Input) { x.noClaims ==> x.survivors == [] && x.droppedRefs == [] }

  function TargetOf(x: Input, s: Survivor): Option<Id> {
    if s.Reverify? then Resolve(x.matches, s.target, x.visible) else None
  }

  function Targets(x: Input): set<Id> {
    set i | 0 <= i < |x.survivors| && TargetOf(x, x.survivors[i]).Some? :: TargetOf(x, x.survivors[i]).value
  }

  function Take(have: seq<Id>, cands: seq<Option<Id>>, blocked: set<Id>): seq<Id> {
    Extended(have, cands, blocked, |cands|)
  }

  function OfCurator(x: Input): seq<Id> { Take([], Resolved(x.matches, x.declared, x.visible), {}) }

  /** An empty answer of the correction round does not lose what the first proposal relied on. */
  function WithCarried(x: Input): seq<Id> {
    var own := OfCurator(x);
    if x.roundHeld && x.noClaims && own == [] then Take([], Resolved(x.matches, x.firstDeclared, x.visible), {})
      else own
  }

  function WithDropped(x: Input): seq<Id> {
    Take(WithCarried(x), Resolved(x.matches, x.droppedRefs, x.evidence), Targets(x))
  }

  function WithAnswer(x: Input): seq<Id> { Take(WithDropped(x), Resolved(x.matches, x.answer, x.visible), Targets(x)) }

  /** What the card shows: surviving operations and the list so far. */
  function CardIds(x: Input): set<Id> { Targets(x) + set id | id in WithAnswer(x) }

  function Rows(x: Input, ids: seq<Id>): (r: seq<Id>)
    ensures forall id :: id in r <==> id in ids && x.inTable(id)
  {
    if ids == [] then []
    else
      var init, last := ids[..|ids| - 1], ids[|ids| - 1];
      assert ids == init + [last];
      Rows(x, init) + if x.inTable(last) then [last] else []
  }

  function Outside(ids: seq<Id>, taken: set<Id>): (r: seq<Id>)
    ensures forall id :: id in r <==> id in ids && id !in taken
  {
    if ids == [] then []
    else
      var init, last := ids[..|ids| - 1], ids[|ids| - 1];
      assert ids == init + [last];
      Outside(init, taken) + if last in taken then [] else [last]
  }

  /** The card's records in order: survivors first, then the list so far; a recorded claim stands once. */
  function CardOps(x: Input, n: nat): seq<Record>
    requires n <= |x.survivors|
  {
    if n == 0 then []
    else
      var s, sofar := x.survivors[n - 1], CardOps(x, n - 1);
      if s.NewClaim? then sofar + [New(s.index)]
      else if TargetOf(x, s).Some? then WithRecord(sofar, TargetOf(x, s).value) else sofar
  }

  function WithRecord(card: seq<Record>, id: Id): seq<Record> {
    if Recorded(id) in card then card else card + [Recorded(id)]
  }

  function WithRecords(card: seq<Record>, ids: seq<Id>): seq<Record> {
    if ids == [] then card else WithRecord(WithRecords(card, ids[..|ids| - 1]), ids[|ids| - 1])
  }

  /** A recorded claim without its row is left off the card. */
  function OnCard(x: Input, card: seq<Record>): seq<Record> {
    if card == [] then []
    else
      var last := card[|card| - 1];
      OnCard(x, card[..|card| - 1]) + if last.Recorded? && !x.inTable(last.id) then [] else [last]
  }

  function CardRecords(x: Input): seq<Record> { OnCard(x, WithRecords(CardOps(x, |x.survivors|), WithAnswer(x))) }

  function FresherCandidates(x: Input): seq<Option<Id>> {
    var card := CardRecords(x);
    var pack := Rows(x, Outside(x.evidence, CardIds(x)));
    Fresher(x.marks(card, pack), card, pack)
  }

  function Final(x: Input): seq<Id> { Take(WithAnswer(x), FresherCandidates(x), {}) }

  // ----- what the list promises -----

  ghost predicate FromPack(x: Input, s: seq<Id>) {
    forall i :: 0 <= i < |s| ==> s[i] in x.visible || s[i] in x.evidence
  }

  /** The list of one contributor: a proper list whose additions come from the pack and avoid `blocked`. */
  ghost predicate Proper(x: Input, have: seq<Id>, all: seq<Id>, blocked: set<Id>) {
    && have <= all && Distinct(all) && |all| <= RELIED_CLAIMS_LIMIT && FromPack(x, all)
    && forall i :: |have| <= i < |all| ==> all[i] !in blocked
  }

  lemma TakeIsProper(x: Input, have: seq<Id>, cands: seq<Option<Id>>, blocked: set<Id>)
    requires Distinct(have) && |have| <= RELIED_CLAIMS_LIMIT && FromPack(x, have)
    requires forall c :: c in cands && c.Some? ==> c.value in x.visible || c.value in x.evidence
    ensures Proper(x, have, Take(have, cands, blocked), blocked)
  {
    ExtendedAdds(have, cands, blocked, |cands|);
  }

  lemma CarriedIsProper(x: Input)
    ensures Proper(x, OfCurator(x), WithCarried(x), {})
  {
    TakeIsProper(x, [], Resolved(x.matches, x.declared, x.visible), {});
    TakeIsProper(x, [], Resolved(x.matches, x.firstDeclared, x.visible), {});
  }

  lemma FresherAvoidsCard(x: Input, k: nat)
    requires k < |FresherCandidates(x)| && FresherCandidates(x)[k].Some?
    ensures FresherCandidates(x)[k].value in x.evidence && FresherCandidates(x)[k].value !in CardIds(x)
  {
  }

  /** The final list has at most eight distinct ids, all from the session's pack, the curator's own first, and
      no id the host added is the target of a surviving operation. */
  lemma FinalIsProper(x: Input)
    requires WellFormed(x)
    ensures Proper(x, OfCurator(x), Final(x), Targets(x))
  {
    CarriedIsProper(x);
    TakeIsProper(x, WithCarried(x), Resolved(x.matches, x.droppedRefs, x.evidence), Targets(x));
    TakeIsProper(x, WithDropped(x), Resolved(x.matches, x.answer, x.visible), Targets(x));
    forall c | c in FresherCandidates(x) && c.Some? ensures c.value in x.evidence && c.value !in Targets(x) {
      var k :| 0 <= k < |FresherCandidates(x)| && FresherCandidates(x)[k] == c;
      FresherAvoidsCard(x, k);
    }
    TakeIsProper(x, WithAnswer(x), FresherCandidates(x), {});
    ExtendedAdds(WithAnswer(x), FresherCandidates(x), {}, |FresherCandidates(x)|);
  }

  /** A forecast is added only where every card record of its series is outdated. */
  lemma AddedForecastIsFresher(x: Input, i: nat)
    requires WellFormed(x) && |WithAnswer(x)| <= i < |Final(x)|
    ensures var card := CardRecords(x);
      IsFresher(x.marks(card, Rows(x, Outside(x.evidence, CardIds(x)))), card, Recorded(Final(x)[i]))
  {
    CarriedIsProper(x);
    TakeIsProper(x, WithCarried(x), Resolved(x.matches, x.droppedRefs, x.evidence), Targets(x));
    TakeIsProper(x, WithDropped(x), Resolved(x.matches, x.answer, x.visible), Targets(x));
    ExtendedAdds(WithAnswer(x), FresherCandidates(x), {}, |FresherCandidates(x)|);
  }

  // ----- everything with a contributor is listed -----

  /** One of the references resolves to the id. */
  ghost predicate Names(matches: Matching, refs: seq<Ref>, visible: seq<Id>, id: Id) {
    exists k :: 0 <= k < |refs| && Resolve(matches, refs[k], visible) == Some(id)
  }

  ghost predicate NamesNothing(matches: Matching, refs: seq<Ref>, visible: seq<Id>) {
    forall k :: 0 <= k < |refs| ==> Resolve(matches, refs[k], visible).None?
  }

  ghost predicate IsTarget(x: Input, id: Id) {
    exists k :: 0 <= k < |x.survivors| && x.survivors[k].Reverify?
      && Resolve(x.matches, x.survivors[k].target, x.visible) == Some(id)
  }

  /** The accepted proposal relies on the id, or the rejected first one does and the round came back empty. */
  ghost predicate IsDeclared(x: Input, id: Id) {
    || Names(x.matches, x.declared, x.visible, id)
    || (x.roundHeld && x.noClaims && NamesNothing(x.matches, x.declared, x.visible)
        && Names(x.matches, x.firstDeclared, x.visible, id))
  }

  /** A dropped re-verification or the answer names the id, and no surviving operation is about it. */
  ghost predicate IsReferred(x: Input, id: Id) {
    && !IsTarget(x, id)
    && (Names(x.matches, x.droppedRefs, x.evidence, id) || Names(x.matches, x.answer, x.visible, id))
  }

  ghost predicate HasReference(x: Input, id: Id) { IsDeclared(x, id) || IsReferred(x, id) }

  /** The record stands on the card: a surviving operation, or a recorded claim that one is about or the list has. */
  ghost predicate IsOnCard(x: Input, list: seq<Id>, r: Record) {
    match r
    case New(i) => NewClaim(i) in x.survivors
    case Recorded(id) => x.inTable(id) && (IsTarget(x, id) || id in list)
  }

  /** Off the card, in the evidence, and fresher than what the card shows of its series. */
  ghost predicate IsFresherThan(x: Input, list: seq<Id>, card: seq<Record>, pack: seq<Id>, id: Id) {
    && IsCard(x, list, card) && IsPack(x, list, pack)
    && id in pack && Replaces(x.marks(card, pack), card, Recorded(id))
  }

  /** The record is actual, the card has its series, and every card record of the series is outdated. */
  ghost predicate Replaces(marks: Marks, card: seq<Record>, r: Record) {
    && r in marks && marks[r].kind.Actual?
    && (exists c :: c in card && c in marks && marks[c].series == marks[r].series)
    && (forall c :: c in card && c in marks && marks[c].series == marks[r].series ==> marks[c].kind.Outdated?)
  }

  lemma FresherReplaces(marks: Marks, card: seq<Record>, r: Record)
    ensures IsFresher(marks, card, r) <==> Replaces(marks, card, r)
  {
    if r in marks {
      forall c ensures SameSeries(marks, c, marks[r].series) <==> c in marks && marks[c].series == marks[r].series {}
    }
  }

  lemma NamesTells(matches: Matching, refs: seq<Ref>, visible: seq<Id>, id: Id)
    ensures Some(id) in Resolved(matches, refs, visible) <==> Names(matches, refs, visible, id)
  {
    var cands := Resolved(matches, refs, visible);
    forall k | 0 <= k < |refs| ensures cands[k] == Resolve(matches, refs[k], visible) && cands[k] in cands {}
  }

  /** One contributor: what it had, and its unblocked candidates; all of them while the list has room. */
  lemma TakeTells(have: seq<Id>, cands: seq<Option<Id>>, blocked: set<Id>, id: Id)
    requires Distinct(have) && |have| <= RELIED_CLAIMS_LIMIT
    ensures id in Take(have, cands, blocked) ==> id in have || (Some(id) in cands && id !in blocked)
    ensures |Take(have, cands, blocked)| < RELIED_CLAIMS_LIMIT ==>
      (id in Take(have, cands, blocked) <==> id in have || (Some(id) in cands && id !in blocked))
    ensures have <= Take(have, cands, blocked) && |Take(have, cands, blocked)| <= RELIED_CLAIMS_LIMIT
  {
    ExtendedAdds(have, cands, blocked, |cands|);
    if Some(id) in cands && id !in blocked {
      var k :| 0 <= k < |cands| && cands[k] == Some(id);
      ExtendedIsComplete(have, cands, blocked, |cands|, k);
    }
  }

  lemma TargetsTell(x: Input, id: Id)
    ensures id in Targets(x) <==> IsTarget(x, id)
  {
  }

  /** The id is on the list only with a contributor, and while there is room always. */
  ghost predicate Lists(list: seq<Id>, id: Id, contributed: bool) {
    |list| <= 8 && (id in list ==> contributed) && (contributed ==> id in list || |list| == 8)
  }

  lemma DeclaredTells(x: Input, id: Id)
    ensures Lists(WithCarried(x), id, IsDeclared(x, id))
  {
    var own := Resolved(x.matches, x.declared, x.visible);
    NamesTells(x.matches, x.declared, x.visible, id);
    NamesTells(x.matches, x.firstDeclared, x.visible, id);
    TakeTells([], own, {}, id);
    TakeTells([], Resolved(x.matches, x.firstDeclared, x.visible), {}, id);
    OwnIsEmpty(x);
  }

  lemma OwnIsEmpty(x: Input)
    ensures OfCurator(x) == [] <==> NamesNothing(x.matches, x.declared, x.visible)
  {
    var own := Resolved(x.matches, x.declared, x.visible);
    assert forall k :: 0 <= k < |own| ==> own[k] == Resolve(x.matches, x.declared[k], x.visible);
    if k :| 0 <= k < |own| && own[k].Some? {
      assert own[k] == Some(own[k].value) && own[k] in own;
      TakeTells([], own, {}, own[k].value);
    }
    if OfCurator(x) != [] {
      TakeTells([], own, {}, OfCurator(x)[0]);
      NamesTells(x.matches, x.declared, x.visible, OfCurator(x)[0]);
    }
  }

  lemma ReferencesTell(x: Input, id: Id)
    ensures Lists(WithAnswer(x), id, HasReference(x, id)) && Distinct(WithAnswer(x))
    ensures |WithAnswer(x)| <= RELIED_CLAIMS_LIMIT
  {
    DeclaredTells(x, id);
    CarriedIsProper(x);
    TargetsTell(x, id);
    NamesTells(x.matches, x.droppedRefs, x.evidence, id);
    NamesTells(x.matches, x.answer, x.visible, id);
    TakeIsProper(x, WithCarried(x), Resolved(x.matches, x.droppedRefs, x.evidence), Targets(x));
    TakeTells(WithCarried(x), Resolved(x.matches, x.droppedRefs, x.evidence), Targets(x), id);
    TakeIsProper(x, WithDropped(x), Resolved(x.matches, x.answer, x.visible), Targets(x));
    TakeTells(WithDropped(x), Resolved(x.matches, x.answer, x.visible), Targets(x), id);
  }

  lemma {:induction false} CardOpsTell(x: Input, n: nat, r: Record)
    requires n <= |x.survivors|
    ensures r in CardOps(x, n) <==> exists k :: 0 <= k < n && IsRecordOf(x, x.survivors[k], r)
  {
    if n > 0 { CardOpsTell(x, n - 1, r); }
  }

  predicate IsRecordOf(x: Input, s: Survivor, r: Record) {
    if s.NewClaim? then r == New(s.index) else r.Recorded? && TargetOf(x, s) == Some(r.id)
  }

  lemma {:induction false} WithRecordsTell(card: seq<Record>, ids: seq<Id>, r: Record)
    ensures r in WithRecords(card, ids) <==> r in card || (r.Recorded? && r.id in ids)
  {
    if ids != [] {
      WithRecordsTell(card, ids[..|ids| - 1], r);
      assert ids == ids[..|ids| - 1] + [ids[|ids| - 1]];
    }
  }

  lemma {:induction false} OnCardTells(x: Input, card: seq<Record>, r: Record)
    ensures r in OnCard(x, card) <==> r in card && (r.Recorded? ==> x.inTable(r.id))
  {
    if card != [] {
      OnCardTells(x, card[..|card| - 1], r);
      assert card == card[..|card| - 1] + [card[|card| - 1]];
    }
  }

  lemma CardTells(x: Input, r: Record)
    ensures r in CardRecords(x) <==> IsOnCard(x, WithAnswer(x), r)
  {
    var ops := CardOps(x, |x.survivors|);
    CardOpsTell(x, |x.survivors|, r);
    WithRecordsTell(ops, WithAnswer(x), r);
    OnCardTells(x, WithRecords(ops, WithAnswer(x)), r);
    if k :| 0 <= k < |x.survivors| && IsRecordOf(x, x.survivors[k], r) { assert x.survivors[k] in x.survivors; }
    if r.New? && NewClaim(r.index) in x.survivors {
      var k :| 0 <= k < |x.survivors| && x.survivors[k] == NewClaim(r.index);
      assert IsRecordOf(x, x.survivors[k], r);
    }
    if r.Recorded? && IsTarget(x, r.id) {
      var k :| 0 <= k < |x.survivors| && x.survivors[k].Reverify?
        && Resolve(x.matches, x.survivors[k].target, x.visible) == Some(r.id);
      assert IsRecordOf(x, x.survivors[k], r);
    }
  }

  lemma PackTells(x: Input, id: Id)
    ensures id in Rows(x, Outside(x.evidence, CardIds(x)))
       <==> id in x.evidence && x.inTable(id) && !IsTarget(x, id) && id !in WithAnswer(x)
  {
    TargetsTell(x, id);
  }

  lemma FresherHas(marks: Marks, card: seq<Record>, pack: seq<Id>, id: Id)
    ensures Some(id) in Fresher(marks, card, pack) <==> id in pack && IsFresher(marks, card, Recorded(id))
  {
    if id in pack && IsFresher(marks, card, Recorded(id)) {
      var k :| 0 <= k < |pack| && pack[k] == id;
      assert Fresher(marks, card, pack)[k] == Some(id);
    }
  }

  lemma FresherTells(x: Input, id: Id)
    ensures var card, pack := CardRecords(x), Rows(x, Outside(x.evidence, CardIds(x)));
      Some(id) in FresherCandidates(x) <==> IsFresherThan(x, WithAnswer(x), card, pack, id)
  {
    var card, pack := CardRecords(x), Rows(x, Outside(x.evidence, CardIds(x)));
    CardIs(x);
    PackIs(x);
    FresherThan(x, WithAnswer(x), card, pack, id);
  }

  ghost predicate IsCard(x: Input, list: seq<Id>, card: seq<Record>) {
    forall r :: r in card <==> IsOnCard(x, list, r)
  }

  ghost predicate IsPack(x: Input, list: seq<Id>, pack: seq<Id>) {
    forall d :: d in pack <==> d in x.evidence && x.inTable(d) && !IsTarget(x, d) && d !in list
  }

  lemma CardIs(x: Input)
    ensures IsCard(x, WithAnswer(x), CardRecords(x))
  {
    forall r ensures r in CardRecords(x) <==> IsOnCard(x, WithAnswer(x), r) { CardTells(x, r); }
  }

  lemma PackIs(x: Input)
    ensures IsPack(x, WithAnswer(x), Rows(x, Outside(x.evidence, CardIds(x))))
  {
    forall d: Id ensures d in Rows(x, Outside(x.evidence, CardIds(x)))
         <==> d in x.evidence && x.inTable(d) && !IsTarget(x, d) && d !in WithAnswer(x) {
      PackTells(x, d);
    }
  }

  lemma FresherThan(x: Input, list: seq<Id>, card: seq<Record>, pack: seq<Id>, id: Id)
    requires IsCard(x, list, card) && IsPack(x, list, pack)
    ensures Some(id) in Fresher(x.marks(card, pack), card, pack) <==> IsFresherThan(x, list, card, pack, id)
  {
    FresherHas(x.marks(card, pack), card, pack, id);
    FresherReplaces(x.marks(card, pack), card, Recorded(id));
  }

  /** What the final list holds, by contributor: all of it has one, and nothing with one is missing while the list has
      room. The last contributor looks at the list of the others. */
  ghost predicate IsFinal(x: Input, list: seq<Id>, card: seq<Record>, pack: seq<Id>, all: seq<Id>) {
    && list <= all
    && (forall id :: Lists(list, id, HasReference(x, id)))
    && (forall id :: Lists(all, id, id in list || IsFresherThan(x, list, card, pack, id)))
  }

  lemma FinalLists(x: Input, id: Id)
    ensures var card, pack := CardRecords(x), Rows(x, Outside(x.evidence, CardIds(x)));
      Lists(Final(x), id, id in WithAnswer(x) || IsFresherThan(x, WithAnswer(x), card, pack, id))
    ensures WithAnswer(x) <= Final(x)
  {
    ReferencesTell(x, id);
    FresherTells(x, id);
    TakeTells(WithAnswer(x), FresherCandidates(x), {}, id);
  }

  lemma FinalIsComplete(x: Input)
    ensures IsFinal(x, WithAnswer(x), CardRecords(x), Rows(x, Outside(x.evidence, CardIds(x))), Final(x))
  {
    forall id: Id ensures Lists(WithAnswer(x), id, HasReference(x, id)) { ReferencesTell(x, id); }
    FinalLists(x, 0);
    forall id: Id
      ensures var card, pack := CardRecords(x), Rows(x, Outside(x.evidence, CardIds(x)));
        Lists(Final(x), id, id in WithAnswer(x) || IsFresherThan(x, WithAnswer(x), card, pack, id))
    {
      FinalLists(x, id);
    }
  }

  // ----- the contributors as they run -----

  function SetOf(s: seq<Id>): set<Id> { set id | id in s }

  lemma {:induction false} DistinctSize(s: seq<Id>)
    requires Distinct(s)
    ensures |SetOf(s)| == |s|
  {
    if s != [] {
      var init, last := s[..|s| - 1], s[|s| - 1];
      DistinctSize(init);
      assert s == init + [last];
      assert SetOf(s) == SetOf(init) + {last};
      assert last !in SetOf(init);
    }
  }

  /** Ids a proposal declares: the boundary's own list, and the carry of a rejected first proposal. */
  method CollectDeclared(matches: Matching, refs: seq<Ref>, visible: seq<Id>) returns (ids: seq<Id>, rejected: seq<nat>)
    ensures ids == Take([], Resolved(matches, refs, visible), {})
    ensures rejected == Refused([], Resolved(matches, refs, visible), {}, false, |refs|)
  {
    ghost var cands := Resolved(matches, refs, visible);
    ids, rejected := [], [];
    var seen: set<Id> := {};
    for n := 0 to |refs|
      invariant ids == Extended([], cands, {}, n) && forall id :: id in seen <==> id in ids
      invariant rejected == Refused([], cands, {}, false, n)
    {
      var ref := Resolve(matches, refs[n], visible);
      if ref.None? {
        rejected := rejected + [n];
      } else if ref.value !in seen {
        if |ids| >= RELIED_CLAIMS_LIMIT {
          rejected := rejected + [n];
        } else {
          seen := seen + {ref.value};
          ids := ids + [ref.value];
        }
      }
    }
  }

  /** Ids added to the list by references, and the references refused by name; `taken` holds the list so far. The
      references of the final answer name an operation's target as refused, those of dropped operations do not. */
  method AddReferences(matches: Matching, refs: seq<Ref>, visible: seq<Id>, relied: seq<Id>, operations: set<Id>,
      fromAnswer: bool)
      returns (added: seq<Id>, rejected: seq<nat>)
    requires Distinct(relied)
    ensures relied + added == Take(relied, Resolved(matches, refs, visible), operations)
    ensures rejected == Refused(relied, Resolved(matches, refs, visible), operations, fromAnswer, |refs|)
  {
    ghost var cands := Resolved(matches, refs, visible);
    added, rejected := [], [];
    var taken := SetOf(relied);
    DistinctSize(relied);
    assert relied + added == relied;
    for n := 0 to |refs|
      invariant relied + added == Extended(relied, cands, operations, n)
      invariant (forall id :: id in taken <==> id in relied + added) && |taken| == |relied + added|
      invariant rejected == Refused(relied, cands, operations, fromAnswer, n)
    {
      var ref := Resolve(matches, refs[n], visible);
      ghost var before := relied + added;
      if ref.None? {
        rejected := rejected + [n];
      } else if ref.value in taken {
      } else if ref.value in operations {
        if fromAnswer { rejected := rejected + [n]; }
      } else if |taken| >= RELIED_CLAIMS_LIMIT {
        rejected := rejected + [n];
      } else {
        taken := taken + {ref.value};
        added := added + [ref.value];
        assert relied + added == before + [ref.value];
      }
    }
  }

  /** A supplement as it is recorded: the claim, its series and the card's records of the series. */
  datatype Supplement = Supplement(id: Id, series: nat, outdated: seq<Record>)

  function OfSeries(marks: Marks, card: seq<Record>, series: nat): (r: seq<Record>)
    ensures forall c :: c in r <==> c in card && SameSeries(marks, c, series)
  {
    if card == [] then []
    else
      var init, last := card[..|card| - 1], card[|card| - 1];
      assert card == init + [last];
      OfSeries(marks, init, series) + if SameSeries(marks, last, series) then [last] else []
  }

  function Ids(added: seq<Supplement>): seq<Id> { seq(|added|, i requires 0 <= i < |added| => added[i].id) }

  /** Fresher forecasts the cap keeps out, by their place in the pack. */
  function OverCap(have: seq<Id>, cands: seq<Option<Id>>, n: nat): seq<nat>
    requires n <= |cands|
  {
    if n == 0 then []
    else
      OverCap(have, cands, n - 1)
      + if cands[n - 1].Some? && |Extended(have, cands, {}, n - 1)| >= RELIED_CLAIMS_LIMIT then [n - 1] else []
  }

  predicate IsSupplement(marks: Marks, card: seq<Record>, s: Supplement) {
    && Recorded(s.id) in marks && s.series == marks[Recorded(s.id)].series
    && s.outdated == OfSeries(marks, card, s.series)
  }

  /** Fresher forecasts of series the card shows outdated. */
  method AddForecasts(marks: Marks, card: seq<Record>, pack: seq<Id>, relied: seq<Id>)
      returns (added: seq<Supplement>, rejected: seq<nat>)
    requires Distinct(pack) && forall id :: id in pack ==> id !in relied
    ensures relied + Ids(added) == Take(relied, Fresher(marks, card, pack), {})
    ensures forall i :: 0 <= i < |added| ==> IsSupplement(marks, card, added[i])
    ensures rejected == OverCap(relied, Fresher(marks, card, pack), |pack|)
  {
    ghost var cands := Fresher(marks, card, pack);
    added, rejected := [], [];
    var used := |relied|;
    for n := 0 to |pack|
      invariant relied + Ids(added) == Extended(relied, cands, {}, n) && used == |relied + Ids(added)|
      invariant forall i :: 0 <= i < |added| ==> added[i].id in pack[..n] && IsSupplement(marks, card, added[i])
      invariant rejected == OverCap(relied, cands, n)
    {
      assert pack[..n + 1] == pack[..n] + [pack[n]];
      assert pack[n] in pack && pack[n] !in pack[..n];
      ghost var before := relied + Ids(added);
      if IsFresher(marks, card, Recorded(pack[n])) {
        assert pack[n] !in before;
        if used >= RELIED_CLAIMS_LIMIT {
          rejected := rejected + [n];
        } else {
          used := used + 1;
          var series := marks[Recorded(pack[n])].series;
          added := added + [Supplement(pack[n], series, OfSeries(marks, card, series))];
          assert relied + Ids(added) == before + [pack[n]];
        }
      }
    }
  }

  lemma {:induction false} RowsDistinct(x: Input, ids: seq<Id>)
    requires Distinct(ids)
    ensures Distinct(Rows(x, ids))
  {
    if ids != [] { RowsDistinct(x, ids[..|ids| - 1]); }
  }

  lemma {:induction false} OutsideDistinct(ids: seq<Id>, taken: set<Id>)
    requires Distinct(ids)
    ensures Distinct(Outside(ids, taken))
  {
    if ids != [] { OutsideDistinct(ids[..|ids| - 1], taken); }
  }

  /** The list after the references of dropped operations and of the final answer. */
  method BuildFromReferences(x: Input) returns (relied: seq<Id>)
    ensures relied == WithAnswer(x)
  {
    var refused: seq<nat>;
    relied, refused := CollectDeclared(x.matches, x.declared, x.visible);
    CarriedIsProper(x);
    if x.roundHeld && x.noClaims && relied == [] {
      relied, refused := CollectDeclared(x.matches, x.firstDeclared, x.visible);
    }
    var fromDropped: seq<Id>;
    fromDropped, refused := AddReferences(x.matches, x.droppedRefs, x.evidence, relied, Targets(x), false);
    TakeIsProper(x, relied, Resolved(x.matches, x.droppedRefs, x.evidence), Targets(x));
    relied := relied + fromDropped;
    var fromAnswer: seq<Id>;
    fromAnswer, refused := AddReferences(x.matches, x.answer, x.visible, relied, Targets(x), true);
    relied := relied + fromAnswer;
  }

  /** The five contributors in their order; the evidence section names each id once. */
  method BuildRelied(x: Input) returns (relied: seq<Id>)
    requires Distinct(x.evidence)
    ensures relied == Final(x)
    ensures exists list, card, pack :: IsFinal(x, list, card, pack, relied)
  {
    FinalIsComplete(x);
    relied := BuildFromReferences(x);
    var card := CardRecords(x);
    OutsideDistinct(x.evidence, CardIds(x));
    var others := Outside(x.evidence, CardIds(x));
    RowsDistinct(x, others);
    var pack := Rows(x, others);
    var fresher, refused := AddForecasts(x.marks(card, pack), card, pack, relied);
    relied := relied + Ids(fresher);
  }
}
