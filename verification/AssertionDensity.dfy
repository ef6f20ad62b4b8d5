/** The term-density window (apps/orchestrator/assertion_window.py).

    The two-pointer pass over the sorted term matches is proved equal to the
    quadratic search over the page: the chosen offset is the earliest match
    offset of maximal score. Scores are exact reals. */
module AssertionDensity {
  import opened Basics
  import opened Text

  const START_BONUS_DECAY := 8000
  const NUM_CONTEXT := 1500

  /** The lower-cased page and the character class the number bonus looks for. */
  datatype Page = Page(tl: string, digit: char -> bool)

  /** One occurrence of one kept stem. */
  datatype Match = Match(pos: nat, stem: string)

  predicate HasDigit(digit: char -> bool, s: string) {
    exists i :: 0 <= i < |s| && digit(s[i])
  }

  /** 0.5 when a digit stands in the wider context of the span opened at `lo`. */
  function NumberBonus(page: Page, span: nat, lo: nat): real {
    if HasDigit(page.digit, Slice(page.tl, lo, lo + 2 * span + 1 + NUM_CONTEXT)) then 0.5 else 0.0
  }

  /** 0.5 at offset 0, decaying linearly to 0 at START_BONUS_DECAY. */
  function StartBonus(lo: nat): real {
    if lo < START_BONUS_DECAY then 0.5 * (1.0 - lo as real / START_BONUS_DECAY as real) else 0.0
  }

  function Bonus(page: Page, span: nat, lo: nat): real {
    NumberBonus(page, span, lo) + StartBonus(lo)
  }

  /** What the bonuses look at: a digit among the characters from the offset to 1500 past the span, and the offset
      itself, linearly, below 8000. */
  lemma BonusTells(page: Page, span: nat, lo: nat)
    ensures Bonus(page, span, lo) - StartBonus(lo) == 0.5 || Bonus(page, span, lo) == StartBonus(lo)
    ensures Bonus(page, span, lo) != StartBonus(lo) <==>
      exists i :: lo <= i < |page.tl| && i <= lo + 2 * span + 1500 && page.digit(page.tl[i])
    ensures 16000.0 * StartBonus(lo) == (if lo <= 8000 then 8000 - lo else 0) as real
  {
    var near := Slice(page.tl, lo, lo + 2 * span + 1 + NUM_CONTEXT);
    if i :| lo <= i < |page.tl| && i <= lo + 2 * span + 1500 && page.digit(page.tl[i]) {
      assert near[i - lo] == page.tl[i];
    }
    if k :| 0 <= k < |near| && page.digit(near[k]) { assert near[k] == page.tl[lo + k]; }
  }

  // ----- the quadratic specification -----

  /** Distinct stems matched in the closed span [lo, lo + 2 * span]. */
  ghost function StemsNear(ms: seq<Match>, span: nat, lo: nat): set<string> {
    set i | 0 <= i < |ms| && lo <= ms[i].pos <= lo + 2 * span :: ms[i].stem
  }

  ghost function Distinct(ms: seq<Match>, span: nat, lo: nat): nat {
    |StemsNear(ms, span, lo)|
  }

  ghost function Score(page: Page, ms: seq<Match>, span: nat, lo: nat): real {
    Distinct(ms, span, lo) as real + Bonus(page, span, lo)
  }

  /** Among the first `n` matches, `best` is the earliest offset that none outscores. */
  ghost predicate EarliestBest(score: nat -> real, ms: seq<Match>, n: nat, best: nat)
    requires n <= |ms|
  {
    && (exists i :: 0 <= i < n && ms[i].pos == best)
    && forall i :: 0 <= i < n ==>
         || score(ms[i].pos) < score(best)
         || (score(ms[i].pos) == score(best) && best <= ms[i].pos)
  }

  ghost predicate BestOfFirst(page: Page, ms: seq<Match>, span: nat, n: nat, best: nat)
    requires n <= |ms|
  {
    EarliestBest(Scoring(page, ms, span), ms, n, best)
  }

  ghost function Scoring(page: Page, ms: seq<Match>, span: nat): nat -> real { (lo: nat) => Score(page, ms, span, lo) }

  ghost predicate IsEarliestBest(page: Page, ms: seq<Match>, span: nat, best: nat) {
    BestOfFirst(page, ms, span, |ms|, best)
  }

  ghost predicate Sorted(ms: seq<Match>) {
    forall i, j :: 0 <= i <= j < |ms| ==> ms[i].pos <= ms[j].pos
  }

  // ----- the sliding dictionary -----

  function Bump(present: map<string, nat>, s: string): map<string, nat> {
    present[s := (if s in present then present[s] else 0) + 1]
  }

  function Unbump(present: map<string, nat>, s: string): map<string, nat>
    requires s in present && present[s] > 0
  {
    if present[s] == 1 then present - {s} else present[s := present[s] - 1]
  }

  /** How often each stem stands among the matches left, ..., r - 1. */
  function Tally(ms: seq<Match>, left: nat, r: nat): map<string, nat>
    requires left <= r <= |ms|
  {
    if left == r then map[] else Bump(Tally(ms, left, r - 1), ms[r - 1].stem)
  }

  lemma {:induction false} TallyKeys(ms: seq<Match>, left: nat, r: nat)
    requires left <= r <= |ms|
    ensures forall s :: s in Tally(ms, left, r) <==> exists i :: left <= i < r && ms[i].stem == s
  {
    if left < r {
      TallyKeys(ms, left, r - 1);
    }
  }

  /** Forgetting the leftmost match is one decrement. */
  lemma {:induction false} TallyDropFirst(ms: seq<Match>, left: nat, r: nat)
    requires left < r <= |ms|
    ensures ms[left].stem in Tally(ms, left, r) && Tally(ms, left, r)[ms[left].stem] > 0
    ensures Tally(ms, left + 1, r) == Unbump(Tally(ms, left, r), ms[left].stem)
  {
    if left + 1 < r {
      TallyDropFirst(ms, left, r - 1);
      UnbumpCommutes(Tally(ms, left, r - 1), ms[left].stem, ms[r - 1].stem);
    } else {
      assert Tally(ms, left, left) == map[];
    }
  }

  lemma UnbumpCommutes(m: map<string, nat>, s: string, t: string)
    requires s in m && m[s] > 0
    ensures Bump(Unbump(m, s), t) == Unbump(Bump(m, t), s)
  {
  }

  /** The size of the tally against the span its leftmost match opens. */
  lemma SpanSize(ms: seq<Match>, span: nat, left: nat, r: nat)
    requires Sorted(ms) && left < r <= |ms|
    requires ms[r - 1].pos <= ms[left].pos + 2 * span
    requires r < |ms| ==> ms[r].pos > ms[left].pos + 2 * span
    ensures 0 < |Tally(ms, left, r)| <= Distinct(ms, span, ms[left].pos)
    ensures left == 0 || ms[left - 1].pos < ms[left].pos ==>
      |Tally(ms, left, r)| == Distinct(ms, span, ms[left].pos)
  {
    TallyKeys(ms, left, r);
    var near := StemsNear(ms, span, ms[left].pos);
    assert ms[left].stem in Tally(ms, left, r);
    SubsetSize(Tally(ms, left, r).Keys, near);
    if left == 0 || ms[left - 1].pos < ms[left].pos {
      forall s | s in near ensures s in Tally(ms, left, r) {
        var i :| 0 <= i < |ms| && ms[left].pos <= ms[i].pos <= ms[left].pos + 2 * span && ms[i].stem == s;
        assert left <= i < r;
      }
      assert Tally(ms, left, r).Keys == near;
    }
  }

  /** One more match compared: a match repeating the previous offset cannot displace it. */
  lemma CompareNext(score: nat -> real, ms: seq<Match>, left: nat, best: nat, seen: real)
    requires Sorted(ms) && left < |ms|
    requires left > 0 ==> EarliestBest(score, ms, left, best)
    requires left == 0 || ms[left - 1].pos < ms[left].pos ==> seen == score(ms[left].pos)
    requires seen <= score(ms[left].pos)
    ensures EarliestBest(score, ms, left + 1,
              if left == 0 || seen > score(best) then ms[left].pos else best)
  {
    if left > 0 && ms[left - 1].pos == ms[left].pos {
      assert score(ms[left - 1].pos) <= score(best);
    }
  }

  /** The right pointer's inner loop: take in every match up to `hi`. */
  method Advance(ms: seq<Match>, left: nat, start: nat, before: map<string, nat>, hi: nat)
    returns (r: nat, present: map<string, nat>)
    requires left <= start <= |ms| && before == Tally(ms, left, start)
    ensures start <= r <= |ms| && present == Tally(ms, left, r)
    ensures start < r ==> ms[r - 1].pos <= hi
    ensures r < |ms| ==> ms[r].pos > hi
  {
    r, present := start, before;
    while r < |ms| && ms[r].pos <= hi
      invariant start <= r <= |ms|
      invariant present == Tally(ms, left, r)
      invariant start < r ==> ms[r - 1].pos <= hi
    {
      present := Bump(present, ms[r].stem);
      r := r + 1;
    }
  }

  /** One left anchor: the tally's score decides as the full span's score would. */
  lemma AnchorStep(page: Page, ms: seq<Match>, span: nat, left: nat, r: nat, best: nat, seen: real)
    requires Sorted(ms) && left < r <= |ms|
    requires ms[r - 1].pos <= ms[left].pos + 2 * span
    requires r < |ms| ==> ms[r].pos > ms[left].pos + 2 * span
    requires left > 0 ==> BestOfFirst(page, ms, span, left, best)
    requires seen == |Tally(ms, left, r)| as real + Bonus(page, span, ms[left].pos)
    ensures seen > 0.0
    ensures left == 0 || seen > Score(page, ms, span, best) ==>
      seen == Score(page, ms, span, ms[left].pos) && BestOfFirst(page, ms, span, left + 1, ms[left].pos)
    ensures left > 0 && seen <= Score(page, ms, span, best) ==> BestOfFirst(page, ms, span, left + 1, best)
  {
    var score := Scoring(page, ms, span);
    SpanSize(ms, span, left, r);
    BonusRange(page, span, ms[left].pos);
    CompareNext(score, ms, left, best, seen);
    if left > 0 && ms[left - 1].pos == ms[left].pos {
      assert score(ms[left - 1].pos) <= score(best);
    }
  }

  /** What the two pointers, the dictionary and the best offset mean between anchors. */
  ghost predicate PassState(page: Page, ms: seq<Match>, span: nat, left: nat, r: nat,
                            present: map<string, nat>, best: nat, bestScore: real)
  {
    && left <= r <= |ms|
    && present == Tally(ms, left, r)
    && (left < r ==> 0 < left && ms[r - 1].pos <= ms[left - 1].pos + 2 * span)
    && bestScore == (if left == 0 then 0.0 else Score(page, ms, span, best))
    && (left > 0 ==> best in Bests(page, ms, span, left))
  }

  ghost function Bests(page: Page, ms: seq<Match>, span: nat, n: nat): iset<nat>
    requires n <= |ms|
  {
    iset b: nat | BestOfFirst(page, ms, span, n, b)
  }

  /** One turn of the pass: extend right, compare, shrink left. */
  method AnchorTurn(page: Page, ms: seq<Match>, span: nat, left: nat, r0: nat,
                    present0: map<string, nat>, best0: nat, score0: real)
    returns (r: nat, present: map<string, nat>, best: nat, bestScore: real)
    requires Sorted(ms) && left < |ms|
    requires PassState(page, ms, span, left, r0, present0, best0, score0)
    ensures PassState(page, ms, span, left + 1, r, present, best, bestScore)
  {
    var lo := ms[left].pos;
    r, present := Advance(ms, left, r0, present0, lo + 2 * span);
    var seen := |present| as real + Bonus(page, span, lo);
    AnchorStep(page, ms, span, left, r, best0, seen);
    if seen > score0 {
      bestScore, best := seen, lo;
    } else {
      bestScore, best := score0, best0;
    }
    TallyDropFirst(ms, left, r);
    present := Unbump(present, ms[left].stem);
  }

  /** Both pointers at the first match, nothing counted yet. */
  method StartPass(page: Page, ms: seq<Match>, span: nat)
      returns (r: nat, present: map<string, nat>, best: nat, bestScore: real)
    requires ms != []
    ensures PassState(page, ms, span, 0, r, present, best, bestScore)
  {
    bestScore, r, present := 0.0, 0, map[];
    best := ms[0].pos;
  }

  lemma PassEnds(page: Page, ms: seq<Match>, span: nat, r: nat, present: map<string, nat>, best: nat, bestScore: real)
    requires ms != [] && PassState(page, ms, span, |ms|, r, present, best, bestScore)
    ensures IsEarliestBest(page, ms, span, best)
  {
  }

  /** The sliding two-pointer pass finds what the quadratic search defines. */
  method DensestOffset(page: Page, ms: seq<Match>, span: nat) returns (best: nat)
    requires ms != [] && Sorted(ms)
    ensures IsEarliestBest(page, ms, span, best)
  {
    var bestScore: real, r: nat, present: map<string, nat>;
    r, present, best, bestScore := StartPass(page, ms, span);
    for left := 0 to |ms|
      invariant PassState(page, ms, span, left, r, present, best, bestScore)
    {
      r, present, best, bestScore := AnchorTurn(page, ms, span, left, r, present, best, bestScore);
    }
    PassEnds(page, ms, span, r, present, best, bestScore);
  }

  // ----- how far the tie-break bonuses can reach -----

  lemma BonusRange(page: Page, span: nat, lo: nat)
    ensures 0.0 <= Bonus(page, span, lo) <= 1.0
    ensures Bonus(page, span, lo) == 1.0 <==> lo == 0 && NumberBonus(page, span, lo) == 0.5
    ensures Bonus(page, span, lo) == 0.0 <==> START_BONUS_DECAY <= lo && NumberBonus(page, span, lo) == 0.0
  {
    if 0 < lo < START_BONUS_DECAY {
      var f := lo as real / START_BONUS_DECAY as real;
      assert 0.0 < f < 1.0;
      assert StartBonus(lo) == 0.5 * (1.0 - f);
    }
  }

  ghost predicate HasMostStems(ms: seq<Match>, span: nat, best: nat) {
    forall i :: 0 <= i < |ms| ==> Distinct(ms, span, ms[i].pos) <= Distinct(ms, span, best)
  }

  /** The one situation in which the bonuses outweigh a whole stem: offset 0 is a match with a
      number in its context, some offset has more stems, and every such offset has exactly one
      more, lies past the start decay and has no number in its context. */
  ghost predicate StartOutweighsStem(page: Page, ms: seq<Match>, span: nat) {
    && (exists z :: 0 <= z < |ms| && ms[z].pos == 0)
    && NumberBonus(page, span, 0) == 0.5
    && (exists i :: 0 <= i < |ms| && Distinct(ms, span, ms[i].pos) > Distinct(ms, span, 0))
    && forall i :: 0 <= i < |ms| && Distinct(ms, span, ms[i].pos) > Distinct(ms, span, 0) ==>
         && Distinct(ms, span, ms[i].pos) == Distinct(ms, span, 0) + 1
         && START_BONUS_DECAY <= ms[i].pos
         && NumberBonus(page, span, ms[i].pos) == 0.0
  }

  /** A best offset misses a stem of some other offset only at offset 0, and then exactly one. */
  lemma BestLosesOnlyAtStart(page: Page, ms: seq<Match>, span: nat, best: nat, i: nat)
    requires i < |ms| && IsEarliestBest(page, ms, span, best)
    requires Distinct(ms, span, ms[i].pos) > Distinct(ms, span, best)
    ensures best == 0 && NumberBonus(page, span, 0) == 0.5
    ensures Distinct(ms, span, ms[i].pos) == Distinct(ms, span, best) + 1
    ensures START_BONUS_DECAY <= ms[i].pos && NumberBonus(page, span, ms[i].pos) == 0.0
  {
    BonusRange(page, span, best);
    BonusRange(page, span, ms[i].pos);
    var d := Distinct(ms, span, ms[i].pos) - Distinct(ms, span, best);
    assert d as real <= Bonus(page, span, best) - Bonus(page, span, ms[i].pos);
    assert d == 1;
  }

  /** Exactly when the density winner has the maximal number of distinct stems. */
  lemma BestHasMostStemsIff(page: Page, ms: seq<Match>, span: nat, best: nat)
    requires IsEarliestBest(page, ms, span, best)
    ensures HasMostStems(ms, span, best) <==> !StartOutweighsStem(page, ms, span)
  {
    if i :| 0 <= i < |ms| && Distinct(ms, span, ms[i].pos) > Distinct(ms, span, best) {
      BestLosesOnlyAtStart(page, ms, span, best, i);
      forall j | 0 <= j < |ms| && Distinct(ms, span, ms[j].pos) > Distinct(ms, span, 0)
        ensures Distinct(ms, span, ms[j].pos) == Distinct(ms, span, 0) + 1
        ensures START_BONUS_DECAY <= ms[j].pos && NumberBonus(page, span, ms[j].pos) == 0.0
      {
        BestLosesOnlyAtStart(page, ms, span, best, j);
      }
    }
    if StartOutweighsStem(page, ms, span) {
      var k :| 0 <= k < |ms| && Distinct(ms, span, ms[k].pos) > Distinct(ms, span, 0);
      BonusRange(page, span, 0);
      BonusRange(page, span, best);
      assert Distinct(ms, span, best) <= Distinct(ms, span, 0);
    }
  }
}
