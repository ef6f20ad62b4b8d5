/** Selection of the assertion fragments (apps/orchestrator/assertion_window.py):
    the density window over a page, the value window, and both together. */
module AssertionWindows {
  import opened Text
  import opened AssertionDensity
  import opened AssertionAnchors

  const MIN_TERM_FREQ := 4
  const FACT_ZONE_DECAY := 16000

  /** `start` is -1 for the leading-prefix fallback. */
  datatype Window = Window(text: string, start: int)

  datatype Selection<T> = Selected(value: T) | ValueError

  // ----- which stems can localise the fact -----

  predicate NonEmptyTerms(terms: seq<string>) {
    forall i :: 0 <= i < |terms| ==> |terms[i]| > 0
  }

  function TotalCount(tl: string, terms: seq<string>): nat
    requires NonEmptyTerms(terms)
  {
    if terms == [] then 0
    else TotalCount(tl, terms[..|terms| - 1]) + CountFrom(tl, terms[|terms| - 1], 0)
  }

  function Cap(tl: string, terms: seq<string>): nat
    requires NonEmptyTerms(terms)
  {
    var half := TotalCount(tl, terms) / 2;
    if half < MIN_TERM_FREQ then MIN_TERM_FREQ else half
  }

  /** Stems on the page, not above the cap, not page furniture. */
  function Kept(tl: string, terms: seq<string>, cap: nat, chrome: set<string>): seq<string>
    requires NonEmptyTerms(terms)
  {
    if terms == [] then []
    else
      var t := terms[|terms| - 1];
      var rest := Kept(tl, terms[..|terms| - 1], cap, chrome);
      if 0 < CountFrom(tl, t, 0) <= cap && t !in chrome then rest + [t] else rest
  }

  lemma {:induction false} KeptOccur(tl: string, terms: seq<string>, cap: nat, chrome: set<string>)
    requires NonEmptyTerms(terms)
    ensures forall s :: s in Kept(tl, terms, cap, chrome) ==> |s| > 0 && exists k: nat :: OccursAt(tl, s, k)
  {
    if terms != [] {
      KeptOccur(tl, terms[..|terms| - 1], cap, chrome);
      CountPositive(tl, terms[|terms| - 1], 0);
    }
  }

  /** A stem is kept exactly when it is a term, on the page, not page furniture, and not more frequent than half of
      all matches together, four times being always allowed. */
  lemma {:induction false} KeptIff(tl: string, terms: seq<string>, cap: nat, chrome: set<string>, s: string)
    requires NonEmptyTerms(terms)
    ensures s in Kept(tl, terms, cap, chrome) <==>
      s in terms && |s| > 0 && 1 <= CountFrom(tl, s, 0) <= cap && s !in chrome
  {
    if terms != [] {
      KeptIff(tl, terms[..|terms| - 1], cap, chrome, s);
      assert terms == terms[..|terms| - 1] + [terms[|terms| - 1]];
    }
  }

  /** The number of all matches is the sum over the terms. */
  lemma {:induction false} TotalAdds(tl: string, a: seq<string>, b: seq<string>)
    requires NonEmptyTerms(a + b) && NonEmptyTerms(a) && NonEmptyTerms(b)
    ensures TotalCount(tl, a + b) == TotalCount(tl, a) + TotalCount(tl, b)
    ensures |b| == 1 ==> TotalCount(tl, b) == CountFrom(tl, b[0], 0)
  {
    if b == [] {
      assert a + b == a;
    } else {
      assert (a + b)[..|a + b| - 1] == a + b[..|b| - 1];
      TotalAdds(tl, a, b[..|b| - 1]);
      assert |b| == 1 ==> b[..0] == [];
    }
  }

  lemma KeptOnIff(lex: Lexicon, text: string, s: string)
    requires NonEmptyTerms(lex.terms)
    ensures var tl := Lowered(lex.lower, text); var total := TotalCount(tl, lex.terms);
      s in KeptOn(lex, text) <==>
        && s in lex.terms && s !in lex.chrome
        && 1 <= CountFrom(tl, s, 0) && (CountFrom(tl, s, 0) <= 4 || CountFrom(tl, s, 0) <= total / 2)
  {
    var tl := Lowered(lex.lower, text);
    KeptIff(tl, lex.terms, Cap(tl, lex.terms), lex.chrome, s);
  }

  // ----- collecting and sorting the matches -----

  /** `ms` holds every occurrence of every stem, and nothing else. */
  ghost predicate AllMatches(tl: string, stems: seq<string>, ms: seq<Match>) {
    && (forall i :: 0 <= i < |ms| ==> ms[i].stem in stems && OccursAt(tl, ms[i].stem, ms[i].pos))
    && (forall s, p: nat :: s in stems && OccursAt(tl, s, p) ==> Match(p, s) in ms)
  }

  /** The occurrences of one stem, found left to right. */
  method MatchesOf(tl: string, stem: string) returns (ms: seq<Match>)
    ensures forall i :: 0 <= i < |ms| ==> ms[i].stem == stem && OccursAt(tl, stem, ms[i].pos)
    ensures forall p: nat :: OccursAt(tl, stem, p) ==> Match(p, stem) in ms
  {
    ms := [];
    var from := 0;
    while from <= |tl|
      invariant forall i :: 0 <= i < |ms| ==> ms[i].stem == stem && OccursAt(tl, stem, ms[i].pos)
      invariant forall p: nat :: p < from && OccursAt(tl, stem, p) ==> Match(p, stem) in ms
      decreases |tl| + 1 - from
    {
      var i := Find(tl, stem, from);
      if i < 0 { return; }
      ms := ms + [Match(i, stem)];
      from := i + 1;
    }
  }

  method CollectMatches(tl: string, stems: seq<string>) returns (ms: seq<Match>)
    ensures AllMatches(tl, stems, ms)
  {
    ms := [];
    for n := 0 to |stems|
      invariant AllMatches(tl, stems[..n], ms)
    {
      var more := MatchesOf(tl, stems[n]);
      assert stems[..n + 1] == stems[..n] + [stems[n]];
      ms := ms + more;
    }
    assert stems[..|stems|] == stems;
  }

  function InsertMatch(ms: seq<Match>, m: Match): seq<Match> {
    if ms == [] || ms[|ms| - 1].pos <= m.pos then ms + [m]
    else InsertMatch(ms[..|ms| - 1], m) + [ms[|ms| - 1]]
  }

  function SortMatches(ms: seq<Match>): seq<Match> {
    if ms == [] then [] else InsertMatch(SortMatches(ms[..|ms| - 1]), ms[|ms| - 1])
  }

  lemma {:induction false} InsertMatchSorts(ms: seq<Match>, m: Match)
    requires Sorted(ms)
    ensures Sorted(InsertMatch(ms, m)) && |InsertMatch(ms, m)| == |ms| + 1
    ensures forall x :: x in InsertMatch(ms, m) <==> x in ms || x == m
  {
    if ms != [] && ms[|ms| - 1].pos > m.pos {
      var n := |ms| - 1;
      InsertMatchSorts(ms[..n], m);
      var put := InsertMatch(ms[..n], m);
      assert ms == ms[..n] + [ms[n]];
      forall i | 0 <= i < |put| ensures put[i].pos <= ms[n].pos {
        assert put[i] in put;
      }
    }
  }

  lemma {:induction false} SortMatchesSorts(ms: seq<Match>)
    ensures Sorted(SortMatches(ms)) && |SortMatches(ms)| == |ms|
    ensures forall x :: x in SortMatches(ms) <==> x in ms
  {
    if ms != [] {
      var n := |ms| - 1;
      SortMatchesSorts(ms[..n]);
      InsertMatchSorts(SortMatches(ms[..n]), ms[n]);
      assert ms == ms[..n] + [ms[n]];
    }
  }

  // ----- the density window, read off the page alone -----

  ghost predicate StemNear(tl: string, s: string, span: nat, lo: nat) {
    exists p: nat :: lo <= p <= lo + 2 * span && OccursAt(tl, s, p)
  }

  /** Distinct kept stems in the closed span plus the bonuses. */
  ghost function PageScore(page: Page, kept: seq<string>, span: nat, lo: nat): real {
    |set s | s in kept && StemNear(page.tl, s, span, lo)| as real + Bonus(page, span, lo)
  }

  ghost predicate IsOffset(tl: string, kept: seq<string>, p: nat) {
    exists s :: s in kept && OccursAt(tl, s, p)
  }

  /** The earliest occurrence offset of maximal page score. */
  ghost predicate PageBest(page: Page, kept: seq<string>, span: nat, best: nat) {
    && IsOffset(page.tl, kept, best)
    && forall q: nat :: IsOffset(page.tl, kept, q) ==>
         || PageScore(page, kept, span, q) < PageScore(page, kept, span, best)
         || (PageScore(page, kept, span, q) == PageScore(page, kept, span, best) && best <= q)
  }

  lemma MatchesScoreThePage(page: Page, kept: seq<string>, ms: seq<Match>, span: nat, lo: nat)
    requires AllMatches(page.tl, kept, ms)
    ensures Score(page, ms, span, lo) == PageScore(page, kept, span, lo)
  {
    var near := StemsNear(ms, span, lo);
    var here := set s | s in kept && StemNear(page.tl, s, span, lo);
    forall s | s in here ensures s in near {
      var p: nat :| lo <= p <= lo + 2 * span && OccursAt(page.tl, s, p);
      assert Match(p, s) in ms;
      var i :| 0 <= i < |ms| && ms[i] == Match(p, s);
      assert ms[i].stem in near;
    }
    assert near == here;
  }

  lemma BestMatchIsPageBest(page: Page, kept: seq<string>, ms: seq<Match>, span: nat, best: nat)
    requires AllMatches(page.tl, kept, ms) && IsEarliestBest(page, ms, span, best)
    ensures PageBest(page, kept, span, best)
  {
    var b :| 0 <= b < |ms| && ms[b].pos == best;
    MatchesScoreThePage(page, kept, ms, span, best);
    forall q: nat | IsOffset(page.tl, kept, q)
      ensures || PageScore(page, kept, span, q) < PageScore(page, kept, span, best)
              || (PageScore(page, kept, span, q) == PageScore(page, kept, span, best) && best <= q)
    {
      var s :| s in kept && OccursAt(page.tl, s, q);
      assert Match(q, s) in ms;
      var i :| 0 <= i < |ms| && ms[i] == Match(q, s);
      assert ms[i].pos == q;
      MatchesScoreThePage(page, kept, ms, span, q);
    }
  }

  lemma SortedMatchesAreAll(tl: string, kept: seq<string>, ms: seq<Match>)
    requires AllMatches(tl, kept, ms)
    ensures Sorted(SortMatches(ms)) && AllMatches(tl, kept, SortMatches(ms))
  {
    SortMatchesSorts(ms);
    var out := SortMatches(ms);
    forall i | 0 <= i < |out| ensures out[i].stem in kept && OccursAt(tl, out[i].stem, out[i].pos) {
      assert out[i] in ms;
    }
  }

  // ----- a page on which the start outweighs a stem -----

  /** "rate7" at the start, "ratejuly" at 8000, and nothing else but filler. */
  function LongPage(): Page {
    Page(seq(10000, i requires 0 <= i < 10000 =>
      if i < 5 then "rate7"[i] else if 8000 <= i < 8008 then "ratejuly"[i - 8000] else 'x'), c => c == '7')
  }

  const LONG_MATCHES := [Match(0, "rate"), Match(8000, "rate"), Match(8004, "july")]

  lemma LongLetters(p: nat)
    requires p < 10000
    ensures LongPage().tl[p] == 'r' <==> p == 0 || p == 8000
    ensures LongPage().tl[p] == 'j' <==> p == 8004
  {
    var a, b := "rate7", "ratejuly";
    assert a[0] == 'r' && a[1] == 'a' && a[2] == 't' && a[3] == 'e' && a[4] == '7';
    assert b[0] == 'r' && b[1] == 'a' && b[2] == 't' && b[3] == 'e';
    assert b[4] == 'j' && b[5] == 'u' && b[6] == 'l' && b[7] == 'y';
  }

  lemma LongOccurs(p: nat)
    ensures OccursAt(LongPage().tl, "rate", p) <==> p == 0 || p == 8000
    ensures OccursAt(LongPage().tl, "july", p) <==> p == 8004
  {
    var tl := LongPage().tl;
    if p + 4 <= |tl| {
      assert tl[p..p + 4][0] == tl[p];
      assert "rate"[0] == 'r' && "july"[0] == 'j';
      LongLetters(p);
    }
    assert tl[0..4] == "rate" && tl[8000..8004] == "rate" && tl[8004..8008] == "july";
  }

  lemma LongMatchesAreAll()
    ensures Sorted(LONG_MATCHES) && AllMatches(LongPage().tl, ["rate", "july"], LONG_MATCHES)
  {
    var tl, ms := LongPage().tl, LONG_MATCHES;
    LongOccurs(0);
    LongOccurs(8000);
    LongOccurs(8004);
    forall p: nat, s | s in ["rate", "july"] && OccursAt(tl, s, p) ensures Match(p, s) in ms {
      LongOccurs(p);
      assert ms[0] in ms && ms[1] in ms && ms[2] in ms;
    }
  }

  lemma LongStems()
    ensures StemsNear(LONG_MATCHES, 400, 0) == {"rate"} && StemsNear(LONG_MATCHES, 400, 8004) == {"july"}
    ensures StemsNear(LONG_MATCHES, 400, 8000) == {"rate", "july"} && "rate" != "july"
  {
    var ms := LONG_MATCHES;
    assert ms[0].stem == "rate" && ms[1].stem == "rate" && ms[2].stem == "july";
    assert "rate"[0] == 'r' && "july"[0] == 'j';
  }

  lemma LongHasOneDigit(lo: nat, hi: nat, k: nat)
    requires 5 <= lo && k < |Slice(LongPage().tl, lo, hi)|
    ensures Slice(LongPage().tl, lo, hi)[k] != '7'
  {
    assert forall j :: 0 <= j < 8 ==> "ratejuly"[j] != '7';
    var a := if lo > 10000 then 10000 else lo;
    assert Slice(LongPage().tl, lo, hi)[k] == LongPage().tl[a + k];
  }

  lemma LongBonus()
    ensures Bonus(LongPage(), 400, 0) == 1.0
    ensures Bonus(LongPage(), 400, 8000) == 0.0 && Bonus(LongPage(), 400, 8004) == 0.0
  {
    var page := LongPage();
    BonusRange(page, 400, 0);
    BonusRange(page, 400, 8000);
    BonusRange(page, 400, 8004);
    assert Slice(page.tl, 0, 2301)[4] == '7';
    forall lo: nat, hi: nat, k: nat | 5 <= lo && k < |Slice(page.tl, lo, hi)| ensures Slice(page.tl, lo, hi)[k] != '7' {
      LongHasOneDigit(lo, hi, k);
    }
  }

  lemma LongScores()
    ensures Score(LongPage(), LONG_MATCHES, 400, 0) == 2.0 == Score(LongPage(), LONG_MATCHES, 400, 8000)
    ensures Score(LongPage(), LONG_MATCHES, 400, 8004) == 1.0
    ensures Distinct(LONG_MATCHES, 400, 0) == 1 && Distinct(LONG_MATCHES, 400, 8000) == 2
  {
    LongStems();
    LongBonus();
  }

  /** Three offsets, the first two level and the third behind: the first one wins. */
  lemma FirstOfThree(page: Page, ms: seq<Match>, span: nat)
    requires |ms| == 3 && ms[0].pos == 0
    requires Score(page, ms, span, ms[0].pos) == Score(page, ms, span, ms[1].pos) > Score(page, ms, span, ms[2].pos)
    ensures IsEarliestBest(page, ms, span, 0)
  {
  }

  /** The number at the start and offset 0 together are worth as much as the second stem far down the page, and the
      earlier offset wins: of all matches of the page the winner has fewer stems than another. */
  lemma StemLostAtStart()
    ensures Sorted(LONG_MATCHES) && AllMatches(LongPage().tl, ["rate", "july"], LONG_MATCHES)
    ensures IsEarliestBest(LongPage(), LONG_MATCHES, 400, 0) && PageBest(LongPage(), ["rate", "july"], 400, 0)
    ensures !HasMostStems(LONG_MATCHES, 400, 0)
  {
    LongMatchesAreAll();
    LongScores();
    FirstOfThree(LongPage(), LONG_MATCHES, 400);
    assert Distinct(LONG_MATCHES, 400, LONG_MATCHES[1].pos) == 2;
    BestMatchIsPageBest(LongPage(), ["rate", "july"], LONG_MATCHES, 400, 0);
  }

  method BestPageOffset(page: Page, kept: seq<string>, span: nat) returns (best: nat)
    requires exists p: nat :: IsOffset(page.tl, kept, p)
    ensures PageBest(page, kept, span, best)
  {
    var collected := CollectMatches(page.tl, kept);
    var ms := SortMatches(collected);
    SortedMatchesAreAll(page.tl, kept, collected);
    assert ms != [];
    best := DensestOffset(page, ms, span);
    BestMatchIsPageBest(page, kept, ms, span, best);
  }

  /** The question's terms, the page furniture, the character classes, the table-of-contents test
      (on lower-cased text), the date form and the count of data values in a span. */
  datatype Lexicon = Lexicon(lower: char -> char, digit: char -> bool, drop: char -> bool, toc: string -> bool,
                             date: string -> bool, terms: seq<string>, chrome: set<string>, significant: string -> nat)

  function KeptOn(lex: Lexicon, text: string): seq<string>
    requires NonEmptyTerms(lex.terms)
  {
    var tl := Lowered(lex.lower, text);
    Kept(tl, lex.terms, Cap(tl, lex.terms), lex.chrome)
  }

  function PageOf(lex: Lexicon, text: string): Page { Page(Lowered(lex.lower, text), lex.digit) }

  function Back(p: nat, lead: nat): nat { if p < lead then 0 else p - lead }

  /** The window opened `lead` characters before the page's best offset. */
  ghost predicate OpensBefore(lex: Lexicon, text: string, budget: nat, span: nat, lead: nat, w: Window, best: nat)
    requires NonEmptyTerms(lex.terms)
  {
    && PageBest(PageOf(lex, text), KeptOn(lex, text), span, best)
    && w == Window(Slice(text, Back(best, lead), Back(best, lead) + budget), Back(best, lead))
  }

  /** What the density window of a page is. */
  ghost predicate IsDensityWindow(lex: Lexicon, text: string, budget: nat, span: nat, lead: nat, w: Window)
    requires NonEmptyTerms(lex.terms)
  {
    if |text| <= budget then w == Window(text, 0)
    else if KeptOn(lex, text) == [] then w == Window(Slice(text, 0, budget), -1)
    else exists best: nat :: OpensBefore(lex, text, budget, span, lead, w, best)
  }

  lemma KeptHasOffset(lex: Lexicon, text: string)
    requires NonEmptyTerms(lex.terms) && KeptOn(lex, text) != []
    ensures exists p: nat :: IsOffset(PageOf(lex, text).tl, KeptOn(lex, text), p)
  {
    var tl, kept := PageOf(lex, text).tl, KeptOn(lex, text);
    KeptOccur(tl, lex.terms, Cap(tl, lex.terms), lex.chrome);
    assert kept[0] in kept;
    var p: nat :| OccursAt(tl, kept[0], p);
    assert IsOffset(tl, kept, p);
  }

  lemma BestOffsetOnPage(lex: Lexicon, text: string, p: nat)
    requires NonEmptyTerms(lex.terms) && IsOffset(PageOf(lex, text).tl, KeptOn(lex, text), p)
    ensures p < |text|
  {
    var tl, kept := PageOf(lex, text).tl, KeptOn(lex, text);
    KeptOccur(tl, lex.terms, Cap(tl, lex.terms), lex.chrome);
    var s :| s in kept && OccursAt(tl, s, p);
  }

  method SelectAssertionWindow(lex: Lexicon, text: string, budget: int, span: nat, lead: nat)
    returns (r: Selection<Window>)
    requires NonEmptyTerms(lex.terms)
    ensures r.ValueError? <==> budget <= 0
    ensures budget > 0 ==> IsDensityWindow(lex, text, budget, span, lead, r.value)
  {
    if budget <= 0 { return ValueError; }
    if |text| <= budget { return Selected(Window(text, 0)); }
    var kept := KeptOn(lex, text);
    if kept == [] { return Selected(Window(Slice(text, 0, budget), -1)); }
    KeptHasOffset(lex, text);
    var best := BestPageOffset(PageOf(lex, text), kept, span);
    var start := Back(best, lead);
    r := Selected(Window(Slice(text, start, start + budget), start));
    assert OpensBefore(lex, text, budget, span, lead, r.value, best);
  }

  /** With room behind the lead the window shows the best offset. */
  lemma WindowShowsBest(lex: Lexicon, text: string, budget: nat, span: nat, lead: nat, w: Window, best: nat)
    requires NonEmptyTerms(lex.terms) && lead < budget < |text| && OpensBefore(lex, text, budget, span, lead, w, best)
    ensures w.start <= best < w.start + |w.text| && best - w.start == if best < lead then best else lead
  {
    BestOffsetOnPage(lex, text, best);
  }

  // ----- the value window -----

  /** One search for a value window: the page, its lower case, the geometry and the avoided window. */
  datatype Zone = Zone(lex: Lexicon, text: string, tl: string, budget: nat, span: nat, lead: nat, avoid: int) {

    /** A maximal run of digits starts at `p` inside the fact zone. */
    predicate IsNumberStart(p: nat) {
      p < |tl| && p < FACT_ZONE_DECAY && lex.digit(tl[p]) && (p == 0 || !lex.digit(tl[p - 1]))
    }

    function Score(p: nat): real {
      var region := Slice(tl, p, p + 2 * span);
      (TermsIn(lex.terms, region) as real + 2.0 * lex.significant(region) as real)
      * (1.0 - p as real / FACT_ZONE_DECAY as real)
    }

    /** The candidate scores, is not a table of contents, and its window leaves `avoid` alone. */
    predicate Eligible(p: nat) {
      && IsNumberStart(p) && Score(p) > 0.0 && !lex.toc(Slice(tl, p, p + 2 * span))
      && !(avoid >= 0 && Back(p, lead) < avoid + budget && EndOf(text, Back(p, lead), budget) > avoid)
    }
  }

  /** A data value weighs as much as two terms, and the weight decays linearly to nothing at 16000. */
  lemma ValueScoreTells(z: Zone, p: nat)
    ensures var region := Slice(z.tl, p, p + 2 * z.span);
      IsDecayed(|PlacesOf(z.lex.terms, region)|, z.lex.significant(region), p, z.Score(p))
  {
    TermsInCounts(z.lex.terms, Slice(z.tl, p, p + 2 * z.span));
    Decayed(TermsIn(z.lex.terms, Slice(z.tl, p, p + 2 * z.span)), z.lex.significant(Slice(z.tl, p, p + 2 * z.span)), p,
            z.Score(p));
  }

  /** Terms once and data values twice, times what is left of 16000. */
  predicate IsDecayed(terms: nat, values: nat, p: nat, score: real) {
    16000.0 * score == (terms + 2 * values) as real * (16000.0 - p as real)
  }

  lemma Decayed(terms: nat, values: nat, p: nat, score: real)
    requires score == (terms as real + 2.0 * values as real) * (1.0 - p as real / FACT_ZONE_DECAY as real)
    ensures IsDecayed(terms, values, p, score)
  {
    var w, f := terms as real + 2.0 * values as real, 1.0 - p as real / 16000.0;
    Scaled(16000.0, w, f);
    assert 16000.0 * f == 16000.0 - p as real;
  }

  lemma Scaled(a: real, b: real, c: real)
    ensures a * (b * c) == b * (a * c)
  {
  }

  function TermsIn(terms: seq<string>, s: string): nat {
    if terms == [] then 0
    else TermsIn(terms[..|terms| - 1], s) + if Contains(s, terms[|terms| - 1]) then 1 else 0
  }

  function PlacesOf(terms: seq<string>, s: string): (r: set<int>)
    ensures forall i :: i in r <==> 0 <= i < |terms| && Contains(s, terms[i])
  {
    set i | 0 <= i < |terms| && Contains(s, terms[i])
  }

  /** Every term of the list that stands in the text counts once. */
  lemma {:induction false} TermsInCounts(terms: seq<string>, s: string)
    ensures TermsIn(terms, s) == |PlacesOf(terms, s)|
  {
    if terms != [] {
      var n := |terms| - 1;
      TermsInCounts(terms[..n], s);
      var before := PlacesOf(terms[..n], s);
      assert PlacesOf(terms, s) == if Contains(s, terms[n]) then before + {n} else before;
    }
  }

  function EndOf(text: string, start: nat, budget: nat): nat {
    if start + budget < |text| then start + budget else |text|
  }

  /** Among the offsets below `n`, `best` is the earliest eligible one of maximal score. */
  ghost predicate BestValueBelow(z: Zone, n: nat, best: nat) {
    && best < n && z.Eligible(best)
    && forall q: nat :: q < n && z.Eligible(q) ==>
         z.Score(q) < z.Score(best) || (z.Score(q) == z.Score(best) && best <= q)
  }

  /** The scan has passed the offsets below `n`. */
  ghost predicate Scanned(z: Zone, n: nat, start: int, best: nat, score: real) {
    if start < 0 then start == -1 && score == 0.0 && forall q: nat :: q < n ==> !z.Eligible(q)
    else start == Back(best, z.lead) && score == z.Score(best) && BestValueBelow(z, n, best)
  }

  ghost predicate IsValueStart(lex: Lexicon, text: string, budget: nat, span: nat, lead: nat, avoid: int, start: int) {
    var z := Zone(lex, text, Lowered(lex.lower, text), budget, span, lead, avoid);
    if start < 0 then start == -1 && forall q: nat :: !z.Eligible(q)
    else exists best: nat :: start == Back(best, lead) && BestValueBelow(z, |text|, best)
  }

  lemma ScanStep(z: Zone, p: nat, start: int, best: nat, score: real)
    requires Scanned(z, p, start, best, score)
    ensures z.Eligible(p) && z.Score(p) > score ==> Scanned(z, p + 1, Back(p, z.lead), p, z.Score(p))
    ensures !(z.Eligible(p) && z.Score(p) > score) ==> Scanned(z, p + 1, start, best, score)
  {
  }

  method BestValueWindowStart(lex: Lexicon, text: string, budget: nat, span: nat, lead: nat, avoid: int)
    returns (start: int)
    ensures IsValueStart(lex, text, budget, span, lead, avoid, start)
  {
    var z := Zone(lex, text, Lowered(lex.lower, text), budget, span, lead, avoid);
    var score := 0.0;
    start := -1;
    ghost var best := 0;
    for p := 0 to |text|
      invariant Scanned(z, p, start, best, score)
    {
      ScanStep(z, p, start, best, score);
      if z.Eligible(p) && z.Score(p) > score {
        score, start := z.Score(p), Back(p, lead);
        best := p;
      }
    }
  }

  /** The number starts here: a digit, no digit before it, within the first 16000 characters, and with something beside
      it; no table of contents; and the window opened before it, on the page, leaves the avoided one alone. */
  ghost predicate CanOpen(lex: Lexicon, text: string, budget: nat, span: nat, lead: nat, avoid: int, p: nat) {
    var tl := Lowered(lex.lower, text);
    var start := if p < lead then 0 else p - lead;
    var end := if start + budget < |text| then start + budget else |text|;
    && p < |text| && p < 16000 && lex.digit(lex.lower(text[p])) && (p > 0 ==> !lex.digit(lex.lower(text[p - 1])))
    && (PlacesOf(lex.terms, Slice(tl, p, p + 2 * span)) != {} || lex.significant(Slice(tl, p, p + 2 * span)) > 0)
    && !lex.toc(Slice(tl, p, p + 2 * span))
    && (avoid >= 0 ==> Disjoint(start, end, avoid, avoid + budget))
  }

  lemma EligibleIff(lex: Lexicon, text: string, budget: nat, span: nat, lead: nat, avoid: int, p: nat)
    ensures Zone(lex, text, Lowered(lex.lower, text), budget, span, lead, avoid).Eligible(p)
       <==> CanOpen(lex, text, budget, span, lead, avoid, p)
  {
    var z := Zone(lex, text, Lowered(lex.lower, text), budget, span, lead, avoid);
    if z.IsNumberStart(p) { ScoreIsPositive(z, p); }
  }

  lemma ScoreIsPositive(z: Zone, p: nat)
    requires p < 16000
    ensures var region := Slice(z.tl, p, p + 2 * z.span);
      z.Score(p) > 0.0 <==> PlacesOf(z.lex.terms, region) != {} || z.lex.significant(region) > 0
  {
    var region := Slice(z.tl, p, p + 2 * z.span);
    var weight := |PlacesOf(z.lex.terms, region)| + 2 * z.lex.significant(region);
    ValueScoreTells(z, p);
    SignOfProduct(weight as real, 16000.0 - p as real, 16000.0 * z.Score(p));
    assert weight > 0 <==> |PlacesOf(z.lex.terms, region)| > 0 || z.lex.significant(region) > 0;
  }

  lemma SignOfProduct(a: real, b: real, c: real)
    requires a >= 0.0 && b > 0.0 && c == a * b
    ensures c > 0.0 <==> a > 0.0
  {
  }

  /** The value window, from the text: none when no number qualifies, else opened before the earliest best one. */
  lemma ValueStartTells(lex: Lexicon, text: string, budget: nat, span: nat, lead: nat, avoid: int, start: int)
    requires IsValueStart(lex, text, budget, span, lead, avoid, start)
    ensures start < 0 <==> forall q: nat :: !CanOpen(lex, text, budget, span, lead, avoid, q)
    ensures start >= 0 ==> exists best: nat ::
      CanOpen(lex, text, budget, span, lead, avoid, best) && start == if best < lead then 0 else best - lead
  {
    forall q: nat
      ensures Zone(lex, text, Lowered(lex.lower, text), budget, span, lead, avoid).Eligible(q)
         <==> CanOpen(lex, text, budget, span, lead, avoid, q)
    {
      EligibleIff(lex, text, budget, span, lead, avoid, q);
    }
  }

  /** A value window lies on the page and shares nothing with the avoided window. */
  lemma ValueWindowIsFree(lex: Lexicon, text: string, budget: nat, span: nat, lead: nat, avoid: int, start: int)
    requires budget > 0 && IsValueStart(lex, text, budget, span, lead, avoid, start) && start >= 0
    ensures start < |text|
    ensures avoid >= 0 ==> Disjoint(start, EndOf(text, start, budget), avoid, avoid + budget)
  {
  }

  // ----- both windows -----

  /** A verbatim, non-empty fragment of at most `budget` characters. */
  ghost predicate IsFragment(text: string, budget: nat, w: Window) {
    var a := if w.start < 0 then 0 else w.start;
    && a <= EndOf(text, a, budget) && w.text == text[a..EndOf(text, a, budget)]
    && |w.text| <= budget && (text != [] ==> w.text != [])
  }

  ghost predicate DisjointWindows(w: Window, u: Window) {
    w.start >= 0 && u.start >= 0 && Disjoint(w.start, w.start + |w.text|, u.start, u.start + |u.text|)
  }

  ghost predicate IsSelection(text: string, budget: nat, maxWindows: nat, ws: seq<Window>) {
    && 1 <= |ws| <= maxWindows && |ws| <= 2
    && (forall i :: 0 <= i < |ws| ==> IsFragment(text, budget, ws[i]))
    && (|ws| == 2 ==> DisjointWindows(ws[0], ws[1]))
  }

  function WindowAt(text: string, start: nat, budget: nat): Window {
    Window(Slice(text, start, start + budget), start)
  }

  lemma WindowAtIsFragment(text: string, start: nat, budget: nat)
    requires budget > 0 && start < |text|
    ensures IsFragment(text, budget, WindowAt(text, start, budget))
    ensures start + |WindowAt(text, start, budget).text| == EndOf(text, start, budget)
  {
  }

  lemma DensityWindowIsFragment(lex: Lexicon, text: string, budget: nat, span: nat, lead: nat, w: Window)
    requires NonEmptyTerms(lex.terms) && 0 < budget < |text|
    requires IsDensityWindow(lex, text, budget, span, lead, w)
    ensures IsFragment(text, budget, w)
    ensures w.start >= 0 ==> w.start < |text| && w == WindowAt(text, w.start, budget)
  {
    if KeptOn(lex, text) != [] {
      var best: nat :| OpensBefore(lex, text, budget, span, lead, w, best);
      BestOffsetOnPage(lex, text, best);
      WindowAtIsFragment(text, Back(best, lead), budget);
    }
  }

  /** An anchor's window starts on the page and, unless it displaces, leaves the primary alone. */
  lemma AnchorWindowFits(s: Search, signals: seq<string>, start: int, displaced: bool)
    requires s.Valid() && AnchorResult(s, signals, start, displaced) && start >= 0
    ensures start < |s.text|
    ensures displaced ==> s.primary >= 0
    ensures !displaced && s.primary >= 0 ==>
      Disjoint(start, EndOf(s.text, start, s.budget), s.primary, s.primary + s.budget)
  {
    var j :| 0 <= j < |signals| && SkippedBefore(s, signals, j) && AnchoredBy(s, signals[j], start, displaced);
    var needle := Fold(s.rules.fold, signals[j]);
    if displaced {
      PinMeansNoFreePlace(s, needle, start);
    } else {
      PlacedWindowIsFree(s, needle, start);
    }
    var a, b :| OpensAt(s, needle, a, b, start);
  }

  function RulesOf(lex: Lexicon): Rules { Rules(Folding(lex.lower, lex.drop), lex.digit, lex.toc) }

  /** The search the second window runs, given the primary window. */
  ghost function SearchFor(lex: Lexicon, text: string, at: seq<nat>, budget: nat, span: nat, lead: nat,
      primary: int): Search {
    Search(RulesOf(lex), text, Fold(RulesOf(lex).fold, text), at, budget, lead, primary, span)
  }

  /** How the windows follow from the primary window, the anchor search and the value search. */
  predicate Combines(text: string, budget: nat, primary: Window, exact: int, displaced: bool, fill: int,
      ws: seq<Window>) {
    if exact >= 0 then
      if primary.start < 0 then ws == [WindowAt(text, exact, budget)]
      else if !displaced then ws == [primary, WindowAt(text, exact, budget)]
      else if fill < 0 then ws == [WindowAt(text, exact, budget)]
      else if fill <= exact then ws == [WindowAt(text, fill, budget), WindowAt(text, exact, budget)]
      else ws == [WindowAt(text, exact, budget), WindowAt(text, fill, budget)]
    else if fill < 0 then ws == [primary]
    else if primary.start < 0 then ws == [WindowAt(text, fill, budget)]
    else ws == [primary, WindowAt(text, fill, budget)]
  }

  /** The primary, the anchor's and the value search's own results fit together without overlap. */
  lemma CombinationIsSelection(text: string, budget: nat, primary: Window, exact: int, displaced: bool, fill: int,
      ws: seq<Window>)
    requires 0 < budget < |text| && IsFragment(text, budget, primary)
    requires primary.start >= 0 ==> primary == WindowAt(text, primary.start, budget) && primary.start < |text|
    requires exact < |text| && fill < |text| && (displaced ==> primary.start >= 0)
    requires exact >= 0 && !displaced && primary.start >= 0 ==>
      Disjoint(exact, EndOf(text, exact, budget), primary.start, primary.start + budget)
    requires fill >= 0 && exact >= 0 && displaced ==> Disjoint(fill, EndOf(text, fill, budget), exact, exact + budget)
    requires fill >= 0 && exact < 0 && primary.start >= 0 ==>
      Disjoint(fill, EndOf(text, fill, budget), primary.start, primary.start + budget)
    requires Combines(text, budget, primary, exact, displaced, fill, ws)
    ensures IsSelection(text, budget, 2, ws)
  {
    if exact >= 0 { WindowAtIsFragment(text, exact, budget); }
    if fill >= 0 { WindowAtIsFragment(text, fill, budget); }
    if primary.start >= 0 { WindowAtIsFragment(text, primary.start, budget); }
  }

  /** Which windows are shown: the anchor's always; the primary one unless it is the prefix fallback beside another
      window or has been displaced; the value window only in a free slot. A displaced pair stands in page order. */
  lemma CombinationTells(text: string, budget: nat, primary: Window, exact: int, displaced: bool, fill: int,
      ws: seq<Window>)
    requires Combines(text, budget, primary, exact, displaced, fill, ws) && (displaced ==> exact >= 0)
    ensures exact >= 0 ==> WindowAt(text, exact, budget) in ws
    ensures exact < 0 && fill >= 0 ==> WindowAt(text, fill, budget) in ws
    ensures exact >= 0 && displaced && primary.start >= 0 && fill >= 0 ==> WindowAt(text, fill, budget) in ws
    ensures primary.start >= 0 && !displaced ==> ws[0] == primary
    ensures exact < 0 && fill < 0 ==> ws == [primary]
    ensures |ws| == 2 && displaced ==> ws[0].start <= ws[1].start
    ensures |ws| == 2 <==> primary.start >= 0 && (if displaced then fill >= 0 else exact >= 0 || fill >= 0)
  {
  }

  method Combine(text: string, budget: nat, primary: Window, exact: int, displaced: bool, fill: int)
      returns (ws: seq<Window>)
    ensures Combines(text, budget, primary, exact, displaced, fill, ws)
  {
    if exact >= 0 {
      var pinned := WindowAt(text, exact, budget);
      if primary.start < 0 { return [pinned]; }
      if !displaced { return [primary, pinned]; }
      if fill < 0 { return [pinned]; }
      var filler := WindowAt(text, fill, budget);
      return if fill <= exact then [filler, pinned] else [pinned, filler];
    }
    if fill < 0 { return [primary]; }
    if primary.start < 0 { return [WindowAt(text, fill, budget)]; }
    return [primary, WindowAt(text, fill, budget)];
  }

  /** The second slot: the exact anchors first, the generic value window as filler. */
  method AddSecondWindow(lex: Lexicon, text: string, budget: nat, span: nat, lead: nat, signals: seq<string>,
      primary: Window)
    returns (ws: seq<Window>)
    requires NonEmptyTerms(lex.terms) && 0 < budget < |text|
    requires IsDensityWindow(lex, text, budget, span, lead, primary)
    ensures IsSelection(text, budget, 2, ws)
    ensures SelectedBy(lex, text, budget, span, lead, signals, primary, ws)
  {
    var folded, at := FoldWithMap(RulesOf(lex).fold, text);
    var s := Search(RulesOf(lex), text, folded, at, budget, lead, primary.start, span);
    DensityWindowIsFragment(lex, text, budget, span, lead, primary);
    var exact, displaced := ExactAnchorStart(s, signals);
    var avoid := if exact >= 0 then exact else primary.start;
    var fill := BestValueWindowStart(lex, text, budget, span, lead, avoid);
    if exact >= 0 { AnchorWindowFits(s, signals, exact, displaced); }
    if fill >= 0 { ValueWindowIsFree(lex, text, budget, span, lead, avoid, fill); }
    ws := Combine(text, budget, primary, exact, displaced, fill);
    CombinationIsSelection(text, budget, primary, exact, displaced, fill, ws);
    assert SelectedWith(lex, text, budget, span, lead, signals, primary, ws, at, exact, displaced, fill);
  }

  ghost predicate SelectedWith(lex: Lexicon, text: string, budget: nat, span: nat, lead: nat, signals: seq<string>,
                               primary: Window, ws: seq<Window>, at: seq<nat>, exact: int, displaced: bool, fill: int)
  {
    var s := SearchFor(lex, text, at, budget, span, lead, primary.start);
    && s.Valid() && AnchorResult(s, signals, exact, displaced)
    && IsValueStart(lex, text, budget, span, lead, if exact >= 0 then exact else primary.start, fill)
    && Combines(text, budget, primary, exact, displaced, fill, ws)
  }

  /** The windows are those the three searches determine. */
  ghost predicate SelectedBy(lex: Lexicon, text: string, budget: nat, span: nat, lead: nat, signals: seq<string>,
                             primary: Window, ws: seq<Window>)
  {
    exists at, exact, displaced, fill ::
      SelectedWith(lex, text, budget, span, lead, signals, primary, ws, at, exact, displaced, fill)
  }

  /** The three lists of exact terms a caller may pass. */
  datatype Terms = Terms(quotes: seq<string>, values: seq<string>, explorerValues: seq<string>)

  function Needles(lex: Lexicon, t: Terms): seq<string> {
    var ranked := AnchorSignals(lex.digit, lex.date, t.quotes, t.values, t.explorerValues);
    seq(|ranked|, i requires 0 <= i < |ranked| => ranked[i].signal.needle)
  }

  /** Up to `maxWindows` fragments. */
  method SelectAssertionWindows(lex: Lexicon, text: string, budget: int, maxWindows: int, span: nat, lead: nat,
      t: Terms)
    returns (r: Selection<seq<Window>>)
    requires NonEmptyTerms(lex.terms)
    ensures r.ValueError? <==> budget <= 0 || maxWindows < 1
    ensures r.Selected? ==> IsSelection(text, budget, maxWindows, r.value)
    ensures r.Selected? && |text| > budget && maxWindows == 1 ==>
      IsDensityWindow(lex, text, budget, span, lead, r.value[0])
    ensures r.Selected? && |text| > budget && maxWindows > 1 ==> exists primary ::
      && IsDensityWindow(lex, text, budget, span, lead, primary)
      && SelectedBy(lex, text, budget, span, lead, Needles(lex, t), primary, r.value)
  {
    if budget <= 0 || maxWindows < 1 { return ValueError; }
    if |text| <= budget { return Selected([Window(text, 0)]); }
    var primary := SelectAssertionWindow(lex, text, budget, span, lead);
    DensityWindowIsFragment(lex, text, budget, span, lead, primary.value);
    if maxWindows == 1 { return Selected([primary.value]); }
    var ws := AddSecondWindow(lex, text, budget, span, lead, Needles(lex, t), primary.value);
    return Selected(ws);
  }
}
