/** Exact anchors of the second window (apps/orchestrator/assertion_window.py).

    A needle is searched in the page with white space and invisible characters
    folded away; the position map brings a match back to the original text. The
    ranked search either finds a free place for its window, pins a window that
    displaces the density window, or leaves the signal to the next one. */
module AssertionAnchors {
  import opened Text

  const MAX_OCCURRENCE_ATTEMPTS := 12

  // ----- folding -----

  /** Characters dropped by the search, and the per-character lower case. */
  datatype Folding = Folding(lower: char -> char, drop: char -> bool)

  function FoldChar(f: Folding, c: char): string {
    if f.drop(c) then [] else [f.lower(c)]
  }

  function Fold(f: Folding, s: string): string {
    if s == [] then [] else Fold(f, s[..|s| - 1]) + FoldChar(f, s[|s| - 1])
  }

  lemma {:induction false} FoldConcat(f: Folding, s: string, t: string)
    ensures Fold(f, s + t) == Fold(f, s) + Fold(f, t)
  {
    if t == [] {
      assert s + t == s;
    } else {
      var n := |t| - 1;
      var c := FoldChar(f, t[n]);
      FoldConcat(f, s, t[..n]);
      assert (s + t)[..|s + t| - 1] == s + t[..n];
      assert Fold(f, s) + Fold(f, t[..n]) + c == Fold(f, s) + (Fold(f, t[..n]) + c);
    }
  }

  /** `at[k]` is where the k-th folded character stands in `text`. */
  ghost predicate MapsBack(f: Folding, text: string, folded: string, at: seq<nat>, k: nat) {
    && k < |at| == |folded| && at[k] < |text|
    && FoldChar(f, text[at[k]]) == [folded[k]]
    && Fold(f, text[..at[k]]) == folded[..k]
  }

  ghost predicate IsFoldMap(f: Folding, text: string, folded: string, at: seq<nat>) {
    && folded == Fold(f, text)
    && |at| == |folded|
    && (forall j, k :: 0 <= j < k < |at| ==> at[j] < at[k])
    && forall k {:trigger MapsBack(f, text, folded, at, k)} :: 0 <= k < |at| ==> MapsBack(f, text, folded, at, k)
  }

  method FoldWithMap(f: Folding, text: string) returns (folded: string, at: seq<nat>)
    ensures IsFoldMap(f, text, folded, at)
  {
    folded, at := [], [];
    for i := 0 to |text|
      invariant IsFoldMap(f, text[..i], folded, at)
    {
      FoldMapStep(f, text, i, folded, at);
      if !f.drop(text[i]) {
        folded, at := folded + [f.lower(text[i])], at + [i];
      }
    }
    assert text[..|text|] == text;
  }

  lemma FoldMapStep(f: Folding, text: string, i: nat, folded: string, at: seq<nat>)
    requires i < |text| && IsFoldMap(f, text[..i], folded, at)
    ensures f.drop(text[i]) ==> IsFoldMap(f, text[..i + 1], folded, at)
    ensures !f.drop(text[i]) ==> IsFoldMap(f, text[..i + 1], folded + [f.lower(text[i])], at + [i])
  {
    var next := text[..i + 1];
    assert next[..i] == text[..i];
    var folded', at' := folded + FoldChar(f, text[i]), if f.drop(text[i]) then at else at + [i];
    assert Fold(f, next) == folded';
    assert f.drop(text[i]) ==> folded' == folded;
    forall k | 0 <= k < |at'| ensures MapsBack(f, next, folded', at', k) {
      if k < |at| {
        assert MapsBack(f, text[..i], folded, at, k);
        assert next[..at[k]] == text[..i][..at[k]] && folded'[..k] == folded[..k];
      } else {
        assert folded'[..k] == folded;
      }
    }
    forall k | 0 <= k < |at| ensures at[k] < i {
      assert MapsBack(f, text[..i], folded, at, k);
    }
  }

  /** First and one-past-last original offsets of a folded match of length `n` at `found`. */
  function RawStart(at: seq<nat>, found: nat): nat requires found < |at| { at[found] }

  function RawEnd(at: seq<nat>, found: nat, n: nat): nat
    requires 0 < n && found + n <= |at|
  {
    at[found + n - 1] + 1
  }

  /** The folds before the `i`-th and through the `j`-th folded character. */
  lemma FoldBetween(f: Folding, text: string, folded: string, at: seq<nat>, i: nat, j: nat)
    requires MapsBack(f, text, folded, at, i) && MapsBack(f, text, folded, at, j)
    ensures Fold(f, text[..at[i]]) == folded[..i] && Fold(f, text[..at[j] + 1]) == folded[..j + 1]
  {
    assert text[..at[j] + 1][..at[j]] == text[..at[j]];
    assert folded[..j + 1] == folded[..j] + [folded[j]];
  }

  /** A match found in the fold is a slice of the original text whose fold is the needle. */
  lemma FoldedMatchIsVerbatim(f: Folding, text: string, folded: string, at: seq<nat>, needle: string, found: nat)
    requires IsFoldMap(f, text, folded, at) && needle != [] && OccursAt(folded, needle, found)
    ensures var a, b := RawStart(at, found), RawEnd(at, found, |needle|);
      a < b <= |text| && Fold(f, text[a..b]) == needle
  {
    var last := found + |needle| - 1;
    assert MapsBack(f, text, folded, at, found) && MapsBack(f, text, folded, at, last);
    assert found < last ==> at[found] < at[last];
    MappedSlice(f, text, folded, at, needle, found, last);
  }

  lemma MappedSlice(f: Folding, text: string, folded: string, at: seq<nat>, needle: string, found: nat, last: nat)
    requires MapsBack(f, text, folded, at, found) && MapsBack(f, text, folded, at, last) && at[found] <= at[last]
    requires last == found + |needle| - 1 && OccursAt(folded, needle, found)
    ensures Fold(f, text[at[found]..at[last] + 1]) == needle
  {
    FoldBetween(f, text, folded, at, found, last);
    NeedleFold(f, text, at[found], at[last] + 1, folded, needle, found);
  }

  lemma NeedleFold(f: Folding, text: string, a: nat, b: nat, folded: string, needle: string, found: nat)
    requires a <= b <= |text| && OccursAt(folded, needle, found)
    requires Fold(f, text[..a]) == folded[..found] && Fold(f, text[..b]) == folded[..found + |needle|]
    ensures Fold(f, text[a..b]) == needle
  {
    CutFold(f, text, a, b, folded[..found], folded[..found + |needle|]);
    assert folded[..found + |needle|][found..] == needle;
  }

  lemma CutFold(f: Folding, text: string, a: nat, b: nat, upToA: string, upToB: string)
    requires a <= b <= |text| && Fold(f, text[..a]) == upToA && Fold(f, text[..b]) == upToB
    ensures |upToA| <= |upToB| && Fold(f, text[a..b]) == upToB[|upToA|..]
  {
    assert text[..b] == text[..a] + text[a..b];
    FoldConcat(f, text[..a], text[a..b]);
  }

  /** No slice of the original text that folds to the needle escapes the search. */
  lemma FoldSearchIsComplete(f: Folding, text: string, needle: string, a: nat, b: nat)
    requires a <= b <= |text| && Fold(f, text[a..b]) == needle
    ensures OccursAt(Fold(f, text), needle, |Fold(f, text[..a])|)
  {
    assert text == text[..a] + text[a..b] + text[b..];
    FoldConcat(f, text[..a] + text[a..b], text[b..]);
    FoldConcat(f, text[..a], text[a..b]);
  }

  // ----- ranking of the signals -----

  datatype Kind = Quote | Value | ExplorerValue | Date

  datatype Signal = Signal(needle: string, kind: Kind)

  datatype Ranked = Ranked(rank: nat, specificity: nat, order: nat, signal: Signal)

  function RankOf(k: Kind): nat {
    match k case Quote => 0 case Value => 1 case ExplorerValue => 2 case Date => 3
  }

  /** Number of digits: the finer order inside one class of values. */
  function Specificity(digit: char -> bool, needle: string): nat {
    if needle == [] then 0
    else Specificity(digit, needle[..|needle| - 1]) + if digit(needle[|needle| - 1]) then 1 else 0
  }

  predicate KeyLe(a: Ranked, b: Ranked) {
    || a.rank < b.rank
    || (a.rank == b.rank && a.specificity > b.specificity)
    || (a.rank == b.rank && a.specificity == b.specificity && a.order <= b.order)
  }

  function RankTerms(digit: char -> bool, date: string -> bool, terms: seq<string>, kind: Kind): seq<Ranked> {
    seq(|terms|, i requires 0 <= i < |terms| =>
      var k := if kind != Quote && date(terms[i]) then Date else kind;
      Ranked(RankOf(k), if k == Quote then 0 else Specificity(digit, terms[i]), i, Signal(terms[i], k)))
  }

  /** Stable insertion: after every equal key. */
  function Insert(sorted: seq<Ranked>, x: Ranked): seq<Ranked> {
    if sorted == [] then [x]
    else if KeyLe(sorted[|sorted| - 1], x) then sorted + [x]
    else Insert(sorted[..|sorted| - 1], x) + [sorted[|sorted| - 1]]
  }

  function SortRanked(xs: seq<Ranked>): seq<Ranked> {
    if xs == [] then [] else Insert(SortRanked(xs[..|xs| - 1]), xs[|xs| - 1])
  }

  ghost predicate Ordered(xs: seq<Ranked>) {
    forall i, j :: 0 <= i < j < |xs| ==> KeyLe(xs[i], xs[j])
  }

  lemma {:induction false} InsertKeeps(sorted: seq<Ranked>, x: Ranked)
    ensures multiset(Insert(sorted, x)) == multiset(sorted) + multiset{x}
  {
    if sorted != [] && !KeyLe(sorted[|sorted| - 1], x) {
      var n := |sorted| - 1;
      InsertKeeps(sorted[..n], x);
      assert sorted == sorted[..n] + [sorted[n]];
    }
  }

  lemma {:induction false} InsertOrders(sorted: seq<Ranked>, x: Ranked)
    requires Ordered(sorted)
    ensures Ordered(Insert(sorted, x))
  {
    if sorted != [] && !KeyLe(sorted[|sorted| - 1], x) {
      var n := |sorted| - 1;
      var put := Insert(sorted[..n], x);
      InsertOrders(sorted[..n], x);
      InsertKeeps(sorted[..n], x);
      forall i | 0 <= i < |put| ensures KeyLe(put[i], sorted[n]) {
        assert put[i] in multiset(put);
        assert put[i] == x || put[i] in sorted[..n];
      }
    }
  }

  lemma {:induction false} SortOrders(xs: seq<Ranked>)
    ensures Ordered(SortRanked(xs))
  {
    if xs != [] {
      var n := |xs| - 1;
      SortOrders(xs[..n]);
      InsertOrders(SortRanked(xs[..n]), xs[n]);
    }
  }

  lemma {:induction false} SortKeeps(xs: seq<Ranked>)
    ensures multiset(SortRanked(xs)) == multiset(xs)
  {
    if xs != [] {
      var n := |xs| - 1;
      SortKeeps(xs[..n]);
      InsertKeeps(SortRanked(xs[..n]), xs[n]);
      LastOff(xs);
    }
  }

  lemma LastOff(xs: seq<Ranked>)
    requires xs != []
    ensures multiset(xs) == multiset(xs[..|xs| - 1]) + multiset{xs[|xs| - 1]}
  {
    assert xs == xs[..|xs| - 1] + [xs[|xs| - 1]];
  }

  /** The exact signals in order of significance. */
  function AnchorSignals(digit: char -> bool, date: string -> bool,
                         quotes: seq<string>, values: seq<string>, explorerValues: seq<string>): seq<Ranked>
  {
    SortRanked(AllTerms(digit, date, quotes, values, explorerValues))
  }

  /** One entry a term, with its place in its own list. */
  function AllTerms(digit: char -> bool, date: string -> bool,
                    quotes: seq<string>, values: seq<string>, explorerValues: seq<string>): seq<Ranked>
  {
    RankTerms(digit, date, quotes, Quote) + RankTerms(digit, date, values, Value)
    + RankTerms(digit, date, explorerValues, ExplorerValue)
  }

  /** The signals are the terms, each once. */
  lemma SignalsAreTerms(digit: char -> bool, date: string -> bool,
                        quotes: seq<string>, values: seq<string>, explorerValues: seq<string>)
    ensures multiset(AnchorSignals(digit, date, quotes, values, explorerValues))
         == multiset(AllTerms(digit, date, quotes, values, explorerValues))
  {
    SortKeeps(AllTerms(digit, date, quotes, values, explorerValues));
  }

  /** A quote weighs more than any value, the question's values more than the explorer's, and a date least. */
  predicate IsStronger(a: Kind, b: Kind) {
    (a.Quote? && !b.Quote?) || (a.Value? && (b.ExplorerValue? || b.Date?)) || (a.ExplorerValue? && b.Date?)
  }

  /** Digits counted by their places. */
  lemma {:induction false} SpecificityIs(digit: char -> bool, needle: string)
    ensures Specificity(digit, needle) == |Places(digit, needle)|
  {
    if needle != [] {
      var n := |needle| - 1;
      SpecificityIs(digit, needle[..n]);
      DigitPlaces(digit, needle);
    }
  }

  function Places(digit: char -> bool, s: string): (r: set<int>)
    ensures forall i :: i in r <==> 0 <= i < |s| && digit(s[i])
  {
    set i | 0 <= i < |s| && digit(s[i])
  }

  lemma DigitPlaces(digit: char -> bool, s: string)
    requires s != []
    ensures var n := |s| - 1;
      |Places(digit, s)| == |Places(digit, s[..n])| + if digit(s[n]) then 1 else 0
  {
    var n := |s| - 1;
    var before := Places(digit, s[..n]);
    assert Places(digit, s) == if digit(s[n]) then before + {n} else before;
  }

  /** The signal is a term of one of the lists, at its place there; a value in date form counts as a date. */
  predicate IsTerm(date: string -> bool, quotes: seq<string>, values: seq<string>, explorerValues: seq<string>,
      r: Ranked) {
    match r.signal.kind
    case Quote => r.order < |quotes| && quotes[r.order] == r.signal.needle
    case Value => r.order < |values| && values[r.order] == r.signal.needle && !date(r.signal.needle)
    case ExplorerValue =>
      r.order < |explorerValues| && explorerValues[r.order] == r.signal.needle && !date(r.signal.needle)
    case Date =>
      date(r.signal.needle) && ((r.order < |values| && values[r.order] == r.signal.needle)
        || (r.order < |explorerValues| && explorerValues[r.order] == r.signal.needle))
  }

  lemma SignalsAreAll(digit: char -> bool, date: string -> bool,
                      quotes: seq<string>, values: seq<string>, explorerValues: seq<string>)
    ensures var out, all := AnchorSignals(digit, date, quotes, values, explorerValues),
                            AllTerms(digit, date, quotes, values, explorerValues);
      |out| == |all| && forall r :: r in out <==> r in all
  {
    var all := AllTerms(digit, date, quotes, values, explorerValues);
    var out := SortRanked(all);
    SortKeeps(all);
    assert |multiset(out)| == |out| && |multiset(all)| == |all|;
    forall r ensures r in out <==> r in all { assert r in multiset(out) <==> r in multiset(all); }
  }

  lemma TermsAreTerms(digit: char -> bool, date: string -> bool, terms: seq<string>, kind: Kind, i: nat)
    requires i < |terms|
    ensures var r := RankTerms(digit, date, terms, kind)[i];
      r.order == i && r.signal == Signal(terms[i], if kind != Quote && date(terms[i]) then Date else kind)
  {
  }

  /** Every signal is such a term, and there are as many signals as terms. */
  lemma SignalsComeFromTerms(digit: char -> bool, date: string -> bool,
                             quotes: seq<string>, values: seq<string>, explorerValues: seq<string>)
    ensures var out := AnchorSignals(digit, date, quotes, values, explorerValues);
      && |out| == |quotes| + |values| + |explorerValues|
      && forall r :: r in out ==> IsTerm(date, quotes, values, explorerValues, r)
  {
    SignalsAreAll(digit, date, quotes, values, explorerValues);
    forall r | r in AllTerms(digit, date, quotes, values, explorerValues)
      ensures IsTerm(date, quotes, values, explorerValues, r)
    {
      if i :| 0 <= i < |quotes| && RankTerms(digit, date, quotes, Quote)[i] == r {
        TermsAreTerms(digit, date, quotes, Quote, i);
      } else if i :| 0 <= i < |values| && RankTerms(digit, date, values, Value)[i] == r {
        TermsAreTerms(digit, date, values, Value, i);
      } else {
        var i :| 0 <= i < |explorerValues| && RankTerms(digit, date, explorerValues, ExplorerValue)[i] == r;
        TermsAreTerms(digit, date, explorerValues, ExplorerValue, i);
      }
    }
  }

  /** And every term is a signal, of its own kind. */
  lemma TermsAreSignals(digit: char -> bool, date: string -> bool,
                        quotes: seq<string>, values: seq<string>, explorerValues: seq<string>, i: nat)
    ensures var out := AnchorSignals(digit, date, quotes, values, explorerValues);
      && (i < |quotes| ==> Has(out, quotes[i], Quote, i))
      && (i < |values| ==> Has(out, values[i], if date(values[i]) then Date else Value, i))
      && (i < |explorerValues| ==>
            Has(out, explorerValues[i], if date(explorerValues[i]) then Date else ExplorerValue, i))
  {
    SignalsAreAll(digit, date, quotes, values, explorerValues);
    var all := AllTerms(digit, date, quotes, values, explorerValues);
    if i < |quotes| {
      TermsAreTerms(digit, date, quotes, Quote, i);
      assert all[i] in all;
    }
    if i < |values| {
      TermsAreTerms(digit, date, values, Value, i);
      assert all[|quotes| + i] in all;
    }
    if i < |explorerValues| {
      TermsAreTerms(digit, date, explorerValues, ExplorerValue, i);
      assert all[|quotes| + |values| + i] in all;
    }
  }

  ghost predicate Has(out: seq<Ranked>, needle: string, kind: Kind, order: nat) {
    exists r :: r in out && r.signal == Signal(needle, kind) && r.order == order
  }

  /** How the order of the list weighs two signals. */
  predicate Precedes(digit: char -> bool, a: Ranked, b: Ranked) {
    var x, y := a.signal, b.signal;
    || IsStronger(x.kind, y.kind)
    || (x.kind == y.kind == Quote && a.order <= b.order)
    || (x.kind == y.kind != Quote && Specificity(digit, x.needle) > Specificity(digit, y.needle))
    || (x.kind == y.kind && Specificity(digit, x.needle) == Specificity(digit, y.needle) && a.order <= b.order)
  }

  /** A stronger class comes first; inside a class of values more digits come first, and equally specific values and
      quotes keep their order of appearance. */
  lemma SignalsAreRanked(digit: char -> bool, date: string -> bool,
                         quotes: seq<string>, values: seq<string>, explorerValues: seq<string>, i: nat, j: nat)
    requires i < j < |AnchorSignals(digit, date, quotes, values, explorerValues)|
    ensures var out := AnchorSignals(digit, date, quotes, values, explorerValues); Precedes(digit, out[i], out[j])
  {
    var all := AllTerms(digit, date, quotes, values, explorerValues);
    SortOrders(all);
    SortKeeps(all);
    var out := SortRanked(all);
    assert out[i] in multiset(out) && out[j] in multiset(out);
    TermIsRanked(digit, date, quotes, values, explorerValues, out[i]);
    TermIsRanked(digit, date, quotes, values, explorerValues, out[j]);
    assert KeyLe(out[i], out[j]);
  }

  lemma TermIsRanked(digit: char -> bool, date: string -> bool,
                     quotes: seq<string>, values: seq<string>, explorerValues: seq<string>, r: Ranked)
    requires r in AllTerms(digit, date, quotes, values, explorerValues)
    ensures r.rank == RankOf(r.signal.kind)
    ensures r.specificity == if r.signal.kind == Quote then 0 else Specificity(digit, r.signal.needle)
  {
  }

  // ----- the ranked search -----

  /** The page rules: digits, table-of-contents spans (over lower-cased text), folding. */
  datatype Rules = Rules(fold: Folding, digit: char -> bool, toc: string -> bool)

  /** One search: the page, its fold, and the window geometry. `primary` is -1 when free. */
  datatype Search = Search(rules: Rules, text: string, folded: string, at: seq<nat>,
                           budget: nat, lead: nat, primary: int, span: nat)
  {
    ghost predicate Valid() {
      IsFoldMap(rules.fold, text, folded, at) && budget > 0
    }

    function WindowStart(rawStart: nat): nat {
      if rawStart < lead then 0 else rawStart - lead
    }

    function WindowEnd(start: nat): nat {
      if start + budget < |text| then start + budget else |text|
    }

    /** The value is a number of its own in the original text. */
    predicate NumericBoundary(a: nat, b: nat)
      requires a < b <= |text|
    {
      (a == 0 || !rules.digit(text[a - 1])) && (b == |text| || !rules.digit(text[b]))
    }

    predicate Acceptable(needle: string, a: nat, b: nat)
      requires needle != [] && a < b <= |text|
    {
      && (rules.digit(needle[0]) ==> NumericBoundary(a, b))
      && !rules.toc(Lowered(rules.fold.lower, Slice(text, a - 2 * span, a + 2 * span)))
    }

    predicate InsidePrimary(a: nat, b: nat) {
      primary >= 0 && primary <= a && b <= primary + budget
    }

    predicate ClashesWithPrimary(start: nat) {
      primary >= 0 && start < primary + budget && WindowEnd(start) > primary
    }
  }

  datatype Verdict = Unfit | Covered | Clash(start: nat) | Free(start: nat)

  function Judge(s: Search, needle: string, a: nat, b: nat): Verdict
    requires needle != [] && a < b <= |s.text|
  {
    if !s.Acceptable(needle, a, b) then Unfit
    else if s.InsidePrimary(a, b) then Covered
    else if s.ClashesWithPrimary(s.WindowStart(a)) then Clash(s.WindowStart(a))
    else Free(s.WindowStart(a))
  }

  /** Judgement of the occurrence the fold shows at `found`. */
  ghost function JudgeAt(s: Search, needle: string, found: nat): Verdict
    requires s.Valid() && needle != []
  {
    if OccursAt(s.folded, needle, found) then
      FoldedMatchIsVerbatim(s.rules.fold, s.text, s.folded, s.at, needle, found);
      Judge(s, needle, RawStart(s.at, found), RawEnd(s.at, found, |needle|))
    else Unfit
  }

  /** Where the search goes on after the first `k` occurrences. */
  function NextFrom(occs: seq<nat>, k: nat): nat
    requires k <= |occs|
  {
    if k == 0 then 0 else occs[k - 1] + 1
  }

  ghost predicate NextOccurrence(folded: string, needle: string, from: nat, i: nat) {
    from <= i && OccursAt(folded, needle, i) && forall j :: from <= j < i ==> !OccursAt(folded, needle, j)
  }

  /** The k-th of `occs` is the next occurrence after the one before it. */
  ghost predicate Follows(folded: string, needle: string, occs: seq<nat>, k: nat) {
    k < |occs| && NextOccurrence(folded, needle, NextFrom(occs, k), occs[k])
  }

  /** `occs` are the first occurrences of the needle in the fold, none skipped. */
  ghost predicate FirstOccurrences(folded: string, needle: string, occs: seq<nat>) {
    forall k {:trigger Follows(folded, needle, occs, k)} :: 0 <= k < |occs| ==> Follows(folded, needle, occs, k)
  }

  /** The attempts are used up, or the needle occurs nowhere else. */
  ghost predicate Exhausted(folded: string, needle: string, occs: seq<nat>) {
    || |occs| == 12
    || forall i :: NextFrom(occs, |occs|) <= i ==> !OccursAt(folded, needle, i)
  }

  datatype Placement = Skip | Place(start: nat) | Pin(start: nat)

  ghost predicate Undecided(vs: seq<Verdict>, n: int) {
    forall k :: 0 <= k < n && k < |vs| ==> vs[k].Unfit? || vs[k].Clash?
  }

  ghost predicate AllUnfit(vs: seq<Verdict>, n: int) {
    forall k :: 0 <= k < n && k < |vs| ==> vs[k].Unfit?
  }

  ghost predicate FirstClash(vs: seq<Verdict>, start: nat) {
    exists k :: 0 <= k < |vs| && vs[k] == Clash(start) && AllUnfit(vs, k)
  }

  /** What the judgements of a signal's occurrences decide: the first free place wins unless the
      primary window shows the value before it; otherwise the first clash pins its window. */
  ghost predicate Decides(vs: seq<Verdict>, exhausted: bool, out: Placement) {
    var n := |vs|;
    match out
    case Place(start) => n > 0 && vs[n - 1] == Free(start) && Undecided(vs, n - 1)
    case Pin(start) => exhausted && Undecided(vs, n) && FirstClash(vs, start)
    case Skip =>
      || (n > 0 && vs[n - 1].Covered? && Undecided(vs, n - 1))
      || (exhausted && AllUnfit(vs, n))
  }

  ghost predicate JudgedBy(s: Search, needle: string, occs: seq<nat>, vs: seq<Verdict>)
    requires s.Valid() && needle != []
  {
    |vs| == |occs| && forall k :: 0 <= k < |occs| ==> vs[k] == JudgeAt(s, needle, occs[k])
  }

  /** The outcome of one signal. */
  ghost predicate Outcome(s: Search, needle: string, out: Placement)
    requires s.Valid() && needle != []
  {
    exists occs: seq<nat>, vs: seq<Verdict> :: OutcomeBy(s, needle, occs, vs, out)
  }

  ghost predicate OutcomeBy(s: Search, needle: string, occs: seq<nat>, vs: seq<Verdict>, out: Placement)
    requires s.Valid() && needle != []
  {
    && |occs| <= MAX_OCCURRENCE_ATTEMPTS
    && FirstOccurrences(s.folded, needle, occs)
    && JudgedBy(s, needle, occs, vs)
    && Decides(vs, Exhausted(s.folded, needle, occs), out)
  }

  /** Nothing decided yet; a first clash, if any, is remembered. */
  ghost predicate Pending(vs: seq<Verdict>, out: Placement) {
    && Undecided(vs, |vs|)
    && match out
       case Place(_) => false
       case Skip => AllUnfit(vs, |vs|)
       case Pin(start) => FirstClash(vs, start)
  }

  lemma PendingStep(vs: seq<Verdict>, out: Placement, v: Verdict)
    requires Pending(vs, out)
    ensures v.Unfit? || (v.Clash? && out.Pin?) ==> Pending(vs + [v], out)
    ensures v.Clash? && out.Skip? ==> Pending(vs + [v], Pin(v.start))
    ensures v.Covered? ==> forall e :: Decides(vs + [v], e, Skip)
    ensures v.Free? ==> forall e :: Decides(vs + [v], e, Place(v.start))
  {
    var all := vs + [v];
    assert v.Unfit? || v.Clash? ==> Undecided(all, |all|);
    if out.Pin? {
      var k :| 0 <= k < |vs| && vs[k] == Clash(out.start) && AllUnfit(vs, k);
      assert all[k] == Clash(out.start) && AllUnfit(all, k);
    } else if v.Clash? {
      assert all[|vs|] == Clash(v.start) && AllUnfit(all, |vs|);
    }
  }

  lemma OneMoreOccurrence(folded: string, needle: string, occs: seq<nat>, found: nat)
    requires FirstOccurrences(folded, needle, occs)
    requires NextOccurrence(folded, needle, NextFrom(occs, |occs|), found)
    ensures FirstOccurrences(folded, needle, occs + [found])
  {
    var all := occs + [found];
    forall k | 0 <= k < |all| ensures Follows(folded, needle, all, k) {
      assert NextFrom(all, k) == NextFrom(occs, k);
      assert k < |occs| ==> Follows(folded, needle, occs, k);
    }
  }

  /** Looking at one occurrence. */
  method LookAt(s: Search, needle: string, found: nat) returns (v: Verdict)
    requires s.Valid() && needle != [] && OccursAt(s.folded, needle, found)
    ensures v == JudgeAt(s, needle, found)
  {
    FoldedMatchIsVerbatim(s.rules.fold, s.text, s.folded, s.at, needle, found);
    v := Judge(s, needle, RawStart(s.at, found), RawEnd(s.at, found, |needle|));
  }

  /** Out of occurrences or attempts: what is pending is the outcome. */
  lemma Concludes(s: Search, needle: string, occs: seq<nat>, vs: seq<Verdict>, out: Placement)
    requires s.Valid() && needle != [] && |occs| <= MAX_OCCURRENCE_ATTEMPTS
    requires FirstOccurrences(s.folded, needle, occs) && Exhausted(s.folded, needle, occs)
    requires JudgedBy(s, needle, occs, vs) && Pending(vs, out)
    ensures Outcome(s, needle, out)
  {
    assert OutcomeBy(s, needle, occs, vs, out);
  }

  /** One signal: up to MAX_OCCURRENCE_ATTEMPTS occurrences, left to right. */
  method TrySignal(s: Search, needle: string) returns (out: Placement)
    requires s.Valid() && needle != []
    ensures Outcome(s, needle, out)
  {
    ghost var occs: seq<nat>, vs: seq<Verdict> := [], [];
    var from := 0;
    out := Skip;
    for attempt := 0 to MAX_OCCURRENCE_ATTEMPTS
      invariant |occs| == attempt && from == NextFrom(occs, attempt)
      invariant FirstOccurrences(s.folded, needle, occs)
      invariant JudgedBy(s, needle, occs, vs) && Pending(vs, out)
    {
      var found := Find(s.folded, needle, from);
      if found < 0 {
        Concludes(s, needle, occs, vs, out);
        return;
      }
      var v := LookAt(s, needle, found);
      OneMoreOccurrence(s.folded, needle, occs, found);
      PendingStep(vs, out, v);
      occs, vs, from := occs + [found], vs + [v], found + 1;
      if v.Covered? {
        assert OutcomeBy(s, needle, occs, vs, Skip);
        return Skip;
      }
      if v.Free? {
        assert OutcomeBy(s, needle, occs, vs, Place(v.start));
        return Place(v.start);
      }
      if v.Clash? && out.Skip? { out := Pin(v.start); }
    }
    Concludes(s, needle, occs, vs, out);
  }

  ghost predicate Skipped(s: Search, signal: string)
    requires s.Valid()
  {
    var needle := Fold(s.rules.fold, signal);
    |needle| < 2 || Outcome(s, needle, Skip)
  }

  /** No signal before `j` found a place or pinned a window. */
  ghost predicate SkippedBefore(s: Search, signals: seq<string>, j: nat)
    requires s.Valid() && j <= |signals|
  {
    forall i :: 0 <= i < j ==> Skipped(s, signals[i])
  }

  /** The result stems from the highest-ranked usable signal. */
  ghost predicate AnchorResult(s: Search, signals: seq<string>, start: int, displaced: bool)
    requires s.Valid()
  {
    if start < 0 then start == -1 && !displaced && SkippedBefore(s, signals, |signals|)
    else exists j :: 0 <= j < |signals| && SkippedBefore(s, signals, j) && AnchoredBy(s, signals[j], start, displaced)
  }

  ghost predicate AnchoredBy(s: Search, signal: string, start: nat, displaced: bool)
    requires s.Valid()
  {
    var needle := Fold(s.rules.fold, signal);
    |needle| >= 2 && Outcome(s, needle, if displaced then Pin(start) else Place(start))
  }

  /** One signal of the ranked list; a fold shorter than two characters is no anchor. */
  method TryRanked(s: Search, signal: string) returns (out: Placement)
    requires s.Valid()
    ensures out.Skip? ==> Skipped(s, signal)
    ensures !out.Skip? ==> AnchoredBy(s, signal, out.start, out.Pin?)
  {
    var needle := Fold(s.rules.fold, signal);
    if |needle| < 2 { return Skip; }
    out := TrySignal(s, needle);
  }

  /** The ranked exact-anchor search. */
  method ExactAnchorStart(s: Search, signals: seq<string>) returns (start: int, displaced: bool)
    requires s.Valid()
    ensures AnchorResult(s, signals, start, displaced)
  {
    for j := 0 to |signals|
      invariant SkippedBefore(s, signals, j)
    {
      var out := TryRanked(s, signals[j]);
      if !out.Skip? {
        return out.start, out.Pin?;
      }
    }
    return -1, false;
  }

  // ----- what the outcomes mean -----

  /** The half-open intervals [a, b) and [c, d) share no offset. */
  predicate Disjoint(a: int, b: int, c: int, d: int) {
    b <= c || d <= a
  }

  /** A verbatim acceptable occurrence of the needle opens the window at `start`. */
  ghost predicate OpensAt(s: Search, needle: string, a: nat, b: nat, start: nat)
    requires s.Valid() && needle != []
  {
    && a < b <= |s.text| && Fold(s.rules.fold, s.text[a..b]) == needle
    && StandsAlone(s, needle, a, b) && !(0 <= s.primary <= a && b <= s.primary + s.budget) && start == s.WindowStart(a)
  }

  lemma VerdictOpens(s: Search, needle: string, found: nat)
    requires s.Valid() && needle != []
    ensures var v := JudgeAt(s, needle, found);
      v.Free? || v.Clash? ==> exists a, b :: OpensAt(s, needle, a, b, v.start)
    ensures JudgeAt(s, needle, found).Free? ==> !s.ClashesWithPrimary(JudgeAt(s, needle, found).start)
    ensures JudgeAt(s, needle, found).Clash? ==> s.ClashesWithPrimary(JudgeAt(s, needle, found).start)
  {
    if OccursAt(s.folded, needle, found) {
      FoldedMatchIsVerbatim(s.rules.fold, s.text, s.folded, s.at, needle, found);
      var a, b := RawStart(s.at, found), RawEnd(s.at, found, |needle|);
      var v := JudgeAt(s, needle, found);
      assert v.Free? || v.Clash? ==> OpensAt(s, needle, a, b, v.start);
    }
  }

  /** The occurrence is no part of a longer number, and no table of contents surrounds it. */
  predicate StandsAlone(s: Search, needle: string, a: nat, b: nat)
    requires needle != [] && a < b <= |s.text|
  {
    && (s.rules.digit(needle[0]) && a > 0 ==> !s.rules.digit(s.text[a - 1]))
    && (s.rules.digit(needle[0]) && b < |s.text| ==> !s.rules.digit(s.text[b]))
    && !s.rules.toc(Lowered(s.rules.fold.lower, Slice(s.text, a - 2 * s.span, a + 2 * s.span)))
  }

  /** Where a window opened for the occurrence starts and ends. */
  predicate IsWindowFor(s: Search, a: nat, start: int, end: int) {
    && start == (if a >= s.lead then a - s.lead else 0)
    && end == (if start + s.budget <= |s.text| then start + s.budget else |s.text|)
  }

  /** What is made of an occurrence, from the page and the primary window alone. */
  lemma VerdictTells(s: Search, needle: string, a: nat, b: nat, start: int, end: int)
    requires needle != [] && a < b <= |s.text| && IsWindowFor(s, a, start, end)
    ensures Judge(s, needle, a, b).Unfit? <==> !StandsAlone(s, needle, a, b)
    ensures Judge(s, needle, a, b).Covered? <==>
      StandsAlone(s, needle, a, b) && s.primary >= 0 && s.primary <= a && b <= s.primary + s.budget
    ensures Judge(s, needle, a, b).Free? || Judge(s, needle, a, b).Clash? ==> Judge(s, needle, a, b).start == start
    ensures Judge(s, needle, a, b).Free? && s.primary >= 0 ==> Disjoint(start, end, s.primary, s.primary + s.budget)
    ensures Judge(s, needle, a, b).Clash? ==>
      s.primary >= 0 && !Disjoint(start, end, s.primary, s.primary + s.budget)
  {
  }

  /** With room behind the lead, a window opened for an occurrence shows all of it. */
  lemma WindowShowsOccurrence(s: Search, needle: string, a: nat, b: nat, start: nat)
    requires s.Valid() && needle != [] && OpensAt(s, needle, a, b, start) && s.lead + (b - a) <= s.budget
    ensures start <= a && b <= s.WindowEnd(start)
  {
  }

  /** A placed window shows a verbatim occurrence and shares nothing with the primary window. */
  lemma PlacedWindowIsFree(s: Search, needle: string, start: nat)
    requires s.Valid() && needle != [] && Outcome(s, needle, Place(start))
    ensures exists a, b :: OpensAt(s, needle, a, b, start)
    ensures s.primary >= 0 ==> Disjoint(start, s.WindowEnd(start), s.primary, s.primary + s.budget)
  {
    var occs, vs :| OutcomeBy(s, needle, occs, vs, Place(start));
    assert JudgeAt(s, needle, occs[|occs| - 1]) == Free(start);
    VerdictOpens(s, needle, occs[|occs| - 1]);
  }

  /** Displacement happens only when every acceptable occurrence looked at overlaps the primary
      window, none of them lies wholly inside it, and there is one. */
  lemma PinMeansNoFreePlace(s: Search, needle: string, start: nat)
    requires s.Valid() && needle != [] && Outcome(s, needle, Pin(start))
    ensures s.primary >= 0 && !Disjoint(start, s.WindowEnd(start), s.primary, s.primary + s.budget)
    ensures exists a, b :: OpensAt(s, needle, a, b, start)
    ensures exists occs: seq<nat> ::
      && |occs| <= MAX_OCCURRENCE_ATTEMPTS
      && FirstOccurrences(s.folded, needle, occs) && Exhausted(s.folded, needle, occs)
      && forall k :: 0 <= k < |occs| ==> JudgeAt(s, needle, occs[k]).Unfit? || JudgeAt(s, needle, occs[k]).Clash?
  {
    var occs, vs :| OutcomeBy(s, needle, occs, vs, Pin(start));
    var k :| 0 <= k < |vs| && vs[k] == Clash(start) && AllUnfit(vs, k);
    VerdictOpens(s, needle, occs[k]);
  }

  lemma {:induction false} SameFirstOccurrences(folded: string, needle: string, o: seq<nat>, p: seq<nat>, k: nat)
    requires FirstOccurrences(folded, needle, o) && FirstOccurrences(folded, needle, p)
    requires k < |o| && k < |p|
    ensures o[k] == p[k]
  {
    if k > 0 {
      SameFirstOccurrences(folded, needle, o, p, k - 1);
    }
    assert Follows(folded, needle, o, k) && Follows(folded, needle, p, k);
  }

  /** The specification leaves no choice: a signal has one outcome. */
  lemma OutcomeIsUnique(s: Search, needle: string, out: Placement, out': Placement)
    requires s.Valid() && needle != [] && Outcome(s, needle, out) && Outcome(s, needle, out')
    ensures out == out'
  {
    var occs, vs :| OutcomeBy(s, needle, occs, vs, out);
    var occs', vs' :| OutcomeBy(s, needle, occs', vs', out');
    if |occs| <= |occs'| {
      UniqueFrom(s, needle, occs, vs, out, occs', vs', out');
    } else {
      UniqueFrom(s, needle, occs', vs', out', occs, vs, out);
    }
  }

  /** A signal of two or more characters that found a place, or pins a window, is not skipped; a shorter one is. */
  lemma SkippedIff(s: Search, signal: string, out: Placement)
    requires s.Valid() && Fold(s.rules.fold, signal) != [] && Outcome(s, Fold(s.rules.fold, signal), out)
    ensures Skipped(s, signal) <==> |Fold(s.rules.fold, signal)| == 1 || out.Skip?
  {
    if Outcome(s, Fold(s.rules.fold, signal), Skip) { OutcomeIsUnique(s, Fold(s.rules.fold, signal), out, Skip); }
  }

  lemma UniqueFrom(s: Search, needle: string, o: seq<nat>, vs: seq<Verdict>, out: Placement,
                   p: seq<nat>, ws: seq<Verdict>, out': Placement)
    requires s.Valid() && needle != [] && |o| <= |p|
    requires OutcomeBy(s, needle, o, vs, out) && OutcomeBy(s, needle, p, ws, out')
    ensures out == out'
  {
    forall k | 0 <= k < |o| ensures vs[k] == ws[k] {
      SameFirstOccurrences(s.folded, needle, o, p, k);
    }
    if |o| < |p| {
      LongerIsNotExhausted(s.folded, needle, o, p);
      assert false;
    }
    assert vs == ws;
    DecisionIsUnique(vs, Exhausted(s.folded, needle, o), out, out');
  }

  lemma LongerIsNotExhausted(folded: string, needle: string, o: seq<nat>, p: seq<nat>)
    requires FirstOccurrences(folded, needle, o) && FirstOccurrences(folded, needle, p)
    requires |o| < |p| <= MAX_OCCURRENCE_ATTEMPTS
    ensures !Exhausted(folded, needle, o)
  {
    if o != [] {
      SameFirstOccurrences(folded, needle, o, p, |o| - 1);
    }
    assert Follows(folded, needle, p, |o|);
  }

  lemma DecisionIsUnique(vs: seq<Verdict>, exhausted: bool, out: Placement, out': Placement)
    requires Decides(vs, exhausted, out) && Decides(vs, exhausted, out')
    ensures out == out'
  {
    if out.Pin? && out'.Pin? {
      var k :| 0 <= k < |vs| && vs[k] == Clash(out.start) && AllUnfit(vs, k);
      var j :| 0 <= j < |vs| && vs[j] == Clash(out'.start) && AllUnfit(vs, j);
      assert j == k;
    }
  }
}
