/** Rendering of search hits as a fenced block of untrusted data (apps/orchestrator/search_view.py). */
module SearchFence {
  import opened Basics
  import opened Text

  const SEARCH_CONTEXT_BUDGET := 8000
  const SEARCH_TITLE_CHARS := 200
  const SEARCH_SNIPPET_CHARS := 400
  const SEARCH_URL_CHARS := 500
  const SEARCH_MAX_HITS := 10

  const BEGIN_MARKER := "<<<UNTRUSTED DATA BEGIN>>>"
  const END_MARKER := "<<<UNTRUSTED DATA END>>>"
  const NEUTRAL := "[fence-маркер в данных заменён]"

  // ----- neutralising a marker -----

  /** Replaces the occurrences of `m` from offset `i` on, left to right and without overlap. */
  function ReplaceFrom(s: string, m: string, r: string, i: nat): string
    requires |m| > 0
    decreases |s| - i
  {
    if i >= |s| then ""
    else if OccursAt(s, m, i) then r + ReplaceFrom(s, m, r, i + |m|)
    else [s[i]] + ReplaceFrom(s, m, r, i + 1)
  }

  /** A marker opens with '<' and stays clear of the replacement's bracket and of line breaks. */
  predicate IsMarker(t: string) {
    |t| > 0 && t[0] == '<' && (forall i :: 0 <= i < |t| ==> t[i] != '[' && t[i] != '\n')
  }

  predicate IsNeutral(r: string) {
    |r| > 0 && r[0] == '[' && (forall i :: 0 <= i < |r| ==> r[i] != '<' && r[i] != '\n')
  }

  /** What the output begins with, up to the first bracket, is what the source has there. */
  lemma {:induction false} OutputBeginsLikeSource(s: string, m: string, r: string, i: nat, w: string)
    requires |m| > 0 && IsNeutral(r) && i <= |s| && OccursAt(ReplaceFrom(s, m, r, i), w, 0)
    requires forall j :: 0 <= j < |w| ==> w[j] != '['
    ensures OccursAt(s, w, i)
    decreases |s| - i
  {
    var out := ReplaceFrom(s, m, r, i);
    if w == "" {
      assert s[i..i] == "";
    } else {
      assert out[0] == out[0..|w|][0] == w[0];
      if !OccursAt(s, m, i) {
        var rest := ReplaceFrom(s, m, r, i + 1);
        assert out == [s[i]] + rest;
        assert w[1..] == out[1..|w|] == rest[0..|w| - 1];
        OutputBeginsLikeSource(s, m, r, i + 1, w[1..]);
        assert s[i..i + |w|] == [s[i]] + s[i + 1..i + |w|];
        assert w == [w[0]] + w[1..];
      }
    }
  }

  lemma OccursAfter(a: string, b: string, t: string, k: nat)
    requires k >= |a|
    ensures OccursAt(a + b, t, k) <==> OccursAt(b, t, k - |a|)
  {
    if k + |t| <= |a + b| { assert (a + b)[k..k + |t|] == b[k - |a|..k - |a| + |t|]; }
  }

  lemma OccursFirst(s: string, t: string, k: nat, j: nat)
    requires j < |t|
    ensures OccursAt(s, t, k) ==> k + j < |s| && s[k + j] == t[j]
  {
    if OccursAt(s, t, k) { assert s[k..k + |t|][j] == s[k + j]; }
  }

  /** Neither the replaced marker nor one the text did not have is in the output. */
  lemma {:induction false} ReplacedHasNone(s: string, m: string, r: string, t: string, i: nat, k: nat)
    requires |m| > 0 && IsMarker(t) && IsNeutral(r) && i <= |s|
    requires t == m || forall j :: i <= j ==> !OccursAt(s, t, j)
    ensures !OccursAt(ReplaceFrom(s, m, r, i), t, k)
    decreases |s| - i
  {
    OccursFirst(ReplaceFrom(s, m, r, i), t, k, 0);
    if i < |s| && OccursAt(s, m, i) {
      var rest := ReplaceFrom(s, m, r, i + |m|);
      if k >= |r| {
        OccursAfter(r, rest, t, k);
        ReplacedHasNone(s, m, r, t, i + |m|, k - |r|);
      }
    } else if i < |s| && k > 0 {
      OccursAfter([s[i]], ReplaceFrom(s, m, r, i + 1), t, k);
      ReplacedHasNone(s, m, r, t, i + 1, k - 1);
    } else if i < |s| && OccursAt(ReplaceFrom(s, m, r, i), t, 0) {
      OutputBeginsLikeSource(s, m, r, i, t);
    }
  }

  lemma {:induction false} ReplacedIsOneLine(s: string, m: string, r: string, i: nat)
    requires |m| > 0 && IsNeutral(r) && '\n' !in s
    ensures '\n' !in ReplaceFrom(s, m, r, i)
    decreases |s| - i
  {
    if i < |s| {
      if OccursAt(s, m, i) { ReplacedIsOneLine(s, m, r, i + |m|); } else { ReplacedIsOneLine(s, m, r, i + 1); }
    }
  }

  lemma MarkersAreMarkers()
    ensures IsMarker(BEGIN_MARKER) && IsMarker(END_MARKER) && IsNeutral(NEUTRAL)
  {
  }

  // ----- one field -----

  function Flat(s: string): (r: string)
    ensures '\n' !in r && |r| == |s|
  {
    seq(|s|, i requires 0 <= i < |s| => if s[i] == '\r' || s[i] == '\n' then ' ' else s[i])
  }

  function Stripped(space: char -> bool, s: string): (r: string)
    ensures forall c :: c in r ==> c in s
    decreases |s|
  {
    if s == "" then ""
    else if space(s[0]) then Stripped(space, s[1..])
    else if space(s[|s| - 1]) then Stripped(space, s[..|s| - 1])
    else s
  }

  function Neutralised(s: string): string {
    ReplaceFrom(ReplaceFrom(s, BEGIN_MARKER, NEUTRAL, 0), END_MARKER, NEUTRAL, 0)
  }

  function Cut(s: string, limit: nat): string { if |s| <= limit then s else s[..limit] }

  /** External text as one safe line. */
  function OneLine(space: char -> bool, raw: string, limit: nat): string {
    Cut(Neutralised(Stripped(space, Flat(raw))), limit)
  }

  ghost predicate Free(s: string) { !Contains(s, BEGIN_MARKER) && !Contains(s, END_MARKER) }

  lemma NeutralisedIsFree(s: string)
    requires '\n' !in s
    ensures Free(Neutralised(s)) && '\n' !in Neutralised(s)
  {
    MarkersAreMarkers();
    var first := ReplaceFrom(s, BEGIN_MARKER, NEUTRAL, 0);
    var out := Neutralised(s);
    ReplacedIsOneLine(s, BEGIN_MARKER, NEUTRAL, 0);
    ReplacedIsOneLine(first, END_MARKER, NEUTRAL, 0);
    forall k: nat ensures !OccursAt(first, BEGIN_MARKER, k) {
      ReplacedHasNone(s, BEGIN_MARKER, NEUTRAL, BEGIN_MARKER, 0, k);
    }
    forall k: nat ensures !OccursAt(out, BEGIN_MARKER, k) {
      ReplacedHasNone(first, END_MARKER, NEUTRAL, BEGIN_MARKER, 0, k);
    }
    forall k: nat ensures !OccursAt(out, END_MARKER, k) {
      ReplacedHasNone(first, END_MARKER, NEUTRAL, END_MARKER, 0, k);
    }
  }

  lemma CutHasNone(s: string, limit: nat, t: string)
    requires !Contains(s, t)
    ensures !Contains(Cut(s, limit), t)
  {
    var cut := Cut(s, limit);
    forall k | OccursAt(cut, t, k) ensures OccursAt(s, t, k) {
      assert forall j :: k <= j < k + |t| ==> cut[j] == s[j];
      assert cut[k..k + |t|] == s[k..k + |t|];
    }
  }

  /** Whatever the hit says, its line has neither marker nor a line break, and is within its limit. */
  lemma OneLineIsFree(space: char -> bool, raw: string, limit: nat)
    ensures var r := OneLine(space, raw, limit); Free(r) && '\n' !in r && |r| <= limit
  {
    var s := Stripped(space, Flat(raw));
    assert '\n' !in s;
    NeutralisedIsFree(s);
    CutHasNone(Neutralised(s), limit, BEGIN_MARKER);
    CutHasNone(Neutralised(s), limit, END_MARKER);
  }

  // ----- what is shown of a field -----

  /** Text without the marker is left as it is. */
  lemma {:induction false} NothingToReplace(s: string, m: string, r: string, i: nat)
    requires |m| > 0 && i <= |s| && !Contains(s, m)
    ensures ReplaceFrom(s, m, r, i) == s[i..]
    decreases |s| - i
  {
    if i < |s| {
      assert !OccursAt(s, m, i);
      NothingToReplace(s, m, r, i + 1);
      assert s[i..] == [s[i]] + s[i + 1..];
    }
  }

  function Glued(parts: seq<string>, glue: string): string
    requires parts != []
  {
    if |parts| == 1 then parts[0] else parts[0] + glue + Glued(parts[1..], glue)
  }

  /** In general the parts between the markers stay, and only the markers change. */
  lemma {:induction false} ReplacedBetween(s: string, m: string, r: string, i: nat) returns (parts: seq<string>)
    requires |m| > 0 && i <= |s|
    ensures parts != [] && s[i..] == Glued(parts, m) && ReplaceFrom(s, m, r, i) == Glued(parts, r)
    decreases |s| - i
  {
    if i == |s| {
      parts := [""];
    } else if OccursAt(s, m, i) {
      var rest := ReplacedBetween(s, m, r, i + |m|);
      parts := [""] + rest;
      GlueNext(rest, m);
      GlueNext(rest, r);
      assert s[i..] == m + s[i + |m|..];
      assert ReplaceFrom(s, m, r, i) == r + ReplaceFrom(s, m, r, i + |m|);
    } else {
      var rest := ReplacedBetween(s, m, r, i + 1);
      var c := [s[i]];
      parts := [c + rest[0]] + rest[1..];
      GlueInFront(rest, c, m);
      GlueInFront(rest, c, r);
      assert s[i..] == c + s[i + 1..];
      assert ReplaceFrom(s, m, r, i) == c + ReplaceFrom(s, m, r, i + 1);
    }
  }

  lemma GlueNext(parts: seq<string>, glue: string)
    requires parts != []
    ensures Glued([""] + parts, glue) == glue + Glued(parts, glue)
  {
    assert ([""] + parts)[1..] == parts;
  }

  lemma GlueInFront(parts: seq<string>, a: string, glue: string)
    requires parts != []
    ensures Glued([a + parts[0]] + parts[1..], glue) == a + Glued(parts, glue)
  {
    var longer := [a + parts[0]] + parts[1..];
    if |parts| > 1 {
      assert longer[1..] == parts[1..];
      assert longer[0] + glue + Glued(parts[1..], glue) == a + (parts[0] + glue + Glued(parts[1..], glue));
    }
  }

  /** Only spaces stand outside `a..b`, and none at its ends. */
  ghost predicate TrimsTo(space: char -> bool, s: string, a: nat, b: nat) {
    && a <= b <= |s|
    && (forall i :: 0 <= i < a || b <= i < |s| ==> space(s[i]))
    && (a < b ==> !space(s[a]) && !space(s[b - 1]))
  }

  lemma {:induction false} StrippedIs(space: char -> bool, s: string, a: nat, b: nat)
    requires TrimsTo(space, s, a, b)
    ensures Stripped(space, s) == s[a..b]
    decreases |s|
  {
    if s != "" {
      if a > 0 {
        StrippedIs(space, s[1..], a - 1, b - 1);
      } else if b == 0 {
        StrippedIs(space, s[1..], 0, 0);
      } else if b < |s| {
        StrippedIs(space, s[..|s| - 1], 0, b);
        assert s[..|s| - 1][0..b] == s[0..b];
      }
    }
  }

  /** The text with a space for every line break. */
  ghost predicate IsFlat(raw: string, flat: string) {
    |flat| == |raw| && forall i :: 0 <= i < |raw| ==>
      flat[i] == if raw[i] == '\r' || raw[i] == '\n' then ' ' else raw[i]
  }

  /** `flat[a..b]` is the field's own text, and it has no marker. */
  ghost predicate IsOwnText(space: char -> bool, raw: string, flat: string, a: nat, b: nat) {
    IsFlat(raw, flat) && TrimsTo(space, flat, a, b) && Free(flat[a..b])
  }

  /** Without markers a field is shown as its own text: line breaks as spaces, no spaces around it, cut at the limit. */
  lemma CleanFieldIsShown(space: char -> bool, raw: string, limit: nat, flat: string, a: nat, b: nat)
    requires IsOwnText(space, raw, flat, a, b)
    ensures OneLine(space, raw, limit) == flat[a..if b - a <= limit then b else a + limit]
  {
    assert Flat(raw) == flat;
    StrippedIs(space, flat, a, b);
    var s := flat[a..b];
    NothingToReplace(s, BEGIN_MARKER, NEUTRAL, 0);
    NothingToReplace(s, END_MARKER, NEUTRAL, 0);
    assert s[0..] == s;
  }

  ghost predicate Shows(space: char -> bool, raw: string, limit: nat, shown: string) {
    exists flat, a: nat, b: nat :: IsOwnText(space, raw, flat, a, b)
      && shown == flat[a..if b - a <= limit then b else a + limit]
  }

  // ----- joining -----

  /** A marker has no line break, so joining lines makes none. */
  lemma JoinHasNone(a: string, b: string, t: string)
    requires !Contains(a, t) && !Contains(b, t) && IsMarker(t)
    ensures !Contains(a + "\n" + b, t)
  {
    var s := a + "\n" + b;
    assert s[|a|] == '\n';
    forall k | OccursAt(s, t, k) ensures OccursAt(a, t, k) || OccursAt(b, t, k - |a| - 1) {
      if k + |t| <= |a| {
        assert s[k..k + |t|] == a[k..k + |t|];
      } else if k <= |a| {
        OccursFirst(s, t, k, |a| - k);
        assert false;
      } else {
        OccursAfter(a + "\n", b, t, k);
      }
    }
  }

  /** A line break or '<' never comes from the host's own words before a field. */
  predicate IsLead(p: string) { forall i :: 0 <= i < |p| ==> p[i] != '<' }

  lemma LeadHasNone(p: string, field: string, t: string)
    requires IsLead(p) && !Contains(field, t) && IsMarker(t)
    ensures !Contains(p + field, t)
  {
    forall k | OccursAt(p + field, t, k) ensures OccursAt(field, t, k - |p|) {
      OccursFirst(p + field, t, k, 0);
      OccursAfter(p, field, t, k);
    }
  }

  // ----- the block -----

  /** A search hit as the engine gave it; a missing field is empty. */
  datatype Hit = Hit(title: string, url: string, content: string)

  function Digits(n: nat): (r: string)
    ensures |r| > 0 && IsLead(r)
  {
    var d := [('0' as int + n % 10) as char];
    if n < 10 then d else Digits(n / 10) + d
  }

  function OrElse(field: string, placeholder: string): string { if field == "" then placeholder else field }

  function Line(lead: string, space: char -> bool, raw: string, limit: nat, placeholder: string): string {
    lead + OrElse(OneLine(space, raw, limit), placeholder)
  }

  function TitleLine(space: char -> bool, h: Hit, index: nat): string {
    Line(Digits(index) + ". ", space, h.title, SEARCH_TITLE_CHARS, "(без заголовка)")
  }

  function UrlLine(space: char -> bool, h: Hit): string {
    Line("   url: ", space, h.url, SEARCH_URL_CHARS, "(без адреса)")
  }

  function SnippetLine(space: char -> bool, h: Hit): string {
    Line("   фрагмент: ", space, h.content, SEARCH_SNIPPET_CHARS, "(фрагмента нет)")
  }

  function Rendered(space: char -> bool, h: Hit, index: nat): string {
    TitleLine(space, h, index) + "\n" + UrlLine(space, h) + "\n" + SnippetLine(space, h)
  }

  function Joined(space: char -> bool, hits: seq<Hit>): string
    requires hits != []
  {
    var n := |hits| - 1;
    if n == 0 then Rendered(space, hits[0], 1) else Joined(space, hits[..n]) + "\n" + Rendered(space, hits[n], n + 1)
  }

  function Body(space: char -> bool, hits: seq<Hit>): string {
    if hits == [] then "(внешних совпадений нет)" else Joined(space, hits)
  }

  function Block(space: char -> bool, hits: seq<Hit>, note: string): string {
    BEGIN_MARKER + "\n" + Body(space, hits) + "\n" + END_MARKER + "\n" + note
  }

  lemma {:induction false} DigitsAreDecimal(n: nat)
    ensures NumberOf(Digits(n)) == n
  {
    if n >= 10 {
      DigitsAreDecimal(n / 10);
      assert Digits(n)[..|Digits(n)| - 1] == Digits(n / 10);
    }
  }

  /** The number a string of decimal digits stands for. */
  function NumberOf(s: string): int {
    if s == "" then 0 else 10 * NumberOf(s[..|s| - 1]) + (s[|s| - 1] as int - '0' as int)
  }

  /** A hit without markers, line by line. */
  lemma CleanHitIsShown(space: char -> bool, h: Hit, index: nat, title: string, url: string, content: string)
    requires Shows(space, h.title, 200, title) && Shows(space, h.url, 500, url) && Shows(space, h.content, 400, content)
    ensures Rendered(space, h, index) ==
      Digits(index) + ". " + (if title == "" then "(без заголовка)" else title) + "\n"
      + ("   url: " + (if url == "" then "(без адреса)" else url)) + "\n"
      + ("   фрагмент: " + (if content == "" then "(фрагмента нет)" else content))
  {
    FieldShows(space, h.title, 200, title);
    FieldShows(space, h.url, 500, url);
    FieldShows(space, h.content, 400, content);
  }

  lemma FieldShows(space: char -> bool, raw: string, limit: nat, shown: string)
    requires Shows(space, raw, limit, shown)
    ensures OneLine(space, raw, limit) == shown
  {
    var flat, a: nat, b: nat :| IsOwnText(space, raw, flat, a, b)
      && shown == flat[a..if b - a <= limit then b else a + limit];
    CleanFieldIsShown(space, raw, limit, flat, a, b);
  }

  /** `mine` stands in `s` between `before` and `after`, on lines of its own. */
  predicate StandsBetween(s: string, mine: string, before: string, after: string) {
    && s == before + mine + after
    && (before == "" || before[|before| - 1] == '\n') && (after == "" || after[0] == '\n')
  }

  lemma StandsInLonger(s: string, mine: string, before: string, after: string, last: string)
    requires StandsBetween(s, mine, before, after)
    ensures StandsBetween(s + "\n" + last, mine, before, after + "\n" + last)
  {
  }

  lemma StandsLast(s: string, last: string)
    ensures StandsBetween(s + "\n" + last, last, s + "\n", "") && StandsBetween(last, last, "", "")
  {
  }

  function JoinedLines(parts: seq<string>): string
    requires parts != []
  {
    var n := |parts| - 1;
    if n == 0 then parts[0] else JoinedLines(parts[..n]) + "\n" + parts[n]
  }

  lemma {:induction false} PartStands(parts: seq<string>, i: nat) returns (before: string, after: string)
    requires i < |parts|
    ensures StandsBetween(JoinedLines(parts), parts[i], before, after)
    ensures before == if i == 0 then "" else JoinedLines(parts[..i]) + "\n"
    decreases |parts|
  {
    var n := |parts| - 1;
    if i < n {
      before, after := PartStands(parts[..n], i);
      assert parts[..n][..i] == parts[..i];
      StandsInLonger(JoinedLines(parts[..n]), parts[i], before, after, parts[n]);
      after := after + "\n" + parts[n];
    } else {
      StandsLast(if n == 0 then "" else JoinedLines(parts[..n]), parts[n]);
      before, after := (if n == 0 then "" else JoinedLines(parts[..n]) + "\n"), "";
    }
  }

  function RenderedAll(space: char -> bool, hits: seq<Hit>): (r: seq<string>)
    ensures |r| == |hits|
  {
    seq(|hits|, i requires 0 <= i < |hits| => Rendered(space, hits[i], i + 1))
  }

  lemma {:induction false} JoinedIs(space: char -> bool, hits: seq<Hit>)
    requires hits != []
    ensures Body(space, hits) == JoinedLines(RenderedAll(space, hits))
    decreases |hits|
  {
    var n := |hits| - 1;
    if n > 0 {
      JoinedIs(space, hits[..n]);
      assert RenderedAll(space, hits[..n]) == RenderedAll(space, hits)[..n];
    }
  }

  /** Every hit stands in the body, under its number and on lines of its own, the earlier hits before it. */
  lemma HitStandsInBody(space: char -> bool, hits: seq<Hit>, i: nat) returns (before: string, after: string)
    requires i < |hits|
    ensures StandsBetween(Body(space, hits), RenderedAll(space, hits)[i], before, after)
    ensures before == if i == 0 then "" else JoinedLines(RenderedAll(space, hits)[..i]) + "\n"
  {
    JoinedIs(space, hits);
    before, after := PartStands(RenderedAll(space, hits), i);
  }

  lemma LeadIsFree(p: string)
    requires IsLead(p)
    ensures Free(p)
  {
    forall t, k: nat | (t == BEGIN_MARKER || t == END_MARKER) && OccursAt(p, t, k) ensures false {
      OccursFirst(p, t, k, 0);
    }
  }

  lemma JoinIsFree(a: string, b: string)
    requires Free(a) && Free(b)
    ensures Free(a + "\n" + b)
  {
    MarkersAreMarkers();
    JoinHasNone(a, b, BEGIN_MARKER);
    JoinHasNone(a, b, END_MARKER);
  }

  lemma LineIsFree(lead: string, space: char -> bool, raw: string, limit: nat, placeholder: string)
    requires IsLead(lead) && IsLead(placeholder)
    ensures Free(Line(lead, space, raw, limit, placeholder))
  {
    MarkersAreMarkers();
    OneLineIsFree(space, raw, limit);
    LeadIsFree(placeholder);
    var field := OrElse(OneLine(space, raw, limit), placeholder);
    LeadHasNone(lead, field, BEGIN_MARKER);
    LeadHasNone(lead, field, END_MARKER);
  }

  lemma TitleIsFree(space: char -> bool, h: Hit, index: nat)
    ensures Free(TitleLine(space, h, index))
  {
    assert IsLead(". ");
    LineIsFree(Digits(index) + ". ", space, h.title, SEARCH_TITLE_CHARS, "(без заголовка)");
  }

  lemma UrlIsFree(space: char -> bool, h: Hit)
    ensures Free(UrlLine(space, h))
  {
    LineIsFree("   url: ", space, h.url, SEARCH_URL_CHARS, "(без адреса)");
  }

  lemma SnippetIsFree(space: char -> bool, h: Hit)
    ensures Free(SnippetLine(space, h))
  {
    LineIsFree("   фрагмент: ", space, h.content, SEARCH_SNIPPET_CHARS, "(фрагмента нет)");
  }

  lemma RenderedIsFree(space: char -> bool, h: Hit, index: nat)
    ensures Free(Rendered(space, h, index))
  {
    TitleIsFree(space, h, index);
    UrlIsFree(space, h);
    SnippetIsFree(space, h);
    JoinIsFree(TitleLine(space, h, index), UrlLine(space, h));
    JoinIsFree(TitleLine(space, h, index) + "\n" + UrlLine(space, h), SnippetLine(space, h));
  }

  /** For arbitrary hits the body between the fences contains neither marker. */
  lemma {:induction false} BodyIsFree(space: char -> bool, hits: seq<Hit>)
    ensures Free(Body(space, hits))
    decreases |hits|
  {
    if hits == [] {
      LeadIsFree("(внешних совпадений нет)");
    } else {
      var n := |hits| - 1;
      RenderedIsFree(space, hits[n], n + 1);
      if n > 0 {
        BodyIsFree(space, hits[..n]);
        JoinIsFree(Joined(space, hits[..n]), Rendered(space, hits[n], n + 1));
      }
    }
  }

  /** Where a marker can stand in two joined pieces. */
  lemma OccursInJoin(a: string, b: string, t: string, k: nat)
    requires IsMarker(t)
    ensures OccursAt(a + "\n" + b, t, k) <==> OccursAt(a, t, k) || (k > |a| && OccursAt(b, t, k - |a| - 1))
  {
    var s := a + "\n" + b;
    assert s[|a|] == '\n';
    if k + |t| <= |a| {
      assert s[k..k + |t|] == a[k..k + |t|];
    } else if k <= |a| {
      OccursFirst(s, t, k, |a| - k);
    } else {
      OccursAfter(a + "\n", b, t, k);
    }
  }

  lemma MarkersDiffer(k: nat)
    ensures OccursAt(BEGIN_MARKER, BEGIN_MARKER, k) <==> k == 0
    ensures OccursAt(END_MARKER, END_MARKER, k) <==> k == 0
    ensures !OccursAt(BEGIN_MARKER, END_MARKER, k) && !OccursAt(END_MARKER, BEGIN_MARKER, k)
  {
    OccursFirst(BEGIN_MARKER, END_MARKER, k, 19);
    OccursFirst(BEGIN_MARKER, END_MARKER, k, 20);
    assert BEGIN_MARKER[0..|BEGIN_MARKER|] == BEGIN_MARKER;
    assert END_MARKER[0..|END_MARKER|] == END_MARKER;
  }

  /** The fence of the block opens and closes exactly once, around the body. */
  lemma FenceIsSealed(space: char -> bool, hits: seq<Hit>, note: string, k: nat)
    requires Free(note)
    ensures OccursAt(Block(space, hits, note), BEGIN_MARKER, k) <==> k == 0
    ensures OccursAt(Block(space, hits, note), END_MARKER, k) <==> k == |BEGIN_MARKER| + 1 + |Body(space, hits)| + 1
  {
    BodyIsFree(space, hits);
    BlockOnceIff(Body(space, hits), note, BEGIN_MARKER);
    BlockOnceIff(Body(space, hits), note, END_MARKER);
  }

  // ----- the shrinking loop -----

  /** UTF-8 bytes. */
  function Bytes(s: string): nat {
    if s == "" then 0
    else
      var c := s[|s| - 1] as int;
      Bytes(s[..|s| - 1]) + if c < 0x80 then 1 else if c < 0x800 then 2 else if c < 0x10000 then 3 else 4
  }

  lemma {:induction false} BytesConcat(a: string, b: string)
    ensures Bytes(a + b) == Bytes(a) + Bytes(b)
  {
    if b == "" {
      assert a + b == a;
    } else {
      assert (a + b)[..|a + b| - 1] == a + b[..|b| - 1];
      BytesConcat(a, b[..|b| - 1]);
    }
  }

  /** One byte carries 7 bits of a character, two carry 11, three 16 and four the rest. */
  lemma BytesOfOne(c: char)
    ensures Bytes([c]) == 1 <==> (c as int) < 128
    ensures Bytes([c]) == 2 <==> 128 <= c as int < 2048
    ensures Bytes([c]) == 3 <==> 2048 <= c as int < 65536
    ensures 1 <= Bytes([c]) <= 4
  {
    assert [c][..0] == "" && Bytes("") == 0;
  }

  const CAP_MARK := "[... показаны не все совпадения ...]"
  const OMITTED := "[... часть результатов опущена "
  const BY_BUDGET := "по бюджету контекста ...]"
  const TRUNCATION_MARK := OMITTED + BY_BUDGET

  /** A hit of the node's own index; the relevance, when there is a number, in hundredths. */
  datatype Local = Local(statement: string, claimId: string, claimType: string, relevance: Option<int>)

  const CLAIM_ID_CHARS := 64
  const CLAIM_TYPE_CHARS := 40

  function RelevanceText(r: Option<int>): (t: string)
    ensures IsLead(t)
  {
    match r
    case None => "?"
    case Some(n) =>
      var a := if n < 0 then -n else n;
      (if n < 0 then "-" else "") + Digits(a / 100) + "." + Digits(a % 100 / 10) + Digits(a % 10)
  }

  /** A number of hundredths is shown with exactly two places. */
  lemma RelevanceTells(n: int) returns (whole: string, cents: string)
    ensures RelevanceText(Some(n)) == (if n < 0 then "-" else "") + whole + "." + cents && |cents| == 2
    ensures 100 * NumberOf(whole) + NumberOf(cents) == if n < 0 then -n else n
  {
    var a := if n < 0 then -n else n;
    whole, cents := Digits(a / 100), Digits(a % 100 / 10) + Digits(a % 10);
    DigitsAreDecimal(a / 100);
    TwoDigits(a % 100 / 10, a % 10);
    Hundredths(a);
    Dotted(if n < 0 then "-" else "", whole, Digits(a % 100 / 10), Digits(a % 10));
  }

  lemma Hundredths(a: nat)
    ensures 100 * (a / 100) + (10 * (a % 100 / 10) + a % 10) == a
  {
  }

  lemma Dotted(sign: string, whole: string, d: string, e: string)
    ensures sign + whole + "." + d + e == sign + whole + "." + (d + e)
  {
  }

  lemma TwoDigits(d: nat, e: nat)
    requires d < 10 && e < 10
    ensures |Digits(d) + Digits(e)| == 2 && NumberOf(Digits(d) + Digits(e)) == 10 * d + e
  {
    var s := Digits(d) + Digits(e);
    DigitsAreDecimal(d);
    assert s[..1] == Digits(d) && s[1] == Digits(e)[0];
  }

  const AFTER_ID := " | "
  const AFTER_TYPE := "] "
  const AFTER_STATEMENT := " (релевантность "

  function StatementPart(space: char -> bool, h: Local): string {
    OrElse(OneLine(space, h.statement, SEARCH_SNIPPET_CHARS), "(без формулировки)") + AFTER_STATEMENT
    + (RelevanceText(h.relevance) + ")")
  }

  function TypePart(space: char -> bool, h: Local): string {
    OrElse(OneLine(space, h.claimType, CLAIM_TYPE_CHARS), "?") + AFTER_TYPE + StatementPart(space, h)
  }

  function IdPart(space: char -> bool, h: Local): string {
    OrElse(OneLine(space, h.claimId, CLAIM_ID_CHARS), "?") + AFTER_ID + TypePart(space, h)
  }

  function LocalLine(space: char -> bool, h: Local, index: nat): string {
    Digits(index) + ". [claim " + IdPart(space, h)
  }

  /** A local hit without markers: id, type, statement and relevance on one line. */
  lemma CleanLocalIsShown(space: char -> bool, h: Local, index: nat, id: string, kind: string, statement: string)
    requires Shows(space, h.claimId, 64, id) && Shows(space, h.claimType, 40, kind)
    requires Shows(space, h.statement, 400, statement)
    ensures LocalLine(space, h, index) == Digits(index) + ". [claim "
      + ((if id == "" then "?" else id) + " | " + ((if kind == "" then "?" else kind) + "] "
      + ((if statement == "" then "(без формулировки)" else statement) + " (релевантность "
      + (RelevanceText(h.relevance) + ")"))))
  {
    FieldShows(space, h.claimId, 64, id);
    FieldShows(space, h.claimType, 40, kind);
    FieldShows(space, h.statement, 400, statement);
  }

  function LocalLines(space: char -> bool, hits: seq<Local>): string
    requires hits != []
  {
    var n := |hits| - 1;
    if n == 0 then LocalLine(space, hits[0], 1)
      else LocalLines(space, hits[..n]) + "\n" + LocalLine(space, hits[n], n + 1)
  }

  const LOCAL_TITLE := "Память узла (локальный индекс):"
  const NO_LOCAL := "(в локальном индексе совпадений нет)"

  function LocalBody(space: char -> bool, hits: seq<Local>): string {
    if hits == [] then NO_LOCAL else LocalLines(space, hits)
  }

  /** The results to show. `countLine` is the header's third line for an upstream count (None when no search was made),
      `note` the host's words below the fence and `localNote` those below the local section. */
  datatype View = View(space: char -> bool, attempted: bool, upstream: seq<Hit>, local: seq<Local>,
                       query: string, mode: string, profile: string,
                       countLine: Option<nat> -> string, note: string, localNote: string)

  function QueryLine(query: string): string { "[поиск: " + query + "]" }

  const AFTER_MODE := " | профиль: "

  function ModeLine(mode: string, profile: string): string { "режим узла: " + (mode + AFTER_MODE + profile) }

  function Header(v: View, count: Option<nat>): string {
    QueryLine(v.query) + "\n" + (ModeLine(v.mode, v.profile) + "\n" + v.countLine(count))
  }

  function LocalBlock(v: View, local: seq<Local>): string {
    LOCAL_TITLE + "\n" + LocalBody(v.space, local) + "\n" + v.localNote
  }

  const SECTION := "Внешние источники (навигация):"

  function Assembled(v: View, up: seq<Hit>, local: seq<Local>): string {
    (if v.attempted then Header(v, Some(|up|)) + "\n" + SECTION + "\n" + Block(v.space, up, v.note)
     else Header(v, None))
    + "\n" + LocalBlock(v, local)
  }

  lemma JoinedThree(a: string, b: string, c: string)
    ensures JoinedLines([a, b, c]) == a + "\n" + b + "\n" + c
  {
    JoinedMore([a], b);
    JoinedMore([a, b], c);
    assert [a] + [b] == [a, b] && [a, b] + [c] == [a, b, c];
  }

  lemma JoinedMore(parts: seq<string>, last: string)
    requires parts != []
    ensures JoinedLines(parts + [last]) == JoinedLines(parts) + "\n" + last
  {
    assert (parts + [last])[..|parts|] == parts;
  }

  /** The observation is its parts on lines of their own; without a search there is no external section, and the
      header says so. */
  lemma AssembledIs(v: View, up: seq<Hit>, local: seq<Local>)
    ensures var head := [QueryLine(v.query), ModeLine(v.mode, v.profile)];
      Assembled(v, up, local) == JoinedLines(
        if v.attempted then head + [v.countLine(Some(|up|)), SECTION, Block(v.space, up, v.note), LocalBlock(v, local)]
        else head + [v.countLine(None), LocalBlock(v, local)])
  {
    Parts(QueryLine(v.query), ModeLine(v.mode, v.profile), v.countLine(if v.attempted then Some(|up|) else None),
          Block(v.space, up, v.note), LocalBlock(v, local));
  }

  lemma Parts(q: string, m: string, count: string, block: string, mine: string)
    ensures JoinedLines([q, m] + [count, mine]) == q + "\n" + (m + "\n" + count) + "\n" + mine
    ensures JoinedLines([q, m] + [count, SECTION, block, mine])
      == q + "\n" + (m + "\n" + count) + "\n" + SECTION + "\n" + block + "\n" + mine
  {
    var head := [q, m, count];
    JoinedThree(q, m, count);
    assert q + "\n" + (m + "\n" + count) == q + "\n" + m + "\n" + count;
    PartsAfter(head, block, mine);
    assert [q, m] + [count, mine] == head + [mine];
    assert [q, m] + [count, SECTION, block, mine] == head + [SECTION, block, mine];
  }

  lemma PartsAfter(head: seq<string>, block: string, mine: string)
    requires head != []
    ensures JoinedLines(head + [mine]) == JoinedLines(head) + "\n" + mine
    ensures JoinedLines(head + [SECTION, block, mine])
      == JoinedLines(head) + "\n" + SECTION + "\n" + block + "\n" + mine
  {
    JoinedMore(head, mine);
    JoinedMore(head, SECTION);
    JoinedMore(head + [SECTION], block);
    JoinedMore(head + [SECTION] + [block], mine);
    assert head + [SECTION] + [block] + [mine] == head + [SECTION, block, mine];
  }

  type Fitting = (seq<Hit>, seq<Local>) -> bool

  function First<T>(s: seq<T>): seq<T> { if |s| <= SEARCH_MAX_HITS then s else s[..SEARCH_MAX_HITS] }

  /** What is shown: whole hits are dropped from the end, external ones down to the last, then local ones. */
  datatype Shown = Shown(up: seq<Hit>, local: seq<Local>, gaveUp: bool)

  function Shrunk(fits: Fitting, up: seq<Hit>, local: seq<Local>): (r: Shown)
    ensures r.up <= up && r.local <= local
    ensures r.gaveUp <==> !fits(r.up, r.local)
    ensures r.gaveUp ==> |r.up| <= 1 && r.local == []
    decreases |up| + |local|
  {
    if fits(up, local) then Shown(up, local, false)
    else if |up| > 1 then Shrunk(fits, up[..|up| - 1], local)
    else if local != [] then Shrunk(fits, up, local[..|local| - 1])
    else Shown(up, local, true)
  }

  /** No local hit is dropped while a second external one is shown. */
  lemma {:induction false} LocalGoesLast(fits: Fitting, up: seq<Hit>, local: seq<Local>)
    ensures |Shrunk(fits, up, local).up| > 1 ==> Shrunk(fits, up, local).local == local
    decreases |up| + |local|
  {
    if !fits(up, local) {
      if |up| > 1 { LocalGoesLast(fits, up[..|up| - 1], local); }
      else if local != [] { LocalGoesLast(fits, up, local[..|local| - 1]); }
    }
  }

  /** A hit is dropped only when the text with it, and everything shown after it, is over the budget. */
  lemma {:induction false} DroppedOnlyWhenNeeded(fits: Fitting, up: seq<Hit>, local: seq<Local>, n: nat)
    requires |Shrunk(fits, up, local).up| < n <= |up|
    ensures !fits(up[..n], local)
    decreases |up|
  {
    if n == |up| {
      assert up[..n] == up;
    } else {
      assert up[..|up| - 1][..n] == up[..n];
      DroppedOnlyWhenNeeded(fits, up[..|up| - 1], local, n);
    }
  }

  /** A local hit is dropped only when the text with it is over the budget, with one external hit at most. */
  lemma {:induction false} LocalDroppedOnlyWhenNeeded(fits: Fitting, up: seq<Hit>, local: seq<Local>, n: nat)
    requires |Shrunk(fits, up, local).local| < n <= |local|
    ensures !fits(if |up| > 1 then up[..1] else up, local[..n])
    decreases |up| + |local|
  {
    if |up| > 1 {
      LocalDroppedOnlyWhenNeeded(fits, up[..|up| - 1], local, n);
      assert |up| > 2 ==> up[..|up| - 1][..1] == up[..1];
    } else if n < |local| {
      LocalDroppedOnlyWhenNeeded(fits, up, local[..|local| - 1], n);
      assert local[..|local| - 1][..n] == local[..n];
    } else {
      assert local[..n] == local;
    }
  }

  function Capped(v: View): bool { |First(v.upstream)| < |v.upstream| || |First(v.local)| < |v.local| }

  function Tail(v: View, gaveUp: bool): string {
    if gaveUp then "\n" + TRUNCATION_MARK else if Capped(v) then "\n" + CAP_MARK else ""
  }

  /** The mark below: given up, or more than ten hits of a kind, or none. */
  lemma TailTells(v: View, gaveUp: bool)
    ensures gaveUp ==> Tail(v, gaveUp) == "\n" + OMITTED + BY_BUDGET
    ensures !gaveUp && (|v.upstream| > 10 || |v.local| > 10) ==> Tail(v, gaveUp) == "\n" + CAP_MARK
    ensures !gaveUp && |v.upstream| <= 10 && |v.local| <= 10 ==> Tail(v, gaveUp) == ""
  {
    assert "\n" + (OMITTED + BY_BUDGET) == "\n" + OMITTED + BY_BUDGET;
  }

  /** What is shown of a view: the whole hits that fit. */
  function ShownOf(v: View): Shown {
    Shrunk((u, l) => Bytes(Assembled(v, u, l)) <= SEARCH_CONTEXT_BUDGET, First(v.upstream), First(v.local))
  }

  ghost predicate IsFirstTen<T>(s: seq<T>, ten: seq<T>) { ten <= s && |ten| == if |s| < 10 then |s| else 10 }

  /** The first ten hits of each kind are shown when they fit in 8000 bytes; hits left out are the last ones. */
  lemma ShownTells(v: View, up: seq<Hit>, local: seq<Local>)
    requires IsFirstTen(v.upstream, up) && IsFirstTen(v.local, local)
    ensures ShownOf(v).up <= up && ShownOf(v).local <= local
    ensures Bytes(Assembled(v, up, local)) <= 8000 ==> ShownOf(v) == Shown(up, local, false)
    ensures Bytes(Assembled(v, up, local)) > 8000 ==> ShownOf(v) != Shown(up, local, false)
  {
    assert up == First(v.upstream) && local == First(v.local);
  }

  // ----- the whole observation -----

  /** The marker stands in `s` at `p` and nowhere else. */
  ghost predicate StandsOnce(s: string, t: string, p: nat) { forall k: nat :: OccursAt(s, t, k) <==> k == p }

  predicate IsFence(t: string) { t == BEGIN_MARKER || t == END_MARKER }

  /** Where the marker opens or closes the fence, from the block's first character. */
  function FenceAt(body: string, t: string): nat { if t == BEGIN_MARKER then 0 else |BEGIN_MARKER| + 1 + |body| + 1 }

  /** The fenced body with a note below: the fence's own place, and whatever the note has. */
  lemma OccursInBlock(body: string, note: string, t: string, k: nat)
    requires Free(body) && IsFence(t)
    ensures var block := BEGIN_MARKER + "\n" + body + "\n" + END_MARKER;
      OccursAt(block + "\n" + note, t, k) <==>
        k == FenceAt(body, t) || (k > |block| && OccursAt(note, t, k - |block| - 1))
  {
    MarkersAreMarkers();
    var a := BEGIN_MARKER + "\n" + body;
    var b := a + "\n" + END_MARKER;
    OccursInJoin(b, note, t, k);
    OccursInJoin(a, END_MARKER, t, k);
    OccursInJoin(BEGIN_MARKER, body, t, k);
    MarkersDiffer(k);
    if k > |a| { MarkersDiffer(k - |a| - 1); }
  }

  /** Before the block, in the block, after it. */
  lemma OnceInPieces(before: string, block: string, after: string, t: string, p: nat)
    requires IsMarker(t) && OccursAt(block, t, p)
    ensures StandsOnce(before + "\n" + block + "\n" + after, t, |before| + 1 + p) <==>
      !Contains(before, t) && StandsOnce(block, t, p) && !Contains(after, t)
  {
    var front := before + "\n" + block;
    var s := front + "\n" + after;
    forall k: nat ensures OccursAt(s, t, k) <==>
      || OccursAt(before, t, k) || (k > |before| && OccursAt(block, t, k - |before| - 1))
      || (k > |front| && OccursAt(after, t, k - |front| - 1))
    {
      OccursInJoin(front, after, t, k);
      OccursInJoin(before, block, t, k);
    }
    if StandsOnce(s, t, |before| + 1 + p) { OnceMeansNowhereElse(before, block, after, t, p); }
  }

  lemma OnceMeansNowhereElse(before: string, block: string, after: string, t: string, p: nat)
    requires IsMarker(t) && StandsOnce(before + "\n" + block + "\n" + after, t, |before| + 1 + p)
    requires OccursAt(block, t, p)
    ensures !Contains(before, t) && StandsOnce(block, t, p) && !Contains(after, t)
  {
    var front := before + "\n" + block;
    var s := front + "\n" + after;
    forall k: nat ensures !OccursAt(before, t, k) {
      OccursInJoin(front, after, t, k);
      OccursInJoin(before, block, t, k);
    }
    forall k: nat ensures OccursAt(block, t, k) <==> k == p {
      OccursInJoin(front, after, t, |before| + 1 + k);
      OccursInJoin(before, block, t, |before| + 1 + k);
    }
    forall k: nat ensures !OccursAt(after, t, k) {
      OccursInJoin(front, after, t, |front| + 1 + k);
      OccursFirst(block, t, p, |t| - 1);
    }
  }

  lemma TailIsFree(v: View, gaveUp: bool)
    ensures Tail(v, gaveUp) == "" || exists mark :: Tail(v, gaveUp) == "\n" + mark && Free(mark)
  {
    LeadIsFree(CAP_MARK);
    BudgetMarkIsLead();
    LeadIsFree(TRUNCATION_MARK);
  }

  lemma BudgetMarkIsLead()
    ensures IsLead(TRUNCATION_MARK)
  {
    assert IsLead(OMITTED);
    assert IsLead(BY_BUDGET);
  }

  lemma JoinFreeIff(a: string, b: string, t: string)
    requires IsMarker(t) && !Contains(b, t)
    ensures (Contains(a + "\n" + b, t) <==> Contains(a, t)) && (Contains(b + "\n" + a, t) <==> Contains(a, t))
  {
    forall k: nat ensures OccursAt(a + "\n" + b, t, k) <==> OccursAt(a, t, k) { OccursInJoin(a, b, t, k); }
    forall k: nat ensures OccursAt(b + "\n" + a, t, |b| + 1 + k) <==> OccursAt(a, t, k) {
      OccursInJoin(b, a, t, |b| + 1 + k);
    }
    forall k: nat | OccursAt(b + "\n" + a, t, k) ensures Contains(a, t) { OccursInJoin(b, a, t, k); }
  }

  /** What follows the block: the local section and the mark, if any. */
  lemma AfterFreeIff(v: View, local: seq<Local>, gaveUp: bool, t: string)
    requires IsFence(t)
    ensures Contains(LocalBlock(v, local) + Tail(v, gaveUp), t) <==> Contains(LocalBlock(v, local), t)
  {
    MarkersAreMarkers();
    TailIsFree(v, gaveUp);
    var l := LocalBlock(v, local);
    if Tail(v, gaveUp) == "" {
      assert l + Tail(v, gaveUp) == l;
    } else {
      var mark :| Tail(v, gaveUp) == "\n" + mark && Free(mark);
      assert l + Tail(v, gaveUp) == l + "\n" + mark;
      JoinFreeIff(l, mark, t);
    }
  }

  /** The fence of the block stands once exactly when the note below it has no marker. */
  lemma BlockOnceIff(body: string, note: string, t: string)
    requires Free(body) && IsFence(t)
    ensures var block := BEGIN_MARKER + "\n" + body + "\n" + END_MARKER + "\n" + note;
      OccursAt(block, t, FenceAt(body, t)) && (StandsOnce(block, t, FenceAt(body, t)) <==> !Contains(note, t))
  {
    var fenced := BEGIN_MARKER + "\n" + body + "\n" + END_MARKER;
    forall k: nat ensures OccursAt(fenced + "\n" + note, t, k) <==>
      k == FenceAt(body, t) || (k > |fenced| && OccursAt(note, t, k - |fenced| - 1))
    {
      OccursInBlock(body, note, t, k);
    }
    if k :| 0 <= k <= |note| && OccursAt(note, t, k) { assert OccursAt(fenced + "\n" + note, t, |fenced| + 1 + k); }
  }

  /** One marker in the whole text of an observation with an external block. */
  lemma MarkerOnceIff(v: View, up: seq<Hit>, local: seq<Local>, gaveUp: bool, t: string)
    requires v.attempted && IsFence(t)
    ensures var text := Assembled(v, up, local) + Tail(v, gaveUp);
      StandsOnce(text, t, |Header(v, Some(|up|))| + 1 + |SECTION| + 1 + FenceAt(Body(v.space, up), t)) <==>
      !Contains(Header(v, Some(|up|)), t) && !Contains(v.note, t) && !Contains(LocalBlock(v, local), t)
  {
    MarkersAreMarkers();
    BodyIsFree(v.space, up);
    var header, body, after := Header(v, Some(|up|)), Body(v.space, up), LocalBlock(v, local) + Tail(v, gaveUp);
    var before := header + "\n" + SECTION;
    BlockOnceIff(body, v.note, t);
    OnceInPieces(before, Block(v.space, up, v.note), after, t, FenceAt(body, t));
    InPieces(before, Block(v.space, up, v.note), LocalBlock(v, local), Tail(v, gaveUp));
    SectionIff(header, t);
    AfterFreeIff(v, local, gaveUp, t);
  }

  lemma SectionIff(header: string, t: string)
    requires IsFence(t)
    ensures Contains(header + "\n" + SECTION, t) <==> Contains(header, t)
  {
    MarkersAreMarkers();
    assert IsLead(SECTION);
    LeadIsFree(SECTION);
    JoinFreeIff(header, SECTION, t);
  }

  lemma InPieces(a: string, b: string, c: string, d: string)
    ensures a + "\n" + b + "\n" + c + d == a + "\n" + b + "\n" + (c + d)
  {
  }

  // ----- the local section and the header -----

  /** Words between two fields that no marker can reach across or end in. */
  predicate IsSeparator(sep: string) {
    && (forall i :: 0 <= i < |sep| ==> sep[i] != '<' && sep[i] != '>')
    && exists i :: 0 <= i < |sep| && (sep[i] == '|' || sep[i] == ']' || sep[i] == '(')
  }

  lemma MarkersEnd(t: string)
    requires IsFence(t)
    ensures IsMarker(t) && t[|t| - 1] == '>' && forall i :: 0 <= i < |t| ==> t[i] != '|' && t[i] != ']' && t[i] != '('
  {
    MarkersAreMarkers();
  }

  /** No marker starts or ends in the separator, or reaches across it. */
  lemma NotAcross(a: string, sep: string, b: string, t: string, k: nat)
    requires IsFence(t) && IsSeparator(sep) && k < |a + sep| && k + |t| > |a|
    ensures !OccursAt(a + sep + b, t, k)
  {
    MarkersEnd(t);
    var s, e := a + sep + b, k + |t| - 1;
    assert forall i :: 0 <= i < |sep| ==> s[|a| + i] == sep[i];
    if k >= |a| {
      assert s[k] == sep[k - |a|];
      OccursFirst(s, t, k, 0);
    } else if e < |a + sep| {
      assert s[e] == sep[e - |a|];
      OccursFirst(s, t, k, |t| - 1);
    } else {
      var m :| 0 <= m < |sep| && (sep[m] == '|' || sep[m] == ']' || sep[m] == '(');
      assert s[|a| + m] == sep[m];
      OccursFirst(s, t, k, |a| + m - k);
    }
  }

  lemma OccursInSeparated(a: string, sep: string, b: string, t: string, k: nat)
    requires IsFence(t) && IsSeparator(sep)
    ensures OccursAt(a + sep + b, t, k) ==> OccursAt(a, t, k) || (k >= |a + sep| && OccursAt(b, t, k - |a + sep|))
  {
    if k + |t| <= |a| {
      OccursBefore(a, sep + b, t, k);
      assert a + sep + b == a + (sep + b);
    } else if k >= |a + sep| {
      OccursAfter(a + sep, b, t, k);
    } else {
      NotAcross(a, sep, b, t, k);
    }
  }

  /** A line of two fields has a marker exactly when a field has one. */
  lemma SeparatedIff(a: string, sep: string, b: string, t: string)
    requires IsFence(t) && IsSeparator(sep)
    ensures Contains(a + sep + b, t) <==> Contains(a, t) || Contains(b, t)
  {
    forall k: nat | OccursAt(a + sep + b, t, k) ensures Contains(a, t) || Contains(b, t) {
      OccursInSeparated(a, sep, b, t, k);
    }
    forall k: nat | OccursAt(a, t, k) ensures Contains(a + sep + b, t) {
      OccursBefore(a, sep + b, t, k);
      assert a + sep + b == a + (sep + b);
    }
    forall k: nat | OccursAt(b, t, k) ensures Contains(a + sep + b, t) { OccursAfter(a + sep, b, t, |a + sep| + k); }
  }

  lemma LeadIff(lead: string, field: string, t: string)
    requires IsLead(lead) && IsFence(t)
    ensures Contains(lead + field, t) <==> Contains(field, t)
  {
    MarkersEnd(t);
    if !Contains(field, t) { LeadHasNone(lead, field, t); }
    forall k: nat | OccursAt(field, t, k) ensures Contains(lead + field, t) { OccursAfter(lead, field, t, |lead| + k); }
  }

  lemma JoinIff(a: string, b: string, t: string)
    requires IsFence(t)
    ensures Contains(a + "\n" + b, t) <==> Contains(a, t) || Contains(b, t)
  {
    MarkersEnd(t);
    forall k: nat ensures OccursAt(a + "\n" + b, t, k) <==>
      OccursAt(a, t, k) || (k > |a| && OccursAt(b, t, k - |a| - 1)) {
      OccursInJoin(a, b, t, k);
    }
    forall k: nat | OccursAt(b, t, k) ensures OccursAt(a + "\n" + b, t, |a| + 1 + k) {
      OccursInJoin(a, b, t, |a| + 1 + k);
    }
  }

  /** A neutralised field, or its placeholder. */
  lemma FieldHasNone(space: char -> bool, raw: string, limit: nat, placeholder: string, t: string)
    requires IsLead(placeholder) && IsFence(t)
    ensures !Contains(OrElse(OneLine(space, raw, limit), placeholder), t)
  {
    OneLineIsFree(space, raw, limit);
    LeadIsFree(placeholder);
  }

  lemma StatementPartHasNone(space: char -> bool, h: Local, t: string)
    requires IsFence(t)
    ensures !Contains(StatementPart(space, h), t)
  {
    var relevance := RelevanceText(h.relevance) + ")";
    FieldHasNone(space, h.statement, SEARCH_SNIPPET_CHARS, "(без формулировки)", t);
    LeadIsFree(relevance);
    Separators();
    var shown := OrElse(OneLine(space, h.statement, SEARCH_SNIPPET_CHARS), "(без формулировки)");
    SeparatedIff(shown, AFTER_STATEMENT, relevance, t);
  }

  lemma IdPartHasNone(space: char -> bool, h: Local, t: string)
    requires IsFence(t)
    ensures !Contains(IdPart(space, h), t)
  {
    FieldHasNone(space, h.claimId, CLAIM_ID_CHARS, "?", t);
    FieldHasNone(space, h.claimType, CLAIM_TYPE_CHARS, "?", t);
    StatementPartHasNone(space, h, t);
    Separators();
    SeparatedIff(OrElse(OneLine(space, h.claimType, CLAIM_TYPE_CHARS), "?"), AFTER_TYPE, StatementPart(space, h), t);
    SeparatedIff(OrElse(OneLine(space, h.claimId, CLAIM_ID_CHARS), "?"), AFTER_ID, TypePart(space, h), t);
  }

  lemma LocalLineHasNone(space: char -> bool, h: Local, index: nat, t: string)
    requires IsFence(t)
    ensures !Contains(LocalLine(space, h, index), t)
  {
    IdPartHasNone(space, h, t);
    assert IsLead(". [claim ");
    LeadIff(Digits(index) + ". [claim ", IdPart(space, h), t);
  }

  lemma Separators()
    ensures IsSeparator(AFTER_ID) && IsSeparator(AFTER_TYPE) && IsSeparator(AFTER_STATEMENT) && IsSeparator(AFTER_MODE)
  {
    assert AFTER_ID[1] == '|' && AFTER_TYPE[0] == ']' && AFTER_STATEMENT[1] == '(' && AFTER_MODE[1] == '|';
  }

  /** Whatever the local hits say, their lines have no marker. */
  lemma {:induction false} LocalBodyHasNone(space: char -> bool, hits: seq<Local>, t: string)
    requires IsFence(t)
    ensures !Contains(LocalBody(space, hits), t)
    decreases |hits|
  {
    if hits == [] {
      assert IsLead(NO_LOCAL);
      LeadIsFree(NO_LOCAL);
    } else {
      var n := |hits| - 1;
      LocalLineHasNone(space, hits[n], n + 1, t);
      if n > 0 {
        LocalBodyHasNone(space, hits[..n], t);
        JoinIff(LocalLines(space, hits[..n]), LocalLine(space, hits[n], n + 1), t);
      }
    }
  }

  lemma TitleIsLead()
    ensures IsLead(LOCAL_TITLE)
  {
  }

  lemma LocalBlockIff(v: View, local: seq<Local>, t: string)
    requires IsFence(t)
    ensures Contains(LocalBlock(v, local), t) <==> Contains(v.localNote, t)
  {
    LocalBodyHasNone(v.space, local, t);
    TitleIsLead();
    LeadIsFree(LOCAL_TITLE);
    JoinIff(LOCAL_TITLE, LocalBody(v.space, local), t);
    JoinIff(LOCAL_TITLE + "\n" + LocalBody(v.space, local), v.localNote, t);
  }

  lemma HeaderIff(v: View, count: Option<nat>, t: string)
    requires IsFence(t)
    ensures Contains(Header(v, count), t) <==>
      Contains(v.query, t) || Contains(v.mode, t) || Contains(v.profile, t) || Contains(v.countLine(count), t)
  {
    QueryLineIff(v.query, t);
    Separators();
    assert IsLead("режим узла: ");
    SeparatedIff(v.mode, AFTER_MODE, v.profile, t);
    LeadIff("режим узла: ", v.mode + AFTER_MODE + v.profile, t);
    JoinIff(ModeLine(v.mode, v.profile), v.countLine(count), t);
    JoinIff(QueryLine(v.query), ModeLine(v.mode, v.profile) + "\n" + v.countLine(count), t);
  }

  /** The host's own fixed words. */
  ghost predicate WordsAreFree(v: View, count: nat) {
    Free(v.countLine(Some(count))) && Free(v.note) && Free(v.localNote)
  }

  /** In the whole observation each marker stands exactly once, around the body, if and only if the query, the mode,
      the profile and the host's own words have none: no hit, external or local, can add one. */
  lemma ObservationSealedIff(v: View, up: seq<Hit>, local: seq<Local>, gaveUp: bool)
    requires v.attempted
    ensures var text := Assembled(v, up, local) + Tail(v, gaveUp);
      var at := |Header(v, Some(|up|))| + 1 + |SECTION| + 1;
      StandsOnce(text, BEGIN_MARKER, at)
        && StandsOnce(text, END_MARKER, at + FenceAt(Body(v.space, up), END_MARKER)) <==>
      Free(v.query) && Free(v.mode) && Free(v.profile) && WordsAreFree(v, |up|)
  {
    HeaderIff(v, Some(|up|), BEGIN_MARKER);
    HeaderIff(v, Some(|up|), END_MARKER);
    LocalBlockIff(v, local, BEGIN_MARKER);
    LocalBlockIff(v, local, END_MARKER);
    MarkerOnceIff(v, up, local, gaveUp, BEGIN_MARKER);
    MarkerOnceIff(v, up, local, gaveUp, END_MARKER);
    assert FenceAt(Body(v.space, up), BEGIN_MARKER) == 0;
  }

  /** The query's line of the header has a marker exactly when the query has one: the query is not neutralised. */
  lemma QueryLineIff(query: string, t: string)
    requires IsFence(t)
    ensures Contains(QueryLine(query), t) <==> Contains(query, t)
  {
    MarkersAreMarkers();
    var lead := "[поиск: ";
    if k :| 0 <= k <= |query| && OccursAt(query, t, k) {
      OccursAfter(lead, query, t, |lead| + k);
      OccursBefore(lead + query, "]", t, |lead| + k);
    }
    forall k: nat | OccursAt(lead + query + "]", t, k) ensures Contains(query, t) {
      OccursFirst(lead + query + "]", t, k, 0);
      OccursFirst(lead + query + "]", t, k, |t| - 1);
      assert IsLead(lead);
      OccursBefore(lead + query, "]", t, k);
      OccursAfter(lead, query, t, k);
    }
  }

  lemma OccursBefore(a: string, b: string, t: string, k: nat)
    requires k + |t| <= |a|
    ensures OccursAt(a + b, t, k) <==> OccursAt(a, t, k)
  {
    assert (a + b)[k..k + |t|] == a[k..k + |t|];
  }

  /** render_search_results: the shown hits are those of the specification, and the text is within the budget
      and at most the cap mark unless the loop gave up. */
  method Render(v: View) returns (text: string, up: seq<Hit>, local: seq<Local>, truncated: bool)
    ensures var r := ShownOf(v);
      && up == r.up && local == r.local && truncated == (r.gaveUp || Capped(v))
      && text == Assembled(v, up, local) + Tail(v, r.gaveUp)
      && (!r.gaveUp ==> Bytes(text) <= SEARCH_CONTEXT_BUDGET + Bytes("\n" + CAP_MARK))
  {
    var gaveUp: bool;
    up, local, gaveUp := Shrink(v);
    text := Assembled(v, up, local);
    truncated := gaveUp || Capped(v);
    BytesConcat(text, Tail(v, gaveUp));
    text := text + Tail(v, gaveUp);
  }

  method Shrink(v: View) returns (up: seq<Hit>, local: seq<Local>, gaveUp: bool)
    ensures Shown(up, local, gaveUp) == ShownOf(v)
  {
    ghost var fits: Fitting := (u, l) => Bytes(Assembled(v, u, l)) <= SEARCH_CONTEXT_BUDGET;
    up, local := First(v.upstream), First(v.local);
    while Bytes(Assembled(v, up, local)) > SEARCH_CONTEXT_BUDGET
      invariant ShownOf(v) == Shrunk(fits, up, local)
      decreases |up| + |local|
    {
      if |up| > 1 {
        up := up[..|up| - 1];
      } else if local != [] {
        local := local[..|local| - 1];
      } else {
        return up, local, true;
      }
    }
    return up, local, false;
  }
}
