/** The period and document-date gate on the links of a curator proposal
    (apps/orchestrator/curator_period_gate.py). The finders of values, periods and dates in a text
    are abstract. */
module PeriodGate {
  import opened Basics
  import opened Curator

  type Text = nat
  type Label = nat

  datatype Token = Token(name: Label, docDate: bool, forecastDate: bool)

  /** What the gate reads: `scan` gives no text for an empty one, `usable` says the claim's value stands in the
      text, `found` that the token stands beside that value, `docFound` that the date stands on the page. */
  datatype Lexicon = Lexicon(scan: Raw -> Option<Text>, usable: (Text, Statement) -> bool,
                             found: (Token, Text, Statement) -> bool, docFound: (Token, Text) -> bool,
                             tokens: Statement -> seq<Token>, forecastUndated: Statement -> bool)

  datatype Gate = Gate(lx: Lexicon, claims: seq<Claim>, texts: map<nat, seq<Raw>>, links: map<nat, seq<nat>>,
                       dropped: set<nat>, overrides: map<nat, Option<Statement>>)

  /** The missing periods and document dates that a reason names: three at most of each. */
  datatype Verdict = Verdict(period: seq<Label>, doc: seq<Label>)

  datatype Reason = Reason(forecast: bool, verdict: Verdict)

  datatype Decision = Decision(links: map<nat, Verdict>, claims: map<nat, Reason>)

  // ----- the judgement of a list of texts -----

  predicate HasUsable(lx: Lexicon, st: Statement, texts: seq<Text>) { exists t :: t in texts && lx.usable(t, st) }

  predicate IsMissing(lx: Lexicon, st: Statement, texts: seq<Text>, tok: Token) {
    if tok.docDate then texts != [] && forall t :: t in texts ==> !lx.docFound(tok, t)
    else HasUsable(lx, st, texts) && forall t :: t in texts && lx.usable(t, st) ==> !lx.found(tok, t, st)
  }

  /** Labels of the missing tokens of one kind, in the order the statement names them. */
  function Missing(lx: Lexicon, st: Statement, texts: seq<Text>, doc: bool, tokens: seq<Token>): (r: seq<Label>)
    ensures r != [] <==> exists tok :: tok in tokens && tok.docDate == doc && IsMissing(lx, st, texts, tok)
  {
    if tokens == [] then []
    else
      var init, last := tokens[..|tokens| - 1], tokens[|tokens| - 1];
      assert tokens == init + [last];
      Missing(lx, st, texts, doc, init) + if last.docDate == doc && IsMissing(lx, st, texts, last) then [last.name]
        else []
  }

  function FirstThree(s: seq<Label>): seq<Label> { if |s| <= 3 then s else s[..3] }

  function Judged(lx: Lexicon, st: Statement, texts: seq<Text>): Verdict {
    Verdict(FirstThree(Missing(lx, st, texts, false, lx.tokens(st))),
            FirstThree(Missing(lx, st, texts, true, lx.tokens(st))))
  }

  predicate Faults(v: Verdict) { v.period != [] || v.doc != [] }

  // ----- the gate -----

  function Scanned(lx: Lexicon, raws: seq<Raw>): seq<Text> {
    if raws == [] then []
    else
      var t := lx.scan(raws[|raws| - 1]);
      Scanned(lx, raws[..|raws| - 1]) + if t.Some? then [t.value] else []
  }

  /** The statement the gate checks: of a re-verification, the target's. */
  function StatementOf(g: Gate, i: nat): Option<Statement>
    requires i < |g.claims|
  {
    Subject(g.claims[i], i, g.overrides)
  }

  predicate IsChecked(g: Gate, i: nat) {
    i < |g.claims| && i !in g.dropped && g.claims[i].gated && StatementOf(g, i).Some?
  }

  function LinksOf(g: Gate, i: nat): seq<nat> { if i in g.links then g.links[i] else [] }

  function RawOf(g: Gate, l: nat): seq<Raw> { if l in g.texts then g.texts[l] else [] }

  function TextsOf(g: Gate, l: nat): seq<Text> { Scanned(g.lx, RawOf(g, l)) }

  function AllTexts(g: Gate, links: seq<nat>): seq<Text> {
    if links == [] then [] else AllTexts(g, links[..|links| - 1]) + TextsOf(g, links[|links| - 1])
  }

  lemma {:induction false} AllTextsHas(g: Gate, links: seq<nat>, t: Text)
    ensures t in AllTexts(g, links) <==> exists l :: l in links && t in TextsOf(g, l)
  {
    if links != [] {
      var init, last := links[..|links| - 1], links[|links| - 1];
      assert links == init + [last];
      AllTextsHas(g, init, t);
    }
  }

  function LinkVerdict(g: Gate, i: nat, l: nat): Verdict
    requires IsChecked(g, i)
  {
    Judged(g.lx, StatementOf(g, i).value, TextsOf(g, l))
  }

  function ReasonFor(lx: Lexicon, st: Statement, texts: seq<Text>): Reason {
    Reason(lx.forecastUndated(st) && forall tok :: tok in lx.tokens(st) ==> !tok.forecastDate, Judged(lx, st, texts))
  }

  function ClaimReason(g: Gate, i: nat): Reason
    requires IsChecked(g, i)
  {
    ReasonFor(g.lx, StatementOf(g, i).value, AllTexts(g, LinksOf(g, i)))
  }

  predicate Rejects(r: Reason) { r.forecast || Faults(r.verdict) }

  /** A link belongs to one claim. */
  ghost predicate OwnLinks(g: Gate) {
    forall i, j, l :: l in LinksOf(g, i) && l in LinksOf(g, j) ==> i == j
  }

  /** The decision in terms of the single verdicts. */
  ghost predicate Decides(g: Gate, n: nat, d: Decision) {
    d.claims == ClaimRejections(g, n) && LinksDecided(g, n, d.links)
  }

  /** The reason for which a claim is rejected, if it is. */
  function RejectionOf(g: Gate, i: nat): Option<Reason> {
    if IsChecked(g, i) && Rejects(ClaimReason(g, i)) then Some(ClaimReason(g, i)) else None
  }

  function ClaimRejections(g: Gate, n: nat): map<nat, Reason> {
    if n == 0 then map[]
    else
      var r := RejectionOf(g, n - 1);
      if r.Some? then ClaimRejections(g, n - 1)[n - 1 := r.value] else ClaimRejections(g, n - 1)
  }

  lemma {:induction false} ClaimRejectionsAt(g: Gate, n: nat, i: nat)
    ensures i in ClaimRejections(g, n) <==> i < n && RejectionOf(g, i).Some?
    ensures i in ClaimRejections(g, n) ==> ClaimRejections(g, n)[i] == RejectionOf(g, i).value
  {
    if n > 0 { ClaimRejectionsAt(g, n - 1, i); }
  }

  ghost predicate LinksDecided(g: Gate, n: nat, links: map<nat, Verdict>) {
    && (forall i: nat, l :: i < n && IsChecked(g, i) && l in LinksOf(g, i) ==>
         LinkDecided(LinkVerdict(g, i, l), l, links))
    && (forall l :: l in links ==> exists i: nat :: i < n && IsChecked(g, i) && l in LinksOf(g, i))
  }

  predicate LinkDecided(v: Verdict, l: nat, rejected: map<nat, Verdict>) {
    if Faults(v) then l in rejected && rejected[l] == v else l !in rejected
  }

  // ----- links and claims agree -----

  predicate IsUsable(g: Gate, i: nat, l: nat)
    requires IsChecked(g, i)
  {
    l in LinksOf(g, i) && HasUsable(g.lx, StatementOf(g, i).value, TextsOf(g, l))
  }

  /** A period is missing for the claim exactly when some link carries the claim's value and every such
      link misses that same period. */
  lemma PeriodMissingIff(g: Gate, i: nat, tok: Token)
    requires IsChecked(g, i) && !tok.docDate
    ensures var st := StatementOf(g, i).value;
      IsMissing(g.lx, st, AllTexts(g, LinksOf(g, i)), tok) <==>
      (exists l :: IsUsable(g, i, l)) && forall l :: IsUsable(g, i, l) ==> IsMissing(g.lx, st, TextsOf(g, l), tok)
  {
    var st, all := StatementOf(g, i).value, AllTexts(g, LinksOf(g, i));
    forall t ensures t in all <==> exists l :: l in LinksOf(g, i) && t in TextsOf(g, l) {
      AllTextsHas(g, LinksOf(g, i), t);
    }
    if l :| IsUsable(g, i, l) {
      var t :| t in TextsOf(g, l) && g.lx.usable(t, st);
      assert t in all;
    }
    if HasUsable(g.lx, st, all) {
      var t :| t in all && g.lx.usable(t, st);
      var l :| l in LinksOf(g, i) && t in TextsOf(g, l);
      assert IsUsable(g, i, l);
    }
    if forall l :: IsUsable(g, i, l) ==> IsMissing(g.lx, st, TextsOf(g, l), tok) {
      forall t | t in all && g.lx.usable(t, st) ensures !g.lx.found(tok, t, st) {
        var l :| l in LinksOf(g, i) && t in TextsOf(g, l);
        assert IsUsable(g, i, l);
      }
    }
  }

  /** A document date is missing for the claim exactly when some link has texts and every such link misses it. */
  lemma DateMissingIff(g: Gate, i: nat, tok: Token)
    requires IsChecked(g, i) && tok.docDate
    ensures var st := StatementOf(g, i).value;
      IsMissing(g.lx, st, AllTexts(g, LinksOf(g, i)), tok) <==>
      (exists l :: HasTexts(g, i, l)) && forall l :: HasTexts(g, i, l) ==> IsMissing(g.lx, st, TextsOf(g, l), tok)
  {
    var st, all := StatementOf(g, i).value, AllTexts(g, LinksOf(g, i));
    forall t ensures t in all <==> exists l :: l in LinksOf(g, i) && t in TextsOf(g, l) {
      AllTextsHas(g, LinksOf(g, i), t);
    }
    if all != [] {
      assert all[0] in all;
      var l :| l in LinksOf(g, i) && all[0] in TextsOf(g, l);
      assert HasTexts(g, i, l);
    }
    if l :| HasTexts(g, i, l) { assert TextsOf(g, l)[0] in all; }
    if forall l :: HasTexts(g, i, l) ==> IsMissing(g.lx, st, TextsOf(g, l), tok) {
      forall t | t in all ensures !g.lx.docFound(tok, t) {
        var l :| l in LinksOf(g, i) && t in TextsOf(g, l);
        assert HasTexts(g, i, l);
      }
    }
  }

  predicate HasTexts(g: Gate, i: nat, l: nat) { l in LinksOf(g, i) && TextsOf(g, l) != [] }

  /** The link has a say on the token: on a period when it carries the value, on a document date when it has texts. */
  predicate Speaks(g: Gate, i: nat, l: nat, tok: Token)
    requires IsChecked(g, i)
  {
    if tok.docDate then HasTexts(g, i, l) else IsUsable(g, i, l)
  }

  predicate Misses(g: Gate, i: nat, l: nat, tok: Token)
    requires IsChecked(g, i)
  {
    IsMissing(g.lx, StatementOf(g, i).value, TextsOf(g, l), tok)
  }

  /** The statement names the token. */
  predicate Named(g: Gate, i: nat, tok: Token)
    requires IsChecked(g, i)
  {
    tok in g.lx.tokens(StatementOf(g, i).value)
  }

  /** Some link has a say on the token. */
  ghost predicate Heard(g: Gate, i: nat, tok: Token)
    requires IsChecked(g, i)
  {
    exists l :: Speaks(g, i, l, tok)
  }

  /** Some link with a say confirms it. */
  ghost predicate Confirmed(g: Gate, i: nat, tok: Token)
    requires IsChecked(g, i)
  {
    exists l :: Speaks(g, i, l, tok) && !Misses(g, i, l, tok)
  }

  /** Of either kind, a token is missing for the claim exactly when some link has a say on it and none confirms it. */
  lemma TokenMissingIff(g: Gate, i: nat, tok: Token)
    requires IsChecked(g, i)
    ensures IsMissing(g.lx, StatementOf(g, i).value, AllTexts(g, LinksOf(g, i)), tok) <==>
      Heard(g, i, tok) && !Confirmed(g, i, tok)
  {
    if tok.docDate {
      DateMissingIff(g, i, tok);
      assert forall l :: HasTexts(g, i, l) <==> Speaks(g, i, l, tok);
    } else {
      PeriodMissingIff(g, i, tok);
      assert forall l :: IsUsable(g, i, l) <==> Speaks(g, i, l, tok);
    }
    assert forall l :: Misses(g, i, l, tok) <==> IsMissing(g.lx, StatementOf(g, i).value, TextsOf(g, l), tok);
  }

  /** Texts are at fault when they miss a token of either kind. */
  lemma FaultsIff(lx: Lexicon, st: Statement, texts: seq<Text>)
    ensures Faults(Judged(lx, st, texts)) <==> exists tok :: tok in lx.tokens(st) && IsMissing(lx, st, texts, tok)
  {
    var tokens := lx.tokens(st);
    assert Missing(lx, st, texts, false, tokens) != [] <==> Judged(lx, st, texts).period != [];
    assert Missing(lx, st, texts, true, tokens) != [] <==> Judged(lx, st, texts).doc != [];
    if tok :| tok in tokens && IsMissing(lx, st, texts, tok) {
      assert tok.docDate == true || tok.docDate == false;
    }
  }

  lemma LinkFaultIff(g: Gate, i: nat, l: nat)
    requires IsChecked(g, i)
    ensures Faults(LinkVerdict(g, i, l)) <==> exists tok :: Named(g, i, tok) && Misses(g, i, l, tok)
  {
    var st, texts := StatementOf(g, i).value, TextsOf(g, l);
    FaultsIff(g.lx, st, texts);
    if tok :| tok in g.lx.tokens(st) && IsMissing(g.lx, st, texts, tok) {
      assert Named(g, i, tok) && Misses(g, i, l, tok);
    }
  }

  /** A claim is rejected for its periods and dates exactly when one of them is heard and nowhere confirmed. */
  lemma ClaimFaultIff(g: Gate, i: nat)
    requires IsChecked(g, i)
    ensures Faults(ClaimReason(g, i).verdict) <==>
      exists tok :: Named(g, i, tok) && Heard(g, i, tok) && !Confirmed(g, i, tok)
  {
    var st, all := StatementOf(g, i).value, AllTexts(g, LinksOf(g, i));
    FaultsIff(g.lx, st, all);
    if tok :| tok in g.lx.tokens(st) && IsMissing(g.lx, st, all, tok) {
      TokenMissingIff(g, i, tok);
      assert Named(g, i, tok);
    }
    if tok :| Named(g, i, tok) && Heard(g, i, tok) && !Confirmed(g, i, tok) {
      TokenMissingIff(g, i, tok);
      assert tok in g.lx.tokens(st);
    }
  }

  /** A claim rejected for a token loses every link that has a say on it. */
  lemma ClaimRejectionTakesLinks(g: Gate, i: nat, tok: Token, l: nat)
    requires IsChecked(g, i) && Named(g, i, tok) && Speaks(g, i, l, tok)
    requires IsMissing(g.lx, StatementOf(g, i).value, AllTexts(g, LinksOf(g, i)), tok)
    ensures Misses(g, i, l, tok) && Faults(LinkVerdict(g, i, l))
  {
    TokenMissingIff(g, i, tok);
    LinkFaultIff(g, i, l);
  }

  /** The gate takes every link of the claim, and there is one. */
  ghost predicate EveryLinkGoes(g: Gate, i: nat)
    requires IsChecked(g, i)
  {
    LinksOf(g, i) != [] && forall l :: l in LinksOf(g, i) ==> Faults(LinkVerdict(g, i, l))
  }

  /** Every link misses something and everything some link has a say on is confirmed by one. */
  ghost predicate PiecewiseConfirmed(g: Gate, i: nat)
    requires IsChecked(g, i)
  {
    && LinksOf(g, i) != []
    && (forall l :: l in LinksOf(g, i) ==> exists tok :: Named(g, i, tok) && Misses(g, i, l, tok))
    && (forall tok :: Named(g, i, tok) && Heard(g, i, tok) ==> Confirmed(g, i, tok))
  }

  /** Exactly when a claim loses every link and is not rejected for it. */
  lemma LosesLinksKeepsClaimIff(g: Gate, i: nat)
    requires IsChecked(g, i)
    ensures EveryLinkGoes(g, i) && !Faults(ClaimReason(g, i).verdict) <==> PiecewiseConfirmed(g, i)
  {
    ClaimFaultIff(g, i);
    forall l ensures Faults(LinkVerdict(g, i, l)) <==> exists tok :: Named(g, i, tok) && Misses(g, i, l, tok) {
      LinkFaultIff(g, i, l);
    }
  }

  /** With one token named, of either kind, claim and links agree in both directions: the claim is rejected for it
      exactly when some link has a say and all that have one are rejected. */
  lemma OneTokenAgrees(g: Gate, i: nat, tok: Token)
    requires IsChecked(g, i) && Named(g, i, tok) && forall other :: Named(g, i, other) ==> other == tok
    ensures Faults(ClaimReason(g, i).verdict) <==>
      Heard(g, i, tok) && forall l :: Speaks(g, i, l, tok) ==> Faults(LinkVerdict(g, i, l))
  {
    ClaimFaultIff(g, i);
    forall l ensures Faults(LinkVerdict(g, i, l)) <==> Misses(g, i, l, tok) { LinkFaultIff(g, i, l); }
  }

  // ----- two pages, one token each -----

  const MAY := Token(5, false, false)
  const JUNE := Token(6, false, false)

  /** A document date. */
  const DECREE := Token(6, true, false)

  /** The statement names May and a second token; a page confirms the token whose number it shows. */
  function Pages(second: Token): Lexicon {
    Lexicon(r => Some(r), (t, st) => true, (tok: Token, t, st) => tok.name == t, (tok: Token, t) => tok.name == t,
            st => [MAY, second], st => false)
  }

  /** Link 0 confirms May only and link 1 the second token only. */
  function TwoPages(second: Token): Gate {
    Gate(Pages(second), [Claim(true, Some(0), false, false)], map[0 := [5], 1 := [6]], map[0 := [0, 1]], {}, map[])
  }

  lemma OnePage(second: Token, t: Text)
    requires second.name == 6 && (t == 5 || t == 6)
    ensures Faults(Judged(Pages(second), 0, [t]))
  {
    var lx, other := Pages(second), if t == 5 then second else MAY;
    FaultsIff(lx, 0, [t]);
    assert t in [t] && lx.usable(t, 0);
    assert other in lx.tokens(0) && IsMissing(lx, 0, [t], other);
  }

  lemma BothPages(second: Token, all: seq<Text>)
    requires second.name == 6 && 5 in all && 6 in all
    ensures !Faults(Judged(Pages(second), 0, all))
  {
    var lx := Pages(second);
    FaultsIff(lx, 0, all);
    assert lx.found(MAY, 5, 0) && lx.usable(5, 0) && lx.found(second, 6, 0) && lx.usable(6, 0)
      && lx.docFound(second, 6);
    assert !IsMissing(lx, 0, all, MAY) && !IsMissing(lx, 0, all, second);
  }

  lemma OneText(second: Token, t: Text)
    ensures Scanned(Pages(second), [t]) == [t]
  {
    assert [t][..0] == [] && Scanned(Pages(second), []) == [];
  }

  lemma TwoLinksTogether(g: Gate, second: Token)
    requires second.name == 6 && IsChecked(g, 0) && g.lx == Pages(second) && StatementOf(g, 0) == Some(0)
    requires forall l :: l in LinksOf(g, 0) <==> l == 0 || l == 1
    requires TextsOf(g, 0) == [5] && TextsOf(g, 1) == [6]
    ensures !Rejects(ClaimReason(g, 0))
  {
    assert 5 in TextsOf(g, 0) && 6 in TextsOf(g, 1);
    AllTextsHas(g, LinksOf(g, 0), 5);
    AllTextsHas(g, LinksOf(g, 0), 6);
    BothPages(second, AllTexts(g, LinksOf(g, 0)));
  }

  lemma TwoLinks(g: Gate, second: Token)
    requires second.name == 6 && IsChecked(g, 0) && g.lx == Pages(second) && StatementOf(g, 0) == Some(0)
    requires forall l :: l in LinksOf(g, 0) <==> l == 0 || l == 1
    requires TextsOf(g, 0) == [5] && TextsOf(g, 1) == [6]
    ensures EveryLinkGoes(g, 0)
  {
    OnePage(second, 5);
    OnePage(second, 6);
    assert 0 in LinksOf(g, 0);
  }

  /** Two tokens, each confirmed by its own link: the claim loses every link and survives. */
  lemma TwoTokensKeepTheClaim(second: Token)
    requires second.name == 6
    ensures var g := TwoPages(second); IsChecked(g, 0) && EveryLinkGoes(g, 0) && !Rejects(ClaimReason(g, 0))
  {
    OneText(second, 5);
    OneText(second, 6);
    TwoLinks(TwoPages(second), second);
    TwoLinksTogether(TwoPages(second), second);
  }

  /** Two periods, or one period and one document date. */
  lemma TwoPeriodsKeepTheClaim()
    ensures var g := TwoPages(JUNE); IsChecked(g, 0) && EveryLinkGoes(g, 0) && !Rejects(ClaimReason(g, 0))
    ensures var g := TwoPages(DECREE); IsChecked(g, 0) && EveryLinkGoes(g, 0) && !Rejects(ClaimReason(g, 0))
  {
    TwoTokensKeepTheClaim(JUNE);
    TwoTokensKeepTheClaim(DECREE);
  }

  // ----- the older view: all texts of a claim as one link -----

  function AllRaw(g: Gate, links: seq<nat>): seq<Raw> {
    if links == [] then [] else AllRaw(g, links[..|links| - 1]) + RawOf(g, links[|links| - 1])
  }

  lemma {:induction false} ScannedConcat(lx: Lexicon, a: seq<Raw>, b: seq<Raw>)
    ensures Scanned(lx, a + b) == Scanned(lx, a) + Scanned(lx, b)
  {
    if b == [] {
      assert a + b == a;
    } else {
      assert (a + b)[..|a + b| - 1] == a + b[..|b| - 1];
      ScannedConcat(lx, a, b[..|b| - 1]);
    }
  }

  lemma {:induction false} ScannedAllRaw(g: Gate, links: seq<nat>)
    ensures Scanned(g.lx, AllRaw(g, links)) == AllTexts(g, links)
  {
    if links != [] {
      var init := links[..|links| - 1];
      ScannedAllRaw(g, init);
      ScannedConcat(g.lx, AllRaw(g, init), RawOf(g, links[|links| - 1]));
    }
  }

  /** The input of the older API: claim `i` has the one link `i` with the claim's texts. */
  function Pooled(g: Gate, texts: map<nat, seq<Raw>>): Gate {
    g.(texts := texts, links := map i: nat | 0 <= i < |g.claims| :: i := [i], overrides := map[])
  }

  lemma PooledTexts(g: Gate, texts: map<nat, seq<Raw>>, i: nat)
    requires i < |g.claims|
    requires (if i in texts then texts[i] else []) == AllRaw(g, LinksOf(g, i))
    ensures AllTexts(Pooled(g, texts), LinksOf(Pooled(g, texts), i)) == AllTexts(g, LinksOf(g, i))
  {
    var p := Pooled(g, texts);
    assert LinksOf(p, i) == [i] && [i][..0] == [];
    assert AllTexts(p, []) == [];
    assert TextsOf(p, i) == Scanned(g.lx, AllRaw(g, LinksOf(g, i)));
    ScannedAllRaw(g, LinksOf(g, i));
  }

  /** Without statement overrides the per-link gate rejects the claims the older API rejects on the concatenated
      texts, for the same reasons. */
  lemma PooledAgrees(g: Gate, texts: map<nat, seq<Raw>>, i: nat)
    requires g.overrides == map[]
    requires (if i in texts then texts[i] else []) == AllRaw(g, LinksOf(g, i))
    ensures IsChecked(g, i) <==> IsChecked(Pooled(g, texts), i)
    ensures IsChecked(g, i) ==> ClaimReason(g, i) == ClaimReason(Pooled(g, texts), i)
  {
    if i < |g.claims| { PooledTexts(g, texts, i); }
  }

  // ----- the decision from the texts -----

  /** One of the links has a text that reads `t`. */
  ghost predicate Reads(g: Gate, links: seq<nat>, t: Text) {
    exists l, raw :: l in links && l in g.texts && raw in g.texts[l] && g.lx.scan(raw) == Some(t)
  }

  /** A document date is looked for in every text; a period only beside the value, where the value stands. */
  ghost predicate Lacks(g: Gate, links: seq<nat>, st: Statement, tok: Token) {
    if tok.docDate then (exists t :: Reads(g, links, t)) && forall t :: Reads(g, links, t) ==> !g.lx.docFound(tok, t)
    else
      && (exists t :: Reads(g, links, t) && g.lx.usable(t, st))
      && forall t :: Reads(g, links, t) && g.lx.usable(t, st) ==> !g.lx.found(tok, t, st)
  }

  /** The gate looks at claim `i`, and the statement it reads is `st`. */
  predicate Judges(g: Gate, i: nat, st: Statement) {
    && i < |g.claims| && i !in g.dropped && g.claims[i].gated
    && (if g.claims[i].reverifies && i in g.overrides && g.overrides[i].Some? then g.overrides[i].value == st
        else g.claims[i].statement == Some(st))
  }

  /** A forecast without a date of its own. */
  predicate IsUndatedForecast(g: Gate, st: Statement) {
    g.lx.forecastUndated(st) && forall tok :: tok in g.lx.tokens(st) ==> !tok.forecastDate
  }

  ghost predicate LacksSome(g: Gate, links: seq<nat>, st: Statement) {
    exists tok :: tok in g.lx.tokens(st) && Lacks(g, links, st, tok)
  }

  ghost predicate ForecastFalls(g: Gate, i: nat) { exists st :: Judges(g, i, st) && IsUndatedForecast(g, st) }

  ghost predicate ClaimFalls(g: Gate, i: nat) {
    ForecastFalls(g, i) || exists st :: Judges(g, i, st) && LacksSome(g, LinksOf(g, i), st)
  }

  ghost predicate LinkFalls(g: Gate, i: nat, l: nat) {
    i in g.links && l in g.links[i] && exists st :: Judges(g, i, st) && LacksSome(g, [l], st)
  }

  /** Three of the lacking tokens of one kind are named, or all of them. */
  ghost predicate NamesLacking(g: Gate, links: seq<nat>, st: Statement, doc: bool, names: seq<Label>) {
    && |names| <= 3
    && (forall x :: x in names ==>
          exists tok :: tok in g.lx.tokens(st) && tok.docDate == doc && tok.name == x && Lacks(g, links, st, tok))
    && (|names| < 3 ==>
          forall tok :: tok in g.lx.tokens(st) && tok.docDate == doc && Lacks(g, links, st, tok) ==> tok.name in names)
  }

  lemma {:induction false} ScannedHas(lx: Lexicon, raws: seq<Raw>, t: Text)
    ensures t in Scanned(lx, raws) <==> exists raw :: raw in raws && lx.scan(raw) == Some(t)
  {
    if raws != [] {
      ScannedHas(lx, raws[..|raws| - 1], t);
      assert raws == raws[..|raws| - 1] + [raws[|raws| - 1]];
    }
  }

  lemma ReadsTells(g: Gate, links: seq<nat>, t: Text)
    ensures t in AllTexts(g, links) <==> Reads(g, links, t)
  {
    AllTextsHas(g, links, t);
    forall l
      ensures t in TextsOf(g, l) <==> l in g.texts && exists raw :: raw in g.texts[l] && g.lx.scan(raw) == Some(t)
    {
      ScannedHas(g.lx, RawOf(g, l), t);
    }
  }

  lemma LacksTells(g: Gate, links: seq<nat>, st: Statement, tok: Token)
    ensures IsMissing(g.lx, st, AllTexts(g, links), tok) <==> Lacks(g, links, st, tok)
  {
    var all := AllTexts(g, links);
    forall t ensures t in all <==> Reads(g, links, t) { ReadsTells(g, links, t); }
    if all != [] { assert Reads(g, links, all[0]); }
  }

  lemma OneLinkTexts(g: Gate, l: nat)
    ensures AllTexts(g, [l]) == TextsOf(g, l)
  {
    assert [l][..0] == [] && AllTexts(g, []) == [];
  }

  lemma {:induction false} MissingNames(lx: Lexicon, st: Statement, texts: seq<Text>, doc: bool, tokens: seq<Token>,
      x: Label)
    ensures x in Missing(lx, st, texts, doc, tokens) <==>
      exists tok :: tok in tokens && tok.docDate == doc && tok.name == x && IsMissing(lx, st, texts, tok)
  {
    if tokens != [] {
      MissingNames(lx, st, texts, doc, tokens[..|tokens| - 1], x);
      assert tokens == tokens[..|tokens| - 1] + [tokens[|tokens| - 1]];
    }
  }

  lemma JudgedNames(g: Gate, links: seq<nat>, st: Statement, doc: bool)
    ensures var v := Judged(g.lx, st, AllTexts(g, links));
      NamesLacking(g, links, st, doc, if doc then v.doc else v.period)
  {
    var all, tokens := AllTexts(g, links), g.lx.tokens(st);
    var names := Missing(g.lx, st, all, doc, tokens);
    forall tok ensures IsMissing(g.lx, st, all, tok) <==> Lacks(g, links, st, tok) { LacksTells(g, links, st, tok); }
    forall x ensures x in names <==>
        exists tok :: tok in tokens && tok.docDate == doc && tok.name == x && IsMissing(g.lx, st, all, tok) {
      MissingNames(g.lx, st, all, doc, tokens, x);
    }
    assert forall x :: x in FirstThree(names) ==> x in names;
  }

  lemma FaultsTell(g: Gate, links: seq<nat>, st: Statement)
    ensures Faults(Judged(g.lx, st, AllTexts(g, links))) <==> LacksSome(g, links, st)
  {
    FaultsIff(g.lx, st, AllTexts(g, links));
    forall tok ensures IsMissing(g.lx, st, AllTexts(g, links), tok) <==> Lacks(g, links, st, tok) {
      LacksTells(g, links, st, tok);
    }
  }

  /** A claim is rejected exactly as an undated forecast or for a token that its links together lack; the reason says
      which and names the tokens. */
  lemma ClaimRejectedIff(g: Gate, i: nat)
    ensures RejectionOf(g, i).Some? <==> ClaimFalls(g, i)
    ensures RejectionOf(g, i).Some? ==> (RejectionOf(g, i).value.forecast <==> ForecastFalls(g, i))
    ensures RejectionOf(g, i).Some? ==> forall st :: Judges(g, i, st) ==>
      && NamesLacking(g, LinksOf(g, i), st, false, RejectionOf(g, i).value.verdict.period)
      && NamesLacking(g, LinksOf(g, i), st, true, RejectionOf(g, i).value.verdict.doc)
  {
    forall st: Statement ensures Judges(g, i, st) <==> IsChecked(g, i) && StatementOf(g, i) == Some(st) {}
    if IsChecked(g, i) {
      var st := StatementOf(g, i).value;
      assert Judges(g, i, st);
      FaultsTell(g, LinksOf(g, i), st);
      JudgedNames(g, LinksOf(g, i), st, false);
      JudgedNames(g, LinksOf(g, i), st, true);
    }
  }

  /** A link is rejected exactly for a token that it lacks by itself. */
  lemma LinkRejectedIff(g: Gate, i: nat, l: nat)
    requires l in LinksOf(g, i)
    ensures IsChecked(g, i) && Faults(LinkVerdict(g, i, l)) <==> LinkFalls(g, i, l)
  {
    forall st: Statement ensures Judges(g, i, st) <==> IsChecked(g, i) && StatementOf(g, i) == Some(st) {}
    if IsChecked(g, i) {
      OneLinkTexts(g, l);
      FaultsTell(g, [l], StatementOf(g, i).value);
    }
  }

  /** The whole decision, from the statements and the texts. */
  ghost predicate IsDecision(g: Gate, d: Decision) {
    && (forall i :: i in d.claims <==> ClaimFalls(g, i))
    && (forall i :: i in d.claims ==> (d.claims[i].forecast <==> ForecastFalls(g, i)))
    && (forall l :: l in d.links <==> exists i: nat :: LinkFalls(g, i, l))
  }

  lemma DecisionTells(g: Gate, d: Decision)
    requires Decides(g, |g.claims|, d)
    ensures IsDecision(g, d)
  {
    forall i ensures (i in d.claims <==> ClaimFalls(g, i))
        && (i in d.claims ==> (d.claims[i].forecast <==> ForecastFalls(g, i))) {
      ClaimRejectionsAt(g, |g.claims|, i);
      ClaimRejectedIff(g, i);
    }
    forall l ensures l in d.links <==> exists i: nat :: LinkFalls(g, i, l) { LinkDecisionTells(g, d, l); }
  }

  lemma LinkDecisionTells(g: Gate, d: Decision, l: nat)
    requires Decides(g, |g.claims|, d)
    ensures l in d.links <==> exists i: nat :: LinkFalls(g, i, l)
  {
    if l in d.links {
      var i: nat :| i < |g.claims| && IsChecked(g, i) && l in LinksOf(g, i);
      assert LinkDecided(LinkVerdict(g, i, l), l, d.links);
      LinkRejectedIff(g, i, l);
    }
    if i: nat :| LinkFalls(g, i, l) {
      LinkRejectedIff(g, i, l);
      assert LinkDecided(LinkVerdict(g, i, l), l, d.links);
    }
  }

  // ----- the loops -----

  function Merged(rejected: map<nat, Verdict>, l: nat, v: Verdict): map<nat, Verdict> {
    if Faults(v) then rejected[l := v] else rejected
  }

  function Judgements(g: Gate, st: Statement, links: seq<nat>, before: map<nat, Verdict>): map<nat, Verdict> {
    if links == [] then before
    else
      var l := links[|links| - 1];
      Merged(Judgements(g, st, links[..|links| - 1], before), l, Judged(g.lx, st, TextsOf(g, l)))
  }

  predicate SameAt<T(==)>(a: map<nat, T>, b: map<nat, T>, l: nat) { (l in a <==> l in b) && (l in a ==> a[l] == b[l]) }

  lemma MergedAt(rejected: map<nat, Verdict>, m: nat, v: Verdict, l: nat)
    ensures l != m ==> SameAt(rejected, Merged(rejected, m, v), l)
    ensures l == m && (l !in rejected || LinkDecided(v, l, rejected)) ==> LinkDecided(v, l, Merged(rejected, m, v))
  {
  }

  lemma {:induction false} JudgementAt(g: Gate, st: Statement, links: seq<nat>, before: map<nat, Verdict>, l: nat)
    ensures l in links && l !in before ==>
      LinkDecided(Judged(g.lx, st, TextsOf(g, l)), l, Judgements(g, st, links, before))
    ensures l !in links ==> SameAt(before, Judgements(g, st, links, before), l)
  {
    if links != [] {
      var init, last := links[..|links| - 1], links[|links| - 1];
      assert links == init + [last];
      JudgementAt(g, st, init, before, l);
      MergedAt(Judgements(g, st, init, before), last, Judged(g.lx, st, TextsOf(g, last)), l);
    }
  }

  lemma NoTexts(lx: Lexicon, st: Statement)
    ensures Judged(lx, st, []) == Verdict([], [])
  {
    assert forall tok :: !IsMissing(lx, st, [], tok);
  }

  /** One link; a link without texts is skipped. */
  method CheckLink(g: Gate, st: Statement, l: nat, before: map<nat, Verdict>, sofar: seq<Text>)
      returns (rejected: map<nat, Verdict>, all: seq<Text>)
    ensures rejected == Merged(before, l, Judged(g.lx, st, TextsOf(g, l))) && all == sofar + TextsOf(g, l)
  {
    rejected, all := before, sofar;
    var texts := TextsOf(g, l);
    if texts == [] {
      NoTexts(g.lx, st);
    } else {
      rejected := Merged(rejected, l, Judged(g.lx, st, texts));
      all := all + texts;
    }
  }

  /** The links of one claim. */
  method CheckLinks(g: Gate, st: Statement, mine: seq<nat>, before: map<nat, Verdict>)
      returns (rejected: map<nat, Verdict>, all: seq<Text>)
    ensures rejected == Judgements(g, st, mine, before) && all == AllTexts(g, mine)
  {
    rejected, all := before, [];
    for n := 0 to |mine|
      invariant rejected == Judgements(g, st, mine[..n], before) && all == AllTexts(g, mine[..n])
    {
      assert mine[..n + 1][..n] == mine[..n];
      rejected, all := CheckLink(g, st, mine[n], rejected, all);
    }
    assert mine[..|mine|] == mine;
  }

  /** claim_period_rejections_by_links: every claim and link gets its own verdict. */
  method RejectionsByLinks(g: Gate) returns (d: Decision)
    requires OwnLinks(g)
    ensures Decides(g, |g.claims|, d) && IsDecision(g, d)
  {
    d := Decision(map[], map[]);
    for i := 0 to |g.claims|
      invariant Decides(g, i, d)
    {
      if IsChecked(g, i) {
        d := CheckClaim(g, i, d);
      } else {
        SkippedClaim(g, i, d);
      }
    }
    DecisionTells(g, d);
  }

  method CheckClaim(g: Gate, i: nat, d: Decision) returns (after: Decision)
    requires OwnLinks(g) && IsChecked(g, i) && Decides(g, i, d)
    ensures Decides(g, i + 1, after)
  {
    var st := StatementOf(g, i).value;
    var rejected, all := CheckLinks(g, st, LinksOf(g, i), d.links);
    OneMoreClaim(g, i, d.links);
    var reason := ReasonFor(g.lx, st, all);
    after := Decision(rejected, if Rejects(reason) then d.claims[i := reason] else d.claims);
  }

  lemma SkippedClaim(g: Gate, i: nat, d: Decision)
    requires !IsChecked(g, i) && Decides(g, i, d)
    ensures Decides(g, i + 1, d)
  {
  }

  lemma OneMoreClaim(g: Gate, n: nat, links: map<nat, Verdict>)
    requires OwnLinks(g) && IsChecked(g, n) && LinksDecided(g, n, links)
    ensures LinksDecided(g, n + 1, Judgements(g, StatementOf(g, n).value, LinksOf(g, n), links))
  {
    var st, mine := StatementOf(g, n).value, LinksOf(g, n);
    var after := Judgements(g, st, mine, links);
    forall i: nat, l | i < n + 1 && IsChecked(g, i) && l in LinksOf(g, i)
      ensures LinkDecided(LinkVerdict(g, i, l), l, after)
    {
      JudgementAt(g, st, mine, links, l);
      if i < n { assert LinkDecided(LinkVerdict(g, i, l), l, links); }
    }
    forall l | l in after ensures exists i: nat :: i < n + 1 && IsChecked(g, i) && l in LinksOf(g, i) {
      JudgementAt(g, st, mine, links, l);
    }
  }
}
