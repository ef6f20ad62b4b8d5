/** The explorer loop of a session (apps/orchestrator/orchestrator.py) with its deny gates, the
    coverage of the sources the question names (apps/orchestrator/source_coverage.py) and the
    tracking of aggregate actor searches (apps/orchestrator/question_actors.py).

    The model's decisions, the policy verdicts and the tool outcomes are inputs: every
    statement holds for all of them. Equal arguments have equal hashes and different ones
    different hashes. */
module Explorer {
  import opened Basics

  type Url = nat
  type Query = nat
  type Host = nat
  type Key = nat
  type Actor = nat
  type Stem = nat
  type Error = nat

  const TOOL_REPEAT_DENY_LIMIT := 2
  const MULTI_ACTOR_MIN := 3
  const SEPARATE_SEARCH_MAX_ACTORS := 2

  /** A tool call; `rest` stands for the arguments the gates do not look at. */
  datatype Call = Fetch(url: Url, rest: nat) | Search(query: Query, rest: nat) | Tool(name: nat, args: nat)

  datatype Outcome = Done | FailedWith(error: Error) | Unknown

  /** Recognition of hosts, source keys, word stems, actors and host-refusal errors. */
  datatype Rules = Rules(host: Url -> Option<Host>, key: Url -> Option<Key>, stems: Query -> set<Stem>,
                         actors: Query -> set<Actor>, refusal: Error -> bool)

  /** The question: the sources it names and the catalog actors it names. */
  datatype Question = Question(sources: seq<Url>, actors: set<Actor>)

  /** One turn of the loop as the outside world plays it. */
  datatype Turn = Complete | Use(call: Call, allowed: bool, outcome: Outcome) | Stop | Abort | ModelError

  datatype Reason = Repeated | NearDuplicate | ActorRepeat | HostUnavailable | PolicyDenied

  datatype Entry = Executed(call: Call, outcome: Outcome) | Denied(call: Call, reason: Reason) | CompleteRejected

  datatype End = Completed | Stopped | Aborted | Raised | BudgetExhausted

  // ----- what the log says -----

  /** How often a call was executed. */
  function Count(log: seq<Entry>, c: Call): nat {
    if log == [] then 0
    else
      var last := log[|log| - 1];
      Count(log[..|log| - 1], c) + if last.Executed? && last.call == c then 1 else 0
  }

  predicate SearchedOk(e: Entry, q: Query) {
    e.Executed? && e.outcome == Done && e.call.Search? && e.call.query == q
  }

  /** The query brings no new stem over a search that succeeded before. */
  ghost predicate IsNearDuplicate(r: Rules, log: seq<Entry>, q: Query) {
    exists prior :: Searched(log, prior) && SameStems(r, q, prior)
  }

  ghost predicate Searched(log: seq<Entry>, q: Query) {
    exists i :: 0 <= i < |log| && SearchedOk(log[i], q)
  }

  predicate SameStems(r: Rules, q: Query, prior: Query) {
    r.stems(q) == {} || r.stems(q) == r.stems(prior)
  }

  predicate IsAggregate(r: Rules, q: Question, query: Query) {
    |r.actors(query) * q.actors| >= MULTI_ACTOR_MIN
  }

  predicate AggregateDone(r: Rules, q: Question, e: Entry) {
    e.Executed? && e.outcome == Done && e.call.Search? && IsAggregate(r, q, e.call.query)
  }

  ghost predicate AggregateBefore(r: Rules, q: Question, log: seq<Entry>) {
    exists i :: 0 <= i < |log| && AggregateDone(r, q, log[i])
  }

  /** The entry is a fetch the host itself refused: 401, 403, 429 or a timeout. */
  predicate RefusedBy(r: Rules, e: Entry, h: Host) {
    e.Executed? && e.call.Fetch? && e.outcome.FailedWith? && r.refusal(e.outcome.error) && r.host(e.call.url) == Some(h)
  }

  ghost predicate IsBlocked(r: Rules, log: seq<Entry>, h: Host) {
    exists i :: 0 <= i < |log| && RefusedBy(r, log[i], h)
  }

  datatype Status = Pending | Fetched | Errored

  /** The entry is a fetch of the source that got a definitive answer. */
  predicate Covers(r: Rules, e: Entry, k: Key) {
    e.Executed? && e.call.Fetch? && e.outcome != Unknown && r.key(e.call.url) == Some(k)
  }

  function StatusBy(e: Entry): Status
    requires e.Executed?
  {
    if e.outcome == Done then Fetched else Errored
  }

  function StatusOf(r: Rules, log: seq<Entry>, k: Key): Status {
    if log == [] then Pending
    else
      var before := StatusOf(r, log[..|log| - 1], k);
      if before != Pending then before
      else if Covers(r, log[|log| - 1], k) then StatusBy(log[|log| - 1]) else Pending
  }

  /** A definitive answer settles a pending source and leaves a settled one alone. */
  function Marked(s: Status, matches: bool, ok: bool): Status {
    if matches && s == Pending then (if ok then Fetched else Errored) else s
  }

  /** Some trackable source the question names is still pending. */
  ghost predicate Uncovered(r: Rules, q: Question, log: seq<Entry>) {
    exists i :: 0 <= i < |q.sources| && r.key(q.sources[i]).Some?
      && StatusOf(r, log, r.key(q.sources[i]).value) == Pending
  }

  // ----- the specification of a run -----

  /** The gates in the order the loop checks them; `None` lets the call through. */
  ghost function Gate(r: Rules, q: Question, log: seq<Entry>, c: Call, allowed: bool): Option<Reason> {
    if Count(log, c) >= TOOL_REPEAT_DENY_LIMIT then Some(Repeated)
    else if c.Search? && IsNearDuplicate(r, log, c.query) then Some(NearDuplicate)
    else if c.Search? && |q.actors| >= MULTI_ACTOR_MIN && AggregateBefore(r, q, log) && IsAggregate(r, q, c.query)
      then Some(ActorRepeat)
    else if c.Fetch? && r.host(c.url).Some? && IsBlocked(r, log, r.host(c.url).value) then Some(HostUnavailable)
    else if !allowed then Some(PolicyDenied)
    else None
  }

  /** The entry a turn adds to the log. */
  ghost predicate Adds(r: Rules, q: Question, log: seq<Entry>, t: Turn, e: Entry) {
    match t
    case Use(c, allowed, o) =>
      var g := Gate(r, q, log, c, allowed);
      e == if g.None? then Executed(c, o) else Denied(c, g.value)
    case Complete => e == CompleteRejected && Uncovered(r, q, log)
    case _ => false
  }

  ghost predicate AddsAt(r: Rules, q: Question, turns: seq<Turn>, log: seq<Entry>, i: nat) {
    i < |log| && i < |turns| && Adds(r, q, log[..i], turns[i], log[i])
  }

  /** `log` is what the first turns produce. */
  ghost predicate Produces(r: Rules, q: Question, turns: seq<Turn>, log: seq<Entry>) {
    |log| <= |turns| && forall i {:trigger AddsAt(r, q, turns, log, i)} :: 0 <= i < |log| ==>
      AddsAt(r, q, turns, log, i)
  }

  /** The loop ended after `log`, and why. */
  ghost predicate EndsBy(r: Rules, q: Question, turns: seq<Turn>, log: seq<Entry>, end: End) {
    match end
    case BudgetExhausted => |log| == |turns|
    case Completed => |log| < |turns| && turns[|log|] == Complete && !Uncovered(r, q, log)
    case Stopped => |log| < |turns| && turns[|log|] == Stop
    case Aborted => |log| < |turns| && turns[|log|] == Abort
    case Raised => |log| < |turns| && turns[|log|] == ModelError
  }

  // ----- consequences for every run -----

  lemma {:induction false} CountSplits(log: seq<Entry>, n: nat, c: Call)
    requires n <= |log|
    ensures Count(log[..n], c) <= Count(log, c)
  {
    if n < |log| {
      CountSplits(log[..|log| - 1], n, c);
      assert log[..|log| - 1][..n] == log[..n];
    } else {
      assert log[..n] == log;
    }
  }

  lemma ProducesPrefix(r: Rules, q: Question, turns: seq<Turn>, log: seq<Entry>, n: nat)
    requires Produces(r, q, turns, log) && n <= |log|
    ensures Produces(r, q, turns, log[..n])
  {
    forall i | 0 <= i < n ensures AddsAt(r, q, turns, log[..n], i) {
      assert AddsAt(r, q, turns, log, i);
      assert log[..n][..i] == log[..i];
    }
  }

  /** Each (tool, arguments) pair executes at most twice. */
  lemma {:induction false} AtMostTwice(r: Rules, q: Question, turns: seq<Turn>, log: seq<Entry>, c: Call)
    requires Produces(r, q, turns, log)
    ensures Count(log, c) <= TOOL_REPEAT_DENY_LIMIT
  {
    if log != [] {
      var n := |log| - 1;
      ProducesPrefix(r, q, turns, log, n);
      AtMostTwice(r, q, turns, log[..n], c);
      assert AddsAt(r, q, turns, log, n);
    }
  }

  /** At most one aggregate actor search succeeds. */
  lemma OneAggregate(r: Rules, q: Question, turns: seq<Turn>, log: seq<Entry>, i: nat, j: nat)
    requires Produces(r, q, turns, log) && i < j < |log|
    ensures !(AggregateDone(r, q, log[i]) && AggregateDone(r, q, log[j]))
  {
    assert AddsAt(r, q, turns, log, j);
    if AggregateDone(r, q, log[i]) && log[j].Executed? && log[j].call.Search? {
      assert log[..j][i] == log[i];
      SubsetSize(r.actors(log[j].call.query) * q.actors, q.actors);
      assert AggregateBefore(r, q, log[..j]);
    }
  }

  /** After a host refused a fetch, no later fetch of that host executes. */
  lemma RefusedHostIsLeftAlone(r: Rules, q: Question, turns: seq<Turn>, log: seq<Entry>, i: nat, j: nat, h: Host)
    requires Produces(r, q, turns, log) && i < j < |log|
    requires RefusedBy(r, log[i], h) && log[j].Executed? && log[j].call.Fetch?
    ensures r.host(log[j].call.url) != Some(h)
  {
    assert AddsAt(r, q, turns, log, j);
    assert log[..j][i] == log[i];
  }

  /** Entry `i` is the first definitive fetch of the source. */
  ghost predicate IsFirstFetch(r: Rules, log: seq<Entry>, k: Key, i: int) {
    0 <= i < |log| && Covers(r, log[i], k) && forall j :: 0 <= j < i ==> !Covers(r, log[j], k)
  }

  /** The status of a source is the outcome of its first definitive fetch. */
  lemma {:induction false} StatusIsFirstFetch(r: Rules, log: seq<Entry>, k: Key)
    ensures StatusOf(r, log, k) == Pending <==> forall i :: 0 <= i < |log| ==> !Covers(r, log[i], k)
    ensures StatusOf(r, log, k) != Pending ==>
      exists i :: IsFirstFetch(r, log, k, i) && StatusOf(r, log, k) == StatusBy(log[i])
  {
    if log != [] {
      var n := |log| - 1;
      StatusIsFirstFetch(r, log[..n], k);
      assert forall i :: 0 <= i < n ==> log[..n][i] == log[i];
      forall i | IsFirstFetch(r, log[..n], k, i) ensures IsFirstFetch(r, log, k, i) {}
      if StatusOf(r, log[..n], k) == Pending && Covers(r, log[n], k) { assert IsFirstFetch(r, log, k, n); }
    }
  }

  /** Once covered, a source keeps its status through the rest of the run. */
  lemma {:induction false} CoverageIsMonotone(r: Rules, log: seq<Entry>, n: nat, k: Key)
    requires n <= |log| && StatusOf(r, log[..n], k) != Pending
    ensures StatusOf(r, log, k) == StatusOf(r, log[..n], k)
  {
    if n < |log| {
      assert log[..|log| - 1][..n] == log[..n];
      CoverageIsMonotone(r, log[..|log| - 1], n, k);
    } else {
      assert log[..n] == log;
    }
  }

  /** Entry `j` is an executed fetch of an address of the source, and the tool answered or failed. */
  predicate DefiniteAt(r: Rules, log: seq<Entry>, j: int, k: Key) {
    && 0 <= j < |log| && log[j].Executed? && log[j].call.Fetch? && r.key(log[j].call.url) == Some(k)
    && (log[j].outcome.Done? || log[j].outcome.FailedWith?)
  }

  ghost predicate FirstDefiniteAt(r: Rules, log: seq<Entry>, i: int, k: Key) {
    DefiniteAt(r, log, i, k) && forall j :: j < i ==> !DefiniteAt(r, log, j, k)
  }

  /** Source `s` of the question can be tracked and no entry of the log is a definitive fetch of it. */
  ghost predicate Missing(r: Rules, q: Question, log: seq<Entry>, s: int) {
    && 0 <= s < |q.sources| && r.key(q.sources[s]).Some?
    && forall j :: !DefiniteAt(r, log, j, r.key(q.sources[s]).value)
  }

  lemma UncoveredIff(r: Rules, q: Question, log: seq<Entry>)
    ensures Uncovered(r, q, log) <==> exists s :: Missing(r, q, log, s)
  {
    forall s | 0 <= s < |q.sources| && r.key(q.sources[s]).Some?
      ensures StatusOf(r, log, r.key(q.sources[s]).value) == Pending <==> Missing(r, q, log, s)
    {
      var k := r.key(q.sources[s]).value;
      StatusIsFirstFetch(r, log, k);
      assert forall j :: 0 <= j < |log| ==> (Covers(r, log[j], k) <==> DefiniteAt(r, log, j, k));
    }
  }

  /** An accepted COMPLETE means every trackable named source had an executed, definitive fetch, and its status is
      that of the first. */
  lemma CompletionIsCovered(r: Rules, q: Question, turns: seq<Turn>, log: seq<Entry>, s: nat)
    requires Produces(r, q, turns, log) && EndsBy(r, q, turns, log, Completed)
    requires s < |q.sources| && r.key(q.sources[s]).Some?
    ensures exists i ::
      && FirstDefiniteAt(r, log, i, r.key(q.sources[s]).value)
      && StatusOf(r, log, r.key(q.sources[s]).value) == (if log[i].outcome == Done then Fetched else Errored)
  {
    var k := r.key(q.sources[s]).value;
    StatusIsFirstFetch(r, log, k);
    assert forall j :: 0 <= j < |log| ==> (Covers(r, log[j], k) <==> DefiniteAt(r, log, j, k));
    var i :| IsFirstFetch(r, log, k, i) && StatusOf(r, log, k) == StatusBy(log[i]);
    assert FirstDefiniteAt(r, log, i, k);
  }

  lemma BlockedStays(r: Rules, log: seq<Entry>, longer: seq<Entry>, h: Host)
    requires log <= longer && IsBlocked(r, log, h)
    ensures IsBlocked(r, longer, h)
  {
    var i :| 0 <= i < |log| && RefusedBy(r, log[i], h);
    assert longer[i] == log[i];
  }

  /** All addresses of the source lie on hosts the session has already seen refuse. */
  ghost predicate OutOfReach(r: Rules, log: seq<Entry>, k: Key) {
    forall u: Url :: r.key(u) == Some(k) ==> r.host(u).Some? && IsBlocked(r, log, r.host(u).value)
  }

  /** A named source that is pending when all its addresses are on refused hosts stays pending, and the
      run never completes. */
  lemma {:induction false} OutOfReachBlocksCompletion(r: Rules, q: Question, turns: seq<Turn>, log: seq<Entry>, n: nat,
      s: nat)
    requires Produces(r, q, turns, log) && n <= |log| && s < |q.sources| && r.key(q.sources[s]).Some?
    requires StatusOf(r, log[..n], r.key(q.sources[s]).value) == Pending
    requires OutOfReach(r, log[..n], r.key(q.sources[s]).value)
    ensures StatusOf(r, log, r.key(q.sources[s]).value) == Pending
    ensures !EndsBy(r, q, turns, log, Completed)
  {
    var k := r.key(q.sources[s]).value;
    if n < |log| {
      var m := |log| - 1;
      ProducesPrefix(r, q, turns, log, m);
      assert log[..m][..n] == log[..n];
      OutOfReachBlocksCompletion(r, q, turns, log[..m], n, s);
      assert AddsAt(r, q, turns, log, m);
      forall u: Url | r.key(u) == Some(k) ensures r.host(u).Some? && IsBlocked(r, log[..m], r.host(u).value) {
        BlockedStays(r, log[..n], log[..m], r.host(u).value);
      }
      assert !Covers(r, log[m], k);
    } else {
      assert log[..n] == log;
    }
  }

  // ----- why a call ran or was denied -----

  /** Entry `j` is an execution of the call. */
  predicate RanAt(log: seq<Entry>, j: int, c: Call) {
    0 <= j < |log| && log[j].Executed? && log[j].call == c
  }

  /** Entry `j` is a successful search for `prior`. */
  predicate FoundAt(log: seq<Entry>, j: int, prior: Query) {
    0 <= j < |log| && log[j].Executed? && log[j].outcome == Done && log[j].call.Search? && log[j].call.query == prior
  }

  /** Entry `j` is a fetch that the host `h` itself refused. */
  predicate TurnedAwayAt(r: Rules, log: seq<Entry>, j: int, h: Host) {
    && 0 <= j < |log| && log[j].Executed? && log[j].call.Fetch? && r.host(log[j].call.url) == Some(h)
    && log[j].outcome.FailedWith? && r.refusal(log[j].outcome.error)
  }

  /** What the log and the policy say for each reason to deny a call. */
  ghost predicate Fact(r: Rules, q: Question, log: seq<Entry>, c: Call, allowed: bool, reason: Reason) {
    match reason
    case Repeated => exists i, j :: i < j && RanAt(log, i, c) && RanAt(log, j, c)
    case NearDuplicate =>
      && c.Search?
      && exists j, prior :: FoundAt(log, j, prior) && (r.stems(c.query) == {} || r.stems(c.query) == r.stems(prior))
    case ActorRepeat =>
      && c.Search? && |r.actors(c.query) * q.actors| >= 3
      && exists j, prior :: FoundAt(log, j, prior) && |r.actors(prior) * q.actors| >= 3
    case HostUnavailable => c.Fetch? && r.host(c.url).Some? && exists j :: TurnedAwayAt(r, log, j, r.host(c.url).value)
    case PolicyDenied => !allowed
  }

  lemma {:induction false} CountedIff(log: seq<Entry>, c: Call)
    ensures Count(log, c) >= 1 <==> exists j :: RanAt(log, j, c)
    ensures Count(log, c) >= 2 <==> exists i, j :: i < j && RanAt(log, i, c) && RanAt(log, j, c)
  {
    if log != [] {
      var n := |log| - 1;
      CountedIff(log[..n], c);
      forall j ensures RanAt(log, j, c) <==> RanAt(log[..n], j, c) || (j == n && RanAt(log, n, c)) {}
      assert Count(log, c) == Count(log[..n], c) + if RanAt(log, n, c) then 1 else 0;
      if Count(log[..n], c) >= 1 {
        var j :| RanAt(log[..n], j, c);
        assert RanAt(log, j, c);
      }
      if Count(log[..n], c) >= 2 {
        var i, j :| i < j && RanAt(log[..n], i, c) && RanAt(log[..n], j, c);
        assert RanAt(log, i, c) && RanAt(log, j, c);
      }
    }
  }

  /** The order in which the facts are looked at. */
  predicate Sooner(a: Reason, b: Reason) {
    match b
    case Repeated => false
    case NearDuplicate => a == Repeated
    case ActorRepeat => a == Repeated || a == NearDuplicate
    case HostUnavailable => a == Repeated || a == NearDuplicate || a == ActorRepeat
    case PolicyDenied => a != PolicyDenied
  }

  /** Each gate's condition is its fact. */
  lemma GatesAreFacts(r: Rules, q: Question, log: seq<Entry>, c: Call, allowed: bool)
    ensures Fact(r, q, log, c, allowed, Repeated) <==> Count(log, c) >= TOOL_REPEAT_DENY_LIMIT
    ensures Fact(r, q, log, c, allowed, NearDuplicate) <==> c.Search? && IsNearDuplicate(r, log, c.query)
    ensures Fact(r, q, log, c, allowed, ActorRepeat) <==>
      c.Search? && |q.actors| >= MULTI_ACTOR_MIN && AggregateBefore(r, q, log) && IsAggregate(r, q, c.query)
    ensures Fact(r, q, log, c, allowed, HostUnavailable) <==>
      c.Fetch? && r.host(c.url).Some? && IsBlocked(r, log, r.host(c.url).value)
    ensures Fact(r, q, log, c, allowed, PolicyDenied) <==> !allowed
  {
    CountedIff(log, c);
    if c.Search? {
      SearchFacts(r, q, log, c);
      assert Fact(r, q, log, c, true, NearDuplicate) == Fact(r, q, log, c, allowed, NearDuplicate);
      assert Fact(r, q, log, c, true, ActorRepeat) == Fact(r, q, log, c, allowed, ActorRepeat);
    }
    if c.Fetch? && r.host(c.url).Some? { BlockedTells(r, log, r.host(c.url).value); }
  }

  lemma BlockedTells(r: Rules, log: seq<Entry>, h: Host)
    ensures IsBlocked(r, log, h) <==> exists j :: TurnedAwayAt(r, log, j, h)
  {
    forall j | 0 <= j < |log| ensures RefusedBy(r, log[j], h) <==> TurnedAwayAt(r, log, j, h) {}
  }

  /** The gate denies for the first fact there is, and a call without any of the facts passes. */
  lemma GateTellsFacts(r: Rules, q: Question, log: seq<Entry>, c: Call, allowed: bool)
    ensures var g := Gate(r, q, log, c, allowed);
      (g.Some? ==> IsFirstFact(r, q, log, c, allowed, g.value))
      && (g.None? ==> forall reason :: !Fact(r, q, log, c, allowed, reason))
  {
    GatesAreFacts(r, q, log, c, allowed);
  }

  /** The fact holds and none that is looked at sooner. */
  ghost predicate IsFirstFact(r: Rules, q: Question, log: seq<Entry>, c: Call, allowed: bool, reason: Reason) {
    Fact(r, q, log, c, allowed, reason)
      && forall other :: Sooner(other, reason) ==> !Fact(r, q, log, c, allowed, other)
  }

  lemma SearchFacts(r: Rules, q: Question, log: seq<Entry>, c: Call)
    requires c.Search?
    ensures IsNearDuplicate(r, log, c.query) <==> Fact(r, q, log, c, true, NearDuplicate)
    ensures |q.actors| >= MULTI_ACTOR_MIN && AggregateBefore(r, q, log) && IsAggregate(r, q, c.query)
       <==> Fact(r, q, log, c, true, ActorRepeat)
  {
    SearchedTells(log);
    if prior: Query :| Searched(log, prior) && SameStems(r, c.query, prior) {
      var j :| FoundAt(log, j, prior);
      assert FoundAt(log, j, prior);
    }
    if j, prior: Query :| FoundAt(log, j, prior) && SameStems(r, c.query, prior) { assert Searched(log, prior); }
    AggregateTells(r, q, log);
    SubsetSize(r.actors(c.query) * q.actors, q.actors);
  }

  lemma SearchedTells(log: seq<Entry>)
    ensures forall prior :: Searched(log, prior) <==> exists j :: FoundAt(log, j, prior)
  {
    forall prior: Query ensures Searched(log, prior) <==> exists j :: FoundAt(log, j, prior) {
      forall j | 0 <= j < |log| ensures SearchedOk(log[j], prior) <==> FoundAt(log, j, prior) {}
    }
  }

  lemma AggregateTells(r: Rules, q: Question, log: seq<Entry>)
    ensures AggregateBefore(r, q, log)
       <==> exists j, prior :: FoundAt(log, j, prior) && |r.actors(prior) * q.actors| >= 3
  {
    if AggregateBefore(r, q, log) {
      var j :| 0 <= j < |log| && AggregateDone(r, q, log[j]);
      assert FoundAt(log, j, log[j].call.query);
    }
    if j, prior: Query :| FoundAt(log, j, prior) && |r.actors(prior) * q.actors| >= 3 {
      assert AggregateDone(r, q, log[j]);
    }
  }

  /** In every run: an executed call was allowed by the policy and none of the facts stood against it; a denied call
      was denied for the first fact against it. */
  lemma EveryEntryHasItsReason(r: Rules, q: Question, turns: seq<Turn>, log: seq<Entry>, i: nat)
    requires Produces(r, q, turns, log) && i < |log| && turns[i].Use?
    ensures log[i].Executed? ==> turns[i] == Use(log[i].call, true, log[i].outcome)
    ensures log[i].Denied? ==> log[i].call == turns[i].call
    ensures log[i].Denied? ==>
      IsFirstFact(r, q, log[..i], turns[i].call, turns[i].allowed, log[i].reason)
    ensures log[i].Executed? <==> forall reason :: !Fact(r, q, log[..i], turns[i].call, turns[i].allowed, reason)
  {
    assert AddsAt(r, q, turns, log, i);
    GateTellsFacts(r, q, log[..i], turns[i].call, turns[i].allowed);
    assert !turns[i].allowed ==> Fact(r, q, log[..i], turns[i].call, turns[i].allowed, PolicyDenied);
  }

  /** The log has an entry for every tool call and every withheld completion, and for nothing else; a completion is
      withheld because of a source that is missing. */
  lemma EveryTurnHasItsEntry(r: Rules, q: Question, turns: seq<Turn>, log: seq<Entry>, i: nat)
    requires Produces(r, q, turns, log) && i < |log|
    ensures turns[i].Use? || turns[i] == Complete
    ensures turns[i] == Complete <==> log[i] == CompleteRejected
    ensures turns[i] == Complete ==> exists s :: Missing(r, q, log[..i], s)
  {
    assert AddsAt(r, q, turns, log, i);
    UncoveredIff(r, q, log[..i]);
  }

  // ----- when a run can still complete -----

  function RestOf(c: Call): nat { if c.Tool? then 0 else c.rest }

  /** Arguments no fetch of the log has used. */
  function NewRest(log: seq<Entry>): nat {
    if log == [] then 0
    else
      var last, before := log[|log| - 1], NewRest(log[..|log| - 1]);
      if last.Executed? && RestOf(last.call) >= before then RestOf(last.call) + 1 else before
  }

  lemma {:induction false} NewRestIsNew(log: seq<Entry>, u: Url, rest: nat)
    requires rest >= NewRest(log)
    ensures Count(log, Fetch(u, rest)) == 0
  {
    if log != [] { NewRestIsNew(log[..|log| - 1], u, rest); }
  }

  /** One more turn settles the source. */
  ghost predicate IsCoveredBy(r: Rules, q: Question, log: seq<Entry>, k: Key, t: Turn, e: Entry) {
    Adds(r, q, log, t, e) && StatusOf(r, log + [e], k) != Pending
  }

  /** A fetch of an address on a host that has not refused covers the source. */
  lemma FetchCovers(r: Rules, q: Question, log: seq<Entry>, k: Key) returns (t: Turn, e: Entry)
    requires StatusOf(r, log, k) == Pending && !OutOfReach(r, log, k)
    ensures IsCoveredBy(r, q, log, k, t, e) && e.Executed? && e.outcome == Done
  {
    var u: Url :| r.key(u) == Some(k) && !(r.host(u).Some? && IsBlocked(r, log, r.host(u).value));
    var c := Fetch(u, NewRest(log));
    NewRestIsNew(log, u, NewRest(log));
    t, e := Use(c, true, Done), Executed(c, Done);
    LogGrows(r, q, log, e);
  }

  /** A pending source can be covered by one more turn if and only if it is not out of reach. */
  lemma CoverableIff(r: Rules, q: Question, log: seq<Entry>, k: Key)
    requires StatusOf(r, log, k) == Pending
    ensures (exists t, e :: IsCoveredBy(r, q, log, k, t, e)) <==> !OutOfReach(r, log, k)
  {
    if !OutOfReach(r, log, k) {
      var t, e := FetchCovers(r, q, log, k);
    }
    if t, e :| IsCoveredBy(r, q, log, k, t, e) {
      LogGrows(r, q, log, e);
      assert Covers(r, e, k);
    }
  }

  /** A named source is pending and out of reach. */
  ghost predicate IsLost(r: Rules, q: Question, log: seq<Entry>, s: nat) {
    && s < |q.sources| && r.key(q.sources[s]).Some? && StatusOf(r, log, r.key(q.sources[s]).value) == Pending
    && OutOfReach(r, log, r.key(q.sources[s]).value)
  }

  /** A run that goes on from `log`, within `budget` turns, and completes. */
  ghost predicate Completes(r: Rules, q: Question, log: seq<Entry>, budget: nat, turns: seq<Turn>, longer: seq<Entry>) {
    && |turns| <= budget && log <= longer
    && Produces(r, q, turns, longer) && EndsBy(r, q, turns, longer, Completed)
  }

  /** Successful fetches block no host. */
  lemma DoneKeepsReach(r: Rules, q: Question, log: seq<Entry>, e: Entry)
    requires e.Executed? && e.outcome == Done && forall s: nat :: !IsLost(r, q, log, s)
    ensures forall s: nat :: !IsLost(r, q, log + [e], s)
  {
    LogGrows(r, q, log, e);
    forall s: nat ensures !IsLost(r, q, log + [e], s) { assert !IsLost(r, q, log, s); }
  }

  /** The named sources below `s` are settled. */
  ghost predicate SettledBelow(r: Rules, q: Question, log: seq<Entry>, s: nat) {
    forall i :: 0 <= i < s && i < |q.sources| && r.key(q.sources[i]).Some? ==>
      StatusOf(r, log, r.key(q.sources[i]).value) != Pending
  }

  /** Fetching the pending named sources one after the other leads to an accepted COMPLETE. */
  lemma {:induction false} FetchTheRest(r: Rules, q: Question, turns: seq<Turn>, log: seq<Entry>, s: nat)
      returns (more: seq<Turn>, longer: seq<Entry>)
    requires Produces(r, q, turns, log) && |turns| == |log| && s <= |q.sources|
    requires SettledBelow(r, q, log, s) && forall i: nat :: !IsLost(r, q, log, i)
    ensures Completes(r, q, log, |log| + |q.sources| - s + 1, more, longer)
    decreases |q.sources| - s
  {
    if s == |q.sources| {
      more, longer := turns + [Complete], log;
      ProducesMoreTurns(r, q, turns, log, Complete);
    } else if r.key(q.sources[s]).Some? && StatusOf(r, log, r.key(q.sources[s]).value) == Pending {
      var k := r.key(q.sources[s]).value;
      assert !IsLost(r, q, log, s);
      var t, e := FetchCovers(r, q, log, k);
      ProducesMoreTurns(r, q, turns, log, t);
      ProducesMore(r, q, turns + [t], log, e);
      LogGrows(r, q, log, e);
      DoneKeepsReach(r, q, log, e);
      more, longer := FetchTheRest(r, q, turns + [t], log + [e], s + 1);
    } else {
      more, longer := FetchTheRest(r, q, turns, log, s + 1);
    }
  }

  lemma ProducesMoreTurns(r: Rules, q: Question, turns: seq<Turn>, log: seq<Entry>, t: Turn)
    requires Produces(r, q, turns, log)
    ensures Produces(r, q, turns + [t], log)
  {
    forall i | 0 <= i < |log| ensures AddsAt(r, q, turns + [t], log, i) { assert AddsAt(r, q, turns, log, i); }
  }

  /** A run can still complete, given one turn for each named source and one to say so, if and only if no pending
      named source is out of reach; otherwise no budget helps. */
  lemma CompletionIsReachableIff(r: Rules, q: Question, turns: seq<Turn>, log: seq<Entry>, budget: nat)
    requires Produces(r, q, turns, log) && budget > |log| + |q.sources|
    ensures (exists more, longer :: Completes(r, q, log, budget, more, longer)) <==>
      forall s: nat :: !IsLost(r, q, log, s)
  {
    if forall s: nat :: !IsLost(r, q, log, s) {
      var used := turns[..|log|];
      forall i | 0 <= i < |log| ensures AddsAt(r, q, used, log, i) { assert AddsAt(r, q, turns, log, i); }
      var more, longer := FetchTheRest(r, q, used, log, 0);
      assert Completes(r, q, log, budget, more, longer);
    }
    if more, longer :| Completes(r, q, log, budget, more, longer) {
      forall s: nat | IsLost(r, q, log, s) ensures false {
        assert longer[..|log|] == log;
        OutOfReachBlocksCompletion(r, q, more, longer, |log|, s);
      }
    }
  }

  /** One host, a page a key; every error is a refusal. */
  const ONE_HOST := Rules(u => Some(0), u => Some(u), w => {}, w => {}, e => true)

  /** The question names page 1. */
  const ABOUT_PAGE := Question([1], {})

  const REFUSED := Executed(Fetch(0, 0), FailedWith(7))

  /** The host refuses page 0, so page 1 is denied and COMPLETE is withheld: no continuation of this run completes. */
  lemma RefusedHostEndsHope() returns (turns: seq<Turn>, log: seq<Entry>)
    ensures Produces(ONE_HOST, ABOUT_PAGE, turns, log) && EndsBy(ONE_HOST, ABOUT_PAGE, turns, log, BudgetExhausted)
    ensures log == [REFUSED, Denied(Fetch(1, 0), HostUnavailable), CompleteRejected]
    ensures forall budget: nat, more, longer :: !Completes(ONE_HOST, ABOUT_PAGE, log, budget, more, longer)
  {
    var r, q := ONE_HOST, ABOUT_PAGE;
    turns := [Use(Fetch(0, 0), true, FailedWith(7)), Use(Fetch(1, 0), true, Done), Complete];
    log := [REFUSED, Denied(Fetch(1, 0), HostUnavailable), CompleteRejected];
    RefusedRunIsProduced(turns, log);
    StatusIsFirstFetch(r, log, 1);
    assert RefusedBy(r, log[0], 0);
    assert IsLost(r, q, log, 0);
    forall budget: nat, more, longer | Completes(r, q, log, budget, more, longer) ensures false {
      assert longer[..|log|] == log;
      OutOfReachBlocksCompletion(r, q, more, longer, |log|, 0);
    }
  }

  lemma RefusedRunIsProduced(turns: seq<Turn>, log: seq<Entry>)
    requires turns == [Use(Fetch(0, 0), true, FailedWith(7)), Use(Fetch(1, 0), true, Done), Complete]
    requires log == [REFUSED, Denied(Fetch(1, 0), HostUnavailable), CompleteRejected]
    ensures Produces(ONE_HOST, ABOUT_PAGE, turns, log)
  {
    var r, q := ONE_HOST, ABOUT_PAGE;
    assert log[..0] == [];
    assert Adds(r, q, [], turns[0], log[0]);
    assert log[..1] == [REFUSED];
    assert RefusedBy(r, log[..1][0], 0);
    assert Count(log[..1], Fetch(1, 0)) == 0 by { assert log[..1][..0] == []; }
    assert Adds(r, q, log[..1], turns[1], log[1]);
    StatusIsFirstFetch(r, log[..2], 1);
    assert r.key(q.sources[0]) == Some(1);
    assert Uncovered(r, q, log[..2]);
    forall i | 0 <= i < 3 ensures AddsAt(r, q, turns, log, i) {}
  }

  // ----- the trackers -----

  ghost predicate HasKey(r: Rules, urls: seq<Url>, k: Key) {
    exists j :: 0 <= j < |urls| && r.key(urls[j]) == Some(k)
  }

  lemma HasKeyAppend(r: Rules, urls: seq<Url>, u: Url)
    ensures forall k: Key :: HasKey(r, urls + [u], k) <==> HasKey(r, urls, k) || r.key(u) == Some(k)
  {
    forall k: Key ensures HasKey(r, urls + [u], k) <==> HasKey(r, urls, k) || r.key(u) == Some(k) {
      assert forall j :: 0 <= j < |urls| ==> (urls + [u])[j] == urls[j];
      assert (urls + [u])[|urls|] == u;
    }
  }

  /** Where an address stands: its source cannot be tracked, or has a status. */
  datatype Standing = Untracked | Of(status: Status)

  function StandingOf(r: Rules, status: map<Key, Status>, u: Url): Standing {
    if r.key(u).None? || r.key(u).value !in status then Untracked else Of(status[r.key(u).value])
  }

  /** The addresses of one standing, in their order. */
  function NamedWith(r: Rules, status: map<Key, Status>, urls: seq<Url>, s: Standing): seq<Url> {
    if urls == [] then []
    else
      var init, last := urls[..|urls| - 1], urls[|urls| - 1];
      NamedWith(r, status, init, s) + if StandingOf(r, status, last) == s then [last] else []
  }

  /** So the four lists of the report part the named addresses. */
  lemma {:induction false} NamedWithHas(r: Rules, status: map<Key, Status>, urls: seq<Url>, s: Standing, u: Url)
    ensures u in NamedWith(r, status, urls, s) <==> u in urls && StandingOf(r, status, u) == s
  {
    if urls != [] {
      assert urls == urls[..|urls| - 1] + [urls[|urls| - 1]];
      NamedWithHas(r, status, urls[..|urls| - 1], s, u);
    }
  }

  /** Of the addresses with the same key, the first. */
  ghost function FirstSpellings(r: Rules, urls: seq<Url>): seq<Url> {
    if urls == [] then []
    else
      var init, last := urls[..|urls| - 1], urls[|urls| - 1];
      FirstSpellings(r, init) + if r.key(last).Some? && HasKey(r, init, r.key(last).value) then [] else [last]
  }

  /** One address a source, and none lost. */
  lemma {:induction false} SpellingsKeepKeys(r: Rules, urls: seq<Url>)
    ensures forall k: Key :: HasKey(r, FirstSpellings(r, urls), k) <==> HasKey(r, urls, k)
    ensures FirstSpellings(r, urls) == [] <==> urls == []
  {
    if urls != [] {
      var init, last := urls[..|urls| - 1], urls[|urls| - 1];
      assert urls == init + [last];
      SpellingsKeepKeys(r, init);
      HasKeyAppend(r, init, last);
      HasKeyAppend(r, FirstSpellings(r, init), last);
      if FirstSpellings(r, urls) != FirstSpellings(r, init) + [last] {
        assert FirstSpellings(r, urls) == FirstSpellings(r, init);
      }
    }
  }

  lemma OneMorePending(r: Rules, status: map<Key, Status>, urls: seq<Url>, u: Url)
    ensures var p := NamedWith(r, status, urls, Of(Pending));
      && NamedWith(r, status, urls + [u], Of(Pending))
         == p + (if StandingOf(r, status, u) == Of(Pending) then [u] else [])
      && (forall k: Key :: HasKey(r, p + [u], k) <==> HasKey(r, p, k) || r.key(u) == Some(k))
      && FirstSpellings(r, p + [u])
         == FirstSpellings(r, p) + if r.key(u).Some? && HasKey(r, p, r.key(u).value) then [] else [u]
  {
    var p := NamedWith(r, status, urls, Of(Pending));
    assert (urls + [u])[..|urls|] == urls && (p + [u])[..|p|] == p;
    HasKeyAppend(r, p, u);
  }

  lemma {:induction false} SpellingsDiffer(r: Rules, urls: seq<Url>, i: nat, j: nat)
    requires i < j < |FirstSpellings(r, urls)| && r.key(FirstSpellings(r, urls)[j]).Some?
    ensures r.key(FirstSpellings(r, urls)[i]) != r.key(FirstSpellings(r, urls)[j])
  {
    var init := urls[..|urls| - 1];
    if j < |FirstSpellings(r, init)| {
      SpellingsDiffer(r, init, i, j);
    } else {
      SpellingsKeepKeys(r, init);
      var k := r.key(FirstSpellings(r, urls)[j]).value;
      assert !HasKey(r, FirstSpellings(r, init), k);
    }
  }

  /** Coverage of the named sources; statuses live in a dictionary the marks update. */
  class SourceCoverageTracker {
    const r: Rules
    const named: seq<Url>
    var status: map<Key, Status>

    /** The dictionary holds exactly the trackable named sources. */
    ghost predicate Keyed()
      reads this
    {
      forall k :: k in status <==> HasKey(r, named, k)
    }

    ghost predicate Tracks(log: seq<Entry>)
      reads this
    {
      Keyed() && forall k :: k in status ==> status[k] == StatusOf(r, log, k)
    }

    constructor (r: Rules, named: seq<Url>)
      ensures this.r == r && this.named == named && Tracks([])
    {
      this.r, this.named := r, named;
      status := map i | 0 <= i < |named| && r.key(named[i]).Some? :: r.key(named[i]).value := Pending;
    }

    /** An executed fetch with a definitive answer. */
    method Mark(url: Url, ok: bool)
      modifies this
      ensures status.Keys == old(status).Keys
      ensures forall k :: k in status ==> status[k] == Marked(old(status)[k], r.key(url) == Some(k), ok)
    {
      var key := r.key(url);
      if key.None? || key.value !in status || status[key.value] != Pending { return; }
      status := status[key.value := if ok then Fetched else Errored];
    }

    /** The pending sources in question order, the first spelling of each. */
    method UncoveredSources() returns (out: seq<Url>)
      requires Keyed()
      ensures out == FirstSpellings(r, NamedWith(r, status, named, Of(Pending)))
    {
      out := [];
      var seen: set<Key> := {};
      ghost var pending: seq<Url> := [];
      for n := 0 to |named|
        invariant pending == NamedWith(r, status, named[..n], Of(Pending)) && out == FirstSpellings(r, pending)
        invariant forall k: Key :: k in seen <==> HasKey(r, pending, k)
      {
        assert named[..n + 1] == named[..n] + [named[n]];
        OneMorePending(r, status, named[..n], named[n]);
        var key := r.key(named[n]);
        assert key.Some? ==> HasKey(r, named, key.value);
        if key.Some? && status[key.value] == Pending {
          pending := pending + [named[n]];
          if key.value !in seen {
            seen := seen + {key.value};
            out := out + [named[n]];
          }
        }
      }
      assert named[..|named|] == named;
    }

    /** The audit report: the named addresses by standing, in question order, and one spelling of each
        pending source. */
    method Report() returns (fetched: seq<Url>, errored: seq<Url>, uncovered: seq<Url>, untracked: seq<Url>)
      requires Keyed()
      ensures fetched == NamedWith(r, status, named, Of(Fetched)) && errored == NamedWith(r, status, named, Of(Errored))
      ensures uncovered == FirstSpellings(r, NamedWith(r, status, named, Of(Pending)))
      ensures untracked == NamedWith(r, status, named, Untracked)
    {
      uncovered := UncoveredSources();
      fetched, errored, untracked := [], [], [];
      for n := 0 to |named|
        invariant fetched == NamedWith(r, status, named[..n], Of(Fetched))
        invariant errored == NamedWith(r, status, named[..n], Of(Errored))
        invariant untracked == NamedWith(r, status, named[..n], Untracked)
      {
        assert named[..n + 1][..n] == named[..n];
        var key := r.key(named[n]);
        assert key.Some? ==> HasKey(r, named, key.value);
        if key.None? {
          untracked := untracked + [named[n]];
        } else if status[key.value] == Fetched {
          fetched := fetched + [named[n]];
        } else if status[key.value] == Errored {
          errored := errored + [named[n]];
        }
      }
      assert named[..|named|] == named;
    }

    /** The release to consolidation is withheld exactly while a named source is uncovered. */
    method IsComplete(q: Question, ghost log: seq<Entry>) returns (done: bool)
      requires Tracks(log) && q.sources == named
      ensures done <==> !Uncovered(r, q, log)
    {
      var open := UncoveredSources();
      done := open == [];
      var pending := NamedWith(r, status, named, Of(Pending));
      SpellingsKeepKeys(r, pending);
      if pending != [] {
        NamedWithHas(r, status, named, Of(Pending), pending[0]);
        var i :| 0 <= i < |named| && named[i] == pending[0];
        assert HasKey(r, named, r.key(named[i]).value);
      }
      forall i | 0 <= i < |named| && r.key(named[i]).Some?
        ensures StatusOf(r, log, r.key(named[i]).value) == Pending ==> named[i] in pending
      {
        NamedWithHas(r, status, named, Of(Pending), named[i]);
        assert HasKey(r, named, r.key(named[i]).value);
      }
    }
  }

  /** Separate and aggregate searches of the actors the question names. */
  class ActorSearchTracker {
    const r: Rules
    const named: set<Actor>
    var covered: set<Actor>
    var aggregate: Option<(Query, nat)>

    constructor (r: Rules, named: set<Actor>)
      ensures this.r == r && this.named == named && covered == {} && aggregate == None
    {
      this.r, this.named, covered, aggregate := r, named, {}, None;
    }

    /** The first aggregate search of the log is the one remembered. */
    ghost predicate Tracks(q: Question, log: seq<Entry>)
      reads this
    {
      && q.actors == named
      && (aggregate.Some? <==> AggregateBefore(r, q, log))
      && covered <= named
    }

    /** The earlier aggregate search, when it makes this one a repeat. */
    method RepeatRefusal(query: Query) returns (prior: Option<(Query, nat)>)
      ensures prior.Some? <==>
        |named| >= MULTI_ACTOR_MIN && aggregate.Some? && |r.actors(query) * named| >= MULTI_ACTOR_MIN
      ensures prior.Some? ==> prior == aggregate
    {
      if |named| < MULTI_ACTOR_MIN || aggregate.None? || |r.actors(query) * named| < MULTI_ACTOR_MIN { return None; }
      return aggregate;
    }

    /** A successful search: separate ones cover their actors, the first aggregate arms the gate. */
    method MarkExecuted(query: Query, step: nat)
      modifies this
      ensures var found := r.actors(query) * named;
        && covered == (if |found| <= SEPARATE_SEARCH_MAX_ACTORS then old(covered) + found else old(covered))
        && aggregate == if |found| >= MULTI_ACTOR_MIN && old(aggregate).None? then Some((query, step))
          else old(aggregate)
    {
      var found := r.actors(query) * named;
      if |found| > SEPARATE_SEARCH_MAX_ACTORS {
        if aggregate.None? { aggregate := Some((query, step)); }
      } else {
        covered := covered + found;
      }
    }
  }

  // ----- the loop -----

  /** How one more entry changes what the log says. */
  lemma LogGrows(r: Rules, q: Question, log: seq<Entry>, e: Entry)
    ensures forall c :: Count(log + [e], c) == Count(log, c) + (if e.Executed? && e.call == c then 1 else 0)
    ensures forall p: Query :: Searched(log + [e], p) <==> Searched(log, p) || SearchedOk(e, p)
    ensures forall h: Host :: IsBlocked(r, log + [e], h) <==> IsBlocked(r, log, h) || RefusedBy(r, e, h)
    ensures AggregateBefore(r, q, log + [e]) <==> AggregateBefore(r, q, log) || AggregateDone(r, q, e)
    ensures forall k: Key :: StatusOf(r, log + [e], k) == Marked(StatusOf(r, log, k), Covers(r, e, k),
      e.Executed? && e.outcome == Done)
  {
    var longer := log + [e];
    assert longer[..|log|] == log && longer[|log|] == e;
    assert forall i :: 0 <= i < |log| ==> longer[i] == log[i];
  }

  lemma ProducesMore(r: Rules, q: Question, turns: seq<Turn>, log: seq<Entry>, e: Entry)
    requires Produces(r, q, turns, log) && |log| < |turns| && Adds(r, q, log, turns[|log|], e)
    ensures Produces(r, q, turns, log + [e])
  {
    var longer := log + [e];
    assert longer[..|log|] == log;
    forall i | 0 <= i < |longer| ensures AddsAt(r, q, turns, longer, i) {
      if i < |log| {
        assert AddsAt(r, q, turns, log, i);
        assert longer[..i] == log[..i];
      }
    }
  }

  ghost predicate Listed(queries: seq<(Query, nat)>, q: Query) {
    exists j :: 0 <= j < |queries| && queries[j].0 == q
  }

  lemma ListedAppend(queries: seq<(Query, nat)>, q: Query, step: nat)
    ensures forall p: Query :: Listed(queries + [(q, step)], p) <==> Listed(queries, p) || p == q
  {
    var longer := queries + [(q, step)];
    assert longer[|queries|].0 == q;
    assert forall j :: 0 <= j < |queries| ==> longer[j] == queries[j];
  }

  /** The per-session state of the loop. `log` is what it has done so far, one entry a step. */
  class ExplorerSession {
    const r: Rules
    const q: Question
    const coverage: SourceCoverageTracker
    const actors: ActorSearchTracker
    var counts: map<Call, nat>
    var queries: seq<(Query, nat)>
    var blocked: map<Host, nat>
    ghost var log: seq<Entry>

    /** The counters, lists and trackers say what the log says. */
    ghost predicate Valid()
      reads this, coverage, actors
    {
      && coverage.r == r && coverage.named == q.sources && coverage.Tracks(log)
      && actors.r == r && actors.Tracks(q, log)
      && (forall c :: Executions(c) == Count(log, c))
      && (forall p: Query :: Listed(queries, p) <==> Searched(log, p))
      && (forall h: Host :: h in blocked <==> IsBlocked(r, log, h))
    }

    function Executions(c: Call): nat
      reads this
    {
      if c in counts then counts[c] else 0
    }

    constructor (r: Rules, q: Question)
      ensures this.r == r && this.q == q && log == [] && Valid()
      ensures fresh(coverage) && fresh(actors)
    {
      this.r, this.q := r, q;
      coverage := new SourceCoverageTracker(r, q.sources);
      actors := new ActorSearchTracker(r, q.actors);
      counts, queries, blocked := map[], [], map[];
      log := [];
    }

    method RepeatsSearch(query: Query) returns (found: bool)
      requires Valid()
      ensures found <==> IsNearDuplicate(r, log, query)
    {
      found := false;
      for j := 0 to |queries|
        invariant found <==> exists i :: 0 <= i < j && SameStems(r, query, queries[i].0)
      {
        if SameStems(r, query, queries[j].0) { found := true; }
      }
      if found {
        var i :| 0 <= i < |queries| && SameStems(r, query, queries[i].0);
        assert Listed(queries, queries[i].0);
      }
    }

    /** The deny gates before execution. */
    method CheckGates(c: Call, allowed: bool) returns (g: Option<Reason>)
      requires Valid()
      ensures g == Gate(r, q, log, c, allowed)
    {
      if Executions(c) >= TOOL_REPEAT_DENY_LIMIT { return Some(Repeated); }
      if c.Search? {
        var near := RepeatsSearch(c.query);
        if near { return Some(NearDuplicate); }
        var prior := actors.RepeatRefusal(c.query);
        if prior.Some? { return Some(ActorRepeat); }
      }
      if c.Fetch? && r.host(c.url).Some? && r.host(c.url).value in blocked { return Some(HostUnavailable); }
      return if allowed then None else Some(PolicyDenied);
    }

    /** A refused call or a withheld completion costs a step and changes nothing else. */
    method Refuse(ghost e: Entry)
      requires Valid() && !e.Executed?
      modifies this
      ensures Valid() && log == old(log) + [e]
    {
      LogGrows(r, q, log, e);
      log := log + [e];
    }

    /** The accounting of an executed call; a lost outcome only counts the execution. */
    method Account(c: Call, o: Outcome, step: nat)
      requires Valid()
      modifies this, coverage, actors
      ensures Valid() && log == old(log) + [Executed(c, o)]
    {
      if c.Fetch? && o != Unknown {
        FetchExecuted(c, o, step);
      } else if c.Search? && o == Done {
        SearchExecuted(c, step);
      } else {
        CallExecuted(c, o);
      }
    }

    method CallExecuted(c: Call, o: Outcome)
      requires Valid() && !(c.Fetch? && o != Unknown) && !(c.Search? && o == Done)
      modifies this
      ensures Valid() && log == old(log) + [Executed(c, o)]
    {
      LogGrows(r, q, log, Executed(c, o));
      counts := counts[c := Executions(c) + 1];
      log := log + [Executed(c, o)];
    }

    method FetchExecuted(c: Call, o: Outcome, step: nat)
      requires Valid() && c.Fetch? && o != Unknown
      modifies this, coverage
      ensures Valid() && log == old(log) + [Executed(c, o)]
    {
      LogGrows(r, q, log, Executed(c, o));
      counts := counts[c := Executions(c) + 1];
      AccountFetch(c.url, o, step);
      log := log + [Executed(c, o)];
    }

    method SearchExecuted(c: Call, step: nat)
      requires Valid() && c.Search?
      modifies this, actors
      ensures Valid() && log == old(log) + [Executed(c, Done)]
    {
      LogGrows(r, q, log, Executed(c, Done));
      counts := counts[c := Executions(c) + 1];
      AccountSearch(c.query, step);
      log := log + [Executed(c, Done)];
    }

    method AccountFetch(url: Url, o: Outcome, step: nat)
      requires o != Unknown && coverage.r == r
      modifies this`blocked, coverage
      ensures coverage.status.Keys == old(coverage.status).Keys
      ensures forall k :: k in coverage.status ==>
        coverage.status[k] == Marked(old(coverage.status)[k], r.key(url) == Some(k), o == Done)
      ensures forall h: Host :: h in blocked <==>
        h in old(blocked) || (o.FailedWith? && r.refusal(o.error) && r.host(url) == Some(h))
      ensures forall h :: h in old(blocked) ==> blocked[h] == old(blocked)[h]
    {
      coverage.Mark(url, o == Done);
      if o.FailedWith? && r.refusal(o.error) && r.host(url).Some? && r.host(url).value !in blocked {
        blocked := blocked[r.host(url).value := step];
      }
    }

    method AccountSearch(query: Query, step: nat)
      modifies this`queries, actors
      ensures forall p: Query :: Listed(queries, p) <==> Listed(old(queries), p) || p == query
      ensures var found := actors.r.actors(query) * actors.named;
        && (old(actors.covered) <= actors.named ==> actors.covered <= actors.named)
        && (actors.aggregate.Some? <==> old(actors.aggregate).Some? || |found| >= MULTI_ACTOR_MIN)
    {
      ListedAppend(queries, query, step);
      queries := queries + [(query, step)];
      actors.MarkExecuted(query, step);
    }

    /** The whole loop: the log and the end are the ones the specification gives. */
    method Run(turns: seq<Turn>) returns (end: End)
      requires Valid() && log == []
      modifies this, coverage, actors
      ensures Produces(r, q, turns, log) && EndsBy(r, q, turns, log, end)
    {
      for i := 0 to |turns|
        invariant Valid() && |log| == i && Produces(r, q, turns, log)
      {
        match turns[i]
        case Abort => return Aborted;
        case Stop => return Stopped;
        case ModelError => return Raised;
        case Complete =>
          var done := coverage.IsComplete(q, log);
          if done { return Completed; }
          ProducesMore(r, q, turns, log, CompleteRejected);
          Refuse(CompleteRejected);
        case Use(c, allowed, o) =>
          var g := CheckGates(c, allowed);
          ProducesMore(r, q, turns, log, if g.None? then Executed(c, o) else Denied(c, g.value));
          if g.None? { Account(c, o, i + 1); } else { Refuse(Denied(c, g.value)); }
      }
      return BudgetExhausted;
    }
  }
}
