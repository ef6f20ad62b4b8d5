/** One node's session lane: the wake decision, the advisory lock, the session
    marker and the failure accounting, with any number of processes interleaved
    (apps/orchestrator/node_guard.py, apps/orchestrator/scheduler.py, hostctl/cli.py).

    The database grants one holder per lock name and drops the lock with its
    connection; a connection lives exactly as long as its process. Durations are
    exact reals before the final truncation. */
module NodeLane {
  import opened Basics

  type Pid = nat

  // ----- backoff -----

  /** The validated wake_schedule section. */
  datatype Schedule = Schedule(base: nat, multiplier: real, max: nat, maxFailures: nat, interval: nat, minGap: nat) {
    predicate Valid() { 0 < base <= max && multiplier >= 1.0 && maxFailures >= 1 && interval > 0 && minGap > 0 }
  }

  function Power(m: real, n: nat): real { if n == 0 then 1.0 else m * Power(m, n - 1) }

  /** Seconds to wait after the n-th consecutive failure. */
  function BackoffDelay(s: Schedule, n: nat): int
    requires n >= 1
  {
    var delay := s.base as real * Power(s.multiplier, n - 1);
    (if s.max as real <= delay then s.max as real else delay).Floor
  }

  lemma {:induction false} PowerGrows(m: real, n: nat)
    requires m >= 1.0
    ensures 1.0 <= Power(m, n) <= Power(m, n + 1)
  {
    if n > 0 {
      PowerGrows(m, n - 1);
      MulMono(m, Power(m, n - 1), Power(m, n));
    }
  }

  lemma MulMono(m: real, a: real, b: real)
    requires m >= 1.0 && 1.0 <= a <= b
    ensures 1.0 <= m * a <= m * b
  {
    assert m * (b - a) >= 0.0;
    assert (m - 1.0) * a >= 0.0;
  }

  lemma {:induction false} PowerMonotone(m: real, i: nat, j: nat)
    requires m >= 1.0 && i <= j
    ensures 1.0 <= Power(m, i) <= Power(m, j)
  {
    if i < j {
      PowerMonotone(m, i, j - 1);
      PowerGrows(m, j - 1);
    } else {
      PowerGrows(m, i);
    }
  }

  /** More failures never shorten the wait, and it stays between base and max. */
  lemma BackoffIsMonotone(s: Schedule, i: nat, j: nat)
    requires s.Valid() && 1 <= i <= j
    ensures s.base <= BackoffDelay(s, i) <= BackoffDelay(s, j) <= s.max
    ensures BackoffDelay(s, 1) == s.base
  {
    PowerMonotone(s.multiplier, i - 1, j - 1);
    var b := s.base as real;
    ScaleMono(b, Power(s.multiplier, i - 1), Power(s.multiplier, j - 1));
  }

  lemma ScaleMono(b: real, x: real, y: real)
    requires b >= 0.0 && 1.0 <= x <= y
    ensures b <= b * x <= b * y
  {
    assert b * (x - 1.0) >= 0.0;
    assert b * (y - x) >= 0.0;
  }

  /** Each wait is the one before it times the multiplier. */
  ghost predicate IsGeometric(waits: seq<real>, base: real, m: real) {
    waits != [] && waits[0] == base && forall k :: 0 < k < |waits| ==> waits[k] == m * waits[k - 1]
  }

  lemma {:induction false} GeometricAt(waits: seq<real>, base: real, m: real, k: nat)
    requires IsGeometric(waits, base, m) && k < |waits|
    ensures waits[k] == base * Power(m, k)
  {
    if k > 0 {
      GeometricAt(waits, base, m, k - 1);
      Reorder(base, m, Power(m, k - 1));
    }
  }

  lemma Reorder(a: real, b: real, c: real)
    ensures b * (a * c) == a * (b * c)
  {
  }

  /** The n-th wait is the n-th term of the geometric sequence, in whole seconds, until it meets the cap. */
  lemma BackoffIsGeometric(s: Schedule, waits: seq<real>)
    requires IsGeometric(waits, s.base as real, s.multiplier)
    ensures waits[|waits| - 1] < s.max as real ==> BackoffDelay(s, |waits|) == waits[|waits| - 1].Floor
    ensures waits[|waits| - 1] >= s.max as real ==> BackoffDelay(s, |waits|) == s.max
  {
    GeometricAt(waits, s.base as real, s.multiplier, |waits| - 1);
  }

  // ----- schedule timing -----

  datatype Wait = Due | IntervalNotElapsed | MinGapNotElapsed | BackoffActive

  function ScheduleTiming(s: Schedule, now: int, lastFinished: Option<int>, backoffUntil: Option<int>): Wait {
    if lastFinished.None? then
      if backoffUntil.Some? && now < backoffUntil.value then BackoffActive else Due
    else if now < lastFinished.value + s.interval then IntervalNotElapsed
    else if now < lastFinished.value + s.minGap then MinGapNotElapsed
    else if backoffUntil.Some? && now < backoffUntil.value then BackoffActive
    else Due
  }

  // ----- the node's durable row -----

  datatype Node = Idle | SessionRunning | Paused

  /** What the accounting has seen, newest last. */
  datatype Mark = Failed | NotFailed | Resume

  datatype Row = Row(node: Node, failures: nat, backoffUntil: Option<int>, lastFinished: Option<int>,
      history: seq<Mark>)

  const NEW_NODE := Row(Idle, 0, None, None, [])

  /** The outcome accounting, one transaction. */
  function Recorded(s: Schedule, r: Row, failed: bool, now: int): Row {
    var n := if failed then r.failures + 1 else 0;
    var node := if failed && n >= s.maxFailures then Paused else if r.node == Paused then Paused else Idle;
    Row(node, n, if failed then Some(now + BackoffDelay(s, n)) else None, Some(now),
        r.history + [if failed then Failed else NotFailed])
  }

  function Resumed(r: Row): Row {
    r.(node := Idle, failures := 0, backoffUntil := None, history := r.history + [Resume])
  }

  /** Length of the run of failures at the end of the history. */
  function TrailingFailures(h: seq<Mark>): nat {
    if h == [] || h[|h| - 1] != Failed then 0 else 1 + TrailingFailures(h[..|h| - 1])
  }

  // ----- the interleaved processes -----

  /** Where an entry point stands. `Owing` is the web's way: lock returned, outcome not yet recorded. */
  datatype Phase = Out | Granted | Holding | Running | Finished(failed: bool) | Accounted | Owing(failed: bool)

  predicate InLane(ph: Phase) { ph.Holding? || ph.Running? || ph.Finished? || ph.Accounted? }

  /** The wake schedule is re-read from the effective configuration at every decision and accounting. */
  datatype Sys = Sys(procs: map<Pid, Phase>, holder: Option<Pid>, row: Row, schedule: Schedule)

  function Boot(sch: Schedule): Sys { Sys(map[], None, NEW_NODE, sch) }

  function At(s: Sys, p: Pid): Phase { if p in s.procs then s.procs[p] else Out }

  datatype Act =
    | Decide(p: Pid, admitted: bool)      // the admission list; a pause always refuses
    | Acquire(p: Pid)                     // try-lock
    | StepBack(p: Pid)                    // lane held, session refused before it started
    | WriteMarker(p: Pid)                 // node_state := session_running
    | EndSession(p: Pid, failed: bool)
    | Account(p: Pid, now: int)           // record_session_result under the lock
    | Release(p: Pid)
    | ReleaseFirst(p: Pid)                // the web entry point
    | AccountLate(p: Pid, now: int)
    | Crash(p: Pid)
    | OperatorPause
    | OperatorResume
    | Reschedule(next: Schedule)          // another configuration becomes effective

  function Put(s: Sys, p: Pid, ph: Phase): Sys { s.(procs := s.procs[p := ph]) }

  /** One step; an act that is not enabled changes nothing. */
  function Step(s: Sys, a: Act): Sys {
    match a
    case Decide(p, admitted) =>
      if At(s, p) == Out && admitted && s.row.node != Paused then Put(s, p, Granted) else s
    case Acquire(p) =>
      if At(s, p) != Granted then s
      else if s.holder.None? then Put(s, p, Holding).(holder := Some(p))
      else Put(s, p, Out)
    case StepBack(p) =>
      if At(s, p).Holding? || At(s, p).Running? then Put(s, p, Out).(holder := None) else s
    case WriteMarker(p) =>
      if At(s, p) == Holding then Put(s, p, Running).(row := s.row.(node := SessionRunning)) else s
    case EndSession(p, failed) =>
      if At(s, p) == Running then Put(s, p, Finished(failed)) else s
    case Account(p, now) =>
      if At(s, p).Finished? then Put(s, p, Accounted).(row := Recorded(s.schedule, s.row, At(s, p).failed, now)) else s
    case Release(p) =>
      if At(s, p) == Accounted then Put(s, p, Out).(holder := None) else s
    case ReleaseFirst(p) =>
      if At(s, p).Finished? then Put(s, p, Owing(At(s, p).failed)).(holder := None) else s
    case AccountLate(p, now) =>
      if At(s, p).Owing? then Put(s, p, Out).(row := Recorded(s.schedule, s.row, At(s, p).failed, now)) else s
    case Crash(p) =>
      Put(s, p, Out).(holder := if s.holder == Some(p) then None else s.holder)
    case OperatorPause => s.(row := s.row.(node := Paused))
    case OperatorResume => s.(row := Resumed(s.row))
    case Reschedule(next) => s.(schedule := next)
  }

  function Run(sch: Schedule, acts: seq<Act>): Sys {
    if acts == [] then Boot(sch) else Step(Run(sch, acts[..|acts| - 1]), acts[|acts| - 1])
  }

  /** The lock is held exactly by the process inside the lane. */
  ghost predicate LockOk(s: Sys) { forall p: Pid :: InLane(At(s, p)) <==> s.holder == Some(p) }

  /** The counter is the trailing run of failures. */
  predicate CountOk(r: Row) { r.failures == TrailingFailures(r.history) }

  ghost predicate Inv(s: Sys) { LockOk(s) && CountOk(s.row) }

  lemma RecordedCounts(sch: Schedule, r: Row, failed: bool, now: int)
    requires r.failures == TrailingFailures(r.history)
    ensures Recorded(sch, r, failed, now).failures == TrailingFailures(Recorded(sch, r, failed, now).history)
    ensures Resumed(r).failures == TrailingFailures(Resumed(r).history)
  {
    var h := Recorded(sch, r, failed, now).history;
    assert h[..|h| - 1] == r.history;
  }

  lemma StepKeepsLock(s: Sys, a: Act)
    requires LockOk(s)
    ensures LockOk(Step(s, a))
  {
  }

  lemma StepKeepsCount(s: Sys, a: Act)
    requires CountOk(s.row)
    ensures CountOk(Step(s, a).row)
  {
    match a
    case Account(p, now) => if At(s, p).Finished? { RecordedCounts(s.schedule, s.row, At(s, p).failed, now); }
    case AccountLate(p, now) => if At(s, p).Owing? { RecordedCounts(s.schedule, s.row, At(s, p).failed, now); }
    case OperatorResume => RecordedCounts(s.schedule, s.row, true, 0);
    case _ =>
  }

  lemma {:induction false} RunKeepsInv(sch: Schedule, acts: seq<Act>)
    ensures Inv(Run(sch, acts))
  {
    if acts != [] {
      RunKeepsInv(sch, acts[..|acts| - 1]);
      StepKeepsLock(Run(sch, acts[..|acts| - 1]), acts[|acts| - 1]);
      StepKeepsCount(Run(sch, acts[..|acts| - 1]), acts[|acts| - 1]);
    }
  }

  /** In every interleaving, crashes included, at most one process stands between acquire and release,
      and the failure counter is the length of the current run of recorded failures. */
  lemma OneSessionAtATime(sch: Schedule, acts: seq<Act>, p: Pid, q: Pid)
    ensures InLane(At(Run(sch, acts), p)) && InLane(At(Run(sch, acts), q)) ==> p == q
    ensures Run(sch, acts).row.failures == TrailingFailures(Run(sch, acts).row.history)
  {
    RunKeepsInv(sch, acts);
  }

  // ----- the automatic pause -----

  /** A node with the maximal number of failures in a row is paused. */
  predicate PauseOk(s: Sys) {
    s.row.node != Paused ==> s.row.failures < s.schedule.maxFailures
  }

  /** A marker written on a grant that has gone stale: meanwhile the node was paused for failures. */
  predicate StaleMarker(s: Sys, a: Act) {
    a.WriteMarker? && At(s, a.p) == Holding && s.row.node == Paused && s.row.failures >= s.schedule.maxFailures
  }

  /** A configuration that lowers the maximum to what a node that is not paused has reached. */
  predicate LowersBelow(s: Sys, a: Act) {
    a.Reschedule? && s.row.node != Paused && s.row.failures >= a.next.maxFailures
  }

  predicate Breaks(s: Sys, a: Act) { StaleMarker(s, a) || LowersBelow(s, a) }

  lemma PauseKeptIff(s: Sys, a: Act)
    requires s.schedule.Valid() && PauseOk(s)
    ensures PauseOk(Step(s, a)) <==> !Breaks(s, a)
  {
  }

  /** Every configuration of the run has a valid schedule. */
  ghost predicate ValidSchedules(sch: Schedule, acts: seq<Act>) {
    sch.Valid() && forall k :: 0 <= k < |acts| && acts[k].Reschedule? ==> acts[k].next.Valid()
  }

  ghost predicate AlwaysPaused(sch: Schedule, acts: seq<Act>) {
    forall k :: 0 <= k <= |acts| ==> PauseOk(Run(sch, acts[..k]))
  }

  ghost predicate NothingBreaks(sch: Schedule, acts: seq<Act>) {
    forall k :: 0 <= k < |acts| ==> !Breaks(Run(sch, acts[..k]), acts[k])
  }

  lemma RunSplits(sch: Schedule, acts: seq<Act>, k: nat)
    requires k < |acts|
    ensures Run(sch, acts[..k + 1]) == Step(Run(sch, acts[..k]), acts[k])
  {
    assert acts[..k + 1][..k] == acts[..k];
  }

  lemma {:induction false} ScheduleStaysValid(sch: Schedule, acts: seq<Act>, k: nat)
    requires ValidSchedules(sch, acts) && k <= |acts|
    ensures Run(sch, acts[..k]).schedule.Valid()
  {
    if k > 0 {
      ScheduleStaysValid(sch, acts, k - 1);
      RunSplits(sch, acts, k - 1);
    }
  }

  lemma {:induction false} PauseAt(sch: Schedule, acts: seq<Act>, k: nat)
    requires ValidSchedules(sch, acts) && NothingBreaks(sch, acts) && k <= |acts|
    ensures PauseOk(Run(sch, acts[..k]))
  {
    if k > 0 {
      PauseAt(sch, acts, k - 1);
      ScheduleStaysValid(sch, acts, k - 1);
      RunSplits(sch, acts, k - 1);
      PauseKeptIff(Run(sch, acts[..k - 1]), acts[k - 1]);
    }
  }

  /** Exactly the runs without a stale marker and without a configuration that lowers the maximum below a count
      already reached keep "not paused means fewer than max failures". */
  lemma PauseHoldsIff(sch: Schedule, acts: seq<Act>)
    requires ValidSchedules(sch, acts)
    ensures AlwaysPaused(sch, acts) <==> NothingBreaks(sch, acts)
  {
    if NothingBreaks(sch, acts) {
      forall k | 0 <= k <= |acts| ensures PauseOk(Run(sch, acts[..k])) { PauseAt(sch, acts, k); }
    }
    if k: nat :| k < |acts| && Breaks(Run(sch, acts[..k]), acts[k]) { BreakShows(sch, acts, k); }
  }

  lemma BreakShows(sch: Schedule, acts: seq<Act>, k: nat)
    requires k < |acts| && Breaks(Run(sch, acts[..k]), acts[k])
    ensures !PauseOk(Run(sch, acts[..k + 1]))
  {
    RunSplits(sch, acts, k);
  }

  /** A pause ends only by the operator's resume or by a marker written over it. */
  lemma PauseEndsOnlyBy(s: Sys, a: Act)
    requires s.row.node == Paused && Step(s, a).row.node != Paused
    ensures a.OperatorResume? || (a.WriteMarker? && At(s, a.p) == Holding)
  {
  }

  /** Nobody is admitted while the node is paused: a grant is given by an admitting decision on a node that is not. */
  lemma GrantedOnlyUnpaused(s: Sys, a: Act, p: Pid)
    requires At(s, p) != Granted && At(Step(s, a), p) == Granted
    ensures a == Decide(p, true) && s.row.node != Paused && At(s, p) == Out
  {
  }

  /** The operator's resume clears the pause, the counter and the backoff, and nothing else. */
  lemma ResumeClears(s: Sys)
    ensures var r := Step(s, OperatorResume).row;
      && r.node == Idle && r.failures == 0 && r.backoffUntil == None && r.lastFinished == s.row.lastFinished
      && Step(s, OperatorResume) == s.(row := r)
  {
  }

  /** Whoever was granted before the node was paused takes the lane all the same, and its success
      erases the pause. */
  lemma StaleGrantErasesPause(s: Sys, p: Pid, now: int)
    requires At(s, p) == Granted && s.holder.None? && s.row.node == Paused
    ensures var s1 := Step(s, Acquire(p));
      var s2 := Step(s1, WriteMarker(p));
      var s3 := Step(Step(s2, EndSession(p, false)), Account(p, now));
      s1.holder == Some(p) && s2.row.node == SessionRunning && s2.row.failures == s.row.failures
      && s3.row.node == Idle && s3.row.failures == 0
  {
  }

  /** How a grant goes stale: `q` is admitted, then `p`'s session fails once too often. */
  lemma GrantGoesStale(s: Sys, p: Pid, q: Pid, now: int)
    requires p != q && At(s, p) == Granted && At(s, q) == Granted && s.holder.None?
    requires s.row.failures + 1 >= s.schedule.maxFailures
    ensures var s1 := Step(Step(s, Acquire(p)), WriteMarker(p));
      var s2 := Step(Step(Step(s1, EndSession(p, true)), Account(p, now)), Release(p));
      At(s2, q) == Granted && s2.holder.None? && s2.row.node == Paused && s2.row.failures >= s.schedule.maxFailures
  {
  }

  lemma RunAppend(sch: Schedule, acts: seq<Act>, a: Act)
    ensures Run(sch, acts + [a]) == Step(Run(sch, acts), a)
  {
    assert (acts + [a])[..|acts|] == acts;
  }

  /** With one failure allowed, two processes admitted side by side are enough to break the pause. */
  lemma PauseBreaks(sch: Schedule) returns (acts: seq<Act>)
    requires sch.Valid() && sch.maxFailures == 1
    ensures !PauseOk(Run(sch, acts))
  {
    var a2 := [Decide(1, true)] + [Decide(2, true)];
    RunAppend(sch, [], Decide(1, true));
    assert [] + [Decide(1, true)] == [Decide(1, true)];
    RunAppend(sch, [Decide(1, true)], Decide(2, true));
    GrantGoesStale(Run(sch, a2), 1, 2, 0);
    var a3 := a2 + [Acquire(1)];
    RunAppend(sch, a2, Acquire(1));
    var a4 := a3 + [WriteMarker(1)];
    RunAppend(sch, a3, WriteMarker(1));
    var a5 := a4 + [EndSession(1, true)];
    RunAppend(sch, a4, EndSession(1, true));
    var a6 := a5 + [Account(1, 0)];
    RunAppend(sch, a5, Account(1, 0));
    var a7 := a6 + [Release(1)];
    RunAppend(sch, a6, Release(1));
    StaleGrantErasesPause(Run(sch, a7), 2, 1);
    var a8 := a7 + [Acquire(2)];
    RunAppend(sch, a7, Acquire(2));
    acts := a8 + [WriteMarker(2)];
    RunAppend(sch, a8, WriteMarker(2));
  }

  /** With two failures allowed, one failure and a configuration that allows one are enough, without any race. */
  lemma LoweringBreaks(sch: Schedule, next: Schedule) returns (acts: seq<Act>)
    requires sch.Valid() && sch.maxFailures == 2 && next.Valid() && next.maxFailures == 1
    ensures !PauseOk(Run(sch, acts)) && NoStaleMarker(sch, acts)
  {
    var a1 := [] + [Decide(1, true)];
    RunAppend(sch, [], Decide(1, true));
    var a2 := a1 + [Acquire(1)];
    RunAppend(sch, a1, Acquire(1));
    var a3 := a2 + [WriteMarker(1)];
    RunAppend(sch, a2, WriteMarker(1));
    var a4 := a3 + [EndSession(1, true)];
    RunAppend(sch, a3, EndSession(1, true));
    var a5 := a4 + [Account(1, 0)];
    RunAppend(sch, a4, Account(1, 0));
    acts := a5 + [Reschedule(next)];
    RunAppend(sch, a5, Reschedule(next));
    assert acts[..2] == a2;
    forall k | 0 <= k < |acts| ensures !StaleMarker(Run(sch, acts[..k]), acts[k]) {
      assert acts[k].WriteMarker? ==> k == 2;
    }
  }

  ghost predicate NoStaleMarker(sch: Schedule, acts: seq<Act>) {
    forall k :: 0 <= k < |acts| ==> !StaleMarker(Run(sch, acts[..k]), acts[k])
  }

  // ----- the guard and the tick as the program runs them -----

  /** The shared database: who holds the node's advisory lock, and the node's row. */
  class NodeDb {
    var holder: Option<Pid>
    var row: Row

    constructor ()
      ensures holder == None && row == NEW_NODE
    {
      holder, row := None, NEW_NODE;
    }

    method WriteMarker()
      modifies this`row
      ensures row == old(row).(node := SessionRunning)
    {
      row := row.(node := SessionRunning);
    }

    /** The outcome accounting, field by field as the transaction does it. */
    method RecordSessionResult(sch: Schedule, failed: bool, now: int) returns (node: Node)
      modifies this`row
      ensures row == Recorded(sch, old(row), failed, now) && node == row.node
      ensures IsRecorded(sch, old(row), failed, now, row)
    {
      var before := row.node;
      if failed {
        row := row.(failures := row.failures + 1, history := row.history + [Failed]);
        row := row.(backoffUntil := Some(now + BackoffDelay(sch, row.failures)));
      } else {
        row := row.(failures := 0, backoffUntil := None, history := row.history + [NotFailed]);
      }
      row := row.(lastFinished := Some(now));
      if failed && row.failures >= sch.maxFailures {
        row := row.(node := Paused);
      } else if before == Idle || before == SessionRunning {
        row := row.(node := Idle);
      }
      node := row.node;
    }
  }

  /** This process's hold on the lane. */
  class NodeSessionGuard {
    const me: Pid
    var held: bool

    constructor (me: Pid)
      ensures this.me == me && !held
    {
      this.me := me;
      held := false;
    }

    /** The guard and the database agree on who holds the lock. */
    ghost predicate Agrees(db: NodeDb) reads this, db { held <==> db.holder == Some(me) }

    /** Try-lock: idempotent while held, never waits. None when the database cannot say: the lane is not taken, and
        a lock the failed connection may have got goes with it. */
    method Acquire(db: NodeDb, reachable: bool) returns (got: Option<bool>)
      requires Agrees(db)
      modifies this, db`holder
      ensures Agrees(db) && (got == Some(true) <==> held)
      ensures got == if old(held) then Some(true) else if !reachable then None else Some(old(db.holder).None?)
      ensures db.holder == if got == Some(true) then Some(me) else old(db.holder)
    {
      if held { return Some(true); }
      if !reachable { return None; }
      if db.holder.Some? { return Some(false); }
      db.holder := Some(me);
      held := true;
      got := Some(true);
    }

    /** Idempotent release; another process's lock is left alone. */
    method Release(db: NodeDb)
      requires Agrees(db)
      modifies this, db`holder
      ensures Agrees(db) && !held
      ensures db.holder == if old(held) then None else old(db.holder)
    {
      if held {
        held := false;
        db.holder := None;
      }
    }
  }

  /** What one tick meets: the clock, a readable configuration, the rest of the admission list, the lock's database,
      the tool executor, an activation in flight, and how the session ends. */
  datatype TickEnv = TickEnv(now: int, later: int, configOk: bool, admitted: bool, reachable: bool, executorOk: bool,
                             activation: bool, final: Final)

  datatype Final = Succeeded | SucceededPartial | Cancelled | FailedSession

  predicate Wakes(sch: Schedule, r: Row, e: TickEnv) {
    ScheduleTiming(sch, e.now, r.lastFinished, r.backoffUntil) == Due && e.admitted && r.node != Paused
  }

  /** The tick gets as far as the free lane. */
  predicate GetsLane(sch: Schedule, r: Row, holder: Option<Pid>, e: TickEnv) {
    e.configOk && Wakes(sch, r, e) && e.reachable && holder.None?
  }

  /** The row one undisturbed tick leaves behind. */
  function TickRow(sch: Schedule, r: Row, holder: Option<Pid>, e: TickEnv): Row {
    if !GetsLane(sch, r, holder, e) || !e.executorOk then r
    else if e.activation then r.(node := SessionRunning)
    else Recorded(sch, r.(node := SessionRunning), e.final == FailedSession, e.later)
  }

  /** 78 is the fail-closed exit: a broken configuration, a lock that cannot be evaluated, no usable executor. */
  function TickCode(sch: Schedule, r: Row, holder: Option<Pid>, e: TickEnv): nat {
    if !e.configOk || (Wakes(sch, r, e) && !e.reachable) then 78
    else if !GetsLane(sch, r, holder, e) then 0
    else if !e.executorOk then 78
    else if !e.activation && (e.final == Cancelled || e.final == FailedSession) then 1
    else 0
  }

  predicate HasPassed(now: int, t: Option<int>, wait: nat) { t.Some? ==> t.value + wait <= now }

  /** Interval, gap and backoff are over, the other checks admit, and the node is not paused. */
  predicate MayWake(sch: Schedule, r: Row, e: TickEnv) {
    && HasPassed(e.now, r.lastFinished, sch.interval) && HasPassed(e.now, r.lastFinished, sch.minGap)
    && HasPassed(e.now, r.backoffUntil, 0) && e.admitted && r.node != Paused
  }

  /** A tick starts a session exactly then, on a readable configuration, a free lane and a working executor. */
  predicate Starts(sch: Schedule, r: Row, holder: Option<Pid>, e: TickEnv) {
    e.configOk && MayWake(sch, r, e) && e.reachable && holder.None? && e.executorOk
  }

  /** What a recorded outcome leaves in the row. */
  predicate IsRecorded(sch: Schedule, r: Row, failed: bool, now: int, after: Row) {
    && after.failures == (if failed then r.failures + 1 else 0)
    && after.backoffUntil == (if failed then Some(now + BackoffDelay(sch, r.failures + 1)) else None)
    && after.lastFinished == Some(now)
    && (after.node == Paused <==> r.node == Paused || (failed && r.failures + 1 >= sch.maxFailures))
    && after.node != SessionRunning
    && after.history == r.history + [if failed then Failed else NotFailed]
  }

  /** The reason a tick waits is the first that has not passed. */
  lemma WaitsFor(sch: Schedule, now: int, lastFinished: Option<int>, backoffUntil: Option<int>)
    ensures var w := ScheduleTiming(sch, now, lastFinished, backoffUntil);
      var interval, gap := HasPassed(now, lastFinished, sch.interval), HasPassed(now, lastFinished, sch.minGap);
      && (w == IntervalNotElapsed <==> !interval)
      && (w == MinGapNotElapsed <==> interval && !gap)
      && (w == BackoffActive <==> interval && gap && !HasPassed(now, backoffUntil, 0))
      && (w == Due <==> interval && gap && HasPassed(now, backoffUntil, 0))
  {
  }

  /** No session starts before the interval, the gap and the backoff have passed, or on a paused node. */
  lemma TickTells(sch: Schedule, r: Row, holder: Option<Pid>, e: TickEnv)
    ensures GetsLane(sch, r, holder, e) && e.executorOk <==> Starts(sch, r, holder, e)
    ensures !Starts(sch, r, holder, e) ==> TickRow(sch, r, holder, e) == r
    ensures Starts(sch, r, holder, e) && e.activation ==> TickRow(sch, r, holder, e) == r.(node := SessionRunning)
    ensures Starts(sch, r, holder, e) && !e.activation ==>
      IsRecorded(sch, r, e.final == FailedSession, e.later, TickRow(sch, r, holder, e))
    ensures TickCode(sch, r, holder, e) == 78 <==>
      !e.configOk || (MayWake(sch, r, e) && (!e.reachable || (holder.None? && !e.executorOk)))
    ensures TickCode(sch, r, holder, e) == 1 <==>
      Starts(sch, r, holder, e) && !e.activation && (e.final == Cancelled || e.final == FailedSession)
    ensures TickCode(sch, r, holder, e) in {0, 1, 78}
  {
    WaitsFor(sch, e.now, r.lastFinished, r.backoffUntil);
  }

  /** One scheduled tick. The lane is returned on every path, after the accounting, and an outcome is
      recorded exactly when the session ran. */
  method WakeTick(db: NodeDb, guard: NodeSessionGuard, sch: Schedule, e: TickEnv) returns (code: nat)
    requires !guard.held && guard.Agrees(db)
    modifies db, guard
    ensures !guard.held && db.holder == old(db.holder)
    ensures db.row == TickRow(sch, old(db.row), old(db.holder), e)
    ensures code == TickCode(sch, old(db.row), old(db.holder), e)
    ensures code == 1 ==>
      db.row.history == old(db.row.history) + [if e.final == FailedSession then Failed else NotFailed]
    ensures !Starts(sch, old(db.row), old(db.holder), e) ==> db.row == old(db.row)
    ensures Starts(sch, old(db.row), old(db.holder), e) && !e.activation ==>
      IsRecorded(sch, old(db.row), e.final == FailedSession, e.later, db.row)
  {
    TickTells(sch, db.row, db.holder, e);
    if !e.configOk { return 78; }
    if !Wakes(sch, db.row, e) { return 0; }
    var got := guard.Acquire(db, e.reachable);
    if got.None? { return 78; }
    if !got.value { return 0; }
    if !e.executorOk {
      guard.Release(db);
      return 78;
    }
    db.WriteMarker();
    if e.activation {
      guard.Release(db);
      return 0;
    }
    var node := db.RecordSessionResult(sch, e.final == FailedSession, e.later);
    guard.Release(db);
    code := if e.final == Succeeded || e.final == SucceededPartial then 0 else 1;
  }

  /** Failing closed never changes the node or the lane. */
  lemma FailsClosed(sch: Schedule, r: Row, holder: Option<Pid>, e: TickEnv)
    requires TickCode(sch, r, holder, e) == 78
    ensures TickRow(sch, r, holder, e) == r
  {
  }

  /** The tick's effect is that of the interleaved steps taken without interruption. */
  lemma TickIsTheSteps(s: Sys, p: Pid, e: TickEnv)
    requires At(s, p) == Out && GetsLane(s.schedule, s.row, s.holder, e) && e.executorOk && !e.activation
    ensures var s1 := Step(Step(Step(s, Decide(p, true)), Acquire(p)), WriteMarker(p));
      var s2 := Step(Step(Step(s1, EndSession(p, e.final == FailedSession)), Account(p, e.later)),
        Release(p));
      s2.row == TickRow(s.schedule, s.row, s.holder, e) && s2.holder.None? && At(s2, p) == Out
  {
  }
}
