/** The host transition journal and the resume probe under crashes
    (hostctl/journal.py, hostctl/resume.py, hostctl/admission.py).

    A disk is what the journal's directory holds. Every file publication (write to
    a temporary file, fsync, rename, fsync of the directory) is one atomic step, and
    the process may die after any of them. Hashes are free constructors, hence
    injective; a new attempt id is fresh; one process runs at a time. */
module HostJournal {
  import opened Basics

  type Id = nat

  datatype State = Checking | RetryWait | Resolved | ResumeBlocked | ResumeDegraded

  datatype Problem =
    | MultipleUnresolved | HeadPointsToMissing | HeadIdentityMismatch | IncompleteReplay
    | ConfigHead | UnresolvedTransition | PolicyChangeInProgress | StaleMarker | PolicyInvalid | DbUnavailable

  datatype Record = Record(attempt: Id, createdAt: nat, state: State, attemptsTotal: nat, unclassified: nat,
                           backoffStep: nat, error: Option<Problem>, lastEventSeq: nat, replayedThrough: nat)

  datatype Event = Event(attempt: Id, seqNo: nat, to: State, error: Option<Problem>, attemptsTotal: nat)

  /** The immutable part of a record, and the hash the head carries over it. */
  datatype Header = Header(attempt: Id, createdAt: nat, initial: Sha)

  datatype Sha = EmptySha | OfHeader(header: Header) | OfEvent(event: Event)

  datatype Head = Head(attempt: Id, header: Header, identity: Sha)

  datatype Disk = Disk(head: Option<Head>, records: map<Id, Record>, events: map<(Id, nat), Event>)

  const EMPTY := Disk(None, map[], map[])

  function HeaderOf(r: Record, initial: Sha): Header { Header(r.attempt, r.createdAt, initial) }

  function HeadFor(r: Record, initial: Sha): Head {
    Head(r.attempt, HeaderOf(r, initial), OfHeader(HeaderOf(r, initial)))
  }

  function Unresolved(d: Disk): set<Id> {
    set id | id in d.records && d.records[id].state != Resolved
  }

  function EventSeqs(d: Disk, id: Id): set<nat> {
    set e | e in d.events && e.0 == id :: e.1
  }

  // ----- reconciliation -----

  datatype Reconciled = Reconciled(headAttempt: Option<Id>, headValid: bool, problem: Option<Problem>)

  function OneTo(k: nat): (r: set<nat>)
    ensures |r| == k && forall s :: s in r <==> 1 <= s <= k
  {
    if k == 0 then {} else OneTo(k - 1) + {k}
  }

  /** The event stream is contiguous from 1 and the record has replayed all of it. */
  predicate ReplayComplete(d: Disk, r: Record) {
    var seqs := EventSeqs(d, r.attempt);
    seqs != {} && seqs == OneTo(|seqs|) && r.replayedThrough >= r.lastEventSeq
  }

  ghost predicate IsFirstSeq(d: Disk, id: Id, s: nat) { forall t :: t in EventSeqs(d, id) ==> s <= t }

  /** What the rebuilt head says about the first event. */
  ghost predicate IsInitialSha(d: Disk, id: Id, sha: Sha) {
    if EventSeqs(d, id) == {} then sha == EmptySha
    else exists s :: s in EventSeqs(d, id) && IsFirstSeq(d, id, s) && sha == OfEvent(d.events[(id, s)])
  }

  /** The head names an existing record and still carries its identity. */
  predicate HeadMatches(d: Disk, h: Head) {
    && h.attempt in d.records
    && h.header == HeaderOf(d.records[h.attempt], h.header.initial)
    && h.identity == OfHeader(h.header)
  }

  /** Reconciliation as a relation between the disk before and after and the report. */
  ghost predicate Reconciles(d: Disk, d': Disk, r: Reconciled) {
    match d.head
    case None =>
      if Unresolved(d) == {} then d' == d && r == Reconciled(None, false, None)
      else if |Unresolved(d)| == 1 then
        exists id, sha :: && Unresolved(d) == {id} && IsInitialSha(d, id, sha)
                          && d' == d.(head := Some(HeadFor(d.records[id], sha)))
                          && r == Reconciled(Some(d.records[id].attempt), false, None)
      else d' == d && r == Reconciled(None, false, Some(MultipleUnresolved))
    case Some(h) =>
      if h.attempt !in d.records then d' == d && r == Reconciled(Some(h.attempt), false, Some(HeadPointsToMissing))
      else if !HeadMatches(d, h) then d' == d && r == Reconciled(Some(h.attempt), false, Some(HeadIdentityMismatch))
      else if |Unresolved(d)| > 1 then d' == d && r == Reconciled(Some(h.attempt), false, Some(MultipleUnresolved))
      else if d.records[h.attempt].state == Resolved then
        if !ReplayComplete(d, d.records[h.attempt])
          then d' == d && r == Reconciled(Some(h.attempt), false, Some(IncompleteReplay))
        else d' == d.(head := None) && r == Reconciled(None, false, None)
      else d' == d && r == Reconciled(Some(h.attempt), true, None)
  }

  // ----- admission -----

  /** What one probe meets outside the journal: the database, the other admission conditions, a
      fresh attempt id and the clock. */
  datatype Env = Env(dbDown: bool, configOk: bool, policyHead: bool, staleMarker: bool, policyInvalid: bool,
                     newId: Id, now: nat)

  predicate Healthy(env: Env) {
    !env.dbDown && env.configOk && !env.policyHead && !env.staleMarker && !env.policyInvalid
  }

  function Reject(on: bool, p: Problem): seq<Problem> { if on then [p] else [] }

  /** The problems of an admission whose nested reconciliation reported `r`. */
  function AdmissionProblems(env: Env, r: Reconciled): seq<Problem> {
    Reject(!env.configOk, ConfigHead)
    + (if r.problem.Some? then [r.problem.value] else Reject(r.headAttempt.Some?, UnresolvedTransition))
    + Reject(env.policyHead, PolicyChangeInProgress)
    + Reject(env.staleMarker, StaleMarker)
    + Reject(env.policyInvalid, PolicyInvalid)
  }

  /** The admission check; a database outage aborts it before the nested reconciliation. */
  ghost predicate Admits(d: Disk, d': Disk, env: Env, problems: seq<Problem>) {
    if env.dbDown then d' == d && problems == [DbUnavailable]
    else exists r :: Reconciles(d, d', r) && problems == AdmissionProblems(env, r)
  }

  // ----- the probe's outcome and writes -----

  predicate Permanent(p: Problem) {
    p in {MultipleUnresolved, HeadIdentityMismatch, HeadPointsToMissing, PolicyChangeInProgress, PolicyInvalid,
      ConfigHead}
  }

  /** The first permanent problem, else the first problem. */
  function Dominant(problems: seq<Problem>): (p: Problem)
    requires problems != []
    ensures p in problems
    ensures (exists q :: q in problems && Permanent(q)) ==> Permanent(p)
  {
    if Permanent(problems[0]) || |problems| == 1 then problems[0]
    else
      var rest := Dominant(problems[1..]);
      if Permanent(rest) then rest else problems[0]
  }

  datatype Outcome = ResolvedOutcome | RetryOutcome | BlockedOutcome | DegradedOutcome

  /** Transient first: only a permanent inconsistency blocks. */
  function Classify(error: Option<Problem>): Outcome {
    match error
    case None => DegradedOutcome
    case Some(p) => if Permanent(p) then BlockedOutcome else RetryOutcome
  }

  function OutcomeOf(problems: seq<Problem>): Outcome {
    if problems == [] then ResolvedOutcome else Classify(Some(Dominant(problems)))
  }

  function StateOf(o: Outcome): State {
    match o
    case ResolvedOutcome => Resolved
    case RetryOutcome => RetryWait
    case BlockedOutcome => ResumeBlocked
    case DegradedOutcome => ResumeDegraded
  }

  function ErrorOf(problems: seq<Problem>): Option<Problem> {
    if problems == [] then None else Some(Dominant(problems))
  }

  /** The record a probe works on. */
  function RecordFor(d: Disk, attempt: Id, now: nat): Record {
    if attempt in d.records then d.records[attempt]
    else Record(attempt, now, Checking, 0, 0, 0, None, 0, 0)
  }

  function Probed(r: Record, problems: seq<Problem>): Record {
    var o := OutcomeOf(problems);
    r.(attemptsTotal := r.attemptsTotal + 1, error := ErrorOf(problems), state := StateOf(o),
       backoffStep := if o == RetryOutcome then r.backoffStep + 1 else r.backoffStep,
       unclassified := if o == DegradedOutcome then r.unclassified + 1
                       else if o == ResolvedOutcome then r.unclassified else 0)
  }

  function EventFor(r: Record): Event {
    Event(r.attempt, r.lastEventSeq + 1, r.state, r.error, r.attemptsTotal)
  }

  function Logged(r: Record): Record {
    r.(lastEventSeq := r.lastEventSeq + 1, replayedThrough := r.lastEventSeq + 1)
  }

  function WriteRecordTo(d: Disk, r: Record): Disk { d.(records := d.records[r.attempt := r]) }

  function WriteEventTo(d: Disk, e: Event): Disk { d.(events := d.events[(e.attempt, e.seqNo) := e]) }

  function WriteHeadIfNone(d: Disk, r: Record): Disk {
    if d.head.Some? then d else d.(head := Some(HeadFor(r, OfHeader(HeaderOf(r, EmptySha)))))
  }

  /** The disks a probe passes through after its two reconciliations, `rec` being the updated record. */
  function Writes(d: Disk, rec: Record): seq<Disk> {
    var d3 := WriteRecordTo(d, rec);
    var d4 := WriteEventTo(d3, EventFor(rec));
    var d5 := WriteRecordTo(d4, Logged(rec));
    [d3, d4, d5, WriteHeadIfNone(d5, rec)]
  }

  /** A whole probe: `trace` lists the disk at the start and after each publication. */
  ghost predicate Probe(d: Disk, env: Env, problems: seq<Problem>, trace: seq<Disk>) {
    exists d1, r, d2 :: ProbeBy(d, env, problems, trace, d1, r, d2)
  }

  function AttemptOf(r: Reconciled, env: Env): Id {
    if r.headAttempt.Some? then r.headAttempt.value else env.newId
  }

  ghost predicate ProbeBy(d: Disk, env: Env, problems: seq<Problem>, trace: seq<Disk>, d1: Disk, r: Reconciled,
      d2: Disk) {
    && Reconciles(d, d1, r)
    && Admits(d1, d2, env, problems)
    && trace == [d, d1, d2] + Writes(d2, Probed(RecordFor(d1, AttemptOf(r, env), env.now), problems))
  }

  // ----- the journal invariant -----

  ghost predicate EventsAre(d: Disk, id: Id, k: nat) {
    forall s :: (id, s) in d.events <==> 1 <= s <= k
  }

  /** The attempt's events are numbered 1..k, and k is the record's last number or one more. */
  ghost predicate StreamOk(d: Disk, id: Id)
    requires id in d.records
  {
    var r := d.records[id];
    && r.attempt == id && r.replayedThrough == r.lastEventSeq
    && (EventsAre(d, id, r.lastEventSeq) || EventsAre(d, id, r.lastEventSeq + 1))
  }

  ghost predicate HeadOk(d: Disk, h: Head) {
    && HeadMatches(d, h)
    && Unresolved(d) <= {h.attempt}
    && (d.records[h.attempt].state == Resolved ==>
          d.records[h.attempt].lastEventSeq > 0 && EventsAre(d, h.attempt, d.records[h.attempt].lastEventSeq))
  }

  ghost predicate Inv(d: Disk) {
    && (forall id :: id in d.records ==> StreamOk(d, id))
    && (forall e :: e in d.events ==> e.0 in d.records)
    && (forall i, j :: i in Unresolved(d) && j in Unresolved(d) ==> i == j)
    && (d.head.Some? ==> HeadOk(d, d.head.value))
  }

  ghost predicate Fresh(d: Disk, env: Env) { env.newId !in d.records }

  // ----- reconciliation keeps the invariant and reports no problem -----

  lemma ContiguousSeqs(d: Disk, id: Id, k: nat)
    requires EventsAre(d, id, k)
    ensures EventSeqs(d, id) == OneTo(k)
  {
    forall s | s in OneTo(k) ensures s in EventSeqs(d, id) { assert (id, s) in d.events; }
  }

  lemma AtMostOne(s: set<Id>)
    requires forall i, j :: i in s && j in s ==> i == j
    ensures |s| <= 1
  {
    if s != {} {
      var i :| i in s;
      assert s == {i};
    }
  }

  lemma ReconcileIsClean(d: Disk, d': Disk, r: Reconciled)
    requires Inv(d) && Reconciles(d, d', r)
    ensures r.problem == None && Inv(d')
    ensures r.headAttempt.Some? <==> Unresolved(d) != {}
    ensures r.headAttempt.Some? ==>
      Unresolved(d') == {r.headAttempt.value} && d'.head.Some? && d'.head.value.attempt == r.headAttempt.value
    ensures r.headAttempt.None? ==> d'.head.None?
    ensures d'.records == d.records && d'.events == d.events
  {
    AtMostOne(Unresolved(d));
    if d.head.Some? {
      var h := d.head.value;
      var rec := d.records[h.attempt];
      assert h.attempt in d.records ==> StreamOk(d, h.attempt);
      if rec.state == Resolved {
        ContiguousSeqs(d, h.attempt, rec.lastEventSeq);
        assert Unresolved(d) == {};
      } else {
        assert Unresolved(d) == {h.attempt};
      }
    } else if Unresolved(d) != {} {
      var id, sha :| && Unresolved(d) == {id} && IsInitialSha(d, id, sha)
                     && d' == d.(head := Some(HeadFor(d.records[id], sha)))
                     && r == Reconciled(Some(d.records[id].attempt), false, None);
      assert StreamOk(d, id);
    }
    assert Unresolved(d') == Unresolved(d);
    forall id | id in d'.records ensures StreamOk(d', id) { assert StreamOk(d, id); }
  }

  /** The replay of an attempt is complete: its events are 1..k for some k > 0, and the record has seen its last. */
  ghost predicate IsReplayed(d: Disk, r: Record) {
    (exists k: nat :: k > 0 && EventsAre(d, r.attempt, k)) && r.lastEventSeq <= r.replayedThrough
  }

  lemma ReplayCompleteIff(d: Disk, r: Record)
    ensures ReplayComplete(d, r) <==> IsReplayed(d, r)
  {
    var seqs := EventSeqs(d, r.attempt);
    if ReplayComplete(d, r) {
      forall s: nat ensures (r.attempt, s) in d.events <==> 1 <= s <= |seqs| {
        assert (r.attempt, s) in d.events <==> s in seqs;
      }
      assert EventsAre(d, r.attempt, |seqs|);
    }
    if k: nat :| k > 0 && EventsAre(d, r.attempt, k) {
      ContiguousSeqs(d, r.attempt, k);
      assert k in OneTo(k);
    }
  }

  /** Two attempts are open at once. */
  ghost predicate TwoOpen(d: Disk) { exists i, j :: i in Unresolved(d) && j in Unresolved(d) && i != j }

  lemma TwoOpenIff(d: Disk)
    ensures |Unresolved(d)| > 1 <==> TwoOpen(d)
  {
    var open := Unresolved(d);
    if TwoOpen(d) {
      var i, j :| i in open && j in open && i != j;
      assert {i, j} <= open && |{i, j}| == 2;
      SubsetSize({i, j}, open);
    } else {
      AtMostOne(open);
    }
  }

  /** The head's record is there and the head carries its attempt, its creation time and the hash of its own header. */
  predicate Agrees(d: Disk, h: Head) {
    && h.attempt in d.records && h.header.attempt == d.records[h.attempt].attempt
    && h.header.createdAt == d.records[h.attempt].createdAt && h.identity == OfHeader(h.header)
  }

  /** What reconciliation reports on any disk whatever, damaged ones included, and that it writes only the head. */
  lemma ReconcileTells(d: Disk, d': Disk, r: Reconciled)
    requires Reconciles(d, d', r)
    ensures r.problem == Some(HeadPointsToMissing) <==> d.head.Some? && d.head.value.attempt !in d.records
    ensures r.problem == Some(HeadIdentityMismatch) <==>
      d.head.Some? && d.head.value.attempt in d.records && !Agrees(d, d.head.value)
    ensures r.problem == Some(MultipleUnresolved) <==> (d.head.Some? ==> Agrees(d, d.head.value)) && TwoOpen(d)
    ensures r.problem == Some(IncompleteReplay) <==>
      && d.head.Some? && Agrees(d, d.head.value) && !TwoOpen(d)
      && d.records[d.head.value.attempt].state == Resolved && !IsReplayed(d, d.records[d.head.value.attempt])
    ensures r.problem.Some? ==> d' == d && !r.headValid
    ensures d' == d.(head := d'.head)
  {
    TwoOpenIff(d);
    if d.head.Some? && d.head.value.attempt in d.records { ReplayCompleteIff(d, d.records[d.head.value.attempt]); }
  }

  /** Reconciling again changes nothing and names the same attempt. */
  lemma ReconcileIsIdempotent(d: Disk, d1: Disk, r1: Reconciled, d2: Disk, r2: Reconciled)
    requires Inv(d) && Reconciles(d, d1, r1) && Reconciles(d1, d2, r2)
    ensures d2 == d1 && r2.headAttempt == r1.headAttempt && r2.problem == None
  {
    ReconcileIsClean(d, d1, r1);
    ReconcileIsClean(d1, d2, r2);
  }

  // ----- every publication of a probe keeps the invariant -----

  /** The updated record may be published: it continues the head's attempt, or opens a new one
      while nothing is unresolved. */
  ghost predicate Ready(d: Disk, rec: Record) {
    && rec.replayedThrough == rec.lastEventSeq
    && (rec.attempt in d.records ==>
          && d.records[rec.attempt].createdAt == rec.createdAt
          && d.records[rec.attempt].lastEventSeq == rec.lastEventSeq
          && d.head.Some? && d.head.value.attempt == rec.attempt
          && Unresolved(d) == {rec.attempt} && rec.state != Resolved)
    && (rec.attempt !in d.records ==> rec.lastEventSeq == 0 && d.head.None? && Unresolved(d) == {})
  }

  lemma StreamsElsewhere(d: Disk, d': Disk, a: Id)
    requires Inv(d)
    requires forall id :: id != a ==>
      (id in d'.records <==> id in d.records) && (id in d.records ==> d'.records[id] == d.records[id])
    requires forall e: (Id, nat) :: e.0 != a ==> (e in d'.events <==> e in d.events)
    ensures forall id :: id in d'.records && id != a ==> StreamOk(d', id)
  {
    forall id | id in d'.records && id != a ensures StreamOk(d', id) {
      assert StreamOk(d, id);
      forall s: nat ensures (id, s) in d'.events <==> (id, s) in d.events { assert (id, s).0 != a; }
    }
  }

  lemma AfterRecord(d: Disk, rec: Record)
    requires Inv(d) && Ready(d, rec)
    ensures Inv(WriteRecordTo(d, rec))
  {
    var d' := WriteRecordTo(d, rec);
    StreamsElsewhere(d, d', rec.attempt);
    assert StreamOk(d', rec.attempt) by {
      if rec.attempt in d.records {
        assert StreamOk(d, rec.attempt);
        var k := if EventsAre(d, rec.attempt, rec.lastEventSeq) then rec.lastEventSeq else rec.lastEventSeq + 1;
        assert EventsAre(d, rec.attempt, k);
        assert EventsAre(d', rec.attempt, k);
      } else {
        assert EventsAre(d', rec.attempt, 0);
      }
    }
    assert Unresolved(d') <= Unresolved(d) + {rec.attempt};
  }

  lemma AfterEvent(d: Disk, rec: Record)
    requires Inv(d) && rec.attempt in d.records && d.records[rec.attempt] == rec
    requires d.head.Some? ==> rec.state != Resolved && d.head.value.attempt == rec.attempt
    ensures Inv(WriteEventTo(d, EventFor(rec)))
    ensures EventsAre(WriteEventTo(d, EventFor(rec)), rec.attempt, rec.lastEventSeq + 1)
  {
    var d' := WriteEventTo(d, EventFor(rec));
    assert StreamOk(d, rec.attempt);
    forall s: nat ensures (rec.attempt, s) in d'.events <==> 1 <= s <= rec.lastEventSeq + 1 {
      assert (rec.attempt, s) in d'.events <==> (rec.attempt, s) in d.events || s == rec.lastEventSeq + 1;
    }
    StreamsElsewhere(d, d', rec.attempt);
    assert Unresolved(d') == Unresolved(d);
  }

  lemma AfterLog(d: Disk, rec: Record)
    requires Inv(d) && rec.attempt in d.records && d.records[rec.attempt] == rec
    requires EventsAre(d, rec.attempt, rec.lastEventSeq + 1)
    requires d.head.Some? ==> rec.state != Resolved && d.head.value.attempt == rec.attempt
    ensures Inv(WriteRecordTo(d, Logged(rec)))
  {
    var d' := WriteRecordTo(d, Logged(rec));
    StreamsElsewhere(d, d', rec.attempt);
    assert EventsAre(d', rec.attempt, rec.lastEventSeq + 1);
    assert StreamOk(d', rec.attempt);
    assert Unresolved(d') == Unresolved(d);
  }

  lemma AfterHead(d: Disk, rec: Record)
    requires Inv(d) && rec.attempt in d.records && d.records[rec.attempt] == Logged(rec)
    requires EventsAre(d, rec.attempt, rec.lastEventSeq + 1)
    requires d.head.None? ==> Unresolved(d) <= {rec.attempt}
    ensures Inv(WriteHeadIfNone(d, rec))
  {
    var d' := WriteHeadIfNone(d, rec);
    assert Unresolved(d') == Unresolved(d);
    forall id | id in d'.records ensures StreamOk(d', id) { assert StreamOk(d, id); }
    assert EventsAre(d', rec.attempt, rec.lastEventSeq + 1);
  }

  /** Each of the four writes leaves a disk the next boot can live with. */
  lemma WritesKeepInv(d: Disk, rec: Record)
    requires Inv(d) && Ready(d, rec)
    ensures forall i :: 0 <= i < 4 ==> Inv(Writes(d, rec)[i])
    ensures forall i :: 0 <= i < 4 ==>
      rec.attempt in Writes(d, rec)[i].records && Writes(d, rec)[i].records[rec.attempt].state == rec.state
    ensures forall i, id :: 0 <= i < 4 && id in d.records && id != rec.attempt ==>
      id in Writes(d, rec)[i].records && Writes(d, rec)[i].records[id] == d.records[id]
  {
    var ds := Writes(d, rec);
    AfterRecord(d, rec);
    AfterEvent(ds[0], rec);
    AfterLog(ds[1], rec);
    assert EventsAre(ds[2], rec.attempt, rec.lastEventSeq + 1);
    assert Unresolved(ds[2]) <= Unresolved(d) + {rec.attempt};
    AfterHead(ds[2], rec);
  }

  // ----- whole probes -----

  /** What the reconciliations of a probe establish before its writes. */
  lemma ProbeIsReady(d: Disk, env: Env, problems: seq<Problem>, trace: seq<Disk>, d1: Disk, r: Reconciled, d2: Disk)
    requires Inv(d) && Fresh(d, env) && ProbeBy(d, env, problems, trace, d1, r, d2)
    ensures d2 == d1 && Inv(d1) && d1.records == d.records && d1.events == d.events
    ensures Ready(d1, Probed(RecordFor(d1, AttemptOf(r, env), env.now), problems))
    ensures problems == [] <==> Unresolved(d) == {} && Healthy(env)
    ensures Unresolved(d) != {} ==> r.headAttempt.Some? && Unresolved(d) == {r.headAttempt.value}
    ensures Unresolved(d) == {} ==> AttemptOf(r, env) == env.newId
  {
    ReconcileIsClean(d, d1, r);
    if !env.dbDown {
      var r2 :| Reconciles(d1, d2, r2) && problems == AdmissionProblems(env, r2);
      ReconcileIsIdempotent(d, d1, r, d2, r2);
    }
    assert Unresolved(d1) == Unresolved(d);
    if r.headAttempt.Some? {
      assert StreamOk(d1, r.headAttempt.value);
    }
  }

  /** At every point where the process may die, the invariant holds. */
  lemma ProbeKeepsInv(d: Disk, env: Env, problems: seq<Problem>, trace: seq<Disk>)
    requires Inv(d) && Fresh(d, env) && Probe(d, env, problems, trace)
    ensures forall i :: 0 <= i < |trace| ==> Inv(trace[i])
  {
    var d1, r, d2 :| ProbeBy(d, env, problems, trace, d1, r, d2);
    ProbeIsReady(d, env, problems, trace, d1, r, d2);
    var rec := Probed(RecordFor(d1, AttemptOf(r, env), env.now), problems);
    WritesKeepInv(d1, rec);
    forall i | 0 <= i < |trace| ensures Inv(trace[i]) {
      assert i >= 3 ==> trace[i] == Writes(d2, rec)[i - 3];
    }
  }

  /** Exactly when a probe resolves: nothing was unresolved and the outside world is healthy. */
  lemma ProbeResolvesIff(d: Disk, env: Env, problems: seq<Problem>, trace: seq<Disk>)
    requires Inv(d) && Fresh(d, env) && Probe(d, env, problems, trace)
    ensures OutcomeOf(problems) == ResolvedOutcome <==> Unresolved(d) == {} && Healthy(env)
  {
    var d1, r, d2 :| ProbeBy(d, env, problems, trace, d1, r, d2);
    ProbeIsReady(d, env, problems, trace, d1, r, d2);
  }

  /** An unresolved attempt stays unresolved through every later probe and crash. */
  lemma UnresolvedStays(d: Disk, env: Env, problems: seq<Problem>, trace: seq<Disk>, a: Id)
    requires Inv(d) && Fresh(d, env) && Probe(d, env, problems, trace) && a in Unresolved(d)
    ensures forall i :: 0 <= i < |trace| ==> a in Unresolved(trace[i])
  {
    var d1, r, d2 :| ProbeBy(d, env, problems, trace, d1, r, d2);
    ProbeIsReady(d, env, problems, trace, d1, r, d2);
    var rec := Probed(RecordFor(d1, AttemptOf(r, env), env.now), problems);
    WritesKeepInv(d1, rec);
    forall i | 0 <= i < |trace| ensures a in Unresolved(trace[i]) {
      assert i >= 3 ==> trace[i] == Writes(d2, rec)[i - 3];
    }
  }

  // ----- what a probe answers and leaves behind -----

  /** The attempt a probe is about: the unresolved one, or a new one. */
  predicate IsAbout(d: Disk, env: Env, a: Id) {
    (a in d.records && d.records[a].state != Resolved)
      || (a == env.newId && forall id :: id in d.records ==> d.records[id].state == Resolved)
  }

  /** Permanent troubles first, then the attempt's own head, then the leftover marker; a silent database hides all. */
  function Trouble(env: Env, open: bool): Option<Problem> {
    if env.dbDown then Some(DbUnavailable)
    else if !env.configOk then Some(ConfigHead)
    else if env.policyHead then Some(PolicyChangeInProgress)
    else if env.policyInvalid then Some(PolicyInvalid)
    else if open then Some(UnresolvedTransition)
    else if env.staleMarker then Some(StaleMarker)
    else None
  }

  /** The outcome, and the whole disk the probe leaves, from the disk before and the outside world. */
  ghost predicate Answers(d: Disk, env: Env, a: Id, o: Outcome, d': Disk) {
    var was := if a in d.records then d.records[a] else Record(a, env.now, Checking, 0, 0, 0, None, 0, 0);
    var error := Trouble(env, a in d.records);
    var state := if o == ResolvedOutcome then Resolved else if o == BlockedOutcome then ResumeBlocked else RetryWait;
    var step, n := was.backoffStep + (if o == RetryOutcome then 1 else 0), was.lastEventSeq + 1;
    && (o == ResolvedOutcome <==> error.None?)
    && (o == BlockedOutcome <==> !env.dbDown && (!env.configOk || env.policyHead || env.policyInvalid))
    && (o == RetryOutcome <==> o != ResolvedOutcome && o != BlockedOutcome)
    && d'.records == d.records[a := Record(a, was.createdAt, state, was.attemptsTotal + 1, 0, step, error, n, n)]
    && d'.events == d.events[(a, n) := Event(a, n, state, error, was.attemptsTotal + 1)]
    && d'.head.Some? && d'.head.value.attempt == a && d'.head.value.header.createdAt == was.createdAt
  }

  lemma AdmissionTells(env: Env, r: Reconciled)
    requires r.problem.None?
    ensures var problems := AdmissionProblems(env, r);
      problems != [] ==> Some(Dominant(problems)) == Trouble(env.(dbDown := false), r.headAttempt.Some?)
    ensures AdmissionProblems(env, r) == [] <==> Trouble(env.(dbDown := false), r.headAttempt.Some?).None?
  {
  }

  /** What the two reconciliations of a probe settle: its attempt and its trouble. */
  lemma ProbeSettles(d: Disk, env: Env, problems: seq<Problem>, trace: seq<Disk>, d1: Disk, r: Reconciled, d2: Disk)
    requires Inv(d) && Fresh(d, env) && ProbeBy(d, env, problems, trace, d1, r, d2)
    ensures var a := AttemptOf(r, env);
      IsAbout(d, env, a) && ErrorOf(problems) == Trouble(env, a in d.records)
    ensures d2.head.Some? ==> d2.head.value.attempt == AttemptOf(r, env)
    ensures d2.head.Some? ==> HeadOk(d2, d2.head.value)
  {
    ReconcileIsClean(d, d1, r);
    assert Unresolved(d) == {} ==> forall id :: id in d.records ==> id !in Unresolved(d);
    assert r.headAttempt.Some? ==> r.headAttempt.value in Unresolved(d1) && Unresolved(d1) == Unresolved(d);
    if !env.dbDown {
      var r2 :| Reconciles(d1, d2, r2) && problems == AdmissionProblems(env, r2);
      ReconcileIsIdempotent(d, d1, r, d2, r2);
      AdmissionTells(env, r2);
    }
  }

  lemma TroubleDecides(env: Env, open: bool, problems: seq<Problem>)
    requires ErrorOf(problems) == Trouble(env, open)
    ensures OutcomeOf(problems) == ResolvedOutcome <==> Trouble(env, open).None?
    ensures OutcomeOf(problems) == BlockedOutcome
       <==> !env.dbDown && (!env.configOk || env.policyHead || env.policyInvalid)
    ensures OutcomeOf(problems) != DegradedOutcome
  {
  }

  lemma WritesAnswer(d: Disk, env: Env, a: Id, problems: seq<Problem>, d2: Disk)
    requires ErrorOf(problems) == Trouble(env, a in d.records)
    requires a in d.records ==> d.records[a].attempt == a && d.records[a].state != Resolved
    requires a in d.records ==> d.records[a].replayedThrough == d.records[a].lastEventSeq
    requires d2.records == d.records && d2.events == d.events
    requires d2.head.Some? ==> d2.head.value.attempt == a && HeadOk(d2, d2.head.value)
    ensures Answers(d, env, a, OutcomeOf(problems), Writes(d2, Probed(RecordFor(d, a, env.now), problems))[3])
  {
    TroubleDecides(env, a in d.records, problems);
    var rec := Probed(RecordFor(d, a, env.now), problems);
    var d' := Writes(d2, rec)[3];
    assert d'.records == d.records[a := Logged(rec)];
    assert d'.events == d.events[(a, rec.lastEventSeq + 1) := EventFor(rec)];
  }

  ghost predicate Answered(d: Disk, env: Env, o: Outcome, d': Disk) {
    exists a :: IsAbout(d, env, a) && Answers(d, env, a, o, d')
  }

  lemma ProbeByAnswers(d: Disk, env: Env, problems: seq<Problem>, trace: seq<Disk>, d1: Disk, r: Reconciled, d2: Disk)
    requires Inv(d) && Fresh(d, env) && ProbeBy(d, env, problems, trace, d1, r, d2)
    ensures Answered(d, env, OutcomeOf(problems), trace[6])
  {
    ProbeIsReady(d, env, problems, trace, d1, r, d2);
    ProbeSettles(d, env, problems, trace, d1, r, d2);
    var a := AttemptOf(r, env);
    assert a in d.records ==> StreamOk(d, a);
    WritesAnswer(d, env, a, problems, d2);
  }

  /** What every probe on a valid disk answers and leaves behind. */
  lemma ProbeAnswers(d: Disk, env: Env, problems: seq<Problem>, trace: seq<Disk>)
    requires Inv(d) && Fresh(d, env) && Probe(d, env, problems, trace)
    ensures Answered(d, env, OutcomeOf(problems), trace[6])
  {
    var d1, r, d2 :| ProbeBy(d, env, problems, trace, d1, r, d2);
    ProbeByAnswers(d, env, problems, trace, d1, r, d2);
  }

  // ----- whole runs -----

  /** One probe from `d`, cut off after any publication or run to its end. */
  ghost predicate CrashStep(d: Disk, env: Env, d': Disk) {
    Fresh(d, env) && exists problems, trace :: Probe(d, env, problems, trace) && d' in trace
  }

  ghost predicate StepAt(run: seq<Disk>, envs: seq<Env>, i: nat) {
    i < |envs| && i + 1 < |run| && CrashStep(run[i], envs[i], run[i + 1])
  }

  ghost predicate IsRun(run: seq<Disk>, envs: seq<Env>) {
    && |run| == |envs| + 1 && run[0] == EMPTY
    && forall i {:trigger StepAt(run, envs, i)} :: 0 <= i < |envs| ==> StepAt(run, envs, i)
  }

  lemma CrashStepKeeps(d: Disk, env: Env, d': Disk)
    requires Inv(d) && CrashStep(d, env, d')
    ensures Inv(d') && Unresolved(d) <= Unresolved(d')
  {
    var problems, trace :| Probe(d, env, problems, trace) && d' in trace;
    ProbeKeepsInv(d, env, problems, trace);
    forall a | a in Unresolved(d) ensures a in Unresolved(d') {
      UnresolvedStays(d, env, problems, trace, a);
    }
  }

  /** From an empty journal, through any probes and crashes, the invariant never breaks. */
  lemma {:induction false} RunsKeepInv(run: seq<Disk>, envs: seq<Env>, n: nat)
    requires IsRun(run, envs) && n < |run|
    ensures Inv(run[n])
  {
    if n > 0 {
      RunsKeepInv(run, envs, n - 1);
      assert StepAt(run, envs, n - 1);
      CrashStepKeeps(run[n - 1], envs[n - 1], run[n]);
    }
  }

  /** What the invariant says of any reachable disk: at most one unresolved attempt; a head that names an existing
      record of the same identity; and a reconciliation without a problem. */
  lemma ReachableJournal(run: seq<Disk>, envs: seq<Env>, n: nat, d': Disk, r: Reconciled)
    requires IsRun(run, envs) && n < |run| && Reconciles(run[n], d', r)
    ensures |Unresolved(run[n])| <= 1
    ensures run[n].head.Some? ==> HeadMatches(run[n], run[n].head.value)
    ensures r.problem == None
  {
    RunsKeepInv(run, envs, n);
    AtMostOne(Unresolved(run[n]));
    ReconcileIsClean(run[n], d', r);
  }

  /** ... and of every attempt on it: event numbers 1..k with k the record's last number or one more. */
  lemma ReachableStream(run: seq<Disk>, envs: seq<Env>, n: nat, id: Id)
    requires IsRun(run, envs) && n < |run| && id in run[n].records
    ensures var last := run[n].records[id].lastEventSeq;
      EventsAre(run[n], id, last) || EventsAre(run[n], id, last + 1)
  {
    RunsKeepInv(run, envs, n);
    assert StreamOk(run[n], id);
  }

  /** ... and of every probe on it: its outcome and the disk it leaves. */
  lemma ReachableProbe(run: seq<Disk>, envs: seq<Env>, n: nat, problems: seq<Problem>, trace: seq<Disk>)
    requires IsRun(run, envs) && n < |envs| && Probe(run[n], envs[n], problems, trace)
    ensures Answered(run[n], envs[n], OutcomeOf(problems), trace[6])
  {
    RunsKeepInv(run, envs, n);
    assert StepAt(run, envs, n);
    ProbeAnswers(run[n], envs[n], problems, trace);
  }

  /** Once an attempt is unresolved, no later point of the run resolves it. */
  lemma {:induction false} StuckForever(run: seq<Disk>, envs: seq<Env>, m: nat, n: nat, a: Id)
    requires IsRun(run, envs) && m <= n < |run| && a in Unresolved(run[m])
    ensures a in Unresolved(run[n])
  {
    if m < n {
      StuckForever(run, envs, m, n - 1, a);
      NothingIsResolved(run, envs, n - 1);
    }
  }

  lemma NothingIsResolved(run: seq<Disk>, envs: seq<Env>, i: nat)
    requires IsRun(run, envs) && i < |envs|
    ensures Unresolved(run[i]) <= Unresolved(run[i + 1])
  {
    RunsKeepInv(run, envs, i);
    assert StepAt(run, envs, i);
    CrashStepKeeps(run[i], envs[i], run[i + 1]);
  }

  /** ... and no later probe reports that it resolved: it sees its own head and is refused. */
  lemma NoLaterProbeResolves(run: seq<Disk>, envs: seq<Env>, m: nat, n: nat, a: Id, problems: seq<Problem>,
      trace: seq<Disk>)
    requires IsRun(run, envs) && m <= n < |envs| && a in Unresolved(run[m])
    requires Probe(run[n], envs[n], problems, trace)
    ensures OutcomeOf(problems) != ResolvedOutcome
  {
    StuckForever(run, envs, m, n, a);
    RunsKeepInv(run, envs, n);
    assert StepAt(run, envs, n);
    ProbeResolvesIff(run[n], envs[n], problems, trace);
  }

  // ----- event files are not immutable -----

  /** No event is ahead of its record's count of attempts. */
  ghost predicate CountsOk(d: Disk) {
    forall e :: e in d.events ==> e.0 in d.records && d.events[e].attemptsTotal <= d.records[e.0].attemptsTotal
  }

  lemma WritesKeepCounts(d: Disk, rec: Record)
    requires CountsOk(d) && (rec.attempt in d.records ==> d.records[rec.attempt].attemptsTotal <= rec.attemptsTotal)
    ensures forall i :: 0 <= i < 4 ==> CountsOk(Writes(d, rec)[i])
  {
  }

  lemma ProbeKeepsCounts(d: Disk, env: Env, problems: seq<Problem>, trace: seq<Disk>)
    requires Inv(d) && CountsOk(d) && Fresh(d, env) && Probe(d, env, problems, trace)
    ensures forall i :: 0 <= i < |trace| ==> CountsOk(trace[i])
  {
    var d1, r, d2 :| ProbeBy(d, env, problems, trace, d1, r, d2);
    ProbeIsReady(d, env, problems, trace, d1, r, d2);
    var rec := Probed(RecordFor(d1, AttemptOf(r, env), env.now), problems);
    WritesKeepCounts(d1, rec);
    forall i | 0 <= i < |trace| ensures CountsOk(trace[i]) { assert i >= 3 ==> trace[i] == Writes(d2, rec)[i - 3]; }
  }

  lemma CrashStepKeepsCounts(d: Disk, env: Env, d': Disk)
    requires Inv(d) && CountsOk(d) && CrashStep(d, env, d')
    ensures CountsOk(d')
  {
    var problems, trace :| Probe(d, env, problems, trace) && d' in trace;
    ProbeKeepsCounts(d, env, problems, trace);
  }

  lemma {:induction false} RunsKeepCounts(run: seq<Disk>, envs: seq<Env>, n: nat)
    requires IsRun(run, envs) && n < |run|
    ensures CountsOk(run[n])
  {
    if n > 0 {
      RunsKeepCounts(run, envs, n - 1);
      RunsKeepInv(run, envs, n - 1);
      StepKeepsCounts(run, envs, n - 1);
    }
  }

  lemma StepKeepsCounts(run: seq<Disk>, envs: seq<Env>, i: nat)
    requires StepAt(run, envs, i) && Inv(run[i]) && CountsOk(run[i])
    ensures CountsOk(run[i + 1])
  {
    CrashStepKeepsCounts(run[i], envs[i], run[i + 1]);
  }

  /** The attempt's newest event is not in its record yet: the last probe died between the two. */
  ghost predicate IsTorn(d: Disk, a: Id) { a in d.records && EventsAre(d, a, d.records[a].lastEventSeq + 1) }

  ghost predicate Changes(d: Disk, d': Disk, e: (Id, nat)) {
    e in d.events && (e in d'.events ==> d'.events[e] != d.events[e])
  }

  /** The one event file a probe writes. */
  lemma ProbeWritesOneEvent(d: Disk, env: Env, problems: seq<Problem>, trace: seq<Disk>, d1: Disk, r: Reconciled,
      d2: Disk)
    requires Inv(d) && Fresh(d, env) && ProbeBy(d, env, problems, trace, d1, r, d2)
    ensures var a := AttemptOf(r, env);
      var rec := Probed(RecordFor(d, a, env.now), problems);
      trace[6].events == d.events[(a, rec.lastEventSeq + 1) := EventFor(rec)]
  {
    ProbeIsReady(d, env, problems, trace, d1, r, d2);
  }

  lemma TornIff(d: Disk, a: Id)
    requires Inv(d) && a in d.records
    ensures IsTorn(d, a) <==> (a, d.records[a].lastEventSeq + 1) in d.events
  {
    assert StreamOk(d, a);
  }

  /** A probe changes the content of a published event file if and only if the last probe of its attempt died between
      publishing its event and its record; then it is the attempt's newest event, and no other file changes. */
  lemma EventReplacedIff(d: Disk, env: Env, problems: seq<Problem>, trace: seq<Disk>, d1: Disk, r: Reconciled, d2: Disk)
    requires Inv(d) && CountsOk(d) && Fresh(d, env) && ProbeBy(d, env, problems, trace, d1, r, d2)
    ensures IsTorn(d, AttemptOf(r, env)) <==> exists e :: Changes(d, trace[6], e)
    ensures forall e :: Changes(d, trace[6], e) ==>
      e == (AttemptOf(r, env), RecordFor(d, AttemptOf(r, env), env.now).lastEventSeq + 1)
  {
    ProbeWritesOneEvent(d, env, problems, trace, d1, r, d2);
    NewEventChanges(d, trace[6], AttemptOf(r, env), env.now, problems);
  }

  lemma NewEventChanges(d: Disk, d': Disk, a: Id, now: nat, problems: seq<Problem>)
    requires Inv(d) && CountsOk(d)
    requires var rec := Probed(RecordFor(d, a, now), problems);
      d'.events == d.events[(a, rec.lastEventSeq + 1) := EventFor(rec)]
    ensures IsTorn(d, a) <==> exists e :: Changes(d, d', e)
    ensures forall e :: Changes(d, d', e) ==> e == (a, RecordFor(d, a, now).lastEventSeq + 1)
  {
    var key: (Id, nat) := (a, RecordFor(d, a, now).lastEventSeq + 1);
    assert d'.events[key].attemptsTotal == RecordFor(d, a, now).attemptsTotal + 1;
    if a in d.records { TornIff(d, a); }
    UpdateChanges(d, d', key);
  }

  lemma UpdateChanges(d: Disk, d': Disk, key: (Id, nat))
    requires key in d'.events && d'.events == d.events[key := d'.events[key]]
    requires key in d.events ==> d'.events[key].attemptsTotal > d.events[key].attemptsTotal
    ensures key in d.events <==> exists e :: Changes(d, d', e)
    ensures forall e :: Changes(d, d', e) ==> e == key
  {
    assert key in d.events ==> Changes(d, d', key);
  }

  /** So over a whole run: a probe changes a published event file exactly after such a crash. */
  lemma EventsChangeIff(run: seq<Disk>, envs: seq<Env>, n: nat, problems: seq<Problem>, trace: seq<Disk>,
                        d1: Disk, r: Reconciled, d2: Disk)
    requires IsRun(run, envs) && n < |envs| && ProbeBy(run[n], envs[n], problems, trace, d1, r, d2)
    ensures (exists e :: Changes(run[n], trace[6], e)) <==> IsTorn(run[n], AttemptOf(r, envs[n]))
  {
    RunsKeepInv(run, envs, n);
    RunsKeepCounts(run, envs, n);
    assert StepAt(run, envs, n);
    EventReplacedIff(run[n], envs[n], problems, trace, d1, r, d2);
  }

  lemma ProbeGivesStep(d: Disk, env: Env, problems: seq<Problem>, trace: seq<Disk>, d1: Disk, r: Reconciled, d2: Disk,
      i: nat)
    requires Fresh(d, env) && ProbeBy(d, env, problems, trace, d1, r, d2) && i < |trace|
    ensures CrashStep(d, env, trace[i])
  {
    assert Probe(d, env, problems, trace);
  }

  /** The disk a first probe leaves when the database is down and it dies right after its event. */
  const TORN := Writes(EMPTY, Probed(RecordFor(EMPTY, 7, 0), [DbUnavailable]))[1]

  const FIRST := Env(true, true, false, false, false, 7, 0)
  const SECOND := Env(false, false, false, false, false, 8, 1)

  lemma TornIsReachable()
    ensures CrashStep(EMPTY, FIRST, TORN)
  {
    var t := [EMPTY, EMPTY, EMPTY] + Writes(EMPTY, Probed(RecordFor(EMPTY, 7, 0), [DbUnavailable]));
    assert Unresolved(EMPTY) == {};
    ProbeGivesStep(EMPTY, FIRST, [DbUnavailable], t, EMPTY, Reconciled(None, false, None), EMPTY, 4);
  }

  lemma TornReconciles() returns (a: Disk, b: Disk)
    ensures a == TORN && Fresh(a, SECOND)
    ensures Reconciles(a, b, Reconciled(Some(7), false, None)) && Reconciles(b, b, Reconciled(Some(7), true, None))
    ensures 7 in b.records && b.records[7].attempt == 7 && b.records[7].lastEventSeq == 0
    ensures (7, 1) in a.events && a.events[(7, 1)].error == Some(DbUnavailable)
  {
    a := TORN;
    var sha := OfEvent(a.events[(7, 1)]);
    assert EventSeqs(a, 7) == {1} by { assert (7, 1) in a.events; }
    assert IsInitialSha(a, 7, sha);
    assert Unresolved(a) == {7};
    b := a.(head := Some(HeadFor(a.records[7], sha)));
    assert Unresolved(b) == {7};
  }

  lemma RunOfTwo(a: Disk, b: Disk, c: Disk, e: Env, f: Env)
    requires a == EMPTY && CrashStep(a, e, b) && CrashStep(b, f, c)
    ensures IsRun([a, b, c], [e, f])
  {
    var run, envs := [a, b, c], [e, f];
    assert StepAt(run, envs, 0) && StepAt(run, envs, 1);
  }

  /** A probe that meets the broken configuration says so in the next event of the attempt. */
  lemma SecondProbe(a: Disk, b: Disk) returns (c: Disk)
    requires Reconciles(a, b, Reconciled(Some(7), false, None)) && Reconciles(b, b, Reconciled(Some(7), true, None))
    requires Fresh(a, SECOND) && 7 in b.records && b.records[7].attempt == 7 && b.records[7].lastEventSeq == 0
    ensures CrashStep(a, SECOND, c) && (7, 1) in c.events && c.events[(7, 1)].error == Some(ConfigHead)
  {
    var ps := [ConfigHead, UnresolvedTransition];
    assert AdmissionProblems(SECOND, Reconciled(Some(7), true, None)) == ps;
    var t := [a, b, b] + Writes(b, Probed(RecordFor(b, 7, 1), ps));
    ProbeGivesStep(a, SECOND, ps, t, b, Reconciled(Some(7), false, None), b, 6);
    c := t[6];
  }

  /** A run in which event 1 of an attempt says two different things: the first probe finds the
      database down and dies after its event; the second one meets a broken configuration. */
  lemma EventChangesItsContent() returns (run: seq<Disk>, envs: seq<Env>)
    ensures IsRun(run, envs) && |run| == 3
    ensures (7, 1) in run[1].events && (7, 1) in run[2].events && run[1].events[(7, 1)] != run[2].events[(7, 1)]
  {
    TornIsReachable();
    var a, b := TornReconciles();
    var c := SecondProbe(a, b);
    RunOfTwo(EMPTY, a, c, FIRST, SECOND);
    run, envs := [EMPTY, a, c], [FIRST, SECOND];
  }

  // ----- a stuck attempt -----

  /** The disk a first probe leaves when the database is down. */
  const DOWN := Writes(EMPTY, Probed(RecordFor(EMPTY, 7, 0), [DbUnavailable]))[3]

  /** Everything is in order again. */
  const RECOVERED := Env(false, true, false, false, false, 8, 1)

  lemma DownIsReachable()
    ensures CrashStep(EMPTY, FIRST, DOWN)
  {
    var t := [EMPTY, EMPTY, EMPTY] + Writes(EMPTY, Probed(RecordFor(EMPTY, 7, 0), [DbUnavailable]));
    assert Unresolved(EMPTY) == {};
    ProbeGivesStep(EMPTY, FIRST, [DbUnavailable], t, EMPTY, Reconciled(None, false, None), EMPTY, 6);
  }

  /** The database was down once. With everything healthy again the next probe is refused by its own head, and so is
      every later one. */
  lemma OneOutageIsForever() returns (run: seq<Disk>, envs: seq<Env>, trace: seq<Disk>)
    ensures IsRun(run, envs) && |run| == 3 && Healthy(envs[1]) && Unresolved(run[1]) == {7}
    ensures Probe(run[1], envs[1], [UnresolvedTransition], trace) && run[2] == trace[6] && Unresolved(run[2]) == {7}
    ensures OutcomeOf([UnresolvedTransition]) == RetryOutcome
  {
    DownIsReachable();
    DownIsStuck();
    var a := DOWN;
    var ps, seen := [UnresolvedTransition], Reconciled(Some(7), true, None);
    var rec := Probed(RecordFor(a, 7, 1), ps);
    trace := [a, a, a] + Writes(a, rec);
    assert ProbeBy(a, RECOVERED, ps, trace, a, seen, a);
    ProbeGivesStep(a, RECOVERED, ps, trace, a, seen, a, 6);
    run, envs := [EMPTY, a, trace[6]], [FIRST, RECOVERED];
    assert trace[6] == Writes(a, rec)[3];
    StaysUnresolved(a, rec);
  }

  lemma DownIsStuck()
    ensures Unresolved(DOWN) == {7}
    ensures Reconciles(DOWN, DOWN, Reconciled(Some(7), true, None))
    ensures AdmissionProblems(RECOVERED, Reconciled(Some(7), true, None)) == [UnresolvedTransition]
  {
    assert DOWN.records.Keys == {7};
  }

  lemma StaysUnresolved(d: Disk, rec: Record)
    requires Unresolved(d) == {rec.attempt} && rec.state != Resolved
    ensures Unresolved(Writes(d, rec)[3]) == {rec.attempt}
  {
  }

  // ----- the store and the probe as the program runs them -----

  lemma {:induction false} LeastExists(s: set<nat>, x: nat)
    requires x in s
    ensures exists m :: m in s && forall t :: t in s ==> m <= t
  {
    if y :| y in s && y < x {
      LeastExists(s, y);
    }
  }

  lemma OnlyElement(s: set<Id>)
    requires |s| == 1
    ensures exists id :: s == {id}
  {
    var id :| id in s;
    assert |s - {id}| == 0;
    assert s == {id};
  }

  ghost function Points(trace: seq<Disk>): set<Disk> { set d | d in trace }

  lemma PointsOf(d: Disk, d1: Disk, d2: Disk, ds: seq<Disk>)
    ensures Points([d, d1, d2] + ds) == {d, d1, d2} + Points(ds)
  {
    var t := [d, d1, d2] + ds;
    assert t[0] == d && t[1] == d1 && t[2] == d2;
    forall x | x in ds ensures x in t {
      var i :| 0 <= i < |ds| && ds[i] == x;
      assert t[3 + i] == x;
    }
  }

  /** Publications that add each changed disk add up to the trace. */
  lemma PublishedTrace(before: set<Disk>, d: Disk, d1: Disk, d2: Disk, ds: seq<Disk>, all: set<Disk>)
    requires all == before + (if d1 == d then {} else {d1}) + (if d2 == d1 then {} else {d2}) + Points(ds)
    ensures all + {d} == before + Points([d, d1, d2] + ds)
  {
    PointsOf(d, d1, d2, ds);
  }

  /** The journal's directory. `published` collects the disk after every publication: each is a
      point at which a crash may leave the journal. */
  class JournalStore {
    var head: Option<Head>
    var records: map<Id, Record>
    var events: map<(Id, nat), Event>
    ghost var published: set<Disk>

    constructor ()
      ensures Now() == EMPTY && published == {}
    {
      head, records, events := None, map[], map[];
      published := {};
    }

    ghost function Now(): Disk reads this { Disk(head, records, events) }

    method WriteHead(r: Record, initial: Sha)
      modifies this
      ensures Now() == old(Now()).(head := Some(HeadFor(r, initial)))
      ensures published == old(published) + {Now()}
    {
      head := Some(HeadFor(r, initial));
      published := published + {Now()};
    }

    method RemoveHead()
      modifies this
      ensures Now() == old(Now()).(head := None)
      ensures published == old(published) + {Now()}
    {
      head := None;
      published := published + {Now()};
    }

    method WriteRecord(r: Record)
      modifies this
      ensures Now() == WriteRecordTo(old(Now()), r)
      ensures published == old(published) + {Now()}
    {
      records := records[r.attempt := r];
      published := published + {Now()};
    }

    method WriteEvent(e: Event)
      modifies this
      ensures Now() == WriteEventTo(old(Now()), e)
      ensures published == old(published) + {Now()}
    {
      events := events[(e.attempt, e.seqNo) := e];
      published := published + {Now()};
    }

    /** The hash the rebuilt head carries of the attempt's first event. */
    method InitialSha(id: Id) returns (sha: Sha)
      ensures IsInitialSha(Now(), id, sha)
    {
      var seqs := set e | e in events && e.0 == id :: e.1;
      assert seqs == EventSeqs(Now(), id);
      if seqs == {} { return EmptySha; }
      var some :| some in seqs;
      LeastExists(seqs, some);
      var first :| first in seqs && forall t :: t in seqs ==> first <= t;
      return OfEvent(events[(id, first)]);
    }

    /** No head yet: rebuild it from the single unresolved record, if there is one. */
    method RebuildHead() returns (r: Reconciled)
      requires head.None?
      modifies this
      ensures Reconciles(old(Now()), Now(), r)
      ensures published == old(published) + if Now() == old(Now()) then {} else {Now()}
    {
      var open := set id | id in records && records[id].state != Resolved;
      assert open == Unresolved(Now());
      if open == {} { return Reconciled(None, false, None); }
      if |open| != 1 { return Reconciled(None, false, Some(MultipleUnresolved)); }
      OnlyElement(open);
      var id :| id in open;
      var sha := InitialSha(id);
      WriteHead(records[id], sha);
      r := Reconciled(Some(records[id].attempt), false, None);
    }

    method Reconcile() returns (r: Reconciled)
      modifies this
      ensures Reconciles(old(Now()), Now(), r)
      ensures published == old(published) + if Now() == old(Now()) then {} else {Now()}
    {
      if head.None? { r := RebuildHead(); return; }
      var h := head.value;
      if h.attempt !in records { return Reconciled(Some(h.attempt), false, Some(HeadPointsToMissing)); }
      if !HeadMatches(Disk(head, records, events), h) {
        return Reconciled(Some(h.attempt), false, Some(HeadIdentityMismatch));
      }
      var open := set id | id in records && records[id].state != Resolved;
      assert open == Unresolved(Now());
      if |open| > 1 { return Reconciled(Some(h.attempt), false, Some(MultipleUnresolved)); }
      if records[h.attempt].state != Resolved { return Reconciled(Some(h.attempt), true, None); }
      if !ReplayComplete(Disk(head, records, events), records[h.attempt]) {
        return Reconciled(Some(h.attempt), false, Some(IncompleteReplay));
      }
      RemoveHead();
      r := Reconciled(None, false, None);
    }

    method AdmissionCheck(env: Env) returns (problems: seq<Problem>)
      modifies this
      ensures Admits(old(Now()), Now(), env, problems)
      ensures published == old(published) + if Now() == old(Now()) then {} else {Now()}
    {
      if env.dbDown { return [DbUnavailable]; }
      var r := Reconcile();
      problems := AdmissionProblems(env, r);
    }

    /** The probe's own publications, in the order record, event, record, head. */
    method PublishProbe(rec: Record)
      modifies this
      ensures Now() == Writes(old(Now()), rec)[3]
      ensures published == old(published) + Points(Writes(old(Now()), rec))
    {
      ghost var ds := Writes(Now(), rec);
      assert Points(ds) == {ds[0], ds[1], ds[2], ds[3]};
      WriteRecord(rec);
      assert Now() == ds[0];
      WriteEvent(EventFor(rec));
      assert Now() == ds[1];
      WriteRecord(Logged(rec));
      assert Now() == ds[2];
      if head.None? {
        WriteHead(rec, OfHeader(HeaderOf(rec, EmptySha)));
      }
    }

    /** One resume probe. The disks it publishes are the points of the specified trace. */
    method RunResumeProbe(env: Env) returns (o: Outcome, ghost problems: seq<Problem>, ghost trace: seq<Disk>)
      modifies this
      ensures Probe(old(Now()), env, problems, trace) && o == OutcomeOf(problems)
      ensures Now() == trace[|trace| - 1]
      ensures published + {old(Now())} == old(published) + Points(trace)
      ensures Inv(old(Now())) && Fresh(old(Now()), env) ==> Answered(old(Now()), env, o, Now())
    {
      ghost var d := Now();
      var r := Reconcile();
      ghost var d1 := Now();
      var attempt := AttemptOf(r, env);
      var rec := RecordFor(Disk(head, records, events), attempt, env.now);
      var found := AdmissionCheck(env);
      ghost var d2 := Now();
      rec := Probed(rec, found);
      PublishProbe(rec);
      problems, trace := found, [d, d1, d2] + Writes(d2, rec);
      PublishedTrace(old(published), d, d1, d2, Writes(d2, rec), published);
      assert ProbeBy(d, env, problems, trace, d1, r, d2);
      o := OutcomeOf(found);
      if Inv(d) && Fresh(d, env) { ProbeByAnswers(d, env, problems, trace, d1, r, d2); }
    }
  }
}
