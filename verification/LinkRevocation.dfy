/** Operator revocations of evidence links with their reassessment cascade
    (apps/orchestrator/link_audit.py) and the worker that drains the cascade's jobs
    (packages/memory/reassessment.py).

    Each command is one transaction. Fresh UUIDs are counters. The verdict of the value gate on
    a link is a fixed attribute of the immutable evidence row. */
module LinkRevocation {
  import opened Basics

  type EvidenceId = nat
  type ClaimId = nat
  type SourceId = nat
  type SnapshotId = nat
  type Reason = nat

  datatype Verdict = ValueAbsent | ValuePresent | NoText | NoProfile

  /** `link` is None when the row is outside the gate: not a supports link of a source assertion. */
  datatype Evidence = Evidence(claim: ClaimId, source: Option<SourceId>, link: Option<Verdict>)

  /** Without a source there is no page to read. */
  predicate RowOk(e: Evidence) { e.link.Some? && e.source.None? ==> e.link.value == NoText }

  datatype Revocation = Revocation(evidence: EvidenceId, claim: ClaimId, reason: Reason, cancelled: bool)

  datatype Target = Target(claim: ClaimId, snapshot: SnapshotId)

  datatype Head = Current | Pending | Invalid

  datatype Status = Queued | Leased | Retry | Blocked | Completed

  datatype Job = Job(target: Target, status: Status)

  datatype Db = Db(evidence: map<EvidenceId, Evidence>, claims: set<ClaimId>, corrected: set<SourceId>,
                   effective: SnapshotId, revs: map<nat, Revocation>, heads: map<Target, Head>, jobs: map<nat, Job>,
                   nextEvidence: nat, nextRev: nat, nextJob: nat)

  predicate IsOpen(j: Job) { j.status.Queued? || j.status.Leased? || j.status.Retry? }

  predicate ActiveOn(v: Revocation, e: EvidenceId) { v.evidence == e && !v.cancelled }

  predicate IsRevoked(db: Db, e: EvidenceId) { exists i :: i in db.revs && ActiveOn(db.revs[i], e) }

  predicate OpenFor(j: Job, t: Target) { j.target == t && IsOpen(j) }

  predicate HasOpenJob(db: Db, t: Target) { exists i :: i in db.jobs && OpenFor(db.jobs[i], t) }

  /** A row the assessment reads: its evidence, minus the links under an active revocation. */
  predicate IsLive(db: Db, c: ClaimId, e: EvidenceId) {
    e in db.evidence && db.evidence[e].claim == c && !IsRevoked(db, e)
  }

  predicate HasLive(db: Db, c: ClaimId) { exists e :: e in db.evidence && IsLive(db, c, e) }

  // ----- what every run keeps -----

  ghost predicate OneActive(db: Db) {
    forall i, j, e :: i in db.revs && j in db.revs && ActiveOn(db.revs[i], e) && ActiveOn(db.revs[j], e) ==> i == j
  }

  ghost predicate OneOpenJob(db: Db) {
    forall i, j, t :: i in db.jobs && j in db.jobs && OpenFor(db.jobs[i], t) && OpenFor(db.jobs[j], t) ==> i == j
  }

  /** Revocation rows point at their evidence and claim, and no link is revoked twice. */
  ghost predicate RevsInv(db: Db) {
    && (forall e :: e in db.evidence ==> e < db.nextEvidence && RowOk(db.evidence[e]))
    && (forall i :: i in db.revs ==> i < db.nextRev && RowFits(db.evidence, db.revs[i]))
    && OneActive(db)
  }

  predicate RowFits(evidence: map<EvidenceId, Evidence>, v: Revocation) {
    v.evidence in evidence && v.claim == evidence[v.evidence].claim
  }

  /** One open job per claim and snapshot, and one for every pending head. */
  ghost predicate QueueInv(db: Db) {
    && (forall i :: i in db.jobs ==> i < db.nextJob)
    && (forall t :: t in db.heads ==> t.claim in db.claims)
    && OneOpenJob(db)
    && (forall t :: t in db.heads && db.heads[t] == Pending ==> HasOpenJob(db, t))
  }

  ghost predicate Inv(db: Db) { RevsInv(db) && QueueInv(db) }

  /** The history a later database keeps: evidence untouched, revocation rows neither deleted nor
      edited nor un-cancelled. */
  ghost predicate Extends(a: Db, b: Db) {
    && (forall e :: e in a.evidence ==> e in b.evidence && b.evidence[e] == a.evidence[e])
    && forall i :: i in a.revs ==> i in b.revs && Kept(a.revs[i], b.revs[i])
  }

  predicate Kept(v: Revocation, w: Revocation) { w == v || w == v.(cancelled := true) }

  // ----- apply -----

  datatype Why = UnknownEvidence | UnknownClaim | OutOfScope | OperatorCorrection | NoCurrentHead
               | WrongVerdict(verdict: Verdict)

  datatype Finding = Fails(why: Why) | Already | Candidate

  datatype Error = NoReason | NothingNamed | Refused(refusals: seq<(EvidenceId, Why)>)
                 | LastEvidence(claims: seq<ClaimId>)
                 | UnknownRevocation

  datatype Result<T> = Ok(value: T) | Err(error: Error)

  function HeadState(db: Db, c: ClaimId): Option<Head> {
    var t := Target(c, db.effective);
    if t in db.heads then Some(db.heads[t]) else None
  }

  /** The checks on one named link, in their order. */
  function Inspect(db: Db, e: EvidenceId): Finding {
    if e !in db.evidence then Fails(UnknownEvidence)
    else
      var row := db.evidence[e];
      if row.claim !in db.claims then Fails(UnknownClaim)
      else if IsRevoked(db, e) then Already
      else if row.link.None? then Fails(OutOfScope)
      else if row.source.Some? && row.source.value in db.corrected then Fails(OperatorCorrection)
      else if HeadState(db, row.claim) != Some(Current) then Fails(NoCurrentHead)
      else if row.link.value != ValueAbsent then Fails(WrongVerdict(row.link.value))
      else Candidate
  }

  /** First occurrences, in order. */
  function Dedup(ids: seq<nat>, n: nat): (out: seq<nat>)
    requires n <= |ids|
    ensures forall x :: x in out <==> x in ids[..n]
    ensures forall i, j :: 0 <= i < j < |out| ==> out[i] != out[j]
  {
    if n == 0 then []
    else
      assert ids[..n] == ids[..n - 1] + [ids[n - 1]];
      var out := Dedup(ids, n - 1);
      if ids[n - 1] in out then out else out + [ids[n - 1]]
  }

  function Refusals(db: Db, wanted: seq<EvidenceId>, n: nat): (out: seq<(EvidenceId, Why)>)
    requires n <= |wanted|
    ensures out == [] <==> forall i :: 0 <= i < n ==> !Inspect(db, wanted[i]).Fails?
  {
    if n == 0 then []
    else
      var out := Refusals(db, wanted, n - 1);
      var f := Inspect(db, wanted[n - 1]);
      if f.Fails? then out + [(wanted[n - 1], f.why)] else out
  }

  function Candidates(db: Db, wanted: seq<EvidenceId>, n: nat): (out: seq<EvidenceId>)
    requires n <= |wanted|
    requires forall i, j :: 0 <= i < j < |wanted| ==> wanted[i] != wanted[j]
    ensures forall e :: e in out <==> e in wanted[..n] && Inspect(db, e) == Candidate
    ensures forall i, j :: 0 <= i < j < |out| ==> out[i] != out[j]
  {
    if n == 0 then []
    else
      assert wanted[..n] == wanted[..n - 1] + [wanted[n - 1]];
      var out := Candidates(db, wanted, n - 1);
      if Inspect(db, wanted[n - 1]) == Candidate then out + [wanted[n - 1]] else out
  }

  /** The named ids without repeats. */
  function Wanted(ids: seq<nat>): (out: seq<nat>)
    ensures forall x :: x in out <==> x in ids
    ensures forall i, j :: 0 <= i < j < |out| ==> out[i] != out[j]
  {
    assert ids[..|ids|] == ids;
    Dedup(ids, |ids|)
  }

  /** The named links that are to be revoked. */
  function Chosen(db: Db, ids: seq<EvidenceId>): (out: seq<EvidenceId>)
    ensures forall e :: e in out <==> e in ids && Inspect(db, e) == Candidate
    ensures forall i, j :: 0 <= i < j < |out| ==> out[i] != out[j]
  {
    var wanted := Wanted(ids);
    assert wanted[..|wanted|] == wanted;
    Candidates(db, wanted, |wanted|)
  }

  function ClaimOf(db: Db, e: EvidenceId): ClaimId { if e in db.evidence then db.evidence[e].claim else 0 }

  function ClaimsOf(db: Db, es: seq<EvidenceId>): seq<ClaimId> {
    var all := seq(|es|, i requires 0 <= i < |es| => ClaimOf(db, es[i]));
    Wanted(all)
  }

  /** The rows the last-evidence guard takes for revoked: it knows active revocations of the named links only. */
  predicate CountedRevoked(db: Db, wanted: seq<EvidenceId>, cands: seq<EvidenceId>, e: EvidenceId) {
    (e in wanted && IsRevoked(db, e)) || e in cands
  }

  predicate SeesLeft(db: Db, wanted: seq<EvidenceId>, cands: seq<EvidenceId>, c: ClaimId) {
    exists e :: e in db.evidence && db.evidence[e].claim == c && !CountedRevoked(db, wanted, cands, e)
  }

  function Emptied(db: Db, wanted: seq<EvidenceId>, cands: seq<EvidenceId>, claims: seq<ClaimId>,
      n: nat): (out: seq<ClaimId>)
    requires n <= |claims|
    ensures out == [] <==> forall i :: 0 <= i < n ==> SeesLeft(db, wanted, cands, claims[i])
  {
    if n == 0 then []
    else
      var out := Emptied(db, wanted, cands, claims, n - 1);
      if SeesLeft(db, wanted, cands, claims[n - 1]) then out else out + [claims[n - 1]]
  }

  function NewRow(db: Db, e: EvidenceId, reason: Reason): Revocation { Revocation(e, ClaimOf(db, e), reason, false) }

  function WithRow(db: Db, v: Revocation): Db { db.(revs := db.revs[db.nextRev := v], nextRev := db.nextRev + 1) }

  /** The first `n` revocation rows written. */
  function Written(db: Db, cands: seq<EvidenceId>, reason: Reason, n: nat): Db
    requires n <= |cands|
  {
    if n == 0 then db else WithRow(Written(db, cands, reason, n - 1), NewRow(db, cands[n - 1], reason))
  }

  /** The head waits for an assessment, with one open job. */
  function Awaiting(db: Db, t: Target): Db {
    if HasOpenJob(db, t) then db.(heads := db.heads[t := Pending])
    else db.(heads := db.heads[t := Pending], jobs := db.jobs[db.nextJob := Job(t, Queued)], nextJob := db.nextJob + 1)
  }

  /** The cascade of one claim: only a current head is taken down. */
  function Cascaded(db: Db, c: ClaimId): Db {
    if HeadState(db, c) != Some(Current) then db else Awaiting(db, Target(c, db.effective))
  }

  function CascadedAll(db: Db, claims: seq<ClaimId>, n: nat): Db
    requires n <= |claims|
  {
    if n == 0 then db else Cascaded(CascadedAll(db, claims, n - 1), claims[n - 1])
  }

  /** The whole apply command. */
  function Applied(db: Db, ids: seq<EvidenceId>, reason: Option<Reason>, allowEmpty: bool): Result<Db> {
    if reason.None? then Err(NoReason)
    else if ids == [] then Err(NothingNamed)
    else
      var wanted := Wanted(ids);
      var refusals := Refusals(db, wanted, |wanted|);
      if refusals != [] then Err(Refused(refusals))
      else
        var cands := Chosen(db, ids);
        var claims := ClaimsOf(db, cands);
        var emptied := Emptied(db, wanted, cands, claims, |claims|);
        if emptied != [] && !allowEmpty then Err(LastEvidence(emptied))
        else Ok(CascadedAll(Written(db, cands, reason.value, |cands|), claims, |claims|))
  }

  // ----- cancel -----

  predicate IsActive(db: Db, i: nat) { i in db.revs && !db.revs[i].cancelled }

  function Cancelled(db: Db, ids: seq<nat>): Db {
    db.(revs := map i | i in db.revs :: if i in ids then db.revs[i].(cancelled := true) else db.revs[i])
  }

  function RevokedClaims(db: Db, ids: seq<nat>, n: nat): (out: seq<ClaimId>)
    requires n <= |ids|
    ensures forall c :: c in out <==> exists k :: 0 <= k < n && IsActive(db, ids[k]) && db.revs[ids[k]].claim == c
  {
    if n == 0 then []
    else
      var out := RevokedClaims(db, ids, n - 1);
      if IsActive(db, ids[n - 1]) && db.revs[ids[n - 1]].claim !in out then out + [db.revs[ids[n - 1]].claim] else out
  }

  function CancelApplied(db: Db, ids: seq<nat>, reason: Option<Reason>): Result<Db> {
    if reason.None? then Err(NoReason)
    else if ids == [] then Err(NothingNamed)
    else if exists i :: i in ids && i !in db.revs then Err(UnknownRevocation)
    else
      var claims := RevokedClaims(db, ids, |ids|);
      Ok(CascadedAll(Cancelled(db, ids), claims, |claims|))
  }

  // ----- the reassessment worker -----

  function WithStatus(db: Db, j: nat, s: Status): Db
    requires j in db.jobs
  {
    db.(jobs := db.jobs[j := db.jobs[j].(status := s)])
  }

  /** pending or invalid becomes invalid; a current or missing head is left alone. */
  function Invalidated(db: Db, t: Target): Db {
    if t in db.heads && db.heads[t] != Current then db.(heads := db.heads[t := Invalid]) else db
  }

  /** One leased job in its own transaction. */
  function Processed(db: Db, j: nat): Db
    requires j in db.jobs
  {
    var t := db.jobs[j].target;
    if db.jobs[j].status != Leased then db
    else if t.snapshot != db.effective then WithStatus(db, j, Queued)
    else if t.claim !in db.claims then WithStatus(db, j, Blocked)
    else if !HasLive(db, t.claim) then WithStatus(Invalidated(db, t), j, Completed)
    else if t !in db.heads then WithStatus(db, j, Blocked)
    else WithStatus(db.(heads := db.heads[t := Current]), j, Completed)
  }

  datatype Act =
    | Apply(ids: seq<EvidenceId>, reason: Option<Reason>, allowEmpty: bool)
    | Cancel(revs: seq<nat>, why: Option<Reason>)
    | Lease(job: nat)
    | Unlease(job: nat)      // admission lost mid-batch, or an expired lease recovered
    | RetryLater(job: nat)
    | Process(job: nat)
    | BlockJob(job: nat)     // deterministic error or exhausted attempts
    | Activate(snapshot: SnapshotId, order: seq<ClaimId>, sameRule: set<ClaimId>)
    | Commit(row: Evidence, under: SnapshotId)   // a session records a link and assesses its claim

  /** One transaction; a refused or not enabled act changes nothing. */
  function Step(db: Db, a: Act): Db {
    match a
    case Apply(ids, reason, allowEmpty) => var r := Applied(db, ids, reason, allowEmpty); if r.Ok? then r.value else db
    case Cancel(revs, why) => var r := CancelApplied(db, revs, why); if r.Ok? then r.value else db
    case Lease(j) =>
      if j in db.jobs && (db.jobs[j].status == Queued || db.jobs[j].status == Retry)
        && db.jobs[j].target.snapshot == db.effective
      then WithStatus(db, j, Leased) else db
    case Unlease(j) => if j in db.jobs && db.jobs[j].status == Leased then WithStatus(db, j, Queued) else db
    case RetryLater(j) => if j in db.jobs && db.jobs[j].status == Leased then WithStatus(db, j, Retry) else db
    case Process(j) => if j in db.jobs then Processed(db, j) else db
    case BlockJob(j) =>
      if j in db.jobs && db.jobs[j].status == Leased then WithStatus(Invalidated(db, db.jobs[j].target), j, Blocked)
        else db
    case Activate(s, order, sameRule) => if CanActivate(db, s, order) then Activated(db, s, order, sameRule) else db
    case Commit(row, under) => if RowOk(row) then Committed(db, row, under) else db
  }

  /** An activation goes over all claims, in some order, for another snapshot. */
  predicate CanActivate(db: Db, s: SnapshotId, order: seq<ClaimId>) {
    s != db.effective && (forall c :: c in order ==> c in db.claims) && (forall c :: c in db.claims ==> c in order)
  }

  /** The head a claim gets under the candidate snapshot: carried over when it is current under the base and its rule is
      unchanged, pending with one open job otherwise. */
  function PreparedOne(db: Db, s: SnapshotId, sameRule: set<ClaimId>, c: ClaimId): Db {
    if IsCarried(db, sameRule, c) then db.(heads := db.heads[Target(c, s) := Current]) else Awaiting(db, Target(c, s))
  }

  predicate IsCarried(db: Db, sameRule: set<ClaimId>, c: ClaimId) {
    HeadState(db, c) == Some(Current) && c in sameRule
  }

  function PreparedAll(db: Db, s: SnapshotId, sameRule: set<ClaimId>, order: seq<ClaimId>, n: nat): Db
    requires n <= |order|
  {
    if n == 0 then db else PreparedOne(PreparedAll(db, s, sameRule, order, n - 1), s, sameRule, order[n - 1])
  }

  /** Heads prepared for the cohort, then the pointer moved. The switch is refused when knowledge changed in between,
      so the whole is one step. */
  function Activated(db: Db, s: SnapshotId, order: seq<ClaimId>, sameRule: set<ClaimId>): Db {
    PreparedAll(db, s, sameRule, order, |order|).(effective := s)
  }

  /** A session's commit adds its row and makes the head current under the session's snapshot. */
  function Committed(db: Db, row: Evidence, under: SnapshotId): Db {
    db.(evidence := db.evidence[db.nextEvidence := row], nextEvidence := db.nextEvidence + 1,
        claims := db.claims + {row.claim},
        heads := db.heads[Target(row.claim, under) := Current])
  }

  // ----- the cascade -----

  lemma AwaitingKeepsQueue(db: Db, t: Target)
    requires QueueInv(db) && t.claim in db.claims
    ensures QueueInv(Awaiting(db, t))
  {
    var after := Awaiting(db, t);
    forall u | HasOpenJob(db, u) ensures HasOpenJob(after, u) {
      var i :| i in db.jobs && OpenFor(db.jobs[i], u);
      assert after.jobs[i] == db.jobs[i];
    }
    if !HasOpenJob(db, t) { assert OpenFor(after.jobs[db.nextJob], t); }
  }

  lemma CascadeKeepsQueue(db: Db, c: ClaimId)
    requires QueueInv(db)
    ensures QueueInv(Cascaded(db, c))
  {
    if HeadState(db, c) == Some(Current) { AwaitingKeepsQueue(db, Target(c, db.effective)); }
  }

  function DownIf(down: bool, h: Head): Head { if down && h == Current then Pending else h }

  /** Exactly the current heads of the claims under the effective snapshot went down; nothing else
      changed but new jobs. */
  ghost predicate TookDown(a: Db, b: Db, claims: seq<ClaimId>) {
    && b == a.(heads := b.heads, jobs := b.jobs, nextJob := b.nextJob)
    && b.heads.Keys == a.heads.Keys
    && (forall t :: t in a.heads ==> b.heads[t] == DownIf(t.snapshot == a.effective && t.claim in claims, a.heads[t]))
    && (forall i :: i in a.jobs ==> i in b.jobs && b.jobs[i] == a.jobs[i])
  }

  lemma {:induction false} CascadeEffect(db: Db, claims: seq<ClaimId>, n: nat)
    requires QueueInv(db) && n <= |claims|
    ensures QueueInv(CascadedAll(db, claims, n)) && TookDown(db, CascadedAll(db, claims, n), claims[..n])
  {
    if n > 0 {
      var mid := CascadedAll(db, claims, n - 1);
      CascadeEffect(db, claims, n - 1);
      CascadeKeepsQueue(mid, claims[n - 1]);
      assert claims[..n] == claims[..n - 1] + [claims[n - 1]];
      TakesDownOneMore(db, mid, claims[..n - 1], claims[n - 1]);
    }
  }

  lemma TakesDownOneMore(db: Db, mid: Db, done: seq<ClaimId>, c: ClaimId)
    requires QueueInv(mid) && TookDown(db, mid, done)
    ensures TookDown(db, Cascaded(mid, c), done + [c])
  {
  }

  ghost predicate IsOnlyOpenJob(db: Db, t: Target, i: nat) {
    && i in db.jobs && OpenFor(db.jobs[i], t)
    && forall j :: j in db.jobs && OpenFor(db.jobs[j], t) ==> j == i
  }

  /** A head the cascade took down has exactly one open job. */
  lemma PendingHasOneJob(db: Db, t: Target)
    requires QueueInv(db) && t in db.heads && db.heads[t] == Pending
    ensures exists i :: i in db.jobs && IsOnlyOpenJob(db, t, i)
  {
    var i :| i in db.jobs && OpenFor(db.jobs[i], t);
    assert IsOnlyOpenJob(db, t, i);
  }

  // ----- apply -----

  predicate IdsBelow(db: Db) { forall i :: i in db.revs ==> i < db.nextRev }

  lemma RowRevokes(db: Db, v: Revocation, e: EvidenceId)
    requires IdsBelow(db) && !v.cancelled
    ensures IsRevoked(WithRow(db, v), e) <==> IsRevoked(db, e) || e == v.evidence
  {
    var b := WithRow(db, v);
    assert b.revs[db.nextRev] == v;
    assert forall i :: i in db.revs ==> b.revs[i] == db.revs[i];
  }

  lemma RowKeepsInv(db: Db, v: Revocation)
    requires RevsInv(db) && RowFits(db.evidence, v) && !IsRevoked(db, v.evidence)
    ensures RevsInv(WithRow(db, v)) && Extends(db, WithRow(db, v))
  {
    var b := WithRow(db, v);
    assert forall i :: i in b.revs && i != db.nextRev ==> i in db.revs && b.revs[i] == db.revs[i];
  }

  /** The links an apply may write: known, not revoked, each once. */
  ghost predicate Writable(db: Db, cands: seq<EvidenceId>) {
    && (forall i :: 0 <= i < |cands| ==> cands[i] in db.evidence && !IsRevoked(db, cands[i]))
    && (forall i, j :: 0 <= i < j < |cands| ==> cands[i] != cands[j])
  }

  lemma {:induction false} WrittenTouchesRevsOnly(db: Db, cands: seq<EvidenceId>, reason: Reason, n: nat)
    requires n <= |cands|
    ensures var b := Written(db, cands, reason, n); b == db.(revs := b.revs, nextRev := b.nextRev)
  {
    if n > 0 { WrittenTouchesRevsOnly(db, cands, reason, n - 1); }
  }

  lemma {:induction false} WrittenRevokes(db: Db, cands: seq<EvidenceId>, reason: Reason, n: nat)
    requires IdsBelow(db) && n <= |cands|
    ensures IdsBelow(Written(db, cands, reason, n))
    ensures forall e: EvidenceId :: IsRevoked(Written(db, cands, reason, n), e) <==> IsRevoked(db, e) || e in cands[..n]
  {
    if n > 0 {
      WrittenRevokes(db, cands, reason, n - 1);
      var mid, v := Written(db, cands, reason, n - 1), NewRow(db, cands[n - 1], reason);
      assert cands[..n] == cands[..n - 1] + [cands[n - 1]];
      forall e: EvidenceId ensures IsRevoked(WithRow(mid, v), e) <==> IsRevoked(mid, e) || e == v.evidence {
        RowRevokes(mid, v, e);
      }
    }
  }

  lemma {:induction false} WrittenEffect(db: Db, cands: seq<EvidenceId>, reason: Reason, n: nat)
    requires RevsInv(db) && n <= |cands| && Writable(db, cands)
    ensures RevsInv(Written(db, cands, reason, n)) && Extends(db, Written(db, cands, reason, n))
  {
    if n > 0 {
      WrittenEffect(db, cands, reason, n - 1);
      WrittenRevokes(db, cands, reason, n - 1);
      WrittenTouchesRevsOnly(db, cands, reason, n - 1);
      var mid, v := Written(db, cands, reason, n - 1), NewRow(db, cands[n - 1], reason);
      assert !IsRevoked(mid, v.evidence);
      RowKeepsInv(mid, v);
      ExtendsFurther(db, mid, WithRow(mid, v));
    }
  }

  lemma ExtendsFurther(a: Db, b: Db, c: Db)
    requires Extends(a, b) && Extends(b, c)
    ensures Extends(a, c)
  {
  }

  /** Nothing named fails its checks: each link is either revoked already or a candidate. */
  lemma NothingFails(db: Db, ids: seq<EvidenceId>)
    requires Refusals(db, Wanted(ids), |Wanted(ids)|) == []
    ensures forall e :: e in ids ==> Inspect(db, e) == if IsRevoked(db, e) then Already else Candidate
    ensures forall e :: e in Chosen(db, ids) <==> e in ids && !IsRevoked(db, e)
    ensures Writable(db, Chosen(db, ids))
  {
    var wanted := Wanted(ids);
    forall e | e in ids ensures Inspect(db, e) == if IsRevoked(db, e) then Already else Candidate {
      var i :| 0 <= i < |wanted| && wanted[i] == e;
      assert !Inspect(db, wanted[i]).Fails?;
    }
    var cands := Chosen(db, ids);
    forall i | 0 <= i < |cands| ensures cands[i] in db.evidence && !IsRevoked(db, cands[i]) {
      assert Inspect(db, cands[i]) == Candidate;
    }
  }

  lemma ClaimsOfMembers(db: Db, es: seq<EvidenceId>)
    ensures forall c :: c in ClaimsOf(db, es) <==> c in set e | e in es :: ClaimOf(db, e)
  {
    var all := seq(|es|, i requires 0 <= i < |es| => ClaimOf(db, es[i]));
    forall c | c in set e | e in es :: ClaimOf(db, e) ensures c in all {
      var e :| e in es && ClaimOf(db, e) == c;
      var i :| 0 <= i < |es| && es[i] == e;
      assert all[i] == c;
    }
  }

  /** The database after the rows are written and before the cascade. */
  function WithRows(db: Db, ids: seq<EvidenceId>, reason: Reason): Db {
    Written(db, Chosen(db, ids), reason, |Chosen(db, ids)|)
  }

  /** The cascade touches heads and jobs only. */
  lemma ApplyLands(db: Db, ids: seq<EvidenceId>, reason: Option<Reason>, allowEmpty: bool)
    requires Inv(db) && Applied(db, ids, reason, allowEmpty).Ok?
    ensures var b, mid := Applied(db, ids, reason, allowEmpty).value, WithRows(db, ids, reason.value);
      QueueInv(b) && b == mid.(heads := b.heads, jobs := b.jobs, nextJob := b.nextJob)
  {
    var mid, claims := WithRows(db, ids, reason.value), ClaimsOf(db, Chosen(db, ids));
    WrittenTouchesRevsOnly(db, Chosen(db, ids), reason.value, |Chosen(db, ids)|);
    assert forall t :: HasOpenJob(mid, t) <==> HasOpenJob(db, t);
    CascadeEffect(mid, claims, |claims|);
  }

  lemma ApplyKeepsInv(db: Db, ids: seq<EvidenceId>, reason: Option<Reason>, allowEmpty: bool)
    requires Inv(db) && Applied(db, ids, reason, allowEmpty).Ok?
    ensures Inv(Applied(db, ids, reason, allowEmpty).value) && Extends(db, Applied(db, ids, reason, allowEmpty).value)
  {
    NothingFails(db, ids);
    WrittenEffect(db, Chosen(db, ids), reason.value, |Chosen(db, ids)|);
    ApplyLands(db, ids, reason, allowEmpty);
  }

  /** After an accepted apply the revoked links are the ones revoked before and the ones named. */
  lemma ApplyRevokes(db: Db, ids: seq<EvidenceId>, reason: Option<Reason>, allowEmpty: bool, e: EvidenceId)
    requires Inv(db) && Applied(db, ids, reason, allowEmpty).Ok?
    ensures IsRevoked(Applied(db, ids, reason, allowEmpty).value, e) <==> IsRevoked(db, e) || e in ids
  {
    var cands := Chosen(db, ids);
    NothingFails(db, ids);
    WrittenRevokes(db, cands, reason.value, |cands|);
    assert cands[..|cands|] == cands;
    ApplyLands(db, ids, reason, allowEmpty);
  }

  /** Naming only links under an active revocation writes nothing, whatever the heads and the flags. */
  lemma AllRevokedIsIdle(db: Db, ids: seq<EvidenceId>, reason: Reason, allowEmpty: bool)
    requires Inv(db) && ids != [] && forall e :: e in ids ==> IsRevoked(db, e)
    requires forall e :: e in ids && e in db.evidence ==> db.evidence[e].claim in db.claims
    ensures Applied(db, ids, Some(reason), allowEmpty) == Ok(db)
  {
    var wanted := Wanted(ids);
    forall e | e in wanted ensures Inspect(db, e) == Already {
      var i :| i in db.revs && ActiveOn(db.revs[i], e);
    }
    assert Refusals(db, wanted, |wanted|) == [];
    assert forall e :: e !in Chosen(db, ids);
    EmptyOrMember(Chosen(db, ids));
  }

  lemma EmptyOrMember<T>(s: seq<T>)
    ensures s == [] || exists x :: x in s
  {
    if s != [] { assert s[0] in s; }
  }

  /** Repeating an accepted apply writes nothing, although its heads are pending by then. */
  lemma RepeatIsIdle(db: Db, ids: seq<EvidenceId>, reason: Option<Reason>, allowEmpty: bool, again: Reason, allow: bool)
    requires Inv(db) && Applied(db, ids, reason, allowEmpty).Ok?
    ensures var b := Applied(db, ids, reason, allowEmpty).value; Applied(b, ids, Some(again), allow) == Ok(b)
  {
    var b := Applied(db, ids, reason, allowEmpty).value;
    ApplyKeepsInv(db, ids, reason, allowEmpty);
    forall e | e in ids ensures IsRevoked(b, e) { ApplyRevokes(db, ids, reason, allowEmpty, e); }
    ApplyKeepsTables(db, ids, reason, allowEmpty);
    AllRevokedIsIdle(b, ids, again, allow);
  }

  /** The claims table and the effective snapshot are untouched, and every claim of a named link is known. */
  lemma ApplyKeepsTables(db: Db, ids: seq<EvidenceId>, reason: Option<Reason>, allowEmpty: bool)
    requires Inv(db) && Applied(db, ids, reason, allowEmpty).Ok?
    ensures var b := Applied(db, ids, reason, allowEmpty).value;
      b.claims == db.claims && b.evidence == db.evidence && b.effective == db.effective
    ensures forall e :: e in ids ==> e in db.evidence && db.evidence[e].claim in db.claims
  {
    NothingFails(db, ids);
    WrittenTouchesRevsOnly(db, Chosen(db, ids), reason.value, |Chosen(db, ids)|);
    ApplyLands(db, ids, reason, allowEmpty);
  }

  // ----- what an apply may name -----

  /** Some revocation row of the link is not cancelled. */
  predicate UnderRevocation(db: Db, e: EvidenceId) {
    exists i :: i in db.revs && db.revs[i].evidence == e && !db.revs[i].cancelled
  }

  predicate HasCurrentHead(db: Db, c: ClaimId) {
    Target(c, db.effective) in db.heads && db.heads[Target(c, db.effective)] == Current
  }

  predicate IsCorrected(db: Db, row: Evidence) { row.source.Some? && row.source.value in db.corrected }

  predicate IsKnown(db: Db, e: EvidenceId) { e in db.evidence && db.evidence[e].claim in db.claims }

  /** The link is revoked already, or it is a supports link whose page lacks the value, of an uncorrected source and of
      a claim with a current head. */
  predicate MayRevoke(db: Db, e: EvidenceId) {
    && IsKnown(db, e)
    && (UnderRevocation(db, e)
        || (db.evidence[e].link == Some(ValueAbsent) && !IsCorrected(db, db.evidence[e])
            && HasCurrentHead(db, db.evidence[e].claim)))
  }

  /** The reason a link may not be revoked. */
  predicate WhyNot(db: Db, e: EvidenceId, why: Why) {
    match why
    case UnknownEvidence => e !in db.evidence
    case UnknownClaim => e in db.evidence && db.evidence[e].claim !in db.claims
    case OutOfScope => IsKnown(db, e) && !UnderRevocation(db, e) && db.evidence[e].link.None?
    case OperatorCorrection => InScope(db, e) && IsCorrected(db, db.evidence[e])
    case NoCurrentHead =>
      InScope(db, e) && !IsCorrected(db, db.evidence[e]) && !HasCurrentHead(db, db.evidence[e].claim)
    case WrongVerdict(v) =>
      && InScope(db, e) && !IsCorrected(db, db.evidence[e]) && HasCurrentHead(db, db.evidence[e].claim)
      && db.evidence[e].link == Some(v) && v != ValueAbsent
  }

  predicate InScope(db: Db, e: EvidenceId) {
    IsKnown(db, e) && !UnderRevocation(db, e) && db.evidence[e].link.Some?
  }

  lemma InspectTells(db: Db, e: EvidenceId)
    ensures Inspect(db, e).Fails? <==> !MayRevoke(db, e)
    ensures forall why :: WhyNot(db, e, why) <==> Inspect(db, e) == Fails(why)
  {
    assert IsRevoked(db, e) <==> UnderRevocation(db, e) by {
      forall i | i in db.revs ensures ActiveOn(db.revs[i], e) <==> db.revs[i].evidence == e && !db.revs[i].cancelled {}
    }
  }

  lemma {:induction false} RefusalsTell(db: Db, wanted: seq<EvidenceId>, n: nat, e: EvidenceId, why: Why)
    requires n <= |wanted|
    ensures (e, why) in Refusals(db, wanted, n) <==> e in wanted[..n] && WhyNot(db, e, why)
  {
    if n > 0 {
      RefusalsTell(db, wanted, n - 1, e, why);
      InspectTells(db, wanted[n - 1]);
      assert wanted[..n] == wanted[..n - 1] + [wanted[n - 1]];
    }
  }

  /** `x` is named before the first `y`. */
  ghost predicate NamedBefore(ids: seq<nat>, x: nat, y: nat) {
    exists p :: 0 <= p < |ids| && ids[p] == x && y !in ids[..p + 1]
  }

  lemma {:induction false} DedupInOrder(ids: seq<nat>, n: nat, i: nat, j: nat)
    requires n <= |ids| && i < j < |Dedup(ids, n)|
    ensures NamedBefore(ids, Dedup(ids, n)[i], Dedup(ids, n)[j])
  {
    if j < |Dedup(ids, n - 1)| {
      DedupInOrder(ids, n - 1, i, j);
    } else {
      var x, y := Dedup(ids, n)[i], ids[n - 1];
      assert x in Dedup(ids, n - 1);
      var p :| 0 <= p < n - 1 && ids[..n - 1][p] == x;
      assert ids[p] == x && ids[..p + 1] <= ids[..n - 1];
    }
  }

  lemma {:induction false} RefusalAt(db: Db, wanted: seq<EvidenceId>, n: nat, i: nat) returns (p: nat)
    requires n <= |wanted| && i < |Refusals(db, wanted, n)|
    ensures p < n && wanted[p] == Refusals(db, wanted, n)[i].0
  {
    if i < |Refusals(db, wanted, n - 1)| { p := RefusalAt(db, wanted, n - 1, i); } else { p := n - 1; }
  }

  lemma {:induction false} RefusalsInOrder(db: Db, wanted: seq<EvidenceId>, n: nat, i: nat, j: nat)
      returns (p: nat, q: nat)
    requires n <= |wanted| && i < j < |Refusals(db, wanted, n)|
    ensures p < q < n && wanted[p] == Refusals(db, wanted, n)[i].0 && wanted[q] == Refusals(db, wanted, n)[j].0
  {
    if j < |Refusals(db, wanted, n - 1)| {
      p, q := RefusalsInOrder(db, wanted, n - 1, i, j);
    } else {
      p := RefusalAt(db, wanted, n - 1, i);
      q := n - 1;
    }
  }

  /** The refusals are listed in the order in which the links were first named. */
  lemma RefusedInOrder(db: Db, ids: seq<EvidenceId>, reason: Option<Reason>, allowEmpty: bool, i: nat, j: nat)
    requires IsRefused(Applied(db, ids, reason, allowEmpty))
    requires i < j < |Applied(db, ids, reason, allowEmpty).error.refusals|
    ensures var out := Applied(db, ids, reason, allowEmpty).error.refusals; NamedBefore(ids, out[i].0, out[j].0)
  {
    var p, q := RefusalsInOrder(db, Wanted(ids), |Wanted(ids)|, i, j);
    DedupInOrder(ids, |ids|, p, q);
  }

  /** All links of the claim are named, one of them not revoked yet. */
  predicate WouldEmpty(db: Db, ids: seq<EvidenceId>, c: ClaimId) {
    && (exists e :: e in ids && e in db.evidence && db.evidence[e].claim == c && !UnderRevocation(db, e))
    && (forall e :: e in db.evidence && db.evidence[e].claim == c ==> e in ids)
  }

  lemma {:induction false} EmptiedTells(db: Db, ids: seq<EvidenceId>, claims: seq<ClaimId>, n: nat, c: ClaimId)
    requires n <= |claims| && Refusals(db, Wanted(ids), |Wanted(ids)|) == []
    ensures c in Emptied(db, Wanted(ids), Chosen(db, ids), claims, n)
       <==> c in claims[..n] && forall e :: e in db.evidence && db.evidence[e].claim == c ==> e in ids
  {
    if n > 0 {
      EmptiedTells(db, ids, claims, n - 1, c);
      NothingFails(db, ids);
      assert claims[..n] == claims[..n - 1] + [claims[n - 1]];
      assert SeesLeft(db, Wanted(ids), Chosen(db, ids), claims[n - 1])
        == exists e :: e in db.evidence && db.evidence[e].claim == claims[n - 1] && e !in ids;
    }
  }

  lemma LastEvidenceTells(db: Db, ids: seq<EvidenceId>, c: ClaimId)
    requires Refusals(db, Wanted(ids), |Wanted(ids)|) == []
    ensures var cands := Chosen(db, ids); var claims := ClaimsOf(db, cands);
      c in Emptied(db, Wanted(ids), cands, claims, |claims|) <==> WouldEmpty(db, ids, c)
  {
    var cands := Chosen(db, ids);
    var claims := ClaimsOf(db, cands);
    EmptiedTells(db, ids, claims, |claims|, c);
    assert claims[..|claims|] == claims;
    NothingFails(db, ids);
    ClaimsOfMembers(db, cands);
    forall e | e in ids ensures IsRevoked(db, e) <==> UnderRevocation(db, e) {
      InspectTells(db, e);
    }
  }

  /** What an apply answers, from the rows: every refusal is listed with its reason, and nothing else is. */
  lemma ApplyAnswers(db: Db, ids: seq<EvidenceId>, reason: Option<Reason>, allowEmpty: bool)
    ensures reason.None? <==> Applied(db, ids, reason, allowEmpty) == Err(NoReason)
    ensures reason.Some? && ids == [] <==> Applied(db, ids, reason, allowEmpty) == Err(NothingNamed)
    ensures IsRefused(Applied(db, ids, reason, allowEmpty))
       <==> reason.Some? && exists e :: e in ids && !MayRevoke(db, e)
    ensures IsRefused(Applied(db, ids, reason, allowEmpty)) ==> forall e, why ::
      (e, why) in Applied(db, ids, reason, allowEmpty).error.refusals <==> e in ids && WhyNot(db, e, why)
    ensures EmptiesClaims(Applied(db, ids, reason, allowEmpty))
       <==> && reason.Some? && !allowEmpty && (forall e :: e in ids ==> MayRevoke(db, e))
            && exists c :: WouldEmpty(db, ids, c)
    ensures EmptiesClaims(Applied(db, ids, reason, allowEmpty)) ==>
      forall c :: c in Applied(db, ids, reason, allowEmpty).error.claims <==> WouldEmpty(db, ids, c)
  {
    var wanted := Wanted(ids);
    forall e, why ensures (e, why) in Refusals(db, wanted, |wanted|) <==> e in ids && WhyNot(db, e, why) {
      RefusalsTell(db, wanted, |wanted|, e, why);
      assert wanted[..|wanted|] == wanted;
    }
    forall e ensures Inspect(db, e).Fails? <==> !MayRevoke(db, e) { InspectTells(db, e); }
    assert forall e :: e in ids ==> exists i :: 0 <= i < |wanted| && wanted[i] == e;
    if Refusals(db, wanted, |wanted|) == [] {
      var cands := Chosen(db, ids);
      var emptied := Emptied(db, wanted, cands, ClaimsOf(db, cands), |ClaimsOf(db, cands)|);
      forall c ensures c in emptied <==> WouldEmpty(db, ids, c) { LastEvidenceTells(db, ids, c); }
      EmptyOrMember(emptied);
    }
  }

  predicate IsRefused<T>(r: Result<T>) { r.Err? && r.error.Refused? }

  predicate EmptiesClaims<T>(r: Result<T>) { r.Err? && r.error.LastEvidence? }

  // ----- the last-evidence guard -----

  /** A claim that an accepted apply touches: it has a named link that was not revoked before. */
  predicate Touched(db: Db, ids: seq<EvidenceId>, c: ClaimId) {
    exists e :: e in ids && e in db.evidence && db.evidence[e].claim == c && !IsRevoked(db, e)
  }

  /** The rows an apply adds: one for each named link that was not revoked, with the given reason. */
  ghost predicate AddsRows(db: Db, b: Db, ids: seq<EvidenceId>, reason: Reason) {
    && (forall i :: i in db.revs ==> i in b.revs && b.revs[i] == db.revs[i])
    && (forall i :: i in b.revs && i !in db.revs ==>
          var v := b.revs[i];
          && v.evidence in ids && !IsRevoked(db, v.evidence)
          && v == Revocation(v.evidence, ClaimOf(db, v.evidence), reason, false))
  }

  lemma {:induction false} WrittenRows(db: Db, cands: seq<EvidenceId>, reason: Reason, n: nat)
    requires IdsBelow(db) && n <= |cands| && Writable(db, cands)
    ensures AddsRows(db, Written(db, cands, reason, n), cands, reason)
  {
    if n > 0 {
      WrittenRows(db, cands, reason, n - 1);
      WrittenRevokes(db, cands, reason, n - 1);
      WrittenNumbers(db, cands, reason, n - 1);
    }
  }

  lemma {:induction false} WrittenNumbers(db: Db, cands: seq<EvidenceId>, reason: Reason, n: nat)
    requires n <= |cands|
    ensures Written(db, cands, reason, n).nextRev == db.nextRev + n
  {
    if n > 0 { WrittenNumbers(db, cands, reason, n - 1); }
  }

  /** An accepted apply adds those rows ... */
  lemma ApplyLeavesRows(db: Db, ids: seq<EvidenceId>, reason: Option<Reason>, allowEmpty: bool)
    requires Inv(db) && Applied(db, ids, reason, allowEmpty).Ok?
    ensures AddsRows(db, Applied(db, ids, reason, allowEmpty).value, ids, reason.value)
  {
    var cands := Chosen(db, ids);
    NothingFails(db, ids);
    WrittenRows(db, cands, reason.value, |cands|);
    ApplyLands(db, ids, reason, allowEmpty);
  }

  /** ... and takes down exactly the current heads of the claims of newly revoked links. */
  lemma ApplyLeavesHeads(db: Db, ids: seq<EvidenceId>, reason: Option<Reason>, allowEmpty: bool)
    requires Inv(db) && Applied(db, ids, reason, allowEmpty).Ok?
    ensures var b := Applied(db, ids, reason, allowEmpty).value;
      && b.heads.Keys == db.heads.Keys
      && forall t :: t in db.heads ==> b.heads[t] == if HeadFalls(db, ids, t) then Pending else db.heads[t]
  {
    var claims := ClaimsOf(db, Chosen(db, ids));
    var mid := WithRows(db, ids, reason.value);
    WrittenTouchesRevsOnly(db, Chosen(db, ids), reason.value, |Chosen(db, ids)|);
    assert forall t :: HasOpenJob(mid, t) <==> HasOpenJob(db, t);
    CascadeEffect(mid, claims, |claims|);
    assert claims[..|claims|] == claims;
    forall c ensures c in claims <==> Touched(db, ids, c) { FellFor(db, ids, c); }
  }

  predicate HeadFalls(db: Db, ids: seq<EvidenceId>, t: Target)
    requires t in db.heads
  {
    t.snapshot == db.effective && db.heads[t] == Current && Touched(db, ids, t.claim)
  }

  lemma FellFor(db: Db, ids: seq<EvidenceId>, c: ClaimId)
    requires Refusals(db, Wanted(ids), |Wanted(ids)|) == []
    ensures c in ClaimsOf(db, Chosen(db, ids)) <==> Touched(db, ids, c)
  {
    NothingFails(db, ids);
    ClaimsOfMembers(db, Chosen(db, ids));
  }

  /** Every link of the claim that is not named is under an active revocation already. */
  predicate RestIsRevoked(db: Db, ids: seq<EvidenceId>, c: ClaimId) {
    forall e :: e in db.evidence && db.evidence[e].claim == c && e !in ids ==> IsRevoked(db, e)
  }

  /** Whether anything is left to assess after an accepted apply: not what the guard looked at. */
  lemma EmptiedIff(db: Db, ids: seq<EvidenceId>, reason: Option<Reason>, allowEmpty: bool, c: ClaimId)
    requires Inv(db) && Applied(db, ids, reason, allowEmpty).Ok?
    ensures !HasLive(Applied(db, ids, reason, allowEmpty).value, c) <==> RestIsRevoked(db, ids, c)
  {
    var b := Applied(db, ids, reason, allowEmpty).value;
    ApplyKeepsTables(db, ids, reason, allowEmpty);
    forall e | e in db.evidence ensures IsRevoked(b, e) <==> IsRevoked(db, e) || e in ids {
      ApplyRevokes(db, ids, reason, allowEmpty, e);
    }
    if !RestIsRevoked(db, ids, c) {
      var e :| e in db.evidence && db.evidence[e].claim == c && e !in ids && !IsRevoked(db, e);
      assert IsLive(b, c, e);
    }
  }

  /** What the guard does ensure: without the flag, every touched claim has a link that was not named. */
  lemma GuardSeesUnnamed(db: Db, ids: seq<EvidenceId>, reason: Option<Reason>, c: ClaimId)
    requires Inv(db) && Applied(db, ids, reason, false).Ok? && Touched(db, ids, c)
    ensures exists e :: e in db.evidence && db.evidence[e].claim == c && e !in ids
  {
    NothingFails(db, ids);
    var cands := Chosen(db, ids);
    var claims := ClaimsOf(db, cands);
    ClaimsOfMembers(db, cands);
    var named :| named in ids && named in db.evidence && db.evidence[named].claim == c && !IsRevoked(db, named);
    assert c == ClaimOf(db, named) && named in cands;
    assert c in claims;
    var k :| 0 <= k < |claims| && claims[k] == c;
    assert Emptied(db, Wanted(ids), cands, claims, |claims|) == [];
    assert SeesLeft(db, Wanted(ids), cands, claims[k]);
  }

  /** So when no unnamed link of the claim was revoked before, an apply without the flag leaves something. */
  lemma GuardHolds(db: Db, ids: seq<EvidenceId>, reason: Option<Reason>, c: ClaimId)
    requires Inv(db) && Applied(db, ids, reason, false).Ok? && Touched(db, ids, c)
    requires forall e :: e in db.evidence && db.evidence[e].claim == c && e !in ids ==> !IsRevoked(db, e)
    ensures HasLive(Applied(db, ids, reason, false).value, c)
  {
    GuardSeesUnnamed(db, ids, reason, c);
    EmptiedIff(db, ids, reason, false, c);
  }

  // ----- cancel -----

  lemma CancelledEffect(db: Db, ids: seq<nat>)
    requires RevsInv(db)
    ensures RevsInv(Cancelled(db, ids)) && Extends(db, Cancelled(db, ids))
    ensures forall e: EvidenceId :: IsRevoked(Cancelled(db, ids), e) <==>
      exists i :: i in db.revs && i !in ids && ActiveOn(db.revs[i], e)
  {
    var b := Cancelled(db, ids);
    forall e: EvidenceId ensures IsRevoked(b, e) <==> exists i :: i in db.revs && i !in ids && ActiveOn(db.revs[i], e) {
      if i :| i in db.revs && i !in ids && ActiveOn(db.revs[i], e) { assert ActiveOn(b.revs[i], e); }
    }
    forall i, j, e | i in b.revs && j in b.revs && ActiveOn(b.revs[i], e) && ActiveOn(b.revs[j], e) ensures i == j {
      assert ActiveOn(db.revs[i], e) && ActiveOn(db.revs[j], e);
    }
  }

  /** An accepted cancel keeps the rows, ends exactly the named revocations and requeues a claim's head exactly
      when that head is current. */
  lemma CancelEffect(db: Db, ids: seq<nat>, reason: Option<Reason>)
    requires Inv(db) && CancelApplied(db, ids, reason).Ok?
    ensures var b := CancelApplied(db, ids, reason).value;
      Inv(b) && Extends(db, b) && TookDown(Cancelled(db, ids), b, RevokedClaims(db, ids, |ids|))
  {
    var mid := Cancelled(db, ids);
    var claims := RevokedClaims(db, ids, |ids|);
    CancelledEffect(db, ids);
    assert forall t :: HasOpenJob(mid, t) <==> HasOpenJob(db, t);
    CascadeEffect(mid, claims, |claims|);
    assert claims[..|claims|] == claims;
  }

  /** A cancel is refused exactly without a reason, a name or a known row; accepted, a link stays revoked exactly by an
      active row that was not named. */
  lemma CancelAnswers(db: Db, ids: seq<nat>, reason: Option<Reason>)
    requires Inv(db)
    ensures CancelApplied(db, ids, reason).Ok? <==> reason.Some? && ids != [] && forall i :: i in ids ==> i in db.revs
    ensures CancelApplied(db, ids, reason).Ok? ==>
      var b := CancelApplied(db, ids, reason).value;
      forall e: EvidenceId :: IsRevoked(b, e) <==>
        exists i :: i in db.revs && i !in ids && db.revs[i].evidence == e && !db.revs[i].cancelled
  {
    if CancelApplied(db, ids, reason).Ok? {
      CancelEffect(db, ids, reason);
      CancelledEffect(db, ids);
      var b := CancelApplied(db, ids, reason).value;
      forall e: EvidenceId ensures IsRevoked(b, e) <==>
          exists i :: i in db.revs && i !in ids && db.revs[i].evidence == e && !db.revs[i].cancelled {
        assert b.revs == Cancelled(db, ids).revs;
      }
    }
  }

  /** ... and a head falls exactly when it is current, under the effective snapshot, and an active row of its claim was
      named. */
  lemma CancelTakesDown(db: Db, ids: seq<nat>, reason: Option<Reason>, t: Target)
    requires Inv(db) && CancelApplied(db, ids, reason).Ok? && t in db.heads
    ensures var b := CancelApplied(db, ids, reason).value;
      var named := exists i :: i in ids && IsActive(db, i) && db.revs[i].claim == t.claim;
      t in b.heads && b.heads[t] == if t.snapshot == db.effective && db.heads[t] == Current && named
        then Pending else db.heads[t]
  {
    CancelEffect(db, ids, reason);
    var claims := RevokedClaims(db, ids, |ids|);
    if i :| i in ids && IsActive(db, i) && db.revs[i].claim == t.claim {
      var k :| 0 <= k < |ids| && ids[k] == i;
      assert t.claim in claims;
    }
  }

  /** Repeating a cancel writes nothing. */
  lemma RepeatedCancelIsIdle(db: Db, ids: seq<nat>, reason: Option<Reason>, again: Reason)
    requires Inv(db) && CancelApplied(db, ids, reason).Ok?
    ensures var b := CancelApplied(db, ids, reason).value; CancelApplied(b, ids, Some(again)) == Ok(b)
  {
    var b := CancelApplied(db, ids, reason).value;
    CancelEffect(db, ids, reason);
    assert b.revs == Cancelled(db, ids).revs;
    assert Cancelled(b, ids).revs == b.revs;
    forall i | i in ids ensures i in b.revs && !IsActive(b, i) {}
    assert forall c :: c !in RevokedClaims(b, ids, |ids|);
    EmptyOrMember(RevokedClaims(b, ids, |ids|));
  }

  // ----- the worker -----

  lemma StatusKeepsInv(db: Db, j: nat, s: Status)
    requires Inv(db) && j in db.jobs && IsOpen(db.jobs[j])
    requires IsOpen(db.jobs[j].(status := s)) || db.jobs[j].target !in db.heads
      || db.heads[db.jobs[j].target] != Pending
    ensures Inv(WithStatus(db, j, s))
  {
    var b := WithStatus(db, j, s);
    forall t | t in b.heads && b.heads[t] == Pending ensures HasOpenJob(b, t) {
      var i :| i in db.jobs && OpenFor(db.jobs[i], t);
      assert OpenFor(b.jobs[i], t);
    }
    assert forall i, t :: i in b.jobs && OpenFor(b.jobs[i], t) ==> OpenFor(db.jobs[i], t);
    assert OneActive(b);
  }

  /** Settling a head with its job: neither can be pending afterwards. */
  lemma SettleKeepsInv(db: Db, j: nat, h: Head, s: Status)
    requires Inv(db) && j in db.jobs && IsOpen(db.jobs[j]) && db.jobs[j].target in db.heads && h != Pending
    ensures Inv(WithStatus(db.(heads := db.heads[db.jobs[j].target := h]), j, s))
  {
    var mid := db.(heads := db.heads[db.jobs[j].target := h]);
    assert forall t :: HasOpenJob(mid, t) <==> HasOpenJob(db, t);
    assert OneActive(mid) && OneOpenJob(mid);
    StatusKeepsInv(mid, j, s);
  }

  lemma InvalidatedKeepsInv(db: Db, j: nat, s: Status)
    requires Inv(db) && j in db.jobs && IsOpen(db.jobs[j])
    ensures Inv(WithStatus(Invalidated(db, db.jobs[j].target), j, s))
  {
    var t := db.jobs[j].target;
    if t in db.heads && db.heads[t] != Current {
      SettleKeepsInv(db, j, Invalid, s);
    } else {
      StatusKeepsInv(db, j, s);
    }
  }

  lemma ProcessKeepsInv(db: Db, j: nat)
    requires Inv(db) && j in db.jobs
    ensures Inv(Processed(db, j))
  {
    var t := db.jobs[j].target;
    if db.jobs[j].status == Leased {
      if t.snapshot != db.effective { StatusKeepsInv(db, j, Queued); }
      else if t.claim !in db.claims { StatusKeepsInv(db, j, Blocked); }
      else if !HasLive(db, t.claim) { InvalidatedKeepsInv(db, j, Completed); }
      else if t !in db.heads { StatusKeepsInv(db, j, Blocked); }
      else { SettleKeepsInv(db, j, Current, Completed); }
    }
  }

  /** A leased job settles a pending head: current exactly when a live link is left, invalid otherwise, and the
      head has no open job afterwards. */
  lemma ProcessSettles(db: Db, j: nat)
    requires Inv(db) && j in db.jobs && db.jobs[j].status == Leased && db.jobs[j].target.snapshot == db.effective
    requires db.jobs[j].target in db.heads && db.heads[db.jobs[j].target] == Pending
    ensures var t := db.jobs[j].target;
      && Processed(db, j).heads[t] == (if HasLive(db, t.claim) then Current else Invalid)
      && !HasOpenJob(Processed(db, j), t)
  {
    var t := db.jobs[j].target;
    forall i | i in db.jobs && i != j ensures !OpenFor(db.jobs[i], t) { assert OpenFor(db.jobs[j], t); }
  }

  /** What a leased job comes to, in every case. */
  lemma ProcessAnswers(db: Db, j: nat)
    requires j in db.jobs && db.jobs[j].status == Leased
    ensures var t, b := db.jobs[j].target, Processed(db, j);
      var stale, unknown, live := t.snapshot != db.effective, t.claim !in db.claims, HasLive(db, t.claim);
      && j in b.jobs && b.jobs[j].target == t
      && (b.jobs[j].status == Queued <==> stale)
      && (b.jobs[j].status == Blocked <==> !stale && (unknown || (live && t !in db.heads)))
      && (b.jobs[j].status == Completed <==> !stale && !unknown && (!live || t in db.heads))
      && (b.heads != db.heads ==> b.jobs[j].status == Completed)
    ensures var t, b := db.jobs[j].target, Processed(db, j);
      b.jobs[j].status == Completed && t in db.heads ==>
        b.heads == db.heads[t := if HasLive(db, t.claim) || db.heads[t] == Current then Current else Invalid]
    ensures forall i :: i in db.jobs && i != j ==> i in Processed(db, j).jobs && Processed(db, j).jobs[i] == db.jobs[i]
  {
  }

  // ----- every run -----

  predicate IsJobStep(a: Act) { a.Lease? || a.Unlease? || a.RetryLater? || a.Process? || a.BlockJob? }

  /** A job that stays open keeps everything. */
  lemma RequeueKeepsInv(db: Db, j: nat, s: Status)
    requires Inv(db) && j in db.jobs && IsOpen(db.jobs[j]) && (s == Queued || s == Leased || s == Retry)
    ensures Inv(WithStatus(db, j, s))
  {
    StatusKeepsInv(db, j, s);
  }

  lemma JobStepExtends(db: Db, a: Act)
    requires IsJobStep(a)
    ensures Extends(db, Step(db, a))
  {
  }

  lemma JobStepKeepsInv(db: Db, a: Act)
    requires Inv(db) && IsJobStep(a)
    ensures Inv(Step(db, a))
  {
    if Step(db, a) != db {
      match a
      case Lease(j) => RequeueKeepsInv(db, j, Leased);
      case Unlease(j) => RequeueKeepsInv(db, j, Queued);
      case RetryLater(j) => RequeueKeepsInv(db, j, Retry);
      case Process(j) => ProcessKeepsInv(db, j);
      case BlockJob(j) => InvalidatedKeepsInv(db, j, Blocked);
    }
  }

  /** How an act moves its job from one status to the next. */
  predicate MayMove(db: Db, a: Act, from: Status, to: Status)
    requires IsJobStep(a) && a.job in db.jobs
  {
    match a
    case Lease(j) => (from.Queued? || from.Retry?) && to.Leased? && db.jobs[j].target.snapshot == db.effective
    case Unlease(_) => from.Leased? && to.Queued?
    case RetryLater(_) => from.Leased? && to.Retry?
    case BlockJob(_) => from.Leased? && to.Blocked?
    case Process(_) => from.Leased? && (to.Queued? || to.Blocked? || to.Completed?)
  }

  /** A job moves exactly along these lines, by an act on itself. */
  lemma JobMoves(db: Db, a: Act, j: nat)
    requires IsJobStep(a) && a.job in db.jobs && j in db.jobs
    ensures j in Step(db, a).jobs && Step(db, a).jobs[j].target == db.jobs[j].target
    ensures var from, to := db.jobs[j].status, Step(db, a).jobs[j].status;
      to != from ==> j == a.job && MayMove(db, a, from, to)
    ensures var from, to := db.jobs[j].status, Step(db, a).jobs[j].status;
      j == a.job && (exists s :: MayMove(db, a, from, s)) ==> to != from
  {
    if a.Process? && db.jobs[a.job].status == Leased { ProcessAnswers(db, a.job); }
  }

  /** A job that is given up takes its head along, unless that is current. */
  lemma BlockTakesHead(db: Db, j: nat)
    requires j in db.jobs && db.jobs[j].status == Leased && db.jobs[j].target in db.heads
    ensures var t := db.jobs[j].target;
      Step(db, BlockJob(j)).heads == db.heads[t := if db.heads[t] == Current then Current else Invalid]
  {
  }

  lemma PreparedKeepsQueue(db: Db, s: SnapshotId, sameRule: set<ClaimId>, c: ClaimId)
    requires QueueInv(db) && c in db.claims
    ensures QueueInv(PreparedOne(db, s, sameRule, c))
  {
    if IsCarried(db, sameRule, c) {
      assert forall u :: HasOpenJob(PreparedOne(db, s, sameRule, c), u) <==> HasOpenJob(db, u);
    } else {
      AwaitingKeepsQueue(db, Target(c, s));
    }
  }

  /** Preparing changes heads of the candidate snapshot and adds jobs, nothing else. */
  ghost predicate OnlyPrepares(a: Db, b: Db, s: SnapshotId) {
    && b == a.(heads := b.heads, jobs := b.jobs, nextJob := b.nextJob)
    && (forall t: Target :: t.snapshot != s ==> (t in b.heads <==> t in a.heads))
    && (forall t :: t in a.heads && t.snapshot != s && t in b.heads ==> b.heads[t] == a.heads[t])
    && (forall i :: i in a.jobs ==> i in b.jobs && b.jobs[i] == a.jobs[i])
    && (forall i :: i in b.jobs && i !in a.jobs ==> b.jobs[i].target.snapshot == s)
  }

  lemma {:induction false} PreparedEffect(db: Db, s: SnapshotId, sameRule: set<ClaimId>, order: seq<ClaimId>, n: nat)
    requires QueueInv(db) && n <= |order| && s != db.effective && forall c :: c in order ==> c in db.claims
    ensures QueueInv(PreparedAll(db, s, sameRule, order, n))
    ensures OnlyPrepares(db, PreparedAll(db, s, sameRule, order, n), s)
  {
    if n > 0 {
      PreparedEffect(db, s, sameRule, order, n - 1);
      PreparedKeepsQueue(PreparedAll(db, s, sameRule, order, n - 1), s, sameRule, order[n - 1]);
      PreparesOneMore(db, PreparedAll(db, s, sameRule, order, n - 1), s, sameRule, order[n - 1]);
    }
  }

  lemma PreparesOneMore(db: Db, mid: Db, s: SnapshotId, sameRule: set<ClaimId>, c: ClaimId)
    requires QueueInv(mid) && OnlyPrepares(db, mid, s)
    ensures OnlyPrepares(db, PreparedOne(mid, s, sameRule, c), s)
  {
    PreparesOne(mid, s, sameRule, c);
    PreparesOn(db, mid, PreparedOne(mid, s, sameRule, c), s);
  }

  lemma PreparesOne(mid: Db, s: SnapshotId, sameRule: set<ClaimId>, c: ClaimId)
    requires QueueInv(mid)
    ensures OnlyPrepares(mid, PreparedOne(mid, s, sameRule, c), s)
  {
  }

  lemma PreparesOn(a: Db, b: Db, c: Db, s: SnapshotId)
    requires OnlyPrepares(a, b, s) && OnlyPrepares(b, c, s)
    ensures OnlyPrepares(a, c, s)
  {
  }

  /** The claim's head under the new snapshot: current when it was carried over, pending otherwise. */
  ghost predicate HasPreparedHead(db: Db, b: Db, s: SnapshotId, sameRule: set<ClaimId>, c: ClaimId) {
    Target(c, s) in b.heads
      && b.heads[Target(c, s)] == if HasCurrentHead(db, c) && c in sameRule then Current else Pending
  }

  lemma PreparedStep(db: Db, mid: Db, s: SnapshotId, sameRule: set<ClaimId>, d: ClaimId, c: ClaimId)
    requires s != db.effective && OnlyPrepares(db, mid, s) && (c == d || HasPreparedHead(db, mid, s, sameRule, c))
    ensures HasPreparedHead(db, PreparedOne(mid, s, sameRule, d), s, sameRule, c)
  {
    assert HeadState(mid, d) == HeadState(db, d);
  }

  lemma {:induction false} PreparedHead(db: Db, s: SnapshotId, sameRule: set<ClaimId>, order: seq<ClaimId>, n: nat,
      c: ClaimId)
    requires QueueInv(db) && n <= |order| && s != db.effective && c in order[..n]
    requires forall d :: d in order ==> d in db.claims
    ensures HasPreparedHead(db, PreparedAll(db, s, sameRule, order, n), s, sameRule, c)
  {
    PreparedEffect(db, s, sameRule, order, n - 1);
    assert order[..n] == order[..n - 1] + [order[n - 1]];
    if order[n - 1] != c { PreparedHead(db, s, sameRule, order, n - 1, c); }
    PreparedStep(db, PreparedAll(db, s, sameRule, order, n - 1), s, sameRule, order[n - 1], c);
  }

  lemma ActivateKeepsInv(db: Db, s: SnapshotId, order: seq<ClaimId>, sameRule: set<ClaimId>)
    requires Inv(db) && CanActivate(db, s, order)
    ensures Inv(Activated(db, s, order, sameRule)) && Extends(db, Activated(db, s, order, sameRule))
  {
    PreparedEffect(db, s, sameRule, order, |order|);
    var mid := PreparedAll(db, s, sameRule, order, |order|);
    MovingKeepsInv(mid, s);
  }

  lemma MovingKeepsInv(db: Db, s: SnapshotId)
    requires Inv(db)
    ensures Inv(db.(effective := s))
  {
    assert forall t :: HasOpenJob(db.(effective := s), t) <==> HasOpenJob(db, t);
    assert OneActive(db.(effective := s)) && OneOpenJob(db.(effective := s));
  }

  /** So an activation looks again at a claim whose old head was given up: its new head is pending with a job. */
  lemma ActivationLooksAgain(db: Db, s: SnapshotId, order: seq<ClaimId>, sameRule: set<ClaimId>, c: ClaimId)
    requires Inv(db) && CanActivate(db, s, order) && Abandoned(db, Target(c, db.effective))
    ensures var b := Activated(db, s, order, sameRule);
      Target(c, s) in b.heads && b.heads[Target(c, s)] == Pending && HasOpenJob(b, Target(c, s))
  {
    assert order[..|order|] == order;
    PreparedHead(db, s, sameRule, order, |order|, c);
    ActivateKeepsInv(db, s, order, sameRule);
  }

  lemma CommitKeepsInv(db: Db, row: Evidence, under: SnapshotId)
    requires Inv(db) && RowOk(row)
    ensures Inv(Committed(db, row, under)) && Extends(db, Committed(db, row, under))
  {
    var b := Committed(db, row, under);
    assert forall t :: HasOpenJob(b, t) <==> HasOpenJob(db, t);
    assert OneActive(b) && OneOpenJob(b);
  }

  lemma StepKeepsInv(db: Db, a: Act)
    requires Inv(db)
    ensures Inv(Step(db, a)) && Extends(db, Step(db, a))
  {
    match a
    case Apply(ids, reason, allowEmpty) =>
      if Applied(db, ids, reason, allowEmpty).Ok? { ApplyKeepsInv(db, ids, reason, allowEmpty); }
    case Cancel(revs, why) =>
      if CancelApplied(db, revs, why).Ok? { CancelEffect(db, revs, why); }
    case Activate(s, order, sameRule) => if CanActivate(db, s, order) { ActivateKeepsInv(db, s, order, sameRule); }
    case Commit(row, under) => if RowOk(row) { CommitKeepsInv(db, row, under); }
    case _ =>
      JobStepKeepsInv(db, a);
      JobStepExtends(db, a);
  }

  function RunFrom(db: Db, acts: seq<Act>): Db {
    if acts == [] then db else Step(RunFrom(db, acts[..|acts| - 1]), acts[|acts| - 1])
  }

  /** Over every run: at most one active revocation a link, exactly one open job for every pending head,
      evidence untouched, revocation rows never deleted, edited or un-cancelled. */
  lemma {:induction false} RunKeepsInv(db: Db, acts: seq<Act>)
    requires Inv(db)
    ensures Inv(RunFrom(db, acts)) && Extends(db, RunFrom(db, acts))
  {
    if acts != [] {
      RunKeepsInv(db, acts[..|acts| - 1]);
      StepKeepsInv(RunFrom(db, acts[..|acts| - 1]), acts[|acts| - 1]);
    }
  }

  // ----- an invalid head is not reached by a cancel -----

  /** The head is invalid and nothing in the queue will look at it again. */
  ghost predicate Abandoned(db: Db, t: Target) { t in db.heads && db.heads[t] == Invalid && !HasOpenJob(db, t) }

  /** The cascade reaches current heads only, so it adds no job for an abandoned one. */
  lemma {:induction false} CascadeLeavesAbandoned(db: Db, claims: seq<ClaimId>, n: nat, t: Target)
    requires n <= |claims| && Abandoned(db, t)
    ensures Abandoned(CascadedAll(db, claims, n), t)
  {
    if n > 0 { CascadeLeavesAbandoned(db, claims, n - 1, t); }
  }

  /** A session's commit on the claim under the head's snapshot, or another activation of that snapshot. */
  predicate MayPromote(a: Act, t: Target) {
    (a.Commit? && Target(a.row.claim, a.under) == t) || (a.Activate? && a.snapshot == t.snapshot)
  }

  /** ... that goes through. */
  predicate Promotes(db: Db, a: Act, t: Target) {
    MayPromote(a, t) && (a.Commit? ==> RowOk(a.row)) && (a.Activate? ==> CanActivate(db, a.snapshot, a.order))
  }

  /** Only those get an abandoned head out. */
  lemma AbandonedUntil(db: Db, a: Act, t: Target)
    requires Inv(db) && Abandoned(db, t)
    ensures Abandoned(Step(db, a), t) <==> !Promotes(db, a, t)
  {
    if !Promotes(db, a, t) {
      if MayPromote(a, t) { assert Step(db, a) == db; } else { StepLeavesAbandoned(db, a, t); }
    } else if a.Activate? {
      assert a.order[..|a.order|] == a.order && t.claim in db.claims;
      PreparedHead(db, a.snapshot, a.sameRule, a.order, |a.order|, t.claim);
    }
  }

  lemma StepLeavesAbandoned(db: Db, a: Act, t: Target)
    requires Inv(db) && Abandoned(db, t) && !MayPromote(a, t)
    ensures Abandoned(Step(db, a), t)
  {
    match a
    case Apply(ids, reason, allowEmpty) =>
      if Applied(db, ids, reason, allowEmpty).Ok? {
        var cands := Chosen(db, ids);
        var claims := ClaimsOf(db, cands);
        WrittenTouchesRevsOnly(db, cands, reason.value, |cands|);
        assert Abandoned(Written(db, cands, reason.value, |cands|), t);
        CascadeLeavesAbandoned(Written(db, cands, reason.value, |cands|), claims, |claims|, t);
      }
    case Cancel(revs, why) =>
      if CancelApplied(db, revs, why).Ok? {
        var claims := RevokedClaims(db, revs, |revs|);
        assert Abandoned(Cancelled(db, revs), t);
        CascadeLeavesAbandoned(Cancelled(db, revs), claims, |claims|, t);
      }
    case Activate(s, order, sameRule) => if CanActivate(db, s, order) { PreparedLeavesAbandoned(db, s, order, sameRule,
      t); }
    case Commit(row, under) => assert forall u :: HasOpenJob(Step(db, a), u) <==> HasOpenJob(db, u);
    case _ => JobStepLeavesAbandoned(db, a, t);
  }

  /** A step on a job of another target changes neither this head nor its queue. */
  lemma OtherJobLeaves(db: Db, j: nat, h: Head, s: Status, t: Target)
    requires Abandoned(db, t) && j in db.jobs && db.jobs[j].target != t
    ensures Abandoned(WithStatus(db, j, s), t)
    ensures Abandoned(WithStatus(db.(heads := db.heads[db.jobs[j].target := h]), j, s), t)
  {
    assert forall i :: i in db.jobs ==> !OpenFor(db.jobs[i], t);
  }

  lemma PreparedLeavesAbandoned(db: Db, s: SnapshotId, order: seq<ClaimId>, sameRule: set<ClaimId>, t: Target)
    requires Inv(db) && Abandoned(db, t) && CanActivate(db, s, order) && t.snapshot != s
    ensures Abandoned(Activated(db, s, order, sameRule), t)
  {
    PreparedEffect(db, s, sameRule, order, |order|);
    var b := Activated(db, s, order, sameRule);
    forall i | i in b.jobs ensures !OpenFor(b.jobs[i], t) { assert i in db.jobs ==> !OpenFor(db.jobs[i], t); }
  }

  lemma JobStepLeavesAbandoned(db: Db, a: Act, t: Target)
    requires Abandoned(db, t) && IsJobStep(a)
    ensures Abandoned(Step(db, a), t)
  {
    if Step(db, a) != db {
      assert OpenFor(db.jobs[a.job], db.jobs[a.job].target) && db.jobs[a.job].target != t;
      match a
      case Lease(j) => OtherJobLeaves(db, j, Current, Leased, t);
      case Unlease(j) => OtherJobLeaves(db, j, Current, Queued, t);
      case RetryLater(j) => OtherJobLeaves(db, j, Current, Retry, t);
      case BlockJob(j) => OtherJobLeaves(db, j, Invalid, Blocked, t);
      case Process(j) => ProcessLeavesAbandoned(db, j, t);
    }
  }

  lemma ProcessLeavesAbandoned(db: Db, j: nat, t: Target)
    requires Abandoned(db, t) && j in db.jobs && db.jobs[j].target != t
    ensures Abandoned(Processed(db, j), t)
  {
    OtherJobLeaves(db, j, Current, Queued, t);
    OtherJobLeaves(db, j, Current, Blocked, t);
    OtherJobLeaves(db, j, Invalid, Completed, t);
    OtherJobLeaves(db, j, Current, Completed, t);
  }

  /** Whatever is applied, cancelled or processed later, the head stays invalid as long as no session commits on its
      claim and its snapshot is not activated again. */
  lemma {:induction false} AbandonedForever(db: Db, acts: seq<Act>, t: Target)
    requires Inv(db) && Abandoned(db, t) && forall i :: 0 <= i < |acts| ==> !MayPromote(acts[i], t)
    ensures Abandoned(RunFrom(db, acts), t)
  {
    if acts != [] {
      AbandonedForever(db, acts[..|acts| - 1], t);
      RunKeepsInv(db, acts[..|acts| - 1]);
      StepLeavesAbandoned(RunFrom(db, acts[..|acts| - 1]), acts[|acts| - 1], t);
    }
  }

  /** After a cancel that gives the claim live evidence again, a pending head has its one job and an
      invalid one gets none: the head is looked at again exactly when it is not abandoned. */
  lemma CancelRequeuesIff(db: Db, ids: seq<nat>, reason: Option<Reason>, i: nat)
    requires Inv(db) && CancelApplied(db, ids, reason).Ok? && i in ids && IsActive(db, i)
    requires Target(db.revs[i].claim, db.effective) in db.heads
    ensures var t := Target(db.revs[i].claim, db.effective);
      HasOpenJob(CancelApplied(db, ids, reason).value, t) <==> !Abandoned(db, t)
  {
    var t := Target(db.revs[i].claim, db.effective);
    var b := CancelApplied(db, ids, reason).value;
    CancelEffect(db, ids, reason);
    if Abandoned(db, t) {
      StepLeavesAbandoned(db, Cancel(ids, reason), t);
    } else if db.heads[t] == Current {
      var k :| 0 <= k < |ids| && ids[k] == i;
      assert t.claim in RevokedClaims(db, ids, |ids|);
      assert b.heads[t] == Pending;
    } else {
      assert HasOpenJob(db, t);
      var j :| j in db.jobs && OpenFor(db.jobs[j], t);
      assert OpenFor(b.jobs[j], t);
    }
  }

  // ----- one command after another on one claim -----

  const ROW := Evidence(7, Some(3), Some(ValueAbsent))
  const HEAD := Target(7, 0)

  /** A claim with the given links, nothing revoked and its head current. */
  function Fresh(evidence: map<EvidenceId, Evidence>): Db {
    Db(evidence, {7}, {}, 0, map[], map[HEAD := Current], map[], 3, 0, 0)
  }

  lemma FreshIsInv(evidence: map<EvidenceId, Evidence>)
    requires forall e :: e in evidence ==> e < 3 && RowOk(evidence[e])
    ensures Inv(Fresh(evidence))
  {
  }

  lemma OneWanted(e: EvidenceId)
    ensures Wanted([e]) == [e]
  {
    assert Dedup([e], 0) == [];
    assert Dedup([e], 1) == [e];
  }

  /** A command that names one link, written out. */
  lemma ApplyOne(db: Db, e: EvidenceId, reason: Reason, allowEmpty: bool)
    requires Inspect(db, e) == Candidate
    requires allowEmpty || SeesLeft(db, [e], [e], ClaimOf(db, e))
    ensures Applied(db, [e], Some(reason), allowEmpty)
         == Ok(Cascaded(WithRow(db, NewRow(db, e, reason)), ClaimOf(db, e)))
  {
    var c := ClaimOf(db, e);
    OneWanted(e);
    OneWanted(c);
    assert Refusals(db, [e], 0) == [] && Refusals(db, [e], 1) == [];
    assert Candidates(db, [e], 0) == [] && Candidates(db, [e], 1) == [e];
    assert Chosen(db, [e]) == [e];
    assert seq(1, i requires 0 <= i < 1 => ClaimOf(db, [e][i])) == [c];
    assert ClaimsOf(db, [e]) == [c];
    assert Emptied(db, [e], [e], [c], 0) == [];
    assert Written(db, [e], reason, 0) == db && Written(db, [e], reason, 1) == WithRow(db, NewRow(db, e, reason));
    assert CascadedAll(WithRow(db, NewRow(db, e, reason)), [c], 1) == Cascaded(WithRow(db, NewRow(db, e, reason)), c);
  }

  const TWO := map[1 := ROW, 2 := ROW]

  /** Two links of one claim, the first of them revoked and the head current again. */
  const HALF := Db(TWO, {7}, {}, 0, map[0 := Revocation(1, 7, 0, false)],
    map[HEAD := Current], map[0 := Job(HEAD, Completed)], 3, 1, 1)

  lemma RunOfThree(db: Db, a: Act, b: Act, c: Act)
    ensures RunFrom(db, [a, b, c]) == Step(Step(Step(db, a), b), c)
  {
    assert [a, b, c][..2] == [a, b] && [a, b][..1] == [a] && [a][..0] == [];
    assert RunFrom(db, []) == db;
    assert RunFrom(db, [a]) == Step(db, a);
    assert RunFrom(db, [a, b]) == Step(Step(db, a), b);
  }

  /** The state after the first link of a fresh claim is revoked. */
  function Taken(evidence: map<EvidenceId, Evidence>): Db {
    Fresh(evidence).(revs := map[0 := Revocation(1, 7, 0, false)], nextRev := 1, heads := map[HEAD := Pending],
                     jobs := map[0 := Job(HEAD, Queued)], nextJob := 1)
  }

  lemma FreshCascade(evidence: map<EvidenceId, Evidence>)
    requires 1 in evidence && evidence[1] == ROW
    ensures Inspect(Fresh(evidence), 1) == Candidate
    ensures Cascaded(WithRow(Fresh(evidence), NewRow(Fresh(evidence), 1, 0)), 7) == Taken(evidence)
  {
  }

  lemma RevokedOnce(evidence: map<EvidenceId, Evidence>, allowEmpty: bool)
    requires 1 in evidence && evidence[1] == ROW && (allowEmpty || (2 in evidence && evidence[2] == ROW))
    ensures Step(Fresh(evidence), Apply([1], Some(0), allowEmpty)) == Taken(evidence)
  {
    FreshCascade(evidence);
    if !allowEmpty { assert !CountedRevoked(Fresh(evidence), [1], [1], 2); }
    ApplyOne(Fresh(evidence), 1, 0, allowEmpty);
  }

  /** It is reached: one revocation, and the worker assesses the claim by its second link. */
  lemma HalfIsReached()
    ensures Inv(Fresh(TWO)) && RunFrom(Fresh(TWO), [Apply([1], Some(0), false), Lease(0), Process(0)]) == HALF
  {
    FreshIsInv(TWO);
    RevokedOnce(TWO, false);
    RunOfThree(Fresh(TWO), Apply([1], Some(0), false), Lease(0), Process(0));
    HalfIsAssessed();
  }

  lemma HalfIsAssessed()
    ensures Step(Step(Taken(TWO), Lease(0)), Process(0)) == HALF
  {
    var leased := WithStatus(Taken(TWO), 0, Leased);
    assert IsLive(leased, 7, 2);
    assert Processed(leased, 0) == HALF;
  }

  lemma HalfInspects()
    ensures !IsRevoked(HALF, 2) && IsRevoked(HALF, 1) && Inspect(HALF, 2) == Candidate
    ensures Touched(HALF, [2], 7) && RestIsRevoked(HALF, [2], 7)
  {
    assert ActiveOn(HALF.revs[0], 1);
  }

  /** From a fresh claim with two links: after the first is revoked and the claim assessed again, the last one is
      revoked without the flag. The guard counts the first link as left because it is not among the named ones. */
  lemma GuardMissesEarlierRevocation()
    ensures RunFrom(Fresh(TWO), [Apply([1], Some(0), false), Lease(0), Process(0)]) == HALF && Touched(HALF, [2], 7)
    ensures Applied(HALF, [2], Some(0), false).Ok? && !HasLive(Applied(HALF, [2], Some(0), false).value, 7)
  {
    HalfIsReached();
    HalfInspects();
    assert HALF.evidence[1].claim == 7 && !CountedRevoked(HALF, [2], [2], 1);
    ApplyOne(HALF, 2, 0, false);
    RunKeepsInv(Fresh(TWO), [Apply([1], Some(0), false), Lease(0), Process(0)]);
    EmptiedIff(HALF, [2], Some(0), false, 7);
  }

  const ONE := map[1 := ROW]

  /** The only link revoked, and the worker found nothing to assess. */
  const EMPTIED := Db(ONE, {7}, {}, 0, map[0 := Revocation(1, 7, 0, false)],
    map[HEAD := Invalid], map[0 := Job(HEAD, Completed)], 3, 1, 1)

  lemma EmptiedIsReached()
    ensures Inv(Fresh(ONE)) && RunFrom(Fresh(ONE), [Apply([1], Some(0), true), Lease(0), Process(0)]) == EMPTIED
  {
    FreshIsInv(ONE);
    RevokedOnce(ONE, true);
    RunOfThree(Fresh(ONE), Apply([1], Some(0), true), Lease(0), Process(0));
    NothingToAssess();
  }

  lemma NothingToAssess()
    ensures Step(Step(Taken(ONE), Lease(0)), Process(0)) == EMPTIED
  {
    var leased := WithStatus(Taken(ONE), 0, Leased);
    assert ActiveOn(leased.revs[0], 1);
    assert !HasLive(leased, 7);
    assert Processed(leased, 0) == EMPTIED;
  }

  /** From a fresh claim with one link: revoked, assessed, and the revocation cancelled. The link is live again, the
      cancel was accepted, and the head stays invalid without a job. */
  lemma CancelLeavesInvalid()
    ensures RunFrom(Fresh(ONE), [Apply([1], Some(0), true), Lease(0), Process(0)]) == EMPTIED
    ensures CancelApplied(EMPTIED, [0], Some(0)).Ok?
    ensures var b := CancelApplied(EMPTIED, [0], Some(0)).value; HasLive(b, 7) && Abandoned(b, HEAD)
  {
    EmptiedIsReached();
    assert IsActive(EMPTIED, 0);
    assert CancelApplied(EMPTIED, [0], Some(0)).Ok?;
    RunKeepsInv(Fresh(ONE), [Apply([1], Some(0), true), Lease(0), Process(0)]);
    StepLeavesAbandoned(EMPTIED, Cancel([0], Some(0)), HEAD);
    CancelEffect(EMPTIED, [0], Some(0));
    CancelledEffect(EMPTIED, [0]);
    var b := CancelApplied(EMPTIED, [0], Some(0)).value;
    assert b.revs == Cancelled(EMPTIED, [0]).revs && b.evidence == ONE;
    assert IsLive(b, 7, 1);
  }

  // ----- the store -----

  class Journal {
    var evidence: map<EvidenceId, Evidence>
    var claims: set<ClaimId>
    var corrected: set<SourceId>
    var effective: SnapshotId
    var revs: map<nat, Revocation>
    var heads: map<Target, Head>
    var jobs: map<nat, Job>
    var nextEvidence: nat
    var nextRev: nat
    var nextJob: nat

    function Now(): Db
      reads this
    {
      Db(evidence, claims, corrected, effective, revs, heads, jobs, nextEvidence, nextRev, nextJob)
    }

    /** Order kept, repeats dropped. */
    method WithoutRepeats(ids: seq<nat>) returns (out: seq<nat>)
      ensures out == Wanted(ids)
    {
      out := [];
      var seen: set<nat> := {};
      for n := 0 to |ids|
        invariant out == Dedup(ids, n) && forall x :: x in seen <==> x in out
      {
        if ids[n] !in seen {
          seen := seen + {ids[n]};
          out := out + [ids[n]];
        }
      }
    }

    /** The checks of all named links; a single failure refuses the command. */
    method CheckLinks(wanted: seq<EvidenceId>) returns (refusals: seq<(EvidenceId, Why)>, cands: seq<EvidenceId>)
      requires forall i, j :: 0 <= i < j < |wanted| ==> wanted[i] != wanted[j]
      ensures refusals == Refusals(Now(), wanted, |wanted|) && cands == Candidates(Now(), wanted, |wanted|)
    {
      refusals, cands := [], [];
      for n := 0 to |wanted|
        invariant refusals == Refusals(Now(), wanted, n) && cands == Candidates(Now(), wanted, n)
      {
        match Inspect(Now(), wanted[n])
        case Fails(why) => refusals := refusals + [(wanted[n], why)];
        case Already =>
        case Candidate => cands := cands + [wanted[n]];
      }
    }

    method ClaimsLeftEmpty(wanted: seq<EvidenceId>, cands: seq<EvidenceId>, affected: seq<ClaimId>)
        returns (out: seq<ClaimId>)
      ensures out == Emptied(Now(), wanted, cands, affected, |affected|)
    {
      out := [];
      for n := 0 to |affected|
        invariant out == Emptied(Now(), wanted, cands, affected, n)
      {
        if !SeesLeft(Now(), wanted, cands, affected[n]) { out := out + [affected[n]]; }
      }
    }

    method WriteRevocations(cands: seq<EvidenceId>, reason: Reason)
      modifies this
      ensures Now() == Written(old(Now()), cands, reason, |cands|)
    {
      for n := 0 to |cands|
        invariant Now() == Written(old(Now()), cands, reason, n) && evidence == old(evidence)
      {
        revs := revs[nextRev := NewRow(Now(), cands[n], reason)];
        nextRev := nextRev + 1;
      }
    }

    method CascadeClaim(c: ClaimId) returns (taken: nat, created: nat)
      modifies this
      ensures Now() == Cascaded(old(Now()), c)
      ensures taken == if HeadState(old(Now()), c) == Some(Current) then 1 else 0
      ensures nextJob == old(nextJob) + created
    {
      var t := Target(c, effective);
      if t !in heads || heads[t] != Current { return 0, 0; }
      var queued := exists i :: i in jobs && OpenFor(jobs[i], t);
      heads := heads[t := Pending];
      if queued { return 1, 0; }
      jobs := jobs[nextJob := Job(t, Queued)];
      nextJob := nextJob + 1;
      return 1, 1;
    }

    method CascadeClaims(affected: seq<ClaimId>) returns (created: nat)
      modifies this
      ensures Now() == CascadedAll(old(Now()), affected, |affected|)
      ensures nextJob == old(nextJob) + created
    {
      created := 0;
      for n := 0 to |affected|
        invariant Now() == CascadedAll(old(Now()), affected, n) && nextJob == old(nextJob) + created
      {
        var taken, more := CascadeClaim(affected[n]);
        created := created + more;
      }
    }

    /** Everything an apply decides before its first write. */
    method Decide(ids: seq<EvidenceId>, reason: Option<Reason>, allowEmpty: bool) returns (r: Result<seq<EvidenceId>>)
      ensures r.Err? ==> Applied(Now(), ids, reason, allowEmpty) == Err(r.error)
      ensures r.Ok? ==> r.value == Chosen(Now(), ids) && reason.Some? && Applied(Now(), ids, reason, allowEmpty).Ok?
      ensures IsRefused(r) <==> reason.Some? && exists e :: e in ids && !MayRevoke(Now(), e)
      ensures IsRefused(r) ==>
        forall e, why :: (e, why) in r.error.refusals <==> e in ids && WhyNot(Now(), e, why)
      ensures EmptiesClaims(r) ==> forall c :: c in r.error.claims <==> WouldEmpty(Now(), ids, c)
    {
      ApplyAnswers(Now(), ids, reason, allowEmpty);
      if reason.None? { return Err(NoReason); }
      var wanted := WithoutRepeats(ids);
      if wanted == [] {
        EmptyOrMember(ids);
        return Err(NothingNamed);
      }
      var refusals, cands := CheckLinks(wanted);
      if refusals != [] { return Err(Refused(refusals)); }
      assert cands == Chosen(Now(), ids);
      var emptied := ClaimsLeftEmpty(wanted, cands, ClaimsOf(Now(), cands));
      if emptied != [] && !allowEmpty { return Err(LastEvidence(emptied)); }
      return Ok(cands);
    }

    /** apply_link_revocations: writes everything or, when refused, nothing. */
    method ApplyRevocations(ids: seq<EvidenceId>, reason: Option<Reason>, allowEmpty: bool) returns (r: Result<nat>)
      modifies this
      ensures r.Ok? ==> Applied(old(Now()), ids, reason, allowEmpty) == Ok(Now()) && nextJob == old(nextJob) + r.value
      ensures r.Err? ==> Applied(old(Now()), ids, reason, allowEmpty) == Err(r.error) && Now() == old(Now())
      ensures r.Ok? ==> ids != [] && forall e :: e in ids ==> MayRevoke(old(Now()), e)
    {
      ApplyAnswers(Now(), ids, reason, allowEmpty);
      var plan := Decide(ids, reason, allowEmpty);
      if plan.Err? { return Err(plan.error); }
      var affected := ClaimsOf(Now(), plan.value);
      WrittenTouchesRevsOnly(Now(), plan.value, reason.value, |plan.value|);
      WriteRevocations(plan.value, reason.value);
      var created := CascadeClaims(affected);
      return Ok(created);
    }

    /** cancel_link_revocations: the rows stay, their cancellation is filled in. */
    method CancelRevocations(ids: seq<nat>, reason: Option<Reason>) returns (r: Result<nat>)
      modifies this
      ensures r.Ok? ==> CancelApplied(old(Now()), ids, reason) == Ok(Now()) && nextJob == old(nextJob) + r.value
      ensures r.Err? ==> CancelApplied(old(Now()), ids, reason) == Err(r.error) && Now() == old(Now())
    {
      if reason.None? { return Err(NoReason); }
      if ids == [] { return Err(NothingNamed); }
      if exists i :: i in ids && i !in revs { return Err(UnknownRevocation); }
      var affected := MarkCancelled(ids);
      var created := CascadeClaims(affected);
      return Ok(created);
    }

    method MarkCancelled(ids: seq<nat>) returns (affected: seq<ClaimId>)
      requires forall i :: i in ids ==> i in revs
      modifies this
      ensures Now() == Cancelled(old(Now()), ids) && affected == RevokedClaims(old(Now()), ids, |ids|)
    {
      affected := [];
      for n := 0 to |ids|
        invariant Now() == old(Now()).(revs := revs) && revs == Cancelled(old(Now()), ids[..n]).revs
        invariant affected == RevokedClaims(old(Now()), ids, n)
      {
        assert ids[..n + 1] == ids[..n] + [ids[n]];
        var row := revs[ids[n]];
        if !row.cancelled {
          revs := revs[ids[n] := row.(cancelled := true)];
          if row.claim !in affected { affected := affected + [row.claim]; }
        }
      }
      assert ids[..|ids|] == ids;
    }
  }
}
