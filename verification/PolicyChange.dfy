/** Installing and resolving the host recovery policy under crashes
    (hostctl/policy_change.py).

    State is the change head, the event files and the override file. Every file
    publication is one atomic step; only these two commands write the override. */
module PolicyChange {
  import opened Basics

  type Id = nat
  type Hash = nat

  /** A policy file as its reader sees it. */
  datatype PolicyFile = Absent | Invalid | Valid(hash: Hash)

  datatype Event =
    | Prepared(was: Option<Hash>, proposed: Hash)
    | Committed(effective: Hash)
    | ResolutionPrepared(observed: Option<Hash>, replacement: Hash)
    | ResolvedEvent(effective: Hash)

  datatype Head = Head(change: Id, was: Option<Hash>, proposed: Hash, prepared: Event)

  /** `latest` is history, not a file: the change whose head was removed last. */
  datatype Disk = Disk(head: Option<Head>, events: map<Id, map<nat, Event>>, file: PolicyFile, latest: Option<Id>)

  function Files(d: Disk, c: Id): map<nat, Event> { if c in d.events then d.events[c] else map[] }

  predicate Terminal(e: Event) { e.Committed? || e.ResolvedEvent? }

  // ----- the commands as sequences of publications -----

  /** The next event gets the number of files plus one. */
  function Publish(d: Disk, c: Id, e: Event): Disk {
    var files := Files(d, c);
    d.(events := d.events[c := files[|files| + 1 := e]])
  }

  function RemoveHead(d: Disk): Disk {
    if d.head.Some? then d.(head := None, latest := Some(d.head.value.change)) else d
  }

  datatype Error = ChangeInProgress | AlreadyCurrent | NoActiveChange | NeedsChoice | PolicyError

  /** The hash of the current policy: a valid override, else the baseline; an unreadable baseline raises. */
  function CurrentHash(file: PolicyFile, baseline: PolicyFile): Result<Option<Hash>> {
    match file
    case Valid(h) => Ok(Some(h))
    case _ =>
      match baseline
      case Valid(h) => Ok(Some(h))
      case Absent => Ok(None)
      case Invalid => Err(PolicyError)
  }

  datatype Result<T> = Ok(value: T) | Err(error: Error)

  datatype Command =
    | Install(candidate: PolicyFile, newId: Id)
    | AcceptCurrent
    | InstallReplacement(replacement: PolicyFile)
    | NoChoice

  /** The disks an install passes through. */
  function InstallTrace(d: Disk, c: Id, was: Option<Hash>, proposed: Hash): seq<Disk> {
    var prepared := Prepared(was, proposed);
    var d1 := Publish(d, c, prepared);
    var d2 := d1.(head := Some(Head(c, was, proposed, prepared)));
    var d3 := d2.(file := Valid(proposed));
    var d4 := Publish(d3, c, Committed(proposed));
    [d1, d2, d3, d4, RemoveHead(d4)]
  }

  function AcceptTrace(d: Disk, c: Id, current: Hash): seq<Disk> {
    var d1 := Publish(d, c, ResolvedEvent(current));
    [d1, RemoveHead(d1)]
  }

  function ReplaceTrace(d: Disk, c: Id, observed: Option<Hash>, replacement: Hash): seq<Disk> {
    var d1 := Publish(d, c, ResolutionPrepared(observed, replacement));
    var d2 := d1.(file := Valid(replacement));
    var d3 := Publish(d2, c, ResolvedEvent(replacement));
    [d1, d2, d3, RemoveHead(d3)]
  }

  /** A command either refuses before publishing anything or runs its publications. */
  function Execute(d: Disk, baseline: PolicyFile, cmd: Command): Result<seq<Disk>> {
    match cmd
    case Install(candidate, c) =>
      if d.head.Some? then Err(ChangeInProgress)
      else if !candidate.Valid? then Err(PolicyError)
      else
        var current := CurrentHash(d.file, baseline);
        if current.Err? then Err(current.error)
        else if current.value == Some(candidate.hash) then Err(AlreadyCurrent)
        else Ok(InstallTrace(d, c, current.value, candidate.hash))
    case AcceptCurrent =>
      if d.head.None? then Err(NoActiveChange)
      else if !d.file.Valid? then Err(PolicyError)
      else Ok(AcceptTrace(d, d.head.value.change, d.file.hash))
    case InstallReplacement(replacement) =>
      if d.head.None? then Err(NoActiveChange)
      else if !replacement.Valid? then Err(PolicyError)
      else
        var current := CurrentHash(d.file, baseline);
        if current.Err? then Err(current.error)
        else Ok(ReplaceTrace(d, d.head.value.change, current.value, replacement.hash))
    case NoChoice =>
      if d.head.None? then Err(NoActiveChange) else Err(NeedsChoice)
  }

  // ----- the invariant -----

  /** Event files are numbered 1..n without a gap. */
  ghost predicate Contiguous(files: map<nat, Event>) {
    forall s :: s in files <==> 1 <= s <= |files|
  }

  /** The newest event of a change. */
  function Last(files: map<nat, Event>): Option<Event> {
    if |files| in files then Some(files[|files|]) else None
  }

  /** Every published event of `d` is still there, unchanged, in `d'`. */
  ghost predicate EventsKept(d: Disk, d': Disk) {
    forall c, s :: c in d.events && s in d.events[c] ==>
      c in d'.events && s in d'.events[c] && d'.events[c][s] == d.events[c][s]
  }

  /** The head's change published, as event 1, the preparation the head names. */
  ghost predicate HeadOk(d: Disk, h: Head) {
    && 1 in Files(d, h.change) && Files(d, h.change)[1] == h.prepared
    && h.prepared == Prepared(h.was, h.proposed)
  }

  /** The newest event of change `c` is terminal and names the hash the override has. */
  ghost predicate Settled(d: Disk, c: Id) {
    var last := Last(Files(d, c));
    last.Some? && Terminal(last.value) && d.file == Valid(last.value.effective)
  }

  ghost predicate Inv(d: Disk) {
    && (forall c :: c in d.events ==> Contiguous(d.events[c]))
    && (d.head.Some? ==> HeadOk(d, d.head.value))
    && (d.head.None? && d.latest.Some? ==> Settled(d, d.latest.value))
  }

  /** One publication: events only grow, and a head disappears only when its change is settled. */
  ghost predicate SafeStep(d: Disk, d': Disk) {
    && EventsKept(d, d')
    && (d.head.Some? && d'.head.None? ==> Settled(d, d.head.value.change) && d'.latest == Some(d.head.value.change))
    && (d.head.Some? && d'.head.Some? ==> d'.head == d.head)
  }

  /** The i-th publication of a command started on `d`. */
  ghost predicate SafeAt(d: Disk, trace: seq<Disk>, i: nat) {
    i < |trace| && Inv(trace[i]) && SafeStep(if i == 0 then d else trace[i - 1], trace[i])
  }

  ghost predicate SafeTrace(d: Disk, trace: seq<Disk>) {
    forall i {:trigger SafeAt(d, trace, i)} :: 0 <= i < |trace| ==> SafeAt(d, trace, i)
  }

  ghost predicate Fresh(d: Disk, cmd: Command) {
    cmd.Install? ==> cmd.newId !in d.events
  }

  lemma AppendFile(files: map<nat, Event>, e: Event)
    requires Contiguous(files)
    ensures var files' := files[|files| + 1 := e];
      && |files'| == |files| + 1 && Contiguous(files') && Last(files') == Some(e)
      && forall s :: s in files ==> s in files' && files'[s] == files[s]
  {
    var n := |files| + 1;
    assert n !in files;
    assert files[n := e].Keys == files.Keys + {n};
  }

  /** An event of the active change, or the first event of a new one. */
  lemma PublishIsSafe(d: Disk, c: Id, e: Event)
    requires Inv(d) && (if d.head.Some? then d.head.value.change == c else c !in d.events)
    ensures Inv(Publish(d, c, e)) && SafeStep(d, Publish(d, c, e))
    ensures Last(Files(Publish(d, c, e), c)) == Some(e)
    ensures c !in d.events ==> 1 in Files(Publish(d, c, e), c) && Files(Publish(d, c, e), c)[1] == e
  {
    AppendFile(Files(d, c), e);
    var d' := Publish(d, c, e);
    assert forall k :: k != c ==> Files(d', k) == Files(d, k);
  }

  lemma RemoveIsSafe(d: Disk)
    requires Inv(d) && d.head.Some? && Settled(d, d.head.value.change)
    ensures Inv(RemoveHead(d)) && SafeStep(d, RemoveHead(d))
  {
    assert Files(RemoveHead(d), d.head.value.change) == Files(d, d.head.value.change);
  }

  lemma ReplaceFileIsSafe(d: Disk, h: Hash)
    requires Inv(d) && d.head.Some?
    ensures Inv(d.(file := Valid(h))) && SafeStep(d, d.(file := Valid(h)))
  {
  }

  lemma InstallIsSafe(d: Disk, c: Id, was: Option<Hash>, proposed: Hash)
    requires Inv(d) && d.head.None? && c !in d.events
    ensures SafeTrace(d, InstallTrace(d, c, was, proposed))
  {
    var t := InstallTrace(d, c, was, proposed);
    PublishIsSafe(d, c, Prepared(was, proposed));
    assert Files(t[1], c) == Files(t[0], c);
    assert Inv(t[1]) && SafeStep(t[0], t[1]);
    ReplaceFileIsSafe(t[1], proposed);
    PublishIsSafe(t[2], c, Committed(proposed));
    RemoveIsSafe(t[3]);
  }

  lemma AcceptIsSafe(d: Disk, current: Hash)
    requires Inv(d) && d.head.Some? && d.file == Valid(current)
    ensures SafeTrace(d, AcceptTrace(d, d.head.value.change, current))
  {
    var t := AcceptTrace(d, d.head.value.change, current);
    PublishIsSafe(d, d.head.value.change, ResolvedEvent(current));
    RemoveIsSafe(t[0]);
  }

  lemma ReplaceIsSafe(d: Disk, observed: Option<Hash>, replacement: Hash)
    requires Inv(d) && d.head.Some?
    ensures SafeTrace(d, ReplaceTrace(d, d.head.value.change, observed, replacement))
  {
    var c := d.head.value.change;
    var t := ReplaceTrace(d, c, observed, replacement);
    PublishIsSafe(d, c, ResolutionPrepared(observed, replacement));
    ReplaceFileIsSafe(t[0], replacement);
    PublishIsSafe(t[1], c, ResolvedEvent(replacement));
    RemoveIsSafe(t[2]);
  }

  /** Whatever the command, every point at which it may die is safe. */
  lemma CommandIsSafe(d: Disk, baseline: PolicyFile, cmd: Command)
    requires Inv(d) && Fresh(d, cmd) && Execute(d, baseline, cmd).Ok?
    ensures SafeTrace(d, Execute(d, baseline, cmd).value)
  {
    match cmd
    case Install(candidate, c) => InstallIsSafe(d, c, CurrentHash(d.file, baseline).value, candidate.hash);
    case AcceptCurrent => AcceptIsSafe(d, d.file.hash);
    case InstallReplacement(replacement) => ReplaceIsSafe(d, CurrentHash(d.file, baseline).value, replacement.hash);
    case NoChoice =>
  }

  // ----- whole runs -----

  /** One command on `d`: refused, cut off after any publication, or completed. */
  ghost predicate CrashStep(d: Disk, baseline: PolicyFile, cmd: Command, d': Disk) {
    Fresh(d, cmd) && (d' == d || (Execute(d, baseline, cmd).Ok? && d' in Execute(d, baseline, cmd).value))
  }

  datatype Call = Call(baseline: PolicyFile, cmd: Command)

  ghost predicate StepAt(run: seq<Disk>, calls: seq<Call>, i: nat) {
    i < |calls| && i + 1 < |run| && CrashStep(run[i], calls[i].baseline, calls[i].cmd, run[i + 1])
  }

  /** A run starts with no change ever made and any override file. */
  ghost predicate IsRun(run: seq<Disk>, calls: seq<Call>) {
    && |run| == |calls| + 1
    && run[0].head.None? && run[0].events == map[] && run[0].latest.None?
    && forall i {:trigger StepAt(run, calls, i)} :: 0 <= i < |calls| ==> StepAt(run, calls, i)
  }

  lemma {:induction false} TraceKeepsEvents(d: Disk, trace: seq<Disk>, i: nat)
    requires SafeTrace(d, trace) && i < |trace|
    ensures EventsKept(d, trace[i])
  {
    assert SafeAt(d, trace, i);
    if i > 0 {
      TraceKeepsEvents(d, trace, i - 1);
    }
  }

  lemma CrashStepIsSafe(d: Disk, baseline: PolicyFile, cmd: Command, d': Disk)
    requires Inv(d) && CrashStep(d, baseline, cmd, d')
    ensures Inv(d') && EventsKept(d, d')
  {
    if d' != d {
      var trace := Execute(d, baseline, cmd).value;
      CommandIsSafe(d, baseline, cmd);
      var i :| 0 <= i < |trace| && trace[i] == d';
      assert SafeAt(d, trace, i);
      TraceKeepsEvents(d, trace, i);
    }
  }

  lemma {:induction false} RunsKeepInv(run: seq<Disk>, calls: seq<Call>, n: nat)
    requires IsRun(run, calls) && n < |run|
    ensures Inv(run[n])
  {
    if n > 0 {
      RunsKeepInv(run, calls, n - 1);
      StepIsSafe(run, calls, n - 1);
    }
  }

  lemma StepIsSafe(run: seq<Disk>, calls: seq<Call>, i: nat)
    requires StepAt(run, calls, i) && Inv(run[i])
    ensures Inv(run[i + 1]) && EventsKept(run[i], run[i + 1])
  {
    CrashStepIsSafe(run[i], calls[i].baseline, calls[i].cmd, run[i + 1]);
  }

  /** No event file ever vanishes or changes. */
  lemma {:induction false} EventsAreImmutable(run: seq<Disk>, calls: seq<Call>, m: nat, n: nat)
    requires IsRun(run, calls) && m <= n < |run|
    ensures EventsKept(run[m], run[n])
  {
    if m < n {
      EventsAreImmutable(run, calls, m, n - 1);
      RunsKeepInv(run, calls, n - 1);
      StepIsSafe(run, calls, n - 1);
    }
  }

  /** What holds of every reachable disk: numbering without gaps, a head whose preparation is
      published, and without a head an override equal to what the newest event of the latest
      completed change says. */
  lemma ReachablePolicy(run: seq<Disk>, calls: seq<Call>, n: nat)
    requires IsRun(run, calls) && n < |run|
    ensures forall c :: c in run[n].events ==> Contiguous(run[n].events[c])
    ensures run[n].head.Some? ==> HeadOk(run[n], run[n].head.value)
    ensures run[n].head.None? && run[n].latest.Some? ==> Settled(run[n], run[n].latest.value)
  {
    RunsKeepInv(run, calls, n);
  }

  ghost predicate Closed(d: Disk, c: Id) {
    c in d.events && (d.head.Some? ==> d.head.value.change != c)
  }

  /** Only the stream of change `b` may differ, and only `b` may be the head. */
  ghost predicate OnlyTouches(d: Disk, d': Disk, b: Id) {
    && (forall c :: c in d.events && c != b ==> c in d'.events && d'.events[c] == d.events[c])
    && (d'.head.Some? ==> d'.head.value.change == b)
  }

  lemma InstallTouches(d: Disk, b: Id, was: Option<Hash>, proposed: Hash, i: nat)
    requires d.head.None? && i < 5
    ensures OnlyTouches(d, InstallTrace(d, b, was, proposed)[i], b)
  {
  }

  lemma ReplaceTouches(d: Disk, observed: Option<Hash>, replacement: Hash, i: nat)
    requires d.head.Some? && i < 4
    ensures OnlyTouches(d, ReplaceTrace(d, d.head.value.change, observed, replacement)[i], d.head.value.change)
  {
  }

  lemma CommandTouches(d: Disk, baseline: PolicyFile, cmd: Command, i: nat)
    requires Execute(d, baseline, cmd).Ok? && i < |Execute(d, baseline, cmd).value|
    ensures OnlyTouches(d, Execute(d, baseline, cmd).value[i], if cmd.Install? then cmd.newId else d.head.value.change)
  {
    match cmd
    case Install(candidate, c) => InstallTouches(d, c, CurrentHash(d.file, baseline).value, candidate.hash, i);
    case AcceptCurrent =>
    case InstallReplacement(replacement) => ReplaceTouches(d, CurrentHash(d.file, baseline).value, replacement.hash, i);
    case NoChoice =>
  }

  /** A change that is not the head's is over: completed, or abandoned before its head. */
  lemma ClosedStays(d: Disk, baseline: PolicyFile, cmd: Command, d': Disk, c: Id)
    requires Inv(d) && CrashStep(d, baseline, cmd, d') && Closed(d, c)
    ensures Closed(d', c) && d'.events[c] == d.events[c]
  {
    if d' != d {
      var trace := Execute(d, baseline, cmd).value;
      var i :| 0 <= i < |trace| && trace[i] == d';
      CommandTouches(d, baseline, cmd, i);
    }
  }

  /** The stream of a closed change never grows again. */
  lemma {:induction false} ClosedForever(run: seq<Disk>, calls: seq<Call>, m: nat, n: nat, c: Id)
    requires IsRun(run, calls) && m <= n < |run| && Closed(run[m], c)
    ensures Closed(run[n], c) && run[n].events[c] == run[m].events[c]
  {
    if m < n {
      ClosedForever(run, calls, m, n - 1, c);
      RunsKeepInv(run, calls, n - 1);
      assert StepAt(run, calls, n - 1);
      ClosedStays(run[n - 1], calls[n - 1].baseline, calls[n - 1].cmd, run[n], c);
    }
  }

  // ----- what a command comes to -----

  /** The hash is in force: the override's, or the baseline's where the override does not count. */
  predicate InForce(file: PolicyFile, baseline: PolicyFile, h: Hash) {
    file == Valid(h) || (!file.Valid? && baseline == Valid(h))
  }

  predicate Unreadable(file: PolicyFile, baseline: PolicyFile) { !file.Valid? && baseline.Invalid? }

  /** When a command is refused, and how. */
  lemma RefusedIff(d: Disk, baseline: PolicyFile, cmd: Command)
    ensures var r := Execute(d, baseline, cmd);
      && (r == Err(ChangeInProgress) <==> cmd.Install? && d.head.Some?)
      && (r == Err(AlreadyCurrent) <==>
            cmd.Install? && d.head.None? && cmd.candidate.Valid? && InForce(d.file, baseline, cmd.candidate.hash))
      && (r == Err(NoActiveChange) <==> !cmd.Install? && d.head.None?)
      && (r == Err(NeedsChoice) <==> cmd.NoChoice? && d.head.Some?)
      && (r == Err(PolicyError) <==>
            || (cmd.Install? && d.head.None? && (!cmd.candidate.Valid? || Unreadable(d.file, baseline)))
            || (cmd.AcceptCurrent? && d.head.Some? && !d.file.Valid?)
            || (cmd.InstallReplacement? && d.head.Some? && (!cmd.replacement.Valid? || Unreadable(d.file, baseline))))
  {
  }

  /** The file a command leaves in force: the one given, or the one found. */
  function FileOf(d: Disk, cmd: Command): PolicyFile {
    match cmd
    case Install(candidate, _) => candidate
    case InstallReplacement(replacement) => replacement
    case _ => d.file
  }

  /** The events a command adds to its change, in order; `was` is what was in force before. */
  function Added(d: Disk, cmd: Command, was: Option<Hash>, now: Hash): seq<Event> {
    match cmd
    case Install(_, _) => [Prepared(was, now), Committed(now)]
    case InstallReplacement(_) => [ResolutionPrepared(was, now), ResolvedEvent(now)]
    case _ => [ResolvedEvent(now)]
  }

  /** The stream `after` is `before` and the events, under the next numbers. */
  ghost predicate Appends(before: map<nat, Event>, after: map<nat, Event>, es: seq<Event>) {
    && (forall s :: s in after <==> s in before || |before| < s <= |before| + |es|)
    && (forall s :: s in before ==> after[s] == before[s])
    && forall j :: 0 <= j < |es| ==> after[|before| + 1 + j] == es[j]
  }

  predicate IsInForce(file: PolicyFile, baseline: PolicyFile, was: Option<Hash>) {
    if was.Some? then InForce(file, baseline, was.value) else !file.Valid? && baseline.Absent?
  }

  /** The disk a completed command leaves. */
  ghost predicate Completes(d: Disk, baseline: PolicyFile, cmd: Command, c: Id, was: Option<Hash>, d': Disk) {
    && d'.head.None? && d'.latest == Some(c) && IsInForce(d.file, baseline, was)
    && d'.file == FileOf(d, cmd) && d'.file.Valid?
    && c in d'.events && d'.events == d.events[c := d'.events[c]]
    && Appends(Files(d, c), d'.events[c], Added(d, cmd, was, d'.file.hash))
  }

  lemma AppendsTwo(before: map<nat, Event>, a: Event, b: Event)
    requires Contiguous(before)
    ensures var one := before[|before| + 1 := a]; Appends(before, one, [a])
    ensures var one := before[|before| + 1 := a]; Appends(before, one[|one| + 1 := b], [a, b])
  {
    AppendFile(before, a);
    AppendFile(before[|before| + 1 := a], b);
  }

  lemma InstallCompletes(d: Disk, baseline: PolicyFile, f: PolicyFile, c: Id, was: Option<Hash>)
    requires Contiguous(Files(d, c)) && f.Valid? && IsInForce(d.file, baseline, was)
    ensures Completes(d, baseline, Install(f, c), c, was, InstallTrace(d, c, was, f.hash)[4])
  {
    AppendsTwo(Files(d, c), Prepared(was, f.hash), Committed(f.hash));
  }

  lemma AcceptCompletes(d: Disk, baseline: PolicyFile, c: Id)
    requires Contiguous(Files(d, c)) && d.file.Valid? && d.head.Some? && d.head.value.change == c
    ensures Completes(d, baseline, AcceptCurrent, c, Some(d.file.hash), AcceptTrace(d, c, d.file.hash)[1])
  {
    AppendsTwo(Files(d, c), ResolvedEvent(d.file.hash), ResolvedEvent(d.file.hash));
  }

  lemma ReplaceCompletes(d: Disk, baseline: PolicyFile, f: PolicyFile, c: Id, was: Option<Hash>)
    requires Contiguous(Files(d, c)) && f.Valid? && IsInForce(d.file, baseline, was)
    requires d.head.Some? && d.head.value.change == c
    ensures Completes(d, baseline, InstallReplacement(f), c, was, ReplaceTrace(d, c, was, f.hash)[3])
  {
    AppendsTwo(Files(d, c), ResolutionPrepared(was, f.hash), ResolvedEvent(f.hash));
  }

  ghost predicate Completed(d: Disk, baseline: PolicyFile, cmd: Command, d': Disk) {
    exists c, was :: ChangeOf(d, cmd, c) && Completes(d, baseline, cmd, c, was, d')
  }

  /** The change a command is about: a new one, or the head's. */
  predicate ChangeOf(d: Disk, cmd: Command, c: Id) {
    if cmd.Install? then c == cmd.newId else d.head.Some? && c == d.head.value.change
  }

  /** A completed install or replacement leaves the given file as the override, an acceptance the one it found; the
      change is closed and its stream ends with the hash of that file. */
  lemma CommandCompletes(d: Disk, baseline: PolicyFile, cmd: Command)
    requires Inv(d) && Fresh(d, cmd) && Execute(d, baseline, cmd).Ok?
    ensures var t := Execute(d, baseline, cmd).value; t != [] && Completed(d, baseline, cmd, t[|t| - 1])
  {
    var c := if cmd.Install? then cmd.newId else d.head.value.change;
    var was := if cmd.AcceptCurrent? then Some(d.file.hash) else CurrentHash(d.file, baseline).value;
    assert ChangeOf(d, cmd, c) && Contiguous(Files(d, c));
    match cmd
    case Install(f, _) => InstallCompletes(d, baseline, f, c, was);
    case AcceptCurrent => AcceptCompletes(d, baseline, c);
    case InstallReplacement(f) => ReplaceCompletes(d, baseline, f, c, was);
    case NoChoice =>
  }

  /** From disk `a` to disk `b` the override stays, or becomes `f` while a head stands. */
  predicate KeepsOverride(a: Disk, b: Disk, f: PolicyFile) {
    b.file == a.file || (b.file == f && a.head.Some? && b.head == a.head)
  }

  lemma InstallOverride(d: Disk, c: Id, was: Option<Hash>, h: Hash, i: nat)
    requires i < 5
    ensures var t := InstallTrace(d, c, was, h); KeepsOverride(if i == 0 then d else t[i - 1], t[i], Valid(h))
  {
  }

  lemma ReplaceOverrides(d: Disk, c: Id, was: Option<Hash>, h: Hash, i: nat)
    requires i < 4 && d.head.Some?
    ensures var t := ReplaceTrace(d, c, was, h); KeepsOverride(if i == 0 then d else t[i - 1], t[i], Valid(h))
  {
  }

  /** Publication by publication, the override changes to the given file only, and only while the head stands. */
  lemma OverrideChangesUnderHead(d: Disk, baseline: PolicyFile, cmd: Command, i: nat)
    requires Execute(d, baseline, cmd).Ok? && i < |Execute(d, baseline, cmd).value|
    ensures var t := Execute(d, baseline, cmd).value;
      KeepsOverride(if i == 0 then d else t[i - 1], t[i], FileOf(d, cmd))
  {
    match cmd
    case Install(f, c) => InstallOverride(d, c, CurrentHash(d.file, baseline).value, f.hash, i);
    case AcceptCurrent =>
    case InstallReplacement(f) =>
      ReplaceOverrides(d, d.head.value.change, CurrentHash(d.file, baseline).value, f.hash, i);
    case NoChoice =>
  }

  // ----- the commands as the program runs them -----

  ghost function Points(trace: seq<Disk>): set<Disk> { set d | d in trace }

  lemma InstallPoints(d: Disk, c: Id, was: Option<Hash>, proposed: Hash)
    ensures var t := InstallTrace(d, c, was, proposed); Points(t) == {t[0], t[1], t[2], t[3], t[4]}
  {
  }

  /** The change head, the event files and the override. `published` collects the disk after every
      publication: each is a point at which a crash may leave the host. */
  class PolicyStore {
    var head: Option<Head>
    var events: map<Id, map<nat, Event>>
    var file: PolicyFile
    ghost var latest: Option<Id>
    ghost var published: set<Disk>

    ghost function Now(): Disk reads this { Disk(head, events, file, latest) }

    /** The command ran as specified: refused without a trace, or published its whole trace. */
    twostate predicate Ran(spec: Result<seq<Disk>>, ok: bool)
      reads this
    {
      match spec
      case Err(_) => !ok && Now() == old(Now()) && published == old(published)
      case Ok(trace) =>
        ok && |trace| > 0 && Now() == trace[|trace| - 1] && published == old(published) + Points(trace)
    }

    method PublishEvent(c: Id, e: Event)
      modifies this
      ensures Now() == Publish(old(Now()), c, e) && published == old(published) + {Now()}
    {
      var files := if c in events then events[c] else map[];
      events := events[c := files[|files| + 1 := e]];
      published := published + {Now()};
    }

    method WriteHead(h: Head)
      modifies this
      ensures Now() == old(Now()).(head := Some(h)) && published == old(published) + {Now()}
    {
      head := Some(h);
      published := published + {Now()};
    }

    method ReplaceOverride(f: PolicyFile)
      modifies this
      ensures Now() == old(Now()).(file := f) && published == old(published) + {Now()}
    {
      file := f;
      published := published + {Now()};
    }

    method DropHead()
      modifies this
      ensures Now() == RemoveHead(old(Now())) && published == old(published) + {Now()}
    {
      if head.Some? {
        latest := Some(head.value.change);
        head := None;
      }
      published := published + {Now()};
    }

    method InstallPolicy(candidate: PolicyFile, newId: Id, baseline: PolicyFile) returns (r: Result<Hash>)
      modifies this
      ensures Ran(Execute(old(Now()), baseline, Install(candidate, newId)), r.Ok?)
      ensures r.Ok? ==> r.value == candidate.hash && file == candidate && head.None?
      ensures r.Err? ==> Execute(old(Now()), baseline, Install(candidate, newId)) == Err(r.error)
    {
      if head.Some? { return Err(ChangeInProgress); }
      if !candidate.Valid? { return Err(PolicyError); }
      var current := CurrentHash(file, baseline);
      if current.Err? { return Err(current.error); }
      if current.value == Some(candidate.hash) { return Err(AlreadyCurrent); }
      RunInstall(newId, current.value, candidate.hash);
      return Ok(candidate.hash);
    }

    /** The five publications of an install, in order. */
    method RunInstall(newId: Id, was: Option<Hash>, proposed: Hash)
      modifies this
      ensures Now() == InstallTrace(old(Now()), newId, was, proposed)[4]
      ensures published == old(published) + Points(InstallTrace(old(Now()), newId, was, proposed))
    {
      ghost var t := InstallTrace(Now(), newId, was, proposed);
      var prepared := Prepared(was, proposed);
      InstallPoints(Now(), newId, was, proposed);
      PublishEvent(newId, prepared);
      assert Now() == t[0];
      WriteHead(Head(newId, was, proposed, prepared));
      assert Now() == t[1];
      ReplaceOverride(Valid(proposed));
      assert Now() == t[2];
      PublishEvent(newId, Committed(proposed));
      assert Now() == t[3];
      DropHead();
    }

    method ResolveAcceptingCurrent() returns (r: Result<Hash>)
      modifies this
      ensures forall b :: Ran(Execute(old(Now()), b, AcceptCurrent), r.Ok?)
      ensures r.Ok? ==> old(file) == Valid(r.value) && file == old(file) && head.None?
      ensures r.Err? ==> forall b :: Execute(old(Now()), b, AcceptCurrent) == Err(r.error)
    {
      if head.None? { return Err(NoActiveChange); }
      if !file.Valid? { return Err(PolicyError); }
      ghost var t := AcceptTrace(Now(), head.value.change, file.hash);
      PublishEvent(head.value.change, ResolvedEvent(file.hash));
      DropHead();
      assert Points(t) == {t[0], t[1]};
      return Ok(file.hash);
    }

    method ResolveWithReplacement(replacement: PolicyFile, baseline: PolicyFile) returns (r: Result<Hash>)
      modifies this
      ensures Ran(Execute(old(Now()), baseline, InstallReplacement(replacement)), r.Ok?)
      ensures r.Ok? ==> r.value == replacement.hash && file == replacement && head.None?
      ensures r.Err? ==> Execute(old(Now()), baseline, InstallReplacement(replacement)) == Err(r.error)
    {
      if head.None? { return Err(NoActiveChange); }
      if !replacement.Valid? { return Err(PolicyError); }
      var observed := CurrentHash(file, baseline);
      if observed.Err? { return Err(observed.error); }
      var c := head.value.change;
      RunReplacement(c, observed.value, replacement.hash);
      return Ok(replacement.hash);
    }

    /** The four publications of a replacement, in order. */
    method RunReplacement(c: Id, observed: Option<Hash>, replacement: Hash)
      modifies this
      ensures Now() == ReplaceTrace(old(Now()), c, observed, replacement)[3]
      ensures published == old(published) + Points(ReplaceTrace(old(Now()), c, observed, replacement))
    {
      ghost var t := ReplaceTrace(Now(), c, observed, replacement);
      assert Points(t) == {t[0], t[1], t[2], t[3]};
      PublishEvent(c, ResolutionPrepared(observed, replacement));
      assert Now() == t[0];
      ReplaceOverride(Valid(replacement));
      assert Now() == t[1];
      PublishEvent(c, ResolvedEvent(replacement));
      assert Now() == t[2];
      DropHead();
    }
  }
}
