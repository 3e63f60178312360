/** Transitions between stored images: claims, grants, recoveries and the log boundary they stand on
    (crates/core/budget/src/execution.rs, grant.rs and recovery.rs). */
module BudgetChain {
  import opened BudgetTypes
  import opened BudgetSteps
  import opened BudgetInvariant
  import opened BudgetCheckpoint

  // ---------------------------------------------------------------------
  // The session log an image stands on.
  // ---------------------------------------------------------------------

  datatype DoneStatus = Completed | WaitingForInput | Checkpointed | Cancelled
  datatype TaskRunStop =
    | RunCompleted | RunWaiting | RunCheckpointed | CallerCancelled | RuntimeStopping
    | BudgetStopped(reason: StopReason) | RunFailed
  datatype TaskRunReport = TaskRunReport(budget: Report, stop: TaskRunStop, capabilitiesDrained: bool)

  // An operation the turn intends: a model request or a tool call, perhaps serving one step of one task.
  datatype Body =
    | RunReported(report: TaskRunReport) | TurnDone(status: DoneStatus) | TurnError
    | UserText | AssistantText(text: string)
    | Intent(isTool: bool, callId: string, task: string, step: Option<string>)
    | Resolution(isTool: bool, callId: string) | Other
  {
    predicate IsTerminal() {
      TurnDone? || TurnError?
    }
  }

  datatype Event = Event(sessionId: string, turnId: string, eventId: string, seqNo: u64, body: Body) {
    function Address(): Cursor {
      Cursor(sessionId, turnId, eventId, seqNo)
    }
  }

  predicate AddressOk(e: Event, sessionId: string, position: nat) {
    e.sessionId == sessionId && e.seqNo == position && !Blank(e.eventId) && !Blank(e.turnId)
  }

  // Consecutive events of one session from a given position on, with distinct ids.
  predicate AddressesOk(events: seq<Event>, sessionId: string, first: nat) {
    && (forall i | 0 <= i < |events| :: AddressOk(events[i], sessionId, first + i))
    && (forall i, j | 0 <= i < j < |events| :: events[i].eventId != events[j].eventId)
  }

  method ValidateAddresses(events: seq<Event>, sessionId: string, first: u64) returns (ok: bool)
    ensures ok <==> AddressesOk(events, sessionId, first)
  {
    var ids: set<string> := {};
    for i := 0 to |events|
      invariant forall id :: id in ids <==> exists j | 0 <= j < i :: events[j].eventId == id
      invariant AddressesOk(events[..i], sessionId, first)
    {
      var e := events[i];
      if e.sessionId != sessionId || first + i > U64_MAX || first + i != e.seqNo || Blank(e.eventId) || Blank(e.turnId)
          || e.eventId in ids {
        assert !AddressOk(events[i], sessionId, first + i) || exists j | 0 <= j < i :: events[j].eventId == e.eventId;
        return false;
      }
      ids := ids + {e.eventId};
      assert events[..i + 1] == events[..i] + [e];
    }
    assert events[..|events|] == events;
    return true;
  }

  predicate Consistent(stop: TaskRunStop, terminal: Body) {
    match terminal
    case TurnDone(Completed) => stop.RunCompleted?
    case TurnDone(WaitingForInput) => stop.RunWaiting?
    case TurnDone(Checkpointed) => stop.RunCheckpointed?
    case TurnDone(Cancelled) => stop.CallerCancelled? || stop.RuntimeStopping?
    case TurnError => stop.BudgetStopped? || stop.RunFailed?
    case _ => false
  }

  // The recorded report agrees with the image's; cleanup may have gone on after it was taken.
  predicate SameTotals(recorded: Report, budget: Report) {
    && recorded.identity == budget.identity && recorded.limits == budget.limits
    && recorded.tokenMode == budget.tokenMode
    && recorded.charged == budget.charged && recorded.reserved == budget.reserved && recorded.usage == budget.usage
    && recorded.activeTime == budget.activeTime && recorded.cleanupTime <= budget.cleanupTime
    && recorded.stop == budget.stop
  }

  // The log ends with a drained run's report and the terminal event of the same turn.
  predicate ClosedTail(events: seq<Event>, budget: Report) {
    && |events| >= 2
    && var reported, terminal := events[|events| - 2], events[|events| - 1];
    && reported.body.RunReported? && reported.body.report.budget.run.Some?
    && var report, run := reported.body.report, reported.body.report.budget.run.value;
    && report.capabilitiesDrained && run.metrics.unconfirmed == NO_COUNTS
    && run.metrics.confirmed.modelRequests == run.metrics.confirmed.modelResults
    && run.metrics.confirmed.toolCalls == run.metrics.confirmed.toolResults
    && terminal.body.IsTerminal() && reported.turnId == terminal.turnId && run.turnId == Some(terminal.turnId)
    && !run.open
    && budget.run.None? && budget.pending == [] && report.budget.pending == []
    && SameTotals(report.budget, budget) && Consistent(report.stop, terminal.body)
  }

  // ----- undoing the grants of one boundary -----

  function UndoGrants(report: Report, grants: seq<GrantRecord>, anchor: Option<Cursor>): Option<Report>
    decreases |grants|
  {
    if grants == [] || grants[|grants| - 1].confirmedAnchor != anchor then Some(report)
    else
      var g := grants[|grants| - 1];
      if report.limits != g.request.newLimits || report.stop.Some? then None
      else UndoGrants(report.(limits := g.oldLimits, stop := g.oldStop), grants[..|grants| - 1], anchor)
  }

  function BoundaryReport(k: Checkpoint): Option<Report> {
    UndoGrants(k.report, k.grants, k.anchor)
  }

  method FindBoundaryReport(k: Checkpoint) returns (r: Option<Report>)
    ensures r == BoundaryReport(k)
  {
    var report, n: nat := k.report, |k.grants|;
    assert k.grants[..n] == k.grants;
    while n > 0 && k.grants[n - 1].confirmedAnchor == k.anchor
      invariant n <= |k.grants| && BoundaryReport(k) == UndoGrants(report, k.grants[..n], k.anchor)
    {
      var g := k.grants[n - 1];
      if report.limits != g.request.newLimits || report.stop.Some? {
        return None;
      }
      assert k.grants[..n][..n - 1] == k.grants[..n - 1];
      report, n := report.(limits := g.oldLimits, stop := g.oldStop), n - 1;
    }
    return Some(report);
  }

  predicate NothingUsed(report: Report) {
    report.charged == ZERO && report.reserved == ZERO && report.activeTime == 0 && report.cleanupTime == 0
    && report.usage == NO_USAGE
  }

  // The history ends exactly where the image stands, and confirms it up to the grants made there.
  predicate Confirms(history: seq<Event>, anchor: Option<Cursor>, report: Report) {
    if anchor.None? then history == [] && NothingUsed(report)
    else history != [] && anchor.value == history[|history| - 1].Address() && ClosedTail(history, report)
  }

  ghost predicate VerifiedHistory(k: Checkpoint, history: seq<Event>) {
    && WellFormed(k) && AddressesOk(history, k.report.identity.sessionId, 0)
    && BoundaryReport(k).Some? && Confirms(history, k.anchor, BoundaryReport(k).value)
  }

  // ---------------------------------------------------------------------
  // Valid transitions.
  // ---------------------------------------------------------------------

  predicate KeepsUsage(a: Report, b: Report, r: Resource)
    requires !r.IsAttempt()
  {
    && a.usage.Get(r).actual <= b.usage.Get(r).actual && a.usage.Get(r).estimated <= b.usage.Get(r).estimated
    && a.usage.Get(r).unknown <= b.usage.Get(r).unknown
  }

  ghost predicate NoRefund(a: Report, b: Report) {
    && (forall r: Resource :: a.charged.Get(r) <= b.charged.Get(r))
    && (forall r: Resource | !r.IsAttempt() :: KeepsUsage(a, b, r))
    && a.activeTime <= b.activeTime && a.cleanupTime <= b.cleanupTime
  }

  ghost predicate RecoveryKeeps(previous: Checkpoint, k: Checkpoint, r: RecoveryRecord) {
    && previous.executionId == Some(r.request.executionId) && previous.revision == r.request.sourceRevision
    && IsQuiescent(k) && k.grants == previous.grants
    && k.report == r.candidateReport && k.nextId == r.candidateNextId && k.anchor == r.confirmedAnchor
    && previous.nextId <= k.nextId && k.report.limits == previous.report.limits
    && k.report.tokenMode == previous.report.tokenMode
    && k.report.reserved == ZERO && NoRefund(previous.report, k.report)
  }

  ghost predicate RecoveryStep(previous: Checkpoint, k: Checkpoint) {
    || k.recoveries == previous.recoveries
    || (exists r :: k.recoveries == previous.recoveries + [r] && RecoveryKeeps(previous, k, r))
  }

  // A grant changes the limits and clears the stop, and nothing else.
  function GrantImage(previous: Checkpoint, g: GrantRecord): Checkpoint
    requires previous.revision < U64_MAX
  {
    previous.(version := AuditVersion(previous.recoveries), revision := previous.revision + 1,
              report := previous.report.(limits := g.request.newLimits, stop := None), grants := previous.grants + [g])
  }

  predicate GrantDescribes(previous: Checkpoint, g: GrantRecord) {
    && IsQuiescent(previous) && g.sourceRevision == previous.revision && g.confirmedAnchor == previous.anchor
    && g.oldLimits == previous.report.limits && g.oldStop == previous.report.stop
  }

  ghost predicate GrantStep(previous: Checkpoint, k: Checkpoint) {
    || (k.grants == previous.grants && TightenedBy(k.report.limits, previous.report.limits) == k.report.limits)
    || (previous.revision < U64_MAX && exists g :: GrantDescribes(previous, g) && k == GrantImage(previous, g))
  }

  ghost predicate ValidTransition(previous: Option<Checkpoint>, k: Checkpoint) {
    match previous
    case None => WellFormed(k) && k.revision == 1 && k.recoveries == [] && k.grants == []
    case Some(p) =>
      && WellFormed(k) && k.revision == p.revision + 1 && RecoveryStep(p, k)
      && WellFormed(p) && p.report.identity == k.report.identity && GrantStep(p, k)
  }

  /** The check a store makes against the image it really holds. */
  method CheckTransition(previous: Option<Checkpoint>, k: Checkpoint) returns (ok: bool)
    ensures ok <==> ValidTransition(previous, k)
  {
    hide WellFormed, RecoveryStep, GrantStep;
    var valid := Validate(k);
    if !valid {
      return false;
    }
    if previous.None? {
      return k.revision == 1 && k.recoveries == [] && k.grants == [];
    }
    var p := previous.value;
    if k.revision != p.revision + 1 {
      return false;
    }
    var recovered := CheckRecoveryStep(p, k);
    if !recovered {
      return false;
    }
    valid := Validate(p);
    if !valid || p.report.identity != k.report.identity {
      return false;
    }
    ok := CheckGrantStep(p, k);
  }

  method CheckGrantStep(p: Checkpoint, k: Checkpoint) returns (ok: bool)
    requires k.revision == p.revision + 1
    ensures ok <==> GrantStep(p, k)
  {
    var n := |p.grants|;
    if !(p.grants <= k.grants) || |k.grants| > n + 1 {
      return false;
    }
    if |k.grants| == n {
      return TightenedBy(k.report.limits, p.report.limits) == k.report.limits;
    }
    var g := k.grants[n];
    assert k.grants == p.grants + [g];
    assert forall h | k.grants == p.grants + [h] :: h == k.grants[n];
    return GrantDescribes(p, g) && k == GrantImage(p, g);
  }

  method CheckRecoveryStep(p: Checkpoint, k: Checkpoint) returns (ok: bool)
    ensures ok <==> RecoveryStep(p, k)
  {
    hide NoRefund, IsQuiescent;
    var n := |p.recoveries|;
    if !(p.recoveries <= k.recoveries) || |k.recoveries| > n + 1 {
      return false;
    }
    if |k.recoveries| == n {
      return true;
    }
    var r := k.recoveries[n];
    assert k.recoveries == p.recoveries + [r];
    assert forall h | k.recoveries == p.recoveries + [h] :: h == k.recoveries[n];
    if p.executionId != Some(r.request.executionId) || p.revision != r.request.sourceRevision
       || !IsQuiescent(k) || k.grants != p.grants || k.report != r.candidateReport || k.nextId != r.candidateNextId
       || k.anchor != r.confirmedAnchor || k.nextId < p.nextId || k.report.limits != p.report.limits
       || k.report.tokenMode != p.report.tokenMode || k.report.reserved != ZERO {
      return false;
    }
    ok := CheckNoRefund(p.report, k.report);
  }

  method CheckNoRefund(a: Report, b: Report) returns (ok: bool)
    ensures ok <==> NoRefund(a, b)
  {
    if b.activeTime < a.activeTime || b.cleanupTime < a.cleanupTime {
      return false;
    }
    for i := 0 to |ALL|
      invariant forall j | 0 <= j < i :: a.charged.Get(ALL[j]) <= b.charged.Get(ALL[j])
    {
      if b.charged.Get(ALL[i]) < a.charged.Get(ALL[i]) {
        return false;
      }
    }
    forall r: Resource ensures a.charged.Get(r) <= b.charged.Get(r) {
      AllResources(r);
    }
    for i := 0 to |VARIABLES|
      invariant forall j | 0 <= j < i :: !VARIABLES[j].IsAttempt() && KeepsUsage(a, b, VARIABLES[j])
    {
      AllResources(VARIABLES[i]);
      if !KeepsUsage(a, b, VARIABLES[i]) {
        return false;
      }
    }
    forall r: Resource | !r.IsAttempt() ensures KeepsUsage(a, b, r) {
      AllResources(r);
    }
    return true;
  }

  // ---------------------------------------------------------------------
  // Execution claims.
  // ---------------------------------------------------------------------

  function ClaimImage(base: Checkpoint, executionId: string): Checkpoint
    requires base.revision < U64_MAX
  {
    base.(version := AuditVersion(base.recoveries), revision := base.revision + 1, recoveryFrozen := true,
          executionId := Some(executionId))
  }

  lemma NextVersionAudits(base: Checkpoint, k: Checkpoint)
    requires GrantsOk(base) && RecoveriesOk(base) && k.grants == base.grants && k.recoveries == base.recoveries
    requires k.version == AuditVersion(base.recoveries) && k.revision == base.revision + 1 && k.nextId == base.nextId
    requires k.report.identity == base.report.identity && k.anchor == base.anchor
    ensures GrantsOk(k) && RecoveriesOk(k)
  {
    hide CoreOk, GrantText, RecoveryText, ValidIncrease, AnchorOk;
    AuditsCarryOver(base, k);
    assert forall i | 0 <= i < |base.grants| :: GrantOk(base, base.grants[i]);
  }

  /** A claim of a quiescent image is always a valid successor: acquiring an execution is refused only by the
      comparison with the stored revision. */
  lemma ClaimValid(base: Checkpoint, executionId: string)
    requires WellFormed(base) && IsQuiescent(base) && base.revision < U64_MAX && !Blank(executionId)
    ensures ValidTransition(Some(base), ClaimImage(base, executionId)) && !IsQuiescent(ClaimImage(base, executionId))
  {
    var k := ClaimImage(base, executionId);
    hide GrantsOk, RecoveriesOk;
    NextVersionAudits(base, k);
    TightenedIffWithin(base.report.limits, base.report.limits);
    assert PendingOk(k) && TotalsOk(k) by { hide ValidateRequest; SamePending(base, k); }
  }

  lemma SamePending(base: Checkpoint, k: Checkpoint)
    requires PendingOk(base) && TotalsOk(base) && base.report.pending == [] && base.runId.None?
    requires k.report == base.report && k.runId == base.runId && k.nextId == base.nextId
    ensures PendingOk(k) && TotalsOk(k)
  {
  }

  // ---------------------------------------------------------------------
  // Grants.
  // ---------------------------------------------------------------------

  datatype GrantError =
    | GrantBaseInvalid | GrantWrongIdentity | GrantBadText | OperationConflict | GrantWrongRevision | GrantWrongAnchor
    | GrantNeedsRecovery | GrantBoundary | GrantAuditFull | GrantNoIncrease | GrantAboveCeiling | GrantTooSmall
    | GrantRevisionExhausted | GrantTransitionRejected

  datatype GrantDecision =
    | GrantReady(image: Checkpoint) | AlreadyGranted(record: GrantRecord) | GrantRefused(error: GrantError)

  function FindGrant(grants: seq<GrantRecord>, operationId: string): (i: Option<nat>)
    ensures i.Some? ==> i.value < |grants| && grants[i.value].request.operationId == operationId
    ensures i.None? ==> forall j | 0 <= j < |grants| :: grants[j].request.operationId != operationId
  {
    if grants == [] then None
    else if grants[0].request.operationId == operationId then Some(0)
    else
      var i := FindGrant(grants[1..], operationId);
      if i.None? then None else Some(i.value + 1)
  }

  predicate Covers(report: Report, limits: Limits) {
    report.activeTime < limits.activeTime && forall i | 0 <= i < |ALL| ::
        report.charged.Get(ALL[i]) <= limits.resources.Get(ALL[i])
  }

  ghost function DecideGrant(base: Checkpoint, context: RestoreContext, history: seq<Event>,
                             request: GrantRequest): GrantDecision {
    if !WellFormed(base) then GrantRefused(GrantBaseInvalid)
    else if base.report.identity != context.identity then GrantRefused(GrantWrongIdentity)
    else if !GrantText(request) then GrantRefused(GrantBadText)
    else
      var found := FindGrant(base.grants, request.operationId);
      if found.Some? then
        var record := base.grants[found.value];
        if record.request != request || record.sourceRevision != context.revision
            || record.confirmedAnchor != context.confirmedAnchor
        then GrantRefused(OperationConflict) else AlreadyGranted(record)
      else if base.revision != context.revision then GrantRefused(GrantWrongRevision)
      else if base.anchor != context.confirmedAnchor then GrantRefused(GrantWrongAnchor)
      else if !IsQuiescent(base) then GrantRefused(GrantNeedsRecovery)
      else if !VerifiedHistory(base, history) then GrantRefused(GrantBoundary)
      else if |base.grants| == MAX_BUDGET_GRANTS then GrantRefused(GrantAuditFull)
      else if !ValidIncrease(base.report.limits, request.newLimits, base.report.stop) then GrantRefused(GrantNoIncrease)
      else if TightenedBy(request.newLimits, context.hostLimits) != request.newLimits
      then GrantRefused(GrantAboveCeiling)
      else if !Covers(base.report, request.newLimits) then GrantRefused(GrantTooSmall)
      else if base.revision == U64_MAX then GrantRefused(GrantRevisionExhausted)
      else
        var image := GrantImage(base, GrantRecord(request, base.revision, base.anchor, base.report.limits,
            base.report.stop));
        if ValidTransition(Some(base), image) then GrantReady(image) else GrantRefused(GrantTransitionRejected)
  }

  // The guards that precede the transition check.
  ghost predicate Grantable(base: Checkpoint, request: GrantRequest) {
    && WellFormed(base) && GrantText(request) && FindGrant(base.grants, request.operationId).None? && IsQuiescent(base)
    && BoundaryReport(base).Some? && |base.grants| < MAX_BUDGET_GRANTS
    && ValidIncrease(base.report.limits, request.newLimits, base.report.stop) && Covers(base.report, request.newLimits)
    && base.revision < U64_MAX
  }

  function RecordFor(base: Checkpoint, request: GrantRequest): GrantRecord {
    GrantRecord(request, base.revision, base.anchor, base.report.limits, base.report.stop)
  }

  lemma GrantedAudits(base: Checkpoint, request: GrantRequest)
    requires Grantable(base, request)
    ensures var k := GrantImage(base, RecordFor(base, request)); GrantsOk(k) && RecoveriesOk(k)
  {
    var g := RecordFor(base, request);
    var k := GrantImage(base, g);
    hide CoreOk, GrantText, RecoveryText, ValidIncrease;
    AuditsCarryOver(base, k.(grants := base.grants));
    assert AnchorOk(base.anchor, base.report.identity.sessionId) by { CoreAnchor(base); }
    assert 0 < base.revision by { CoreAnchor(base); }
    hide AnchorOk;
    forall i | 0 <= i < |base.grants| ensures GrantOk(k, base.grants[i]) && DistinctGrants(base.grants[i], g) {
      assert GrantOk(base, base.grants[i]);
    }
    if base.grants != [] {
      var last := base.grants[|base.grants| - 1];
      assert GrantOk(base, last);
      assert GrantFollows(last, g);
    }
    assert GrantOk(k, g);
    forall i | 0 <= i < |k.grants| - 1 ensures GrantFollows(k.grants[i], k.grants[i + 1]) {
      assert i < |base.grants| - 1 ==> GrantFollows(base.grants[i], base.grants[i + 1]);
    }
  }

  lemma CoreAnchor(k: Checkpoint)
    requires CoreOk(k)
    ensures AnchorOk(k.anchor, k.report.identity.sessionId) && k.revision != 0
  {
  }

  lemma GrantedCore(base: Checkpoint, request: GrantRequest)
    requires Grantable(base, request)
    ensures CoreOk(GrantImage(base, RecordFor(base, request)))
  {
    var k := GrantImage(base, RecordFor(base, request));
    hide GrantsOk, RecoveriesOk, GrantText, ValidIncrease, FindGrant, UndoGrants;
    forall r: Resource ensures TaskResourceOk(k.report, r) {
      AllResources(r);
      assert TaskResourceOk(base.report, r);
      assert base.report.reserved.Get(r) == 0;
    }
    forall r: Resource | !r.IsAttempt() ensures UsageOk(k.report, r) {
      assert UsageOk(base.report, r);
    }
  }

  /** Once its earlier guards have passed, a grant's own transition check never rejects it. */
  lemma GrantNeverRejected(base: Checkpoint, request: GrantRequest)
    requires Grantable(base, request)
    ensures ValidTransition(Some(base), GrantImage(base, RecordFor(base, request)))
  {
    var g := RecordFor(base, request);
    var k := GrantImage(base, g);
    GrantedAudits(base, request);
    GrantedCore(base, request);
    hide CoreOk, GrantsOk, RecoveriesOk;
    assert GrantDescribes(base, g);
  }

  lemma DecideGrantNeverRejected(base: Checkpoint, context: RestoreContext, history: seq<Event>, request: GrantRequest)
    ensures DecideGrant(base, context, history, request) != GrantRefused(GrantTransitionRejected)
  {
    hide WellFormed, GrantText, ValidIncrease, ValidTransition, Covers, UndoGrants;
    if Grantable(base, request) {
      GrantNeverRejected(base, request);
    }
    assert WellFormed(base) ==> |base.grants| <= MAX_BUDGET_GRANTS by { GrantCount(base); }
  }

  lemma GrantCount(base: Checkpoint)
    ensures WellFormed(base) ==> |base.grants| <= MAX_BUDGET_GRANTS
  {
    hide CoreOk, RecoveriesOk, GrantOk, DistinctGrants, GrantFollows;
  }

  // ----- the report under a stack of grants -----

  lemma GrantedBoundary(base: Checkpoint, request: GrantRequest)
    requires base.revision < U64_MAX
    ensures BoundaryReport(GrantImage(base, RecordFor(base, request))) == BoundaryReport(base)
  {
    var k := GrantImage(base, RecordFor(base, request));
    assert k.grants[..|k.grants| - 1] == base.grants;
    assert k.report.(limits := base.report.limits, stop := base.report.stop) == base.report;
  }

  /** The granted image stands on exactly the histories the image beneath it stands on. */
  lemma GrantKeepsHistory(base: Checkpoint, request: GrantRequest, history: seq<Event>)
    requires Grantable(base, request)
    ensures VerifiedHistory(GrantImage(base, RecordFor(base, request)), history) <==> VerifiedHistory(base, history)
  {
    hide WellFormed, BoundaryReport, Confirms, AddressesOk;
    GrantNeverRejected(base, request);
    GrantedBoundary(base, request);
  }

  // images[i + 1] grants requests[i] on images[i].
  ghost predicate GrantStack(images: seq<Checkpoint>, requests: seq<GrantRequest>) {
    && |images| == |requests| + 1
    && forall i | 0 <= i < |requests| ::
         Grantable(images[i], requests[i]) && images[i + 1] == GrantImage(images[i], RecordFor(images[i], requests[i]))
  }

  // No grant was confirmed at the image's own boundary: the image a closed turn leaves behind.
  predicate Ungranted(k: Checkpoint) {
    k.grants == [] || k.grants[|k.grants| - 1].confirmedAnchor != k.anchor
  }

  /** However many grants are stacked on the image of a closed turn, the report reconstructed beneath them is exactly
      that image's, and the same histories confirm them. */
  lemma {:induction false} StackedGrants(images: seq<Checkpoint>, requests: seq<GrantRequest>, history: seq<Event>)
    requires GrantStack(images, requests) && Ungranted(images[0])
    ensures BoundaryReport(images[|requests|]) == Some(images[0].report)
    ensures requests != [] ==> (VerifiedHistory(images[|requests|], history) <==> VerifiedHistory(images[0], history))
  {
    if requests != [] {
      var n := |requests| - 1;
      StackedGrants(images[..n + 1], requests[..n], history);
      hide Grantable, VerifiedHistory, BoundaryReport, GrantImage, RecordFor;
      assert images[n + 1] == GrantImage(images[n], RecordFor(images[n], requests[n]));
      assert images[n].revision < U64_MAX by { GrantableRevision(images[n], requests[n]); }
      GrantedBoundary(images[n], requests[n]);
      GrantKeepsHistory(images[n], requests[n], history);
    }
  }

  lemma GrantableRevision(base: Checkpoint, request: GrantRequest)
    requires Grantable(base, request)
    ensures base.revision < U64_MAX
  {
  }

  // ---------------------------------------------------------------------
  // Recoveries.
  // ---------------------------------------------------------------------

  datatype RecoverError =
    | RecoverBadText | CandidateInvalid | OwnershipDiffers | CandidateNotReady | CurrentInvalid | OperationReused
    | RecoverBoundary | ClaimChanged | RecoverAuditFull | RecoverTransitionRejected

  datatype RecoverDecision =
    | RecoverReady(image: Checkpoint) | AlreadyRecovered(record: RecoveryRecord) | OriginalCommitted
    | RecoverRefused(error: RecoverError)

  datatype Ownership = Ownership(sessionId: string, ownershipId: string)

  function FindRecovery(recoveries: seq<RecoveryRecord>, operationId: string): (i: Option<nat>)
    ensures i.Some? ==> i.value < |recoveries| && recoveries[i.value].request.operationId == operationId
    ensures i.None? ==> forall j | 0 <= j < |recoveries| :: recoveries[j].request.operationId != operationId
  {
    if recoveries == [] then None
    else if recoveries[0].request.operationId == operationId then Some(0)
    else
      var i := FindRecovery(recoveries[1..], operationId);
      if i.None? then None else Some(i.value + 1)
  }

  // The leading grants made before a revision.
  function GrantsBefore(grants: seq<GrantRecord>, revision: u64): seq<GrantRecord> {
    if grants == [] || grants[0].sourceRevision >= revision then []
    else [grants[0]] + GrantsBefore(grants[1..], revision)
  }

  function RecoveryRecordFor(request: RecoveryRequest, ownership: Ownership, candidate: Checkpoint): RecoveryRecord {
    RecoveryRecord(request, ownership.ownershipId, candidate.anchor, candidate.report, candidate.nextId)
  }

  function RecoveredImage(candidate: Checkpoint, record: RecoveryRecord): Checkpoint {
    candidate.(version := V4, recoveries := candidate.recoveries + [record])
  }

  predicate SameEvidence(current: Checkpoint, i: nat, request: RecoveryRequest, candidate: Checkpoint)
    requires i < |current.recoveries|
  {
    var record := current.recoveries[i];
    && record.request == request && record.candidateReport == candidate.report
    && record.candidateNextId == candidate.nextId
    && record.confirmedAnchor == candidate.anchor && candidate.recoveries == current.recoveries[..i]
    && GrantsBefore(current.grants, candidate.revision) == candidate.grants
  }

  ghost function DecideRecover(current: Checkpoint, ownership: Ownership, request: RecoveryRequest,
                               candidate: Checkpoint,
                               history: seq<Event>): RecoverDecision {
    if !RecoveryText(request) then RecoverRefused(RecoverBadText)
    else if !WellFormed(candidate) then RecoverRefused(CandidateInvalid)
    else if ownership.sessionId != candidate.report.identity.sessionId || !AuditText(ownership.ownershipId)
    then RecoverRefused(OwnershipDiffers)
    else if !IsQuiescent(candidate) || request.sourceRevision + 1 != candidate.revision
    then RecoverRefused(CandidateNotReady)
    else if !WellFormed(current) then RecoverRefused(CurrentInvalid)
    else
      var found := FindRecovery(current.recoveries, request.operationId);
      if found.Some? then
        if SameEvidence(current, found.value, request, candidate) then AlreadyRecovered(current.recoveries[found.value])
        else RecoverRefused(OperationReused)
      else if !VerifiedHistory(candidate, history) then RecoverRefused(RecoverBoundary)
      else if current == candidate then OriginalCommitted
      else if current.revision != request.sourceRevision || current.executionId != Some(request.executionId)
      then RecoverRefused(ClaimChanged)
      else if |current.recoveries| >= MAX_BUDGET_RECOVERIES then RecoverRefused(RecoverAuditFull)
      else
        var image := RecoveredImage(candidate, RecoveryRecordFor(request, ownership, candidate));
        if ValidTransition(Some(current), image) then RecoverReady(image) else RecoverRefused(RecoverTransitionRejected)
  }

  // ---------------------------------------------------------------------
  // Whole chains.
  // ---------------------------------------------------------------------

  ghost predicate Linked(images: seq<Checkpoint>, i: nat)
    requires i + 1 < |images|
  {
    ValidTransition(Some(images[i]), images[i + 1])
  }

  ghost predicate ValidChain(images: seq<Checkpoint>) {
    forall i | 0 <= i < |images| - 1 :: Linked(images, i)
  }

  // k comes at or after base in a chain: it kept the audits and added grants only from later images.
  ghost predicate AuditExtends(base: Checkpoint, k: Checkpoint) {
    && base.grants <= k.grants && base.recoveries <= k.recoveries && base.revision <= k.revision
    && base.report.identity == k.report.identity
    && forall i | |base.grants| <= i < |k.grants| :: base.revision <= k.grants[i].sourceRevision
  }

  lemma TransitionExtends(base: Checkpoint, p: Checkpoint, k: Checkpoint)
    requires AuditExtends(base, p) && ValidTransition(Some(p), k)
    ensures AuditExtends(base, k)
  {
    hide WellFormed, RecoveryKeeps;
    if k.grants != p.grants {
      var g :| GrantDescribes(p, g) && k == GrantImage(p, g);
    }
  }

  /** Audits are append-only along a chain, and a grant appended later names a later source revision. */
  lemma {:induction false} ChainExtends(images: seq<Checkpoint>, i: nat, j: nat)
    requires ValidChain(images) && i <= j < |images|
    ensures AuditExtends(images[i], images[j])
    decreases j
  {
    if i < j {
      ChainExtends(images, i, j - 1);
      hide ValidTransition, AuditExtends;
      assert Linked(images, j - 1);
      TransitionExtends(images[i], images[j - 1], images[j]);
    }
  }

  /** Limits rise along a chain only where a grant is appended. */
  lemma {:induction false} LimitsRiseByGrant(images: seq<Checkpoint>, i: nat, j: nat)
    requires ValidChain(images) && i <= j < |images| && |images[i].grants| == |images[j].grants|
    ensures WithinLimits(images[j].report.limits, images[i].report.limits)
    decreases j
  {
    if i < j {
      ChainExtends(images, i, j - 1);
      ChainExtends(images, j - 1, j);
      LimitsRiseByGrant(images, i, j - 1);
      hide WellFormed, RecoveryStep;
      assert Linked(images, j - 1);
      TightenedIffWithin(images[j].report.limits, images[j - 1].report.limits);
    }
  }

  /** A step that appends a grant appends exactly one, and changes nothing but the limits and the stop. */
  lemma GrantChangesOnlyLimits(p: Checkpoint, k: Checkpoint)
    requires ValidTransition(Some(p), k) && k.grants != p.grants
    ensures |k.grants| == |p.grants| + 1 && IsQuiescent(p) && IsQuiescent(k)
    ensures k.report == p.report.(limits := k.report.limits, stop := None) && k.anchor == p.anchor
    ensures k.nextId == p.nextId
    ensures k.grants[|p.grants|].oldLimits == p.report.limits
    ensures k.grants[|p.grants|].request.newLimits == k.report.limits
    ensures WithinLimits(p.report.limits, k.report.limits)
  {
    hide CoreOk, RecoveriesOk, RecoveryStep, GrantText;
    var g :| GrantDescribes(p, g) && k == GrantImage(p, g);
    assert GrantOk(k, k.grants[|p.grants|]);
    TightenedIffWithin(k.report.limits, p.report.limits);
    TightenedWithin(k.report.limits, p.report.limits);
  }

  lemma TightenedWithin(a: Limits, b: Limits)
    requires TightenedBy(a, b) == b
    ensures WithinLimits(b, a)
  {
    TightenedIffWithin(a, b);
  }

  // ----- retries -----

  lemma FindKept(grants: seq<GrantRecord>, i: nat, operationId: string)
    requires i < |grants| && grants[i].request.operationId == operationId
    requires forall a, b | 0 <= a < b < |grants| :: DistinctGrants(grants[a], grants[b])
    ensures FindGrant(grants, operationId) == Some(i)
  {
    var f := FindGrant(grants, operationId).value;
    assert f < i ==> DistinctGrants(grants[f], grants[i]);
    assert i < f ==> DistinctGrants(grants[i], grants[f]);
  }

  lemma GrantReadyFacts(base: Checkpoint, context: RestoreContext, history: seq<Event>, request: GrantRequest)
    requires DecideGrant(base, context, history, request).GrantReady?
    ensures base.revision < U64_MAX
    ensures DecideGrant(base, context, history, request).image == GrantImage(base, RecordFor(base, request))
    ensures base.revision == context.revision && base.anchor == context.confirmedAnchor
    ensures base.report.identity == context.identity && GrantText(request)
  {
    hide WellFormed, GrantText, ValidIncrease, ValidTransition, Covers, VerifiedHistory;
  }

  lemma GrantFound(k: Checkpoint, n: nat, context: RestoreContext, history: seq<Event>, request: GrantRequest)
    requires WellFormed(k) && n < |k.grants| && k.grants[n].request == request && GrantText(request)
    requires k.grants[n].sourceRevision == context.revision && k.grants[n].confirmedAnchor == context.confirmedAnchor
    requires k.report.identity == context.identity
    ensures DecideGrant(k, context, history, request) == AlreadyGranted(k.grants[n])
  {
    hide GrantText, CoreOk, RecoveriesOk, GrantOk, GrantFollows, ValidTransition, VerifiedHistory;
    assert forall a, b | 0 <= a < b < |k.grants| :: DistinctGrants(k.grants[a], k.grants[b]);
    FindKept(k.grants, n, request.operationId);
  }

  /** A grant reissued with the same request at the same boundary is recognised as applied, however long the chain has
      grown since and whatever the host's ceiling has become. */
  lemma GrantRetry(images: seq<Checkpoint>, i: nat, j: nat, context: RestoreContext, history: seq<Event>,
                   request: GrantRequest,
                   ceiling: Limits, later: seq<Event>)
    requires ValidChain(images) && i + 1 <= j < |images|
    requires DecideGrant(images[i], context, history, request) == GrantReady(images[i + 1])
    ensures DecideGrant(images[j], context.(hostLimits := ceiling), later, request)
        == AlreadyGranted(RecordFor(images[i], request))
  {
    hide DecideGrant, ValidChain, WellFormed, GrantText;
    GrantReadyFacts(images[i], context, history, request);
    ChainExtends(images, i + 1, j);
    ChainWellFormed(images, j);
    var n := |images[i].grants|;
    assert images[j].grants[n] == images[i + 1].grants[n];
    GrantFound(images[j], n, context.(hostLimits := ceiling), later, request);
  }

  lemma ChainWellFormed(images: seq<Checkpoint>, j: nat)
    requires ValidChain(images) && 0 < j < |images|
    ensures WellFormed(images[j])
  {
    hide WellFormed, RecoveryStep, GrantStep;
    assert Linked(images, j - 1);
  }

  lemma {:induction false} GrantsBeforeSplit(kept: seq<GrantRecord>, added: seq<GrantRecord>, revision: u64)
    requires forall i | 0 <= i < |kept| :: kept[i].sourceRevision < revision
    requires forall i | 0 <= i < |added| :: revision <= added[i].sourceRevision
    ensures GrantsBefore(kept + added, revision) == kept
  {
    if kept != [] {
      GrantsBeforeSplit(kept[1..], added, revision);
      assert (kept + added)[1..] == kept[1..] + added;
    } else {
      assert kept + added == added;
    }
  }

  lemma RecoveryKept(recoveries: seq<RecoveryRecord>, i: nat, operationId: string)
    requires i < |recoveries| && recoveries[i].request.operationId == operationId
    requires forall a, b | 0 <= a < b < |recoveries| :: DistinctRecoveries(recoveries[a], recoveries[b])
    ensures FindRecovery(recoveries, operationId) == Some(i)
  {
    var f := FindRecovery(recoveries, operationId).value;
    assert f < i ==> DistinctRecoveries(recoveries[f], recoveries[i]);
    assert i < f ==> DistinctRecoveries(recoveries[i], recoveries[f]);
  }

  lemma RecoveredAudits(current: Checkpoint, image: Checkpoint, candidate: Checkpoint, record: RecoveryRecord)
    requires image == RecoveredImage(candidate, record) && ValidTransition(Some(current), image)
    requires forall j | 0 <= j < |current.recoveries| ::
        current.recoveries[j].request.operationId != record.request.operationId
    ensures candidate.recoveries == current.recoveries && candidate.grants == current.grants
    ensures image.grants == candidate.grants
    ensures RecoveryKeeps(current, image, record)
  {
    hide WellFormed, GrantStep;
    assert image.recoveries[|candidate.recoveries|] == record;
    var r :| image.recoveries == current.recoveries + [r] && RecoveryKeeps(current, image, r);
    assert image.recoveries[..|image.recoveries| - 1] == current.recoveries;
    assert image.recoveries[..|image.recoveries| - 1] == candidate.recoveries;
  }

  lemma RecoverReadyFacts(current: Checkpoint, ownership: Ownership, request: RecoveryRequest, candidate: Checkpoint,
                          history: seq<Event>)
    requires DecideRecover(current, ownership, request, candidate, history).RecoverReady?
    ensures RecoveryText(request) && WellFormed(candidate) && ownership.sessionId == candidate.report.identity.sessionId
    ensures AuditText(ownership.ownershipId) && IsQuiescent(candidate)
    ensures request.sourceRevision + 1 == candidate.revision
    ensures FindRecovery(current.recoveries, request.operationId).None?
    ensures var image := DecideRecover(current, ownership, request, candidate, history).image;
      image == RecoveredImage(candidate, RecoveryRecordFor(request, ownership, candidate))
      && ValidTransition(Some(current), image)
  {
    hide WellFormed, RecoveryText, AuditText, ValidTransition, VerifiedHistory, SameEvidence;
  }

  lemma RecoveryFound(k: Checkpoint, n: nat, ownership: Ownership, request: RecoveryRequest, candidate: Checkpoint,
                      history: seq<Event>)
    requires WellFormed(k) && n < |k.recoveries| && k.recoveries[n].request == request
    requires SameEvidence(k, n, request, candidate)
    requires RecoveryText(request) && WellFormed(candidate)
    requires ownership.sessionId == candidate.report.identity.sessionId
    requires AuditText(ownership.ownershipId) && IsQuiescent(candidate)
    requires request.sourceRevision + 1 == candidate.revision
    ensures DecideRecover(k, ownership, request, candidate, history) == AlreadyRecovered(k.recoveries[n])
  {
    hide CoreOk, RecoveryText, AuditText, GrantsOk, RecoveryOk, ValidTransition, VerifiedHistory, SameEvidence,
      IsQuiescent;
    assert forall a, b | 0 <= a < b < |k.recoveries| :: DistinctRecoveries(k.recoveries[a], k.recoveries[b]);
    RecoveryKept(k.recoveries, n, request.operationId);
  }

  /** A recovery retried with the same inputs is recognised as applied, however long the chain has grown since. */
  lemma RecoveryRetry(images: seq<Checkpoint>, i: nat, j: nat, ownership: Ownership, request: RecoveryRequest,
                      candidate: Checkpoint,
                      history: seq<Event>, later: seq<Event>)
    requires ValidChain(images) && i + 1 <= j < |images|
    requires DecideRecover(images[i], ownership, request, candidate, history) == RecoverReady(images[i + 1])
    ensures DecideRecover(images[j], ownership, request, candidate, later)
      == AlreadyRecovered(RecoveryRecordFor(request, ownership, candidate))
  {
    var current, image, k := images[i], images[i + 1], images[j];
    hide DecideRecover, ValidChain, ValidTransition, WellFormed, RecoveryText, AuditText, IsQuiescent, SameEvidence,
      AuditExtends;
    RecoverReadyFacts(current, ownership, request, candidate, history);
    ChainExtends(images, i + 1, j);
    ChainWellFormed(images, j);
    ChainWellFormed(images, i + 1);
    RecoveredAudits(current, image, candidate, RecoveryRecordFor(request, ownership, candidate));
    EvidenceKept(current, image, k, ownership, request, candidate);
    RecoveryFound(k, |current.recoveries|, ownership, request, candidate, later);
  }

  lemma EvidenceKept(current: Checkpoint, image: Checkpoint, k: Checkpoint, ownership: Ownership,
                     request: RecoveryRequest, candidate: Checkpoint)
    requires WellFormed(image) && AuditExtends(image, k)
    requires image == RecoveredImage(candidate, RecoveryRecordFor(request, ownership, candidate))
    requires candidate.recoveries == current.recoveries && candidate.grants == current.grants
    requires image.grants == candidate.grants
    ensures var n := |current.recoveries|;
      n < |k.recoveries| && k.recoveries[n] == RecoveryRecordFor(request, ownership, candidate)
      && SameEvidence(k, n, request, candidate)
  {
    var n := |current.recoveries|;
    hide WellFormed, GrantsBefore;
    assert k.recoveries[n] == image.recoveries[n];
    assert k.recoveries[..n] == image.recoveries[..n] == current.recoveries;
    GrantsEarlier(image);
    assert k.grants == image.grants + k.grants[|image.grants|..];
    GrantsBeforeSplit(image.grants, k.grants[|image.grants|..], candidate.revision);
  }

  lemma GrantsEarlier(k: Checkpoint)
    requires WellFormed(k)
    ensures forall i | 0 <= i < |k.grants| :: k.grants[i].sourceRevision < k.revision
  {
    hide CoreOk, RecoveriesOk, GrantText, ValidIncrease, AnchorOk, NotAfter;
    forall i | 0 <= i < |k.grants| ensures k.grants[i].sourceRevision < k.revision {
      assert GrantOk(k, k.grants[i]);
    }
  }
}
