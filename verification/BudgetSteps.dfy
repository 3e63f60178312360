/** One atomic step of the task ledger, as a function of its state
    (crates/core/budget/src/lib.rs). */
module BudgetSteps {
  import opened BudgetTypes

  datatype Error =
    | InvalidIdentity | CheckpointSealed | IdentityMismatched | RunActive | RunClosed | Stopped(reason: StopReason)
    | EmptyRequest
    | UnverifiedTokenBound(resource: Resource) | ZeroTokenEstimate(resource: Resource)
    | AlreadyStarted | NotStarted | ReservationMissing | PendingReservations

  const OVERFLOW := Stopped(AccountingOverflow)

  datatype Config = Config(identity: Identity, limits: Limits, tokenMode: TokenMode)

  datatype RunState = RunState(id: u64, report: RunReport, cleaning: bool)

  // The mutable ledger. `pending` lists an ordered map by ascending id.
  datatype State = State(
    isSealed: bool, recoveryFrozen: bool, revision: u64, grants: seq<GrantRecord>, recoveries: seq<RecoveryRecord>,
    charged: Amounts, reserved: Amounts, usage: UsageReport, activeTime: Duration, cleanupTime: Duration,
    stop: Option<StopReason>, run: Option<RunState>, pending: seq<Pending>, nextId: u64, lastClock: Duration)

  function FreshLedger(start: Duration): State {
    State(false, false, 0, [], [], ZERO, ZERO, NO_USAGE, 0, 0, None, None, [], 0, start)
  }

  datatype Outcome = Done | Granted(id: u64) | Reported(report: Report) | Failed(error: Error)

  function FirstStop(stop: Option<StopReason>, reason: StopReason): Option<StopReason> {
    if stop.Some? then stop else Some(reason)
  }

  // ----- guards -----

  function CheckWritable(s: State): Option<Error> {
    if s.isSealed then Some(CheckpointSealed)
    else if s.recoveryFrozen then Some(Stopped(RecoveryRequired))
    else None
  }

  function CheckRun(s: State, id: u64): Option<Error> {
    if CheckWritable(s).Some? then CheckWritable(s)
    else if s.run.Some? && s.run.value.id == id && s.run.value.report.open then None
    else Some(RunClosed)
  }

  function RunStop(s: State): Option<StopReason> {
    if s.run.Some? then s.run.value.report.stop else None
  }

  function AnyStop(s: State): Option<StopReason> {
    if s.stop.Some? then s.stop else RunStop(s)
  }

  function CheckStop(s: State): Option<Error> {
    if CheckWritable(s).Some? then CheckWritable(s)
    else if AnyStop(s).Some? then Some(Stopped(AnyStop(s).value))
    else None
  }

  function CheckOpen(s: State, id: u64): Option<Error> {
    if CheckRun(s, id).Some? then CheckRun(s, id) else CheckStop(s)
  }

  // ----- time -----

  function SaturatingSub(a: Duration, b: Duration): Duration {
    if b <= a then a - b else 0
  }

  // Time is measured while the run is open, and after that while reservations are outstanding.
  predicate Measured(s: State) {
    s.run.Some? && (s.run.value.report.open || s.pending != [])
  }

  // How elapsed time divides: what counts as active, and the stops it triggers on the task and the run.
  datatype TimeSplit = TimeSplit(active: Duration, taskStop: Option<StopReason>, runStop: Option<StopReason>)

  function SplitTime(c: Config, s: State, elapsed: Duration): (t: TimeSplit)
    requires s.run.Some?
    ensures t.active <= elapsed
    ensures t.active == 0 || (s.activeTime + t.active <= c.limits.activeTime
      && s.run.value.report.activeTime + t.active <= s.run.value.report.limits.activeTime)
  {
    var run := s.run.value.report;
    var halted := s.stop.Some? || run.stop.Some? || s.run.value.cleaning;
    var taskRemaining := SaturatingSub(c.limits.activeTime, s.activeTime);
    var runRemaining := SaturatingSub(run.limits.activeTime, run.activeTime);
    var remaining := Min(taskRemaining, runRemaining);
    if halted then TimeSplit(0, s.stop, run.stop)
    else if elapsed < remaining then TimeSplit(elapsed, s.stop, run.stop)
    else if taskRemaining <= runRemaining then TimeSplit(remaining, Some(ActiveTime), run.stop)
    else TimeSplit(remaining, s.stop, Some(ActiveTime))
  }

  function Measure(c: Config, s: State, elapsed: Duration): State
    requires s.run.Some?
  {
    var run := s.run.value.report;
    var split := SplitTime(c, s, elapsed);
    var cleanup := elapsed - split.active;
    var fits := s.cleanupTime + cleanup <= DURATION_MAX && run.cleanupTime + cleanup <= DURATION_MAX;
    s.(activeTime := s.activeTime + split.active,
       cleanupTime := if fits then s.cleanupTime + cleanup else s.cleanupTime,
       stop := if fits then split.taskStop else FirstStop(split.taskStop, AccountingOverflow),
       run := Some(s.run.value.(report := run.(
         activeTime := run.activeTime + split.active,
         cleanupTime := if fits then run.cleanupTime + cleanup else run.cleanupTime,
         stop := split.runStop))))
  }

  function Tick(c: Config, s: State, now: Duration): State {
    if s.isSealed || s.recoveryFrozen then s
    else if now < s.lastClock then s.(stop := FirstStop(s.stop, ClockMovedBackwards))
    else if !Measured(s) then s.(lastClock := now)
    else Measure(c, s.(lastClock := now), now - s.lastClock)
  }

  function Snapshot(c: Config, s: State): Report {
    Report(c.identity, c.limits, c.tokenMode, s.charged, s.reserved, s.activeTime, s.cleanupTime, s.stop, s.usage,
           if s.run.Some? then Some(s.run.value.report) else None, s.pending)
  }

  // ----- runs -----

  function WithReport(s: State, report: RunReport): State
    requires s.run.Some?
  {
    s.(run := Some(s.run.value.(report := report)))
  }

  const NEW_METRICS := Metrics(NO_COUNTS, NO_COUNTS)

  function NewRun(c: Config, id: u64, turnId: Option<string>, limits: Limits): RunState {
    RunState(id, RunReport(turnId, NEW_METRICS, TightenedBy(c.limits, limits), ZERO, ZERO, 0, 0, true, None), false)
  }

  function BeginRun(c: Config, s: State, turnId: Option<string>, limits: Limits, now: Duration,
                    later: Duration): (State, Outcome) {
    if CheckWritable(s).Some? then (s, Failed(CheckWritable(s).value))
    else
      var t := Tick(c, s, now);
      if t.run.Some? then (t, Failed(RunActive))
      else if CheckStop(t).Some? then (t, Failed(CheckStop(t).value))
      else if t.nextId == U64_MAX then (t.(stop := FirstStop(t.stop, AccountingOverflow)), Failed(OVERFLOW))
      else
        var id := t.nextId + 1;
        (Tick(c, t.(nextId := id, run := Some(NewRun(c, id, turnId, limits))), later), Granted(id))
  }

  function BindTurn(c: Config, s: State, id: u64, turnId: string, now: Duration): (State, Outcome) {
    var t := Tick(c, s, now);
    if CheckRun(t, id).Some? then (t, Failed(CheckRun(t, id).value))
    else if t.run.value.report.turnId.Some? then (t, Failed(IdentityMismatched))
    else (WithReport(t, t.run.value.report.(turnId := Some(turnId))), Done)
  }

  function PrepareReport(c: Config, s: State, id: u64, now: Duration): (State, Outcome) {
    var t := Tick(c, s, now);
    if CheckRun(t, id).Some? then (t, Failed(CheckRun(t, id).value))
    else if t.pending != [] then (t, Failed(PendingReservations))
    else
      var u := WithReport(t, t.run.value.report.(open := false));
      (u, Reported(Snapshot(c, u)))
  }

  function Finish(c: Config, s: State, id: u64, now: Duration): (State, Outcome) {
    if CheckWritable(s).Some? then (s, Failed(CheckWritable(s).value))
    else
      var t := Tick(c, s, now);
      if t.run.None? || t.run.value.id != id then (t, Failed(RunClosed))
      else if t.pending != [] then (t, Failed(PendingReservations))
      else
        var u := WithReport(t, t.run.value.report.(open := false));
        (u.(run := None), Reported(Snapshot(c, u)))
  }

  // The run lease is dropped unfinished.
  function DropRun(c: Config, s: State, id: u64, now: Duration): State {
    if CheckWritable(s).Some? then s
    else
      var t := Tick(c, s, now);
      if t.run.Some? && t.run.value.id == id then
        WithReport(t, t.run.value.report.(open := false)).(stop := FirstStop(t.stop, RunAbandoned))
      else t
  }

  function Expire(c: Config, s: State, id: u64, now: Duration): (State, Outcome) {
    var t := Tick(c, s, now);
    if CheckRun(t, id).Some? then (t, Failed(CheckRun(t, id).value))
    else if CheckStop(t).Some? then (t, Done)
    else
      var run := t.run.value.report;
      if c.limits.activeTime - t.activeTime <= run.limits.activeTime - run.activeTime
      then (t.(stop := Some(ActiveTime)), Done)
      else (WithReport(t, run.(stop := Some(ActiveTime))), Done)
  }

  function StopWith(c: Config, s: State, id: u64, reason: StopReason, now: Duration): (State, Outcome) {
    var t := Tick(c, s, now);
    if CheckRun(t, id).Some? then (t, Failed(CheckRun(t, id).value))
    else (WithReport(t, t.run.value.report.(stop := FirstStop(t.run.value.report.stop, reason))), Done)
  }

  function BeginCleanup(c: Config, s: State, id: u64, now: Duration): (State, Outcome) {
    var t := Tick(c, s, now);
    if CheckRun(t, id).Some? then (t, Failed(CheckRun(t, id).value))
    else (t.(run := Some(t.run.value.(cleaning := true))), Done)
  }

  datatype EventKind = ModelRequest | ModelResult | ToolCall | ToolResult

  function Bump(n: u64): u64 { if n < U64_MAX then n + 1 else n }

  function CountEvent(counts: EventCounts, kind: EventKind): EventCounts {
    match kind
    case ModelRequest => counts.(modelRequests := Bump(counts.modelRequests))
    case ModelResult => counts.(modelResults := Bump(counts.modelResults))
    case ToolCall => counts.(toolCalls := Bump(counts.toolCalls))
    case ToolResult => counts.(toolResults := Bump(counts.toolResults))
  }

  function RecordEvidence(s: State, id: u64, kind: EventKind, confirmed: bool): State {
    if CheckWritable(s).None? && s.run.Some? && s.run.value.id == id then
      var m := s.run.value.report.metrics;
      WithReport(s, s.run.value.report.(metrics :=
        if confirmed then m.(confirmed := CountEvent(m.confirmed, kind))
        else m.(unconfirmed := CountEvent(m.unconfirmed, kind))))
    else s
  }

  // ----- reservations -----

  predicate Fits(charged: u64, reserved: u64, requested: u64, limit: u64) {
    charged + reserved + requested <= limit
  }

  predicate NeedsEvidence(request: Request, r: Resource, evidence: TokenEvidence) {
    (request.amounts.modelRequests > 0 || request.amounts.Get(r) > 0) && evidence != VerifiedUpperBound
  }

  function TokenFault(request: Request, r: Resource, evidence: TokenEvidence, mode: TokenMode): Option<Error> {
    if !NeedsEvidence(request, r, evidence) then None
    else if mode == Hard then Some(UnverifiedTokenBound(r))
    else if request.amounts.Get(r) == 0 then Some(ZeroTokenEstimate(r))
    else None
  }

  function ValidateRequest(request: Request, mode: TokenMode): Option<Error> {
    if forall i | 0 <= i < |ALL| && ALL[i].IsAttempt() :: request.amounts.Get(ALL[i]) == 0 then Some(EmptyRequest)
    else if TokenFault(request, InputTokens, request.inputTokens, mode).Some?
    then TokenFault(request, InputTokens, request.inputTokens, mode)
    else TokenFault(request, OutputTokens, request.outputTokens, mode)
  }

  datatype Misfit = AllFit | TaskMisfit(resource: Resource) | RunMisfit(resource: Resource)

  predicate TaskFits(c: Config, s: State, request: Request, r: Resource) {
    Fits(s.charged.Get(r), s.reserved.Get(r), request.amounts.Get(r), c.limits.resources.Get(r))
  }

  predicate RunFits(s: State, request: Request, r: Resource)
    requires s.run.Some?
  {
    var run := s.run.value.report;
    Fits(run.charged.Get(r), run.reserved.Get(r), request.amounts.Get(r), run.limits.resources.Get(r))
  }

  // The first resource, task before run, that cannot take the request.
  function FirstMisfit(c: Config, s: State, request: Request, i: nat): (m: Misfit)
    requires s.run.Some? && i <= |ALL|
    ensures m.AllFit? ==> forall j | i <= j < |ALL| :: TaskFits(c, s, request, ALL[j]) && RunFits(s, request, ALL[j])
    ensures m.TaskMisfit? ==> !TaskFits(c, s, request, m.resource)
    ensures m.RunMisfit? ==> !RunFits(s, request, m.resource)
    decreases |ALL| - i
  {
    if i == |ALL| then AllFit
    else if !TaskFits(c, s, request, ALL[i]) then TaskMisfit(ALL[i])
    else if !RunFits(s, request, ALL[i]) then RunMisfit(ALL[i])
    else FirstMisfit(c, s, request, i + 1)
  }

  function Clamp(n: int): u64 { if n < 0 then 0 else if n > U64_MAX then U64_MAX else n }

  // Attempts are charged when a request is accepted; the rest is reserved.
  function AddAttempts(a: Amounts, b: Amounts): (m: Amounts)
    ensures forall r: Resource :: m.Get(r) == if r.IsAttempt() then Clamp(a.Get(r) + b.Get(r)) else a.Get(r)
  {
    a.(steps := Clamp(a.steps + b.steps), modelRequests := Clamp(a.modelRequests + b.modelRequests),
       toolCalls := Clamp(a.toolCalls + b.toolCalls), corrections := Clamp(a.corrections + b.corrections))
  }

  function AddVariables(a: Amounts, b: Amounts): (m: Amounts)
    ensures forall r: Resource :: m.Get(r) == if r.IsAttempt() then a.Get(r) else Clamp(a.Get(r) + b.Get(r))
  {
    a.(inputTokens := Clamp(a.inputTokens + b.inputTokens), outputTokens := Clamp(a.outputTokens + b.outputTokens),
       toolOutputBytes := Clamp(a.toolOutputBytes + b.toolOutputBytes))
  }

  function SubVariables(a: Amounts, b: Amounts): (m: Amounts)
    ensures forall r: Resource :: m.Get(r) == if r.IsAttempt() then a.Get(r) else Clamp(a.Get(r) - b.Get(r))
  {
    a.(inputTokens := Clamp(a.inputTokens - b.inputTokens), outputTokens := Clamp(a.outputTokens - b.outputTokens),
       toolOutputBytes := Clamp(a.toolOutputBytes - b.toolOutputBytes))
  }

  function Accept(s: State, request: Request, id: u64): State
    requires s.run.Some?
  {
    var run := s.run.value.report;
    WithReport(s,
               run.(charged := AddAttempts(run.charged, request.amounts),
                    reserved := AddVariables(run.reserved, request.amounts)))
      .(charged := AddAttempts(s.charged, request.amounts), reserved := AddVariables(s.reserved, request.amounts),
        pending := s.pending + [Pending(id, request, false, false, None)], nextId := id)
  }

  function Reserve(c: Config, s: State, runId: u64, request: Request, now: Duration): (State, Outcome) {
    var t := Tick(c, s, now);
    if CheckOpen(t, runId).Some? then (t, Failed(CheckOpen(t, runId).value))
    else if ValidateRequest(request, c.tokenMode).Some? then (t, Failed(ValidateRequest(request, c.tokenMode).value))
    else
      match FirstMisfit(c, t, request, 0)
      case TaskMisfit(r) => (t.(stop := Some(ResourceLimit(r))), Failed(Stopped(ResourceLimit(r))))
      case RunMisfit(r) => (WithReport(t, t.run.value.report.(stop := Some(ResourceLimit(r)))),
          Failed(Stopped(ResourceLimit(r))))
      case AllFit =>
        if t.nextId == U64_MAX then (t.(stop := FirstStop(t.stop, AccountingOverflow)), Failed(OVERFLOW))
        else (Accept(t, request, t.nextId + 1), Granted(t.nextId + 1))
  }

  // The position of a reservation in the pending list.
  function Find(pending: seq<Pending>, id: u64): (i: Option<nat>)
    ensures i.Some? ==> i.value < |pending| && pending[i.value].id == id
    ensures i.None? ==> forall j | 0 <= j < |pending| :: pending[j].id != id
  {
    if pending == [] then None
    else if pending[|pending| - 1].id == id then Some(|pending| - 1)
    else Find(pending[..|pending| - 1], id)
  }

  function MarkStarted(c: Config, s: State, runId: u64, id: u64, now: Duration): (State, Outcome) {
    var t := Tick(c, s, now);
    if CheckOpen(t, runId).Some? then (t, Failed(CheckOpen(t, runId).value))
    else
      var i := Find(t.pending, id);
      if i.None? then (t, Failed(ReservationMissing))
      else if t.pending[i.value].started then (t, Failed(AlreadyStarted))
      else (t.(pending := t.pending[i.value := t.pending[i.value].(started := true)]), Done)
  }

  function Without(pending: seq<Pending>, i: nat): seq<Pending>
    requires i < |pending|
  {
    pending[..i] + pending[i + 1..]
  }

  // Returns the variable part of a reservation and forgets it.
  function Release(s: State, i: nat): State
    requires s.run.Some? && i < |s.pending|
  {
    var amounts := s.pending[i].request.amounts;
    var run := s.run.value.report;
    WithReport(s, run.(reserved := SubVariables(run.reserved, amounts)))
      .(reserved := SubVariables(s.reserved, amounts), pending := Without(s.pending, i))
  }

  // An unresolved reservation handle is dropped.
  function DropReservation(c: Config, s: State, id: u64, now: Duration): State {
    if CheckWritable(s).Some? then s
    else
      var t := Tick(c, s, now);
      var i := Find(t.pending, id);
      if i.None? then t
      else t.(pending := t.pending[i.value := t.pending[i.value].(abandoned := true)],
              stop := FirstStop(t.stop, AbandonedReservation))
  }

  function TryCancel(c: Config, s: State, id: u64, now: Duration): (State, Outcome) {
    if CheckWritable(s).Some? then (s, Failed(CheckWritable(s).value))
    else
      var t := Tick(c, s, now);
      var i := Find(t.pending, id);
      if i.None? then (t, Failed(ReservationMissing))
      else if t.pending[i.value].started then (t, Failed(AlreadyStarted))
      else if t.run.None? then (t, Failed(RunClosed))
      else (Release(t, i.value), Done)
  }

  // A refused cancellation consumes the handle, so the reservation is abandoned.
  function CancelBeforeStart(c: Config, s: State, id: u64, now: Duration, later: Duration): (State, Outcome) {
    var r := TryCancel(c, s, id, now);
    if r.1.Done? then r else (DropReservation(c, r.0, id, later), r.1)
  }

  // ----- settlement -----

  datatype Settlement = Settlement(charged: Amounts, runCharged: Amounts, evidence: UsageReport,
                                   breach: Option<Resource>)

  predicate Applicable(request: Request, r: Resource) {
    if r == ToolOutputBytes then request.amounts.toolCalls > 0 else request.amounts.modelRequests > 0
  }

  // What a usage value adds to the evidence.
  function AddEvidence(totals: UsageTotals, value: UsageValue, counted: bool): Option<UsageTotals> {
    match value
    case Actual(n) => if totals.actual + n <= U64_MAX then Some(totals.(actual := totals.actual + n)) else None
    case Estimated(n) => if totals.estimated + n <= U64_MAX then Some(totals.(estimated := totals.estimated + n))
        else None
    case Unknown =>
      if !counted then Some(totals)
      else if totals.unknown + 1 <= U64_MAX then Some(totals.(unknown := totals.unknown + 1)) else None
  }

  // Unknown usage keeps the whole reservation; an estimate never charges less than it.
  function Debit(value: UsageValue, reserved: u64): u64 {
    match value
    case Actual(n) => n
    case Estimated(n) => Max(n, reserved)
    case Unknown => reserved
  }

  function SettleResource(a: Settlement, r: Resource, request: Request, usage: Usage): Option<Settlement>
    requires !r.IsAttempt()
  {
    var reserved := request.amounts.Get(r);
    var totals := AddEvidence(a.evidence.Get(r), usage.Get(r), Applicable(request, r) || reserved > 0);
    var debit := Debit(usage.Get(r), reserved);
    if totals.None? || a.charged.Get(r) + debit > U64_MAX || a.runCharged.Get(r) + debit > U64_MAX then None
    else Some(Settlement(a.charged.Set(r, a.charged.Get(r) + debit), a.runCharged.Set(r, a.runCharged.Get(r) + debit),
                         a.evidence.Set(r, totals.value),
                         if a.breach.None? && debit > reserved then Some(r) else a.breach))
  }

  function SettleFrom(a: Settlement, i: nat, request: Request, usage: Usage): Option<Settlement>
    requires i <= |VARIABLES|
    decreases |VARIABLES| - i
  {
    if i == |VARIABLES| then Some(a)
    else
      AllResources(VARIABLES[i]);
      var b := SettleResource(a, VARIABLES[i], request, usage);
      if b.None? then None else SettleFrom(b.value, i + 1, request, usage)
  }

  function Settled(s: State, request: Request, usage: Usage): Option<Settlement>
    requires s.run.Some?
  {
    SettleFrom(Settlement(s.charged, s.run.value.report.charged, s.usage, None), 0, request, usage)
  }

  function ApplySettlement(s: State, i: nat, a: Settlement): State
    requires s.run.Some? && i < |s.pending|
  {
    var t := Release(s, i);
    WithReport(t, t.run.value.report.(charged := a.runCharged))
      .(charged := a.charged, usage := a.evidence,
        stop := if a.breach.Some? then FirstStop(t.stop, UsageExceededReservation(a.breach.value)) else t.stop)
  }

  // Also says whether the reservation was resolved.
  function TrySettle(c: Config, s: State, id: u64, usage: Usage, now: Duration): (State, Outcome, bool) {
    if CheckWritable(s).Some? then (s, Failed(CheckWritable(s).value), false)
    else
      var t := Tick(c, s, now);
      var i := Find(t.pending, id);
      if i.None? then (t, Failed(ReservationMissing), false)
      else if !t.pending[i.value].started then (t, Failed(NotStarted), false)
      else
        var a := if t.run.Some? then Settled(t, t.pending[i.value].request, usage) else None;
        if a.None? then
          (t.(stop := FirstStop(t.stop, AccountingOverflow),
              pending := t.pending[i.value := t.pending[i.value].(failedUsage := Some(usage))]),
           Failed(if t.run.Some? then OVERFLOW else RunClosed), false)
        else
          (ApplySettlement(t, i.value, a.value),
           if a.value.breach.Some? then Failed(Stopped(UsageExceededReservation(a.value.breach.value))) else Done, true)
  }

  function Settle(c: Config, s: State, id: u64, usage: Usage, now: Duration, later: Duration): (State, Outcome) {
    var r := TrySettle(c, s, id, usage, now);
    if r.2 then (r.0, r.1) else (DropReservation(c, r.0, id, later), r.1)
  }

  // ----- observations -----

  function ObserveReport(c: Config, s: State, now: Duration): (State, Outcome) {
    if s.isSealed then (s, Failed(CheckpointSealed))
    else
      var t := Tick(c, s, now);
      (t, Reported(Snapshot(c, t)))
  }

  function CheckActive(c: Config, s: State, runId: u64, now: Duration): (State, Outcome) {
    var t := Tick(c, s, now);
    (t, if CheckOpen(t, runId).Some? then Failed(CheckOpen(t, runId).value) else Done)
  }

  // ----- any step -----

  // A failed cancel or settle gives up the lock before the handle it consumed is dropped: the two halves are also steps
  // of their own, so that others may act in between.
  datatype Op =
    | OpBeginRun(turnId: Option<string>, limits: Limits, now: Duration, later: Duration)
    | OpBindTurn(run: u64, turn: string, now: Duration)
    | OpPrepareReport(run: u64, now: Duration)
    | OpFinish(run: u64, now: Duration)
    | OpDropRun(run: u64, now: Duration)
    | OpExpire(run: u64, now: Duration)
    | OpStopWith(run: u64, reason: StopReason, now: Duration)
    | OpBeginCleanup(run: u64, now: Duration)
    | OpRecordEvidence(run: u64, kind: EventKind, confirmed: bool)
    | OpReserve(run: u64, request: Request, now: Duration)
    | OpMarkStarted(run: u64, id: u64, now: Duration)
    | OpCancel(id: u64, now: Duration, later: Duration)
    | OpSettle(id: u64, usage: Usage, now: Duration, later: Duration)
    | OpTryCancel(id: u64, now: Duration)
    | OpTrySettle(id: u64, usage: Usage, now: Duration)
    | OpDropReservation(id: u64, now: Duration)
    | OpReport(now: Duration)
    | OpCheckActive(run: u64, now: Duration)

  function Step(c: Config, s: State, op: Op): (State, Outcome) {
    match op
    case OpBeginRun(turnId, limits, now, later) => BeginRun(c, s, turnId, limits, now, later)
    case OpBindTurn(run, turn, now) => BindTurn(c, s, run, turn, now)
    case OpPrepareReport(run, now) => PrepareReport(c, s, run, now)
    case OpFinish(run, now) => Finish(c, s, run, now)
    case OpDropRun(run, now) => (DropRun(c, s, run, now), Done)
    case OpExpire(run, now) => Expire(c, s, run, now)
    case OpStopWith(run, reason, now) => StopWith(c, s, run, reason, now)
    case OpBeginCleanup(run, now) => BeginCleanup(c, s, run, now)
    case OpRecordEvidence(run, kind, confirmed) => (RecordEvidence(s, run, kind, confirmed), Done)
    case OpReserve(run, request, now) => Reserve(c, s, run, request, now)
    case OpMarkStarted(run, id, now) => MarkStarted(c, s, run, id, now)
    case OpCancel(id, now, later) => CancelBeforeStart(c, s, id, now, later)
    case OpSettle(id, usage, now, later) => Settle(c, s, id, usage, now, later)
    case OpTryCancel(id, now) => TryCancel(c, s, id, now)
    case OpTrySettle(id, usage, now) => (TrySettle(c, s, id, usage, now).0, TrySettle(c, s, id, usage, now).1)
    case OpDropReservation(id, now) => (DropReservation(c, s, id, now), Done)
    case OpReport(now) => ObserveReport(c, s, now)
    case OpCheckActive(run, now) => CheckActive(c, s, run, now)
  }

  // The state after a run of steps.
  function After(c: Config, s: State, ops: seq<Op>): State
    decreases |ops|
  {
    if ops == [] then s else After(c, Step(c, s, ops[0]).0, ops[1..])
  }
}
