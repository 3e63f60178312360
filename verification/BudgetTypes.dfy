/** Budget vocabulary (crates/core/core/src/budget.rs, crates/core/budget/src/checkpoint.rs). */
module BudgetTypes {
  const U64_MAX: int := 0xFFFF_FFFF_FFFF_FFFF
  const DURATION_MAX: int := U64_MAX * 1_000_000_000 + 999_999_999

  type u64 = x: int | 0 <= x <= U64_MAX
  // Nanoseconds; the greatest duration is U64_MAX seconds and 999 999 999 nanoseconds.
  type Duration = x: int | 0 <= x <= DURATION_MAX

  datatype Option<+T> = None | Some(value: T)

  function Min(a: int, b: int): int { if a <= b then a else b }
  function Max(a: int, b: int): int { if a <= b then b else a }

  predicate Blank(s: string) {
    forall i | 0 <= i < |s| :: s[i] in {' ', '\t', '\n', '\r'}
  }

  // ----- resources -----

  datatype Resource = Steps | ModelRequests | ToolCalls | Corrections | InputTokens | OutputTokens | ToolOutputBytes {
    predicate IsAttempt() {
      Steps? || ModelRequests? || ToolCalls? || Corrections?
    }
  }

  const ALL: seq<Resource> := [Steps, ModelRequests, ToolCalls, Corrections, InputTokens, OutputTokens, ToolOutputBytes]
  const VARIABLES: seq<Resource> := [InputTokens, OutputTokens, ToolOutputBytes]

  lemma AllResources(r: Resource)
    ensures r in ALL
    ensures r in VARIABLES <==> !r.IsAttempt()
  {
    assert ALL[0] == Steps && ALL[1] == ModelRequests && ALL[2] == ToolCalls && ALL[3] == Corrections;
    assert ALL[4] == InputTokens && ALL[5] == OutputTokens && ALL[6] == ToolOutputBytes;
    assert VARIABLES[0] == InputTokens && VARIABLES[1] == OutputTokens && VARIABLES[2] == ToolOutputBytes;
  }

  datatype Amounts = Amounts(steps: u64, modelRequests: u64, toolCalls: u64, corrections: u64,
                             inputTokens: u64, outputTokens: u64, toolOutputBytes: u64)
  {
    function Get(r: Resource): u64 {
      match r
      case Steps => steps
      case ModelRequests => modelRequests
      case ToolCalls => toolCalls
      case Corrections => corrections
      case InputTokens => inputTokens
      case OutputTokens => outputTokens
      case ToolOutputBytes => toolOutputBytes
    }

    function Set(r: Resource, v: u64): (a: Amounts)
      ensures a.Get(r) == v && forall q | q != r :: a.Get(q) == Get(q)
    {
      match r
      case Steps => this.(steps := v)
      case ModelRequests => this.(modelRequests := v)
      case ToolCalls => this.(toolCalls := v)
      case Corrections => this.(corrections := v)
      case InputTokens => this.(inputTokens := v)
      case OutputTokens => this.(outputTokens := v)
      case ToolOutputBytes => this.(toolOutputBytes := v)
    }
  }

  const ZERO := Amounts(0, 0, 0, 0, 0, 0, 0)

  // Amounts are equal when they agree on every resource.
  lemma AmountsEqual(a: Amounts, b: Amounts)
    requires forall r: Resource :: a.Get(r) == b.Get(r)
    ensures a == b
  {
    assert a.Get(Steps) == b.Get(Steps) && a.Get(ModelRequests) == b.Get(ModelRequests);
    assert a.Get(ToolCalls) == b.Get(ToolCalls) && a.Get(Corrections) == b.Get(Corrections);
    assert a.Get(InputTokens) == b.Get(InputTokens) && a.Get(OutputTokens) == b.Get(OutputTokens);
    assert a.Get(ToolOutputBytes) == b.Get(ToolOutputBytes);
  }

  datatype Limits = Limits(resources: Amounts, activeTime: Duration)

  function MinAmounts(a: Amounts, b: Amounts): (m: Amounts)
    ensures forall r: Resource :: m.Get(r) == Min(a.Get(r), b.Get(r))
  {
    Amounts(Min(a.steps, b.steps), Min(a.modelRequests, b.modelRequests), Min(a.toolCalls, b.toolCalls),
            Min(a.corrections, b.corrections), Min(a.inputTokens, b.inputTokens),
            Min(a.outputTokens, b.outputTokens), Min(a.toolOutputBytes, b.toolOutputBytes))
  }

  function TightenedBy(a: Limits, b: Limits): Limits {
    Limits(MinAmounts(a.resources, b.resources), Min(a.activeTime, b.activeTime))
  }

  ghost predicate WithinLimits(a: Limits, b: Limits) {
    a.activeTime <= b.activeTime && forall r: Resource :: a.resources.Get(r) <= b.resources.Get(r)
  }

  lemma TightenedIffWithin(a: Limits, b: Limits)
    ensures TightenedBy(a, b) == a <==> WithinLimits(a, b)
    ensures WithinLimits(TightenedBy(a, b), a) && WithinLimits(TightenedBy(a, b), b)
  {
    var m := TightenedBy(a, b);
    if WithinLimits(a, b) {
      AmountsEqual(m.resources, a.resources);
    }
    if m == a {
      forall r: Resource ensures a.resources.Get(r) <= b.resources.Get(r) {
        assert m.resources.Get(r) == Min(a.resources.Get(r), b.resources.Get(r));
      }
    }
  }

  // ----- requests and usage -----

  datatype TokenMode = Hard | Soft
  datatype TokenEvidence = VerifiedUpperBound | Estimate
  datatype Request = Request(amounts: Amounts, inputTokens: TokenEvidence, outputTokens: TokenEvidence)

  datatype UsageValue = Actual(amount: u64) | Estimated(amount: u64) | Unknown
  datatype Usage = Usage(inputTokens: UsageValue, outputTokens: UsageValue, toolOutputBytes: UsageValue) {
    function Get(r: Resource): UsageValue
      requires !r.IsAttempt()
    {
      if r == InputTokens then inputTokens else if r == OutputTokens then outputTokens else toolOutputBytes
    }
  }

  datatype UsageTotals = UsageTotals(actual: u64, estimated: u64, unknown: u64)
  datatype UsageReport = UsageReport(inputTokens: UsageTotals, outputTokens: UsageTotals,
                                     toolOutputBytes: UsageTotals) {
    function Get(r: Resource): UsageTotals
      requires !r.IsAttempt()
    {
      if r == InputTokens then inputTokens else if r == OutputTokens then outputTokens else toolOutputBytes
    }

    function Set(r: Resource, t: UsageTotals): (u: UsageReport)
      requires !r.IsAttempt()
      ensures u.Get(r) == t && forall q: Resource | !q.IsAttempt() && q != r :: u.Get(q) == Get(q)
    {
      if r == InputTokens then this.(inputTokens := t)
      else if r == OutputTokens then this.(outputTokens := t)
      else this.(toolOutputBytes := t)
    }
  }

  const NO_TOTALS := UsageTotals(0, 0, 0)
  const NO_USAGE := UsageReport(NO_TOTALS, NO_TOTALS, NO_TOTALS)

  datatype StopReason =
    | RecoveryRequired | ResourceLimit(resource: Resource) | ActiveTime | UsageExceededReservation(resource: Resource)
    | AbandonedReservation | RunAbandoned | ClockMovedBackwards | AccountingOverflow | IdentityMismatch | InvalidRequest

  // ----- reports -----

  datatype EventCounts = EventCounts(modelRequests: u64, modelResults: u64, toolCalls: u64, toolResults: u64)
  const NO_COUNTS := EventCounts(0, 0, 0, 0)
  datatype Metrics = Metrics(confirmed: EventCounts, unconfirmed: EventCounts)

  datatype RunReport = RunReport(
    turnId: Option<string>, metrics: Metrics, limits: Limits, charged: Amounts, reserved: Amounts,
    activeTime: Duration, cleanupTime: Duration, open: bool, stop: Option<StopReason>)

  datatype Pending = Pending(id: u64, request: Request, started: bool, abandoned: bool, failedUsage: Option<Usage>)

  datatype Identity = Identity(taskId: string, sessionId: string, agentKey: string)

  datatype Report = Report(
    identity: Identity, limits: Limits, tokenMode: TokenMode, charged: Amounts, reserved: Amounts,
    activeTime: Duration, cleanupTime: Duration, stop: Option<StopReason>, usage: UsageReport,
    run: Option<RunReport>, pending: seq<Pending>)

  // ----- checkpoint images and their audits -----

  datatype Cursor = Cursor(sessionId: string, turnId: string, eventId: string, seqNo: u64)

  datatype GrantRequest = GrantRequest(operationId: string, actor: string, source: string, reason: string,
                                       newLimits: Limits)
  datatype GrantRecord = GrantRecord(
    request: GrantRequest, sourceRevision: u64, confirmedAnchor: Option<Cursor>, oldLimits: Limits,
        oldStop: Option<StopReason>)

  datatype RecoveryRequest = RecoveryRequest(
    operationId: string, executionId: string, sourceRevision: u64, actor: string, source: string, reason: string)
  datatype RecoveryRecord = RecoveryRecord(
    request: RecoveryRequest, ownershipId: string, confirmedAnchor: Option<Cursor>, candidateReport: Report,
        candidateNextId: u64)

  datatype Version = V1 | V2 | V3 | V4

  datatype Checkpoint = Checkpoint(
    version: Version, revision: u64, nextId: u64, anchor: Option<Cursor>, report: Report, runId: Option<u64>,
    recoveryFrozen: bool, executionId: Option<string>, grants: seq<GrantRecord>, recoveries: seq<RecoveryRecord>)

  // ----- sums over pending reservations -----

  ghost function PendingSum(pending: seq<Pending>, r: Resource): nat {
    if pending == [] then 0
    else PendingSum(pending[..|pending| - 1], r) + pending[|pending| - 1].request.amounts.Get(r)
  }

  lemma PendingSumAppend(pending: seq<Pending>, p: Pending, r: Resource)
    ensures PendingSum(pending + [p], r) == PendingSum(pending, r) + p.request.amounts.Get(r)
  {
    assert (pending + [p])[..|pending|] == pending;
  }

  lemma {:induction false} PendingSumRemove(pending: seq<Pending>, i: nat, r: Resource)
    requires i < |pending|
    ensures PendingSum(pending, r) == PendingSum(pending[..i] + pending[i + 1..], r) + pending[i].request.amounts.Get(r)
  {
    var last := |pending| - 1;
    if i == last {
      assert pending[..i] + pending[i + 1..] == pending[..last];
    } else {
      PendingSumRemove(pending[..last], i, r);
      var rest := pending[..i] + pending[i + 1..];
      assert rest[..|rest| - 1] == pending[..last][..i] + pending[..last][i + 1..];
      assert rest[|rest| - 1] == pending[last];
    }
  }

  lemma {:induction false} PendingSumUpdate(pending: seq<Pending>, i: nat, p: Pending, r: Resource)
    requires i < |pending| && p.request == pending[i].request
    ensures PendingSum(pending[i := p], r) == PendingSum(pending, r)
  {
    var last := |pending| - 1;
    if i == last {
      assert pending[i := p][..last] == pending[..last];
    } else {
      assert pending[i := p][..last] == pending[..last][i := p];
      PendingSumUpdate(pending[..last], i, p, r);
    }
  }

  lemma {:induction false} PendingMemberBelowSum(pending: seq<Pending>, i: nat, r: Resource)
    requires i < |pending|
    ensures pending[i].request.amounts.Get(r) <= PendingSum(pending, r)
  {
    if i < |pending| - 1 {
      PendingMemberBelowSum(pending[..|pending| - 1], i, r);
    }
  }
}
