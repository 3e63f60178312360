/** Checkpoint images: the structural checker, sealing and restoring
    (crates/core/budget/src/checkpoint.rs, and the audit checks of grant.rs and recovery.rs). */
module BudgetCheckpoint {
  import opened BudgetTypes
  import opened BudgetSteps
  import opened BudgetInvariant
  import opened BudgetConservation

  const MAX_BUDGET_GRANTS := 64
  const MAX_BUDGET_RECOVERIES := 16
  const MAX_AUDIT_TEXT := 1024

  // ---------------------------------------------------------------------
  // What a well-formed image is.
  // ---------------------------------------------------------------------

  predicate AuditText(s: string) {
    !Blank(s) && |s| <= MAX_AUDIT_TEXT
  }

  predicate GrantText(r: GrantRequest) {
    AuditText(r.operationId) && AuditText(r.actor) && AuditText(r.source) && AuditText(r.reason)
  }

  predicate RecoveryText(r: RecoveryRequest) {
    && AuditText(r.operationId) && AuditText(r.executionId) && AuditText(r.actor) && AuditText(r.source)
    && AuditText(r.reason)
    && r.sourceRevision != 0
  }

  // At least one limit rises, none falls, and the recorded stop is one the rise can clear.
  predicate ValidIncrease(before: Limits, after: Limits, stop: Option<StopReason>) {
    && before != after && TightenedBy(after, before) == before
    && match stop
       case None => true
       case Some(ResourceLimit(r)) => after.resources.Get(r) > before.resources.Get(r)
       case Some(ActiveTime) => after.activeTime > before.activeTime
       case Some(_) => false
  }

  predicate AnchorOk(anchor: Option<Cursor>, sessionId: string) {
    anchor.Some? ==> anchor.value.sessionId == sessionId && !Blank(anchor.value.turnId) && !Blank(anchor.value.eventId)
  }

  // a is a log position at or before b.
  predicate NotAfter(a: Option<Cursor>, b: Option<Cursor>) {
    a.Some? ==> b.Some? && a.value.seqNo <= b.value.seqNo && (a.value.seqNo == b.value.seqNo ==> a == b)
  }

  predicate IsQuiescent(k: Checkpoint) {
    k.executionId.None? && !k.recoveryFrozen && k.runId.None? && k.report.pending == []
  }

  predicate ClaimOk(k: Checkpoint) {
    k.executionId.Some? ==>
      !k.version.V1? && !Blank(k.executionId.value) && k.recoveryFrozen && k.runId.None? && k.report.pending == []
  }

  predicate RunIdOk(k: Checkpoint) {
    && (k.runId.Some? <==> k.report.run.Some?)
    && (k.report.run.None? ==> k.report.pending == [])
    && (k.runId.Some? ==> 0 < k.runId.value <= k.nextId)
  }

  predicate EntryOk(k: Checkpoint, i: nat)
    requires i < |k.report.pending|
  {
    var p := k.report.pending[i];
    && 0 < p.id <= k.nextId && Some(p.id) != k.runId && (forall j | 0 <= j < i :: k.report.pending[j].id != p.id)
    && (p.failedUsage.Some? ==> p.started) && ValidateRequest(p.request, k.report.tokenMode).None?
  }

  ghost predicate PendingOk(k: Checkpoint) {
    RunIdOk(k) && forall i | 0 <= i < |k.report.pending| :: EntryOk(k, i)
  }

  // The attempts and the variable amounts held by the pending reservations.
  ghost predicate Tallied(pending: seq<Pending>, attempts: Amounts, reserved: Amounts) {
    forall r: Resource ::
      && attempts.Get(r) == (if r.IsAttempt() then PendingSum(pending, r) else 0)
      && reserved.Get(r) == (if r.IsAttempt() then 0 else PendingSum(pending, r))
  }

  ghost predicate TaskResourceOk(report: Report, r: Resource) {
    && (r.IsAttempt() ==> PendingSum(report.pending, r) <= report.charged.Get(r))
    && (report.stop.Some? || report.charged.Get(r) + report.reserved.Get(r) <= report.limits.resources.Get(r))
  }

  predicate UsageOk(report: Report, r: Resource)
    requires !r.IsAttempt()
  {
    report.usage.Get(r).actual + report.usage.Get(r).estimated <= report.charged.Get(r)
  }

  ghost predicate TotalsOk(k: Checkpoint) {
    var report := k.report;
    && (forall r: Resource :: report.reserved.Get(r) == if r.IsAttempt() then 0 else PendingSum(report.pending, r))
    && (k.nextId == 0 ==> report.charged == ZERO && report.activeTime == 0)
    && (forall r: Resource :: TaskResourceOk(report, r))
    && (report.stop.Some? || report.activeTime <= report.limits.activeTime)
    && (forall r: Resource | !r.IsAttempt() :: UsageOk(report, r))
  }

  ghost predicate RunResourceOk(report: Report, r: Resource)
    requires report.run.Some?
  {
    var run := report.run.value;
    && run.charged.Get(r) <= report.charged.Get(r)
    && (r.IsAttempt() ==> PendingSum(report.pending, r) <= run.charged.Get(r))
    && run.limits.resources.Get(r) <= report.limits.resources.Get(r)
    && (run.stop.Some? || report.stop.Some? || run.charged.Get(r) + run.reserved.Get(r) <= run.limits.resources.Get(r))
  }

  ghost predicate RunOk(report: Report) {
    report.run.Some? ==>
      var run := report.run.value;
      && (run.turnId.Some? ==> !Blank(run.turnId.value))
      && run.reserved == report.reserved && run.activeTime <= report.activeTime && run.cleanupTime <= report.cleanupTime
      && (forall r: Resource :: RunResourceOk(report, r))
      && run.limits.activeTime <= report.limits.activeTime
      && (run.stop.Some? || report.stop.Some? || run.activeTime <= run.limits.activeTime)
  }

  // Everything but the two audits.
  ghost predicate CoreOk(k: Checkpoint) {
    && ClaimOk(k) && k.revision != 0 && IdentityOk(k.report.identity) && AnchorOk(k.anchor, k.report.identity.sessionId)
    && PendingOk(k) && TotalsOk(k) && RunOk(k.report)
  }

  predicate GrantOk(k: Checkpoint, g: GrantRecord) {
    && GrantText(g.request) && ValidIncrease(g.oldLimits, g.request.newLimits, g.oldStop)
    && 0 < g.sourceRevision < k.revision
    && AnchorOk(g.confirmedAnchor, k.report.identity.sessionId) && NotAfter(g.confirmedAnchor, k.anchor)
  }

  // b was granted after a: at the same boundary it continues from the limits a granted.
  predicate GrantFollows(a: GrantRecord, b: GrantRecord) {
    && NotAfter(a.confirmedAnchor, b.confirmedAnchor)
    && (a.confirmedAnchor == b.confirmedAnchor ==> a.request.newLimits == b.oldLimits && b.oldStop.None?)
  }

  predicate DistinctGrants(a: GrantRecord, b: GrantRecord) {
    a.sourceRevision < b.sourceRevision && a.request.operationId != b.request.operationId
  }

  predicate GrantsOk(k: Checkpoint) {
    var grants := k.grants;
    && (grants != [] ==> k.version.V3? || k.version.V4?) && |grants| <= MAX_BUDGET_GRANTS
    && (forall i | 0 <= i < |grants| :: GrantOk(k, grants[i]))
    && (forall i, j | 0 <= i < j < |grants| :: DistinctGrants(grants[i], grants[j]))
    && (forall i | 0 <= i < |grants| - 1 :: GrantFollows(grants[i], grants[i + 1]))
  }

  // The candidate a recovery record retains, as an image of its own.
  function EvidenceImage(r: RecoveryRecord): Checkpoint {
    Checkpoint(V3, if r.request.sourceRevision < U64_MAX then r.request.sourceRevision + 1 else U64_MAX,
               r.candidateNextId, r.confirmedAnchor, r.candidateReport, None, false, None, [], [])
  }

  ghost predicate RecoveryOk(k: Checkpoint, r: RecoveryRecord) {
    && RecoveryText(r.request) && r.request.sourceRevision < k.revision && AuditText(r.ownershipId)
    && r.candidateReport.identity == k.report.identity && r.candidateReport.run.None? && r.candidateReport.pending == []
    && r.candidateNextId <= k.nextId && CoreOk(EvidenceImage(r))
  }

  predicate DistinctRecoveries(a: RecoveryRecord, b: RecoveryRecord) {
    a.request.sourceRevision < b.request.sourceRevision && a.request.operationId != b.request.operationId
  }

  ghost predicate RecoveriesOk(k: Checkpoint) {
    var recoveries := k.recoveries;
    && |recoveries| <= MAX_BUDGET_RECOVERIES && (recoveries != [] ==> k.version.V4?)
    && (forall i | 0 <= i < |recoveries| :: RecoveryOk(k, recoveries[i]))
    && (forall i, j | 0 <= i < j < |recoveries| :: DistinctRecoveries(recoveries[i], recoveries[j]))
  }

  ghost predicate WellFormed(k: Checkpoint) {
    CoreOk(k) && GrantsOk(k) && RecoveriesOk(k)
  }

  // ---------------------------------------------------------------------
  // The checker.
  // ---------------------------------------------------------------------

  /** The structural checks accept exactly the well-formed images. */
  method Validate(k: Checkpoint) returns (ok: bool)
    ensures ok <==> WellFormed(k)
    decreases |k.recoveries|, 1
  {
    hide PendingOk, TotalsOk, RunOk, GrantsOk, RecoveriesOk, AnchorOk, ClaimOk, IdentityOk;
    if !ClaimOk(k) {
      return false;
    }
    var grants := ValidateGrants(k);
    if !grants {
      return false;
    }
    var recoveries := ValidateRecoveries(k);
    if !recoveries {
      return false;
    }
    ok := k.revision != 0 && IdentityOk(k.report.identity) && AnchorOk(k.anchor, k.report.identity.sessionId);
    if ok {
      var tally := ValidatePending(k);
      if tally.None? {
        return false;
      }
      var totals := ValidateTotals(k, tally.value.0, tally.value.1);
      if !totals {
        return false;
      }
      ok := ValidateRun(k.report, tally.value.0, tally.value.1);
    }
  }

  // None also when the sums overflow: no recorded total can equal them.
  method ValidatePending(k: Checkpoint) returns (tally: Option<(Amounts, Amounts)>)
    ensures tally.Some? ==> PendingOk(k) && Tallied(k.report.pending, tally.value.0, tally.value.1)
    ensures tally.None? ==> !PendingOk(k) || !TotalsOk(k)
  {
    hide ValidateRequest;
    var pending := k.report.pending;
    if !RunIdOk(k) {
      return None;
    }
    var ids: set<u64> := if k.runId.Some? then {k.runId.value} else {};
    var attempts, reserved := ZERO, ZERO;
    for i := 0 to |pending|
      invariant forall id :: id in ids <==> Some(id) == k.runId || exists j | 0 <= j < i :: pending[j].id == id
      invariant forall j | 0 <= j < i :: EntryOk(k, j)
      invariant Tallied(pending[..i], attempts, reserved)
    {
      var p := pending[i];
      if p.id == 0 || p.id > k.nextId || p.id in ids || (p.failedUsage.Some? && !p.started)
         || ValidateRequest(p.request, k.report.tokenMode).Some? {
        assert !EntryOk(k, i);
        return None;
      }
      ids := ids + {p.id};
      var sum := AddRequest(attempts, reserved, p.request.amounts);
      if sum.None? {
        OverflowingTally(k, i, attempts, reserved);
        return None;
      }
      TallyNext(pending, i, attempts, reserved, sum.value.0, sum.value.1);
      attempts, reserved := sum.value.0, sum.value.1;
      assert EntryOk(k, i);
    }
    assert pending[..|pending|] == pending;
    return Some((attempts, reserved));
  }

  lemma TallyNext(pending: seq<Pending>, i: nat, attempts: Amounts, reserved: Amounts, attempts': Amounts,
                  reserved': Amounts)
    requires i < |pending| && Tallied(pending[..i], attempts, reserved)
    requires forall r: Resource | r.IsAttempt() ::
      attempts'.Get(r) == attempts.Get(r) + pending[i].request.amounts.Get(r) && reserved'.Get(r) == reserved.Get(r)
    requires forall r: Resource | !r.IsAttempt() ::
      reserved'.Get(r) == reserved.Get(r) + pending[i].request.amounts.Get(r) && attempts'.Get(r) == attempts.Get(r)
    ensures Tallied(pending[..i + 1], attempts', reserved')
  {
    assert pending[..i + 1] == pending[..i] + [pending[i]];
    forall r: Resource ensures PendingSum(pending[..i + 1], r)
        == PendingSum(pending[..i], r) + pending[i].request.amounts.Get(r) {
      PendingSumAppend(pending[..i], pending[i], r);
    }
  }

  lemma OverflowingTally(k: Checkpoint, i: nat, attempts: Amounts, reserved: Amounts)
    requires i < |k.report.pending| && Tallied(k.report.pending[..i], attempts, reserved)
    requires exists r: Resource ::
      (if r.IsAttempt() then attempts else reserved).Get(r) + k.report.pending[i].request.amounts.Get(r) > U64_MAX
    ensures !TotalsOk(k)
  {
    var pending := k.report.pending;
    var r: Resource :|
      (if r.IsAttempt() then attempts else reserved).Get(r) + pending[i].request.amounts.Get(r) > U64_MAX;
    assert pending[..i + 1] == pending[..i] + [pending[i]];
    PendingSumAppend(pending[..i], pending[i], r);
    PendingPrefixBelow(pending, i + 1, r);
    assert TotalsOk(k) ==> TaskResourceOk(k.report, r);
  }

  lemma {:induction false} PendingPrefixBelow(pending: seq<Pending>, i: nat, r: Resource)
    requires i <= |pending|
    ensures PendingSum(pending[..i], r) <= PendingSum(pending, r)
  {
    if i < |pending| {
      PendingPrefixBelow(pending[..|pending| - 1], i, r);
      assert pending[..|pending| - 1][..i] == pending[..i];
    } else {
      assert pending[..i] == pending;
    }
  }

  // The position of a resource in BudgetResource::ALL.
  function Rank(r: Resource): nat {
    match r
    case Steps => 0
    case ModelRequests => 1
    case ToolCalls => 2
    case Corrections => 3
    case InputTokens => 4
    case OutputTokens => 5
    case ToolOutputBytes => 6
  }

  lemma RankOf(i: nat)
    requires i < |ALL|
    ensures Rank(ALL[i]) == i && forall r: Resource | Rank(r) == i :: r == ALL[i]
  {
  }

  method AddRequest(attempts: Amounts, reserved: Amounts, request: Amounts) returns (sum: Option<(Amounts, Amounts)>)
    ensures sum.Some? ==> forall r: Resource | r.IsAttempt() ::
      sum.value.0.Get(r) == attempts.Get(r) + request.Get(r) && sum.value.1.Get(r) == reserved.Get(r)
    ensures sum.Some? ==> forall r: Resource | !r.IsAttempt() ::
      sum.value.1.Get(r) == reserved.Get(r) + request.Get(r) && sum.value.0.Get(r) == attempts.Get(r)
    ensures sum.None? ==> exists r: Resource ::
      (if r.IsAttempt() then attempts else reserved).Get(r) + request.Get(r) > U64_MAX
  {
    var a, b := attempts, reserved;
    for i := 0 to |ALL|
      invariant forall r: Resource ::
          a.Get(r) == attempts.Get(r) + (if r.IsAttempt() && Rank(r) < i then request.Get(r) else 0)
      invariant forall r: Resource ::
          b.Get(r) == reserved.Get(r) + (if !r.IsAttempt() && Rank(r) < i then request.Get(r) else 0)
    {
      hide *;
      var resource := ALL[i];
      RankOf(i);
      if resource.IsAttempt() {
        if a.Get(resource) + request.Get(resource) > U64_MAX {
          return None;
        }
        a := a.Set(resource, a.Get(resource) + request.Get(resource));
      } else {
        if b.Get(resource) + request.Get(resource) > U64_MAX {
          return None;
        }
        b := b.Set(resource, b.Get(resource) + request.Get(resource));
      }
    }
    assert forall r: Resource :: Rank(r) < |ALL|;
    return Some((a, b));
  }

  method ValidateTotals(k: Checkpoint, attempts: Amounts, reserved: Amounts) returns (ok: bool)
    requires Tallied(k.report.pending, attempts, reserved)
    ensures ok <==> TotalsOk(k)
  {
    var report := k.report;
    SameTotals(report, attempts, reserved);
    if reserved != report.reserved || (k.nextId == 0 && (report.charged != ZERO || report.activeTime != 0)) {
      return false;
    }
    for i := 0 to |ALL|
      invariant forall j | 0 <= j < i :: TaskResourceOk(report, ALL[j])
    {
      if attempts.Get(ALL[i]) > report.charged.Get(ALL[i])
         || (!Fits(report.charged.Get(ALL[i]), report.reserved.Get(ALL[i]), 0, report.limits.resources.Get(ALL[i]))
             && report.stop.None?) {
        assert !TaskResourceOk(report, ALL[i]);
        return false;
      }
    }
    forall r: Resource ensures TaskResourceOk(report, r) {
      AllResources(r);
    }
    if report.activeTime > report.limits.activeTime && report.stop.None? {
      return false;
    }
    ok := UsageOk(report, InputTokens) && UsageOk(report, OutputTokens) && UsageOk(report, ToolOutputBytes);
  }

  lemma SameTotals(report: Report, attempts: Amounts, reserved: Amounts)
    requires Tallied(report.pending, attempts, reserved)
    ensures reserved == report.reserved <==>
      forall r: Resource :: report.reserved.Get(r) == if r.IsAttempt() then 0 else PendingSum(report.pending, r)
  {
    if forall r: Resource :: report.reserved.Get(r) == if r.IsAttempt() then 0 else PendingSum(report.pending, r) {
      AmountsEqual(reserved, report.reserved);
    }
  }

  method ValidateRun(report: Report, attempts: Amounts, reserved: Amounts) returns (ok: bool)
    requires Tallied(report.pending, attempts, reserved)
    ensures ok <==> RunOk(report)
  {
    if report.run.None? {
      return true;
    }
    var run := report.run.value;
    if (run.turnId.Some? && Blank(run.turnId.value)) || run.reserved != report.reserved
       || run.activeTime > report.activeTime || run.cleanupTime > report.cleanupTime {
      return false;
    }
    for i := 0 to |ALL|
      invariant forall j | 0 <= j < i :: RunResourceOk(report, ALL[j])
    {
      var r := ALL[i];
      if run.charged.Get(r) > report.charged.Get(r) || attempts.Get(r) > run.charged.Get(r)
         || run.limits.resources.Get(r) > report.limits.resources.Get(r)
         || (!Fits(run.charged.Get(r), run.reserved.Get(r), 0, run.limits.resources.Get(r)) && run.stop.None?
             && report.stop.None?) {
        assert !RunResourceOk(report, r);
        return false;
      }
    }
    forall r: Resource ensures RunResourceOk(report, r) {
      AllResources(r);
    }
    ok := run.limits.activeTime <= report.limits.activeTime
      && (run.activeTime <= run.limits.activeTime || run.stop.Some? || report.stop.Some?);
  }

  // What the first n grants satisfy on their own.
  ghost predicate GrantsUpTo(k: Checkpoint, n: nat)
    requires n <= |k.grants|
  {
    && (forall i | 0 <= i < n :: GrantOk(k, k.grants[i]))
    && (forall i, j | 0 <= i < j < n :: DistinctGrants(k.grants[i], k.grants[j]))
    && (forall i | 0 <= i < n - 1 :: NotAfter(k.grants[i].confirmedAnchor, k.grants[i + 1].confirmedAnchor))
  }

  // The check that admits grant i after the ones before it.
  predicate NextGrantOk(k: Checkpoint, i: nat)
    requires i < |k.grants|
  {
    var g := k.grants[i];
    && GrantOk(k, g) && (forall j | 0 <= j < i :: k.grants[j].request.operationId != g.request.operationId)
    && (i > 0 ==> k.grants[i - 1].sourceRevision < g.sourceRevision && NotAfter(k.grants[i - 1].confirmedAnchor,
        g.confirmedAnchor))
  }

  lemma NextGrant(k: Checkpoint, i: nat)
    requires i < |k.grants| && GrantsUpTo(k, i)
    ensures GrantsUpTo(k, i + 1) <==> NextGrantOk(k, i)
  {
    hide GrantOk, NotAfter;
    if NextGrantOk(k, i) {
      forall j | 0 <= j < i ensures DistinctGrants(k.grants[j], k.grants[i]) {
        assert j < i - 1 ==> DistinctGrants(k.grants[j], k.grants[i - 1]);
      }
    }
    if GrantsUpTo(k, i + 1) {
      assert i > 0 ==> DistinctGrants(k.grants[i - 1],
          k.grants[i]) && NotAfter(k.grants[i - 1].confirmedAnchor, k.grants[i - 1 + 1].confirmedAnchor);
      assert forall j | 0 <= j < i :: DistinctGrants(k.grants[j], k.grants[i]);
    }
  }

  lemma GrantsUpToPrefix(k: Checkpoint, i: nat, n: nat)
    requires i <= n <= |k.grants| && GrantsUpTo(k, n)
    ensures GrantsUpTo(k, i)
  {
    hide GrantOk, NotAfter, DistinctGrants;
  }

  // Every grant is admissible after the ones before it, and continues from the last.
  lemma GrantsSplit(k: Checkpoint)
    ensures GrantsOk(k) <==>
      && (k.grants != [] ==> k.version.V3? || k.version.V4?) && |k.grants| <= MAX_BUDGET_GRANTS
      && GrantsUpTo(k, |k.grants|) && forall i | 0 <= i < |k.grants| - 1 :: GrantFollows(k.grants[i], k.grants[i + 1])
  {
    hide GrantOk, NotAfter, DistinctGrants;
  }

  function OperationIds(grants: seq<GrantRecord>, n: nat): set<string>
    requires n <= |grants|
  {
    set j | 0 <= j < n :: grants[j].request.operationId
  }

  lemma OperationIdsNext(grants: seq<GrantRecord>, i: nat)
    requires i < |grants|
    ensures OperationIds(grants, i + 1) == OperationIds(grants, i) + {grants[i].request.operationId}
  {
  }

  lemma CheckedGrant(k: Checkpoint, i: nat)
    requires i < |k.grants|
    ensures var g := k.grants[i];
      NextGrantOk(k, i) <==>
        && GrantText(g.request) && ValidIncrease(g.oldLimits, g.request.newLimits, g.oldStop)
        && (if i > 0 then k.grants[i - 1].sourceRevision else 0) < g.sourceRevision < k.revision
        && g.request.operationId !in OperationIds(k.grants, i)
        && AnchorOk(g.confirmedAnchor, k.report.identity.sessionId) && NotAfter(g.confirmedAnchor, k.anchor)
        && NotAfter(if i > 0 then k.grants[i - 1].confirmedAnchor else None, g.confirmedAnchor)
  {
    hide GrantText, ValidIncrease, AnchorOk;
  }

  method ValidateGrants(k: Checkpoint) returns (ok: bool)
    ensures ok <==> GrantsOk(k)
  {
    hide GrantOk, DistinctGrants, NotAfter, GrantFollows;
    GrantsSplit(k);
    if (k.grants != [] && !k.version.V3? && !k.version.V4?) || |k.grants| > MAX_BUDGET_GRANTS {
      return false;
    }
    var records := ValidateGrantRecords(k);
    if !records {
      return false;
    }
    ok := ValidateGrantPairs(k.grants);
  }

  lemma NoGrantsYet(k: Checkpoint)
    ensures GrantsUpTo(k, 0) && OperationIds(k.grants, 0) == {}
  {
  }

  // Each grant is sound, new, later than the one before it and not after the image's own boundary.
  method ValidateGrantRecords(k: Checkpoint) returns (ok: bool)
    ensures ok <==> GrantsUpTo(k, |k.grants|)
  {
    hide *;
    NoGrantsYet(k);
    var grants := k.grants;
    var ids: set<string>, previousRevision: u64, previousAnchor: Option<Cursor> := {}, 0, None;
    for i := 0 to |grants|
      invariant ids == OperationIds(grants, i)
      invariant previousRevision == if i > 0 then grants[i - 1].sourceRevision else 0
      invariant previousAnchor == if i > 0 then grants[i - 1].confirmedAnchor else None
      invariant GrantsUpTo(k, i)
    {
      var g := grants[i];
      NextGrant(k, i);
      CheckedGrant(k, i);
      if !GrantText(g.request) || !ValidIncrease(g.oldLimits, g.request.newLimits, g.oldStop)
         || g.sourceRevision <= previousRevision || g.sourceRevision >= k.revision || g.request.operationId in ids
         || !AnchorOk(g.confirmedAnchor, k.report.identity.sessionId) || !NotAfter(g.confirmedAnchor, k.anchor)
         || !NotAfter(previousAnchor, g.confirmedAnchor) {
        if GrantsUpTo(k, |grants|) {
          GrantsUpToPrefix(k, i + 1, |grants|);
        }
        return false;
      }
      OperationIdsNext(grants, i);
      ids := ids + {g.request.operationId};
      previousRevision, previousAnchor := g.sourceRevision, g.confirmedAnchor;
    }
    return true;
  }

  // Neighbouring grants at one boundary form a chain.
  method ValidateGrantPairs(grants: seq<GrantRecord>) returns (ok: bool)
    requires forall i | 0 <= i < |grants| - 1 :: NotAfter(grants[i].confirmedAnchor, grants[i + 1].confirmedAnchor)
    ensures ok <==> forall i | 0 <= i < |grants| - 1 :: GrantFollows(grants[i], grants[i + 1])
  {
    hide NotAfter;
    var i := 0;
    while i + 1 < |grants|
      invariant forall j | 0 <= j < i && j + 1 < |grants| :: GrantFollows(grants[j], grants[j + 1])
    {
      var a, b := grants[i], grants[i + 1];
      if a.confirmedAnchor == b.confirmedAnchor && (a.request.newLimits != b.oldLimits || b.oldStop.Some?) {
        assert !GrantFollows(grants[i], grants[i + 1]);
        return false;
      }
      i := i + 1;
    }
    return true;
  }

  ghost predicate RecoveriesUpTo(k: Checkpoint, n: nat)
    requires n <= |k.recoveries|
  {
    && (forall i | 0 <= i < n :: RecoveryOk(k, k.recoveries[i]))
    && (forall i, j | 0 <= i < j < n :: DistinctRecoveries(k.recoveries[i], k.recoveries[j]))
  }

  function RecoveryIds(recoveries: seq<RecoveryRecord>, n: nat): set<string>
    requires n <= |recoveries|
  {
    set j | 0 <= j < n :: recoveries[j].request.operationId
  }

  lemma RecoveryIdsNext(recoveries: seq<RecoveryRecord>, i: nat)
    requires i < |recoveries|
    ensures RecoveryIds(recoveries, i + 1) == RecoveryIds(recoveries, i) + {recoveries[i].request.operationId}
  {
  }

  // Recovery i is admissible after the ones before it.
  lemma NextRecovery(k: Checkpoint, i: nat)
    requires i < |k.recoveries| && RecoveriesUpTo(k, i)
    ensures var r := k.recoveries[i];
      RecoveriesUpTo(k, i + 1) <==>
        && RecoveryOk(k, r) && r.request.operationId !in RecoveryIds(k.recoveries, i)
        && (if i > 0 then k.recoveries[i - 1].request.sourceRevision else 0) < r.request.sourceRevision
  {
    var r := k.recoveries[i];
    if RecoveriesUpTo(k, i + 1) {
      hide CoreOk;
      assert i > 0 ==> DistinctRecoveries(k.recoveries[i - 1], r);
      assert forall j | 0 <= j < i :: DistinctRecoveries(k.recoveries[j], r);
      assert RecoveryOk(k, r);
    } else {
      hide RecoveryOk;
      if r.request.operationId !in RecoveryIds(k.recoveries, i)
         && (if i > 0 then k.recoveries[i - 1].request.sourceRevision else 0) < r.request.sourceRevision {
        forall j | 0 <= j < i ensures DistinctRecoveries(k.recoveries[j], r) {
          assert j < i - 1 ==> DistinctRecoveries(k.recoveries[j], k.recoveries[i - 1]);
          assert k.recoveries[j].request.operationId in RecoveryIds(k.recoveries, i);
        }
      }
    }
  }

  lemma RecoveriesUpToPrefix(k: Checkpoint, i: nat, n: nat)
    requires i <= n <= |k.recoveries| && RecoveriesUpTo(k, n)
    ensures RecoveriesUpTo(k, i)
  {
    hide RecoveryOk, DistinctRecoveries;
  }

  lemma RecoveriesSplit(k: Checkpoint)
    ensures RecoveriesOk(k) <==>
      |k.recoveries| <= MAX_BUDGET_RECOVERIES && (k.recoveries != [] ==> k.version.V4?)
      && RecoveriesUpTo(k, |k.recoveries|)
    ensures RecoveriesUpTo(k, 0) && RecoveryIds(k.recoveries, 0) == {}
  {
    hide RecoveryOk, DistinctRecoveries;
  }

  // What is checked of a record before the image it retains.
  predicate RecordOk(k: Checkpoint, r: RecoveryRecord) {
    && RecoveryText(r.request) && r.request.sourceRevision < k.revision && AuditText(r.ownershipId)
    && r.candidateReport.identity == k.report.identity && r.candidateReport.run.None? && r.candidateReport.pending == []
    && r.candidateNextId <= k.nextId
  }

  lemma RecoveryOkParts(k: Checkpoint, r: RecoveryRecord)
    ensures RecoveryOk(k, r) <==> RecordOk(k, r) && WellFormed(EvidenceImage(r))
  {
    hide CoreOk, RecoveryText;
  }

  method ValidateRecoveries(k: Checkpoint) returns (ok: bool)
    ensures ok <==> RecoveriesOk(k)
    decreases |k.recoveries|, 0
  {
    hide *;
    RecoveriesSplit(k);
    var recoveries := k.recoveries;
    if |recoveries| > MAX_BUDGET_RECOVERIES || (recoveries != [] && !k.version.V4?) {
      return false;
    }
    var ids: set<string>, revision: u64 := {}, 0;
    for i := 0 to |recoveries|
      invariant ids == RecoveryIds(recoveries, i)
      invariant revision == if i > 0 then recoveries[i - 1].request.sourceRevision else 0
      invariant RecoveriesUpTo(k, i)
    {
      var r := recoveries[i];
      NextRecovery(k, i);
      RecoveryOkParts(k, r);
      var admitted := RecordOk(k, r) && r.request.operationId !in ids && r.request.sourceRevision > revision;
      if admitted {
        NoAudits(r);
        admitted := Validate(EvidenceImage(r));
      }
      if !admitted {
        if RecoveriesUpTo(k, |recoveries|) {
          RecoveriesUpToPrefix(k, i + 1, |recoveries|);
        }
        return false;
      }
      RecoveryIdsNext(recoveries, i);
      ids, revision := ids + {r.request.operationId}, r.request.sourceRevision;
    }
    return true;
  }

  lemma NoAudits(r: RecoveryRecord)
    ensures EvidenceImage(r).recoveries == []
  {
  }

  // ---------------------------------------------------------------------
  // Sealing.
  // ---------------------------------------------------------------------

  function AuditVersion(recoveries: seq<RecoveryRecord>): Version {
    if recoveries == [] then V3 else V4
  }

  function SealImage(c: Config, s: State, anchor: Option<Cursor>): Checkpoint
    requires s.revision < U64_MAX
  {
    Checkpoint(AuditVersion(s.recoveries), s.revision + 1, s.nextId, anchor, Snapshot(c, s),
               if s.run.Some? then Some(s.run.value.id) else None, s.recoveryFrozen, None, s.grants, s.recoveries)
  }

  // s continues the image it was restored from: same audits, identity and revision, no lower id watermark.
  ghost predicate Continues(c: Config, s: State, base: Checkpoint) {
    && WellFormed(base) && s.revision == base.revision && s.grants == base.grants && s.recoveries == base.recoveries
    && c.identity == base.report.identity && c.tokenMode == base.report.tokenMode && base.nextId <= s.nextId
  }

  // s has no restored image behind it.
  ghost predicate Fresh(s: State) {
    s.revision == 0 && s.grants == [] && s.recoveries == []
  }

  predicate TurnNamed(s: State) {
    s.run.Some? && s.run.value.report.turnId.Some? ==> !Blank(s.run.value.report.turnId.value)
  }

  lemma SealCore(c: Config, s: State, anchor: Option<Cursor>)
    requires Valid(c, s) && s.revision < U64_MAX
    ensures CoreOk(SealImage(c, s, anchor)) <==> AnchorOk(anchor, c.identity.sessionId) && TurnNamed(s)
  {
    var k := SealImage(c, s, anchor);
    assert PendingOk(k) by { hide ValidateRequest, Sums, TaskCharges, RunCharges, Evidence, Times;
        SealPending(c, s, anchor); }
    assert TotalsOk(k) by { SealTotals(c, s, anchor); }
    assert RunOk(k.report) <==> TurnNamed(s) by { SealRun(c, s, anchor); }
    hide PendingOk, TotalsOk, RunOk, AnchorOk, Ids, Requests, Sums, TaskCharges, RunCharges, Evidence, Times, Unused;
    assert ClaimOk(k) && k.revision != 0 && IdentityOk(k.report.identity);
  }

  lemma SealPending(c: Config, s: State, anchor: Option<Cursor>)
    requires Ids(s) && Requests(c, s) && s.revision < U64_MAX
    ensures PendingOk(SealImage(c, s, anchor))
  {
    hide ValidateRequest;
  }

  lemma SealTotals(c: Config, s: State, anchor: Option<Cursor>)
    requires Valid(c, s) && s.revision < U64_MAX
    ensures TotalsOk(SealImage(c, s, anchor))
  {
    hide Ids, Requests;
    forall r: Resource | r.IsAttempt() ensures PendingSum(s.pending, r) <= s.charged.Get(r) {
      if s.run.None? {
        NoPending(s);
      } else {
        assert PendingSum(s.pending, r) <= s.run.value.report.charged.Get(r) <= s.charged.Get(r);
      }
    }
  }

  lemma NoPending(s: State)
    requires Ids(s) && s.run.None?
    ensures s.pending == []
  {
  }

  lemma SealRun(c: Config, s: State, anchor: Option<Cursor>)
    requires Valid(c, s) && s.revision < U64_MAX
    ensures RunOk(SealImage(c, s, anchor).report) <==> TurnNamed(s)
  {
    hide Ids, Requests, Evidence;
  }

  // The audits of a later image of the same task: the revision and the anchor only moved on.
  lemma AuditsCarryOver(base: Checkpoint, k: Checkpoint)
    requires GrantsOk(base) && RecoveriesOk(base)
    requires k.grants == base.grants && k.recoveries == base.recoveries && k.version == AuditVersion(base.recoveries)
    requires base.revision <= k.revision && base.nextId <= k.nextId && k.report.identity == base.report.identity
    ensures RecoveriesOk(k)
    ensures GrantsOk(k) <==> forall i | 0 <= i < |base.grants| :: NotAfter(base.grants[i].confirmedAnchor, k.anchor)
    ensures NotAfter(base.anchor, k.anchor) ==> GrantsOk(k)
  {
    forall i | 0 <= i < |base.recoveries| ensures RecoveryOk(k, base.recoveries[i]) {
      hide CoreOk;
      assert RecoveryOk(base, base.recoveries[i]);
    }
    hide RecoveryOk, GrantText, ValidIncrease, AnchorOk, GrantFollows;
  }

  /** Sealing a valid ledger gives a well-formed image exactly when the anchor names an event of this
      session, the run's turn id is not blank and no grant was confirmed after the anchor. */
  lemma SealWellFormedIff(c: Config, s: State, anchor: Option<Cursor>, base: Checkpoint)
    requires Valid(c, s) && s.revision < U64_MAX && Continues(c, s, base)
    ensures WellFormed(SealImage(c, s, anchor)) <==>
      && AnchorOk(anchor, c.identity.sessionId) && TurnNamed(s)
      && (forall i | 0 <= i < |s.grants| :: NotAfter(s.grants[i].confirmedAnchor, anchor))
    ensures AnchorOk(anchor, c.identity.sessionId) && TurnNamed(s) && NotAfter(base.anchor, anchor)
      ==> WellFormed(SealImage(c, s, anchor))
  {
    hide Valid, CoreOk, GrantsOk, RecoveriesOk, NotAfter, AnchorOk;
    SealCore(c, s, anchor);
    AuditsCarryOver(base, SealImage(c, s, anchor));
  }

  lemma FreshSealWellFormedIff(c: Config, s: State, anchor: Option<Cursor>)
    requires Valid(c, s) && Fresh(s)
    ensures WellFormed(SealImage(c, s, anchor)) <==> AnchorOk(anchor, c.identity.sessionId) && TurnNamed(s)
  {
    hide Valid, CoreOk, AnchorOk;
    SealCore(c, s, anchor);
  }

  datatype CheckpointError =
    | Budget(error: Error) | InvalidImage | WrongIdentity | WrongRevision(expected: u64, actual: u64) | WrongAnchor
    | RevisionExhausted

  datatype SealOutcome = SealedAs(image: Checkpoint) | NotSealed(error: CheckpointError)

  // A refused image leaves the ledger unsealed.
  ghost function Seal(c: Config, s: State, anchor: Option<Cursor>, now: Duration): (State, SealOutcome) {
    if s.isSealed then (s, NotSealed(Budget(CheckpointSealed)))
    else
      var t := Tick(c, s, now);
      if t.revision == U64_MAX then (t, NotSealed(RevisionExhausted))
      else if !WellFormed(SealImage(c, t, anchor)) then (t, NotSealed(InvalidImage))
      else (t.(isSealed := true), SealedAs(SealImage(c, t, anchor)))
  }

  // ---------------------------------------------------------------------
  // Restoring.
  // ---------------------------------------------------------------------

  datatype RestoreContext = RestoreContext(identity: Identity, revision: u64, confirmedAnchor: Option<Cursor>,
                                           hostLimits: Limits)

  datatype RestoreOutcome = RestoredAs(config: Config, state: State) | NotRestored(error: CheckpointError)

  function InsertById(pending: seq<Pending>, p: Pending): seq<Pending> {
    if pending == [] || pending[|pending| - 1].id < p.id then pending + [p]
    else InsertById(pending[..|pending| - 1], p) + [pending[|pending| - 1]]
  }

  function ById(pending: seq<Pending>): seq<Pending> {
    if pending == [] then [] else InsertById(ById(pending[..|pending| - 1]), pending[|pending| - 1])
  }

  predicate Frozen(k: Checkpoint) {
    k.recoveryFrozen || k.report.run.Some? || k.report.pending != []
  }

  predicate OverLimit(report: Report, limits: Limits, r: Resource) {
    !Fits(report.charged.Get(r), report.reserved.Get(r), 0, limits.resources.Get(r))
  }

  // The stop of a restored report: already stopped, else at the first resource from i on that is over its limit.
  function OverLimitStop(report: Report, limits: Limits, stop: Option<StopReason>, i: nat): Option<StopReason>
    requires i <= |ALL|
    decreases |ALL| - i
  {
    if i == |ALL| then stop
    else
      OverLimitStop(report, limits,
                    if OverLimit(report, limits, ALL[i]) then FirstStop(stop, ResourceLimit(ALL[i])) else stop, i + 1)
  }

  function RestoredStop(k: Checkpoint, limits: Limits): Option<StopReason> {
    var stop :=
      if Frozen(k) then FirstStop(k.report.stop, RecoveryRequired)
      else if k.report.activeTime >= limits.activeTime then FirstStop(k.report.stop, ActiveTime)
      else k.report.stop;
    OverLimitStop(k.report, limits, stop, 0)
  }

  function RestoredRun(k: Checkpoint, limits: Limits): Option<RunState> {
    if k.report.run.Some? && k.runId.Some?
    then Some(RunState(k.runId.value, k.report.run.value.(open := false,
        limits := TightenedBy(k.report.run.value.limits, limits)), true))
    else None
  }

  function RestoredConfig(k: Checkpoint, hostLimits: Limits): Config {
    Config(k.report.identity, TightenedBy(k.report.limits, hostLimits), k.report.tokenMode)
  }

  function RestoredState(k: Checkpoint, hostLimits: Limits, now: Duration): State {
    var limits := RestoredConfig(k, hostLimits).limits;
    State(false, Frozen(k), k.revision, k.grants, k.recoveries, k.report.charged, k.report.reserved, k.report.usage,
          k.report.activeTime, k.report.cleanupTime, RestoredStop(k, limits),
          RestoredRun(k, limits), ById(k.report.pending),
          k.nextId, now)
  }

  ghost function Restore(k: Checkpoint, context: RestoreContext, now: Duration): RestoreOutcome {
    if !WellFormed(k) then NotRestored(InvalidImage)
    else if k.report.identity != context.identity then NotRestored(WrongIdentity)
    else if k.revision != context.revision then NotRestored(WrongRevision(context.revision, k.revision))
    else if k.anchor != context.confirmedAnchor then NotRestored(WrongAnchor)
    else RestoredAs(RestoredConfig(k, context.hostLimits), RestoredState(k, context.hostLimits, now))
  }

  // ----- sorting keeps what the ledger needs -----

  ghost predicate AscendingIds(pending: seq<Pending>) {
    forall i, j | 0 <= i < j < |pending| :: pending[i].id < pending[j].id
  }

  lemma {:induction false} InsertSum(pending: seq<Pending>, p: Pending, r: Resource)
    ensures PendingSum(InsertById(pending, p), r) == PendingSum(pending, r) + p.request.amounts.Get(r)
  {
    if pending == [] || pending[|pending| - 1].id < p.id {
      PendingSumAppend(pending, p, r);
    } else {
      InsertSum(pending[..|pending| - 1], p, r);
      PendingSumAppend(InsertById(pending[..|pending| - 1], p), pending[|pending| - 1], r);
    }
  }

  lemma {:induction false} SortedSum(pending: seq<Pending>, r: Resource)
    ensures PendingSum(ById(pending), r) == PendingSum(pending, r)
  {
    if pending != [] {
      SortedSum(pending[..|pending| - 1], r);
      InsertSum(ById(pending[..|pending| - 1]), pending[|pending| - 1], r);
    }
  }

  lemma {:induction false} InsertElements(pending: seq<Pending>, p: Pending)
    ensures multiset(InsertById(pending, p)) == multiset(pending) + multiset{p}
  {
    if pending != [] && pending[|pending| - 1].id >= p.id {
      InsertElements(pending[..|pending| - 1], p);
      assert pending == pending[..|pending| - 1] + [pending[|pending| - 1]];
    }
  }

  lemma {:induction false} SortedElements(pending: seq<Pending>)
    ensures multiset(ById(pending)) == multiset(pending)
  {
    if pending != [] {
      SortedElements(pending[..|pending| - 1]);
      InsertElements(ById(pending[..|pending| - 1]), pending[|pending| - 1]);
      assert pending == pending[..|pending| - 1] + [pending[|pending| - 1]];
    }
  }

  lemma {:induction false} InsertFrom(pending: seq<Pending>, p: Pending)
    ensures forall q | q in InsertById(pending, p) :: q == p || q in pending
  {
    if pending != [] && pending[|pending| - 1].id >= p.id {
      InsertFrom(pending[..|pending| - 1], p);
    }
  }

  lemma {:induction false} InsertAscending(pending: seq<Pending>, p: Pending)
    requires AscendingIds(pending) && forall q | q in pending :: q.id != p.id
    ensures AscendingIds(InsertById(pending, p))
  {
    if pending != [] && pending[|pending| - 1].id > p.id {
      var init, last := pending[..|pending| - 1], pending[|pending| - 1];
      InsertAscending(init, p);
      InsertFrom(init, p);
      var inserted := InsertById(init, p);
      forall i | 0 <= i < |inserted| ensures inserted[i].id < last.id {
        assert inserted[i] in inserted;
      }
    }
  }

  lemma {:induction false} SortedAscending(pending: seq<Pending>)
    requires forall i, j | 0 <= i < j < |pending| :: pending[i].id != pending[j].id
    ensures AscendingIds(ById(pending))
  {
    if pending != [] {
      var init := pending[..|pending| - 1];
      SortedAscending(init);
      SortedElements(init);
      forall q | q in ById(init) ensures q.id != pending[|pending| - 1].id {
        assert q in multiset(init);
      }
      InsertAscending(ById(init), pending[|pending| - 1]);
    }
  }

  // An ascending list is already sorted.
  lemma {:induction false} SortedIdentity(pending: seq<Pending>)
    requires AscendingIds(pending)
    ensures ById(pending) == pending
  {
    if pending != [] {
      SortedIdentity(pending[..|pending| - 1]);
      assert pending == pending[..|pending| - 1] + [pending[|pending| - 1]];
    }
  }

  // ----- a restored ledger satisfies the invariant -----

  lemma {:induction false} OverLimitStops(report: Report, limits: Limits, stop: Option<StopReason>, i: nat)
    requires i <= |ALL|
    ensures var s := OverLimitStop(report, limits, stop, i);
      && (stop.Some? ==> s == stop)
      && (s.None? ==> forall j | i <= j < |ALL| :: !OverLimit(report, limits, ALL[j]))
      && (s != stop ==> s.Some? && s.value.ResourceLimit? && OverLimit(report, limits, s.value.resource))
    decreases |ALL| - i
  {
    if i < |ALL| {
      OverLimitStops(report, limits,
                     if OverLimit(report, limits, ALL[i]) then FirstStop(stop, ResourceLimit(ALL[i])) else stop, i + 1);
    }
  }

  lemma RestoredCharges(k: Checkpoint, hostLimits: Limits, now: Duration)
    requires CoreOk(k)
    ensures var c, s := RestoredConfig(k, hostLimits), RestoredState(k, hostLimits, now);
      TaskCharges(c, s) && RunCharges(c, s) && Times(c, s) && Evidence(s) && Unused(s)
  {
    var c, s := RestoredConfig(k, hostLimits), RestoredState(k, hostLimits, now);
    var frozenStop :=
      if Frozen(k) then FirstStop(k.report.stop, RecoveryRequired)
      else if k.report.activeTime >= c.limits.activeTime then FirstStop(k.report.stop, ActiveTime)
      else k.report.stop;
    OverLimitStops(k.report, c.limits, frozenStop, 0);
    hide PendingOk, OverLimitStop, ById;
    forall r: Resource | s.stop.None? ensures s.charged.Get(r) + s.reserved.Get(r) <= c.limits.resources.Get(r) {
      AllResources(r);
    }
    if s.run.Some? {
      TightenedIffWithin(k.report.run.value.limits, c.limits);
      assert s.stop.Some?;
      forall r: Resource ensures s.run.value.report.charged.Get(r) <= s.charged.Get(r) {
        assert RunResourceOk(k.report, r);
      }
    }
    assert forall r: Resource | !r.IsAttempt() :: UsageOk(k.report, r);
  }

  lemma RestoredPending(k: Checkpoint, hostLimits: Limits, now: Duration)
    requires CoreOk(k)
    ensures var c, s := RestoredConfig(k, hostLimits), RestoredState(k, hostLimits, now);
      Ids(s) && Requests(c, s)
  {
    hide ValidateRequest, RestoredStop, TotalsOk, RunOk, ClaimOk;
    var pending := k.report.pending;
    forall i, j | 0 <= i < j < |pending| ensures pending[i].id != pending[j].id {
      assert EntryOk(k, j);
    }
    SortedAscending(pending);
    hide ById, EntryOk;
    var sorted := ById(pending);
    forall i | 0 <= i < |sorted|
      ensures 0 < sorted[i].id <= k.nextId && Some(sorted[i].id) != k.runId
      ensures ValidateRequest(sorted[i].request, k.report.tokenMode).None?
      ensures (sorted[i].failedUsage.Some? ==> sorted[i].started)
    {
      SortedEntry(k, i);
    }
  }

  lemma SortedEntry(k: Checkpoint, i: nat)
    requires PendingOk(k) && i < |ById(k.report.pending)|
    ensures var p := ById(k.report.pending)[i];
      && 0 < p.id <= k.nextId && Some(p.id) != k.runId
      && ValidateRequest(p.request, k.report.tokenMode).None? && (p.failedUsage.Some? ==> p.started)
  {
    hide ValidateRequest, ById;
    SortedElements(k.report.pending);
    var p := ById(k.report.pending)[i];
    assert p in multiset(ById(k.report.pending));
    assert p in k.report.pending;
    var j :| 0 <= j < |k.report.pending| && k.report.pending[j] == p;
    assert EntryOk(k, j);
  }

  lemma RestoredSums(k: Checkpoint, hostLimits: Limits, now: Duration)
    requires CoreOk(k)
    ensures Sums(RestoredState(k, hostLimits, now))
  {
    hide RestoredStop, PendingOk, ClaimOk, ById;
    var s := RestoredState(k, hostLimits, now);
    forall r: Resource
      ensures s.reserved.Get(r) == if r.IsAttempt() then 0 else PendingSum(s.pending, r)
      ensures s.run.Some? && r.IsAttempt() ==> PendingSum(s.pending, r) <= s.run.value.report.charged.Get(r)
    {
      SortedSum(k.report.pending, r);
      assert s.run.Some? ==> RunResourceOk(k.report, r);
    }
  }

  /** Restoring a well-formed image gives a valid ledger that continues it. */
  lemma RestoreValid(k: Checkpoint, hostLimits: Limits, now: Duration)
    requires WellFormed(k)
    ensures var c, s := RestoredConfig(k, hostLimits), RestoredState(k, hostLimits, now);
      && Valid(c, s) && Continues(c, s, k) && WithinLimits(c.limits, k.report.limits)
      && WithinLimits(c.limits, hostLimits)
      && (IsQuiescent(k) <==> !s.recoveryFrozen)
  {
    hide CoreOk, Ids, Requests, Sums, TaskCharges, RunCharges, Times, Evidence, Unused, ById, RestoredStop, GrantsOk,
      RecoveriesOk;
    RestoredPending(k, hostLimits, now);
    RestoredSums(k, hostLimits, now);
    RestoredCharges(k, hostLimits, now);
    TightenedIffWithin(k.report.limits, hostLimits);
    assert IdentityOk(k.report.identity) && (k.executionId.Some? ==> k.recoveryFrozen)
        && (k.runId.Some? <==> k.report.run.Some?) by {
      CoreFlags(k);
    }
  }

  lemma CoreFlags(k: Checkpoint)
    requires CoreOk(k)
    ensures IdentityOk(k.report.identity) && (k.executionId.Some? ==> k.recoveryFrozen)
    ensures (k.runId.Some? <==> k.report.run.Some?)
  {
    hide TotalsOk, RunOk;
  }

  predicate LimitReached(c: Config, s: State, stop: StopReason) {
    || (stop.ActiveTime? && s.activeTime >= c.limits.activeTime)
    || (stop.ResourceLimit? && s.charged.Get(stop.resource) > c.limits.resources.Get(stop.resource))
  }

  /** A quiescent image restores to a writable ledger with its charges, usage, times and id watermark; a stop is
      added only at a limit already reached. */
  lemma QuiescentRestore(k: Checkpoint, hostLimits: Limits, now: Duration)
    requires WellFormed(k) && IsQuiescent(k)
    ensures var c, s := RestoredConfig(k, hostLimits), RestoredState(k, hostLimits, now);
      && CheckWritable(s).None? && s.run.None? && s.pending == []
      && s.charged == k.report.charged && s.reserved == ZERO && s.usage == k.report.usage
      && s.activeTime == k.report.activeTime && s.cleanupTime == k.report.cleanupTime && s.nextId == k.nextId
      && (k.report.stop.Some? ==> s.stop == k.report.stop)
      && (k.report.stop.None? && s.activeTime >= c.limits.activeTime ==> s.stop == Some(ActiveTime))
      && (s.stop != k.report.stop ==> s.stop.Some? && LimitReached(c, s, s.stop.value))
  {
    var c, s := RestoredConfig(k, hostLimits), RestoredState(k, hostLimits, now);
    CoreFlags(k);
    OverLimitStops(k.report, c.limits,
                   if k.report.activeTime >= c.limits.activeTime then FirstStop(k.report.stop, ActiveTime)
                   else k.report.stop, 0);
    hide OverLimitStop, GrantsOk, RecoveriesOk;
    forall r: Resource ensures k.report.reserved.Get(r) == ZERO.Get(r) {
      assert TotalsOk(k);
    }
    AmountsEqual(k.report.reserved, ZERO);
  }

  // ---------------------------------------------------------------------
  // Frozen and sealed ledgers.
  // ---------------------------------------------------------------------

  lemma FrozenStep(c: Config, s: State, op: Op)
    requires CheckWritable(s).Some?
    ensures Step(c, s, op).0 == s && !Step(c, s, op).1.Granted?
  {
    hide Find, Settled, FirstMisfit, Accept, Release, ValidateRequest;
  }

  /** A frozen or sealed ledger never changes again and never grants anything, whatever is asked of it. */
  lemma {:induction false} FrozenForever(c: Config, s: State, ops: seq<Op>)
    requires CheckWritable(s).Some?
    ensures After(c, s, ops) == s
    ensures forall i | 0 <= i < |ops| :: !Step(c, After(c, s, ops[..i]), ops[i]).1.Granted?
    decreases |ops|
  {
    if ops != [] {
      forall i | 0 <= i < |ops| ensures !Step(c, After(c, s, ops[..i]), ops[i]).1.Granted? {
        if i > 0 {
          FrozenForever(c, s, ops[..i]);
        }
        FrozenStep(c, s, ops[i]);
      }
      FrozenStep(c, s, ops[0]);
      FrozenForever(c, s, ops[1..]);
    }
  }

  // ---------------------------------------------------------------------
  // Every reachable ledger seals.
  // ---------------------------------------------------------------------

  lemma ContinuesAfter(c: Config, s: State, ops: seq<Op>, base: Checkpoint)
    requires Continues(c, s, base)
    ensures Continues(c, After(c, s, ops), base)
  {
    hide WellFormed;
    RunGrows(c, s, ops);
  }

  lemma SealTicks(c: Config, s: State, now: Duration)
    requires Valid(c, s)
    ensures Valid(c, Tick(c, s, now)) && (TurnNamed(Tick(c, s, now)) <==> TurnNamed(s))
  {
    TickValid(c, s, now);
    hide Valid;
  }

  /** Whatever was done since an image was restored, the ledger seals to a well-formed image exactly when revisions are
      left, the anchor names an event of the session at or after every granted boundary, and the run's turn is named;
      an anchor at or after the restored one is late enough. The image carries every charge since. */
  lemma ReachableLedgerSeals(k: Checkpoint, hostLimits: Limits, start: Duration, ops: seq<Op>, anchor: Option<Cursor>,
                             now: Duration)
    requires WellFormed(k)
    ensures var c := RestoredConfig(k, hostLimits);
      var s := After(c, RestoredState(k, hostLimits, start), ops);
      var r := Seal(c, s, anchor, now);
      && (r.1.SealedAs? <==>
            && s.revision < U64_MAX && AnchorOk(anchor, c.identity.sessionId) && TurnNamed(s)
            && forall i | 0 <= i < |k.grants| :: NotAfter(k.grants[i].confirmedAnchor, anchor))
      && (s.revision < U64_MAX && AnchorOk(anchor, c.identity.sessionId) && TurnNamed(s) && NotAfter(k.anchor, anchor)
          ==> r.1.SealedAs?)
      && (r.1.SealedAs? ==> WellFormed(r.1.image) && r.1.image.revision == k.revision + 1 && CheckWritable(r.0).Some?)
    ensures var c := RestoredConfig(k, hostLimits);
      var s := RestoredState(k, hostLimits, start);
      var r := Seal(c, After(c, s, ops), anchor, now).1;
      r.SealedAs? ==> forall q: Resource ::
          r.image.report.charged.Get(q) == k.report.charged.Get(q) + TotalCharge(c, s, ops, q)
  {
    var c, s0 := RestoredConfig(k, hostLimits), RestoredState(k, hostLimits, start);
    var s := After(c, s0, ops);
    hide WellFormed, Valid, Tick, RestoredState, RestoredConfig, TotalCharge, NotAfter, AnchorOk, TurnNamed;
    RestoreValid(k, hostLimits, start);
    RestoredFacts(k, hostLimits, start);
    RunValid(c, s0, ops);
    RunGrows(c, s0, ops);
    ContinuesAfter(c, s0, ops, k);
    SealTicks(c, s, now);
    TickKeeps(c, s, now);
    if s.revision < U64_MAX {
      SealWellFormedIff(c, Tick(c, s, now), anchor, k);
    }
    forall q: Resource ensures s.charged.Get(q) == s0.charged.Get(q) + TotalCharge(c, s0, ops, q) {
      ChargesConserved(c, s0, ops, q);
    }
  }

  lemma RestoredFacts(k: Checkpoint, hostLimits: Limits, now: Duration)
    ensures var s := RestoredState(k, hostLimits, now);
      !s.isSealed && s.charged == k.report.charged && s.grants == k.grants && s.revision == k.revision
  {
  }

  /** The same for a ledger that was created rather than restored. */
  lemma NewLedgerSeals(c: Config, start: Duration, ops: seq<Op>, anchor: Option<Cursor>, now: Duration)
    requires IdentityOk(c.identity)
    ensures var s := After(c, FreshLedger(start), ops);
      Seal(c, s, anchor, now).1.SealedAs? <==> AnchorOk(anchor, c.identity.sessionId) && TurnNamed(s)
  {
    var s0 := FreshLedger(start);
    var s := After(c, s0, ops);
    assert Valid(c, s0);
    hide WellFormed, Valid, Tick, AnchorOk, TurnNamed;
    RunValid(c, s0, ops);
    RunGrows(c, s0, ops);
    SealTicks(c, s, now);
    TickKeeps(c, s, now);
    FreshSealWellFormedIff(c, Tick(c, s, now), anchor);
  }

  /** A run may bind a blank turn id, and then its ledger cannot be sealed: the guard above is needed. */
  lemma BlankTurnNeverSeals(c: Config, start: Duration, limits: Limits)
    requires IdentityOk(c.identity)
    ensures var begin := OpBeginRun(Some(" "), limits, start, start);
      var r := Step(c, FreshLedger(start), begin);
      r.1 == Granted(1) && Seal(c, r.0, None, start) == (r.0, NotSealed(InvalidImage))
  {
    var begin := OpBeginRun(Some(" "), limits, start, start);
    var s0 := FreshLedger(start);
    var r := Step(c, s0, begin);
    assert r.1 == Granted(1) && r.0.run.Some? && r.0.run.value.report.turnId == Some(" ") && Tick(c, r.0, start) == r.0;
    assert After(c, s0, [begin]) == r.0 by {
      assert [begin][1..] == [];
    }
    assert Blank(" ");
    NewLedgerSeals(c, start, [begin], None, start);
    hide WellFormed, Step, Tick, After;
  }

  /** Restoring the image of an idle ledger, under limits that do not tighten it, gives back that ledger one revision
      on; only active time already at its limit adds a stop. */
  lemma RestoreUndoesSeal(c: Config, s: State, anchor: Option<Cursor>, hostLimits: Limits, now: Duration)
    requires Valid(c, s) && !s.isSealed && !s.recoveryFrozen && s.run.None? && s.revision < U64_MAX
    requires WellFormed(SealImage(c, s, anchor)) && WithinLimits(c.limits, hostLimits)
    ensures var k := SealImage(c, s, anchor);
      && RestoredConfig(k, hostLimits) == c
      && RestoredState(k, hostLimits, now) == s.(revision := s.revision + 1, lastClock := now,
           stop := if s.activeTime >= c.limits.activeTime then FirstStop(s.stop, ActiveTime) else s.stop)
  {
    var k := SealImage(c, s, anchor);
    NoPending(s);
    TightenedIffWithin(c.limits, hostLimits);
    QuiescentRestore(k, hostLimits, now);
    hide WellFormed, OverLimitStop;
    forall r: Resource | s.stop.None? ensures s.charged.Get(r) <= c.limits.resources.Get(r) {
      assert s.charged.Get(r) + s.reserved.Get(r) <= c.limits.resources.Get(r);
    }
  }

  /** Restoring the image of a ledger with a run under way gives back its accounts, ids and reservations, with the
      run closed and in cleanup; the first stop is kept, or recovery is required. */
  lemma BusyRestore(c: Config, s: State, anchor: Option<Cursor>, hostLimits: Limits, now: Duration)
    requires Valid(c, s) && !s.isSealed && s.run.Some? && s.revision < U64_MAX && WithinLimits(c.limits, hostLimits)
    ensures var k := SealImage(c, s, anchor);
      var run := s.run.value;
      && RestoredConfig(k, hostLimits) == c
      && RestoredState(k, hostLimits, now) == s.(revision := s.revision + 1, recoveryFrozen := true, lastClock := now,
           stop := FirstStop(s.stop, RecoveryRequired),
           run := Some(RunState(run.id, run.report.(open := false, limits := TightenedBy(run.report.limits, c.limits)),
               true)))
  {
    var k := SealImage(c, s, anchor);
    TightenedIffWithin(c.limits, hostLimits);
    assert AscendingIds(s.pending) by { hide Requests, Sums, TaskCharges, RunCharges, Times, Evidence; }
    SortedIdentity(s.pending);
    OverLimitStops(k.report, c.limits, FirstStop(s.stop, RecoveryRequired), 0);
    hide Valid, OverLimitStop, ById;
  }
}
