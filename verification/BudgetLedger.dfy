/** The ledger object of crates/core/budget/src/lib.rs: each method runs under the ledger lock and
    is proved to perform the corresponding step of BudgetSteps. */
module BudgetLedger {
  import opened BudgetTypes
  import opened BudgetSteps
  import opened BudgetInvariant
  import opened BudgetConservation
  import opened BudgetCheckpoint

  class TaskBudget {
    const identity: Identity
    const limits: Limits
    const tokenMode: TokenMode

    var isSealed: bool
    var recoveryFrozen: bool
    var revision: u64
    var grants: seq<GrantRecord>
    var recoveries: seq<RecoveryRecord>
    var charged: Amounts
    var reserved: Amounts
    var usage: UsageReport
    var activeTime: Duration
    var cleanupTime: Duration
    var stop: Option<StopReason>
    var run: Option<RunState>
    var pending: seq<Pending>
    var nextId: u64
    var lastClock: Duration

    function Settings(): Config {
      Config(identity, limits, tokenMode)
    }

    function View(): State
      reads this
    {
      State(isSealed, recoveryFrozen, revision, grants, recoveries, charged, reserved, usage, activeTime, cleanupTime,
            stop, run, pending, nextId, lastClock)
    }

    ghost predicate Ok()
      reads this
    {
      Valid(Settings(), View())
    }

    // A fresh ledger for a checked identity.
    constructor (identity: Identity, hostLimits: Limits, taskLimits: Limits, tokenMode: TokenMode, now: Duration)
      requires IdentityOk(identity)
      ensures Ok() && this.identity == identity && this.tokenMode == tokenMode
      ensures WithinLimits(limits, hostLimits) && WithinLimits(limits, taskLimits)
      ensures View() == FreshLedger(now)
    {
      this.identity, this.limits, this.tokenMode := identity, TightenedBy(hostLimits, taskLimits), tokenMode;
      isSealed, recoveryFrozen, revision, grants, recoveries := false, false, 0, [], [];
      charged, reserved, usage := ZERO, ZERO, NO_USAGE;
      activeTime, cleanupTime, stop, run, pending, nextId, lastClock := 0, 0, None, None, [], 0, now;
      new;
      TightenedIffWithin(hostLimits, taskLimits);
    }

    /** A fresh ledger under the host's limits tightened by the task's; a blank identity is refused. */
    static method Create(identity: Identity, hostLimits: Limits, taskLimits: Limits, tokenMode: TokenMode,
                         now: Duration)
      returns (ledger: TaskBudget?, error: Option<Error>)
      ensures error == (if IdentityOk(identity) then None else Some(InvalidIdentity))
      ensures (ledger == null <==> error.Some?)
      ensures ledger != null ==>
          fresh(ledger) && ledger.Ok() && ledger.identity == identity && ledger.tokenMode == tokenMode
      ensures ledger != null ==> WithinLimits(ledger.limits, hostLimits) && WithinLimits(ledger.limits, taskLimits)
      ensures ledger != null ==> ledger.View() == FreshLedger(now)
    {
      if !IdentityOk(identity) {
        return null, Some(InvalidIdentity);
      }
      ledger := new TaskBudget(identity, hostLimits, taskLimits, tokenMode, now);
      error := None;
    }

    method TickNow(now: Duration)
      requires Ok()
      modifies this
      ensures Ok() && View() == Tick(Settings(), old(View()), now)
    {
      TickValid(Settings(), View(), now);
      hide Valid, Measure;
      if isSealed || recoveryFrozen {
        return;
      }
      if now < lastClock {
        if stop.None? {
          stop := Some(ClockMovedBackwards);
        }
        return;
      }
      var elapsed := now - lastClock;
      lastClock := now;
      var hasPending := pending != [];
      if run.Some? && (run.value.report.open || hasPending) {
        MeasureRun(elapsed);
      }
    }

    // Active time runs up to the nearer limit; reaching it stops the task or the run.
    method SplitElapsed(elapsed: Duration) returns (split: TimeSplit)
      requires run.Some?
      ensures split == SplitTime(Settings(), View(), elapsed)
    {
      var report := run.value.report;
      var halted := stop.Some? || report.stop.Some?;
      var taskRemaining := SaturatingSub(limits.activeTime, activeTime);
      var runRemaining := SaturatingSub(report.limits.activeTime, report.activeTime);
      var remaining := Min(taskRemaining, runRemaining);
      var active: Duration := if halted || run.value.cleaning then 0 else Min(elapsed, remaining);
      split := TimeSplit(active, stop, report.stop);
      if !halted && !run.value.cleaning && elapsed >= remaining {
        if taskRemaining <= runRemaining {
          split := split.(taskStop := Some(ActiveTime));
        } else {
          split := split.(runStop := Some(ActiveTime));
        }
      }
    }

    method MeasureRun(elapsed: Duration)
      requires run.Some?
      modifies this`activeTime, this`cleanupTime, this`stop, this`run
      ensures View() == Measure(Settings(), old(View()), elapsed)
    {
      hide SplitTime;
      var report := run.value.report;
      var split := SplitElapsed(elapsed);
      var cleanup := elapsed - split.active;
      stop := split.taskStop;
      if cleanupTime + cleanup <= DURATION_MAX && report.cleanupTime + cleanup <= DURATION_MAX {
        cleanupTime := cleanupTime + cleanup;
        report := report.(cleanupTime := report.cleanupTime + cleanup);
      } else {
        stop := FirstStop(stop, AccountingOverflow);
      }
      activeTime := activeTime + split.active;
      run := Some(run.value.(report := report.(activeTime := report.activeTime + split.active, stop := split.runStop)));
    }

    method AllocateId() returns (id: Option<u64>)
      modifies this`nextId, this`stop
      ensures old(nextId) == U64_MAX ==>
          id.None? && nextId == old(nextId) && stop == FirstStop(old(stop), AccountingOverflow)
      ensures old(nextId) < U64_MAX ==> id == Some(nextId) && nextId == old(nextId) + 1 && stop == old(stop)
    {
      if nextId == U64_MAX {
        if stop.None? {
          stop := Some(AccountingOverflow);
        }
        return None;
      }
      nextId := nextId + 1;
      id := Some(nextId);
    }

    method Begin(turnId: Option<string>, runLimits: Limits, now: Duration, later: Duration) returns (r: Outcome)
      requires Ok()
      modifies this
      ensures Ok() && (View(), r) == BeginRun(Settings(), old(View()), turnId, runLimits, now, later)
    {
      hide Valid, Tick, NewRun;
      BeginRunValid(Settings(), View(), turnId, runLimits, now, later);
      var refusal := CheckWritable(View());
      if refusal.Some? {
        return Failed(refusal.value);
      }
      TickNow(now);
      if run.Some? {
        return Failed(RunActive);
      }
      var stopped := CheckStop(View());
      if stopped.Some? {
        return Failed(stopped.value);
      }
      ghost var ticked := View();
      var id := AllocateId();
      if id.None? {
        return Failed(OVERFLOW);
      }
      run := Some(NewRun(Settings(), id.value, turnId, runLimits));
      StartRunValid(Settings(), ticked, turnId, runLimits);
      TickNow(later);
      return Granted(id.value);
    }

    method Bind(id: u64, turnId: string, now: Duration) returns (r: Outcome)
      requires Ok()
      modifies this
      ensures Ok() && (View(), r) == BindTurn(Settings(), old(View()), id, turnId, now)
    {
      hide Valid, Tick;
      BindTurnValid(Settings(), View(), id, turnId, now);
      TickNow(now);
      var refusal := CheckRun(View(), id);
      if refusal.Some? {
        return Failed(refusal.value);
      }
      if run.value.report.turnId.Some? {
        return Failed(IdentityMismatched);
      }
      run := Some(run.value.(report := run.value.report.(turnId := Some(turnId))));
      return Done;
    }

    method Prepare(id: u64, now: Duration) returns (r: Outcome)
      requires Ok()
      modifies this
      ensures Ok() && (View(), r) == PrepareReport(Settings(), old(View()), id, now)
    {
      hide Valid, Tick;
      PrepareReportValid(Settings(), View(), id, now);
      TickNow(now);
      var refusal := CheckRun(View(), id);
      if refusal.Some? {
        return Failed(refusal.value);
      }
      if pending != [] {
        return Failed(PendingReservations);
      }
      run := Some(run.value.(report := run.value.report.(open := false)));
      return Reported(Snapshot(Settings(), View()));
    }

    method FinishRun(id: u64, now: Duration) returns (r: Outcome)
      requires Ok()
      modifies this
      ensures Ok() && (View(), r) == Finish(Settings(), old(View()), id, now)
    {
      hide Valid, Tick;
      FinishValid(Settings(), View(), id, now);
      var refusal := CheckWritable(View());
      if refusal.Some? {
        return Failed(refusal.value);
      }
      TickNow(now);
      if run.None? || run.value.id != id {
        return Failed(RunClosed);
      }
      if pending != [] {
        return Failed(PendingReservations);
      }
      run := Some(run.value.(report := run.value.report.(open := false)));
      r := Reported(Snapshot(Settings(), View()));
      run := None;
    }

    // Dropping an unfinished run lease.
    method AbandonRun(id: u64, now: Duration)
      requires Ok()
      modifies this
      ensures Ok() && View() == DropRun(Settings(), old(View()), id, now)
    {
      hide Valid, Tick;
      DropRunValid(Settings(), View(), id, now);
      if isSealed || recoveryFrozen {
        return;
      }
      TickNow(now);
      if run.Some? && run.value.id == id {
        run := Some(run.value.(report := run.value.report.(open := false)));
        stop := FirstStop(stop, RunAbandoned);
      }
    }

    method ExpireRun(id: u64, now: Duration) returns (r: Outcome)
      requires Ok()
      modifies this
      ensures Ok() && (View(), r) == Expire(Settings(), old(View()), id, now)
    {
      hide Valid, Tick;
      ExpireValid(Settings(), View(), id, now);
      TickNow(now);
      var refusal := CheckRun(View(), id);
      if refusal.Some? {
        return Failed(refusal.value);
      }
      if CheckStop(View()).None? {
        UnstoppedWithinTime(Settings(), View());
        // Both subtractions are of durations: unstopped time is within its limits.
        var taskRemaining: Duration := limits.activeTime - activeTime;
        var runRemaining: Duration := run.value.report.limits.activeTime - run.value.report.activeTime;
        if taskRemaining <= runRemaining {
          stop := Some(ActiveTime);
        } else {
          run := Some(run.value.(report := run.value.report.(stop := Some(ActiveTime))));
        }
      }
      return Done;
    }

    method RemainingTime(id: u64, now: Duration) returns (r: Outcome, remaining: Duration)
      requires Ok()
      modifies this
      ensures Ok() && (View(), r) == CheckActive(Settings(), old(View()), id, now)
      ensures r.Done? ==> run.Some? && LeastRemaining(Settings(), View(), remaining)
    {
      hide Valid, Tick;
      TickNow(now);
      remaining := 0;
      var refusal := CheckOpen(View(), id);
      if refusal.Some? {
        return Failed(refusal.value), remaining;
      }
      UnstoppedWithinTime(Settings(), View());
      remaining := Min(limits.activeTime - activeTime,
                       run.value.report.limits.activeTime - run.value.report.activeTime);
      r := Done;
    }

    method Stop(id: u64, reason: StopReason, now: Duration) returns (r: Outcome)
      requires Ok()
      modifies this
      ensures Ok() && (View(), r) == StopWith(Settings(), old(View()), id, reason, now)
    {
      hide Valid, Tick;
      StopWithValid(Settings(), View(), id, reason, now);
      TickNow(now);
      var refusal := CheckRun(View(), id);
      if refusal.Some? {
        return Failed(refusal.value);
      }
      if run.value.report.stop.None? {
        run := Some(run.value.(report := run.value.report.(stop := Some(reason))));
      }
      return Done;
    }

    method Cleanup(id: u64, now: Duration) returns (r: Outcome)
      requires Ok()
      modifies this
      ensures Ok() && (View(), r) == BeginCleanup(Settings(), old(View()), id, now)
    {
      hide Valid, Tick;
      BeginCleanupValid(Settings(), View(), id, now);
      TickNow(now);
      var refusal := CheckRun(View(), id);
      if refusal.Some? {
        return Failed(refusal.value);
      }
      run := Some(run.value.(cleaning := true));
      return Done;
    }

    /** Every resource is checked, task then run, before any counter moves. */
    method ReserveAll(runId: u64, request: Request, now: Duration) returns (r: Outcome)
      requires Ok()
      modifies this
      ensures Ok() && (View(), r) == Reserve(Settings(), old(View()), runId, request, now)
    {
      hide Valid, Tick, ValidateRequest, TaskFits, RunFits, FirstMisfit, AddAttempts, AddVariables;
      ReserveValid(Settings(), View(), runId, request, now);
      TickNow(now);
      var refusal := CheckOpen(View(), runId);
      if refusal.Some? {
        return Failed(refusal.value);
      }
      var fault := ValidateRequest(request, tokenMode);
      if fault.Some? {
        return Failed(fault.value);
      }
      ghost var ticked := View();
      var misfit := FindMisfit(request);
      match misfit {
        case TaskMisfit(resource) =>
          stop := Some(ResourceLimit(resource));
          return Failed(Stopped(ResourceLimit(resource)));
        case RunMisfit(resource) =>
          run := Some(run.value.(report := run.value.report.(stop := Some(ResourceLimit(resource)))));
          return Failed(Stopped(ResourceLimit(resource)));
        case AllFit =>
      }
      AllFitEverywhere(Settings(), ticked, request);
      r := AcceptRequest(request);
    }

    method AcceptRequest(request: Request) returns (r: Outcome)
      requires run.Some?
      requires forall r: Resource :: TaskFits(Settings(), View(), request, r) && RunFits(View(), request, r)
      modifies this`nextId, this`stop, this`charged, this`reserved, this`run, this`pending
      ensures old(nextId) == U64_MAX ==>
          (View(), r) == (old(View()).(stop := FirstStop(old(stop), AccountingOverflow)), Failed(OVERFLOW))
      ensures old(nextId) < U64_MAX ==>
          (View(), r) == (Accept(old(View()), request, old(nextId) + 1), Granted(old(nextId) + 1))
    {
      hide TaskFits, RunFits, AddAttempts, AddVariables;
      ghost var before := View();
      var id := AllocateId();
      if id.None? {
        return Failed(OVERFLOW);
      }
      Charge(request, before, id.value);
      pending := pending + [Pending(id.value, request, false, false, None)];
      return Granted(id.value);
    }

    // The first resource that cannot take the request.
    method FindMisfit(request: Request) returns (m: Misfit)
      requires run.Some?
      ensures m == FirstMisfit(Settings(), View(), request, 0)
    {
      var i := 0;
      while i < |ALL|
        invariant 0 <= i <= |ALL|
        invariant FirstMisfit(Settings(), View(), request, 0) == FirstMisfit(Settings(), View(), request, i)
      {
        var resource := ALL[i];
        var amount := request.amounts.Get(resource);
        var report := run.value.report;
        if !Fits(charged.Get(resource), reserved.Get(resource), amount, limits.resources.Get(resource)) {
          return TaskMisfit(resource);
        }
        if !Fits(report.charged.Get(resource), report.reserved.Get(resource), amount,
            report.limits.resources.Get(resource)) {
          return RunMisfit(resource);
        }
        i := i + 1;
      }
      return AllFit;
    }

    method Charge(request: Request, ghost ticked: State, ghost id: u64)
      requires run.Some? && ticked.run.Some?
      requires forall r: Resource :: TaskFits(Settings(), ticked, request, r) && RunFits(ticked, request, r)
      requires charged == ticked.charged && reserved == ticked.reserved && run == ticked.run
      modifies this`charged, this`reserved, this`run
      ensures charged == AddAttempts(ticked.charged, request.amounts)
      ensures reserved == AddVariables(ticked.reserved, request.amounts)
      ensures run == Accept(ticked, request, id).run
    {
      hide ChargedUpTo, TaskFits, RunFits;
      NothingCharged(ticked, request, id);
      var j := 0;
      while j < |ALL|
        invariant 0 <= j <= |ALL| && run.Some?
        invariant ChargedUpTo(ticked, request, id, charged, reserved, run.value, j)
      {
        var resource := ALL[j];
        var amount := request.amounts.Get(resource);
        ChargeStep(Settings(), ticked, request, id, charged, reserved, run.value, j);
        var report := run.value.report;
        if resource.IsAttempt() {
          charged := charged.Set(resource, charged.Get(resource) + amount);
          run := Some(run.value.(report := report.(charged :=
              report.charged.Set(resource, report.charged.Get(resource) + amount))));
        } else {
          reserved := reserved.Set(resource, reserved.Get(resource) + amount);
          run := Some(run.value.(report := report.(reserved :=
              report.reserved.Set(resource, report.reserved.Get(resource) + amount))));
        }
        j := j + 1;
      }
      AllCharged(ticked, request, id, charged, reserved, run.value);
    }

    method Start(runId: u64, id: u64, now: Duration) returns (r: Outcome)
      requires Ok()
      modifies this
      ensures Ok() && (View(), r) == MarkStarted(Settings(), old(View()), runId, id, now)
    {
      hide Valid, Tick;
      MarkStartedValid(Settings(), View(), runId, id, now);
      TickNow(now);
      var refusal := CheckOpen(View(), runId);
      if refusal.Some? {
        return Failed(refusal.value);
      }
      var i := Find(pending, id);
      if i.None? {
        return Failed(ReservationMissing);
      }
      if pending[i.value].started {
        return Failed(AlreadyStarted);
      }
      pending := pending[i.value := pending[i.value].(started := true)];
      return Done;
    }

    // Dropping an unresolved reservation handle.
    method AbandonReservation(id: u64, now: Duration)
      requires Ok()
      modifies this
      ensures Ok() && View() == DropReservation(Settings(), old(View()), id, now)
    {
      hide Valid, Tick;
      DropReservationValid(Settings(), View(), id, now);
      if isSealed || recoveryFrozen {
        return;
      }
      TickNow(now);
      var i := Find(pending, id);
      if i.Some? {
        pending := pending[i.value := pending[i.value].(abandoned := true)];
        stop := FirstStop(stop, AbandonedReservation);
      }
    }

    // Gives back the variable part of a reservation; no subtraction underflows.
    method ReleaseReservation(i: nat)
      requires run.Some? && i < |pending| && Sums(View())
      modifies this`reserved, this`run, this`pending
      ensures run.Some? && View() == Release(old(View()), i)
    {
      hide PartlyMoved, SubVariables, Sums;
      ghost var before := View();
      var amounts := pending[i].request.amounts;
      ghost var goal := SubVariables(before.reserved, amounts);
      ghost var runGoal := SubVariables(before.run.value.report.reserved, amounts);
      NothingMoved(before.reserved, goal);
      NothingMoved(before.run.value.report.reserved, runGoal);
      var j := 0;
      while j < |ALL|
        invariant 0 <= j <= |ALL| && run.Some? && pending == before.pending
        invariant run.value == before.run.value.(report :=
            before.run.value.report.(reserved := run.value.report.reserved))
        invariant PartlyMoved(before.reserved, goal, reserved, j)
        invariant PartlyMoved(before.run.value.report.reserved, runGoal, run.value.report.reserved, j)
      {
        var resource := ALL[j];
        var amount := amounts.Get(resource);
        SubtractionExact(before, i, resource);
        MoveNext(before.reserved, goal, reserved, j);
        MoveNext(before.run.value.report.reserved, runGoal, run.value.report.reserved, j);
        if !resource.IsAttempt() {
          var report := run.value.report;
          reserved := reserved.Set(resource, reserved.Get(resource) - amount);
          run := Some(run.value.(report := report.(reserved :=
              report.reserved.Set(resource, report.reserved.Get(resource) - amount))));
        }
        j := j + 1;
      }
      AllMoved(before.reserved, goal, reserved);
      AllMoved(before.run.value.report.reserved, runGoal, run.value.report.reserved);
      pending := Without(pending, i);
    }

    method CancelUnstarted(id: u64, now: Duration) returns (r: Outcome)
      requires Ok()
      modifies this
      ensures Ok() && (View(), r) == TryCancel(Settings(), old(View()), id, now)
    {
      hide Valid, Tick, Release;
      TryCancelValid(Settings(), View(), id, now);
      var refusal := CheckWritable(View());
      if refusal.Some? {
        return Failed(refusal.value);
      }
      TickNow(now);
      var i := Find(pending, id);
      if i.None? {
        return Failed(ReservationMissing);
      }
      if pending[i.value].started {
        return Failed(AlreadyStarted);
      }
      if run.None? {
        return Failed(RunClosed);
      }
      ValidSums(Settings(), View());
      ReleaseReservation(i.value);
      return Done;
    }

    /** Cancelling consumes the handle: a refusal abandons the reservation. */
    method Cancel(id: u64, now: Duration, later: Duration) returns (r: Outcome)
      requires Ok()
      modifies this
      ensures Ok() && (View(), r) == CancelBeforeStart(Settings(), old(View()), id, now, later)
    {
      hide Valid, TryCancel, DropReservation;
      r := CancelUnstarted(id, now);
      if !r.Done? {
        AbandonReservation(id, later);
      }
    }

    // Charges one resource; None when some addition would overflow.
    static method SettleOne(a: Settlement, resource: Resource, request: Request,
                            used: Usage) returns (b: Option<Settlement>)
      requires !resource.IsAttempt()
      ensures b == SettleResource(a, resource, request, used)
    {
      var reserved := request.amounts.Get(resource);
      var totals := a.evidence.Get(resource);
      var debit := reserved;
      match used.Get(resource) {
        case Actual(n) =>
          if totals.actual + n > U64_MAX { return None; }
          totals := totals.(actual := totals.actual + n);
          debit := n;
        case Estimated(n) =>
          if totals.estimated + n > U64_MAX { return None; }
          totals := totals.(estimated := totals.estimated + n);
          debit := Max(n, reserved);
        case Unknown =>
          if Applicable(request, resource) || reserved > 0 {
            if totals.unknown + 1 > U64_MAX { return None; }
            totals := totals.(unknown := totals.unknown + 1);
          }
      }
      var breach := a.breach;
      if debit > reserved && breach.None? {
        breach := Some(resource);
      }
      if a.charged.Get(resource) + debit > U64_MAX { return None; }
      var charged := a.charged.Set(resource, a.charged.Get(resource) + debit);
      if a.runCharged.Get(resource) + debit > U64_MAX { return None; }
      var runCharged := a.runCharged.Set(resource, a.runCharged.Get(resource) + debit);
      return Some(Settlement(charged, runCharged, a.evidence.Set(resource, totals), breach));
    }

    // The new totals, or None when some addition would overflow.
    method ComputeSettlement(request: Request, used: Usage) returns (settled: Option<Settlement>)
      requires run.Some?
      ensures settled == Settled(View(), request, used)
    {
      hide SettleResource;
      var a := Settlement(charged, run.value.report.charged, usage, None);
      var i := 0;
      while i < |VARIABLES|
        invariant 0 <= i <= |VARIABLES|
        invariant Settled(View(), request, used) == SettleFrom(a, i, request, used)
      {
        AllResources(VARIABLES[i]);
        var b := SettleOne(a, VARIABLES[i], request, used);
        if b.None? {
          return None;
        }
        a := b.value;
        i := i + 1;
      }
      return Some(a);
    }

    // Releases the reservation and publishes the new totals; a breach stops the task.
    method ApplySettled(i: nat, a: Settlement)
      requires run.Some? && i < |pending| && Sums(View())
      modifies this`reserved, this`run, this`pending, this`charged, this`usage, this`stop
      ensures View() == ApplySettlement(old(View()), i, a)
    {
      hide Release, Sums;
      ReleaseReservation(i);
      charged := a.charged;
      run := Some(run.value.(report := run.value.report.(charged := a.runCharged)));
      usage := a.evidence;
      if a.breach.Some? {
        stop := FirstStop(stop, UsageExceededReservation(a.breach.value));
      }
    }

    method SettleStarted(id: u64, used: Usage, now: Duration) returns (r: Outcome, resolved: bool)
      requires Ok()
      modifies this
      ensures Ok() && (View(), r, resolved) == TrySettle(Settings(), old(View()), id, used, now)
    {
      hide Valid, Tick, ApplySettlement, Settled;
      TrySettleValid(Settings(), View(), id, used, now);
      var refusal := CheckWritable(View());
      if refusal.Some? {
        return Failed(refusal.value), false;
      }
      TickNow(now);
      var i := Find(pending, id);
      if i.None? {
        return Failed(ReservationMissing), false;
      }
      if !pending[i.value].started {
        return Failed(NotStarted), false;
      }
      var a: Option<Settlement> := None;
      if run.Some? {
        a := ComputeSettlement(pending[i.value].request, used);
      }
      if a.None? {
        stop := FirstStop(stop, AccountingOverflow);
        pending := pending[i.value := pending[i.value].(failedUsage := Some(used))];
        return Failed(if run.Some? then OVERFLOW else RunClosed), false;
      }
      ValidSums(Settings(), View());
      ApplySettled(i.value, a.value);
      if a.value.breach.Some? {
        return Failed(Stopped(UsageExceededReservation(a.value.breach.value))), true;
      }
      return Done, true;
    }

    /** Settling consumes the handle: an unresolved reservation is abandoned. */
    method SettleUsage(id: u64, used: Usage, now: Duration, later: Duration) returns (r: Outcome)
      requires Ok()
      modifies this
      ensures Ok() && (View(), r) == Settle(Settings(), old(View()), id, used, now, later)
    {
      hide Valid, TrySettle, DropReservation;
      var resolved;
      r, resolved := SettleStarted(id, used, now);
      if !resolved {
        AbandonReservation(id, later);
      }
    }

    method Record(id: u64, kind: EventKind, confirmed: bool)
      requires Ok()
      modifies this
      ensures Ok() && View() == RecordEvidence(old(View()), id, kind, confirmed)
    {
      hide Valid;
      RecordEvidenceValid(Settings(), View(), id, kind, confirmed);
      if !isSealed && !recoveryFrozen && run.Some? && run.value.id == id {
        var m := run.value.report.metrics;
        m := if confirmed then m.(confirmed := CountEvent(m.confirmed, kind))
             else m.(unconfirmed := CountEvent(m.unconfirmed, kind));
        run := Some(run.value.(report := run.value.report.(metrics := m)));
      }
    }

    method Observe(now: Duration) returns (r: Outcome)
      requires Ok()
      modifies this
      ensures Ok() && (View(), r) == ObserveReport(Settings(), old(View()), now)
    {
      hide Valid, Tick;
      if isSealed {
        return Failed(CheckpointSealed);
      }
      TickNow(now);
      return Reported(Snapshot(Settings(), View()));
    }

    /** Transfers the ledger into an image; a refused image leaves it unsealed. */
    method SealCheckpoint(anchor: Option<Cursor>, now: Duration) returns (r: SealOutcome)
      requires Ok()
      modifies this
      ensures Ok() && (View(), r) == Seal(Settings(), old(View()), anchor, now)
    {
      hide Valid, WellFormed, Snapshot, AuditVersion;
      if isSealed {
        return NotSealed(Budget(CheckpointSealed));
      }
      TickKeeps(Settings(), View(), now);
      TickNow(now);
      if revision == U64_MAX {
        return NotSealed(CheckpointError.RevisionExhausted);
      }
      var image := Checkpoint(AuditVersion(recoveries), revision + 1, nextId, anchor, Snapshot(Settings(), View()),
                              if run.Some? then Some(run.value.id) else None, recoveryFrozen, None, grants, recoveries);
      var ok := Validate(image);
      if !ok {
        return NotSealed(InvalidImage);
      }
      FlagsValid(Settings(), View(), View().(isSealed := true));
      isSealed := true;
      return SealedAs(image);
    }

    // A ledger over the state a checked image restores to.
    constructor FromImage(k: Checkpoint, hostLimits: Limits, now: Duration)
      requires WellFormed(k)
      ensures Ok() && Settings() == RestoredConfig(k, hostLimits) && View() == RestoredState(k, hostLimits, now)
    {
      RestoreValid(k, hostLimits, now);
      hide Valid, WellFormed;
      var bound := TightenedBy(k.report.limits, hostLimits);
      identity, limits, tokenMode := k.report.identity, bound, k.report.tokenMode;
      isSealed, recoveryFrozen, revision, grants, recoveries := false, Frozen(k), k.revision, k.grants, k.recoveries;
      charged, reserved, usage := k.report.charged, k.report.reserved, k.report.usage;
      activeTime, cleanupTime, nextId, lastClock := k.report.activeTime, k.report.cleanupTime, k.nextId, now;
      run := RestoredRun(k, bound);
      var reason := FindRestoredStop(k, bound);
      stop := reason;
      var sorted := SortPending(k.report.pending);
      pending := sorted;
    }

    static method FindRestoredStop(k: Checkpoint, bound: Limits) returns (reason: Option<StopReason>)
      ensures reason == RestoredStop(k, bound)
    {
      reason := k.report.stop;
      if Frozen(k) {
        reason := FirstStop(reason, RecoveryRequired);
      } else if k.report.activeTime >= bound.activeTime {
        reason := FirstStop(reason, ActiveTime);
      }
      ghost var first := reason;
      for i := 0 to |ALL|
        invariant OverLimitStop(k.report, bound, first, 0) == OverLimitStop(k.report, bound, reason, i)
      {
        if !Fits(k.report.charged.Get(ALL[i]), k.report.reserved.Get(ALL[i]), 0, bound.resources.Get(ALL[i])) {
          reason := FirstStop(reason, ResourceLimit(ALL[i]));
        }
      }
    }

    static method SortPending(unsorted: seq<Pending>) returns (sorted: seq<Pending>)
      ensures sorted == ById(unsorted)
    {
      sorted := [];
      for i := 0 to |unsorted|
        invariant sorted == ById(unsorted[..i])
      {
        assert unsorted[..i + 1][..i] == unsorted[..i];
        sorted := InsertById(sorted, unsorted[i]);
      }
      assert unsorted[..|unsorted|] == unsorted;
    }

    static method RestoreCheckpoint(k: Checkpoint, context: RestoreContext, now: Duration)
      returns (ledger: TaskBudget?, error: Option<CheckpointError>)
      ensures error.Some? <==> ledger == null
      ensures error.Some? ==> Restore(k, context, now) == NotRestored(error.value)
      ensures ledger != null ==>
          fresh(ledger) && ledger.Ok() && Restore(k, context, now) == RestoredAs(ledger.Settings(), ledger.View())
    {
      hide Valid, WellFormed, RestoredConfig, RestoredState;
      var ok := Validate(k);
      if !ok {
        return null, Some(InvalidImage);
      }
      if k.report.identity != context.identity {
        return null, Some(WrongIdentity);
      }
      if k.revision != context.revision {
        return null, Some(WrongRevision(context.revision, k.revision));
      }
      if k.anchor != context.confirmedAnchor {
        return null, Some(WrongAnchor);
      }
      ledger := new TaskBudget.FromImage(k, context.hostLimits, now);
      error := None;
    }
  }

  // After j resources, the totals are those of the accepted state on the first j and unchanged elsewhere.
  ghost predicate ChargedUpTo(s: State, request: Request, id: u64, charged: Amounts, reserved: Amounts, run: RunState,
                              j: nat)
    requires s.run.Some? && j <= |ALL|
  {
    var goal := Accept(s, request, id);
    && run == s.run.value.(report := s.run.value.report.(charged := run.report.charged,
        reserved := run.report.reserved))
    && PartlyMoved(s.charged, goal.charged, charged, j)
    && PartlyMoved(s.reserved, goal.reserved, reserved, j)
    && PartlyMoved(s.run.value.report.charged, goal.run.value.report.charged, run.report.charged, j)
    && PartlyMoved(s.run.value.report.reserved, goal.run.value.report.reserved, run.report.reserved, j)
  }

  lemma NothingCharged(s: State, request: Request, id: u64)
    requires s.run.Some?
    ensures ChargedUpTo(s, request, id, s.charged, s.reserved, s.run.value, 0)
  {
  }

  // No addition overflows: the request was found to fit.
  lemma ChargeStep(c: Config, s: State, request: Request, id: u64, charged: Amounts, reserved: Amounts, run: RunState,
                   j: nat)
    requires s.run.Some? && j < |ALL| && ChargedUpTo(s, request, id, charged, reserved, run, j)
    requires TaskFits(c, s, request, ALL[j]) && RunFits(s, request, ALL[j])
    ensures charged.Get(ALL[j]) + request.amounts.Get(ALL[j]) <= U64_MAX
    ensures reserved.Get(ALL[j]) + request.amounts.Get(ALL[j]) <= U64_MAX
    ensures run.report.charged.Get(ALL[j]) + request.amounts.Get(ALL[j]) <= U64_MAX
    ensures run.report.reserved.Get(ALL[j]) + request.amounts.Get(ALL[j]) <= U64_MAX
    ensures ALL[j].IsAttempt() ==>
      ChargedUpTo(s, request, id, charged.Set(ALL[j], charged.Get(ALL[j]) + request.amounts.Get(ALL[j])), reserved,
        run.(report := run.report.(charged :=
            run.report.charged.Set(ALL[j], run.report.charged.Get(ALL[j]) + request.amounts.Get(ALL[j])))), j + 1)
    ensures !ALL[j].IsAttempt() ==>
      ChargedUpTo(s, request, id, charged, reserved.Set(ALL[j], reserved.Get(ALL[j]) + request.amounts.Get(ALL[j])),
        run.(report := run.report.(reserved :=
            run.report.reserved.Set(ALL[j], run.report.reserved.Get(ALL[j]) + request.amounts.Get(ALL[j])))), j + 1)
  {
    hide PartlyMoved;
    var goal := Accept(s, request, id);
    AcceptAmounts(c, s, request, id, ALL[j]);
    MoveNext(s.charged, goal.charged, charged, j);
    MoveNext(s.reserved, goal.reserved, reserved, j);
    MoveNext(s.run.value.report.charged, goal.run.value.report.charged, run.report.charged, j);
    MoveNext(s.run.value.report.reserved, goal.run.value.report.reserved, run.report.reserved, j);
  }

  lemma AllCharged(s: State, request: Request, id: u64, charged: Amounts, reserved: Amounts, run: RunState)
    requires s.run.Some? && ChargedUpTo(s, request, id, charged, reserved, run, |ALL|)
    ensures charged == AddAttempts(s.charged, request.amounts) && reserved == AddVariables(s.reserved, request.amounts)
    ensures Some(run) == Accept(s, request, id).run
  {
    hide PartlyMoved;
    var goal := Accept(s, request, id);
    AllMoved(s.charged, goal.charged, charged);
    AllMoved(s.reserved, goal.reserved, reserved);
    AllMoved(s.run.value.report.charged, goal.run.value.report.charged, run.report.charged);
    AllMoved(s.run.value.report.reserved, goal.run.value.report.reserved, run.report.reserved);
  }

  lemma ValidSums(c: Config, s: State)
    requires Valid(c, s)
    ensures Sums(s)
  {
  }

  // What a pending reservation holds is part of both reserved totals.
  lemma SubtractionExact(s: State, i: nat, r: Resource)
    requires s.run.Some? && i < |s.pending| && Sums(s)
    ensures s.run.value.report.reserved == s.reserved
    ensures var n := s.pending[i].request.amounts.Get(r);
      if r.IsAttempt() then SubVariables(s.reserved, s.pending[i].request.amounts).Get(r) == s.reserved.Get(r)
      else n <= s.reserved.Get(r) && SubVariables(s.reserved,
          s.pending[i].request.amounts).Get(r) == s.reserved.Get(r) - n
  {
    ReleaseAmounts(s, i, r);
    PendingMemberBelowSum(s.pending, i, r);
  }

  // Unstopped time is within both limits.
  lemma UnstoppedWithinTime(c: Config, s: State)
    requires Valid(c, s) && CheckStop(s).None?
    ensures s.activeTime <= c.limits.activeTime
    ensures s.run.Some? ==> s.run.value.report.activeTime <= s.run.value.report.limits.activeTime
  {
  }

  // The greatest duration that fits both limits.
  ghost predicate LeastRemaining(c: Config, s: State, remaining: Duration)
    requires s.run.Some?
  {
    var report := s.run.value.report;
    && s.activeTime + remaining <= c.limits.activeTime && report.activeTime + remaining <= report.limits.activeTime
    && (s.activeTime + remaining == c.limits.activeTime || report.activeTime + remaining == report.limits.activeTime)
  }

  // ----- loops over the resources -----

  // The first j resources already hold their value of `after`, the others that of `before`.
  ghost predicate PartlyMoved(before: Amounts, after: Amounts, now: Amounts, j: nat)
    requires j <= |ALL|
  {
    forall r: Resource :: now.Get(r) == if r in ALL[..j] then after.Get(r) else before.Get(r)
  }

  lemma NothingMoved(before: Amounts, after: Amounts)
    ensures PartlyMoved(before, after, before, 0)
  {
  }

  lemma MoveNext(before: Amounts, after: Amounts, now: Amounts, j: nat)
    requires j < |ALL| && PartlyMoved(before, after, now, j)
    ensures now.Get(ALL[j]) == before.Get(ALL[j])
    ensures PartlyMoved(before, after, now.Set(ALL[j], after.Get(ALL[j])), j + 1)
    ensures before.Get(ALL[j]) == after.Get(ALL[j]) ==> PartlyMoved(before, after, now, j + 1)
  {
    EachOnce(j);
    assert ALL[..j + 1] == ALL[..j] + [ALL[j]];
  }

  lemma AllMoved(before: Amounts, after: Amounts, now: Amounts)
    requires PartlyMoved(before, after, now, |ALL|)
    ensures now == after
  {
    forall r: Resource ensures now.Get(r) == after.Get(r) {
      AllResources(r);
      assert ALL[..|ALL|] == ALL;
    }
    AmountsEqual(now, after);
  }

  lemma EachOnce(j: nat)
    requires j < |ALL|
    ensures ALL[j] !in ALL[..j]
  {
    assert ALL[0] == Steps && ALL[1] == ModelRequests && ALL[2] == ToolCalls && ALL[3] == Corrections;
    assert ALL[4] == InputTokens && ALL[5] == OutputTokens && ALL[6] == ToolOutputBytes;
  }
}
