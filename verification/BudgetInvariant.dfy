/** What every reachable ledger satisfies, and what a run of the ledger conserves. */
module BudgetInvariant {
  import opened BudgetTypes
  import opened BudgetSteps

  // ---------------------------------------------------------------------
  // The invariant.
  // ---------------------------------------------------------------------

  predicate IdentityOk(identity: Identity) {
    !Blank(identity.taskId) && !Blank(identity.sessionId) && !Blank(identity.agentKey)
  }

  // Reservations belong to a run; all ids are distinct and at most the watermark.
  ghost predicate Ids(s: State) {
    && (s.run.None? ==> s.pending == [])
    && (s.run.Some? ==> 0 < s.run.value.id <= s.nextId)
    && (forall i | 0 <= i < |s.pending| :: 0 < s.pending[i].id <= s.nextId && s.pending[i].id != s.run.value.id)
    && (forall i, j | 0 <= i < j < |s.pending| :: s.pending[i].id < s.pending[j].id)
  }

  ghost predicate Requests(c: Config, s: State) {
    forall i | 0 <= i < |s.pending| ::
      ValidateRequest(s.pending[i].request, c.tokenMode).None?
      && (s.pending[i].failedUsage.Some? ==> s.pending[i].started)
  }

  // Reserved is exactly what the pending reservations hold; their attempts are already charged.
  ghost predicate Sums(s: State) {
    && (forall r: Resource :: s.reserved.Get(r) == if r.IsAttempt() then 0 else PendingSum(s.pending, r))
    && (s.run.Some? ==> s.run.value.report.reserved == s.reserved)
    && (s.run.Some? ==> forall r: Resource | r.IsAttempt() ::
        PendingSum(s.pending, r) <= s.run.value.report.charged.Get(r))
  }

  ghost predicate TaskCharges(c: Config, s: State) {
    s.stop.Some? || forall r: Resource :: s.charged.Get(r) + s.reserved.Get(r) <= c.limits.resources.Get(r)
  }

  ghost predicate RunCharges(c: Config, s: State) {
    s.run.Some? ==>
      var run := s.run.value.report;
      && WithinLimits(run.limits, c.limits)
      && (forall r: Resource :: run.charged.Get(r) <= s.charged.Get(r))
      && (AnyStop(s).Some? || forall r: Resource ::
          run.charged.Get(r) + run.reserved.Get(r) <= run.limits.resources.Get(r))
  }

  ghost predicate Evidence(s: State) {
    forall r: Resource | !r.IsAttempt() :: s.usage.Get(r).actual + s.usage.Get(r).estimated <= s.charged.Get(r)
  }

  ghost predicate Times(c: Config, s: State) {
    && (s.stop.Some? || s.activeTime <= c.limits.activeTime)
    && (s.run.Some? ==>
          var run := s.run.value.report;
          && run.activeTime <= s.activeTime && run.cleanupTime <= s.cleanupTime
          && (AnyStop(s).Some? || run.activeTime <= run.limits.activeTime))
  }

  ghost predicate Unused(s: State) {
    s.nextId == 0 ==> s.charged == ZERO && s.activeTime == 0
  }

  ghost predicate Valid(c: Config, s: State) {
    && IdentityOk(c.identity)
    && Ids(s) && Requests(c, s) && Sums(s) && TaskCharges(c, s) && RunCharges(c, s)
    && Evidence(s) && Times(c, s) && Unused(s)
  }

  // ---------------------------------------------------------------------
  // Every step keeps it.
  // ---------------------------------------------------------------------

  lemma TickTimes(c: Config, s: State, now: Duration)
    requires Times(c, s) && Ids(s) && Requests(c, s) && Unused(s)
    requires s.nextId == 0 ==> s.run.None?
    ensures Times(c, Tick(c, s, now)) && Ids(Tick(c, s, now)) && Requests(c, Tick(c, s, now)) && Unused(Tick(c, s, now))
  {
    hide ValidateRequest;
  }

  lemma TickCharges(c: Config, s: State, now: Duration)
    requires Sums(s) && TaskCharges(c, s) && RunCharges(c, s) && Evidence(s)
    ensures var t := Tick(c, s, now); Sums(t) && TaskCharges(c, t) && RunCharges(c, t) && Evidence(t)
  {
  }

  lemma TickValid(c: Config, s: State, now: Duration)
    requires Valid(c, s)
    ensures Valid(c, Tick(c, s, now))
  {
    assert s.nextId == 0 ==> s.run.None?;
    hide Ids, Requests, Sums, TaskCharges, RunCharges, Evidence, Times, Unused, IdentityOk;
    TickTimes(c, s, now);
    TickCharges(c, s, now);
  }

  // t differs from s at most in flags, clock, turn id, metrics, and stops it adds.
  ghost predicate OnlyFlags(s: State, t: State) {
    && t.charged == s.charged && t.reserved == s.reserved && t.usage == s.usage
    && t.activeTime == s.activeTime && t.cleanupTime == s.cleanupTime
    && t.pending == s.pending && t.nextId == s.nextId
    && (s.stop.Some? ==> t.stop.Some?) && (AnyStop(s).Some? ==> AnyStop(t).Some?)
    && (t.run.Some? <==> s.run.Some?)
    && (s.run.Some? ==>
          var a, b := s.run.value, t.run.value;
          && b.id == a.id && b.report.limits == a.report.limits && b.report.charged == a.report.charged
          && b.report.reserved == a.report.reserved
          && b.report.activeTime == a.report.activeTime && b.report.cleanupTime == a.report.cleanupTime)
  }

  lemma FlagsValid(c: Config, s: State, t: State)
    requires Valid(c, s) && OnlyFlags(s, t)
    ensures Valid(c, t)
  {
  }

  lemma StartRunValid(c: Config, s: State, turnId: Option<string>, limits: Limits)
    requires Valid(c, s) && s.run.None? && s.nextId < U64_MAX
    ensures Valid(c, s.(nextId := s.nextId + 1, run := Some(NewRun(c, s.nextId + 1, turnId, limits))))
  {
    TightenedIffWithin(c.limits, limits);
    forall r: Resource ensures s.reserved.Get(r) == ZERO.Get(r) {
      assert s.reserved.Get(r) == if r.IsAttempt() then 0 else PendingSum(s.pending, r);
    }
    AmountsEqual(s.reserved, ZERO);
  }

  lemma BeginRunValid(c: Config, s: State, turnId: Option<string>, limits: Limits, now: Duration, later: Duration)
    requires Valid(c, s)
    ensures Valid(c, BeginRun(c, s, turnId, limits, now, later).0)
  {
    hide Valid, NewRun, Tick;
    TickValid(c, s, now);
    var t := Tick(c, s, now);
    if t.run.None? && t.nextId < U64_MAX {
      StartRunValid(c, t, turnId, limits);
      TickValid(c, t.(nextId := t.nextId + 1, run := Some(NewRun(c, t.nextId + 1, turnId, limits))), later);
    }
    FlagsValid(c, t, t.(stop := FirstStop(t.stop, AccountingOverflow)));
  }

  lemma BindTurnValid(c: Config, s: State, id: u64, turn: string, now: Duration)
    requires Valid(c, s)
    ensures Valid(c, BindTurn(c, s, id, turn, now).0)
  {
    hide Valid, Tick;
    TickValid(c, s, now);
    FlagsValid(c, Tick(c, s, now), BindTurn(c, s, id, turn, now).0);
  }

  lemma PrepareReportValid(c: Config, s: State, id: u64, now: Duration)
    requires Valid(c, s)
    ensures Valid(c, PrepareReport(c, s, id, now).0)
  {
    hide Valid, Tick;
    TickValid(c, s, now);
    FlagsValid(c, Tick(c, s, now), PrepareReport(c, s, id, now).0);
  }

  lemma ExpireValid(c: Config, s: State, id: u64, now: Duration)
    requires Valid(c, s)
    ensures Valid(c, Expire(c, s, id, now).0)
  {
    hide Valid, Tick;
    TickValid(c, s, now);
    FlagsValid(c, Tick(c, s, now), Expire(c, s, id, now).0);
  }

  lemma StopWithValid(c: Config, s: State, id: u64, reason: StopReason, now: Duration)
    requires Valid(c, s)
    ensures Valid(c, StopWith(c, s, id, reason, now).0)
  {
    hide Valid, Tick;
    TickValid(c, s, now);
    FlagsValid(c, Tick(c, s, now), StopWith(c, s, id, reason, now).0);
  }

  lemma BeginCleanupValid(c: Config, s: State, id: u64, now: Duration)
    requires Valid(c, s)
    ensures Valid(c, BeginCleanup(c, s, id, now).0)
  {
    hide Valid, Tick;
    TickValid(c, s, now);
    FlagsValid(c, Tick(c, s, now), BeginCleanup(c, s, id, now).0);
  }

  lemma DropRunValid(c: Config, s: State, id: u64, now: Duration)
    requires Valid(c, s)
    ensures Valid(c, DropRun(c, s, id, now))
  {
    hide Valid, Tick;
    TickValid(c, s, now);
    if CheckWritable(s).None? {
      FlagsValid(c, Tick(c, s, now), DropRun(c, s, id, now));
    }
  }

  lemma RecordEvidenceValid(c: Config, s: State, id: u64, kind: EventKind, confirmed: bool)
    requires Valid(c, s)
    ensures Valid(c, RecordEvidence(s, id, kind, confirmed))
  {
    hide Valid;
    FlagsValid(c, s, RecordEvidence(s, id, kind, confirmed));
  }

  lemma EndRunValid(c: Config, s: State)
    requires Valid(c, s) && s.pending == []
    ensures Valid(c, s.(run := None))
  {
  }

  lemma FinishValid(c: Config, s: State, id: u64, now: Duration)
    requires Valid(c, s)
    ensures Valid(c, Finish(c, s, id, now).0)
  {
    hide Valid, Tick;
    TickValid(c, s, now);
    var t := Tick(c, s, now);
    if t.run.Some? && t.pending == [] {
      EndRunValid(c, t);
    }
  }

  // Changing the flags of one pending reservation.
  lemma PendingFlagsValid(c: Config, s: State, i: nat, p: Pending, stop: Option<StopReason>)
    requires Valid(c, s) && i < |s.pending|
    requires p.id == s.pending[i].id && p.request == s.pending[i].request && (p.failedUsage.Some? ==> p.started)
    requires s.stop.Some? ==> stop.Some?
    ensures Valid(c, s.(pending := s.pending[i := p], stop := stop))
  {
    forall r: Resource ensures PendingSum(s.pending[i := p], r) == PendingSum(s.pending, r) {
      PendingSumUpdate(s.pending, i, p, r);
    }
  }

  lemma MarkStartedValid(c: Config, s: State, runId: u64, id: u64, now: Duration)
    requires Valid(c, s)
    ensures Valid(c, MarkStarted(c, s, runId, id, now).0)
  {
    TickValid(c, s, now);
    var t := Tick(c, s, now);
    hide Valid, Tick;
    var i := Find(t.pending, id);
    if i.Some? {
      PendingFlagsValid(c, t, i.value, t.pending[i.value].(started := true), t.stop);
    }
  }

  lemma DropReservationValid(c: Config, s: State, id: u64, now: Duration)
    requires Valid(c, s)
    ensures Valid(c, DropReservation(c, s, id, now))
  {
    TickValid(c, s, now);
    var t := Tick(c, s, now);
    var i := Find(t.pending, id);
    if i.Some? {
      assert t.pending[i.value].failedUsage.Some? ==> t.pending[i.value].started;
      hide Valid, Tick;
      PendingFlagsValid(c, t, i.value, t.pending[i.value].(abandoned := true), FirstStop(t.stop, AbandonedReservation));
    }
  }

  // ----- accepting a reservation -----

  // What acceptance adds to each total, exactly: nothing saturates when the request fits.
  lemma AcceptAmounts(c: Config, s: State, request: Request, id: u64, r: Resource)
    requires s.run.Some? && TaskFits(c, s, request, r) && RunFits(s, request, r)
    ensures var t, n := Accept(s, request, id), request.amounts.Get(r);
      && PendingSum(t.pending, r) == PendingSum(s.pending, r) + n
      && t.charged.Get(r) == s.charged.Get(r) + (if r.IsAttempt() then n else 0)
      && t.reserved.Get(r) == s.reserved.Get(r) + (if r.IsAttempt() then 0 else n)
      && t.run.value.report.charged.Get(r) == s.run.value.report.charged.Get(r) + (if r.IsAttempt() then n else 0)
      && t.run.value.report.reserved.Get(r) == s.run.value.report.reserved.Get(r) + (if r.IsAttempt() then 0 else n)
  {
    PendingSumAppend(s.pending, Pending(id, request, false, false, None), r);
  }

  lemma AcceptSums(c: Config, s: State, request: Request, id: u64)
    requires s.run.Some? && Sums(s)
    requires forall r: Resource :: TaskFits(c, s, request, r) && RunFits(s, request, r)
    ensures Sums(Accept(s, request, id))
  {
    var t := Accept(s, request, id);
    forall r: Resource
      ensures t.reserved.Get(r) == if r.IsAttempt() then 0 else PendingSum(t.pending, r)
      ensures t.run.value.report.reserved.Get(r) == t.reserved.Get(r)
      ensures r.IsAttempt() ==> PendingSum(t.pending, r) <= t.run.value.report.charged.Get(r)
    {
      AcceptAmounts(c, s, request, id, r);
    }
    AmountsEqual(t.run.value.report.reserved, t.reserved);
  }

  lemma AcceptCharges(c: Config, s: State, request: Request, id: u64)
    requires s.run.Some? && TaskCharges(c, s) && RunCharges(c, s) && Evidence(s)
    requires forall r: Resource :: TaskFits(c, s, request, r) && RunFits(s, request, r)
    ensures TaskCharges(c, Accept(s, request, id)) && RunCharges(c, Accept(s, request, id))
    ensures Evidence(Accept(s, request, id))
  {
    var t := Accept(s, request, id);
    forall r: Resource
      ensures t.charged.Get(r) + t.reserved.Get(r) <= c.limits.resources.Get(r)
      ensures t.run.value.report.charged.Get(r)
          + t.run.value.report.reserved.Get(r) <= t.run.value.report.limits.resources.Get(r)
      ensures t.run.value.report.charged.Get(r) <= t.charged.Get(r)
      ensures s.charged.Get(r) <= t.charged.Get(r)
    {
      AcceptAmounts(c, s, request, id, r);
    }
  }

  lemma AcceptValid(c: Config, s: State, request: Request)
    requires Valid(c, s) && s.run.Some? && s.nextId < U64_MAX
    requires ValidateRequest(request, c.tokenMode).None?
    requires forall r: Resource :: TaskFits(c, s, request, r) && RunFits(s, request, r)
    ensures Valid(c, Accept(s, request, s.nextId + 1))
  {
    hide Ids, Requests, Sums, TaskCharges, RunCharges, Evidence, Times, Unused, IdentityOk;
    AcceptSums(c, s, request, s.nextId + 1);
    AcceptCharges(c, s, request, s.nextId + 1);
    AcceptIds(c, s, request);
  }

  lemma AcceptIds(c: Config, s: State, request: Request)
    requires Ids(s) && Requests(c, s) && Times(c, s) && s.run.Some? && s.nextId < U64_MAX
    requires ValidateRequest(request, c.tokenMode).None?
    ensures var t := Accept(s, request, s.nextId + 1); Ids(t) && Requests(c, t) && Times(c, t) && Unused(t)
  {
    hide ValidateRequest, AddAttempts, AddVariables;
  }

  lemma AllFitEverywhere(c: Config, s: State, request: Request)
    requires s.run.Some? && FirstMisfit(c, s, request, 0).AllFit?
    ensures forall r: Resource :: TaskFits(c, s, request, r) && RunFits(s, request, r)
  {
    forall r: Resource ensures TaskFits(c, s, request, r) && RunFits(s, request, r) {
      AllResources(r);
      var j :| 0 <= j < |ALL| && ALL[j] == r;
    }
  }

  lemma ReserveValid(c: Config, s: State, runId: u64, request: Request, now: Duration)
    requires Valid(c, s)
    ensures Valid(c, Reserve(c, s, runId, request, now).0)
  {
    hide Valid, Tick, Accept, ValidateRequest, FirstMisfit;
    TickValid(c, s, now);
    var t := Tick(c, s, now);
    if CheckOpen(t, runId).None? && ValidateRequest(request, c.tokenMode).None? {
      if FirstMisfit(c, t, request, 0).AllFit? && t.nextId < U64_MAX {
        AllFitEverywhere(c, t, request);
        AcceptValid(c, t, request);
      } else {
        FlagsValid(c, t, Reserve(c, s, runId, request, now).0);
      }
    }
  }

  // ----- resolving a reservation -----

  // What release subtracts, exactly: nothing saturates, the reservation is part of the sum.
  lemma ReleaseAmounts(s: State, i: nat, r: Resource)
    requires s.run.Some? && i < |s.pending| && Sums(s)
    ensures var t, n := Release(s, i), s.pending[i].request.amounts.Get(r);
      && PendingSum(t.pending, r) == PendingSum(s.pending, r) - n
      && t.charged.Get(r) == s.charged.Get(r)
      && t.reserved.Get(r) == s.reserved.Get(r) - (if r.IsAttempt() then 0 else n)
      && t.run.value.report.charged.Get(r) == s.run.value.report.charged.Get(r)
      && t.run.value.report.reserved.Get(r) == t.reserved.Get(r)
  {
    PendingSumRemove(s.pending, i, r);
    assert s.reserved.Get(r) == if r.IsAttempt() then 0 else PendingSum(s.pending, r);
  }

  lemma ReleaseValid(c: Config, s: State, i: nat)
    requires Valid(c, s) && s.run.Some? && i < |s.pending|
    ensures Valid(c, Release(s, i))
  {
    hide Ids, Requests, Sums, TaskCharges, RunCharges, Evidence, Times, Unused, IdentityOk;
    assert IdentityOk(c.identity);
    ReleaseSums(c, s, i);
    ReleaseIds(c, s, i);
  }

  lemma ReleaseSums(c: Config, s: State, i: nat)
    requires s.run.Some? && i < |s.pending| && Sums(s) && TaskCharges(c, s) && RunCharges(c, s) && Evidence(s)
    ensures var t := Release(s, i); Sums(t) && TaskCharges(c, t) && RunCharges(c, t) && Evidence(t)
  {
    var t := Release(s, i);
    forall r: Resource
      ensures PendingSum(t.pending, r) == PendingSum(s.pending, r) - s.pending[i].request.amounts.Get(r)
      ensures t.charged.Get(r) == s.charged.Get(r)
      ensures t.reserved.Get(r) == s.reserved.Get(r) - (if r.IsAttempt() then 0
          else s.pending[i].request.amounts.Get(r))
      ensures t.run.value.report.reserved.Get(r) == t.reserved.Get(r)
    {
      ReleaseAmounts(s, i, r);
    }
    AmountsEqual(t.run.value.report.reserved, t.reserved);
  }

  lemma ReleaseIds(c: Config, s: State, i: nat)
    requires s.run.Some? && i < |s.pending| && Ids(s) && Requests(c, s) && Times(c, s) && Unused(s)
    ensures var t := Release(s, i); Ids(t) && Requests(c, t) && Times(c, t) && Unused(t)
  {
    hide ValidateRequest, SubVariables;
  }

  lemma TryCancelValid(c: Config, s: State, id: u64, now: Duration)
    requires Valid(c, s)
    ensures Valid(c, TryCancel(c, s, id, now).0)
  {
    hide Valid, Tick, Release;
    TickValid(c, s, now);
    var t := Tick(c, s, now);
    var i := Find(t.pending, id);
    if i.Some? && t.run.Some? {
      ReleaseValid(c, t, i.value);
    }
  }

  lemma CancelValid(c: Config, s: State, id: u64, now: Duration, later: Duration)
    requires Valid(c, s)
    ensures Valid(c, CancelBeforeStart(c, s, id, now, later).0)
  {
    hide Valid, TryCancel, DropReservation;
    TryCancelValid(c, s, id, now);
    DropReservationValid(c, TryCancel(c, s, id, now).0, id, later);
  }

  // ----- settlement -----

  // A settlement in progress, relative to where it started: each variable resource handled so far
  // was charged its debit on the task and the run, and its evidence grew by no more than that.
  ghost predicate SettlementFrom(a: Settlement, b: Settlement, request: Request, usage: Usage, handled: set<Resource>) {
    && (forall r: Resource | r.IsAttempt() || r !in handled ::
          b.charged.Get(r) == a.charged.Get(r) && b.runCharged.Get(r) == a.runCharged.Get(r))
    && (forall r: Resource | !r.IsAttempt() && r in handled ::
          var debit := Debit(usage.Get(r), request.amounts.Get(r));
          && b.charged.Get(r) == a.charged.Get(r) + debit
          && b.runCharged.Get(r) == a.runCharged.Get(r) + debit
          && b.evidence.Get(r).actual + b.evidence.Get(r).estimated
             <= a.evidence.Get(r).actual + a.evidence.Get(r).estimated + debit
          && b.evidence.Get(r).actual >= a.evidence.Get(r).actual
          && b.evidence.Get(r).estimated >= a.evidence.Get(r).estimated
          && b.evidence.Get(r).unknown >= a.evidence.Get(r).unknown
          && (debit > request.amounts.Get(r) ==> b.breach.Some?))
    && (forall r: Resource | !r.IsAttempt() && r !in handled :: b.evidence.Get(r) == a.evidence.Get(r))
    && (b.breach.Some? && a.breach.None? ==>
          b.breach.value in handled && !b.breach.value.IsAttempt()
          && Debit(usage.Get(b.breach.value),
              request.amounts.Get(b.breach.value)) > request.amounts.Get(b.breach.value))
  }

  lemma SettleResourceStep(a: Settlement, b: Settlement, request: Request, usage: Usage, handled: set<Resource>,
                           r: Resource)
    requires a.breach.None? && SettlementFrom(a, b, request, usage, handled) && !r.IsAttempt() && r !in handled
    requires SettleResource(b, r, request, usage).Some?
    ensures SettlementFrom(a, SettleResource(b, r, request, usage).value, request, usage, handled + {r})
  {
  }

  function FirstVariables(n: nat): set<Resource>
    requires n <= |VARIABLES|
  {
    set i | 0 <= i < n :: VARIABLES[i]
  }

  lemma NextVariable(n: nat)
    requires n < |VARIABLES|
    ensures !VARIABLES[n].IsAttempt() && VARIABLES[n] !in FirstVariables(n)
    ensures FirstVariables(n + 1) == FirstVariables(n) + {VARIABLES[n]}
  {
    assert VARIABLES[0] == InputTokens && VARIABLES[1] == OutputTokens && VARIABLES[2] == ToolOutputBytes;
  }

  lemma {:induction false} SettleFromCharges(a: Settlement, b: Settlement, n: nat, request: Request, usage: Usage)
    requires n <= |VARIABLES| && a.breach.None? && SettlementFrom(a, b, request, usage, FirstVariables(n))
    requires SettleFrom(b, n, request, usage).Some?
    ensures SettlementFrom(a, SettleFrom(b, n, request, usage).value, request, usage, FirstVariables(|VARIABLES|))
    decreases |VARIABLES| - n
  {
    hide SettlementFrom, SettleResource, FirstVariables;
    if n < |VARIABLES| {
      NextVariable(n);
      SettleResourceStep(a, b, request, usage, FirstVariables(n), VARIABLES[n]);
      SettleFromCharges(a, SettleResource(b, VARIABLES[n], request, usage).value, n + 1, request, usage);
    }
  }

  /** A settlement charges every variable resource its debit, on task and run alike, and reports a
      breach exactly when some debit exceeds what was reserved. */
  lemma SettledCharges(s: State, request: Request, usage: Usage)
    requires s.run.Some? && Settled(s, request, usage).Some?
    ensures var b := Settled(s, request, usage).value;
      && (forall r: Resource | r.IsAttempt() ::
            b.charged.Get(r) == s.charged.Get(r) && b.runCharged.Get(r) == s.run.value.report.charged.Get(r))
      && (forall r: Resource | !r.IsAttempt() ::
            var debit := Debit(usage.Get(r), request.amounts.Get(r));
            && b.charged.Get(r) == s.charged.Get(r) + debit
            && b.runCharged.Get(r) == s.run.value.report.charged.Get(r) + debit
            && b.evidence.Get(r).actual + b.evidence.Get(r).estimated
               <= s.usage.Get(r).actual + s.usage.Get(r).estimated + debit
            && b.evidence.Get(r).actual >= s.usage.Get(r).actual
            && b.evidence.Get(r).estimated >= s.usage.Get(r).estimated
            && b.evidence.Get(r).unknown >= s.usage.Get(r).unknown)
    ensures Settled(s, request, usage).value.breach.Some? <==>
      exists r: Resource :: !r.IsAttempt() && Debit(usage.Get(r), request.amounts.Get(r)) > request.amounts.Get(r)
  {
    var a := Settlement(s.charged, s.run.value.report.charged, s.usage, None);
    NothingSettled(a, request, usage);
    assert FirstVariables(0) == {};
    SettleFromCharges(a, a, 0, request, usage);
    forall r: Resource ensures r in FirstVariables(|VARIABLES|) <==> !r.IsAttempt() {
      AllResources(r);
    }
  }

  lemma NothingSettled(a: Settlement, request: Request, usage: Usage)
    requires a.breach.None?
    ensures SettlementFrom(a, a, request, usage, {})
  {
  }

  lemma ApplySums(c: Config, s: State, i: nat, usage: Usage)
    requires s.run.Some? && i < |s.pending| && Sums(s) && TaskCharges(c, s) && RunCharges(c, s) && Evidence(s)
    requires Settled(s, s.pending[i].request, usage).Some?
    ensures var t := ApplySettlement(s, i, Settled(s, s.pending[i].request, usage).value);
      Sums(t) && TaskCharges(c, t) && RunCharges(c, t) && Evidence(t)
  {
    var request := s.pending[i].request;
    var t := ApplySettlement(s, i, Settled(s, request, usage).value);
    SettledCharges(s, request, usage);
    hide Settled, SettleFrom, Debit;
    forall r: Resource
      ensures PendingSum(t.pending, r) == PendingSum(s.pending, r) - request.amounts.Get(r)
      ensures t.reserved.Get(r) == s.reserved.Get(r) - (if r.IsAttempt() then 0 else request.amounts.Get(r))
      ensures t.run.value.report.reserved.Get(r) == t.reserved.Get(r)
    {
      ReleaseAmounts(s, i, r);
    }
    AmountsEqual(t.run.value.report.reserved, t.reserved);
  }

  lemma ApplyIds(c: Config, s: State, i: nat, a: Settlement)
    requires s.run.Some? && i < |s.pending| && Ids(s) && Requests(c, s) && Times(c, s) && 0 < s.nextId
    ensures var t := ApplySettlement(s, i, a); Ids(t) && Requests(c, t) && Times(c, t) && Unused(t)
  {
    hide ValidateRequest, SubVariables;
  }

  lemma TrySettleValid(c: Config, s: State, id: u64, usage: Usage, now: Duration)
    requires Valid(c, s)
    ensures Valid(c, TrySettle(c, s, id, usage, now).0)
  {
    TickValid(c, s, now);
    var t := Tick(c, s, now);
    var i := Find(t.pending, id);
    hide Settled, Tick, Find, ApplySettlement, Sums, TaskCharges, RunCharges, Evidence, Times, Unused, IdentityOk, Ids,
      Requests;
    if CheckWritable(s).None? && i.Some? && t.pending[i.value].started {
      var a := if t.run.Some? then Settled(t, t.pending[i.value].request, usage) else None;
      if a.Some? {
        ApplySums(c, t, i.value, usage);
        assert 0 < t.nextId by { RunHasId(t); }
        ApplyIds(c, t, i.value, a.value);
      } else {
        PendingFlagsValid(c, t, i.value, t.pending[i.value].(failedUsage := Some(usage)),
                          FirstStop(t.stop, AccountingOverflow));
      }
    }
  }

  lemma RunHasId(s: State)
    requires Ids(s) && s.run.Some?
    ensures 0 < s.nextId
  {
  }

  lemma SettleValid(c: Config, s: State, id: u64, usage: Usage, now: Duration, later: Duration)
    requires Valid(c, s)
    ensures Valid(c, Settle(c, s, id, usage, now, later).0)
  {
    hide Valid, TrySettle, DropReservation;
    TrySettleValid(c, s, id, usage, now);
    DropReservationValid(c, TrySettle(c, s, id, usage, now).0, id, later);
  }

  /** Every step of the ledger, whatever its outcome, keeps the invariant. */
  lemma StepValid(c: Config, s: State, op: Op)
    requires Valid(c, s)
    ensures Valid(c, Step(c, s, op).0)
  {
    hide Valid, Tick, BeginRun, BindTurn, PrepareReport, Finish, DropRun, Expire, StopWith, BeginCleanup,
      RecordEvidence, Reserve, MarkStarted, CancelBeforeStart, Settle, TryCancel, TrySettle, DropReservation, CheckOpen;
    match op
    case OpBeginRun(turnId, limits, now, later) => BeginRunValid(c, s, turnId, limits, now, later);
    case OpBindTurn(run, turn, now) => BindTurnValid(c, s, run, turn, now);
    case OpPrepareReport(run, now) => PrepareReportValid(c, s, run, now);
    case OpFinish(run, now) => FinishValid(c, s, run, now);
    case OpDropRun(run, now) => DropRunValid(c, s, run, now);
    case OpExpire(run, now) => ExpireValid(c, s, run, now);
    case OpStopWith(run, reason, now) => StopWithValid(c, s, run, reason, now);
    case OpBeginCleanup(run, now) => BeginCleanupValid(c, s, run, now);
    case OpRecordEvidence(run, kind, confirmed) => RecordEvidenceValid(c, s, run, kind, confirmed);
    case OpReserve(run, request, now) => ReserveValid(c, s, run, request, now);
    case OpMarkStarted(run, id, now) => MarkStartedValid(c, s, run, id, now);
    case OpCancel(id, now, later) => CancelValid(c, s, id, now, later);
    case OpSettle(id, usage, now, later) => SettleValid(c, s, id, usage, now, later);
    case OpTryCancel(id, now) => TryCancelValid(c, s, id, now);
    case OpTrySettle(id, usage, now) => TrySettleValid(c, s, id, usage, now);
    case OpDropReservation(id, now) => DropReservationValid(c, s, id, now);
    case OpReport(now) => TickValid(c, s, now);
    case OpCheckActive(run, now) => TickValid(c, s, now);
  }

  /** Over any run. */
  lemma {:induction false} RunValid(c: Config, s: State, ops: seq<Op>)
    requires Valid(c, s)
    ensures Valid(c, After(c, s, ops))
    decreases |ops|
  {
    if ops != [] {
      hide Valid, Step;
      StepValid(c, s, ops[0]);
      RunValid(c, Step(c, s, ops[0]).0, ops[1..]);
    }
  }
}
