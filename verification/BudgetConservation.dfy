/** What a whole run of the ledger conserves: charges, stops and time. */
module BudgetConservation {
  import opened BudgetTypes
  import opened BudgetSteps
  import opened BudgetInvariant

  // ---------------------------------------------------------------------
  // Charges.
  // ---------------------------------------------------------------------

  // What a step charges for r: the attempts of an accepted request, the debit of a resolved reservation.
  function Charge(c: Config, s: State, op: Op, r: Resource): nat {
    match op
    case OpReserve(run, request, now) =>
      if Reserve(c, s, run, request, now).1.Granted? && r.IsAttempt() then request.amounts.Get(r) else 0
    case OpSettle(id, usage, now, later) => SettleCharge(c, s, id, usage, now, r)
    case OpTrySettle(id, usage, now) => SettleCharge(c, s, id, usage, now, r)
    case _ => 0
  }

  function SettleCharge(c: Config, s: State, id: u64, usage: Usage, now: Duration, r: Resource): nat {
    var i := Find(s.pending, id);
    if TrySettle(c, s, id, usage, now).2 && i.Some? && !r.IsAttempt()
    then Debit(usage.Get(r), s.pending[i.value].request.amounts.Get(r)) else 0
  }

  function TotalCharge(c: Config, s: State, ops: seq<Op>, r: Resource): nat
    decreases |ops|
  {
    if ops == [] then 0 else Charge(c, s, ops[0], r) + TotalCharge(c, Step(c, s, ops[0]).0, ops[1..], r)
  }

  lemma TickKeeps(c: Config, s: State, now: Duration)
    ensures var t := Tick(c, s, now);
      && t.charged == s.charged && t.reserved == s.reserved && t.usage == s.usage && t.pending == s.pending
      && t.nextId == s.nextId && t.revision == s.revision && t.grants == s.grants && t.recoveries == s.recoveries
      && t.isSealed == s.isSealed && t.recoveryFrozen == s.recoveryFrozen
      && (s.stop.Some? ==> t.stop == s.stop)
      && s.activeTime <= t.activeTime && s.cleanupTime <= t.cleanupTime
      && (t.run.Some? <==> s.run.Some?) && (s.run.Some? ==> t.run.value.id == s.run.value.id)
  {
  }

  lemma ReserveCharges(c: Config, s: State, runId: u64, request: Request, now: Duration, r: Resource)
    ensures var (t, o) := Reserve(c, s, runId, request, now);
      t.charged.Get(r) == s.charged.Get(r) + (if o.Granted? && r.IsAttempt() then request.amounts.Get(r) else 0)
  {
    TickKeeps(c, s, now);
    var t := Tick(c, s, now);
    hide Tick, ValidateRequest;
    if CheckOpen(t, runId).None? && ValidateRequest(request, c.tokenMode).None?
        && FirstMisfit(c, t, request, 0).AllFit? {
      AllFitEverywhere(c, t, request);
      AcceptAmounts(c, t, request, if t.nextId < U64_MAX then t.nextId + 1 else 0, r);
    }
  }

  lemma DropReservationKeeps(c: Config, s: State, id: u64, now: Duration)
    ensures DropReservation(c, s, id, now).charged == s.charged
  {
    hide Tick;
    TickKeeps(c, s, now);
  }

  lemma SettleCharges(c: Config, s: State, id: u64, usage: Usage, now: Duration, later: Duration, r: Resource)
    ensures Settle(c, s, id, usage, now, later).0.charged.Get(r)
      == s.charged.Get(r) + SettleCharge(c, s, id, usage, now, r)
  {
    TrySettleCharges(c, s, id, usage, now, r);
    hide TrySettle, DropReservation, SettleCharge;
    DropReservationKeeps(c, TrySettle(c, s, id, usage, now).0, id, later);
  }

  lemma TrySettleCharges(c: Config, s: State, id: u64, usage: Usage, now: Duration, r: Resource)
    ensures TrySettle(c, s, id, usage, now).0.charged.Get(r) == s.charged.Get(r) + SettleCharge(c, s, id, usage, now, r)
  {
    TickKeeps(c, s, now);
    var t := Tick(c, s, now);
    var i := Find(t.pending, id);
    hide Tick, Settled, Find;
    if i.Some? && t.run.Some? && Settled(t, t.pending[i.value].request, usage).Some? {
      SettledCharges(t, t.pending[i.value].request, usage);
    }
  }

  lemma CancelKeeps(c: Config, s: State, id: u64, now: Duration, later: Duration)
    ensures CancelBeforeStart(c, s, id, now, later).0.charged == s.charged
    ensures TryCancel(c, s, id, now).0.charged == s.charged
  {
    hide Tick, DropReservation, Find;
    TickKeeps(c, s, now);
    DropReservationKeeps(c, TryCancel(c, s, id, now).0, id, later);
  }

  lemma BeginRunKeeps(c: Config, s: State, turnId: Option<string>, limits: Limits, now: Duration, later: Duration)
    ensures BeginRun(c, s, turnId, limits, now, later).0.charged == s.charged
  {
    TickKeeps(c, s, now);
    var t := Tick(c, s, now);
    if t.nextId < U64_MAX {
      TickKeeps(c, t.(nextId := t.nextId + 1, run := Some(NewRun(c, t.nextId + 1, turnId, limits))), later);
    }
    hide Tick, NewRun;
  }

  // ---------------------------------------------------------------------
  // Steps that read the clock once.
  // ---------------------------------------------------------------------

  // u has the accounts of t: same usage, times, audits; ids and stops are added to at most.
  ghost predicate SameAccounts(t: State, u: State) {
    && u.usage == t.usage && u.activeTime == t.activeTime && u.cleanupTime == t.cleanupTime
    && u.revision == t.revision && u.grants == t.grants && u.recoveries == t.recoveries
    && u.isSealed == t.isSealed && u.recoveryFrozen == t.recoveryFrozen && t.nextId <= u.nextId
    && (t.stop.Some? ==> u.stop == t.stop)
    && (u.run.Some? ==> t.run.Some? && u.run.value.report.activeTime == t.run.value.report.activeTime
                        && u.run.value.report.limits == t.run.value.report.limits)
  }

  predicate OneTick(op: Op) {
    !op.OpBeginRun? && !Resolves(op) && !op.OpRecordEvidence?
  }

  predicate Resolves(op: Op) {
    op.OpCancel? || op.OpSettle? || op.OpTryCancel? || op.OpTrySettle?
  }

  lemma RunStepAccounts(c: Config, s: State, op: Op)
    requires op.OpBindTurn? || op.OpPrepareReport? || op.OpFinish? || op.OpDropRun? || op.OpExpire?
    ensures SameAccounts(Tick(c, s, op.now), Step(c, s, op).0)
    ensures Step(c, s, op).0.charged == Tick(c, s, op.now).charged
  {
    hide Tick, Snapshot, BeginRun, StopWith, BeginCleanup, RecordEvidence, Reserve, MarkStarted,
      CancelBeforeStart, Settle, DropReservation, ObserveReport, CheckActive;
    FrozenTick(c, s, op.now);
  }

  lemma ScopeStepAccounts(c: Config, s: State, op: Op)
    requires op.OpStopWith? || op.OpBeginCleanup? || op.OpMarkStarted? || op.OpDropReservation? || op.OpReport?
        || op.OpCheckActive?
    ensures SameAccounts(Tick(c, s, op.now), Step(c, s, op).0)
    ensures Step(c, s, op).0.charged == Tick(c, s, op.now).charged
  {
    hide Tick, Find, Snapshot, BeginRun, BindTurn, PrepareReport, Finish, DropRun, Expire, RecordEvidence, Reserve,
      CancelBeforeStart, Settle;
    FrozenTick(c, s, op.now);
  }

  lemma ReserveAccounts(c: Config, s: State, runId: u64, request: Request, now: Duration)
    ensures SameAccounts(Tick(c, s, now), Reserve(c, s, runId, request, now).0)
  {
    FrozenTick(c, s, now);
    hide Tick, ValidateRequest, FirstMisfit, AddAttempts, AddVariables;
  }

  lemma FrozenTick(c: Config, s: State, now: Duration)
    ensures CheckWritable(s).Some? ==> Tick(c, s, now) == s
  {
  }

  lemma OneTickAccounts(c: Config, s: State, op: Op)
    requires OneTick(op)
    ensures SameAccounts(Tick(c, s, op.now), Step(c, s, op).0)
    ensures !op.OpReserve? ==> Step(c, s, op).0.charged == s.charged
  {
    TickKeeps(c, s, op.now);
    if op.OpReserve? {
      ReserveAccounts(c, s, op.run, op.request, op.now);
    } else if op.OpBindTurn? || op.OpPrepareReport? || op.OpFinish? || op.OpDropRun? || op.OpExpire? {
      RunStepAccounts(c, s, op);
    } else {
      ScopeStepAccounts(c, s, op);
    }
    hide SameAccounts, Step, Tick;
  }

  lemma StepCharges(c: Config, s: State, op: Op, r: Resource)
    ensures Step(c, s, op).0.charged.Get(r) == s.charged.Get(r) + Charge(c, s, op, r)
  {
    hide BeginRun, Reserve, CancelBeforeStart, Settle, TryCancel, TrySettle, SettleCharge, Find, SameAccounts, Tick;
    match op
    case OpBeginRun(turnId, limits, now, later) => BeginRunKeeps(c, s, turnId, limits, now, later);
    case OpReserve(run, request, now) => ReserveCharges(c, s, run, request, now, r);
    case OpCancel(id, now, later) => CancelKeeps(c, s, id, now, later);
    case OpSettle(id, usage, now, later) => SettleCharges(c, s, id, usage, now, later, r);
    case OpTryCancel(id, now) => CancelKeeps(c, s, id, now, now);
    case OpTrySettle(id, usage, now) => TrySettleCharges(c, s, id, usage, now, r);
    case OpRecordEvidence(_, _, _) =>
    case _ =>
      hide Step;
      OneTickAccounts(c, s, op);
  }

  /** A cancel or settle that fails is its first half and then the drop of the handle it consumed; what other handles do
      between the two is any run in between. */
  lemma Halves(c: Config, s: State, id: u64, usage: Usage, now: Duration, later: Duration)
    ensures Step(c, s, OpCancel(id, now, later)).0 ==
      if TryCancel(c, s, id, now).1.Done? then Step(c, s, OpTryCancel(id, now)).0
      else After(c, s, [OpTryCancel(id, now), OpDropReservation(id, later)])
    ensures Step(c, s, OpSettle(id, usage, now, later)).0 ==
      if TrySettle(c, s, id, usage, now).2 then Step(c, s, OpTrySettle(id, usage, now)).0
      else After(c, s, [OpTrySettle(id, usage, now), OpDropReservation(id, later)])
  {
    hide TryCancel, TrySettle, DropReservation;
    AfterTwo(c, s, OpTryCancel(id, now), OpDropReservation(id, later));
    AfterTwo(c, s, OpTrySettle(id, usage, now), OpDropReservation(id, later));
    hide After;
  }

  lemma AfterTwo(c: Config, s: State, a: Op, b: Op)
    ensures After(c, s, [a, b]) == Step(c, Step(c, s, a).0, b).0
  {
    hide Step;
    var t := Step(c, s, a).0;
    assert [a, b][1..] == [b] && [b][1..] == [];
    assert After(c, Step(c, t, b).0, []) == Step(c, t, b).0;
    assert After(c, t, [b]) == Step(c, t, b).0;
  }

  /** Over any run, the charges are the initial ones plus every accepted attempt and every settled
      debit: nothing is refunded, and nothing else is charged. */
  lemma {:induction false} ChargesConserved(c: Config, s: State, ops: seq<Op>, r: Resource)
    ensures After(c, s, ops).charged.Get(r) == s.charged.Get(r) + TotalCharge(c, s, ops, r)
    decreases |ops|
  {
    hide Step, Charge;
    if ops != [] {
      StepCharges(c, s, ops[0], r);
      ChargesConserved(c, Step(c, s, ops[0]).0, ops[1..], r);
    }
  }

  // ---------------------------------------------------------------------
  // What only grows.
  // ---------------------------------------------------------------------

  ghost predicate UsageGrows(a: UsageReport, b: UsageReport) {
    forall r: Resource | !r.IsAttempt() ::
      && a.Get(r).actual <= b.Get(r).actual && a.Get(r).estimated <= b.Get(r).estimated
      && a.Get(r).unknown <= b.Get(r).unknown
  }

  // Audits, identity of the image and first stop are kept; usage, times and ids only grow.
  ghost predicate Grows(s: State, t: State) {
    && UsageGrows(s.usage, t.usage) && s.activeTime <= t.activeTime && s.cleanupTime <= t.cleanupTime
    && s.nextId <= t.nextId && t.revision == s.revision && t.grants == s.grants && t.recoveries == s.recoveries
    && t.isSealed == s.isSealed && t.recoveryFrozen == s.recoveryFrozen
    && (s.stop.Some? ==> t.stop == s.stop)
  }

  lemma DropReservationGrows(c: Config, s: State, id: u64, now: Duration)
    ensures Grows(s, DropReservation(c, s, id, now))
  {
    hide Tick, Find;
    TickKeeps(c, s, now);
  }

  lemma TrySettleGrows(c: Config, s: State, id: u64, usage: Usage, now: Duration)
    ensures Grows(s, TrySettle(c, s, id, usage, now).0)
  {
    TickKeeps(c, s, now);
    var t := Tick(c, s, now);
    var i := Find(t.pending, id);
    hide Tick, Settled, Find;
    if i.Some? && t.run.Some? && Settled(t, t.pending[i.value].request, usage).Some? {
      SettledCharges(t, t.pending[i.value].request, usage);
    }
  }

  lemma GrowsTrans(a: State, b: State, d: State)
    requires Grows(a, b) && Grows(b, d)
    ensures Grows(a, d)
  {
  }

  lemma ResolveGrows(c: Config, s: State, id: u64, usage: Usage, now: Duration, later: Duration)
    ensures Grows(s, CancelBeforeStart(c, s, id, now, later).0)
    ensures Grows(s, Settle(c, s, id, usage, now, later).0)
  {
    TrySettleGrows(c, s, id, usage, now);
    TryCancelGrows(c, s, id, now);
    var a, b := TryCancel(c, s, id, now).0, TrySettle(c, s, id, usage, now).0;
    DropReservationGrows(c, a, id, later);
    DropReservationGrows(c, b, id, later);
    hide Grows, TryCancel, TrySettle, DropReservation;
    GrowsTrans(s, a, DropReservation(c, a, id, later));
    GrowsTrans(s, b, DropReservation(c, b, id, later));
  }

  lemma TryCancelGrows(c: Config, s: State, id: u64, now: Duration)
    ensures Grows(s, TryCancel(c, s, id, now).0)
  {
    hide Tick, Find;
    TickKeeps(c, s, now);
  }

  lemma StepGrows(c: Config, s: State, op: Op)
    ensures Grows(s, Step(c, s, op).0)
  {
    hide Tick, NewRun, Settle, CancelBeforeStart, TryCancel, TrySettle, OneTick;
    match op
    case OpBeginRun(turnId, limits, now, later) =>
      TickKeeps(c, s, now);
      var t := Tick(c, s, now);
      if t.nextId < U64_MAX {
        TickKeeps(c, t.(nextId := t.nextId + 1, run := Some(NewRun(c, t.nextId + 1, turnId, limits))), later);
      }
    case OpCancel(id, now, later) => ResolveGrows(c, s, id, Usage(Unknown, Unknown, Unknown), now, later);
    case OpSettle(id, usage, now, later) => ResolveGrows(c, s, id, usage, now, later);
    case OpTryCancel(id, now) => TryCancelGrows(c, s, id, now);
    case OpTrySettle(id, usage, now) => TrySettleGrows(c, s, id, usage, now);
    case OpRecordEvidence(_, _, _) =>
    case _ =>
      hide Step;
      assert OneTick(op) by { IsOneTick(op); }
      TickKeeps(c, s, op.now);
      OneTickAccounts(c, s, op);
  }

  lemma IsOneTick(op: Op)
    requires !op.OpBeginRun? && !Resolves(op) && !op.OpRecordEvidence?
    ensures OneTick(op)
  {
  }

  lemma {:induction false} RunGrows(c: Config, s: State, ops: seq<Op>)
    ensures Grows(s, After(c, s, ops))
    decreases |ops|
  {
    if ops != [] {
      hide Grows, Step;
      StepGrows(c, s, ops[0]);
      RunGrows(c, Step(c, s, ops[0]).0, ops[1..]);
      GrowsTrans(s, Step(c, s, ops[0]).0, After(c, s, ops));
    } else {
      assert Grows(s, s);
    }
  }

  /** A stopped, sealed or frozen ledger never accepts another reservation or run. */
  lemma StoppedForever(c: Config, s: State, ops: seq<Op>, op: Op)
    requires s.stop.Some? || CheckWritable(s).Some?
    ensures !Step(c, After(c, s, ops), op).1.Granted?
  {
    RunGrows(c, s, ops);
    NothingGranted(c, After(c, s, ops), op);
  }

  lemma NothingGranted(c: Config, s: State, op: Op)
    requires s.stop.Some? || CheckWritable(s).Some?
    ensures !Step(c, s, op).1.Granted?
  {
    match op
    case OpReserve(_, _, now) => hide Tick; TickKeeps(c, s, now);
    case OpBeginRun(_, _, now, _) => hide Tick; TickKeeps(c, s, now);
    case _ => hide Tick, Find, Settled, DropReservation;
  }

  // ---------------------------------------------------------------------
  // Time.
  // ---------------------------------------------------------------------

  function TickElapsed(s: State, now: Duration): nat {
    if s.isSealed || s.recoveryFrozen || now < s.lastClock || !Measured(s) then 0 else now - s.lastClock
  }

  // The time measured by a step: some steps read the clock twice.
  function StepElapsed(c: Config, s: State, op: Op): nat {
    match op
    case OpBeginRun(turnId, limits, now, later) =>
      var t := Tick(c, s, now);
      TickElapsed(s, now)
        + if CheckWritable(s).None? && t.run.None? && CheckStop(t).None? && t.nextId < U64_MAX
          then TickElapsed(t.(nextId := t.nextId + 1, run := Some(NewRun(c, t.nextId + 1, turnId, limits))), later)
              else 0
    case OpBindTurn(_, _, now) => TickElapsed(s, now)
    case OpPrepareReport(_, now) => TickElapsed(s, now)
    case OpFinish(_, now) => TickElapsed(s, now)
    case OpDropRun(_, now) => TickElapsed(s, now)
    case OpExpire(_, now) => TickElapsed(s, now)
    case OpStopWith(_, _, now) => TickElapsed(s, now)
    case OpBeginCleanup(_, now) => TickElapsed(s, now)
    case OpRecordEvidence(_, _, _) => 0
    case OpReserve(_, _, now) => TickElapsed(s, now)
    case OpMarkStarted(_, _, now) => TickElapsed(s, now)
    case OpCancel(id, now, later) =>
      var r := TryCancel(c, s, id, now);
      TickElapsed(s, now) + if r.1.Done? then 0 else TickElapsed(r.0, later)
    case OpSettle(id, usage, now, later) =>
      var r := TrySettle(c, s, id, usage, now);
      TickElapsed(s, now) + if r.2 then 0 else TickElapsed(r.0, later)
    case OpTryCancel(_, now) => TickElapsed(s, now)
    case OpTrySettle(_, _, now) => TickElapsed(s, now)
    case OpDropReservation(_, now) => TickElapsed(s, now)
    case OpReport(now) => TickElapsed(s, now)
    case OpCheckActive(_, now) => TickElapsed(s, now)
  }

  function Elapsed(c: Config, s: State, ops: seq<Op>): nat
    decreases |ops|
  {
    if ops == [] then 0 else StepElapsed(c, s, ops[0]) + Elapsed(c, Step(c, s, ops[0]).0, ops[1..])
  }

  // Active and cleanup time grew by exactly e.
  ghost predicate TimeGrewBy(s: State, t: State, e: nat) {
    t.activeTime + t.cleanupTime == s.activeTime + s.cleanupTime + e
  }

  lemma TickTime(c: Config, s: State, now: Duration)
    requires Valid(c, s) && s.cleanupTime + TickElapsed(s, now) <= DURATION_MAX
    ensures TimeGrewBy(s, Tick(c, s, now), TickElapsed(s, now))
    ensures Tick(c, s, now).cleanupTime <= s.cleanupTime + TickElapsed(s, now)
  {
  }

  lemma StepTime(c: Config, s: State, op: Op)
    requires Valid(c, s) && s.cleanupTime + StepElapsed(c, s, op) <= DURATION_MAX
    ensures TimeGrewBy(s, Step(c, s, op).0, StepElapsed(c, s, op))
    ensures Step(c, s, op).0.cleanupTime <= s.cleanupTime + StepElapsed(c, s, op)
  {
    hide Valid, Tick, TickElapsed, BeginRun, CancelBeforeStart, Settle, TryCancel, TrySettle, TimeGrewBy;
    match op
    case OpBeginRun(turnId, limits, now, later) => BeginRunTime(c, s, turnId, limits, now, later);
    case OpCancel(id, now, later) => CancelTime(c, s, id, now, later);
    case OpSettle(id, usage, now, later) => SettleTime(c, s, id, usage, now, later);
    case OpTryCancel(id, now) => TryTimes(c, s, id, Usage(Unknown, Unknown, Unknown), now);
    case OpTrySettle(id, usage, now) => TryTimes(c, s, id, usage, now);
    case OpDropReservation(id, now) => DropTime(c, s, id, now);
    case OpRecordEvidence(run, kind, confirmed) => assert TimeGrewBy(s, RecordEvidence(s, run, kind, confirmed), 0) by {
        NoTime(s, run, kind, confirmed); }
    case _ => OneTickTime(c, s, op);
  }

  lemma NoTime(s: State, run: u64, kind: EventKind, confirmed: bool)
    ensures TimeGrewBy(s, RecordEvidence(s, run, kind, confirmed), 0)
  {
  }

  // The steps that read the clock once and change no time besides.
  lemma OneTickTime(c: Config, s: State, op: Op)
    requires Valid(c, s) && s.cleanupTime + StepElapsed(c, s, op) <= DURATION_MAX
    requires !op.OpBeginRun? && !Resolves(op) && !op.OpDropReservation? && !op.OpRecordEvidence?
    ensures TimeGrewBy(s, Step(c, s, op).0, StepElapsed(c, s, op))
    ensures Step(c, s, op).0.cleanupTime <= s.cleanupTime + StepElapsed(c, s, op)
  {
    hide Valid, Tick, TickElapsed, Step;
    TickTime(c, s, op.now);
    SealedNoTime(s, op.now);
    OneTickAccounts(c, s, op);
  }

  lemma SealedNoTime(s: State, now: Duration)
    ensures CheckWritable(s).Some? ==> TickElapsed(s, now) == 0
  {
  }

  lemma BeginRunTime(c: Config, s: State, turnId: Option<string>, limits: Limits, now: Duration, later: Duration)
    requires Valid(c, s) && s.cleanupTime + StepElapsed(c, s, OpBeginRun(turnId, limits, now, later)) <= DURATION_MAX
    ensures var op := OpBeginRun(turnId, limits, now, later);
      TimeGrewBy(s, Step(c, s, op).0, StepElapsed(c, s, op))
      && Step(c, s, op).0.cleanupTime <= s.cleanupTime + StepElapsed(c, s, op)
  {
    hide Valid, Tick, CheckStop, NewRun, TickElapsed;
    TickTime(c, s, now);
    TickValid(c, s, now);
    SealedNoTime(s, now);
    var t := Tick(c, s, now);
    if CheckWritable(s).None? && t.run.None? && CheckStop(t).None? && t.nextId < U64_MAX {
      StartRunValid(c, t, turnId, limits);
      TickTime(c, t.(nextId := t.nextId + 1, run := Some(NewRun(c, t.nextId + 1, turnId, limits))), later);
    }
  }

  // Dropping an unresolved reservation is one tick.
  lemma DropTime(c: Config, s: State, id: u64, now: Duration)
    requires Valid(c, s) && s.cleanupTime + TickElapsed(s, now) <= DURATION_MAX
    ensures TimeGrewBy(s, DropReservation(c, s, id, now), TickElapsed(s, now))
    ensures DropReservation(c, s, id, now).cleanupTime <= s.cleanupTime + TickElapsed(s, now)
  {
    hide Valid, Tick, Find, TickElapsed;
    TickTime(c, s, now);
    SealedNoTime(s, now);
  }

  lemma TryTimes(c: Config, s: State, id: u64, usage: Usage, now: Duration)
    requires Valid(c, s) && s.cleanupTime + TickElapsed(s, now) <= DURATION_MAX
    ensures TimeGrewBy(s, TryCancel(c, s, id, now).0, TickElapsed(s, now))
    ensures TryCancel(c, s, id, now).0.cleanupTime <= s.cleanupTime + TickElapsed(s, now)
    ensures TimeGrewBy(s, TrySettle(c, s, id, usage, now).0, TickElapsed(s, now))
    ensures TrySettle(c, s, id, usage, now).0.cleanupTime <= s.cleanupTime + TickElapsed(s, now)
  {
    hide Valid, Tick, Find, TickElapsed, Settled;
    TickTime(c, s, now);
    SealedNoTime(s, now);
  }

  lemma CancelTime(c: Config, s: State, id: u64, now: Duration, later: Duration)
    requires Valid(c, s) && s.cleanupTime + StepElapsed(c, s, OpCancel(id, now, later)) <= DURATION_MAX
    ensures var op := OpCancel(id, now, later);
      TimeGrewBy(s, Step(c, s, op).0, StepElapsed(c, s, op))
      && Step(c, s, op).0.cleanupTime <= s.cleanupTime + StepElapsed(c, s, op)
  {
    hide Valid, TryCancel, DropReservation, TickElapsed;
    TryTimes(c, s, id, Usage(Unknown, Unknown, Unknown), now);
    TryCancelValid(c, s, id, now);
    if !TryCancel(c, s, id, now).1.Done? {
      DropTime(c, TryCancel(c, s, id, now).0, id, later);
    }
  }

  lemma SettleTime(c: Config, s: State, id: u64, usage: Usage, now: Duration, later: Duration)
    requires Valid(c, s) && s.cleanupTime + StepElapsed(c, s, OpSettle(id, usage, now, later)) <= DURATION_MAX
    ensures var op := OpSettle(id, usage, now, later);
      TimeGrewBy(s, Step(c, s, op).0, StepElapsed(c, s, op))
      && Step(c, s, op).0.cleanupTime <= s.cleanupTime + StepElapsed(c, s, op)
  {
    hide Valid, TrySettle, DropReservation, TickElapsed;
    TryTimes(c, s, id, usage, now);
    TrySettleValid(c, s, id, usage, now);
    if !TrySettle(c, s, id, usage, now).2 {
      DropTime(c, TrySettle(c, s, id, usage, now).0, id, later);
    }
  }

  /** Over any run short enough not to overflow, every measured instant is either active or cleanup
      time, and none is counted twice. */
  lemma {:induction false} TimeConserved(c: Config, s: State, ops: seq<Op>)
    requires Valid(c, s) && s.cleanupTime + Elapsed(c, s, ops) <= DURATION_MAX
    ensures TimeGrewBy(s, After(c, s, ops), Elapsed(c, s, ops))
    decreases |ops|
  {
    hide Valid, Step, StepElapsed;
    if ops != [] {
      StepTime(c, s, ops[0]);
      StepValid(c, s, ops[0]);
      TimeConserved(c, Step(c, s, ops[0]).0, ops[1..]);
    }
  }

  ghost predicate WithinTime(c: Config, s: State) {
    && s.activeTime <= c.limits.activeTime
    && (s.run.Some? ==> s.run.value.report.activeTime <= s.run.value.report.limits.activeTime)
  }

  lemma TickWithin(c: Config, s: State, now: Duration)
    requires WithinTime(c, s)
    ensures WithinTime(c, Tick(c, s, now))
  {
  }

  lemma TryWithin(c: Config, s: State, id: u64, usage: Usage, now: Duration)
    requires WithinTime(c, s)
    ensures WithinTime(c, TryCancel(c, s, id, now).0) && WithinTime(c, TrySettle(c, s, id, usage, now).0)
  {
    TickWithin(c, s, now);
    hide Tick, Find, Settled;
  }

  lemma ResolveWithin(c: Config, s: State, id: u64, usage: Usage, now: Duration, later: Duration)
    requires WithinTime(c, s)
    ensures WithinTime(c, CancelBeforeStart(c, s, id, now, later).0)
    ensures WithinTime(c, Settle(c, s, id, usage, now, later).0)
  {
    var a, b := TryCancel(c, s, id, now).0, TrySettle(c, s, id, usage, now).0;
    TryWithin(c, s, id, usage, now);
    hide WithinTime, TryCancel, TrySettle, DropReservation;
    DropWithin(c, a, id, later);
    DropWithin(c, b, id, later);
  }

  lemma StepWithin(c: Config, s: State, op: Op)
    requires WithinTime(c, s)
    ensures WithinTime(c, Step(c, s, op).0)
  {
    hide Tick, Settle, CancelBeforeStart, TryCancel, TrySettle;
    match op
    case OpBeginRun(turnId, limits, now, later) =>
      TickWithin(c, s, now);
      var t := Tick(c, s, now);
      if t.nextId < U64_MAX {
        TickWithin(c, t.(nextId := t.nextId + 1, run := Some(NewRun(c, t.nextId + 1, turnId, limits))), later);
      }
    case OpCancel(id, now, later) => ResolveWithin(c, s, id, Usage(Unknown, Unknown, Unknown), now, later);
    case OpSettle(id, usage, now, later) => ResolveWithin(c, s, id, usage, now, later);
    case OpTryCancel(id, now) => TryWithin(c, s, id, Usage(Unknown, Unknown, Unknown), now);
    case OpTrySettle(id, usage, now) => TryWithin(c, s, id, usage, now);
    case OpRecordEvidence(_, _, _) =>
    case _ =>
      hide Step;
      TickWithin(c, s, op.now);
      OneTickAccounts(c, s, op);
  }

  lemma DropWithin(c: Config, s: State, id: u64, now: Duration)
    requires WithinTime(c, s)
    ensures WithinTime(c, DropReservation(c, s, id, now))
  {
    hide Tick, Find;
    TickWithin(c, s, now);
  }

  /** Active time, of the task and of its run, never passes its limit. */
  lemma {:induction false} ActiveTimeBounded(c: Config, s: State, ops: seq<Op>)
    requires WithinTime(c, s)
    ensures WithinTime(c, After(c, s, ops))
    decreases |ops|
  {
    hide WithinTime, Step;
    if ops != [] {
      StepWithin(c, s, ops[0]);
      ActiveTimeBounded(c, Step(c, s, ops[0]).0, ops[1..]);
    }
  }

  // ---------------------------------------------------------------------
  // The life of a new ledger.
  // ---------------------------------------------------------------------

  lemma AccountsBalance(c: Config, s: State)
    requires Valid(c, s)
    ensures forall r: Resource :: s.reserved.Get(r) == if r.IsAttempt() then 0 else PendingSum(s.pending, r)
    ensures s.run.Some? ==> s.run.value.report.reserved == s.reserved
    ensures forall r: Resource | !r.IsAttempt() :: s.usage.Get(r).actual + s.usage.Get(r).estimated <= s.charged.Get(r)
    ensures s.stop.None? ==> forall r: Resource :: s.charged.Get(r) + s.reserved.Get(r) <= c.limits.resources.Get(r)
  {
    hide Ids, Requests, RunCharges, Times, Unused;
  }

  /** After any run of a new ledger, charges are the accepted attempts and settled debits; reserved is what the
      pending reservations hold, for the task as for its run; usage is within charges; charges and reservations are
      within the limits until the task stops; and active time always is. */
  lemma NewLedgerSafe(c: Config, start: Duration, ops: seq<Op>)
    requires IdentityOk(c.identity)
    ensures var s := After(c, FreshLedger(start), ops);
      && (forall r: Resource :: s.charged.Get(r) == TotalCharge(c, FreshLedger(start), ops, r))
      && (forall r: Resource :: s.reserved.Get(r) == if r.IsAttempt() then 0 else PendingSum(s.pending, r))
      && (s.run.Some? ==> s.run.value.report.reserved == s.reserved)
      && (forall r: Resource | !r.IsAttempt() :: s.usage.Get(r).actual + s.usage.Get(r).estimated <= s.charged.Get(r))
      && (s.stop.None? ==> forall r: Resource :: s.charged.Get(r) + s.reserved.Get(r) <= c.limits.resources.Get(r))
      && WithinTime(c, s)
  {
    assert Valid(c, FreshLedger(start)) && WithinTime(c, FreshLedger(start));
    hide Valid, WithinTime, Step, After, TotalCharge;
    RunValid(c, FreshLedger(start), ops);
    AccountsBalance(c, After(c, FreshLedger(start), ops));
    ActiveTimeBounded(c, FreshLedger(start), ops);
    forall r: Resource ensures After(c, FreshLedger(start), ops).charged.Get(r)
        == TotalCharge(c, FreshLedger(start), ops, r) {
      ChargesConserved(c, FreshLedger(start), ops, r);
    }
  }
}
