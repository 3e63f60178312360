/** Bounded admission of model jobs: execution slots, a first-come queue, cancellation and draining
    (crates/llm/runtime/src/scheduling.rs and lib.rs). */
module ModelScheduler {
  import opened BudgetTypes

  // ---------------------------------------------------------------------
  // State.
  // ---------------------------------------------------------------------

  datatype Phase = Queued | Preparing | Executing | Cleaning
  datatype Stop = BudgetStop | CancelStop | QueueTimeout | Timeout | ConsumerDropped | FailedStop
  datatype Lifecycle = Constructed | Running | Stopping | StoppedDown

  type Instant = nat
  const INSTANT_MAX: nat := DURATION_MAX

  datatype Job = Job(
    turn: u64, phase: Phase, cancelled: bool, stop: Option<Stop>, admittedAt: Instant, slotAt: Option<Instant>,
    startedAt: Option<Instant>, closedAt: Option<Instant>, deadline: Instant, budgetDeadline: Option<Instant>)
  {
    predicate HoldsSlot() {
      phase.Preparing? || phase.Executing?
    }
  }

  // Failures kept, and a count of the rest.
  datatype Tally = Tally(kept: nat, omitted: nat) {
    function Total(): nat { kept + omitted }

    // What a turn tells its caller: fewer are kept, the rest is counted.
    function Reported(): Tally {
      if kept <= MAX_REPORTED then this else Tally(MAX_REPORTED, omitted + kept - MAX_REPORTED)
    }
  }

  const MAX_KEPT := 32
  const MAX_REPORTED := 16
  const NO_FAILURES: Failures := Tally(0, 0)

  // A ledger omits failures only when it is full.
  type Failures = f: Tally | f.kept <= MAX_KEPT && (f.omitted > 0 ==> f.kept == MAX_KEPT) witness Tally(0, 0)

  function Record(f: Failures): Failures {
    if f.kept < MAX_KEPT then f.(kept := f.kept + 1) else f.(omitted := f.omitted + 1)
  }

  datatype Turn = Turn(isOpen: bool, jobs: set<u64>, failures: Failures)

  datatype Config = Config(maxConcurrency: nat, maxQueued: nat, maxInflight: nat)

  datatype State = State(
    lifecycle: Lifecycle, nextTurn: u64, nextJob: u64, jobs: map<u64, Job>, queue: seq<u64>, occupied: nat,
    turns: map<u64, Turn>, unacknowledged: map<u64, Failures>)

  datatype Error = RuntimeStopped | Closed | InvalidTimeout | BudgetRefused | InflightFull | QueueFull | IdsExhausted

  datatype Reading = Reading(now: Instant, exhausted: set<u64>)

  // What a step reads: the time and the turns whose budget is stopped, now and at each later look. The clock never runs
  // backwards; past the last reading nothing changes any more.
  datatype Env = Env(now: Instant, exhausted: set<u64>, later: seq<Reading>) {
    function Next(): Env {
      if later == [] then this
      else Env(if later[0].now < now then now else later[0].now, later[0].exhausted, later[1..])
    }

    // The time when all has been read.
    function Last(): Instant
      decreases |later|
    {
      if later == [] then now else Next().Last()
    }
  }

  const NEW := State(Constructed, 0, 0, map[], [], 0, map[], map[])

  // ---------------------------------------------------------------------
  // Steps.
  // ---------------------------------------------------------------------

  function Close(job: Job, now: Instant): Job {
    job.(phase := Cleaning, closedAt := Some(now))
  }

  // Why a waiting job may not take a slot any more.
  function Overdue(job: Job, env: Env): Option<Stop> {
    if job.budgetDeadline.Some? && env.now >= job.budgetDeadline.value then Some(BudgetStop)
    else if job.turn in env.exhausted then Some(BudgetStop)
    else if job.cancelled then Some(CancelStop)
    else if env.now >= job.deadline then Some(QueueTimeout)
    else None
  }

  // Fills free slots from the head of the queue, with a reading for each waiter; also lists the jobs that got one.
  function Dispatch(c: Config, s: State, env: Env): (State, seq<u64>)
    decreases |s.queue|
  {
    if !s.lifecycle.Running? || s.occupied >= c.maxConcurrency || s.queue == [] then (s, [])
    else
      var id, t := s.queue[0], s.(queue := s.queue[1..]);
      if id !in s.jobs then Dispatch(c, t, env)
      else
        var job, stop := s.jobs[id], Overdue(s.jobs[id], env);
        if stop.Some? then Dispatch(c, t.(jobs := s.jobs[id := Close(job.(stop := stop), env.now)]), env.Next())
        else
          var placed := job.(phase := Preparing, slotAt := Some(env.now));
          var (u, more) := Dispatch(c, t.(jobs := s.jobs[id := placed], occupied := s.occupied + 1), env.Next());
          (u, [id] + more)
  }

  function Without(queue: seq<u64>, id: u64): seq<u64> {
    if queue == [] then [] else (if queue[0] == id then [] else [queue[0]]) + Without(queue[1..], id)
  }

  // Gives up a job's slot or place in the queue; the job itself stays accepted.
  function Release(c: Config, s: State, id: u64, reason: Option<Stop>, env: Env): (State, seq<u64>) {
    if id !in s.jobs then (s, [])
    else
      var job := s.jobs[id].(stop := if s.jobs[id].stop.Some? then s.jobs[id].stop else reason);
      if job.phase.Cleaning? then (s.(jobs := s.jobs[id := job]), [])
      else
        var t := s.(jobs := s.jobs[id := Close(job, env.now)]);
        Dispatch(c, if job.phase.Queued? then t.(queue := Without(s.queue, id))
                    else t.(occupied := if s.occupied > 0 then s.occupied - 1 else 0), env.Next())
  }

  datatype AdmitResult = Admitted(id: u64) | NotAdmitted(error: Error)

  // remaining: the turn budget's remaining time; reserved: whether its ledger then accepts the request.
  function Admit(c: Config, s: State, turn: u64, timeout: nat, remaining: Option<nat>, reserved: bool,
                 now: Instant): (State, AdmitResult) {
    if !s.lifecycle.Running? then (s, NotAdmitted(RuntimeStopped))
    else if turn !in s.turns || !s.turns[turn].isOpen then (s, NotAdmitted(Closed))
    else if now + timeout > INSTANT_MAX then (s, NotAdmitted(InvalidTimeout))
    else if remaining.None? then (s, NotAdmitted(BudgetRefused))
    else
      var budgetDeadline := if remaining.value <= timeout then Some(now + remaining.value) else None;
      var deadline := if budgetDeadline.Some? then budgetDeadline.value else now + timeout;
      var dispatched := s.occupied < c.maxConcurrency && s.queue == [];
      if |s.jobs| >= c.maxInflight then (s, NotAdmitted(InflightFull))
      else if !dispatched && |s.queue| >= c.maxQueued then (s, NotAdmitted(QueueFull))
      else if s.nextJob == U64_MAX then (s, NotAdmitted(IdsExhausted))
      else if !reserved then (s.(nextJob := s.nextJob + 1), NotAdmitted(BudgetRefused))
      else
        var id := s.nextJob;
        var job := Job(turn, if dispatched then Preparing else Queued, false, None, now, if dispatched then Some(now)
            else None,
                       None, None, deadline, budgetDeadline);
        (s.(nextJob := id + 1, jobs := s.jobs[id := job],
            occupied := if dispatched then s.occupied + 1 else s.occupied,
            queue := if dispatched then s.queue else s.queue + [id],
            turns := s.turns[turn := s.turns[turn].(jobs := s.turns[turn].jobs + {id})]), Admitted(id))
  }

  // seen: an interruption observed before taking the lock; starts: whether the reservation can still be started.
  function StartProvider(s: State, id: u64, seen: Option<Stop>, starts: bool, now: Instant): (State, Option<Stop>) {
    if seen.Some? then (s, seen)
    else if !s.lifecycle.Running? || id !in s.jobs || s.jobs[id].cancelled then (s, Some(CancelStop))
    else
      var job := s.jobs[id];
      if !job.phase.Preparing? then (s, Some(if job.stop.Some? then job.stop.value else FailedStop))
      else if now >= job.deadline then (s, Some(if job.budgetDeadline.Some? then BudgetStop else Timeout))
      else if !starts then (s, Some(BudgetStop))
      else (s.(jobs := s.jobs[id := job.(phase := Executing, startedAt := Some(now))]), None)
  }

  function RecordFailure(s: State, turn: u64): State {
    var ledger := if turn in s.unacknowledged then s.unacknowledged[turn] else NO_FAILURES;
    s.(unacknowledged := s.unacknowledged[turn := Record(ledger)],
       turns := if turn in s.turns then s.turns[turn := s.turns[turn].(failures := Record(s.turns[turn].failures))]
           else s.turns)
  }

  // The driver of an accepted job ended, normally or by unwinding.
  function Complete(c: Config, s: State, id: u64, failed: bool, env: Env): (State, seq<u64>) {
    if id !in s.jobs then (s, [])
    else
      var turn := s.jobs[id].turn;
      var (t, grants) := Release(c, s, id, None, env);
      var u := if failed then RecordFailure(t, turn) else t;
      (u.(jobs := u.jobs - {id},
          turns := if turn in u.turns then u.turns[turn := u.turns[turn].(jobs := u.turns[turn].jobs - {id})]
              else u.turns), grants)
  }

  function CancelJobs(jobs: map<u64, Job>, ids: set<u64>): map<u64, Job> {
    map id | id in jobs :: if id in ids then jobs[id].(cancelled := true) else jobs[id]
  }

  function BindTurn(s: State): (State, Option<u64>) {
    if !s.lifecycle.Running? || s.nextTurn == U64_MAX then (s, None)
    else (s.(nextTurn := s.nextTurn + 1, turns := s.turns[s.nextTurn := Turn(true, {}, NO_FAILURES)]), Some(s.nextTurn))
  }

  function CloseTurn(s: State, turn: u64, cancel: bool): State {
    if turn !in s.turns then s
    else s.(turns := s.turns[turn := s.turns[turn].(isOpen := false)],
            jobs := if cancel then CancelJobs(s.jobs, s.turns[turn].jobs) else s.jobs)
  }

  // A closed and drained turn takes its failures and acknowledges them to the runtime; when the budget run it owns does
  // not end, that is one failure more, which only the turn reports.
  function FinishTurn(s: State, turn: u64, budgetFails: bool): (State, Option<Tally>) {
    if turn !in s.turns || s.turns[turn].isOpen || s.turns[turn].jobs != {} then (s, None)
    else
      var taken := s.turns[turn].failures;
      (s.(turns := s.turns[turn := s.turns[turn].(failures := NO_FAILURES)],
          unacknowledged := s.unacknowledged - {turn}),
       Some(Tally(taken.kept + (if budgetFails then 1 else 0), taken.omitted).Reported()))
  }

  function BeginStop(s: State): State {
    if s.lifecycle.StoppedDown? then s else s.(lifecycle := Stopping, jobs := CancelJobs(s.jobs, s.jobs.Keys))
  }

  function EndStop(s: State): State {
    if s.lifecycle.Stopping? && s.jobs == map[] then s.(lifecycle := StoppedDown, unacknowledged := map[]) else s
  }

  datatype Op =
    | Start | Bind | OpAdmit(turn: u64, timeout: nat, remaining: Option<nat>, reserved: bool)
    | OpStartProvider(id: u64, seen: Option<Stop>, starts: bool) | OpRelease(id: u64, reason: Option<Stop>)
    | OpComplete(id: u64, failed: bool) | OpClose(turn: u64, cancel: bool) | OpFinish(turn: u64, budgetFails: bool)
    | OpBeginStop | OpEndStop

  // The state after a step, and the jobs that got a slot in it, in order.
  function Step(c: Config, s: State, op: Op, env: Env): (State, seq<u64>) {
    match op
    case Start => (if s.lifecycle.Constructed? then s.(lifecycle := Running) else s, [])
    case Bind => (BindTurn(s).0, [])
    case OpAdmit(turn, timeout, remaining, reserved) =>
      var (t, r) := Admit(c, s, turn, timeout, remaining, reserved, env.now);
      (t, if r.Admitted? && r.id in t.jobs && t.jobs[r.id].HoldsSlot() then [r.id] else [])
    case OpStartProvider(id, seen, starts) => (StartProvider(s, id, seen, starts, env.now).0, [])
    case OpRelease(id, reason) => Release(c, s, id, reason, env)
    case OpComplete(id, failed) => Complete(c, s, id, failed, env)
    case OpClose(turn, cancel) => (CloseTurn(s, turn, cancel), [])
    case OpFinish(turn, budgetFails) => (FinishTurn(s, turn, budgetFails).0, [])
    case OpBeginStop => (BeginStop(s), [])
    case OpEndStop => (EndStop(s), [])
  }

  datatype Input = Input(op: Op, env: Env)

  function Run(c: Config, s: State, inputs: seq<Input>): (State, seq<u64>)
    decreases |inputs|
  {
    if inputs == [] then (s, [])
    else
      var (t, grants) := Step(c, s, inputs[0].op, inputs[0].env);
      var (u, more) := Run(c, t, inputs[1..]);
      (u, grants + more)
  }

  // ---------------------------------------------------------------------
  // The invariant.
  // ---------------------------------------------------------------------

  function Busy(jobs: map<u64, Job>): set<u64> {
    set id | id in jobs && jobs[id].HoldsSlot()
  }

  ghost predicate Ascending(ids: seq<u64>) {
    forall i, j | 0 <= i < j < |ids| :: ids[i] < ids[j]
  }

  ghost predicate QueueOk(s: State) {
    && Ascending(s.queue)
    && (forall id | id in s.queue :: id in s.jobs && s.jobs[id].phase.Queued?)
    && (forall id | id in s.jobs && s.jobs[id].phase.Queued? :: id in s.queue)
  }

  ghost predicate SlotsOk(c: Config, s: State) {
    s.occupied == |Busy(s.jobs)| <= c.maxConcurrency
  }

  ghost predicate BoundsOk(c: Config, s: State) {
    && |s.queue| <= c.maxQueued && |s.jobs| <= c.maxInflight
    && (forall id | id in s.jobs :: id < s.nextJob) && (forall t | t in s.turns :: t < s.nextTurn)
  }

  // No slot stays free while a job waits.
  ghost predicate Working(c: Config, s: State) {
    && (s.lifecycle.Running? && s.queue != [] ==> s.occupied == c.maxConcurrency)
    && (s.lifecycle.Constructed? ==> s.queue == [])
  }

  // Each job belongs to exactly the turn that lists it.
  ghost predicate TurnsOk(s: State) {
    && (forall id | id in s.jobs :: s.jobs[id].turn in s.turns && id in s.turns[s.jobs[id].turn].jobs)
    && (forall t, id | t in s.turns && id in s.turns[t].jobs :: id in s.jobs && s.jobs[id].turn == t)
  }

  // Phases and times agree, and no time lies after now.
  ghost predicate TimesOk(job: Job, now: Instant) {
    && job.admittedAt <= now
    && (job.slotAt.Some? ==> job.admittedAt <= job.slotAt.value <= now)
    && (job.startedAt.Some? ==> job.slotAt.Some? && job.slotAt.value <= job.startedAt.value <= now)
    && (job.closedAt.Some? ==> job.admittedAt <= job.closedAt.value <= now)
    && (job.closedAt.Some? && job.slotAt.Some? ==> job.slotAt.value <= job.closedAt.value)
    && (job.closedAt.Some? && job.startedAt.Some? ==> job.startedAt.value <= job.closedAt.value)
    && (job.phase.Queued? <==> job.slotAt.None? && job.closedAt.None?)
    && (job.phase.Preparing? <==> job.slotAt.Some? && job.startedAt.None? && job.closedAt.None?)
    && (job.phase.Executing? <==> job.startedAt.Some? && job.closedAt.None?)
  }

  ghost predicate ClockOk(s: State, now: Instant) {
    forall id | id in s.jobs :: TimesOk(s.jobs[id], now)
  }

  function Ledger(unacknowledged: map<u64, Failures>, turn: u64): Failures {
    if turn in unacknowledged then unacknowledged[turn] else NO_FAILURES
  }

  // Until it has stopped, the runtime owes exactly the failures its turns have not yet taken.
  ghost predicate FailuresOk(s: State) {
    && (forall t | t in s.unacknowledged :: t in s.turns)
    && (!s.lifecycle.StoppedDown? ==> forall t | t in s.turns :: Ledger(s.unacknowledged, t) == s.turns[t].failures)
    && (s.lifecycle.StoppedDown? ==> s.jobs == map[])
  }

  // Everything but the promise that free slots are filled.
  ghost predicate Sound(c: Config, s: State, now: Instant) {
    QueueOk(s) && SlotsOk(c, s) && BoundsOk(c, s) && TurnsOk(s) && ClockOk(s, now) && FailuresOk(s)
  }

  ghost predicate Inv(c: Config, s: State, now: Instant) {
    Sound(c, s, now) && Working(c, s)
  }

  lemma Parts(c: Config, s: State, now: Instant)
    ensures Inv(c, s, now) <==>
      QueueOk(s) && SlotsOk(c, s) && BoundsOk(c, s) && TurnsOk(s) && ClockOk(s, now) && FailuresOk(s) && Working(c, s)
  {
    hide QueueOk, SlotsOk, BoundsOk, TurnsOk, ClockOk, FailuresOk, Working;
  }

  // ---------------------------------------------------------------------
  // Counting slots.
  // ---------------------------------------------------------------------

  lemma BusySet(jobs: map<u64, Job>, id: u64, job: Job)
    ensures Busy(jobs[id := job]) == if job.HoldsSlot() then Busy(jobs) + {id} else Busy(jobs) - {id}
  {
  }

  lemma BusyAfter(jobs: map<u64, Job>, id: u64, job: Job)
    ensures |Busy(jobs[id := job])| == |Busy(jobs)| + (if job.HoldsSlot() && id !in Busy(jobs) then 1 else 0)
                                      - (if !job.HoldsSlot() && id in Busy(jobs) then 1 else 0)
  {
    BusySet(jobs, id, job);
    hide Busy;
    var busy := Busy(jobs);
    assert id in busy ==> busy + {id} == busy;
    assert id !in busy ==> busy - {id} == busy;
  }

  lemma BusyWithout(jobs: map<u64, Job>, id: u64)
    requires id in jobs ==> !jobs[id].HoldsSlot()
    ensures Busy(jobs - {id}) == Busy(jobs)
  {
  }

  // ---------------------------------------------------------------------
  // Changing one job.
  // ---------------------------------------------------------------------

  // The turns and bounds do not depend on how far a job has got.
  lemma SameJobs(c: Config, s: State, t: State)
    requires BoundsOk(c, s) && TurnsOk(s) && FailuresOk(s) && t.jobs.Keys == s.jobs.Keys && t.nextJob == s.nextJob
    requires t.nextTurn == s.nextTurn
    requires t.turns == s.turns && t.unacknowledged == s.unacknowledged && |t.queue| <= |s.queue|
    requires t.lifecycle == s.lifecycle || (t.lifecycle.Stopping? && !s.lifecycle.StoppedDown?)
    requires forall id | id in s.jobs :: t.jobs[id].turn == s.jobs[id].turn
    ensures BoundsOk(c, t) && TurnsOk(t) && FailuresOk(t)
  {
    assert |t.jobs| == |t.jobs.Keys| && |s.jobs| == |s.jobs.Keys|;
    assert s.jobs == map[] ==> t.jobs.Keys == {};
  }

  function SlotChange(before: Job, after: Job): int {
    (if after.HoldsSlot() then 1 else 0) - (if before.HoldsSlot() then 1 else 0)
  }

  // queue is s.queue, with job id in it exactly when it now waits.
  ghost predicate QueueFollows(s: State, id: u64, job: Job, queue: seq<u64>) {
    && Ascending(queue) && |queue| <= |s.queue|
    && forall x :: x in queue <==> (if x == id then job.phase.Queued? else x in s.queue)
  }

  lemma ChangedQueue(s: State, id: u64, job: Job, queue: seq<u64>)
    requires QueueOk(s) && QueueFollows(s, id, job, queue)
    ensures QueueOk(s.(jobs := s.jobs[id := job], queue := queue))
  {
  }

  lemma ChangedSlots(c: Config, s: State, id: u64, job: Job)
    requires SlotsOk(c, s) && id in s.jobs && s.occupied + SlotChange(s.jobs[id], job) <= c.maxConcurrency
    ensures s.occupied + SlotChange(s.jobs[id], job) == |Busy(s.jobs[id := job])|
  {
    BusyAfter(s.jobs, id, job);
    assert id in Busy(s.jobs) <==> s.jobs[id].HoldsSlot();
  }

  lemma ChangedClock(s: State, id: u64, job: Job, now: Instant)
    requires ClockOk(s, now) && TimesOk(job, now)
    ensures ClockOk(s.(jobs := s.jobs[id := job]), now)
  {
    hide TimesOk;
  }

  /** Moving one job on keeps the state sound when the queue and the slot count follow. */
  lemma ChangeJob(c: Config, s: State, id: u64, job: Job, queue: seq<u64>, occupied: nat, now: Instant)
    requires Sound(c, s, now) && id in s.jobs && job.turn == s.jobs[id].turn && TimesOk(job, now)
    requires QueueFollows(s, id, job, queue)
    requires occupied == s.occupied + SlotChange(s.jobs[id], job) <= c.maxConcurrency
    ensures Sound(c, s.(jobs := s.jobs[id := job], queue := queue, occupied := occupied), now)
  {
    var t := s.(jobs := s.jobs[id := job], queue := queue, occupied := occupied);
    ChangedQueue(s, id, job, queue);
    ChangedSlots(c, s, id, job);
    ChangedClock(s, id, job, now);
    assert t.jobs.Keys == s.jobs.Keys;
    SameJobs(c, s, t);
    assert QueueOk(t) && ClockOk(t, now) && SlotsOk(c, t) by {
      hide TurnsOk, BoundsOk, FailuresOk, TimesOk, QueueFollows;
      assert QueueOk(s.(jobs := s.jobs[id := job], queue := queue)) && ClockOk(s.(jobs := s.jobs[id := job]), now);
    }
  }

  // The least id that has not been given a slot and may still be.
  function Head(s: State): u64 {
    if s.queue == [] then s.nextJob else s.queue[0]
  }

  // The jobs that got a slot come in order, from the head before the step to below the head after it.
  ghost predicate GrantsOk(s: State, t: State, grants: seq<u64>) {
    && Ascending(grants) && Head(s) <= Head(t)
    && (grants != [] ==> Head(s) <= grants[0] && grants[|grants| - 1] < Head(t))
  }

  // What the head of the queue becomes.
  function Moved(job: Job, env: Env): Job {
    var stop := Overdue(job, env);
    if stop.Some? then Close(job.(stop := stop), env.now) else job.(phase := Preparing, slotAt := Some(env.now))
  }

  function HeadMoved(s: State, env: Env): State
    requires s.queue != [] && s.queue[0] in s.jobs
  {
    var after := Moved(s.jobs[s.queue[0]], env);
    s.(queue := s.queue[1..], jobs := s.jobs[s.queue[0] := after],
       occupied := s.occupied + if after.HoldsSlot() then 1 else 0)
  }

  lemma DispatchHead(c: Config, s: State, env: Env)
    requires s.lifecycle.Running? && s.occupied < c.maxConcurrency && s.queue != [] && s.queue[0] in s.jobs
    ensures var (t, more) := Dispatch(c, HeadMoved(s, env), env.Next());
      Dispatch(c, s, env) == (t, if Overdue(s.jobs[s.queue[0]], env).None? then [s.queue[0]] + more else more)
  {
    hide Overdue;
  }

  // The step from s to t keeps the jobs, the invariant and the order of grants.
  ghost predicate Kept(c: Config, s: State, r: (State, seq<u64>), now: Instant) {
    Inv(c, r.0, now) && GrantsOk(s, r.0, r.1) && SameRest(s, r.0)
  }

  // Only jobs, queue and slots differ, and the jobs are the same ones.
  ghost predicate SameRest(s: State, t: State) {
    && t.nextJob == s.nextJob && t.jobs.Keys == s.jobs.Keys && t.turns == s.turns && t.nextTurn == s.nextTurn
    && t.unacknowledged == s.unacknowledged && t.lifecycle == s.lifecycle
  }

  ghost predicate CanDispatch(c: Config, s: State) {
    s.lifecycle.Running? && s.occupied < c.maxConcurrency && s.queue != []
  }

  lemma DispatchNone(c: Config, s: State, env: Env)
    requires Sound(c, s, env.now) && (s.lifecycle.Constructed? ==> s.queue == []) && !CanDispatch(c, s)
    ensures Kept(c, s, Dispatch(c, s, env), env.Last())
  {
    SoundQueue(c, s, env.now);
    hide Sound;
    LastTime(env);
    LaterSound(c, s, env.now, env.Last());
  }

  lemma {:induction false} LastTime(env: Env)
    ensures env.now <= env.Next().now && env.Next().Last() == env.Last() && env.now <= env.Last()
    decreases |env.later|
  {
    if env.later != [] {
      LastTime(env.Next());
    }
  }

  lemma LaterSound(c: Config, s: State, now: Instant, later: Instant)
    requires Sound(c, s, now) && now <= later
    ensures Sound(c, s, later)
  {
    hide QueueOk, SlotsOk, BoundsOk, TurnsOk, FailuresOk;
    assert ClockOk(s, now);
    forall id | id in s.jobs ensures TimesOk(s.jobs[id], later) {
      assert TimesOk(s.jobs[id], now);
    }
  }

  lemma HeadMovedFacts(s: State, env: Env)
    requires s.queue != [] && s.queue[0] in s.jobs
    ensures var u := HeadMoved(s, env);
      u.queue == s.queue[1..] && SameRest(s, u)
  {
    hide Moved;
  }

  lemma KeptBehind(c: Config, s: State, u: State, r: (State, seq<u64>), granted: bool, now: Instant)
    requires s.queue != [] && SameRest(s, u) && s.queue[0] < Head(u) && Kept(c, u, r, now)
    ensures Kept(c, s, (r.0, if granted then [s.queue[0]] + r.1 else r.1), now)
  {
    hide Inv;
  }

  lemma DispatchNext(c: Config, s: State, env: Env)
    requires CanDispatch(c, s) && s.queue[0] in s.jobs && s.queue[0] < Head(HeadMoved(s, env))
    requires Kept(c, HeadMoved(s, env), Dispatch(c, HeadMoved(s, env), env.Next()), env.Last())
    ensures Kept(c, s, Dispatch(c, s, env), env.Last())
  {
    DispatchHead(c, s, env);
    hide *;
    HeadMovedFacts(s, env);
    KeptBehind(c, s, HeadMoved(s, env), Dispatch(c, HeadMoved(s, env), env.Next()),
               Overdue(s.jobs[s.queue[0]], env).None?, env.Last());
  }

  lemma HeadFacts(c: Config, s: State, now: Instant)
    requires Sound(c, s, now) && s.queue != []
    ensures s.queue[0] in s.jobs && s.jobs[s.queue[0]].phase.Queued? && TimesOk(s.jobs[s.queue[0]], now)
    ensures s.queue[0] < s.nextJob
    ensures Ascending(s.queue)
  {
    hide TimesOk, SlotsOk, TurnsOk, FailuresOk;
    assert s.queue[0] in s.queue;
  }

  lemma MovedJob(job: Job, env: Env)
    requires job.phase.Queued? && TimesOk(job, env.now)
    ensures var after := Moved(job, env);
      TimesOk(after, env.now) && after.turn == job.turn && !after.phase.Queued?
          && SlotChange(job, after) == if after.HoldsSlot() then 1 else 0
  {
    hide Overdue;
  }

  lemma MovedQueue(s: State, job: Job)
    requires s.queue != [] && Ascending(s.queue) && !job.phase.Queued? && s.queue[0] < s.nextJob
    ensures QueueFollows(s, s.queue[0], job, s.queue[1..])
    ensures forall u: State | u.queue == s.queue[1..] && u.nextJob == s.nextJob :: s.queue[0] < Head(u)
  {
    assert s.queue == [s.queue[0]] + s.queue[1..];
  }

  lemma HeadMovedSound(c: Config, s: State, env: Env)
    requires Sound(c, s, env.now) && CanDispatch(c, s)
    ensures s.queue[0] in s.jobs
    ensures var u := HeadMoved(s, env);
        Sound(c, u, env.now) && u.lifecycle.Running? && s.queue[0] < Head(u) && |u.queue| < |s.queue|
  {
    HeadFacts(c, s, env.now);
    hide Sound, Ascending, Moved, TimesOk, QueueFollows, Head, SlotChange;
    var job := Moved(s.jobs[s.queue[0]], env);
    MovedJob(s.jobs[s.queue[0]], env);
    MovedQueue(s, job);
    ChangeJob(c, s, s.queue[0], job, s.queue[1..], s.occupied + if job.HoldsSlot() then 1 else 0, env.now);
  }

  lemma {:induction false} DispatchInv(c: Config, s: State, env: Env)
    requires Sound(c, s, env.now) && (s.lifecycle.Constructed? ==> s.queue == [])
    ensures Kept(c, s, Dispatch(c, s, env), env.Last())
    decreases |s.queue|
  {
    hide *;
    if CanDispatch(c, s) {
      HeadMovedSound(c, s, env);
      LastTime(env);
      LaterSound(c, HeadMoved(s, env), env.now, env.Next().now);
      StillRunning(HeadMoved(s, env));
      DispatchInv(c, HeadMoved(s, env), env.Next());
      DispatchNext(c, s, env);
    } else {
      DispatchNone(c, s, env);
    }
  }

  lemma StillRunning(s: State)
    requires s.lifecycle.Running?
    ensures !s.lifecycle.Constructed?
  {
  }

  lemma SoundQueue(c: Config, s: State, now: Instant)
    requires Sound(c, s, now)
    ensures Ascending(s.queue) && (forall x | x in s.queue :: x < s.nextJob && x in s.jobs)
    ensures s.occupied <= c.maxConcurrency
  {
    hide TurnsOk, ClockOk, FailuresOk;
  }

  // ---------------------------------------------------------------------
  // Releasing.
  // ---------------------------------------------------------------------

  lemma {:induction false} WithoutOk(queue: seq<u64>, id: u64)
    requires Ascending(queue)
    ensures Ascending(Without(queue, id)) && |Without(queue, id)| <= |queue|
    ensures forall x :: x in Without(queue, id) <==> x in queue && x != id
  {
    if queue != [] {
      WithoutOk(queue[1..], id);
      var rest := Without(queue[1..], id);
      forall j | 0 <= j < |rest| ensures queue[0] < rest[j] {
        assert rest[j] in rest;
      }
      assert forall x :: x in queue <==> x == queue[0] || x in queue[1..];
    }
  }

  // The state in which a released job has been closed.
  function WithClosed(s: State, id: u64, job: Job, now: Instant): State {
    var t := s.(jobs := s.jobs[id := Close(job, now)]);
    if job.phase.Queued? then t.(queue := Without(s.queue, id))
    else t.(occupied := if s.occupied > 0 then s.occupied - 1 else 0)
  }

  lemma JobFacts(c: Config, s: State, id: u64, now: Instant)
    requires Sound(c, s, now) && id in s.jobs
    ensures TimesOk(s.jobs[id], now) && (id in s.queue <==> s.jobs[id].phase.Queued?)
    ensures (s.jobs[id].HoldsSlot() ==> s.occupied > 0)
  {
    hide BoundsOk, TurnsOk, FailuresOk, TimesOk;
    assert id in Busy(s.jobs) <==> s.jobs[id].HoldsSlot();
  }

  lemma ClosedQueue(s: State, id: u64, job: Job, now: Instant)
    requires id in s.jobs && Ascending(s.queue) && (id in s.queue <==> s.jobs[id].phase.Queued?)
    requires job.phase == s.jobs[id].phase
    ensures var u := WithClosed(s, id, job, now);
      && QueueFollows(s, id, Close(job, now), u.queue) && id !in u.queue && (forall x | x in u.queue :: x in s.queue)
      && u.jobs == s.jobs[id := Close(job, now)] && u == s.(jobs := u.jobs, queue := u.queue, occupied := u.occupied)
      && SameRest(s, u)
  {
    WithoutOk(s.queue, id);
    hide Without;
  }

  lemma ClosedJob(s: State, id: u64, job: Job, now: Instant)
    requires id in s.jobs && TimesOk(s.jobs[id], now) && !s.jobs[id].phase.Cleaning?
    requires job == s.jobs[id].(stop := job.stop)
    requires s.jobs[id].HoldsSlot() ==> s.occupied > 0
    ensures TimesOk(Close(job, now), now) && job.turn == s.jobs[id].turn && job.phase == s.jobs[id].phase
    ensures WithClosed(s, id, job, now).occupied == s.occupied + SlotChange(s.jobs[id], Close(job, now))
  {
    hide Without;
  }

  // A job leaves its slot or its place in the queue.
  lemma CloseSound(c: Config, s: State, id: u64, job: Job, now: Instant)
    requires Sound(c, s, now) && id in s.jobs && !s.jobs[id].phase.Cleaning? && job == s.jobs[id].(stop := job.stop)
    ensures Sound(c, WithClosed(s, id, job, now), now)
  {
    hide *;
    SoundQueue(c, s, now);
    JobFacts(c, s, id, now);
    ClosedJob(s, id, job, now);
    ClosedQueue(s, id, job, now);
    var u := WithClosed(s, id, job, now);
    ClosedFrees(s.jobs[id], job, now);
    ChangeJob(c, s, id, Close(job, now), u.queue, u.occupied, now);
  }

  lemma ClosedFrees(before: Job, job: Job, now: Instant)
    ensures SlotChange(before, Close(job, now)) <= 0 && Close(job, now).turn == job.turn
  {
  }

  lemma StopSound(c: Config, s: State, id: u64, stop: Option<Stop>, now: Instant)
    requires Inv(c, s, now) && id in s.jobs
    ensures Inv(c, s.(jobs := s.jobs[id := s.jobs[id].(stop := stop)]), now)
  {
    SoundQueue(c, s, now);
    JobFacts(c, s, id, now);
    hide Sound, Ascending;
    ChangeJob(c, s, id, s.jobs[id].(stop := stop), s.queue, s.occupied, now);
  }

  function Stopped(job: Job, reason: Option<Stop>): Job {
    job.(stop := if job.stop.Some? then job.stop else reason)
  }

  // What closing a job leaves for the others.
  lemma ClosedFacts(c: Config, s: State, id: u64, job: Job, now: Instant)
    requires Inv(c, s, now) && id in s.jobs && !s.jobs[id].phase.Cleaning? && job == s.jobs[id].(stop := job.stop)
    ensures var u := WithClosed(s, id, job, now);
      && Sound(c, u, now) && (u.lifecycle.Constructed? ==> u.queue == []) && Head(s) <= Head(u) && id !in u.queue
      && SameRest(s, u) && id in u.jobs && u.jobs[id] == Close(job, now)
  {
    InvParts(c, s, now);
    hide *;
    SoundQueue(c, s, now);
    JobFacts(c, s, id, now);
    CloseSound(c, s, id, job, now);
    ClosedQueue(s, id, job, now);
    LaterHead(s, WithClosed(s, id, job, now));
  }

  lemma LaterHead(s: State, u: State)
    requires Ascending(s.queue) && (forall x | x in s.queue :: x < s.nextJob)
    requires (forall x | x in u.queue :: x in s.queue) && u.nextJob == s.nextJob
    ensures Head(s) <= Head(u) && (s.queue == [] ==> u.queue == [])
  {
    assert u.queue != [] ==> u.queue[0] in u.queue;
    assert s.queue != [] ==> s.queue[0] in s.queue;
  }

  lemma InvParts(c: Config, s: State, now: Instant)
    requires Inv(c, s, now)
    ensures Sound(c, s, now) && (s.lifecycle.Constructed? ==> s.queue == [])
  {
    hide Sound;
  }

  lemma KeptFrom(c: Config, s: State, u: State, r: (State, seq<u64>), now: Instant)
    requires Kept(c, u, r, now) && SameRest(s, u) && Head(s) <= Head(u)
    ensures Kept(c, s, r, now)
  {
    hide Inv;
  }

  lemma ReleaseOpen(c: Config, s: State, id: u64, job: Job, env: Env)
    requires Inv(c, s, env.now) && id in s.jobs && !s.jobs[id].phase.Cleaning? && job == s.jobs[id].(stop := job.stop)
    ensures var r := Dispatch(c, WithClosed(s, id, job, env.now), env.Next());
      Kept(c, s, r, env.Last()) && id in r.0.jobs && r.0.jobs[id] == Close(job, env.now)
  {
    hide *;
    var u := WithClosed(s, id, job, env.now);
    ClosedFacts(c, s, id, job, env.now);
    LastTime(env);
    LaterSound(c, u, env.now, env.Next().now);
    DispatchInv(c, u, env.Next());
    DispatchKeeps(c, u, env.Next(), id);
    KeptFrom(c, s, u, Dispatch(c, u, env.Next()), env.Last());
  }

  // Releasing a job that has already been closed only fills in its stop reason.
  lemma ReleaseClosed(c: Config, s: State, id: u64, stop: Option<Stop>, now: Instant)
    requires Inv(c, s, now) && id in s.jobs
    ensures Kept(c, s, (s.(jobs := s.jobs[id := s.jobs[id].(stop := stop)]), []), now)
  {
    StopOnly(s, id, stop);
    hide *;
    StopSound(c, s, id, stop, now);
    KeptWith(c, s, s.(jobs := s.jobs[id := s.jobs[id].(stop := stop)]), now);
  }

  lemma StopOnly(s: State, id: u64, stop: Option<Stop>)
    requires id in s.jobs
    ensures SameRest(s, s.(jobs := s.jobs[id := s.jobs[id].(stop := stop)]))
  {
    assert s.jobs[id := s.jobs[id].(stop := stop)].Keys == s.jobs.Keys;
  }

  lemma KeptWith(c: Config, s: State, t: State, now: Instant)
    requires Inv(c, t, now) && SameRest(s, t) && t.queue == s.queue
    ensures Kept(c, s, (t, []), now)
  {
    hide Inv;
  }

  ghost predicate Cleaned(s: State, t: State, id: u64) {
    id in s.jobs ==> id in t.jobs && t.jobs[id].phase.Cleaning? && t.jobs[id].turn == s.jobs[id].turn
  }

  lemma ReleaseUnfolds(c: Config, s: State, id: u64, reason: Option<Stop>, env: Env)
    ensures id !in s.jobs ==> Release(c, s, id, reason, env) == (s, [])
    ensures id in s.jobs ==>
      var job := Stopped(s.jobs[id], reason);
      Release(c, s, id, reason, env) ==
        if job.phase.Cleaning? then (s.(jobs := s.jobs[id := job]), [])
        else Dispatch(c, WithClosed(s, id, job, env.now), env.Next())
    ensures id in s.jobs ==> Stopped(s.jobs[id], reason) == s.jobs[id].(stop := Stopped(s.jobs[id], reason).stop)
  {
    hide Dispatch, Without;
  }

  lemma ReleaseInv(c: Config, s: State, id: u64, reason: Option<Stop>, env: Env)
    requires Inv(c, s, env.now)
    ensures Kept(c, s, Release(c, s, id, reason, env), env.Last()) && Cleaned(s, Release(c, s, id, reason, env).0, id)
  {
    ReleaseUnfolds(c, s, id, reason, env);
    hide Inv, Kept, Dispatch, Without, Release, Stopped, WithClosed, GrantsOk;
    LastTime(env);
    if id !in s.jobs {
      LaterInv(c, s, env.now, env.Last());
      KeptSelf(c, s, env.Last());
    } else {
      var job := Stopped(s.jobs[id], reason);
      if job.phase.Cleaning? {
        LaterInv(c, s, env.now, env.Last());
        ReleaseClosed(c, s, id, job.stop, env.Last());
      } else {
        ReleaseOpen(c, s, id, job, env);
      }
    }
  }

  lemma KeptSelf(c: Config, s: State, now: Instant)
    requires Inv(c, s, now)
    ensures Kept(c, s, (s, []), now)
  {
    hide Inv;
  }

  // Dispatching touches only jobs in the queue.
  lemma {:induction false} DispatchKeeps(c: Config, s: State, env: Env, id: u64)
    requires id !in s.queue && id in s.jobs
    ensures id in Dispatch(c, s, env).0.jobs && Dispatch(c, s, env).0.jobs[id] == s.jobs[id]
    decreases |s.queue|
  {
    hide Overdue, Close;
    if s.lifecycle.Running? && s.occupied < c.maxConcurrency && s.queue != [] {
      var x, t := s.queue[0], s.(queue := s.queue[1..]);
      if x !in s.jobs {
        DispatchKeeps(c, t, env, id);
      } else if Overdue(s.jobs[x], env).Some? {
        DispatchKeeps(c, t.(jobs := s.jobs[x := Close(s.jobs[x].(stop := Overdue(s.jobs[x], env)), env.now)]),
                      env.Next(), id);
      } else {
        var placed := s.jobs[x].(phase := Preparing, slotAt := Some(env.now));
        DispatchKeeps(c, t.(jobs := s.jobs[x := placed], occupied := s.occupied + 1), env.Next(), id);
      }
    }
  }

  // ---------------------------------------------------------------------
  // Admission, execution and completion.
  // ---------------------------------------------------------------------

  // A new job takes the next id and either a free slot or the last place in the queue.
  function WithNew(s: State, turn: u64, job: Job): State
    requires turn in s.turns && s.nextJob < U64_MAX
  {
    var id := s.nextJob;
    s.(nextJob := id + 1, jobs := s.jobs[id := job],
       occupied := if job.phase.Preparing? then s.occupied + 1 else s.occupied,
       queue := if job.phase.Preparing? then s.queue else s.queue + [id],
       turns := s.turns[turn := s.turns[turn].(jobs := s.turns[turn].jobs + {id})])
  }

  ghost predicate NewJob(c: Config, s: State, turn: u64, job: Job) {
    && turn in s.turns && s.nextJob < U64_MAX && s.lifecycle.Running? && job.turn == turn
    && (job.phase.Preparing? || job.phase.Queued?)
    && |s.jobs| < c.maxInflight
    && (job.phase.Preparing? ==> s.occupied < c.maxConcurrency && s.queue == [])
    && (job.phase.Queued? ==> |s.queue| < c.maxQueued && (s.occupied >= c.maxConcurrency || s.queue != []))
  }

  lemma NewQueue(s: State, turn: u64, job: Job)
    requires QueueOk(s) && turn in s.turns && s.nextJob < U64_MAX && (job.phase.Preparing? || job.phase.Queued?)
    requires forall id | id in s.jobs :: id < s.nextJob
    ensures QueueOk(WithNew(s, turn, job))
  {
    var t := WithNew(s, turn, job);
    assert forall x | x in s.queue :: x in s.jobs;
    forall x ensures x in t.queue <==> x in s.queue || (x == s.nextJob && job.phase.Queued?) {
    }
    forall i, j | 0 <= i < j < |t.queue| ensures t.queue[i] < t.queue[j] {
      assert i < |s.queue| ==> s.queue[i] in s.queue;
    }
  }

  lemma NewBounds(c: Config, s: State, turn: u64, job: Job)
    requires BoundsOk(c, s) && NewJob(c, s, turn, job)
    ensures BoundsOk(c, WithNew(s, turn, job)) && s.nextJob !in s.jobs
  {
    var t := WithNew(s, turn, job);
    assert t.jobs.Keys == s.jobs.Keys + {s.nextJob};
    assert |t.jobs| == |t.jobs.Keys| && |s.jobs| == |s.jobs.Keys|;
  }

  lemma NewTurns(c: Config, s: State, turn: u64, job: Job)
    requires TurnsOk(s) && NewJob(c, s, turn, job) && s.nextJob !in s.jobs
    ensures TurnsOk(WithNew(s, turn, job))
  {
  }

  lemma NewFailures(c: Config, s: State, turn: u64, job: Job)
    requires FailuresOk(s) && NewJob(c, s, turn, job)
    ensures FailuresOk(WithNew(s, turn, job))
  {
    hide Ledger;
  }

  lemma NewSlots(c: Config, s: State, turn: u64, job: Job)
    requires SlotsOk(c, s) && NewJob(c, s, turn, job) && s.nextJob !in s.jobs
    ensures SlotsOk(c, WithNew(s, turn, job))
  {
    BusyAfter(s.jobs, s.nextJob, job);
    assert s.nextJob !in Busy(s.jobs);
  }

  lemma NewJobInv(c: Config, s: State, turn: u64, job: Job, now: Instant)
    requires Inv(c, s, now) && NewJob(c, s, turn, job) && TimesOk(job, now)
    ensures Stepped(c, s, (WithNew(s, turn, job), if job.phase.Preparing? then [s.nextJob] else []), now)
  {
    var t := WithNew(s, turn, job);
    SoundQueue(c, s, now);
    NewBounds(c, s, turn, job);
    NewQueue(s, turn, job);
    NewTurns(c, s, turn, job);
    NewFailures(c, s, turn, job);
    NewSlots(c, s, turn, job);
    ChangedClock(s, s.nextJob, job, now);
    hide QueueOk, BoundsOk, TurnsOk, FailuresOk, TimesOk, SlotsOk;
    assert ClockOk(t, now);
  }

  // The step from s keeps the invariant and the order of grants.
  ghost predicate Stepped(c: Config, s: State, r: (State, seq<u64>), now: Instant) {
    Inv(c, r.0, now) && GrantsOk(s, r.0, r.1)
  }

  lemma SteppedTo(c: Config, s: State, t: State, now: Instant)
    requires Inv(c, t, now) && t.queue == s.queue && s.nextJob <= t.nextJob
    ensures Stepped(c, s, (t, []), now)
  {
    hide Inv;
  }

  lemma IdTaken(c: Config, s: State, now: Instant)
    requires Inv(c, s, now) && s.nextJob < U64_MAX
    ensures Inv(c, s.(nextJob := s.nextJob + 1), now)
  {
    var t := s.(nextJob := s.nextJob + 1);
    Parts(c, s, now);
    Parts(c, t, now);
    hide Inv, QueueOk, SlotsOk, ClockOk, TurnsOk, FailuresOk;
    SameJobsView(s, t, c, now);
    assert TurnsOk(t) && FailuresOk(t) by { IdFree(s); }
  }

  lemma IdFree(s: State)
    requires TurnsOk(s) && FailuresOk(s) && s.nextJob < U64_MAX
    ensures var t := s.(nextJob := s.nextJob + 1); TurnsOk(t) && FailuresOk(t)
  {
    hide Ledger;
  }

  ghost predicate IsNew(c: Config, s: State, turn: u64, t: State, job: Job, now: Instant) {
    NewJob(c, s, turn, job) && TimesOk(job, now) && t == WithNew(s, turn, job)
  }

  lemma Admits(c: Config, s: State, turn: u64, timeout: nat, remaining: Option<nat>, reserved: bool, now: Instant)
    requires |s.jobs| <= c.maxInflight
    ensures var (t, r) := Admit(c, s, turn, timeout, remaining, reserved, now);
      && (r.Admitted? ==> r.id == s.nextJob && s.nextJob in t.jobs && IsNew(c, s, turn, t, t.jobs[s.nextJob], now))
      && (r.NotAdmitted? ==> t == s || (s.nextJob < U64_MAX && t == s.(nextJob := s.nextJob + 1)))
  {
  }

  function Admitting(r: (State, AdmitResult)): (State, seq<u64>) {
    (r.0, if r.1.Admitted? && r.1.id in r.0.jobs && r.0.jobs[r.1.id].HoldsSlot() then [r.1.id] else [])
  }

  lemma AdmitStep(c: Config, s: State, turn: u64, timeout: nat, remaining: Option<nat>, reserved: bool, env: Env)
    ensures Step(c, s, OpAdmit(turn, timeout, remaining, reserved), env)
      == Admitting(Admit(c, s, turn, timeout, remaining, reserved, env.now))
  {
    hide Admit;
  }

  lemma AdmittedInv(c: Config, s: State, turn: u64, r: (State, AdmitResult), now: Instant)
    requires Inv(c, s, now)
    requires r.1.Admitted? ==>
        r.1.id == s.nextJob && s.nextJob in r.0.jobs && IsNew(c, s, turn, r.0, r.0.jobs[s.nextJob], now)
    requires r.1.NotAdmitted? ==> r.0 == s || (s.nextJob < U64_MAX && r.0 == s.(nextJob := s.nextJob + 1))
    ensures Stepped(c, s, Admitting(r), now)
  {
    hide Inv, Stepped, TimesOk, NewJob, WithNew;
    if r.1.Admitted? {
      NewJobInv(c, s, turn, r.0.jobs[s.nextJob], now);
      NewPhase(c, s, turn, r.0.jobs[s.nextJob]);
    } else {
      if r.0 != s {
        IdTaken(c, s, now);
      }
      SteppedTo(c, s, r.0, now);
    }
  }

  lemma NewPhase(c: Config, s: State, turn: u64, job: Job)
    requires NewJob(c, s, turn, job)
    ensures job.HoldsSlot() <==> job.phase.Preparing?
  {
  }

  lemma AdmitInv(c: Config, s: State, turn: u64, timeout: nat, remaining: Option<nat>, reserved: bool, env: Env)
    requires Inv(c, s, env.now)
    ensures Stepped(c, s, Step(c, s, OpAdmit(turn, timeout, remaining, reserved), env), env.now)
  {
    assert |s.jobs| <= c.maxInflight by { hide QueueOk, SlotsOk, TurnsOk, ClockOk, FailuresOk; }
    Admits(c, s, turn, timeout, remaining, reserved, env.now);
    AdmitStep(c, s, turn, timeout, remaining, reserved, env);
    hide *;
    AdmittedInv(c, s, turn, Admit(c, s, turn, timeout, remaining, reserved, env.now), env.now);
  }

  lemma StartedJob(s: State, id: u64, now: Instant)
    requires id in s.jobs && s.jobs[id].phase.Preparing? && TimesOk(s.jobs[id], now)
    requires (id in s.queue <==> s.jobs[id].phase.Queued?)
    requires Ascending(s.queue)
    ensures var job := s.jobs[id].(phase := Executing, startedAt := Some(now));
      TimesOk(job, now) && QueueFollows(s, id, job, s.queue) && SlotChange(s.jobs[id], job) == 0
  {
  }

  lemma StartInv(c: Config, s: State, id: u64, now: Instant)
    requires Inv(c, s, now) && id in s.jobs && s.jobs[id].phase.Preparing?
    ensures Inv(c, s.(jobs := s.jobs[id := s.jobs[id].(phase := Executing, startedAt := Some(now))]), now)
  {
    InvParts(c, s, now);
    hide Sound, QueueFollows, Ascending, TimesOk;
    SoundQueue(c, s, now);
    JobFacts(c, s, id, now);
    StartedJob(s, id, now);
    ChangeJob(c, s, id, s.jobs[id].(phase := Executing, startedAt := Some(now)), s.queue, s.occupied, now);
  }

  lemma StartProviderInv(c: Config, s: State, id: u64, seen: Option<Stop>, starts: bool, now: Instant)
    requires Inv(c, s, now)
    ensures Stepped(c, s, (StartProvider(s, id, seen, starts, now).0, []), now)
  {
    hide Inv, Stepped;
    if StartProvider(s, id, seen, starts, now).1.None? {
      StartInv(c, s, id, now);
    }
    SteppedTo(c, s, StartProvider(s, id, seen, starts, now).0, now);
  }

  lemma CancelSame(jobs: map<u64, Job>, ids: set<u64>, now: Instant)
    ensures var after := CancelJobs(jobs, ids);
      && after.Keys == jobs.Keys && |after| == |jobs| && Busy(after) == Busy(jobs)
      && (forall id | id in jobs :: after[id] == jobs[id].(cancelled := after[id].cancelled))
      && (forall id | id in jobs :: TimesOk(jobs[id], now) ==> TimesOk(after[id], now))
  {
    var after := CancelJobs(jobs, ids);
    assert after.Keys == jobs.Keys && |after| == |after.Keys| && |jobs| == |jobs.Keys|;
  }

  // Cancelling sets a flag on the way; nothing else depends on it.
  lemma CancelInv(c: Config, s: State, ids: set<u64>, lifecycle: Lifecycle, now: Instant)
    requires Inv(c, s, now) && (lifecycle == s.lifecycle || (lifecycle.Stopping? && !s.lifecycle.StoppedDown?))
    ensures Inv(c, s.(jobs := CancelJobs(s.jobs, ids), lifecycle := lifecycle), now)
  {
    var t := s.(jobs := CancelJobs(s.jobs, ids), lifecycle := lifecycle);
    CancelSame(s.jobs, ids, now);
    hide TimesOk, Busy, CancelJobs, Ascending, BoundsOk, TurnsOk, FailuresOk;
    SameJobs(c, s, t);
    SamePhases(s, t, now);
  }

  lemma SamePhases(s: State, t: State, now: Instant)
    requires QueueOk(s) && ClockOk(s, now) && t.jobs.Keys == s.jobs.Keys && t.queue == s.queue
    requires forall id | id in s.jobs ::
        t.jobs[id].phase == s.jobs[id].phase && (TimesOk(s.jobs[id], now) ==> TimesOk(t.jobs[id], now))
    ensures QueueOk(t) && ClockOk(t, now)
  {
    hide TimesOk, Ascending;
  }

  // The runtime's debts other than to this turn are unchanged.
  ghost predicate DebtsOk(s: State, turn: u64, record: Turn, unacknowledged: map<u64, Failures>) {
    && (forall t | t in unacknowledged :: t in s.turns)
    && (!s.lifecycle.StoppedDown? ==> Ledger(unacknowledged, turn) == record.failures)
    && (!s.lifecycle.StoppedDown? ==> forall t | t in s.turns && t != turn ::
        Ledger(unacknowledged, t) == Ledger(s.unacknowledged, t))
  }

  // A turn's own record changes, but not the jobs it owns.
  lemma TurnInv(c: Config, s: State, turn: u64, record: Turn, unacknowledged: map<u64, Failures>, now: Instant)
    requires Inv(c, s, now) && turn in s.turns && record.jobs == s.turns[turn].jobs
    requires DebtsOk(s, turn, record, unacknowledged)
    ensures Inv(c, s.(turns := s.turns[turn := record], unacknowledged := unacknowledged), now)
  {
    hide QueueOk, SlotsOk, ClockOk, TurnsOk, FailuresOk, DebtsOk;
    NewRecord(s, turn, record, unacknowledged);
    SameJobsView(s, s.(turns := s.turns[turn := record], unacknowledged := unacknowledged), c, now);
  }

  lemma NewRecord(s: State, turn: u64, record: Turn, unacknowledged: map<u64, Failures>)
    requires TurnsOk(s) && FailuresOk(s) && turn in s.turns && record.jobs == s.turns[turn].jobs
    requires DebtsOk(s, turn, record, unacknowledged)
    ensures var v := s.(turns := s.turns[turn := record], unacknowledged := unacknowledged); TurnsOk(v) && FailuresOk(v)
  {
    hide Ledger;
  }

  lemma SameJobsView(s: State, v: State, c: Config, now: Instant)
    requires QueueOk(s) && SlotsOk(c, s) && ClockOk(s, now) && v.jobs == s.jobs && v.queue == s.queue
    requires v.occupied == s.occupied
    ensures QueueOk(v) && SlotsOk(c, v) && ClockOk(v, now)
  {
    hide TimesOk, Ascending, Busy;
  }

  lemma CloseInv(c: Config, s: State, turn: u64, cancel: bool, now: Instant)
    requires Inv(c, s, now)
    ensures Stepped(c, s, (CloseTurn(s, turn, cancel), []), now)
  {
    if turn in s.turns {
      assert FailuresOk(s) by { hide QueueOk, SlotsOk, BoundsOk, TurnsOk, ClockOk; }
      hide Inv, Stepped;
      TurnInv(c, s, turn, s.turns[turn].(isOpen := false), s.unacknowledged, now);
      var v := s.(turns := s.turns[turn := s.turns[turn].(isOpen := false)]);
      assert v.(unacknowledged := s.unacknowledged) == v;
      CancelInv(c, v, s.turns[turn].jobs, s.lifecycle, now);
    }
    hide Inv, Stepped;
    SteppedTo(c, s, CloseTurn(s, turn, cancel), now);
  }

  lemma FinishInv(c: Config, s: State, turn: u64, budgetFails: bool, now: Instant)
    requires Inv(c, s, now)
    ensures Stepped(c, s, (FinishTurn(s, turn, budgetFails).0, []), now)
  {
    if FinishTurn(s, turn, budgetFails).1.Some? {
      assert FailuresOk(s) by { hide QueueOk, SlotsOk, BoundsOk, TurnsOk, ClockOk; }
      hide Inv, Stepped;
      TurnInv(c, s, turn, s.turns[turn].(failures := NO_FAILURES), s.unacknowledged - {turn}, now);
    }
    hide Inv, Stepped;
    SteppedTo(c, s, FinishTurn(s, turn, budgetFails).0, now);
  }

  lemma FailureInv(c: Config, s: State, turn: u64, now: Instant)
    requires Inv(c, s, now) && turn in s.turns
    ensures Inv(c, RecordFailure(s, turn), now)
  {
    assert FailuresOk(s) by { hide QueueOk, SlotsOk, BoundsOk, TurnsOk, ClockOk; }
    hide Inv;
    var ledger := Record(Ledger(s.unacknowledged, turn));
    TurnInv(c, s, turn, s.turns[turn].(failures := Record(s.turns[turn].failures)), s.unacknowledged[turn := ledger],
            now);
  }

  // A cleaning job is forgotten.
  function Removed(s: State, id: u64, turn: u64): State {
    s.(jobs := s.jobs - {id},
       turns := if turn in s.turns then s.turns[turn := s.turns[turn].(jobs := s.turns[turn].jobs - {id})] else s.turns)
  }

  lemma RemoveInv(c: Config, s: State, id: u64, now: Instant)
    requires Inv(c, s, now) && id in s.jobs && s.jobs[id].phase.Cleaning?
    ensures Inv(c, Removed(s, id, s.jobs[id].turn), now)
  {
    var t := Removed(s, id, s.jobs[id].turn);
    hide *;
    Parts(c, s, now);
    Parts(c, t, now);
    RemovedTurns(s, id);
    RemovedJob(c, s, id, now);
  }

  lemma RemovedTurns(s: State, id: u64)
    requires TurnsOk(s) && FailuresOk(s) && id in s.jobs
    ensures var t := Removed(s, id, s.jobs[id].turn); TurnsOk(t) && FailuresOk(t)
  {
    hide Ledger;
    assert s.jobs == map[] ==> s.jobs - {id} == map[];
  }

  lemma RemovedJob(c: Config, s: State, id: u64, now: Instant)
    requires QueueOk(s) && ClockOk(s, now) && BoundsOk(c, s) && SlotsOk(c, s) && Working(c, s) && id in s.jobs
    requires s.jobs[id].phase.Cleaning?
    ensures var t := Removed(s, id, s.jobs[id].turn);
      QueueOk(t) && ClockOk(t, now) && BoundsOk(c, t) && SlotsOk(c, t) && Working(c, t)
  {
    BusyWithout(s.jobs, id);
    hide TimesOk, Ascending, Busy;
    var after := s.jobs - {id};
    assert after.Keys == s.jobs.Keys - {id} && |after| == |after.Keys| && |s.jobs| == |s.jobs.Keys|;
  }

  lemma CompleteInv(c: Config, s: State, id: u64, failed: bool, env: Env)
    requires Inv(c, s, env.now)
    ensures Stepped(c, s, Complete(c, s, id, failed, env), env.Last())
  {
    if id in s.jobs {
      var turn := s.jobs[id].turn;
      assert turn in s.turns by { hide QueueOk, SlotsOk, BoundsOk, FailuresOk, ClockOk; }
      ReleaseInv(c, s, id, None, env);
      var (t, grants) := Release(c, s, id, None, env);
      hide Release, Inv, GrantsOk;
      if failed {
        FailureInv(c, t, turn, env.Last());
      }
      var u := if failed then RecordFailure(t, turn) else t;
      RemoveInv(c, u, id, env.Last());
      hide RecordFailure;
      SameQueue(s, t, Removed(u, id, turn), grants);
    } else {
      hide Inv, Stepped;
      LastTime(env);
      LaterInv(c, s, env.now, env.Last());
      SteppedTo(c, s, s, env.Last());
    }
  }

  lemma SameQueue(s: State, t: State, u: State, grants: seq<u64>)
    requires GrantsOk(s, t, grants) && u.queue == t.queue && u.nextJob == t.nextJob
    ensures GrantsOk(s, u, grants)
  {
  }

  // A step that leaves the jobs alone.
  lemma SameJobsInv(c: Config, s: State, t: State, now: Instant)
    requires Inv(c, s, now) && t.jobs == s.jobs && t.queue == s.queue && t.occupied == s.occupied
    requires t.nextJob == s.nextJob
    requires BoundsOk(c, t) && TurnsOk(t) && FailuresOk(t) && Working(c, t)
    ensures Stepped(c, s, (t, []), now)
  {
    Parts(c, s, now);
    Parts(c, t, now);
    hide Inv, BoundsOk, TurnsOk, FailuresOk, Working, QueueOk, SlotsOk, ClockOk;
    SameJobsView(s, t, c, now);
    SteppedTo(c, s, t, now);
  }

  lemma BindRest(c: Config, s: State)
    requires BoundsOk(c, s) && TurnsOk(s) && FailuresOk(s) && Working(c, s)
    ensures var t := BindTurn(s).0; BoundsOk(c, t) && TurnsOk(t) && FailuresOk(t) && Working(c, t)
  {
    assert s.nextTurn !in s.turns;
    var t := BindTurn(s).0;
    assert TurnsOk(t) by { hide FailuresOk; }
    assert FailuresOk(t) by { hide TurnsOk; BindFailures(s); }
    hide TurnsOk, FailuresOk;
  }

  lemma BindFailures(s: State)
    requires FailuresOk(s) && s.nextTurn !in s.turns
    ensures FailuresOk(BindTurn(s).0)
  {
    assert s.nextTurn !in s.unacknowledged;
  }

  lemma BindInv(c: Config, s: State, now: Instant)
    requires Inv(c, s, now)
    ensures Stepped(c, s, (BindTurn(s).0, []), now)
  {
    Parts(c, s, now);
    hide Inv, BoundsOk, TurnsOk, FailuresOk, Working, QueueOk, SlotsOk, ClockOk, Stepped;
    BindRest(c, s);
    SameJobsInv(c, s, BindTurn(s).0, now);
  }

  lemma StopRest(c: Config, s: State)
    requires BoundsOk(c, s) && TurnsOk(s) && FailuresOk(s) && Working(c, s) && (s.jobs == map[] ==> s.queue == [])
    ensures var t := EndStop(s); BoundsOk(c, t) && TurnsOk(t) && FailuresOk(t) && Working(c, t)
  {
    hide Ledger;
  }

  lemma StartRest(c: Config, s: State)
    requires BoundsOk(c, s) && TurnsOk(s) && FailuresOk(s) && Working(c, s) && s.lifecycle.Constructed?
    ensures var t := s.(lifecycle := Running); BoundsOk(c, t) && TurnsOk(t) && FailuresOk(t) && Working(c, t)
  {
    hide Ledger;
  }

  lemma LifecycleInv(c: Config, s: State, op: Op, env: Env)
    requires Inv(c, s, env.now) && (op.Start? || op.OpBeginStop? || op.OpEndStop?)
    ensures Stepped(c, s, Step(c, s, op, env), env.now)
  {
    Parts(c, s, env.now);
    EmptyQueue(s);
    hide Inv, BoundsOk, TurnsOk, FailuresOk, Working, QueueOk, SlotsOk, ClockOk, Stepped, CancelJobs;
    if op.OpBeginStop? {
      if BeginStop(s) != s {
        CancelInv(c, s, s.jobs.Keys, Stopping, env.now);
      }
      SteppedTo(c, s, BeginStop(s), env.now);
    } else if op.OpEndStop? {
      StopRest(c, s);
      SameJobsInv(c, s, EndStop(s), env.now);
    } else {
      if s.lifecycle.Constructed? {
        StartRest(c, s);
      }
      SameJobsInv(c, s, if s.lifecycle.Constructed? then s.(lifecycle := Running) else s, env.now);
    }
  }

  lemma EmptyQueue(s: State)
    requires QueueOk(s)
    ensures s.jobs == map[] ==> s.queue == []
  {
    assert s.queue != [] ==> s.queue[0] in s.queue;
  }

  lemma StepInv(c: Config, s: State, op: Op, env: Env)
    requires Inv(c, s, env.now)
    ensures Stepped(c, s, Step(c, s, op, env), env.Last())
  {
    LastTime(env);
    if op.OpRelease? || op.OpComplete? {
      ClosingInv(c, s, op, env);
    } else {
      QuickInv(c, s, op, env);
      hide *;
      SteppedLater(c, s, Step(c, s, op, env), env.now, env.Last());
    }
  }

  lemma SteppedLater(c: Config, s: State, r: (State, seq<u64>), now: Instant, later: Instant)
    requires Stepped(c, s, r, now) && now <= later
    ensures Stepped(c, s, r, later)
  {
    hide Inv, GrantsOk;
    LaterInv(c, r.0, now, later);
  }

  lemma ClosingInv(c: Config, s: State, op: Op, env: Env)
    requires Inv(c, s, env.now) && (op.OpRelease? || op.OpComplete?)
    ensures Stepped(c, s, Step(c, s, op, env), env.Last())
  {
    hide Inv, Stepped, Release, Complete, Admit, StartProvider, BindTurn, CloseTurn, FinishTurn, BeginStop, EndStop;
    match op
    case OpRelease(id, reason) =>
      ReleaseInv(c, s, id, reason, env);
      KeptStepped(c, s, Release(c, s, id, reason, env), env.Last());
    case OpComplete(id, failed) => CompleteInv(c, s, id, failed, env);
  }

  // The steps that look at the clock once.
  lemma QuickInv(c: Config, s: State, op: Op, env: Env)
    requires Inv(c, s, env.now) && !op.OpRelease? && !op.OpComplete?
    ensures Stepped(c, s, Step(c, s, op, env), env.now)
  {
    hide Inv, Stepped, Release, Complete, Admit, StartProvider, BindTurn, CloseTurn, FinishTurn, BeginStop, EndStop;
    match op
    case Bind => BindInv(c, s, env.now);
    case OpAdmit(turn, timeout, remaining, reserved) => AdmitInv(c, s, turn, timeout, remaining, reserved, env);
    case OpStartProvider(id, seen, starts) => StartProviderInv(c, s, id, seen, starts, env.now);
    case OpClose(turn, cancel) => CloseInv(c, s, turn, cancel, env.now);
    case OpFinish(turn, budgetFails) => FinishInv(c, s, turn, budgetFails, env.now);
    case Start => LifecycleInv(c, s, op, env);
    case OpBeginStop => LifecycleInv(c, s, op, env);
    case OpEndStop => LifecycleInv(c, s, op, env);
  }

  lemma KeptStepped(c: Config, s: State, r: (State, seq<u64>), now: Instant)
    requires Kept(c, s, r, now)
    ensures Stepped(c, s, r, now)
  {
    hide Inv, GrantsOk;
  }

  // ---------------------------------------------------------------------
  // Whole runs.
  // ---------------------------------------------------------------------

  // Time does not run backwards.
  ghost predicate Forward(inputs: seq<Input>, now: Instant) {
    && (forall i | 0 <= i < |inputs| :: now <= inputs[i].env.now)
    && (forall i, j | 0 <= i < j < |inputs| :: inputs[i].env.Last() <= inputs[j].env.now)
  }

  function EndTime(inputs: seq<Input>, now: Instant): Instant {
    if inputs == [] then now else inputs[|inputs| - 1].env.Last()
  }

  lemma LaterInv(c: Config, s: State, now: Instant, later: Instant)
    requires Inv(c, s, now) && now <= later
    ensures Inv(c, s, later)
  {
    hide QueueOk, SlotsOk, BoundsOk, TurnsOk, FailuresOk, Working;
    assert ClockOk(s, now);
    forall id | id in s.jobs ensures TimesOk(s.jobs[id], later) {
      assert TimesOk(s.jobs[id], now);
    }
  }

  lemma GrantsJoin(s: State, t: State, u: State, grants: seq<u64>, more: seq<u64>)
    requires GrantsOk(s, t, grants) && GrantsOk(t, u, more)
    ensures GrantsOk(s, u, grants + more)
  {
    forall i, j | 0 <= i < |grants| && 0 <= j < |more| ensures grants[i] < more[j] {
      assert i < |grants| - 1 ==> grants[i] < grants[|grants| - 1];
      assert 0 < j ==> more[0] < more[j];
    }
    AscendingJoin(grants, more);
    hide Ascending;
  }

  lemma AscendingJoin(grants: seq<u64>, more: seq<u64>)
    requires Ascending(grants) && Ascending(more)
    requires forall i, j | 0 <= i < |grants| && 0 <= j < |more| :: grants[i] < more[j]
    ensures Ascending(grants + more)
  {
  }

  lemma {:induction false} RunInv(c: Config, s: State, inputs: seq<Input>, now: Instant)
    requires Inv(c, s, now) && Forward(inputs, now)
    ensures var (t, grants) := Run(c, s, inputs); Inv(c, t, EndTime(inputs, now)) && GrantsOk(s, t, grants)
    decreases |inputs|
  {
    if inputs != [] {
      hide Step, Inv, GrantsOk;
      var first := inputs[0];
      LaterInv(c, s, now, first.env.now);
      StepInv(c, s, first.op, first.env);
      var (t, grants) := Step(c, s, first.op, first.env);
      assert Inv(c, t, first.env.Last()) && GrantsOk(s, t, grants);
      RunInv(c, t, inputs[1..], first.env.Last());
      GrantsJoin(s, t, Run(c, t, inputs[1..]).0, grants, Run(c, t, inputs[1..]).1);
      assert EndTime(inputs, now) == EndTime(inputs[1..], first.env.Last());
    } else {
      hide Inv;
    }
  }

  /** In every reachable state the occupied slots are exactly the preparing and executing jobs, the queue holds exactly
      the queued ones in admission order, all within their bounds, and no slot is free while a job waits; and over the
      whole run slots were handed out in strictly increasing order of admission. */
  lemma SchedulerSafe(c: Config, inputs: seq<Input>)
    requires Forward(inputs, 0)
    ensures var (s, grants) := Run(c, NEW, inputs);
      && s.occupied == |Busy(s.jobs)| <= c.maxConcurrency && |s.queue| <= c.maxQueued && |s.jobs| <= c.maxInflight
      && Ascending(s.queue) && (forall id :: id in s.queue <==> id in s.jobs && s.jobs[id].phase.Queued?)
      && (s.lifecycle.Running? && s.queue != [] ==> s.occupied == c.maxConcurrency)
      && Ascending(grants)
  {
    assert Inv(c, NEW, 0) by { assert Busy(NEW.jobs) == {}; }
    RunInv(c, NEW, inputs, 0);
    hide Run, TurnsOk, ClockOk, FailuresOk, Busy, Ascending;
  }

  // ---------------------------------------------------------------------
  // Reports, release and failures.
  // ---------------------------------------------------------------------

  function EndOf(job: Job, now: Instant): Instant {
    if job.closedAt.Some? then job.closedAt.value else now
  }

  function QueueTime(job: Job, now: Instant): int {
    (if job.slotAt.Some? then job.slotAt.value else EndOf(job, now)) - job.admittedAt
  }

  function PreparationTime(job: Job, now: Instant): int {
    if job.slotAt.None? then 0
    else (if job.startedAt.Some? then job.startedAt.value else EndOf(job, now)) - job.slotAt.value
  }

  function ExecutionTime(job: Job, now: Instant): int {
    if job.startedAt.None? then 0 else EndOf(job, now) - job.startedAt.value
  }

  function CleanupTime(job: Job, now: Instant): int {
    if job.closedAt.None? then 0 else now - job.closedAt.value
  }

  /** A reachable job's report divides the whole time since its admission: nothing is lost or counted twice. */
  lemma ReportPartitionsTime(c: Config, s: State, id: u64, now: Instant)
    requires Inv(c, s, now) && id in s.jobs
    ensures var job := s.jobs[id];
      && QueueTime(job, now) >= 0 && PreparationTime(job, now) >= 0 && ExecutionTime(job, now) >= 0
      && CleanupTime(job, now) >= 0
      && QueueTime(job, now) + PreparationTime(job, now) + ExecutionTime(job, now) + CleanupTime(job, now)
          == now - job.admittedAt
  {
    JobFacts(c, s, id, now);
    hide Inv;
  }

  lemma ReleaseAgain(c: Config, t: State, id: u64, again: Option<Stop>, later: Env)
    requires id in t.jobs && t.jobs[id].phase.Cleaning?
    ensures Release(c, t, id, again, later) == (t.(jobs := t.jobs[id := Stopped(t.jobs[id], again)]), [])
    ensures Stopped(t.jobs[id], again) == t.jobs[id] ==> Release(c, t, id, again, later) == (t, [])
  {
    ReleaseUnfolds(c, t, id, again, later);
    hide Release;
    assert t.jobs[id := t.jobs[id]] == t.jobs;
  }

  lemma ReleasedReason(c: Config, s: State, id: u64, reason: Option<Stop>, env: Env)
    requires Inv(c, s, env.now) && id in s.jobs && reason.Some? && !s.jobs[id].phase.Cleaning?
    ensures var t := Release(c, s, id, reason, env).0; id in t.jobs && t.jobs[id].stop.Some?
  {
    ReleaseUnfolds(c, s, id, reason, env);
    hide Inv, Release, Kept, Dispatch;
    ReleaseOpen(c, s, id, Stopped(s.jobs[id], reason), env);
  }

  /** Releasing a job a second time frees nothing more: at most its stop reason is filled in. */
  lemma ReleaseIdempotent(c: Config, s: State, id: u64, reason: Option<Stop>, env: Env, again: Option<Stop>, later: Env)
    requires Inv(c, s, env.now) && id in s.jobs
    ensures var t := Release(c, s, id, reason, env).0;
      id in t.jobs && Release(c, t, id, again, later) == (t.(jobs := t.jobs[id := Stopped(t.jobs[id], again)]), [])
    ensures var t := Release(c, s, id, reason, env).0;
      reason.Some? && !s.jobs[id].phase.Cleaning? ==> Release(c, t, id, again, later) == (t, [])
  {
    hide Inv, Release, Kept;
    ReleaseInv(c, s, id, reason, env);
    ReleaseAgain(c, Release(c, s, id, reason, env).0, id, again, later);
    if reason.Some? && !s.jobs[id].phase.Cleaning? {
      ReleasedReason(c, s, id, reason, env);
    }
  }

  /** Until the runtime has stopped, a drained turn takes exactly the failures the runtime still owes for it, and one
      more when its own budget run fails to end; it keeps as many as it may and counts the rest. Finishing again
      finds none. */
  lemma FinishTakesFailures(c: Config, s: State, turn: u64, budgetFails: bool, now: Instant)
    requires Inv(c, s, now) && !s.lifecycle.StoppedDown? && FinishTurn(s, turn, budgetFails).1.Some?
    ensures var (t, taken) := FinishTurn(s, turn, budgetFails);
      && taken.value.Total() == Ledger(s.unacknowledged, turn).Total() + (if budgetFails then 1 else 0)
      && taken.value.kept == (if taken.value.Total() <= MAX_REPORTED then taken.value.Total() else MAX_REPORTED)
      && Ledger(t.unacknowledged, turn) == NO_FAILURES && FinishTurn(t, turn, false) == (t, Some(NO_FAILURES))
  {
    hide QueueOk, SlotsOk, BoundsOk, TurnsOk, ClockOk, Working;
    var t := FinishTurn(s, turn, budgetFails).0;
    assert t.turns[turn := t.turns[turn].(failures := NO_FAILURES)] == t.turns
        && t.unacknowledged - {turn} == t.unacknowledged;
  }

  /** A closed turn is drained exactly when no accepted job of it is left. */
  lemma DrainedIff(c: Config, s: State, turn: u64, now: Instant)
    requires Inv(c, s, now) && turn in s.turns
    ensures s.turns[turn].jobs == {} <==> forall id | id in s.jobs :: s.jobs[id].turn != turn
  {
    Parts(c, s, now);
    hide Inv, QueueOk, SlotsOk, BoundsOk, FailuresOk, ClockOk, Working;
    if s.turns[turn].jobs != {} {
      var id :| id in s.turns[turn].jobs;
      assert id in s.jobs && s.jobs[id].turn == turn;
    }
  }

  // ---------------------------------------------------------------------
  // The runtime control, updated under its lock.
  // ---------------------------------------------------------------------

  class ModelRuntime {
    const config: Config
    var lifecycle: Lifecycle
    var nextTurn: u64
    var nextJob: u64
    var jobs: map<u64, Job>
    var queue: seq<u64>
    var occupied: nat
    var turns: map<u64, Turn>
    var unacknowledged: map<u64, Failures>

    function View(): State
      reads this
    {
      State(lifecycle, nextTurn, nextJob, jobs, queue, occupied, turns, unacknowledged)
    }

    constructor (config: Config)
      ensures View() == NEW && this.config == config
    {
      this.config := config;
      lifecycle, nextTurn, nextJob, jobs, queue, occupied := Constructed, 0, 0, map[], [], 0;
      turns, unacknowledged := map[], map[];
    }

    method StartUp() returns (ok: bool)
      modifies this`lifecycle
      ensures View() == Step(config, old(View()), Start, Env(0, {}, [])).0 && (ok <==> old(lifecycle).Constructed?)
    {
      ok := lifecycle.Constructed?;
      if ok {
        lifecycle := Running;
      }
    }

    method Bind() returns (turn: Option<u64>)
      modifies this`nextTurn, this`turns
      ensures (View(), turn) == BindTurn(old(View()))
    {
      if !lifecycle.Running? || nextTurn == U64_MAX {
        return None;
      }
      turn := Some(nextTurn);
      turns := turns[nextTurn := Turn(true, {}, NO_FAILURES)];
      nextTurn := nextTurn + 1;
    }

    method AdmitJob(turn: u64, timeout: nat, remaining: Option<nat>, reserved: bool,
                    now: Instant) returns (r: AdmitResult)
      modifies this`nextJob, this`jobs, this`occupied, this`queue, this`turns
      ensures (View(), r) == Admit(config, old(View()), turn, timeout, remaining, reserved, now)
    {
      if !lifecycle.Running? {
        return NotAdmitted(RuntimeStopped);
      }
      if turn !in turns || !turns[turn].isOpen {
        return NotAdmitted(Closed);
      }
      if now + timeout > INSTANT_MAX {
        return NotAdmitted(InvalidTimeout);
      }
      if remaining.None? {
        return NotAdmitted(BudgetRefused);
      }
      var budgetDeadline := if remaining.value <= timeout then Some(now + remaining.value) else None;
      var deadline := if budgetDeadline.Some? then budgetDeadline.value else now + timeout;
      if |jobs| >= config.maxInflight {
        return NotAdmitted(InflightFull);
      }
      var dispatched := occupied < config.maxConcurrency && queue == [];
      if !dispatched && |queue| >= config.maxQueued {
        return NotAdmitted(QueueFull);
      }
      var id := nextJob;
      if id == U64_MAX {
        return NotAdmitted(IdsExhausted);
      }
      nextJob := id + 1;
      if !reserved {
        return NotAdmitted(BudgetRefused);
      }
      jobs := jobs[id := Job(turn, if dispatched then Preparing
          else Queued, false, None, now, if dispatched then Some(now) else None,
                             None, None, deadline, budgetDeadline)];
      if dispatched {
        occupied := occupied + 1;
      } else {
        queue := queue + [id];
      }
      turns := turns[turn := turns[turn].(jobs := turns[turn].jobs + {id})];
      return Admitted(id);
    }

    method DispatchWaiters(env: Env) returns (grants: seq<u64>)
      modifies this`jobs, this`queue, this`occupied
      ensures (View(), grants) == Dispatch(config, old(View()), env)
    {
      grants := [];
      var look := env;
      ghost var start := View();
      assert [] + Dispatch(config, start, env).1 == Dispatch(config, start, env).1;
      while lifecycle.Running? && occupied < config.maxConcurrency && queue != []
        invariant var (t, more) := Dispatch(config, View(), look); Dispatch(config, start, env) == (t, grants + more)
        decreases |queue|
      {
        ghost var before, sofar := View(), grants;
        var id := queue[0];
        queue := queue[1..];
        if id in jobs {
          var job := jobs[id];
          var stop := Overdue(job, look);
          if stop.Some? {
            jobs := jobs[id := Close(job.(stop := stop), look.now)];
          } else {
            jobs := jobs[id := job.(phase := Preparing, slotAt := Some(look.now))];
            occupied := occupied + 1;
            grants := grants + [id];
          }
          look := look.Next();
          hide Overdue, Close;
          ghost var more := Dispatch(config, View(), look).1;
          assert sofar + ([id] + more) == (sofar + [id]) + more;
        }
      }
      assert grants + [] == grants;
    }

    method ReleaseExecution(id: u64, reason: Option<Stop>, env: Env) returns (grants: seq<u64>)
      modifies this`jobs, this`queue, this`occupied
      ensures (View(), grants) == Release(config, old(View()), id, reason, env)
    {
      hide Dispatch;
      if id !in jobs {
        return [];
      }
      var job := jobs[id];
      if job.stop.None? {
        job := job.(stop := reason);
      }
      if job.phase.Cleaning? {
        jobs := jobs[id := job];
        return [];
      }
      jobs := jobs[id := Close(job, env.now)];
      if job.phase.Queued? {
        var rest := Retain(queue, id);
        queue := rest;
      } else if occupied > 0 {
        occupied := occupied - 1;
      }
      grants := DispatchWaiters(env.Next());
    }

    static method Retain(ids: seq<u64>, id: u64) returns (rest: seq<u64>)
      ensures rest == Without(ids, id)
    {
      rest := [];
      assert ids[0..] == ids && [] + Without(ids, id) == Without(ids, id);
      for i := 0 to |ids|
        invariant rest + Without(ids[i..], id) == Without(ids, id)
      {
        assert ids[i..][1..] == ids[i + 1..];
        assert rest + ([ids[i]] + Without(ids[i + 1..], id)) == (rest + [ids[i]]) + Without(ids[i + 1..], id);
        assert rest + ([] + Without(ids[i + 1..], id)) == rest + Without(ids[i + 1..], id);
        if ids[i] != id {
          rest := rest + [ids[i]];
        }
      }
      assert rest + [] == rest;
    }

    method StartJob(id: u64, seen: Option<Stop>, starts: bool, now: Instant) returns (stop: Option<Stop>)
      modifies this`jobs
      ensures (View(), stop) == StartProvider(old(View()), id, seen, starts, now)
    {
      if seen.Some? {
        return seen;
      }
      if !lifecycle.Running? || id !in jobs || jobs[id].cancelled {
        return Some(CancelStop);
      }
      var job := jobs[id];
      if !job.phase.Preparing? {
        return Some(if job.stop.Some? then job.stop.value else FailedStop);
      }
      if now >= job.deadline {
        return Some(if job.budgetDeadline.Some? then BudgetStop else Timeout);
      }
      if !starts {
        return Some(BudgetStop);
      }
      jobs := jobs[id := job.(phase := Executing, startedAt := Some(now))];
      return None;
    }

    method CompleteJob(id: u64, failed: bool, env: Env) returns (grants: seq<u64>)
      modifies this`jobs, this`queue, this`occupied, this`turns, this`unacknowledged
      ensures (View(), grants) == Complete(config, old(View()), id, failed, env)
    {
      hide Release;
      if id !in jobs {
        return [];
      }
      var turn := jobs[id].turn;
      grants := ReleaseExecution(id, None, env);
      if failed {
        var ledger := if turn in unacknowledged then unacknowledged[turn] else NO_FAILURES;
        unacknowledged := unacknowledged[turn := Record(ledger)];
        if turn in turns {
          turns := turns[turn := turns[turn].(failures := Record(turns[turn].failures))];
        }
      }
      jobs := jobs - {id};
      if turn in turns {
        turns := turns[turn := turns[turn].(jobs := turns[turn].jobs - {id})];
      }
    }

    // Says whether the turn is drained.
    method BeginFinish(turn: u64, cancel: bool) returns (drained: bool)
      modifies this`turns, this`jobs
      ensures View() == CloseTurn(old(View()), turn, cancel)
      ensures drained <==> turn in turns && turns[turn].jobs == {}
    {
      if turn !in turns {
        return false;
      }
      if cancel {
        jobs := CancelJobs(jobs, turns[turn].jobs);
      }
      turns := turns[turn := turns[turn].(isOpen := false)];
      drained := turns[turn].jobs == {};
    }

    method EndFinish(turn: u64, budgetFails: bool) returns (failures: Option<Tally>)
      modifies this`turns, this`unacknowledged
      ensures (View(), failures) == FinishTurn(old(View()), turn, budgetFails)
    {
      if turn !in turns || turns[turn].isOpen || turns[turn].jobs != {} {
        return None;
      }
      var taken := turns[turn].failures;
      failures := Some(Tally(taken.kept + (if budgetFails then 1 else 0), taken.omitted).Reported());
      turns := turns[turn := turns[turn].(failures := NO_FAILURES)];
      unacknowledged := unacknowledged - {turn};
    }

    // Says whether the runtime is drained.
    method StopAdmission() returns (drained: bool)
      modifies this`lifecycle, this`jobs
      ensures View() == BeginStop(old(View())) && (drained <==> jobs == map[])
    {
      if !lifecycle.StoppedDown? {
        lifecycle := Stopping;
        jobs := CancelJobs(jobs, jobs.Keys);
      }
      drained := jobs == map[];
    }

    method ShutDown()
      modifies this`lifecycle, this`unacknowledged
      ensures View() == EndStop(old(View()))
    {
      if lifecycle.Stopping? && jobs == map[] {
        lifecycle, unacknowledged := StoppedDown, map[];
      }
    }
  }
}
