/** The mailbox that owns one session: a lease, a waiting queue and a cache of the durable log
    (crates/session/runtime/src/coordinator.rs). */
module SessionCoordinator {
  import opened BudgetTypes

  // ---------------------------------------------------------------------
  // Events and the durable log.
  // ---------------------------------------------------------------------

  datatype Kind = Terminal(content: string) | Ordinary(content: string)

  datatype Event = Event(
    eventId: string, sessionId: string, turnId: string, generationId: Option<string>, messageId: Option<string>,
    seqNo: nat, kind: Kind)

  datatype Draft = Draft(eventId: string, generationId: Option<string>, messageId: Option<string>, kind: Kind)

  type Log = seq<Event>

  predicate PhysicalOk(sessionId: string, log: Log) {
    && (forall i | 0 <= i < |log| :: log[i].sessionId == sessionId && log[i].seqNo == i)
    && (forall i, j | 0 <= i < j < |log| :: log[i].eventId != log[j].eventId)
  }

  // What becomes of one durable commit, and of the reload that follows an unknown outcome.
  datatype Fate = Accepts | Refuses | Breaks | Loses(landed: bool, reloadFails: bool)

  datatype CommitResult = Appended | ReplayedExact | NotCommitted | Fatal | Indeterminate

  // The persistence contract: it commits the expected next event, replays an event it already holds, and
  // otherwise leaves the log alone; a lost answer leaves open which of the two happened.
  function Commit(log: Log, e: Event, fate: Fate): (Log, CommitResult) {
    match fate
    case Accepts =>
      if e.seqNo == |log| then (log + [e], Appended)
      else if e.seqNo < |log| && log[e.seqNo] == e then (log, ReplayedExact)
      else (log, Fatal)
    case Refuses => (log, NotCommitted)
    case Breaks => (log, Fatal)
    case Loses(landed, _) => (if landed && e.seqNo == |log| then log + [e] else log, Indeterminate)
  }

  // ---------------------------------------------------------------------
  // The coordinator's state and its answers.
  // ---------------------------------------------------------------------

  datatype ActiveTurn = ActiveTurn(token: u64, turnId: string, startSeq: nat, terminalSeq: Option<nat>)

  datatype State = State(
    sessionId: string, loaded: bool, events: Log, active: Option<ActiveTurn>, nextToken: u64, pending: seq<nat>,
        poisoned: bool)

  datatype Error =
    | Stopped | LoadFailed | InvalidHistory | Poisoned | SequenceExhausted | TurnNotActive | TurnClosed(seqNo: nat)
    | ConflictingId(seqNo: nat) | CommitRefused | CommitFatal | Diverged

  datatype Answer =
    | Granted(ticket: nat, token: u64, turnId: string, history: Log)
    | Refused(ticket: nat, error: Error)
    | Acknowledged(token: u64, event: Event)
    | AppendFailed(error: Error)
    | Settled(turnId: string, events: Log)
    | SettleFailed(error: Error)

  // What the surroundings do during one command: shutdown beginning before or after the load, callers that
  // went away before or while being answered, loads that fail, and the next generated turn id.
  datatype Env = Env(
    stopping: bool, stoppedLater: bool, handleGone: bool, gone: set<nat>, lost: set<nat>, loadFails: set<nat>,
        turnId: string)

  datatype Command =
    | Begin | Append(token: u64, turnId: string, draft: Draft, fate: Fate) | Settle(token: u64, turnId: string)
    | Abandon(token: u64) | Shutdown

  function NewState(sessionId: string): State {
    State(sessionId, false, [], None, 1, [], false)
  }

  // Also says whether the ticket now holds the lease.
  function Admit(s: State, log: Log, ticket: nat, env: Env): (State, seq<Answer>, bool) {
    if ticket in env.gone then (s, [], false)
    else if env.stopping then (s, [Refused(ticket, Stopped)], false)
    else if s.poisoned then (s, [Refused(ticket, Poisoned)], false)
    else if !s.loaded && ticket in env.loadFails then (s, [Refused(ticket, LoadFailed)], false)
    else if !s.loaded && !PhysicalOk(s.sessionId, log) then (s, [Refused(ticket, InvalidHistory)], false)
    else
      var t := if s.loaded then s else s.(loaded := true, events := log);
      if env.stoppedLater || env.handleGone then (t, [Refused(ticket, Stopped)], false)
      else if t.nextToken == U64_MAX then (t, [Refused(ticket, SequenceExhausted)], false)
      else
        var u := t.(nextToken := t.nextToken + 1);
        if ticket in env.lost then (u.(active := None), [], false)
        else (u.(active := Some(ActiveTurn(t.nextToken, env.turnId, |t.events|, None))),
              [Granted(ticket, t.nextToken, env.turnId, t.events)], true)
  }

  function Rejections(pending: seq<nat>): seq<Answer> {
    if pending == [] then [] else [Refused(pending[0], Stopped)] + Rejections(pending[1..])
  }

  // Hands the lease to the first waiting caller that can take it.
  function GrantWaiting(s: State, log: Log, env: Env): (State, seq<Answer>)
    decreases |s.pending|
  {
    if s.active.Some? || s.pending == [] then (s, [])
    else
      var t := s.(pending := s.pending[1..]);
      if s.pending[0] in env.gone then GrantWaiting(t, log, env)
      else
        var (u, answers, granted) := Admit(t, log, s.pending[0], env);
        if granted then (u, answers)
        else
          assert |u.pending| < |s.pending|;
          var (v, more) := GrantWaiting(u, log, env);
          (v, answers + more)
  }

  function GrantPending(s: State, log: Log, env: Env): (State, seq<Answer>) {
    if env.stopping then (s.(pending := []), Rejections(s.pending)) else GrantWaiting(s, log, env)
  }

  function FindEvent(events: Log, eventId: string): (i: Option<nat>)
    ensures i.Some? ==> i.value < |events| && events[i.value].eventId == eventId
    ensures i.None? ==> forall j | 0 <= j < |events| :: events[j].eventId != eventId
  {
    if events == [] then None
    else if events[0].eventId == eventId then Some(0)
    else
      var i := FindEvent(events[1..], eventId);
      if i.None? then None else Some(i.value + 1)
  }

  predicate SameContent(e: Event, turnId: string, d: Draft) {
    e.turnId == turnId && e.generationId == d.generationId && e.messageId == d.messageId && e.kind == d.kind
  }

  function Canonical(s: State, turnId: string, d: Draft): Event {
    Event(d.eventId, s.sessionId, turnId, d.generationId, d.messageId, |s.events|, d.kind)
  }

  function MarkTerminal(s: State, e: Event): State {
    if e.kind.Terminal? && s.active.Some? && s.active.value.turnId == e.turnId
    then s.(active := Some(s.active.value.(terminalSeq := Some(e.seqNo)))) else s
  }

  function Cached(s: State, e: Event): State {
    MarkTerminal(s.(events := s.events + [e]), e)
  }

  // An unknown outcome is settled by what the log really holds.
  function Reconcile(s: State, log: Log, e: Event, reloadFails: bool): (State, Option<Error>) {
    if reloadFails then (s.(poisoned := true), Some(LoadFailed))
    else if !PhysicalOk(s.sessionId, log) then (s.(poisoned := true), Some(InvalidHistory))
    else if log == s.events then (s, Some(CommitRefused))
    else if log == s.events + [e] then (MarkTerminal(s.(events := log), e), None)
    else (s.(poisoned := true), Some(Diverged))
  }

  predicate Holds(s: State, token: u64, turnId: string) {
    s.active.Some? && s.active.value.token == token && s.active.value.turnId == turnId
  }

  function AppendTo(s: State, log: Log, token: u64, turnId: string, d: Draft, fate: Fate): (State, Log, Answer) {
    if !Holds(s, token, turnId) then (s, log, AppendFailed(TurnNotActive))
    else if s.poisoned then (s, log, AppendFailed(Poisoned))
    else
      var i := FindEvent(s.events, d.eventId);
      if i.Some? then
        var e := s.events[i.value];
        (s, log, if SameContent(e, turnId, d) then Acknowledged(token, e) else AppendFailed(ConflictingId(e.seqNo)))
      else if s.active.value.terminalSeq.Some? then (s, log, AppendFailed(TurnClosed(s.active.value.terminalSeq.value)))
      else
        var e := Canonical(s, turnId, d);
        var (log', r) := Commit(log, e, fate);
        match r
        case Appended => (Cached(s, e), log', Acknowledged(token, e))
        case ReplayedExact => (Cached(s, e), log', Acknowledged(token, e))
        case NotCommitted => (s, log', AppendFailed(CommitRefused))
        case Fatal => (s.(poisoned := true), log', AppendFailed(CommitFatal))
        case Indeterminate =>
          var (t, error) := Reconcile(s, log', e, fate.Loses? && fate.reloadFails);
          (t, log', if error.None? then Acknowledged(token, e) else AppendFailed(error.value))
  }

  function From(events: Log, start: nat): Log {
    if start <= |events| then events[start..] else []
  }

  function SettleTurn(s: State, token: u64, turnId: string): (State, Answer) {
    if !Holds(s, token, turnId) then (s, SettleFailed(TurnNotActive))
    else if s.poisoned then (s.(active := None), SettleFailed(Poisoned))
    else (s.(active := None), Settled(s.active.value.turnId, From(s.events, s.active.value.startSeq)))
  }

  // One command; a Begin waits under the given ticket.
  function Step(s: State, log: Log, command: Command, ticket: nat, env: Env): (State, Log, seq<Answer>) {
    match command
    case Begin =>
      if env.stopping then (s, log, [Refused(ticket, Stopped)])
      else if ticket in env.gone then (s, log, [])
      else if s.active.Some? then (s.(pending := s.pending + [ticket]), log, [])
      else
        var (t, answers, _) := Admit(s, log, ticket, env);
        (t, log, answers)
    case Append(token, turnId, draft, fate) =>
      var (t, log', answer) := AppendTo(s, log, token, turnId, draft, fate);
      (t, log', [answer])
    case Settle(token, turnId) =>
      var (t, answer) := SettleTurn(s, token, turnId);
      var (u, answers) := GrantPending(t, log, env);
      (u, log, [answer] + answers)
    case Abandon(token) =>
      if s.active.Some? && s.active.value.token == token then
        var (u, answers) := GrantPending(s.(active := None), log, env);
        (u, log, answers)
      else (s, log, [])
    case Shutdown => (s.(pending := []), log, Rejections(s.pending))
  }

  // Whole runs: command i of a run waits under ticket first + i.
  datatype Input = Input(command: Command, env: Env)

  function Run(s: State, log: Log, inputs: seq<Input>, first: nat): (State, Log, seq<Answer>)
    decreases |inputs|
  {
    if inputs == [] then (s, log, [])
    else
      var (t, log', answers) := Step(s, log, inputs[0].command, first, inputs[0].env);
      var (u, log'', more) := Run(t, log', inputs[1..], first + 1);
      (u, log'', answers + more)
  }

  // ---------------------------------------------------------------------
  // The invariant.
  // ---------------------------------------------------------------------

  // The log from start on is exactly turnId's, and only its last event may be terminal.
  ghost predicate TurnWindow(log: Log, start: nat, turnId: string) {
    && start <= |log|
    && (forall i | 0 <= i < |log| :: log[i].turnId == turnId <==> start <= i)
    && (forall i | start <= i < |log| - 1 :: log[i].kind.Ordinary?)
  }

  ghost predicate ActiveOk(s: State) {
    s.active.Some? ==>
      var a := s.active.value;
      && s.loaded && a.token < s.nextToken && TurnWindow(s.events, a.startSeq, a.turnId)
      && (a.terminalSeq.None? ==> forall i | a.startSeq <= i < |s.events| :: s.events[i].kind.Ordinary?)
      && (a.terminalSeq.Some? ==>
          a.terminalSeq.value == |s.events| - 1 >= a.startSeq && s.events[|s.events| - 1].kind.Terminal?)
  }

  ghost predicate CacheOk(s: State, log: Log) {
    && (s.loaded ==> PhysicalOk(s.sessionId, s.events) && s.events <= log)
    && (s.loaded && !s.poisoned ==> s.events == log)
    && (!s.loaded ==> s.events == [] && !s.poisoned)
  }

  // known holds every turn id used so far.
  ghost predicate KnownOk(s: State, log: Log, known: set<string>) {
    && (forall i | 0 <= i < |log| :: log[i].turnId in known)
    && (s.active.Some? ==> s.active.value.turnId in known)
  }

  // Nobody waits for a lease that is free, and callers wait in the order they came.
  ghost predicate QueueOk(s: State, first: nat) {
    && (s.active.None? ==> s.pending == [])
    && (forall i | 0 <= i < |s.pending| :: s.pending[i] < first)
    && (forall i, j | 0 <= i < j < |s.pending| :: s.pending[i] < s.pending[j])
  }

  ghost predicate Inv(s: State, log: Log, known: set<string>, first: nat) {
    CacheOk(s, log) && ActiveOk(s) && KnownOk(s, log, known) && QueueOk(s, first)
  }

  // ---------------------------------------------------------------------
  // Granting the lease.
  // ---------------------------------------------------------------------

  // At most the last answer is a grant; it hands out the next token over the whole durable log.
  ghost predicate GrantsOk(s: State, t: State, log: Log, answers: seq<Answer>) {
    && s.nextToken <= t.nextToken
    && (forall i | 0 <= i < |answers| ::
          && (answers[i].Granted? ==>
                && i == |answers| - 1 && t.active.Some? && t.active.value.token == answers[i].token
                && t.active.value.turnId == answers[i].turnId
                && s.nextToken <= answers[i].token < t.nextToken && answers[i].history == log)
          && !answers[i].Acknowledged? && !answers[i].Settled?)
  }

  lemma AdmitInv(s: State, log: Log, ticket: nat, env: Env, known: set<string>)
    requires CacheOk(s, log) && s.active.None? && KnownOk(s, log, known) && env.turnId !in known
    ensures var (t, answers, granted) := Admit(s, log, ticket, env);
      && CacheOk(t, log) && ActiveOk(t) && KnownOk(t, log, known + {env.turnId}) && t.pending == s.pending
      && t.sessionId == s.sessionId
      && (granted <==> t.active.Some?) && GrantsOk(s, t, log, answers)
      && (granted <==> |answers| > 0 && answers[|answers| - 1].Granted?)
      && (forall i | 0 <= i < |answers| && answers[i].Granted? :: answers[i].ticket == ticket)
  {
  }

  // The queue with the first caller taken off.
  lemma TakeFirst(s: State, first: nat)
    requires s.pending != [] && QueueOk(s.(active := Some(ActiveTurn(0, "", 0, None))), first)
    ensures QueueOk(s.(pending := s.pending[1..], active := Some(ActiveTurn(0, "", 0, None))), first)
    ensures forall x | x in s.pending[1..] :: s.pending[0] < x
  {
  }

  // A granted caller was waiting, and before all who still wait.
  ghost predicate GrantedFirst(waiting: seq<nat>, left: seq<nat>, answers: seq<Answer>) {
    forall i | 0 <= i < |answers| && answers[i].Granted? ::
      answers[i].ticket in waiting && forall x | x in left :: answers[i].ticket < x
  }

  lemma GrantsJoin(s: State, t: State, u: State, log: Log, answers: seq<Answer>, more: seq<Answer>)
    requires GrantsOk(s, t, log, answers) && (forall i | 0 <= i < |answers| :: !answers[i].Granted?)
    requires GrantsOk(t, u, log, more)
    ensures GrantsOk(s, u, log, answers + more)
    ensures forall p, q | GrantedFirst(p, q, more) :: GrantedFirst(p, q, answers + more)
  {
  }

  lemma {:induction false} GrantWaitingInv(s: State, log: Log, env: Env, known: set<string>, first: nat)
    requires CacheOk(s, log) && KnownOk(s, log, known) && env.turnId !in known && s.active.None?
    requires QueueOk(s.(active := Some(ActiveTurn(0, "", 0, None))), first)
    ensures var (t, answers) := GrantWaiting(s, log, env);
      && Inv(t, log, known + {env.turnId}, first) && t.sessionId == s.sessionId && GrantsOk(s, t, log, answers)
      && (forall x | x in t.pending :: x in s.pending) && GrantedFirst(s.pending, t.pending, answers)
    decreases |s.pending|
  {
    if s.pending != [] {
      var t := s.(pending := s.pending[1..]);
      TakeFirst(s, first);
      hide PhysicalOk, TurnWindow, CacheOk, ActiveOk, Admit;
      if s.pending[0] in env.gone {
        GrantWaitingInv(t, log, env, known, first);
      } else {
        AdmitInv(t, log, s.pending[0], env, known);
        var (u, answers, granted) := Admit(t, log, s.pending[0], env);
        if !granted {
          assert KnownOk(u, log, known);
          GrantWaitingInv(u, log, env, known, first);
          var (v, more) := GrantWaiting(u, log, env);
          hide GrantsOk, GrantedFirst, KnownOk, QueueOk;
          GrantsJoin(t, u, v, log, answers, more);
        } else {
          hide KnownOk;
        }
      }
    }
  }

  lemma {:induction false} RejectionsOnly(pending: seq<nat>)
    ensures forall i | 0 <= i < |Rejections(pending)| :: Rejections(pending)[i].Refused?
  {
    if pending != [] {
      RejectionsOnly(pending[1..]);
    }
  }

  // The ticket of a grant was waiting, before everyone who still waits.
  ghost predicate InOrder(s: State, t: State, answers: seq<Answer>, first: nat) {
    && (forall x | x in t.pending :: x in s.pending || x == first)
    && (forall i | 0 <= i < |answers| && answers[i].Granted? ::
          (answers[i].ticket in s.pending || answers[i].ticket == first) && forall x | x in t.pending ::
              answers[i].ticket < x)
  }

  lemma GrantPendingInv(s: State, log: Log, env: Env, known: set<string>, first: nat)
    requires CacheOk(s, log) && KnownOk(s, log, known) && env.turnId !in known && ActiveOk(s)
    requires QueueOk(s.(active := Some(ActiveTurn(0, "", 0, None))), first)
    ensures var (t, answers) := GrantPending(s, log, env);
      Inv(t, log, known + {env.turnId}, first) && t.sessionId == s.sessionId && GrantsOk(s, t, log, answers)
      && InOrder(s, t, answers, first)
  {
    hide PhysicalOk, TurnWindow;
    if env.stopping {
      RejectionsOnly(s.pending);
    } else if s.active.None? {
      GrantWaitingInv(s, log, env, known, first);
      hide GrantWaiting;
    }
  }

  // ---------------------------------------------------------------------
  // Appending.
  // ---------------------------------------------------------------------

  lemma CachedOk(s: State, log: Log, e: Event)
    requires CacheOk(s, log) && ActiveOk(s) && s.active.Some? && !s.poisoned && s.active.value.terminalSeq.None?
    requires e.seqNo == |log| && e.sessionId == s.sessionId && e.turnId == s.active.value.turnId
    requires forall i | 0 <= i < |s.events| :: s.events[i].eventId != e.eventId
    ensures CacheOk(Cached(s, e), log + [e]) && ActiveOk(Cached(s, e))
  {
  }

  lemma PoisonedOk(s: State, log: Log, grown: Log)
    requires CacheOk(s, log) && ActiveOk(s) && s.loaded && log <= grown
    ensures CacheOk(s.(poisoned := true), grown) && ActiveOk(s.(poisoned := true))
  {
  }

  // What an append may do to the log, and what its answer says about it.
  ghost predicate AppendOk(s: State, log: Log, token: u64, turnId: string, d: Draft, t: State, log': Log,
                           answer: Answer) {
    && (log' == log || (Holds(s, token, turnId) && log' == log + [Canonical(s, turnId, d)]))
    && (answer.Acknowledged? ==>
          && Holds(s, token, turnId) && answer.token == token && answer.event.seqNo < |log'|
          && log'[answer.event.seqNo] == answer.event
          && answer.event.eventId == d.eventId && SameContent(answer.event, turnId, d))
    && (answer.AppendFailed? && !t.poisoned ==> log' == log && t == s)
    && (answer.Acknowledged? || answer.AppendFailed?)
    && t.nextToken == s.nextToken && t.pending == s.pending && t.sessionId == s.sessionId
    && (t.active.Some? <==> s.active.Some?)
    && (s.active.Some? ==> t.active.value.(terminalSeq := None) == s.active.value.(terminalSeq := None))
  }

  lemma ReconcileOk(s: State, log: Log, e: Event, landed: bool, reloadFails: bool)
    requires CacheOk(s, log) && ActiveOk(s) && s.active.Some? && !s.poisoned && s.active.value.terminalSeq.None?
    requires e.seqNo == |log| && e.sessionId == s.sessionId && e.turnId == s.active.value.turnId
    requires forall i | 0 <= i < |s.events| :: s.events[i].eventId != e.eventId
    ensures var log' := if landed then log + [e] else log;
      var (t, error) := Reconcile(s, log', e, reloadFails);
      && CacheOk(t, log') && ActiveOk(t)
      && t == (if reloadFails then s.(poisoned := true) else if landed then Cached(s, e) else s)
      && (error.None? <==> landed && !reloadFails)
  {
    CachedOk(s, log, e);
    PoisonedOk(s, log, if landed then log + [e] else log);
    hide ActiveOk, TurnWindow;
    assert log + [e] != log;
  }

  // A new event for an open turn: an unknown outcome ends like a known one, or poisons the session.
  ghost predicate CommitOutcome(s: State, log: Log, e: Event, fate: Fate, token: u64, t: State, log': Log,
                                answer: Answer) {
    match fate
    case Accepts => (t, log', answer) == (Cached(s, e), log + [e], Acknowledged(token, e))
    case Refuses => (t, log') == (s, log) && answer.AppendFailed?
    case Breaks => (t, log') == (s.(poisoned := true), log) && answer.AppendFailed?
    case Loses(landed, reloadFails) =>
      && log' == (if landed then log + [e] else log)
      && t == (if reloadFails then s.(poisoned := true) else if landed then Cached(s, e) else s)
      && (if landed && !reloadFails then answer == Acknowledged(token, e) else answer.AppendFailed?)
  }

  lemma NewEvent(s: State, log: Log, token: u64, turnId: string, d: Draft, fate: Fate)
    requires CacheOk(s, log) && ActiveOk(s) && Holds(s, token, turnId) && !s.poisoned
    requires s.active.value.terminalSeq.None?
    requires FindEvent(s.events, d.eventId).None?
    ensures var (t, log', answer) := AppendTo(s, log, token, turnId, d, fate);
      CommitOutcome(s, log, Canonical(s, turnId, d), fate, token, t, log', answer)
  {
    assert CachedFacts(s, log);
    if fate.Loses? {
      ReconcileOk(s, log, Canonical(s, turnId, d), fate.landed, fate.reloadFails);
    }
    hide CacheOk, ActiveOk, FindEvent, Reconcile, Cached;
  }

  lemma CommitInv(s: State, log: Log, token: u64, turnId: string, d: Draft, fate: Fate)
    requires CacheOk(s, log) && ActiveOk(s) && Holds(s, token, turnId) && !s.poisoned
    requires s.active.value.terminalSeq.None?
    requires FindEvent(s.events, d.eventId).None?
    ensures var (t, log', answer) := AppendTo(s, log, token, turnId, d, fate);
      CacheOk(t, log') && ActiveOk(t) && AppendOk(s, log, token, turnId, d, t, log', answer)
  {
    assert CachedFacts(s, log);
    NewEvent(s, log, token, turnId, d, fate);
    var e := Canonical(s, turnId, d);
    CachedOk(s, log, e);
    PoisonedOk(s, log, log);
    PoisonedOk(s, log, log + [e]);
    hide CacheOk, ActiveOk, FindEvent, AppendTo;
  }

  lemma AppendInv(s: State, log: Log, token: u64, turnId: string, d: Draft, fate: Fate)
    requires CacheOk(s, log) && ActiveOk(s)
    ensures var (t, log', answer) := AppendTo(s, log, token, turnId, d, fate);
      CacheOk(t, log') && ActiveOk(t) && AppendOk(s, log, token, turnId, d, t, log', answer)
  {
    if Holds(s, token, turnId) && !s.poisoned && s.active.value.terminalSeq.None?
        && FindEvent(s.events, d.eventId).None? {
      CommitInv(s, log, token, turnId, d, fate);
    } else {
      assert Holds(s, token, turnId) && !s.poisoned ==> CachedFacts(s, log);
      hide CacheOk, ActiveOk, FindEvent, Commit;
    }
  }

  ghost predicate CachedFacts(s: State, log: Log) {
    s.loaded && s.events == log && forall i | 0 <= i < |s.events| :: s.events[i].seqNo == i
  }

  // ---------------------------------------------------------------------
  // Every command keeps the invariant.
  // ---------------------------------------------------------------------

  // What the answers to one command promise.
  ghost predicate AnswersOk(s: State, t: State, log: Log, log': Log, answers: seq<Answer>) {
    && log <= log' && s.nextToken <= t.nextToken
    && (forall i | 0 <= i < |answers| && answers[i].Acknowledged? :: DurableEvent(log', answers[i].event))
    && (forall i | 0 <= i < |answers| && answers[i].Settled? :: WholeTurn(log', answers[i].turnId, answers[i].events))
    && (forall i | 0 <= i < |answers| && answers[i].Granted? ::
          i == |answers| - 1 && s.nextToken <= answers[i].token < t.nextToken && answers[i].history == log')
  }

  ghost predicate DurableEvent(log: Log, e: Event) {
    e.seqNo < |log| && log[e.seqNo] == e
  }

  // The events of the turn, all of them, in one piece at the end of the log; at most the last is terminal.
  ghost predicate WholeTurn(log: Log, turnId: string, events: Log) {
    && |events| <= |log| && events == log[|log| - |events|..] && TurnWindow(log, |log| - |events|, turnId)
  }

  lemma SettleOk(s: State, log: Log, token: u64, turnId: string)
    requires CacheOk(s, log) && ActiveOk(s)
    ensures var (t, answer) := SettleTurn(s, token, turnId);
      && CacheOk(t, log) && ActiveOk(t) && !answer.Granted? && !answer.Acknowledged?
      && (answer.Settled? ==>
          WholeTurn(log, answer.turnId, answer.events) && Holds(s, token, turnId) && answer.turnId == turnId)
      && t == (if Holds(s, token, turnId) then s.(active := None) else s)
  {
    hide PhysicalOk;
    if s.active.Some? {
      assert s.events[s.active.value.startSeq..] == s.events[|s.events| - (|s.events| - s.active.value.startSeq)..];
    }
  }

  ghost predicate StepOk(s: State, t: State, log: Log, log': Log, answers: seq<Answer>, known: set<string>,
                         first: nat) {
    Inv(t, log', known, first + 1) && t.sessionId == s.sessionId && AnswersOk(s, t, log, log', answers)
    && InOrder(s, t, answers, first)
  }

  lemma BeginInv(s: State, log: Log, first: nat, env: Env, known: set<string>)
    requires Inv(s, log, known, first) && env.turnId !in known
    ensures var (t, log', answers) := Step(s, log, Begin, first, env);
        StepOk(s, t, log, log', answers, known + {env.turnId}, first)
  {
    hide PhysicalOk, TurnWindow, Admit, CacheOk, ActiveOk;
    if s.active.None? {
      AdmitInv(s, log, first, env, known);
    } else {
      NewQueue(s, log, s.pending + [first]);
    }
  }

  lemma AppendStepInv(s: State, log: Log, token: u64, turnId: string, draft: Draft, fate: Fate, first: nat, env: Env,
                      known: set<string>)
    requires Inv(s, log, known, first)
    ensures var (t, log', answers) := Step(s, log, Append(token, turnId, draft, fate), first, env);
      StepOk(s, t, log, log', answers, known + {env.turnId}, first)
  {
    AppendInv(s, log, token, turnId, draft, fate);
    hide PhysicalOk, TurnWindow, AppendTo, CacheOk, ActiveOk, SameContent;
  }

  // Granting the queue after the lease was given up keeps everything a command promises.
  lemma GrantStep(s: State, t: State, log: Log, env: Env, known: set<string>, first: nat, answers: seq<Answer>)
    requires Inv(s, log, known, first) && env.turnId !in known && t == s.(active := t.active) && CacheOk(t, log)
    requires ActiveOk(t)
    requires t.active.None? || t.active == s.active
    requires AnswersOk(s, t, log, log, answers) && forall i | 0 <= i < |answers| :: !answers[i].Granted?
    ensures var (u, more) := GrantPending(t, log, env);
        StepOk(s, u, log, log, answers + more, known + {env.turnId}, first)
  {
    hide PhysicalOk, TurnWindow, CacheOk, ActiveOk, GrantPending, DurableEvent, WholeTurn;
    GrantPendingInv(t, log, env, known, first);
  }

  lemma StepInv(s: State, log: Log, command: Command, first: nat, env: Env, known: set<string>)
    requires Inv(s, log, known, first) && env.turnId !in known
    ensures var (t, log', answers) := Step(s, log, command, first, env);
        StepOk(s, t, log, log', answers, known + {env.turnId}, first)
  {
    match command
    case Begin => BeginInv(s, log, first, env, known);
    case Append(token, turnId, draft, fate) => AppendStepInv(s, log, token, turnId, draft, fate, first, env, known);
    case Settle(token, turnId) =>
      SettleOk(s, log, token, turnId);
      var (t, answer) := SettleTurn(s, token, turnId);
      hide GrantPending, SettleTurn, CacheOk, ActiveOk, WholeTurn;
      GrantStep(s, t, log, env, known, first, [answer]);
    case Abandon(token) =>
      hide GrantPending, CacheOk, ActiveOk;
      if s.active.Some? && s.active.value.token == token {
        NoLease(s, log);
        GrantStep(s, s.(active := None), log, env, known, first, []);
        assert [] + GrantPending(s.(active := None), log, env).1 == GrantPending(s.(active := None), log, env).1;
      }
    case Shutdown =>
      hide CacheOk, ActiveOk, Rejections;
      RejectionsOnly(s.pending);
      NewQueue(s, log, []);
  }

  lemma NoLease(s: State, log: Log)
    requires CacheOk(s, log)
    ensures CacheOk(s.(active := None), log) && ActiveOk(s.(active := None))
  {
    hide PhysicalOk;
  }

  lemma NewQueue(s: State, log: Log, pending: seq<nat>)
    requires CacheOk(s, log) && ActiveOk(s)
    ensures CacheOk(s.(pending := pending), log) && ActiveOk(s.(pending := pending))
  {
    hide PhysicalOk, TurnWindow;
  }

  // ---------------------------------------------------------------------
  // Whole runs.
  // ---------------------------------------------------------------------

  // Every command's generated turn id is new.
  ghost predicate FreshIds(inputs: seq<Input>, known: set<string>) {
    && (forall i | 0 <= i < |inputs| :: inputs[i].env.turnId !in known)
    && (forall i, j | 0 <= i < j < |inputs| :: inputs[i].env.turnId != inputs[j].env.turnId)
  }

  lemma FreshRest(inputs: seq<Input>, known: set<string>)
    requires inputs != [] && FreshIds(inputs, known)
    ensures inputs[0].env.turnId !in known && FreshIds(inputs[1..], known + {inputs[0].env.turnId})
  {
  }

  // No event from n on is turnId's.
  ghost predicate NoneFrom(log: Log, n: nat, turnId: string) {
    forall k | n <= k < |log| :: log[k].turnId != turnId
  }

  // The events are all those of the turn, in one piece: what stood at the end of the log when they were reported, and
  // nothing after it.
  ghost predicate WholeIn(log: Log, turnId: string, events: Log) {
    exists n: nat | n <= |log| :: WholeTurn(log[..n], turnId, events) && NoneFrom(log, n, turnId)
  }

  ghost predicate AnswerKept(log: Log, a: Answer) {
    && (a.Acknowledged? ==> DurableEvent(log, a.event))
    && (a.Settled? ==> WholeIn(log, a.turnId, a.events))
  }

  lemma AnswerLater(log: Log, later: Log, a: Answer)
    requires log <= later && (a.Acknowledged? ==> DurableEvent(log, a.event))
    requires a.Settled? ==> WholeTurn(log, a.turnId, a.events) && NoneFrom(later, |log|, a.turnId)
    ensures AnswerKept(later, a)
  {
    hide WholeTurn, NoneFrom;
    assert later[..|log|] == log;
  }

  // ----- a turn whose lease is gone never gets another event -----

  // turnId has been used and holds no lease.
  ghost predicate Over(s: State, known: set<string>, turnId: string) {
    turnId in known && (s.active.Some? ==> s.active.value.turnId != turnId)
  }

  // A lease after a step is the one before or a new turn's.
  ghost predicate LeaseFrom(s: State, t: State, turnId: string) {
    t.active.Some? ==>
      t.active.value.turnId == turnId || (s.active.Some? && s.active.value.turnId == t.active.value.turnId)
  }

  lemma {:induction false} WaitingLease(s: State, log: Log, env: Env)
    ensures LeaseFrom(s, GrantWaiting(s, log, env).0, env.turnId)
    decreases |s.pending|
  {
    hide PhysicalOk;
    if s.active.None? && s.pending != [] {
      var t := s.(pending := s.pending[1..]);
      if s.pending[0] in env.gone {
        WaitingLease(t, log, env);
      } else if !Admit(t, log, s.pending[0], env).2 {
        WaitingLease(Admit(t, log, s.pending[0], env).0, log, env);
      }
    }
  }

  lemma StepLease(s: State, log: Log, command: Command, first: nat, env: Env)
    requires CacheOk(s, log) && ActiveOk(s)
    ensures var (t, log', _) := Step(s, log, command, first, env);
      && LeaseFrom(s, t, env.turnId)
      && forall k | |log| <= k < |log'| :: s.active.Some? && log'[k].turnId == s.active.value.turnId
  {
    hide PhysicalOk, TurnWindow, CacheOk, ActiveOk, GrantWaiting, Rejections, AppendTo;
    match command
    case Append(token, turnId, draft, fate) => AppendInv(s, log, token, turnId, draft, fate);
    case Settle(token, turnId) => WaitingLease(SettleTurn(s, token, turnId).0, log, env);
    case Abandon(token) => WaitingLease(s.(active := None), log, env);
    case _ =>
  }

  lemma {:induction false} OverForever(s: State, log: Log, inputs: seq<Input>, known: set<string>, first: nat,
                                       turnId: string)
    requires Inv(s, log, known, first) && FreshIds(inputs, known) && Over(s, known, turnId)
    ensures log <= Run(s, log, inputs, first).1 && NoneFrom(Run(s, log, inputs, first).1, |log|, turnId)
    decreases |inputs|
  {
    if inputs != [] {
      FreshRest(inputs, known);
      StepInv(s, log, inputs[0].command, first, inputs[0].env, known);
      StepLease(s, log, inputs[0].command, first, inputs[0].env);
      hide Step, CacheOk, ActiveOk, KnownOk, QueueOk, FreshIds, InOrder, WholeTurn, DurableEvent;
      var (t, log1, answers) := Step(s, log, inputs[0].command, first, inputs[0].env);
      OverForever(t, log1, inputs[1..], known + {inputs[0].env.turnId}, first + 1, turnId);
    }
  }

  // After the step that settles it, a turn is over.
  lemma SettledOver(s: State, log: Log, command: Command, first: nat, env: Env, known: set<string>, i: nat)
    requires Inv(s, log, known, first) && env.turnId !in known
    requires i < |Step(s, log, command, first, env).2| && Step(s, log, command, first, env).2[i].Settled?
    ensures Over(Step(s, log, command, first, env).0, known, Step(s, log, command, first, env).2[i].turnId)
  {
    hide PhysicalOk, TurnWindow, CacheOk, ActiveOk, QueueOk;
    match command
    case Settle(token, turnId) =>
      var t := SettleTurn(s, token, turnId).0;
      WaitingLease(t, log, env);
      PendingSettlesNothing(t, log, env);
    case Abandon(token) => PendingSettlesNothing(s.(active := None), log, env);
    case Append(token, turnId, draft, fate) =>
      hide KnownOk;
      AppendSettlesNothing(s, log, token, turnId, draft, fate);
    case Shutdown =>
      RejectionsOnly(s.pending);
      hide Rejections;
    case _ =>
  }

  lemma AppendSettlesNothing(s: State, log: Log, token: u64, turnId: string, d: Draft, fate: Fate)
    ensures !AppendTo(s, log, token, turnId, d, fate).2.Settled?
  {
    hide FindEvent, Commit, Reconcile;
  }

  lemma PendingSettlesNothing(s: State, log: Log, env: Env)
    ensures forall i | 0 <= i < |GrantPending(s, log, env).1| :: !GrantPending(s, log, env).1[i].Settled?
  {
    RejectionsOnly(s.pending);
    WaitingSettlesNothing(s, log, env);
    hide GrantWaiting, Rejections;
  }

  lemma {:induction false} WaitingSettlesNothing(s: State, log: Log, env: Env)
    ensures forall i | 0 <= i < |GrantWaiting(s, log, env).1| :: !GrantWaiting(s, log, env).1[i].Settled?
    decreases |s.pending|
  {
    hide PhysicalOk;
    if s.active.None? && s.pending != [] {
      var t := s.(pending := s.pending[1..]);
      if s.pending[0] in env.gone {
        WaitingSettlesNothing(t, log, env);
      } else if !Admit(t, log, s.pending[0], env).2 {
        WaitingSettlesNothing(Admit(t, log, s.pending[0], env).0, log, env);
      }
    }
  }

  /** Under a persistence layer that may commit, refuse or lose the answer either way: the loaded cache of a session
      that is not poisoned is the durable log, every acknowledged event is durable at its own position, and a settled
      turn reported exactly its own events, all that the log ever holds, contiguous, with at most one terminal, last. */
  lemma {:induction false} RunSafe(s: State, log: Log, inputs: seq<Input>, known: set<string>, first: nat)
    requires Inv(s, log, known, first) && FreshIds(inputs, known)
    ensures var (t, log', answers) := Run(s, log, inputs, first);
      && log <= log' && t.sessionId == s.sessionId && s.nextToken <= t.nextToken
      && (t.loaded && !t.poisoned ==> t.events == log')
      && (forall i | 0 <= i < |answers| :: AnswerKept(log', answers[i]))
      && (t.active.None? ==> t.pending == [])
    decreases |inputs|
  {
    if inputs != [] {
      FreshRest(inputs, known);
      StepInv(s, log, inputs[0].command, first, inputs[0].env, known);
      hide Step, CacheOk, ActiveOk, KnownOk, AnswerKept, FreshIds;
      var (t, log1, answers) := Step(s, log, inputs[0].command, first, inputs[0].env);
      var (_, log2, more) := Run(t, log1, inputs[1..], first + 1);
      RunSafe(t, log1, inputs[1..], known + {inputs[0].env.turnId}, first + 1);
      forall i | 0 <= i < |answers| ensures AnswerKept(log2, answers[i]) {
        if answers[i].Settled? {
          SettledOver(s, log, inputs[0].command, first, inputs[0].env, known, i);
          OverForever(t, log1, inputs[1..], known + {inputs[0].env.turnId}, first + 1, answers[i].turnId);
        }
        AnswerLater(log1, log2, answers[i]);
      }
    } else {
      hide ActiveOk, KnownOk;
    }
  }

  // A grant made from s on has a token not yet used, and a ticket that waits in s or comes later.
  ghost predicate GrantFrom(s: State, first: nat, a: Answer) {
    a.Granted? ==> s.nextToken <= a.token && (a.ticket in s.pending || a.ticket >= first)
  }

  ghost predicate AllFrom(s: State, first: nat, answers: seq<Answer>) {
    forall i | 0 <= i < |answers| :: GrantFrom(s, first, answers[i])
  }

  lemma StepGrants(s: State, t: State, log: Log, log': Log, answers: seq<Answer>, first: nat, next: nat)
    requires next == first + 1
    requires AnswersOk(s, t, log, log', answers) && InOrder(s, t, answers, first)
    ensures AllFrom(s, first, answers)
    ensures forall a | GrantFrom(t, next, a) :: GrantFrom(s, first, a)
    ensures forall i, b | 0 <= i < |answers| && GrantFrom(t, next, b) && QueueOk(s, first) ::
        GrantedBefore(answers[i], b)
  {
    hide WholeTurn, DurableEvent;
    forall i, b | 0 <= i < |answers| && GrantFrom(t, next, b) && QueueOk(s, first) && answers[i].Granted? && b.Granted?
      ensures GrantedBefore(answers[i], b)
    {
      assert answers[i].ticket in s.pending || answers[i].ticket == first;
    }
  }

  lemma {:induction false} RunGrants(s: State, log: Log, inputs: seq<Input>, known: set<string>, first: nat)
    requires Inv(s, log, known, first) && FreshIds(inputs, known)
    ensures AllFrom(s, first, Run(s, log, inputs, first).2)
    decreases |inputs|
  {
    if inputs != [] {
      FreshRest(inputs, known);
      StepInv(s, log, inputs[0].command, first, inputs[0].env, known);
      hide Step, Inv, FreshIds, AnswersOk, InOrder;
      var (t, log1, answers) := Step(s, log, inputs[0].command, first, inputs[0].env);
      RunGrants(t, log1, inputs[1..], known + {inputs[0].env.turnId}, first + 1);
      StepGrants(s, t, log, log1, answers, first, first + 1);
      var more := Run(t, log1, inputs[1..], first + 1).2;
      assert Run(s, log, inputs, first).2 == answers + more;
    }
  }

  // When both are grants, a came first.
  predicate GrantedBefore(a: Answer, b: Answer) {
    a.Granted? && b.Granted? ==> a.token < b.token && a.ticket < b.ticket
  }

  ghost predicate AllInOrder(answers: seq<Answer>) {
    forall i, j | 0 <= i < j < |answers| :: GrantedBefore(answers[i], answers[j])
  }

  /** Over a whole run the lease goes to the callers in the order they asked, and no token is used twice. */
  lemma {:induction false} GrantsInOrder(s: State, log: Log, inputs: seq<Input>, known: set<string>, first: nat)
    requires Inv(s, log, known, first) && FreshIds(inputs, known)
    ensures AllInOrder(Run(s, log, inputs, first).2)
    decreases |inputs|
  {
    if inputs != [] {
      FreshRest(inputs, known);
      StepInv(s, log, inputs[0].command, first, inputs[0].env, known);
      var (t, log1, answers) := Step(s, log, inputs[0].command, first, inputs[0].env);
      assert QueueOk(s, first) && AllInOrder(answers) by {
          hide WholeTurn, DurableEvent, InOrder, CacheOk, ActiveOk, Step; }
      hide Step, Inv, FreshIds, AnswersOk, InOrder, GrantFrom, QueueOk, GrantedBefore;
      var known' := known + {inputs[0].env.turnId};
      GrantsInOrder(t, log1, inputs[1..], known', first + 1);
      RunGrants(t, log1, inputs[1..], known', first + 1);
      StepGrants(s, t, log, log1, answers, first, first + 1);
      var more := Run(t, log1, inputs[1..], first + 1).2;
      assert Run(s, log, inputs, first).2 == answers + more;
      assert forall i, j | 0 <= i < |answers| && 0 <= j < |more| :: GrantedBefore(answers[i], more[j]);
    }
  }

  /** From a new coordinator over any log. */
  lemma SessionSafe(sessionId: string, log: Log, inputs: seq<Input>)
    requires FreshIds(inputs, set i | 0 <= i < |log| :: log[i].turnId)
    ensures var (t, log', answers) := Run(NewState(sessionId), log, inputs, 0);
      && log <= log' && (t.loaded && !t.poisoned ==> t.events == log')
      && (forall i | 0 <= i < |answers| :: AnswerKept(log', answers[i])) && AllInOrder(answers)
      && (t.active.None? ==> t.pending == [])
  {
    var known := set i | 0 <= i < |log| :: log[i].turnId;
    assert Inv(NewState(sessionId), log, known, 0);
    hide Inv, FreshIds, AnswerKept, AllInOrder;
    RunSafe(NewState(sessionId), log, inputs, known, 0);
    GrantsInOrder(NewState(sessionId), log, inputs, known, 0);
  }

  /** Retrying an acknowledged append, with whatever fate, answers with the same event and changes nothing. */
  lemma AppendIdempotent(s: State, log: Log, token: u64, turnId: string, d: Draft, fate: Fate, again: Fate)
    requires CacheOk(s, log) && ActiveOk(s) && AppendTo(s, log, token, turnId, d, fate).2.Acknowledged?
    ensures var (t, log', answer) := AppendTo(s, log, token, turnId, d, fate);
      AppendTo(t, log', token, turnId, d, again) == (t, log', answer)
  {
    AppendInv(s, log, token, turnId, d, fate);
    var (t, log', answer) := AppendTo(s, log, token, turnId, d, fate);
    hide AppendTo;
    assert !t.poisoned by { AcknowledgedUnpoisoned(s, log, token, turnId, d, fate); }
    hide ActiveOk;
    assert t.events[answer.event.seqNo].eventId == d.eventId;
    var i := FindEvent(t.events, d.eventId).value;
    assert i == answer.event.seqNo;
    SecondAppend(t, log', token, turnId, d, again);
  }

  lemma AcknowledgedUnpoisoned(s: State, log: Log, token: u64, turnId: string, d: Draft, fate: Fate)
    requires AppendTo(s, log, token, turnId, d, fate).2.Acknowledged?
    ensures !AppendTo(s, log, token, turnId, d, fate).0.poisoned
  {
    hide FindEvent;
  }

  lemma SecondAppend(t: State, log: Log, token: u64, turnId: string, d: Draft, again: Fate)
    requires Holds(t, token, turnId) && !t.poisoned && FindEvent(t.events, d.eventId).Some?
    requires SameContent(t.events[FindEvent(t.events, d.eventId).value], turnId, d)
    ensures AppendTo(t, log, token, turnId, d, again)
        == (t, log, Acknowledged(token, t.events[FindEvent(t.events, d.eventId).value]))
  {
    hide FindEvent;
  }

  // ---------------------------------------------------------------------
  // The coordinator task: its state, updated command by command.
  // ---------------------------------------------------------------------

  class Coordinator {
    const sessionId: string
    var loaded: bool
    var events: Log
    var active: Option<ActiveTurn>
    var nextToken: u64
    var pending: seq<nat>
    var poisoned: bool
    // what the persistence provider holds for this session
    var durable: Log

    function View(): State
      reads this
    {
      State(sessionId, loaded, events, active, nextToken, pending, poisoned)
    }

    constructor (sessionId: string, durable: Log)
      ensures View() == NewState(sessionId) && this.durable == durable
    {
      this.sessionId, this.durable := sessionId, durable;
      loaded, events, active, nextToken, pending, poisoned := false, [], None, 1, [], false;
    }

    method BeginTurn(ticket: nat, env: Env) returns (answers: seq<Answer>)
      modifies this
      ensures (View(), durable, answers) == Step(old(View()), old(durable), Begin, ticket, env)
    {
      if env.stopping {
        return [Refused(ticket, Stopped)];
      }
      if ticket in env.gone {
        return [];
      }
      if active.Some? {
        pending := pending + [ticket];
        return [];
      }
      var granted: bool;
      answers, granted := AdmitCaller(ticket, env);
    }

    method AdmitCaller(ticket: nat, env: Env) returns (answers: seq<Answer>, granted: bool)
      modifies this
      ensures (View(), answers, granted) == Admit(old(View()), old(durable), ticket, env) && durable == old(durable)
    {
      if ticket in env.gone {
        return [], false;
      }
      if env.stopping {
        return [Refused(ticket, Stopped)], false;
      }
      if poisoned {
        return [Refused(ticket, Poisoned)], false;
      }
      if !loaded {
        if ticket in env.loadFails {
          return [Refused(ticket, LoadFailed)], false;
        }
        var valid := ValidateLog(sessionId, durable);
        if !valid {
          return [Refused(ticket, InvalidHistory)], false;
        }
        events, loaded := durable, true;
      }
      if env.stoppedLater || env.handleGone {
        return [Refused(ticket, Stopped)], false;
      }
      var token := nextToken;
      if token == U64_MAX {
        return [Refused(ticket, SequenceExhausted)], false;
      }
      nextToken := token + 1;
      active := Some(ActiveTurn(token, env.turnId, |events|, None));
      if ticket in env.lost {
        active := None;
        return [], false;
      }
      return [Granted(ticket, token, env.turnId, events)], true;
    }

    method RejectPending() returns (answers: seq<Answer>)
      modifies this`pending
      ensures View() == old(View()).(pending := []) && answers == Rejections(old(pending))
    {
      answers := [];
      while pending != []
        invariant answers + Rejections(pending) == Rejections(old(pending))
        decreases |pending|
      {
        assert answers + Rejections(pending) == answers + [Refused(pending[0], Stopped)] + Rejections(pending[1..]);
        answers := answers + [Refused(pending[0], Stopped)];
        pending := pending[1..];
      }
    }

    method GrantQueue(env: Env) returns (answers: seq<Answer>)
      modifies this
      ensures (View(), answers) == GrantPending(old(View()), old(durable), env) && durable == old(durable)
    {
      if env.stopping {
        answers := RejectPending();
        return;
      }
      answers := [];
      ghost var start := View();
      assert [] + GrantWaiting(start, durable, env).1 == GrantWaiting(start, durable, env).1;
      while active.None? && pending != []
        invariant durable == old(durable)
        invariant var (t, more) := GrantWaiting(View(), durable, env);
            GrantWaiting(start, durable, env) == (t, answers + more)
        decreases |pending|
      {
        hide Admit;
        ghost var before, sofar := View(), answers;
        var ticket := pending[0];
        pending := pending[1..];
        if ticket in env.gone {
          continue;
        }
        var given, granted := AdmitCaller(ticket, env);
        answers := answers + given;
        AdmitKeepsQueue(before.(pending := before.pending[1..]), durable, ticket, env);
        ghost var rest := GrantWaiting(View(), durable, env).1;
        assert granted ==> rest == [] && given + rest == given;
        assert sofar + (given + rest) == answers + rest;
        if granted {
          break;
        }
      }
      assert answers + [] == answers;
    }

    method AppendDraft(token: u64, turnId: string, d: Draft, fate: Fate) returns (answer: Answer)
      modifies this
      ensures (View(), durable, answer) == AppendTo(old(View()), old(durable), token, turnId, d, fate)
    {
      hide Commit, FindEvent;
      if active.None? || active.value.token != token || active.value.turnId != turnId {
        return AppendFailed(TurnNotActive);
      }
      if poisoned {
        return AppendFailed(Poisoned);
      }
      var i := FindCached(d.eventId);
      if i.Some? {
        var existing := events[i.value];
        return if SameContent(existing, turnId, d) then Acknowledged(token, existing)
            else AppendFailed(ConflictingId(existing.seqNo));
      }
      if active.value.terminalSeq.Some? {
        return AppendFailed(TurnClosed(active.value.terminalSeq.value));
      }
      var e := Event(d.eventId, sessionId, turnId, d.generationId, d.messageId, |events|, d.kind);
      var (log, result) := Commit(durable, e, fate);
      durable := log;
      match result
      case Appended =>
        Remember(e);
        return Acknowledged(token, e);
      case ReplayedExact =>
        Remember(e);
        return Acknowledged(token, e);
      case NotCommitted =>
        return AppendFailed(CommitRefused);
      case Fatal =>
        poisoned := true;
        return AppendFailed(CommitFatal);
      case Indeterminate =>
        var error := ReconcileUnknown(e, fate.Loses? && fate.reloadFails);
        return if error.None? then Acknowledged(token, e) else AppendFailed(error.value);
    }

    method FindCached(eventId: string) returns (i: Option<nat>)
      ensures i == FindEvent(events, eventId)
    {
      for k := 0 to |events|
        invariant FindEvent(events, eventId) == if FindEvent(events[k..], eventId).None? then None
            else Some(k + FindEvent(events[k..], eventId).value)
      {
        assert events[k..][1..] == events[k + 1..];
        if events[k].eventId == eventId {
          return Some(k);
        }
      }
      return None;
    }

    method Remember(e: Event)
      modifies this`events, this`active
      ensures View() == Cached(old(View()), e)
    {
      events := events + [e];
      Mark(e);
    }

    method Mark(e: Event)
      modifies this`active
      ensures View() == MarkTerminal(old(View()), e)
    {
      if e.kind.Terminal? && active.Some? && active.value.turnId == e.turnId {
        active := Some(active.value.(terminalSeq := Some(e.seqNo)));
      }
    }

    method ReconcileUnknown(e: Event, reloadFails: bool) returns (error: Option<Error>)
      modifies this`events, this`active, this`poisoned
      ensures (View(), error) == Reconcile(old(View()), durable, e, reloadFails)
    {
      if reloadFails {
        poisoned := true;
        return Some(LoadFailed);
      }
      var valid := ValidateLog(sessionId, durable);
      if !valid {
        poisoned := true;
        return Some(InvalidHistory);
      }
      if durable == events {
        return Some(CommitRefused);
      }
      var head := |events|;
      if |durable| == head + 1 && durable[..head] == events && durable[head] == e {
        assert durable == events + [e];
        events := durable;
        Mark(e);
        return None;
      }
      assert durable != events + [e];
      poisoned := true;
      return Some(Diverged);
    }

    method SettleActive(token: u64, turnId: string, ticket: nat, env: Env) returns (answers: seq<Answer>)
      modifies this
      ensures (View(), durable, answers) == Step(old(View()), old(durable), Settle(token, turnId), ticket, env)
    {
      hide GrantPending;
      var answer;
      if active.None? || active.value.token != token || active.value.turnId != turnId {
        answer := SettleFailed(TurnNotActive);
      } else if poisoned {
        active := None;
        answer := SettleFailed(Poisoned);
      } else {
        answer := Settled(active.value.turnId, From(events, active.value.startSeq));
        active := None;
      }
      assert (View(), answer) == SettleTurn(old(View()), token, turnId);
      var more := GrantQueue(env);
      return [answer] + more;
    }

    method AbandonLease(token: u64, ticket: nat, env: Env) returns (answers: seq<Answer>)
      modifies this
      ensures (View(), durable, answers) == Step(old(View()), old(durable), Abandon(token), ticket, env)
    {
      hide GrantPending;
      if active.Some? && active.value.token == token {
        active := None;
        answers := GrantQueue(env);
      } else {
        answers := [];
      }
    }

    method ShutDown(ticket: nat, env: Env) returns (answers: seq<Answer>)
      modifies this
      ensures (View(), durable, answers) == Step(old(View()), old(durable), Shutdown, ticket, env)
    {
      answers := RejectPending();
    }
  }

  lemma AdmitKeepsQueue(s: State, log: Log, ticket: nat, env: Env)
    ensures Admit(s, log, ticket, env).0.pending == s.pending
    ensures Admit(s, log, ticket, env).2 ==> Admit(s, log, ticket, env).0.active.Some?
  {
  }

  /** The structural check of a loaded log. */
  method ValidateLog(sessionId: string, log: Log) returns (ok: bool)
    ensures ok <==> PhysicalOk(sessionId, log)
  {
    var ids: set<string> := {};
    for i := 0 to |log|
      invariant forall id :: id in ids <==> exists j | 0 <= j < i :: log[j].eventId == id
      invariant PhysicalOk(sessionId, log[..i])
    {
      if log[i].sessionId != sessionId || log[i].seqNo != i || log[i].eventId in ids {
        return false;
      }
      ids := ids + {log[i].eventId};
      assert log[..i + 1] == log[..i] + [log[i]];
    }
    assert log[..|log|] == log;
    return true;
  }
}
