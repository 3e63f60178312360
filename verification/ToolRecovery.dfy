/** Retry plans from recorded tool calls (crates/tools/tool/src/recovery.rs). */
module ToolRecovery {
  import opened BudgetTypes

  const MAX_EVENTS := 100_000
  const MAX_TEXT := 1024
  const MAX_NAME := 256

  // ---------------------------------------------------------------------
  // Recorded calls and results.
  // ---------------------------------------------------------------------

  datatype Effect = ReadOnly | Idempotent | NonIdempotent | UnknownEffect
  datatype Contract = Contract(revision: string, effect: Effect)
  datatype ReviewOutcome = ReviewedCompleted | ReviewedNotExecuted
  datatype Review = Review(actor: string, evidence: string, outcome: ReviewOutcome)
  datatype RetryAudit = RetryAudit(callId: string, eventId: string, review: Option<Review>)
  datatype Operation = Operation(task: string, key: string, contract: Contract, retry: Option<RetryAudit>)
  datatype ToolCall = ToolCall(id: string, name: string, arguments: string, operation: Option<Operation>)

  // Failures that happened before the tool body could run, and the others.
  datatype ToolOutcome = Succeeded | FailedBefore | FailedUnknown

  datatype Kind = CallEvent(call: ToolCall) | ResultEvent(callId: string, outcome: ToolOutcome) | OtherEvent
  datatype Event = Event(eventId: string, sessionId: string, turnId: string, seqNo: nat, kind: Kind)

  datatype Error = InvalidEvidence | LegacyCall | Completed | NeedsReview | NotLatestAttempt | BindingChanged | Consumed
  datatype Outcome<T> = Ok(value: T) | Err(error: Error)

  predicate TextValid(s: string) {
    !Blank(s) && |s| <= MAX_TEXT
  }

  predicate ReviewValid(r: Review) {
    TextValid(r.actor) && TextValid(r.evidence)
  }

  predicate OperationValid(op: Operation) {
    && TextValid(op.contract.revision) && TextValid(op.task) && TextValid(op.key)
    && (op.retry.Some? ==>
          var r := op.retry.value;
          TextValid(r.callId) && TextValid(r.eventId) && (r.review.Some? ==> ReviewValid(r.review.value)))
  }

  predicate PhysicalOk(sessionId: string, history: seq<Event>) {
    && (forall i | 0 <= i < |history| :: history[i].sessionId == sessionId && history[i].seqNo == i)
    && (forall i, j | 0 <= i < j < |history| :: history[i].eventId != history[j].eventId)
  }

  // ---------------------------------------------------------------------
  // Scanning a history.
  // ---------------------------------------------------------------------

  datatype Recorded = Recorded(call: ToolCall, event: Event, result: Option<ToolOutcome>)

  // calls by id; the latest attempt of each operation by task and key.
  datatype Scan = Scan(calls: map<string, Recorded>, latest: map<(string, string), Event>)

  const NOTHING := Scan(map[], map[])

  predicate CallTextOk(call: ToolCall) {
    TextValid(call.id) && call.name != "" && |call.name| <= MAX_NAME
  }

  function KeyOf(op: Operation): (string, string) {
    (op.task, op.key)
  }

  // Whether op may follow the latest attempt of its operation.
  function CheckAttempt(latest: map<(string, string), Event>, call: ToolCall, op: Operation): Option<Error> {
    if !OperationValid(op) then Some(InvalidEvidence)
    else if KeyOf(op) !in latest then if op.retry.Some? then Some(InvalidEvidence) else None
    else
      var last := latest[KeyOf(op)];
      if !last.kind.CallEvent? || last.kind.call.operation.None? then Some(InvalidEvidence)
      else if last.kind.call.name != call.name || last.kind.call.arguments != call.arguments
              || last.kind.call.operation.value.contract != op.contract then Some(BindingChanged)
      else if op.retry.None? || op.retry.value.callId != last.kind.call.id || op.retry.value.eventId != last.eventId
      then Some(InvalidEvidence)
      else None
  }

  function ScanEvent(s: Scan, e: Event): Outcome<Scan> {
    match e.kind
    case CallEvent(call) =>
      if !CallTextOk(call) || call.id in s.calls then Err(InvalidEvidence)
      else
        var added := s.(calls := s.calls[call.id := Recorded(call, e, None)]);
        if call.operation.None? then Ok(added)
        else
          var error := CheckAttempt(s.latest, call, call.operation.value);
          if error.Some? then Err(error.value) else Ok(added.(latest := s.latest[KeyOf(call.operation.value) := e]))
    case ResultEvent(callId, outcome) =>
      if callId !in s.calls || s.calls[callId].event.turnId != e.turnId || s.calls[callId].result.Some?
      then Err(InvalidEvidence)
      else Ok(s.(calls := s.calls[callId := s.calls[callId].(result := Some(outcome))]))
    case OtherEvent => Ok(s)
  }

  function ScanAll(history: seq<Event>): Outcome<Scan> {
    if history == [] then Ok(NOTHING)
    else
      var s := ScanAll(history[..|history| - 1]);
      if s.Err? then s else ScanEvent(s.value, history[|history| - 1])
  }

  predicate SameOperation(a: ToolCall, b: ToolCall) {
    a.operation.Some? && b.operation.Some? && KeyOf(a.operation.value) == KeyOf(b.operation.value)
  }

  // A recorded success of another attempt of the same operation.
  predicate SucceededElsewhere(calls: map<string, Recorded>, call: ToolCall) {
    exists id | id in calls ::
      calls[id].call.id != call.id && SameOperation(calls[id].call, call) && calls[id].result == Some(Succeeded)
  }

  function Evidence(history: seq<Event>, callId: string): Outcome<Recorded> {
    if history == [] || |history| > MAX_EVENTS || !TextValid(callId) || !PhysicalOk(history[0].sessionId, history)
    then Err(InvalidEvidence)
    else
      var s := ScanAll(history);
      if s.Err? then Err(s.error)
      else if callId !in s.value.calls then Err(InvalidEvidence)
      else
        var r := s.value.calls[callId];
        var op := r.call.operation;
        if op.Some? && KeyOf(op.value) in s.value.latest && s.value.latest[KeyOf(op.value)].kind.CallEvent?
           && s.value.latest[KeyOf(op.value)].kind.call.id != callId then Err(NotLatestAttempt)
        else if op.Some? && SucceededElsewhere(s.value.calls, r.call) then Err(Completed)
        else Ok(r)
  }

  datatype Status = StatusCompleted | StatusNotExecuted | StatusUnknown

  function StatusOf(result: Option<ToolOutcome>): Status {
    match result
    case Some(Succeeded) => StatusCompleted
    case Some(FailedBefore) => StatusNotExecuted
    case _ => StatusUnknown
  }

  datatype Plan = Plan(source: ToolCall, session: string, sourceEvent: string, review: Option<Review>)

  function Prepare(history: seq<Event>, callId: string, review: Option<Review>): Outcome<Plan> {
    if review.Some? && !ReviewValid(review.value) then Err(InvalidEvidence)
    else
      var r := Evidence(history, callId);
      if r.Err? then Err(r.error)
      else
        var status := StatusOf(r.value.result);
        if status.StatusCompleted? || (review.Some? && review.value.outcome.ReviewedCompleted?) then Err(Completed)
        else if r.value.call.operation.None? then Err(LegacyCall)
        else if !status.StatusNotExecuted? && !(review.Some? && review.value.outcome.ReviewedNotExecuted?)
                && !(r.value.call.operation.value.contract.effect in {ReadOnly, Idempotent}) then Err(NeedsReview)
        else Ok(Plan(r.value.call, r.value.event.sessionId, r.value.event.eventId, review))
  }

  function RetryOperation(p: Plan): Operation
    requires p.source.operation.Some?
  {
    p.source.operation.value.(retry := Some(RetryAudit(p.source.id, p.sourceEvent, p.review)))
  }

  // ---------------------------------------------------------------------
  // The plan and its latch.
  // ---------------------------------------------------------------------

  class ToolRetryPlan {
    const plan: Plan
    var consumed: bool

    constructor (plan: Plan)
      ensures this.plan == plan && !consumed
    {
      this.plan, consumed := plan, false;
    }

    /** The operation of the next attempt, once; a mismatched request does not use the plan up. */
    method TakeOperation(session: string, task: string, name: string, arguments: string,
                         contract: Contract) returns (r: Outcome<Operation>)
      modifies this
      ensures r.Ok? <==>
        && plan.source.operation.Some? && plan.session == session && plan.source.operation.value.task == task
        && plan.source.name == name
        && plan.source.arguments == arguments && plan.source.operation.value.contract == contract && !old(consumed)
      ensures r.Ok? ==> r.value == RetryOperation(plan) && consumed
      ensures r.Err? ==> consumed == old(consumed) && r.error in {LegacyCall, BindingChanged, Consumed}
      ensures r == Err(Consumed) ==> old(consumed)
    {
      if plan.source.operation.None? {
        return Err(LegacyCall);
      }
      var op := plan.source.operation.value;
      if plan.session != session || op.task != task || plan.source.name != name || plan.source.arguments != arguments
          || op.contract != contract {
        return Err(BindingChanged);
      }
      if consumed {
        return Err(Consumed);
      }
      consumed := true;
      return Ok(op.(retry := Some(RetryAudit(plan.source.id, plan.sourceEvent, plan.review))));
    }
  }

  /** The scan as a loop over the history. */
  method ScanHistory(history: seq<Event>) returns (r: Outcome<Scan>)
    ensures r == ScanAll(history)
  {
    var s := NOTHING;
    for i := 0 to |history|
      invariant ScanAll(history[..i]) == Ok(s)
    {
      hide ScanEvent;
      assert history[..i + 1][..i] == history[..i];
      var t := ScanEvent(s, history[i]);
      if t.Err? {
        FirstError(history, i + 1);
        return t;
      }
      s := t.value;
    }
    assert history[..|history|] == history;
    return Ok(s);
  }

  lemma {:induction false} FirstError(history: seq<Event>, i: nat)
    requires i <= |history| && ScanAll(history[..i]).Err?
    ensures ScanAll(history) == ScanAll(history[..i])
    decreases |history|
  {
    hide ScanEvent;
    if i < |history| {
      assert history[..|history| - 1][..i] == history[..i];
      FirstError(history[..|history| - 1], i);
    } else {
      assert history[..i] == history;
    }
  }

  // ---------------------------------------------------------------------
  // The attempts of one operation.
  // ---------------------------------------------------------------------

  predicate IsAttempt(e: Event, key: (string, string)) {
    e.kind.CallEvent? && e.kind.call.operation.Some? && KeyOf(e.kind.call.operation.value) == key
  }

  // The calls of an operation, in log order.
  function Attempts(history: seq<Event>, key: (string, string)): seq<Event> {
    if history == [] then []
    else Attempts(history[..|history| - 1], key) + if IsAttempt(history[|history| - 1], key)
        then [history[|history| - 1]] else []
  }

  // b retries a: same tool, arguments and contract, naming a's call and event.
  predicate Retries(a: Event, b: Event) {
    && a.kind.CallEvent? && b.kind.CallEvent? && a.kind.call.operation.Some? && b.kind.call.operation.Some?
    && a.kind.call.name == b.kind.call.name && a.kind.call.arguments == b.kind.call.arguments
    && a.kind.call.operation.value.contract == b.kind.call.operation.value.contract
    && b.kind.call.operation.value.retry.Some?
    && b.kind.call.operation.value.retry.value.callId == a.kind.call.id
    && b.kind.call.operation.value.retry.value.eventId == a.eventId
  }

  ghost predicate Chain(attempts: seq<Event>, key: (string, string)) {
    && (forall i | 0 <= i < |attempts| :: IsAttempt(attempts[i], key))
    && (attempts != [] ==> attempts[0].kind.call.operation.value.retry.None?)
    && (forall i | 0 <= i < |attempts| - 1 :: Retries(attempts[i], attempts[i + 1]))
  }

  // The scan knows exactly the attempts in the log.
  ghost predicate ScanKnows(s: Scan, history: seq<Event>) {
    && (forall id | id in s.calls :: s.calls[id].call.id == id && s.calls[id].event in history)
    && (forall id | id in s.calls :: s.calls[id].event.kind == CallEvent(s.calls[id].call))
    && (forall i | 0 <= i < |history| && history[i].kind.CallEvent? ::
          history[i].kind.call.id in s.calls && s.calls[history[i].kind.call.id].event == history[i])
    && (forall id | id in s.calls :: CallTextOk(s.calls[id].call))
    && (forall id | id in s.calls && s.calls[id].call.operation.Some? ::
        OperationValid(s.calls[id].call.operation.value))
  }

  ghost predicate LatestKnown(s: Scan, history: seq<Event>, key: (string, string)) {
    var attempts := Attempts(history, key);
    && (key in s.latest <==> attempts != [])
    && (key in s.latest ==> s.latest[key] == attempts[|attempts| - 1])
  }

  lemma KnowsNext(s: Scan, history: seq<Event>, e: Event)
    requires ScanKnows(s, history) && ScanEvent(s, e).Ok?
    ensures ScanKnows(ScanEvent(s, e).value, history + [e])
  {
    hide CheckAttempt, TextValid, Blank;
    var t := ScanEvent(s, e).value;
    assert e.kind.CallEvent? && e.kind.call.operation.Some? ==> OperationValid(e.kind.call.operation.value) by {
        AttemptValid(s, e); }
    hide OperationValid, CallTextOk;
  }

  lemma AttemptValid(s: Scan, e: Event)
    requires e.kind.CallEvent? && e.kind.call.operation.Some? ==> ScanEvent(s, e).Ok?
    ensures e.kind.CallEvent? && e.kind.call.operation.Some? ==> OperationValid(e.kind.call.operation.value)
  {
    hide OperationValid;
  }

  lemma {:induction false} ScansKnow(history: seq<Event>)
    requires ScanAll(history).Ok?
    ensures ScanKnows(ScanAll(history).value, history)
  {
    hide ScanKnows, ScanEvent;
    if history != [] {
      var before, e := history[..|history| - 1], history[|history| - 1];
      ScansKnow(before);
      KnowsNext(ScanAll(before).value, before, e);
      assert before + [e] == history;
    } else {
      NothingKnown();
    }
  }

  lemma NothingKnown()
    ensures ScanKnows(NOTHING, [])
  {
  }

  lemma OtherKept(s: Scan, e: Event, key: (string, string))
    requires ScanEvent(s, e).Ok? && !IsAttempt(e, key)
    ensures (key in ScanEvent(s, e).value.latest <==> key in s.latest)
    ensures key in s.latest ==> ScanEvent(s, e).value.latest[key] == s.latest[key]
  {
    hide CheckAttempt, CallTextOk;
  }

  lemma AttemptTaken(s: Scan, e: Event, key: (string, string))
    requires ScanEvent(s, e).Ok? && IsAttempt(e, key)
    ensures key in ScanEvent(s, e).value.latest && ScanEvent(s, e).value.latest[key] == e
    ensures key in s.latest ==> Retries(s.latest[key], e)
    ensures key !in s.latest ==> e.kind.call.operation.value.retry.None?
  {
    hide OperationValid, CallTextOk;
  }

  lemma ChainNext(attempts: seq<Event>, e: Event, key: (string, string))
    requires Chain(attempts, key) && IsAttempt(e, key)
    requires if attempts == [] then e.kind.call.operation.value.retry.None? else Retries(attempts[|attempts| - 1], e)
    ensures Chain(attempts + [e], key)
  {
    hide Retries, IsAttempt;
  }

  lemma NextLatest(s: Scan, history: seq<Event>, e: Event, key: (string, string))
    requires LatestKnown(s, history, key) && Chain(Attempts(history, key), key) && ScanEvent(s, e).Ok?
    ensures LatestKnown(ScanEvent(s, e).value, history + [e], key) && Chain(Attempts(history + [e], key), key)
  {
    assert (history + [e])[..|history|] == history;
    var attempts := Attempts(history, key);
    if IsAttempt(e, key) {
      AttemptTaken(s, e, key);
      hide ScanEvent, Chain, Retries;
      ChainNext(attempts, e, key);
      assert Attempts(history + [e], key) == attempts + [e];
    } else {
      OtherKept(s, e, key);
      hide ScanEvent, Chain;
      assert Attempts(history + [e], key) == attempts + [] == attempts;
    }
  }

  /** In every accepted history the attempts of an operation form one chain: the same tool, arguments and contract, the
      first not a retry, each later one naming the call and the event before it. */
  lemma {:induction false} AttemptsChain(history: seq<Event>, key: (string, string))
    requires ScanAll(history).Ok?
    ensures LatestKnown(ScanAll(history).value, history, key) && Chain(Attempts(history, key), key)
  {
    if history != [] {
      var before, e := history[..|history| - 1], history[|history| - 1];
      AttemptsChain(before, key);
      hide LatestKnown, Chain, ScanEvent;
      NextLatest(ScanAll(before).value, before, e, key);
      assert before + [e] == history;
    }
  }

  // ---------------------------------------------------------------------
  // When a retry may be planned.
  // ---------------------------------------------------------------------

  function ResultOf(s: Scan, callId: string): Option<ToolOutcome> {
    if callId in s.calls then s.calls[callId].result else None
  }

  // No attempt of the operation has a recorded success.
  ghost predicate NeverSucceeded(s: Scan, attempts: seq<Event>) {
    forall i | 0 <= i < |attempts| && attempts[i].kind.CallEvent? ::
        ResultOf(s, attempts[i].kind.call.id) != Some(Succeeded)
  }

  lemma {:induction false} AttemptIn(history: seq<Event>, key: (string, string), e: Event)
    ensures e in Attempts(history, key) <==> e in history && IsAttempt(e, key)
  {
    if history != [] {
      AttemptIn(history[..|history| - 1], key, e);
      assert history == history[..|history| - 1] + [history[|history| - 1]];
    }
  }

  // Success elsewhere or here is success somewhere in the chain.
  lemma SuccessInChain(s: Scan, history: seq<Event>, call: ToolCall)
    requires ScanKnows(s, history) && call.id in s.calls && s.calls[call.id].call == call && call.operation.Some?
    ensures NeverSucceeded(s, Attempts(history, KeyOf(call.operation.value)))
      <==> !SucceededElsewhere(s.calls, call) && ResultOf(s, call.id) != Some(Succeeded)
  {
    var key := KeyOf(call.operation.value);
    var attempts := Attempts(history, key);
    hide CallTextOk, OperationValid;
    forall i | 0 <= i < |attempts| && attempts[i].kind.CallEvent?
      ensures attempts[i].kind.call.id in s.calls && s.calls[attempts[i].kind.call.id].call == attempts[i].kind.call
      ensures IsAttempt(attempts[i], key)
    {
      AttemptIn(history, key, attempts[i]);
    }
    forall id | id in s.calls && SameOperation(s.calls[id].call, call)
      ensures exists i :: 0 <= i < |attempts| && attempts[i].kind.CallEvent? && attempts[i].kind.call.id == id
    {
      AttemptIn(history, key, s.calls[id].event);
      var i :| 0 <= i < |attempts| && attempts[i] == s.calls[id].event;
    }
  }

  predicate MayRetry(result: Option<ToolOutcome>, review: Option<Review>, effect: Effect) {
    && !(review.Some? && review.value.outcome.ReviewedCompleted?)
    && (result == Some(FailedBefore) || (review.Some? && review.value.outcome.ReviewedNotExecuted?) || effect.ReadOnly?
        || effect.Idempotent?)
  }

  ghost predicate Plannable(history: seq<Event>, callId: string, review: Option<Review>, s: Scan) {
    && callId in s.calls && s.calls[callId].call.operation.Some?
    && var call, attempts := s.calls[callId].call, Attempts(history, KeyOf(s.calls[callId].call.operation.value));
    && attempts != [] && attempts[|attempts| - 1].kind.CallEvent? && attempts[|attempts| - 1].kind.call.id == callId
    && NeverSucceeded(s, attempts) && MayRetry(s.calls[callId].result, review, call.operation.value.contract.effect)
  }

  /** A retry is planned exactly for the last attempt of an operation no attempt of which has succeeded, when the
      last one is known not to have run, or a review says so, or running it again is harmless. */
  lemma PreparedIff(history: seq<Event>, callId: string, review: Option<Review>)
    requires history != [] && |history| <= MAX_EVENTS && TextValid(callId) && PhysicalOk(history[0].sessionId, history)
    requires ScanAll(history).Ok?
    requires review.Some? ==> ReviewValid(review.value)
    ensures Prepare(history, callId, review).Ok? <==> Plannable(history, callId, review, ScanAll(history).value)
  {
    var s := ScanAll(history).value;
    PrepareUnfolds(history, callId, review);
    EvidenceIs(history, callId, s);
    PlannableIs(history, callId, review, s);
    hide *;
  }

  lemma PlannableIs(history: seq<Event>, callId: string, review: Option<Review>, s: Scan)
    requires ScanAll(history) == Ok(s)
    ensures Plannable(history, callId, review, s) <==>
      && callId in s.calls && s.calls[callId].call.operation.Some? && !Superseded(s, callId)
      && !SucceededElsewhere(s.calls, s.calls[callId].call) && s.calls[callId].result != Some(Succeeded)
      && MayRetry(s.calls[callId].result, review, s.calls[callId].call.operation.value.contract.effect)
  {
    if callId in s.calls && s.calls[callId].call.operation.Some? {
      var call := s.calls[callId].call;
      assert ResultOf(s, callId) == s.calls[callId].result;
      hide ScanAll, ScanKnows, NeverSucceeded, SucceededElsewhere, Attempts, LatestKnown, Chain, MayRetry, Superseded,
        ResultOf;
      KnownCall(history, callId);
      AttemptsChain(history, KeyOf(call.operation.value));
      SuccessInChain(s, history, call);
      LastAttempt(s, history, callId);
    }
  }

  lemma PrepareUnfolds(history: seq<Event>, callId: string, review: Option<Review>)
    requires review.Some? ==> ReviewValid(review.value)
    ensures Prepare(history, callId, review).Ok? <==>
      && Evidence(history, callId).Ok? && Evidence(history, callId).value.call.operation.Some?
      && Evidence(history, callId).value.result != Some(Succeeded)
      && MayRetry(Evidence(history, callId).value.result, review,
          Evidence(history, callId).value.call.operation.value.contract.effect)
  {
    hide Evidence, ReviewValid;
  }

  // What the evidence says once the whole history has been scanned.
  lemma EvidenceIs(history: seq<Event>, callId: string, s: Scan)
    requires history != [] && |history| <= MAX_EVENTS && TextValid(callId) && PhysicalOk(history[0].sessionId, history)
    requires ScanAll(history) == Ok(s)
    ensures callId !in s.calls ==> Evidence(history, callId) == Err(InvalidEvidence)
    ensures callId in s.calls && s.calls[callId].call.operation.None? ==>
        Evidence(history, callId) == Ok(s.calls[callId])
    ensures callId in s.calls && s.calls[callId].call.operation.Some? ==>
      Evidence(history, callId) == if Superseded(s, callId) then Err(NotLatestAttempt)
                                   else if SucceededElsewhere(s.calls, s.calls[callId].call) then Err(Completed)
                                   else Ok(s.calls[callId])
  {
    hide ScanAll, PhysicalOk, TextValid, SucceededElsewhere;
  }

  predicate Superseded(s: Scan, callId: string)
    requires callId in s.calls && s.calls[callId].call.operation.Some?
  {
    var key := KeyOf(s.calls[callId].call.operation.value);
    key in s.latest && s.latest[key].kind.CallEvent? && s.latest[key].kind.call.id != callId
  }

  lemma KnownCall(history: seq<Event>, callId: string)
    requires ScanAll(history).Ok? && callId in ScanAll(history).value.calls
    ensures ScanKnows(ScanAll(history).value, history)
    ensures var r := ScanAll(history).value.calls[callId];
        r.call.id == callId && r.event.kind == CallEvent(r.call) && r.event in history
  {
    ScansKnow(history);
    hide CallTextOk, OperationValid;
  }

  lemma LastAttempt(s: Scan, history: seq<Event>, callId: string)
    requires callId in s.calls && s.calls[callId].call.operation.Some?
    requires LatestKnown(s, history, KeyOf(s.calls[callId].call.operation.value))
    requires Chain(Attempts(history, KeyOf(s.calls[callId].call.operation.value)),
        KeyOf(s.calls[callId].call.operation.value))
    requires s.calls[callId].event.kind == CallEvent(s.calls[callId].call) && s.calls[callId].event in history
    ensures var attempts := Attempts(history, KeyOf(s.calls[callId].call.operation.value));
      attempts != [] && attempts[|attempts| - 1].kind.CallEvent?
      && (!Superseded(s, callId) <==> attempts[|attempts| - 1].kind.call.id == callId)
  {
    AttemptIn(history, KeyOf(s.calls[callId].call.operation.value), s.calls[callId].event);
    hide Attempts, Retries;
  }

  // ---------------------------------------------------------------------
  // Recording the retry.
  // ---------------------------------------------------------------------

  function RetryEvent(p: Plan, history: seq<Event>, newId: string, eventId: string, turnId: string): Event
    requires p.source.operation.Some?
  {
    Event(eventId, p.session, turnId, |history|,
          CallEvent(ToolCall(newId, p.source.name, p.source.arguments, Some(RetryOperation(p)))))
  }

  lemma PlanFacts(history: seq<Event>, callId: string, review: Option<Review>)
    requires Prepare(history, callId, review).Ok?
    ensures var p, s := Prepare(history, callId, review).value, ScanAll(history);
      && history != [] && PhysicalOk(history[0].sessionId, history) && s.Ok? && callId in s.value.calls
      && s.value.calls[callId].call == p.source
      && p.source.operation.Some? && p.session == s.value.calls[callId].event.sessionId
      && p.sourceEvent == s.value.calls[callId].event.eventId
      && p.review == review && (review.Some? ==> ReviewValid(review.value)) && TextValid(callId)
      && Evidence(history, callId) == Ok(s.value.calls[callId]) && s.value.calls[callId].result != Some(Succeeded)
  {
    hide ScanAll, PhysicalOk, TextValid, ReviewValid, SucceededElsewhere;
  }

  lemma LatestIsSource(history: seq<Event>, callId: string, s: Scan, r: Recorded)
    requires history != [] && ScanAll(history) == Ok(s) && Evidence(history, callId) == Ok(r) && r.call.operation.Some?
    ensures KeyOf(r.call.operation.value) in s.latest && s.latest[KeyOf(r.call.operation.value)] == r.event
    ensures r.event.kind == CallEvent(r.call) && r.call.id == callId && CallTextOk(r.call)
    ensures OperationValid(r.call.operation.value)
    ensures !SucceededElsewhere(s.calls, r.call) && r.event in history
  {
    var key := KeyOf(r.call.operation.value);
    EvidenceCall(history, callId, s, r);
    KnownCall(history, callId);
    assert CallTextOk(r.call) && OperationValid(r.call.operation.value) by {
        hide Evidence, ScanAll, CallTextOk, OperationValid; }
    hide Evidence, ScanAll, SucceededElsewhere, CallTextOk, OperationValid, ScanKnows;
    AttemptsChain(history, key);
    AttemptIn(history, key, r.event);
    LatestCall(s, history, key, callId);
  }

  lemma EvidenceCall(history: seq<Event>, callId: string, s: Scan, r: Recorded)
    requires ScanAll(history) == Ok(s) && Evidence(history, callId) == Ok(r) && r.call.operation.Some?
    ensures callId in s.calls && s.calls[callId] == r && !Superseded(s, callId) && !SucceededElsewhere(s.calls, r.call)
  {
    hide ScanAll, PhysicalOk, TextValid, SucceededElsewhere;
  }

  // The latest attempt is a recorded call, found under its own id.
  lemma LatestCall(s: Scan, history: seq<Event>, key: (string, string), callId: string)
    requires ScanKnows(s, history) && LatestKnown(s, history, key) && callId in s.calls
    requires s.calls[callId].call.operation.Some?
    requires KeyOf(s.calls[callId].call.operation.value) == key && s.calls[callId].event in Attempts(history, key)
    requires !Superseded(s, callId)
    ensures key in s.latest && s.latest[key] == s.calls[callId].event
  {
    var attempts := Attempts(history, key);
    AttemptIn(history, key, attempts[|attempts| - 1]);
    hide Attempts, CallTextOk, OperationValid;
    assert s.latest[key] in history && s.latest[key].kind.CallEvent? && s.latest[key].kind.call.id == callId;
    var i :| 0 <= i < |history| && history[i] == s.latest[key];
  }

  function WithCall(s: Scan, call: ToolCall, e: Event, key: (string, string)): Scan {
    Scan(s.calls[call.id := Recorded(call, e, None)], s.latest[key := e])
  }

  lemma RetryScans(s: Scan, p: Plan, e: Event, callId: string, newId: string)
    requires p.source.operation.Some? && callId in s.calls && CallTextOk(p.source)
    requires OperationValid(p.source.operation.value)
    requires p.source.id == callId && (p.review.Some? ==> ReviewValid(p.review.value)) && TextValid(callId)
    requires var key := KeyOf(p.source.operation.value);
        key in s.latest && s.latest[key].kind == CallEvent(p.source) && s.latest[key].eventId == p.sourceEvent
    requires e.kind == CallEvent(ToolCall(newId, p.source.name, p.source.arguments, Some(RetryOperation(p))))
    requires TextValid(newId) && newId !in s.calls
    ensures ScanEvent(s, e).Ok? <==> TextValid(p.sourceEvent)
    ensures TextValid(p.sourceEvent) ==>
        ScanEvent(s, e).value == WithCall(s, e.kind.call, e, KeyOf(p.source.operation.value))
  {
    hide TextValid, ReviewValid;
  }

  lemma NoneElsewhere(s: Scan, callId: string, e: Event, call: ToolCall)
    requires callId in s.calls && s.calls[callId].call.id == callId
    requires !SucceededElsewhere(s.calls, s.calls[callId].call)
    requires s.calls[callId].result != Some(Succeeded) && call.id !in s.calls
    requires SameOperation(call, s.calls[callId].call)
    requires forall id | id in s.calls :: s.calls[id].call.id == id
    ensures !SucceededElsewhere(s.calls[call.id := Recorded(call, e, None)], call)
  {
    var calls := s.calls[call.id := Recorded(call, e, None)];
    forall id | id in calls
      ensures !(calls[id].call.id != call.id && SameOperation(calls[id].call, call)
          && calls[id].result == Some(Succeeded))
    {
      if id != call.id && id != callId && SameOperation(s.calls[id].call, call) {
        assert SameOperation(s.calls[id].call, s.calls[callId].call);
      }
    }
  }

  /** Recording the call built from a plan, under fresh ids, keeps the history accepted exactly when the source
      event's own id is short and not blank; the new call is then the latest attempt, and its predecessor no longer
      is. */
  lemma RetryExtendsChain(history: seq<Event>, callId: string, review: Option<Review>, newId: string, eventId: string,
                          turnId: string)
    requires Prepare(history, callId, review).Ok? && |history| < MAX_EVENTS && TextValid(newId)
    requires forall i | 0 <= i < |history| :: history[i].eventId != eventId
    requires ScanAll(history).Ok? ==> newId !in ScanAll(history).value.calls
    ensures var p := Prepare(history, callId, review).value;
      p.source.operation.Some? &&
      var e := RetryEvent(p, history, newId, eventId, turnId);
      && (ScanAll(history + [e]).Ok? <==> TextValid(p.sourceEvent))
      && (TextValid(p.sourceEvent) ==>
            Evidence(history + [e], newId) == Ok(Recorded(e.kind.call, e, None))
            && Evidence(history + [e], callId) == Err(NotLatestAttempt))
  {
    PlanFacts(history, callId, review);
    var p, s := Prepare(history, callId, review).value, ScanAll(history).value;
    LatestIsSource(history, callId, s, s.calls[callId]);
    var e := RetryEvent(p, history, newId, eventId, turnId);
    KnownCall(history, callId);
    IdsKept(s, history);
    RetryScans(s, p, e, callId, newId);
    GrownPhysical(history, e, s, callId);
    NoneElsewhere(s, callId, e, e.kind.call);
    var grown := history + [e];
    assert grown[..|grown| - 1] == history && grown[0] == history[0];
    hide *;
    if TextValid(p.sourceEvent) {
      GrownScan(history, e, s);
      RetryEvidence(grown, WithCall(s, e.kind.call, e, KeyOf(p.source.operation.value)), s, e, callId, newId);
    } else {
      GrownScan(history, e, s);
    }
  }

  const SOURCE := ToolCall("call", "tool", "{}", Some(Operation("task", "key", Contract("1", ReadOnly), None)))

  lemma SourceScans(e: Event)
    requires e.kind == CallEvent(SOURCE)
    ensures ScanAll([e]) == Ok(Scan(map["call" := Recorded(SOURCE, e, None)], map[("task", "key") := e]))
    ensures TextValid("call")
  {
    assert [e][..0] == [];
    TextHolds("call");
    TextHolds("1");
    TextHolds("task");
    TextHolds("key");
    hide TextValid;
    assert ScanEvent(NOTHING, e) == Ok(Scan(map["call" := Recorded(SOURCE, e, None)], map[("task", "key") := e]));
  }

  lemma TextHolds(s: string)
    requires 0 < |s| <= MAX_TEXT && s[0] !in {' ', '\t', '\n', '\r'}
    ensures TextValid(s)
  {
  }

  /** A recorded call may sit on an event with a blank id: a retry of it is planned, and recording that retry makes the
      history unacceptable. */
  lemma BlankSourceNeverRetried(session: string, turnId: string, newId: string, eventId: string)
    requires TextValid(newId) && newId != "call" && eventId != " "
    ensures var history := [Event(" ", session, turnId, 0, CallEvent(SOURCE))];
      var p := Prepare(history, "call", None);
      p.Ok? && p.value.source.operation.Some?
      && ScanAll(history + [RetryEvent(p.value, history, newId, eventId, turnId)]).Err?
  {
    var e := Event(" ", session, turnId, 0, CallEvent(SOURCE));
    var history := [e];
    SourceScans(e);
    assert Prepare(history, "call", None) == Ok(Plan(SOURCE, session, " ", None)) by { hide ScanAll, TextValid; }
    assert !TextValid(" ");
    RetryExtendsChain(history, "call", None, newId, eventId, turnId);
    hide Prepare, TextValid;
  }

  lemma GrownScan(history: seq<Event>, e: Event, s: Scan)
    requires ScanAll(history) == Ok(s)
    ensures ScanAll(history + [e]) == ScanEvent(s, e)
  {
    assert (history + [e])[..|history|] == history;
    hide ScanEvent;
  }

  lemma IdsKept(s: Scan, history: seq<Event>)
    requires ScanKnows(s, history)
    ensures forall id | id in s.calls :: s.calls[id].call.id == id
  {
    hide CallTextOk, OperationValid;
  }

  lemma RetryEvidence(grown: seq<Event>, t: Scan, s: Scan, e: Event, callId: string, newId: string)
    requires grown != [] && |grown| <= MAX_EVENTS && PhysicalOk(grown[0].sessionId, grown) && TextValid(callId)
    requires TextValid(newId)
    requires ScanAll(grown) == Ok(t) && e.kind.CallEvent? && e.kind.call.id == newId && newId !in s.calls
    requires callId in s.calls
    requires s.calls[callId].call.operation.Some? && SameOperation(e.kind.call, s.calls[callId].call)
    requires t == WithCall(s, e.kind.call, e, KeyOf(s.calls[callId].call.operation.value))
    requires !SucceededElsewhere(t.calls, e.kind.call)
    ensures Evidence(grown, newId) == Ok(Recorded(e.kind.call, e, None))
    ensures Evidence(grown, callId) == Err(NotLatestAttempt)
  {
    EvidenceIs(grown, newId, t);
    EvidenceIs(grown, callId, t);
    hide Evidence, ScanAll, PhysicalOk, TextValid, SucceededElsewhere;
  }

  lemma GrownPhysical(history: seq<Event>, e: Event, s: Scan, callId: string)
    requires history != [] && PhysicalOk(history[0].sessionId, history) && callId in s.calls
    requires s.calls[callId].event in history
    requires e.sessionId == s.calls[callId].event.sessionId && e.seqNo == |history|
    requires forall i | 0 <= i < |history| :: history[i].eventId != e.eventId
    ensures PhysicalOk(history[0].sessionId, history + [e])
  {
  }
}
