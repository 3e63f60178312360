/** Task checkpoints captured from a settled log and its budget image
    (crates/task/state/src/history.rs and lib.rs). */
module TaskSnapshot {
  import opened BudgetTypes
  import opened BudgetSteps
  import opened BudgetCheckpoint
  import opened BudgetChain
  import opened BudgetProtocol

  const MAX_HISTORY := 100_000
  const MAX_STEPS := 4096
  const MAX_IDENTIFIER := 4096
  const MAX_QUESTION := 64 * 1024
  const MAX_NODES := 65_536
  const MAX_DEPTH := 64

  datatype TaskError = Limit | OtherIdentity | Invalid | NeedsReview | Incompatible | EvidenceMismatch | BudgetRejected
    | OtherRevision | Exhausted

  datatype Result<T> = Ok(value: T) | Err(error: TaskError)

  predicate ValidText(s: string) {
    !Blank(s) && |s| <= MAX_IDENTIFIER
  }

  // ---------------------------------------------------------------------
  // Assessing a log.
  // ---------------------------------------------------------------------

  // An intended operation without a result: its outcome is unknown.
  datatype Open = Open(isTool: bool, callId: string, intent: Cursor, step: Option<string>)

  datatype Tally = Tally(modelRequests: nat, modelResults: nat, toolCalls: nat, toolResults: nat) {
    predicate Matches(c: EventCounts) {
      c.modelRequests == modelRequests && c.modelResults == modelResults && c.toolCalls == toolCalls
      && c.toolResults == toolResults
    }
  }

  const NO_TALLY := Tally(0, 0, 0, 0)

  datatype Scan = Scan(
    eventIds: set<string>, turnIds: set<string>, turn: Option<string>, closed: bool, models: map<string, Open>,
        tools: map<string, Open>,
    calls: set<(bool, string)>, steps: seq<string>, tally: Tally, reported: bool)

  const START := Scan({}, {}, None, true, map[], map[], {}, [], NO_TALLY, false)

  predicate AddressedAt(s: Scan, e: Event, index: nat) {
    ValidText(e.eventId) && ValidText(e.turnId) && e.seqNo == index && e.eventId !in s.eventIds
  }

  // A turn opens with the user's text, holds it only there, and ends with its terminal event.
  function EnterTurn(s: Scan, e: Event): Option<Scan> {
    if s.turn != Some(e.turnId) then
      if !s.closed || e.turnId in s.turnIds || !e.body.UserText? then None
      else Some(s.(turnIds := s.turnIds + {e.turnId}, turn := Some(e.turnId), closed := false, tally := NO_TALLY,
          reported := false))
    else if e.body.UserText? || s.closed then None
    else Some(s)
  }

  function TakeIntent(s: Scan, e: Event, step: Option<string>): Result<Scan>
    requires e.body.Intent?
  {
    var id, isTool := e.body.callId, e.body.isTool;
    var tally := if isTool then s.tally.(toolCalls := s.tally.toolCalls + 1)
        else s.tally.(modelRequests := s.tally.modelRequests + 1);
    var steps := if step.Some? && step.value !in s.steps then s.steps + [step.value] else s.steps;
    if !ValidText(id) || (isTool, id) in s.calls || (step.Some? && !ValidText(step.value)) then Err(Invalid)
    else if |steps| > MAX_STEPS then Err(Limit)
    else
      var pending := Open(isTool, id, e.Address(), step);
      Ok(s.(tally := tally, calls := s.calls + {(isTool, id)}, steps := steps,
            models := if isTool then s.models
                else s.models[id := pending], tools := if isTool then s.tools[id := pending] else s.tools))
  }

  function TakeResult(s: Scan, e: Event): Result<Scan>
    requires e.body.Resolution?
  {
    var id, isTool := e.body.callId, e.body.isTool;
    var pending := if isTool then s.tools else s.models;
    if id !in pending || pending[id].intent.turnId != e.turnId then Err(Invalid)
    else if isTool then Ok(s.(tools := s.tools - {id}, tally := s.tally.(toolResults := s.tally.toolResults + 1)))
    else Ok(s.(models := s.models - {id}, tally := s.tally.(modelResults := s.tally.modelResults + 1)))
  }

  function TakeReport(identity: Identity, s: Scan, e: Event): Result<Scan>
    requires e.body.RunReported?
  {
    var budget := e.body.report.budget;
    if budget.identity.sessionId != identity.sessionId then Err(OtherIdentity)
    else if budget.run.None? || budget.run.value.turnId != Some(e.turnId)
        || !s.tally.Matches(budget.run.value.metrics.confirmed)
    then Err(Invalid) else Ok(s.(reported := true))
  }

  function TakeBody(identity: Identity, s: Scan, e: Event): Result<Scan> {
    match e.body
    case Intent(_, _, task, step) => TakeIntent(s, e, if task == identity.taskId then step else None)
    case Resolution(_, _) => TakeResult(s, e)
    case RunReported(_) => TakeReport(identity, s, e)
    case TurnDone(_) => Ok(s.(closed := true))
    case TurnError => Ok(s.(closed := true))
    case _ => Ok(s)
  }

  function ScanEvent(identity: Identity, s: Scan, e: Event, index: nat): Result<Scan> {
    if e.sessionId != identity.sessionId then Err(OtherIdentity)
    else if !AddressedAt(s, e, index) then Err(Invalid)
    else
      var t := EnterTurn(s.(eventIds := s.eventIds + {e.eventId}), e);
      if t.None? || (t.value.reported && !e.body.IsTerminal()) then Err(Invalid) else TakeBody(identity, t.value, e)
  }

  function ScanLog(identity: Identity, history: seq<Event>): Result<Scan> {
    if history == [] then Ok(START)
    else
      var s := ScanLog(identity, history[..|history| - 1]);
      if s.Err? then s else ScanEvent(identity, s.value, history[|history| - 1], |history| - 1)
  }

  datatype Boundary = EmptyLog | ClosedTurn | OpenTurn(turnId: string)

  datatype Assessment = Assessment(boundary: Boundary, settled: seq<string>, unresolved: set<Open>)

  function Unresolved(s: Scan): set<Open> {
    s.models.Values + s.tools.Values
  }

  // The steps none of whose operations is unresolved.
  function Settled(steps: seq<string>, unresolved: set<Open>): seq<string> {
    if steps == [] then []
    else
      var last := steps[|steps| - 1];
      Settled(steps[..|steps| - 1], unresolved) + if exists o | o in unresolved :: o.step == Some(last) then []
          else [last]
  }

  predicate IdentityTexts(identity: Identity) {
    ValidText(identity.taskId) && ValidText(identity.sessionId) && ValidText(identity.agentKey)
  }

  function Assess(identity: Identity, history: seq<Event>): Result<Assessment> {
    if |history| > MAX_HISTORY then Err(Limit)
    else if !IdentityTexts(identity) then Err(Invalid)
    else
      var s := ScanLog(identity, history);
      if s.Err? then Err(s.error)
      else
        var boundary := if s.value.turn.None? then EmptyLog else if s.value.closed then ClosedTurn
            else OpenTurn(s.value.turn.value);
        Ok(Assessment(boundary, Settled(s.value.steps, Unresolved(s.value)), Unresolved(s.value)))
  }

  method AssessLog(identity: Identity, history: seq<Event>) returns (r: Result<Assessment>)
    ensures r == Assess(identity, history)
  {
    if |history| > MAX_HISTORY {
      return Err(Limit);
    }
    if !IdentityTexts(identity) {
      return Err(Invalid);
    }
    var s := START;
    for i := 0 to |history|
      invariant ScanLog(identity, history[..i]) == Ok(s)
    {
      hide ScanEvent;
      assert history[..i + 1][..i] == history[..i];
      var t := ScanEvent(identity, s, history[i], i);
      if t.Err? {
        FirstError(identity, history, i + 1);
        return Err(t.error);
      }
      s := t.value;
    }
    assert history[..|history|] == history;
    var boundary := if s.turn.None? then EmptyLog else if s.closed then ClosedTurn else OpenTurn(s.turn.value);
    return Ok(Assessment(boundary, Settled(s.steps, Unresolved(s)), Unresolved(s)));
  }

  lemma {:induction false} FirstError(identity: Identity, history: seq<Event>, i: nat)
    requires i <= |history| && ScanLog(identity, history[..i]).Err?
    ensures ScanLog(identity, history) == ScanLog(identity, history[..i])
    decreases |history|
  {
    hide ScanEvent;
    if i < |history| {
      assert history[..|history| - 1][..i] == history[..i];
      FirstError(identity, history[..|history| - 1], i);
    } else {
      assert history[..i] == history;
    }
  }

  // ---------------------------------------------------------------------
  // What an assessment means for the log.
  // ---------------------------------------------------------------------

  // The decision step an intent was made for, when it belongs to the task.
  function StepOf(identity: Identity, e: Event): Option<string> {
    if e.body.Intent? && e.body.task == identity.taskId then e.body.step else None
  }

  predicate IsIntent(e: Event, isTool: bool, id: string) {
    e.body.Intent? && e.body.isTool == isTool && e.body.callId == id
  }

  ghost predicate ResolvedAfter(history: seq<Event>, i: nat, isTool: bool, id: string) {
    exists j | i < j < |history| :: history[j].body == Resolution(isTool, id)
  }

  // The operation that began at i has no result in the log.
  ghost predicate WaitsAt(history: seq<Event>, i: nat, isTool: bool, id: string) {
    i < |history| && IsIntent(history[i], isTool, id) && !ResolvedAfter(history, i, isTool, id)
  }

  function OpenAt(identity: Identity, e: Event): Open
    requires e.body.Intent?
  {
    Open(e.body.isTool, e.body.callId, e.Address(), StepOf(identity, e))
  }

  // pending holds exactly the waiting operations of one kind.
  ghost predicate Tracks(identity: Identity, history: seq<Event>, isTool: bool, pending: map<string, Open>) {
    && (forall i: nat, id | WaitsAt(history, i, isTool, id) ::
        id in pending && pending[id] == OpenAt(identity, history[i]))
    && (forall id | id in pending :: exists i: nat :: WaitsAt(history, i, isTool, id))
  }

  ghost predicate CallsKnown(history: seq<Event>, calls: set<(bool, string)>) {
    forall i | 0 <= i < |history| && history[i].body.Intent? ::
        (history[i].body.isTool, history[i].body.callId) in calls
  }

  lemma WaitsStill(history: seq<Event>, e: Event, i: nat, isTool: bool, id: string)
    requires i < |history|
    ensures WaitsAt(history + [e], i, isTool, id) <==>
        WaitsAt(history, i, isTool, id) && e.body != Resolution(isTool, id)
  {
    var longer := history + [e];
    assert longer[i] == history[i] && longer[|history|] == e;
    if ResolvedAfter(history, i, isTool, id) {
      var j :| i < j < |history| && history[j].body == Resolution(isTool, id);
      assert longer[j].body == Resolution(isTool, id);
    }
  }

  lemma WaitsNew(history: seq<Event>, e: Event, isTool: bool, id: string)
    ensures WaitsAt(history + [e], |history|, isTool, id) <==> IsIntent(e, isTool, id)
  {
    assert (history + [e])[|history|] == e;
  }

  // What one event does to the pending operations of one kind.
  function PendingAfter(identity: Identity, pending: map<string, Open>, isTool: bool, e: Event): map<string, Open> {
    if e.body.Intent? && e.body.isTool == isTool then pending[e.body.callId := OpenAt(identity, e)]
    else if e.body.Resolution? && e.body.isTool == isTool then pending - {e.body.callId}
    else pending
  }

  lemma PendingTracks(identity: Identity, history: seq<Event>, calls: set<(bool, string)>, isTool: bool,
                      pending: map<string, Open>, e: Event)
    requires Tracks(identity, history, isTool, pending) && CallsKnown(history, calls)
    requires e.body.Intent? ==> (e.body.isTool, e.body.callId) !in calls
    ensures Tracks(identity, history + [e], isTool, PendingAfter(identity, pending, isTool, e))
  {
    hide ResolvedAfter;
    var longer, after := history + [e], PendingAfter(identity, pending, isTool, e);
    forall i: nat, id | WaitsAt(longer, i, isTool, id) ensures id in after && after[id] == OpenAt(identity, longer[i]) {
      WaitsIntent(longer, i, isTool, id);
      WaitsNew(history, e, isTool, id);
      if i < |history| {
        WaitsStill(history, e, i, isTool, id);
      }
    }
    forall id | id in after ensures exists i: nat :: WaitsAt(longer, i, isTool, id) {
      WaitsNew(history, e, isTool, id);
      if !IsIntent(e, isTool, id) {
        var i: nat :| WaitsAt(history, i, isTool, id);
        WaitsIntent(history, i, isTool, id);
        WaitsStill(history, e, i, isTool, id);
      }
    }
  }

  lemma WaitsIntent(history: seq<Event>, i: nat, isTool: bool, id: string)
    requires WaitsAt(history, i, isTool, id)
    ensures i < |history| && IsIntent(history[i], isTool, id)
  {
  }

  // The parts of the scan one event changes.
  lemma EventEffect(identity: Identity, s: Scan, e: Event, index: nat)
    requires ScanEvent(identity, s, e, index).Ok?
    ensures var t := ScanEvent(identity, s, e, index).value;
      && t.models == PendingAfter(identity, s.models, false, e) && t.tools == PendingAfter(identity, s.tools, true, e)
      && t.calls == (if e.body.Intent? then s.calls + {(e.body.isTool, e.body.callId)} else s.calls)
      && (e.body.Intent? ==> (e.body.isTool, e.body.callId) !in s.calls)
  {
    hide ValidText;
  }

  ghost predicate ScanTracks(identity: Identity, history: seq<Event>, s: Scan) {
    CallsKnown(history, s.calls) && Tracks(identity, history, false, s.models)
    && Tracks(identity, history, true, s.tools)
  }

  lemma TracksNext(identity: Identity, history: seq<Event>, s: Scan, e: Event, index: nat)
    requires ScanTracks(identity, history, s) && ScanEvent(identity, s, e, index).Ok?
    ensures ScanTracks(identity, history + [e], ScanEvent(identity, s, e, index).value)
  {
    hide ScanEvent, Tracks, PendingAfter;
    EventEffect(identity, s, e, index);
    PendingTracks(identity, history, s.calls, false, s.models, e);
    PendingTracks(identity, history, s.calls, true, s.tools, e);
  }

  lemma {:induction false} LogTracks(identity: Identity, history: seq<Event>)
    requires ScanLog(identity, history).Ok?
    ensures ScanTracks(identity, history, ScanLog(identity, history).value)
    decreases |history|
  {
    hide ScanEvent, ScanTracks;
    if history == [] {
      NothingTracked(identity);
    } else {
      var init, e := history[..|history| - 1], history[|history| - 1];
      LogTracks(identity, init);
      assert init + [e] == history;
      TracksNext(identity, init, ScanLog(identity, init).value, e, |init|);
    }
  }

  lemma NothingTracked(identity: Identity)
    ensures ScanTracks(identity, [], START)
  {
  }

  /** In an accepted log the unresolved operations are exactly the recorded intents without a later result. */
  lemma UnresolvedExactly(identity: Identity, history: seq<Event>, o: Open)
    requires Assess(identity, history).Ok?
    ensures o in Assess(identity, history).value.unresolved
      <==> exists i: nat :: WaitsAt(history, i, o.isTool, o.callId) && o == OpenAt(identity, history[i])
  {
    LogTracks(identity, history);
    hide ScanLog, WaitsAt, Settled, ValidText, IdentityTexts;
    var s := ScanLog(identity, history).value;
    if i: nat :| WaitsAt(history, i, o.isTool, o.callId) && o == OpenAt(identity, history[i]) {
      WaitsIntent(history, i, o.isTool, o.callId);
      var pending := if o.isTool then s.tools else s.models;
      assert pending[o.callId] == o && o in pending.Values;
    }
    if o in s.models.Values {
      PendingOpens(identity, history, false, s.models, o);
    }
    if o in s.tools.Values {
      PendingOpens(identity, history, true, s.tools, o);
    }
  }

  lemma PendingOpens(identity: Identity, history: seq<Event>, isTool: bool, pending: map<string, Open>, o: Open)
    requires Tracks(identity, history, isTool, pending) && o in pending.Values
    ensures o.isTool == isTool && exists i: nat ::
        WaitsAt(history, i, o.isTool, o.callId) && o == OpenAt(identity, history[i])
  {
    hide WaitsAt;
    var id :| id in pending && pending[id] == o;
    var i: nat :| WaitsAt(history, i, isTool, id);
    WaitsIntent(history, i, isTool, id);
    assert o == OpenAt(identity, history[i]);
  }

  // ---------------------------------------------------------------------
  // The steps in the order of their first intent.
  // ---------------------------------------------------------------------

  ghost predicate SeenAt(identity: Identity, history: seq<Event>, i: nat, step: string) {
    i < |history| && StepOf(identity, history[i]) == Some(step)
  }

  ghost predicate FirstAt(identity: Identity, history: seq<Event>, i: nat, step: string) {
    SeenAt(identity, history, i, step) && forall j: nat | j < i :: !SeenAt(identity, history, j, step)
  }

  ghost predicate Appears(identity: Identity, history: seq<Event>, step: string) {
    exists i: nat :: FirstAt(identity, history, i, step)
  }

  // The listed steps are those of the log, each once, by first appearance.
  ghost predicate ListsSteps(identity: Identity, history: seq<Event>, steps: seq<string>) {
    && DistinctSteps(steps)
    && (forall i: nat, step | SeenAt(identity, history, i, step) :: step in steps)
    && (forall a | 0 <= a < |steps| :: Appears(identity, history, steps[a]))
    && (forall a, b, i: nat, j: nat | 0 <= a < b < |steps| && FirstAt(identity, history, i, steps[a])
        && FirstAt(identity, history, j, steps[b]) :: i < j)
  }

  lemma SeenStill(identity: Identity, history: seq<Event>, e: Event, i: nat, step: string)
    requires i < |history|
    ensures SeenAt(identity, history + [e], i, step) <==> SeenAt(identity, history, i, step)
  {
  }

  lemma FirstStill(identity: Identity, history: seq<Event>, e: Event, i: nat, step: string)
    requires i < |history|
    ensures FirstAt(identity, history + [e], i, step) <==> FirstAt(identity, history, i, step)
  {
    hide SeenAt;
    SeenStill(identity, history, e, i, step);
    forall j: nat | j < i ensures SeenAt(identity, history + [e], j, step) <==> SeenAt(identity, history, j, step) {
      SeenStill(identity, history, e, j, step);
    }
  }

  lemma FirstSeen(identity: Identity, history: seq<Event>, i: nat, step: string)
    requires FirstAt(identity, history, i, step)
    ensures SeenAt(identity, history, i, step) && i < |history|
  {
  }

  // No new step: the list stays.
  lemma StepsStay(identity: Identity, history: seq<Event>, steps: seq<string>, e: Event)
    requires ListsSteps(identity, history, steps)
    requires StepOf(identity, e).None? || StepOf(identity, e).value in steps
    ensures ListsSteps(identity, history + [e], steps)
  {
    hide SeenAt, FirstAt, DistinctSteps;
    var longer := history + [e];
    forall i: nat, step | SeenAt(identity, longer, i, step) ensures step in steps {
      LastSeen(identity, history, e, i, step);
    }
    forall i: nat, a | 0 <= a < |steps| ensures FirstAt(identity, longer, i, steps[a]) <==> FirstAt(identity, history,
        i, steps[a]) {
      FirstElsewhere(identity, history, e, i, steps, a);
    }
    forall a | 0 <= a < |steps| ensures Appears(identity, longer, steps[a]) {
      assert Appears(identity, history, steps[a]);
      var i: nat :| FirstAt(identity, history, i, steps[a]);
      assert FirstAt(identity, longer, i, steps[a]);
    }
  }

  lemma LastSeen(identity: Identity, history: seq<Event>, e: Event, i: nat, step: string)
    requires SeenAt(identity, history + [e], i, step)
    ensures SeenAt(identity, history, i, step) || (i == |history| && StepOf(identity, e) == Some(step))
  {
  }

  lemma FirstElsewhere(identity: Identity, history: seq<Event>, e: Event, i: nat, steps: seq<string>, a: nat)
    requires a < |steps| && ListsSteps(identity, history, steps)
    ensures FirstAt(identity, history + [e], i, steps[a]) <==> FirstAt(identity, history, i, steps[a])
  {
    assert Appears(identity, history, steps[a]);
    var f: nat :| FirstAt(identity, history, f, steps[a]);
    FirstSeen(identity, history, f, steps[a]);
    if i < |history| {
      FirstStill(identity, history, e, i, steps[a]);
    } else {
      SeenStill(identity, history, e, f, steps[a]);
    }
  }

  lemma StepsAdd(identity: Identity, history: seq<Event>, steps: seq<string>, e: Event, step: string)
    requires ListsSteps(identity, history, steps) && StepOf(identity, e) == Some(step) && step !in steps
    ensures ListsSteps(identity, history + [e], steps + [step])
  {
    hide SeenAt, FirstAt, DistinctSteps;
    var longer, more := history + [e], steps + [step];
    AddDistinct(steps, step);
    NewFirst(identity, history, steps, e, step);
    forall i: nat, other | SeenAt(identity, longer, i, other) ensures other in more {
      LastSeen(identity, history, e, i, other);
    }
    forall i: nat, a | 0 <= a < |steps| ensures FirstAt(identity, longer, i, more[a]) <==> FirstAt(identity, history, i,
        steps[a]) {
      assert more[a] == steps[a];
      FirstElsewhere(identity, history, e, i, steps, a);
    }
    forall a | 0 <= a < |more| ensures Appears(identity, longer, more[a]) {
      if a < |steps| {
        assert Appears(identity, history, steps[a]);
        var i: nat :| FirstAt(identity, history, i, steps[a]);
        assert FirstAt(identity, longer, i, more[a]);
      } else {
        assert FirstAt(identity, longer, |history|, more[a]);
      }
    }
    forall a, b, i: nat, j: nat | 0 <= a < b < |more| && FirstAt(identity, longer, i, more[a])
        && FirstAt(identity, longer, j, more[b])
      ensures i < j
    {
      if b == |steps| {
        assert FirstAt(identity, history, i, steps[a]);
        FirstSeen(identity, history, i, steps[a]);
      }
    }
  }

  lemma AddDistinct(steps: seq<string>, step: string)
    requires DistinctSteps(steps) && step !in steps
    ensures DistinctSteps(steps + [step])
  {
  }

  lemma NewFirst(identity: Identity, history: seq<Event>, steps: seq<string>, e: Event, step: string)
    requires ListsSteps(identity, history, steps) && StepOf(identity, e) == Some(step) && step !in steps
    ensures forall i: nat :: FirstAt(identity, history + [e], i, step) <==> i == |history|
  {
    assert SeenAt(identity, history + [e], |history|, step);
    forall i: nat | i < |history| ensures !SeenAt(identity, history + [e], i, step) {
      SeenStill(identity, history, e, i, step);
    }
  }

  lemma StepsEffect(identity: Identity, s: Scan, e: Event, index: nat)
    requires ScanEvent(identity, s, e, index).Ok?
    ensures var step := StepOf(identity, e);
      ScanEvent(identity, s, e, index).value.steps == if step.Some?
          && step.value !in s.steps then s.steps + [step.value] else s.steps
  {
    hide ValidText;
  }

  /** In an accepted log the steps are those of the task's intents, each once, by first appearance. */
  lemma {:induction false} StepsExactly(identity: Identity, history: seq<Event>)
    requires ScanLog(identity, history).Ok?
    ensures ListsSteps(identity, history, ScanLog(identity, history).value.steps)
    decreases |history|
  {
    hide ScanEvent;
    if history != [] {
      var init, e := history[..|history| - 1], history[|history| - 1];
      var s := ScanLog(identity, init).value;
      StepsExactly(identity, init);
      StepsEffect(identity, s, e, |init|);
      assert init + [e] == history;
      hide ScanLog, ListsSteps;
      if StepOf(identity, e).Some? && StepOf(identity, e).value !in s.steps {
        StepsAdd(identity, init, s.steps, e, StepOf(identity, e).value);
      } else {
        StepsStay(identity, init, s.steps, e);
      }
    }
  }

  /** A settled step is one of the log's steps with no unresolved operation. */
  lemma {:induction false} SettledExactly(steps: seq<string>, unresolved: set<Open>, step: string)
    ensures step in Settled(steps, unresolved) <==> step in steps && !exists o | o in unresolved :: o.step == Some(step)
    decreases |steps|
  {
    if steps != [] {
      SettledExactly(steps[..|steps| - 1], unresolved, step);
      assert steps == steps[..|steps| - 1] + [steps[|steps| - 1]];
    }
  }

  // ---------------------------------------------------------------------
  // The boundary and the counts of the last turn.
  // ---------------------------------------------------------------------

  function Count(t: Tally, e: Event): Tally {
    match e.body
    case Intent(isTool, _, _, _) => if isTool then t.(toolCalls := t.toolCalls + 1)
        else t.(modelRequests := t.modelRequests + 1)
    case Resolution(isTool, _) => if isTool then t.(toolResults := t.toolResults + 1)
        else t.(modelResults := t.modelResults + 1)
    case _ => t
  }

  // The first event of the last turn, when turns are not interleaved.
  function TurnStart(history: seq<Event>): nat
    requires history != []
    ensures TurnStart(history) < |history|
  {
    var n := |history|;
    if n >= 2 && history[n - 2].turnId == history[n - 1].turnId then TurnStart(history[..n - 1]) else n - 1
  }

  function CountAll(events: seq<Event>): Tally {
    if events == [] then NO_TALLY else Count(CountAll(events[..|events| - 1]), events[|events| - 1])
  }

  // The scan stands at the end of the last turn of the log and has counted it.
  ghost predicate TurnCounted(history: seq<Event>, s: Scan) {
    if history == [] then s.turn.None? && s.closed
    else
      var last := history[|history| - 1];
      s.turn == Some(last.turnId) && s.closed == last.body.IsTerminal()
      && s.tally == CountAll(history[TurnStart(history)..])
  }

  lemma TurnEffect(identity: Identity, s: Scan, e: Event, index: nat)
    requires ScanEvent(identity, s, e, index).Ok?
    ensures var t := ScanEvent(identity, s, e, index).value;
      && t.turn == Some(e.turnId) && t.closed == e.body.IsTerminal()
      && t.tally == Count(if s.turn == Some(e.turnId) then s.tally else NO_TALLY, e)
      && (e.body.RunReported? ==>
          e.body.report.budget.run.Some? && t.tally.Matches(e.body.report.budget.run.value.metrics.confirmed))
      && (s.turn == Some(e.turnId) ==> !s.closed)
  {
    hide ValidText;
  }

  lemma CountNext(history: seq<Event>, e: Event)
    requires history != []
    ensures var start := TurnStart(history + [e]);
      && start == (if history[|history| - 1].turnId == e.turnId then TurnStart(history) else |history|)
      && CountAll((history + [e])[start..]) == Count(CountAll(history[start..]), e)
  {
    var longer := history + [e];
    assert longer[..|history|] == history && longer[|history|] == e && longer[|history| - 1] == history[|history| - 1];
    var start := TurnStart(longer);
    var events := longer[start..];
    assert events[..|events| - 1] == history[start..] && events[|events| - 1] == e;
    hide TurnStart;
  }

  lemma TurnCountedNext(identity: Identity, history: seq<Event>, s: Scan, e: Event)
    requires TurnCounted(history, s) && ScanEvent(identity, s, e, |history|).Ok?
    ensures TurnCounted(history + [e], ScanEvent(identity, s, e, |history|).value)
  {
    hide ScanEvent, Count;
    TurnEffect(identity, s, e, |history|);
    var longer := history + [e];
    assert longer[|history|] == e;
    if history == [] {
      assert longer == [e] && longer[0..] == [e] && [e][..0] == [];
      assert TurnStart(longer) == 0 && CountAll([e]) == Count(CountAll([]), e);
    } else {
      CountNext(history, e);
      hide TurnStart;
      assert history[|history|..] == [];
    }
  }

  /** An accepted log stands inside the turn of its last event unless that event is terminal, and the scan has
      counted the operations of that turn. */
  lemma {:induction false} LogCounted(identity: Identity, history: seq<Event>)
    requires ScanLog(identity, history).Ok?
    ensures TurnCounted(history, ScanLog(identity, history).value)
    decreases |history|
  {
    hide ScanEvent, TurnCounted;
    if history == [] {
      assert TurnCounted([], START) by { StartCounted(); }
    } else {
      var init, e := history[..|history| - 1], history[|history| - 1];
      LogCounted(identity, init);
      assert init + [e] == history;
      TurnCountedNext(identity, init, ScanLog(identity, init).value, e);
    }
  }

  lemma StartCounted()
    ensures TurnCounted([], START)
  {
  }

  /** Every report in an accepted log counts exactly the operations of its own turn before it. */
  lemma ReportCountsTurn(identity: Identity, history: seq<Event>, i: nat)
    requires ScanLog(identity, history).Ok? && i < |history| && history[i].body.RunReported?
    ensures var run := history[i].body.report.budget.run;
      && run.Some? && run.value.turnId == Some(history[i].turnId)
      && CountAll(history[..i + 1][TurnStart(history[..i + 1])..]).Matches(run.value.metrics.confirmed)
  {
    var upTo := history[..i + 1];
    StepsExtend(identity, history, i + 1);
    LogCounted(identity, upTo);
    assert upTo[|upTo| - 1] == history[i];
    var s := ScanLog(identity, upTo[..i]).value;
    ReportTurn(identity, s, history[i], i);
    TurnEffect(identity, s, history[i], i);
    hide ScanEvent, CountAll, TurnStart;
  }

  lemma ReportTurn(identity: Identity, s: Scan, e: Event, index: nat)
    requires ScanEvent(identity, s, e, index).Ok? && e.body.RunReported?
    ensures e.body.report.budget.run.Some? && e.body.report.budget.run.value.turnId == Some(e.turnId)
  {
    hide ValidText, EnterTurn;
  }

  // ---------------------------------------------------------------------
  // Snapshots.
  // ---------------------------------------------------------------------

  // A JSON value: only containers have parts.
  datatype Json = Leaf | Container(parts: seq<Json>)

  // Ordered maps are listed by key.
  datatype Entry<T> = Entry(name: string, value: T)

  datatype Compatibility = Compatibility(agent: string, policy: string, tools: seq<Entry<string>>,
                                         schemas: seq<Entry<nat>>)

  datatype Phase =
    | Created | PhaseCompleted | PhaseCheckpointed | WaitingFor(question: string) | Halted(reason: TaskRunStop)

  datatype Snapshot = Snapshot(
    revision: u64, identity: Identity, compatibility: Compatibility, cursor: Option<Cursor>, budgetRevision: u64,
        charged: Amounts,
    phase: Phase, steps: seq<string>, payloads: seq<Entry<Json>>)

  // The reply of the last turn: the last one recorded in it.
  function FindQuestion(history: seq<Event>, turnId: string): Option<string> {
    if history == [] || history[|history| - 1].turnId != turnId then None
    else if history[|history| - 1].body.AssistantText? then Some(history[|history| - 1].body.text)
    else FindQuestion(history[..|history| - 1], turnId)
  }

  function PhaseOf(history: seq<Event>): Result<Phase> {
    if history == [] then Ok(Created)
    else
      var last := history[|history| - 1];
      match last.body
      case TurnDone(Completed) => Ok(PhaseCompleted)
      case TurnDone(Checkpointed) => Ok(PhaseCheckpointed)
      case TurnDone(WaitingForInput) =>
        var q := FindQuestion(history, last.turnId);
        if q.None? then Err(Invalid) else Ok(WaitingFor(q.value))
      case _ =>
        var before := history[if |history| >= 2 then |history| - 2 else 0];
        if before.body.RunReported? then Ok(Halted(before.body.report.stop)) else Err(EvidenceMismatch)
  }

  function Names<T>(entries: seq<Entry<T>>): seq<string> {
    if entries == [] then [] else Names(entries[..|entries| - 1]) + [entries[|entries| - 1].name]
  }

  predicate DistinctSteps(steps: seq<string>) {
    forall i, j | 0 <= i < j < |steps| :: steps[i] != steps[j]
  }

  predicate PhaseOk(s: Snapshot) {
    && (s.phase.Created? <==> s.cursor.None?)
    && (s.phase.Created? ==> s.charged == ZERO && s.steps == [])
    && (s.phase.Halted? ==>
        !s.phase.reason.RunCompleted? && !s.phase.reason.RunWaiting? && !s.phase.reason.RunCheckpointed?)
    && (s.phase.WaitingFor? ==> !Blank(s.phase.question) && |s.phase.question| <= MAX_QUESTION)
  }

  // Structural validity; encodedSmall stands for the bound on the serialized size.
  ghost predicate SnapshotOk(s: Snapshot, encodedSmall: Snapshot -> bool) {
    var c := s.compatibility;
    && s.revision != 0 && s.budgetRevision != 0 && IdentityTexts(s.identity) && ValidText(c.agent)
    && ValidText(c.policy)
    && |c.tools| <= 1024 && |s.payloads| <= 128 && |s.steps| <= MAX_STEPS
    && (forall i | 0 <= i < |c.tools| :: ValidText(c.tools[i].name) && ValidText(c.tools[i].value))
    && Names(s.payloads) == Names(c.schemas)
    && (forall i | 0 <= i < |c.schemas| :: ValidText(c.schemas[i].name) && c.schemas[i].value != 0)
    && (s.cursor.Some? ==>
          s.cursor.value.sessionId == s.identity.sessionId && ValidText(s.cursor.value.eventId)
          && ValidText(s.cursor.value.turnId))
    && PhaseOk(s) && (forall i | 0 <= i < |s.steps| :: ValidText(s.steps[i])) && DistinctSteps(s.steps)
    && TreesOk(Values(s.payloads)) && encodedSmall(s)
  }

  function Values(entries: seq<Entry<Json>>): seq<Json> {
    seq(|entries|, i requires 0 <= i < |entries| => entries[i].value)
  }

  /** Captures only an empty or settled log that the quiescent budget image stands on. */
  ghost function Capture(expected: u64, c: Compatibility, payloads: seq<Entry<Json>>, k: Checkpoint,
                         history: seq<Event>,
                         encodedSmall: Snapshot -> bool): Result<Snapshot> {
    var a := Assess(k.report.identity, history);
    if a.Err? then Err(a.error)
    else if a.value.unresolved != {} || a.value.boundary.OpenTurn? then Err(NeedsReview)
    else if !VerifiedHistory(k, history) then Err(BudgetRejected)
    else if !IsQuiescent(k) then Err(NeedsReview)
    else
      var phase := PhaseOf(history);
      if phase.Err? then Err(phase.error)
      else if expected == U64_MAX then Err(Exhausted)
      else
        var s := Snapshot(expected + 1, k.report.identity, c, k.anchor, k.revision, k.report.charged, phase.value,
            a.value.settled, payloads);
        if SnapshotOk(s, encodedSmall) then Ok(s) else Err(Invalid)
  }

  ghost function VerifyEvidence(s: Snapshot, identity: Identity, revision: u64, c: Compatibility, k: Checkpoint,
                                history: seq<Event>,
                                encodedSmall: Snapshot -> bool): Option<TaskError> {
    if !SnapshotOk(s, encodedSmall) then Some(Invalid)
    else if s.identity != identity || k.report.identity != identity then Some(OtherIdentity)
    else if s.revision != revision then Some(OtherRevision)
    else if s.compatibility != c then Some(Incompatible)
    else
      var rebuilt := Capture(s.revision - 1, c, s.payloads, k, history, encodedSmall);
      if rebuilt.Err? then Some(rebuilt.error) else if rebuilt.value != s then Some(EvidenceMismatch) else None
  }

  // s may replace previous in the store.
  ghost predicate ValidSuccessor(s: Snapshot, previous: Option<Snapshot>, encodedSmall: Snapshot -> bool) {
    && SnapshotOk(s, encodedSmall)
    && s.revision == (if previous.Some? then previous.value.revision else 0) + 1
    && (previous.Some? ==> Follows(previous.value, s, encodedSmall))
  }

  ghost predicate Follows(before: Snapshot, s: Snapshot, encodedSmall: Snapshot -> bool) {
    && SnapshotOk(before, encodedSmall) && before.identity == s.identity && before.compatibility == s.compatibility
    && before.budgetRevision <= s.budgetRevision && (forall r: Resource :: before.charged.Get(r) <= s.charged.Get(r))
    && before.steps <= s.steps && NotAfter(before.cursor, s.cursor)
    && (s.budgetRevision == before.budgetRevision ==> s.cursor == before.cursor && s.charged == before.charged)
    && (before.cursor == s.cursor ==> before.phase == s.phase && before.steps == s.steps && before.charged == s.charged)
  }

  // ---------------------------------------------------------------------
  // Later captures follow earlier ones.
  // ---------------------------------------------------------------------

  lemma EventSteps(identity: Identity, s: Scan, e: Event, index: nat)
    requires ScanEvent(identity, s, e, index).Ok?
    ensures s.steps <= ScanEvent(identity, s, e, index).value.steps
  {
    hide ValidText;
  }

  lemma {:induction false} StepsExtend(identity: Identity, history: seq<Event>, n: nat)
    requires n <= |history| && ScanLog(identity, history).Ok?
    ensures ScanLog(identity, history[..n]).Ok?
    ensures ScanLog(identity, history[..n]).value.steps <= ScanLog(identity, history).value.steps
    decreases |history|
  {
    hide ScanEvent;
    if n < |history| {
      var init := history[..|history| - 1];
      StepsExtend(identity, init, n);
      assert init[..n] == history[..n];
      EventSteps(identity, ScanLog(identity, init).value, history[|history| - 1], |history| - 1);
    } else {
      assert history[..n] == history;
    }
  }

  lemma {:induction false} AllSettled(steps: seq<string>)
    ensures Settled(steps, {}) == steps
  {
    if steps != [] {
      AllSettled(steps[..|steps| - 1]);
    }
  }

  // k2 is a later image of the chain k1 belongs to.
  ghost predicate LaterImage(k1: Checkpoint, k2: Checkpoint) {
    && Keeps(k1, k2) && k1.revision <= k2.revision && k1.report.identity == k2.report.identity
    && (k1.revision == k2.revision ==> k1 == k2)
  }

  /** Any two images of one stored chain are related this way. */
  lemma ChainLater(chain: seq<Checkpoint>, i: nat, j: nat)
    requires ChainOk(chain) && i <= j < |chain|
    ensures LaterImage(chain[i], chain[j])
  {
    ChainExtends(chain, i, j);
    hide ValidTransition, ValidChain, Keeps;
  }

  lemma {:induction false} UndoKeepsCharges(report: Report, grants: seq<GrantRecord>, anchor: Option<Cursor>)
    ensures UndoGrants(report, grants, anchor).Some? ==>
        UndoGrants(report, grants, anchor).value.charged == report.charged
    decreases |grants|
  {
    if grants != [] {
      var g := grants[|grants| - 1];
      UndoKeepsCharges(report.(limits := g.oldLimits, stop := g.oldStop), grants[..|grants| - 1], anchor);
    }
  }

  // The log fixes the boundary and the charges of every image that stands on it.
  function LoggedCharges(history: seq<Event>): Amounts {
    if |history| >= 2 && history[|history| - 2].body.RunReported? then history[|history| - 2].body.report.budget.charged
    else ZERO
  }

  function LastCursor(history: seq<Event>): Option<Cursor> {
    if history == [] then None else Some(history[|history| - 1].Address())
  }

  lemma LogFixesCharges(k: Checkpoint, history: seq<Event>)
    requires VerifiedHistory(k, history)
    ensures k.anchor == LastCursor(history) && k.report.charged == LoggedCharges(history)
  {
    UndoKeepsCharges(k.report, k.grants, k.anchor);
    hide WellFormed, UndoGrants, AddressesOk;
  }

  // What a capture takes from its image and its log.
  ghost predicate StandsOn(s: Snapshot, k: Checkpoint, history: seq<Event>) {
    && s.identity == k.report.identity && s.cursor == k.anchor && s.budgetRevision == k.revision
    && s.charged == k.report.charged
    && VerifiedHistory(k, history) && PhaseOf(history) == Ok(s.phase) && StepsOf(s.identity, history) == Some(s.steps)
  }

  function StepsOf(identity: Identity, history: seq<Event>): Option<seq<string>> {
    var s := ScanLog(identity, history);
    if s.Ok? then Some(s.value.steps) else None
  }

  lemma CaptureFacts(expected: u64, c: Compatibility, payloads: seq<Entry<Json>>, k: Checkpoint, history: seq<Event>,
                     encodedSmall: Snapshot -> bool)
    requires Capture(expected, c, payloads, k, history, encodedSmall).Ok?
    ensures var s := Capture(expected, c, payloads, k, history, encodedSmall).value;
      && SnapshotOk(s, encodedSmall) && StandsOn(s, k, history)
      && s.revision == expected + 1 && s.compatibility == c && s.payloads == payloads
  {
    hide SnapshotOk, VerifiedHistory, ScanLog, PhaseOf, IsQuiescent, Settled;
    var s := ScanLog(k.report.identity, history);
    if s.Ok? {
      AllSettled(s.value.steps);
    }
  }

  lemma Positions(k: Checkpoint, history: seq<Event>)
    requires VerifiedHistory(k, history) && history != []
    ensures history[|history| - 1].seqNo == |history| - 1
  {
    hide WellFormed, UndoGrants, ClosedTail;
    assert AddressOk(history[|history| - 1], k.report.identity.sessionId, 0 + (|history| - 1));
  }

  lemma SameLog(history: seq<Event>, n: nat)
    requires n <= |history|
    requires n > 0 ==> history[n - 1].seqNo == n - 1 && history[|history| - 1].seqNo == |history| - 1
    ensures NotAfter(LastCursor(history[..n]), LastCursor(history))
    ensures LastCursor(history[..n]) == LastCursor(history) ==> history[..n] == history
  {
  }

  lemma CursorsFollow(s1: Snapshot, k1: Checkpoint, s2: Snapshot, k2: Checkpoint, history: seq<Event>, n: nat)
    requires n <= |history| && StandsOn(s1, k1, history[..n]) && StandsOn(s2, k2, history) && s1.identity == s2.identity
    ensures NotAfter(s1.cursor, s2.cursor) && s1.steps <= s2.steps
    ensures s1.cursor == s2.cursor ==> s1.phase == s2.phase && s1.steps == s2.steps && s1.charged == s2.charged
  {
    hide PhaseOf, VerifiedHistory, ScanLog, NotAfter, LastCursor, LoggedCharges;
    LogFixesCharges(k1, history[..n]);
    LogFixesCharges(k2, history);
    if n > 0 {
      Positions(k1, history[..n]);
      Positions(k2, history);
    }
    SameLog(history, n);
    StepsExtend(s2.identity, history, n);
  }

  lemma ImagesFollow(s1: Snapshot, k1: Checkpoint, s2: Snapshot, k2: Checkpoint, history1: seq<Event>,
                     history2: seq<Event>)
    requires StandsOn(s1, k1, history1) && StandsOn(s2, k2, history2) && LaterImage(k1, k2)
    ensures s1.identity == s2.identity && s1.budgetRevision <= s2.budgetRevision
    ensures forall r: Resource :: s1.charged.Get(r) <= s2.charged.Get(r)
    ensures s1.budgetRevision == s2.budgetRevision ==> s1.cursor == s2.cursor && s1.charged == s2.charged
  {
    hide PhaseOf, VerifiedHistory, ScanLog, StepsOf;
  }

  /** A snapshot captured on an extension of a history, with a later image of the same budget chain and unchanged
      compatibility, is always a valid successor: settled steps extend as a prefix, the cursor does not move back,
      and an equal cursor means equal phase, steps and charges. */
  lemma LaterCaptureFollows(expected: u64, c: Compatibility, payloads1: seq<Entry<Json>>, k1: Checkpoint,
                            payloads2: seq<Entry<Json>>,
                            k2: Checkpoint, history: seq<Event>, n: nat, encodedSmall: Snapshot -> bool)
    requires n <= |history| && LaterImage(k1, k2)
    requires Capture(expected, c, payloads1, k1, history[..n], encodedSmall).Ok?
    requires var s1 := Capture(expected, c, payloads1, k1, history[..n], encodedSmall).value;
      Capture(s1.revision, c, payloads2, k2, history, encodedSmall).Ok?
    ensures var s1 := Capture(expected, c, payloads1, k1, history[..n], encodedSmall).value;
      ValidSuccessor(Capture(s1.revision, c, payloads2, k2, history, encodedSmall).value, Some(s1), encodedSmall)
  {
    hide Capture, SnapshotOk, StandsOn, LaterImage, NotAfter;
    var s1 := Capture(expected, c, payloads1, k1, history[..n], encodedSmall).value;
    var s2 := Capture(s1.revision, c, payloads2, k2, history, encodedSmall).value;
    CaptureFacts(expected, c, payloads1, k1, history[..n], encodedSmall);
    CaptureFacts(s1.revision, c, payloads2, k2, history, encodedSmall);
    ImagesFollow(s1, k1, s2, k2, history[..n], history);
    CursorsFollow(s1, k1, s2, k2, history, n);
  }

  lemma RevisionPositive(s: Snapshot, encodedSmall: Snapshot -> bool)
    requires SnapshotOk(s, encodedSmall)
    ensures s.revision > 0
  {
    hide PhaseOk, TreesOk, ValidText, IdentityTexts, DistinctSteps, Names, Values;
  }

  /** Evidence is accepted exactly when the host expects the snapshot's own identity, revision and compatibility, and
      capturing again under those expectations gives the same snapshot. */
  lemma EvidenceIff(s: Snapshot, identity: Identity, revision: u64, c: Compatibility, k: Checkpoint,
                    history: seq<Event>,
                    encodedSmall: Snapshot -> bool)
    ensures VerifyEvidence(s, identity, revision, c, k, history, encodedSmall).None?
      <==> && identity == s.identity && revision == s.revision && c == s.compatibility && revision > 0
           && Capture(revision - 1, c, s.payloads, k, history, encodedSmall) == Ok(s)
  {
    hide Capture, SnapshotOk, StandsOn;
    if SnapshotOk(s, encodedSmall) {
      RevisionPositive(s, encodedSmall);
    }
    if s.revision > 0 && Capture(s.revision - 1, s.compatibility, s.payloads, k, history, encodedSmall) == Ok(s) {
      CaptureFacts(s.revision - 1, s.compatibility, s.payloads, k, history, encodedSmall);
      Standing(s, k, history);
    }
  }

  lemma Standing(s: Snapshot, k: Checkpoint, history: seq<Event>)
    requires StandsOn(s, k, history)
    ensures s.identity == k.report.identity
  {
    hide VerifiedHistory, PhaseOf, StepsOf;
  }

  // ---------------------------------------------------------------------
  // The payload worklist.
  // ---------------------------------------------------------------------

  function Nodes(j: Json): nat {
    if j.Leaf? then 1 else 1 + NodesOf(j.parts)
  }

  function NodesOf(js: seq<Json>): nat {
    if js == [] then 0 else NodesOf(js[..|js| - 1]) + Nodes(js[|js| - 1])
  }

  predicate NoDeeper(j: Json, depth: nat) {
    depth <= MAX_DEPTH && (j.Container? ==> forall i | 0 <= i < |j.parts| :: NoDeeper(j.parts[i], depth + 1))
  }

  // At most MAX_NODES values in all, nested at most MAX_DEPTH deep.
  predicate TreesOk(js: seq<Json>) {
    NodesOf(js) <= MAX_NODES && forall i | 0 <= i < |js| :: NoDeeper(js[i], 0)
  }

  datatype Task = Task(value: Json, depth: nat)

  function Work(stack: seq<Task>): nat {
    if stack == [] then 0 else Work(stack[..|stack| - 1]) + Nodes(stack[|stack| - 1].value)
  }

  ghost predicate StackOk(stack: seq<Task>) {
    forall i | 0 <= i < |stack| :: NoDeeper(stack[i].value, stack[i].depth)
  }

  function Tasks(js: seq<Json>, depth: nat): seq<Task> {
    if js == [] then [] else Tasks(js[..|js| - 1], depth) + [Task(js[|js| - 1], depth)]
  }

  lemma TasksStep(js: seq<Json>, depth: nat)
    requires js != []
    ensures Tasks(js, depth) == Tasks(js[..|js| - 1], depth) + [Task(js[|js| - 1], depth)]
    ensures NodesOf(js) == NodesOf(js[..|js| - 1]) + Nodes(js[|js| - 1])
  {
    hide Nodes;
  }

  lemma WorkPush(stack: seq<Task>, t: Task)
    ensures Work(stack + [t]) == Work(stack) + Nodes(t.value)
  {
    hide Nodes;
    assert (stack + [t])[..|stack|] == stack;
  }

  lemma {:induction false} TasksWork(js: seq<Json>, depth: nat)
    ensures Work(Tasks(js, depth)) == NodesOf(js) && |Tasks(js, depth)| == |js|
    ensures forall i | 0 <= i < |js| :: Tasks(js, depth)[i] == Task(js[i], depth)
    decreases |js|
  {
    if js == [] {
      assert Tasks(js, depth) == [];
    } else {
      TasksStep(js, depth);
      TasksWork(js[..|js| - 1], depth);
      WorkPush(Tasks(js[..|js| - 1], depth), Task(js[|js| - 1], depth));
      hide Tasks, Work, Nodes, NodesOf;
    }
  }

  lemma {:induction false} WorkJoin(a: seq<Task>, b: seq<Task>)
    ensures Work(a + b) == Work(a) + Work(b)
    decreases |b|
  {
    if b == [] {
      assert a + b == a;
    } else {
      assert (a + b)[..|a + b| - 1] == a + b[..|b| - 1];
      WorkJoin(a, b[..|b| - 1]);
    }
  }

  lemma {:induction false} WorkBounds(stack: seq<Task>)
    ensures |stack| <= Work(stack)
  {
    if stack != [] {
      WorkBounds(stack[..|stack| - 1]);
    }
  }

  ghost predicate PartsOk(j: Json, depth: nat) {
    j.Container? ==> forall i | 0 <= i < |j.parts| :: NoDeeper(j.parts[i], depth + 1)
  }

  lemma DeeperStep(j: Json, depth: nat)
    ensures NoDeeper(j, depth) <==> depth <= MAX_DEPTH && PartsOk(j, depth)
  {
  }

  lemma StackJoin(a: seq<Task>, b: seq<Task>)
    ensures StackOk(a + b) <==> StackOk(a) && StackOk(b)
  {
    hide NoDeeper;
    var both := a + b;
    assert forall i | 0 <= i < |a| :: both[i] == a[i];
    assert forall i | 0 <= i < |b| :: both[|a| + i] == b[i];
    if StackOk(both) {
      forall i | 0 <= i < |b| ensures NoDeeper(b[i].value, b[i].depth) {
        assert both[|a| + i] == b[i];
      }
    }
  }

  // A value is shallow enough exactly when it is not too deep itself and its parts are.
  lemma PartsStack(t: Task)
    requires t.value.Container? && t.depth <= MAX_DEPTH
    ensures StackOk([t]) <==> StackOk(Tasks(t.value.parts, t.depth + 1))
  {
    var tasks, parts := Tasks(t.value.parts, t.depth + 1), t.value.parts;
    TasksWork(parts, t.depth + 1);
    DeeperStep(t.value, t.depth);
    hide NoDeeper, Tasks, Work, NodesOf, Nodes;
    assert StackOk([t]) <==> NoDeeper([t][0].value, [t][0].depth);
    if StackOk(tasks) {
      forall i | 0 <= i < |parts| ensures NoDeeper(parts[i], t.depth + 1) {
        assert NoDeeper(tasks[i].value, tasks[i].depth);
      }
    }
  }

  // Taking the last task off and putting its parts on keeps the work but for the task itself.
  lemma PopWork(rest: seq<Task>, t: Task)
    requires t.value.Container?
    ensures var next := rest + Tasks(t.value.parts, t.depth + 1);
      && Work(rest + [t]) == Work(next) + 1
      && (t.depth <= MAX_DEPTH ==> (StackOk(rest + [t]) <==> StackOk(next)))
  {
    var tasks := Tasks(t.value.parts, t.depth + 1);
    TasksWork(t.value.parts, t.depth + 1);
    WorkJoin(rest, tasks);
    WorkPush(rest, t);
    assert Nodes(t.value) == 1 + NodesOf(t.value.parts);
    hide NoDeeper, Tasks, Work, NodesOf, Nodes, StackOk;
    StackJoin(rest, tasks);
    StackJoin(rest, [t]);
    if t.depth <= MAX_DEPTH {
      PartsStack(t);
    }
  }

  lemma PopLeaf(rest: seq<Task>, t: Task)
    requires t.value.Leaf?
    ensures Work(rest + [t]) == Work(rest) + 1 && (t.depth <= MAX_DEPTH ==> (StackOk(rest + [t]) <==> StackOk(rest)))
  {
    WorkPush(rest, t);
    StackJoin(rest, [t]);
    if t.depth <= MAX_DEPTH {
      DeeperStep(t.value, t.depth);
    }
  }

  function Unpacked(rest: seq<Task>, t: Task): seq<Task> {
    if t.value.Container? then rest + Tasks(t.value.parts, t.depth + 1) else rest
  }

  lemma UnpackTask(rest: seq<Task>, t: Task)
    ensures Work(rest + [t]) == Work(Unpacked(rest, t)) + 1 && |Unpacked(rest, t)| <= Work(Unpacked(rest, t))
    ensures t.value.Container? ==> |t.value.parts| <= Work(Unpacked(rest, t))
    ensures t.depth <= MAX_DEPTH ==> (StackOk(rest + [t]) <==> StackOk(Unpacked(rest, t)))
  {
    hide NoDeeper, Nodes, NodesOf, Work, Tasks, StackOk;
    WorkBounds(Unpacked(rest, t));
    if t.value.Container? {
      TasksWork(t.value.parts, t.depth + 1);
      PopWork(rest, t);
    } else {
      PopLeaf(rest, t);
    }
  }

  lemma LastTooDeep(rest: seq<Task>, t: Task)
    ensures Work(rest + [t]) > 0
    ensures t.depth > MAX_DEPTH ==> !StackOk(rest + [t])
  {
    WorkBounds(rest + [t]);
    var stack := rest + [t];
    if StackOk(stack) {
      assert NoDeeper(stack[|rest|].value, stack[|rest|].depth);
    }
  }

  lemma FirstTasks(js: seq<Json>)
    ensures Work(Tasks(js, 0)) == NodesOf(js)
    ensures TreesOk(js) <==> NodesOf(js) <= MAX_NODES && StackOk(Tasks(js, 0))
  {
    hide NoDeeper, Work, Tasks, NodesOf;
    TasksWork(js, 0);
    var stack := Tasks(js, 0);
    if StackOk(stack) {
      forall i | 0 <= i < |js| ensures NoDeeper(js[i], 0) {
        assert NoDeeper(stack[i].value, stack[i].depth);
      }
    }
  }

  /** The worklist with its early limits accepts exactly the payloads of bounded size and depth. */
  method ValidateTrees(js: seq<Json>) returns (ok: bool)
    ensures ok <==> TreesOk(js)
  {
    hide TreesOk, NoDeeper, Nodes, NodesOf, Tasks, Work, StackOk, Unpacked;
    var stack := Tasks(js, 0);
    var nodes := 0;
    FirstTasks(js);
    while stack != []
      invariant nodes + Work(stack) == NodesOf(js) && nodes <= MAX_NODES
      invariant TreesOk(js) <==> NodesOf(js) <= MAX_NODES && StackOk(stack)
      decreases Work(stack)
    {
      var t, rest := stack[|stack| - 1], stack[..|stack| - 1];
      assert stack == rest + [t];
      LastTooDeep(rest, t);
      nodes := nodes + 1;
      if t.depth > MAX_DEPTH || nodes > MAX_NODES {
        return false;
      }
      UnpackTask(rest, t);
      if t.value.Container? && |t.value.parts| > MAX_NODES {
        return false;
      }
      stack := Unpacked(rest, t);
      if |stack| > MAX_NODES {
        return false;
      }
    }
    NoTasks();
    return true;
  }

  lemma NoTasks()
    ensures Work([]) == 0 && StackOk([])
  {
  }
}
