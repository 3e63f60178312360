/** An event log becomes closed message groups (crates/context/context/src/lib.rs). */
module ContextProjection {
  import opened BudgetTypes
  import opened Conversation

  // ---------------------------------------------------------------------
  // Events and projections.
  // ---------------------------------------------------------------------

  datatype Kind =
    | UserMessage(text: string) | AssistantMessage(text: string) | AssistantDelta
    | ToolCall(id: string, name: string, arguments: Value) | ToolResult(callId: string, outcome: string)
    | ModelRequest(modelCall: string) | ModelResult(modelCall: string)
    | Done(status: TurnState) | Failure | Audit
  {
    // Conversation work, which may not follow the complete reply.
    predicate IsWork() {
      UserMessage? || AssistantDelta? || ModelRequest? || ModelResult? || ToolCall? || ToolResult?
    }
    // Work that answers a user message.
    predicate NeedsUser() {
      AssistantMessage? || AssistantDelta? || ToolCall? || ModelRequest?
    }
  }

  datatype Event = Event(eventId: string, sessionId: string, turnId: string, messageId: Option<string>, seqNo: nat,
                         kind: Kind)

  datatype TurnState = Completed | WaitingForInput | Checkpointed | Failed | Cancelled | Open {
    predicate IsSuccessful() {
      Completed? || WaitingForInput? || Checkpointed?
    }
  }

  datatype GroupKind = UserGroup | AssistantGroup | ToolExchange
  datatype Group = Group(turnId: string, kind: GroupKind, sources: seq<string>, messages: seq<Message>)

  datatype Reason = AuditOnly | ModelAudit | StreamDelta | UnsuccessfulReply
  datatype Omitted = Omitted(eventId: string, seqNo: nat, reason: Reason)

  datatype Turn = Turn(turnId: string, state: TurnState, terminal: Option<string>, missingReply: bool)

  datatype Config = Config(omitLegacy: bool, maxEvents: nat, maxMessages: nat)

  datatype Projection = Projection(groups: seq<Group>, turns: seq<Turn>, omitted: seq<Omitted>)

  datatype Error =
    | InvalidConfig | TooManyEvents | TooManyMessages | Physical | Malformed(eventId: string)
    | Unconfirmed(turnId: string)
    | MissingReply(turnId: string)

  datatype Outcome<T> = Ok(value: T) | Err(error: Error)

  predicate PhysicalOk(sessionId: string, events: seq<Event>) {
    && (forall i | 0 <= i < |events| :: events[i].sessionId == sessionId && events[i].seqNo == i)
    && (forall i, j | 0 <= i < j < |events| :: events[i].eventId != events[j].eventId)
  }

  // ---------------------------------------------------------------------
  // Scanning one turn.
  // ---------------------------------------------------------------------

  datatype CallRecord = CallRecord(event: Event, result: Option<Event>)

  datatype Scanned = Scanned(
    user: Option<Event>, reply: Option<Event>, terminal: Option<string>, state: TurnState, calls: seq<CallRecord>,
    models: map<string, bool>, omitted: seq<Omitted>, messageIds: set<string>)

  function NewScan(messageIds: set<string>): Scanned {
    Scanned(None, None, None, Open, [], map[], [], messageIds)
  }

  function FindCall(calls: seq<CallRecord>, id: string): (i: Option<nat>)
    requires forall j | 0 <= j < |calls| :: calls[j].event.kind.ToolCall?
    ensures i.Some? ==> i.value < |calls| && calls[i.value].event.kind.id == id
    ensures i.None? ==> forall j | 0 <= j < |calls| :: calls[j].event.kind.id != id
  {
    if calls == [] then None
    else if calls[|calls| - 1].event.kind.id == id then Some(|calls| - 1)
    else FindCall(calls[..|calls| - 1], id)
  }

  predicate CallsOk(s: Scanned) {
    forall i | 0 <= i < |s.calls| :: s.calls[i].event.kind.ToolCall?
  }

  function Omit(s: Scanned, e: Event, reason: Reason): Scanned {
    s.(omitted := s.omitted + [Omitted(e.eventId, e.seqNo, reason)])
  }

  // Takes in an event by its kind.
  function TakeKind(s: Scanned, e: Event): Outcome<Scanned>
    requires CallsOk(s)
  {
    match e.kind
    case UserMessage(_) => if s.user.Some? then Err(Malformed(e.eventId)) else Ok(s.(user := Some(e)))
    case AssistantMessage(_) =>
      if e.messageId.None? || Blank(e.messageId.value) || e.messageId.value in s.messageIds || s.reply.Some?
      then Err(Malformed(e.eventId))
      else Ok(s.(reply := Some(e), messageIds := s.messageIds + {e.messageId.value}))
    case AssistantDelta => Ok(Omit(s, e, StreamDelta))
    case ToolCall(id, name, _) =>
      if Blank(id) || Blank(name) || FindCall(s.calls, id).Some? then Err(Malformed(e.eventId))
      else Ok(s.(calls := s.calls + [CallRecord(e, None)]))
    case ToolResult(callId, _) =>
      var i := FindCall(s.calls, callId);
      if i.None? || s.calls[i.value].result.Some? then Err(Malformed(e.eventId))
      else Ok(s.(calls := s.calls[i.value := s.calls[i.value].(result := Some(e))]))
    case ModelRequest(id) =>
      if Blank(id) || id in s.models then Err(Malformed(e.eventId))
      else Ok(Omit(s.(models := s.models[id := false]), e, ModelAudit))
    case ModelResult(id) =>
      if id !in s.models || s.models[id] then Err(Malformed(e.eventId))
      else Ok(Omit(s.(models := s.models[id := true]), e, ModelAudit))
    case Done(status) => Ok(Omit(s.(state := status, terminal := Some(e.eventId)), e, AuditOnly))
    case Failure => Ok(Omit(s.(state := Failed, terminal := Some(e.eventId)), e, AuditOnly))
    case Audit => Ok(Omit(s, e, AuditOnly))
  }

  function ScanEvent(s: Scanned, e: Event): Outcome<Scanned>
    requires CallsOk(s)
  {
    if Blank(e.eventId) || s.terminal.Some? || (s.reply.Some? && e.kind.IsWork()) then Err(Malformed(e.eventId))
    else
      var t := TakeKind(s, e);
      if t.Ok? && t.value.user.None? && e.kind.NeedsUser() then Err(Malformed(e.eventId)) else t
  }

  lemma ScanKeepsCalls(s: Scanned, e: Event)
    requires CallsOk(s)
    ensures ScanEvent(s, e).Ok? ==> CallsOk(ScanEvent(s, e).value)
  {
  }

  function ScanTurn(events: seq<Event>, messageIds: set<string>): (r: Outcome<Scanned>)
    ensures r.Ok? ==> CallsOk(r.value)
    decreases |events|
  {
    if events == [] then Ok(NewScan(messageIds))
    else
      var s := ScanTurn(events[..|events| - 1], messageIds);
      if s.Err? then s
      else
        ScanKeepsCalls(s.value, events[|events| - 1]);
        ScanEvent(s.value, events[|events| - 1])
  }

  // ---------------------------------------------------------------------
  // Closing one turn.
  // ---------------------------------------------------------------------

  // Work whose outcome the log does not hold.
  predicate HasLooseEnds(s: Scanned, events: seq<Event>) {
    || (exists i | 0 <= i < |s.calls| :: s.calls[i].result.None?)
    || (exists id | id in s.models :: !s.models[id])
    || (s.state.Open? && exists e | e in events :: !e.kind.UserMessage?)
  }

  // The model never sees the recorded call ids; they are regenerated from the position.
  function ToolId(seqNo: nat): string {
    "jw_tool_" + Decimal(seqNo)
  }

  function Decimal(n: nat): string {
    if n < 10 then [(n as char) + '0'] else Decimal(n / 10) + [((n % 10) as char) + '0']
  }

  function UserGroups(s: Scanned, turnId: string): seq<Group> {
    if s.user.Some? && s.user.value.kind.UserMessage?
    then [Group(turnId, UserGroup, [s.user.value.eventId], [User(s.user.value.kind.text)])] else []
  }

  function CallGroup(r: CallRecord, turnId: string): Group
    requires r.event.kind.ToolCall? && r.result.Some? && r.result.value.kind.ToolResult?
  {
    var call := r.event.kind;
    Group(turnId, ToolExchange, [r.event.eventId, r.result.value.eventId],
          [Assistant(None, [Call(ToolId(r.event.seqNo), call.name, call.arguments)]),
           Tool(ToolId(r.event.seqNo), r.result.value.kind.outcome)])
  }

  predicate Exchange(r: CallRecord) {
    r.event.kind.ToolCall? && !Blank(r.event.kind.name) && r.result.Some? && r.result.value.kind.ToolResult?
  }

  function CallGroups(calls: seq<CallRecord>, turnId: string): seq<Group>
    requires forall i | 0 <= i < |calls| :: Exchange(calls[i])
  {
    if calls == [] then []
    else
      assert Exchange(calls[|calls| - 1]);
      CallGroups(calls[..|calls| - 1], turnId) + [CallGroup(calls[|calls| - 1], turnId)]
  }

  function ReplyGroups(s: Scanned, turnId: string): seq<Group> {
    if s.reply.Some? && s.reply.value.kind.AssistantMessage? && s.state.IsSuccessful()
    then [Group(turnId, AssistantGroup, [s.reply.value.eventId], [Assistant(Some(s.reply.value.kind.text), [])])]
        else []
  }

  function TurnGroups(s: Scanned, turnId: string): seq<Group>
    requires forall i | 0 <= i < |s.calls| :: Exchange(s.calls[i])
  {
    UserGroups(s, turnId) + CallGroups(s.calls, turnId) + ReplyGroups(s, turnId)
  }

  function TurnOmitted(s: Scanned): seq<Omitted> {
    s.omitted + if s.reply.Some? && !s.state.IsSuccessful()
        then [Omitted(s.reply.value.eventId, s.reply.value.seqNo, UnsuccessfulReply)] else []
  }

  function MessageCount(groups: seq<Group>): nat {
    if groups == [] then 0 else MessageCount(groups[..|groups| - 1]) + |groups[|groups| - 1].messages|
  }

  predicate CallOk(r: CallRecord) {
    r.event.kind.ToolCall? && !Blank(r.event.kind.name) && (r.result.Some? ==> r.result.value.kind.ToolResult?)
  }

  predicate ScanOk(s: Scanned) {
    && (s.user.Some? ==> s.user.value.kind.UserMessage?) && (s.reply.Some? ==> s.reply.value.kind.AssistantMessage?)
    && (forall i | 0 <= i < |s.calls| :: CallOk(s.calls[i]))
  }

  function CloseTurn(c: Config, s: Scanned, events: seq<Event>, out: Projection, count: nat): Outcome<(Projection, nat)>
    requires ScanOk(s) && events != []
  {
    var turnId := events[0].turnId;
    var missing := s.state.IsSuccessful() && s.reply.None?;
    if HasLooseEnds(s, events) then Err(Unconfirmed(turnId))
    else if missing && !c.omitLegacy then Err(MissingReply(turnId))
    else
      assert forall i | 0 <= i < |s.calls| :: Exchange(s.calls[i]);
      var groups := TurnGroups(s, turnId);
      if count + MessageCount(groups) > c.maxMessages then Err(TooManyMessages)
      else Ok((Projection(out.groups + groups, out.turns + [Turn(turnId, s.state, s.terminal, missing)],
          out.omitted + TurnOmitted(s)),
               count + MessageCount(groups)))
  }

  lemma ScanEventOk(s: Scanned, e: Event)
    requires CallsOk(s) && ScanOk(s)
    ensures ScanEvent(s, e).Ok? ==> ScanOk(ScanEvent(s, e).value)
  {
    hide FindCall, Blank;
  }

  lemma {:induction false} ScanTurnOk(events: seq<Event>, messageIds: set<string>)
    ensures ScanTurn(events, messageIds).Ok? ==> ScanOk(ScanTurn(events, messageIds).value)
    decreases |events|
  {
    if events != [] {
      ScanTurnOk(events[..|events| - 1], messageIds);
      var s := ScanTurn(events[..|events| - 1], messageIds);
      hide ScanEvent, ScanOk;
      if s.Ok? {
        ScanEventOk(s.value, events[|events| - 1]);
      }
    }
  }

  // ---------------------------------------------------------------------
  // The whole log.
  // ---------------------------------------------------------------------

  // How many events from the front belong to a turn.
  function RunLength(events: seq<Event>, turnId: string): (n: nat)
    ensures n <= |events| && (n > 0 <==> events != [] && events[0].turnId == turnId)
    ensures forall i | 0 <= i < n :: events[i].turnId == turnId
  {
    if events == [] || events[0].turnId != turnId then 0 else 1 + RunLength(events[1..], turnId)
  }

  function ProjectFrom(c: Config, rest: seq<Event>, out: Projection, seen: set<string>, ids: set<string>,
                       count: nat): Outcome<Projection>
    decreases |rest|
  {
    if rest == [] then Ok(out)
    else
      var turnId := rest[0].turnId;
      var n := RunLength(rest, turnId);
      if Blank(turnId) || turnId in seen then Err(Malformed(rest[0].eventId))
      else
        ScanTurnOk(rest[..n], ids);
        var s := ScanTurn(rest[..n], ids);
        if s.Err? then Err(s.error)
        else
          var r := CloseTurn(c, s.value, rest[..n], out, count);
          if r.Err? then Err(r.error)
          else if n < |rest| && s.value.state.Open? then Err(Unconfirmed(turnId))
          else ProjectFrom(c, rest[n..], r.value.0, seen + {turnId}, s.value.messageIds, r.value.1)
  }

  function InsertBySeq(omitted: seq<Omitted>, o: Omitted): seq<Omitted> {
    if omitted == [] || omitted[|omitted| - 1].seqNo <= o.seqNo then omitted + [o]
    else InsertBySeq(omitted[..|omitted| - 1], o) + [omitted[|omitted| - 1]]
  }

  function SortBySeq(omitted: seq<Omitted>): seq<Omitted> {
    if omitted == [] then [] else InsertBySeq(SortBySeq(omitted[..|omitted| - 1]), omitted[|omitted| - 1])
  }

  function Project(sessionId: string, c: Config, events: seq<Event>): Outcome<Projection> {
    if Blank(sessionId) || c.maxEvents == 0 || c.maxMessages == 0 then Err(InvalidConfig)
    else if |events| > c.maxEvents then Err(TooManyEvents)
    else if !PhysicalOk(sessionId, events) then Err(Physical)
    else
      var r := ProjectFrom(c, events, Projection([], [], []), {}, {}, 0);
      if r.Err? then r else Ok(r.value.(omitted := SortBySeq(r.value.omitted)))
  }

  // ---------------------------------------------------------------------
  // Every source event is accounted for exactly once.
  // ---------------------------------------------------------------------

  function Once(yes: bool): nat {
    if yes then 1 else 0
  }

  // How often an id occurs among events, group sources, omitted entries and recorded calls.
  function IdCount(events: seq<Event>, id: string): nat {
    if events == [] then 0 else IdCount(events[..|events| - 1], id) + Once(events[|events| - 1].eventId == id)
  }

  function SourceCount(groups: seq<Group>, id: string): nat {
    if groups == [] then 0 else SourceCount(groups[..|groups| - 1], id) + multiset(groups[|groups| - 1].sources)[id]
  }

  function OmittedCount(omitted: seq<Omitted>, id: string): nat {
    if omitted == [] then 0 else OmittedCount(omitted[..|omitted| - 1], id) + Once(omitted[|omitted| - 1].eventId == id)
  }

  function EventCount(e: Option<Event>, id: string): nat {
    Once(e.Some? && e.value.eventId == id)
  }

  function RecordCount(r: CallRecord, id: string): nat {
    Once(r.event.eventId == id) + EventCount(r.result, id)
  }

  function CallCount(calls: seq<CallRecord>, id: string): nat {
    if calls == [] then 0 else CallCount(calls[..|calls| - 1], id) + RecordCount(calls[|calls| - 1], id)
  }

  function ScanCount(s: Scanned, id: string): nat {
    OmittedCount(s.omitted, id) + EventCount(s.user, id) + EventCount(s.reply, id) + CallCount(s.calls, id)
  }

  lemma {:induction false} AnsweredCount(calls: seq<CallRecord>, i: nat, e: Event, id: string)
    requires i < |calls| && calls[i].result.None?
    ensures CallCount(calls[i := calls[i].(result := Some(e))], id) == CallCount(calls, id) + Once(e.eventId == id)
  {
    var after, last := calls[i := calls[i].(result := Some(e))], |calls| - 1;
    if i < last {
      AnsweredCount(calls[..last], i, e, id);
      assert after[..last] == calls[..last][i := calls[..last][i].(result := Some(e))];
    } else {
      assert after[..last] == calls[..last];
    }
  }

  lemma OmitCount(omitted: seq<Omitted>, o: Omitted, id: string)
    ensures OmittedCount(omitted + [o], id) == OmittedCount(omitted, id) + Once(o.eventId == id)
  {
    assert (omitted + [o])[..|omitted|] == omitted;
  }

  lemma NewCallCount(calls: seq<CallRecord>, e: Event, id: string)
    ensures CallCount(calls + [CallRecord(e, None)], id) == CallCount(calls, id) + Once(e.eventId == id)
  {
    assert (calls + [CallRecord(e, None)])[..|calls|] == calls;
  }

  lemma OmitScan(s: Scanned, e: Event, reason: Reason, id: string)
    ensures ScanCount(Omit(s, e, reason), id) == ScanCount(s, id) + Once(e.eventId == id)
  {
    OmitCount(s.omitted, Omitted(e.eventId, e.seqNo, reason), id);
    hide OmittedCount, CallCount;
  }

  lemma ResultCount(s: Scanned, e: Event, i: nat, id: string)
    requires i < |s.calls| && s.calls[i].result.None?
    ensures ScanCount(s.(calls := s.calls[i := s.calls[i].(result := Some(e))]), id)
        == ScanCount(s, id) + Once(e.eventId == id)
  {
    AnsweredCount(s.calls, i, e, id);
    hide OmittedCount, CallCount;
  }

  lemma TakeCount(s: Scanned, e: Event, id: string)
    requires CallsOk(s) && TakeKind(s, e).Ok?
    ensures ScanCount(TakeKind(s, e).value, id) == ScanCount(s, id) + Once(e.eventId == id)
  {
    hide OmittedCount, CallCount, Omit, Blank;
    match e.kind
    case UserMessage(_) =>
    case AssistantMessage(_) =>
    case AssistantDelta => OmitScan(s, e, StreamDelta, id);
    case ToolCall(_, _, _) => NewCallCount(s.calls, e, id);
    case ToolResult(callId, _) => ResultCount(s, e, FindCall(s.calls, callId).value, id);
    case ModelRequest(call) => OmitScan(s.(models := s.models[call := false]), e, ModelAudit, id);
    case ModelResult(call) => OmitScan(s.(models := s.models[call := true]), e, ModelAudit, id);
    case Done(status) => OmitScan(s.(state := status, terminal := Some(e.eventId)), e, AuditOnly, id);
    case Failure => OmitScan(s.(state := Failed, terminal := Some(e.eventId)), e, AuditOnly, id);
    case Audit => OmitScan(s, e, AuditOnly, id);
  }

  lemma {:induction false} ScanCounts(events: seq<Event>, messageIds: set<string>, id: string)
    requires ScanTurn(events, messageIds).Ok?
    ensures ScanCount(ScanTurn(events, messageIds).value, id) == IdCount(events, id)
    decreases |events|
  {
    hide TakeKind, ScanCount;
    if events != [] {
      ScanCounts(events[..|events| - 1], messageIds, id);
      TakeCount(ScanTurn(events[..|events| - 1], messageIds).value, events[|events| - 1], id);
    } else {
      assert ScanCount(NewScan(messageIds), id) == 0 by { NewScanCount(messageIds, id); }
    }
  }

  lemma NewScanCount(messageIds: set<string>, id: string)
    ensures ScanCount(NewScan(messageIds), id) == 0
  {
  }

  lemma {:induction false} SourceJoin(a: seq<Group>, b: seq<Group>, id: string)
    ensures SourceCount(a + b, id) == SourceCount(a, id) + SourceCount(b, id)
    decreases |b|
  {
    if b == [] {
      assert a + b == a;
    } else {
      assert (a + b)[..|a + b| - 1] == a + b[..|b| - 1];
      SourceJoin(a, b[..|b| - 1], id);
    }
  }

  lemma {:induction false} OmittedJoin(a: seq<Omitted>, b: seq<Omitted>, id: string)
    ensures OmittedCount(a + b, id) == OmittedCount(a, id) + OmittedCount(b, id)
    decreases |b|
  {
    if b == [] {
      assert a + b == a;
    } else {
      assert (a + b)[..|a + b| - 1] == a + b[..|b| - 1];
      OmittedJoin(a, b[..|b| - 1], id);
    }
  }

  lemma {:induction false} IdJoin(a: seq<Event>, b: seq<Event>, id: string)
    ensures IdCount(a + b, id) == IdCount(a, id) + IdCount(b, id)
    decreases |b|
  {
    if b == [] {
      assert a + b == a;
    } else {
      assert (a + b)[..|a + b| - 1] == a + b[..|b| - 1];
      IdJoin(a, b[..|b| - 1], id);
    }
  }

  lemma GroupCount(g: Group, id: string)
    ensures SourceCount([g], id) == multiset(g.sources)[id]
  {
    assert [g][..0] == [];
  }

  lemma CallGroupCount(r: CallRecord, turnId: string, id: string)
    requires Exchange(r)
    ensures multiset(CallGroup(r, turnId).sources)[id] == RecordCount(r, id)
  {
  }

  lemma {:induction false} CallSources(calls: seq<CallRecord>, turnId: string, id: string)
    requires forall i | 0 <= i < |calls| :: Exchange(calls[i])
    ensures SourceCount(CallGroups(calls, turnId), id) == CallCount(calls, id)
  {
    if calls != [] {
      CallSources(calls[..|calls| - 1], turnId, id);
      CallGroupCount(calls[|calls| - 1], turnId, id);
      hide CallGroup, RecordCount, Exchange;
      var groups := CallGroups(calls, turnId);
      assert groups[..|groups| - 1] == CallGroups(calls[..|calls| - 1], turnId);
    }
  }

  lemma UserSources(s: Scanned, turnId: string, id: string)
    requires ScanOk(s)
    ensures SourceCount(UserGroups(s, turnId), id) == EventCount(s.user, id)
  {
    if s.user.Some? {
      GroupCount(UserGroups(s, turnId)[0], id);
    }
  }

  // The complete reply is shown when the turn succeeded and omitted when it did not.
  lemma ReplySources(s: Scanned, turnId: string, id: string)
    requires ScanOk(s)
    ensures SourceCount(ReplyGroups(s, turnId), id) + OmittedCount(TurnOmitted(s), id)
        == EventCount(s.reply, id) + OmittedCount(s.omitted, id)
  {
    if s.reply.Some? && s.state.IsSuccessful() {
      GroupCount(ReplyGroups(s, turnId)[0], id);
    } else if s.reply.Some? {
      OmitCount(s.omitted, Omitted(s.reply.value.eventId, s.reply.value.seqNo, UnsuccessfulReply), id);
    }
    assert s.omitted + [] == s.omitted;
  }

  lemma TurnCount(s: Scanned, turnId: string, id: string)
    requires ScanOk(s) && forall i | 0 <= i < |s.calls| :: Exchange(s.calls[i])
    ensures SourceCount(TurnGroups(s, turnId), id) + OmittedCount(TurnOmitted(s), id) == ScanCount(s, id)
  {
    UserSources(s, turnId, id);
    CallSources(s.calls, turnId, id);
    ReplySources(s, turnId, id);
    SourceJoin(UserGroups(s, turnId), CallGroups(s.calls, turnId), id);
    SourceJoin(UserGroups(s, turnId) + CallGroups(s.calls, turnId), ReplyGroups(s, turnId), id);
    hide SourceCount, OmittedCount, CallCount, EventCount;
  }

  function ProjectedCount(p: Projection, id: string): nat {
    SourceCount(p.groups, id) + OmittedCount(p.omitted, id)
  }

  lemma AllAnswered(s: Scanned, events: seq<Event>)
    requires ScanOk(s) && !HasLooseEnds(s, events)
    ensures forall i | 0 <= i < |s.calls| :: Exchange(s.calls[i])
  {
  }

  lemma CloseCount(c: Config, s: Scanned, events: seq<Event>, out: Projection, count: nat, id: string)
    requires ScanOk(s) && events != [] && CloseTurn(c, s, events, out, count).Ok?
    ensures ProjectedCount(CloseTurn(c, s, events, out, count).value.0, id)
        == ProjectedCount(out, id) + ScanCount(s, id)
  {
    AllAnswered(s, events);
    hide ScanOk, HasLooseEnds, SourceCount, OmittedCount, TurnGroups, TurnOmitted, MessageCount, ScanCount;
    TurnCount(s, events[0].turnId, id);
    SourceJoin(out.groups, TurnGroups(s, events[0].turnId), id);
    OmittedJoin(out.omitted, TurnOmitted(s), id);
  }

  lemma {:induction false} ProjectCount(c: Config, rest: seq<Event>, out: Projection, seen: set<string>,
                                        ids: set<string>, count: nat, id: string)
    requires ProjectFrom(c, rest, out, seen, ids, count).Ok?
    ensures ProjectedCount(ProjectFrom(c, rest, out, seen, ids, count).value, id)
        == ProjectedCount(out, id) + IdCount(rest, id)
    decreases |rest|
  {
    hide ProjectedCount, CloseTurn, ScanTurn, ScanOk, ScanCount;
    if rest != [] {
      var n := RunLength(rest, rest[0].turnId);
      ScanTurnOk(rest[..n], ids);
      var s := ScanTurn(rest[..n], ids).value;
      ScanCounts(rest[..n], ids, id);
      CloseCount(c, s, rest[..n], out, count, id);
      var r := CloseTurn(c, s, rest[..n], out, count).value;
      ProjectCount(c, rest[n..], r.0, seen + {rest[0].turnId}, s.messageIds, r.1, id);
      IdJoin(rest[..n], rest[n..], id);
      assert rest[..n] + rest[n..] == rest;
    }
  }

  lemma {:induction false} InsertCount(omitted: seq<Omitted>, o: Omitted, id: string)
    ensures OmittedCount(InsertBySeq(omitted, o), id) == OmittedCount(omitted, id) + Once(o.eventId == id)
  {
    if omitted == [] || omitted[|omitted| - 1].seqNo <= o.seqNo {
      OmitCount(omitted, o, id);
    } else {
      InsertCount(omitted[..|omitted| - 1], o, id);
      OmitCount(InsertBySeq(omitted[..|omitted| - 1], o), omitted[|omitted| - 1], id);
    }
  }

  lemma {:induction false} SortCount(omitted: seq<Omitted>, id: string)
    ensures OmittedCount(SortBySeq(omitted), id) == OmittedCount(omitted, id)
  {
    if omitted != [] {
      SortCount(omitted[..|omitted| - 1], id);
      InsertCount(SortBySeq(omitted[..|omitted| - 1]), omitted[|omitted| - 1], id);
    }
  }

  lemma {:induction false} DistinctCount(events: seq<Event>, id: string)
    requires forall i, j | 0 <= i < j < |events| :: events[i].eventId != events[j].eventId
    ensures IdCount(events, id) == Once(exists i :: 0 <= i < |events| && events[i].eventId == id)
  {
    if events != [] {
      DistinctCount(events[..|events| - 1], id);
      if exists i :: 0 <= i < |events| - 1 && events[i].eventId == id {
        var i :| 0 <= i < |events| - 1 && events[i].eventId == id;
        assert events[..|events| - 1][i].eventId == id;
      }
    }
  }

  /** In every successful projection each source event occurs exactly once, as a source of one group or as one omitted
      entry; nothing else occurs. */
  lemma EachEventOnce(sessionId: string, c: Config, events: seq<Event>, id: string)
    requires Project(sessionId, c, events).Ok?
    ensures var p := Project(sessionId, c, events).value;
      SourceCount(p.groups, id) + OmittedCount(p.omitted, id)
          == Once(exists i :: 0 <= i < |events| && events[i].eventId == id)
  {
    hide ProjectFrom, Once;
    ProjectCount(c, events, Projection([], [], []), {}, {}, 0, id);
    SortCount(ProjectFrom(c, events, Projection([], [], []), {}, {}, 0).value.omitted, id);
    DistinctCount(events, id);
  }

  // ---------------------------------------------------------------------
  // The projector's loops.
  // ---------------------------------------------------------------------

  lemma {:induction false} FirstError(events: seq<Event>, messageIds: set<string>, i: nat)
    requires i <= |events| && ScanTurn(events[..i], messageIds).Err?
    ensures ScanTurn(events, messageIds) == ScanTurn(events[..i], messageIds)
    decreases |events|
  {
    if i < |events| {
      assert events[..|events| - 1][..i] == events[..i];
      FirstError(events[..|events| - 1], messageIds, i);
    } else {
      assert events[..i] == events;
    }
  }

  method ScanEvents(events: seq<Event>, messageIds: set<string>) returns (r: Outcome<Scanned>)
    ensures r == ScanTurn(events, messageIds)
  {
    var s := NewScan(messageIds);
    for i := 0 to |events|
      invariant ScanTurn(events[..i], messageIds) == Ok(s)
    {
      hide ScanEvent;
      assert events[..i + 1][..i] == events[..i];
      var t := ScanEvent(s, events[i]);
      if t.Err? {
        FirstError(events, messageIds, i + 1);
        return t;
      }
      s := t.value;
    }
    assert events[..|events|] == events;
    return Ok(s);
  }

  // Pushes groups one by one under the message limit.
  method PushGroups(groups: seq<Group>, start: nat, limit: nat) returns (count: Option<nat>)
    requires start <= limit
    ensures count == if start + MessageCount(groups) > limit then None else Some(start + MessageCount(groups))
  {
    var n := start;
    for i := 0 to |groups|
      invariant n == start + MessageCount(groups[..i]) <= limit
    {
      assert groups[..i + 1][..i] == groups[..i];
      n := n + |groups[i].messages|;
      if n > limit {
        CountGrows(groups, i + 1);
        return None;
      }
    }
    assert groups[..|groups|] == groups;
    return Some(n);
  }

  lemma {:induction false} CountGrows(groups: seq<Group>, i: nat)
    requires i <= |groups|
    ensures MessageCount(groups[..i]) <= MessageCount(groups)
  {
    if i < |groups| {
      CountGrows(groups[..|groups| - 1], i);
      assert groups[..|groups| - 1][..i] == groups[..i];
    } else {
      assert groups[..i] == groups;
    }
  }

  method CountRun(events: seq<Event>, turnId: string) returns (n: nat)
    ensures n == RunLength(events, turnId)
  {
    n := 0;
    assert events[0..] == events;
    while n < |events| && events[n].turnId == turnId
      invariant n <= |events| && RunLength(events, turnId) == n + RunLength(events[n..], turnId)
    {
      assert events[n..][1..] == events[n + 1..];
      n := n + 1;
    }
  }

  method CloseScanned(c: Config, s: Scanned, turn: seq<Event>, out: Projection,
                      count: nat) returns (r: Outcome<(Projection, nat)>)
    requires ScanOk(s) && turn != [] && count <= c.maxMessages
    ensures r == CloseTurn(c, s, turn, out, count) && (r.Ok? ==> r.value.1 <= c.maxMessages)
  {
    var turnId := turn[0].turnId;
    if HasLooseEnds(s, turn) {
      return Err(Unconfirmed(turnId));
    }
    AllAnswered(s, turn);
    hide HasLooseEnds, TurnGroups, TurnOmitted, MessageCount, ScanOk;
    var missing := s.state.IsSuccessful() && s.reply.None?;
    if missing && !c.omitLegacy {
      return Err(MissingReply(turnId));
    }
    var groups := TurnGroups(s, turnId);
    var pushed := PushGroups(groups, count, c.maxMessages);
    if pushed.None? {
      return Err(TooManyMessages);
    }
    return Ok((Projection(out.groups + groups, out.turns + [Turn(turnId, s.state, s.terminal, missing)],
        out.omitted + TurnOmitted(s)),
               pushed.value));
  }

  // One turn of ProjectFrom.
  lemma ProjectStep(c: Config, rest: seq<Event>, out: Projection, seen: set<string>, ids: set<string>, count: nat)
    requires rest != []
    ensures var turnId, n := rest[0].turnId, RunLength(rest, rest[0].turnId);
      (Blank(turnId) || turnId in seen) ==>
          ProjectFrom(c, rest, out, seen, ids, count) == Err(Malformed(rest[0].eventId))
    ensures var turnId, n := rest[0].turnId, RunLength(rest, rest[0].turnId);
      !Blank(turnId) && turnId !in seen && ScanTurn(rest[..n], ids).Err? ==>
        ProjectFrom(c, rest, out, seen, ids, count) == Err(ScanTurn(rest[..n], ids).error)
    ensures var turnId, n := rest[0].turnId, RunLength(rest, rest[0].turnId);
      !Blank(turnId) && turnId !in seen && ScanTurn(rest[..n], ids).Ok? ==>
        && n > 0 && ScanOk(ScanTurn(rest[..n], ids).value)
        && ProjectFrom(c, rest, out, seen, ids, count) ==
             ProjectAfter(c, rest, n, seen, ScanTurn(rest[..n], ids).value,
                          CloseTurn(c, ScanTurn(rest[..n], ids).value, rest[..n], out, count))
  {
    ScanTurnOk(rest[..RunLength(rest, rest[0].turnId)], ids);
    hide ScanTurn, ScanOk, CloseTurn, RunLength;
  }

  function ProjectAfter(c: Config, rest: seq<Event>, n: nat, seen: set<string>, s: Scanned,
                        r: Outcome<(Projection, nat)>): Outcome<Projection>
    requires rest != [] && 0 < n <= |rest|
  {
    if r.Err? then Err(r.error)
    else if n < |rest| && s.state.Open? then Err(Unconfirmed(rest[0].turnId))
    else ProjectFrom(c, rest[n..], r.value.0, seen + {rest[0].turnId}, s.messageIds, r.value.1)
  }

  method ProjectLog(sessionId: string, c: Config, events: seq<Event>) returns (r: Outcome<Projection>)
    ensures r == Project(sessionId, c, events)
  {
    if Blank(sessionId) || c.maxEvents == 0 || c.maxMessages == 0 {
      return Err(InvalidConfig);
    }
    if |events| > c.maxEvents {
      return Err(TooManyEvents);
    }
    if !PhysicalOk(sessionId, events) {
      return Err(Physical);
    }
    var projected := ProjectTurns(c, events);
    return if projected.Err? then projected else Ok(projected.value.(omitted := SortBySeq(projected.value.omitted)));
  }

  method ProjectTurns(c: Config, events: seq<Event>) returns (r: Outcome<Projection>)
    ensures r == ProjectFrom(c, events, Projection([], [], []), {}, {}, 0)
  {
    hide *;
    var rest, out, seen: set<string>, ids: set<string>, count: nat := events, Projection([], [], []), {}, {}, 0;
    ghost var goal := ProjectFrom(c, rest, out, seen, ids, count);
    while rest != []
      invariant count <= c.maxMessages && goal == ProjectFrom(c, rest, out, seen, ids, count)
      decreases |rest|
    {
      var turnId := rest[0].turnId;
      ProjectStep(c, rest, out, seen, ids, count);
      if Blank(turnId) || turnId in seen {
        return Err(Malformed(rest[0].eventId));
      }
      var n := CountRun(rest, turnId);
      var s := ScanEvents(rest[..n], ids);
      if s.Err? {
        return Err(s.error);
      }
      var closed := CloseScanned(c, s.value, rest[..n], out, count);
      AfterClose(c, rest, n, seen, s.value, closed);
      if closed.Err? {
        return Err(closed.error);
      }
      if n < |rest| && s.value.state.Open? {
        return Err(Unconfirmed(turnId));
      }
      rest, out, seen, ids, count := rest[n..], closed.value.0, seen + {turnId}, s.value.messageIds, closed.value.1;
    }
    NothingLeft(c, out, seen, ids, count);
    return Ok(out);
  }

  lemma NothingLeft(c: Config, out: Projection, seen: set<string>, ids: set<string>, count: nat)
    ensures ProjectFrom(c, [], out, seen, ids, count) == Ok(out)
  {
  }

  lemma AfterClose(c: Config, rest: seq<Event>, n: nat, seen: set<string>, s: Scanned, r: Outcome<(Projection, nat)>)
    requires rest != [] && 0 < n <= |rest|
    ensures ProjectAfter(c, rest, n, seen, s, r) ==
      if r.Err? then Err(r.error)
      else if n < |rest| && s.state.Open? then Err(Unconfirmed(rest[0].turnId))
      else ProjectFrom(c, rest[n..], r.value.0, seen + {rest[0].turnId}, s.messageIds, r.value.1)
  {
    hide ProjectFrom;
  }
}
