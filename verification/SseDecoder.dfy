/** The streaming decoder and the accumulator it shares with the runtime
    (crates/llm/openai/src/sse.rs, crates/core/core/src/model.rs). */
module SseDecoder {
  import opened ByteStrings
  import opened BudgetTypes

  // Strings are their UTF-8 bytes.
  type Text = Bytes

  // ---------------------------------------------------------------------
  // Deltas and their accumulation.
  // ---------------------------------------------------------------------

  datatype Delta = TextDelta(text: Text) | CallDelta(index: nat, id: Option<Text>, name: Option<Text>, arguments: Text)

  datatype Fragment = Fragment(index: nat, id: Text, name: Text, arguments: Text)

  datatype Limits = Limits(maxBytes: nat, maxCalls: nat)

  datatype Acc = Acc(content: Option<Text>, calls: seq<Fragment>, bytes: nat)

  const NO_DELTAS := Acc(None, [], 0)

  function OrEmpty(t: Option<Text>): Text {
    if t.Some? then t.value else []
  }

  function DeltaBytes(d: Delta): nat {
    match d
    case TextDelta(text) => |text|
    case CallDelta(_, id, name, arguments) => |OrEmpty(id)| + |OrEmpty(name)| + |arguments|
  }

  function FindCall(calls: seq<Fragment>, index: nat): (i: Option<nat>)
    ensures i.Some? ==> i.value < |calls| && calls[i.value].index == index
    ensures i.None? ==> forall j | 0 <= j < |calls| :: calls[j].index != index
  {
    if calls == [] then None
    else if calls[0].index == index then Some(0)
    else
      var i := FindCall(calls[1..], index);
      if i.None? then None else Some(i.value + 1)
  }

  function Extend(f: Fragment, d: Delta): Fragment
    requires d.CallDelta?
  {
    f.(id := f.id + OrEmpty(d.id), name := f.name + OrEmpty(d.name), arguments := f.arguments + d.arguments)
  }

  // None when a limit would be exceeded.
  function PushDelta(l: Limits, a: Acc, d: Delta): Option<Acc> {
    if a.bytes + DeltaBytes(d) > l.maxBytes then None
    else
      var b := a.(bytes := a.bytes + DeltaBytes(d));
      match d
      case TextDelta(text) => Some(b.(content := Some(OrEmpty(a.content) + text)))
      case CallDelta(index, _, _, _) =>
        var i := FindCall(a.calls, index);
        if i.Some? then Some(b.(calls := a.calls[i.value := Extend(a.calls[i.value], d)]))
        else if |a.calls| >= l.maxCalls then None
        else Some(b.(calls := a.calls + [Extend(Fragment(index, [], [], []), d)]))
  }

  function PushDeltas(l: Limits, a: Acc, ds: seq<Delta>): Option<Acc>
    decreases |ds|
  {
    if ds == [] then Some(a)
    else
      var b := PushDeltas(l, a, ds[..|ds| - 1]);
      if b.None? then None else PushDelta(l, b.value, ds[|ds| - 1])
  }

  // ----- responses -----

  datatype Reason = StopReason | ToolCallsReason | OtherReason(name: Text)

  type Usage = nat
  datatype ToolCall = ToolCall(id: Text, name: Text, arguments: Text)

  datatype Response = Response(
    content: Option<Text>, toolCalls: seq<ToolCall>, incomplete: seq<Fragment>, reason: Reason, usage: Usage)

  function InsertByIndex(calls: seq<Fragment>, f: Fragment): seq<Fragment> {
    if calls == [] || calls[|calls| - 1].index <= f.index then calls + [f]
    else InsertByIndex(calls[..|calls| - 1], f) + [calls[|calls| - 1]]
  }

  function SortByIndex(calls: seq<Fragment>): seq<Fragment> {
    if calls == [] then [] else InsertByIndex(SortByIndex(calls[..|calls| - 1]), calls[|calls| - 1])
  }

  // The adapter's parsers: UTF-8 validity, blank and "[DONE]" data, one JSON chunk, one complete tool call.
  datatype Wire = Wire(
    utf8: Bytes -> bool, blank: Bytes -> bool, finished: Bytes -> bool, chunk: Bytes -> Option<Chunk>,
        call: Fragment -> Option<ToolCall>)

  function ToolCalls(w: Wire, fragments: seq<Fragment>): Option<seq<ToolCall>> {
    if fragments == [] then Some([])
    else
      var rest, last := ToolCalls(w, fragments[..|fragments| - 1]), w.call(fragments[|fragments| - 1]);
      if rest.None? || last.None? then None else Some(rest.value + [last.value])
  }

  function Respond(w: Wire, a: Acc, reason: Reason, usage: Usage): Option<Response> {
    var fragments := SortByIndex(a.calls);
    if reason.StopReason? || reason.ToolCallsReason? then
      var calls := ToolCalls(w, fragments);
      if calls.None? then None else Some(Response(a.content, calls.value, [], reason, usage))
    else Some(Response(a.content, [], fragments, reason, usage))
  }

  predicate VerifyTerminal(w: Wire, a: Acc, r: Response) {
    Respond(w, a, r.reason, r.usage) == Some(r)
  }

  // ---------------------------------------------------------------------
  // Wire chunks and the decoder.
  // ---------------------------------------------------------------------

  datatype CallPart = CallPart(isFunction: bool, index: nat, id: Option<Text>, name: Option<Text>,
                               arguments: Option<Text>)
  datatype Choice = Choice(
    index: nat, isAssistant: bool, hasFunctionCall: bool, content: Option<Text>, calls: seq<CallPart>,
        finish: Option<Reason>)
  datatype Chunk = Chunk(usage: Option<Usage>, choices: seq<Choice>)

  datatype Error =
    | OutputLimit | InvalidUtf8 | InvalidJson | MultipleChoices | BadChoice | Unsupported | MissingTerminal
    | BadResponse

  datatype StreamEvent = DeltaEvent(delta: Delta) | Finished(response: Response)

  datatype State = State(
    line: Bytes, data: seq<Bytes>, acc: Acc, reason: Option<Reason>, usage: Usage, done: bool, bytes: nat)

  const NEW := State([], [], NO_DELTAS, None, 0, false, 0)

  datatype Fed = Fed(state: State, events: seq<StreamEvent>) | Failed(error: Error)

  // b done after a.
  function Followed(a: Fed, b: Fed): Fed {
    if a.Failed? then a else if b.Failed? then b else Fed(b.state, a.events + b.events)
  }

  function Emit(l: Limits, s: State, d: Delta): Fed {
    var acc := PushDelta(l, s.acc, d);
    if acc.None? then Failed(OutputLimit) else Fed(s.(acc := acc.value), [DeltaEvent(d)])
  }

  function PartDelta(p: CallPart): Delta {
    CallDelta(p.index, p.id, p.name, OrEmpty(p.arguments))
  }

  function EmitCalls(l: Limits, s: State, parts: seq<CallPart>): Fed
    decreases |parts|
  {
    if parts == [] then Fed(s, [])
    else if !parts[0].isFunction then Failed(Unsupported)
    else
      var a := Emit(l, s, PartDelta(parts[0]));
      if a.Failed? then a else Followed(a, EmitCalls(l, a.state, parts[1..]))
  }

  function EmitChoice(l: Limits, s: State, c: Choice): Fed {
    if c.index != 0 || s.reason.Some? then Failed(BadChoice)
    else if !c.isAssistant || c.hasFunctionCall then Failed(Unsupported)
    else
      var a := if c.content.Some? then Emit(l, s, TextDelta(c.content.value)) else Fed(s, []);
      if a.Failed? then a
      else
        var b := Followed(a, EmitCalls(l, a.state, c.calls));
        if b.Fed? && c.finish.Some? then Fed(b.state.(reason := c.finish), b.events) else b
  }

  function Join(parts: seq<Bytes>): Bytes {
    if parts == [] then []
    else if |parts| == 1 then parts[0] else Join(parts[..|parts| - 1]) + [NEWLINE] + parts[|parts| - 1]
  }

  // A blank line ends one SSE event.
  function Dispatch(w: Wire, l: Limits, s: State): Fed {
    var data, t := Join(s.data), s.(data := []);
    if s.data == [] then Fed(s, [])
    else if w.blank(data) then Fed(t, [])
    else if w.finished(data) then
      if s.reason.None? then Failed(MissingTerminal)
      else
        var r := Respond(w, s.acc, s.reason.value, s.usage);
        if r.None? then Failed(BadResponse) else Fed(t.(done := true), [Finished(r.value)])
    else
      var chunk := w.chunk(data);
      if chunk.None? then Failed(InvalidJson)
      else
        var u := if chunk.value.usage.Some? then t.(usage := chunk.value.usage.value) else t;
        if |chunk.value.choices| > 1 then Failed(MultipleChoices)
        else if chunk.value.choices == [] then Fed(u, [])
        else EmitChoice(l, u, chunk.value.choices[0])
  }

  function TrimReturns(line: Bytes): Bytes {
    if line != [] && line[|line| - 1] == RETURN then TrimReturns(line[..|line| - 1]) else line
  }

  const DATA: Bytes := [100, 97, 116, 97, 58]

  // The data of a "data:" line, without one leading space.
  function DataOf(line: Bytes): Option<Bytes> {
    if DATA <= line then
      var rest := line[|DATA|..];
      Some(if rest != [] && rest[0] == SPACE then rest[1..] else rest)
    else None
  }

  function FeedByte(w: Wire, l: Limits, s: State, b: byte): Fed {
    if s.done then Fed(s, [])
    else if b != NEWLINE then Fed(s.(line := s.line + [b]), [])
    else
      var t, line := s.(line := []), TrimReturns(s.line);
      if !w.utf8(s.line) then Failed(InvalidUtf8)
      else if line == [] then Dispatch(w, l, t)
      else if DataOf(line).Some? then Fed(t.(data := t.data + [DataOf(line).value]), [])
      else Fed(t, [])
  }

  function Feed(w: Wire, l: Limits, s: State, bytes: Bytes): Fed
    decreases |bytes|
  {
    if bytes == [] then Fed(s, [])
    else
      var a := Feed(w, l, s, bytes[..|bytes| - 1]);
      if a.Failed? then a else Followed(a, FeedByte(w, l, a.state, bytes[|bytes| - 1]))
  }

  function Push(w: Wire, l: Limits, s: State, bytes: Bytes): Fed {
    if s.bytes + |bytes| > l.maxBytes then Failed(OutputLimit)
    else Feed(w, l, s.(bytes := s.bytes + |bytes|), bytes)
  }

  datatype Ending = Reached(state: State) | Broke(error: Error)

  // What a caller has seen after several pushes: the events of those that succeeded, and how they ended.
  datatype Delivery = Delivery(events: seq<StreamEvent>, end: Ending)

  // Several pushes, each delivering its events before the next, until one fails and delivers none.
  function PushAll(w: Wire, l: Limits, s: State, chunks: seq<Bytes>): Delivery
    decreases |chunks|
  {
    if chunks == [] then Delivery([], Reached(s))
    else
      var before := PushAll(w, l, s, chunks[..|chunks| - 1]);
      if before.end.Broke? then before
      else
        match Push(w, l, before.end.state, chunks[|chunks| - 1])
        case Fed(t, events) => Delivery(before.events + events, Reached(t))
        case Failed(error) => Delivery(before.events, Broke(error))
  }

  function Concat(chunks: seq<Bytes>): Bytes {
    if chunks == [] then [] else Concat(chunks[..|chunks| - 1]) + chunks[|chunks| - 1]
  }

  // ---------------------------------------------------------------------
  // Chunking does not matter.
  // ---------------------------------------------------------------------

  lemma {:induction false} FeedSplit(w: Wire, l: Limits, s: State, a: Bytes, b: Bytes)
    ensures Feed(w, l, s, a + b) ==
      if Feed(w, l, s, a).Failed? then Feed(w, l, s, a)
      else Followed(Feed(w, l, s, a), Feed(w, l, Feed(w, l, s, a).state, b))
    decreases |b|
  {
    hide FeedByte;
    if b == [] {
      assert a + b == a;
    } else {
      var all := a + b;
      assert all[..|all| - 1] == a + b[..|b| - 1] && all[|all| - 1] == b[|b| - 1];
      FeedSplit(w, l, s, a, b[..|b| - 1]);
    }
  }

  lemma FeedNext(w: Wire, l: Limits, s: State, bytes: Bytes, i: nat)
    requires i < |bytes| && Feed(w, l, s, bytes[..i]).Fed?
    ensures Feed(w, l, s, bytes[..i + 1]) ==
      Followed(Feed(w, l, s, bytes[..i]), FeedByte(w, l, Feed(w, l, s, bytes[..i]).state, bytes[i]))
    ensures Feed(w, l, s, bytes[..i + 1]).Failed? ==> Feed(w, l, s, bytes) == Feed(w, l, s, bytes[..i + 1])
  {
    hide FeedByte;
    assert bytes[..i + 1][..i] == bytes[..i];
    FeedSplit(w, l, s, bytes[..i + 1], bytes[i + 1..]);
    assert bytes[..i + 1] + bytes[i + 1..] == bytes;
  }

  // The byte count only matters to the limit.
  function Counted(r: Fed, n: nat): Fed {
    if r.Failed? then r else Fed(r.state.(bytes := n), r.events)
  }

  lemma {:induction false} EmitCallsCount(l: Limits, s: State, parts: seq<CallPart>, n: nat)
    ensures EmitCalls(l, s.(bytes := n), parts) == Counted(EmitCalls(l, s, parts), n)
    decreases |parts|
  {
    hide PushDelta;
    if parts != [] {
      var a := Emit(l, s, PartDelta(parts[0]));
      if a.Fed? {
        EmitCallsCount(l, a.state, parts[1..], n);
      }
    }
  }

  lemma DispatchCount(w: Wire, l: Limits, s: State, n: nat)
    ensures Dispatch(w, l, s.(bytes := n)) == Counted(Dispatch(w, l, s), n)
  {
    hide Join, EmitCalls, PushDelta, Respond;
    var data := Join(s.data);
    if s.data != [] && !w.blank(data) && !w.finished(data) && w.chunk(data).Some?
        && |w.chunk(data).value.choices| == 1 {
      var chunk := w.chunk(data).value;
      var u := if chunk.usage.Some? then s.(data := [], usage := chunk.usage.value) else s.(data := []);
      var c := chunk.choices[0];
      var a := if c.content.Some? then Emit(l, u, TextDelta(c.content.value)) else Fed(u, []);
      if a.Fed? {
        EmitCallsCount(l, a.state, c.calls, n);
      }
    }
  }

  lemma {:induction false} FeedCount(w: Wire, l: Limits, s: State, bytes: Bytes, n: nat)
    ensures Feed(w, l, s.(bytes := n), bytes) == Counted(Feed(w, l, s, bytes), n)
    decreases |bytes|
  {
    hide Dispatch, TrimReturns, DataOf;
    if bytes != [] {
      FeedCount(w, l, s, bytes[..|bytes| - 1], n);
      var a := Feed(w, l, s, bytes[..|bytes| - 1]);
      if a.Fed? {
        DispatchCount(w, l, a.state.(line := []), n);
      }
    }
  }

  lemma FeedKeepsCount(w: Wire, l: Limits, s: State, bytes: Bytes)
    ensures Feed(w, l, s, bytes).Fed? ==> Feed(w, l, s, bytes).state.bytes == s.bytes
  {
    FeedCount(w, l, s, bytes, s.bytes);
  }

  // A failure stays whatever bytes follow.
  lemma FailsOn(w: Wire, l: Limits, s: State, a: Bytes, b: Bytes)
    requires s.bytes + |a| + |b| <= l.maxBytes && Push(w, l, s, a).Failed?
    ensures Push(w, l, s, a + b) == Push(w, l, s, a)
  {
    hide Feed;
    var n, m := s.bytes + |a|, s.bytes + |a + b|;
    FeedSplit(w, l, s.(bytes := m), a, b);
    FeedCount(w, l, s, a, n);
    FeedCount(w, l, s, a, m);
  }

  // Pushing b after a is pushing both at once.
  lemma PushSplit(w: Wire, l: Limits, s: State, a: Bytes, b: Bytes)
    requires Push(w, l, s, a).Fed?
    ensures Push(w, l, s, a + b) == Followed(Push(w, l, s, a), Push(w, l, Push(w, l, s, a).state, b))
  {
    hide Feed;
    var n, m := s.bytes + |a|, s.bytes + |a + b|;
    FeedSplit(w, l, s.(bytes := m), a, b);
    FeedCount(w, l, s, a, n);
    FeedCount(w, l, s, a, m);
  }

  // The number of leading chunks that can be pushed; the next one fails.
  function Completed(w: Wire, l: Limits, s: State, chunks: seq<Bytes>): (k: nat)
    ensures k <= |chunks|
    decreases |chunks|
  {
    if chunks == [] || Push(w, l, s, Concat(chunks)).Fed? then |chunks| else Completed(w, l, s, chunks[..|chunks| - 1])
  }

  lemma {:induction false} CompletedAt(w: Wire, l: Limits, s: State, chunks: seq<Bytes>)
    requires s.bytes <= l.maxBytes
    ensures var k := Completed(w, l, s, chunks);
      && k <= |chunks| && Push(w, l, s, Concat(chunks[..k])).Fed?
      && (k < |chunks| ==> Push(w, l, s, Concat(chunks[..k + 1])).Failed?)
    decreases |chunks|
  {
    hide Push;
    assert chunks[..|chunks|] == chunks;
    if chunks == [] {
      assert Push(w, l, s, []).Fed? by { FeedNothing(w, l, s.(bytes := s.bytes)); PushNothing(w, l, s); }
    } else if Push(w, l, s, Concat(chunks)).Failed? {
      var init := chunks[..|chunks| - 1];
      var k := Completed(w, l, s, init);
      CompletedAt(w, l, s, init);
      assert init[..k] == chunks[..k];
      if k < |init| {
        assert init[..k + 1] == chunks[..k + 1];
      }
    }
  }

  lemma PushNothing(w: Wire, l: Limits, s: State)
    requires s.bytes <= l.maxBytes
    ensures Push(w, l, s, []) == Fed(s, [])
  {
    FeedNothing(w, l, s);
  }

  // All chunks pushed: the same as one push. Else: what the chunks before the failing one give, and its error.
  ghost predicate PushedTo(w: Wire, l: Limits, s: State, chunks: seq<Bytes>, k: nat)
    requires k <= |chunks|
  {
    var done, p := Push(w, l, s, Concat(chunks[..k])), PushAll(w, l, s, chunks);
    && done.Fed? && p.events == done.events
    && (k == |chunks| ==> p.end == Reached(done.state))
    && (k < |chunks| ==> var broken := Push(w, l, s, Concat(chunks[..k + 1]));
        broken.Failed? && p.end == Broke(broken.error))
  }

  lemma PushedNext(w: Wire, l: Limits, s: State, chunks: seq<Bytes>)
    requires chunks != [] && PushedTo(w, l, s, chunks[..|chunks| - 1], |chunks| - 1)
    ensures PushedTo(w, l, s, chunks, if Push(w, l, s, Concat(chunks)).Fed? then |chunks| else |chunks| - 1)
  {
    hide Push;
    var init, last := chunks[..|chunks| - 1], chunks[|chunks| - 1];
    assert init[..|init|] == init && chunks[..|init|] == init && chunks[..|chunks|] == chunks;
    PushSplit(w, l, s, Concat(init), last);
  }

  lemma PushedStays(w: Wire, l: Limits, s: State, chunks: seq<Bytes>, k: nat)
    requires chunks != [] && k < |chunks| - 1 && PushedTo(w, l, s, chunks[..|chunks| - 1], k)
    ensures PushedTo(w, l, s, chunks, k)
  {
    hide Push;
    var init := chunks[..|chunks| - 1];
    assert init[..k] == chunks[..k] && init[..k + 1] == chunks[..k + 1];
  }

  lemma {:induction false} PushedUpTo(w: Wire, l: Limits, s: State, chunks: seq<Bytes>)
    requires s.bytes <= l.maxBytes
    ensures Completed(w, l, s, chunks) <= |chunks| && PushedTo(w, l, s, chunks, Completed(w, l, s, chunks))
    decreases |chunks|
  {
    hide Push, PushedTo;
    CompletedAt(w, l, s, chunks);
    if chunks == [] {
      PushedNone(w, l, s);
    } else {
      var init := chunks[..|chunks| - 1];
      PushedUpTo(w, l, s, init);
      var k := Completed(w, l, s, init);
      if k == |init| {
        PushedNext(w, l, s, chunks);
        CompletedNext(w, l, s, chunks);
      } else {
        PushedStays(w, l, s, chunks, k);
        CompletedStays(w, l, s, chunks);
      }
    }
  }

  lemma PushedNone(w: Wire, l: Limits, s: State)
    requires s.bytes <= l.maxBytes
    ensures PushedTo(w, l, s, [], 0)
  {
    PushNothing(w, l, s);
  }

  lemma CompletedNext(w: Wire, l: Limits, s: State, chunks: seq<Bytes>)
    requires chunks != [] && Completed(w, l, s, chunks[..|chunks| - 1]) == |chunks| - 1
    ensures Completed(w, l, s, chunks) == if Push(w, l, s, Concat(chunks)).Fed? then |chunks| else |chunks| - 1
  {
    hide Push;
  }

  // After a failing chunk the whole fails too.
  lemma CompletedStays(w: Wire, l: Limits, s: State, chunks: seq<Bytes>)
    requires chunks != [] && s.bytes <= l.maxBytes && Completed(w, l, s, chunks[..|chunks| - 1]) < |chunks| - 1
    ensures Completed(w, l, s, chunks) == Completed(w, l, s, chunks[..|chunks| - 1])
  {
    var init, last := chunks[..|chunks| - 1], chunks[|chunks| - 1];
    assert Push(w, l, s, Concat(init)).Failed? by { hide Push; }
    hide Feed, Completed;
    if s.bytes + |Concat(init)| + |last| <= l.maxBytes {
      FailsOn(w, l, s, Concat(init), last);
    }
    CompletedLess(w, l, s, chunks);
  }

  lemma CompletedLess(w: Wire, l: Limits, s: State, chunks: seq<Bytes>)
    requires chunks != [] && Push(w, l, s, Concat(chunks)).Failed?
    ensures Completed(w, l, s, chunks) == Completed(w, l, s, chunks[..|chunks| - 1])
  {
    hide Push;
  }

  lemma {:induction false} ConcatSplit(chunks: seq<Bytes>, k: nat)
    requires k <= |chunks|
    ensures Concat(chunks[..k]) + Concat(chunks[k..]) == Concat(chunks)
    decreases |chunks|
  {
    if k == |chunks| {
      assert chunks[..k] == chunks && chunks[k..] == [];
    } else {
      var init, rest := chunks[..|chunks| - 1], chunks[k..];
      ConcatSplit(init, k);
      assert init[..k] == chunks[..k] && init[k..] == rest[..|rest| - 1] && rest[|rest| - 1] == chunks[|chunks| - 1];
    }
  }

  function EventsOf(r: Fed): seq<StreamEvent> {
    if r.Fed? then r.events else []
  }

  lemma PushedEvents(w: Wire, l: Limits, s: State, bytes: Bytes)
    ensures Push(w, l, s, bytes).Fed? ==>
        Feed(w, l, s, bytes).Fed? && Push(w, l, s, bytes).events == Feed(w, l, s, bytes).events
  {
    hide Feed;
    FeedCount(w, l, s, bytes, s.bytes + |bytes|);
  }

  // The chunks deliver the events of those before the failing one, if one fails, and end well only if none does.
  lemma Delivers(w: Wire, l: Limits, s: State, chunks: seq<Bytes>)
    requires s.bytes <= l.maxBytes
    ensures var k, p := Completed(w, l, s, chunks), PushAll(w, l, s, chunks);
      p.events == EventsOf(Feed(w, l, s, Concat(chunks[..k]))) && (k == |chunks| <==> p.end.Reached?)
  {
    PushedUpTo(w, l, s, chunks);
    PushedEvents(w, l, s, Concat(chunks[..Completed(w, l, s, chunks)]));
    hide Push, Feed, Completed, PushAll, Concat;
  }

  // The error is that of one push.
  lemma SameError(w: Wire, l: Limits, s: State, chunks: seq<Bytes>)
    requires s.bytes + |Concat(chunks)| <= l.maxBytes && Push(w, l, s, Concat(chunks)).Failed?
    ensures PushAll(w, l, s, chunks).end == Broke(Push(w, l, s, Concat(chunks)).error)
  {
    var k := Completed(w, l, s, chunks);
    PushedUpTo(w, l, s, chunks);
    assert chunks[..|chunks|] == chunks;
    hide Push, Completed, PushAll, Concat;
    if k < |chunks| {
      ConcatSplit(chunks, k + 1);
      FailsOn(w, l, s, Concat(chunks[..k + 1]), Concat(chunks[k + 1..]));
    }
  }

  /** Within the byte limit, however a stream is cut into chunks, even inside a UTF-8 scalar: when it can be pushed
      at once, the chunks deliver the same events and reach the same state; when it cannot, they end in the same
      error, after delivering exactly the events of the chunks before the failing one. */
  lemma ChunkingIrrelevant(w: Wire, l: Limits, s: State, chunks: seq<Bytes>)
    requires s.bytes + |Concat(chunks)| <= l.maxBytes
    ensures var once := Push(w, l, s, Concat(chunks));
      var before := EventsOf(Feed(w, l, s, Concat(chunks[..Completed(w, l, s, chunks)])));
      PushAll(w, l, s, chunks) ==
        if once.Fed? then Delivery(once.events, Reached(once.state)) else Delivery(before, Broke(once.error))
  {
    Delivers(w, l, s, chunks);
    PushedUpTo(w, l, s, chunks);
    CompletedAll(w, l, s, chunks);
    assert chunks[..|chunks|] == chunks;
    hide Push, Feed, Completed, PushAll, Concat;
    if Push(w, l, s, Concat(chunks)).Failed? {
      SameError(w, l, s, chunks);
    }
  }

  lemma CompletedAll(w: Wire, l: Limits, s: State, chunks: seq<Bytes>)
    ensures Push(w, l, s, Concat(chunks)).Fed? ==> Completed(w, l, s, chunks) == |chunks|
  {
    hide Push;
  }

  /** The delivered events, and how it ended, are those of one push exactly when that push succeeds or the chunks before
      the failing one emit nothing: a failing push keeps its events to itself, earlier pushes do not. */
  lemma ChunkedIffOnce(w: Wire, l: Limits, s: State, chunks: seq<Bytes>)
    requires s.bytes + |Concat(chunks)| <= l.maxBytes
    ensures var k := Completed(w, l, s, chunks);
      PushAll(w, l, s, chunks) == PushAll(w, l, s, [Concat(chunks)])
      <==> Push(w, l, s, Concat(chunks)).Fed? || EventsOf(Feed(w, l, s, Concat(chunks[..k]))) == []
  {
    ChunkingIrrelevant(w, l, s, chunks);
    PushAllOne(w, l, s, Concat(chunks));
    CompletedAll(w, l, s, chunks);
    hide Push, Feed, Completed, PushAll;
  }

  lemma PushAllOne(w: Wire, l: Limits, s: State, bytes: Bytes)
    ensures PushAll(w, l, s, [bytes]) == match Push(w, l, s, bytes)
      case Fed(t, events) => Delivery(events, Reached(t))
      case Failed(error) => Delivery([], Broke(error))
  {
    hide Push;
    assert [bytes][..0] == [];
  }

  // Bytes without a newline only extend the line.
  lemma {:induction false} FeedPlain(w: Wire, l: Limits, s: State, bytes: Bytes)
    requires !s.done && NEWLINE !in bytes
    ensures Feed(w, l, s, bytes) == Fed(s.(line := s.line + bytes), [])
    decreases |bytes|
  {
    if bytes != [] {
      FeedPlain(w, l, s, bytes[..|bytes| - 1]);
      assert s.line + bytes == s.line + bytes[..|bytes| - 1] + [bytes[|bytes| - 1]];
    }
  }

  lemma FeedNewline(w: Wire, l: Limits, s: State)
    ensures Feed(w, l, s, [NEWLINE]) == FeedByte(w, l, s, NEWLINE)
  {
    hide FeedByte;
    assert [NEWLINE][..0] == [];
    var r := FeedByte(w, l, s, NEWLINE);
    assert r.Fed? ==> [] + r.events == r.events;
  }

  lemma FeedLine(w: Wire, l: Limits, s: State, line: Bytes)
    requires !s.done && NEWLINE !in line
    ensures Feed(w, l, s, line + [NEWLINE]) == FeedByte(w, l, s.(line := s.line + line), NEWLINE)
  {
    FeedSplit(w, l, s, line, [NEWLINE]);
    FeedPlain(w, l, s, line);
    FeedNewline(w, l, s.(line := s.line + line));
    hide Feed, FeedByte;
    var r := FeedByte(w, l, s.(line := s.line + line), NEWLINE);
    assert r.Fed? ==> [] + r.events == r.events;
  }

  // json is the data of one event in one line, and the parsers read it as one piece of text.
  ghost predicate ReadsText(w: Wire, json: Bytes, text: Text) {
    && json != [] && NEWLINE !in json && json[0] != SPACE && json[|json| - 1] != RETURN
    && w.utf8(DATA + json) && w.utf8([]) && !w.blank(json) && !w.finished(json)
    && w.chunk(json) == Some(Chunk(None, [Choice(0, true, false, Some(text), [], None)]))
  }

  // A data line and the blank line that ends its event.
  function TextEvent(json: Bytes): Bytes {
    DATA + json + [NEWLINE] + [NEWLINE]
  }

  // The byte 255 begins no UTF-8 scalar.
  const BAD_LINE: Bytes := [255] + [NEWLINE]

  lemma TextLine(w: Wire, l: Limits, s: State, json: Bytes, text: Text)
    requires ReadsText(w, json, text) && s.line == [] && s.data == [] && !s.done
    ensures Feed(w, l, s, DATA + json + [NEWLINE]) == Fed(s.(data := [json]), [])
  {
    var line := DATA + json;
    assert line[5..] == json && line[|line| - 1] == json[|json| - 1];
    assert TrimReturns(line) == line && DataOf(line) == Some(json);
    FeedLine(w, l, s, line);
    hide Feed, Dispatch, TrimReturns, DataOf;
    assert [] + line == line;
  }

  lemma TextGiven(w: Wire, l: Limits, s: State, json: Bytes, text: Text)
    requires ReadsText(w, json, text) && s.data == [json] && s.acc == NO_DELTAS && s.reason.None?
    requires s.line == [] && !s.done && |text| <= l.maxBytes
    ensures Feed(w, l, s, [NEWLINE])
      == Fed(s.(data := [], acc := Acc(Some(text), [], |text|)), [DeltaEvent(TextDelta(text))])
  {
    FeedNewline(w, l, s);
    hide Feed;
    assert [] + text == text && Join([json]) == json;
    assert Dispatch(w, l, s)
      == Fed(s.(data := [], acc := Acc(Some(text), [], |text|)), [DeltaEvent(TextDelta(text))]);
  }

  lemma TextPushed(w: Wire, l: Limits, json: Bytes, text: Text)
    requires ReadsText(w, json, text) && |text| <= l.maxBytes && |json| + 7 <= l.maxBytes
    ensures var r := Push(w, l, NEW, TextEvent(json));
      && r.Fed? && r.events == [DeltaEvent(TextDelta(text))]
      && r.state.line == [] && !r.state.done && r.state.bytes == |json| + 7
  {
    var s := NEW.(bytes := |json| + 7);
    TextLine(w, l, s, json, text);
    TextGiven(w, l, s.(data := [json]), json, text);
    FeedSplit(w, l, s, DATA + json + [NEWLINE], [NEWLINE]);
    hide Feed, ReadsText;
  }

  lemma BadLineFails(w: Wire, l: Limits, s: State)
    requires !w.utf8([255]) && s.line == [] && !s.done && s.bytes + 2 <= l.maxBytes
    ensures Push(w, l, s, BAD_LINE) == Failed(InvalidUtf8)
  {
    var t := s.(bytes := s.bytes + 2);
    FeedLine(w, l, t, [255]);
    hide Feed, Dispatch;
    assert t.line + [255] == [255];
  }

  /** So one event of text and one line that is no UTF-8 deliver the text when pushed apart, and nothing when pushed
      together. */
  lemma EarlierEventsSurvive(w: Wire, l: Limits, json: Bytes, text: Text)
    requires ReadsText(w, json, text) && !w.utf8([255]) && |text| <= l.maxBytes && |json| + 9 <= l.maxBytes
    ensures PushAll(w, l, NEW, [TextEvent(json), BAD_LINE])
      == Delivery([DeltaEvent(TextDelta(text))], Broke(InvalidUtf8))
    ensures PushAll(w, l, NEW, [TextEvent(json) + BAD_LINE]) == Delivery([], Broke(InvalidUtf8))
  {
    hide ReadsText;
    var good := TextEvent(json);
    TextPushed(w, l, json, text);
    BadLineFails(w, l, Push(w, l, NEW, good).state);
    PushSplit(w, l, NEW, good, BAD_LINE);
    PushAllOne(w, l, NEW, good + BAD_LINE);
    PushAllOne(w, l, NEW, good);
    hide Push, TextEvent;
    assert [good, BAD_LINE][..1] == [good];
  }

  lemma FeedNothing(w: Wire, l: Limits, s: State)
    ensures Feed(w, l, s, []) == Fed(s, [])
  {
  }

  /** Beyond the limit no chunking succeeds, and what was delivered before is what fitted. */
  lemma OverLimitFails(w: Wire, l: Limits, s: State, chunks: seq<Bytes>)
    requires s.bytes <= l.maxBytes < s.bytes + |Concat(chunks)|
    ensures var k, p := Completed(w, l, s, chunks), PushAll(w, l, s, chunks);
      k < |chunks| && p.end.Broke? && p.events == EventsOf(Feed(w, l, s, Concat(chunks[..k])))
  {
    Delivers(w, l, s, chunks);
    CompletedAt(w, l, s, chunks);
    assert chunks[..|chunks|] == chunks;
    hide Feed, Completed, PushAll, Concat;
  }

  // ---------------------------------------------------------------------
  // The emitted deltas confirm the terminal response.
  // ---------------------------------------------------------------------

  function Deltas(events: seq<StreamEvent>): seq<Delta> {
    if events == [] then []
    else Deltas(events[..|events| - 1]) + if events[|events| - 1].DeltaEvent? then [events[|events| - 1].delta] else []
  }

  // Only deltas, until the one Finished event that ends the stream and that their accumulation confirms.
  ghost predicate StreamOk(w: Wire, l: Limits, s: State, events: seq<StreamEvent>) {
    && PushDeltas(l, NO_DELTAS, Deltas(events)) == Some(s.acc)
    && (forall i | 0 <= i < |events| - 1 :: events[i].DeltaEvent?)
    && (s.done <==> events != [] && events[|events| - 1].Finished?)
    && (s.done ==> VerifyTerminal(w, s.acc, events[|events| - 1].response))
  }

  // r continues a sound stream soundly.
  ghost predicate Continues(w: Wire, l: Limits, events: seq<StreamEvent>, r: Fed) {
    r.Fed? ==> StreamOk(w, l, r.state, events + r.events)
  }

  lemma EmitOk(w: Wire, l: Limits, s: State, events: seq<StreamEvent>, d: Delta)
    requires StreamOk(w, l, s, events) && !s.done
    ensures Continues(w, l, events, Emit(l, s, d)) && (Emit(l, s, d).Fed? ==> !Emit(l, s, d).state.done)
  {
    hide PushDelta, Respond;
    var all := events + [DeltaEvent(d)];
    assert all[..|all| - 1] == events;
    assert Deltas(all)[..|Deltas(all)| - 1] == Deltas(events);
  }

  lemma FollowedOk(w: Wire, l: Limits, events: seq<StreamEvent>, a: Fed, b: Fed)
    requires a.Fed? && Continues(w, l, events + a.events, b)
    ensures Continues(w, l, events, Followed(a, b))
  {
    hide StreamOk;
    if b.Fed? {
      assert events + a.events + b.events == events + (a.events + b.events);
    }
  }

  lemma {:induction false} EmitCallsOk(w: Wire, l: Limits, s: State, events: seq<StreamEvent>, parts: seq<CallPart>)
    requires StreamOk(w, l, s, events) && !s.done
    ensures Continues(w, l, events, EmitCalls(l, s, parts))
    ensures (EmitCalls(l, s, parts).Fed? ==> !EmitCalls(l, s, parts).state.done)
    decreases |parts|
  {
    hide StreamOk, Emit;
    if parts == [] {
      assert events + [] == events;
    } else if parts[0].isFunction {
      EmitOk(w, l, s, events, PartDelta(parts[0]));
      var a := Emit(l, s, PartDelta(parts[0]));
      if a.Fed? {
        EmitCallsOk(w, l, a.state, events + a.events, parts[1..]);
        FollowedOk(w, l, events, a, EmitCalls(l, a.state, parts[1..]));
      }
    }
  }

  lemma EmitChoiceOk(w: Wire, l: Limits, s: State, events: seq<StreamEvent>, c: Choice)
    requires StreamOk(w, l, s, events) && !s.done
    ensures Continues(w, l, events, EmitChoice(l, s, c))
  {
    assert events + [] == events;
    hide PushDeltas, Respond, Deltas, EmitCalls, Emit;
    if c.content.Some? {
      EmitOk(w, l, s, events, TextDelta(c.content.value));
    }
    var a := if c.content.Some? then Emit(l, s, TextDelta(c.content.value)) else Fed(s, []);
    if a.Fed? {
      EmitCallsOk(w, l, a.state, events + a.events, c.calls);
      FollowedOk(w, l, events, a, EmitCalls(l, a.state, c.calls));
    }
  }

  lemma FinishOk(w: Wire, l: Limits, s: State, events: seq<StreamEvent>, r: Response)
    requires StreamOk(w, l, s, events) && !s.done && s.reason.Some?
    requires Respond(w, s.acc, s.reason.value, s.usage) == Some(r)
    ensures StreamOk(w, l, s.(data := [], done := true), events + [Finished(r)])
  {
    hide PushDeltas;
    var all := events + [Finished(r)];
    assert all[..|all| - 1] == events && Deltas(all) == Deltas(events) + [] == Deltas(events);
    assert r.reason == s.reason.value && r.usage == s.usage by { hide ToolCalls, SortByIndex; }
  }

  lemma DispatchOk(w: Wire, l: Limits, s: State, events: seq<StreamEvent>)
    requires StreamOk(w, l, s, events) && !s.done
    ensures Continues(w, l, events, Dispatch(w, l, s))
  {
    assert events + [] == events;
    var data := Join(s.data);
    hide Join, EmitChoice, PushDeltas, Respond, Deltas;
    if w.finished(data) && s.reason.Some? {
      var r := Respond(w, s.acc, s.reason.value, s.usage);
      if r.Some? {
        FinishOk(w, l, s, events, r.value);
      }
    } else if w.chunk(data).Some? && w.chunk(data).value.choices != [] {
      var chunk := w.chunk(data).value;
      var t := s.(data := []);
      EmitChoiceOk(w, l, if chunk.usage.Some? then t.(usage := chunk.usage.value) else t, events, chunk.choices[0]);
    }
  }

  lemma FeedByteOk(w: Wire, l: Limits, s: State, events: seq<StreamEvent>, b: byte)
    requires StreamOk(w, l, s, events)
    ensures Continues(w, l, events, FeedByte(w, l, s, b))
  {
    assert events + [] == events;
    hide Dispatch, TrimReturns, DataOf, PushDeltas, Respond, Deltas;
    if !s.done {
      DispatchOk(w, l, s.(line := []), events);
    }
  }

  lemma {:induction false} FeedOk(w: Wire, l: Limits, s: State, events: seq<StreamEvent>, bytes: Bytes)
    requires StreamOk(w, l, s, events)
    ensures Continues(w, l, events, Feed(w, l, s, bytes))
    decreases |bytes|
  {
    hide FeedByte, StreamOk;
    if bytes == [] {
      assert events + [] == events;
    } else {
      FeedOk(w, l, s, events, bytes[..|bytes| - 1]);
      var a := Feed(w, l, s, bytes[..|bytes| - 1]);
      if a.Fed? {
        FeedByteOk(w, l, a.state, events + a.events, bytes[|bytes| - 1]);
        FollowedOk(w, l, events, a, FeedByte(w, l, a.state, bytes[|bytes| - 1]));
      }
    }
  }

  lemma PushOk(w: Wire, l: Limits, s: State, events: seq<StreamEvent>, bytes: Bytes)
    requires StreamOk(w, l, s, events)
    ensures Continues(w, l, events, Push(w, l, s, bytes))
  {
    hide Feed, PushDeltas, Respond, Deltas;
    FeedOk(w, l, s.(bytes := s.bytes + |bytes|), events, bytes);
  }

  // What was delivered is a sound stream, whose state is the one reached, if any.
  ghost predicate Sound(w: Wire, l: Limits, p: Delivery) {
    exists t :: StreamOk(w, l, t, p.events) && (p.end.Reached? ==> t == p.end.state)
  }

  /** Over any chunking, whether it ends well or not, a delivered Finished event comes last and once, and a fresh
      accumulator with the same limits that is fed the deltas before it accepts them all and confirms its response. */
  lemma {:induction false} StreamConfirmed(w: Wire, l: Limits, chunks: seq<Bytes>)
    ensures Sound(w, l, PushAll(w, l, NEW, chunks))
    decreases |chunks|
  {
    if chunks == [] {
      assert StreamOk(w, l, NEW, []);
    } else {
      hide Push, StreamOk;
      StreamConfirmed(w, l, chunks[..|chunks| - 1]);
      var before := PushAll(w, l, NEW, chunks[..|chunks| - 1]);
      if before.end.Reached? {
        PushOk(w, l, before.end.state, before.events, chunks[|chunks| - 1]);
        var r := Push(w, l, before.end.state, chunks[|chunks| - 1]);
        assert r.Fed? ==> StreamOk(w, l, r.state, before.events + r.events);
        assert StreamOk(w, l, before.end.state, before.events);
      }
    }
  }

  // ---------------------------------------------------------------------
  // What accumulation computes.
  // ---------------------------------------------------------------------

  function TotalBytes(ds: seq<Delta>): nat {
    if ds == [] then 0 else TotalBytes(ds[..|ds| - 1]) + DeltaBytes(ds[|ds| - 1])
  }

  // All text, in order.
  function TextOf(ds: seq<Delta>): Option<Text> {
    if ds == [] then None
    else
      var before, d := TextOf(ds[..|ds| - 1]), ds[|ds| - 1];
      if d.TextDelta? then Some(OrEmpty(before) + d.text) else before
  }

  // Everything sent for one call index, in order.
  function CallOf(ds: seq<Delta>, index: nat): Fragment {
    if ds == [] then Fragment(index, [], [], [])
    else
      var before, d := CallOf(ds[..|ds| - 1], index), ds[|ds| - 1];
      if d.CallDelta? && d.index == index then Extend(before, d) else before
  }

  // The call indices, in order of first appearance.
  function Indices(ds: seq<Delta>): seq<nat> {
    if ds == [] then []
    else
      var before, d := Indices(ds[..|ds| - 1]), ds[|ds| - 1];
      if d.CallDelta? && d.index !in before then before + [d.index] else before
  }

  ghost predicate Accumulated(a: Acc, ds: seq<Delta>) {
    && a.content == TextOf(ds) && a.bytes == TotalBytes(ds) && |a.calls| == |Indices(ds)|
    && (forall i | 0 <= i < |a.calls| :: a.calls[i] == CallOf(ds, Indices(ds)[i]))
  }

  lemma {:induction false} CallIndex(ds: seq<Delta>, index: nat)
    ensures CallOf(ds, index).index == index
    ensures index !in Indices(ds) ==> CallOf(ds, index) == Fragment(index, [], [], [])
  {
    if ds != [] {
      CallIndex(ds[..|ds| - 1], index);
    }
  }

  lemma {:induction false} IndicesDistinct(ds: seq<Delta>)
    ensures forall i, j | 0 <= i < j < |Indices(ds)| :: Indices(ds)[i] != Indices(ds)[j]
  {
    if ds != [] {
      IndicesDistinct(ds[..|ds| - 1]);
    }
  }

  // One call delta, known or new.
  lemma NextCall(l: Limits, a: Acc, before: seq<Delta>, d: Delta)
    requires Accumulated(a, before) && d.CallDelta? && a.bytes + DeltaBytes(d) <= l.maxBytes
    requires var ds := before + [d]; ds[..|ds| - 1] == before
    ensures PushDelta(l, a, d).Some? <==> |Indices(before + [d])| <= l.maxCalls || d.index in Indices(before)
    ensures PushDelta(l, a, d).Some? ==> Accumulated(PushDelta(l, a, d).value, before + [d])
  {
    var ds, indices := before + [d], Indices(before);
    IndicesDistinct(before);
    forall i | 0 <= i < |indices| ensures CallOf(before, indices[i]).index == indices[i] {
      CallIndex(before, indices[i]);
    }
    CallIndex(before, d.index);
    var i := FindCall(a.calls, d.index);
    if d.index in indices {
      var k :| 0 <= k < |indices| && indices[k] == d.index;
      assert a.calls[k].index == d.index;
      assert i.Some? && i.value == k;
      assert Indices(ds) == indices;
    } else {
      assert i.None?;
      assert Indices(ds) == indices + [d.index];
    }
  }

  lemma NextText(l: Limits, a: Acc, before: seq<Delta>, d: Delta)
    requires Accumulated(a, before) && d.TextDelta? && a.bytes + DeltaBytes(d) <= l.maxBytes
    requires var ds := before + [d]; ds[..|ds| - 1] == before
    ensures PushDelta(l, a, d).Some? && Accumulated(PushDelta(l, a, d).value, before + [d])
    ensures Indices(before + [d]) == Indices(before)
  {
    var ds := before + [d];
    forall i | 0 <= i < |a.calls| ensures CallOf(ds, Indices(ds)[i]) == CallOf(before, Indices(before)[i]) {
    }
  }

  ghost predicate Meaning(l: Limits, ds: seq<Delta>) {
    && (PushDeltas(l, NO_DELTAS, ds).Some? <==> TotalBytes(ds) <= l.maxBytes && |Indices(ds)| <= l.maxCalls)
    && (PushDeltas(l, NO_DELTAS, ds).Some? ==> Accumulated(PushDeltas(l, NO_DELTAS, ds).value, ds))
  }

  lemma Appended(l: Limits, before: seq<Delta>, d: Delta)
    ensures TotalBytes(before + [d]) == TotalBytes(before) + DeltaBytes(d)
    ensures |Indices(before)| <= |Indices(before + [d])|
    ensures var a := PushDeltas(l, NO_DELTAS, before);
      PushDeltas(l, NO_DELTAS, before + [d]) == if a.None? then None else PushDelta(l, a.value, d)
    ensures var ds := before + [d]; ds[..|ds| - 1] == before
    ensures d.CallDelta? && d.index in Indices(before) ==> Indices(before + [d]) == Indices(before)
  {
    assert (before + [d])[..|before|] == before;
    hide PushDelta;
  }

  lemma MeaningNext(l: Limits, before: seq<Delta>, d: Delta)
    requires Meaning(l, before)
    ensures Meaning(l, before + [d])
  {
    Appended(l, before, d);
    var a := PushDeltas(l, NO_DELTAS, before);
    if a.Some? {
      OverLimit(l, a.value, d);
      assert a.value.bytes == TotalBytes(before);
      hide Accumulated, PushDelta, Indices, PushDeltas, TotalBytes, DeltaBytes;
      if a.value.bytes + DeltaBytes(d) <= l.maxBytes {
        if d.CallDelta? {
          NextCall(l, a.value, before, d);
        } else {
          NextText(l, a.value, before, d);
        }
      }
    } else {
      hide Accumulated, PushDelta, Indices, PushDeltas, TotalBytes;
    }
  }

  /** Deltas are accepted exactly when their bytes and their distinct calls fit the limits; then the accumulator
      holds all text in order and, for each call in order of first appearance, everything sent for it in order. */
  lemma {:induction false} AccumulatorMeaning(l: Limits, ds: seq<Delta>)
    ensures PushDeltas(l, NO_DELTAS, ds).Some? <==> TotalBytes(ds) <= l.maxBytes && |Indices(ds)| <= l.maxCalls
    ensures PushDeltas(l, NO_DELTAS, ds).Some? ==> Accumulated(PushDeltas(l, NO_DELTAS, ds).value, ds)
    decreases |ds|
  {
    if ds != [] {
      AccumulatorMeaning(l, ds[..|ds| - 1]);
      MeaningNext(l, ds[..|ds| - 1], ds[|ds| - 1]);
      assert ds[..|ds| - 1] + [ds[|ds| - 1]] == ds;
      hide Accumulated, PushDelta, PushDeltas;
    }
  }

  lemma OverLimit(l: Limits, a: Acc, d: Delta)
    ensures a.bytes + DeltaBytes(d) > l.maxBytes ==> PushDelta(l, a, d).None?
  {
  }

  // ----- the response is independent of how calls were interleaved -----

  ghost predicate AscendingCalls(calls: seq<Fragment>) {
    forall i, j | 0 <= i < j < |calls| :: calls[i].index < calls[j].index
  }

  ghost predicate DistinctCalls(calls: seq<Fragment>) {
    forall i, j | 0 <= i < j < |calls| :: calls[i].index != calls[j].index
  }

  lemma {:induction false} InsertedCall(calls: seq<Fragment>, f: Fragment)
    requires AscendingCalls(calls) && forall i | 0 <= i < |calls| :: calls[i].index != f.index
    ensures AscendingCalls(InsertByIndex(calls, f))
    ensures forall x :: x in InsertByIndex(calls, f) <==> x in calls || x == f
  {
    if calls != [] && calls[|calls| - 1].index > f.index {
      var init, last := calls[..|calls| - 1], calls[|calls| - 1];
      InsertedCall(init, f);
      var inserted := InsertByIndex(init, f);
      forall i | 0 <= i < |inserted| ensures inserted[i].index < last.index {
        assert inserted[i] in inserted;
      }
      assert calls == init + [last];
    }
  }

  lemma {:induction false} SortedCalls(calls: seq<Fragment>)
    requires DistinctCalls(calls)
    ensures AscendingCalls(SortByIndex(calls)) && forall x :: x in SortByIndex(calls) <==> x in calls
  {
    if calls != [] {
      var init, last := calls[..|calls| - 1], calls[|calls| - 1];
      SortedCalls(init);
      var sorted := SortByIndex(init);
      forall i | 0 <= i < |sorted| ensures sorted[i].index != last.index {
        assert sorted[i] in init;
      }
      InsertedCall(sorted, last);
      assert calls == init + [last];
    }
  }

  lemma BothEmpty(a: seq<Fragment>, b: seq<Fragment>)
    requires forall x :: x in a <==> x in b
    ensures a == [] <==> b == []
  {
    assert a != [] ==> a[0] in b;
    assert b != [] ==> b[0] in a;
  }

  lemma {:induction false} AscendingUnique(a: seq<Fragment>, b: seq<Fragment>)
    requires AscendingCalls(a) && AscendingCalls(b) && forall x :: x in a <==> x in b
    ensures a == b
    decreases |a|
  {
    BothEmpty(a, b);
    if a != [] {
      assert a[0] in b && (b != [] ==> b[0] in a);
      var i :| 0 <= i < |b| && b[i] == a[0];
      var j :| 0 <= j < |a| && a[j] == b[0];
      assert a[0] == b[0];
      forall x ensures x in a[1..] <==> x in b[1..] {
        assert x in a[1..] ==> x in a && x != a[0];
        assert x in b[1..] ==> x in b && x != b[0];
      }
      AscendingUnique(a[1..], b[1..]);
    }
  }

  /** Two streams with the same text and, call by call, the same pieces give the same response, however the calls were
      interleaved. */
  lemma InterleavingIrrelevant(w: Wire, l: Limits, ds: seq<Delta>, es: seq<Delta>, reason: Reason, usage: Usage)
    requires PushDeltas(l, NO_DELTAS, ds).Some? && PushDeltas(l, NO_DELTAS, es).Some?
    requires TextOf(ds) == TextOf(es) && (forall i :: i in Indices(ds) <==> i in Indices(es))
    requires forall i | i in Indices(ds) :: CallOf(ds, i) == CallOf(es, i)
    ensures Respond(w, PushDeltas(l, NO_DELTAS, ds).value, reason, usage)
        == Respond(w, PushDeltas(l, NO_DELTAS, es).value, reason, usage)
  {
    var a, b := PushDeltas(l, NO_DELTAS, ds).value, PushDeltas(l, NO_DELTAS, es).value;
    AccumulatorMeaning(l, ds);
    AccumulatorMeaning(l, es);
    CallsDistinct(a, ds);
    CallsDistinct(b, es);
    SortedCalls(a.calls);
    SortedCalls(b.calls);
    SameCalls(a, ds, b, es);
    AscendingUnique(SortByIndex(a.calls), SortByIndex(b.calls));
  }

  lemma CallsDistinct(a: Acc, ds: seq<Delta>)
    requires Accumulated(a, ds)
    ensures DistinctCalls(a.calls)
  {
    IndicesDistinct(ds);
    forall i | 0 <= i < |a.calls| ensures a.calls[i].index == Indices(ds)[i] {
      CallIndex(ds, Indices(ds)[i]);
    }
  }

  lemma SameCalls(a: Acc, ds: seq<Delta>, b: Acc, es: seq<Delta>)
    requires Accumulated(a, ds) && Accumulated(b, es) && (forall i :: i in Indices(ds) <==> i in Indices(es))
    requires forall i | i in Indices(ds) :: CallOf(ds, i) == CallOf(es, i)
    ensures forall x :: x in a.calls <==> x in b.calls
  {
    forall x | x in a.calls ensures x in b.calls {
      var i :| 0 <= i < |a.calls| && a.calls[i] == x;
      assert Indices(ds)[i] in Indices(es);
      var j :| 0 <= j < |Indices(es)| && Indices(es)[j] == Indices(ds)[i];
      assert b.calls[j] == x;
    }
    forall x | x in b.calls ensures x in a.calls {
      var i :| 0 <= i < |b.calls| && b.calls[i] == x;
      assert Indices(es)[i] in Indices(ds);
      var j :| 0 <= j < |Indices(ds)| && Indices(ds)[j] == Indices(es)[i];
      assert a.calls[j] == x;
    }
  }

  // ---------------------------------------------------------------------
  // The objects.
  // ---------------------------------------------------------------------

  class GenerationAccumulator {
    const limits: Limits
    var content: Option<Text>
    var calls: seq<Fragment>
    var bytes: nat

    function View(): Acc
      reads this
    {
      Acc(content, calls, bytes)
    }

    constructor (limits: Limits)
      ensures View() == NO_DELTAS && this.limits == limits
    {
      this.limits, content, calls, bytes := limits, None, [], 0;
    }

    /** Accepts a delta or leaves everything as it was. */
    method Push(d: Delta) returns (ok: bool)
      modifies this
      ensures ok <==> PushDelta(limits, old(View()), d).Some?
      ensures View() == if ok then PushDelta(limits, old(View()), d).value else old(View())
    {
      var total := bytes + DeltaBytes(d);
      if total > limits.maxBytes {
        return false;
      }
      if d.TextDelta? {
        content := Some(OrEmpty(content) + d.text);
      } else {
        var i := FindPosition(d.index);
        if i.Some? {
          calls := calls[i.value := Extend(calls[i.value], d)];
        } else if |calls| >= limits.maxCalls {
          return false;
        } else {
          calls := calls + [Extend(Fragment(d.index, [], [], []), d)];
        }
      }
      bytes := total;
      ok := true;
    }

    method FindPosition(index: nat) returns (i: Option<nat>)
      ensures i == FindCall(calls, index)
    {
      for k := 0 to |calls|
        invariant FindCall(calls, index) == if FindCall(calls[k..], index).None? then None
            else Some(k + FindCall(calls[k..], index).value)
      {
        assert calls[k..][1..] == calls[k + 1..];
        if calls[k].index == index {
          return Some(k);
        }
      }
      return None;
    }
  }

  function Answer(s: State, events: seq<StreamEvent>, error: Option<Error>): Fed {
    if error.Some? then Failed(error.value) else Fed(s, events)
  }

  class Decoder {
    const wire: Wire
    const limits: Limits
    const accumulator: GenerationAccumulator
    var line: Bytes
    var data: seq<Bytes>
    var reason: Option<Reason>
    var usage: Usage
    var done: bool
    var bytes: nat

    function View(): State
      reads this, accumulator
    {
      State(line, data, accumulator.View(), reason, usage, done, bytes)
    }

    predicate Ok()
    {
      accumulator.limits == limits
    }

    constructor (wire: Wire, limits: Limits)
      ensures Ok() && View() == NEW && this.wire == wire && this.limits == limits && fresh(accumulator)
    {
      this.wire, this.limits := wire, limits;
      accumulator := new GenerationAccumulator(limits);
      line, data, reason, usage, done, bytes := [], [], None, 0, false, 0;
    }

    /** On success, the state and the events of Push on the state before. */
    method PushBytes(chunk: Bytes) returns (events: seq<StreamEvent>, error: Option<Error>)
      requires Ok()
      modifies this, accumulator
      ensures Push(wire, limits, old(View()), chunk) == Answer(View(), events, error)
    {
      if bytes + |chunk| > limits.maxBytes {
        return [], Some(OutputLimit);
      }
      bytes := bytes + |chunk|;
      hide Feed;
      events, error := FeedBytes(chunk);
    }

    method FeedBytes(chunk: Bytes) returns (events: seq<StreamEvent>, error: Option<Error>)
      requires Ok()
      modifies this, accumulator
      ensures Feed(wire, limits, old(View()), chunk) == Answer(View(), events, error)
    {
      ghost var start := View();
      events, error := [], None;
      FeedNothing(wire, limits, start);
      hide FeedByte, Feed;
      assert chunk[..0] == [] && chunk[..|chunk|] == chunk;
      for i := 0 to |chunk|
        invariant error.None? && Feed(wire, limits, start, chunk[..i]) == Fed(View(), events)
      {
        FeedNext(wire, limits, start, chunk, i);
        var more;
        more, error := TakeByte(chunk[i]);
        if error.Some? {
          return [], error;
        }
        events := events + more;
      }
    }

    method TakeByte(b: byte) returns (events: seq<StreamEvent>, error: Option<Error>)
      requires Ok()
      modifies this, accumulator
      ensures FeedByte(wire, limits, old(View()), b) == Answer(View(), events, error)
    {
      hide Dispatch, TrimReturns, DataOf;
      events, error := [], None;
      if done {
        return;
      }
      if b != NEWLINE {
        line := line + [b];
        return;
      }
      var raw := line;
      line := [];
      if !wire.utf8(raw) {
        return [], Some(InvalidUtf8);
      }
      var text := TrimReturns(raw);
      if text == [] {
        events, error := DispatchData();
      } else if DataOf(text).Some? {
        data := data + [DataOf(text).value];
      }
    }

    method DispatchData() returns (events: seq<StreamEvent>, error: Option<Error>)
      requires Ok()
      modifies this, accumulator
      ensures Dispatch(wire, limits, old(View())) == Answer(View(), events, error)
    {
      hide Join, EmitChoice, Respond;
      events, error := [], None;
      if data == [] {
        return;
      }
      var joined := Join(data);
      data := [];
      if wire.blank(joined) {
        return;
      }
      if wire.finished(joined) {
        if reason.None? {
          return [], Some(MissingTerminal);
        }
        var response := Respond(wire, accumulator.View(), reason.value, usage);
        if response.None? {
          return [], Some(BadResponse);
        }
        done := true;
        return [Finished(response.value)], None;
      }
      var chunk := wire.chunk(joined);
      if chunk.None? {
        return [], Some(InvalidJson);
      }
      if chunk.value.usage.Some? {
        usage := chunk.value.usage.value;
      }
      if |chunk.value.choices| > 1 {
        return [], Some(MultipleChoices);
      }
      if chunk.value.choices != [] {
        events, error := TakeChoice(chunk.value.choices[0]);
      }
    }

    method TakeChoice(c: Choice) returns (events: seq<StreamEvent>, error: Option<Error>)
      requires Ok()
      modifies this`reason, accumulator
      ensures EmitChoice(limits, old(View()), c) == Answer(View(), events, error)
    {
      hide PushDelta;
      events, error := [], None;
      if c.index != 0 || reason.Some? {
        return [], Some(BadChoice);
      }
      if !c.isAssistant || c.hasFunctionCall {
        return [], Some(Unsupported);
      }
      if c.content.Some? {
        var ok := accumulator.Push(TextDelta(c.content.value));
        if !ok {
          return [], Some(OutputLimit);
        }
        events := [DeltaEvent(TextDelta(c.content.value))];
      }
      var more;
      more, error := TakeCalls(c.calls);
      if error.Some? {
        return [], error;
      }
      events := events + more;
      if c.finish.Some? {
        reason := c.finish;
      }
    }

    method TakeCalls(parts: seq<CallPart>) returns (events: seq<StreamEvent>, error: Option<Error>)
      requires Ok()
      modifies accumulator
      ensures EmitCalls(limits, old(View()), parts) == Answer(View(), events, error)
    {
      events, error := [], None;
      assert parts[0..] == parts;
      assert Followed(Fed(View(), []), EmitCalls(limits, View(), parts)) == EmitCalls(limits, View(), parts) by {
          StartEmpty(View(), EmitCalls(limits, View(), parts)); }
      for i := 0 to |parts|
        invariant error.None?
        invariant Followed(Fed(View(), events), EmitCalls(limits, View(), parts[i..]))
            == EmitCalls(limits, old(View()), parts)
      {
        hide PushDelta;
        assert parts[i..][1..] == parts[i + 1..];
        ghost var s, sofar := View(), events;
        var p := parts[i];
        if !p.isFunction {
          return [], Some(Unsupported);
        }
        var ok := accumulator.Push(PartDelta(p));
        if !ok {
          return [], Some(OutputLimit);
        }
        events := events + [DeltaEvent(PartDelta(p))];
        FollowedAssociates(s, sofar, Emit(limits, s, PartDelta(p)), EmitCalls(limits, View(), parts[i + 1..]));
      }
      assert events + [] == events;
    }
  }

  lemma StartEmpty(s: State, r: Fed)
    ensures Followed(Fed(s, []), r) == r
  {
    if r.Fed? {
      assert [] + r.events == r.events;
    }
  }

  lemma FollowedAssociates(s: State, events: seq<StreamEvent>, a: Fed, b: Fed)
    requires a.Fed?
    ensures Followed(Fed(s, events), Followed(a, b)) == Followed(Fed(a.state, events + a.events), b)
  {
    if b.Fed? {
      assert events + (a.events + b.events) == (events + a.events) + b.events;
    }
  }
}
