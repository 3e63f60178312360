/** Model messages and the automaton that checks their shape (crates/core/core/src/model.rs). */
module Conversation {
  import opened BudgetTypes

  // Only whether a JSON value is an object matters to the shape.
  datatype Value = Json(isObject: bool, text: string)

  datatype Call = Call(id: string, name: string, arguments: Value)

  datatype Message =
    | System(content: string) | User(content: string) | Assistant(reply: Option<string>, calls: seq<Call>)
    | Tool(callId: string, content: string)

  predicate AssistantOk(reply: Option<string>, calls: seq<Call>) {
    && (reply.Some? || calls != [])
    && (forall i | 0 <= i < |calls| :: !Blank(calls[i].name) && calls[i].arguments.isObject)
    && (forall i, j | 0 <= i < j < |calls| :: calls[i].id != calls[j].id)
  }

  function CallIds(calls: seq<Call>): set<string> {
    set i | 0 <= i < |calls| :: calls[i].id
  }

  // The calls still to be answered after one more message; None when it may not come here.
  function Next(pending: set<string>, m: Message): Option<set<string>> {
    if m.Tool? then if m.callId in pending then Some(pending - {m.callId}) else None
    else if pending != {} then None
    else if m.Assistant? then if AssistantOk(m.reply, m.calls) then Some(CallIds(m.calls)) else None
    else Some({})
  }

  function Scan(messages: seq<Message>, pending: set<string>): Option<set<string>> {
    if messages == [] then Some(pending)
    else
      var before := Scan(messages[..|messages| - 1], pending);
      if before.None? then None else Next(before.value, messages[|messages| - 1])
  }

  // Complete in itself: nothing is pending before or after.
  predicate Closed(messages: seq<Message>) {
    Scan(messages, {}) == Some({})
  }

  predicate ValidMessages(messages: seq<Message>) {
    messages != [] && Closed(messages)
  }

  // ---------------------------------------------------------------------
  // The checks in the order of validate_assistant and validate_messages.
  // ---------------------------------------------------------------------

  method ValidateAssistant(reply: Option<string>, calls: seq<Call>) returns (ok: bool)
    ensures ok <==> AssistantOk(reply, calls)
  {
    if reply.None? && calls == [] {
      return false;
    }
    var ids: set<string> := {};
    for i := 0 to |calls|
      invariant ids == CallIds(calls[..i])
      invariant AssistantOk(reply, calls[..i]) || (i == 0 && reply.None?)
    {
      if Blank(calls[i].name) || !calls[i].arguments.isObject {
        return false;
      }
      if calls[i].id in ids {
        return false;
      }
      ids := ids + {calls[i].id};
      assert calls[..i + 1] == calls[..i] + [calls[i]];
    }
    assert calls[..|calls|] == calls;
    return true;
  }

  method ValidateMessages(messages: seq<Message>) returns (ok: bool)
    ensures ok <==> ValidMessages(messages)
  {
    if messages == [] {
      return false;
    }
    var pending: set<string> := {};
    for i := 0 to |messages|
      invariant Scan(messages[..i], {}) == Some(pending)
    {
      assert messages[..i + 1][..i] == messages[..i];
      var m := messages[i];
      if m.Tool? {
        if m.callId !in pending {
          NoWayBack(messages, i + 1);
          return false;
        }
        pending := pending - {m.callId};
      } else if pending != {} {
        NoWayBack(messages, i + 1);
        return false;
      } else if m.Assistant? {
        var valid := ValidateAssistant(m.reply, m.calls);
        if !valid {
          NoWayBack(messages, i + 1);
          return false;
        }
        pending := CallIds(m.calls);
      }
    }
    assert messages[..|messages|] == messages;
    return pending == {};
  }

  // ---------------------------------------------------------------------
  // Joining and cutting conversations.
  // ---------------------------------------------------------------------

  lemma {:induction false} ScanSplit(a: seq<Message>, b: seq<Message>, pending: set<string>)
    ensures Scan(a + b, pending) == if Scan(a, pending).None? then None else Scan(b, Scan(a, pending).value)
    decreases |b|
  {
    hide Next;
    if b == [] {
      assert a + b == a;
    } else {
      var all := a + b;
      assert all[..|all| - 1] == a + b[..|b| - 1] && all[|all| - 1] == b[|b| - 1];
      ScanSplit(a, b[..|b| - 1], pending);
    }
  }

  // A rejected prefix is never accepted later.
  lemma NoWayBack(messages: seq<Message>, i: nat)
    requires i <= |messages| && Scan(messages[..i], {}).None?
    ensures !Closed(messages)
  {
    ScanSplit(messages[..i], messages[i..], {});
    assert messages[..i] + messages[i..] == messages;
  }

  lemma ClosedJoin(a: seq<Message>, b: seq<Message>)
    requires Closed(a)
    ensures Closed(a + b) <==> Closed(b)
  {
    ScanSplit(a, b, {});
  }

  function Flatten(groups: seq<seq<Message>>): seq<Message> {
    if groups == [] then [] else Flatten(groups[..|groups| - 1]) + groups[|groups| - 1]
  }

  lemma {:induction false} FlattenClosed(groups: seq<seq<Message>>)
    requires forall i | 0 <= i < |groups| :: Closed(groups[i])
    ensures Closed(Flatten(groups))
  {
    hide Scan, Next;
    if groups != [] {
      FlattenClosed(groups[..|groups| - 1]);
      ClosedJoin(Flatten(groups[..|groups| - 1]), groups[|groups| - 1]);
    } else {
      assert Closed([]) by { NothingClosed(); }
    }
  }

  lemma NothingClosed()
    ensures Closed([])
  {
  }

  // ---------------------------------------------------------------------
  // What the automaton accepts.
  // ---------------------------------------------------------------------

  // The tool results that answer exactly the given calls, each once, in any order.
  ghost predicate Answers(results: seq<Message>, ids: set<string>) {
    if results == [] then ids == {}
    else
      var last := results[|results| - 1];
      last.Tool? && last.callId in ids && Answers(results[..|results| - 1], ids - {last.callId})
  }

  // One message with the results of all its calls.
  ghost predicate MessageGroup(g: seq<Message>) {
    && g != [] && !g[0].Tool?
    && (g[0].Assistant? ==> AssistantOk(g[0].reply, g[0].calls))
    && Answers(g[1..], if g[0].Assistant? then CallIds(g[0].calls) else {})
  }

  lemma {:induction false} AnswersScan(results: seq<Message>, ids: set<string>, extra: set<string>)
    requires Answers(results, ids) && ids !! extra
    ensures Scan(results, ids + extra) == Some(extra)
    decreases |results|
  {
    if results != [] {
      var last := results[|results| - 1];
      AnswersScan(results[..|results| - 1], ids - {last.callId}, extra + {last.callId});
      assert (ids - {last.callId}) + (extra + {last.callId}) == ids + extra;
      assert (extra + {last.callId}) - {last.callId} == extra;
    } else {
      assert ids + extra == extra;
    }
  }

  lemma GroupClosed(g: seq<Message>)
    requires MessageGroup(g)
    ensures Closed(g)
  {
    var ids := if g[0].Assistant? then CallIds(g[0].calls) else {};
    assert g == [g[0]] + g[1..];
    ScanSplit([g[0]], g[1..], {});
    assert Scan([g[0]], {}) == Some(ids) by { assert [g[0]][..0] == []; }
    AnswersScan(g[1..], ids, {});
    assert ids + {} == ids;
  }

  lemma {:induction false} GroupsClosed(groups: seq<seq<Message>>)
    requires forall i | 0 <= i < |groups| :: MessageGroup(groups[i])
    ensures Closed(Flatten(groups))
  {
    forall i | 0 <= i < |groups| ensures Closed(groups[i]) {
      GroupClosed(groups[i]);
    }
    hide Closed;
    FlattenClosed(groups);
  }

  // An assistant message some of whose calls have been answered.
  ghost predicate OpenGroup(g: seq<Message>, pending: set<string>) {
    && g != [] && g[0].Assistant? && AssistantOk(g[0].reply, g[0].calls) && pending != {}
    && pending <= CallIds(g[0].calls)
    && Answers(g[1..], CallIds(g[0].calls) - pending)
  }

  // An accepted prefix: complete groups, then perhaps an open one.
  ghost predicate Grouped(messages: seq<Message>, groups: seq<seq<Message>>, rest: seq<Message>, pending: set<string>) {
    && messages == Flatten(groups) + rest && (forall i | 0 <= i < |groups| :: MessageGroup(groups[i]))
    && if rest == [] then pending == {} else OpenGroup(rest, pending)
  }

  lemma CloseGroup(groups: seq<seq<Message>>, g: seq<Message>)
    ensures Flatten(groups + [g]) == Flatten(groups) + g
  {
    assert (groups + [g])[..|groups|] == groups;
  }

  // A result extends the open group, and completes it when it is the last.
  lemma ResultNext(rest: seq<Message>, pending: set<string>, m: Message)
    requires OpenGroup(rest, pending) && m.Tool? && m.callId in pending
    ensures if pending == {m.callId} then MessageGroup(rest + [m]) else OpenGroup(rest + [m], pending - {m.callId})
  {
    var g, after, ids := rest + [m], pending - {m.callId}, CallIds(rest[0].calls);
    assert g[1..] == rest[1..] + [m] && g[1..][..|g[1..]| - 1] == rest[1..];
    assert ids - after - {m.callId} == ids - pending;
    assert Answers(g[1..], ids - after);
    assert pending == {m.callId} ==> ids - after == ids;
  }

  // Any other message starts a group.
  lemma HeadNext(m: Message)
    requires !m.Tool? && Next({}, m).Some?
    ensures if Next({}, m).value == {} then MessageGroup([m]) else OpenGroup([m], Next({}, m).value)
  {
    assert [m][1..] == [];
    assert m.Assistant? ==> CallIds(m.calls) - CallIds(m.calls) == {};
  }

  // Reading one more message from a grouped prefix.
  lemma GroupNext(messages: seq<Message>, groups: seq<seq<Message>>, rest: seq<Message>, pending: set<string>,
                  m: Message)
    returns (groups': seq<seq<Message>>, rest': seq<Message>)
    requires Grouped(messages, groups, rest, pending) && Next(pending, m).Some?
    ensures Grouped(messages + [m], groups', rest', Next(pending, m).value)
  {
    hide OpenGroup, MessageGroup, AssistantOk, CallIds;
    var g := rest + [m];
    if m.Tool? {
      ResultNext(rest, pending, m);
      assert pending - {m.callId} == {} <==> pending == {m.callId};
    } else {
      HeadNext(m);
      assert rest == [] && g == [m] by { hide Flatten; NoOpenGroup(rest, pending); }
    }
    assert messages + [m] == Flatten(groups) + g;
    CloseGroup(groups, g);
    if Next(pending, m).value == {} {
      groups', rest' := groups + [g], [];
      assert Flatten(groups') + [] == messages + [m];
    } else {
      groups', rest' := groups, g;
    }
  }

  lemma NoOpenGroup(rest: seq<Message>, pending: set<string>)
    ensures OpenGroup(rest, pending) ==> pending != {}
  {
  }

  lemma {:induction false} ScanGroups(messages: seq<Message>) returns (groups: seq<seq<Message>>, rest: seq<Message>)
    requires Scan(messages, {}).Some?
    ensures Grouped(messages, groups, rest, Scan(messages, {}).value)
    decreases |messages|
  {
    if messages == [] {
      groups, rest := [], [];
    } else {
      var init, m := messages[..|messages| - 1], messages[|messages| - 1];
      var g, r := ScanGroups(init);
      hide Grouped, Next;
      groups, rest := GroupNext(init, g, r, Scan(init, {}).value, m);
      assert init + [m] == messages;
    }
  }

  /** The automaton accepts exactly the sequences of complete groups: a system, user or assistant message, an assistant
      followed by one result for each of its calls in any order, and nothing in between. */
  lemma AcceptsGroups(messages: seq<Message>)
    ensures Closed(messages) <==>
      exists groups :: messages == Flatten(groups) && forall i | 0 <= i < |groups| :: MessageGroup(groups[i])
  {
    if Closed(messages) {
      var groups, rest := ScanGroups(messages);
      assert Flatten(groups) + [] == Flatten(groups);
      assert messages == Flatten(groups) && forall i | 0 <= i < |groups| :: MessageGroup(groups[i]);
    }
    if exists groups :: messages == Flatten(groups) && forall i | 0 <= i < |groups| :: MessageGroup(groups[i]) {
      var groups :| messages == Flatten(groups) && forall i | 0 <= i < |groups| :: MessageGroup(groups[i]);
      GroupsClosed(groups);
    }
  }
}
