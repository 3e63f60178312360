/** Bounded selection of whole historical turns (crates/context/context/src/builder.rs). */
module ContextBuilder {
  import opened BudgetTypes
  import opened Conversation
  import opened ContextProjection

  // ---------------------------------------------------------------------
  // Input.
  // ---------------------------------------------------------------------

  datatype Budget = Budget(window: u64, outputReserve: u64, outputEvidence: TokenEvidence, safetyMargin: u64,
                           mode: TokenMode)
  datatype Limits = Limits(maxGroups: nat, maxMessages: nat, maxCountCalls: nat)

  // What a counter says about one complete request.
  datatype Count = Count(sameTarget: bool, procedure: string, evidence: TokenEvidence,
                         system: u64, messages: u64, constraint: u64, template: u64)

  // constraintOk: whether the request's constraint has a valid shape, independently of the messages.
  datatype Input = Input(
    version: nat, groups: seq<Group>, turns: seq<Turn>, system: seq<string>, current: seq<Message>, constraintOk: bool,
    pinned: seq<string>, targetBlank: bool, budget: Budget, limits: Limits)

  datatype BuildError = Invalid | OverLimit | Shape | CounterFailed | UnverifiedCount | Overflow

  datatype Built =
    | Fitted(messages: seq<Message>, removed: nat, totals: seq<u64>)
    | DoesNotFit(removed: nat, totals: seq<u64>)
    | CountLimit(removed: nat, totals: seq<u64>)
    | Rejected(error: BuildError)

  function Position(turns: seq<Turn>, turnId: string): (i: Option<nat>)
    ensures i.Some? ==> i.value < |turns| && turns[i.value].turnId == turnId && forall j | 0 <= j < i.value ::
        turns[j].turnId != turnId
    ensures i.None? ==> forall j | 0 <= j < |turns| :: turns[j].turnId != turnId
  {
    if turns == [] then None
    else if turns[0].turnId == turnId then Some(0)
    else
      var i := Position(turns[1..], turnId);
      if i.None? then None else Some(i.value + 1)
  }

  predicate GroupShape(g: Group) {
    var m := g.messages;
    match g.kind
    case UserGroup => |m| == 1 && m[0].User?
    case AssistantGroup => |m| == 1 && m[0].Assistant? && m[0].reply.Some? && m[0].calls == []
    case ToolExchange =>
      |m| == 2 && m[0].Assistant? && m[1].Tool? && |m[0].calls| == 1 && m[0].calls[0].id == m[1].callId
  }

  predicate TurnsOk(turns: seq<Turn>) {
    && (forall i | 0 <= i < |turns| :: !Blank(turns[i].turnId) && !turns[i].state.Open?)
    && (forall i, j | 0 <= i < j < |turns| :: turns[i].turnId != turns[j].turnId)
  }

  predicate PinsOk(turns: seq<Turn>, pinned: seq<string>) {
    && (forall i, j | 0 <= i < j < |pinned| :: pinned[i] != pinned[j])
    && (forall i | 0 <= i < |pinned| :: Position(turns, pinned[i]).Some?)
  }

  predicate GroupOk(turns: seq<Turn>, g: Group) {
    Position(turns, g.turnId).Some? && g.sources != [] && GroupShape(g)
  }

  predicate InOrder(turns: seq<Turn>, a: Group, b: Group) {
    Position(turns, a.turnId).Some? && Position(turns, b.turnId).Some?
    && Position(turns, a.turnId).value <= Position(turns, b.turnId).value
  }

  // Groups follow the order of their turns.
  predicate GroupsOk(turns: seq<Turn>, groups: seq<Group>) {
    && (forall i | 0 <= i < |groups| :: GroupOk(turns, groups[i]))
    && (forall i | 0 <= i < |groups| - 1 :: InOrder(turns, groups[i], groups[i + 1]))
  }

  predicate CurrentOk(current: seq<Message>) {
    current != [] && current[0].User? && forall i | 0 <= i < |current| :: !current[i].System?
  }

  function CheckInput(input: Input): Option<BuildError> {
    var limits, budget := input.limits, input.budget;
    if limits.maxGroups == 0 || limits.maxMessages == 0 || limits.maxCountCalls == 0 || budget.window == 0
        || budget.outputReserve == 0
       || input.targetBlank then Some(Invalid)
    else if budget.mode == Hard && budget.outputEvidence != VerifiedUpperBound then Some(UnverifiedCount)
    else if |input.groups| > limits.maxGroups || |input.turns| > limits.maxGroups then Some(OverLimit)
    else if |input.system| + |input.current| + MessageCount(input.groups) > limits.maxMessages then Some(OverLimit)
    else if input.version != 1 || !CurrentOk(input.current) then Some(Invalid)
    else if !ValidMessages(input.current) then Some(Shape)
    else if !TurnsOk(input.turns) || !PinsOk(input.turns, input.pinned) || !GroupsOk(input.turns, input.groups)
    then Some(Invalid)
    else None
  }

  // ---------------------------------------------------------------------
  // Candidates.
  // ---------------------------------------------------------------------

  function SystemMessages(system: seq<string>): seq<Message> {
    if system == [] then [] else SystemMessages(system[..|system| - 1]) + [System(system[|system| - 1])]
  }

  // The messages of the groups whose turn is kept, in order.
  function KeptMessages(groups: seq<Group>, kept: set<string>): seq<Message> {
    if groups == [] then []
    else
      var before, g := KeptMessages(groups[..|groups| - 1], kept), groups[|groups| - 1];
      if g.turnId in kept then before + g.messages else before
  }

  function KeptTurns(turns: seq<Turn>, retained: seq<bool>): set<string>
    requires |retained| == |turns|
  {
    set i | 0 <= i < |turns| && retained[i] :: turns[i].turnId
  }

  function Assemble(input: Input, retained: seq<bool>): seq<Message>
    requires |retained| == |input.turns|
  {
    SystemMessages(input.system) + KeptMessages(input.groups, KeptTurns(input.turns, retained)) + input.current
  }

  predicate Protected(input: Input, i: nat)
    requires i < |input.turns|
  {
    input.turns[i].turnId in input.pinned
  }

  // The oldest turn that may still be dropped.
  function NextRemovable(input: Input, retained: seq<bool>, i: nat): (r: Option<nat>)
    requires |retained| == |input.turns| && i <= |retained|
    ensures r.Some? ==> i <= r.value < |retained| && retained[r.value] && !Protected(input, r.value)
    ensures r.Some? ==> forall j | i <= j < r.value :: !retained[j] || Protected(input, j)
    ensures r.None? ==> forall j | i <= j < |retained| :: !retained[j] || Protected(input, j)
    decreases |retained| - i
  {
    if i == |retained| then None
    else if retained[i] && !Protected(input, i) then Some(i)
    else NextRemovable(input, retained, i + 1)
  }

  // How many of the first i turns are unprotected.
  function Rank(input: Input, i: nat): nat
    requires i <= |input.turns|
  {
    if i == 0 then 0 else Rank(input, i - 1) + if Protected(input, i - 1) then 0 else 1
  }

  function Removable(input: Input): nat {
    Rank(input, |input.turns|)
  }

  // What is left when the k oldest unprotected turns are dropped.
  ghost predicate WithoutOldest(input: Input, retained: seq<bool>, k: nat) {
    && |retained| == |input.turns|
    && forall i | 0 <= i < |retained| :: retained[i] <==> Protected(input, i) || Rank(input, i) >= k
  }

  function Retained(input: Input, k: nat): (retained: seq<bool>)
    ensures WithoutOldest(input, retained, k)
  {
    seq(|input.turns|, i requires 0 <= i < |input.turns| => Protected(input, i) || Rank(input, i) >= k)
  }

  function Candidate(input: Input, k: nat): seq<Message> {
    Assemble(input, Retained(input, k))
  }

  // ----- counting -----

  type Counter = seq<Message> -> Option<Count>

  datatype Verdict = Fits(total: u64) | Exceeds(total: u64) | Bad(error: BuildError)

  function Judge(input: Input, reserve: u64, count: Option<Count>): Verdict {
    if count.None? then Bad(CounterFailed)
    else
      var c := count.value;
      if !c.sameTarget || Blank(c.procedure) || (input.budget.mode == Hard && c.evidence != VerifiedUpperBound)
      then Bad(UnverifiedCount)
      else if c.system + c.messages + c.constraint + c.template > U64_MAX then Bad(Overflow)
      else if c.system + c.messages + c.constraint + c.template == 0 then Bad(Invalid)
      else if c.system + c.messages + c.constraint + c.template + reserve > U64_MAX then Bad(Overflow)
      else
        var total := c.system + c.messages + c.constraint + c.template + reserve;
        if total <= input.budget.window then Fits(total) else Exceeds(total)
  }

  function VerdictAt(input: Input, counter: Counter, reserve: u64, k: nat): Verdict {
    Judge(input, reserve, counter(Candidate(input, k)))
  }

  // The first k removals were each tried, found too large, and could be followed by another.
  ghost predicate TooLargeBefore(input: Input, counter: Counter, reserve: u64, k: nat, totals: seq<u64>) {
    && k <= Removable(input) && k < input.limits.maxCountCalls && |totals| >= k
    && forall j | 0 <= j < k :: VerdictAt(input, counter, reserve, j) == Exceeds(totals[j])
  }

  // ---------------------------------------------------------------------
  // Dropping the oldest turn.
  // ---------------------------------------------------------------------

  lemma {:induction false} RankBetween(input: Input, i: nat, j: nat)
    requires i <= j <= |input.turns|
    ensures Rank(input, i) <= Rank(input, j) <= Rank(input, i) + (j - i)
    decreases j
  {
    if i < j {
      RankBetween(input, i, j - 1);
    }
  }

  // The unprotected turn of a given rank.
  lemma {:induction false} TurnOfRank(input: Input, k: nat, n: nat) returns (i: nat)
    requires n <= |input.turns| && k < Rank(input, n)
    ensures i < n && !Protected(input, i) && Rank(input, i) == k
    decreases n
  {
    if !Protected(input, n - 1) && Rank(input, n - 1) == k {
      i := n - 1;
    } else {
      i := TurnOfRank(input, k, n - 1);
    }
  }

  lemma SameRetained(input: Input, a: seq<bool>, b: seq<bool>, k: nat)
    requires WithoutOldest(input, a, k) && WithoutOldest(input, b, k)
    ensures a == b
  {
  }

  // The first removable turn is the unprotected one of rank k.
  lemma FirstRemovable(input: Input, retained: seq<bool>, k: nat)
    requires WithoutOldest(input, retained, k) && NextRemovable(input, retained, 0).Some?
    ensures Rank(input, NextRemovable(input, retained, 0).value) == k
  {
    var index := NextRemovable(input, retained, 0).value;
    hide NextRemovable, Rank;
    if k < Rank(input, index) {
      var i := TurnOfRank(input, k, index);
    }
  }

  lemma DropIndex(input: Input, retained: seq<bool>, index: nat, k: nat)
    requires WithoutOldest(input, retained, k) && index < |retained| && !Protected(input, index)
    requires Rank(input, index) == k
    ensures WithoutOldest(input, retained[index := false], k + 1)
  {
    var after := retained[index := false];
    forall j | 0 <= j < |after| ensures after[j] <==> Protected(input, j) || Rank(input, j) >= k + 1 {
      if j < index {
        RankBetween(input, j + 1, index);
      } else if j > index {
        RankBetween(input, index + 1, j);
      }
    }
  }

  /** Dropping the first removable turn drops exactly the next oldest unprotected one; none is left exactly when all
      unprotected turns are gone. */
  lemma DropOldest(input: Input, k: nat)
    requires k <= Removable(input)
    ensures var r := NextRemovable(input, Retained(input, k), 0);
      && (r.None? <==> k == Removable(input))
      && (r.Some? ==> Retained(input, k)[r.value := false] == Retained(input, k + 1))
  {
    var retained := Retained(input, k);
    var r := NextRemovable(input, retained, 0);
    hide NextRemovable, Retained, Protected;
    if r.Some? {
      FirstRemovable(input, retained, k);
      RankBetween(input, r.value + 1, |input.turns|);
      assert Rank(input, r.value + 1) == k + 1;
      DropIndex(input, retained, r.value, k);
      SameRetained(input, retained[r.value := false], Retained(input, k + 1), k + 1);
    } else if k < Removable(input) {
      var i := TurnOfRank(input, k, |input.turns|);
    }
  }

  // ---------------------------------------------------------------------
  // Dropping whole groups keeps the shape.
  // ---------------------------------------------------------------------

  // A group with a valid outline is closed by itself exactly when its tool call has a name and object arguments.
  predicate GroupSound(g: Group) {
    g.kind.ToolExchange? && |g.messages| == 2 && g.messages[0].Assistant? ==>
        AssistantOk(g.messages[0].reply, g.messages[0].calls)
  }

  lemma OneMessage(m: Message)
    ensures Scan([m], {}) == Next({}, m)
  {
    assert [m][..0] == [];
  }

  lemma GroupMessages(g: Group)
    requires GroupShape(g)
    ensures Closed(g.messages) <==> GroupSound(g)
    ensures Scan(g.messages, {}).Some? <==> Closed(g.messages)
  {
    var m := g.messages;
    if g.kind.ToolExchange? {
      var call := m[0].calls[0];
      assert m == [m[0]] + [m[1]];
      ScanSplit([m[0]], [m[1]], {});
      OneMessage(m[0]);
      assert CallIds(m[0].calls) == {call.id};
      assert [m[1]][..0] == [];
      assert forall p :: Scan([m[1]], p) == Next(p, m[1]);
      assert {call.id} - {call.id} == {};
    } else {
      assert m == [m[0]];
      OneMessage(m[0]);
      assert CallIds([]) == {};
    }
  }

  lemma {:induction false} SystemClosed(system: seq<string>)
    ensures Closed(SystemMessages(system))
  {
    if system != [] {
      var init, last := system[..|system| - 1], System(system[|system| - 1]);
      SystemClosed(init);
      ClosedJoin(SystemMessages(init), [last]);
      OneMessage(last);
    }
  }

  // Every kept group is closed by itself.
  ghost predicate KeptClosed(groups: seq<Group>, kept: set<string>) {
    forall i | 0 <= i < |groups| && groups[i].turnId in kept :: Closed(groups[i].messages)
  }

  lemma {:induction false} KeptIff(groups: seq<Group>, kept: set<string>)
    requires forall i | 0 <= i < |groups| :: GroupShape(groups[i])
    ensures Closed(KeptMessages(groups, kept)) <==> KeptClosed(groups, kept)
    ensures Scan(KeptMessages(groups, kept), {}).Some? <==> Closed(KeptMessages(groups, kept))
    decreases |groups|
  {
    if groups != [] {
      var init, g := groups[..|groups| - 1], groups[|groups| - 1];
      KeptIff(init, kept);
      GroupMessages(g);
      ScanSplit(KeptMessages(init, kept), g.messages, {});
      hide Scan, GroupShape, GroupSound;
      assert KeptClosed(groups, kept) <==> KeptClosed(init, kept) && (g.turnId in kept ==> Closed(g.messages)) by {
        hide Closed;
        KeptSplit(groups, kept);
      }
    }
  }

  lemma KeptSplit(groups: seq<Group>, kept: set<string>)
    requires groups != []
    ensures var init, g := groups[..|groups| - 1], groups[|groups| - 1];
      KeptClosed(groups, kept) <==> KeptClosed(init, kept) && (g.turnId in kept ==> Closed(g.messages))
  {
    hide Closed;
  }

  /** A request assembled from whole turns has a valid shape exactly when each kept group is closed by itself. */
  lemma AssembledIff(input: Input, retained: seq<bool>)
    requires CheckInput(input).None? && |retained| == |input.turns|
    ensures ValidMessages(Assemble(input, retained)) <==> KeptClosed(input.groups, KeptTurns(input.turns, retained))
  {
    var system, middle := SystemMessages(input.system), KeptMessages(input.groups, KeptTurns(input.turns, retained));
    SystemClosed(input.system);
    KeptIff(input.groups, KeptTurns(input.turns, retained));
    ClosedJoin(system, middle + input.current);
    assert system + (middle + input.current) == system + middle + input.current;
    ScanSplit(middle, input.current, {});
    hide Scan, MessageCount, SystemMessages, KeptMessages;
  }

  /** Once the complete request has a valid shape, no removal of whole turns can break it. */
  lemma DroppingKeepsShape(input: Input, before: seq<bool>, after: seq<bool>)
    requires CheckInput(input).None? && |before| == |after| == |input.turns|
    requires forall i | 0 <= i < |after| :: after[i] ==> before[i]
    requires ValidMessages(Assemble(input, before))
    ensures ValidMessages(Assemble(input, after))
  {
    AssembledIff(input, before);
    AssembledIff(input, after);
    hide Assemble, CheckInput, Closed;
    assert KeptTurns(input.turns, after) <= KeptTurns(input.turns, before);
  }

  // ---------------------------------------------------------------------
  // Building.
  // ---------------------------------------------------------------------

  function Reserve(input: Input): int {
    input.budget.outputReserve + input.budget.safetyMargin
  }

  // The first removal count that fits, or why there is none.
  ghost predicate Selected(input: Input, counter: Counter, reserve: u64, r: Built) {
    match r
    case Fitted(messages, removed, totals) =>
      && TooLargeBefore(input, counter, reserve, removed, totals) && |totals| == removed + 1
      && VerdictAt(input, counter, reserve, removed) == Fits(totals[removed])
      && messages == Candidate(input, removed) && ValidMessages(messages)
    case DoesNotFit(removed, totals) =>
      && TooLargeBefore(input, counter, reserve, removed, totals) && |totals| == removed + 1
      && VerdictAt(input, counter, reserve, removed) == Exceeds(totals[removed]) && removed == Removable(input)
    case CountLimit(removed, totals) =>
      && TooLargeBefore(input, counter, reserve, removed, totals) && |totals| == removed + 1
      && VerdictAt(input, counter, reserve, removed) == Exceeds(totals[removed])
      && removed < Removable(input) && removed + 1 == input.limits.maxCountCalls
    case Rejected(error) =>
      exists k: nat, totals ::
        TooLargeBefore(input, counter, reserve, k, totals) && VerdictAt(input, counter, reserve, k) == Bad(error)
  }

  lemma AllRetained(input: Input)
    ensures seq(|input.turns|, i => true) == Retained(input, 0)
  {
    hide Rank;
  }

  lemma FewerRetained(input: Input, k: nat)
    requires CheckInput(input).None? && ValidMessages(Candidate(input, 0))
    ensures ValidMessages(Candidate(input, k))
  {
    hide CheckInput, Rank, ValidMessages, Assemble;
    DroppingKeepsShape(input, Retained(input, 0), Retained(input, k));
  }

  method FindRemovable(input: Input, retained: seq<bool>) returns (r: Option<nat>)
    requires |retained| == |input.turns|
    ensures r == NextRemovable(input, retained, 0)
  {
    for i := 0 to |retained|
      invariant NextRemovable(input, retained, 0) == NextRemovable(input, retained, i)
    {
      if retained[i] && !Protected(input, i) {
        return Some(i);
      }
    }
    return None;
  }

  /** Drops the oldest unpinned turns one at a time until the counted request fits. After the first request has been
      found well shaped, no later one is rejected for its shape. */
  method Build(input: Input, counter: Counter) returns (r: Built)
    ensures CheckInput(input).Some? ==> r == Rejected(CheckInput(input).value)
    ensures CheckInput(input).None? && Reserve(input) > U64_MAX ==> r == Rejected(Overflow)
    ensures CheckInput(input).None? && Reserve(input) <= U64_MAX
        && !(ValidMessages(Candidate(input, 0)) && input.constraintOk)
      ==> r == Rejected(Shape)
    ensures CheckInput(input).None? && Reserve(input) <= U64_MAX && ValidMessages(Candidate(input, 0))
        && input.constraintOk
      ==> Selected(input, counter, Reserve(input), r)
  {
    var invalid := ValidateInput(input);
    if invalid.Some? {
      return Rejected(invalid.value);
    }
    if Reserve(input) > U64_MAX {
      return Rejected(Overflow);
    }
    AllRetained(input);
    r := BuildChecked(input, counter, Reserve(input));
  }

  method BuildChecked(input: Input, counter: Counter, reserve: u64) returns (r: Built)
    requires CheckInput(input).None?
    ensures !(ValidMessages(Candidate(input, 0)) && input.constraintOk) ==> r == Rejected(Shape)
    ensures ValidMessages(Candidate(input, 0)) && input.constraintOk ==> Selected(input, counter, reserve, r)
  {
    AllRetained(input);
    CallsLeft(input);
    NoneTried(input, counter, reserve);
    hide CheckInput, Judge, NextRemovable, Retained, Assemble, ValidMessages, Rank, TooLargeBefore, Removable;
    var retained, removed: nat, totals: seq<u64> := seq(|input.turns|, i => true), 0, [];
    var request := Assemble(input, retained);
    var shaped := ValidateMessages(request);
    if !shaped || !input.constraintOk {
      return Rejected(Shape);
    }
    while true
      invariant removed <= Removable(input) && removed < input.limits.maxCountCalls
      invariant retained == Retained(input, removed) && request == Candidate(input, removed) && ValidMessages(request)
      invariant removed == |totals| && TooLargeBefore(input, counter, reserve, removed, totals)
      decreases Removable(input) - removed
    {
      var verdict := Judge(input, reserve, counter(request));
      if verdict.Bad? {
        BadCount(input, counter, reserve, removed, totals, verdict.error);
        return Rejected(verdict.error);
      }
      AnotherTooLarge(input, counter, reserve, removed, totals, verdict.total);
      totals := totals + [verdict.total];
      if verdict.Fits? {
        return Fitted(request, removed, totals);
      }
      DropOldest(input, removed);
      var next := FindRemovable(input, retained);
      if next.None? {
        return DoesNotFit(removed, totals);
      }
      if |totals| == input.limits.maxCountCalls {
        return CountLimit(removed, totals);
      }
      retained, removed := retained[next.value := false], removed + 1;
      request := Assemble(input, retained);
      FewerRetained(input, removed);
      shaped := ValidateMessages(request);
      assert shaped;
    }
  }

  lemma AnotherTooLarge(input: Input, counter: Counter, reserve: u64, k: nat, totals: seq<u64>, total: u64)
    requires TooLargeBefore(input, counter, reserve, k, totals) && |totals| == k
    ensures TooLargeBefore(input, counter, reserve, k, totals + [total])
    ensures VerdictAt(input, counter, reserve, k) == Exceeds(total) && k < Removable(input)
        && k + 1 < input.limits.maxCountCalls
      ==> TooLargeBefore(input, counter, reserve, k + 1, totals + [total])
  {
    hide VerdictAt, Removable;
  }

  lemma BadCount(input: Input, counter: Counter, reserve: u64, k: nat, totals: seq<u64>, error: BuildError)
    requires TooLargeBefore(input, counter, reserve, k, totals) && VerdictAt(input, counter, reserve, k) == Bad(error)
    ensures Selected(input, counter, reserve, Rejected(error))
  {
    hide TooLargeBefore, VerdictAt;
  }

  lemma NoneTried(input: Input, counter: Counter, reserve: u64)
    requires CheckInput(input).None?
    ensures TooLargeBefore(input, counter, reserve, 0, [])
  {
    CallsLeft(input);
    hide CheckInput, VerdictAt;
  }

  lemma CallsLeft(input: Input)
    requires CheckInput(input).None?
    ensures input.limits.maxCountCalls > 0
  {
  }

  // ----- the input checks -----

  method FindTurn(turns: seq<Turn>, turnId: string) returns (r: Option<nat>)
    ensures r == Position(turns, turnId)
  {
    assert turns[0..] == turns;
    for i := 0 to |turns|
      invariant Position(turns, turnId) == if Position(turns[i..], turnId).None? then None
          else Some(i + Position(turns[i..], turnId).value)
    {
      assert turns[i..][1..] == turns[i + 1..];
      if turns[i].turnId == turnId {
        return Some(i);
      }
    }
    return None;
  }

  method ValidateTurns(turns: seq<Turn>) returns (ok: bool)
    ensures ok <==> TurnsOk(turns)
  {
    var ids: set<string> := {};
    for i := 0 to |turns|
      invariant forall id :: id in ids <==> exists j | 0 <= j < i :: turns[j].turnId == id
      invariant TurnsOk(turns[..i])
    {
      if Blank(turns[i].turnId) || turns[i].turnId in ids || turns[i].state.Open? {
        return false;
      }
      ids := ids + {turns[i].turnId};
      assert turns[..i + 1] == turns[..i] + [turns[i]];
    }
    assert turns[..|turns|] == turns;
    return true;
  }

  lemma GroupsOkAt(turns: seq<Turn>, groups: seq<Group>, i: nat)
    requires i < |groups|
    ensures GroupsOk(turns, groups) ==> GroupOk(turns, groups[i]) && (i > 0 ==>
        InOrder(turns, groups[i - 1], groups[i]))
  {
    assert i > 0 && GroupsOk(turns, groups) ==> InOrder(turns, groups[i - 1], groups[i - 1 + 1]);
    hide InOrder, GroupOk;
  }

  method ValidateGroups(turns: seq<Turn>, groups: seq<Group>) returns (ok: bool)
    ensures ok <==> GroupsOk(turns, groups)
  {
    hide GroupShape;
    var last := 0;
    for i := 0 to |groups|
      invariant forall j | 0 <= j < i :: GroupOk(turns, groups[j])
      invariant forall j | 0 <= j < i - 1 :: InOrder(turns, groups[j], groups[j + 1])
      invariant last == if i > 0 then Position(turns, groups[i - 1].turnId).value else 0
    {
      GroupsOkAt(turns, groups, i);
      var index := FindTurn(turns, groups[i].turnId);
      if index.None? || index.value < last || groups[i].sources == [] || !GroupShape(groups[i]) {
        return false;
      }
      last := index.value;
    }
    return true;
  }

  method ValidateInput(input: Input) returns (error: Option<BuildError>)
    ensures error == CheckInput(input)
  {
    hide TurnsOk, PinsOk, GroupsOk, CurrentOk, ValidMessages, MessageCount;
    var limits, budget := input.limits, input.budget;
    if limits.maxGroups == 0 || limits.maxMessages == 0 || limits.maxCountCalls == 0 || budget.window == 0
        || budget.outputReserve == 0
       || input.targetBlank {
      return Some(Invalid);
    }
    if budget.mode == Hard && budget.outputEvidence != VerifiedUpperBound {
      return Some(UnverifiedCount);
    }
    if |input.groups| > limits.maxGroups || |input.turns| > limits.maxGroups {
      return Some(OverLimit);
    }
    if |input.system| + |input.current| + MessageCount(input.groups) > limits.maxMessages {
      return Some(OverLimit);
    }
    if input.version != 1 || !CurrentOk(input.current) {
      return Some(Invalid);
    }
    var ok := ValidateMessages(input.current);
    if !ok {
      return Some(Shape);
    }
    ok := ValidateTurns(input.turns);
    if !ok || !PinsOk(input.turns, input.pinned) {
      return Some(Invalid);
    }
    ok := ValidateGroups(input.turns, input.groups);
    return if ok then None else Some(Invalid);
  }

  // ---------------------------------------------------------------------
  // A projection is always acceptable history.
  // ---------------------------------------------------------------------

  // Every recorded tool call's arguments are a JSON object.
  ghost predicate ObjectArguments(events: seq<Event>) {
    forall i | 0 <= i < |events| && events[i].kind.ToolCall? :: events[i].kind.arguments.isObject
  }

  // What the projector has produced so far: the turns seen, closed, and their groups in order.
  ghost predicate Feeds(p: Projection, seen: set<string>) {
    && (forall i | 0 <= i < |p.turns| :: !Blank(p.turns[i].turnId) && p.turns[i].turnId in seen)
    && (forall i, j | 0 <= i < j < |p.turns| :: p.turns[i].turnId != p.turns[j].turnId)
    && GroupsOk(p.turns, p.groups)
  }

  ghost predicate AllSound(groups: seq<Group>) {
    forall i | 0 <= i < |groups| :: GroupSound(groups[i])
  }

  // The groups of one turn all belong to it, have sources and a valid outline.
  ghost predicate OwnGroups(groups: seq<Group>, turnId: string) {
    forall i | 0 <= i < |groups| :: groups[i].turnId == turnId && groups[i].sources != [] && GroupShape(groups[i])
  }

  lemma CallGroupOwn(r: CallRecord, turnId: string)
    requires Exchange(r)
    ensures var g := CallGroup(r, turnId);
      && g.turnId == turnId && g.sources != [] && GroupShape(g) && (r.event.kind.arguments.isObject ==> GroupSound(g))
  {
  }

  lemma {:induction false} CallGroupsOwn(calls: seq<CallRecord>, turnId: string)
    requires forall i | 0 <= i < |calls| :: Exchange(calls[i])
    ensures OwnGroups(CallGroups(calls, turnId), turnId)
    ensures (forall i | 0 <= i < |calls| :: calls[i].event.kind.arguments.isObject) ==>
        AllSound(CallGroups(calls, turnId))
  {
    if calls != [] {
      CallGroupsOwn(calls[..|calls| - 1], turnId);
      CallGroupOwn(calls[|calls| - 1], turnId);
      hide CallGroup, GroupShape, GroupSound;
    }
  }

  lemma TurnGroupsOwn(s: Scanned, turnId: string)
    requires ScanOk(s) && forall i | 0 <= i < |s.calls| :: Exchange(s.calls[i])
    ensures OwnGroups(TurnGroups(s, turnId), turnId)
    ensures ObjectCalls(s) ==> AllSound(TurnGroups(s, turnId))
  {
    CallGroupsOwn(s.calls, turnId);
    hide CallGroups;
  }

  lemma {:induction false} PositionKept(turns: seq<Turn>, t: Turn, turnId: string)
    requires t.turnId == turnId ==> Position(turns, turnId).Some? || forall i | 0 <= i < |turns| ::
        turns[i].turnId != turnId
    ensures Position(turns, turnId).Some? ==> Position(turns + [t], turnId) == Position(turns, turnId)
    ensures Position(turns, turnId).None? && t.turnId == turnId ==> Position(turns + [t], turnId) == Some(|turns|)
  {
    if turns != [] {
      assert (turns + [t])[1..] == turns[1..] + [t];
      PositionKept(turns[1..], t, turnId);
    }
  }

  lemma FeedsNext(p: Projection, t: Turn, groups: seq<Group>, omitted: seq<Omitted>, seen: set<string>)
    requires Feeds(p, seen) && !Blank(t.turnId) && t.turnId !in seen && OwnGroups(groups, t.turnId)
    ensures Feeds(Projection(p.groups + groups, p.turns + [t], omitted), seen + {t.turnId})
  {
    var turns, all := p.turns + [t], p.groups + groups;
    hide GroupShape, Position;
    forall i | 0 <= i < |all|
      ensures GroupOk(turns, all[i])
      ensures Position(turns, all[i].turnId).value == if i < |p.groups| then Position(p.turns, all[i].turnId).value
          else |p.turns|
    {
      if i < |p.groups| {
        assert GroupOk(p.turns, p.groups[i]);
      }
      PositionKept(p.turns, t, all[i].turnId);
    }
    forall i | 0 <= i < |all| - 1 ensures InOrder(turns, all[i], all[i + 1]) {
      if i + 1 < |p.groups| {
        assert InOrder(p.turns, p.groups[i], p.groups[i + 1]);
      } else if i < |p.groups| {
        assert GroupOk(p.turns, p.groups[i]);
      }
    }
  }

  lemma CloseFeeds(c: Config, s: Scanned, events: seq<Event>, out: Projection, count: nat, seen: set<string>)
    requires ScanOk(s) && events != [] && CloseTurn(c, s, events, out, count).Ok?
    requires Feeds(out, seen) && !Blank(events[0].turnId) && events[0].turnId !in seen
    ensures var p := CloseTurn(c, s, events, out, count).value.0;
      && Feeds(p, seen + {events[0].turnId}) && p.turns != [] && p.turns[|p.turns| - 1].state == s.state
      && p.turns[..|p.turns| - 1] == out.turns
      && (AllSound(out.groups) && ObjectCalls(s) ==> AllSound(p.groups))
  {
    AllAnswered(s, events);
    TurnGroupsOwn(s, events[0].turnId);
    var missing := s.state.IsSuccessful() && s.reply.None?;
    hide ScanOk, HasLooseEnds, TurnGroups, TurnOmitted, MessageCount, Feeds, OwnGroups, GroupSound;
    FeedsNext(out, Turn(events[0].turnId, s.state, s.terminal, missing), TurnGroups(s, events[0].turnId),
              out.omitted + TurnOmitted(s), seen);
  }

  ghost predicate ObjectCalls(s: Scanned) {
    forall i | 0 <= i < |s.calls| && s.calls[i].event.kind.ToolCall? :: s.calls[i].event.kind.arguments.isObject
  }

  lemma ScanEventObjects(s: Scanned, e: Event)
    requires CallsOk(s) && ObjectCalls(s) && (e.kind.ToolCall? ==> e.kind.arguments.isObject)
    ensures ScanEvent(s, e).Ok? ==> ObjectCalls(ScanEvent(s, e).value)
  {
    hide FindCall, Blank;
  }

  lemma {:induction false} ScanObjects(events: seq<Event>, messageIds: set<string>)
    requires ObjectArguments(events) && ScanTurn(events, messageIds).Ok?
    ensures ObjectCalls(ScanTurn(events, messageIds).value)
    decreases |events|
  {
    if events != [] {
      ScanObjects(events[..|events| - 1], messageIds);
      hide ObjectCalls, ScanEvent;
      ScanEventObjects(ScanTurn(events[..|events| - 1], messageIds).value, events[|events| - 1]);
    }
  }

  // The turns before the last are closed.
  ghost predicate EarlierClosed(p: Projection, all: bool) {
    forall i | 0 <= i < |p.turns| && (all || i < |p.turns| - 1) :: !p.turns[i].state.Open?
  }

  lemma {:induction false} ProjectFeeds(c: Config, rest: seq<Event>, out: Projection, seen: set<string>,
                                        ids: set<string>, count: nat)
    requires ProjectFrom(c, rest, out, seen, ids, count).Ok? && Feeds(out, seen) && EarlierClosed(out, rest != [])
    ensures var p := ProjectFrom(c, rest, out, seen, ids, count).value;
      && GroupsOk(p.turns, p.groups) && EarlierClosed(p, false)
      && (forall i | 0 <= i < |p.turns| :: !Blank(p.turns[i].turnId))
      && (forall i, j | 0 <= i < j < |p.turns| :: p.turns[i].turnId != p.turns[j].turnId)
      && (AllSound(out.groups) && ObjectArguments(rest) ==> AllSound(p.groups))
    decreases |rest|
  {
    if rest == [] {
      hide GroupsOk, AllSound;
    } else {
      var n := RunLength(rest, rest[0].turnId);
      ScanTurnOk(rest[..n], ids);
      hide CloseTurn, ScanTurn, ScanOk, Feeds, GroupsOk, GroupSound, RunLength;
      var s := ScanTurn(rest[..n], ids).value;
      if ObjectArguments(rest) {
        ScanObjects(rest[..n], ids);
        assert ObjectArguments(rest[n..]);
      }
      CloseFeeds(c, s, rest[..n], out, count, seen);
      var r := CloseTurn(c, s, rest[..n], out, count).value;
      assert EarlierClosed(r.0, rest[n..] != []);
      ProjectFeeds(c, rest[n..], r.0, seen + {rest[0].turnId}, s.messageIds, r.1);
    }
  }

  /** Every successful projection whose last turn is closed passes the builder's checks of history; and when recorded
      arguments are objects, no request built on it is rejected for its shape. */
  lemma ProjectionAccepted(sessionId: string, c: Config, events: seq<Event>)
    requires Project(sessionId, c, events).Ok?
    requires var p := Project(sessionId, c, events).value; p.turns != [] ==> !p.turns[|p.turns| - 1].state.Open?
    ensures var p := Project(sessionId, c, events).value; TurnsOk(p.turns) && GroupsOk(p.turns, p.groups)
    ensures var p := Project(sessionId, c, events).value;
      ObjectArguments(events) ==> forall kept :: Closed(KeptMessages(p.groups, kept))
  {
    hide GroupsOk, ProjectFrom;
    assert Feeds(Projection([], [], []), {}) by { NothingFeeds(); }
    ProjectFeeds(c, events, Projection([], [], []), {}, {}, 0);
    var p := Project(sessionId, c, events).value;
    if ObjectArguments(events) {
      forall kept ensures Closed(KeptMessages(p.groups, kept)) {
        SoundClosed(p.turns, p.groups, kept);
      }
    }
  }

  lemma NothingFeeds()
    ensures Feeds(Projection([], [], []), {})
  {
  }

  lemma SoundClosed(turns: seq<Turn>, groups: seq<Group>, kept: set<string>)
    requires GroupsOk(turns, groups) && AllSound(groups)
    ensures Closed(KeptMessages(groups, kept))
  {
    forall i | 0 <= i < |groups| ensures GroupShape(groups[i]) && Closed(groups[i].messages) {
      assert GroupOk(turns, groups[i]);
      GroupMessages(groups[i]);
    }
    hide GroupShape, Closed, GroupsOk;
    KeptIff(groups, kept);
  }

  /** Over a projected log with object arguments and a closed last turn, building never fails on shape. */
  lemma ProjectedBuildShape(sessionId: string, c: Config, events: seq<Event>, input: Input, k: nat)
    requires Project(sessionId, c, events).Ok? && ObjectArguments(events)
    requires var p := Project(sessionId, c, events).value;
      (p.turns != [] ==> !p.turns[|p.turns| - 1].state.Open?) && input.groups == p.groups && input.turns == p.turns
    requires ValidMessages(input.current)
    ensures ValidMessages(Candidate(input, k))
  {
    ProjectionAccepted(sessionId, c, events);
    hide *;
    KeptShape(input, k);
  }

  lemma KeptShape(input: Input, k: nat)
    requires ValidMessages(input.current) && forall kept :: Closed(KeptMessages(input.groups, kept))
    ensures ValidMessages(Candidate(input, k))
  {
    var system, middle := SystemMessages(input.system),
        KeptMessages(input.groups, KeptTurns(input.turns, Retained(input, k)));
    hide Scan, SystemMessages, KeptMessages, Retained, KeptTurns;
    SystemClosed(input.system);
    ClosedJoin(middle, input.current);
    ClosedJoin(system, middle + input.current);
    assert system + (middle + input.current) == system + middle + input.current;
  }

  // ----- dropping turns keeps the order of what is left -----

  ghost predicate Subsequence(a: seq<Message>, b: seq<Message>) {
    if a == [] then true
    else if b == [] then false
    else (a[|a| - 1] == b[|b| - 1] && Subsequence(a[..|a| - 1], b[..|b| - 1])) || Subsequence(a, b[..|b| - 1])
  }

  lemma {:induction false} SubsequenceExtend(a: seq<Message>, b: seq<Message>, c: seq<Message>)
    requires Subsequence(a, b)
    ensures Subsequence(a + c, b + c) && Subsequence(a, b + c)
    decreases |c|
  {
    if c == [] {
      assert a + c == a && b + c == b;
    } else {
      var init := c[..|c| - 1];
      SubsequenceExtend(a, b, init);
      assert (a + c)[..|a + c| - 1] == a + init && (b + c)[..|b + c| - 1] == b + init;
    }
  }

  lemma {:induction false} FewerKept(groups: seq<Group>, fewer: set<string>, more: set<string>)
    requires fewer <= more
    ensures Subsequence(KeptMessages(groups, fewer), KeptMessages(groups, more))
  {
    if groups != [] {
      var init, g := groups[..|groups| - 1], groups[|groups| - 1];
      FewerKept(init, fewer, more);
      SubsequenceExtend(KeptMessages(init, fewer), KeptMessages(init, more), g.messages);
    }
  }

  lemma {:induction false} SubsequencePrefix(p: seq<Message>, a: seq<Message>, b: seq<Message>)
    requires Subsequence(a, b)
    ensures Subsequence(p + a, p + b)
    decreases |b|
  {
    if b == [] {
      SubsequenceSelf(p + a);
      assert p + a == p + b;
    } else {
      assert (p + b)[..|p + b| - 1] == p + b[..|b| - 1];
      if Subsequence(a, b[..|b| - 1]) {
        SubsequencePrefix(p, a, b[..|b| - 1]);
      } else {
        assert (p + a)[..|p + a| - 1] == p + a[..|a| - 1];
        SubsequencePrefix(p, a[..|a| - 1], b[..|b| - 1]);
      }
    }
  }

  lemma {:induction false} SubsequenceSelf(a: seq<Message>)
    ensures Subsequence(a, a)
  {
    if a != [] {
      SubsequenceSelf(a[..|a| - 1]);
    }
  }

  /** Removing more turns never adds, edits or reorders a message. */
  lemma CandidatesShrink(input: Input, k: nat, n: nat)
    requires k <= n
    ensures Subsequence(Candidate(input, n), Candidate(input, k))
  {
    var fewer, more := KeptTurns(input.turns, Retained(input, n)), KeptTurns(input.turns, Retained(input, k));
    assert fewer <= more by { hide Rank; }
    hide Retained, KeptTurns, Subsequence, SystemMessages, KeptMessages;
    FewerKept(input.groups, fewer, more);
    SubsequencePrefix(SystemMessages(input.system), KeptMessages(input.groups, fewer),
                      KeptMessages(input.groups, more));
    SubsequenceExtend(SystemMessages(input.system) + KeptMessages(input.groups, fewer),
                      SystemMessages(input.system) + KeptMessages(input.groups, more), input.current);
  }
}
