/** Hosts racing on one compare-and-swap cell: acquire, commit, grant and recover, with writes whose
    outcome is unknown (crates/core/budget/src/execution.rs, grant.rs, recovery.rs). */
module BudgetProtocol {
  import opened BudgetTypes
  import opened BudgetSteps
  import opened BudgetInvariant
  import opened BudgetConservation
  import opened BudgetCheckpoint
  import opened BudgetChain

  // ---------------------------------------------------------------------
  // What one host does.
  // ---------------------------------------------------------------------

  // The in-memory side of a durable claim.
  datatype Lease = Lease(base: Checkpoint, claim: Checkpoint, config: Config, ledger: State)

  // Restores the ledger, reads its report and writes the claim; nothing is granted to a stopped task.
  ghost function Acquired(base: Checkpoint, context: RestoreContext, executionId: string, now: Duration,
                          later: Duration): Option<Lease> {
    if !WellFormed(base) || !IsQuiescent(base) then None
    else
      match Restore(base, context, now)
      case NotRestored(_) => None
      case RestoredAs(c, s) =>
        var t := ObserveReport(c, s, later).0;
        if t.stop.Some? || base.revision == U64_MAX || !WellFormed(ClaimImage(base, executionId)) then None
        else Some(Lease(base, ClaimImage(base, executionId), c, t))
  }

  function CountTerminals(events: seq<Event>): nat {
    if events == [] then 0
    else CountTerminals(events[..|events| - 1]) + if events[|events| - 1].body.IsTerminal() then 1 else 0
  }

  function CountReports(events: seq<Event>): nat {
    if events == [] then 0
    else CountReports(events[..|events| - 1]) + if events[|events| - 1].body.RunReported? then 1 else 0
  }

  // The committed events of exactly one turn, directly after the claimed boundary.
  predicate TurnSlice(base: Checkpoint, events: seq<Event>) {
    && (base.anchor.Some? ==> base.anchor.value.seqNo < U64_MAX)
    && AddressesOk(events, base.report.identity.sessionId, if base.anchor.Some? then base.anchor.value.seqNo + 1 else 0)
    && events != [] && (forall e | e in events :: e.turnId == events[|events| - 1].turnId)
    && CountTerminals(events) == 1 && CountReports(events) == 1
  }

  // The ready image that replaces the claim.
  ghost function Committed(lease: Lease, events: seq<Event>, now: Duration): Option<Checkpoint> {
    if !TurnSlice(lease.base, events) then None
    else
      match Seal(lease.config, lease.ledger, Some(events[|events| - 1].Address()), now).1
      case NotSealed(_) => None
      case SealedAs(image) => if IsQuiescent(image) && ClosedTail(events, image.report) then Some(image) else None
  }

  // ---------------------------------------------------------------------
  // The world: one cell, its past, the hosts and their writes.
  // ---------------------------------------------------------------------

  datatype Kind = Initial | Claiming(id: string) | Committing(id: string) | Granting | Recovering(id: string)

  // A write of image over previous. It may take effect at any time, any number of times, or never.
  datatype Write = Write(previous: Option<Checkpoint>, image: Checkpoint, kind: Kind)

  // chain lists every image the cell has held; its last element is the stored one.
  datatype World = World(chain: seq<Checkpoint>, used: set<string>, claims: map<string, Lease>,
                         held: map<string, Lease>, writes: set<Write>)

  datatype Act =
    | Create(config: Config, start: Duration, ops: seq<Op>, anchor: Option<Cursor>, now: Duration)
    | Acquire(context: RestoreContext, id: string, now: Duration, later: Duration)
    | Obtain(id: string)
    | Work(id: string, op: Op)
    | Commit(id: string, events: seq<Event>, now: Duration)
    | Abandon(id: string)
    | Grant(context: RestoreContext, history: seq<Event>, request: GrantRequest)
    | Recover(ownership: Ownership, recovery: RecoveryRequest, candidate: Checkpoint, history: seq<Event>)
    | Land(write: Write)

  function Stored(w: World): Option<Checkpoint> {
    if w.chain == [] then None else Some(w.chain[|w.chain| - 1])
  }

  function RevisionOf(k: Option<Checkpoint>): u64 {
    if k.None? then 0 else k.value.revision
  }

  const NO_WORLD := World([], {}, map[], map[], {})

  ghost function Next(w: World, act: Act): World {
    match act
    case Create(config, start, ops, anchor, now) =>
      if !IdentityOk(config.identity) then w
      else
        (match Seal(config, After(config, FreshLedger(start), ops), anchor, now).1
         case NotSealed(_) => w
         case SealedAs(image) => w.(writes := w.writes + {Write(None, image, Initial)}))
    case Acquire(context, id, now, later) =>
      // execution ids are generated afresh
      if id in w.used || Blank(id) || w.chain == [] then w
      else
        var lease := Acquired(Stored(w).value, context, id, now, later);
        if lease.None? then w
        else w.(used := w.used + {id}, claims := w.claims[id := lease.value],
                writes := w.writes + {Write(Some(lease.value.base), lease.value.claim, Claiming(id))})
    case Obtain(id) =>
      // the store reported the claim as committed
      if id in w.claims && w.claims[id].claim in w.chain then
        var lease := w.claims[id];
        w.(claims := w.claims - {id},
           held := w.held[id := lease.(ledger := lease.ledger.(revision := lease.claim.revision))])
      else w
    case Work(id, op) =>
      if id in w.held
      then w.(held := w.held[id := w.held[id].(ledger := Step(w.held[id].config, w.held[id].ledger, op).0)]) else w
    case Commit(id, events, now) =>
      // committing consumes the lease, whatever the outcome
      if id !in w.held then w
      else
        var image := Committed(w.held[id], events, now);
        w.(held := w.held - {id},
           writes := if image.None? then w.writes
               else w.writes + {Write(Some(w.held[id].claim), image.value, Committing(id))})
    case Abandon(id) => w.(claims := w.claims - {id}, held := w.held - {id})
    case Grant(context, history, request) =>
      if w.chain == [] then w
      else
        (match DecideGrant(Stored(w).value, context, history, request)
         case GrantReady(image) => w.(writes := w.writes + {Write(Stored(w), image, Granting)})
         case _ => w)
    case Recover(ownership, recovery, candidate, history) =>
      if w.chain == [] then w
      else
        (match DecideRecover(Stored(w).value, ownership, recovery, candidate, history)
         case RecoverReady(image) => w.(writes := w.writes
             + {Write(Stored(w), image, Recovering(recovery.executionId))})
         case _ => w)
    case Land(write) =>
      // the store compares the revision and validates the transition against the image it really holds
      if write in w.writes && RevisionOf(write.previous) == RevisionOf(Stored(w))
          && ValidTransition(Stored(w), write.image)
      then w.(chain := w.chain + [write.image]) else w
  }

  ghost function Run(w: World, acts: seq<Act>): World
    decreases |acts|
  {
    if acts == [] then w else Run(Next(w, acts[0]), acts[1..])
  }

  // ---------------------------------------------------------------------
  // The invariant.
  // ---------------------------------------------------------------------

  ghost predicate Keeps(a: Checkpoint, b: Checkpoint) {
    NoRefund(a.report, b.report) && a.nextId <= b.nextId
  }

  ghost predicate KindOk(write: Write) {
    match write.kind
    case Initial => write.previous.None?
    case Claiming(id) => write.previous.Some? && IsQuiescent(write.previous.value)
        && write.image.executionId == Some(id)
    case Committing(id) => write.previous.Some? && write.previous.value.executionId == Some(id)
    case Granting => write.previous.Some? && IsQuiescent(write.previous.value)
    case Recovering(id) => write.previous.Some? && write.previous.value.executionId == Some(id)
  }

  ghost predicate WriteOk(w: World, write: Write) {
    && ValidTransition(write.previous, write.image) && KindOk(write)
    && (write.previous.Some? ==> write.previous.value in w.chain && Keeps(write.previous.value, write.image))
    && (write.image.executionId.Some? ==> write.kind == Claiming(write.image.executionId.value))
    && (write.kind.Claiming? ==> write.kind.id in w.used)
  }

  // The ledger carries on from the base image; only the revision may already be the claim's.
  ghost predicate LedgerFollows(lease: Lease) {
    var s, base := lease.ledger, lease.base;
    && Valid(lease.config, s) && s.grants == base.grants && s.recoveries == base.recoveries
    && lease.config.identity == base.report.identity && lease.config.tokenMode == base.report.tokenMode
    && WithinLimits(lease.config.limits, base.report.limits)
    && (forall r: Resource :: base.report.charged.Get(r) <= s.charged.Get(r))
    && UsageGrows(base.report.usage, s.usage) && base.report.activeTime <= s.activeTime
    && base.report.cleanupTime <= s.cleanupTime
    && base.nextId <= s.nextId
  }

  ghost predicate LeaseOk(w: World, id: string, lease: Lease) {
    && id in w.used && lease.base in w.chain && WellFormed(lease.base) && IsQuiescent(lease.base)
    && lease.base.revision < U64_MAX
    && lease.claim == ClaimImage(lease.base, id) && WellFormed(lease.claim) && LedgerFollows(lease)
  }

  ghost predicate ChainOk(chain: seq<Checkpoint>) {
    && (chain != [] ==> ValidTransition(None, chain[0]))
    && ValidChain(chain)
    && (forall i | 0 <= i < |chain| :: chain[i].revision == i + 1)
    && (forall i, j | 0 <= i <= j < |chain| :: Keeps(chain[i], chain[j]))
  }

  ghost predicate HeldOk(w: World, id: string, lease: Lease) {
    LeaseOk(w, id, lease) && lease.claim in w.chain && lease.ledger.revision == lease.claim.revision
  }

  ghost predicate Inv(w: World) {
    && ChainOk(w.chain)
    && (forall write | write in w.writes :: WriteOk(w, write))
    && (forall id | id in w.claims :: LeaseOk(w, id, w.claims[id]))
    && (forall id | id in w.held :: HeldOk(w, id, w.held[id]))
    && w.claims.Keys !! w.held.Keys
  }

  // ---------------------------------------------------------------------
  // What each host step writes.
  // ---------------------------------------------------------------------

  lemma AcquiredFollows(base: Checkpoint, context: RestoreContext, id: string, now: Duration, later: Duration)
    requires Acquired(base, context, id, now, later).Some?
    ensures var lease := Acquired(base, context, id, now, later).value;
      && lease.base == base && WellFormed(base) && IsQuiescent(base) && base.revision < U64_MAX
      && lease.claim == ClaimImage(base, id) && WellFormed(lease.claim) && LedgerFollows(lease)
  {
    var c, s := RestoredConfig(base, context.hostLimits), RestoredState(base, context.hostLimits, now);
    hide WellFormed, Valid, RestoredState, Tick;
    RestoreValid(base, context.hostLimits, now);
    QuiescentRestore(base, context.hostLimits, now);
    TickValid(c, s, later);
    TickKeeps(c, s, later);
  }

  lemma WorkFollows(lease: Lease, op: Op)
    requires LedgerFollows(lease)
    ensures LedgerFollows(lease.(ledger := Step(lease.config, lease.ledger, op).0))
    ensures Step(lease.config, lease.ledger, op).0.revision == lease.ledger.revision
  {
    hide Valid, Step;
    StepValid(lease.config, lease.ledger, op);
    StepGrows(lease.config, lease.ledger, op);
    var s, t := lease.ledger, Step(lease.config, lease.ledger, op).0;
    forall r: Resource ensures lease.base.report.charged.Get(r) <= t.charged.Get(r) {
      StepCharges(lease.config, s, op, r);
    }
  }

  lemma CommitTransition(lease: Lease, id: string, events: seq<Event>, now: Duration)
    requires LedgerFollows(lease) && lease.base.revision < U64_MAX && lease.claim == ClaimImage(lease.base, id)
    requires WellFormed(lease.claim) && lease.ledger.revision == lease.claim.revision
    requires Committed(lease, events, now).Some?
    ensures var image := Committed(lease, events, now).value;
      ValidTransition(Some(lease.claim), image) && Keeps(lease.claim, image) && IsQuiescent(image)
  {
    hide WellFormed, Valid, Tick, TurnSlice, ClosedTail;
    TickKeeps(lease.config, lease.ledger, now);
    TightenedIffWithin(lease.config.limits, lease.base.report.limits);
  }

  lemma CreateTransition(config: Config, start: Duration, ops: seq<Op>, anchor: Option<Cursor>, now: Duration)
    requires IdentityOk(config.identity)
    ensures var r := Seal(config, After(config, FreshLedger(start), ops), anchor, now).1;
      r.SealedAs? ==> ValidTransition(None, r.image) && r.image.executionId.None?
  {
    var s := After(config, FreshLedger(start), ops);
    hide WellFormed, Tick;
    RunGrows(config, FreshLedger(start), ops);
    TickKeeps(config, s, now);
  }

  lemma GrantTransition(base: Checkpoint, context: RestoreContext, history: seq<Event>, request: GrantRequest)
    requires DecideGrant(base, context, history, request).GrantReady?
    ensures var image := DecideGrant(base, context, history, request).image;
      ValidTransition(Some(base), image) && Keeps(base, image) && IsQuiescent(base) && image.executionId.None?
  {
    hide WellFormed, GrantText, ValidIncrease, ValidTransition, Covers, VerifiedHistory;
    GrantReadyFacts(base, context, history, request);
  }

  lemma RecoverTransition(current: Checkpoint, ownership: Ownership, request: RecoveryRequest, candidate: Checkpoint,
                          history: seq<Event>)
    requires DecideRecover(current, ownership, request, candidate, history).RecoverReady?
    ensures var image := DecideRecover(current, ownership, request, candidate, history).image;
      && ValidTransition(Some(current), image) && Keeps(current, image) && IsQuiescent(image)
      && current.executionId == Some(request.executionId)
  {
    var image := DecideRecover(current, ownership, request, candidate, history).image;
    hide DecideRecover, WellFormed, RecoveryText, AuditText, ValidTransition;
    RecoverReadyFacts(current, ownership, request, candidate, history);
    RecoveredAudits(current, image, candidate, RecoveryRecordFor(request, ownership, candidate));
  }

  // ---------------------------------------------------------------------
  // The comparison of revisions identifies the predecessor.
  // ---------------------------------------------------------------------

  lemma ChainRevisions(chain: seq<Checkpoint>, k: Checkpoint)
    requires ChainOk(chain) && k in chain && k.revision == chain[|chain| - 1].revision
    ensures k == chain[|chain| - 1]
  {
    hide ValidTransition, ValidChain, Keeps;
    var i :| 0 <= i < |chain| && chain[i] == k;
  }

  /** A write takes effect exactly when its predecessor is still the stored image: equal revisions mean equal
      images, and the store's own transition check never rejects. */
  lemma LandsIffCurrent(w: World, write: Write)
    requires Inv(w) && write in w.writes
    ensures RevisionOf(write.previous) == RevisionOf(Stored(w)) <==> write.previous == Stored(w)
    ensures write.previous == Stored(w) ==> Next(w, Land(write)).chain == w.chain + [write.image]
    ensures write.previous != Stored(w) ==> Next(w, Land(write)) == w
  {
    hide ValidTransition, KindOk, Keeps, ValidChain, LeaseOk;
    assert WriteOk(w, write);
    if write.previous.Some? && w.chain != [] && RevisionOf(write.previous) == RevisionOf(Stored(w)) {
      ChainRevisions(w.chain, write.previous.value);
    }
    assert write.previous.Some? ==> write.previous.value.revision > 0 by {
      if write.previous.Some? {
        var i :| 0 <= i < |w.chain| && w.chain[i] == write.previous.value;
      }
    }
  }

  lemma KeepsTrans(a: Checkpoint, b: Checkpoint, d: Checkpoint)
    requires Keeps(a, b) && Keeps(b, d)
    ensures Keeps(a, d)
  {
  }

  lemma ChainGrows(chain: seq<Checkpoint>, k: Checkpoint)
    requires ChainOk(chain)
    requires chain == [] ==> ValidTransition(None, k)
    requires chain != [] ==> ValidTransition(Some(chain[|chain| - 1]), k) && Keeps(chain[|chain| - 1], k)
    ensures ChainOk(chain + [k])
  {
    var grown := chain + [k];
    hide WellFormed, RecoveryStep, GrantStep;
    forall i | 0 <= i < |grown| - 1 ensures Linked(grown, i) {
      assert i < |chain| - 1 ==> Linked(chain, i);
    }
    hide ValidTransition;
    forall i, j | 0 <= i <= j < |grown| ensures Keeps(grown[i], grown[j]) {
      if j == |chain| {
        if i < j {
          KeepsTrans(chain[i], chain[|chain| - 1], k);
        }
      } else {
        assert Keeps(chain[i], chain[j]);
      }
    }
  }

  // ---------------------------------------------------------------------
  // Every step keeps the invariant.
  // ---------------------------------------------------------------------

  lemma WriteTransfer(w: World, v: World, write: Write)
    requires WriteOk(w, write) && w.chain <= v.chain && w.used <= v.used
    ensures WriteOk(v, write)
  {
    hide ValidTransition, KindOk, Keeps;
  }

  lemma LeaseTransfer(w: World, v: World, id: string, lease: Lease)
    requires LeaseOk(w, id, lease) && w.chain <= v.chain && w.used <= v.used
    ensures LeaseOk(v, id, lease)
    ensures HeldOk(w, id, lease) ==> HeldOk(v, id, lease)
  {
    hide WellFormed, LedgerFollows, IsQuiescent;
  }

  // Only what is new or changed in v has to be established.
  lemma Frame(w: World, v: World)
    requires Inv(w) && ChainOk(v.chain) && w.chain <= v.chain && w.used <= v.used
    requires forall x | x in v.writes && x !in w.writes :: WriteOk(v, x)
    requires forall id | id in v.claims ::
        (id in w.claims && v.claims[id] == w.claims[id]) || LeaseOk(v, id, v.claims[id])
    requires forall id | id in v.held :: (id in w.held && v.held[id] == w.held[id]) || HeldOk(v, id, v.held[id])
    requires v.claims.Keys !! v.held.Keys
    ensures Inv(v)
  {
    hide ChainOk, WriteOk, LeaseOk, HeldOk;
    forall x | x in v.writes ensures WriteOk(v, x) {
      if x in w.writes {
        WriteTransfer(w, v, x);
      }
    }
    forall id | id in v.claims ensures LeaseOk(v, id, v.claims[id]) {
      if id in w.claims && v.claims[id] == w.claims[id] {
        LeaseTransfer(w, v, id, w.claims[id]);
      }
    }
    forall id | id in v.held ensures HeldOk(v, id, v.held[id]) {
      if id in w.held && v.held[id] == w.held[id] {
        assert LeaseOk(w, id, w.held[id]) by { HeldLease(w, id, w.held[id]); }
        LeaseTransfer(w, v, id, w.held[id]);
      }
    }
  }

  lemma HeldLease(w: World, id: string, lease: Lease)
    requires HeldOk(w, id, lease)
    ensures LeaseOk(w, id, lease) && id in w.used && lease.claim in w.chain
  {
    hide LedgerFollows, WellFormed;
  }

  lemma AddWrite(w: World, write: Write)
    requires Inv(w) && WriteOk(w.(writes := w.writes + {write}), write)
    ensures Inv(w.(writes := w.writes + {write}))
  {
    hide WriteOk, LeaseOk, HeldOk, ChainOk;
    Frame(w, w.(writes := w.writes + {write}));
  }

  lemma LastStored(w: World)
    requires w.chain != []
    ensures Stored(w).Some? && Stored(w).value in w.chain
  {
  }

  lemma AcquireInv(w: World, context: RestoreContext, id: string, now: Duration, later: Duration)
    requires Inv(w)
    ensures Inv(Next(w, Acquire(context, id, now, later)))
  {
    hide ChainOk, LeaseOk, HeldOk, WriteOk, Acquired;
    if id !in w.used && !Blank(id) && w.chain != [] && Acquired(Stored(w).value, context, id, now, later).Some? {
      var v := Next(w, Acquire(context, id, now, later));
      NewClaim(w, v, context, id, now, later);
      FreshId(w, id);
      Frame(w, v);
    }
  }

  lemma FreshId(w: World, id: string)
    requires Inv(w) && id !in w.used
    ensures id !in w.claims && id !in w.held
  {
    hide ChainOk, LedgerFollows, WellFormed, WriteOk;
  }

  lemma NewClaim(w: World, v: World, context: RestoreContext, id: string, now: Duration, later: Duration)
    requires w.chain != [] && !Blank(id) && v.chain == w.chain && v.used == w.used + {id}
    requires Acquired(Stored(w).value, context, id, now, later).Some?
    ensures var lease := Acquired(Stored(w).value, context, id, now, later).value;
      LeaseOk(v, id, lease) && WriteOk(v, Write(Some(lease.base), lease.claim, Claiming(id)))
  {
    AcquiredFollows(Stored(w).value, context, id, now, later);
    LastStored(w);
    ClaimValid(Stored(w).value, id);
    hide Acquired, ValidTransition, LedgerFollows, WellFormed;
  }

  lemma ObtainInv(w: World, id: string)
    requires Inv(w)
    ensures Inv(Next(w, Obtain(id)))
  {
    hide ChainOk, LeaseOk, HeldOk, WriteOk;
    if id in w.claims && w.claims[id].claim in w.chain {
      NewlyHeld(w, Next(w, Obtain(id)), id);
      Frame(w, Next(w, Obtain(id)));
    }
  }

  lemma NewlyHeld(w: World, v: World, id: string)
    requires id in w.claims && LeaseOk(w, id, w.claims[id]) && w.claims[id].claim in w.chain
    requires v.chain == w.chain && v.used == w.used
    ensures HeldOk(v, id, w.claims[id].(ledger := w.claims[id].ledger.(revision := w.claims[id].claim.revision)))
  {
    hide WellFormed, Valid;
    RevisionFree(w.claims[id], w.claims[id].claim.revision);
    hide LedgerFollows;
  }

  // The revision is not part of what the ledger keeps.
  lemma RevisionFree(lease: Lease, revision: u64)
    requires LedgerFollows(lease)
    ensures LedgerFollows(lease.(ledger := lease.ledger.(revision := revision)))
  {
  }

  lemma WorkInv(w: World, id: string, op: Op)
    requires Inv(w)
    ensures Inv(Next(w, Work(id, op)))
  {
    hide ChainOk, LeaseOk, HeldOk, WriteOk, Step;
    if id in w.held {
      WorkedLease(w, Next(w, Work(id, op)), id, op);
      Frame(w, Next(w, Work(id, op)));
    }
  }

  lemma WorkedLease(w: World, v: World, id: string, op: Op)
    requires id in w.held && HeldOk(w, id, w.held[id]) && v.chain == w.chain && v.used == w.used
    ensures HeldOk(v, id, w.held[id].(ledger := Step(w.held[id].config, w.held[id].ledger, op).0))
  {
    hide WellFormed, Step, LedgerFollows;
    WorkFollows(w.held[id], op);
  }

  lemma CommitInv(w: World, id: string, events: seq<Event>, now: Duration)
    requires Inv(w)
    ensures Inv(Next(w, Commit(id, events, now)))
  {
    hide ChainOk, LeaseOk, HeldOk, WriteOk, Committed;
    if id in w.held {
      if Committed(w.held[id], events, now).Some? {
        CommittedWrite(w, Next(w, Commit(id, events, now)), id, events, now);
      }
      Frame(w, Next(w, Commit(id, events, now)));
    }
  }

  lemma CommittedWrite(w: World, v: World, id: string, events: seq<Event>, now: Duration)
    requires id in w.held && HeldOk(w, id, w.held[id]) && v.chain == w.chain && v.used == w.used
    requires Committed(w.held[id], events, now).Some?
    ensures WriteOk(v, Write(Some(w.held[id].claim), Committed(w.held[id], events, now).value, Committing(id)))
  {
    hide WellFormed, Committed, ValidTransition, LedgerFollows, Keeps;
    CommitTransition(w.held[id], id, events, now);
  }

  lemma WritersInv(w: World, act: Act)
    requires Inv(w) && (act.Create? || act.Grant? || act.Recover?)
    ensures Inv(Next(w, act))
  {
    hide ChainOk, LeaseOk, HeldOk, ValidTransition, Keeps, Seal, DecideGrant, DecideRecover, After, FreshLedger,
      IdentityOk, IsQuiescent;
    if w.chain != [] {
      LastStored(w);
    }
    match act
    case Create(config, start, ops, anchor, now) =>
      if IdentityOk(config.identity) {
        CreateTransition(config, start, ops, anchor, now);
        var r := Seal(config, After(config, FreshLedger(start), ops), anchor, now).1;
        if r.SealedAs? {
          AddWrite(w, Write(None, r.image, Initial));
        }
      }
    case Grant(context, history, request) =>
      if w.chain != [] {
        var d := DecideGrant(Stored(w).value, context, history, request);
        if d.GrantReady? {
          GrantTransition(Stored(w).value, context, history, request);
          AddWrite(w, Write(Stored(w), d.image, Granting));
        }
      }
    case Recover(ownership, recovery, candidate, history) =>
      if w.chain != [] {
        var d := DecideRecover(Stored(w).value, ownership, recovery, candidate, history);
        if d.RecoverReady? {
          RecoverTransition(Stored(w).value, ownership, recovery, candidate, history);
          NoClaim(d.image);
          AddWrite(w, Write(Stored(w), d.image, Recovering(recovery.executionId)));
        }
      }
  }

  lemma NoClaim(k: Checkpoint)
    requires IsQuiescent(k)
    ensures k.executionId.None?
  {
  }

  lemma LandInv(w: World, write: Write)
    requires Inv(w)
    ensures Inv(Next(w, Land(write)))
  {
    hide ChainOk, LeaseOk, HeldOk, WriteOk, ValidTransition;
    var v := Next(w, Land(write));
    if v != w {
      LandsIffCurrent(w, write);
      assert ValidTransition(write.previous, write.image)
          && (write.previous.Some? ==> Keeps(write.previous.value, write.image)) by {
        WriteFacts(w, write);
      }
      ChainGrows(w.chain, write.image);
      Frame(w, v);
    }
  }

  lemma WriteFacts(w: World, write: Write)
    requires WriteOk(w, write)
    ensures ValidTransition(write.previous, write.image) && KindOk(write)
    ensures write.previous.Some? ==> write.previous.value in w.chain && Keeps(write.previous.value, write.image)
  {
    hide ValidTransition, KindOk, Keeps;
  }

  lemma NextInv(w: World, act: Act)
    requires Inv(w)
    ensures Inv(Next(w, act))
  {
    match act
    case Create(_, _, _, _, _) => WritersInv(w, act);
    case Acquire(context, id, now, later) => AcquireInv(w, context, id, now, later);
    case Obtain(id) => ObtainInv(w, id);
    case Work(id, op) => WorkInv(w, id, op);
    case Commit(id, events, now) => CommitInv(w, id, events, now);
    case Abandon(id) => hide LeaseOk, HeldOk, ChainOk, WriteOk; Frame(w, Next(w, act));
    case Grant(_, _, _) => WritersInv(w, act);
    case Recover(_, _, _, _) => WritersInv(w, act);
    case Land(write) => LandInv(w, write);
  }

  lemma {:induction false} RunInv(w: World, acts: seq<Act>)
    requires Inv(w)
    ensures Inv(Run(w, acts))
    decreases |acts|
  {
    hide Inv, Next;
    if acts != [] {
      NextInv(w, acts[0]);
      RunInv(Next(w, acts[0]), acts[1..]);
    }
  }

  // ---------------------------------------------------------------------
  // Safety over whole runs.
  // ---------------------------------------------------------------------

  lemma NoWorldInv()
    ensures Inv(NO_WORLD) && ClaimsInv(NO_WORLD)
  {
  }

  /** Whatever the interleaving and whichever writes are lost, delayed or repeated: every stored image is a valid
      transition from its predecessor; charges, usage, times and the id watermark never fall; audits are
      append-only; and limits rise only in an image that appends a grant. */
  lemma ChainSafety(acts: seq<Act>)
    ensures var chain := Run(NO_WORLD, acts).chain;
      && (chain != [] ==> ValidTransition(None, chain[0]))
      && (forall i | 0 <= i < |chain| - 1 :: Linked(chain, i))
      && (forall i, j | 0 <= i <= j < |chain| :: Keeps(chain[i], chain[j]) && AuditExtends(chain[i], chain[j]))
      && (forall i, j | 0 <= i <= j < |chain| && |chain[i].grants| == |chain[j].grants| ::
            WithinLimits(chain[j].report.limits, chain[i].report.limits))
  {
    NoWorldInv();
    RunInv(NO_WORLD, acts);
    hide Run, ValidTransition, Linked, AuditExtends, Keeps, WriteOk, LeaseOk, HeldOk, WithinLimits;
    var chain := Run(NO_WORLD, acts).chain;
    forall i, j | 0 <= i <= j < |chain|
      ensures AuditExtends(chain[i], chain[j])
      ensures |chain[i].grants| == |chain[j].grants| ==> WithinLimits(chain[j].report.limits, chain[i].report.limits)
    {
      ChainExtends(chain, i, j);
      if |chain[i].grants| == |chain[j].grants| {
        LimitsRiseByGrant(chain, i, j);
      }
    }
  }

  // ----- every execution id marks one claim -----

  ghost predicate ClaimsInv(w: World) {
    && (forall a, b | a in w.writes && b in w.writes && a.kind.Claiming? && a.kind == b.kind :: a == b)
    && (forall k | k in w.chain && k.executionId.Some? :: exists a ::
        a in w.writes && a.kind == Claiming(k.executionId.value) && a.image == k)
  }

  // Only Acquire adds a claiming write, under an id no earlier write has.
  lemma NewWrites(w: World, act: Act)
    requires !act.Land?
    ensures var v := Next(w, act);
      && v.chain == w.chain && w.writes <= v.writes
      && forall x | x in v.writes && x !in w.writes && x.kind.Claiming? ::
           x.kind.id !in w.used && forall y | y in v.writes && y !in w.writes :: y == x
  {
    hide Seal, DecideGrant, DecideRecover, After, Step, Acquired, Committed, IdentityOk, FreshLedger;
  }

  lemma LandClaims(w: World, write: Write)
    requires Inv(w) && ClaimsInv(w)
    ensures ClaimsInv(Next(w, Land(write)))
  {
    hide ChainOk, LeaseOk, HeldOk, ValidTransition, KindOk, Keeps;
    if Next(w, Land(write)) != w {
      assert WriteOk(w, write);
    }
  }

  lemma ClaimIdUsed(w: World, x: Write)
    requires Inv(w) && x in w.writes && x.kind.Claiming?
    ensures x.kind.id in w.used
  {
    hide ChainOk, LeaseOk, HeldOk, ValidTransition, KindOk, Keeps;
    assert WriteOk(w, x);
  }

  lemma ClaimsFrame(w: World, v: World)
    requires ClaimsInv(w) && v.chain == w.chain && w.writes <= v.writes
    requires forall x | x in w.writes && x.kind.Claiming? :: x.kind.id in w.used
    requires forall x | x in v.writes && x !in w.writes && x.kind.Claiming? ::
      x.kind.id !in w.used && forall y | y in v.writes && y !in w.writes :: y == x
    ensures ClaimsInv(v)
  {
    forall a, b | a in v.writes && b in v.writes && a.kind.Claiming? && a.kind == b.kind ensures a == b {
    }
    forall k | k in v.chain && k.executionId.Some?
      ensures exists a :: a in v.writes && a.kind == Claiming(k.executionId.value) && a.image == k
    {
      var a :| a in w.writes && a.kind == Claiming(k.executionId.value) && a.image == k;
      assert a in v.writes;
    }
  }

  lemma NextClaims(w: World, act: Act)
    requires Inv(w) && ClaimsInv(w)
    ensures ClaimsInv(Next(w, act)) && w.chain <= Next(w, act).chain && w.writes <= Next(w, act).writes
  {
    if act.Land? {
      LandClaims(w, act.write);
    } else {
      NewWrites(w, act);
      hide *;
      forall x | x in w.writes && x.kind.Claiming? ensures x.kind.id in w.used {
        ClaimIdUsed(w, x);
      }
      ClaimsFrame(w, Next(w, act));
    }
  }

  lemma {:induction false} RunClaims(w: World, acts: seq<Act>)
    requires Inv(w) && ClaimsInv(w)
    ensures ClaimsInv(Run(w, acts)) && w.chain <= Run(w, acts).chain && w.writes <= Run(w, acts).writes
    decreases |acts|
  {
    hide Inv, Next, ClaimsInv;
    if acts != [] {
      NextInv(w, acts[0]);
      NextClaims(w, acts[0]);
      RunClaims(Next(w, acts[0]), acts[1..]);
    }
  }

  lemma OneClaim(w: World, a: Checkpoint, b: Checkpoint)
    requires ClaimsInv(w) && a in w.chain && b in w.chain && a.executionId.Some? && a.executionId == b.executionId
    ensures a == b
  {
    var x :| x in w.writes && x.kind == Claiming(a.executionId.value) && x.image == a;
    var y :| y in w.writes && y.kind == Claiming(b.executionId.value) && y.image == b;
  }

  /** At most one lease owns the stored image. */
  lemma OneOwner(acts: seq<Act>, a: string, b: string)
    ensures var w := Run(NO_WORLD, acts);
      a in w.held && b in w.held && Stored(w) == Some(w.held[a].claim) && Stored(w) == Some(w.held[b].claim) ==> a == b
  {
    NoWorldInv();
    RunInv(NO_WORLD, acts);
    hide Run, ChainOk, WriteOk, LedgerFollows, WellFormed;
    var w := Run(NO_WORLD, acts);
    if a in w.held && b in w.held && Stored(w) == Some(w.held[a].claim) && Stored(w) == Some(w.held[b].claim) {
      assert HeldOk(w, a, w.held[a]) && HeldOk(w, b, w.held[b]);
    }
  }

  predicate Closes(write: Write, id: string) {
    write.kind == Committing(id) || write.kind == Recovering(id)
  }

  /** While a claim is stored, only its own commit, or a recovery that names its execution, can replace it. */
  lemma ClaimFences(acts: seq<Act>, id: string, write: Write)
    ensures var w := Run(NO_WORLD, acts);
      Stored(w).Some? && Stored(w).value.executionId == Some(id) && Next(w, Land(write)) != w ==> Closes(write, id)
  {
    NoWorldInv();
    RunInv(NO_WORLD, acts);
    hide *;
    FencedBy(Run(NO_WORLD, acts), id, write);
  }

  lemma FencedBy(w: World, id: string, write: Write)
    requires Inv(w)
    ensures Stored(w).Some? && Stored(w).value.executionId == Some(id) && Next(w, Land(write)) != w ==>
        Closes(write, id)
  {
    hide Run, ChainOk, LeaseOk, HeldOk, WriteOk, ValidTransition;
    if Next(w, Land(write)) != w {
      LandsIffCurrent(w, write);
      WriteFacts(w, write);
    }
  }

  lemma NeverStoredAgain(w: World, v: World, k: Checkpoint)
    requires k in w.chain && Stored(w) != Some(k) && w.chain <= v.chain && ChainOk(v.chain)
    ensures k in v.chain && Stored(v) != Some(k)
  {
    hide ValidTransition, Keeps, ValidChain;
    var i :| 0 <= i < |w.chain| && w.chain[i] == k;
    assert v.chain[i] == k && i < |v.chain| - 1;
    assert v.chain[i].revision == i + 1 && v.chain[|v.chain| - 1].revision == |v.chain|;
  }

  lemma ReplacedNeverClosed(v: World, claim: Checkpoint, write: Write)
    requires Inv(v) && ClaimsInv(v) && claim in v.chain && claim.executionId.Some? && Stored(v) != Some(claim)
    requires Closes(write, claim.executionId.value)
    ensures Next(v, Land(write)) == v
  {
    hide ChainOk, LeaseOk, HeldOk, WriteOk, ClaimsInv, ValidTransition, Keeps;
    if Next(v, Land(write)) != v {
      LandsIffCurrent(v, write);
      WriteFacts(v, write);
      OneClaim(v, claim, write.previous.value);
    }
  }

  lemma InvChain(w: World)
    requires Inv(w)
    ensures ChainOk(w.chain)
  {
    hide ChainOk;
  }

  /** A claim is closed at most once: after it has been replaced, no commit of its lease and no recovery of it ever
      takes effect, in any continuation. */
  lemma ClosedOnce(acts: seq<Act>, claim: Checkpoint, later: seq<Act>, write: Write)
    requires var w := Run(NO_WORLD, acts); claim in w.chain && claim.executionId.Some? && Stored(w) != Some(claim)
    requires Closes(write, claim.executionId.value)
    ensures var v := Run(Run(NO_WORLD, acts), later); Next(v, Land(write)) == v
  {
    var w := Run(NO_WORLD, acts);
    var v := Run(w, later);
    hide *;
    NoWorldInv();
    RunInv(NO_WORLD, acts);
    RunClaims(NO_WORLD, acts);
    RunInv(w, later);
    RunClaims(w, later);
    InvChain(v);
    NeverStoredAgain(w, v, claim);
    ReplacedNeverClosed(v, claim, write);
  }

  // ---------------------------------------------------------------------
  // What a closed execution leaves behind.
  // ---------------------------------------------------------------------

  ghost predicate OwnLease(lease: Lease, id: string) {
    && WellFormed(lease.base) && IsQuiescent(lease.base) && lease.base.revision < U64_MAX
    && lease.claim == ClaimImage(lease.base, id) && WellFormed(lease.claim)
    && LedgerFollows(lease) && lease.ledger.revision == lease.claim.revision
  }

  lemma CommittedFacts(lease: Lease, id: string, events: seq<Event>, now: Duration)
    requires OwnLease(lease, id) && Committed(lease, events, now).Some?
    ensures var image := Committed(lease, events, now).value;
      && TurnSlice(lease.base, events) && ClosedTail(events, image.report) && WellFormed(image) && IsQuiescent(image)
      && image.anchor == Some(events[|events| - 1].Address()) && image.grants == lease.base.grants
      && image.recoveries == lease.base.recoveries && image.report.identity == lease.base.report.identity
      && image.report.tokenMode == lease.base.report.tokenMode && image.revision == lease.claim.revision + 1
      && image.version == AuditVersion(image.recoveries)
  {
    hide WellFormed, Valid, Tick, TurnSlice, ClosedTail;
    TickKeeps(lease.config, lease.ledger, now);
  }

  lemma LaterAnchor(base: Checkpoint, image: Checkpoint, events: seq<Event>)
    requires WellFormed(base) && TurnSlice(base, events) && image.grants == base.grants
    requires image.anchor == Some(events[|events| - 1].Address())
    ensures Ungranted(image)
  {
    hide CoreOk, RecoveriesOk, GrantText, ValidIncrease, DistinctGrants, GrantFollows;
    if base.grants != [] {
      var last := base.grants[|base.grants| - 1];
      assert GrantOk(base, last);
      assert AddressOk(events[|events| - 1], base.report.identity.sessionId,
                       (if base.anchor.Some? then base.anchor.value.seqNo + 1 else 0) + (|events| - 1));
    }
  }

  lemma JoinedAddresses(history: seq<Event>, events: seq<Event>, sessionId: string)
    requires AddressesOk(history, sessionId, 0) && AddressesOk(events, sessionId, |history|)
    ensures AddressesOk(history + events, sessionId, 0)
      <==> forall i, j | 0 <= i < |history| && 0 <= j < |events| :: history[i].eventId != events[j].eventId
  {
    var all := history + events;
    hide AddressOk;
    forall i | 0 <= i < |all| ensures AddressOk(all[i], sessionId, i) {
      if i < |history| {
        assert AddressOk(history[i], sessionId, 0 + i);
      } else {
        assert AddressOk(events[i - |history|], sessionId, |history| + (i - |history|));
      }
    }
    if AddressesOk(all, sessionId, 0) {
      forall i, j | 0 <= i < |history| && 0 <= j < |events| ensures history[i].eventId != events[j].eventId {
        assert all[i].eventId != all[|history| + j].eventId;
      }
    }
  }

  /** The ready image a commit leaves is confirmed by the log it was claimed on followed by the turn's events, as soon
      as no event id recurs. */
  lemma CommittedImageVerifies(lease: Lease, id: string, events: seq<Event>, now: Duration, history: seq<Event>)
    requires OwnLease(lease, id) && Committed(lease, events, now).Some? && VerifiedHistory(lease.base, history)
    ensures VerifiedHistory(Committed(lease, events, now).value, history + events)
      <==> forall i, j | 0 <= i < |history| && 0 <= j < |events| :: history[i].eventId != events[j].eventId
  {
    CommittedFacts(lease, id, events, now);
    hide *;
    OwnBase(lease, id);
    ImageVerifies(lease.base, Committed(lease, events, now).value, events, history);
  }

  lemma OwnBase(lease: Lease, id: string)
    requires OwnLease(lease, id)
    ensures WellFormed(lease.base)
  {
    hide WellFormed, LedgerFollows;
  }

  lemma ImageVerifies(base: Checkpoint, image: Checkpoint, events: seq<Event>, history: seq<Event>)
    requires VerifiedHistory(base, history) && WellFormed(base) && WellFormed(image) && TurnSlice(base, events)
    requires ClosedTail(events, image.report) && image.report.identity == base.report.identity
    requires image.grants == base.grants && image.anchor == Some(events[|events| - 1].Address())
    ensures VerifiedHistory(image, history + events)
      <==> forall i, j | 0 <= i < |history| && 0 <= j < |events| :: history[i].eventId != events[j].eventId
  {
    LaterAnchor(base, image, events);
    hide WellFormed, AddressesOk, ClosedTail, TurnSlice;
    SlicePosition(base, events, history);
    JoinedAddresses(history, events, base.report.identity.sessionId);
    ClosedTailExtends(history, events, image.report);
  }

  // The turn's events continue the history the claim stood on.
  lemma SlicePosition(base: Checkpoint, events: seq<Event>, history: seq<Event>)
    requires VerifiedHistory(base, history) && TurnSlice(base, events)
    ensures AddressesOk(history, base.report.identity.sessionId, 0)
    ensures AddressesOk(events, base.report.identity.sessionId, |history|)
  {
    hide WellFormed, UndoGrants;
    assert history != [] ==> AddressOk(history[|history| - 1], base.report.identity.sessionId, 0 + (|history| - 1));
  }

  lemma ClosedTailExtends(history: seq<Event>, events: seq<Event>, report: Report)
    requires ClosedTail(events, report)
    ensures ClosedTail(history + events, report) && (history + events)[|history + events| - 1] == events[|events| - 1]
  {
    var all := history + events;
    assert all[|all| - 1] == events[|events| - 1] && all[|all| - 2] == events[|events| - 2];
  }

  // The audits of a recovered candidate are in order.
  lemma RecoveredWellFormed(claim: Checkpoint, candidate: Checkpoint, ownership: Ownership, request: RecoveryRequest)
    requires WellFormed(claim) && WellFormed(candidate) && IsQuiescent(candidate)
    requires candidate.recoveries == claim.recoveries
    requires candidate.report.identity == claim.report.identity
    requires RecoveryText(request) && AuditText(ownership.ownershipId) && |claim.recoveries| < MAX_BUDGET_RECOVERIES
    requires request.sourceRevision == claim.revision && candidate.revision == claim.revision + 1
    requires FindRecovery(claim.recoveries, request.operationId).None?
    ensures WellFormed(RecoveredImage(candidate, RecoveryRecordFor(request, ownership, candidate)))
  {
    var record := RecoveryRecordFor(request, ownership, candidate);
    var k := RecoveredImage(candidate, record);
    assert CoreOk(k) && CoreOk(EvidenceImage(record)) by {
        SameCore(candidate, k); SameCore(candidate, EvidenceImage(record)); }
    assert GrantsOk(k) by { hide GrantText, ValidIncrease; assert forall i | 0 <= i < |candidate.grants| ::
        GrantOk(candidate, candidate.grants[i]); }
    hide CoreOk, GrantsOk, RecoveryText, AuditText;
    QuiescentReport(candidate);
    assert RecoveryOk(k, record);
    forall i | 0 <= i < |candidate.recoveries| ensures RecoveryOk(k, candidate.recoveries[i])
        && DistinctRecoveries(candidate.recoveries[i], record) {
      assert RecoveryOk(candidate, candidate.recoveries[i]);
      assert RecoveryOk(claim, claim.recoveries[i]);
    }
  }

  lemma SameCore(a: Checkpoint, b: Checkpoint)
    requires CoreOk(a) && IsQuiescent(a) && b.report == a.report && b.revision == a.revision && b.nextId == a.nextId
    requires b.anchor == a.anchor
    requires b.runId.None? && b.executionId.None?
    ensures CoreOk(b)
  {
    SamePending(a, b);
    hide TotalsOk, PendingOk;
  }

  lemma QuiescentReport(k: Checkpoint)
    requires WellFormed(k) && IsQuiescent(k)
    ensures k.report.run.None? && k.report.pending == [] && k.report.reserved == ZERO
  {
    QuiescentRestore(k, k.report.limits, 0);
    CoreFlags(k);
    assert TotalsOk(k);
    forall r: Resource ensures k.report.reserved.Get(r) == ZERO.Get(r) {
    }
    AmountsEqual(k.report.reserved, ZERO);
  }

  lemma RecoveryAccepted(claim: Checkpoint, candidate: Checkpoint, ownership: Ownership, request: RecoveryRequest)
    requires ValidTransition(Some(claim), candidate) && Keeps(claim, candidate) && IsQuiescent(candidate)
    requires candidate.recoveries == claim.recoveries && candidate.grants == claim.grants
    requires candidate.report.tokenMode == claim.report.tokenMode
    requires RecoveryText(request) && AuditText(ownership.ownershipId) && |claim.recoveries| < MAX_BUDGET_RECOVERIES
    requires request.sourceRevision == claim.revision && claim.executionId.Some?
    requires FindRecovery(claim.recoveries, request.operationId).None?
    ensures ValidTransition(Some(claim), RecoveredImage(candidate, RecoveryRecordFor(request, ownership, candidate)))
      <==> candidate.report.limits == claim.report.limits && claim.executionId == Some(request.executionId)
  {
    var record := RecoveryRecordFor(request, ownership, candidate);
    var image := RecoveredImage(candidate, record);
    hide RecoveryText, AuditText;
    RecoveredWellFormed(claim, candidate, ownership, request);
    QuiescentReport(candidate);
    hide WellFormed;
    TightenedIffWithin(candidate.report.limits, candidate.report.limits);
    if candidate.report.limits == claim.report.limits && claim.executionId == Some(request.executionId) {
      assert RecoveryKeeps(claim, image, record);
    }
    if ValidTransition(Some(claim), image) {
      RecoveredAudits(claim, image, candidate, record);
    }
  }

  lemma ClaimFacts(lease: Lease, id: string)
    requires OwnLease(lease, id)
    ensures WellFormed(lease.claim) && !IsQuiescent(lease.claim) && lease.claim.executionId == Some(id)
    ensures lease.claim.recoveries == lease.base.recoveries && lease.claim.grants == lease.base.grants
    ensures lease.claim.report == lease.base.report
  {
    hide WellFormed, LedgerFollows;
  }

  // The guards of a recovery over an unfinished claim whose candidate the log confirms.
  lemma RecoverReadyIff(current: Checkpoint, ownership: Ownership, request: RecoveryRequest, candidate: Checkpoint,
                        history: seq<Event>)
    requires WellFormed(current) && !IsQuiescent(current) && WellFormed(candidate) && IsQuiescent(candidate)
    requires VerifiedHistory(candidate, history)
    ensures DecideRecover(current, ownership, request, candidate, history).RecoverReady? <==>
      && RecoveryText(request) && ownership.sessionId == candidate.report.identity.sessionId
      && AuditText(ownership.ownershipId)
      && request.sourceRevision + 1 == candidate.revision && FindRecovery(current.recoveries, request.operationId).None?
      && current.revision == request.sourceRevision && current.executionId == Some(request.executionId)
      && |current.recoveries| < MAX_BUDGET_RECOVERIES
      && ValidTransition(Some(current), RecoveredImage(candidate, RecoveryRecordFor(request, ownership, candidate)))
  {
    assert current != candidate;
    hide WellFormed, RecoveryText, AuditText, VerifiedHistory, ValidTransition, IsQuiescent, SameEvidence;
  }

  /** The image a failed commit retained can be recovered over its claim exactly when the request is sound, the audit
      has room and the host had not tightened the task's limits when it acquired the execution. */
  lemma RetainedCandidateRecovers(lease: Lease, id: string, events: seq<Event>, now: Duration, ownership: Ownership,
                                  request: RecoveryRequest, history: seq<Event>)
    requires OwnLease(lease, id) && Committed(lease, events, now).Some?
    requires VerifiedHistory(Committed(lease, events, now).value, history)
    ensures var candidate := Committed(lease, events, now).value;
      DecideRecover(lease.claim, ownership, request, candidate, history).RecoverReady? <==>
        && RecoveryText(request) && AuditText(ownership.ownershipId)
        && ownership.sessionId == lease.base.report.identity.sessionId
        && request.sourceRevision == lease.claim.revision && request.executionId == id
        && FindRecovery(lease.claim.recoveries, request.operationId).None?
        && |lease.claim.recoveries| < MAX_BUDGET_RECOVERIES
        && candidate.report.limits == lease.claim.report.limits
  {
    var candidate := Committed(lease, events, now).value;
    CommittedFacts(lease, id, events, now);
    CommitTransition(lease, id, events, now);
    ClaimFacts(lease, id);
    hide Committed, LedgerFollows, WellFormed, OwnLease, DecideRecover, RecoveryText, AuditText, VerifiedHistory,
      ClosedTail, TurnSlice, ValidTransition, Keeps, IsQuiescent;
    RecoverReadyIff(lease.claim, ownership, request, candidate, history);
    if RecoveryText(request) && AuditText(ownership.ownershipId) && request.sourceRevision == lease.claim.revision
       && FindRecovery(lease.claim.recoveries, request.operationId).None?
       && |lease.claim.recoveries| < MAX_BUDGET_RECOVERIES {
      RecoveryAccepted(lease.claim, candidate, ownership, request);
    }
  }

  // ---------------------------------------------------------------------
  // A commit that repeats an event id.
  // ---------------------------------------------------------------------

  function IdleReport(c: Config): Report {
    Snapshot(c, FreshLedger(0))
  }

  // A turn in which nothing was used: its report and its end.
  function IdleTurn(c: Config, turnId: string, first: u64, endId: string): seq<Event>
    requires first < U64_MAX
  {
    var run := RunReport(Some(turnId), NEW_METRICS, c.limits, ZERO, ZERO, 0, 0, false, None);
    var report := TaskRunReport(IdleReport(c).(run := Some(run)), RunCompleted, true);
    [Event(c.identity.sessionId, turnId, "report", first, RunReported(report)),
     Event(c.identity.sessionId, turnId, endId, first + 1, TurnDone(Completed))]
  }

  lemma IdleNames(turnId: string, endId: string)
    requires turnId in {"one", "two"} && endId in {"first", "second"}
    ensures !Blank(turnId) && !Blank(endId) && !Blank("report") && endId != "report"
  {
    assert "one"[0] == 'o' && "two"[0] == 't' && "report"[0] == 'r';
    if endId == "first" {
      assert endId[0] == 'f';
    } else {
      assert endId[0] == 's';
    }
  }

  lemma IdleTurnFacts(c: Config, turnId: string, first: u64, endId: string)
    requires first < U64_MAX && turnId in {"one", "two"} && endId in {"first", "second"}
    ensures var events := IdleTurn(c, turnId, first, endId);
      && AddressesOk(events, c.identity.sessionId, first) && ClosedTail(events, IdleReport(c))
      && CountTerminals(events) == 1 && CountReports(events) == 1
  {
    var events := IdleTurn(c, turnId, first, endId);
    IdleNames(turnId, endId);
    hide Blank;
    assert events[..1] == [events[0]] && [events[0]][..0] == [];
    assert CountTerminals([events[0]]) == 0 && CountReports([events[0]]) == 1;
  }

  function IdleBase(c: Config): Checkpoint {
    SealImage(c, FreshLedger(0), Some(IdleTurn(c, "one", 0, "first")[1].Address()))
  }

  lemma IdleBaseFacts(c: Config)
    requires IdentityOk(c.identity)
    ensures WellFormed(IdleBase(c)) && IsQuiescent(IdleBase(c)) && IdleBase(c).revision == 1
    ensures VerifiedHistory(IdleBase(c), IdleTurn(c, "one", 0, "first"))
  {
    IdleTurnFacts(c, "one", 0, "first");
    var events := IdleTurn(c, "one", 0, "first");
    assert AddressOk(events[1], c.identity.sessionId, 0 + 1);
    assert Valid(c, FreshLedger(0));
    FreshSealWellFormedIff(c, FreshLedger(0), Some(events[1].Address()));
    hide WellFormed, Valid, ClosedTail, AddressesOk, Blank;
  }

  function IdleLease(c: Config): Lease {
    Lease(IdleBase(c), ClaimImage(IdleBase(c), "x"), c, FreshLedger(0).(revision := 2))
  }

  lemma IdleLeaseOwned(c: Config)
    requires IdentityOk(c.identity)
    ensures OwnLease(IdleLease(c), "x") && Valid(c, FreshLedger(0).(revision := 2))
  {
    IdleBaseFacts(c);
    assert "x"[0] == 'x' && !Blank("x");
    ClaimValid(IdleBase(c), "x");
    ClaimedWell(IdleBase(c), "x");
    assert Valid(c, FreshLedger(0).(revision := 2));
    hide WellFormed, Valid, VerifiedHistory, ValidTransition;
  }

  lemma ClaimedWell(base: Checkpoint, id: string)
    requires base.revision < U64_MAX && ValidTransition(Some(base), ClaimImage(base, id))
    ensures WellFormed(ClaimImage(base, id))
  {
    hide WellFormed, GrantStep, RecoveryStep;
  }

  lemma IdleCommits(c: Config)
    requires IdentityOk(c.identity)
    ensures Committed(IdleLease(c), IdleTurn(c, "two", 2, "second"), 0).Some?
  {
    var lease, events := IdleLease(c), IdleTurn(c, "two", 2, "second");
    IdleTurnFacts(c, "two", 2, "second");
    assert AddressOk(events[1], c.identity.sessionId, 2 + 1);
    IdleLeaseOwned(c);
    assert Tick(c, lease.ledger, 0) == lease.ledger;
    var anchor := Some(events[1].Address());
    assert TurnSlice(lease.base, events) by { hide AddressesOk, CountTerminals, CountReports; }
    hide WellFormed, Valid, ClosedTail, AddressesOk, Tick, TurnSlice;
    SealWellFormedIff(c, lease.ledger, anchor, lease.claim);
  }

  /** A turn that names one of its events like an event before it is committed all the same, and the image it leaves
      verifies against no log that holds both. */
  lemma RepeatedEventNeverVerifies(c: Config)
    requires IdentityOk(c.identity)
    ensures var lease, history, events := IdleLease(c), IdleTurn(c, "one", 0, "first"), IdleTurn(c, "two", 2, "second");
      && OwnLease(lease, "x") && VerifiedHistory(lease.base, history) && Committed(lease, events, 0).Some?
      && !VerifiedHistory(Committed(lease, events, 0).value, history + events)
  {
    var lease, history, events := IdleLease(c), IdleTurn(c, "one", 0, "first"), IdleTurn(c, "two", 2, "second");
    IdleBaseFacts(c);
    IdleLeaseOwned(c);
    IdleCommits(c);
    assert history[0].eventId == events[0].eventId;
    hide OwnLease, VerifiedHistory, Committed;
    CommittedImageVerifies(lease, "x", events, 0, history);
  }
}
