/** The lease object over a claimed ledger (crates/core/budget/src/execution.rs). */
module BudgetLease {
  import opened BudgetTypes
  import opened BudgetSteps
  import opened BudgetInvariant
  import opened BudgetConservation
  import opened BudgetCheckpoint
  import opened BudgetLedger
  import opened BudgetChain
  import opened BudgetProtocol

  class ExecutionLease {
    const task: TaskBudget
    const base: Checkpoint
    const claim: Checkpoint

    ghost function View(): Lease
      reads task
    {
      Lease(base, claim, task.Settings(), task.View())
    }

    constructor (task: TaskBudget, base: Checkpoint, claim: Checkpoint)
      ensures this.task == task && this.base == base && this.claim == claim
    {
      this.task, this.base, this.claim := task, base, claim;
    }

    /** Everything acquisition does before and after writing the claim: no lease exists unless the image is
        ready, restores under the host's context, and leaves the task unstopped. */
    static method Acquire(stored: Checkpoint, context: RestoreContext, id: string, now: Duration, later: Duration)
      returns (lease: ExecutionLease?)
      ensures lease == null <==> Acquired(stored, context, id, now, later).None?
      ensures lease != null ==> fresh(lease) && fresh(lease.task) && lease.task.Ok()
      ensures lease != null ==> lease.View() == Acquired(stored, context, id, now, later).value
    {
      hide Valid, WellFormed, Tick, RestoredState, RestoredConfig, IsQuiescent;
      var ok := Validate(stored);
      if !ok || !IsQuiescent(stored) {
        return null;
      }
      var task, error := TaskBudget.RestoreCheckpoint(stored, context, now);
      if error.Some? {
        return null;
      }
      var report := task.Observe(later);
      if task.stop.Some? || stored.revision == U64_MAX {
        return null;
      }
      ok := Validate(ClaimImage(stored, id));
      if !ok {
        return null;
      }
      lease := new ExecutionLease(task, stored, ClaimImage(stored, id));
    }

    // The store confirmed the claim: the ledger now continues from it.
    method Confirm()
      requires task.Ok()
      modifies task
      ensures task.Ok() && View() == old(View()).(ledger := old(task.View()).(revision := claim.revision))
    {
      hide Valid;
      FlagsValid(task.Settings(), task.View(), task.View().(revision := claim.revision));
      task.revision := claim.revision;
    }

    /** Seals the ledger at the turn's last event and returns the image that may replace the claim. The ledger stays
        sealed when the image is then refused. */
    method CommitClosed(events: seq<Event>, now: Duration) returns (image: Option<Checkpoint>)
      requires task.Ok()
      modifies task
      ensures task.Ok() && image == Committed(old(View()), events, now)
      ensures image.Some? ==> task.isSealed
      ensures task.View() == LeftByCommit(old(View()), events, now)
    {
      hide Valid, Seal, WellFormed, IsQuiescent, ClosedTail;
      if base.anchor.Some? && base.anchor.value.seqNo == U64_MAX {
        return None;
      }
      var first: u64 := if base.anchor.Some? then base.anchor.value.seqNo + 1 else 0;
      var addressed := ValidateAddresses(events, base.report.identity.sessionId, first);
      if !addressed || events == [] {
        return None;
      }
      var last := events[|events| - 1];
      if (exists e | e in events :: e.turnId != last.turnId) || CountTerminals(events) != 1
          || CountReports(events) != 1 {
        return None;
      }
      var outcome := task.SealCheckpoint(Some(last.Address()), now);
      if outcome.SealedAs? && IsQuiescent(outcome.image) && ClosedTail(events, outcome.image.report) {
        SealedNow(task.Settings(), old(task.View()), Some(last.Address()), now);
        return Some(outcome.image);
      }
      return None;
    }

    /** Dropping the lease revokes its ledger; no image is written. */
    method Drop(now: Duration)
      requires task.Ok()
      modifies task
      ensures task.Ok() && task.View() == Seal(task.Settings(), old(task.View()), base.anchor, now).0
    {
      hide Valid, Seal;
      var _ := task.SealCheckpoint(base.anchor, now);
    }
  }

  // The ledger after a commit, before the drop of the lease it consumes.
  ghost function LeftByCommit(lease: Lease, events: seq<Event>, now: Duration): State {
    if TurnSlice(lease.base, events)
    then Seal(lease.config, lease.ledger, Some(events[|events| - 1].Address()), now).0 else lease.ledger
  }

  lemma SealedNow(c: Config, s: State, anchor: Option<Cursor>, now: Duration)
    ensures Seal(c, s, anchor, now).1.SealedAs? ==> Seal(c, s, anchor, now).0.isSealed
  {
    hide Tick, WellFormed;
  }

  lemma SameBoundary(a: Option<Cursor>)
    ensures NotAfter(a, a)
  {
  }

  /** Dropping a lease revokes every handle on its ledger exactly when revisions are left and the open run, if any,
      bound a turn id that is not blank; otherwise the surviving handles keep working. */
  lemma DropRevokes(lease: Lease, id: string, now: Duration)
    requires OwnLease(lease, id)
    ensures CheckWritable(Seal(lease.config, lease.ledger, lease.base.anchor, now).0) == Some(CheckpointSealed)
      <==> lease.ledger.isSealed || (lease.claim.revision < U64_MAX && TurnNamed(lease.ledger))
  {
    var c, s := lease.config, lease.ledger;
    var k := lease.base;
    TickKeeps(c, s, now);
    assert AnchorOk(k.anchor, k.report.identity.sessionId);
    SealTicks(c, s, now);
    if s.revision < U64_MAX {
      SameBoundary(k.anchor);
      hide WellFormed, Valid, Tick, NotAfter, AnchorOk, TurnNamed, SealImage;
      SealWellFormedIff(c, Tick(c, s, now), k.anchor, lease.claim);
    }
  }

  lemma TickedLease(lease: Lease, id: string, now: Duration)
    requires OwnLease(lease, id)
    ensures OwnLease(lease.(ledger := Tick(lease.config, lease.ledger, now)), id)
    ensures TurnNamed(Tick(lease.config, lease.ledger, now)) <==> TurnNamed(lease.ledger)
  {
    SealTicks(lease.config, lease.ledger, now);
    TickKeeps(lease.config, lease.ledger, now);
    TickValid(lease.config, lease.ledger, now);
    hide Tick, Valid, WellFormed, IsQuiescent, TurnNamed;
  }

  // A sealed image had what sealing needs.
  lemma SealedFacts(lease: Lease, id: string, anchor: Option<Cursor>, now: Duration)
    requires OwnLease(lease, id) && Seal(lease.config, lease.ledger, anchor, now).1.SealedAs?
    ensures lease.claim.revision < U64_MAX && TurnNamed(lease.ledger)
  {
    var t := Tick(lease.config, lease.ledger, now);
    TickedLease(lease, id, now);
    TickKeeps(lease.config, lease.ledger, now);
    hide WellFormed, Valid, Tick, NotAfter, AnchorOk, TurnNamed, SealImage;
    SealWellFormedIff(lease.config, t, anchor, lease.claim);
  }

  lemma RefusedState(lease: Lease, anchor: Option<Cursor>, now: Duration)
    requires !lease.ledger.isSealed && !Seal(lease.config, lease.ledger, anchor, now).1.SealedAs?
    ensures Seal(lease.config, lease.ledger, anchor, now).0 == Tick(lease.config, lease.ledger, now)
    ensures !Tick(lease.config, lease.ledger, now).isSealed
  {
    hide WellFormed;
  }

  lemma SealedStays(c: Config, s: State, anchor: Option<Cursor>, now: Duration)
    requires s.isSealed
    ensures CheckWritable(Seal(c, s, anchor, now).0) == Some(CheckpointSealed)
  {
  }

  /** Committing consumes the lease: after it and the drop that follows, whatever the outcome, the surviving handles are
      revoked exactly under the same condition. */
  lemma CommitRevokes(lease: Lease, id: string, events: seq<Event>, now: Duration, later: Duration)
    requires OwnLease(lease, id)
    ensures CheckWritable(Seal(lease.config, LeftByCommit(lease, events, now), lease.base.anchor, later).0)
        == Some(CheckpointSealed)
      <==> lease.ledger.isSealed || (lease.claim.revision < U64_MAX && TurnNamed(lease.ledger))
  {
    var c, s := lease.config, lease.ledger;
    if !TurnSlice(lease.base, events) {
      DropRevokes(lease, id, later);
    } else {
      var anchor := Some(events[|events| - 1].Address());
      if s.isSealed {
        SealedStays(c, s, lease.base.anchor, later);
      } else if Seal(c, s, anchor, now).1.SealedAs? {
        SealedFacts(lease, id, anchor, now);
        SealedNow(c, s, anchor, now);
        hide Seal;
        SealedStays(c, Seal(c, s, anchor, now).0, lease.base.anchor, later);
      } else {
        RefusedState(lease, anchor, now);
        TickedLease(lease, id, now);
        hide Seal, OwnLease, Tick, TurnNamed, TurnSlice;
        DropRevokes(lease.(ledger := Tick(c, s, now)), id, later);
      }
    }
  }
}
