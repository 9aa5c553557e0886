/**
 * The scheduling transaction statement by statement: it locks due reminders, skips rows others have locked,
 * stages its writes row by row, and commits or rolls back. Every interleaving of such claimers does what the
 * atomic `ClaimDue` step of the outbox does.
 */
module RowLocks {
  import opened Text
  import opened Schedule
  import opened Outbox
  import opened Lease
  import opened Obligation
  import opened Attempts
  import opened Starvation
  import opened Staging

  /** An open transaction: when it began, the rows it selected and locked, as it read them, and what it has staged for the first of them. */
  datatype Txn = Txn(began: Time, picked: seq<Picked>, read: map<ReminderId, Reminder>, written: nat, staged: Staged)

  datatype Claimers = Claimers(base: State, txns: map<TickId, Txn>)

  datatype Move =
    | Base(step: Step)
    | Select(tick: TickId, picked: seq<Picked>)
    | Write(tick: TickId)
    | Commit(tick: TickId)
    | Rollback(tick: TickId)

  ghost predicate Locks(txn: Txn, rid: ReminderId) {
    exists i :: 0 <= i < |txn.picked| && txn.picked[i].rid == rid
  }

  ghost predicate Locked(l: Claimers, rid: ReminderId) {
    exists t :: t in l.txns && Locks(l.txns[t], rid)
  }

  ghost function LockedRows(l: Claimers): set<ReminderId> {
    set rid | rid in l.base.reminders && Locked(l, rid)
  }

  /** Outbox steps that another session may take while these rows are locked. */
  ghost predicate Unblocked(l: Claimers, step: Step) {
    match step
    case ClaimDue(tick, at, batch) => false
    case ClaimDueFails(tick) => false
    case Reschedule(rid, time) => !Locked(l, rid)
    case RemoveReminder(rid) => !Locked(l, rid)
    case _ => true
  }

  ghost predicate CanMove(l: Claimers, move: Move) {
    match move
    case Base(step) => Enabled(l.base, step) && Unblocked(l, step)
    case Select(tick, picked) =>
      && tick in l.base.ticks && l.base.ticks[tick].phase.Scheduling? && tick !in l.txns
      && IsSelection(l.base.reminders, Cutoff(l.base.clock), LockedRows(l), picked)
    case Write(tick) =>
      && tick in l.txns && l.txns[tick].written < |l.txns[tick].picked|
      && l.txns[tick].picked[l.txns[tick].written].rid in l.txns[tick].read
    case Commit(tick) =>
      && tick in l.txns && l.txns[tick].written == |l.txns[tick].picked|
      && NewIds(l.base, l.txns[tick].picked)
    case Rollback(tick) => tick in l.txns
  }

  /** The outbox step a move amounts to, if any: staged writes are invisible until the commit. */
  ghost function Meaning(l: Claimers, move: Move): Option<Step>
    requires CanMove(l, move)
  {
    match move
    case Base(step) => Some(step)
    case Select(_, _) => None
    case Write(_) => None
    case Commit(tick) => Some(ClaimDue(tick, l.txns[tick].began, l.txns[tick].picked))
    case Rollback(tick) => Some(ClaimDueFails(tick))
  }

  /** Each locked row is due and unsent, still as it was read, and belongs to one open transaction of a tick that is still scheduling. */
  ghost predicate TxnInv(s: State, tick: TickId, txn: Txn) {
    && tick in s.ticks && s.ticks[tick].phase.Scheduling?
    && s.ticks[tick].started <= txn.began <= s.clock
    && |txn.picked| <= DUE_LIMIT && DistinctRows(txn.picked)
    && (forall i | 0 <= i < |txn.picked| :: DueRow(s, txn, txn.picked[i].rid))
    && StagedInv(txn)
  }

  ghost predicate DueRow(s: State, txn: Txn, rid: ReminderId) {
    rid in s.reminders && rid in txn.read && s.reminders[rid] == txn.read[rid] && IsDue(s.reminders[rid], Cutoff(txn.began))
  }

  /** What is staged is what the loop has written for the rows it has come past. */
  ghost predicate StagedInv(txn: Txn) {
    && txn.written <= |txn.picked| && WasRead(txn.read, txn.picked)
    && StagedAs(txn.read, txn.began, txn.picked[..txn.written], txn.staged)
  }

  ghost predicate LockInv(l: Claimers) {
    && LeaseInv(l.base) && ObligationInv(l.base)
    && (forall t | t in l.txns :: TxnInv(l.base, t, l.txns[t]))
    && (forall t, u, rid | t in l.txns && u in l.txns && Locks(l.txns[t], rid) && Locks(l.txns[u], rid) :: t == u)
  }

  // ----- A commit is the atomic step -----

  /** The rows staged over time, made visible at once, are what the atomic step writes. */
  lemma CommitIsClaimDue(l: Claimers, tick: TickId)
    requires LockInv(l) && CanMove(l, Commit(tick))
    ensures var txn := l.txns[tick];
            var step := ClaimDue(tick, txn.began, txn.picked);
            Enabled(l.base, step) && Moved(l, Commit(tick)).base == Apply(l.base, step)
  {
    var txn := l.txns[tick];
    assert TxnInv(l.base, tick, txn);
    assert txn.picked[..txn.written] == txn.picked && Replayed(txn.picked);
    forall p | p in txn.picked
      ensures p.rid in l.base.reminders && l.base.reminders[p.rid] == txn.read[p.rid] && IsDue(txn.read[p.rid], Cutoff(txn.began))
    {
      var i :| 0 <= i < |txn.picked| && txn.picked[i] == p;
      assert DueRow(l.base, txn, txn.picked[i].rid);
    }
    CommitSchedulesAll(l.base, txn.read, txn.began, txn.picked);
  }

  /** Every move is a step of the outbox or leaves its tables alone. */
  lemma MoveIsItsMeaning(l: Claimers, move: Move)
    requires LockInv(l) && CanMove(l, move)
    ensures Meaning(l, move).Some? ==>
              Enabled(l.base, Meaning(l, move).value) && Moved(l, move).base == Apply(l.base, Meaning(l, move).value)
    ensures Meaning(l, move).None? ==> Moved(l, move).base == l.base
  {
    if move.Commit? {
      CommitIsClaimDue(l, move.tick);
    } else if move.Rollback? {
      assert TxnInv(l.base, move.tick, l.txns[move.tick]);
    }
  }

  ghost function ReadRows(s: State, picked: seq<Picked>): map<ReminderId, Reminder> {
    map rid | rid in s.reminders && exists i :: 0 <= i < |picked| && picked[i].rid == rid :: s.reminders[rid]
  }

  /** The loop's statements for the next selected row. */
  ghost function WriteNext(txn: Txn): Txn
    requires txn.written < |txn.picked| && txn.picked[txn.written].rid in txn.read
  {
    var p := txn.picked[txn.written];
    txn.(written := txn.written + 1, staged := StageOne(txn.staged, txn.read[p.rid], txn.began, p))
  }

  /** The tick is done scheduling. */
  function Released(s: State, tick: TickId): State {
    if tick in s.ticks then WithTick(s, tick, s.ticks[tick].(phase := Claiming)) else s
  }

  ghost function Moved(l: Claimers, move: Move): Claimers
    requires CanMove(l, move)
  {
    match move
    case Base(step) =>
      Claimers(Apply(l.base, step), if step.EndTick? then l.txns - {step.tick} else l.txns)
    case Select(tick, picked) => l.(txns := l.txns[tick := Txn(l.base.clock, picked, ReadRows(l.base, picked), 0, NOTHING)])
    case Write(tick) => l.(txns := l.txns[tick := WriteNext(l.txns[tick])])
    case Commit(tick) => Claimers(Released(Committed(l.base, l.txns[tick].staged), tick), l.txns - {tick})
    case Rollback(tick) => Claimers(Released(l.base, tick), l.txns - {tick})
  }

  // ----- The locks hold -----

  /** No other session's step touches a tick that is still scheduling. */
  lemma TickUndisturbed(s: State, step: Step, tick: TickId)
    requires Enabled(s, step) && !step.ClaimDue? && !step.ClaimDueFails?
    requires tick in s.ticks && s.ticks[tick].phase.Scheduling? && step != EndTick(tick)
    ensures tick in Apply(s, step).ticks && Apply(s, step).ticks[tick] == s.ticks[tick]
  {
    if step.Skip? {
      SkipLeavesAlone(s, step.tick, step.at, step.email, Fallback(Head(s, step.tick).job, step.at));
    }
  }

  /** Nor a locked row. */
  lemma RowUndisturbed(s: State, step: Step, rid: ReminderId)
    requires Enabled(s, step) && !step.ClaimDue?
    requires rid in s.reminders && !(step.Reschedule? && step.rid == rid) && !(step.RemoveReminder? && step.rid == rid)
    ensures rid in Apply(s, step).reminders && Apply(s, step).reminders[rid] == s.reminders[rid]
  {
    if step.Skip? {
      SkipLeavesAlone(s, step.tick, step.at, step.email, Fallback(Head(s, step.tick).job, step.at));
    }
  }

  lemma LockedRowUndisturbed(l: Claimers, step: Step, tick: TickId, rid: ReminderId)
    requires CanMove(l, Base(step)) && tick in l.txns && Locks(l.txns[tick], rid) && DueRow(l.base, l.txns[tick], rid)
    ensures DueRow(Apply(l.base, step), l.txns[tick], rid)
  {
    assert Locked(l, rid);
    RowUndisturbed(l.base, step, rid);
  }

  lemma LockedRowsUndisturbed(l: Claimers, step: Step, tick: TickId)
    requires CanMove(l, Base(step)) && tick in l.txns && TxnInv(l.base, tick, l.txns[tick])
    ensures forall i | 0 <= i < |l.txns[tick].picked| :: DueRow(Apply(l.base, step), l.txns[tick], l.txns[tick].picked[i].rid)
  {
    var txn := l.txns[tick];
    forall i | 0 <= i < |txn.picked|
      ensures DueRow(Apply(l.base, step), txn, txn.picked[i].rid)
    {
      assert DueRow(l.base, txn, txn.picked[i].rid) && Locks(txn, txn.picked[i].rid);
      LockedRowUndisturbed(l, step, tick, txn.picked[i].rid);
    }
  }

  lemma BaseKeepsTxn(l: Claimers, step: Step, tick: TickId)
    requires CanMove(l, Base(step)) && tick in l.txns && TxnInv(l.base, tick, l.txns[tick]) && step != EndTick(tick)
    ensures TxnInv(Apply(l.base, step), tick, l.txns[tick])
  {
    TickUndisturbed(l.base, step, tick);
    ClockOnlyAdvances(l.base, step);
    LockedRowsUndisturbed(l, step, tick);
    TxnMoved(l.base, Apply(l.base, step), tick, l.txns[tick]);
  }

  lemma TxnMoved(s: State, s': State, tick: TickId, txn: Txn)
    requires TxnInv(s, tick, txn) && s.clock <= s'.clock && tick in s'.ticks && s'.ticks[tick] == s.ticks[tick]
    requires forall i | 0 <= i < |txn.picked| :: DueRow(s', txn, txn.picked[i].rid)
    ensures TxnInv(s', tick, txn)
  {
  }

  lemma ScheduleLeavesOthers(s: State, cutoff: Time, at: Time, p: Picked, rid: ReminderId)
    requires CanSchedule(s, cutoff, p) && rid in s.reminders && p.rid != rid
    ensures var s' := ScheduleOne(s, cutoff, at, p);
            rid in s'.reminders && s'.reminders[rid] == s.reminders[rid] && s'.ticks == s.ticks && s'.clock == s.clock
  {
  }

  lemma {:induction false} BatchLeavesOthers(s: State, cutoff: Time, at: Time, batch: seq<Picked>, rid: ReminderId)
    requires CanScheduleAll(s, cutoff, at, batch) && rid in s.reminders
    requires forall i | 0 <= i < |batch| :: batch[i].rid != rid
    ensures rid in ScheduleAll(s, cutoff, at, batch).reminders
    ensures ScheduleAll(s, cutoff, at, batch).reminders[rid] == s.reminders[rid]
    ensures ScheduleAll(s, cutoff, at, batch).ticks == s.ticks && ScheduleAll(s, cutoff, at, batch).clock == s.clock
    decreases |batch|
  {
    if batch != [] {
      ScheduleLeavesOthers(s, cutoff, at, batch[0], rid);
      BatchLeavesOthers(ScheduleOne(s, cutoff, at, batch[0]), cutoff, at, batch[1..], rid);
    }
  }

  /** A commit writes none of the rows another transaction has locked. */
  lemma CommitLeavesRow(s: State, mine: Txn, txn: Txn, rid: ReminderId)
    requires DueRow(s, txn, rid) && CanScheduleAll(s, Cutoff(mine.began), mine.began, mine.picked)
    requires !Locks(mine, rid)
    ensures DueRow(ScheduleAll(s, Cutoff(mine.began), mine.began, mine.picked), txn, rid)
  {
    BatchLeavesOthers(s, Cutoff(mine.began), mine.began, mine.picked, rid);
  }

  lemma CommitKeepsTxn(s: State, tick: TickId, mine: Txn, other: TickId, txn: Txn)
    requires TxnInv(s, other, txn) && other != tick && CanScheduleAll(s, Cutoff(mine.began), mine.began, mine.picked)
    requires forall rid | Locks(txn, rid) :: !Locks(mine, rid)
    ensures TxnInv(Released(ScheduleAll(s, Cutoff(mine.began), mine.began, mine.picked), tick), other, txn)
  {
    var s1 := ScheduleAll(s, Cutoff(mine.began), mine.began, mine.picked);
    BatchKeepsTicks(s, Cutoff(mine.began), mine.began, mine.picked);
    BatchKeepsClock(s, Cutoff(mine.began), mine.began, mine.picked);
    forall i | 0 <= i < |txn.picked|
      ensures DueRow(s1, txn, txn.picked[i].rid)
    {
      assert DueRow(s, txn, txn.picked[i].rid) && Locks(txn, txn.picked[i].rid);
      CommitLeavesRow(s, mine, txn, txn.picked[i].rid);
    }
    TxnMoved(s, Released(s1, tick), other, txn);
  }

  lemma SelectKeepsLocks(l: Claimers, tick: TickId, picked: seq<Picked>)
    requires LockInv(l) && CanMove(l, Select(tick, picked))
    ensures LockInv(Moved(l, Select(tick, picked)))
  {
    var l' := Moved(l, Select(tick, picked));
    var txn := l'.txns[tick];
    assert TickInv(l.base, l.base.ticks[tick]);
    forall i | 0 <= i < |picked|
      ensures DueRow(l.base, txn, picked[i].rid) && !Locked(l, picked[i].rid)
    {
      assert picked[i] in picked;
    }
    assert TxnInv(l.base, tick, txn);
    forall t, u, rid | t in l'.txns && u in l'.txns && Locks(l'.txns[t], rid) && Locks(l'.txns[u], rid)
      ensures t == u
    {
      assert t != tick || u != tick ==> Locked(l, rid);
    }
  }

  lemma OutboxStepKeeps(s: State, step: Step)
    requires LeaseInv(s) && ObligationInv(s) && Enabled(s, step)
    ensures LeaseInv(Apply(s, step)) && ObligationInv(Apply(s, step))
  {
    LeaseStep(s, step);
    ObligationStep(s, step);
  }

  lemma WriteStages(txn: Txn)
    requires StagedInv(txn) && txn.written < |txn.picked|
    ensures txn.picked[txn.written].rid in txn.read && StagedInv(WriteNext(txn))
  {
    StagedAsNext(txn.read, txn.began, txn.picked, txn.written, txn.staged);
  }

  lemma WriteKeepsLocks(l: Claimers, tick: TickId)
    requires LockInv(l) && CanMove(l, Write(tick))
    ensures LockInv(Moved(l, Write(tick)))
  {
    var l' := Moved(l, Write(tick));
    WriteKeepsTxn(l.base, tick, l.txns[tick]);
    forall t, u, rid | t in l'.txns && u in l'.txns && Locks(l'.txns[t], rid) && Locks(l'.txns[u], rid)
      ensures t == u
    {
      assert Locks(l.txns[t], rid) && Locks(l.txns[u], rid);
    }
  }

  lemma WriteKeepsTxn(s: State, tick: TickId, txn: Txn)
    requires TxnInv(s, tick, txn) && txn.written < |txn.picked| && txn.picked[txn.written].rid in txn.read
    ensures TxnInv(s, tick, WriteNext(txn)) && forall rid :: Locks(WriteNext(txn), rid) <==> Locks(txn, rid)
  {
    WriteStages(txn);
    forall i | 0 <= i < |txn.picked|
      ensures DueRow(s, WriteNext(txn), txn.picked[i].rid)
    {
      assert DueRow(s, txn, txn.picked[i].rid);
    }
  }

  lemma ReleaseKeepsTxn(l: Claimers, tick: TickId, other: TickId)
    requires LockInv(l) && tick in l.txns && other in l.txns && other != tick
    requires tick in l.base.ticks && l.base.ticks[tick].phase.Scheduling?
    ensures TxnInv(WithTick(l.base, tick, l.base.ticks[tick].(phase := Claiming)), other, l.txns[other])
  {
    assert TxnInv(l.base, other, l.txns[other]);
    forall i | 0 <= i < |l.txns[other].picked|
      ensures DueRow(WithTick(l.base, tick, l.base.ticks[tick].(phase := Claiming)), l.txns[other], l.txns[other].picked[i].rid)
    {
      assert DueRow(l.base, l.txns[other], l.txns[other].picked[i].rid);
    }
  }

  lemma CommitKeepsLocks(l: Claimers, tick: TickId)
    requires LockInv(l) && CanMove(l, Commit(tick))
    ensures LockInv(Moved(l, Commit(tick)))
  {
    CommitIsClaimDue(l, tick);
    var step := ClaimDue(tick, l.txns[tick].began, l.txns[tick].picked);
    OutboxStepKeeps(l.base, step);
    forall t | t in l.txns && t != tick
      ensures TxnInv(Apply(l.base, step), t, l.txns[t])
    {
      BatchKeepsTicks(l.base, Cutoff(l.txns[tick].began), l.txns[tick].began, l.txns[tick].picked);
      CommitKeepsTxn(l.base, tick, l.txns[tick], t, l.txns[t]);
    }
  }

  lemma BaseKeepsLocks(l: Claimers, step: Step)
    requires LockInv(l) && CanMove(l, Base(step))
    ensures LockInv(Moved(l, Base(step)))
  {
    OutboxStepKeeps(l.base, step);
    forall t | t in l.txns && step != EndTick(t)
      ensures TxnInv(Apply(l.base, step), t, l.txns[t])
    {
      BaseKeepsTxn(l, step, t);
    }
  }

  lemma RollbackKeepsLocks(l: Claimers, tick: TickId)
    requires LockInv(l) && CanMove(l, Rollback(tick))
    ensures LockInv(Moved(l, Rollback(tick)))
  {
    MoveIsItsMeaning(l, Rollback(tick));
    OutboxStepKeeps(l.base, ClaimDueFails(tick));
    forall t | t in l.txns && t != tick
      ensures TxnInv(Released(l.base, tick), t, l.txns[t])
    {
      ReleaseKeepsTxn(l, tick, t);
    }
  }

  lemma MoveKeepsLocks(l: Claimers, move: Move)
    requires LockInv(l) && CanMove(l, move)
    ensures LockInv(Moved(l, move))
  {
    match move {
      case Base(step) => BaseKeepsLocks(l, step);
      case Select(tick, picked) => SelectKeepsLocks(l, tick, picked);
      case Write(tick) => WriteKeepsLocks(l, tick);
      case Commit(tick) => CommitKeepsLocks(l, tick);
      case Rollback(tick) => RollbackKeepsLocks(l, tick);
    }
  }

  // ----- Runs -----

  ghost predicate CanRun(l: Claimers, moves: seq<Move>)
    requires LockInv(l)
    decreases |moves|
  {
    moves == [] ||
    (CanMove(l, moves[0]) &&
     (MoveKeepsLocks(l, moves[0]); CanRun(Moved(l, moves[0]), moves[1..])))
  }

  ghost function Ran(l: Claimers, moves: seq<Move>): (l': Claimers)
    requires LockInv(l) && CanRun(l, moves)
    ensures LockInv(l')
    decreases |moves|
  {
    if moves == [] then l
    else MoveKeepsLocks(l, moves[0]); Ran(Moved(l, moves[0]), moves[1..])
  }

  /** The outbox run that a run of claimers amounts to. */
  ghost function Abstract(l: Claimers, moves: seq<Move>): seq<Step>
    requires LockInv(l) && CanRun(l, moves)
    decreases |moves|
  {
    if moves == [] then []
    else
      MoveKeepsLocks(l, moves[0]);
      (if Meaning(l, moves[0]).Some? then [Meaning(l, moves[0]).value] else []) + Abstract(Moved(l, moves[0]), moves[1..])
  }

  /** Every run of locking, committing and rolling-back claimers is a run of the outbox with the same tables. */
  lemma {:induction false} ClaimersRefineTheOutbox(l: Claimers, moves: seq<Move>)
    requires LockInv(l) && CanRun(l, moves)
    ensures Legal(l.base, Abstract(l, moves))
    ensures After(l.base, Abstract(l, moves)) == Ran(l, moves).base
    decreases |moves|
  {
    if moves != [] {
      MoveIsItsMeaning(l, moves[0]);
      MoveKeepsLocks(l, moves[0]);
      var l' := Moved(l, moves[0]);
      ClaimersRefineTheOutbox(l', moves[1..]);
      if Meaning(l, moves[0]).Some? {
        var step := Meaning(l, moves[0]).value;
        assert ([step] + Abstract(l', moves[1..]))[1..] == Abstract(l', moves[1..]);
      } else {
        assert [] + Abstract(l', moves[1..]) == Abstract(l', moves[1..]);
      }
    }
  }

  ghost predicate Schedules(l: Claimers, move: Move, rid: ReminderId)
    requires CanMove(l, move)
  {
    move.Commit? && Locks(l.txns[move.tick], rid)
  }

  /** How many transactions of the run commit jobs for the reminder. */
  ghost function CommitCount(l: Claimers, moves: seq<Move>, rid: ReminderId): nat
    requires LockInv(l) && CanRun(l, moves)
    decreases |moves|
  {
    if moves == [] then 0
    else
      MoveKeepsLocks(l, moves[0]);
      (if Schedules(l, moves[0], rid) then 1 else 0) + CommitCount(Moved(l, moves[0]), moves[1..], rid)
  }

  function Scheduled(s: State, rid: ReminderId): nat {
    if rid in s.claims then 1 else 0
  }

  lemma {:induction false} BatchSchedules(s: State, cutoff: Time, at: Time, batch: seq<Picked>, rid: ReminderId)
    requires CanScheduleAll(s, cutoff, at, batch)
    ensures rid in ScheduleAll(s, cutoff, at, batch).claims <==>
            rid in s.claims || exists i :: 0 <= i < |batch| && batch[i].rid == rid
    decreases |batch|
  {
    if batch != [] {
      var s' := ScheduleOne(s, cutoff, at, batch[0]);
      assert s'.claims.Keys == s.claims.Keys + {batch[0].rid};
      BatchSchedules(s', cutoff, at, batch[1..], rid);
      assert forall i | 0 <= i < |batch| - 1 :: batch[1..][i] == batch[i + 1];
      if exists i :: 0 <= i < |batch| && batch[i].rid == rid {
        var i :| 0 <= i < |batch| && batch[i].rid == rid;
        assert i > 0 ==> batch[1..][i - 1].rid == rid;
      }
    }
  }

  lemma MoveSchedulesOnce(l: Claimers, move: Move, rid: ReminderId)
    requires LockInv(l) && CanMove(l, move)
    ensures Scheduled(Moved(l, move).base, rid) == Scheduled(l.base, rid) + if Schedules(l, move, rid) then 1 else 0
  {
    MoveIsItsMeaning(l, move);
    if move.Commit? {
      var txn := l.txns[move.tick];
      BatchSchedules(l.base, Cutoff(txn.began), txn.began, txn.picked, rid);
      if Locks(txn, rid) {
        assert TxnInv(l.base, move.tick, txn);
        var i :| 0 <= i < |txn.picked| && txn.picked[i].rid == rid;
        assert DueRow(l.base, txn, rid);
      }
    } else if move.Base? {
      OtherStepsScheduleNothing(l.base, move.step);
    }
  }

  lemma OtherStepsScheduleNothing(s: State, step: Step)
    requires Enabled(s, step) && !step.ClaimDue?
    ensures Apply(s, step).claims.Keys == s.claims.Keys
  {
    if step.Skip? {
      SkipLeavesAlone(s, step.tick, step.at, step.email, Fallback(Head(s, step.tick).job, step.at));
    } else if !step.Dispatch? {
      QuietStep(s, step, 0);
    }
  }

  /**
   * Exactly-once scheduling: in every interleaving of claimers, from any state, a reminder not scheduled before
   * is committed by exactly one transaction if it ends up scheduled and by none otherwise, and a reminder
   * scheduled before never again.
   */
  lemma {:induction false} ScheduledExactlyOnce(l: Claimers, moves: seq<Move>, rid: ReminderId)
    requires LockInv(l) && CanRun(l, moves)
    ensures Scheduled(l.base, rid) + CommitCount(l, moves, rid) == Scheduled(Ran(l, moves).base, rid)
    decreases |moves|
  {
    if moves != [] {
      MoveKeepsLocks(l, moves[0]);
      MoveSchedulesOnce(l, moves[0], rid);
      ScheduledExactlyOnce(Moved(l, moves[0]), moves[1..], rid);
    }
  }

  // ----- What a commit queues -----

  function JobsOn(s: State, rid: ReminderId, channel: Channel): set<JobId> {
    set id | id in s.trails && Known(s, id) && RowOf(s, id).origin == Some(rid) && RowOf(s, id).channel == channel
  }

  lemma ScheduleOneRecordsClaim(s: State, cutoff: Time, at: Time, p: Picked)
    requires p.rid in s.reminders
    ensures p.rid in ScheduleOne(s, cutoff, at, p).claims
    ensures ScheduleOne(s, cutoff, at, p).claims[p.rid] == ClaimOf(s.reminders[p.rid], cutoff, p)
    ensures ScheduleOne(s, cutoff, at, p).clock == s.clock
  {
  }

  lemma FirstRecordsClaim(s: State, cutoff: Time, at: Time, batch: seq<Picked>)
    requires LeaseInv(s) && ObligationInv(s) && CanScheduleAll(s, cutoff, at, batch) && cutoff <= s.clock && batch != []
    ensures var s', p := ScheduleAll(s, cutoff, at, batch), batch[0];
            p.rid in s'.claims && p.rid in s.reminders && s'.claims[p.rid] == ClaimOf(s.reminders[p.rid], cutoff, p)
  {
    ScheduleOneKeeps(s, cutoff, at, batch[0]);
    ScheduleOneKeepsLease(s, cutoff, at, batch[0]);
    ScheduleOneRecordsClaim(s, cutoff, at, batch[0]);
    BatchKeepsClaims(ScheduleOne(s, cutoff, at, batch[0]), cutoff, at, batch[1..], batch[0].rid);
  }

  lemma {:induction false} BatchRecordsClaim(s: State, cutoff: Time, at: Time, batch: seq<Picked>, i: nat)
    requires LeaseInv(s) && ObligationInv(s) && CanScheduleAll(s, cutoff, at, batch) && cutoff <= s.clock
    requires i < |batch| && DistinctRows(batch) && batch[i].rid in s.reminders
    ensures var s' := ScheduleAll(s, cutoff, at, batch);
            batch[i].rid in s'.claims && s'.claims[batch[i].rid] == ClaimOf(s.reminders[batch[i].rid], cutoff, batch[i])
    decreases |batch|
  {
    if i == 0 {
      FirstRecordsClaim(s, cutoff, at, batch);
    } else {
      ScheduleOneKeeps(s, cutoff, at, batch[0]);
      ScheduleOneKeepsLease(s, cutoff, at, batch[0]);
      ScheduleLeavesOthers(s, cutoff, at, batch[0], batch[i].rid);
      var rest := batch[1..];
      assert rest[i - 1] == batch[i];
      assert DistinctRows(rest);
      BatchRecordsClaim(ScheduleOne(s, cutoff, at, batch[0]), cutoff, at, rest, i - 1);
    }
  }

  lemma ClaimListsItsJobs(s: State, rid: ReminderId)
    requires Tables(s) && ObligationInv(s) && rid in s.claims
    ensures var c := s.claims[rid];
            && JobsOn(s, rid, EmailChannel) == (if c.email.Some? then {c.email.value} else {})
            && JobsOn(s, rid, PushChannel) == (if c.push.Some? then {c.push.value} else {})
  {
    var c := s.claims[rid];
    assert ClaimJobs(s, rid, c) && ClaimSettled(s, c);
    forall id: JobId | Known(s, id) && RowOf(s, id).origin == Some(rid)
      ensures c.email == Some(id) || c.push == Some(id)
    {
      assert Traced(s, id);
    }
  }

  /**
   * A commit marks each of its reminders sent, none before its minute, records it with its owner's settings, and queues
   * exactly an email unless a push stands in for it, and a push if there is a device for it.
   */
  lemma CommitQueuesEachChannelOnce(l: Claimers, tick: TickId, i: nat)
    requires LockInv(l) && CanMove(l, Commit(tick)) && i < |l.txns[tick].picked|
    ensures var s' := Moved(l, Commit(tick)).base;
            var p := l.txns[tick].picked[i];
            && p.rid in l.base.reminders
            && var row, push := l.base.reminders[p.rid], p.push && p.hasPushDevice;
            && !row.sent && row.enabled && row.time <= l.txns[tick].began - l.txns[tick].began % 60_000
            && (p.rid in s'.reminders ==> s'.reminders[p.rid].sent)
            && p.rid in s'.claims && s'.claims[p.rid].scheduled == row.time
            && s'.claims[p.rid].due ==
                 Due(row.eventId, p.user, row.minutesBefore, p.dueAt, p.email, p.push, p.hasPushDevice, p.mailsToOwnMailbox)
            && JobsOn(s', p.rid, EmailChannel) == (if p.email && !(push && p.mailsToOwnMailbox) then {p.emailId} else {})
            && JobsOn(s', p.rid, PushChannel) == (if push then {p.pushId} else {})
  {
    var txn := l.txns[tick];
    var step := ClaimDue(tick, txn.began, txn.picked);
    CommitIsClaimDue(l, tick);
    assert TxnInv(l.base, tick, txn);
    assert DueRow(l.base, txn, txn.picked[i].rid);
    BatchRecordsClaim(l.base, Cutoff(txn.began), txn.began, txn.picked, i);
    OutboxStepKeeps(l.base, step);
    ClaimListsItsJobs(Apply(l.base, step), txn.picked[i].rid);
  }

  /** Claimers start with no transaction open, on any outbox that starts empty. */
  lemma StartHolds(l: Claimers)
    requires Init(l.base) && l.txns == map[]
    ensures LockInv(l)
  {
    InitHolds(l.base);
  }
}
