/**
 * What becomes of a job: a new one is due at once, a settled one is never touched again, a failed one comes back after
 * exactly its backoff, and a lost one after exactly its lease.
 */
module Outcomes {
  import opened Text
  import opened Outbox
  import opened Lease
  import opened Attempts
  import opened Frames
  import opened Starvation
  import Backoff

  // ----- New jobs -----

  ghost predicate NewAndDue(s: State, id: JobId) {
    IsDuePending(s, id) && s.jobs[id].attempts == 0
  }

  lemma ScheduledAreNew(s: State, cutoff: Time, at: Time, p: Picked, id: JobId)
    requires CanSchedule(s, cutoff, p) && at <= s.clock && Known(ScheduleOne(s, cutoff, at, p), id)
    ensures Known(s, id) || NewAndDue(ScheduleOne(s, cutoff, at, p), id)
    ensures ScheduleOne(s, cutoff, at, p).clock == s.clock
  {
  }

  lemma {:induction false} BatchIsNew(s: State, cutoff: Time, at: Time, batch: seq<Picked>, id: JobId)
    requires CanScheduleAll(s, cutoff, at, batch) && at <= s.clock && Known(ScheduleAll(s, cutoff, at, batch), id)
    ensures Known(s, id) || NewAndDue(ScheduleAll(s, cutoff, at, batch), id)
    decreases |batch|
  {
    if batch != [] {
      var s1 := ScheduleOne(s, cutoff, at, batch[0]);
      BatchIsNew(s1, cutoff, at, batch[1..], id);
      if Known(s1, id) {
        ScheduledAreNew(s, cutoff, at, batch[0], id);
        BatchElsewhere(s1, cutoff, at, batch[1..], id);
        BatchKeepsClock(s1, cutoff, at, batch[1..]);
      }
    }
  }

  lemma FallbackIsNew(s: State, tick: TickId, at: Time, email: JobId, fallback: Option<Job>, id: JobId)
    requires HasHead(s, tick) && Fresh(s, email) && Known(SkipWith(s, tick, at, email, fallback), id)
    requires fallback.Some? ==>
               fallback.value.status.Pending? && fallback.value.attempts == 0 && fallback.value.availableAt <= s.clock
    ensures Known(s, id) || NewAndDue(SkipWith(s, tick, at, email, fallback), id)
  {
    var s1 := SkipHead(s, tick, at);
    assert Known(s1, id) ==> Known(s, id);
  }

  lemma MarksQueueNothing(s: State, tick: TickId, written: bool, id: JobId)
    requires HasHead(s, tick)
    ensures Known(DoMarkSent(s, tick, written), id) || Known(DoMarkFailed(s, tick, written), id) ==> Known(s, id)
  {
  }

  lemma ScreenQueuesNothing(s: State, tick: TickId, valid: bool, id: JobId)
    requires IsWorking(s, tick) && s.ticks[tick].rows != []
    ensures Known(ScreenWith(s, tick, valid), id) ==> Known(s, id)
  {
  }

  /** A job is due from the moment it is queued, whoever queues it. */
  lemma QueuedJobsAreDue(s: State, step: Step, id: JobId)
    requires Tables(s) && Enabled(s, step) && Known(Apply(s, step), id)
    ensures Known(s, id) || NewAndDue(Apply(s, step), id)
  {
    match step {
      case ClaimDue(tick, at, batch) => BatchIsNew(s, Cutoff(at), at, batch, id);
      case Skip(tick, at, email) => FallbackIsNew(s, tick, at, email, Fallback(Head(s, tick).job, at), id);
      case MarkSent(tick, written) => MarksQueueNothing(s, tick, written, id);
      case MarkFailed(tick, written) => MarksQueueNothing(s, tick, written, id);
      case Screen(tick) => ScreenQueuesNothing(s, tick, Contents(s.ticks[tick].rows[0].job).Some?, id);
      case _ =>
    }
  }

  // ----- Settled jobs -----

  /** No tick has a settled job, so no step is about it. */
  lemma SettledIsMissed(s: State, step: Step, id: JobId)
    requires LeaseInv(s) && Enabled(s, step) && Known(s, id) && !RowOf(s, id).status.Pending?
    ensures Misses(s, step, id) && !Dispatches(s, step, id)
  {
    if IsHeld(s, id) {
      HeldIsPending(s, id);
    }
    UnheldIsMissed(s, step, id);
  }

  /** A step that is about a job is a claim of it or the work of a tick that has it. */
  lemma UnheldIsMissed(s: State, step: Step, id: JobId)
    requires LeaseInv(s) && Enabled(s, step) && !IsHeld(s, id)
    ensures !Concerns(s, step, id) && !Dispatches(s, step, id)
    ensures step.Screen? ==> s.ticks[step.tick].rows[0].id != id
    ensures step.ClaimPending? && id in step.picked ==> id in s.jobs && s.jobs[id].status.Pending?
  {
    if (step.Dispatch? || step.MarkSent? || step.MarkFailed? || step.Skip?) && HasHead(s, step.tick) {
      HeadIsHeld(s, step.tick);
    } else if step.Screen? {
      var t := s.ticks[step.tick];
      assert Holds(t, t.rows[0]) && (t.rows[0].id == id ==> TickHolds(t, id));
    } else if step.ClaimPending? {
      assert id in step.picked ==> IsDuePending(s, id);
    }
  }

  /** Once sent or skipped, a job's row stays as it is, also past its removal, and its channel never sees it again. */
  lemma {:induction false} SettledForGood(s: State, run: seq<Step>, id: JobId)
    requires LeaseInv(s) && Legal(s, run) && Known(s, id) && !RowOf(s, id).status.Pending?
    ensures Known(After(s, run), id) && RowOf(After(s, run), id) == RowOf(s, id)
    ensures DispatchCount(s, run, id) == 0
    decreases |run|
  {
    if run != [] {
      SettledIsMissed(s, run[0], id);
      RowMissed(s, run[0], id);
      LeaseStep(s, run[0]);
      SettledForGood(Apply(s, run[0]), run[1..], id);
    }
  }

  /** A delivery that is recorded is final: the row says sent from then on, and nothing is sent twice. */
  lemma RecordedDeliveryIsFinal(s: State, tick: TickId, run: seq<Step>)
    requires Reachable(s) && Enabled(s, MarkSent(tick, true)) && Legal(Apply(s, MarkSent(tick, true)), run)
    ensures var s', id := Apply(s, MarkSent(tick, true)), Head(s, tick).id;
            && Known(After(s', run), id) && RowOf(After(s', run), id).status.Sent? && RowOf(After(s', run), id).updatedAt == s.clock
            && DispatchCount(s', run, id) == 0
  {
    ReachableHasLease(s);
    HeadIsHeld(s, tick);
    LeaseStep(s, MarkSent(tick, true));
    SettledForGood(Apply(s, MarkSent(tick, true)), run, Head(s, tick).id);
  }

  /** So is a skip. */
  lemma SkipIsFinal(s: State, tick: TickId, at: Time, email: JobId, run: seq<Step>)
    requires Reachable(s) && Enabled(s, Skip(tick, at, email)) && Legal(Apply(s, Skip(tick, at, email)), run)
    ensures var s', id := Apply(s, Skip(tick, at, email)), Head(s, tick).id;
            && Known(After(s', run), id) && RowOf(After(s', run), id).status.Skipped? && RowOf(After(s', run), id).updatedAt == at
            && DispatchCount(s', run, id) == 0
  {
    ReachableHasLease(s);
    HeadIsHeld(s, tick);
    LeaseStep(s, Skip(tick, at, email));
    SkipWrites(s, tick, at, email, Fallback(Head(s, tick).job, at));
    SettledForGood(Apply(s, Skip(tick, at, email)), run, Head(s, tick).id);
  }

  /** And the claimer's refusal of a payload. */
  lemma RefusalIsFinal(s: State, tick: TickId, run: seq<Step>)
    requires Reachable(s) && Enabled(s, Screen(tick)) && Legal(Apply(s, Screen(tick)), run)
    requires Contents(s.ticks[tick].rows[0].job).None?
    ensures var s', id := Apply(s, Screen(tick)), s.ticks[tick].rows[0].id;
            && Known(After(s', run), id) && RowOf(After(s', run), id).status.Skipped? && RowOf(After(s', run), id).updatedAt == s.clock
            && DispatchCount(s', run, id) == 0
  {
    ReachableHasLease(s);
    LeaseStep(s, Screen(tick));
    var t := s.ticks[tick];
    assert TickInv(s, t) && Holds(t, t.rows[0]);
    assert Current(s, t, t.rows[0]);
    SettledForGood(Apply(s, Screen(tick)), run, t.rows[0].id);
  }

  /** Retention takes exactly the rows it is given out of the table; all were settled a week before, or a month if skipped. */
  lemma RetentionTakesOldRows(s: State, ids: set<JobId>, id: JobId)
    requires Enabled(s, Retire(ids)) && id in s.jobs
    ensures id in Apply(s, Retire(ids)).jobs <==> id !in ids
    ensures id in ids ==>
              var days := if s.jobs[id].status.Sent? then 7 else 30;
              !s.jobs[id].status.Pending? && s.jobs[id].updatedAt + days * 24 * 60 * 60 * 1000 < s.clock
  {
  }

  // ----- Jobs that come back -----

  /** The step writes the job's row. */
  ghost predicate WritesRow(s: State, step: Step, id: JobId)
    requires Enabled(s, step)
  {
    match step
    case ClaimPending(tick, picked) => id in picked
    case Screen(tick) => s.ticks[tick].rows[0].id == id && Contents(s.ticks[tick].rows[0].job).None?
    case MarkSent(tick, written) => Head(s, tick).id == id && written
    case MarkFailed(tick, written) => Head(s, tick).id == id && written
    case Skip(tick, _, _) => Head(s, tick).id == id
    case _ => false
  }

  /** Whatever else happens, ticks dying and writes failing included, a pending row nobody writes stays as it is. */
  lemma UnwrittenStays(s: State, step: Step, id: JobId)
    requires Tables(s) && Enabled(s, step) && id in s.jobs && s.jobs[id].status.Pending? && !WritesRow(s, step, id)
    ensures id in Apply(s, step).jobs && Apply(s, step).jobs[id] == s.jobs[id]
  {
    if Misses(s, step, id) {
      RowMissed(s, step, id);
    } else if step.Screen? {
      ScreenElsewhere(s, step.tick, true, id);
    }
  }

  ghost predicate NobodyWrites(s: State, run: seq<Step>, id: JobId)
    requires Legal(s, run)
    decreases |run|
  {
    run == [] || (!WritesRow(s, run[0], id) && NobodyWrites(Apply(s, run[0]), run[1..], id))
  }

  lemma {:induction false} UnwrittenRun(s: State, run: seq<Step>, id: JobId)
    requires LeaseInv(s) && Legal(s, run) && id in s.jobs && s.jobs[id].status.Pending? && NobodyWrites(s, run, id)
    ensures id in After(s, run).jobs && After(s, run).jobs[id] == s.jobs[id]
    decreases |run|
  {
    if run != [] {
      UnwrittenStays(s, run[0], id);
      LeaseStep(s, run[0]);
      UnwrittenRun(Apply(s, run[0]), run[1..], id);
    }
  }

  /**
   * A recorded failure puts the job back, due from exactly the backoff of its attempts later on and not before, until
   * somebody writes the row again: 15 seconds, doubled with every attempt, at most 900.
   */
  lemma FailedJobReturns(s: State, tick: TickId, run: seq<Step>)
    requires Reachable(s) && Enabled(s, MarkFailed(tick, true))
    requires Legal(Apply(s, MarkFailed(tick, true)), run)
    requires NobodyWrites(Apply(s, MarkFailed(tick, true)), run, Head(s, tick).id)
    ensures var end, c := After(Apply(s, MarkFailed(tick, true)), run), Head(s, tick);
            && c.id in end.jobs && end.jobs[c.id].status.Pending? && end.jobs[c.id].attempts == c.job.attempts
            && end.jobs[c.id].updatedAt == s.clock
            && (IsDuePending(end, c.id) <==> end.clock >= s.clock + 1000 * Backoff.RetryDelay(c.job.attempts))
  {
    ReachableHasLease(s);
    HeadIsHeld(s, tick);
    LeaseStep(s, MarkFailed(tick, true));
    Backoff.RetryDelayMonotone(Head(s, tick).job.attempts, Head(s, tick).job.attempts);
    UnwrittenRun(Apply(s, MarkFailed(tick, true)), run, Head(s, tick).id);
  }

  /** A claim that nobody follows up, because its tick dies or no write works, ends after exactly two minutes. */
  lemma LostClaimReturns(s: State, tick: TickId, picked: seq<JobId>, id: JobId, run: seq<Step>)
    requires Reachable(s) && Enabled(s, ClaimPending(tick, picked)) && id in picked
    requires Legal(Apply(s, ClaimPending(tick, picked)), run) && NobodyWrites(Apply(s, ClaimPending(tick, picked)), run, id)
    ensures var end := After(Apply(s, ClaimPending(tick, picked)), run);
            && id in s.jobs && id in end.jobs && end.jobs[id].status.Pending? && end.jobs[id].attempts == s.jobs[id].attempts + 1
            && end.jobs[id].updatedAt == s.clock
            && (IsDuePending(end, id) <==> end.clock >= s.clock + 120 * 1000)
  {
    ReachableHasLease(s);
    ClaimedIsHeld(s, tick, picked, id);
    assert IsDuePending(s, id);
    LeaseStep(s, ClaimPending(tick, picked));
    UnwrittenRun(Apply(s, ClaimPending(tick, picked)), run, id);
  }
}
