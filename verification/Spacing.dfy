/** How long a job that keeps failing waits between its attempts. */
module Spacing {
  import opened Text
  import opened Schedule
  import opened Outbox
  import opened Lease
  import opened Attempts
  import Backoff

  /** The waiting that `n` recorded failures impose, in milliseconds. */
  function Waited(n: nat): nat {
    SECOND * Backoff.TotalDelay(n)
  }

  /** The next claim of a job all of whose attempts ended in a recorded failure cannot come before the backoff allows. */
  ghost predicate Spaced(row: Job, trail: Trail) {
    row.status.Pending? && trail.firstClaim.Some? && trail.clean && row.attempts >= 1 ==>
      row.availableAt >= trail.firstClaim.value +
      (if trail.open then Waited(row.attempts - 1) + LEASE else Waited(row.attempts))
  }

  ghost predicate SpacingInv(s: State) {
    forall id | id in s.jobs && id in s.trails :: Spaced(s.jobs[id], s.trails[id])
  }

  lemma LeaseIsSpaced(row: Job, trail: Trail, now: Time)
    requires Spaced(row, trail) && TrailOk(row, trail) && row.status.Pending? && row.availableAt <= now
    ensures Spaced(Leased(row, now), Begin(trail, now))
  {
    assert Waited(0) == 0;
  }

  /** A recorded failure starts the next wait no earlier than the attempt itself. */
  lemma FailureIsSpaced(row: Job, trail: Trail, now: Time)
    requires Spaced(row, trail) && row.status.Pending? && row.attempts >= 1 && trail.open
    requires row.availableAt <= now + LEASE
    ensures Spaced(row.(status := Pending, availableAt := now + RetryAfter(row.attempts), updatedAt := now), trail.(open := false))
  {
    Backoff.RetryDelayMonotone(1, row.attempts);
  }

  /** Inserted rows have not been tried, and no other step but a claim or a recorded failure touches attempts or times of a pending row. */
  ghost predicate RowKept(s: State, s': State, id: JobId) {
    id in s'.jobs && id in s'.trails ==>
      || (id in s.jobs && id in s.trails && s'.jobs[id] == s.jobs[id] && s'.trails[id].(dispatches := 0, delivered := false) == s.trails[id].(dispatches := 0, delivered := false))
      || !s'.jobs[id].status.Pending?
      || s'.jobs[id].attempts == 0
  }

  lemma RowsKept(s: State, s': State)
    requires SpacingInv(s) && forall id :: RowKept(s, s', id)
    ensures SpacingInv(s')
  {
    forall id | id in s'.jobs && id in s'.trails
      ensures Spaced(s'.jobs[id], s'.trails[id])
    {
      assert RowKept(s, s', id);
    }
  }

  lemma InsertSpaces(s: State, id: JobId, job: Job)
    requires SpacingInv(s) && job.attempts == 0
    ensures SpacingInv(InsertJob(s, id, job))
  {
  }

  lemma ScheduleOneSpaces(s: State, cutoff: Time, at: Time, p: Picked)
    requires SpacingInv(s) && CanSchedule(s, cutoff, p)
    ensures SpacingInv(ScheduleOne(s, cutoff, at, p))
  {
    var due := DueOf(s.reminders[p.rid], p);
    var channels := ChannelsFor(due);
    var s2 := if EmailChannel in channels then InsertJob(s, p.emailId, ChannelJob(due, EmailChannel, at, p.rid)) else s;
    if EmailChannel in channels {
      InsertSpaces(s, p.emailId, ChannelJob(due, EmailChannel, at, p.rid));
    }
    if PushChannel in channels {
      InsertSpaces(s2, p.pushId, ChannelJob(due, PushChannel, at, p.rid));
    }
  }

  lemma {:induction false} ScheduleAllSpaces(s: State, cutoff: Time, at: Time, batch: seq<Picked>)
    requires SpacingInv(s) && CanScheduleAll(s, cutoff, at, batch)
    ensures SpacingInv(ScheduleAll(s, cutoff, at, batch))
    decreases |batch|
  {
    if batch != [] {
      ScheduleOneSpaces(s, cutoff, at, batch[0]);
      ScheduleAllSpaces(ScheduleOne(s, cutoff, at, batch[0]), cutoff, at, batch[1..]);
    }
  }

  lemma ClaimSpaces(s: State, tick: TickId, picked: seq<JobId>)
    requires LeaseInv(s) && AttemptInv(s) && SpacingInv(s) && tick in s.ticks && IsClaim(s, picked)
    ensures SpacingInv(DoClaimPending(s, tick, picked))
  {
    var s' := DoClaimPending(s, tick, picked);
    forall id | id in s'.jobs && id in s'.trails
      ensures Spaced(s'.jobs[id], s'.trails[id])
    {
      assert Known(s, id) && TrailOk(RowOf(s, id), s.trails[id]);
      if id in picked {
        assert IsDuePending(s, id);
        LeaseIsSpaced(s.jobs[id], s.trails[id], s.clock);
      }
    }
  }

  lemma MarkFailedSpaces(s: State, tick: TickId, written: bool)
    requires LeaseInv(s) && AttemptInv(s) && SpacingInv(s) && HasHead(s, tick)
    ensures SpacingInv(DoMarkFailed(s, tick, written))
  {
    var c := Head(s, tick);
    var s' := DoMarkFailed(s, tick, written);
    HeadFacts(s, tick);
    FailureIsSpaced(c.job, s.trails[c.id], s.clock);
    forall id | id in s'.jobs && id in s'.trails
      ensures Spaced(s'.jobs[id], s'.trails[id])
    {
    }
  }

  lemma SkipSpaces(s: State, tick: TickId, at: Time, email: JobId, fallback: Option<Job>)
    requires SpacingInv(s) && HasHead(s, tick) && (fallback.Some? ==> fallback.value.attempts == 0)
    ensures SpacingInv(SkipWith(s, tick, at, email, fallback))
  {
    var s1 := SkipHead(s, tick, at);
    SkipHeadSpaces(s, tick, at);
    if fallback.Some? {
      InsertSpaces(s1, email, fallback.value);
      SameTablesSpace(InsertJob(s1, email, fallback.value), SkipWith(s, tick, at, email, fallback));
    }
  }

  lemma SkipHeadSpaces(s: State, tick: TickId, at: Time)
    requires SpacingInv(s) && HasHead(s, tick)
    ensures SpacingInv(SkipHead(s, tick, at))
  {
    RowsKept(s, SkipHead(s, tick, at));
  }

  lemma SameTablesSpace(s: State, s': State)
    requires SpacingInv(s) && s'.jobs == s.jobs && s'.trails == s.trails
    ensures SpacingInv(s')
  {
  }

  lemma MarkSentSpaces(s: State, tick: TickId, written: bool)
    requires SpacingInv(s) && HasHead(s, tick)
    ensures SpacingInv(DoMarkSent(s, tick, written))
  {
    RowsKept(s, DoMarkSent(s, tick, written));
  }

  lemma ScreenSpaces(s: State, tick: TickId, valid: bool)
    requires SpacingInv(s) && IsWorking(s, tick) && s.ticks[tick].rows != []
    ensures SpacingInv(ScreenWith(s, tick, valid))
  {
    RowsKept(s, ScreenWith(s, tick, valid));
  }

  lemma DispatchSpaces(s: State, tick: TickId, answer: Answer)
    requires SpacingInv(s) && HasHead(s, tick)
    ensures SpacingInv(DoDispatch(s, tick, answer))
  {
    RowsKept(s, DoDispatch(s, tick, answer));
  }

  /** Steps that write neither jobs nor their history, but for deletes. */
  lemma QuietStepSpaces(s: State, step: Step)
    requires SpacingInv(s) && Enabled(s, step)
    requires
      || step.Advance? || step.AddReminder? || step.Reschedule? || step.RemoveReminder?
      || step.StartTick? || step.ClaimDueFails? || step.EndTick?
    ensures SpacingInv(Apply(s, step))
  {
    SameTablesSpace(s, Apply(s, step));
  }

  lemma RetireSpaces(s: State, ids: set<JobId>)
    requires SpacingInv(s)
    ensures SpacingInv(DoRetire(s, ids))
  {
  }

  lemma SpacingStep(s: State, step: Step)
    requires LeaseInv(s) && AttemptInv(s) && SpacingInv(s) && Enabled(s, step)
    ensures SpacingInv(Apply(s, step))
  {
    match step {
      case Enqueue(id, job) => InsertSpaces(s, id, job);
      case ClaimDue(tick, at, batch) => ScheduleAllSpaces(s, Cutoff(at), at, batch);
      case ClaimPending(tick, picked) => ClaimSpaces(s, tick, picked);
      case Screen(tick) => ScreenSpaces(s, tick, Contents(s.ticks[tick].rows[0].job).Some?);
      case Dispatch(tick, answer) => DispatchSpaces(s, tick, answer);
      case MarkSent(tick, written) => MarkSentSpaces(s, tick, written);
      case MarkFailed(tick, written) => MarkFailedSpaces(s, tick, written);
      case Skip(tick, at, email) => SkipSpaces(s, tick, at, email, Fallback(Head(s, tick).job, at));
      case Retire(ids) => RetireSpaces(s, ids);
      case _ => QuietStepSpaces(s, step);
    }
  }

  lemma {:induction false} SpacingRun(s: State, run: seq<Step>)
    requires LeaseInv(s) && AttemptInv(s) && SpacingInv(s) && Legal(s, run)
    ensures LeaseInv(After(s, run)) && AttemptInv(After(s, run)) && SpacingInv(After(s, run))
    decreases |run|
  {
    if run != [] {
      LeaseStep(s, run[0]);
      AttemptStep(s, run[0]);
      SpacingStep(s, run[0]);
      SpacingRun(Apply(s, run[0]), run[1..]);
    }
  }

  /**
   * In every run, when a job whose attempts so far all ended in a recorded failure is claimed again, the
   * backoff of those failures has passed since its first claim; before the eighth claim that is 1845 seconds.
   */
  lemma BackoffSpacesTheClaims(s: State, tick: TickId, picked: seq<JobId>, id: JobId)
    requires Reachable(s) && Enabled(s, ClaimPending(tick, picked)) && id in picked
    requires id in s.trails && s.jobs[id].attempts >= 1 && s.trails[id].clean && !s.trails[id].open
    ensures s.trails[id].firstClaim.Some?
    ensures s.clock >= s.trails[id].firstClaim.value + Waited(s.jobs[id].attempts)
    ensures s.jobs[id].attempts == 7 ==> s.clock >= s.trails[id].firstClaim.value + 1845 * SECOND
  {
    var s0: State, run: seq<Step> :| Init(s0) && Legal(s0, run) && After(s0, run) == s;
    InitHolds(s0);
    SpacingRun(s0, run);
    assert IsDuePending(s, id);
    assert Known(s, id) && TrailOk(RowOf(s, id), s.trails[id]);
    Backoff.SevenFailuresTakeHalfAnHour();
  }
}
