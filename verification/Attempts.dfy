/** How often and how fast a job is tried, whatever crashes, times out or fails to be written. */
module Attempts {
  import opened Text
  import opened Schedule
  import opened Outbox
  import opened Lease
  import opened Obligation

  const MAX_DISPATCHES: nat := MAX_ATTEMPTS - 1

  ghost predicate TrailOk(row: Job, trail: Trail) {
    && trail.dispatches <= row.attempts && trail.dispatches <= MAX_DISPATCHES
    && (trail.firstClaim.None? <==> row.attempts == 0)
    && (row.attempts == 0 ==> !trail.open)
  }

  /** A claim gives at most one dispatch: until the tick has dispatched the job, this attempt has not been used. */
  ghost predicate HeldOk(t: Tick, c: Claimed, trail: Trail) {
    && trail.open
    && (trail.dispatches < c.job.attempts || (t.answer.Some? && t.todo != [] && t.todo[0].id == c.id))
  }

  ghost predicate AttemptInv(s: State) {
    && (forall id | Known(s, id) :: id in s.trails && TrailOk(RowOf(s, id), s.trails[id]))
    && (forall t, c | t in s.ticks && Holds(s.ticks[t], c) :: c.id in s.trails && HeldOk(s.ticks[t], c, s.trails[c.id]))
  }

  // ----- Preservation -----

  /** Steps that change neither the rows, as far as attempts go, nor the trails, and let no tick hold more. */
  lemma TrailsUnchanged(s: State, s': State)
    requires AttemptInv(s)
    requires forall id | Known(s', id) :: Known(s, id) && id in s'.trails && s'.trails[id] == s.trails[id] && RowOf(s', id) == RowOf(s, id)
    requires forall t, c | t in s'.ticks && Holds(s'.ticks[t], c) ::
               && t in s.ticks && Holds(s.ticks[t], c) && c.id in s'.trails && s'.trails[c.id] == s.trails[c.id]
               && (s.ticks[t].answer.Some? ==> s'.ticks[t].answer.Some? && s'.ticks[t].todo == s.ticks[t].todo)
    ensures AttemptInv(s')
  {
    forall id | Known(s', id)
      ensures id in s'.trails && TrailOk(RowOf(s', id), s'.trails[id])
    {
      assert TrailOk(RowOf(s, id), s.trails[id]);
    }
    forall t, c | t in s'.ticks && Holds(s'.ticks[t], c)
      ensures c.id in s'.trails && HeldOk(s'.ticks[t], c, s'.trails[c.id])
    {
      assert HeldOk(s.ticks[t], c, s.trails[c.id]);
    }
  }

  /** Steps in which one tick is done with one job, whose row and trail may change. */
  lemma JobDone(s: State, s': State, tick: TickId, c: Claimed)
    requires LeaseInv(s) && AttemptInv(s) && tick in s.ticks && Holds(s.ticks[tick], c)
    requires tick in s'.ticks && s'.ticks == s.ticks[tick := s'.ticks[tick]]
    requires forall d | Holds(s'.ticks[tick], d) :: Holds(s.ticks[tick], d) && d.id != c.id
    requires s.ticks[tick].answer.Some? ==> s.ticks[tick].todo != [] && s.ticks[tick].todo[0].id == c.id
    requires forall x | Known(s', x) && x != c.id :: Known(s, x) && RowOf(s', x) == RowOf(s, x)
    requires forall x | x in s.trails && x != c.id :: x in s'.trails && s'.trails[x] == s.trails[x]
    requires Known(s', c.id) ==> c.id in s'.trails && TrailOk(RowOf(s', c.id), s'.trails[c.id])
    ensures AttemptInv(s')
  {
    forall x | Known(s', x)
      ensures x in s'.trails && TrailOk(RowOf(s', x), s'.trails[x])
    {
      assert x != c.id ==> TrailOk(RowOf(s, x), s.trails[x]);
    }
    forall t, d | t in s'.ticks && Holds(s'.ticks[t], d)
      ensures d.id in s'.trails && HeldOk(s'.ticks[t], d, s'.trails[d.id])
    {
      assert t != tick ==> Apart(s.ticks[t], s.ticks[tick]);
      assert HeldOk(s.ticks[t], d, s.trails[d.id]);
    }
  }

  /** The same for the job at the head of the tick's list. */
  lemma HeadDone(s: State, s': State, tick: TickId)
    requires LeaseInv(s) && AttemptInv(s) && HasHead(s, tick)
    requires s'.ticks == DropHead(s, tick).ticks
    requires var c := Head(s, tick);
             && (forall x | Known(s', x) && x != c.id :: Known(s, x) && RowOf(s', x) == RowOf(s, x))
             && (forall x | x in s.trails && x != c.id :: x in s'.trails && s'.trails[x] == s.trails[x])
             && (Known(s', c.id) ==> c.id in s'.trails && TrailOk(RowOf(s', c.id), s'.trails[c.id]))
    ensures AttemptInv(s')
  {
    DroppedHead(s, tick);
    assert TickInv(s, s.ticks[tick]);
    JobDone(s, s', tick, Head(s, tick));
  }

  lemma InsertKeepsAttempts(s: State, id: JobId, job: Job)
    requires LeaseInv(s) && AttemptInv(s) && Fresh(s, id) && job.attempts == 0
    ensures AttemptInv(InsertJob(s, id, job))
  {
    var s' := InsertJob(s, id, job);
    forall x | Known(s', x)
      ensures x in s'.trails && TrailOk(RowOf(s', x), s'.trails[x])
    {
      assert x != id ==> TrailOk(RowOf(s, x), s.trails[x]);
    }
    forall t, c | t in s'.ticks && Holds(s'.ticks[t], c)
      ensures c.id in s'.trails && HeldOk(s'.ticks[t], c, s'.trails[c.id])
    {
      assert Current(s, s.ticks[t], c);
      assert HeldOk(s.ticks[t], c, s.trails[c.id]);
    }
  }

  lemma BookkeepingKeepsAttempts(s: State, reminders: map<ReminderId, Reminder>, claims: map<ReminderId, Claim>, clock: Time)
    requires AttemptInv(s)
    ensures AttemptInv(s.(reminders := reminders, claims := claims, clock := clock))
  {
    TrailsUnchanged(s, s.(reminders := reminders, claims := claims, clock := clock));
  }

  lemma ScheduleOneKeepsAttempts(s: State, cutoff: Time, at: Time, p: Picked)
    requires LeaseInv(s) && AttemptInv(s) && CanSchedule(s, cutoff, p)
    ensures AttemptInv(ScheduleOne(s, cutoff, at, p))
  {
    var due := DueOf(s.reminders[p.rid], p);
    var channels := ChannelsFor(due);
    var s' := ScheduleOne(s, cutoff, at, p);
    var s2 := if EmailChannel in channels then InsertJob(s, p.emailId, ChannelJob(due, EmailChannel, at, p.rid)) else s;
    var s3 := if PushChannel in channels then InsertJob(s2, p.pushId, ChannelJob(due, PushChannel, at, p.rid)) else s2;
    if EmailChannel in channels {
      InsertKeepsAttempts(s, p.emailId, ChannelJob(due, EmailChannel, at, p.rid));
      InsertKeepsLease(s, p.emailId, ChannelJob(due, EmailChannel, at, p.rid));
    }
    if PushChannel in channels {
      InsertKeepsAttempts(s2, p.pushId, ChannelJob(due, PushChannel, at, p.rid));
    }
    BookkeepingKeepsAttempts(s3, s'.reminders, s'.claims, s.clock);
  }

  lemma {:induction false} ScheduleAllKeepsAttempts(s: State, cutoff: Time, at: Time, batch: seq<Picked>)
    requires LeaseInv(s) && AttemptInv(s) && CanScheduleAll(s, cutoff, at, batch)
    ensures AttemptInv(ScheduleAll(s, cutoff, at, batch))
    decreases |batch|
  {
    if batch != [] {
      ScheduleOneKeepsAttempts(s, cutoff, at, batch[0]);
      ScheduleOneKeepsLease(s, cutoff, at, batch[0]);
      ScheduleAllKeepsAttempts(ScheduleOne(s, cutoff, at, batch[0]), cutoff, at, batch[1..]);
    }
  }

  lemma ClaimKeepsAttempts(s: State, tick: TickId, picked: seq<JobId>)
    requires LeaseInv(s) && AttemptInv(s) && tick in s.ticks && s.ticks[tick].phase.Claiming? && IsClaim(s, picked)
    ensures AttemptInv(DoClaimPending(s, tick, picked))
  {
    var s' := DoClaimPending(s, tick, picked);
    ClaimKeepsTrails(s, tick, picked);
    forall t, c | t in s'.ticks && Holds(s'.ticks[t], c)
      ensures c.id in s'.trails && HeldOk(s'.ticks[t], c, s'.trails[c.id])
    {
      if t == tick {
        FreshlyClaimedIsOk(s, tick, picked, c);
      } else {
        HeldIsNotDue(s, t, c);
        assert HeldOk(s.ticks[t], c, s.trails[c.id]);
      }
    }
  }

  lemma ClaimKeepsTrails(s: State, tick: TickId, picked: seq<JobId>)
    requires LeaseInv(s) && AttemptInv(s) && tick in s.ticks && IsClaim(s, picked)
    ensures var s' := DoClaimPending(s, tick, picked);
            forall id | Known(s', id) :: id in s'.trails && TrailOk(RowOf(s', id), s'.trails[id])
  {
    var s' := DoClaimPending(s, tick, picked);
    forall id | Known(s', id)
      ensures id in s'.trails && TrailOk(RowOf(s', id), s'.trails[id])
    {
      assert TrailOk(RowOf(s, id), s.trails[id]);
    }
  }

  lemma FreshlyClaimedIsOk(s: State, tick: TickId, picked: seq<JobId>, c: Claimed)
    requires LeaseInv(s) && AttemptInv(s) && tick in s.ticks && s.ticks[tick].phase.Claiming? && IsClaim(s, picked)
    requires Holds(DoClaimPending(s, tick, picked).ticks[tick], c)
    ensures var s' := DoClaimPending(s, tick, picked);
            c.id in s'.trails && HeldOk(s'.ticks[tick], c, s'.trails[c.id])
  {
    var s' := DoClaimPending(s, tick, picked);
    assert TickInv(s, s.ticks[tick]);
    var i :| 0 <= i < |picked| && s'.ticks[tick].rows[i] == c;
    assert picked[i] in picked && IsDuePending(s, picked[i]);
    assert TrailOk(RowOf(s, c.id), s.trails[c.id]);
  }

  lemma ValidRowKeepsAttempts(s: State, tick: TickId)
    requires LeaseInv(s) && AttemptInv(s) && IsWorking(s, tick) && s.ticks[tick].rows != []
    ensures AttemptInv(ScreenWith(s, tick, true))
  {
    assert TickInv(s, s.ticks[tick]);
    TailOfRows(s.ticks[tick]);
    TicksKeepAttempts(s, ScreenWith(s, tick, true).ticks);
  }

  lemma InvalidRowKeepsAttempts(s: State, tick: TickId)
    requires LeaseInv(s) && AttemptInv(s) && IsWorking(s, tick) && s.ticks[tick].rows != []
    ensures AttemptInv(ScreenWith(s, tick, false))
  {
    var t := s.ticks[tick];
    var c := t.rows[0];
    assert TickInv(s, t);
    assert Holds(t, c);
    assert Current(s, t, c);
    TailOfRows(t);
    assert TrailOk(RowOf(s, c.id), s.trails[c.id]);
    JobDone(s, ScreenWith(s, tick, false), tick, c);
  }

  lemma ScreenKeepsAttempts(s: State, tick: TickId, valid: bool)
    requires LeaseInv(s) && AttemptInv(s) && IsWorking(s, tick) && s.ticks[tick].rows != []
    ensures AttemptInv(ScreenWith(s, tick, valid))
  {
    if valid {
      ValidRowKeepsAttempts(s, tick);
    } else {
      InvalidRowKeepsAttempts(s, tick);
    }
  }

  lemma DispatchKeepsAttempts(s: State, tick: TickId, answer: Answer)
    requires LeaseInv(s) && AttemptInv(s) && HasHead(s, tick) && s.ticks[tick].answer.None? && GoesToChannel(Head(s, tick).job)
    ensures AttemptInv(DoDispatch(s, tick, answer))
  {
    var c := Head(s, tick);
    var s' := DoDispatch(s, tick, answer);
    DroppedHead(s, tick);
    assert TickInv(s, s.ticks[tick]);
    assert HeldOk(s.ticks[tick], c, s.trails[c.id]);
    forall x | Known(s', x)
      ensures x in s'.trails && TrailOk(RowOf(s', x), s'.trails[x])
    {
      assert TrailOk(RowOf(s, x), s.trails[x]);
    }
    forall u, d | u in s'.ticks && Holds(s'.ticks[u], d)
      ensures d.id in s'.trails && HeldOk(s'.ticks[u], d, s'.trails[d.id])
    {
      assert Holds(s.ticks[u], d);
      assert u != tick ==> Apart(s.ticks[u], s.ticks[tick]);
      assert HeldOk(s.ticks[u], d, s.trails[d.id]);
    }
  }

  lemma MarkSentKeepsAttempts(s: State, tick: TickId, written: bool)
    requires LeaseInv(s) && AttemptInv(s) && HasHead(s, tick)
    ensures AttemptInv(DoMarkSent(s, tick, written))
  {
    HeadFacts(s, tick);
    HeadDone(s, DoMarkSent(s, tick, written), tick);
  }

  lemma SkipKeepsAttempts(s: State, tick: TickId, at: Time, email: JobId, fallback: Option<Job>)
    requires LeaseInv(s) && AttemptInv(s) && HasHead(s, tick) && Fresh(s, email)
    requires fallback.Some? ==> fallback.value.attempts == 0
    ensures AttemptInv(SkipWith(s, tick, at, email, fallback))
  {
    HeadFacts(s, tick);
    var s1 := SkipHead(s, tick, at);
    HeadDone(s, s1, tick);
    if fallback.Some? {
      SkipHeadKeepsLease(s, tick, at);
      var s2 := InsertJob(s1, email, fallback.value);
      InsertKeepsAttempts(s1, email, fallback.value);
      BookkeepingKeepsAttempts(s2, s2.reminders, NoteEmail(s2, Head(s, tick).job.origin, email).claims, s2.clock);
    }
  }

  lemma MarkFailedKeepsAttempts(s: State, tick: TickId, written: bool)
    requires LeaseInv(s) && AttemptInv(s) && HasHead(s, tick)
    ensures AttemptInv(DoMarkFailed(s, tick, written))
  {
    HeadFacts(s, tick);
    HeadDone(s, DoMarkFailed(s, tick, written), tick);
  }

  lemma HeadFacts(s: State, tick: TickId)
    requires LeaseInv(s) && AttemptInv(s) && HasHead(s, tick)
    ensures var c := Head(s, tick);
            && c.id in s.jobs && s.jobs[c.id] == c.job && c.job.status.Pending? && c.job.attempts >= 1
            && c.job.availableAt <= s.clock + LEASE
            && c.id in s.trails && s.trails[c.id].open && TrailOk(c.job, s.trails[c.id])
  {
    DroppedHead(s, tick);
    assert TickInv(s, s.ticks[tick]);
    assert TrailOk(RowOf(s, Head(s, tick).id), s.trails[Head(s, tick).id]);
    assert HeldOk(s.ticks[tick], Head(s, tick), s.trails[Head(s, tick).id]);
  }

  lemma RetireKeepsAttempts(s: State, ids: set<JobId>)
    requires LeaseInv(s) && AttemptInv(s)
    requires forall id | id in ids :: id in s.jobs
    ensures AttemptInv(DoRetire(s, ids))
  {
    var s' := DoRetire(s, ids);
    forall id | Known(s', id)
      ensures Known(s, id) && id in s'.trails && s'.trails[id] == s.trails[id] && RowOf(s', id) == RowOf(s, id)
    {
      RetiredRow(s, ids, id);
    }
    TrailsUnchanged(s, s');
  }

  lemma RetiredRow(s: State, ids: set<JobId>, id: JobId)
    requires Tables(s) && (forall x | x in ids :: x in s.jobs) && Known(DoRetire(s, ids), id)
    ensures Known(s, id) && id in s.trails && RowOf(DoRetire(s, ids), id) == RowOf(s, id)
  {
  }

  lemma TicksKeepAttempts(s: State, ticks: map<TickId, Tick>)
    requires AttemptInv(s)
    requires forall t, c | t in ticks && Holds(ticks[t], c) ::
               && t in s.ticks && Holds(s.ticks[t], c)
               && (s.ticks[t].answer.Some? ==> ticks[t].answer.Some? && ticks[t].todo == s.ticks[t].todo)
    ensures AttemptInv(s.(ticks := ticks))
  {
    TrailsUnchanged(s, s.(ticks := ticks));
  }

  lemma NextPhaseKeepsAttempts(s: State, tick: TickId)
    requires AttemptInv(s) && tick in s.ticks
    ensures AttemptInv(WithTick(s, tick, s.ticks[tick].(phase := Claiming)))
  {
    TicksKeepAttempts(s, s.ticks[tick := s.ticks[tick].(phase := Claiming)]);
  }

  lemma NewTickKeepsAttempts(s: State, tick: TickId)
    requires AttemptInv(s) && tick !in s.ticks
    ensures AttemptInv(WithTick(s, tick, Tick(s.clock, Scheduling, 0, [], [], None)))
  {
    TicksKeepAttempts(s, s.ticks[tick := Tick(s.clock, Scheduling, 0, [], [], None)]);
  }

  lemma AttemptStep(s: State, step: Step)
    requires LeaseInv(s) && AttemptInv(s) && Enabled(s, step)
    ensures AttemptInv(Apply(s, step))
  {
    match step {
      case Advance(to) =>
        BookkeepingKeepsAttempts(s, s.reminders, s.claims, to);
      case AddReminder(rid, row) =>
        BookkeepingKeepsAttempts(s, s.reminders[rid := row], s.claims, s.clock);
      case Reschedule(rid, time) =>
        BookkeepingKeepsAttempts(s, s.reminders[rid := s.reminders[rid].(time := time)], s.claims, s.clock);
      case RemoveReminder(rid) =>
        BookkeepingKeepsAttempts(s, s.reminders - {rid}, s.claims, s.clock);
      case Enqueue(id, job) =>
        InsertKeepsAttempts(s, id, job);
      case StartTick(tick) =>
        NewTickKeepsAttempts(s, tick);
      case ClaimDue(tick, at, batch) =>
        ScheduleAllKeepsAttempts(s, Cutoff(at), at, batch);
        ScheduleAllKeepsLease(s, Cutoff(at), at, batch);
        NextPhaseKeepsAttempts(ScheduleAll(s, Cutoff(at), at, batch), tick);
      case ClaimDueFails(tick) =>
        NextPhaseKeepsAttempts(s, tick);
      case ClaimPending(tick, picked) =>
        ClaimKeepsAttempts(s, tick, picked);
      case Screen(tick) =>
        ScreenKeepsAttempts(s, tick, Contents(s.ticks[tick].rows[0].job).Some?);
      case Dispatch(tick, answer) =>
        DispatchKeepsAttempts(s, tick, answer);
      case MarkSent(tick, written) =>
        MarkSentKeepsAttempts(s, tick, written);
      case MarkFailed(tick, written) =>
        MarkFailedKeepsAttempts(s, tick, written);
      case Skip(tick, at, email) =>
        SkipKeepsAttempts(s, tick, at, email, Fallback(Head(s, tick).job, at));
      case EndTick(tick) =>
        TicksKeepAttempts(s, s.ticks - {tick});
      case Retire(ids) =>
        RetireKeepsAttempts(s, ids);
    }
  }

  lemma {:induction false} AttemptRun(s: State, run: seq<Step>)
    requires LeaseInv(s) && AttemptInv(s) && Legal(s, run)
    ensures LeaseInv(After(s, run)) && AttemptInv(After(s, run))
    decreases |run|
  {
    if run != [] {
      LeaseStep(s, run[0]);
      AttemptStep(s, run[0]);
      AttemptRun(Apply(s, run[0]), run[1..]);
    }
  }

  // ----- Counting dispatches along a run -----

  ghost predicate Dispatches(s: State, step: Step, id: JobId)
    requires Enabled(s, step)
  {
    step.Dispatch? && Head(s, step.tick).id == id
  }

  /** How many steps of the run hand the job to a channel dispatcher. */
  ghost function DispatchCount(s: State, run: seq<Step>, id: JobId): nat
    requires Legal(s, run)
    decreases |run|
  {
    if run == [] then 0
    else (if Dispatches(s, run[0], id) then 1 else 0) + DispatchCount(Apply(s, run[0]), run[1..], id)
  }

  ghost function Recorded(s: State, id: JobId): nat {
    if id in s.trails then s.trails[id].dispatches else 0
  }

  lemma {:induction false} BatchRecordsNothing(s: State, cutoff: Time, at: Time, batch: seq<Picked>, id: JobId)
    requires CanScheduleAll(s, cutoff, at, batch)
    ensures Recorded(ScheduleAll(s, cutoff, at, batch), id) == Recorded(s, id)
    decreases |batch|
  {
    if batch != [] {
      ScheduleOneRecordsNothing(s, cutoff, at, batch[0], id);
      BatchRecordsNothing(ScheduleOne(s, cutoff, at, batch[0]), cutoff, at, batch[1..], id);
    }
  }

  lemma ScheduleOneRecordsNothing(s: State, cutoff: Time, at: Time, p: Picked, id: JobId)
    requires CanSchedule(s, cutoff, p)
    ensures Recorded(ScheduleOne(s, cutoff, at, p), id) == Recorded(s, id)
  {
  }

  lemma ClaimRecordsNothing(s: State, tick: TickId, picked: seq<JobId>, id: JobId)
    requires tick in s.ticks && forall x | x in picked :: x in s.jobs
    ensures Recorded(DoClaimPending(s, tick, picked), id) == Recorded(s, id)
  {
  }

  /** All steps but three leave the claims and the dispatch counts alone. */
  lemma QuietStep(s: State, step: Step, id: JobId)
    requires Enabled(s, step) && !step.ClaimDue? && !step.Dispatch? && !step.Skip?
    ensures Apply(s, step).claims == s.claims && Recorded(Apply(s, step), id) == Recorded(s, id)
  {
    match step {
      case ClaimPending(tick, picked) => ClaimRecordsNothing(s, tick, picked, id);
      case Screen(tick) => ScreenRecordsNothing(s, tick, Contents(s.ticks[tick].rows[0].job).Some?, id);
      case MarkSent(tick, written) => MarksRecordNothing(s, tick, written, id);
      case MarkFailed(tick, written) => MarksRecordNothing(s, tick, written, id);
      case _ =>
    }
  }

  lemma ScreenRecordsNothing(s: State, tick: TickId, valid: bool, id: JobId)
    requires IsWorking(s, tick) && s.ticks[tick].rows != []
    ensures ScreenWith(s, tick, valid).claims == s.claims && Recorded(ScreenWith(s, tick, valid), id) == Recorded(s, id)
  {
  }

  lemma MarksRecordNothing(s: State, tick: TickId, written: bool, id: JobId)
    requires HasHead(s, tick)
    ensures DoMarkSent(s, tick, written).claims == s.claims && Recorded(DoMarkSent(s, tick, written), id) == Recorded(s, id)
    ensures DoMarkFailed(s, tick, written).claims == s.claims && Recorded(DoMarkFailed(s, tick, written), id) == Recorded(s, id)
  {
  }

  lemma DispatchIsRecorded(s: State, step: Step, id: JobId)
    requires LeaseInv(s) && AttemptInv(s) && Enabled(s, step)
    ensures Recorded(Apply(s, step), id) == Recorded(s, id) + if Dispatches(s, step, id) then 1 else 0
  {
    if step.ClaimDue? {
      BatchRecordsNothing(s, Cutoff(step.at), step.at, step.batch, id);
    } else if step.Dispatch? {
      HeadFacts(s, step.tick);
    } else if step.Skip? {
      SkipRecordsNothing(s, step.tick, step.at, step.email, Fallback(Head(s, step.tick).job, step.at), id);
    } else {
      QuietStep(s, step, id);
    }
  }

  lemma SkipRecordsNothing(s: State, tick: TickId, at: Time, email: JobId, fallback: Option<Job>, id: JobId)
    requires HasHead(s, tick) && Fresh(s, email)
    ensures Recorded(SkipWith(s, tick, at, email, fallback), id) == Recorded(s, id)
  {
  }

  lemma {:induction false} DispatchesAreRecorded(s: State, run: seq<Step>, id: JobId)
    requires LeaseInv(s) && AttemptInv(s) && Legal(s, run)
    ensures Recorded(After(s, run), id) == Recorded(s, id) + DispatchCount(s, run, id)
    decreases |run|
  {
    if run != [] {
      LeaseStep(s, run[0]);
      AttemptStep(s, run[0]);
      DispatchIsRecorded(s, run[0], id);
      DispatchesAreRecorded(Apply(s, run[0]), run[1..], id);
    }
  }

  /** In every run, crashes, timeouts and failed writes included, a job reaches a channel dispatcher at most seven times. */
  lemma AttemptBound(s: State, run: seq<Step>, id: JobId)
    requires Init(s) && Legal(s, run)
    ensures DispatchCount(s, run, id) <= 7
  {
    InitHolds(s);
    AttemptRun(s, run);
    DispatchesAreRecorded(s, run, id);
    var end := After(s, run);
    assert Known(end, id) ==> TrailOk(RowOf(end, id), end.trails[id]);
  }

  // ----- Per reminder -----

  ghost function ReminderDispatchCount(s: State, run: seq<Step>, rid: ReminderId): nat
    requires Legal(s, run)
    decreases |run|
  {
    if run == [] then 0
    else (if run[0].Dispatch? && Head(s, run[0].tick).job.origin == Some(rid) then 1 else 0)
         + ReminderDispatchCount(Apply(s, run[0]), run[1..], rid)
  }

  /** A claim, once recorded, keeps its jobs; at most its email is added later. */
  ghost predicate Extends(c: Claim, c': Claim) {
    c'.push == c.push && (c.email.Some? ==> c'.email == c.email)
  }

  lemma {:induction false} BatchKeepsClaims(s: State, cutoff: Time, at: Time, batch: seq<Picked>, rid: ReminderId)
    requires LeaseInv(s) && ObligationInv(s) && CanScheduleAll(s, cutoff, at, batch) && rid in s.claims && cutoff <= s.clock
    ensures rid in ScheduleAll(s, cutoff, at, batch).claims
    ensures ScheduleAll(s, cutoff, at, batch).claims[rid] == s.claims[rid]
    decreases |batch|
  {
    if batch != [] {
      ScheduleOneKeeps(s, cutoff, at, batch[0]);
      ScheduleOneKeepsLease(s, cutoff, at, batch[0]);
      BatchKeepsClaims(ScheduleOne(s, cutoff, at, batch[0]), cutoff, at, batch[1..], rid);
    }
  }

  lemma ClaimsPersist(s: State, step: Step, rid: ReminderId)
    requires LeaseInv(s) && ObligationInv(s) && Enabled(s, step) && rid in s.claims
    ensures rid in Apply(s, step).claims && Extends(s.claims[rid], Apply(s, step).claims[rid])
  {
    if step.ClaimDue? {
      BatchKeepsClaims(s, Cutoff(step.at), step.at, step.batch, rid);
    } else if step.Skip? {
      SkipExtendsClaims(s, step.tick, step.at, step.email, Fallback(Head(s, step.tick).job, step.at), rid);
    } else if !step.Dispatch? {
      QuietStep(s, step, 0);
    }
  }

  lemma SkipExtendsClaims(s: State, tick: TickId, at: Time, email: JobId, fallback: Option<Job>, rid: ReminderId)
    requires LeaseInv(s) && ObligationInv(s) && HasHead(s, tick) && rid in s.claims
    requires fallback.Some? ==> StandsInForEmail(Head(s, tick).job)
    ensures rid in SkipWith(s, tick, at, email, fallback).claims
    ensures Extends(s.claims[rid], SkipWith(s, tick, at, email, fallback).claims[rid])
  {
    DroppedHead(s, tick);
    if fallback.Some? && Head(s, tick).job.origin.Some? {
      StandInIsThePush(s, Head(s, tick).id);
    }
  }

  /** A job at work that a reminder caused is the email or the push of its claim. */
  lemma HeadIsOneOfTwo(s: State, tick: TickId, rid: ReminderId)
    requires LeaseInv(s) && ObligationInv(s) && HasHead(s, tick) && Head(s, tick).job.origin == Some(rid)
    ensures rid in s.claims
    ensures s.claims[rid].email == Some(Head(s, tick).id) || s.claims[rid].push == Some(Head(s, tick).id)
  {
    DroppedHead(s, tick);
    assert Traced(s, Head(s, tick).id);
  }

  /** The two jobs a reminder may have by the end of the run are the only ones ever dispatched for it. */
  lemma {:induction false} TwoJobsShareTheDispatches(s: State, run: seq<Step>, rid: ReminderId, e: JobId, p: JobId)
    requires LeaseInv(s) && ObligationInv(s) && Legal(s, run)
    requires forall c | c in AtEnd(s, run, rid) :: (c.email.Some? ==> c.email.value == e) && (c.push.Some? ==> c.push.value == p)
    ensures ReminderDispatchCount(s, run, rid) <= DispatchCount(s, run, e) + DispatchCount(s, run, p)
    ensures rid in s.claims ==> rid in After(s, run).claims && Extends(s.claims[rid], After(s, run).claims[rid])
    decreases |run|
  {
    if run != [] {
      var s1 := Apply(s, run[0]);
      LeaseStep(s, run[0]);
      ObligationStep(s, run[0]);
      assert AtEnd(s, run, rid) == AtEnd(s1, run[1..], rid);
      TwoJobsShareTheDispatches(s1, run[1..], rid, e, p);
      if rid in s.claims {
        ClaimsPersist(s, run[0], rid);
      }
      if run[0].Dispatch? && Head(s, run[0].tick).job.origin == Some(rid) {
        HeadIsOneOfTwo(s, run[0].tick, rid);
        assert After(s, run).claims[rid] in AtEnd(s, run, rid);
      }
    }
  }

  ghost function AtEnd(s: State, run: seq<Step>, rid: ReminderId): set<Claim>
    requires Legal(s, run)
  {
    if rid in After(s, run).claims then {After(s, run).claims[rid]} else {}
  }

  /** One reminder causes at most fourteen dispatches in any run: at most two jobs, each at most seven times. */
  lemma ReminderDispatchBound(s: State, run: seq<Step>, rid: ReminderId)
    requires Init(s) && Legal(s, run)
    ensures ReminderDispatchCount(s, run, rid) <= 14
  {
    InitHolds(s);
    var end := After(s, run);
    var e: JobId := if rid in end.claims && end.claims[rid].email.Some? then end.claims[rid].email.value else 0;
    var p: JobId := if rid in end.claims && end.claims[rid].push.Some? then end.claims[rid].push.value else 0;
    TwoJobsShareTheDispatches(s, run, rid, e, p);
    AttemptBound(s, run, e);
    AttemptBound(s, run, p);
  }
}
