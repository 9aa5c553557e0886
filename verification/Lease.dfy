/** Lease safety: the two-minute lease outlives the 45-second tick, so no job is ever worked on by two live ticks. */
module Lease {
  import opened Text
  import opened Schedule
  import opened Outbox

  /** The table and the history agree on which jobs exist. */
  ghost predicate Tables(s: State) {
    s.jobs.Keys !! s.gone.Keys && s.trails.Keys == s.jobs.Keys + s.gone.Keys
  }

  ghost predicate Distinct(rows: seq<Claimed>) {
    forall i, j | 0 <= i < j < |rows| :: rows[i].id != rows[j].id
  }

  /** The tick's copy of the job is what the table says, and the lease the tick took still stands on it. */
  ghost predicate Current(s: State, t: Tick, c: Claimed) {
    && c.id in s.jobs && s.jobs[c.id] == c.job
    && c.job.status.Pending? && c.job.availableAt == t.leasedUntil && c.job.attempts >= 1
  }

  ghost predicate TickTimes(s: State, t: Tick) {
    && t.started <= s.clock <= t.started + TICK_TIMEOUT
    && (t.phase.Working? ==> t.started + LEASE <= t.leasedUntil <= s.clock + LEASE)
  }

  ghost predicate TickShape(t: Tick) {
    && (!t.phase.Working? ==> t.rows == [] && t.todo == [])
    && Distinct(t.rows) && Distinct(t.todo)
    && (forall c, d | c in t.rows && d in t.todo :: c.id != d.id)
    && (t.answer.Some? ==> t.rows == [] && t.todo != [] && GoesToChannel(t.todo[0].job))
  }

  ghost predicate TickInv(s: State, t: Tick) {
    && TickTimes(s, t)
    && TickShape(t)
    && forall c | Holds(t, c) :: Current(s, t, c)
  }

  ghost predicate Exclusive(s: State) {
    forall t1, t2 | t1 in s.ticks && t2 in s.ticks && t1 != t2 :: Apart(s.ticks[t1], s.ticks[t2])
  }

  ghost predicate Apart(t1: Tick, t2: Tick) {
    forall c1, c2 | Holds(t1, c1) && Holds(t2, c2) :: c1.id != c2.id
  }

  ghost predicate LeaseInv(s: State) {
    && Tables(s)
    && (forall t | t in s.ticks :: TickInv(s, s.ticks[t]))
    && Exclusive(s)
  }

  /** A held job's lease has not run out, so no claim can return it. */
  lemma HeldIsNotDue(s: State, tick: TickId, c: Claimed)
    requires LeaseInv(s) && tick in s.ticks && Holds(s.ticks[tick], c)
    ensures !IsDuePending(s, c.id)
  {
    assert Current(s, s.ticks[tick], c);
    assert TickInv(s, s.ticks[tick]);
  }

  // ----- Preservation -----

  /** Steps that leave the ticks and the jobs they hold alone. */
  lemma Frame(s: State, s': State)
    requires LeaseInv(s) && Tables(s')
    requires s'.ticks == s.ticks && s'.clock == s.clock
    requires forall t, c | t in s.ticks && Holds(s.ticks[t], c) :: c.id in s'.jobs && s'.jobs[c.id] == c.job
    ensures LeaseInv(s')
  {
    forall t | t in s'.ticks
      ensures TickInv(s', s'.ticks[t])
    {
      assert TickInv(s, s.ticks[t]);
      forall c | Holds(s.ticks[t], c)
        ensures Current(s', s'.ticks[t], c)
      {
        assert Current(s, s.ticks[t], c);
      }
    }
  }

  /** Steps of one tick: the others keep their jobs, and the one that moved shares none with them. */
  lemma OneTickMoves(s: State, s': State, tick: TickId)
    requires LeaseInv(s) && Tables(s') && s'.clock == s.clock
    requires s'.ticks.Keys == s.ticks.Keys + {tick}
    requires TickInv(s', s'.ticks[tick])
    requires forall t | t in s.ticks && t != tick :: s'.ticks[t] == s.ticks[t] && Apart(s'.ticks[tick], s.ticks[t])
    requires forall t, c | t in s.ticks && t != tick && Holds(s.ticks[t], c) :: c.id in s'.jobs && s'.jobs[c.id] == c.job
    ensures LeaseInv(s')
  {
    forall t | t in s'.ticks
      ensures TickInv(s', s'.ticks[t])
    {
      if t != tick {
        assert TickInv(s, s.ticks[t]);
        forall c | Holds(s.ticks[t], c)
          ensures Current(s', s.ticks[t], c)
        {
          assert Current(s, s.ticks[t], c);
        }
      }
    }
    forall t1, t2 | t1 in s'.ticks && t2 in s'.ticks && t1 != t2
      ensures Apart(s'.ticks[t1], s'.ticks[t2])
    {
      if t1 != tick && t2 != tick {
        assert Apart(s.ticks[t1], s.ticks[t2]);
      }
    }
  }

  /** Steps in which one tick lets go of one job and that job's row changes. */
  lemma LetGo(s: State, s': State, tick: TickId, c: Claimed)
    requires LeaseInv(s) && Tables(s')
    requires tick in s.ticks && Holds(s.ticks[tick], c)
    requires s'.clock == s.clock && tick in s'.ticks && s'.ticks == s.ticks[tick := s'.ticks[tick]]
    requires TickShape(s'.ticks[tick]) && SameLease(s.ticks[tick], s'.ticks[tick])
    requires forall d | Holds(s'.ticks[tick], d) :: Holds(s.ticks[tick], d) && d.id != c.id
    requires forall id | id in s.jobs && id != c.id :: id in s'.jobs && s'.jobs[id] == s.jobs[id]
    ensures LeaseInv(s')
  {
    assert TickInv(s, s.ticks[tick]);
    forall d | Holds(s'.ticks[tick], d)
      ensures Current(s', s'.ticks[tick], d)
    {
      assert Current(s, s.ticks[tick], d);
    }
    forall t, d | t in s.ticks && t != tick && Holds(s.ticks[t], d)
      ensures d.id in s'.jobs && s'.jobs[d.id] == d.job
    {
      assert Apart(s.ticks[t], s.ticks[tick]);
      assert Current(s, s.ticks[t], d);
    }
    OneTickMoves(s, s', tick);
  }

  ghost predicate SameLease(t: Tick, t': Tick) {
    t'.started == t.started && t'.phase == t.phase && t'.leasedUntil == t.leasedUntil
  }

  /** Steps in which one tick changes its own bookkeeping but holds the same jobs. */
  lemma SameHeld(s: State, s': State, tick: TickId)
    requires LeaseInv(s) && tick in s.ticks
    requires s'.jobs == s.jobs && s'.gone == s.gone && s'.trails.Keys == s.trails.Keys && s'.clock == s.clock
    requires tick in s'.ticks && s'.ticks == s.ticks[tick := s'.ticks[tick]]
    requires TickShape(s'.ticks[tick]) && TickTimes(s', s'.ticks[tick])
    requires forall d | Holds(s'.ticks[tick], d) :: Holds(s.ticks[tick], d)
    requires s'.ticks[tick].leasedUntil == s.ticks[tick].leasedUntil
    ensures LeaseInv(s')
  {
    assert TickInv(s, s.ticks[tick]);
    forall d | Holds(s'.ticks[tick], d)
      ensures Current(s', s'.ticks[tick], d)
    {
      assert Current(s, s.ticks[tick], d);
    }
    forall t, d | t in s.ticks && t != tick && Holds(s.ticks[t], d)
      ensures d.id in s'.jobs && s'.jobs[d.id] == d.job
    {
      assert Current(s, s.ticks[t], d);
    }
    forall t | t in s.ticks && t != tick
      ensures Apart(s'.ticks[tick], s.ticks[t])
    {
      assert Apart(s.ticks[tick], s.ticks[t]);
    }
    OneTickMoves(s, s', tick);
  }

  lemma InsertKeepsLease(s: State, id: JobId, job: Job)
    requires LeaseInv(s) && Fresh(s, id)
    ensures LeaseInv(InsertJob(s, id, job))
  {
    forall t, c | t in s.ticks && Holds(s.ticks[t], c)
      ensures c.id in s.jobs && s.jobs[c.id] == c.job
    {
      assert TickInv(s, s.ticks[t]);
      assert Current(s, s.ticks[t], c);
    }
    Frame(s, InsertJob(s, id, job));
  }

  lemma ScheduleOneKeepsLease(s: State, cutoff: Time, at: Time, p: Picked)
    requires LeaseInv(s) && CanSchedule(s, cutoff, p)
    ensures LeaseInv(ScheduleOne(s, cutoff, at, p))
    ensures ScheduleOne(s, cutoff, at, p).ticks == s.ticks
    ensures ScheduleOne(s, cutoff, at, p).clock == s.clock
  {
    var row := s.reminders[p.rid];
    var due := DueOf(row, p);
    var channels := ChannelsFor(due);
    var s1 := s.(reminders := s.reminders[p.rid := row.(sent := true)]);
    assert LeaseInv(s1);
    var s2 := if EmailChannel in channels then InsertJob(s1, p.emailId, ChannelJob(due, EmailChannel, at, p.rid)) else s1;
    if EmailChannel in channels {
      InsertKeepsLease(s1, p.emailId, ChannelJob(due, EmailChannel, at, p.rid));
    }
    if PushChannel in channels {
      InsertKeepsLease(s2, p.pushId, ChannelJob(due, PushChannel, at, p.rid));
    }
  }

  lemma {:induction false} ScheduleAllKeepsLease(s: State, cutoff: Time, at: Time, batch: seq<Picked>)
    requires LeaseInv(s) && CanScheduleAll(s, cutoff, at, batch)
    ensures LeaseInv(ScheduleAll(s, cutoff, at, batch))
    ensures ScheduleAll(s, cutoff, at, batch).ticks == s.ticks
    ensures ScheduleAll(s, cutoff, at, batch).clock == s.clock
    decreases |batch|
  {
    if batch != [] {
      ScheduleOneKeepsLease(s, cutoff, at, batch[0]);
      ScheduleAllKeepsLease(ScheduleOne(s, cutoff, at, batch[0]), cutoff, at, batch[1..]);
    }
  }

  lemma ScheduledKeepsLease(s: State, tick: TickId)
    requires LeaseInv(s) && tick in s.ticks && s.ticks[tick].phase.Scheduling?
    ensures LeaseInv(WithTick(s, tick, s.ticks[tick].(phase := Claiming)))
  {
    assert TickInv(s, s.ticks[tick]);
    SameHeld(s, WithTick(s, tick, s.ticks[tick].(phase := Claiming)), tick);
  }

  lemma DispatchKeepsLease(s: State, tick: TickId, answer: Answer)
    requires LeaseInv(s) && HasHead(s, tick) && GoesToChannel(Head(s, tick).job)
    ensures LeaseInv(DoDispatch(s, tick, answer))
  {
    assert TickInv(s, s.ticks[tick]);
    SameHeld(s, DoDispatch(s, tick, answer), tick);
  }

  lemma ClaimKeepsLease(s: State, tick: TickId, picked: seq<JobId>)
    requires LeaseInv(s) && tick in s.ticks && s.ticks[tick].phase.Claiming? && IsClaim(s, picked)
    ensures LeaseInv(DoClaimPending(s, tick, picked))
  {
    var s' := DoClaimPending(s, tick, picked);
    ClaimedRows(s, tick, picked);
    forall t, c | t in s.ticks && Holds(s.ticks[t], c)
      ensures c.id !in picked && c.id in s'.jobs && s'.jobs[c.id] == c.job
    {
      HeldIsNotDue(s, t, c);
      assert Current(s, s.ticks[t], c);
    }
    OneTickMoves(s, s', tick);
  }

  /** The claiming tick holds exactly what the statement returned, freshly leased. */
  lemma ClaimedRows(s: State, tick: TickId, picked: seq<JobId>)
    requires LeaseInv(s) && tick in s.ticks && s.ticks[tick].phase.Claiming? && IsClaim(s, picked)
    ensures var s' := DoClaimPending(s, tick, picked);
            TickInv(s', s'.ticks[tick]) && forall c | Holds(s'.ticks[tick], c) :: c.id in picked
  {
    var s' := DoClaimPending(s, tick, picked);
    var t' := s'.ticks[tick];
    assert TickInv(s, s.ticks[tick]);
    ClaimedShape(s, tick, picked);
    forall c | Holds(t', c)
      ensures Current(s', t', c) && c.id in picked
    {
      ClaimedRow(s, tick, picked, c);
    }
  }

  lemma ClaimedShape(s: State, tick: TickId, picked: seq<JobId>)
    requires tick in s.ticks && TickShape(s.ticks[tick]) && s.ticks[tick].phase.Claiming?
    requires (forall id | id in picked :: id in s.jobs) && forall i, j | 0 <= i < j < |picked| :: picked[i] != picked[j]
    ensures TickShape(DoClaimPending(s, tick, picked).ticks[tick])
  {
  }

  lemma ClaimedRow(s: State, tick: TickId, picked: seq<JobId>, c: Claimed)
    requires tick in s.ticks && s.ticks[tick].todo == [] && forall id | id in picked :: id in s.jobs && s.jobs[id].status.Pending?
    requires Holds(DoClaimPending(s, tick, picked).ticks[tick], c)
    ensures var s' := DoClaimPending(s, tick, picked);
            Current(s', s'.ticks[tick], c) && c.id in picked
  {
    var rows := DoClaimPending(s, tick, picked).ticks[tick].rows;
    var i :| 0 <= i < |picked| && rows[i] == c;
    assert picked[i] in picked;
  }

  lemma ScreenKeepsLease(s: State, tick: TickId, valid: bool)
    requires LeaseInv(s) && IsWorking(s, tick) && s.ticks[tick].rows != []
    ensures LeaseInv(ScreenWith(s, tick, valid))
  {
    var t := s.ticks[tick];
    var c := t.rows[0];
    var s' := ScreenWith(s, tick, valid);
    assert TickInv(s, t);
    TailOfRows(t);
    assert Holds(t, c);
    assert Current(s, t, c);
    if valid {
      SameHeld(s, s', tick);
    } else {
      LetGo(s, s', tick, c);
    }
  }

  /** Validating the first claimed row: it moves behind the validated ones, or the tick lets it go. */
  lemma TailOfRows(t: Tick)
    requires TickShape(t) && t.phase.Working? && t.rows != []
    ensures var t1 := t.(rows := t.rows[1..]);
            TickShape(t1) && forall d | Holds(t1, d) :: Holds(t, d) && d.id != t.rows[0].id
    ensures var t2 := t.(rows := t.rows[1..], todo := t.todo + [t.rows[0]]);
            TickShape(t2) && forall d | Holds(t2, d) :: Holds(t, d)
  {
  }

  /** What every way of finishing the head job does to the tick. */
  lemma DroppedHead(s: State, tick: TickId)
    requires LeaseInv(s) && HasHead(s, tick)
    ensures var t' := DropHead(s, tick).ticks[tick];
            && TickShape(t')
            && (forall d | Holds(t', d) :: Holds(s.ticks[tick], d) && d.id != Head(s, tick).id)
    ensures Current(s, s.ticks[tick], Head(s, tick))
    ensures Holds(s.ticks[tick], Head(s, tick))
  {
    var t := s.ticks[tick];
    var t' := DropHead(s, tick).ticks[tick];
    assert TickInv(s, t);
    assert Holds(t, t.todo[0]);
  }

  lemma SkipHeadKeepsLease(s: State, tick: TickId, at: Time)
    requires LeaseInv(s) && HasHead(s, tick)
    ensures LeaseInv(SkipHead(s, tick, at))
  {
    DroppedHead(s, tick);
    LetGo(s, SkipHead(s, tick, at), tick, Head(s, tick));
  }

  lemma NotesKeepLease(s: State, origin: Option<ReminderId>, email: JobId)
    requires LeaseInv(s)
    ensures LeaseInv(NoteEmail(s, origin, email))
  {
    forall t, c | t in s.ticks && Holds(s.ticks[t], c)
      ensures c.id in s.jobs && s.jobs[c.id] == c.job
    {
      assert Current(s, s.ticks[t], c);
    }
    Frame(s, NoteEmail(s, origin, email));
  }

  lemma SkipKeepsLease(s: State, tick: TickId, at: Time, email: JobId, fallback: Option<Job>)
    requires LeaseInv(s) && HasHead(s, tick) && Fresh(s, email)
    ensures LeaseInv(SkipWith(s, tick, at, email, fallback))
  {
    SkipHeadKeepsLease(s, tick, at);
    if fallback.Some? {
      var s1 := SkipHead(s, tick, at);
      assert Fresh(s1, email);
      InsertKeepsLease(s1, email, fallback.value);
      NotesKeepLease(InsertJob(s1, email, fallback.value), Head(s, tick).job.origin, email);
    }
  }

  lemma MarkSentKeepsLease(s: State, tick: TickId, written: bool)
    requires LeaseInv(s) && HasHead(s, tick)
    ensures LeaseInv(DoMarkSent(s, tick, written))
  {
    DroppedHead(s, tick);
    LetGo(s, DoMarkSent(s, tick, written), tick, Head(s, tick));
  }

  lemma MarkFailedKeepsLease(s: State, tick: TickId, written: bool)
    requires LeaseInv(s) && HasHead(s, tick)
    ensures LeaseInv(DoMarkFailed(s, tick, written))
  {
    DroppedHead(s, tick);
    LetGo(s, DoMarkFailed(s, tick, written), tick, Head(s, tick));
  }

  /** Retention never removes a job a live tick holds. */
  lemma RetireSparesHeldJobs(s: State, ids: set<JobId>)
    requires LeaseInv(s) && Enabled(s, Retire(ids))
    ensures forall t, c | t in s.ticks && Holds(s.ticks[t], c) :: c.id !in ids && c.id in DoRetire(s, ids).jobs
    ensures LeaseInv(DoRetire(s, ids))
  {
    forall t, c | t in s.ticks && Holds(s.ticks[t], c)
      ensures c.id !in ids && c.id in s.jobs && s.jobs[c.id] == c.job
    {
      assert TickInv(s, s.ticks[t]);
      assert Current(s, s.ticks[t], c);
    }
    Frame(s, DoRetire(s, ids));
  }

  lemma LeaseStep(s: State, step: Step)
    requires LeaseInv(s) && Enabled(s, step)
    ensures LeaseInv(Apply(s, step))
  {
    match step {
      case Advance(to) =>
        TimePasses(s, to);
      case AddReminder(rid, row) =>
      case Reschedule(rid, time) =>
      case RemoveReminder(rid) =>
      case Enqueue(id, job) =>
        InsertKeepsLease(s, id, job);
      case StartTick(tick) =>
        NewTick(s, tick);
      case ClaimDue(tick, at, batch) =>
        ScheduleAllKeepsLease(s, Cutoff(at), at, batch);
        ScheduledKeepsLease(ScheduleAll(s, Cutoff(at), at, batch), tick);
      case ClaimDueFails(tick) =>
        ScheduledKeepsLease(s, tick);
      case ClaimPending(tick, picked) =>
        ClaimKeepsLease(s, tick, picked);
      case Screen(tick) =>
        ScreenKeepsLease(s, tick, Contents(s.ticks[tick].rows[0].job).Some?);
      case Dispatch(tick, answer) =>
        DispatchKeepsLease(s, tick, answer);
      case MarkSent(tick, written) =>
        MarkSentKeepsLease(s, tick, written);
      case MarkFailed(tick, written) =>
        MarkFailedKeepsLease(s, tick, written);
      case Skip(tick, at, email) =>
        SkipKeepsLease(s, tick, at, email, Fallback(Head(s, tick).job, at));
      case EndTick(tick) =>
        TickGone(s, tick);
      case Retire(ids) =>
        RetireSparesHeldJobs(s, ids);
    }
  }

  lemma TimePasses(s: State, to: Time)
    requires LeaseInv(s) && Enabled(s, Advance(to))
    ensures LeaseInv(s.(clock := to))
  {
    var s' := s.(clock := to);
    forall t | t in s'.ticks
      ensures TickInv(s', s'.ticks[t])
    {
      assert TickInv(s, s.ticks[t]);
      forall c | Holds(s.ticks[t], c)
        ensures Current(s', s'.ticks[t], c)
      {
        assert Current(s, s.ticks[t], c);
      }
    }
  }

  lemma NewTick(s: State, tick: TickId)
    requires LeaseInv(s) && Enabled(s, StartTick(tick))
    ensures LeaseInv(Apply(s, StartTick(tick)))
  {
    var s' := Apply(s, StartTick(tick));
    forall t, c | t in s.ticks && Holds(s.ticks[t], c)
      ensures c.id in s.jobs && s.jobs[c.id] == c.job
    {
      assert TickInv(s, s.ticks[t]);
      assert Current(s, s.ticks[t], c);
    }
    OneTickMoves(s, s', tick);
  }

  lemma TickGone(s: State, tick: TickId)
    requires LeaseInv(s) && Enabled(s, EndTick(tick))
    ensures LeaseInv(Apply(s, EndTick(tick)))
  {
    var s' := Apply(s, EndTick(tick));
    forall t | t in s'.ticks
      ensures TickInv(s', s'.ticks[t])
    {
      assert TickInv(s, s.ticks[t]);
      forall c | Holds(s.ticks[t], c)
        ensures Current(s', s'.ticks[t], c)
      {
        assert Current(s, s.ticks[t], c);
      }
    }
    forall t1, t2 | t1 in s'.ticks && t2 in s'.ticks && t1 != t2
      ensures Apart(s'.ticks[t1], s'.ticks[t2])
    {
      assert Apart(s.ticks[t1], s.ticks[t2]);
    }
  }

  lemma {:induction false} LeaseRun(s: State, run: seq<Step>)
    requires LeaseInv(s) && Legal(s, run)
    ensures LeaseInv(After(s, run))
    decreases |run|
  {
    if run != [] {
      LeaseStep(s, run[0]);
      LeaseRun(Apply(s, run[0]), run[1..]);
    }
  }

  lemma InitHolds(s: State)
    requires Init(s)
    ensures LeaseInv(s)
  {
  }

  // ----- The theorem -----

  /** The job is in the part of the tick's claim that it has not dealt with yet. */
  ghost predicate WorksOn(s: State, tick: TickId, id: JobId) {
    tick in s.ticks && exists c :: Holds(s.ticks[tick], c) && c.id == id
  }

  /**
   * In every reachable state no job is held by two live ticks, and the tick that holds it works from a copy
   * that equals the row, whose lease still runs for at least 75 seconds.
   */
  lemma LeaseSafety(s: State, tick1: TickId, tick2: TickId, id: JobId)
    requires Reachable(s)
    requires WorksOn(s, tick1, id) && WorksOn(s, tick2, id)
    ensures tick1 == tick2
    ensures id in s.jobs && s.jobs[id].status.Pending? && s.clock + 75_000 <= s.jobs[id].availableAt
    ensures Holds(s.ticks[tick1], Claimed(id, s.jobs[id]))
  {
    ReachableHasLease(s);
    var c1 :| Holds(s.ticks[tick1], c1) && c1.id == id;
    var c2 :| Holds(s.ticks[tick2], c2) && c2.id == id;
    assert TickInv(s, s.ticks[tick1]);
    assert Current(s, s.ticks[tick1], c1);
  }

  lemma ReachableHasLease(s: State)
    requires Reachable(s)
    ensures LeaseInv(s)
  {
    var s0: State, run: seq<Step> :| Init(s0) && Legal(s0, run) && After(s0, run) == s;
    InitHolds(s0);
    LeaseRun(s0, run);
  }
}
