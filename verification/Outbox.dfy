/**
 * The notification outbox as a transition system: every SQL statement or transaction the worker runs, every
 * step of the backend and of the clock, is one atomic step.
 *
 * A run is a sequence of steps, so all interleavings of any number of overlapping ticks and worker processes
 * are runs, and so are crashes, timeouts and writes that report an error. Times are milliseconds.
 */
module Outbox {
  import opened Text
  import opened Payload
  import opened Schedule
  import Backoff

  type Time = nat
  type JobId = nat
  type ReminderId = nat
  type TickId = nat

  const SECOND: nat := 1000
  const MINUTE: nat := 60 * SECOND
  const DAY: nat := 24 * 60 * MINUTE
  /** A claim that raises the attempts to this is the last one: the job does not reach its channel any more. */
  const MAX_ATTEMPTS: nat := 8
  const CLAIM_LIMIT: nat := 50
  const DUE_LIMIT: nat := 50
  const LEASE: nat := 2 * MINUTE
  const TICK_TIMEOUT: nat := 45 * SECOND
  const SENT_RETENTION: nat := 7 * DAY
  const DEAD_RETENTION: nat := 30 * DAY

  // ----- Rows -----

  /** A reminder as the backend stores it. */
  datatype Reminder = Reminder(eventId: string, minutesBefore: I32, time: Time, enabled: bool, sent: bool)

  datatype Status = Pending | Sent | Skipped

  /** What a channel answers for one job: `Ok`, a branch that skips, or an error. */
  datatype Answer = Delivered | GivesUp | Errs

  /** A job as the outbox stores it; `origin` is a history field naming the reminder that caused the job. */
  datatype Job = Job(
    user: nat,
    kind: string,
    channel: Channel,
    eventId: Option<string>,
    payload: Raw,
    status: Status,
    attempts: nat,
    availableAt: Time,
    updatedAt: Time,
    origin: Option<ReminderId>)

  /** A row as the claim returned it to the tick that works on it. */
  datatype Claimed = Claimed(id: JobId, job: Job)

  datatype Phase = Scheduling | Claiming | Working

  /**
   * A live tick: what it claimed and has not yet validated (`rows`), the validated jobs it has still to deal with, and what
   * the channel has answered for the first of them.
   */
  datatype Tick = Tick(
    started: Time,
    phase: Phase,
    leasedUntil: Time,
    rows: seq<Claimed>,
    todo: seq<Claimed>,
    answer: Option<Answer>)

  // ----- History variables: they record, and no step's effect on the tables depends on them -----

  /** What scheduling one reminder caused: with which settings, by which cutoff, and the jobs ever queued for it. */
  datatype Claim = Claim(due: Due, cutoff: Time, scheduled: Time, email: Option<JobId>, push: Option<JobId>)

  /**
   * What happened to a job: its first claim, how often it reached a channel dispatcher, whether an attempt is
   * still without a recorded failure, whether every attempt before the latest ended in one, and whether its channel ever
   * took it.
   */
  datatype Trail = Trail(firstClaim: Option<Time>, dispatches: nat, open: bool, clean: bool, delivered: bool)

  datatype State = State(
    clock: Time,
    reminders: map<ReminderId, Reminder>,
    jobs: map<JobId, Job>,
    ticks: map<TickId, Tick>,
    gone: map<JobId, Job>,
    claims: map<ReminderId, Claim>,
    trails: map<JobId, Trail>)

  /** The job exists in the table, or did until retention removed it. */
  predicate Known(s: State, id: JobId) {
    id in s.jobs || id in s.gone
  }

  /** A job's row: the current one, or the last one before retention removed it. */
  function RowOf(s: State, id: JobId): Job
    requires Known(s, id)
  {
    if id in s.jobs then s.jobs[id] else s.gone[id]
  }

  predicate Fresh(s: State, id: JobId) {
    id !in s.jobs && id !in s.gone && id !in s.trails
  }

  predicate Init(s: State) {
    && s.jobs == map[] && s.gone == map[] && s.trails == map[]
    && s.ticks == map[]
    && s.claims == map[]
  }

  // ----- Row writes -----

  /** The job is among those the tick has claimed and is not done with. */
  predicate Holds(t: Tick, c: Claimed) {
    c in t.rows || c in t.todo
  }

  function InsertJob(s: State, id: JobId, job: Job): State {
    s.(jobs := s.jobs[id := job], trails := s.trails[id := Trail(None, 0, false, true, false)])
  }

  function ReminderJob(user: nat, channel: Channel, eventId: string, payload: Raw, at: Time, origin: Option<ReminderId>): Job {
    Job(user, "event_reminder", channel, Some(eventId), payload, Pending, 0, at, at, origin)
  }

  /** The payload a job's row carries, when it is one the claimer accepts. */
  function Contents(job: Job): Option<Payload> {
    Parse(job.payload)
  }

  /** A push that stands in for the reminder email. */
  predicate StandsInForEmail(job: Job) {
    job.channel.PushChannel? && Contents(job).Some? && Contents(job).value.emailFallback
  }

  /** The event a job is about: an id in a valid payload goes before the column. */
  function JobEventId(job: Job): string {
    if Contents(job).Some? && Contents(job).value.eventId != "" then Contents(job).value.eventId
    else if job.eventId.Some? then job.eventId.value
    else ""
  }

  function JobMinutes(job: Job): I32 {
    if Contents(job).Some? && Contents(job).value.minutesBefore.Some? && InI32(Contents(job).value.minutesBefore.value)
    then Contents(job).value.minutesBefore.value
    else 0
  }

  /** The new row that takes over the email when a stand-in is skipped: untried, due at once, and with no stand-in of its own. */
  function FallbackEmail(job: Job, at: Time): Job {
    var payload := ReminderPayload(JobEventId(job), JobMinutes(job), None, false);
    ReminderJob(job.user, EmailChannel, JobEventId(job), payload, at, job.origin)
  }

  // ----- Scheduling: one transaction turns due reminders into jobs -----

  /** One row of the claim query, with the ids its jobs will get. */
  datatype Picked = Picked(
    rid: ReminderId,
    user: nat,
    dueAt: I64,
    email: bool,
    push: bool,
    hasPushDevice: bool,
    mailsToOwnMailbox: bool,
    emailId: JobId,
    pushId: JobId)

  function DueOf(row: Reminder, p: Picked): Due {
    Due(row.eventId, p.user, row.minutesBefore, p.dueAt, p.email, p.push, p.hasPushDevice, p.mailsToOwnMailbox)
  }

  /** The cutoff of the claim query: now, to the minute. */
  function Cutoff(now: Time): Time {
    now - now % MINUTE
  }

  predicate IsDue(row: Reminder, cutoff: Time) {
    row.time <= cutoff && row.enabled && !row.sent
  }

  predicate CanSchedule(s: State, cutoff: Time, p: Picked) {
    && p.rid in s.reminders
    && IsDue(s.reminders[p.rid], cutoff)
    && Fresh(s, p.emailId) && Fresh(s, p.pushId) && p.emailId != p.pushId
  }

  function ChannelJob(due: Due, channel: Channel, at: Time, rid: ReminderId): Job {
    var fallback := channel == PushChannel && EmailDeferredToPush(due);
    var payload := ReminderPayload(due.eventId, due.minutesBefore, Some(due.dueAt), fallback);
    ReminderJob(due.user, channel, due.eventId, payload, at, Some(rid))
  }

  /** Marks the reminder sent and inserts one job per channel. */
  function ScheduleOne(s: State, cutoff: Time, at: Time, p: Picked): State
    requires p.rid in s.reminders
  {
    var row := s.reminders[p.rid];
    var due := DueOf(row, p);
    var channels := ChannelsFor(due);
    var s1 := s.(reminders := s.reminders[p.rid := row.(sent := true)]);
    var s2 := if EmailChannel in channels then InsertJob(s1, p.emailId, ChannelJob(due, EmailChannel, at, p.rid)) else s1;
    var s3 := if PushChannel in channels then InsertJob(s2, p.pushId, ChannelJob(due, PushChannel, at, p.rid)) else s2;
    s3.(claims := s.claims[p.rid := Claim(
          due, cutoff, row.time,
          if EmailChannel in channels then Some(p.emailId) else None,
          if PushChannel in channels then Some(p.pushId) else None)])
  }

  predicate CanScheduleAll(s: State, cutoff: Time, at: Time, batch: seq<Picked>)
    decreases |batch|
  {
    batch == [] ||
    (CanSchedule(s, cutoff, batch[0]) && CanScheduleAll(ScheduleOne(s, cutoff, at, batch[0]), cutoff, at, batch[1..]))
  }

  function ScheduleAll(s: State, cutoff: Time, at: Time, batch: seq<Picked>): State
    requires CanScheduleAll(s, cutoff, at, batch)
    decreases |batch|
  {
    if batch == [] then s else ScheduleAll(ScheduleOne(s, cutoff, at, batch[0]), cutoff, at, batch[1..])
  }

  // ----- Steps -----

  datatype Step =
    // The clock and the backend
    | Advance(to: Time)
    | AddReminder(rid: ReminderId, row: Reminder)
    | Reschedule(rid: ReminderId, time: Time)
    | RemoveReminder(rid: ReminderId)
    | Enqueue(id: JobId, job: Job)
    // A tick, in the order it runs
    | StartTick(tick: TickId)
    | ClaimDue(tick: TickId, at: Time, batch: seq<Picked>)
    | ClaimDueFails(tick: TickId)
    | ClaimPending(tick: TickId, picked: seq<JobId>)
    | Screen(tick: TickId)
    /** The head job goes to its channel, which answers. */
    | Dispatch(tick: TickId, answer: Answer)
    | MarkSent(tick: TickId, written: bool)
    | MarkFailed(tick: TickId, written: bool)
    | Skip(tick: TickId, at: Time, email: JobId)
    /** The tick returns, fails, is cut off by its timeout, or its process dies. */
    | EndTick(tick: TickId)
    // Retention
    | Retire(ids: set<JobId>)

  predicate IsDuePending(s: State, id: JobId) {
    id in s.jobs && s.jobs[id].status.Pending? && s.jobs[id].availableAt <= s.clock
  }

  /** What the claim statement may return: the oldest due pending jobs, all of them unless there are too many. */
  ghost predicate IsClaim(s: State, picked: seq<JobId>) {
    && |picked| <= CLAIM_LIMIT
    && (forall i, j | 0 <= i < j < |picked| :: picked[i] != picked[j])
    && (forall id | id in picked :: IsDuePending(s, id))
    && (forall id | IsDuePending(s, id) && id !in picked ::
          |picked| == CLAIM_LIMIT && forall p | p in picked :: s.jobs[p].availableAt <= s.jobs[id].availableAt)
  }

  predicate IsWorking(s: State, tick: TickId) {
    tick in s.ticks && s.ticks[tick].phase.Working?
  }

  predicate HasHead(s: State, tick: TickId) {
    IsWorking(s, tick) && s.ticks[tick].rows == [] && s.ticks[tick].todo != []
  }

  function Head(s: State, tick: TickId): Claimed
    requires HasHead(s, tick)
  {
    s.ticks[tick].todo[0]
  }

  /** `dispatch` hands the job to a channel only below the attempt limit and only for a known channel. */
  predicate GoesToChannel(job: Job) {
    job.attempts < MAX_ATTEMPTS && !job.channel.UnknownChannel?
  }

  /** The tick has its answer for the head job: the channel ran, or the job never goes to one. */
  predicate Answered(s: State, tick: TickId) {
    HasHead(s, tick) && (s.ticks[tick].answer.Some? || !GoesToChannel(Head(s, tick).job))
  }

  predicate Expired(job: Job, clock: Time) {
    || (job.status.Sent? && job.updatedAt + SENT_RETENTION < clock)
    || (job.status.Skipped? && job.updatedAt + DEAD_RETENTION < clock)
  }

  ghost predicate Enabled(s: State, step: Step) {
    match step
    case Advance(to) => s.clock <= to && forall t | t in s.ticks :: to <= s.ticks[t].started + TICK_TIMEOUT
    case AddReminder(rid, row) => rid !in s.reminders && rid !in s.claims && !row.sent
    case Reschedule(rid, time) => rid in s.reminders
    case RemoveReminder(rid) => rid in s.reminders
    case Enqueue(id, job) =>
      Fresh(s, id) && job.origin.None? && job.status.Pending? && job.attempts == 0 && job.availableAt <= s.clock
    case StartTick(tick) => tick !in s.ticks
    case ClaimDue(tick, at, batch) =>
      && tick in s.ticks && s.ticks[tick].phase.Scheduling?
      && s.ticks[tick].started <= at <= s.clock
      && |batch| <= DUE_LIMIT
      && CanScheduleAll(s, Cutoff(at), at, batch)
    case ClaimDueFails(tick) => tick in s.ticks && s.ticks[tick].phase.Scheduling?
    case ClaimPending(tick, picked) => tick in s.ticks && s.ticks[tick].phase.Claiming? && IsClaim(s, picked)
    case Screen(tick) => IsWorking(s, tick) && s.ticks[tick].rows != []
    case Dispatch(tick, answer) => HasHead(s, tick) && s.ticks[tick].answer.None? && GoesToChannel(Head(s, tick).job)
    case MarkSent(tick, written) => HasHead(s, tick) && s.ticks[tick].answer == Some(Delivered)
    case MarkFailed(tick, written) => Answered(s, tick) && s.ticks[tick].answer != Some(Delivered)
    case Skip(tick, at, email) =>
      && Answered(s, tick) && (s.ticks[tick].answer.Some? ==> s.ticks[tick].answer.value.GivesUp?)
      && s.ticks[tick].started <= at <= s.clock && Fresh(s, email)
    case EndTick(tick) => tick in s.ticks
    case Retire(ids) => forall id | id in ids :: id in s.jobs && Expired(s.jobs[id], s.clock)
  }

  // ----- Effects -----

  function Leased(job: Job, now: Time): Job {
    job.(attempts := job.attempts + 1, availableAt := now + LEASE, updatedAt := now)
  }

  function Begin(trail: Trail, now: Time): Trail {
    Trail(
      if trail.firstClaim.None? then Some(now) else trail.firstClaim,
      trail.dispatches,
      true,
      trail.clean && !trail.open,
      trail.delivered)
  }

  function DoClaimPending(s: State, tick: TickId, picked: seq<JobId>): State
    requires tick in s.ticks
    requires forall id | id in picked :: id in s.jobs
  {
    var rows := seq(|picked|, i requires 0 <= i < |picked| => Claimed(picked[i], Leased(s.jobs[picked[i]], s.clock)));
    s.(jobs := map id | id in s.jobs :: if id in picked then Leased(s.jobs[id], s.clock) else s.jobs[id],
       trails := map id | id in s.trails :: if id in picked then Begin(s.trails[id], s.clock) else s.trails[id],
       ticks := s.ticks[tick := s.ticks[tick].(phase := Working, leasedUntil := s.clock + LEASE, rows := rows)])
  }

  /** An `UPDATE … WHERE id = $1`: it touches no row when there is none. */
  function Put(s: State, id: JobId, job: Job): State {
    if id in s.jobs then s.(jobs := s.jobs[id := job]) else s
  }

  function WithTick(s: State, tick: TickId, t: Tick): State {
    s.(ticks := s.ticks[tick := t])
  }

  /** The first unread row joins the jobs to send when its payload is valid; otherwise its row is marked skipped. */
  function ScreenWith(s: State, tick: TickId, valid: bool): State
    requires IsWorking(s, tick) && s.ticks[tick].rows != []
  {
    var t := s.ticks[tick];
    var c := t.rows[0];
    if valid then
      WithTick(s, tick, t.(rows := t.rows[1..], todo := t.todo + [c]))
    else
      var s1 := WithTick(s, tick, t.(rows := t.rows[1..]));
      if c.id in s.jobs then Put(s1, c.id, s.jobs[c.id].(status := Skipped, updatedAt := s.clock)) else s1
  }

  function DoScreen(s: State, tick: TickId): State
    requires IsWorking(s, tick) && s.ticks[tick].rows != []
  {
    ScreenWith(s, tick, Contents(s.ticks[tick].rows[0].job).Some?)
  }

  function DoDispatch(s: State, tick: TickId, answer: Answer): State
    requires HasHead(s, tick)
  {
    var id := Head(s, tick).id;
    var s1 := WithTick(s, tick, s.ticks[tick].(answer := Some(answer)));
    if id in s.trails
    then
      var trail := s.trails[id];
      s1.(trails := s.trails[id := trail.(dispatches := trail.dispatches + 1, delivered := trail.delivered || answer.Delivered?)])
    else s1
  }

  /** The tick moves on to its next job. */
  function DropHead(s: State, tick: TickId): State
    requires HasHead(s, tick)
  {
    WithTick(s, tick, s.ticks[tick].(todo := s.ticks[tick].todo[1..], answer := None))
  }

  function DoMarkSent(s: State, tick: TickId, written: bool): State
    requires HasHead(s, tick)
  {
    var id := Head(s, tick).id;
    var s1 := DropHead(s, tick);
    if written && id in s.jobs then Put(s1, id, s.jobs[id].(status := Sent, updatedAt := s.clock)) else s1
  }

  /** The delay written for a failed attempt, in milliseconds. */
  function RetryAfter(attempts: nat): nat {
    var delay := Backoff.RetryDelay(attempts);
    SECOND * (if delay < 1 then 1 else delay)
  }

  function DoMarkFailed(s: State, tick: TickId, written: bool): State
    requires HasHead(s, tick)
  {
    var c := Head(s, tick);
    var s1 := DropHead(s, tick);
    if written && c.id in s.jobs then
      var row := s.jobs[c.id].(status := Pending, availableAt := s.clock + RetryAfter(c.job.attempts), updatedAt := s.clock);
      var s2 := Put(s1, c.id, row);
      if c.id in s.trails then s2.(trails := s.trails[c.id := s.trails[c.id].(open := false)]) else s2
    else s1
  }

  function SkipHead(s: State, tick: TickId, at: Time): State
    requires HasHead(s, tick)
  {
    var id := Head(s, tick).id;
    var s1 := DropHead(s, tick);
    if id in s.jobs then Put(s1, id, s.jobs[id].(status := Skipped, updatedAt := at)) else s1
  }

  /** The reminder the job came from remembers the email queued for it. */
  function NoteEmail(s: State, origin: Option<ReminderId>, email: JobId): State {
    if origin.Some? && origin.value in s.claims
    then s.(claims := s.claims[origin.value := s.claims[origin.value].(email := Some(email))])
    else s
  }

  /** Marks the head job skipped and queues the given email, if any, in the same transaction. */
  function SkipWith(s: State, tick: TickId, at: Time, email: JobId, fallback: Option<Job>): State
    requires HasHead(s, tick)
  {
    var s1 := SkipHead(s, tick, at);
    if fallback.None? then s1
    else NoteEmail(InsertJob(s1, email, fallback.value), Head(s, tick).job.origin, email)
  }

  /** The email a skipped job leaves to be queued: the one it stood in for. */
  function Fallback(job: Job, at: Time): Option<Job> {
    if StandsInForEmail(job) then Some(FallbackEmail(job, at)) else None
  }

  function DoSkip(s: State, tick: TickId, at: Time, email: JobId): State
    requires HasHead(s, tick)
  {
    SkipWith(s, tick, at, email, Fallback(Head(s, tick).job, at))
  }

  function DoRetire(s: State, ids: set<JobId>): State {
    s.(jobs := s.jobs - ids, gone := s.gone + map id | id in ids && id in s.jobs :: s.jobs[id])
  }

  ghost function Apply(s: State, step: Step): State
    requires Enabled(s, step)
  {
    match step
    case Advance(to) => s.(clock := to)
    case AddReminder(rid, row) => s.(reminders := s.reminders[rid := row])
    case Reschedule(rid, time) => s.(reminders := s.reminders[rid := s.reminders[rid].(time := time)])
    case RemoveReminder(rid) => s.(reminders := s.reminders - {rid})
    case Enqueue(id, job) => InsertJob(s, id, job)
    case StartTick(tick) => WithTick(s, tick, Tick(s.clock, Scheduling, 0, [], [], None))
    case ClaimDue(tick, at, batch) =>
      WithTick(ScheduleAll(s, Cutoff(at), at, batch), tick, s.ticks[tick].(phase := Claiming))
    case ClaimDueFails(tick) => WithTick(s, tick, s.ticks[tick].(phase := Claiming))
    case ClaimPending(tick, picked) => DoClaimPending(s, tick, picked)
    case Screen(tick) => DoScreen(s, tick)
    case Dispatch(tick, answer) => DoDispatch(s, tick, answer)
    case MarkSent(tick, written) => DoMarkSent(s, tick, written)
    case MarkFailed(tick, written) => DoMarkFailed(s, tick, written)
    case Skip(tick, at, email) => DoSkip(s, tick, at, email)
    case EndTick(tick) => s.(ticks := s.ticks - {tick})
    case Retire(ids) => DoRetire(s, ids)
  }

  /** What a skip leaves alone, whichever email it queues. */
  lemma SkipLeavesAlone(s: State, tick: TickId, at: Time, email: JobId, fallback: Option<Job>)
    requires HasHead(s, tick)
    ensures var s' := SkipWith(s, tick, at, email, fallback);
            && s'.reminders == s.reminders && s'.clock == s.clock && s'.gone == s.gone
            && s'.ticks == DropHead(s, tick).ticks && s'.claims.Keys == s.claims.Keys
  {
    var s1 := SkipHead(s, tick, at);
    assert s1.ticks == DropHead(s, tick).ticks && s1.claims == s.claims;
    if fallback.Some? {
      var s2 := InsertJob(s1, email, fallback.value);
      assert s2.ticks == s1.ticks && s2.claims == s.claims;
      assert NoteEmail(s2, Head(s, tick).job.origin, email).claims.Keys == s.claims.Keys;
    }
  }

  // ----- Runs -----

  ghost predicate Legal(s: State, run: seq<Step>)
    decreases |run|
  {
    run == [] || (Enabled(s, run[0]) && Legal(Apply(s, run[0]), run[1..]))
  }

  ghost function After(s: State, run: seq<Step>): State
    requires Legal(s, run)
    decreases |run|
  {
    if run == [] then s else After(Apply(s, run[0]), run[1..])
  }

  ghost predicate Reachable(s: State) {
    exists s0: State, run: seq<Step> :: Init(s0) && Legal(s0, run) && After(s0, run) == s
  }

  lemma {:induction false} RunOneMore(s: State, run: seq<Step>, step: Step)
    requires Legal(s, run) && Enabled(After(s, run), step)
    ensures Legal(s, run + [step]) && After(s, run + [step]) == Apply(After(s, run), step)
    decreases |run|
  {
    if run == [] {
      assert run + [step] == [step];
      assert [step][1..] == [];
    } else {
      assert (run + [step])[1..] == run[1..] + [step];
      RunOneMore(Apply(s, run[0]), run[1..], step);
    }
  }

  lemma ReachOneMore(s: State, step: Step)
    requires Reachable(s) && Enabled(s, step)
    ensures Reachable(Apply(s, step))
  {
    var s0: State, run: seq<Step> :| Init(s0) && Legal(s0, run) && After(s0, run) == s;
    RunOneMore(s0, run, step);
  }
}
