/**
 * The reminder email is an obligation that may move between rows: it is queued, or a push stands in for it,
 * and skipping that push queues it.
 */
module Obligation {
  import opened Text
  import opened Payload
  import opened Schedule
  import opened Outbox
  import opened Lease

  // ----- The invariant -----

  /** The columns no statement after the insert writes. */
  ghost predicate SameIdentity(a: Job, b: Job) {
    && a.user == b.user && a.kind == b.kind && a.channel == b.channel && a.eventId == b.eventId
    && a.payload == b.payload && a.origin == b.origin
  }

  ghost predicate IsRowFor(s: State, id: JobId, rid: ReminderId, channel: Channel) {
    Known(s, id) && RowOf(s, id).origin == Some(rid) && RowOf(s, id).channel == channel
  }

  function PushPayload(due: Due): Raw {
    ReminderPayload(due.eventId, due.minutesBefore, Some(due.dueAt), EmailDeferredToPush(due))
  }

  ghost predicate PushSkipped(s: State, c: Claim) {
    c.push.Some? && Known(s, c.push.value) && RowOf(s, c.push.value).status.Skipped?
  }

  ghost predicate ClaimJobs(s: State, rid: ReminderId, c: Claim) {
    && (c.email.Some? ==> IsRowFor(s, c.email.value, rid, EmailChannel))
    && (c.push.Some? ==>
          IsRowFor(s, c.push.value, rid, PushChannel) && RowOf(s, c.push.value).payload == PushPayload(c.due))
  }

  ghost predicate ClaimSettled(s: State, c: Claim) {
    && (c.push.Some? <==> c.due.push && c.due.hasPushDevice)
    && (c.email.Some? <==>
          c.due.email && (EmailDeferredToPush(c.due) ==> ShortEventId(c.due.eventId) && PushSkipped(s, c)))
    && c.scheduled <= c.cutoff <= s.clock
  }

  ghost predicate Traced(s: State, id: JobId)
    requires Known(s, id)
  {
    RowOf(s, id).origin.Some? ==>
      var rid := RowOf(s, id).origin.value;
      rid in s.claims && (s.claims[rid].email == Some(id) || s.claims[rid].push == Some(id))
  }

  ghost predicate ObligationInv(s: State) {
    && (forall rid | rid in s.claims :: ClaimJobs(s, rid, s.claims[rid]) && ClaimSettled(s, s.claims[rid]))
    && (forall id | Known(s, id) :: Traced(s, id))
    && (forall rid | rid in s.reminders && rid in s.claims :: s.reminders[rid].sent)
  }

  // ----- Preservation -----

  ghost predicate SameRow(s: State, s': State, id: JobId)
    requires Known(s, id)
  {
    && Known(s', id)
    && SameIdentity(RowOf(s, id), RowOf(s', id))
    && RowOf(s', id).status == RowOf(s, id).status
  }

  ghost predicate SameReminders(s: State, s': State) {
    forall rid | rid in s'.reminders && rid in s'.claims :: rid in s.reminders && s.reminders[rid].sent == s'.reminders[rid].sent
  }

  /** Steps that change no row's identity or status and schedule nothing. */
  lemma RowsUnchanged(s: State, s': State)
    requires ObligationInv(s) && s'.claims == s.claims && s.clock <= s'.clock && SameReminders(s, s')
    requires forall id | Known(s, id) :: SameRow(s, s', id)
    requires forall id | Known(s', id) :: Known(s, id)
    ensures ObligationInv(s')
  {
    forall rid | rid in s'.claims
      ensures ClaimJobs(s', rid, s'.claims[rid]) && ClaimSettled(s', s'.claims[rid])
    {
      assert ClaimJobs(s, rid, s.claims[rid]) && ClaimSettled(s, s.claims[rid]);
    }
    forall id | Known(s', id)
      ensures Traced(s', id)
    {
      assert Traced(s, id) && SameRow(s, s', id);
    }
  }

  /** A pending row gets another status; if that is `Skipped`, the row did not stand in for an email. */
  lemma StatusChanges(s: State, s': State, id: JobId)
    requires ObligationInv(s) && s'.claims == s.claims && s.clock <= s'.clock && s'.reminders == s.reminders
    requires Known(s, id) && RowOf(s, id).status.Pending?
    requires Known(s', id) && SameIdentity(RowOf(s, id), RowOf(s', id))
    requires RowOf(s', id).status.Skipped? ==> !StandsInForEmail(RowOf(s, id))
    requires forall other | Known(s, other) && other != id :: SameRow(s, s', other)
    requires forall other | Known(s', other) :: Known(s, other)
    ensures ObligationInv(s')
  {
    forall rid | rid in s'.claims
      ensures ClaimJobs(s', rid, s'.claims[rid]) && ClaimSettled(s', s'.claims[rid])
    {
      var c := s.claims[rid];
      assert ClaimJobs(s, rid, c) && ClaimSettled(s, c);
      if c.push == Some(id) {
        StandInPayload(RowOf(s, id), c.due);
      }
    }
    forall other | Known(s', other)
      ensures Traced(s', other)
    {
      assert Traced(s, other);
    }
  }

  /** Which of the scheduler's pushes the claimer reads as standing in for the email. */
  lemma StandInPayload(job: Job, due: Due)
    requires job.payload == PushPayload(due) && job.channel.PushChannel?
    ensures StandsInForEmail(job) <==> EmailDeferredToPush(due) && ShortEventId(due.eventId)
  {
    ReminderRoundTrip(due.eventId, due.minutesBefore, Some(due.dueAt), EmailDeferredToPush(due));
  }

  lemma InsertForeign(s: State, id: JobId, job: Job)
    requires Tables(s) && ObligationInv(s) && Fresh(s, id) && job.origin.None?
    ensures ObligationInv(InsertJob(s, id, job))
  {
    var s' := InsertJob(s, id, job);
    forall rid | rid in s'.claims
      ensures ClaimJobs(s', rid, s'.claims[rid]) && ClaimSettled(s', s'.claims[rid])
    {
      assert ClaimJobs(s, rid, s.claims[rid]) && ClaimSettled(s, s.claims[rid]);
    }
    forall other | Known(s', other)
      ensures Traced(s', other)
    {
      assert other != id ==> Traced(s, other);
    }
  }

  /** One reminder's claim is recorded or changed, and only its own jobs change or appear. */
  lemma ClaimRecorded(s: State, s': State, rid: ReminderId, c: Claim)
    requires ObligationInv(s) && s'.claims == s.claims[rid := c] && s.clock <= s'.clock
    requires forall r | r in s'.reminders && r in s'.claims :: s'.reminders[r].sent
    requires ClaimJobs(s', rid, c) && ClaimSettled(s', c)
    requires forall id | Known(s, id) ::
               && Known(s', id) && SameIdentity(RowOf(s, id), RowOf(s', id))
               && (RowOf(s, id).origin == Some(rid) || RowOf(s', id).status == RowOf(s, id).status)
    requires forall id: JobId | Known(s', id) && RowOf(s', id).origin.Some? ::
               || (RowOf(s', id).origin.value != rid && Known(s, id))
               || (RowOf(s', id).origin.value == rid && (c.email == Some(id) || c.push == Some(id)))
    ensures ObligationInv(s')
  {
    forall r | r in s'.claims
      ensures ClaimJobs(s', r, s'.claims[r]) && ClaimSettled(s', s'.claims[r])
    {
      if r != rid {
        assert ClaimJobs(s, r, s.claims[r]) && ClaimSettled(s, s.claims[r]);
      }
    }
    forall id | Known(s', id)
      ensures Traced(s', id)
    {
      if Known(s, id) {
        assert Traced(s, id);
      }
    }
  }

  /** Scheduling one reminder queues its email or lets the push stand in for it. */
  lemma ScheduleOneKeeps(s: State, cutoff: Time, at: Time, p: Picked)
    requires Tables(s) && ObligationInv(s) && CanSchedule(s, cutoff, p) && cutoff <= s.clock
    ensures ObligationInv(ScheduleOne(s, cutoff, at, p))
  {
    var s' := ScheduleOne(s, cutoff, at, p);
    assert p.rid !in s.claims;
    ScheduledRows(s, cutoff, at, p);
    forall id | Known(s, id)
      ensures RowOf(s, id).origin != Some(p.rid)
    {
      assert Traced(s, id);
    }
    ClaimRecorded(s, s', p.rid, s'.claims[p.rid]);
  }

  /** The rows after scheduling one reminder: the old ones, and the ones its claim records. */
  lemma ScheduledRows(s: State, cutoff: Time, at: Time, p: Picked)
    requires Tables(s) && CanSchedule(s, cutoff, p) && cutoff <= s.clock
    ensures var s' := ScheduleOne(s, cutoff, at, p);
            var c := s'.claims[p.rid];
            && ClaimJobs(s', p.rid, c) && ClaimSettled(s', c)
            && (forall id | Known(s, id) :: Known(s', id) && RowOf(s', id) == RowOf(s, id))
            && (forall id: JobId | Known(s', id) && !Known(s, id) ::
                  RowOf(s', id).origin == Some(p.rid) && (c.email == Some(id) || c.push == Some(id)))
  {
  }

  lemma {:induction false} ScheduleAllKeeps(s: State, cutoff: Time, at: Time, batch: seq<Picked>)
    requires LeaseInv(s) && ObligationInv(s) && CanScheduleAll(s, cutoff, at, batch) && cutoff <= s.clock
    ensures ObligationInv(ScheduleAll(s, cutoff, at, batch))
    decreases |batch|
  {
    if batch != [] {
      ScheduleOneKeeps(s, cutoff, at, batch[0]);
      ScheduleOneKeepsLease(s, cutoff, at, batch[0]);
      ScheduleAllKeeps(ScheduleOne(s, cutoff, at, batch[0]), cutoff, at, batch[1..]);
    }
  }

  lemma ClaimKeeps(s: State, tick: TickId, picked: seq<JobId>)
    requires LeaseInv(s) && ObligationInv(s) && tick in s.ticks && IsClaim(s, picked)
    ensures ObligationInv(DoClaimPending(s, tick, picked))
  {
    RowsUnchanged(s, DoClaimPending(s, tick, picked));
  }

  lemma ScreenKeeps(s: State, tick: TickId, valid: bool)
    requires LeaseInv(s) && ObligationInv(s) && IsWorking(s, tick) && s.ticks[tick].rows != []
    requires !valid ==> !StandsInForEmail(s.ticks[tick].rows[0].job)
    ensures ObligationInv(ScreenWith(s, tick, valid))
  {
    var c := s.ticks[tick].rows[0];
    assert Holds(s.ticks[tick], c);
    assert Current(s, s.ticks[tick], c);
    if valid {
      RowsUnchanged(s, ScreenWith(s, tick, valid));
    } else {
      StatusChanges(s, ScreenWith(s, tick, valid), c.id);
    }
  }

  lemma MarkSentKeeps(s: State, tick: TickId, written: bool)
    requires LeaseInv(s) && ObligationInv(s) && HasHead(s, tick)
    ensures ObligationInv(DoMarkSent(s, tick, written))
  {
    DroppedHead(s, tick);
    StatusChanges(s, DoMarkSent(s, tick, written), Head(s, tick).id);
  }

  lemma MarkFailedKeeps(s: State, tick: TickId, written: bool)
    requires LeaseInv(s) && ObligationInv(s) && HasHead(s, tick)
    ensures ObligationInv(DoMarkFailed(s, tick, written))
  {
    DroppedHead(s, tick);
    StatusChanges(s, DoMarkFailed(s, tick, written), Head(s, tick).id);
  }

  /** The job a stand-in's reminder remembers as its push, before and after the skip. */
  lemma StandInIsThePush(s: State, id: JobId)
    requires Tables(s) && ObligationInv(s) && Known(s, id)
    requires StandsInForEmail(RowOf(s, id)) && RowOf(s, id).origin.Some? && !RowOf(s, id).status.Skipped?
    ensures var rid := RowOf(s, id).origin.value;
            && rid in s.claims && s.claims[rid].push == Some(id) && s.claims[rid].email.None?
            && EmailDeferredToPush(s.claims[rid].due) && ShortEventId(s.claims[rid].due.eventId)
  {
    var rid := RowOf(s, id).origin.value;
    assert Traced(s, id);
    var c := s.claims[rid];
    assert ClaimJobs(s, rid, c) && ClaimSettled(s, c);
    StandInPayload(RowOf(s, id), c.due);
  }

  lemma SkipKeeps(s: State, tick: TickId, at: Time, email: JobId, fallback: Option<Job>)
    requires LeaseInv(s) && ObligationInv(s) && HasHead(s, tick) && Fresh(s, email)
    requires fallback.Some? <==> StandsInForEmail(Head(s, tick).job)
    requires fallback.Some? ==>
               fallback.value.channel.EmailChannel? && fallback.value.origin == Head(s, tick).job.origin
    ensures ObligationInv(SkipWith(s, tick, at, email, fallback))
  {
    DroppedHead(s, tick);
    var c := Head(s, tick);
    var s1 := SkipHead(s, tick, at);
    if fallback.None? {
      StatusChanges(s, s1, c.id);
    } else {
      if c.job.origin.Some? {
        StandInIsThePush(s, c.id);
        OwnSkipQueues(s, tick, at, email, fallback.value);
      } else {
        ForeignSkipQueues(s, tick, at, email, fallback.value);
      }
    }
  }

  /** Skipping a stand-in: the reminder it came from now has its email. */
  lemma OwnSkipQueues(s: State, tick: TickId, at: Time, email: JobId, fallback: Job)
    requires Tables(s) && ObligationInv(s) && HasHead(s, tick) && Fresh(s, email)
    requires Current(s, s.ticks[tick], Head(s, tick)) && Head(s, tick).job.origin.Some?
    requires var rid := Head(s, tick).job.origin.value;
             && rid in s.claims && s.claims[rid].push == Some(Head(s, tick).id) && s.claims[rid].email.None?
             && EmailDeferredToPush(s.claims[rid].due) && ShortEventId(s.claims[rid].due.eventId)
    requires fallback.channel.EmailChannel? && fallback.origin == Head(s, tick).job.origin
    ensures ObligationInv(SkipWith(s, tick, at, email, Some(fallback)))
  {
    var c := Head(s, tick);
    EmailNoted(s, InsertJob(SkipHead(s, tick, at), email, fallback), c.id, c.job.origin.value, email);
  }

  lemma ForeignSkipQueues(s: State, tick: TickId, at: Time, email: JobId, fallback: Job)
    requires Tables(s) && ObligationInv(s) && HasHead(s, tick) && Fresh(s, email)
    requires Current(s, s.ticks[tick], Head(s, tick)) && Head(s, tick).job.origin.None?
    requires fallback.channel.EmailChannel? && fallback.origin.None?
    ensures ObligationInv(SkipWith(s, tick, at, email, Some(fallback)))
  {
    ForeignSkipped(s, SkipHead(s, tick, at), Head(s, tick).id);
    InsertForeign(SkipHead(s, tick, at), email, fallback);
  }

  /** The deferred email moves from its push, now skipped, to a row of its own. */
  lemma EmailNoted(s: State, s2: State, id: JobId, rid: ReminderId, email: JobId)
    requires ObligationInv(s) && Known(s, id) && RowOf(s, id).origin == Some(rid)
    requires rid in s.claims && s.claims[rid].push == Some(id) && s.claims[rid].email.None?
    requires EmailDeferredToPush(s.claims[rid].due) && ShortEventId(s.claims[rid].due.eventId)
    requires s2.claims == s.claims && s2.clock == s.clock && s2.reminders == s.reminders
    requires forall x | Known(s, x) :: Known(s2, x) && SameIdentity(RowOf(s, x), RowOf(s2, x)) && (x == id || RowOf(s2, x) == RowOf(s, x))
    requires RowOf(s2, id).status.Skipped?
    requires !Known(s, email) && Known(s2, email)
    requires RowOf(s2, email).channel.EmailChannel? && RowOf(s2, email).origin == Some(rid)
    requires forall x | Known(s2, x) :: Known(s, x) || x == email
    ensures ObligationInv(NoteEmail(s2, Some(rid), email))
  {
    assert ClaimJobs(s, rid, s.claims[rid]) && ClaimSettled(s, s.claims[rid]);
    forall x | Known(s, x)
      ensures RowOf(s, x).origin == Some(rid) ==> x == id
    {
      assert Traced(s, x);
    }
    ClaimRecorded(s, NoteEmail(s2, Some(rid), email), rid, s.claims[rid].(email := Some(email)));
  }

  /** A row no reminder caused changes status. */
  lemma ForeignSkipped(s: State, s': State, id: JobId)
    requires ObligationInv(s) && s'.claims == s.claims && s.clock <= s'.clock && s'.reminders == s.reminders
    requires Known(s, id) && RowOf(s, id).origin.None?
    requires Known(s', id) && SameIdentity(RowOf(s, id), RowOf(s', id))
    requires forall other | Known(s, other) && other != id :: SameRow(s, s', other)
    requires forall other | Known(s', other) :: Known(s, other)
    ensures ObligationInv(s')
  {
    forall rid | rid in s'.claims
      ensures ClaimJobs(s', rid, s'.claims[rid]) && ClaimSettled(s', s'.claims[rid])
    {
      assert ClaimJobs(s, rid, s.claims[rid]) && ClaimSettled(s, s.claims[rid]);
    }
    forall other | Known(s', other)
      ensures Traced(s', other)
    {
      assert Traced(s, other);
    }
  }

  lemma RetireKeeps(s: State, ids: set<JobId>)
    requires Tables(s) && ObligationInv(s)
    requires forall id | id in ids :: id in s.jobs
    ensures ObligationInv(DoRetire(s, ids))
  {
    RowsUnchanged(s, DoRetire(s, ids));
  }

  lemma ObligationStep(s: State, step: Step)
    requires LeaseInv(s) && ObligationInv(s) && Enabled(s, step)
    ensures ObligationInv(Apply(s, step))
  {
    match step {
      case Advance(to) =>
        RemindersChange(s, to, s.reminders);
      case AddReminder(rid, row) =>
        RemindersChange(s, s.clock, s.reminders[rid := row]);
      case Reschedule(rid, time) =>
        RemindersChange(s, s.clock, s.reminders[rid := s.reminders[rid].(time := time)]);
      case RemoveReminder(rid) =>
        RemindersChange(s, s.clock, s.reminders - {rid});
      case Enqueue(id, job) =>
        InsertForeign(s, id, job);
      case StartTick(tick) =>
        TicksDoNotMatter(s, Apply(s, step).ticks);
      case ClaimDue(tick, at, batch) =>
        ScheduleAllKeeps(s, Cutoff(at), at, batch);
        TicksDoNotMatter(ScheduleAll(s, Cutoff(at), at, batch), Apply(s, step).ticks);
      case ClaimDueFails(tick) =>
        TicksDoNotMatter(s, Apply(s, step).ticks);
      case ClaimPending(tick, picked) =>
        ClaimKeeps(s, tick, picked);
      case Screen(tick) =>
        ScreenKeeps(s, tick, Contents(s.ticks[tick].rows[0].job).Some?);
      case Dispatch(tick, answer) =>
        DispatchKeeps(s, tick, answer);
      case MarkSent(tick, written) =>
        MarkSentKeeps(s, tick, written);
      case MarkFailed(tick, written) =>
        MarkFailedKeeps(s, tick, written);
      case Skip(tick, at, email) =>
        SkipKeeps(s, tick, at, email, Fallback(Head(s, tick).job, at));
      case EndTick(tick) =>
        TicksDoNotMatter(s, Apply(s, step).ticks);
      case Retire(ids) =>
        RetireKeeps(s, ids);
    }
  }

  lemma DispatchKeeps(s: State, tick: TickId, answer: Answer)
    requires ObligationInv(s) && HasHead(s, tick)
    ensures ObligationInv(DoDispatch(s, tick, answer))
  {
    RowsUnchanged(s, DoDispatch(s, tick, answer));
  }

  /** The backend may add, move and delete reminders, but never takes back that one was sent. */
  lemma RemindersChange(s: State, to: Time, reminders: map<ReminderId, Reminder>)
    requires ObligationInv(s) && s.clock <= to
    requires forall rid | rid in reminders && rid in s.claims :: rid in s.reminders && reminders[rid].sent == s.reminders[rid].sent
    ensures ObligationInv(s.(clock := to, reminders := reminders))
  {
    RowsUnchanged(s, s.(clock := to, reminders := reminders));
  }

  lemma TicksDoNotMatter(s: State, ticks: map<TickId, Tick>)
    requires ObligationInv(s)
    ensures ObligationInv(s.(ticks := ticks))
  {
    RowsUnchanged(s, s.(ticks := ticks));
  }

  lemma {:induction false} ObligationRun(s: State, run: seq<Step>)
    requires LeaseInv(s) && ObligationInv(s) && Legal(s, run)
    ensures LeaseInv(After(s, run)) && ObligationInv(After(s, run))
    decreases |run|
  {
    if run != [] {
      LeaseStep(s, run[0]);
      ObligationStep(s, run[0]);
      ObligationRun(Apply(s, run[0]), run[1..]);
    }
  }

  lemma ReachableIsSettled(s: State)
    requires Reachable(s)
    ensures LeaseInv(s) && ObligationInv(s)
  {
    var s0: State, run: seq<Step> :| Init(s0) && Legal(s0, run) && After(s0, run) == s;
    InitHolds(s0);
    ObligationRun(s0, run);
  }

  // ----- The theorems -----

  /** The payload says that the push stands in for the email. */
  predicate Flagged(raw: Raw) {
    && raw.Value? && raw.json.JObject? && "emailFallback" in raw.json.fields
    && raw.json.fields["emailFallback"] == JBool(true)
  }

  /** The email jobs ever queued for the reminder, whatever became of them. */
  function EmailJobs(s: State, rid: ReminderId): set<JobId> {
    set id | id in s.trails && Known(s, id) && RowOf(s, id).origin == Some(rid) && RowOf(s, id).channel.EmailChannel?
  }

  /** The reminder's flagged pushes that are still pending or were sent. */
  function StandIns(s: State, rid: ReminderId): set<JobId> {
    set id | id in s.trails && Known(s, id) && RowOf(s, id).origin == Some(rid) && RowOf(s, id).channel.PushChannel?
             && Flagged(RowOf(s, id).payload) && !RowOf(s, id).status.Skipped?
  }

  /** Exactly one row ever stands for the reminder email: one email job, or one push in its place. */
  ghost predicate Covered(s: State, rid: ReminderId) {
    |EmailJobs(s, rid)| + |StandIns(s, rid)| == 1
  }

  lemma JobsOfClaim(s: State, rid: ReminderId)
    requires Tables(s) && ObligationInv(s) && rid in s.claims
    ensures var c := s.claims[rid];
            && EmailJobs(s, rid) == (if c.email.Some? then {c.email.value} else {})
            && StandIns(s, rid) == (if EmailDeferredToPush(c.due) && !PushSkipped(s, c) then {c.push.value} else {})
  {
    var c := s.claims[rid];
    assert ClaimJobs(s, rid, c) && ClaimSettled(s, c);
    assert Flagged(PushPayload(c.due)) <==> EmailDeferredToPush(c.due);
    forall id: JobId | Known(s, id) && RowOf(s, id).origin == Some(rid)
      ensures c.email == Some(id) || c.push == Some(id)
    {
      assert Traced(s, id);
    }
  }

  /**
   * In every reachable state a scheduled reminder with email enabled is covered exactly once, unless the
   * email was deferred, the event id is longer than a payload may carry, and the claimer has dropped the push.
   */
  lemma EmailObligationConserved(s: State, rid: ReminderId)
    requires Reachable(s) && rid in s.claims
    ensures var c := s.claims[rid];
            && (c.due.email && ShortEventId(c.due.eventId) ==> Covered(s, rid))
            && (c.due.email ==>
                  (Covered(s, rid) <==>
                   (EmailDeferredToPush(c.due) && !ShortEventId(c.due.eventId) ==> !PushSkipped(s, c))))
            && (!c.due.email ==> EmailJobs(s, rid) == {} && StandIns(s, rid) == {})
  {
    ReachableIsSettled(s);
    JobsOfClaim(s, rid);
    var c := s.claims[rid];
    assert ClaimJobs(s, rid, c) && ClaimSettled(s, c);
  }

  /** Skipping a stand-in moves the obligation to a new email job in one step; no later step can move it again. */
  lemma SkipMovesTheObligation(s: State, tick: TickId, at: Time, email: JobId)
    requires Reachable(s) && Enabled(s, Skip(tick, at, email))
    requires StandsInForEmail(Head(s, tick).job) && Head(s, tick).job.origin.Some?
    ensures var rid := Head(s, tick).job.origin.value;
            && EmailJobs(s, rid) == {} && StandIns(s, rid) == {Head(s, tick).id}
            && EmailJobs(DoSkip(s, tick, at, email), rid) == {email}
            && StandIns(DoSkip(s, tick, at, email), rid) == {}
  {
    ReachableIsSettled(s);
    DroppedHead(s, tick);
    var c := Head(s, tick);
    var rid := c.job.origin.value;
    StandInIsThePush(s, c.id);
    JobsOfClaim(s, rid);
    SkippedRows(s, tick, at, email);
    SkipKeeps(s, tick, at, email, Fallback(c.job, at));
    SkipKeepsLease(s, tick, at, email, Fallback(c.job, at));
    JobsOfClaim(DoSkip(s, tick, at, email), rid);
  }

  lemma SkippedRows(s: State, tick: TickId, at: Time, email: JobId)
    requires Tables(s) && HasHead(s, tick) && Fresh(s, email)
    requires Current(s, s.ticks[tick], Head(s, tick))
    requires StandsInForEmail(Head(s, tick).job) && Head(s, tick).job.origin.Some?
    requires Head(s, tick).job.origin.value in s.claims
    ensures var s' := DoSkip(s, tick, at, email);
            var rid := Head(s, tick).job.origin.value;
            && s'.claims == s.claims[rid := s.claims[rid].(email := Some(email))]
            && Known(s', Head(s, tick).id) && RowOf(s', Head(s, tick).id).status.Skipped?
  {
  }

  // ----- Where the obligation is lost -----

  const OWN_MAILBOX: Picked := Picked(0, 0, 0, true, true, true, true, 0, 1)

  function LosingClaim(eventId: string): Claim {
    Claim(Due(eventId, 0, 0, 0, true, true, true, true), 0, 0, None, Some(1))
  }

  /** One reminder of an own-mailbox user has been scheduled and its push is still the row it was inserted as. */
  ghost function DeferredState(eventId: string): State {
    State(0, map[0 := Reminder(eventId, 0, 0, true, true)],
          map[1 := ChannelJob(LosingClaim(eventId).due, PushChannel, 0, 0)],
          map[0 := Tick(0, Claiming, 0, [], [], None)], map[],
          map[0 := LosingClaim(eventId)], map[1 := Trail(None, 0, false, true, false)])
  }

  ghost function ArmedState(eventId: string): State {
    State(0, map[0 := Reminder(eventId, 0, 0, true, false)], map[], map[0 := Tick(0, Scheduling, 0, [], [], None)],
          map[], map[], map[])
  }

  lemma ArmedIsReachable(eventId: string)
    ensures Reachable(ArmedState(eventId))
  {
    var s0 := State(0, map[], map[], map[], map[], map[], map[]);
    assert Init(s0) && Legal(s0, []) && After(s0, []) == s0;
    var add := AddReminder(0, Reminder(eventId, 0, 0, true, false));
    ReachOneMore(s0, add);
    ReachOneMore(Apply(s0, add), StartTick(0));
  }

  lemma DeferredIsReachable(eventId: string)
    ensures Reachable(DeferredState(eventId))
  {
    ArmedIsReachable(eventId);
    var s := ArmedState(eventId);
    assert [OWN_MAILBOX][1..] == [];
    assert CanSchedule(s, 0, OWN_MAILBOX);
    assert ScheduleAll(s, 0, 0, [OWN_MAILBOX]) == ScheduleOne(s, 0, 0, OWN_MAILBOX);
    OwnMailboxDefers(eventId);
    ReachOneMore(s, ClaimDue(0, 0, [OWN_MAILBOX]));
  }

  lemma OwnMailboxDefers(eventId: string)
    ensures var s := ScheduleOne(ArmedState(eventId), 0, 0, OWN_MAILBOX);
            WithTick(s, 0, s.ticks[0].(phase := Claiming)) == DeferredState(eventId)
  {
    assert DueOf(ArmedState(eventId).reminders[0], OWN_MAILBOX) == LosingClaim(eventId).due;
  }

  lemma DeferredIsClaimed(eventId: string)
    ensures Enabled(DeferredState(eventId), ClaimPending(0, [1]))
    ensures var s := DoClaimPending(DeferredState(eventId), 0, [1]);
            && Enabled(s, Screen(0)) && s.ticks[0].rows == [Claimed(1, s.jobs[1])]
            && s.jobs[1].payload == DeferredState(eventId).jobs[1].payload
  {
  }

  lemma ClaimedIsReachable(eventId: string)
    requires !ShortEventId(eventId)
    ensures var s := DoClaimPending(DeferredState(eventId), 0, [1]);
            && Reachable(s) && Enabled(s, Screen(0))
            && s.ticks[0].rows == [Claimed(1, s.jobs[1])] && Contents(s.jobs[1]).None?
  {
    DeferredIsReachable(eventId);
    DeferredIsClaimed(eventId);
    ReachOneMore(DeferredState(eventId), ClaimPending(0, [1]));
    ReminderRoundTrip(eventId, 0, Some(0), true);
  }

  /** For every event id that is too long there is a run in which the deferred email is lost: no row stands for it any more. */
  lemma LongEventIdLosesTheEmail(eventId: string) returns (s: State)
    requires !ShortEventId(eventId)
    ensures Reachable(s) && 0 in s.claims && s.claims[0].due.eventId == eventId && s.claims[0].due.email
    ensures EmailJobs(s, 0) == {} && StandIns(s, 0) == {}
  {
    var claimed := DoClaimPending(DeferredState(eventId), 0, [1]);
    ClaimedIsReachable(eventId);
    ReachOneMore(claimed, Screen(0));
    s := DoScreen(claimed, 0);
    assert PushSkipped(s, s.claims[0]);
    ReachableIsSettled(s);
    JobsOfClaim(s, 0);
  }
}
