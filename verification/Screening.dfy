/** The claimer's check of payloads never drops what the scheduler queued, unless the event id is too long to carry. */
module Screening {
  import opened Text
  import opened Payload
  import opened Schedule
  import opened Outbox
  import opened Lease
  import opened Obligation
  import opened Frames

  // ----- Short ids stay short -----

  lemma {:induction false} TrimStartShortens(s: string)
    ensures ByteLength(TrimStart(s)) <= ByteLength(s)
  {
    if s != [] && IsWhitespace(s[0]) {
      TrimStartShortens(s[1..]);
    }
  }

  lemma {:induction false} TrimEndShortens(s: string)
    ensures ByteLength(TrimEnd(s)) <= ByteLength(s)
  {
    if s != [] && IsWhitespace(s[|s| - 1]) {
      TrimEndShortens(s[..|s| - 1]);
      ByteLengthAppend(s[..|s| - 1], s[|s| - 1..]);
      assert s == s[..|s| - 1] + s[|s| - 1..];
    }
  }

  lemma TrimShortens(s: string)
    ensures ByteLength(Trim(s)) <= ByteLength(s)
  {
    TrimStartShortens(s);
    TrimEndShortens(TrimStart(s));
  }

  lemma ParsedIsShort(raw: Raw)
    requires Parse(raw).Some?
    ensures ByteLength(Parse(raw).value.eventId) <= MAX_OPAQUE_ID_LENGTH
  {
  }

  // ----- Trimming twice is trimming once -----

  lemma {:induction false} TrimEndTrims(s: string)
    ensures TrimEnd(TrimEnd(s)) == TrimEnd(s)
    ensures TrimEnd(s) != [] ==> TrimEnd(s)[0] == s[0]
  {
    if s != [] && IsWhitespace(s[|s| - 1]) {
      TrimEndTrims(s[..|s| - 1]);
    }
  }

  lemma {:induction false} TrimStartTrims(s: string)
    ensures TrimStart(s) != [] ==> !IsWhitespace(TrimStart(s)[0])
  {
    if s != [] && IsWhitespace(s[0]) {
      TrimStartTrims(s[1..]);
    }
  }

  lemma TrimIdempotent(s: string)
    ensures Trim(Trim(s)) == Trim(s)
  {
    TrimStartTrims(s);
    TrimEndTrims(TrimStart(s));
    assert TrimStart(Trim(s)) == Trim(s);
  }

  // ----- What a row says about its reminder -----

  /** The row's payload, and its own event id, say which reminder of which event it is for; a push also when, and whether it stands in. */
  ghost predicate Carries(row: Job, due: Due) {
    && row.eventId.Some? && Trim(row.eventId.value) == Trim(due.eventId)
    && Contents(row).Some?
    && var p := Contents(row).value;
    && p.kind == "event_reminder" && p.eventId == Trim(due.eventId) && p.minutesBefore == Some(due.minutesBefore)
    && (row.channel.PushChannel? ==>
          p.dueAt == Some(due.dueAt) && (p.emailFallback <==> due.email && due.push && due.hasPushDevice && due.mailsToOwnMailbox))
    && (row.channel.EmailChannel? ==> !p.emailFallback)
  }

  lemma ChannelJobCarries(due: Due, channel: Channel, at: Time, rid: ReminderId)
    ensures Contents(ChannelJob(due, channel, at, rid)).Some? <==> ShortEventId(due.eventId)
    ensures ShortEventId(due.eventId) ==> Carries(ChannelJob(due, channel, at, rid), due)
    ensures ChannelJob(due, channel, at, rid).user == due.user && ChannelJob(due, channel, at, rid).kind == "event_reminder"
  {
    ReminderRoundTrip(due.eventId, due.minutesBefore, Some(due.dueAt), channel == PushChannel && EmailDeferredToPush(due));
  }

  /** The email that takes over from a push is about the same reminder. */
  lemma FallbackCarries(job: Job, due: Due, at: Time)
    requires Carries(job, due)
    ensures Carries(FallbackEmail(job, at), due)
  {
    TrimIdempotent(due.eventId);
    ParsedIsShort(job.payload);
    TrimShortens(JobEventId(job));
    ReminderRoundTrip(JobEventId(job), JobMinutes(job), None, false);
  }

  /**
   * A skip queues an email exactly when the job was a push that says it stands in for one. The email is for the same user
   * and event, the id in the payload before the one in the row, and a number of minutes that does not fit reads as none.
   */
  lemma FallbackRepeatsThePush(job: Job, at: Time)
    ensures Fallback(job, at).Some? <==> job.channel.PushChannel? && Contents(job).Some? && Contents(job).value.emailFallback
    ensures Fallback(job, at).Some? ==>
              var email, p := Fallback(job, at).value, Contents(job).value;
              var event := if p.eventId != "" then p.eventId else if job.eventId.Some? then job.eventId.value else "";
              && email.user == job.user && email.channel.EmailChannel? && email.kind == "event_reminder" && email.eventId == Some(event)
              && email.status.Pending? && email.attempts == 0 && email.availableAt == at && email.origin == job.origin
              && (Contents(email).Some? <==> ByteLength(Trim(event)) <= 128)
              && (Contents(email).Some? ==>
                    var q := Contents(email).value;
                    && q.eventId == Trim(event) && q.dueAt.None? && !q.emailFallback && q.minutesBefore.Some?
                    && q.minutesBefore.value == if p.minutesBefore.Some? && -0x8000_0000 <= p.minutesBefore.value < 0x8000_0000
                                                then p.minutesBefore.value else 0)
  {
    ReminderRoundTrip(JobEventId(job), JobMinutes(job), None, false);
  }

  // ----- Every row the scheduler caused -----

  /** The row is for the reminder's user, and the claimer accepts and reads it as that reminder exactly when the id is short. */
  ghost predicate OwnRow(s: State, id: JobId)
    requires Known(s, id)
  {
    var row := RowOf(s, id);
    row.origin.Some? ==>
      && row.origin.value in s.claims
      && var due := s.claims[row.origin.value].due;
      && row.user == due.user && row.kind == "event_reminder"
      && (Contents(row).Some? <==> ShortEventId(due.eventId))
      && (Contents(row).Some? ==> Carries(row, due))
  }

  ghost predicate OwnInv(s: State) {
    forall id | Known(s, id) :: OwnRow(s, id)
  }

  ghost predicate SameDue(s: State, s': State) {
    forall rid | rid in s.claims :: rid in s'.claims && s'.claims[rid].due == s.claims[rid].due
  }

  /** Old rows keep their identity, and the new ones are the scheduler's own or nobody's. */
  lemma RowsCarry(s: State, s': State)
    requires OwnInv(s) && SameDue(s, s')
    requires forall id | Known(s', id) ::
               if Known(s, id) then SameIdentity(RowOf(s, id), RowOf(s', id)) else OwnRow(s', id)
    ensures OwnInv(s')
  {
    forall id | Known(s', id)
      ensures OwnRow(s', id)
    {
      if Known(s, id) {
        assert OwnRow(s, id);
        assert Contents(RowOf(s', id)) == Contents(RowOf(s, id));
      }
    }
  }

  // ----- One step -----

  lemma ScheduleOneOwn(s: State, cutoff: Time, at: Time, p: Picked)
    requires Tables(s) && ObligationInv(s) && OwnInv(s) && CanSchedule(s, cutoff, p)
    ensures OwnInv(ScheduleOne(s, cutoff, at, p))
  {
    var s' := ScheduleOne(s, cutoff, at, p);
    var due := DueOf(s.reminders[p.rid], p);
    assert p.rid !in s.claims;
    assert s'.claims == s.claims[p.rid := s'.claims[p.rid]] && s'.claims[p.rid].due == due;
    ChannelJobCarries(due, EmailChannel, at, p.rid);
    ChannelJobCarries(due, PushChannel, at, p.rid);
    forall id | Known(s', id)
      ensures if Known(s, id) then SameIdentity(RowOf(s, id), RowOf(s', id)) else OwnRow(s', id)
    {
      if Known(s, id) {
        ScheduleElsewhere(s, cutoff, at, p, id);
      } else {
        assert RowOf(s', id) == ChannelJob(due, EmailChannel, at, p.rid) || RowOf(s', id) == ChannelJob(due, PushChannel, at, p.rid);
      }
    }
    RowsCarry(s, s');
  }

  lemma {:induction false} ScheduleAllOwn(s: State, cutoff: Time, at: Time, batch: seq<Picked>)
    requires LeaseInv(s) && ObligationInv(s) && OwnInv(s) && CanScheduleAll(s, cutoff, at, batch) && cutoff <= s.clock
    ensures OwnInv(ScheduleAll(s, cutoff, at, batch))
    decreases |batch|
  {
    if batch != [] {
      ScheduleOneKeeps(s, cutoff, at, batch[0]);
      ScheduleOneKeepsLease(s, cutoff, at, batch[0]);
      ScheduleOneOwn(s, cutoff, at, batch[0]);
      ScheduleAllOwn(ScheduleOne(s, cutoff, at, batch[0]), cutoff, at, batch[1..]);
    }
  }

  lemma SkipHeadOwn(s: State, tick: TickId, at: Time)
    requires OwnInv(s) && HasHead(s, tick)
    ensures OwnInv(SkipHead(s, tick, at))
  {
    RowsCarry(s, SkipHead(s, tick, at));
  }

  lemma InsertOwn(s: State, id: JobId, job: Job)
    requires OwnInv(s) && Fresh(s, id)
    requires job.origin.Some? ==>
               && job.origin.value in s.claims && ShortEventId(s.claims[job.origin.value].due.eventId)
               && Carries(job, s.claims[job.origin.value].due)
               && job.user == s.claims[job.origin.value].due.user && job.kind == "event_reminder"
    ensures OwnInv(InsertJob(s, id, job))
  {
    RowsCarry(s, InsertJob(s, id, job));
  }

  lemma NoteOwn(s: State, origin: Option<ReminderId>, email: JobId)
    requires OwnInv(s)
    ensures OwnInv(NoteEmail(s, origin, email))
  {
    RowsCarry(s, NoteEmail(s, origin, email));
  }

  /** The email a skipped stand-in leaves passes the check as the stand-in did. */
  lemma SkipOwn(s: State, tick: TickId, at: Time, email: JobId, fallback: Option<Job>)
    requires LeaseInv(s) && OwnInv(s) && HasHead(s, tick) && Fresh(s, email)
    requires fallback.Some? ==> Contents(Head(s, tick).job).Some? && fallback.value == FallbackEmail(Head(s, tick).job, at)
    ensures OwnInv(SkipWith(s, tick, at, email, fallback))
  {
    var s1 := SkipHead(s, tick, at);
    SkipHeadOwn(s, tick, at);
    if fallback.Some? {
      var c := Head(s, tick);
      DroppedHead(s, tick);
      assert Known(s, c.id) && RowOf(s, c.id) == c.job && OwnRow(s, c.id);
      assert s1.claims == s.claims && Fresh(s1, email);
      if c.job.origin.Some? {
        FallbackCarries(c.job, s.claims[c.job.origin.value].due, at);
      }
      InsertOwn(s1, email, fallback.value);
      NoteOwn(InsertJob(s1, email, fallback.value), c.job.origin, email);
    }
  }

  lemma ClaimOwn(s: State, tick: TickId, picked: seq<JobId>)
    requires OwnInv(s) && tick in s.ticks && IsClaim(s, picked)
    ensures OwnInv(DoClaimPending(s, tick, picked))
  {
    RowsCarry(s, DoClaimPending(s, tick, picked));
  }

  lemma ScreenOwn(s: State, tick: TickId, valid: bool)
    requires OwnInv(s) && IsWorking(s, tick) && s.ticks[tick].rows != []
    ensures OwnInv(ScreenWith(s, tick, valid))
  {
    var s', id := ScreenWith(s, tick, valid), s.ticks[tick].rows[0].id;
    assert s'.gone == s.gone && s'.claims == s.claims && s'.jobs.Keys == s.jobs.Keys;
    assert forall other | other in s.jobs && other != id :: s'.jobs[other] == s.jobs[other];
    RowsCarry(s, s');
  }

  lemma MarksOwn(s: State, tick: TickId, written: bool)
    requires OwnInv(s) && HasHead(s, tick)
    ensures OwnInv(DoMarkSent(s, tick, written)) && OwnInv(DoMarkFailed(s, tick, written))
  {
    RowsCarry(s, DoMarkSent(s, tick, written));
    RowsCarry(s, DoMarkFailed(s, tick, written));
  }

  lemma RetireOwn(s: State, ids: set<JobId>)
    requires Tables(s) && OwnInv(s)
    ensures OwnInv(DoRetire(s, ids))
  {
    RowsCarry(s, DoRetire(s, ids));
  }

  /** Steps that write no job. */
  lemma SameJobsOwn(s: State, s': State)
    requires OwnInv(s) && s'.jobs == s.jobs && s'.gone == s.gone && s'.claims == s.claims
    ensures OwnInv(s')
  {
    RowsCarry(s, s');
  }

  lemma QuietOwn(s: State, step: Step)
    requires OwnInv(s) && Enabled(s, step)
    requires
      || step.Advance? || step.AddReminder? || step.Reschedule? || step.RemoveReminder?
      || step.StartTick? || step.ClaimDueFails? || step.Dispatch? || step.EndTick?
    ensures OwnInv(Apply(s, step))
  {
    SameJobsOwn(s, Apply(s, step));
  }

  lemma ClaimDueOwn(s: State, tick: TickId, at: Time, batch: seq<Picked>)
    requires LeaseInv(s) && ObligationInv(s) && OwnInv(s) && Enabled(s, ClaimDue(tick, at, batch))
    ensures OwnInv(Apply(s, ClaimDue(tick, at, batch)))
  {
    ScheduleAllOwn(s, Cutoff(at), at, batch);
    SameJobsOwn(ScheduleAll(s, Cutoff(at), at, batch), Apply(s, ClaimDue(tick, at, batch)));
  }

  lemma OwnStep(s: State, step: Step)
    requires LeaseInv(s) && ObligationInv(s) && OwnInv(s) && Enabled(s, step)
    ensures OwnInv(Apply(s, step))
  {
    match step {
      case Enqueue(id, job) => InsertOwn(s, id, job);
      case ClaimDue(tick, at, batch) => ClaimDueOwn(s, tick, at, batch);
      case ClaimPending(tick, picked) => ClaimOwn(s, tick, picked);
      case Screen(tick) => ScreenOwn(s, tick, Contents(s.ticks[tick].rows[0].job).Some?);
      case MarkSent(tick, written) => MarksOwn(s, tick, written);
      case MarkFailed(tick, written) => MarksOwn(s, tick, written);
      case Skip(tick, at, email) => SkipOwn(s, tick, at, email, Fallback(Head(s, tick).job, at));
      case Retire(ids) => RetireOwn(s, ids);
      case _ => QuietOwn(s, step);
    }
  }

  lemma {:induction false} OwnRun(s: State, run: seq<Step>)
    requires LeaseInv(s) && ObligationInv(s) && OwnInv(s) && Legal(s, run)
    ensures OwnInv(After(s, run))
    decreases |run|
  {
    if run != [] {
      LeaseStep(s, run[0]);
      ObligationStep(s, run[0]);
      OwnStep(s, run[0]);
      OwnRun(Apply(s, run[0]), run[1..]);
    }
  }

  /**
   * In every reachable state a job that a reminder caused, the fallback email included, is its user's. The claimer accepts
   * it exactly when the event id is short enough, and then reads the reminder's event, lead and flag from it.
   */
  lemma OwnJobsPassTheScreen(s: State, id: JobId)
    requires Reachable(s) && Known(s, id) && RowOf(s, id).origin.Some?
    ensures var rid := RowOf(s, id).origin.value;
            && rid in s.claims
            && RowOf(s, id).user == s.claims[rid].due.user && RowOf(s, id).kind == "event_reminder"
            && (Contents(RowOf(s, id)).Some? <==> ByteLength(Trim(s.claims[rid].due.eventId)) <= 128)
            && (Contents(RowOf(s, id)).Some? ==> Carries(RowOf(s, id), s.claims[rid].due))
  {
    var s0: State, run: seq<Step> :| Init(s0) && Legal(s0, run) && After(s0, run) == s;
    InitHolds(s0);
    OwnRun(s0, run);
    assert OwnRow(s, id);
  }
}
