/**
 * A push job in the outbox together with the device table its dispatches read and write: devices that are gone do not
 * keep it pending.
 */
module Settling {
  import opened Text
  import opened Outbox
  import opened Lease
  import opened Obligation
  import opened Frames
  import opened Screening
  import opened Push

  const TEST_EVENT_IDS: set<string> := {"test-notification", "manual-test"}

  /** What a dispatch reads of the claimed row. */
  function PushJobOf(job: Job): PushJob {
    var kind := if job.kind == "" && Contents(job).Some? then Contents(job).value.kind else job.kind;
    PushJob(job.user, kind, JobEventId(job) != "", JobEventId(job) in TEST_EVENT_IDS, job.attempts)
  }

  /** A reminder's push is dispatched to its user, as a reminder, under its event, and as a test only for the two test ids. */
  lemma ReminderPushIsItsUsers(s: State, id: JobId)
    requires Reachable(s) && Known(s, id) && RowOf(s, id).origin.Some? && Contents(RowOf(s, id)).Some?
    ensures RowOf(s, id).origin.value in s.claims
    ensures var push, due := PushJobOf(RowOf(s, id)), s.claims[RowOf(s, id).origin.value].due;
            && push.user == due.user && push.kind == "event_reminder" && push.attempts == RowOf(s, id).attempts
            && (Trim(due.eventId) != "" ==>
                  && push.hasEvent
                  && (push.test <==> Trim(due.eventId) == "test-notification" || Trim(due.eventId) == "manual-test"))
  {
    OwnJobsPassTheScreen(s, id);
  }

  /** The answer a tick has got for the job and not yet written, and whether database and devices were as they should be. */
  datatype Asked = Asked(tick: TickId, answer: Answer, fair: bool)

  /** The outbox, the device table, and the claims of the job that came to nothing. */
  datatype Joint = Joint(outbox: State, devices: Devices, asked: Option<Asked>, lost: nat)

  /** The job at issue, and the devices that take it. */
  datatype Case = Case(id: JobId, job: Job, takes: set<string>)

  datatype Event =
    | Elsewhere(step: Step)
    | Shrink(devices: Devices)
    | Ask(tick: TickId, world: World)
    | Write(tick: TickId, at: Time, email: JobId, written: bool, marked: bool)
    | Die(tick: TickId)

  /** What the worker writes for an answer; a skip that fails is marked as a failure. */
  function WriteStep(answer: Answer, tick: TickId, at: Time, email: JobId, written: bool, marked: bool): Step {
    match answer
    case Delivered => Step.MarkSent(tick, written)
    case GivesUp => if written then Step.Skip(tick, at, email) else Step.MarkFailed(tick, marked)
    case Errs => Step.MarkFailed(tick, written)
  }

  /** What the channel answers, given the devices there are. */
  function AnswerTo(j: Joint, tick: TickId, world: World): Answer
    requires HasHead(j.outbox, tick)
  {
    PushAnswer(j.devices, PushJobOf(Head(j.outbox, tick).job), world)
  }

  ghost predicate CanHappen(j: Joint, e: Event, k: Case) {
    match e
    case Elsewhere(step) => Enabled(j.outbox, step) && !Concerns(j.outbox, step, k.id)
    case Shrink(devices) => OnlyShrank(j.devices, devices)
    case Ask(tick, world) =>
      && HasHead(j.outbox, tick) && Head(j.outbox, tick).id == k.id
      && Enabled(j.outbox, Step.Dispatch(tick, AnswerTo(j, tick, world)))
    case Write(tick, at, email, written, marked) =>
      && j.asked.Some? && j.asked.value.tick == tick
      && Enabled(j.outbox, WriteStep(j.asked.value.answer, tick, at, email, written, marked))
    case Die(tick) => tick in j.outbox.ticks && TickHolds(j.outbox.ticks[tick], k.id)
  }

  /** The database answered, and every device the job went to took it or was reported gone. */
  ghost predicate Fair(devices: Devices, job: PushJob, world: World, takes: set<string>) {
    Smoothly(world) && Decided(devices, job, world, takes)
  }

  /** The try has failed for want of devices, so the next one will find fewer. */
  ghost predicate Narrows(asked: Option<Asked>) {
    asked.Some? && asked.value.fair && asked.value.answer.Errs?
  }

  /** A claim that ends without settling the job is lost unless it narrowed the devices. */
  ghost function LostAfter(j: Joint): nat {
    if Narrows(j.asked) then j.lost else j.lost + 1
  }

  ghost function Happen(j: Joint, e: Event, k: Case): Joint
    requires CanHappen(j, e, k)
  {
    match e
    case Elsewhere(step) => j.(outbox := Apply(j.outbox, step))
    case Shrink(devices) => j.(devices := devices)
    case Ask(tick, world) =>
      var job := PushJobOf(Head(j.outbox, tick).job);
      var asked := Asked(tick, AnswerTo(j, tick, world), Fair(j.devices, job, world, k.takes));
      j.(outbox := Apply(j.outbox, Step.Dispatch(tick, AnswerTo(j, tick, world))), devices := TableAfter(j.devices, job, world), asked := Some(asked))
    case Write(tick, at, email, written, marked) =>
      var settled := written && !j.asked.value.answer.Errs?;
      Joint(Apply(j.outbox, WriteStep(j.asked.value.answer, tick, at, email, written, marked)), j.devices, None,
            if settled then j.lost else LostAfter(j))
    case Die(tick) =>
      Joint(Apply(j.outbox, Step.EndTick(tick)), j.devices, None, LostAfter(j))
  }

  // ----- The invariant -----

  /** The row is the job's, whatever became of it. */
  ghost predicate SameJob(row: Job, job: Job) {
    row == job.(status := row.status, attempts := row.attempts, availableAt := row.availableAt, updatedAt := row.updatedAt)
  }

  /** How many tries have narrowed the devices: all claims but those lost and one still under way. */
  ghost predicate Progress(devices: Devices, asked: Option<Asked>, lost: nat, held: bool, attempts: nat, job: PushJob, takes: set<string>) {
    var tries := attempts - lost;
    if asked.Some? || held then
      && 1 <= tries <= 3 && Narrowed(devices, job, takes, tries - 1)
      && (Narrows(asked) ==> tries <= 2 && Narrowed(devices, job, takes, tries))
    else
      0 <= tries <= 2 && Narrowed(devices, job, takes, tries)
  }

  ghost predicate PendingProgress(j: Joint, k: Case) {
    && k.id in j.outbox.jobs
    && Progress(j.devices, j.asked, j.lost, IsHeld(j.outbox, k.id), j.outbox.jobs[k.id].attempts, PushJobOf(k.job), k.takes)
  }

  ghost predicate AskedIsHead(j: Joint, k: Case) {
    j.asked.Some? ==>
      var tick := j.asked.value.tick;
      HasHead(j.outbox, tick) && Head(j.outbox, tick).id == k.id && j.outbox.ticks[tick].answer == Some(j.asked.value.answer)
  }

  ghost predicate SettleInv(j: Joint, k: Case) {
    && Reachable(j.outbox) && LeaseInv(j.outbox)
    && k.job.channel.PushChannel? && Contents(k.job).Some?
    && Known(j.outbox, k.id) && SameJob(RowOf(j.outbox, k.id), k.job) && RowOf(j.outbox, k.id).attempts <= j.lost + 3
    && (RowOf(j.outbox, k.id).status.Pending? ==> PendingProgress(j, k))
    && AskedIsHead(j, k)
  }

  // ----- Steps elsewhere -----

  /** Row, holder and asking tick as before. */
  lemma Carried(j: Joint, k: Case, s': State)
    requires SettleInv(j, k) && Reachable(s') && LeaseInv(s')
    requires RowStays(j.outbox, s', k.id) && HeldAlike(j.outbox, s', k.id)
    requires j.asked.Some? ==>
               var tick := j.asked.value.tick;
               tick in j.outbox.ticks && tick in s'.ticks && s'.ticks[tick] == j.outbox.ticks[tick]
    ensures SettleInv(j.(outbox := s'), k)
  {
    HeldAlikeHeld(j.outbox, s', k.id);
  }

  lemma MissedSettles(j: Joint, k: Case, step: Step)
    requires SettleInv(j, k) && Enabled(j.outbox, step) && Misses(j.outbox, step, k.id)
    requires Reachable(Apply(j.outbox, step)) && LeaseInv(Apply(j.outbox, step))
    ensures SettleInv(j.(outbox := Apply(j.outbox, step)), k)
  {
    RowMissed(j.outbox, step, k.id);
    HeldMissed(j.outbox, step, k.id);
    if j.asked.Some? {
      AskedTickWaits(j.outbox, step, j.asked.value.tick, k.id);
    }
    Carried(j, k, Apply(j.outbox, step));
  }

  /** A claim of the job: one more attempt under way. */
  lemma ClaimSettles(j: Joint, k: Case, tick: TickId, picked: seq<JobId>)
    requires SettleInv(j, k) && Enabled(j.outbox, Step.ClaimPending(tick, picked)) && k.id in picked
    ensures SettleInv(j.(outbox := DoClaimPending(j.outbox, tick, picked)), k)
  {
    var s' := DoClaimPending(j.outbox, tick, picked);
    ReachOneMore(j.outbox, Step.ClaimPending(tick, picked));
    LeaseStep(j.outbox, Step.ClaimPending(tick, picked));
    DueIsFree(j, k, picked);
    ClaimedIsHeld(j.outbox, tick, picked, k.id);
    TriedAgain(j, k, s');
  }

  lemma TriedAgain(j: Joint, k: Case, s': State)
    requires SettleInv(j, k) && Reachable(s') && LeaseInv(s') && j.asked.None? && !IsHeld(j.outbox, k.id) && IsHeld(s', k.id)
    requires k.id in j.outbox.jobs && j.outbox.jobs[k.id].status.Pending?
    requires k.id in s'.jobs && SameJob(s'.jobs[k.id], k.job) && s'.jobs[k.id].attempts == j.outbox.jobs[k.id].attempts + 1
    ensures SettleInv(j.(outbox := s'), k)
  {
    NextTry(j.devices, j.lost, j.outbox.jobs[k.id].attempts, PushJobOf(k.job), k.takes);
  }

  lemma NextTry(devices: Devices, lost: nat, attempts: nat, job: PushJob, takes: set<string>)
    requires Progress(devices, None, lost, false, attempts, job, takes)
    ensures Progress(devices, None, lost, true, attempts + 1, job, takes)
  {
  }

  /** A job that a claim can take is in no tick's hands. */
  lemma DueIsFree(j: Joint, k: Case, picked: seq<JobId>)
    requires SettleInv(j, k) && IsClaim(j.outbox, picked) && k.id in picked
    ensures !IsHeld(j.outbox, k.id) && j.asked.None? && IsDuePending(j.outbox, k.id)
  {
    assert IsDuePending(j.outbox, k.id);
    if IsHeld(j.outbox, k.id) {
      HeldIsPending(j.outbox, k.id);
    }
    if j.asked.Some? {
      HeadIsHeld(j.outbox, j.asked.value.tick);
    }
  }

  /** The job's payload is valid, so its claimed row joins the jobs to send. */
  lemma ScreenSettles(j: Joint, k: Case, tick: TickId)
    requires SettleInv(j, k) && Enabled(j.outbox, Step.Screen(tick)) && j.outbox.ticks[tick].rows[0].id == k.id
    requires Contents(j.outbox.ticks[tick].rows[0].job).Some?
    requires var s' := ScreenWith(j.outbox, tick, true); Reachable(s') && LeaseInv(s')
    ensures SettleInv(j.(outbox := ScreenWith(j.outbox, tick, true)), k)
  {
    var s := j.outbox;
    ScreenElsewhere(s, tick, true, k.id);
    ScreenAlike(s, tick, true, k.id);
    Carried(j, k, ScreenWith(s, tick, true));
  }

  lemma ScreenedRow(j: Joint, k: Case, tick: TickId)
    requires SettleInv(j, k) && Enabled(j.outbox, Step.Screen(tick)) && j.outbox.ticks[tick].rows[0].id == k.id
    ensures Contents(j.outbox.ticks[tick].rows[0].job).Some?
  {
    var t := j.outbox.ticks[tick];
    assert TickInv(j.outbox, t) && Holds(t, t.rows[0]);
    assert Current(j.outbox, t, t.rows[0]);
    assert t.rows[0].job.payload == k.job.payload;
  }

  lemma ElsewhereSettles(j: Joint, k: Case, step: Step)
    requires SettleInv(j, k) && CanHappen(j, Elsewhere(step), k)
    ensures SettleInv(Happen(j, Elsewhere(step), k), k)
  {
    ReachOneMore(j.outbox, step);
    LeaseStep(j.outbox, step);
    if step.ClaimPending? && k.id in step.picked {
      ClaimSettles(j, k, step.tick, step.picked);
    } else if step.Screen? && j.outbox.ticks[step.tick].rows[0].id == k.id {
      ScreenedRow(j, k, step.tick);
      ScreenSettles(j, k, step.tick);
    } else {
      MissedSettles(j, k, step);
    }
  }

  // ----- The job's own dispatches -----

  /** At most one tick has the job, so it asks once and then writes. */
  lemma AskedOnce(j: Joint, k: Case, tick: TickId)
    requires SettleInv(j, k) && HasHead(j.outbox, tick) && Head(j.outbox, tick).id == k.id && j.outbox.ticks[tick].answer.None?
    ensures j.asked.None?
  {
    if j.asked.Some? {
      var other := j.asked.value.tick;
      assert Holds(j.outbox.ticks[tick], Head(j.outbox, tick)) && Holds(j.outbox.ticks[other], Head(j.outbox, other));
    }
  }

  /** The claimed copy and the job differ in nothing a dispatch reads but the attempts. */
  lemma SamePush(row: Job, job: Job)
    requires SameJob(row, job)
    ensures PushJobOf(row) == PushJobOf(job).(attempts := row.attempts)
  {
    assert Contents(row) == Contents(job);
  }

  /** Sending to devices removes some and adds none. */
  lemma SendingOnlyShrinks(devices: Devices, job: PushJob, world: World)
    ensures OnlyShrank(devices, TableAfter(devices, job, world))
  {
  }

  lemma AskNarrows(devices: Devices, k: Case, row: Job, world: World, tries: nat)
    requires SameJob(row, k.job) && 1 <= tries <= 3 && tries <= row.attempts
    requires Narrowed(devices, PushJobOf(k.job), k.takes, tries - 1)
    ensures Narrowed(TableAfter(devices, PushJobOf(row), world), PushJobOf(k.job), k.takes, tries - 1)
    ensures Fair(devices, PushJobOf(row), world, k.takes) && PushAnswer(devices, PushJobOf(row), world).Errs? ==>
              tries <= 2 && Narrowed(TableAfter(devices, PushJobOf(row), world), PushJobOf(k.job), k.takes, tries)
  {
    var job := PushJobOf(row);
    SamePush(row, k.job);
    SendingOnlyShrinks(devices, job, world);
    NarrowedStays(devices, TableAfter(devices, job, world), PushJobOf(k.job), k.takes, tries - 1);
    if Fair(devices, job, world, k.takes) && PushAnswer(devices, job, world).Errs? {
      NarrowedIgnoresAttempts(devices, PushJobOf(k.job), row.attempts, k.takes, tries - 1);
      TryNarrows(devices, job, world, k.takes, tries - 1);
      NarrowedIgnoresAttempts(TableAfter(devices, job, world), job, k.job.attempts, k.takes, tries);
    }
  }

  lemma AskProgress(j: Joint, k: Case, row: Job, tick: TickId, world: World)
    requires SameJob(row, k.job)
    requires Progress(j.devices, None, j.lost, true, row.attempts, PushJobOf(k.job), k.takes)
    ensures var job := PushJobOf(row);
            var asked := Asked(tick, PushAnswer(j.devices, job, world), Fair(j.devices, job, world, k.takes));
            Progress(TableAfter(j.devices, job, world), Some(asked), j.lost, true, row.attempts, PushJobOf(k.job), k.takes)
  {
    AskNarrows(j.devices, k, row, world, row.attempts - j.lost);
  }

  lemma AskSettles(j: Joint, k: Case, tick: TickId, world: World)
    requires SettleInv(j, k) && CanHappen(j, Ask(tick, world), k)
    ensures SettleInv(Happen(j, Ask(tick, world), k), k)
  {
    var s, answer := j.outbox, AnswerTo(j, tick, world);
    ReachOneMore(s, Step.Dispatch(tick, answer));
    LeaseStep(s, Step.Dispatch(tick, answer));
    AskedOnce(j, k, tick);
    HeadIsHeld(s, tick);
    DispatchKeepsRow(s, tick, answer, k.id);
    HeldAlikeHeld(s, DoDispatch(s, tick, answer), k.id);
    AskProgress(j, k, Head(s, tick).job, tick, world);
  }

  /** Sent or skipped: nothing more is asked of the job. */
  lemma DoneSettles(j: Joint, k: Case, s': State)
    requires SettleInv(j, k) && Reachable(s') && LeaseInv(s')
    requires Known(s', k.id) && SameJob(RowOf(s', k.id), k.job) && RowOf(s', k.id).attempts <= j.lost + 3
    requires !RowOf(s', k.id).status.Pending?
    ensures SettleInv(j.(outbox := s', asked := None), k)
  {
  }

  /** The job is pending again and nobody has it: the try narrowed the devices, or the claim is lost. */
  lemma GivenUpSettles(j: Joint, k: Case, s': State)
    requires SettleInv(j, k) && Reachable(s') && LeaseInv(s') && IsHeld(j.outbox, k.id)
    requires k.id in s'.jobs && SameJob(s'.jobs[k.id], k.job) && s'.jobs[k.id].status.Pending? && !IsHeld(s', k.id)
    requires s'.jobs[k.id].attempts == RowOf(j.outbox, k.id).attempts
    ensures SettleInv(Joint(s', j.devices, None, LostAfter(j)), k)
  {
    HeldIsPending(j.outbox, k.id);
  }

  lemma FailSettles(j: Joint, k: Case, tick: TickId, marked: bool)
    requires SettleInv(j, k) && j.asked.Some? && j.asked.value.tick == tick && Enabled(j.outbox, Step.MarkFailed(tick, marked))
    ensures SettleInv(Joint(DoMarkFailed(j.outbox, tick, marked), j.devices, None, LostAfter(j)), k)
  {
    ReachOneMore(j.outbox, Step.MarkFailed(tick, marked));
    LeaseStep(j.outbox, Step.MarkFailed(tick, marked));
    HeadIsHeld(j.outbox, tick);
    LetsGo(j.outbox, DoMarkFailed(j.outbox, tick, marked), tick);
    GivenUpSettles(j, k, DoMarkFailed(j.outbox, tick, marked));
  }

  lemma SentSettles(j: Joint, k: Case, tick: TickId, written: bool)
    requires SettleInv(j, k) && j.asked.Some? && j.asked.value.tick == tick && j.asked.value.answer.Delivered?
    requires Enabled(j.outbox, Step.MarkSent(tick, written))
    ensures SettleInv(Joint(DoMarkSent(j.outbox, tick, written), j.devices, None, if written then j.lost else j.lost + 1), k)
  {
    ReachOneMore(j.outbox, Step.MarkSent(tick, written));
    LeaseStep(j.outbox, Step.MarkSent(tick, written));
    HeadIsHeld(j.outbox, tick);
    if written {
      DoneSettles(j, k, DoMarkSent(j.outbox, tick, true));
    } else {
      LetsGo(j.outbox, DoMarkSent(j.outbox, tick, false), tick);
      GivenUpSettles(j, k, DoMarkSent(j.outbox, tick, false));
    }
  }

  lemma SkipSettles(j: Joint, k: Case, tick: TickId, at: Time, email: JobId)
    requires SettleInv(j, k) && j.asked.Some? && j.asked.value.tick == tick && Enabled(j.outbox, Step.Skip(tick, at, email))
    ensures SettleInv(Joint(DoSkip(j.outbox, tick, at, email), j.devices, None, j.lost), k)
  {
    ReachOneMore(j.outbox, Step.Skip(tick, at, email));
    LeaseStep(j.outbox, Step.Skip(tick, at, email));
    HeadIsHeld(j.outbox, tick);
    SkipWrites(j.outbox, tick, at, email, Fallback(Head(j.outbox, tick).job, at));
    DoneSettles(j, k, DoSkip(j.outbox, tick, at, email));
  }

  lemma FailureIs(j: Joint, k: Case, e: Event)
    requires e.Write? && CanHappen(j, e, k) && (j.asked.value.answer.Errs? || (j.asked.value.answer.GivesUp? && !e.written))
    ensures var marked := if j.asked.value.answer.Errs? then e.written else e.marked;
            && Enabled(j.outbox, Step.MarkFailed(e.tick, marked))
            && Happen(j, e, k) == Joint(DoMarkFailed(j.outbox, e.tick, marked), j.devices, None, LostAfter(j))
  {
  }

  lemma SendIs(j: Joint, k: Case, e: Event)
    requires e.Write? && CanHappen(j, e, k) && j.asked.value.answer.Delivered?
    ensures Enabled(j.outbox, Step.MarkSent(e.tick, e.written))
    ensures Happen(j, e, k) == Joint(DoMarkSent(j.outbox, e.tick, e.written), j.devices, None, if e.written then j.lost else j.lost + 1)
  {
  }

  lemma SkipIs(j: Joint, k: Case, e: Event)
    requires e.Write? && CanHappen(j, e, k) && j.asked.value.answer.GivesUp? && e.written
    ensures Enabled(j.outbox, Step.Skip(e.tick, e.at, e.email))
    ensures Happen(j, e, k) == Joint(DoSkip(j.outbox, e.tick, e.at, e.email), j.devices, None, j.lost)
  {
  }

  lemma WriteSettles(j: Joint, k: Case, e: Event, j': Joint)
    requires SettleInv(j, k) && e.Write? && CanHappen(j, e, k) && j' == Happen(j, e, k)
    ensures SettleInv(j', k)
  {
    var answer := j.asked.value.answer;
    if answer.Delivered? {
      SendIs(j, k, e);
      SentSettles(j, k, e.tick, e.written);
    } else if answer.GivesUp? && e.written {
      SkipIs(j, k, e);
      SkipSettles(j, k, e.tick, e.at, e.email);
    } else {
      FailureIs(j, k, e);
      FailSettles(j, k, e.tick, if answer.Errs? then e.written else e.marked);
    }
  }

  lemma DieSettles(j: Joint, k: Case, tick: TickId)
    requires SettleInv(j, k) && CanHappen(j, Die(tick), k)
    ensures SettleInv(Happen(j, Die(tick), k), k)
  {
    ReachOneMore(j.outbox, Step.EndTick(tick));
    LeaseStep(j.outbox, Step.EndTick(tick));
    assert IsHeld(j.outbox, k.id);
    HeldIsPending(j.outbox, k.id);
    DeadLetsGo(j.outbox, tick, k.id);
    GivenUpSettles(j, k, j.outbox.(ticks := j.outbox.ticks - {tick}));
  }

  lemma ShrinkSettles(j: Joint, k: Case, devices: Devices)
    requires SettleInv(j, k) && OnlyShrank(j.devices, devices)
    ensures SettleInv(j.(devices := devices), k)
  {
    var row := RowOf(j.outbox, k.id);
    var job, tries := PushJobOf(k.job), row.attempts - j.lost;
    if row.status.Pending? {
      if tries >= 1 && Narrowed(j.devices, job, k.takes, tries - 1) {
        NarrowedStays(j.devices, devices, job, k.takes, tries - 1);
      }
      if Narrowed(j.devices, job, k.takes, tries) {
        NarrowedStays(j.devices, devices, job, k.takes, tries);
      }
    }
  }

  // ----- Runs -----

  ghost predicate CanHappenAll(j: Joint, events: seq<Event>, k: Case)
    decreases |events|
  {
    events == [] || (CanHappen(j, events[0], k) && CanHappenAll(Happen(j, events[0], k), events[1..], k))
  }

  ghost function HappenAll(j: Joint, events: seq<Event>, k: Case): Joint
    requires CanHappenAll(j, events, k)
    decreases |events|
  {
    if events == [] then j else HappenAll(Happen(j, events[0], k), events[1..], k)
  }

  lemma {:induction false} SettleRun(j: Joint, events: seq<Event>, k: Case)
    requires SettleInv(j, k) && CanHappenAll(j, events, k)
    ensures SettleInv(HappenAll(j, events, k), k)
    decreases |events|
  {
    if events != [] {
      match events[0] {
        case Elsewhere(step) => ElsewhereSettles(j, k, step);
        case Shrink(devices) => ShrinkSettles(j, k, devices);
        case Ask(tick, world) => AskSettles(j, k, tick, world);
        case Write(_, _, _, _, _) => WriteSettles(j, k, events[0], Happen(j, events[0], k));
        case Die(tick) => DieSettles(j, k, tick);
      }
      SettleRun(Happen(j, events[0], k), events[1..], k);
    }
  }

  /** The email of a skipped stand-in is queued, once. */
  lemma SkippedStandInHasItsEmail(s: State, id: JobId)
    requires Reachable(s) && Known(s, id) && StandsInForEmail(RowOf(s, id)) && RowOf(s, id).status.Skipped?
    requires RowOf(s, id).origin.Some?
    ensures |EmailJobs(s, RowOf(s, id).origin.value)| == 1
  {
    ReachableIsSettled(s);
    assert Traced(s, id);
    var rid := RowOf(s, id).origin.value;
    var c := s.claims[rid];
    assert ClaimJobs(s, rid, c) && ClaimSettled(s, c);
    StandInPayload(RowOf(s, id), c.due);
    JobsOfClaim(s, rid);
  }

  /**
   * A push job that has not been claimed yet, and none of whose devices is added while it waits, in every interleaving
   * with everything else the worker does. A claim comes to nothing if its tick dies, the database fails it, or a device
   * neither takes the push nor is reported gone. The others number at most three: once the third was worked off the job
   * is sent or skipped, and if it stood in for an email and was skipped, that email is queued.
   */
  lemma GoneDevicesSettleThePush(j: Joint, events: seq<Event>, k: Case)
    requires Reachable(j.outbox) && k.id in j.outbox.jobs && j.outbox.jobs[k.id] == k.job && j.asked.None? && j.lost == 0
    requires k.job.channel.PushChannel? && Contents(k.job).Some? && k.job.status.Pending? && k.job.attempts == 0
    requires CanHappenAll(j, events, k)
    ensures var s, lost := HappenAll(j, events, k).outbox, HappenAll(j, events, k).lost;
            && Known(s, k.id) && RowOf(s, k.id).attempts <= lost + 3
            && (RowOf(s, k.id).attempts == lost + 3 && !IsHeld(s, k.id) ==> !RowOf(s, k.id).status.Pending?)
            && (RowOf(s, k.id).status.Skipped? && StandsInForEmail(k.job) && k.job.origin.Some? ==>
                  |EmailJobs(s, k.job.origin.value)| == 1)
  {
    ReachableHasLease(j.outbox);
    if IsHeld(j.outbox, k.id) {
      HeldIsPending(j.outbox, k.id);
    }
    assert SettleInv(j, k);
    SettleRun(j, events, k);
    var end := HappenAll(j, events, k);
    if end.asked.Some? {
      HeadIsHeld(end.outbox, end.asked.value.tick);
    }
    var row := RowOf(end.outbox, k.id);
    if row.status.Skipped? && StandsInForEmail(k.job) && k.job.origin.Some? {
      assert Contents(row) == Contents(k.job);
      SkippedStandInHasItsEmail(end.outbox, k.id);
    }
  }
}
