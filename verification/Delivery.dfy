/** A job is marked sent only if its channel took it, and one that always fails is tried exactly seven times. */
module Delivery {
  import opened Text
  import opened Outbox
  import opened Lease
  import opened Attempts
  import opened Staging
  import opened Frames

  // ----- What channels answered -----

  /** The step hands the job to its channel, and the channel takes it. */
  ghost predicate Delivers(s: State, step: Step, id: JobId)
    requires Enabled(s, step)
  {
    step.Dispatch? && step.answer.Delivered? && Head(s, step.tick).id == id
  }

  /** Some step of the run delivers the job. */
  ghost predicate DeliveredIn(s: State, run: seq<Step>, id: JobId)
    requires Legal(s, run)
    decreases |run|
  {
    run != [] && (Delivers(s, run[0], id) || DeliveredIn(Apply(s, run[0]), run[1..], id))
  }

  ghost predicate Took(s: State, id: JobId) {
    id in s.trails && s.trails[id].delivered
  }

  // ----- History follows the steps -----

  lemma ScheduleOneTakesNothing(s: State, cutoff: Time, at: Time, p: Picked, id: JobId)
    requires CanSchedule(s, cutoff, p)
    ensures Took(ScheduleOne(s, cutoff, at, p), id) <==> Took(s, id)
  {
  }

  lemma {:induction false} BatchTakesNothing(s: State, cutoff: Time, at: Time, batch: seq<Picked>, id: JobId)
    requires CanScheduleAll(s, cutoff, at, batch)
    ensures Took(ScheduleAll(s, cutoff, at, batch), id) <==> Took(s, id)
    decreases |batch|
  {
    if batch != [] {
      ScheduleOneTakesNothing(s, cutoff, at, batch[0], id);
      BatchTakesNothing(ScheduleOne(s, cutoff, at, batch[0]), cutoff, at, batch[1..], id);
    }
  }

  lemma SkipTakesNothing(s: State, tick: TickId, at: Time, email: JobId, fallback: Option<Job>, id: JobId)
    requires HasHead(s, tick) && Fresh(s, email)
    ensures Took(SkipWith(s, tick, at, email, fallback), id) <==> Took(s, id)
  {
    var s1 := SkipHead(s, tick, at);
    assert Took(s1, id) <==> Took(s, id);
  }

  lemma MarksTakeNothing(s: State, tick: TickId, written: bool, id: JobId)
    requires HasHead(s, tick)
    ensures Took(DoMarkSent(s, tick, written), id) <==> Took(s, id)
    ensures Took(DoMarkFailed(s, tick, written), id) <==> Took(s, id)
  {
  }

  lemma ClaimTakesNothing(s: State, tick: TickId, picked: seq<JobId>, id: JobId)
    requires tick in s.ticks && forall x | x in picked :: x in s.jobs
    ensures Took(DoClaimPending(s, tick, picked), id) <==> Took(s, id)
  {
  }

  lemma TookStep(s: State, step: Step, id: JobId)
    requires Enabled(s, step) && (step.Dispatch? ==> Head(s, step.tick).id in s.trails)
    ensures Took(Apply(s, step), id) <==> Took(s, id) || Delivers(s, step, id)
  {
    match step {
      case ClaimDue(tick, at, batch) => BatchTakesNothing(s, Cutoff(at), at, batch, id);
      case ClaimPending(tick, picked) => ClaimTakesNothing(s, tick, picked, id);
      case Skip(tick, at, email) => SkipTakesNothing(s, tick, at, email, Fallback(Head(s, tick).job, at), id);
      case MarkSent(tick, written) => MarksTakeNothing(s, tick, written, id);
      case MarkFailed(tick, written) => MarksTakeNothing(s, tick, written, id);
      case _ =>
    }
  }

  // ----- Sent rows were delivered -----

  ghost predicate SentInv(s: State) {
    && (forall id | Known(s, id) && RowOf(s, id).status.Sent? :: Took(s, id))
    && (forall t | HasHead(s, t) && s.ticks[t].answer == Some(Delivered) :: Took(s, Head(s, t).id))
  }

  lemma MarkSentMarks(s: State, tick: TickId, written: bool, id: JobId)
    requires HasHead(s, tick) && Known(DoMarkSent(s, tick, written), id) && RowOf(DoMarkSent(s, tick, written), id).status.Sent?
    ensures Known(s, id) && (RowOf(s, id).status.Sent? || Head(s, tick).id == id)
  {
  }

  lemma MarkFailedMarksNothing(s: State, tick: TickId, written: bool, id: JobId)
    requires HasHead(s, tick) && Known(DoMarkFailed(s, tick, written), id) && RowOf(DoMarkFailed(s, tick, written), id).status.Sent?
    ensures Known(s, id) && RowOf(s, id).status.Sent?
  {
  }

  lemma SkipMarksNothing(s: State, tick: TickId, at: Time, email: JobId, fallback: Option<Job>, id: JobId)
    requires HasHead(s, tick) && Fresh(s, email) && (fallback.Some? ==> fallback.value.status.Pending?)
    requires Known(SkipWith(s, tick, at, email, fallback), id) && RowOf(SkipWith(s, tick, at, email, fallback), id).status.Sent?
    ensures Known(s, id) && RowOf(s, id).status.Sent?
  {
    var s1 := SkipHead(s, tick, at);
    assert Known(s1, id) && RowOf(s1, id).status.Sent? ==> Known(s, id) && RowOf(s, id).status.Sent?;
  }

  lemma ScreenMarksNothing(s: State, tick: TickId, valid: bool, id: JobId)
    requires IsWorking(s, tick) && s.ticks[tick].rows != []
    requires Known(ScreenWith(s, tick, valid), id) && RowOf(ScreenWith(s, tick, valid), id).status.Sent?
    ensures Known(s, id) && RowOf(s, id).status.Sent?
  {
  }

  lemma {:induction false} BatchMarksNothing(s: State, cutoff: Time, at: Time, batch: seq<Picked>, id: JobId)
    requires CanScheduleAll(s, cutoff, at, batch)
    requires Known(ScheduleAll(s, cutoff, at, batch), id) && RowOf(ScheduleAll(s, cutoff, at, batch), id).status.Sent?
    ensures Known(s, id) && RowOf(s, id).status.Sent?
    decreases |batch|
  {
    if batch != [] {
      BatchMarksNothing(ScheduleOne(s, cutoff, at, batch[0]), cutoff, at, batch[1..], id);
      ScheduleMarksNothing(s, cutoff, at, batch[0], id);
    }
  }

  lemma ScheduleMarksNothing(s: State, cutoff: Time, at: Time, p: Picked, id: JobId)
    requires CanSchedule(s, cutoff, p)
    requires Known(ScheduleOne(s, cutoff, at, p), id) && RowOf(ScheduleOne(s, cutoff, at, p), id).status.Sent?
    ensures Known(s, id) && RowOf(s, id).status.Sent?
  {
  }

  /** Only the mark of a delivered job makes a row sent. */
  lemma SentStep(s: State, step: Step, id: JobId)
    requires Tables(s) && Enabled(s, step) && Known(Apply(s, step), id) && RowOf(Apply(s, step), id).status.Sent?
    ensures Known(s, id)
    ensures RowOf(s, id).status.Sent? || (step.MarkSent? && Head(s, step.tick).id == id)
  {
    match step {
      case ClaimDue(tick, at, batch) => BatchMarksNothing(s, Cutoff(at), at, batch, id);
      case Screen(tick) => ScreenMarksNothing(s, tick, Contents(s.ticks[tick].rows[0].job).Some?, id);
      case MarkSent(tick, written) => MarkSentMarks(s, tick, written, id);
      case MarkFailed(tick, written) => MarkFailedMarksNothing(s, tick, written, id);
      case Skip(tick, at, email) => SkipMarksNothing(s, tick, at, email, Fallback(Head(s, tick).job, at), id);
      case _ =>
    }
  }

  ghost predicate AnswerKept(s: State, s': State, t: TickId) {
    HasHead(s', t) && s'.ticks[t].answer.Some? ==> HasHead(s, t) && s'.ticks[t] == s.ticks[t]
  }

  lemma ScreenKeepsAnswers(s: State, tick: TickId, valid: bool, t: TickId)
    requires LeaseInv(s) && IsWorking(s, tick) && s.ticks[tick].rows != []
    ensures AnswerKept(s, ScreenWith(s, tick, valid), t)
  {
    assert TickInv(s, s.ticks[tick]);
  }

  lemma ClaimKeepsAnswers(s: State, tick: TickId, picked: seq<JobId>, t: TickId)
    requires LeaseInv(s) && tick in s.ticks && s.ticks[tick].phase.Claiming? && IsClaim(s, picked)
    ensures AnswerKept(s, DoClaimPending(s, tick, picked), t)
  {
    assert TickInv(s, s.ticks[tick]);
  }

  lemma DropKeepsAnswers(s: State, s': State, tick: TickId, t: TickId)
    requires HasHead(s, tick) && s'.ticks == DropHead(s, tick).ticks
    ensures AnswerKept(s, s', t)
  {
  }

  lemma PhaseKeepsAnswers(s: State, s': State, tick: TickId, t: TickId)
    requires tick in s.ticks && s'.ticks == s.ticks[tick := s.ticks[tick].(phase := Claiming)]
    ensures AnswerKept(s, s', t)
  {
  }

  lemma HeadKeepsAnswers(s: State, step: Step, t: TickId)
    requires Enabled(s, step) && (step.MarkSent? || step.MarkFailed? || step.Skip?)
    ensures AnswerKept(s, Apply(s, step), t)
  {
    match step {
      case MarkSent(tick, written) => DropKeepsAnswers(s, DoMarkSent(s, tick, written), tick, t);
      case MarkFailed(tick, written) => DropKeepsAnswers(s, DoMarkFailed(s, tick, written), tick, t);
      case Skip(tick, at, email) =>
        SkipLeavesAlone(s, tick, at, email, Fallback(Head(s, tick).job, at));
        DropKeepsAnswers(s, DoSkip(s, tick, at, email), tick, t);
    }
  }

  lemma ClaimsKeepAnswers(s: State, step: Step, t: TickId)
    requires LeaseInv(s) && Enabled(s, step) && (step.ClaimDue? || step.ClaimDueFails? || step.ClaimPending?)
    ensures AnswerKept(s, Apply(s, step), t)
  {
    match step {
      case ClaimDue(tick, at, batch) =>
        BatchKeepsTicks(s, Cutoff(at), at, batch);
        PhaseKeepsAnswers(s, Apply(s, step), tick, t);
      case ClaimDueFails(tick) => PhaseKeepsAnswers(s, Apply(s, step), tick, t);
      case ClaimPending(tick, picked) => ClaimKeepsAnswers(s, tick, picked, t);
    }
  }

  /** A tick has an answer only from the step that asked. */
  lemma AnswerStep(s: State, step: Step, t: TickId)
    requires LeaseInv(s) && Enabled(s, step)
    ensures AnswerKept(s, Apply(s, step), t) || (step.Dispatch? && step.tick == t)
  {
    if step.MarkSent? || step.MarkFailed? || step.Skip? {
      HeadKeepsAnswers(s, step, t);
    } else if step.ClaimDue? || step.ClaimDueFails? || step.ClaimPending? {
      ClaimsKeepAnswers(s, step, t);
    } else if step.Screen? {
      ScreenKeepsAnswers(s, step.tick, Contents(s.ticks[step.tick].rows[0].job).Some?, t);
    }
  }

  lemma SentInvStep(s: State, step: Step)
    requires LeaseInv(s) && SentInv(s) && Enabled(s, step)
    ensures SentInv(Apply(s, step))
  {
    if step.Dispatch? {
      HeadIsHeld(s, step.tick);
    }
    forall id | Known(Apply(s, step), id) && RowOf(Apply(s, step), id).status.Sent?
      ensures Took(Apply(s, step), id)
    {
      SentStep(s, step, id);
      TookStep(s, step, id);
    }
    forall t | HasHead(Apply(s, step), t) && Apply(s, step).ticks[t].answer == Some(Delivered)
      ensures Took(Apply(s, step), Head(Apply(s, step), t).id)
    {
      AnswerStep(s, step, t);
      TookStep(s, step, Head(Apply(s, step), t).id);
    }
  }

  lemma {:induction false} TookRun(s: State, run: seq<Step>, id: JobId)
    requires LeaseInv(s) && SentInv(s) && Legal(s, run)
    ensures SentInv(After(s, run))
    ensures Took(After(s, run), id) <==> Took(s, id) || DeliveredIn(s, run, id)
    decreases |run|
  {
    if run != [] {
      if run[0].Dispatch? {
        HeadIsHeld(s, run[0].tick);
      }
      LeaseStep(s, run[0]);
      SentInvStep(s, run[0]);
      TookStep(s, run[0], id);
      TookRun(Apply(s, run[0]), run[1..], id);
    }
  }

  /** In every run a job is marked sent only if some step handed it to its channel and the channel took it. */
  lemma SentWasDelivered(s: State, run: seq<Step>, id: JobId)
    requires Init(s) && Legal(s, run) && Known(After(s, run), id) && RowOf(After(s, run), id).status.Sent?
    ensures DeliveredIn(s, run, id)
  {
    InitHolds(s);
    TookRun(s, run, id);
  }

  // ----- A job that always fails -----

  /** The channel refuses the job whenever it is asked, no tick dies over it, and its writes succeed. */
  ghost predicate Fails(s: State, step: Step, id: JobId)
    requires Enabled(s, step)
  {
    match step
    case Dispatch(tick, answer) => Head(s, tick).id == id ==> answer.Errs?
    case MarkFailed(tick, written) => Head(s, tick).id == id ==> written && GoesToChannel(Head(s, tick).job)
    case EndTick(tick) => !TickHolds(s.ticks[tick], id)
    case _ => true
  }

  ghost predicate FailsThroughout(s: State, run: seq<Step>, id: JobId)
    requires Legal(s, run)
    decreases |run|
  {
    run == [] || (Fails(s, run[0], id) && FailsThroughout(Apply(s, run[0]), run[1..], id))
  }

  /** How often the job is claimed. */
  function ClaimsOf(run: seq<Step>, id: JobId): nat {
    if run == [] then 0 else (if run[0].ClaimPending? && id in run[0].picked then 1 else 0) + ClaimsOf(run[1..], id)
  }

  /** A tick has asked the channel for the job. */
  ghost predicate AskedFor(s: State, id: JobId) {
    exists t :: HasHead(s, t) && Head(s, t).id == id && s.ticks[t].answer.Some?
  }

  ghost predicate OnlyFailures(s: State, id: JobId) {
    forall t | HasHead(s, t) && Head(s, t).id == id && s.ticks[t].answer.Some? :: s.ticks[t].answer == Some(Errs)
  }

  /** After `n` claims that all failed: where the job is, and how often its channel was asked. */
  ghost predicate Tried(s: State, id: JobId, n: nat) {
    && LeaseInv(s) && AttemptInv(s) && Known(s, id) && OnlyFailures(s, id)
    && RowOf(s, id).attempts == n <= 8 && !RowOf(s, id).channel.UnknownChannel? && Contents(RowOf(s, id)).Some?
    && if !RowOf(s, id).status.Pending? then RowOf(s, id).status.Skipped? && n == 8 && Recorded(s, id) == 7
       else id in s.jobs && TriedPending(IsHeld(s, id), AskedFor(s, id), n, Recorded(s, id))
  }

  ghost predicate TriedPending(held: bool, asked: bool, n: nat, dispatches: nat) {
    if asked then 1 <= n <= 7 && dispatches == n
    else if held then 1 <= n <= 8 && dispatches == n - 1
    else n <= 7 && dispatches == n
  }

  lemma InvStep(s: State, step: Step)
    requires LeaseInv(s) && AttemptInv(s) && Enabled(s, step)
    ensures LeaseInv(Apply(s, step)) && AttemptInv(Apply(s, step))
  {
    LeaseStep(s, step);
    AttemptStep(s, step);
  }

  /** A step that misses the job leaves its answers alone. */
  lemma AskedAlike(s: State, step: Step, id: JobId)
    requires LeaseInv(s) && Enabled(s, step) && Misses(s, step, id)
    ensures AskedFor(Apply(s, step), id) <==> AskedFor(s, id)
    ensures OnlyFailures(s, id) ==> OnlyFailures(Apply(s, step), id)
  {
    var s' := Apply(s, step);
    forall t | HasHead(s', t) && Head(s', t).id == id && s'.ticks[t].answer.Some?
      ensures HasHead(s, t) && s'.ticks[t] == s.ticks[t]
    {
      AnswerStep(s, step, t);
      if step.Dispatch? && step.tick == t {
        assert Head(s', t) == Head(s, t);
      }
    }
    if AskedFor(s, id) {
      var t :| HasHead(s, t) && Head(s, t).id == id && s.ticks[t].answer.Some?;
      AskedTickWaits(s, step, t, id);
      assert HasHead(s', t);
    }
  }

  lemma MissedTried(s: State, step: Step, id: JobId, n: nat)
    requires Tried(s, id, n) && Enabled(s, step) && Misses(s, step, id)
    ensures Tried(Apply(s, step), id, n)
  {
    InvStep(s, step);
    RowMissed(s, step, id);
    HeldMissed(s, step, id);
    HeldAlikeHeld(s, Apply(s, step), id);
    AskedAlike(s, step, id);
    DispatchIsRecorded(s, step, id);
  }

  /** What holds a job alone: at most one tick asks for it. */
  lemma NotAsked(s: State, tick: TickId, id: JobId)
    requires LeaseInv(s) && tick in s.ticks && TickHolds(s.ticks[tick], id) && s.ticks[tick].answer.None?
    ensures !AskedFor(s, id) && OnlyFailures(s, id)
  {
    var c :| Holds(s.ticks[tick], c) && c.id == id;
    forall t | HasHead(s, t) && Head(s, t).id == id
      ensures t == tick
    {
      assert Holds(s.ticks[t], Head(s, t));
    }
  }

  lemma ClaimTried(s: State, tick: TickId, picked: seq<JobId>, id: JobId, n: nat)
    requires Tried(s, id, n) && Enabled(s, ClaimPending(tick, picked)) && id in picked
    ensures Tried(DoClaimPending(s, tick, picked), id, n + 1)
  {
    var s' := DoClaimPending(s, tick, picked);
    InvStep(s, ClaimPending(tick, picked));
    assert IsDuePending(s, id);
    if IsHeld(s, id) {
      HeldIsPending(s, id);
    }
    UnheldIsNotAsked(s, id);
    ClaimedIsHeld(s, tick, picked, id);
    ClaimerHolds(s, tick, picked, id);
    NotAsked(s', tick, id);
    DispatchIsRecorded(s, ClaimPending(tick, picked), id);
  }

  lemma ClaimerHolds(s: State, tick: TickId, picked: seq<JobId>, id: JobId)
    requires LeaseInv(s) && tick in s.ticks && s.ticks[tick].phase.Claiming? && IsClaim(s, picked) && id in picked
    ensures var t := DoClaimPending(s, tick, picked).ticks[tick]; TickHolds(t, id) && t.answer.None?
  {
    var t := DoClaimPending(s, tick, picked).ticks[tick];
    assert TickInv(s, s.ticks[tick]);
    var i :| 0 <= i < |picked| && picked[i] == id;
    assert Holds(t, t.rows[i]);
  }

  lemma ScreenTried(s: State, tick: TickId, id: JobId, n: nat)
    requires Tried(s, id, n) && Enabled(s, Screen(tick)) && s.ticks[tick].rows[0].id == id
    ensures Tried(Apply(s, Screen(tick)), id, n)
  {
    var t := s.ticks[tick];
    assert TickInv(s, t) && Holds(t, t.rows[0]);
    assert Current(s, t, t.rows[0]);
    var s' := ScreenWith(s, tick, true);
    InvStep(s, Screen(tick));
    ScreenElsewhere(s, tick, true, id);
    ScreenAlike(s, tick, true, id);
    HeldAlikeHeld(s, s', id);
    assert TickHolds(t, id);
    NotAsked(s, tick, id);
    NotAsked(s', tick, id);
    DispatchIsRecorded(s, Screen(tick), id);
  }

  lemma AskedOfOne(s: State, tick: TickId, answer: Answer)
    requires LeaseInv(s) && HasHead(s, tick) && s.ticks[tick].answer == Some(answer)
    ensures AskedFor(s, Head(s, tick).id)
    ensures OnlyFailures(s, Head(s, tick).id) <==> answer.Errs?
  {
    forall t | HasHead(s, t) && Head(s, t).id == Head(s, tick).id
      ensures t == tick
    {
      assert Holds(s.ticks[t], Head(s, t)) && Holds(s.ticks[tick], Head(s, tick));
    }
  }

  lemma DispatchTried(s: State, tick: TickId, n: nat)
    requires HasHead(s, tick) && Tried(s, Head(s, tick).id, n) && Enabled(s, Dispatch(tick, Errs))
    ensures Tried(Apply(s, Dispatch(tick, Errs)), Head(s, tick).id, n)
  {
    var s', id := DoDispatch(s, tick, Errs), Head(s, tick).id;
    InvStep(s, Dispatch(tick, Errs));
    HeadIsHeld(s, tick);
    DispatchKeepsRow(s, tick, Errs, id);
    HeldAlikeHeld(s, s', id);
    assert Holds(s.ticks[tick], Head(s, tick)) && TickHolds(s.ticks[tick], id);
    NotAsked(s, tick, id);
    AskedOfOne(s', tick, Errs);
    DispatchIsRecorded(s, Dispatch(tick, Errs), id);
  }

  lemma FailTried(s: State, tick: TickId, n: nat)
    requires HasHead(s, tick) && Tried(s, Head(s, tick).id, n) && Enabled(s, MarkFailed(tick, true)) && GoesToChannel(Head(s, tick).job)
    ensures Tried(Apply(s, MarkFailed(tick, true)), Head(s, tick).id, n)
  {
    var s', id := DoMarkFailed(s, tick, true), Head(s, tick).id;
    InvStep(s, MarkFailed(tick, true));
    HeadIsHeld(s, tick);
    AskedOfOne(s, tick, s.ticks[tick].answer.value);
    LetsGo(s, s', tick);
    UnheldIsNotAsked(s', id);
    DispatchIsRecorded(s, MarkFailed(tick, true), id);
  }

  lemma UnheldIsNotAsked(s: State, id: JobId)
    requires LeaseInv(s) && !IsHeld(s, id)
    ensures !AskedFor(s, id) && OnlyFailures(s, id)
  {
    forall t | HasHead(s, t)
      ensures Head(s, t).id != id
    {
      HeadIsHeld(s, t);
    }
  }

  lemma SkipTried(s: State, tick: TickId, at: Time, email: JobId, n: nat)
    requires HasHead(s, tick) && Tried(s, Head(s, tick).id, n) && Enabled(s, Skip(tick, at, email))
    ensures Tried(Apply(s, Skip(tick, at, email)), Head(s, tick).id, n)
  {
    var s', id := DoSkip(s, tick, at, email), Head(s, tick).id;
    InvStep(s, Skip(tick, at, email));
    HeadIsHeld(s, tick);
    assert Holds(s.ticks[tick], Head(s, tick)) && TickHolds(s.ticks[tick], id);
    NotAsked(s, tick, id);
    SkipWrites(s, tick, at, email, Fallback(Head(s, tick).job, at));
    SkipLeavesAlone(s, tick, at, email, Fallback(Head(s, tick).job, at));
    LetsGo(s, s', tick);
    UnheldIsNotAsked(s', id);
    DispatchIsRecorded(s, Skip(tick, at, email), id);
  }

  lemma NeverMarkedSent(s: State, tick: TickId, written: bool, n: nat)
    requires HasHead(s, tick) && Tried(s, Head(s, tick).id, n)
    ensures !Enabled(s, MarkSent(tick, written))
  {
  }

  lemma TriedStep(s: State, step: Step, id: JobId, n: nat)
    requires Tried(s, id, n) && Enabled(s, step) && Fails(s, step, id)
    ensures Tried(Apply(s, step), id, if step.ClaimPending? && id in step.picked then n + 1 else n)
  {
    if Misses(s, step, id) {
      MissedTried(s, step, id, n);
    } else if step.ClaimPending? {
      ClaimTried(s, step.tick, step.picked, id, n);
    } else if step.Screen? {
      ScreenTried(s, step.tick, id, n);
    } else {
      HeadTried(s, step, id, n);
    }
  }

  lemma HeadTried(s: State, step: Step, id: JobId, n: nat)
    requires Tried(s, id, n) && Enabled(s, step) && Fails(s, step, id) && Concerns(s, step, id)
    ensures Tried(Apply(s, step), id, n)
  {
    match step {
      case Dispatch(tick, answer) => DispatchTried(s, tick, n);
      case MarkSent(tick, written) => NeverMarkedSent(s, tick, written, n);
      case MarkFailed(tick, written) => FailTried(s, tick, n);
      case Skip(tick, at, email) => SkipTried(s, tick, at, email, n);
    }
  }

  lemma {:induction false} TriedRun(s: State, run: seq<Step>, id: JobId, n: nat)
    requires Tried(s, id, n) && Legal(s, run) && FailsThroughout(s, run, id)
    ensures Tried(After(s, run), id, n + ClaimsOf(run, id))
    decreases |run|
  {
    if run != [] {
      TriedStep(s, run[0], id, n);
      TriedRun(Apply(s, run[0]), run[1..], id, if run[0].ClaimPending? && id in run[0].picked then n + 1 else n);
    }
  }

  /**
   * A job whose channel always fails, with all its writes working, is claimed at most eight times. Its channel is asked at
   * each of the first seven claims, and the job is pending again after each; the eighth claim skips it.
   */
  lemma FailingJobIsTriedSevenTimes(s: State, run: seq<Step>, id: JobId)
    requires Reachable(s) && id in s.jobs && s.jobs[id].status.Pending? && s.jobs[id].attempts == 0
    requires !s.jobs[id].channel.UnknownChannel? && Contents(s.jobs[id]).Some?
    requires Legal(s, run) && FailsThroughout(s, run, id)
    ensures var end, claims := After(s, run), ClaimsOf(run, id);
            && claims <= 8 && Known(end, id) && RowOf(end, id).attempts == claims
            && (!IsHeld(end, id) ==>
                  && DispatchCount(s, run, id) == (if claims < 8 then claims else 7)
                  && (if claims < 8 then RowOf(end, id).status.Pending? else RowOf(end, id).status.Skipped?))
  {
    var s0: State, before: seq<Step> :| Init(s0) && Legal(s0, before) && After(s0, before) == s;
    InitHolds(s0);
    AttemptRun(s0, before);
    if IsHeld(s, id) {
      HeldIsPending(s, id);
    }
    UnheldIsNotAsked(s, id);
    assert TrailOk(RowOf(s, id), s.trails[id]);
    assert Tried(s, id, 0);
    TriedRun(s, run, id, 0);
    DispatchesAreRecorded(s, run, id);
    var end := After(s, run);
    if !IsHeld(end, id) {
      UnheldIsNotAsked(end, id);
    }
  }
}
