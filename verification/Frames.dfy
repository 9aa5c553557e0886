/** One job among all the steps of the outbox: which steps leave it alone, and who holds it. */
module Frames {
  import opened Text
  import opened Outbox
  import opened Lease
  import opened Staging

  ghost predicate TickHolds(t: Tick, id: JobId) {
    exists c :: Holds(t, c) && c.id == id
  }

  /** The step deals with the job, or ends a tick that still has to. */
  ghost predicate Concerns(s: State, step: Step, id: JobId) {
    match step
    case Dispatch(tick, _) => HasHead(s, tick) && Head(s, tick).id == id
    case MarkSent(tick, _) => HasHead(s, tick) && Head(s, tick).id == id
    case MarkFailed(tick, _) => HasHead(s, tick) && Head(s, tick).id == id
    case Skip(tick, _, _) => HasHead(s, tick) && Head(s, tick).id == id
    case EndTick(tick) => tick in s.ticks && TickHolds(s.ticks[tick], id)
    case _ => false
  }

  // ----- What other steps leave alone -----

  /** The step neither claims the job nor reads its claimed row. */
  ghost predicate Misses(s: State, step: Step, id: JobId)
    requires Enabled(s, step)
  {
    && !Concerns(s, step, id)
    && (step.ClaimPending? ==> id !in step.picked)
    && (step.Screen? ==> s.ticks[step.tick].rows[0].id != id)
  }

  ghost predicate RowStays(s: State, s': State, id: JobId) {
    && Known(s, id) && Known(s', id) && RowOf(s', id) == RowOf(s, id)
    && (id in s.jobs && s.jobs[id].status.Pending? ==> id in s'.jobs)
  }

  lemma SkipElsewhere(s: State, tick: TickId, at: Time, email: JobId, fallback: Option<Job>, id: JobId)
    requires HasHead(s, tick) && Fresh(s, email) && Known(s, id) && Head(s, tick).id != id
    ensures RowStays(s, SkipWith(s, tick, at, email, fallback), id)
  {
    var s1 := SkipHead(s, tick, at);
    assert Known(s1, id) && RowOf(s1, id) == RowOf(s, id);
  }

  lemma MarksElsewhere(s: State, tick: TickId, written: bool, id: JobId)
    requires HasHead(s, tick) && Known(s, id) && Head(s, tick).id != id
    ensures RowStays(s, DoMarkSent(s, tick, written), id) && RowStays(s, DoMarkFailed(s, tick, written), id)
  {
  }

  lemma ScreenElsewhere(s: State, tick: TickId, valid: bool, id: JobId)
    requires IsWorking(s, tick) && s.ticks[tick].rows != [] && Known(s, id) && (valid || s.ticks[tick].rows[0].id != id)
    ensures RowStays(s, ScreenWith(s, tick, valid), id)
  {
  }

  lemma ClaimElsewhere(s: State, tick: TickId, picked: seq<JobId>, id: JobId)
    requires tick in s.ticks && IsClaim(s, picked) && Known(s, id) && id !in picked
    ensures RowStays(s, DoClaimPending(s, tick, picked), id)
  {
  }

  lemma ScheduleElsewhere(s: State, cutoff: Time, at: Time, p: Picked, id: JobId)
    requires CanSchedule(s, cutoff, p) && Known(s, id)
    ensures RowStays(s, ScheduleOne(s, cutoff, at, p), id)
  {
  }

  lemma {:induction false} BatchElsewhere(s: State, cutoff: Time, at: Time, batch: seq<Picked>, id: JobId)
    requires CanScheduleAll(s, cutoff, at, batch) && Known(s, id)
    ensures RowStays(s, ScheduleAll(s, cutoff, at, batch), id)
    decreases |batch|
  {
    if batch != [] {
      ScheduleElsewhere(s, cutoff, at, batch[0], id);
      BatchElsewhere(ScheduleOne(s, cutoff, at, batch[0]), cutoff, at, batch[1..], id);
    }
  }

  lemma RowMissed(s: State, step: Step, id: JobId)
    requires Tables(s) && Enabled(s, step) && Known(s, id) && Misses(s, step, id)
    ensures RowStays(s, Apply(s, step), id)
  {
    match step {
      case ClaimDue(tick, at, batch) => BatchElsewhere(s, Cutoff(at), at, batch, id);
      case Skip(tick, at, email) => SkipElsewhere(s, tick, at, email, Fallback(Head(s, tick).job, at), id);
      case MarkSent(tick, written) => MarksElsewhere(s, tick, written, id);
      case MarkFailed(tick, written) => MarksElsewhere(s, tick, written, id);
      case Screen(tick) => ScreenElsewhere(s, tick, Contents(s.ticks[tick].rows[0].job).Some?, id);
      case ClaimPending(tick, picked) => ClaimElsewhere(s, tick, picked, id);
      case _ =>
    }
  }

  /** A tick holds the job after the step exactly if it did before. */
  ghost predicate HeldAlike(s: State, s': State, id: JobId) {
    forall t :: (t in s'.ticks && TickHolds(s'.ticks[t], id)) <==> (t in s.ticks && TickHolds(s.ticks[t], id))
  }

  lemma OneTickAlike(s: State, s': State, tick: TickId, id: JobId)
    requires tick in s.ticks && tick in s'.ticks && s'.ticks == s.ticks[tick := s'.ticks[tick]]
    requires forall c: Claimed | c.id == id :: Holds(s'.ticks[tick], c) <==> Holds(s.ticks[tick], c)
    ensures HeldAlike(s, s', id)
  {
    forall t
      ensures (t in s'.ticks && TickHolds(s'.ticks[t], id)) <==> (t in s.ticks && TickHolds(s.ticks[t], id))
    {
      if t == tick {
        if TickHolds(s.ticks[t], id) {
          var c :| Holds(s.ticks[t], c) && c.id == id;
          assert Holds(s'.ticks[t], c);
        }
        if TickHolds(s'.ticks[t], id) {
          var c :| Holds(s'.ticks[t], c) && c.id == id;
          assert Holds(s.ticks[t], c);
        }
      }
    }
  }

  lemma DropAlike(s: State, s': State, tick: TickId, id: JobId)
    requires HasHead(s, tick) && Head(s, tick).id != id && s'.ticks == DropHead(s, tick).ticks
    ensures HeldAlike(s, s', id)
  {
    assert s.ticks[tick].todo == [Head(s, tick)] + s.ticks[tick].todo[1..];
    OneTickAlike(s, s', tick, id);
  }

  lemma ScreenAlike(s: State, tick: TickId, valid: bool, id: JobId)
    requires IsWorking(s, tick) && s.ticks[tick].rows != [] && (valid || s.ticks[tick].rows[0].id != id)
    ensures HeldAlike(s, ScreenWith(s, tick, valid), id)
  {
    var t := s.ticks[tick];
    assert t.rows == [t.rows[0]] + t.rows[1..];
    OneTickAlike(s, ScreenWith(s, tick, valid), tick, id);
  }

  lemma ClaimAlike(s: State, tick: TickId, picked: seq<JobId>, id: JobId)
    requires LeaseInv(s) && tick in s.ticks && s.ticks[tick].phase.Claiming? && IsClaim(s, picked) && id !in picked
    ensures HeldAlike(s, DoClaimPending(s, tick, picked), id)
  {
    assert TickInv(s, s.ticks[tick]);
    OneTickAlike(s, DoClaimPending(s, tick, picked), tick, id);
  }

  lemma EndAlike(s: State, tick: TickId, id: JobId)
    requires tick in s.ticks && !TickHolds(s.ticks[tick], id)
    ensures HeldAlike(s, s.(ticks := s.ticks - {tick}), id)
  {
  }

  lemma StartAlike(s: State, tick: TickId, id: JobId)
    requires tick !in s.ticks
    ensures HeldAlike(s, WithTick(s, tick, Tick(s.clock, Scheduling, 0, [], [], None)), id)
  {
  }

  lemma SkipAlike(s: State, tick: TickId, at: Time, email: JobId, fallback: Option<Job>, id: JobId)
    requires HasHead(s, tick) && Head(s, tick).id != id
    ensures HeldAlike(s, SkipWith(s, tick, at, email, fallback), id)
  {
    SkipLeavesAlone(s, tick, at, email, fallback);
    DropAlike(s, SkipWith(s, tick, at, email, fallback), tick, id);
  }

  lemma PhaseAlike(s: State, s': State, tick: TickId, id: JobId)
    requires tick in s.ticks && s'.ticks == s.ticks[tick := s.ticks[tick].(phase := Claiming)]
    ensures HeldAlike(s, s', id)
  {
    OneTickAlike(s, s', tick, id);
  }

  lemma ScheduleAlike(s: State, tick: TickId, at: Time, batch: seq<Picked>, id: JobId)
    requires Enabled(s, Step.ClaimDue(tick, at, batch))
    ensures HeldAlike(s, Apply(s, Step.ClaimDue(tick, at, batch)), id)
  {
    BatchKeepsTicks(s, Cutoff(at), at, batch);
    PhaseAlike(s, Apply(s, Step.ClaimDue(tick, at, batch)), tick, id);
  }

  /** Dispatching and settling another job. */
  lemma OtherHeadAlike(s: State, step: Step, id: JobId)
    requires Enabled(s, step) && !Concerns(s, step, id)
    requires step.Dispatch? || step.MarkSent? || step.MarkFailed? || step.Skip?
    ensures HeldAlike(s, Apply(s, step), id)
  {
    match step {
      case Dispatch(tick, answer) => OneTickAlike(s, DoDispatch(s, tick, answer), tick, id);
      case MarkSent(tick, written) => DropAlike(s, DoMarkSent(s, tick, written), tick, id);
      case MarkFailed(tick, written) => DropAlike(s, DoMarkFailed(s, tick, written), tick, id);
      case Skip(tick, at, email) => SkipAlike(s, tick, at, email, Fallback(Head(s, tick).job, at), id);
    }
  }

  lemma HeldMissed(s: State, step: Step, id: JobId)
    requires LeaseInv(s) && Enabled(s, step) && Misses(s, step, id)
    ensures HeldAlike(s, Apply(s, step), id)
  {
    match step {
      case StartTick(tick) => StartAlike(s, tick, id);
      case ClaimDue(tick, at, batch) => ScheduleAlike(s, tick, at, batch, id);
      case ClaimDueFails(tick) => PhaseAlike(s, Apply(s, step), tick, id);
      case ClaimPending(tick, picked) => ClaimAlike(s, tick, picked, id);
      case Screen(tick) => ScreenAlike(s, tick, Contents(s.ticks[tick].rows[0].job).Some?, id);
      case Dispatch(tick, answer) => OtherHeadAlike(s, step, id);
      case MarkSent(tick, written) => OtherHeadAlike(s, step, id);
      case MarkFailed(tick, written) => OtherHeadAlike(s, step, id);
      case Skip(tick, at, email) => OtherHeadAlike(s, step, id);
      case EndTick(tick) => EndAlike(s, tick, id);
      case _ =>
    }
  }

  /** The tick that has asked for the job is left alone until it writes the answer. */
  lemma AskedTickWaits(s: State, step: Step, tick: TickId, id: JobId)
    requires Enabled(s, step) && !Concerns(s, step, id)
    requires HasHead(s, tick) && Head(s, tick).id == id && s.ticks[tick].answer.Some?
    ensures tick in Apply(s, step).ticks && Apply(s, step).ticks[tick] == s.ticks[tick]
  {
    assert Holds(s.ticks[tick], Head(s, tick));
    assert TickHolds(s.ticks[tick], id);
    match step {
      case Skip(t, at, email) => SkipLeavesAlone(s, t, at, email, Fallback(Head(s, t).job, at));
      case ClaimDue(t, at, batch) => BatchKeepsTicks(s, Cutoff(at), at, batch);
      case _ =>
    }
  }

  // ----- Holding a job -----

  ghost predicate IsHeld(s: State, id: JobId) {
    exists t :: t in s.ticks && TickHolds(s.ticks[t], id)
  }

  lemma HeldIsPending(s: State, id: JobId)
    requires LeaseInv(s) && IsHeld(s, id)
    ensures id in s.jobs && s.jobs[id].status.Pending? && s.jobs[id].attempts >= 1 && !IsDuePending(s, id)
  {
    var t :| t in s.ticks && TickHolds(s.ticks[t], id);
    var c :| Holds(s.ticks[t], c) && c.id == id;
    HeldIsNotDue(s, t, c);
    assert TickInv(s, s.ticks[t]);
  }

  lemma HeadIsHeld(s: State, tick: TickId)
    requires LeaseInv(s) && HasHead(s, tick)
    ensures IsHeld(s, Head(s, tick).id)
    ensures Head(s, tick).id in s.jobs && s.jobs[Head(s, tick).id] == Head(s, tick).job && Head(s, tick).job.status.Pending?
  {
    DroppedHead(s, tick);
    assert Holds(s.ticks[tick], Head(s, tick));
    assert TickHolds(s.ticks[tick], Head(s, tick).id);
  }

  lemma HeldAlikeHeld(s: State, s': State, id: JobId)
    requires HeldAlike(s, s', id)
    ensures IsHeld(s', id) <==> IsHeld(s, id)
  {
  }

  lemma ClaimedIsHeld(s: State, tick: TickId, picked: seq<JobId>, id: JobId)
    requires tick in s.ticks && IsClaim(s, picked) && id in picked
    ensures var s' := DoClaimPending(s, tick, picked);
            IsHeld(s', id) && id in s.jobs && id in s'.jobs && s'.jobs[id] == Leased(s.jobs[id], s.clock)
  {
    var s' := DoClaimPending(s, tick, picked);
    assert IsDuePending(s, id);
    var i :| 0 <= i < |picked| && picked[i] == id;
    assert Holds(s'.ticks[tick], s'.ticks[tick].rows[i]);
    assert TickHolds(s'.ticks[tick], id);
  }

  lemma DispatchKeepsRow(s: State, tick: TickId, answer: Answer, id: JobId)
    requires HasHead(s, tick) && Known(s, id)
    ensures var s' := DoDispatch(s, tick, answer);
            && RowStays(s, s', id) && HeldAlike(s, s', id)
            && HasHead(s', tick) && Head(s', tick) == Head(s, tick) && s'.ticks[tick].answer == Some(answer)
  {
    OneTickAlike(s, DoDispatch(s, tick, answer), tick, id);
  }

  lemma SkipWrites(s: State, tick: TickId, at: Time, email: JobId, fallback: Option<Job>)
    requires HasHead(s, tick) && Head(s, tick).id in s.jobs && Fresh(s, email)
    ensures var s', id := SkipWith(s, tick, at, email, fallback), Head(s, tick).id;
            id in s'.jobs && s'.jobs[id] == s.jobs[id].(status := Skipped, updatedAt := at)
  {
    var s1 := SkipHead(s, tick, at);
    assert s1.jobs[Head(s, tick).id] == s.jobs[Head(s, tick).id].(status := Skipped, updatedAt := at);
  }

  /** After the write no tick has the job. */
  lemma LetsGo(s: State, s': State, tick: TickId)
    requires LeaseInv(s) && HasHead(s, tick) && s'.ticks == DropHead(s, tick).ticks
    ensures !IsHeld(s', Head(s, tick).id)
  {
    DroppedHead(s, tick);
    assert Holds(s.ticks[tick], Head(s, tick));
  }

  /** The one tick that had the job is gone. */
  lemma DeadLetsGo(s: State, tick: TickId, id: JobId)
    requires LeaseInv(s) && tick in s.ticks && TickHolds(s.ticks[tick], id)
    ensures !IsHeld(s.(ticks := s.ticks - {tick}), id)
  {
    var c :| Holds(s.ticks[tick], c) && c.id == id;
    forall t | t in s.ticks && t != tick
      ensures !TickHolds(s.ticks[t], id)
    {
      assert Apart(s.ticks[tick], s.ticks[t]);
    }
  }
}
