/** No starvation: every lease, retry and insert queues behind the jobs that are already due. */
module Starvation {
  import opened Text
  import opened Outbox
  import opened Lease
  import Backoff
  import Sets

  /** The other pending jobs the claim statement may prefer to `j`. */
  ghost function Ahead(s: State, j: JobId): set<JobId>
    requires j in s.jobs
  {
    set i | i in s.jobs && i != j && s.jobs[i].status.Pending? && s.jobs[i].availableAt <= s.jobs[j].availableAt
  }

  /** Jobs the step inserts that are available by the given time. */
  ghost function Arrivals(s: State, step: Step, date: Time): set<JobId>
    requires Enabled(s, step)
  {
    var s' := Apply(s, step);
    set i | i in s'.jobs && i !in s.jobs && s'.jobs[i].availableAt <= date
  }

  // ----- One step -----

  /** After the step the row is new, as it was, finished, or not due. */
  ghost predicate Behind(s: State, s': State, i: JobId) {
    i in s'.jobs && i in s.jobs ==>
      s'.jobs[i] == s.jobs[i] || !s'.jobs[i].status.Pending? || s'.jobs[i].availableAt > s.clock
  }

  lemma {:induction false} BatchKeepsJobs(s: State, cutoff: Time, at: Time, batch: seq<Picked>, i: JobId)
    requires CanScheduleAll(s, cutoff, at, batch) && i in s.jobs
    ensures i in ScheduleAll(s, cutoff, at, batch).jobs
    ensures ScheduleAll(s, cutoff, at, batch).jobs[i] == s.jobs[i]
    decreases |batch|
  {
    if batch != [] {
      BatchKeepsJobs(ScheduleOne(s, cutoff, at, batch[0]), cutoff, at, batch[1..], i);
    }
  }

  lemma SkipStaysBehind(s: State, tick: TickId, at: Time, email: JobId, fallback: Option<Job>, i: JobId)
    requires HasHead(s, tick) && Fresh(s, email) && i in s.jobs
    ensures var s' := SkipWith(s, tick, at, email, fallback);
            i in s'.jobs && (s'.jobs[i] == s.jobs[i] || (i == Head(s, tick).id && !s'.jobs[i].status.Pending?))
  {
    var s1 := SkipHead(s, tick, at);
    assert i in s1.jobs && (s1.jobs[i] == s.jobs[i] || (i == Head(s, tick).id && !s1.jobs[i].status.Pending?));
  }

  lemma FailedStaysBehind(s: State, tick: TickId, written: bool, i: JobId)
    requires HasHead(s, tick) && i in s.jobs
    ensures var s' := DoMarkFailed(s, tick, written);
            i in s'.jobs && (s'.jobs[i] == s.jobs[i] || (i == Head(s, tick).id && s'.jobs[i].availableAt > s.clock))
  {
    Backoff.RetryDelayMonotone(Head(s, tick).job.attempts, Head(s, tick).job.attempts);
  }

  /** Steps other than a claim leave a job alone that no tick holds, and put no known job before it. */
  lemma JobStaysBehind(s: State, step: Step, i: JobId)
    requires Enabled(s, step) && i in s.jobs && !step.ClaimPending?
    ensures Behind(s, Apply(s, step), i)
    ensures (i in Apply(s, step).jobs && Apply(s, step).jobs[i] == s.jobs[i])
            || (step.Screen? && i == s.ticks[step.tick].rows[0].id)
            || ((step.MarkSent? || step.MarkFailed? || step.Skip?) && i == Head(s, step.tick).id)
            || !s.jobs[i].status.Pending?
  {
    if step.ClaimDue? {
      BatchKeepsJobs(s, Cutoff(step.at), step.at, step.batch, i);
    } else if step.Skip? {
      SkipStaysBehind(s, step.tick, step.at, step.email, Fallback(Head(s, step.tick).job, step.at), i);
    } else if step.MarkFailed? {
      FailedStaysBehind(s, step.tick, step.written, i);
    }
  }

  /** A job that is due is held by no tick, so only a claim can touch it. */
  lemma DueJobWaits(s: State, step: Step, j: JobId)
    requires LeaseInv(s) && IsDuePending(s, j) && Enabled(s, step)
    requires step.ClaimPending? ==> j !in step.picked
    ensures j in Apply(s, step).jobs && Apply(s, step).jobs[j] == s.jobs[j]
  {
    if !step.ClaimPending? {
      JobStaysBehind(s, step, j);
      if step.Screen? {
        var c := s.ticks[step.tick].rows[0];
        assert Holds(s.ticks[step.tick], c);
        HeldIsNotDue(s, step.tick, c);
      } else if step.MarkSent? || step.MarkFailed? || step.Skip? {
        DroppedHead(s, step.tick);
        HeldIsNotDue(s, step.tick, Head(s, step.tick));
      }
    }
  }

  lemma OthersQueueBehind(s: State, step: Step, j: JobId)
    requires LeaseInv(s) && IsDuePending(s, j) && Enabled(s, step) && !step.ClaimPending?
    requires j in Apply(s, step).jobs && Apply(s, step).jobs[j] == s.jobs[j]
    ensures Ahead(Apply(s, step), j) <= Ahead(s, j) + Arrivals(s, step, s.jobs[j].availableAt)
  {
    forall i | i in Ahead(Apply(s, step), j) && i in s.jobs
      ensures i in Ahead(s, j)
    {
      JobStaysBehind(s, step, i);
    }
  }

  function Elements(ids: seq<JobId>): set<JobId> {
    set id | id in ids
  }

  lemma {:induction false} DistinctCount(ids: seq<JobId>)
    requires forall i, j | 0 <= i < j < |ids| :: ids[i] != ids[j]
    ensures |Elements(ids)| == |ids|
  {
    if ids != [] {
      var rest, last := ids[..|ids| - 1], ids[|ids| - 1];
      DistinctCount(rest);
      assert last !in Elements(rest);
      assert Elements(ids) == Elements(rest) + {last};
    }
  }

  /** A claim that passes over a due job takes fifty of those ahead of it and puts them behind. */
  lemma ClaimShortensTheQueue(s: State, tick: TickId, picked: seq<JobId>, j: JobId)
    requires LeaseInv(s) && IsDuePending(s, j) && tick in s.ticks && IsClaim(s, picked) && j !in picked
    ensures var s' := DoClaimPending(s, tick, picked);
            j in s'.jobs && s'.jobs[j] == s.jobs[j] && |Ahead(s', j)| + 50 <= |Ahead(s, j)|
  {
    var s' := DoClaimPending(s, tick, picked);
    var taken := Elements(picked);
    DistinctCount(picked);
    assert taken <= Ahead(s, j);
    assert Ahead(s', j) <= Ahead(s, j) - taken;
    Sets.SubsetCount(Ahead(s', j), Ahead(s, j) - taken);
    assert |Ahead(s, j) - taken| == |Ahead(s, j)| - |taken|;
  }

  // ----- Runs -----

  ghost predicate NeverPicks(run: seq<Step>, j: JobId) {
    forall k | 0 <= k < |run| :: run[k].ClaimPending? ==> j !in run[k].picked
  }

  function ClaimCount(run: seq<Step>): nat {
    if run == [] then 0 else (if run[0].ClaimPending? then 1 else 0) + ClaimCount(run[1..])
  }

  ghost function ArrivalCount(s: State, run: seq<Step>, date: Time): nat
    requires Legal(s, run)
    decreases |run|
  {
    if run == [] then 0 else |Arrivals(s, run[0], date)| + ArrivalCount(Apply(s, run[0]), run[1..], date)
  }

  lemma StillWaiting(s: State, run: seq<Step>, j: JobId)
    requires run != [] && Legal(s, run) && LeaseInv(s) && IsDuePending(s, j) && NeverPicks(run, j)
    ensures LeaseInv(Apply(s, run[0])) && IsDuePending(Apply(s, run[0]), j) && NeverPicks(run[1..], j)
    ensures Apply(s, run[0]).jobs[j] == s.jobs[j]
  {
    LeaseStep(s, run[0]);
    assert run[0].ClaimPending? ==> j !in run[0].picked;
    DueJobWaits(s, run[0], j);
    ClockOnlyAdvances(s, run[0]);
  }

  lemma {:induction false} BatchKeepsClock(s: State, cutoff: Time, at: Time, batch: seq<Picked>)
    requires CanScheduleAll(s, cutoff, at, batch)
    ensures ScheduleAll(s, cutoff, at, batch).clock == s.clock
    decreases |batch|
  {
    if batch != [] {
      BatchKeepsClock(ScheduleOne(s, cutoff, at, batch[0]), cutoff, at, batch[1..]);
    }
  }

  lemma ClockOnlyAdvances(s: State, step: Step)
    requires Enabled(s, step)
    ensures s.clock <= Apply(s, step).clock
  {
    if step.ClaimDue? {
      BatchKeepsClock(s, Cutoff(step.at), step.at, step.batch);
    } else if step.Skip? {
      SkipLeavesAlone(s, step.tick, step.at, step.email, Fallback(Head(s, step.tick).job, step.at));
    }
  }

  /**
   * As long as a due pending job is passed over, every claim takes fifty of the jobs that were ahead of it,
   * or that were inserted dated no later than it: whatever else happens in the run.
   */
  lemma {:induction false} PassedOver(s: State, run: seq<Step>, j: JobId)
    requires LeaseInv(s) && IsDuePending(s, j) && Legal(s, run) && NeverPicks(run, j)
    ensures 50 * ClaimCount(run) <= |Ahead(s, j)| + ArrivalCount(s, run, s.jobs[j].availableAt)
    decreases |run|
  {
    if run != [] {
      var s' := Apply(s, run[0]);
      StillWaiting(s, run, j);
      PassedOver(s', run[1..], j);
      if run[0].ClaimPending? {
        ClaimShortensTheQueue(s, run[0].tick, run[0].picked, j);
      } else {
        OthersQueueBehind(s, run[0], j);
        var arrivals := Arrivals(s, run[0], s.jobs[j].availableAt);
        Sets.SubsetCount(Ahead(s', j), Ahead(s, j) + arrivals);
        assert |Ahead(s, j) + arrivals| <= |Ahead(s, j)| + |arrivals|;
      }
    }
  }

  /**
   * A due pending job with r others at or before it is claimed within r/50 + 1 claims, counting into r what is
   * inserted during the run dated no later than it.
   */
  lemma NoStarvation(s: State, run: seq<Step>, j: JobId)
    requires Reachable(s) && IsDuePending(s, j) && Legal(s, run)
    requires ClaimCount(run) >= (|Ahead(s, j)| + ArrivalCount(s, run, s.jobs[j].availableAt)) / 50 + 1
    ensures exists k :: 0 <= k < |run| && run[k].ClaimPending? && j in run[k].picked
  {
    ReachableHasLease(s);
    if NeverPicks(run, j) {
      PassedOver(s, run, j);
    }
  }
}
