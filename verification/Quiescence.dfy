/**
 * Without new work and with every bookkeeping write succeeding, the outbox runs dry: a potential over the
 * attempts left to each pending job falls with every claim.
 */
module Quiescence {
  import opened Text
  import opened Outbox
  import opened Lease
  import opened Starvation

  // ----- Sums over a table -----

  ghost function Total(m: map<JobId, nat>): nat
    decreases |m.Keys|
  {
    if m == map[] then 0
    else
      var k :| k in m;
      m[k] + Total(m - {k})
  }

  lemma {:induction false} TotalWithout(m: map<JobId, nat>, k: JobId)
    requires k in m
    ensures Total(m) == m[k] + Total(m - {k})
    decreases |m.Keys|
  {
    var first :| first in m && Total(m) == m[first] + Total(m - {first});
    if first != k {
      TotalWithout(m - {first}, k);
      TotalWithout(m - {k}, first);
      assert m - {first} - {k} == m - {k} - {first};
    }
  }

  /** Row by row no larger, and smaller by one on `falling`. */
  lemma {:induction false} TotalFalls(m: map<JobId, nat>, m': map<JobId, nat>, falling: set<JobId>)
    requires falling <= m'.Keys
    requires forall k | k in m' :: k in m && m'[k] + (if k in falling then 1 else 0) <= m[k]
    ensures Total(m') + |falling| <= Total(m)
    decreases |m'.Keys|
  {
    if m' == map[] {
      assert falling == {};
    } else {
      var k :| k in m';
      TotalWithout(m, k);
      TotalWithout(m', k);
      TotalFalls(m - {k}, m' - {k}, falling - {k});
      assert |falling - {k}| >= |falling| - (if k in falling then 1 else 0);
    }
  }

  /** One row gives up what a new row gets. */
  lemma TotalMoves(m: map<JobId, nat>, m': map<JobId, nat>, from: JobId, to: JobId)
    requires to !in m && m'.Keys == m.Keys + {to} && from in m
    requires m'[from] + m'[to] <= m[from]
    requires forall k | k in m && k != from :: m'[k] <= m[k]
    ensures Total(m') <= Total(m)
  {
    TotalWithout(m', to);
    TotalWithout(m' - {to}, from);
    TotalWithout(m, from);
    TotalFalls(m - {from}, m' - {to} - {from}, {});
  }

  // ----- The potential -----

  ghost predicate IsHeld(s: State, id: JobId) {
    exists t, c :: t in s.ticks && Holds(s.ticks[t], c) && c.id == id
  }

  /** The claims a pending job may still need, and those of the email it may leave behind. */
  ghost function Weight(job: Job, held: bool): nat {
    if !job.status.Pending? then 0
    else Left(job.attempts, held) + (if StandsInForEmail(job) then MAX_ATTEMPTS else 0)
  }

  function Left(attempts: nat, held: bool): nat {
    if attempts < MAX_ATTEMPTS then MAX_ATTEMPTS - attempts else if held then 0 else 1
  }

  ghost function Weights(s: State): map<JobId, nat> {
    map id | id in s.jobs :: Weight(s.jobs[id], IsHeld(s, id))
  }

  ghost function Potential(s: State): nat {
    Total(Weights(s))
  }

  /** Steps of a run in which nothing new is queued and nothing fails to be written. */
  ghost predicate Smooth(s: State, step: Step)
    requires Enabled(s, step)
  {
    match step
    case Enqueue(id, job) => false
    case ClaimDue(tick, at, batch) => batch == []
    case MarkSent(tick, written) => written
    case MarkFailed(tick, written) => written && GoesToChannel(Head(s, tick).job)
    case EndTick(tick) => s.ticks[tick].rows == [] && s.ticks[tick].todo == []
    case _ => true
  }

  function PickedBy(step: Step): nat {
    if step.ClaimPending? then |step.picked| else 0
  }

  // ----- One step -----

  /** The row weighs no more than before: it is unchanged and held no less, or finished. */
  ghost predicate Lighter(s: State, s': State, id: JobId) {
    id in s'.jobs ==>
      id in s.jobs && (!s'.jobs[id].status.Pending? || (s'.jobs[id] == s.jobs[id] && (IsHeld(s, id) ==> IsHeld(s', id))))
  }

  lemma AllLighter(s: State, s': State)
    requires forall id :: Lighter(s, s', id)
    ensures Potential(s') <= Potential(s)
  {
    forall id | id in Weights(s')
      ensures id in Weights(s) && Weights(s')[id] <= Weights(s)[id]
    {
      assert Lighter(s, s', id);
    }
    TotalFalls(Weights(s), Weights(s'), {});
  }

  lemma ClaimFalls(s: State, tick: TickId, picked: seq<JobId>)
    requires LeaseInv(s) && tick in s.ticks && s.ticks[tick].phase.Claiming? && IsClaim(s, picked)
    ensures Potential(DoClaimPending(s, tick, picked)) + |picked| <= Potential(s)
  {
    var s' := DoClaimPending(s, tick, picked);
    DistinctCount(picked);
    assert TickInv(s, s.ticks[tick]);
    forall id | id in s.jobs
      ensures Weights(s')[id] + (if id in Elements(picked) then 1 else 0) <= Weights(s)[id]
    {
      if id in picked {
        var i :| 0 <= i < |picked| && picked[i] == id;
        assert s'.ticks[tick].rows[i].id == id;
        assert Holds(s'.ticks[tick], s'.ticks[tick].rows[i]);
        assert IsHeld(s', id);
        assert IsDuePending(s, id);
        if IsHeld(s, id) {
          var t, c :| t in s.ticks && Holds(s.ticks[t], c) && c.id == id;
          HeldIsNotDue(s, t, c);
        }
        ClaimedWeighsLess(s.jobs[id], s.clock);
      } else if IsHeld(s, id) {
        var t, c :| t in s.ticks && Holds(s.ticks[t], c) && c.id == id;
        assert t != tick;
        assert Holds(s'.ticks[t], c);
      }
    }
    TotalFalls(Weights(s), Weights(s'), Elements(picked));
  }

  lemma ClaimedWeighsLess(job: Job, now: Time)
    requires job.status.Pending?
    ensures Weight(Leased(job, now), true) < Weight(job, false)
  {
  }

  /** Dropping the head job lets go of no other. */
  lemma OthersStayHeld(s: State, s': State, tick: TickId, id: JobId)
    requires HasHead(s, tick) && s'.ticks == DropHead(s, tick).ticks
    requires id != Head(s, tick).id && IsHeld(s, id)
    ensures IsHeld(s', id)
  {
    var t, c :| t in s.ticks && Holds(s.ticks[t], c) && c.id == id;
    assert s.ticks[tick].todo == [Head(s, tick)] + s.ticks[tick].todo[1..];
    assert Holds(s'.ticks[t], c);
  }

  lemma FinishedHeadFalls(s: State, s': State, tick: TickId)
    requires HasHead(s, tick) && s'.ticks == DropHead(s, tick).ticks
    requires Head(s, tick).id in s'.jobs && !s'.jobs[Head(s, tick).id].status.Pending?
    requires s'.jobs.Keys == s.jobs.Keys
    requires forall id | id in s.jobs && id != Head(s, tick).id :: s'.jobs[id] == s.jobs[id]
    ensures Potential(s') <= Potential(s)
  {
    forall id
      ensures Lighter(s, s', id)
    {
      if id in s.jobs && id != Head(s, tick).id && IsHeld(s, id) {
        OthersStayHeld(s, s', tick, id);
      }
    }
    AllLighter(s, s');
  }

  lemma FailedHeadFalls(s: State, tick: TickId)
    requires LeaseInv(s) && HasHead(s, tick) && GoesToChannel(Head(s, tick).job)
    ensures Potential(DoMarkFailed(s, tick, true)) <= Potential(s)
  {
    DroppedHead(s, tick);
    var c := Head(s, tick);
    var s' := DoMarkFailed(s, tick, true);
    assert IsHeld(s, c.id);
    forall id | id in s'.jobs
      ensures Weights(s')[id] <= Weights(s)[id]
    {
      if id == c.id {
        FailedWeighsTheSame(c.job, s'.jobs[id], IsHeld(s', id));
      } else if IsHeld(s, id) {
        OthersStayHeld(s, s', tick, id);
      }
    }
    TotalFalls(Weights(s), Weights(s'), {});
  }

  lemma FailedWeighsTheSame(job: Job, job': Job, held: bool)
    requires job.status.Pending? && job'.status.Pending? && job.attempts == job'.attempts < MAX_ATTEMPTS
    requires job.channel == job'.channel && job.payload == job'.payload
    ensures Weight(job', held) == Weight(job, true)
  {
  }

  /** A skipped stand-in gives its email no more claims than it carried for it. */
  lemma SkippedHeadFalls(s: State, tick: TickId, at: Time, email: JobId, fallback: Option<Job>)
    requires LeaseInv(s) && HasHead(s, tick) && Fresh(s, email)
    requires fallback.Some? ==>
               && StandsInForEmail(Head(s, tick).job)
               && fallback.value.channel.EmailChannel? && fallback.value.attempts == 0
    ensures Potential(SkipWith(s, tick, at, email, fallback)) <= Potential(s)
  {
    DroppedHead(s, tick);
    if fallback.Some? {
      SkipWithEmail(s, tick, at, email, fallback.value);
      EmailTakesOver(s, SkipWith(s, tick, at, email, fallback), tick, email);
    } else {
      FinishedHeadFalls(s, SkipHead(s, tick, at), tick);
    }
  }

  lemma SkipWithEmail(s: State, tick: TickId, at: Time, email: JobId, fallback: Job)
    requires HasHead(s, tick) && Fresh(s, email) && Head(s, tick).id in s.jobs
    ensures var s' := SkipWith(s, tick, at, email, Some(fallback));
            && s'.ticks == DropHead(s, tick).ticks
            && s'.jobs == s.jobs[Head(s, tick).id := s.jobs[Head(s, tick).id].(status := Skipped, updatedAt := at)][email := fallback]
  {
  }

  lemma EmailTakesOver(s: State, s': State, tick: TickId, email: JobId)
    requires HasHead(s, tick) && s'.ticks == DropHead(s, tick).ticks
    requires Head(s, tick).id in s.jobs && s.jobs[Head(s, tick).id] == Head(s, tick).job
    requires Head(s, tick).job.status.Pending? && StandsInForEmail(Head(s, tick).job)
    requires s'.jobs.Keys == s.jobs.Keys + {email} && email !in s.jobs
    requires !s'.jobs[Head(s, tick).id].status.Pending?
    requires s'.jobs[email].channel.EmailChannel? && s'.jobs[email].attempts == 0
    requires forall id | id in s.jobs && id != Head(s, tick).id :: s'.jobs[id] == s.jobs[id]
    ensures Potential(s') <= Potential(s)
  {
    var c := Head(s, tick);
    forall id | id in s.jobs && id != c.id
      ensures Weights(s')[id] <= Weights(s)[id]
    {
      if IsHeld(s, id) {
        OthersStayHeld(s, s', tick, id);
      }
    }
    assert Weights(s')[email] <= MAX_ATTEMPTS <= Weights(s)[c.id];
    TotalMoves(Weights(s), Weights(s'), c.id, email);
  }

  lemma ScreenedFalls(s: State, tick: TickId, valid: bool)
    requires LeaseInv(s) && IsWorking(s, tick) && s.ticks[tick].rows != []
    ensures Potential(ScreenWith(s, tick, valid)) <= Potential(s)
  {
    var s' := ScreenWith(s, tick, valid);
    var first := s.ticks[tick].rows[0];
    assert Holds(s.ticks[tick], first);
    assert Current(s, s.ticks[tick], first);
    assert s.ticks[tick].rows == [first] + s.ticks[tick].rows[1..];
    forall id
      ensures Lighter(s, s', id)
    {
      if id in s.jobs && IsHeld(s, id) && (valid || id != first.id) {
        var t, c :| t in s.ticks && Holds(s.ticks[t], c) && c.id == id;
        assert Holds(s'.ticks[t], c);
      }
    }
    AllLighter(s, s');
  }

  /** Steps that touch no job and let go of none. */
  lemma SameJobsSamePotential(s: State, s': State)
    requires s'.jobs == s.jobs
    requires forall t | t in s.ticks && (s.ticks[t].rows != [] || s.ticks[t].todo != []) ::
               t in s'.ticks && s'.ticks[t].rows == s.ticks[t].rows && s'.ticks[t].todo == s.ticks[t].todo
    ensures Potential(s') <= Potential(s)
  {
    forall id
      ensures Lighter(s, s', id)
    {
      if IsHeld(s, id) {
        var t, c :| t in s.ticks && Holds(s.ticks[t], c) && c.id == id;
        assert Holds(s'.ticks[t], c);
      }
    }
    AllLighter(s, s');
  }

  lemma RetiredFalls(s: State, ids: set<JobId>)
    ensures Potential(DoRetire(s, ids)) <= Potential(s)
  {
    var s' := DoRetire(s, ids);
    forall id
      ensures Lighter(s, s', id)
    {
      if id in s'.jobs && IsHeld(s, id) {
        var t, c :| t in s.ticks && Holds(s.ticks[t], c) && c.id == id;
        assert Holds(s'.ticks[t], c);
      }
    }
    AllLighter(s, s');
  }

  lemma PotentialStep(s: State, step: Step)
    requires LeaseInv(s) && Enabled(s, step) && Smooth(s, step)
    ensures Potential(Apply(s, step)) + PickedBy(step) <= Potential(s)
  {
    if step.ClaimPending? {
      ClaimFalls(s, step.tick, step.picked);
    } else if step.Screen? {
      ScreenedFalls(s, step.tick, Contents(s.ticks[step.tick].rows[0].job).Some?);
    } else if step.MarkSent? {
      DroppedHead(s, step.tick);
      FinishedHeadFalls(s, DoMarkSent(s, step.tick, true), step.tick);
    } else if step.MarkFailed? {
      FailedHeadFalls(s, step.tick);
    } else if step.Skip? {
      SkippedHeadFalls(s, step.tick, step.at, step.email, Fallback(Head(s, step.tick).job, step.at));
    } else if step.Retire? {
      RetiredFalls(s, step.ids);
    } else {
      QuietStepKeepsPotential(s, step);
    }
  }

  lemma QuietStepKeepsPotential(s: State, step: Step)
    requires Enabled(s, step) && Smooth(s, step)
    requires !step.ClaimPending? && !step.Screen? && !step.MarkSent? && !step.MarkFailed? && !step.Skip? && !step.Retire?
    ensures Potential(Apply(s, step)) <= Potential(s)
  {
    SameJobsSamePotential(s, Apply(s, step));
  }

  // ----- Runs -----

  ghost predicate SmoothRun(s: State, run: seq<Step>)
    requires Legal(s, run)
    decreases |run|
  {
    run == [] || (Smooth(s, run[0]) && SmoothRun(Apply(s, run[0]), run[1..]))
  }

  /** How many job claims a run performs. */
  function JobClaims(run: seq<Step>): nat {
    if run == [] then 0 else PickedBy(run[0]) + JobClaims(run[1..])
  }

  lemma {:induction false} ClaimsUsePotential(s: State, run: seq<Step>)
    requires LeaseInv(s) && Legal(s, run) && SmoothRun(s, run)
    ensures JobClaims(run) + Potential(After(s, run)) <= Potential(s)
    decreases |run|
  {
    if run != [] {
      LeaseStep(s, run[0]);
      PotentialStep(s, run[0]);
      ClaimsUsePotential(Apply(s, run[0]), run[1..]);
    }
  }

  ghost predicate NonePending(s: State) {
    forall id | id in s.jobs :: !s.jobs[id].status.Pending?
  }

  /** The claim statements that found a job to claim. */
  function BusyClaims(run: seq<Step>): nat {
    if run == [] then 0 else (if PickedBy(run[0]) > 0 then 1 else 0) + BusyClaims(run[1..])
  }

  lemma {:induction false} BusyClaimsPick(run: seq<Step>)
    ensures BusyClaims(run) <= JobClaims(run)
  {
    if run != [] {
      BusyClaimsPick(run[1..]);
    }
  }

  /** In every smooth run the claims of all jobs together, and so the claim statements that find one, number at most the potential. */
  lemma ClaimsAreBounded(s: State, run: seq<Step>)
    requires Reachable(s) && Legal(s, run) && SmoothRun(s, run)
    ensures BusyClaims(run) <= JobClaims(run) <= Potential(s)
  {
    ReachableHasLease(s);
    ClaimsUsePotential(s, run);
    BusyClaimsPick(run);
  }

  /** The claim comes late enough to find whatever is pending. */
  ghost predicate Patient(s: State, step: Step) {
    step.ClaimPending? && forall id | id in s.jobs && s.jobs[id].status.Pending? :: s.jobs[id].availableAt <= s.clock
  }

  ghost function PatientClaims(s: State, run: seq<Step>): nat
    requires Legal(s, run)
    decreases |run|
  {
    if run == [] then 0 else (if Patient(s, run[0]) then 1 else 0) + PatientClaims(Apply(s, run[0]), run[1..])
  }

  lemma PatientClaimFinds(s: State, step: Step)
    requires Enabled(s, step) && Patient(s, step) && !NonePending(s)
    ensures PickedBy(step) > 0
  {
    var id :| id in s.jobs && s.jobs[id].status.Pending?;
    assert IsDuePending(s, id);
  }

  /** What a tick holds is pending. */
  lemma NothingHeldWhenNonePending(s: State, tick: TickId)
    requires LeaseInv(s) && NonePending(s) && tick in s.ticks
    ensures s.ticks[tick].rows == [] && s.ticks[tick].todo == []
  {
    var t := s.ticks[tick];
    assert TickInv(s, t);
    if t.rows != [] {
      assert Holds(t, t.rows[0]);
    } else if t.todo != [] {
      assert Holds(t, t.todo[0]);
    }
  }

  /** A smooth run makes nothing pending. */
  lemma NonePendingStays(s: State, step: Step)
    requires LeaseInv(s) && Enabled(s, step) && Smooth(s, step) && NonePending(s)
    ensures NonePending(Apply(s, step))
  {
    if step.Screen? || step.Dispatch? || step.MarkSent? || step.MarkFailed? || step.Skip? {
      NothingHeldWhenNonePending(s, step.tick);
    } else if step.ClaimPending? {
      assert forall id | id in step.picked :: IsDuePending(s, id);
    }
  }

  lemma {:induction false} PatientRun(s: State, run: seq<Step>)
    requires LeaseInv(s) && Legal(s, run) && SmoothRun(s, run)
    ensures NonePending(s) ==> NonePending(After(s, run))
    ensures NonePending(After(s, run)) || PatientClaims(s, run) + Potential(After(s, run)) <= Potential(s)
    decreases |run|
  {
    if run != [] {
      LeaseStep(s, run[0]);
      PotentialStep(s, run[0]);
      if NonePending(s) {
        NonePendingStays(s, run[0]);
      } else if Patient(s, run[0]) {
        PatientClaimFinds(s, run[0]);
      }
      PatientRun(Apply(s, run[0]), run[1..]);
    }
  }

  /**
   * The outbox runs dry: whatever the channels answer, a smooth run from any reachable state with more patient claims
   * than the potential ends with every job sent or skipped.
   */
  lemma OutboxRunsDry(s: State, run: seq<Step>)
    requires Reachable(s) && Legal(s, run) && SmoothRun(s, run) && PatientClaims(s, run) > Potential(s)
    ensures NonePending(After(s, run))
  {
    ReachableHasLease(s);
    PatientRun(s, run);
  }

  // ----- Progress -----

  lemma {:induction false} Oldest(s: State, due: set<JobId>) returns (first: JobId)
    requires due != {} && forall id | id in due :: id in s.jobs
    ensures first in due && forall id | id in due :: s.jobs[first].availableAt <= s.jobs[id].availableAt
    decreases |due|
  {
    var any :| any in due;
    if due == {any} {
      first := any;
    } else {
      assert due - {any} != {};
      var rest := Oldest(s, due - {any});
      first := if s.jobs[any].availableAt <= s.jobs[rest].availableAt then any else rest;
    }
  }

  lemma {:induction false} OldestFirst(s: State, due: set<JobId>, limit: nat) returns (picked: seq<JobId>)
    requires forall id | id in due :: id in s.jobs
    ensures |picked| <= limit && forall i, j | 0 <= i < j < |picked| :: picked[i] != picked[j]
    ensures forall id | id in picked :: id in due
    ensures forall id | id in due && id !in picked ::
              |picked| == limit && forall p | p in picked :: s.jobs[p].availableAt <= s.jobs[id].availableAt
    decreases limit
  {
    if limit == 0 || due == {} {
      picked := [];
    } else {
      var first := Oldest(s, due);
      var rest := OldestFirst(s, due - {first}, limit - 1);
      picked := [first] + rest;
    }
  }

  /** The claim statement always has an answer. */
  lemma ClaimExists(s: State) returns (picked: seq<JobId>)
    ensures IsClaim(s, picked)
  {
    var due := set id | id in s.jobs && IsDuePending(s, id);
    picked := OldestFirst(s, due, CLAIM_LIMIT);
  }

  lemma SmoothCons(s: State, step: Step, run: seq<Step>)
    requires Enabled(s, step) && Smooth(s, step) && Legal(Apply(s, step), run) && SmoothRun(Apply(s, step), run)
    ensures Legal(s, [step] + run) && SmoothRun(s, [step] + run)
    ensures JobClaims([step] + run) == PickedBy(step) + JobClaims(run)
  {
    assert ([step] + run)[1..] == run;
  }

  lemma {:induction false} SmoothAppend(s: State, a: seq<Step>, b: seq<Step>)
    requires Legal(s, a) && SmoothRun(s, a) && Legal(After(s, a), b) && SmoothRun(After(s, a), b)
    ensures Legal(s, a + b) && SmoothRun(s, a + b) && After(s, a + b) == After(After(s, a), b)
    decreases |a|
  {
    if a == [] {
      assert a + b == b;
    } else {
      assert (a + b)[1..] == a[1..] + b;
      SmoothAppend(Apply(s, a[0]), a[1..], b);
    }
  }

  /** From every state with a pending job and no tick running, a smooth run claims some job again. */
  lemma PendingJobGetsClaimed(s: State, id: JobId) returns (run: seq<Step>)
    requires s.ticks == map[] && id in s.jobs && s.jobs[id].status.Pending?
    ensures Legal(s, run) && SmoothRun(s, run) && JobClaims(run) >= 1
  {
    var to := if s.clock <= s.jobs[id].availableAt then s.jobs[id].availableAt else s.clock;
    var s1 := s.(clock := to);
    var s2 := WithTick(s1, 0, Tick(to, Scheduling, 0, [], [], None));
    run := ClaimAfterScheduling(s2, 0, id);
    SmoothCons(s1, StartTick(0), run);
    run := [StartTick(0)] + run;
    SmoothCons(s, Advance(to), run);
    run := [Advance(to)] + run;
  }

  lemma ClaimAfterScheduling(s: State, tick: TickId, id: JobId) returns (run: seq<Step>)
    requires tick in s.ticks && s.ticks[tick].phase.Scheduling? && IsDuePending(s, id)
    ensures Legal(s, run) && SmoothRun(s, run) && JobClaims(run) >= 1
  {
    var s' := WithTick(s, tick, s.ticks[tick].(phase := Claiming));
    var picked := ClaimExists(s');
    assert IsDuePending(s', id);
    assert picked != [];
    SmoothCons(s', ClaimPending(tick, picked), []);
    run := [ClaimPending(tick, picked)] + [];
    SmoothCons(s, ClaimDueFails(tick), run);
    run := [ClaimDueFails(tick)] + run;
  }

  // ----- A dry outbox is always within reach -----

  lemma {:induction false} Above(ids: set<JobId>) returns (bound: JobId)
    ensures forall id: JobId | id in ids :: id < bound
    decreases |ids|
  {
    if ids == {} {
      bound := 0;
    } else {
      var any :| any in ids;
      var rest := Above(ids - {any});
      bound := if rest <= any then any + 1 else rest;
      forall id: JobId | id in ids
        ensures id < bound
      {
        assert id == any || id in ids - {any};
      }
    }
  }

  lemma FreshId(s: State) returns (id: JobId)
    ensures Fresh(s, id)
  {
    var ids := s.jobs.Keys + s.gone.Keys + s.trails.Keys;
    id := Above(ids);
    assert id !in ids;
  }

  /** How far a tick is from being done. */
  function Rest(t: Tick): nat {
    3 * |t.rows| + 2 * |t.todo| + if t.answer.Some? then 0 else 1
  }

  /** The tick gets on, and no other tick changes. */
  ghost predicate GetsOn(s: State, s': State, tick: TickId) {
    && tick in s.ticks && tick in s'.ticks && s'.ticks - {tick} == s.ticks - {tick}
    && Rest(s'.ticks[tick]) < Rest(s.ticks[tick])
  }

  lemma TickGetsOn(s: State, s': State, tick: TickId, t: Tick)
    requires tick in s.ticks && s'.ticks == s.ticks[tick := t] && Rest(t) < Rest(s.ticks[tick])
    ensures GetsOn(s, s', tick)
  {
  }

  lemma ScreenGetsOn(s: State, tick: TickId, valid: bool)
    requires IsWorking(s, tick) && s.ticks[tick].rows != []
    ensures GetsOn(s, ScreenWith(s, tick, valid), tick)
  {
    var t := s.ticks[tick];
    var t' := if valid then t.(rows := t.rows[1..], todo := t.todo + [t.rows[0]]) else t.(rows := t.rows[1..]);
    assert ScreenWith(s, tick, valid).ticks == s.ticks[tick := t'];
    TickGetsOn(s, ScreenWith(s, tick, valid), tick, t');
  }

  lemma HeadGetsOn(s: State, s': State, tick: TickId)
    requires HasHead(s, tick) && s'.ticks == DropHead(s, tick).ticks
    ensures GetsOn(s, s', tick)
  {
    TickGetsOn(s, s', tick, s'.ticks[tick]);
  }

  lemma SkipGetsOn(s: State, tick: TickId, email: JobId)
    requires HasHead(s, tick)
    ensures GetsOn(s, DoSkip(s, tick, s.clock, email), tick)
  {
    var fallback := Fallback(Head(s, tick).job, s.clock);
    SkipLeavesAlone(s, tick, s.clock, email, fallback);
    HeadGetsOn(s, SkipWith(s, tick, s.clock, email, fallback), tick);
  }

  /** A tick with work left has a next step. */
  lemma NextStep(s: State, tick: TickId) returns (step: Step)
    requires LeaseInv(s) && tick in s.ticks && (s.ticks[tick].rows != [] || s.ticks[tick].todo != [])
    ensures Enabled(s, step) && Smooth(s, step) && GetsOn(s, Apply(s, step), tick)
  {
    var t := s.ticks[tick];
    assert TickInv(s, t);
    if t.rows != [] {
      step := Screen(tick);
      ScreenGetsOn(s, tick, Contents(t.rows[0].job).Some?);
    } else if t.answer.None? && GoesToChannel(Head(s, tick).job) {
      step := Dispatch(tick, Delivered);
      TickGetsOn(s, DoDispatch(s, tick, Delivered), tick, t.(answer := Some(Delivered)));
    } else {
      step := NextWrite(s, tick);
    }
  }

  /** A tick that has its answer writes it. */
  lemma NextWrite(s: State, tick: TickId) returns (step: Step)
    requires LeaseInv(s) && Answered(s, tick)
    ensures Enabled(s, step) && Smooth(s, step) && GetsOn(s, Apply(s, step), tick)
  {
    assert TickInv(s, s.ticks[tick]);
    var answer := s.ticks[tick].answer;
    if answer == Some(Delivered) {
      step := MarkSent(tick, true);
      HeadGetsOn(s, DoMarkSent(s, tick, true), tick);
    } else if answer == Some(Errs) {
      step := MarkFailed(tick, true);
      HeadGetsOn(s, DoMarkFailed(s, tick, true), tick);
    } else {
      var email := FreshId(s);
      step := Skip(tick, s.clock, email);
      SkipGetsOn(s, tick, email);
    }
  }

  /** Any tick can be brought to its end. */
  lemma {:induction false} FinishTick(s: State, tick: TickId) returns (run: seq<Step>)
    requires LeaseInv(s) && tick in s.ticks
    ensures Legal(s, run) && SmoothRun(s, run) && After(s, run).ticks == s.ticks - {tick}
    decreases Rest(s.ticks[tick])
  {
    if s.ticks[tick].rows == [] && s.ticks[tick].todo == [] {
      SmoothCons(s, EndTick(tick), []);
      run := [EndTick(tick)] + [];
    } else {
      var step := NextStep(s, tick);
      LeaseStep(s, step);
      var rest := FinishTick(Apply(s, step), tick);
      SmoothCons(s, step, rest);
      run := [step] + rest;
      assert run[1..] == rest;
    }
  }

  lemma {:induction false} FinishAll(s: State) returns (run: seq<Step>)
    requires LeaseInv(s)
    ensures Legal(s, run) && SmoothRun(s, run) && After(s, run).ticks == map[]
    decreases |s.ticks|
  {
    if s.ticks == map[] {
      run := [];
    } else {
      var tick :| tick in s.ticks;
      run := FinishTick(s, tick);
      LeaseRun(s, run);
      assert |s.ticks - {tick}| == |s.ticks| - 1;
      var more := FinishAll(After(s, run));
      SmoothAppend(s, run, more);
      run := run + more;
    }
  }

  lemma {:induction false} DryRun(s: State) returns (run: seq<Step>)
    requires LeaseInv(s)
    ensures Legal(s, run) && SmoothRun(s, run)
    ensures After(s, run).ticks == map[] && NonePending(After(s, run))
    decreases Potential(s)
  {
    run := FinishAll(s);
    var s1 := After(s, run);
    LeaseRun(s, run);
    ClaimsUsePotential(s, run);
    if !NonePending(s1) {
      var id :| id in s1.jobs && s1.jobs[id].status.Pending?;
      var claim := PendingJobGetsClaimed(s1, id);
      LeaseRun(s1, claim);
      ClaimsUsePotential(s1, claim);
      var rest := DryRun(After(s1, claim));
      SmoothAppend(s1, claim, rest);
      SmoothAppend(s, run, claim + rest);
      run := run + (claim + rest);
    }
  }

  /** From every reachable state a smooth run leads to one without ticks and with every job sent or skipped. */
  lemma DryIsWithinReach(s: State) returns (run: seq<Step>)
    requires Reachable(s)
    ensures Legal(s, run) && SmoothRun(s, run)
    ensures After(s, run).ticks == map[] && NonePending(After(s, run))
  {
    ReachableHasLease(s);
    run := DryRun(s);
  }
}
