/**
 * The worker's own code: the statements it runs against the shared database and the loop of one tick, with
 * every other tick, the backend and retention free to run between any two statements.
 */
module Worker {
  import opened Text
  import opened Payload
  import opened Schedule
  import opened Outbox
  import opened Lease
  import opened Obligation
  import opened Staging
  import Backoff

  datatype Outcome = WasSent | WasSkipped | WasFailed | Dropped

  /** What a tick has recorded about a job, and whether the row shows it. */
  datatype Entry = Entry(outcome: Outcome, written: bool)

  function EntriesOf(step: Step, me: TickId): seq<Entry> {
    match step
    case MarkSent(tick, written) => if tick == me then [Entry(WasSent, written)] else []
    case MarkFailed(tick, written) => if tick == me then [Entry(WasFailed, written)] else []
    case Skip(tick, _, _) => if tick == me then [Entry(WasSkipped, true)] else []
    case _ => []
  }

  /** All that a tick has recorded, in order. */
  function Entries(log: seq<Step>, me: TickId): seq<Entry> {
    if log == [] then [] else Entries(log[..|log| - 1], me) + EntriesOf(log[|log| - 1], me)
  }

  lemma EntriesOneMore(log: seq<Step>, step: Step, me: TickId)
    ensures Entries(log + [step], me) == Entries(log, me) + EntriesOf(step, me)
  {
    assert (log + [step])[..|log|] == log;
  }

  /** The owner's settings, as the select joins them to a reminder. */
  datatype Settings = Settings(user: nat, dueAt: I64, email: bool, push: bool, hasPushDevice: bool, mailsToOwnMailbox: bool)

  /** Named where a proof looks at the steps of a run; other proofs only pass the run on. */
  ghost predicate Looked(log: seq<Step>) {
    true
  }

  type Records = map<TickId, seq<Entry>>

  function RecordsOf(records: Records, me: TickId): seq<Entry> {
    if me in records then records[me] else []
  }

  /** The steps lead from an empty outbox to this state, and these are the records among them. */
  ghost predicate OnRun(start: State, log: seq<Step>, state: State, records: Records) {
    forall run | Looked(run) && run == log ::
      && Init(start) && Legal(start, run) && After(start, run) == state
      && forall tick :: RecordsOf(records, tick) == Entries(run, tick)
  }

  /** The records once the step is among the run's. */
  function Noted(records: Records, step: Step): Records {
    match step
    case MarkSent(tick, _) => records[tick := RecordsOf(records, tick) + EntriesOf(step, tick)]
    case MarkFailed(tick, _) => records[tick := RecordsOf(records, tick) + EntriesOf(step, tick)]
    case Skip(tick, _, _) => records[tick := RecordsOf(records, tick) + EntriesOf(step, tick)]
    case _ => records
  }

  lemma RunGoesOn(start: State, log: seq<Step>, state: State, records: Records, step: Step)
    requires OnRun(start, log, state, records) && Enabled(state, step)
    ensures OnRun(start, log + [step], Apply(state, step), Noted(records, step))
  {
    assert Looked(log);
    RunOneMore(start, log, step);
    forall tick
      ensures RecordsOf(Noted(records, step), tick) == Entries(log + [step], tick)
    {
      EntriesOneMore(log, step, tick);
    }
  }

  lemma RunReaches(start: State, log: seq<Step>, state: State, records: Records)
    requires OnRun(start, log, state, records)
    ensures Reachable(state)
  {
    assert Looked(log);
  }

  /**
   * The tables and the clock. The ghost fields say which run of the outbox has led here, so that whatever holds
   * of every reachable state holds of the tables.
   */
  class Database {
    var clock: Time
    var reminders: map<ReminderId, Reminder>
    var jobs: map<JobId, Job>
    var nextId: JobId
    ghost const start: State
    ghost var log: seq<Step>
    ghost var state: State
    ghost var records: Records

    ghost predicate Valid()
      reads this
    {
      && OnRun(start, log, state, records)
      && clock == state.clock && reminders == state.reminders && jobs == state.jobs
      && (forall id | id in state.trails :: id < nextId)
    }

    constructor (reminders: map<ReminderId, Reminder>, clock: Time)
      ensures Valid() && log == [] && state.ticks == map[]
    {
      this.clock, this.reminders, this.jobs, this.nextId := clock, reminders, map[], 0;
      var init := State(clock, reminders, map[], map[], map[], map[], map[]);
      start, log, state, records := init, [], init, map[];
    }

    /** The run goes on with one step. */
    ghost method Record(step: Step)
      requires OnRun(start, log, state, records) && Enabled(state, step)
      modifies this`log, this`state, this`records
      ensures log == old(log) + [step] && state == Apply(old(state), step) && records == Noted(old(records), step)
      ensures OnRun(start, log, state, records)
    {
      RunGoesOn(start, log, state, records, step);
      records := Noted(records, step);
      log := log + [step];
      state := Apply(state, step);
    }

    /** The records are what the run says each tick recorded. */
    lemma RecordsAreLogged(tick: TickId)
      requires Valid()
      ensures RecordsOf(records, tick) == Entries(log, tick)
    {
      assert Looked(log);
    }

    lemma IsReachable()
      requires Valid()
      ensures Reachable(state) && LeaseInv(state) && ObligationInv(state)
    {
      RunReaches(start, log, state, records);
      ReachableIsSettled(state);
    }

    /**
     * Between two statements of a tick anything else may happen; the tick itself may be cut off, and if it is
     * not, its own bookkeeping is untouched.
     */
    method Interfere(me: TickId) returns (alive: bool)
      requires Valid() && me in state.ticks
      modifies this
      ensures Valid() && old(log) <= log
      ensures alive ==> me in state.ticks && state.ticks[me] == old(state.ticks[me]) && RecordsOf(records, me) == RecordsOf(old(records), me)
      ensures !alive ==> me !in state.ticks
    {
      alive := true;
    }

    /** The tick returns or is cut off. */
    method End(me: TickId)
      requires Valid() && me in state.ticks
      modifies this`log, this`state, this`records
      ensures Valid() && log == old(log) + [EndTick(me)] && me !in state.ticks
    {
      Record(EndTick(me));
    }

    // ----- Statements -----

    method MarkSent(me: TickId, id: JobId, works: bool)
      requires Valid() && HasHead(state, me) && Head(state, me).id == id && state.ticks[me].answer == Some(Delivered)
      modifies this
      ensures Valid() && log == old(log) + [Step.MarkSent(me, works)]
      ensures RecordsOf(records, me) == RecordsOf(old(records), me) + [Entry(WasSent, works)]
      ensures state == DoMarkSent(old(state), me, works)
    {
      if works && id in jobs {
        jobs := jobs[id := jobs[id].(status := Sent, updatedAt := clock)];
      }
      Record(Step.MarkSent(me, works));
    }

    method MarkFailed(me: TickId, id: JobId, delay: nat, works: bool)
      requires Valid() && Answered(state, me) && Head(state, me).id == id && state.ticks[me].answer != Some(Delivered)
      requires delay == Backoff.RetryDelay(Head(state, me).job.attempts)
      modifies this
      ensures Valid() && log == old(log) + [Step.MarkFailed(me, works)]
      ensures RecordsOf(records, me) == RecordsOf(old(records), me) + [Entry(WasFailed, works)]
      ensures state == DoMarkFailed(old(state), me, works)
    {
      if works && id in jobs {
        var seconds := if delay < 1 then 1 else delay;
        jobs := jobs[id := jobs[id].(status := Pending, availableAt := clock + SECOND * seconds, updatedAt := clock)];
      }
      Record(Step.MarkFailed(me, works));
    }

    lemma NextIdIsFresh()
      requires Valid()
      ensures Fresh(state, nextId)
    {
      IsReachable();
    }

    ghost method RecordSkip(me: TickId, email: JobId, fallback: Option<Job>)
      requires Valid() && Answered(state, me) && state.ticks[me].started <= clock && Fresh(state, email)
      requires state.ticks[me].answer.Some? ==> state.ticks[me].answer.value.GivesUp?
      requires fallback == Fallback(Head(state, me).job, clock)
      modifies this`log, this`state, this`records
      ensures log == old(log) + [Step.Skip(me, clock, email)]
      ensures RecordsOf(records, me) == RecordsOf(old(records), me) + [Entry(WasSkipped, true)]
      ensures state == SkipWith(old(state), me, clock, email, fallback)
      ensures state.clock == clock && state.reminders == reminders
      ensures state.jobs == SkipTable(jobs, Head(old(state), me).id, clock, email, fallback)
      ensures state.trails.Keys == old(state).trails.Keys + (if fallback.Some? then {email} else {})
      ensures OnRun(start, log, state, records)
    {
      SkippedTables(state, me, clock, email, fallback);
      Record(Step.Skip(me, clock, email));
    }

    /** The outbox's skip step, both rows of it, or no change at all. */
    method Skip(me: TickId, c: Claimed, works: bool)
      requires Valid() && Answered(state, me) && Head(state, me) == c && state.ticks[me].started <= clock
      requires state.ticks[me].answer.Some? ==> state.ticks[me].answer.value.GivesUp?
      modifies this
      ensures Valid()
      ensures works ==> state == SkipWith(old(state), me, old(clock), old(nextId), Fallback(c.job, old(clock)))
      ensures works ==> log == old(log) + [Step.Skip(me, old(clock), old(nextId))]
      ensures works ==> RecordsOf(records, me) == RecordsOf(old(records), me) + [Entry(WasSkipped, true)]
      ensures !works ==> state == old(state) && log == old(log) && records == old(records)
    {
      if works {
        var email := nextId;
        var fallback := Fallback(c.job, clock);
        NextIdIsFresh();
        RecordSkip(me, email, fallback);
        WriteSkip(c.id, email, fallback);
      }
    }

    /** The statements of the skip transaction. */
    method WriteSkip(id: JobId, email: JobId, fallback: Option<Job>)
      requires email == nextId
      modifies this`jobs, this`nextId
      ensures jobs == SkipTable(old(jobs), id, clock, email, fallback)
      ensures nextId == if fallback.Some? then email + 1 else email
    {
      if id in jobs {
        jobs := jobs[id := jobs[id].(status := Skipped, updatedAt := clock)];
      }
      if fallback.Some? {
        jobs := jobs[email := fallback.value];
        nextId := nextId + 1;
      }
    }

    /** The screening step for a row that is refused: it ends skipped, and no email takes its place. */
    method SkipInvalid(me: TickId, c: Claimed)
      requires Valid() && IsWorking(state, me) && state.ticks[me].rows != [] && state.ticks[me].rows[0] == c
      requires Contents(c.job).None?
      modifies this
      ensures Valid() && log == old(log) + [Screen(me)] && records == old(records)
      ensures state == ScreenWith(old(state), me, false)
    {
      if c.id in jobs {
        jobs := jobs[c.id := jobs[c.id].(status := Skipped, updatedAt := clock)];
      }
      Record(Screen(me));
    }

    /**
     * The whole scheduling transaction: the earliest due reminders nobody else has locked are marked sent and get a job
     * per channel, or nothing happens.
     */
    method ClaimDue(me: TickId, locked: set<ReminderId>, settings: ReminderId -> Settings, works: bool) returns (rows: seq<Picked>)
      requires Valid() && me in state.ticks && state.ticks[me].phase.Scheduling? && state.ticks[me].started <= clock
      modifies this
      ensures Valid()
      ensures IsSelection(old(reminders), Cutoff(old(clock)), locked, rows)
      ensures forall p | p in rows :: HasSettings(p, settings(p.rid))
      ensures works ==> CanScheduleAll(old(state), Cutoff(old(clock)), old(clock), rows)
      ensures works ==>
                state == WithTick(ScheduleAll(old(state), Cutoff(old(clock)), old(clock), rows), me, old(state).ticks[me].(phase := Claiming))
      ensures !works ==> state == WithTick(old(state), me, old(state).ticks[me].(phase := Claiming))
      ensures log == old(log) + [if works then Step.ClaimDue(me, old(clock), rows) else Step.ClaimDueFails(me)] && records == old(records)
    {
      rows := SelectDue(reminders, Cutoff(clock), locked, settings, nextId);
      if !works {
        Record(Step.ClaimDueFails(me));
        return;
      }
      IsReachable();
      SelectedCanBeScheduled(state, clock, locked, rows, nextId);
      var bound := nextId + 2 * |rows|;
      var updated, inserted := StageAll(state, reminders, jobs, rows, clock, bound);
      RecordSchedule(me, rows);
      reminders, jobs, nextId := updated, inserted, bound;
    }

    ghost method RecordSchedule(me: TickId, rows: seq<Picked>)
      requires Valid() && me in state.ticks && state.ticks[me].phase.Scheduling? && state.ticks[me].started <= clock
      requires |rows| <= DUE_LIMIT && CanScheduleAll(state, Cutoff(clock), clock, rows)
      modifies this`log, this`state, this`records
      ensures log == old(log) + [Step.ClaimDue(me, clock, rows)] && records == old(records)
      ensures state == WithTick(ScheduleAll(old(state), Cutoff(clock), clock, rows), me, old(state).ticks[me].(phase := Claiming))
      ensures OnRun(start, log, state, records)
    {
      Record(Step.ClaimDue(me, clock, rows));
    }

    /** A claimed row with a valid payload joins the jobs the tick will send. */
    ghost method Accept(me: TickId, c: Claimed)
      requires Valid() && IsWorking(state, me) && state.ticks[me].rows != [] && state.ticks[me].rows[0] == c
      requires Contents(c.job).Some?
      modifies this`log, this`state, this`records
      ensures Valid() && log == old(log) + [Screen(me)] && records == old(records)
      ensures state == ScreenWith(old(state), me, true)
    {
      Record(Screen(me));
    }

    /** The job is handed to its channel, which answers. */
    ghost method HandOver(me: TickId, answer: Answer)
      requires Valid() && HasHead(state, me) && state.ticks[me].answer.None? && GoesToChannel(Head(state, me).job)
      modifies this`log, this`state, this`records
      ensures Valid() && log == old(log) + [Step.Dispatch(me, answer)] && records == old(records)
      ensures me in state.ticks && state.ticks[me] == old(state.ticks[me]).(answer := Some(answer))
    {
      Record(Step.Dispatch(me, answer));
    }

    /** One claim step of the outbox, of exactly the jobs it returns. */
    method ClaimStatement(me: TickId) returns (rows: seq<Claimed>)
      requires Valid() && me in state.ticks && state.ticks[me].phase.Claiming?
      modifies this
      ensures Valid() && IsClaim(old(state), Ids(rows))
      ensures log == old(log) + [Step.ClaimPending(me, Ids(rows))] && records == old(records)
      ensures state == DoClaimPending(old(state), me, Ids(rows)) && state.ticks[me].rows == rows
    {
      var picked := OldestDue(jobs, clock);
      assert IsClaim(state, picked);
      var leased;
      leased, rows := LeaseAll(jobs, picked, clock);
      assert Ids(rows) == picked;
      RecordClaim(me, picked);
      assert state.ticks[me].rows == rows;
      jobs := leased;
    }

    ghost method RecordClaim(me: TickId, picked: seq<JobId>)
      requires Valid() && me in state.ticks && state.ticks[me].phase.Claiming? && IsClaim(state, picked)
      modifies this`log, this`state, this`records
      ensures log == old(log) + [Step.ClaimPending(me, picked)] && records == old(records)
      ensures forall id | id in picked :: id in old(state.jobs)
      ensures state == DoClaimPending(old(state), me, picked)
      ensures OnRun(start, log, state, records)
    {
      Record(Step.ClaimPending(me, picked));
    }
  }

  function Ids(rows: seq<Claimed>): (ids: seq<JobId>)
    ensures |ids| == |rows| && forall i | 0 <= i < |rows| :: ids[i] == rows[i].id
  {
    seq(|rows|, i requires 0 <= i < |rows| => rows[i].id)
  }

  /** The update of a claim: exactly the rows picked, leased, whatever order they come in. */
  method LeaseAll(jobs: map<JobId, Job>, picked: seq<JobId>, now: Time) returns (leased: map<JobId, Job>, rows: seq<Claimed>)
    requires forall id | id in picked :: id in jobs
    requires forall i, j | 0 <= i < j < |picked| :: picked[i] != picked[j]
    ensures leased == map id | id in jobs :: if id in picked then Leased(jobs[id], now) else jobs[id]
    ensures |rows| == |picked| && forall i | 0 <= i < |rows| :: rows[i] == Claimed(picked[i], Leased(jobs[picked[i]], now))
  {
    leased, rows := jobs, [];
    for k := 0 to |picked|
      invariant leased == map id | id in jobs :: if id in picked[..k] then Leased(jobs[id], now) else jobs[id]
      invariant |rows| == k && forall i | 0 <= i < k :: rows[i] == Claimed(picked[i], Leased(jobs[picked[i]], now))
    {
      var id := picked[k];
      assert id in picked;
      assert picked[..k + 1] == picked[..k] + [id];
      rows := rows + [Claimed(id, Leased(jobs[id], now))];
      leased := leased[id := Leased(jobs[id], now)];
    }
    assert picked[..|picked|] == picked;
  }

  /** The select of a claim: the oldest due pending jobs, all of them unless there are more than fifty. */
  method OldestDue(jobs: map<JobId, Job>, now: Time) returns (picked: seq<JobId>)
    ensures |picked| <= 50 && forall i, j | 0 <= i < j < |picked| :: picked[i] != picked[j]
    ensures forall id | id in picked :: id in jobs && jobs[id].status.Pending? && jobs[id].availableAt <= now
    ensures forall id | id in jobs && jobs[id].status.Pending? && jobs[id].availableAt <= now && id !in picked ::
              |picked| == 50 && forall p | p in picked :: jobs[p].availableAt <= jobs[id].availableAt
  {
    picked := [];
    var rest := set id | id in jobs && jobs[id].status.Pending? && jobs[id].availableAt <= now;
    while |picked| < CLAIM_LIMIT && rest != {}
      invariant |picked| <= CLAIM_LIMIT && forall i, j | 0 <= i < j < |picked| :: picked[i] != picked[j]
      invariant forall id :: (id in picked || id in rest) <==> (id in jobs && jobs[id].status.Pending? && jobs[id].availableAt <= now)
      invariant forall id | id in picked :: id !in rest
      invariant forall p, id | p in picked && id in rest :: jobs[p].availableAt <= jobs[id].availableAt
      decreases |rest|
    {
      var first := OldestOf(jobs, rest);
      picked := picked + [first];
      rest := rest - {first};
    }
  }

  method OldestOf(jobs: map<JobId, Job>, ids: set<JobId>) returns (first: JobId)
    requires ids != {} && forall id | id in ids :: id in jobs
    ensures first in ids && forall id | id in ids :: jobs[first].availableAt <= jobs[id].availableAt
  {
    first :| first in ids;
    var rest := ids - {first};
    while rest != {}
      invariant rest <= ids && first in ids
      invariant forall id | id in ids && id !in rest :: jobs[first].availableAt <= jobs[id].availableAt
      decreases |rest|
    {
      var next :| next in rest;
      if jobs[next].availableAt < jobs[first].availableAt {
        first := next;
      }
      rest := rest - {next};
    }
  }

  predicate HasSettings(p: Picked, s: Settings) {
    Settings(p.user, p.dueAt, p.email, p.push, p.hasPushDevice, p.mailsToOwnMailbox) == s
  }

  function PickedRow(rid: ReminderId, s: Settings, id: JobId): Picked {
    Picked(rid, s.user, s.dueAt, s.email, s.push, s.hasPushDevice, s.mailsToOwnMailbox, id, id + 1)
  }

  /** Ids are handed out two at a time. */
  ghost predicate Numbered(rows: seq<Picked>, firstId: JobId) {
    forall i | 0 <= i < |rows| :: rows[i].emailId == firstId + 2 * i && rows[i].pushId == firstId + 2 * i + 1
  }

  lemma SelectedCanBeScheduled(s: State, now: Time, locked: set<ReminderId>, rows: seq<Picked>, firstId: JobId)
    requires Tables(s) && (forall id | id in s.trails :: id < firstId)
    requires IsSelection(s.reminders, Cutoff(now), locked, rows) && Numbered(rows, firstId)
    ensures CanScheduleAll(s, Cutoff(now), now, rows)
    ensures forall p | p in rows :: p.emailId < firstId + 2 * |rows| && p.pushId < firstId + 2 * |rows|
  {
    forall i | 0 <= i < |rows|
      ensures rows[i].rid in s.reminders && IsDue(s.reminders[rows[i].rid], Cutoff(now))
      ensures Fresh(s, rows[i].emailId) && Fresh(s, rows[i].pushId)
    {
      assert rows[i] in rows;
    }
    assert NewIds(s, rows);
    LockedRowsCanBeScheduled(s, Cutoff(now), now, rows);
  }

  /** The select of scheduling, with new ids for the jobs to come. */
  method SelectDue(reminders: map<ReminderId, Reminder>, cutoff: Time, locked: set<ReminderId>, settings: ReminderId -> Settings, firstId: JobId)
    returns (rows: seq<Picked>)
    ensures IsSelection(reminders, cutoff, locked, rows)
    ensures forall p | p in rows :: HasSettings(p, settings(p.rid))
    ensures Numbered(rows, firstId)
  {
    var due := set rid | rid in reminders && IsDue(reminders[rid], cutoff) && rid !in locked;
    var rids := EarliestFirst(reminders, due);
    rows := seq(|rids|, i requires 0 <= i < |rids| => PickedRow(rids[i], settings(rids[i]), firstId + 2 * i));
    EarliestAreSelected(reminders, cutoff, locked, rids, rows);
  }

  lemma EarliestAreSelected(reminders: map<ReminderId, Reminder>, cutoff: Time, locked: set<ReminderId>, rids: seq<ReminderId>, rows: seq<Picked>)
    requires |rows| == |rids| <= DUE_LIMIT && forall i | 0 <= i < |rids| :: rows[i].rid == rids[i]
    requires forall i, j | 0 <= i < j < |rids| :: rids[i] != rids[j]
    requires forall rid | rid in rids :: rid in reminders && IsDue(reminders[rid], cutoff) && rid !in locked
    requires forall rid | rid in reminders && IsDue(reminders[rid], cutoff) && rid !in locked && rid !in rids ::
               |rids| == DUE_LIMIT && forall r | r in rids :: reminders[r].time <= reminders[rid].time
    ensures IsSelection(reminders, cutoff, locked, rows)
  {
    forall p | p in rows
      ensures p.rid in rids
    {
      var i :| 0 <= i < |rows| && rows[i] == p;
      assert rids[i] in rids;
    }
    forall rid | rid in rids
      ensures exists p :: p in rows && p.rid == rid
    {
      var i :| 0 <= i < |rids| && rids[i] == rid;
      assert rows[i] in rows;
    }
  }

  method EarliestFirst(reminders: map<ReminderId, Reminder>, due: set<ReminderId>) returns (rids: seq<ReminderId>)
    requires due <= reminders.Keys
    ensures |rids| <= 50 && forall i, j | 0 <= i < j < |rids| :: rids[i] != rids[j]
    ensures forall rid | rid in rids :: rid in due
    ensures forall rid | rid in due && rid !in rids ::
              |rids| == 50 && forall r | r in rids :: reminders[r].time <= reminders[rid].time
  {
    rids := [];
    var rest := due;
    while |rids| < DUE_LIMIT && rest != {}
      invariant |rids| <= DUE_LIMIT && forall i, j | 0 <= i < j < |rids| :: rids[i] != rids[j]
      invariant forall rid :: (rid in rids || rid in rest) <==> rid in due
      invariant forall rid | rid in rids :: rid !in rest
      invariant forall r, rid | r in rids && rid in rest :: reminders[r].time <= reminders[rid].time
      decreases |rest|
    {
      var first := EarliestOf(reminders, rest);
      rids := rids + [first];
      rest := rest - {first};
    }
  }

  method EarliestOf(reminders: map<ReminderId, Reminder>, rids: set<ReminderId>) returns (first: ReminderId)
    requires rids != {} && rids <= reminders.Keys
    ensures first in rids && forall rid | rid in rids :: reminders[first].time <= reminders[rid].time
  {
    first :| first in rids;
    var rest := rids - {first};
    while rest != {}
      invariant rest <= rids && first in rids
      invariant forall rid | rid in rids && rid !in rest :: reminders[first].time <= reminders[rid].time
      decreases |rest|
    {
      var next :| next in rest;
      if reminders[next].time < reminders[first].time {
        first := next;
      }
      rest := rest - {next};
    }
  }

  /** The loop over the selected reminders: what it stages is what scheduling them one after another gives. */
  method StageAll(ghost s: State, reminders: map<ReminderId, Reminder>, jobs: map<JobId, Job>, rows: seq<Picked>, now: Time, ghost bound: JobId)
    returns (updated: map<ReminderId, Reminder>, inserted: map<JobId, Job>)
    requires s.reminders == reminders && s.jobs == jobs && CanScheduleAll(s, Cutoff(now), now, rows)
    requires forall id | id in s.trails :: id < bound
    requires forall p | p in rows :: p.emailId < bound && p.pushId < bound
    ensures var s' := ScheduleAll(s, Cutoff(now), now, rows);
            updated == s'.reminders && inserted == s'.jobs && s'.clock == s.clock && forall id | id in s'.trails :: id < bound
  {
    ghost var cutoff := Cutoff(now);
    updated, inserted := reminders, jobs;
    ghost var staged := s;
    for k := 0 to |rows|
      invariant updated == staged.reminders && inserted == staged.jobs && staged.clock == s.clock
      invariant forall id | id in staged.trails :: id < bound
      invariant CanScheduleAll(staged, cutoff, now, rows[k..])
      invariant ScheduleAll(staged, cutoff, now, rows[k..]) == ScheduleAll(s, cutoff, now, rows)
    {
      var p := rows[k];
      assert rows[k..][0] == p && rows[k..][1..] == rows[k + 1..];
      updated, inserted := StageRow(updated, inserted, p, now);
      StagedTables(staged, cutoff, now, p);
      staged := ScheduleOne(staged, cutoff, now, p);
    }
  }

  /** The statements for one selected reminder. */
  method StageRow(reminders: map<ReminderId, Reminder>, jobs: map<JobId, Job>, p: Picked, now: Time)
    returns (updated: map<ReminderId, Reminder>, inserted: map<JobId, Job>)
    requires p.rid in reminders
    ensures updated == reminders[p.rid := reminders[p.rid].(sent := true)]
    ensures inserted == ChannelTable(jobs, DueOf(reminders[p.rid], p), p, now)
  {
    var due := DueOf(reminders[p.rid], p);
    updated := reminders[p.rid := reminders[p.rid].(sent := true)];
    inserted := jobs;
    var channels := ChannelsFor(due);
    for c := 0 to |channels|
      invariant inserted == InsertChannels(jobs, due, p, now, channels[..c])
    {
      assert channels[..c + 1][..c] == channels[..c];
      var id := if channels[c].EmailChannel? then p.emailId else p.pushId;
      inserted := inserted[id := ChannelJob(due, channels[c], now, p.rid)];
    }
    assert channels[..|channels|] == channels;
  }

  function SkipTable(jobs: map<JobId, Job>, id: JobId, at: Time, email: JobId, fallback: Option<Job>): map<JobId, Job> {
    var skipped := if id in jobs then jobs[id := jobs[id].(status := Skipped, updatedAt := at)] else jobs;
    if fallback.Some? then skipped[email := fallback.value] else skipped
  }

  lemma SkippedTables(s: State, tick: TickId, at: Time, email: JobId, fallback: Option<Job>)
    requires HasHead(s, tick)
    ensures var s' := SkipWith(s, tick, at, email, fallback);
            && s'.clock == s.clock && s'.reminders == s.reminders
            && s'.jobs == SkipTable(s.jobs, Head(s, tick).id, at, email, fallback)
            && s'.trails.Keys == (if fallback.Some? then s.trails.Keys + {email} else s.trails.Keys)
  {
    SkipLeavesAlone(s, tick, at, email, fallback);
  }

  /** The tick has these jobs left, all validated. */
  ghost predicate AtWork(db: Database, me: TickId, todo: seq<Claimed>)
    reads db
  {
    && me in db.state.ticks && db.state.ticks[me].phase.Working?
    && db.state.ticks[me].rows == [] && db.state.ticks[me].todo == todo && db.state.ticks[me].answer.None?
  }

  lemma ClaimingTickHoldsNothing(db: Database, me: TickId)
    requires db.Valid() && me in db.state.ticks && db.state.ticks[me].phase.Claiming?
    ensures db.state.ticks[me].rows == [] && db.state.ticks[me].todo == [] && db.state.ticks[me].answer.None?
  {
    db.IsReachable();
    assert TickInv(db.state, db.state.ticks[me]);
  }

  lemma StartedBefore(db: Database, me: TickId)
    requires db.Valid() && me in db.state.ticks
    ensures db.state.ticks[me].started <= db.clock
  {
    db.IsReachable();
    assert TickInv(db.state, db.state.ticks[me]);
  }

  /** The rows the claimer accepts. */
  function ValidRows(rows: seq<Claimed>): seq<Claimed> {
    if rows == [] then []
    else ValidRows(rows[..|rows| - 1]) + if Contents(rows[|rows| - 1].job).Some? then [rows[|rows| - 1]] else []
  }

  lemma ValidOneMore(rows: seq<Claimed>, k: nat)
    requires k < |rows|
    ensures ValidRows(rows[..k + 1]) == ValidRows(rows[..k]) + if Contents(rows[k].job).Some? then [rows[k]] else []
  {
    assert rows[..k + 1][..k] == rows[..k];
  }

  /** The claim step of this tick is in the log behind position `from`. */
  ghost predicate ClaimedSince(log: seq<Step>, from: nat, me: TickId, rows: seq<Claimed>) {
    exists i :: from <= i < |log| && log[i] == Step.ClaimPending(me, Ids(rows))
  }

  /**
   * Claims jobs and reads their payloads. The tick goes on with exactly the claimed rows whose payload is valid, in
   * order; the others are marked skipped, and an error there ends the tick.
   */
  method ClaimPending(db: Database, me: TickId, screens: nat -> bool) returns (alive: bool, valid: seq<Claimed>, ghost rows: seq<Claimed>)
    requires db.Valid() && me in db.state.ticks && db.state.ticks[me].phase.Claiming?
    modifies db
    ensures db.Valid() && old(db.log) <= db.log
    ensures alive ==> AtWork(db, me, valid) && valid == ValidRows(rows) && ClaimedSince(db.log, |old(db.log)|, me, rows)
    ensures alive ==> RecordsOf(db.records, me) == RecordsOf(old(db.records), me)
    ensures !alive ==> me !in db.state.ticks
  {
    valid, rows := [], [];
    alive := db.Interfere(me);
    if !alive {
      return;
    }
    ClaimingTickHoldsNothing(db, me);
    ghost var before := db.log;
    var claimed := db.ClaimStatement(me);
    rows := claimed;
    assert db.log[|before|] == Step.ClaimPending(me, Ids(rows));
    alive, valid := ScreenRows(db, me, claimed, screens);
  }

  method ScreenRows(db: Database, me: TickId, rows: seq<Claimed>, screens: nat -> bool) returns (alive: bool, valid: seq<Claimed>)
    requires db.Valid() && IsWorking(db.state, me)
    requires db.state.ticks[me].rows == rows && db.state.ticks[me].todo == [] && db.state.ticks[me].answer.None?
    modifies db
    ensures db.Valid() && old(db.log) <= db.log
    ensures alive ==> AtWork(db, me, valid) && valid == ValidRows(rows) && RecordsOf(db.records, me) == RecordsOf(old(db.records), me)
    ensures !alive ==> me !in db.state.ticks
  {
    valid, alive := [], true;
    for k := 0 to |rows|
      invariant db.Valid() && old(db.log) <= db.log && alive
      invariant IsWorking(db.state, me) && db.state.ticks[me].answer.None?
      invariant db.state.ticks[me].rows == rows[k..] && db.state.ticks[me].todo == valid
      invariant valid == ValidRows(rows[..k])
      invariant RecordsOf(db.records, me) == RecordsOf(old(db.records), me)
    {
      alive := db.Interfere(me);
      if !alive {
        return;
      }
      ValidOneMore(rows, k);
      if Contents(rows[k].job).Some? {
        db.Accept(me, rows[k]);
        valid := valid + [rows[k]];
      } else if screens(k) {
        db.SkipInvalid(me, rows[k]);
      } else {
        db.End(me);
        alive := false;
        return;
      }
    }
    assert rows[..|rows|] == rows;
  }

  /** A skip that commits takes the job off the list; one that fails changes nothing and counts as a failure of the job. */
  method SkipJob(db: Database, me: TickId, c: Claimed, works: bool) returns (outcome: Outcome)
    requires db.Valid() && Answered(db.state, me) && Head(db.state, me) == c
    requires db.state.ticks[me].answer.Some? ==> db.state.ticks[me].answer.value.GivesUp?
    modifies db
    ensures db.Valid() && old(db.log) <= db.log
    ensures outcome == if works then WasSkipped else WasFailed
    ensures works ==> AtWork(db, me, old(db.state.ticks[me].todo)[1..])
    ensures works ==> RecordsOf(db.records, me) == RecordsOf(old(db.records), me) + [Entry(WasSkipped, true)]
    ensures !works ==> db.state == old(db.state) && db.log == old(db.log) && db.records == old(db.records)
  {
    StartedBefore(db, me);
    ghost var before, at, email := db.state, db.clock, db.nextId;
    db.Skip(me, c, works);
    if works {
      SkipLeavesAlone(before, me, at, email, Fallback(c.job, at));
    }
    outcome := if works then WasSkipped else WasFailed;
  }

  /**
   * What a job that was dealt with came to: sent exactly if its channel took it, skipped exactly if it was not to be sent
   * and the skip could be written, failed otherwise. Past the limit or on an unknown channel nobody is asked.
   */
  ghost predicate Follows(outcome: Outcome, job: Job, answer: Answer, skipWorks: bool) {
    var asked := job.attempts < 8 && (job.channel.EmailChannel? || job.channel.PushChannel?);
    && !outcome.Dropped?
    && (outcome.WasSent? <==> asked && answer.Delivered?)
    && (outcome.WasSkipped? <==> skipWorks && (asked ==> answer.GivesUp?))
    && (outcome.WasFailed? <==> if asked then answer.Errs? || (answer.GivesUp? && !skipWorks) else !skipWorks)
  }

  /** At the attempt limit, or on an unknown channel, the job is skipped without asking; otherwise the channel's answer decides. */
  method Dispatch(db: Database, me: TickId, c: Claimed, answer: Answer, works: bool) returns (outcome: Outcome)
    requires db.Valid() && HasHead(db.state, me) && Head(db.state, me) == c && AtWork(db, me, db.state.ticks[me].todo)
    modifies db
    ensures db.Valid() && old(db.log) <= db.log
    ensures outcome.Dropped? ==> me !in db.state.ticks
    ensures outcome.WasSkipped? ==> AtWork(db, me, old(db.state.ticks[me].todo)[1..])
    ensures outcome.WasSkipped? ==> RecordsOf(db.records, me) == RecordsOf(old(db.records), me) + [Entry(WasSkipped, true)]
    ensures outcome.WasSent? || outcome.WasFailed? ==>
              && Answered(db.state, me) && db.state.ticks[me].rows == [] && db.state.ticks[me].todo == old(db.state.ticks[me].todo)
              && RecordsOf(db.records, me) == RecordsOf(old(db.records), me)
    ensures outcome.WasSent? ==> db.state.ticks[me].answer == Some(Delivered)
    ensures outcome.WasFailed? ==> db.state.ticks[me].answer != Some(Delivered)
    ensures outcome.Dropped? || Follows(outcome, c.job, answer, works)
  {
    if c.job.attempts >= MAX_ATTEMPTS {
      outcome := SkipJob(db, me, c, works);
      return;
    }
    match c.job.channel {
      case UnknownChannel =>
        outcome := SkipJob(db, me, c, works);
      case _ =>
        db.HandOver(me, answer);
        var alive := db.Interfere(me);
        if !alive {
          return Dropped;
        }
        match answer {
          case Delivered => outcome := WasSent;
          case Errs => outcome := WasFailed;
          case GivesUp => outcome := SkipJob(db, me, c, works);
        }
    }
  }

  /** Writes the outcome of a sent or failed job; whether or not the write works, the tick goes on to the next. */
  method RecordOutcome(db: Database, me: TickId, c: Claimed, outcome: Outcome, works: bool) returns (alive: bool)
    requires db.Valid() && Answered(db.state, me) && Head(db.state, me) == c
    requires if outcome.WasSent? then db.state.ticks[me].answer == Some(Delivered)
             else outcome.WasFailed? && db.state.ticks[me].answer != Some(Delivered)
    modifies db
    ensures db.Valid() && old(db.log) <= db.log
    ensures alive ==> AtWork(db, me, old(db.state.ticks[me].todo)[1..])
    ensures alive ==> RecordsOf(db.records, me) == RecordsOf(old(db.records), me) + [Entry(outcome, works)]
    ensures !alive ==> me !in db.state.ticks
  {
    alive := db.Interfere(me);
    if !alive {
      return;
    }
    if outcome.WasSent? {
      db.MarkSent(me, c.id, works);
    } else {
      var delay := Backoff.ComputeRetryDelay(c.job.attempts);
      db.MarkFailed(me, c.id, delay, works);
    }
  }

  /** What the log says of a job with this outcome: a skip is only an outcome once it is written. */
  function EntryFor(outcome: Outcome, marks: bool): Entry {
    Entry(outcome, outcome.WasSkipped? || marks)
  }

  /** One turn of the loop over the claimed jobs. */
  method ProcessOne(db: Database, me: TickId, c: Claimed, answer: Answer, skipWorks: bool, markWorks: bool)
    returns (outcome: Outcome)
    requires db.Valid() && HasHead(db.state, me) && Head(db.state, me) == c && AtWork(db, me, db.state.ticks[me].todo)
    modifies db
    ensures db.Valid() && old(db.log) <= db.log
    ensures outcome.Dropped? ==> me !in db.state.ticks
    ensures !outcome.Dropped? ==>
              && AtWork(db, me, old(db.state.ticks[me].todo)[1..])
              && Follows(outcome, c.job, answer, skipWorks)
              && RecordsOf(db.records, me) == RecordsOf(old(db.records), me) + [EntryFor(outcome, markWorks)]
  {
    var alive := db.Interfere(me);
    if !alive {
      return Dropped;
    }
    outcome := Dispatch(db, me, c, answer, skipWorks);
    if outcome.WasSent? || outcome.WasFailed? {
      alive := RecordOutcome(db, me, c, outcome, markWorks);
      if !alive {
        return Dropped;
      }
    }
  }

  method ProcessNext(db: Database, me: TickId, claimed: seq<Claimed>, i: nat, answer: Answer, skipWorks: bool, markWorks: bool)
    returns (outcome: Outcome)
    requires db.Valid() && i < |claimed| && AtWork(db, me, claimed[i..])
    modifies db
    ensures db.Valid() && old(db.log) <= db.log
    ensures outcome.Dropped? ==> me !in db.state.ticks
    ensures !outcome.Dropped? ==>
              && AtWork(db, me, claimed[i + 1..])
              && Follows(outcome, claimed[i].job, answer, skipWorks)
              && RecordsOf(db.records, me) == RecordsOf(old(db.records), me) + [EntryFor(outcome, markWorks)]
  {
    assert claimed[i..][0] == claimed[i] && claimed[i..][1..] == claimed[i + 1..];
    outcome := ProcessOne(db, me, claimed[i], answer, skipWorks, markWorks);
  }

  /** The counters of one tick. */
  datatype Tally = Tally(sent: nat, skipped: nat, failed: nat) {
    function Add(outcome: Outcome): Tally {
      match outcome
      case WasSent => this.(sent := sent + 1)
      case WasSkipped => this.(skipped := skipped + 1)
      case _ => this.(failed := failed + 1)
    }
  }

  function Count(outcomes: seq<Outcome>, outcome: Outcome): nat {
    if outcomes == [] then 0
    else Count(outcomes[..|outcomes| - 1], outcome) + if outcomes[|outcomes| - 1] == outcome then 1 else 0
  }

  ghost predicate Tallies(tally: Tally, outcomes: seq<Outcome>) {
    && Dropped !in outcomes
    && tally.sent == Count(outcomes, WasSent) && tally.skipped == Count(outcomes, WasSkipped)
    && tally.failed == Count(outcomes, WasFailed)
  }

  lemma TallyOneMore(tally: Tally, outcomes: seq<Outcome>, last: Outcome)
    requires Tallies(tally, outcomes) && !last.Dropped?
    ensures Tallies(tally.Add(last), outcomes + [last])
  {
    assert (outcomes + [last])[..|outcomes|] == outcomes;
  }

  /** What the jobs dealt with so far have come to. */
  ghost predicate Accounted(claimed: seq<Claimed>, outcomes: seq<Outcome>, answers: nat -> Answer, skips: nat -> bool) {
    && |outcomes| <= |claimed|
    && forall i | 0 <= i < |outcomes| :: Follows(outcomes[i], claimed[i].job, answers(i), skips(i))
  }

  lemma OneMoreAccounted(claimed: seq<Claimed>, outcomes: seq<Outcome>, outcome: Outcome, answers: nat -> Answer, skips: nat -> bool)
    requires Accounted(claimed, outcomes, answers, skips) && |outcomes| < |claimed|
    requires Follows(outcome, claimed[|outcomes|].job, answers(|outcomes|), skips(|outcomes|))
    ensures Accounted(claimed, outcomes + [outcome], answers, skips)
  {
  }

  function EntriesFor(outcomes: seq<Outcome>, marks: nat -> bool): seq<Entry> {
    seq(|outcomes|, i requires 0 <= i < |outcomes| => EntryFor(outcomes[i], marks(i)))
  }

  /** The tick's records are those it had and then these outcomes. */
  ghost predicate Recorded(records: Records, me: TickId, base: seq<Entry>, outcomes: seq<Outcome>, marks: nat -> bool) {
    RecordsOf(records, me) == base + EntriesFor(outcomes, marks)
  }

  lemma OneMoreRecorded(records: Records, records': Records, me: TickId, base: seq<Entry>, outcomes: seq<Outcome>, outcome: Outcome, marks: nat -> bool)
    requires Recorded(records, me, base, outcomes, marks)
    requires RecordsOf(records', me) == RecordsOf(records, me) + [EntryFor(outcome, marks(|outcomes|))]
    ensures Recorded(records', me, base, outcomes + [outcome], marks)
  {
    assert EntriesFor(outcomes + [outcome], marks) == EntriesFor(outcomes, marks) + [EntryFor(outcome, marks(|outcomes|))];
  }

  /**
   * The loop over the claimed jobs: each gets the outcome its channel's answer and the writes determine, and the tick's
   * records are those outcomes in order, until it is done or cut off.
   */
  method ProcessAll(db: Database, me: TickId, claimed: seq<Claimed>, answers: nat -> Answer, skips: nat -> bool, marks: nat -> bool)
    returns (finished: bool, outcomes: seq<Outcome>, tally: Tally)
    requires db.Valid() && AtWork(db, me, claimed)
    modifies db
    ensures db.Valid() && old(db.log) <= db.log
    ensures Accounted(claimed, outcomes, answers, skips) && Tallies(tally, outcomes)
    ensures finished ==>
              && AtWork(db, me, []) && |outcomes| == |claimed|
              && Recorded(db.records, me, RecordsOf(old(db.records), me), outcomes, marks)
    ensures !finished ==> me !in db.state.ticks
  {
    tally, outcomes, finished := Tally(0, 0, 0), [], true;
    for i := 0 to |claimed|
      invariant db.Valid() && old(db.log) <= db.log && finished
      invariant AtWork(db, me, claimed[i..])
      invariant |outcomes| == i && Accounted(claimed, outcomes, answers, skips) && Tallies(tally, outcomes)
      invariant Recorded(db.records, me, RecordsOf(old(db.records), me), outcomes, marks)
    {
      ghost var before := db.records;
      var outcome := ProcessNext(db, me, claimed, i, answers(i), skips(i), marks(i));
      if outcome.Dropped? {
        finished := false;
        return;
      }
      TallyOneMore(tally, outcomes, outcome);
      OneMoreAccounted(claimed, outcomes, outcome, answers, skips);
      OneMoreRecorded(before, db.records, me, RecordsOf(old(db.records), me), outcomes, outcome, marks);
      outcomes, tally := outcomes + [outcome], tally.Add(outcome);
    }
  }

  /** At position `i` the log schedules what the select returned for the reminders as they were then, or records that it failed. */
  ghost predicate SchedulesAt(start: State, log: seq<Step>, i: nat, at: Time, rows: seq<Picked>, me: TickId, locked: set<ReminderId>,
                              settings: ReminderId -> Settings, works: bool) {
    && i < |log| && Legal(start, log[..i])
    && log[i] == (if works then Step.ClaimDue(me, at, rows) else Step.ClaimDueFails(me))
    && IsSelection(After(start, log[..i]).reminders, Cutoff(at), locked, rows)
    && (forall p | p in rows :: HasSettings(p, settings(p.rid)))
  }

  ghost predicate ScheduledSince(start: State, log: seq<Step>, from: nat, me: TickId, locked: set<ReminderId>,
                                 settings: ReminderId -> Settings, works: bool) {
    exists i, at, rows :: from <= i && SchedulesAt(start, log, i, at, rows, me, locked, settings, works)
  }

  lemma ScheduledNow(start: State, log: seq<Step>, state: State, records: Records, at: Time, rows: seq<Picked>, me: TickId,
                     locked: set<ReminderId>, settings: ReminderId -> Settings, works: bool)
    requires OnRun(start, log, state, records) && IsSelection(state.reminders, Cutoff(at), locked, rows)
    requires forall p | p in rows :: HasSettings(p, settings(p.rid))
    ensures var step := if works then Step.ClaimDue(me, at, rows) else Step.ClaimDueFails(me);
            SchedulesAt(start, log + [step], |log|, at, rows, me, locked, settings, works)
  {
    assert Looked(log);
    var step := if works then Step.ClaimDue(me, at, rows) else Step.ClaimDueFails(me);
    assert (log + [step])[..|log|] == log;
  }

  lemma ScheduledEarlier(start: State, log: seq<Step>, log': seq<Step>, i: nat, at: Time, rows: seq<Picked>, me: TickId,
                         locked: set<ReminderId>, settings: ReminderId -> Settings, works: bool)
    requires SchedulesAt(start, log, i, at, rows, me, locked, settings, works) && log <= log'
    ensures SchedulesAt(start, log', i, at, rows, me, locked, settings, works)
  {
    assert log'[..i] == log[..i] && log'[i] == log[i];
  }

  lemma ClaimedEarlier(log: seq<Step>, log': seq<Step>, from: nat, from': nat, me: TickId, rows: seq<Claimed>)
    requires ClaimedSince(log, from, me, rows) && log <= log' && from' <= from
    ensures ClaimedSince(log', from', me, rows)
  {
    var i :| from <= i < |log| && log[i] == Step.ClaimPending(me, Ids(rows));
    assert log'[i] == log[i];
  }

  /** What the tick does after scheduling. */
  method ProcessClaimed(db: Database, me: TickId, screens: nat -> bool, answers: nat -> Answer, skips: nat -> bool, marks: nat -> bool)
    returns (finished: bool, claimed: seq<Claimed>, outcomes: seq<Outcome>, tally: Tally, ghost rows: seq<Claimed>)
    requires db.Valid() && me in db.state.ticks && db.state.ticks[me].phase.Claiming?
    modifies db
    ensures db.Valid() && old(db.log) <= db.log
    ensures Accounted(claimed, outcomes, answers, skips) && Tallies(tally, outcomes)
    ensures finished ==>
              && AtWork(db, me, []) && |outcomes| == |claimed| && claimed == ValidRows(rows)
              && ClaimedSince(db.log, |old(db.log)|, me, rows)
              && Recorded(db.records, me, RecordsOf(old(db.records), me), outcomes, marks)
    ensures !finished ==> me !in db.state.ticks
  {
    outcomes, tally := [], Tally(0, 0, 0);
    finished, claimed, rows := ClaimPending(db, me, screens);
    if !finished {
      return;
    }
    ghost var log := db.log;
    finished, outcomes, tally := ProcessAll(db, me, claimed, answers, skips, marks);
    ClaimedEarlier(log, db.log, |old(db.log)|, |old(db.log)|, me, rows);
  }

  /**
   * One tick: it schedules, claims and deals with what it claimed. A scheduling that fails does not keep it from its
   * jobs. Whatever the channels answer, whichever writes fail and whatever happens in between, the database stays on a
   * run of the outbox.
   */
  method Process(db: Database, me: TickId, locked: set<ReminderId>, settings: ReminderId -> Settings, schedules: bool,
                 screens: nat -> bool, answers: nat -> Answer, skips: nat -> bool, marks: nat -> bool)
    returns (finished: bool, claimed: seq<Claimed>, outcomes: seq<Outcome>, tally: Tally, ghost rows: seq<Claimed>)
    requires db.Valid() && me in db.state.ticks && db.state.ticks[me].phase.Scheduling?
    modifies db
    ensures db.Valid() && old(db.log) <= db.log
    ensures Accounted(claimed, outcomes, answers, skips) && Tallies(tally, outcomes)
    ensures finished ==>
              && AtWork(db, me, []) && |outcomes| == |claimed| && claimed == ValidRows(rows)
              && ScheduledSince(db.start, db.log, |old(db.log)|, me, locked, settings, schedules)
              && ClaimedSince(db.log, |old(db.log)|, me, rows)
              && Recorded(db.records, me, RecordsOf(old(db.records), me), outcomes, marks)
    ensures !finished ==> me !in db.state.ticks
  {
    claimed, outcomes, tally, rows := [], [], Tally(0, 0, 0), [];
    finished := db.Interfere(me);
    if !finished {
      return;
    }
    StartedBefore(db, me);
    ghost var i, at := |db.log|, db.clock;
    ghost var selected := ScheduleFirst(db, me, locked, settings, schedules);
    ghost var log := db.log;
    finished, claimed, outcomes, tally, rows := ProcessClaimed(db, me, screens, answers, skips, marks);
    if finished {
      ClaimedEarlier(db.log, db.log, |log|, |old(db.log)|, me, rows);
      ScheduledEarlier(db.start, log, db.log, i, at, selected, me, locked, settings, schedules);
    }
  }

  /** The tick turns due reminders into jobs, or fails to and goes on. */
  method ScheduleFirst(db: Database, me: TickId, locked: set<ReminderId>, settings: ReminderId -> Settings, schedules: bool)
    returns (ghost selected: seq<Picked>)
    requires db.Valid() && me in db.state.ticks && db.state.ticks[me].phase.Scheduling? && db.state.ticks[me].started <= db.clock
    modifies db
    ensures db.Valid() && old(db.log) <= db.log && db.records == old(db.records)
    ensures me in db.state.ticks && db.state.ticks[me].phase.Claiming?
    ensures SchedulesAt(db.start, db.log, |old(db.log)|, old(db.clock), selected, me, locked, settings, schedules)
  {
    ghost var start, log, state, records, at := db.start, db.log, db.state, db.records, db.clock;
    assert OnRun(start, log, state, records) && db.reminders == state.reminders;
    var rows := db.ClaimDue(me, locked, settings, schedules);
    selected := rows;
    assert db.log == log + [if schedules then Step.ClaimDue(me, at, rows) else Step.ClaimDueFails(me)];
    ScheduledNow(start, log, state, records, at, rows, me, locked, settings, schedules);
  }
}
