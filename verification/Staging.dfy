/**
 * The scheduling transaction's writes while nobody else sees them: reminders marked sent and jobs inserted, row by row,
 * and what they amount to once they are committed.
 */
module Staging {
  import opened Text
  import opened Schedule
  import opened Outbox

  // ----- The select -----

  predicate DistinctRows(picked: seq<Picked>) {
    forall i, j | 0 <= i < j < |picked| :: picked[i].rid != picked[j].rid
  }

  /** What the locking select may return: the earliest due rows not locked by others, all of them unless there are too many. */
  ghost predicate IsSelection(reminders: map<ReminderId, Reminder>, cutoff: Time, locked: set<ReminderId>, picked: seq<Picked>) {
    && |picked| <= DUE_LIMIT && DistinctRows(picked)
    && (forall p | p in picked :: p.rid in reminders && IsDue(reminders[p.rid], cutoff) && p.rid !in locked)
    && (forall rid | rid in reminders && IsDue(reminders[rid], cutoff) && rid !in locked ::
          || (exists p :: p in picked && p.rid == rid)
          || (|picked| == DUE_LIMIT && forall p | p in picked :: reminders[p.rid].time <= reminders[rid].time))
  }

  /** Reminders become due by the minute. */
  lemma CutoffIsTheMinute(now: Time)
    ensures Cutoff(now) <= now < Cutoff(now) + 60 * 1000 && Cutoff(now) % (60 * 1000) == 0
  {
  }

  /** Every enabled reminder whose minute has come, that was not sent and that nobody else has locked, is selected, or fifty earlier ones are. */
  lemma SelectionIsExact(reminders: map<ReminderId, Reminder>, now: Time, locked: set<ReminderId>, picked: seq<Picked>, rid: ReminderId)
    requires IsSelection(reminders, Cutoff(now), locked, picked) && rid in reminders
    ensures var row := reminders[rid];
            var due := row.time <= now - now % 60_000 && row.enabled && !row.sent && rid !in locked;
            && ((exists p :: p in picked && p.rid == rid) ==> due)
            && (due && (forall p | p in picked :: p.rid != rid) ==>
                  |picked| == 50 && forall p | p in picked :: p.rid in reminders && reminders[p.rid].time <= row.time)
  {
  }

  /** The random ids of the inserted rows are new and collide with nothing. */
  predicate NewIds(s: State, picked: seq<Picked>) {
    && (forall i | 0 <= i < |picked| ::
          Fresh(s, picked[i].emailId) && Fresh(s, picked[i].pushId) && picked[i].emailId != picked[i].pushId)
    && (forall i, j | 0 <= i < j < |picked| ::
          && picked[i].emailId != picked[j].emailId && picked[i].emailId != picked[j].pushId
          && picked[i].pushId != picked[j].emailId && picked[i].pushId != picked[j].pushId)
  }

  lemma OthersCanStillBeScheduled(s: State, cutoff: Time, at: Time, p: Picked, q: Picked)
    requires CanSchedule(s, cutoff, p) && CanSchedule(s, cutoff, q) && p.rid != q.rid
    requires p.emailId != q.emailId && p.emailId != q.pushId && p.pushId != q.emailId && p.pushId != q.pushId
    ensures CanSchedule(ScheduleOne(s, cutoff, at, p), cutoff, q)
  {
  }

  lemma {:induction false} LockedRowsCanBeScheduled(s: State, cutoff: Time, at: Time, picked: seq<Picked>)
    requires DistinctRows(picked) && NewIds(s, picked)
    requires forall i | 0 <= i < |picked| :: picked[i].rid in s.reminders && IsDue(s.reminders[picked[i].rid], cutoff)
    ensures CanScheduleAll(s, cutoff, at, picked)
    decreases |picked|
  {
    if picked != [] {
      var s' := ScheduleOne(s, cutoff, at, picked[0]);
      var rest := picked[1..];
      forall i | 0 <= i < |rest|
        ensures CanSchedule(s', cutoff, rest[i])
      {
        assert rest[i] == picked[i + 1];
        OthersCanStillBeScheduled(s, cutoff, at, picked[0], picked[i + 1]);
      }
      LockedRowsCanBeScheduled(s', cutoff, at, rest);
    }
  }

  lemma OneKeepsTicks(s: State, cutoff: Time, at: Time, p: Picked)
    requires CanSchedule(s, cutoff, p)
    ensures ScheduleOne(s, cutoff, at, p).ticks == s.ticks
  {
  }

  lemma {:induction false} BatchKeepsTicks(s: State, cutoff: Time, at: Time, batch: seq<Picked>)
    requires CanScheduleAll(s, cutoff, at, batch)
    ensures ScheduleAll(s, cutoff, at, batch).ticks == s.ticks
    decreases |batch|
  {
    if batch != [] {
      OneKeepsTicks(s, cutoff, at, batch[0]);
      BatchKeepsTicks(ScheduleOne(s, cutoff, at, batch[0]), cutoff, at, batch[1..]);
    }
  }

  // ----- The inserts of one reminder -----

  function InsertChannels(jobs: map<JobId, Job>, due: Due, p: Picked, now: Time, channels: seq<Channel>): map<JobId, Job> {
    if channels == [] then jobs
    else
      var last := channels[|channels| - 1];
      InsertChannels(jobs, due, p, now, channels[..|channels| - 1])
      [if last.EmailChannel? then p.emailId else p.pushId := ChannelJob(due, last, now, p.rid)]
  }

  function ChannelTable(jobs: map<JobId, Job>, due: Due, p: Picked, now: Time): map<JobId, Job> {
    InsertChannels(jobs, due, p, now, ChannelsFor(due))
  }

  /** One job per channel, in the order of `channels_for`, is what scheduling the reminder inserts. */
  lemma StagedTables(s: State, cutoff: Time, now: Time, p: Picked)
    requires CanSchedule(s, cutoff, p)
    ensures var s' := ScheduleOne(s, cutoff, now, p);
            && s'.clock == s.clock
            && s'.reminders == s.reminders[p.rid := s.reminders[p.rid].(sent := true)]
            && s'.jobs == ChannelTable(s.jobs, DueOf(s.reminders[p.rid], p), p, now)
            && s'.trails.Keys <= s.trails.Keys + {p.emailId, p.pushId}
  {
    ChannelTableIs(s.jobs, DueOf(s.reminders[p.rid], p), p, now);
  }

  lemma ChannelTableIs(jobs: map<JobId, Job>, due: Due, p: Picked, now: Time)
    ensures var channels := ChannelsFor(due);
            var withEmail := if EmailChannel in channels then jobs[p.emailId := ChannelJob(due, EmailChannel, now, p.rid)] else jobs;
            ChannelTable(jobs, due, p, now) ==
            if PushChannel in channels then withEmail[p.pushId := ChannelJob(due, PushChannel, now, p.rid)] else withEmail
  {
    var channels := ChannelsFor(due);
    assert InsertChannels(jobs, due, p, now, []) == jobs;
    if |channels| == 1 {
      assert channels[..0] == [];
    } else if |channels| == 2 {
      assert channels == [EmailChannel, PushChannel];
      assert channels[..1] == [EmailChannel] && [EmailChannel][..0] == [];
      assert InsertChannels(jobs, due, p, now, [EmailChannel]) == jobs[p.emailId := ChannelJob(due, EmailChannel, now, p.rid)];
    }
  }

  // ----- The whole transaction -----

  /** Rows written and not yet committed; `claims` is history. */
  datatype Staged = Staged(reminders: map<ReminderId, Reminder>, jobs: map<JobId, Job>, claims: map<ReminderId, Claim>)

  const NOTHING := Staged(map[], map[], map[])

  function ClaimOf(row: Reminder, cutoff: Time, p: Picked): Claim {
    var channels := ChannelsFor(DueOf(row, p));
    Claim(DueOf(row, p), cutoff, row.time,
          if EmailChannel in channels then Some(p.emailId) else None,
          if PushChannel in channels then Some(p.pushId) else None)
  }

  /** The statements for one selected reminder, as it was read. */
  function StageOne(staged: Staged, row: Reminder, at: Time, p: Picked): Staged {
    Staged(
      staged.reminders[p.rid := row.(sent := true)],
      ChannelTable(staged.jobs, DueOf(row, p), p, at),
      staged.claims[p.rid := ClaimOf(row, Cutoff(at), p)])
  }

  predicate WasRead(read: map<ReminderId, Reminder>, picked: seq<Picked>) {
    forall p | p in picked :: p.rid in read
  }

  /** The loop over the selected reminders, in order. */
  function Stage(read: map<ReminderId, Reminder>, at: Time, picked: seq<Picked>): Staged
    requires WasRead(read, picked)
  {
    if picked == [] then NOTHING
    else
      var p := picked[|picked| - 1];
      StageOne(Stage(read, at, picked[..|picked| - 1]), read[p.rid], at, p)
  }

  /** One more turn of the loop. */
  lemma StageNext(read: map<ReminderId, Reminder>, at: Time, picked: seq<Picked>, n: nat)
    requires n < |picked| && WasRead(read, picked)
    ensures picked[n].rid in read && WasRead(read, picked[..n]) && WasRead(read, picked[..n + 1])
    ensures Stage(read, at, picked[..n + 1]) == StageOne(Stage(read, at, picked[..n]), read[picked[n].rid], at, picked[n])
  {
    assert picked[n] in picked;
    assert picked[..n + 1][..n] == picked[..n];
  }

  /** Named where a proof goes through the rows written so far; other proofs only pass them on. */
  ghost predicate Replayed(rows: seq<Picked>) {
    true
  }

  /** These rows are what the loop has staged for the given reminders. */
  ghost predicate StagedAs(read: map<ReminderId, Reminder>, at: Time, picked: seq<Picked>, staged: Staged) {
    forall rows | Replayed(rows) && rows == picked :: WasRead(read, rows) && staged == Stage(read, at, rows)
  }

  lemma StagedAsNext(read: map<ReminderId, Reminder>, at: Time, picked: seq<Picked>, n: nat, staged: Staged)
    requires n < |picked| && WasRead(read, picked) && StagedAs(read, at, picked[..n], staged)
    ensures picked[n].rid in read && StagedAs(read, at, picked[..n + 1], StageOne(staged, read[picked[n].rid], at, picked[n]))
  {
    assert Replayed(picked[..n]);
    StageNext(read, at, picked, n);
  }

  function NewTrails(ids: set<JobId>): map<JobId, Trail> {
    map id | id in ids :: Trail(None, 0, false, true, false)
  }

  /** The tables once the staged rows are visible. */
  function Committed(s: State, staged: Staged): State {
    s.(reminders := s.reminders + staged.reminders,
       jobs := s.jobs + staged.jobs,
       trails := s.trails + NewTrails(staged.jobs.Keys),
       claims := s.claims + staged.claims)
  }

  lemma {:induction false} ScheduleAllSnoc(s: State, cutoff: Time, at: Time, batch: seq<Picked>, p: Picked)
    requires CanScheduleAll(s, cutoff, at, batch) && CanSchedule(ScheduleAll(s, cutoff, at, batch), cutoff, p)
    ensures CanScheduleAll(s, cutoff, at, batch + [p])
    ensures ScheduleAll(s, cutoff, at, batch + [p]) == ScheduleOne(ScheduleAll(s, cutoff, at, batch), cutoff, at, p)
    decreases |batch|
  {
    if batch == [] {
      assert batch + [p] == [p] && [p][1..] == [];
    } else {
      assert (batch + [p])[1..] == batch[1..] + [p];
      ScheduleAllSnoc(ScheduleOne(s, cutoff, at, batch[0]), cutoff, at, batch[1..], p);
    }
  }

  lemma Overlay<K, V>(under: map<K, V>, over: map<K, V>, k: K, v: V)
    ensures under + over[k := v] == (under + over)[k := v]
  {
  }

  lemma CommittedMark(s: State, staged: Staged, rid: ReminderId, row: Reminder)
    ensures var s1 := Committed(s, staged);
            Committed(s, staged.(reminders := staged.reminders[rid := row])) == s1.(reminders := s1.reminders[rid := row])
  {
    Overlay(s.reminders, staged.reminders, rid, row);
  }

  lemma CommittedInsert(s: State, staged: Staged, id: JobId, job: Job)
    ensures Committed(s, staged.(jobs := staged.jobs[id := job])) == InsertJob(Committed(s, staged), id, job)
  {
    Overlay(s.jobs, staged.jobs, id, job);
    var trails := NewTrails(staged.jobs.Keys);
    assert staged.jobs[id := job].Keys == staged.jobs.Keys + {id};
    assert NewTrails(staged.jobs.Keys + {id}) == trails[id := Trail(None, 0, false, true, false)];
    Overlay(s.trails, trails, id, Trail(None, 0, false, true, false));
  }

  lemma CommittedClaim(s: State, staged: Staged, rid: ReminderId, c: Claim)
    ensures var s1 := Committed(s, staged);
            Committed(s, staged.(claims := staged.claims[rid := c])) == s1.(claims := s1.claims[rid := c])
  {
    Overlay(s.claims, staged.claims, rid, c);
  }

  /** Staging one more row and then committing is committing and then scheduling it. */
  lemma CommittedOneMore(s: State, staged: Staged, row: Reminder, at: Time, p: Picked)
    requires p.rid in s.reminders && s.reminders[p.rid] == row && p.rid !in staged.reminders
    ensures Committed(s, StageOne(staged, row, at, p)) == ScheduleOne(Committed(s, staged), Cutoff(at), at, p)
  {
    var due := DueOf(row, p);
    var channels := ChannelsFor(due);
    var email, push := ChannelJob(due, EmailChannel, at, p.rid), ChannelJob(due, PushChannel, at, p.rid);
    var st1 := staged.(reminders := staged.reminders[p.rid := row.(sent := true)]);
    CommittedMark(s, staged, p.rid, row.(sent := true));
    var st2 := if EmailChannel in channels then st1.(jobs := st1.jobs[p.emailId := email]) else st1;
    CommittedInsert(s, st1, p.emailId, email);
    var st3 := if PushChannel in channels then st2.(jobs := st2.jobs[p.pushId := push]) else st2;
    CommittedInsert(s, st2, p.pushId, push);
    CommittedClaim(s, st3, p.rid, ClaimOf(row, Cutoff(at), p));
    assert StageOne(staged, row, at, p) == st3.(claims := st3.claims[p.rid := ClaimOf(row, Cutoff(at), p)]) by {
      ChannelTableIs(staged.jobs, due, p, at);
    }
  }

  lemma {:induction false} StagedKeys(read: map<ReminderId, Reminder>, at: Time, picked: seq<Picked>, q: Picked)
    requires WasRead(read, picked)
    requires forall p | p in picked :: p.rid != q.rid
    requires forall p | p in picked :: q.emailId != p.emailId && q.emailId != p.pushId && q.pushId != p.emailId && q.pushId != p.pushId
    ensures var st := Stage(read, at, picked); q.rid !in st.reminders && q.emailId !in st.jobs && q.pushId !in st.jobs
  {
    if picked != [] {
      var p := picked[|picked| - 1];
      var before := Stage(read, at, picked[..|picked| - 1]);
      StagedKeys(read, at, picked[..|picked| - 1], q);
      ChannelTableIs(before.jobs, DueOf(read[p.rid], p), p, at);
    }
  }

  /** The next selected row can still be scheduled once those before it are committed. */
  lemma NextCanBeScheduled(s: State, read: map<ReminderId, Reminder>, at: Time, picked: seq<Picked>, p: Picked)
    requires WasRead(read, picked) && p.rid in s.reminders && IsDue(s.reminders[p.rid], Cutoff(at))
    requires Fresh(s, p.emailId) && Fresh(s, p.pushId) && p.emailId != p.pushId
    requires forall q | q in picked :: q.rid != p.rid
    requires forall q | q in picked :: p.emailId != q.emailId && p.emailId != q.pushId && p.pushId != q.emailId && p.pushId != q.pushId
    ensures CanSchedule(Committed(s, Stage(read, at, picked)), Cutoff(at), p)
    ensures p.rid !in Stage(read, at, picked).reminders
  {
    StagedKeys(read, at, picked, p);
  }

  /**
   * Committing what the loop staged is scheduling the selected reminders one after another, whatever the tables have
   * become in between, as long as the selected rows are as they were read and the new ids are free.
   */
  lemma {:induction false} CommitSchedulesAll(s: State, read: map<ReminderId, Reminder>, at: Time, picked: seq<Picked>)
    requires DistinctRows(picked) && NewIds(s, picked) && WasRead(read, picked)
    requires forall p | p in picked :: p.rid in s.reminders && s.reminders[p.rid] == read[p.rid] && IsDue(read[p.rid], Cutoff(at))
    ensures CanScheduleAll(s, Cutoff(at), at, picked)
    ensures Committed(s, Stage(read, at, picked)) == ScheduleAll(s, Cutoff(at), at, picked)
    decreases |picked|
  {
    if picked == [] {
      assert Committed(s, NOTHING) == s;
    } else {
      var n := |picked| - 1;
      var before, p := picked[..n], picked[n];
      assert picked == before + [p];
      LastCanBeScheduled(s, read, at, picked);
      CommitSchedulesAll(s, read, at, before);
      CommitOneMore(s, read, at, before, p);
    }
  }

  lemma LastCanBeScheduled(s: State, read: map<ReminderId, Reminder>, at: Time, picked: seq<Picked>)
    requires picked != [] && DistinctRows(picked) && NewIds(s, picked) && WasRead(read, picked)
    requires forall p | p in picked :: p.rid in s.reminders && s.reminders[p.rid] == read[p.rid] && IsDue(read[p.rid], Cutoff(at))
    ensures var n := |picked| - 1;
            var before, p := picked[..n], picked[n];
            && p in picked && DistinctRows(before) && NewIds(s, before) && WasRead(read, before) && (forall q | q in before :: q in picked)
            && CanSchedule(Committed(s, Stage(read, at, before)), Cutoff(at), p)
            && p.rid !in Stage(read, at, before).reminders
  {
    var n := |picked| - 1;
    BeforeTheLast(s, picked);
    NextCanBeScheduled(s, read, at, picked[..n], picked[n]);
  }

  lemma StageSnoc(read: map<ReminderId, Reminder>, at: Time, before: seq<Picked>, p: Picked)
    requires WasRead(read, before) && WasRead(read, before + [p])
    ensures p.rid in read && Stage(read, at, before + [p]) == StageOne(Stage(read, at, before), read[p.rid], at, p)
  {
    var n := |before|;
    assert (before + [p])[..n] == before && (before + [p])[..n + 1] == before + [p];
    StageNext(read, at, before + [p], n);
  }

  lemma CommitOneMore(s: State, read: map<ReminderId, Reminder>, at: Time, before: seq<Picked>, p: Picked)
    requires WasRead(read, before) && WasRead(read, before + [p]) && CanScheduleAll(s, Cutoff(at), at, before)
    requires Committed(s, Stage(read, at, before)) == ScheduleAll(s, Cutoff(at), at, before)
    requires p.rid in read && p.rid in s.reminders && s.reminders[p.rid] == read[p.rid] && p.rid !in Stage(read, at, before).reminders
    requires CanSchedule(Committed(s, Stage(read, at, before)), Cutoff(at), p)
    ensures CanScheduleAll(s, Cutoff(at), at, before + [p])
    ensures Committed(s, Stage(read, at, before + [p])) == ScheduleAll(s, Cutoff(at), at, before + [p])
  {
    StageSnoc(read, at, before, p);
    CommittedOneMore(s, Stage(read, at, before), read[p.rid], at, p);
    ScheduleAllSnoc(s, Cutoff(at), at, before, p);
  }

  /** The last of several rows shares nothing with those before it. */
  lemma BeforeTheLast(s: State, picked: seq<Picked>)
    requires picked != [] && DistinctRows(picked) && NewIds(s, picked)
    ensures var n := |picked| - 1;
            var before, p := picked[..n], picked[n];
            && p in picked && (forall q | q in before :: q in picked)
            && DistinctRows(before) && NewIds(s, before)
            && Fresh(s, p.emailId) && Fresh(s, p.pushId) && p.emailId != p.pushId
            && (forall q | q in before :: q.rid != p.rid)
            && (forall q | q in before :: p.emailId != q.emailId && p.emailId != q.pushId && p.pushId != q.emailId && p.pushId != q.pushId)
  {
  }
}
