/** Retention: each rule deletes what it selects, so many rows at a time and so many times, and what that comes to. */
module Retention {
  import opened Text
  import Outbox
  import Sets

  type RowId = nat
  const BATCH_SIZE: int := 500
  const MAX_BATCHES_PER_RULE: nat := 200

  /** The columns the rules read; `None` is SQL's `NULL`. */
  datatype Row = Row(
    status: string,
    createdAt: Option<int>,
    updatedAt: Option<int>,
    expiresAt: Option<int>,
    claimedAt: Option<int>,
    lastSeenAt: Option<int>)

  datatype Filter = Expired | PendingExpired | Revoked | AbandonedClaim | SentJob | DeadJob | OldLog | StaleDevice

  datatype Rule = Rule(name: string, retentionDays: nat, table: string, filter: Filter)

  type Tables = map<string, map<RowId, Row>>

  predicate Before(column: Option<int>, cutoff: int) {
    column.Some? && column.value < cutoff
  }

  predicate Matches(filter: Filter, row: Row, cutoff: int) {
    match filter
    case Expired => Before(row.expiresAt, cutoff)
    case PendingExpired => row.status == "pending" && Before(row.expiresAt, cutoff)
    case Revoked => row.status == "revoked" && Before(row.updatedAt, cutoff)
    case AbandonedClaim => row.status == "claimed" && Before(row.claimedAt, cutoff)
    case SentJob => row.status == "sent" && Before(row.updatedAt, cutoff)
    case DeadJob => row.status != "pending" && row.status != "sent" && Before(row.updatedAt, cutoff)
    case OldLog => Before(row.createdAt, cutoff)
    case StaleDevice => Before(row.lastSeenAt, cutoff)
  }

  const RULES: seq<Rule> := [
    Rule("session", 1, "session", Expired),
    Rule("verification", 1, "verification", Expired),
    Rule("invite_expired", 30, "invite", PendingExpired),
    Rule("invite_revoked", 30, "invite", Revoked),
    Rule("invite_abandoned_claim", 30, "invite", AbandonedClaim),
    Rule("notification_job_sent", 7, "notification_job", SentJob),
    Rule("notification_job_dead", 30, "notification_job", DeadJob),
    Rule("notification_log", 30, "notification_log", OldLog),
    Rule("push_device", 180, "push_device", StaleDevice)]

  function CutoffFor(rule: Rule, now: int): int {
    now - Outbox.DAY * rule.retentionDays
  }

  /** The rows a plain, unbounded delete would remove. */
  function Matching(tables: Tables, rule: Rule, now: int): set<RowId> {
    if rule.table in tables
    then set id | id in tables[rule.table] && Matches(rule.filter, tables[rule.table][id], CutoffFor(rule, now))
    else {}
  }

  function Min(a: int, b: int): int {
    if a <= b then a else b
  }

  function Without(tables: Tables, table: string, ids: set<RowId>): Tables {
    if table in tables then tables[table := tables[table] - ids] else tables
  }

  datatype Deleted = Rows(affected: nat) | Failed

  class Database {
    var tables: Tables

    constructor (tables: Tables)
      ensures this.tables == tables
    {
      this.tables := tables;
    }

    /** One bounded delete: any `limit` of the matching rows, or all of them if there are fewer. One that fails removes nothing. */
    method DeleteBatch(rule: Rule, now: int, limit: int, works: bool) returns (result: Deleted, ghost removed: set<RowId>)
      modifies this
      ensures result.Rows? <==> Runs(old(tables), rule, limit, works)
      ensures result.Failed? ==> tables == old(tables)
      ensures result.Rows? ==>
                && removed <= Matching(old(tables), rule, now) && |removed| == result.affected
                && result.affected == Min(|Matching(old(tables), rule, now)|, limit)
                && tables == Without(old(tables), rule.table, removed)
    {
      removed := {};
      if rule.table !in tables || limit < 0 || !works {
        return Failed, {};
      }
      var rest := Matching(tables, rule, now);
      var chosen: set<RowId> := {};
      while |chosen| < limit && rest != {}
        modifies {}
        invariant chosen + rest == Matching(tables, rule, now) && chosen !! rest && |chosen| <= limit
        decreases |rest|
      {
        var id :| id in rest;
        chosen, rest := chosen + {id}, rest - {id};
      }
      assert |chosen + rest| == |chosen| + |rest|;
      tables := Without(tables, rule.table, chosen);
      removed := chosen;
      result := Rows(|chosen|);
    }

    /**
     * The batches of one rule: they run until a short one, an error, or the bound. What is gone is what one delete capped
     * at the batches before the first failing one would remove, and the failure shows exactly when rows were left to
     * reach it.
     */
    method RunRule(rule: Rule, now: int, batchSize: int, maxBatches: nat, works: nat -> bool)
      returns (total: nat, failed: bool, ghost removed: set<RowId>)
      modifies this
      ensures removed <= Matching(old(tables), rule, now) && |removed| == total
      ensures tables == Without(old(tables), rule.table, removed)
      ensures total == Quota(old(tables), rule, now, batchSize, maxBatches, works)
      ensures failed <==> Fails(old(tables), rule, now, batchSize, maxBatches, works)
    {
      total, failed, removed := 0, false, {};
      WithoutTwice(tables, rule.table, {}, {});
      ghost var matching := Matching(tables, rule, now);
      ghost var good := GoodBatches(tables, rule, batchSize, maxBatches, works);
      GoodBatchesRun(tables, rule, batchSize, maxBatches, works);
      var batches: nat := 0;
      while batches < maxBatches
        invariant batches <= good && !failed
        invariant removed <= matching && |removed| == total <= |matching|
        invariant tables == Without(old(tables), rule.table, removed)
        invariant batches > 0 ==> batchSize >= 0
        invariant total == batchSize * batches
      {
        var result, gone := NextBatch(old(tables), removed, rule, now, batchSize, works(batches));
        if result.Failed? {
          assert batches == good;
          failed := true;
          return;
        }
        removed := removed + gone;
        OneMoreBatch(batchSize, batches);
        total := total + result.affected;
        batches := batches + 1;
        if result.affected < batchSize {
          ShortBatch(|matching|, batchSize, batches, good);
          return;
        }
      }
    }

    /** One batch on top of those before it. */
    method NextBatch(ghost first: Tables, ghost before: set<RowId>, rule: Rule, now: int, limit: int, works: bool)
      returns (result: Deleted, ghost gone: set<RowId>)
      requires tables == Without(first, rule.table, before) && before <= Matching(first, rule, now)
      modifies this
      ensures result.Rows? <==> Runs(first, rule, limit, works)
      ensures result.Failed? ==> tables == Without(first, rule.table, before)
      ensures result.Rows? ==>
                && before + gone <= Matching(first, rule, now) && |before + gone| == |before| + result.affected
                && |before + gone| <= |Matching(first, rule, now)|
                && result.affected == Min(|Matching(first, rule, now)| - |before|, limit)
                && tables == Without(first, rule.table, before + gone)
    {
      ghost var matching := Matching(first, rule, now);
      MatchingWithout(first, rule, now, before);
      result, gone := DeleteBatch(rule, now, limit, works);
      if result.Rows? {
        WithoutTwice(first, rule.table, before, gone);
        assert |before + gone| == |before| + |gone|;
        assert |matching - before| == |matching| - |before|;
        Sets.SubsetCount(before + gone, matching);
      }
    }
  }

  /** The statement succeeds. */
  predicate Runs(tables: Tables, rule: Rule, limit: int, works: bool) {
    rule.table in tables && limit >= 0 && works
  }

  /** How many batches would run before the first that fails, up to the bound. */
  function GoodBatches(tables: Tables, rule: Rule, batchSize: int, maxBatches: nat, works: nat -> bool): (n: nat)
    ensures n <= maxBatches
  {
    if maxBatches == 0 then 0
    else
      var n := GoodBatches(tables, rule, batchSize, maxBatches - 1, works);
      if n == maxBatches - 1 && Runs(tables, rule, batchSize, works(n)) then maxBatches else n
  }

  lemma {:induction false} GoodBatchesRun(tables: Tables, rule: Rule, batchSize: int, maxBatches: nat, works: nat -> bool)
    ensures var n := GoodBatches(tables, rule, batchSize, maxBatches, works);
            && (forall b: nat | b < n :: Runs(tables, rule, batchSize, works(b)))
            && (n < maxBatches ==> !Runs(tables, rule, batchSize, works(n)))
  {
    if maxBatches > 0 {
      GoodBatchesRun(tables, rule, batchSize, maxBatches - 1, works);
    }
  }

  lemma WithoutTwice(tables: Tables, table: string, a: set<RowId>, b: set<RowId>)
    ensures Without(Without(tables, table, a), table, b) == Without(tables, table, a + b)
    ensures Without(tables, table, {}) == tables
  {
    if table in tables {
      var rows := tables[table];
      assert rows - a - b == rows - (a + b);
      assert rows - {} == rows;
      assert tables[table := rows] == tables;
    }
  }

  lemma MatchingWithout(tables: Tables, rule: Rule, now: int, removed: set<RowId>)
    ensures Matching(Without(tables, rule.table, removed), rule, now) == Matching(tables, rule, now) - removed
  {
  }

  lemma OneMoreBatch(size: int, batches: nat)
    ensures size * (batches + 1) == size * batches + size
  {
  }

  /** A batch that was not full has taken the last rows, and no bound further on matters. */
  lemma ShortBatch(rows: nat, size: int, batches: nat, bound: nat)
    requires size >= 0 && 1 <= batches <= bound && rows < size * batches
    ensures rows < size * bound
  {
  }

  // ----- All rules -----

  /** No row is selected by two rules, so no rule changes what another selects. */
  ghost predicate Separate(rules: seq<Rule>, now: int) {
    forall i, j, row: Row | 0 <= i < j < |rules| && rules[i].table == rules[j].table ::
      !(Matches(rules[i].filter, row, CutoffFor(rules[i], now)) && Matches(rules[j].filter, row, CutoffFor(rules[j], now)))
  }

  /** Removing a rule's rows leaves what a separate rule selects. */
  lemma OthersUnaffected(tables: Tables, rule: Rule, other: Rule, now: int, removed: set<RowId>)
    requires removed <= Matching(tables, rule, now)
    requires rule.table == other.table ==>
               forall row: Row :: !(Matches(rule.filter, row, CutoffFor(rule, now)) && Matches(other.filter, row, CutoffFor(other, now)))
    ensures Matching(Without(tables, rule.table, removed), other, now) == Matching(tables, other, now)
    ensures other.table in Without(tables, rule.table, removed) <==> other.table in tables
  {
  }

  /** The count a rule reports: its rows, capped at the batches before the first that fails. */
  function Quota(tables: Tables, rule: Rule, now: int, batchSize: int, maxBatches: nat, works: nat -> bool): int {
    var good := GoodBatches(tables, rule, batchSize, maxBatches, works);
    if good == 0 then 0 else Min(|Matching(tables, rule, now)|, batchSize * good)
  }

  /** Some batch within the bound fails, and the rule has rows enough to fill those before it. */
  predicate Fails(tables: Tables, rule: Rule, now: int, batchSize: int, maxBatches: nat, works: nat -> bool) {
    var good := GoodBatches(tables, rule, batchSize, maxBatches, works);
    good < maxBatches && (good == 0 || |Matching(tables, rule, now)| >= batchSize * good)
  }

  /** The row is selected by some rule. */
  ghost predicate Selected(rules: seq<Rule>, now: int, table: string, row: Row) {
    exists i :: 0 <= i < |rules| && rules[i].table == table && Matches(rules[i].filter, row, CutoffFor(rules[i], now))
  }

  /** The tables differ only by rows that some rule selects. */
  ghost predicate OnlySelectedGone(before: Tables, after: Tables, rules: seq<Rule>, now: int) {
    && after.Keys == before.Keys
    && (forall t, id | t in before && id in before[t] ::
          if id in after[t] then after[t][id] == before[t][id] else Selected(rules, now, t, before[t][id]))
    && (forall t, id | t in after && id in after[t] :: id in before[t])
  }

  lemma StillOnlySelected(before: Tables, now': Tables, rules: seq<Rule>, now: int, k: nat, removed: set<RowId>)
    requires k < |rules| && OnlySelectedGone(before, now', rules, now)
    requires removed <= Matching(now', rules[k], now)
    ensures OnlySelectedGone(before, Without(now', rules[k].table, removed), rules, now)
  {
    var after := Without(now', rules[k].table, removed);
    forall t, id | t in before && id in before[t]
      ensures if id in after[t] then after[t][id] == before[t][id] else Selected(rules, now, t, before[t][id])
    {
      if id in now'[t] && id !in after[t] {
        assert t == rules[k].table && Matches(rules[k].filter, now'[t][id], CutoffFor(rules[k], now));
      }
    }
  }

  /** Which batch of which rule succeeds. */
  type Weather = nat -> nat -> bool

  /** After `k` rules: what they reported and which failed, and that the others still select what they did at first. */
  ghost predicate CountsHold(before: Tables, tables: Tables, rules: seq<Rule>, now: int, batchSize: int, maxBatches: nat,
                             works: Weather, deleted: seq<(string, nat)>, failed: seq<bool>) {
    && |deleted| == |failed| <= |rules|
    && (forall i | 0 <= i < |deleted| ::
          && deleted[i].1 == Quota(before, rules[i], now, batchSize, maxBatches, works(i))
          && (failed[i] <==> Fails(before, rules[i], now, batchSize, maxBatches, works(i)))
          && |Matching(tables, rules[i], now)| == |Matching(before, rules[i], now)| - deleted[i].1)
    && (forall i | |deleted| <= i < |rules| :: Matching(tables, rules[i], now) == Matching(before, rules[i], now))
  }

  lemma {:induction false} SameTablesSameBatches(a: Tables, b: Tables, rule: Rule, batchSize: int, maxBatches: nat, works: nat -> bool)
    requires a.Keys == b.Keys
    ensures GoodBatches(a, rule, batchSize, maxBatches, works) == GoodBatches(b, rule, batchSize, maxBatches, works)
  {
    if maxBatches > 0 {
      SameTablesSameBatches(a, b, rule, batchSize, maxBatches - 1, works);
    }
  }

  lemma OneMoreCount(before: Tables, tables: Tables, rules: seq<Rule>, now: int, batchSize: int, maxBatches: nat, works: Weather,
                     deleted: seq<(string, nat)>, failed: seq<bool>, total: nat, fails: bool, removed: set<RowId>)
    requires Separate(rules, now) && |deleted| < |rules| && tables.Keys == before.Keys
    requires CountsHold(before, tables, rules, now, batchSize, maxBatches, works, deleted, failed)
    requires var k := |deleted|;
             && removed <= Matching(tables, rules[k], now)
             && |removed| == total == Quota(tables, rules[k], now, batchSize, maxBatches, works(k))
             && (fails <==> Fails(tables, rules[k], now, batchSize, maxBatches, works(k)))
    ensures var k := |deleted|;
            CountsHold(before, Without(tables, rules[k].table, removed), rules, now, batchSize, maxBatches, works,
                       deleted + [(rules[k].name, total)], failed + [fails])
  {
    var k := |deleted|;
    forall i | 0 <= i < |rules| && i != k
      ensures Matching(Without(tables, rules[k].table, removed), rules[i], now) == Matching(tables, rules[i], now)
    {
      OthersUnaffected(tables, rules[k], rules[i], now, removed);
    }
    SameTablesSameBatches(before, tables, rules[k], batchSize, maxBatches, works(k));
    MatchingWithout(tables, rules[k], now, removed);
    assert |Matching(tables, rules[k], now) - removed| == |Matching(tables, rules[k], now)| - |removed|;
  }

  /** The rules that failed, in order. */
  function FailedNames(rules: seq<Rule>, failed: seq<bool>): seq<string>
    requires |failed| <= |rules|
  {
    if failed == [] then []
    else
      var k := |failed| - 1;
      FailedNames(rules, failed[..k]) + if failed[k] then [rules[k].name] else []
  }

  /**
   * All rules in turn, each to its own end, whichever batches fail. When the rules are separate, each
   * deletes exactly as many rows as if it had run first and fails exactly when it would have then, so their order does
   * not matter; and only selected rows ever go.
   */
  method RunRules(db: Database, now: int, rules: seq<Rule>, batchSize: int, maxBatches: nat, works: Weather)
    returns (deleted: seq<(string, nat)>, errors: seq<string>, ghost failed: seq<bool>)
    modifies db
    ensures |deleted| == |failed| == |rules| && forall i | 0 <= i < |rules| :: deleted[i].0 == rules[i].name
    ensures errors == FailedNames(rules, failed)
    ensures Separate(rules, now) ==> CountsHold(old(db.tables), db.tables, rules, now, batchSize, maxBatches, works, deleted, failed)
    ensures OnlySelectedGone(old(db.tables), db.tables, rules, now)
  {
    deleted, errors, failed := [], [], [];
    for k := 0 to |rules|
      invariant |deleted| == |failed| == k && forall i | 0 <= i < k :: deleted[i].0 == rules[i].name
      invariant OnlySelectedGone(old(db.tables), db.tables, rules, now)
      invariant Separate(rules, now) ==> CountsHold(old(db.tables), db.tables, rules, now, batchSize, maxBatches, works, deleted, failed)
      invariant errors == FailedNames(rules, failed)
    {
      ghost var before := db.tables;
      var total, fails, removed := db.RunRule(rules[k], now, batchSize, maxBatches, works(k));
      StillOnlySelected(old(db.tables), before, rules, now, k, removed);
      if Separate(rules, now) {
        OneMoreCount(old(db.tables), before, rules, now, batchSize, maxBatches, works, deleted, failed, total, fails, removed);
      }
      deleted := deleted + [(rules[k].name, total)];
      assert (failed + [fails])[..k] == failed;
      failed := failed + [fails];
      if fails {
        errors := errors + [rules[k].name];
      }
    }
  }

  /** Without errors the repository's bounds cap a rule at 100000 rows; a failure at batch `j` caps it at 500 `j`. */
  lemma CapOfARule(tables: Tables, rule: Rule, now: int, works: nat -> bool, j: nat)
    requires rule.table in tables && j <= 200 && (forall b: nat | b < j :: works(b))
    requires j == 200 || !works(j)
    ensures var rows, taken := |Matching(tables, rule, now)|, Quota(tables, rule, now, BATCH_SIZE, MAX_BATCHES_PER_RULE, works);
            taken == if rows < 500 * j then rows else 500 * j
    ensures Fails(tables, rule, now, BATCH_SIZE, MAX_BATCHES_PER_RULE, works) <==>
            j < 200 && |Matching(tables, rule, now)| >= 500 * j
  {
    GoodBatchesRun(tables, rule, BATCH_SIZE, MAX_BATCHES_PER_RULE, works);
    var good := GoodBatches(tables, rule, BATCH_SIZE, MAX_BATCHES_PER_RULE, works);
    assert j < good ==> Runs(tables, rule, BATCH_SIZE, works(j));
    assert good == j;
  }

  /** The repository's rules are separate at any time, so each deletes what it would delete alone. */
  lemma RulesAreSeparate(now: int)
    ensures Separate(RULES, now)
  {
    forall i, j, row: Row | 0 <= i < j < |RULES| && RULES[i].table == RULES[j].table
      ensures !(Matches(RULES[i].filter, row, CutoffFor(RULES[i], now)) && Matches(RULES[j].filter, row, CutoffFor(RULES[j], now)))
    {
      assert 2 <= i < j <= 4 || (i == 5 && j == 6);
    }
  }

  predicate OlderThan(column: Option<int>, now: int, days: int) {
    column.Some? && column.value < now - days * 86_400_000
  }

  /** What retention takes from each table. */
  lemma RulesSelectExactly(now: int, table: string, row: Row)
    ensures Selected(RULES, now, table, row) <==>
              || ((table == "session" || table == "verification") && OlderThan(row.expiresAt, now, 1))
              || (table == "invite" && row.status == "pending" && OlderThan(row.expiresAt, now, 30))
              || (table == "invite" && row.status == "revoked" && OlderThan(row.updatedAt, now, 30))
              || (table == "invite" && row.status == "claimed" && OlderThan(row.claimedAt, now, 30))
              || (table == "notification_job" && row.status == "sent" && OlderThan(row.updatedAt, now, 7))
              || (table == "notification_job" && row.status != "sent" && row.status != "pending" && OlderThan(row.updatedAt, now, 30))
              || (table == "notification_log" && OlderThan(row.createdAt, now, 30))
              || (table == "push_device" && OlderThan(row.lastSeenAt, now, 180))
  {
    assert Selected(RULES, now, table, row) <==>
      exists i :: 0 <= i < 9 && RULES[i].table == table && Matches(RULES[i].filter, row, CutoffFor(RULES[i], now));
    forall i | 0 <= i < 9
      ensures CutoffFor(RULES[i], now) == now - RULES[i].retentionDays * 86_400_000
    {
    }
    RuleHits(now, table, row);
  }

  /** One rule after the other. */
  lemma RuleHits(now: int, table: string, row: Row)
    ensures (exists i :: 0 <= i < 9 && RULES[i].table == table && Matches(RULES[i].filter, row, CutoffFor(RULES[i], now))) <==>
              || RuleHit(0, now, table, row) || RuleHit(1, now, table, row) || RuleHit(2, now, table, row)
              || RuleHit(3, now, table, row) || RuleHit(4, now, table, row) || RuleHit(5, now, table, row)
              || RuleHit(6, now, table, row) || RuleHit(7, now, table, row) || RuleHit(8, now, table, row)
  {
  }

  predicate RuleHit(i: nat, now: int, table: string, row: Row)
    requires i < 9
  {
    RULES[i].table == table && Matches(RULES[i].filter, row, CutoffFor(RULES[i], now))
  }

  // ----- The job rows of the outbox -----

  function StatusText(status: Outbox.Status): string {
    match status
    case Pending => "pending"
    case Sent => "sent"
    case Skipped => "skipped"
  }

  function JobRow(job: Outbox.Job): Row {
    Row(StatusText(job.status), None, Some(job.updatedAt), None, None, None)
  }

  /** What the rules on `notification_job` select is what the outbox lets retention remove; a pending job is not in it. */
  lemma JobRulesSelectExpiredJobs(job: Outbox.Job, now: nat)
    ensures Selected(RULES, now, "notification_job", JobRow(job)) <==> Outbox.Expired(job, now)
    ensures job.status.Pending? ==> !Selected(RULES, now, "notification_job", JobRow(job))
  {
    var row := JobRow(job);
    assert forall i | 0 <= i < |RULES| :: RULES[i].table == "notification_job" <==> i == 5 || i == 6;
    if Outbox.Expired(job, now) {
      var i := if job.status.Sent? then 5 else 6;
      assert RULES[i].table == "notification_job" && Matches(RULES[i].filter, row, CutoffFor(RULES[i], now));
    }
  }
}
