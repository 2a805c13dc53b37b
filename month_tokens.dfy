/**
 * The tray's number: the tokens of every model on every day of the month
 * named by a "YYYY-MM" prefix (`current_month_tokens`).
 */
module MonthTokens {
  import opened StatsModel
  import opened Seqs
  import opened Text
  import Calendar

  /** All token counts a day records, over every model. */
  function DayTotal(d: DailyModelTokens): nat {
    SumBy(d.tokensByModel, (e: (string, nat)) => e.1)
  }

  /** `flat_map(|d| d.tokens_by_model.values())`: every count of every day, day by day. */
  function AllCounts(days: seq<DailyModelTokens>): seq<nat> {
    if days == [] then []
    else AllCounts(days[..|days| - 1]) + MapSeq(days[|days| - 1].tokensByModel, (e: (string, nat)) => e.1)
  }

  lemma {:induction false} AllCountsSum(days: seq<DailyModelTokens>)
    ensures SumBy(AllCounts(days), (v: nat) => v) == SumBy(days, DayTotal)
    decreases |days|
  {
    if days != [] {
      var last := days[|days| - 1];
      AllCountsSum(days[..|days| - 1]);
      SumByAppend(AllCounts(days[..|days| - 1]), MapSeq(last.tokensByModel, (e: (string, nat)) => e.1), (v: nat) => v);
      SumByPointwise(MapSeq(last.tokensByModel, (e: (string, nat)) => e.1), last.tokensByModel, (v: nat) => v, (e: (string, nat)) => e.1);
    }
  }

  /**
   * The sum of every per-model count of the days whose date starts with
   * `prefix`; every other day contributes nothing.
   */
  function CurrentMonthTokens(daily: seq<DailyModelTokens>, prefix: string): (total: nat)
    ensures daily == [] ==> total == 0
    ensures total == SumBy(daily, (d: DailyModelTokens) => if StartsWith(d.date, prefix) then DayTotal(d) else 0)
  {
    var inMonth := Filter(daily, (d: DailyModelTokens) => StartsWith(d.date, prefix));
    AllCountsSum(inMonth);
    SumByFilter(daily, (d: DailyModelTokens) => StartsWith(d.date, prefix), DayTotal,
      (d: DailyModelTokens) => if StartsWith(d.date, prefix) then DayTotal(d) else 0);
    SumBy(AllCounts(inMonth), (v: nat) => v)
  }

  /** The total of a day does not depend on the order its models are listed in. */
  lemma {:induction false} CurrentMonthTokensIgnoresMapOrder(daily: seq<DailyModelTokens>, i: nat, reordered: Entries<nat>, prefix: string)
    requires i < |daily|
    requires multiset(reordered) == multiset(daily[i].tokensByModel)
    ensures CurrentMonthTokens(daily[i := daily[i].(tokensByModel := reordered)], prefix)
         == CurrentMonthTokens(daily, prefix)
  {
    var other := daily[i := daily[i].(tokensByModel := reordered)];
    SumByPermutation(reordered, daily[i].tokensByModel, (e: (string, nat)) => e.1);
    var f := (d: DailyModelTokens) => if StartsWith(d.date, prefix) then DayTotal(d) else 0;
    SumByPointwise(other, daily, f, f);
  }

  /** Nor on the order of the days. */
  lemma {:induction false} CurrentMonthTokensIgnoresDayOrder(daily: seq<DailyModelTokens>, reordered: seq<DailyModelTokens>, prefix: string)
    requires multiset(reordered) == multiset(daily)
    ensures CurrentMonthTokens(reordered, prefix) == CurrentMonthTokens(daily, prefix)
  {
    SumByPermutation(reordered, daily,
      (d: DailyModelTokens) => if StartsWith(d.date, prefix) then DayTotal(d) else 0);
  }

  /** One in-month day with counts 5000 and 3000 and one day of another month with 9999 give 8000. */
  lemma {:induction false} CurrentMonthTokensExample()
    ensures CurrentMonthTokens(
      [DailyModelTokens("2026-02-20", [("claude-opus-4-6", 5000), ("claude-sonnet-4-5", 3000)]),
       DailyModelTokens("2026-01-15", [("claude-opus-4-6", 9999)])],
      "2026-02") == 8000
  {
    var a := DailyModelTokens("2026-02-20", [("claude-opus-4-6", 5000), ("claude-sonnet-4-5", 3000)]);
    var b := DailyModelTokens("2026-01-15", [("claude-opus-4-6", 9999)]);
    assert StartsWith(a.date, "2026-02");
    assert !StartsWith(b.date, "2026-02") by {
      assert b.date[..7][6] != "2026-02"[6];
    }
    assert DayTotal(a) == 8000 by {
      var f := (e: (string, nat)) => e.1;
      assert a.tokensByModel == [("claude-opus-4-6", 5000)] + [("claude-sonnet-4-5", 3000)];
      SumByAppend([("claude-opus-4-6", 5000)], [("claude-sonnet-4-5", 3000)], f);
    }
    var f := (d: DailyModelTokens) => if StartsWith(d.date, "2026-02") then DayTotal(d) else 0;
    assert CurrentMonthTokens([a, b], "2026-02") == SumBy([a, b], f);
    assert [a, b] == [a] + [b];
    SumByAppend([a], [b], f);
  }

  /**
   * `current_month_tokens` with the clock reading passed in: the prefix of
   * the current UTC month, then the sum over the snapshot's days in it.
   */
  method CurrentMonthTokensAt(stats: StatsCache, now: nat) returns (total: nat)
    requires now < Calendar.TwoTo64
    ensures total == CurrentMonthTokens(stats.dailyModelTokens, Calendar.MonthPrefixAt(now))
  {
    var prefix := Calendar.CurrentMonthPrefix(now);
    total := CurrentMonthTokens(stats.dailyModelTokens, prefix);
  }
}
