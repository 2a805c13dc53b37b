/**
 * The popover's aggregates over a statistics snapshot: token totals over
 * the per-model usage, per-model summaries ordered by total, per-day token
 * totals of one month, and one month's message, session and tool-call sums.
 */
module Stats {
  import opened StatsModel
  import opened Seqs
  import opened Text
  import MonthTokens

  /** The four token kinds of one model; web searches and cost are not tokens. */
  function UsageTokens(u: ModelUsage): nat {
    u.inputTokens + u.outputTokens + u.cacheReadInputTokens + u.cacheCreationInputTokens
  }

  function ComputeInputTokens(usage: Entries<ModelUsage>): (total: nat)
    ensures usage == [] ==> total == 0
    ensures |usage| == 1 ==> total == usage[0].1.inputTokens
  {
    SumBy(usage, (e: (string, ModelUsage)) => e.1.inputTokens)
  }

  function ComputeOutputTokens(usage: Entries<ModelUsage>): (total: nat)
    ensures usage == [] ==> total == 0
    ensures |usage| == 1 ==> total == usage[0].1.outputTokens
  {
    SumBy(usage, (e: (string, ModelUsage)) => e.1.outputTokens)
  }

  function ComputeCacheTokens(usage: Entries<ModelUsage>): (total: nat)
    ensures usage == [] ==> total == 0
    ensures |usage| == 1 ==> total == usage[0].1.cacheReadInputTokens + usage[0].1.cacheCreationInputTokens
  {
    SumBy(usage, (e: (string, ModelUsage)) => e.1.cacheReadInputTokens + e.1.cacheCreationInputTokens)
  }

  /** All tokens of all models: the input, output and cache totals together. */
  function ComputeTotalTokens(usage: Entries<ModelUsage>): (total: nat)
    ensures usage == [] ==> total == 0
    ensures total == ComputeInputTokens(usage) + ComputeOutputTokens(usage) + ComputeCacheTokens(usage)
  {
    var input := (e: (string, ModelUsage)) => e.1.inputTokens;
    var output := (e: (string, ModelUsage)) => e.1.outputTokens;
    var inOut := (e: (string, ModelUsage)) => e.1.inputTokens + e.1.outputTokens;
    var cache := (e: (string, ModelUsage)) => e.1.cacheReadInputTokens + e.1.cacheCreationInputTokens;
    var all := (e: (string, ModelUsage)) => UsageTokens(e.1);
    SumByAdd(usage, input, output, inOut);
    SumByAdd(usage, inOut, cache, all);
    SumBy(usage, all)
  }

  /** The total depends only on the four token counts, not on web searches or cost. */
  lemma {:induction false} TotalIgnoresSearchesAndCost(a: Entries<ModelUsage>, b: Entries<ModelUsage>)
    requires |a| == |b|
    requires forall i :: 0 <= i < |a| ==> UsageTokens(a[i].1) == UsageTokens(b[i].1)
    ensures ComputeTotalTokens(a) == ComputeTotalTokens(b)
  {
    var all := (e: (string, ModelUsage)) => UsageTokens(e.1);
    SumByPointwise(a, b, all, all);
  }

  /** Nor on the order `Object.values` lists the models in. */
  lemma {:induction false} TotalIgnoresEntryOrder(a: Entries<ModelUsage>, b: Entries<ModelUsage>)
    requires multiset(a) == multiset(b)
    ensures ComputeTotalTokens(a) == ComputeTotalTokens(b)
  {
    SumByPermutation(a, b, (e: (string, ModelUsage)) => UsageTokens(e.1));
  }

  /** Each per-kind total of two lists of models is the sum of their totals. */
  lemma {:induction false} KindTotalsAppend(a: Entries<ModelUsage>, b: Entries<ModelUsage>)
    ensures ComputeInputTokens(a + b) == ComputeInputTokens(a) + ComputeInputTokens(b)
    ensures ComputeOutputTokens(a + b) == ComputeOutputTokens(a) + ComputeOutputTokens(b)
    ensures ComputeCacheTokens(a + b) == ComputeCacheTokens(a) + ComputeCacheTokens(b)
  {
    SumByAppend(a, b, (e: (string, ModelUsage)) => e.1.inputTokens);
    SumByAppend(a, b, (e: (string, ModelUsage)) => e.1.outputTokens);
    SumByAppend(a, b, (e: (string, ModelUsage)) => e.1.cacheReadInputTokens + e.1.cacheCreationInputTokens);
  }

  /** The per-kind totals do not depend on the order `Object.values` lists the models in. */
  lemma {:induction false} KindTotalsIgnoreEntryOrder(a: Entries<ModelUsage>, b: Entries<ModelUsage>)
    requires multiset(a) == multiset(b)
    ensures ComputeInputTokens(a) == ComputeInputTokens(b)
    ensures ComputeOutputTokens(a) == ComputeOutputTokens(b)
    ensures ComputeCacheTokens(a) == ComputeCacheTokens(b)
  {
    SumByPermutation(a, b, (e: (string, ModelUsage)) => e.1.inputTokens);
    SumByPermutation(a, b, (e: (string, ModelUsage)) => e.1.outputTokens);
    SumByPermutation(a, b, (e: (string, ModelUsage)) => e.1.cacheReadInputTokens + e.1.cacheCreationInputTokens);
  }

  /** The input total reads only `inputTokens`: models that agree on it agree on the total. */
  lemma {:induction false} InputTokensReadsOnlyInput(a: Entries<ModelUsage>, b: Entries<ModelUsage>)
    requires |a| == |b|
    requires forall i :: 0 <= i < |a| ==> a[i].1.inputTokens == b[i].1.inputTokens
    ensures ComputeInputTokens(a) == ComputeInputTokens(b)
  {
    var f := (e: (string, ModelUsage)) => e.1.inputTokens;
    SumByPointwise(a, b, f, f);
  }

  /** The output total reads only `outputTokens`. */
  lemma {:induction false} OutputTokensReadsOnlyOutput(a: Entries<ModelUsage>, b: Entries<ModelUsage>)
    requires |a| == |b|
    requires forall i :: 0 <= i < |a| ==> a[i].1.outputTokens == b[i].1.outputTokens
    ensures ComputeOutputTokens(a) == ComputeOutputTokens(b)
  {
    var f := (e: (string, ModelUsage)) => e.1.outputTokens;
    SumByPointwise(a, b, f, f);
  }

  /** The cache total reads only the two cache counts, and only their sum. */
  lemma {:induction false} CacheTokensReadsOnlyCache(a: Entries<ModelUsage>, b: Entries<ModelUsage>)
    requires |a| == |b|
    requires forall i :: 0 <= i < |a| ==>
      a[i].1.cacheReadInputTokens + a[i].1.cacheCreationInputTokens
      == b[i].1.cacheReadInputTokens + b[i].1.cacheCreationInputTokens
    ensures ComputeCacheTokens(a) == ComputeCacheTokens(b)
  {
    var f := (e: (string, ModelUsage)) => e.1.cacheReadInputTokens + e.1.cacheCreationInputTokens;
    SumByPointwise(a, b, f, f);
  }

  function ToSummary(e: (string, ModelUsage)): ModelSummary {
    ModelSummary(e.0, e.1.inputTokens, e.1.outputTokens, e.1.cacheReadInputTokens,
      e.1.cacheCreationInputTokens, UsageTokens(e.1))
  }

  predicate SortedByTotalDesc(s: seq<ModelSummary>) {
    forall i, j :: 0 <= i < j < |s| ==> s[i].totalTokens >= s[j].totalTokens
  }

  /** Places `x` after every element whose total is at least its own. */
  function InsertByTotal(x: ModelSummary, s: seq<ModelSummary>): (r: seq<ModelSummary>)
    requires SortedByTotalDesc(s)
    ensures SortedByTotalDesc(r)
    ensures multiset(r) == multiset(s) + multiset{x}
    ensures |r| == |s| + 1
  {
    if s == [] then [x]
    else if s[0].totalTokens >= x.totalTokens then
      var rest := InsertByTotal(x, s[1..]);
      InsertBehindHead(x, s, rest);
      [s[0]] + rest
    else
      [x] + s
  }

  /** The step of `InsertByTotal` that keeps the head in front. */
  lemma {:induction false} InsertBehindHead(x: ModelSummary, s: seq<ModelSummary>, rest: seq<ModelSummary>)
    requires SortedByTotalDesc(s) && s != [] && s[0].totalTokens >= x.totalTokens
    requires SortedByTotalDesc(rest) && multiset(rest) == multiset(s[1..]) + multiset{x}
    ensures SortedByTotalDesc([s[0]] + rest)
    ensures multiset([s[0]] + rest) == multiset(s) + multiset{x}
  {
    forall k | 0 <= k < |rest|
      ensures rest[k].totalTokens <= s[0].totalTokens
    {
      assert rest[k] in multiset(rest);
      if rest[k] != x {
        assert rest[k] in multiset(s[1..]);
        var j :| 0 <= j < |s[1..]| && s[1..][j] == rest[k];
        assert s[j + 1] == rest[k];
      }
    }
    assert s == [s[0]] + s[1..];
  }

  /** `sort((a, b) => b.totalTokens - a.totalTokens)`: a stable insertion sort, largest total first. */
  function SortByTotalDesc(s: seq<ModelSummary>): (r: seq<ModelSummary>)
    ensures SortedByTotalDesc(r)
    ensures multiset(r) == multiset(s)
    ensures |r| == |s|
  {
    if s == [] then []
    else
      assert s == s[..|s| - 1] + [s[|s| - 1]];
      InsertByTotal(s[|s| - 1], SortByTotalDesc(s[..|s| - 1]))
  }

  /**
   * One summary per model entry, each carrying the entry's four token counts
   * and their sum, ordered by that sum from largest to smallest.
   */
  function ComputeModelSummaries(usage: Entries<ModelUsage>): (r: seq<ModelSummary>)
    ensures |r| == |usage|
    ensures SortedByTotalDesc(r)
    ensures multiset(r) == multiset(MapSeq(usage, ToSummary))
    ensures forall k :: 0 <= k < |r| ==>
      r[k].totalTokens == r[k].inputTokens + r[k].outputTokens + r[k].cacheReadTokens + r[k].cacheCreationTokens
  {
    var r := SortByTotalDesc(MapSeq(usage, ToSummary));
    assert forall k :: 0 <= k < |r| ==> r[k] in multiset(MapSeq(usage, ToSummary));
    r
  }

  function ToDailyTokens(d: DailyModelTokens): DailyTokens {
    DailyTokens(d.date, MonthTokens.DayTotal(d))
  }

  /** The days of the month `monthPrefix`, in their original order, each with its token total. */
  function ComputeDailyTokens(daily: seq<DailyModelTokens>, monthPrefix: string): (r: seq<DailyTokens>)
    ensures |r| <= |daily|
    ensures daily == [] ==> r == []
    ensures forall k :: 0 <= k < |r| ==> StartsWith(r[k].date, monthPrefix)
  {
    MapSeq(Filter(daily, (d: DailyModelTokens) => StartsWith(d.date, monthPrefix)), ToDailyTokens)
  }

  /** Per-day totals of a concatenation are the concatenated per-day totals. */
  lemma {:induction false} DailyTokensAppend(a: seq<DailyModelTokens>, b: seq<DailyModelTokens>, monthPrefix: string)
    ensures ComputeDailyTokens(a + b, monthPrefix) == ComputeDailyTokens(a, monthPrefix) + ComputeDailyTokens(b, monthPrefix)
  {
    var p := (d: DailyModelTokens) => StartsWith(d.date, monthPrefix);
    FilterAppend(a, b, p);
    MapSeqAppend(Filter(a, p), Filter(b, p), ToDailyTokens);
  }

  /** A single day is kept, with its total, exactly when its date is in the month. */
  lemma {:induction false} DailyTokensSingle(d: DailyModelTokens, monthPrefix: string)
    ensures ComputeDailyTokens([d], monthPrefix)
         == if StartsWith(d.date, monthPrefix) then [DailyTokens(d.date, MonthTokens.DayTotal(d))] else []
  {
    FilterSingle(d, (d: DailyModelTokens) => StartsWith(d.date, monthPrefix));
  }

  /** When no date is in the month, there are no rows. */
  lemma {:induction false} DailyTokensNoMatch(daily: seq<DailyModelTokens>, monthPrefix: string)
    requires forall i :: 0 <= i < |daily| ==> !StartsWith(daily[i].date, monthPrefix)
    ensures ComputeDailyTokens(daily, monthPrefix) == []
    decreases |daily|
  {
    if daily != [] {
      var init := daily[..|daily| - 1];
      assert daily == init + [daily[|daily| - 1]];
      DailyTokensAppend(init, [daily[|daily| - 1]], monthPrefix);
      DailyTokensSingle(daily[|daily| - 1], monthPrefix);
      DailyTokensNoMatch(init, monthPrefix);
    }
  }

  /** The popover's daily rows add up to the tray's month total. */
  lemma {:induction false} DailyTokensSumToMonthTotal(daily: seq<DailyModelTokens>, monthPrefix: string)
    ensures SumBy(ComputeDailyTokens(daily, monthPrefix), (t: DailyTokens) => t.tokens)
         == MonthTokens.CurrentMonthTokens(daily, monthPrefix)
  {
    var p := (d: DailyModelTokens) => StartsWith(d.date, monthPrefix);
    var kept := Filter(daily, p);
    SumByPointwise(MapSeq(kept, ToDailyTokens), kept, (t: DailyTokens) => t.tokens, MonthTokens.DayTotal);
    SumByFilter(daily, p, MonthTokens.DayTotal,
      (d: DailyModelTokens) => if StartsWith(d.date, monthPrefix) then MonthTokens.DayTotal(d) else 0);
  }

  /** Messages on the days of the month; other days count for nothing. */
  function ComputeMonthMessages(activity: seq<DailyActivity>, monthPrefix: string): (total: nat)
    ensures activity == [] ==> total == 0
    ensures total == SumBy(activity, (d: DailyActivity) => if StartsWith(d.date, monthPrefix) then d.messageCount else 0)
  {
    var p := (d: DailyActivity) => StartsWith(d.date, monthPrefix);
    SumByFilter(activity, p, (d: DailyActivity) => d.messageCount,
      (d: DailyActivity) => if StartsWith(d.date, monthPrefix) then d.messageCount else 0);
    SumBy(Filter(activity, p), (d: DailyActivity) => d.messageCount)
  }

  /** Sessions on the days of the month; other days count for nothing. */
  function ComputeMonthSessions(activity: seq<DailyActivity>, monthPrefix: string): (total: nat)
    ensures activity == [] ==> total == 0
    ensures total == SumBy(activity, (d: DailyActivity) => if StartsWith(d.date, monthPrefix) then d.sessionCount else 0)
  {
    var p := (d: DailyActivity) => StartsWith(d.date, monthPrefix);
    SumByFilter(activity, p, (d: DailyActivity) => d.sessionCount,
      (d: DailyActivity) => if StartsWith(d.date, monthPrefix) then d.sessionCount else 0);
    SumBy(Filter(activity, p), (d: DailyActivity) => d.sessionCount)
  }

  /** Tool calls on the days of the month; other days count for nothing. */
  function ComputeMonthToolCalls(activity: seq<DailyActivity>, monthPrefix: string): (total: nat)
    ensures activity == [] ==> total == 0
    ensures total == SumBy(activity, (d: DailyActivity) => if StartsWith(d.date, monthPrefix) then d.toolCallCount else 0)
  {
    var p := (d: DailyActivity) => StartsWith(d.date, monthPrefix);
    SumByFilter(activity, p, (d: DailyActivity) => d.toolCallCount,
      (d: DailyActivity) => if StartsWith(d.date, monthPrefix) then d.toolCallCount else 0);
    SumBy(Filter(activity, p), (d: DailyActivity) => d.toolCallCount)
  }

  /** Three-day activity: two days of February 2026 and one of January. */
  function ActivityFixture(): seq<DailyActivity> {
    [DailyActivity("2026-02-20", 10, 2, 5),
     DailyActivity("2026-02-21", 20, 3, 15),
     DailyActivity("2026-01-15", 50, 5, 30)]
  }

  lemma {:induction false} SumByThree<T>(a: T, b: T, c: T, f: T -> nat)
    ensures SumBy([a, b, c], f) == f(a) + f(b) + f(c)
  {
    assert [a, b, c][..2] == [a, b];
    assert [a, b][..1] == [a];
  }

  lemma {:induction false} ActivityFixtureMonths()
    ensures var s := ActivityFixture();
      && StartsWith(s[0].date, "2026-02") && StartsWith(s[1].date, "2026-02") && !StartsWith(s[2].date, "2026-02")
      && !StartsWith(s[0].date, "2026-01") && !StartsWith(s[1].date, "2026-01") && StartsWith(s[2].date, "2026-01")
  {
    var s := ActivityFixture();
    assert s[2].date[6] != "2026-02"[6];
    assert s[0].date[6] != "2026-01"[6];
    assert s[1].date[6] != "2026-01"[6];
  }

  /** Messages: 30 in February, 50 in January, none on no days. */
  lemma {:induction false} MonthMessagesExample()
    ensures ComputeMonthMessages(ActivityFixture(), "2026-02") == 30
    ensures ComputeMonthMessages(ActivityFixture(), "2026-01") == 50
    ensures ComputeMonthMessages([], "2026-02") == 0
  {
    var s := ActivityFixture();
    ActivityFixtureMonths();
    SumByThree(s[0], s[1], s[2], (d: DailyActivity) => if StartsWith(d.date, "2026-02") then d.messageCount else 0);
    SumByThree(s[0], s[1], s[2], (d: DailyActivity) => if StartsWith(d.date, "2026-01") then d.messageCount else 0);
  }

  /** Sessions: 5 in February. */
  lemma {:induction false} MonthSessionsExample()
    ensures ComputeMonthSessions(ActivityFixture(), "2026-02") == 5
  {
    var s := ActivityFixture();
    ActivityFixtureMonths();
    SumByThree(s[0], s[1], s[2], (d: DailyActivity) => if StartsWith(d.date, "2026-02") then d.sessionCount else 0);
  }

  /** Tool calls: 20 in February, 30 in January. */
  lemma {:induction false} MonthToolCallsExample()
    ensures ComputeMonthToolCalls(ActivityFixture(), "2026-02") == 20
    ensures ComputeMonthToolCalls(ActivityFixture(), "2026-01") == 30
  {
    var s := ActivityFixture();
    ActivityFixtureMonths();
    SumByThree(s[0], s[1], s[2], (d: DailyActivity) => if StartsWith(d.date, "2026-02") then d.toolCallCount else 0);
    SumByThree(s[0], s[1], s[2], (d: DailyActivity) => if StartsWith(d.date, "2026-01") then d.toolCallCount else 0);
  }

  /** The two-model usage of the tests: opus (3800 tokens in all) listed before sonnet (8200). */
  function UsageFixture(): Entries<ModelUsage> {
    [("claude-opus-4-6", ModelUsage(1000, 2000, 500, 300, 0, 0.05)),
     ("claude-sonnet-4-5", ModelUsage(3000, 4000, 1000, 200, 2, 0.03))]
  }

  lemma {:induction false} SumByTwo<T>(a: T, b: T, f: T -> nat)
    ensures SumBy([a, b], f) == f(a) + f(b)
  {
    assert [a, b][..1] == [a];
  }

  /** Input 4000, output 6000, cache 2000, and 12000 tokens in all. */
  lemma {:induction false} UsageTotalsExample()
    ensures ComputeInputTokens(UsageFixture()) == 4000
    ensures ComputeOutputTokens(UsageFixture()) == 6000
    ensures ComputeCacheTokens(UsageFixture()) == 2000
    ensures ComputeTotalTokens(UsageFixture()) == 12000
  {
    var u := UsageFixture();
    SumByTwo(u[0], u[1], (e: (string, ModelUsage)) => e.1.inputTokens);
    SumByTwo(u[0], u[1], (e: (string, ModelUsage)) => e.1.outputTokens);
    SumByTwo(u[0], u[1], (e: (string, ModelUsage)) => e.1.cacheReadInputTokens + e.1.cacheCreationInputTokens);
  }

  /** A single model: one summary carrying its four counts and their sum 3800. */
  lemma {:induction false} ModelSummarySingleExample()
    ensures ComputeModelSummaries([UsageFixture()[0]])
         == [ModelSummary("claude-opus-4-6", 1000, 2000, 500, 300, 3800)]
  {
    var opus := ModelSummary("claude-opus-4-6", 1000, 2000, 500, 300, 3800);
    assert MapSeq([UsageFixture()[0]], ToSummary) == [opus];
    assert [opus][..0] == [];
  }

  /** Two models: the one with 8200 tokens is listed before the one with 3800. */
  lemma {:induction false} ModelSummariesExample()
    ensures var r := ComputeModelSummaries(
      [("claude-opus-4-6", ModelUsage(1000, 2000, 500, 300, 0, 0.05)),
       ("claude-sonnet-4-5", ModelUsage(3000, 4000, 1000, 200, 2, 0.03))]);
      && |r| == 2
      && r[0] == ModelSummary("claude-sonnet-4-5", 3000, 4000, 1000, 200, 8200)
      && r[1] == ModelSummary("claude-opus-4-6", 1000, 2000, 500, 300, 3800)
  {
    var usage := [("claude-opus-4-6", ModelUsage(1000, 2000, 500, 300, 0, 0.05)),
                  ("claude-sonnet-4-5", ModelUsage(3000, 4000, 1000, 200, 2, 0.03))];
    var opus := ModelSummary("claude-opus-4-6", 1000, 2000, 500, 300, 3800);
    var sonnet := ModelSummary("claude-sonnet-4-5", 3000, 4000, 1000, 200, 8200);
    var mapped := MapSeq(usage, ToSummary);
    assert mapped == [opus, sonnet];
    assert mapped[..1] == [opus];
    assert [opus][..0] == [];
    assert SortByTotalDesc([opus]) == [opus];
    assert SortByTotalDesc(mapped) == InsertByTotal(sonnet, [opus]);
    assert InsertByTotal(sonnet, [opus]) == [sonnet, opus];
  }

  /** The rows one day contributes: itself with its total when in the month, nothing otherwise. */
  function DayRow(d: DailyModelTokens, monthPrefix: string): seq<DailyTokens> {
    if StartsWith(d.date, monthPrefix) then [ToDailyTokens(d)] else []
  }

  lemma {:induction false} DailyTokensOfThree(a: DailyModelTokens, b: DailyModelTokens, c: DailyModelTokens, p: string)
    ensures ComputeDailyTokens([a, b, c], p) == DayRow(a, p) + DayRow(b, p) + DayRow(c, p)
  {
    var x, y, z := [a], [b], [c];
    DailyTokensAppend(x, y, p);
    DailyTokensAppend(x + y, z, p);
    assert x + y + z == [a, b, c];
    DailyTokensSingle(a, p);
    DailyTokensSingle(b, p);
    DailyTokensSingle(c, p);
  }

  /** The three days of token counts of the test fixture. */
  function Feb20(): DailyModelTokens {
    DailyModelTokens("2026-02-20", [("claude-opus-4-6", 5000), ("claude-sonnet-4-5", 3000)])
  }

  function Feb21(): DailyModelTokens {
    DailyModelTokens("2026-02-21", [("claude-opus-4-6", 2000)])
  }

  function Jan15(): DailyModelTokens {
    DailyModelTokens("2026-01-15", [("claude-opus-4-6", 9000)])
  }

  lemma {:induction false} FixtureDayTotals()
    ensures MonthTokens.DayTotal(Feb20()) == 8000
    ensures MonthTokens.DayTotal(Feb21()) == 2000
    ensures MonthTokens.DayTotal(Jan15()) == 9000
  {
    var e := Feb20().tokensByModel;
    assert e == [e[0]] + [e[1]];
    SumByAppend([e[0]], [e[1]], (e: (string, nat)) => e.1);
  }

  /** Per-day rows of February 2026: the two February days, in order, with their totals. */
  lemma {:induction false} DailyTokensExampleFebruary()
    ensures ComputeDailyTokens([Feb20(), Feb21(), Jan15()], "2026-02")
      == [DailyTokens("2026-02-20", 8000), DailyTokens("2026-02-21", 2000)]
  {
    DailyTokensOfThree(Feb20(), Feb21(), Jan15(), "2026-02");
    FixtureDayTotals();
    assert Jan15().date[6] != "2026-02"[6];
  }

  /** January 2026 keeps only the January day. */
  lemma {:induction false} DailyTokensExampleJanuary()
    ensures ComputeDailyTokens([Feb20(), Feb21(), Jan15()], "2026-01") == [DailyTokens("2026-01-15", 9000)]
  {
    DailyTokensOfThree(Feb20(), Feb21(), Jan15(), "2026-01");
    FixtureDayTotals();
    assert Feb20().date[6] != "2026-01"[6];
    assert Feb21().date[6] != "2026-01"[6];
  }

  /** A month with no days gives no rows. */
  lemma {:induction false} DailyTokensExampleNone()
    ensures ComputeDailyTokens([Feb20(), Feb21(), Jan15()], "2025-12") == []
  {
    DailyTokensOfThree(Feb20(), Feb21(), Jan15(), "2025-12");
    assert Feb20().date[3] != "2025-12"[3];
    assert Feb21().date[3] != "2025-12"[3];
    assert Jan15().date[3] != "2025-12"[3];
  }
}
