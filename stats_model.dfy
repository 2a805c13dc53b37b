/**
 * The statistics snapshot read from `~/.claude/stats-cache.json`, as the
 * back end's `StatsCache` structs and the front end's `types.ts` interfaces
 * describe it. Unsigned counters are `nat`; a JSON object keyed by strings
 * (a Rust `HashMap`, a TypeScript `Record`) is the sequence of its
 * `(key, value)` entries in iteration order.
 */
module StatsModel {
  import opened Common

  type Entries<V> = seq<(string, V)>

  datatype DailyActivity = DailyActivity(
    date: string,
    messageCount: nat,
    sessionCount: nat,
    toolCallCount: nat)

  datatype DailyModelTokens = DailyModelTokens(
    date: string,
    tokensByModel: Entries<nat>)

  /** `costUsd` is a binary double in the source; only its presence matters here. */
  datatype ModelUsage = ModelUsage(
    inputTokens: nat,
    outputTokens: nat,
    cacheReadInputTokens: nat,
    cacheCreationInputTokens: nat,
    webSearchRequests: nat,
    costUsd: real)

  datatype LongestSession = LongestSession(
    sessionId: string,
    duration: nat,
    messageCount: nat,
    timestamp: string)

  datatype StatsCache = StatsCache(
    version: nat,
    lastComputedDate: string,
    dailyActivity: seq<DailyActivity>,
    dailyModelTokens: seq<DailyModelTokens>,
    modelUsage: Entries<ModelUsage>,
    totalSessions: nat,
    totalMessages: nat,
    longestSession: Option<LongestSession>,
    firstSessionDate: Option<string>,
    hourCounts: Option<Entries<nat>>)

  /** The per-model summary row the front end derives (`ModelSummary`). */
  datatype ModelSummary = ModelSummary(
    model: string,
    inputTokens: nat,
    outputTokens: nat,
    cacheReadTokens: nat,
    cacheCreationTokens: nat,
    totalTokens: nat)

  /** One day's token total (`DailyTokens`). */
  datatype DailyTokens = DailyTokens(date: string, tokens: nat)
}
