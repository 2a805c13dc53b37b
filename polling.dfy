/**
 * The stats-file watcher's receive loop: each outcome of the timed receive
 * on the notification channel either triggers one tray refresh, is ignored,
 * or (a disconnected channel) ends the loop. The thread, the channel and the
 * operating system's watcher are outside the model; the loop consumes a
 * sequence of receive outcomes and counts the refreshes it triggers.
 */
module Polling {
  import opened Common

  const StatsFileName: string := "stats-cache.json"

  /** The kinds of `notify` events; their sub-kinds play no part. */
  datatype EventKind = Any | Access | Create | Modify | Remove | Other

  /** A path as its normal components (root and `.` components dropped). */
  datatype Path = Path(components: seq<string>)

  datatype Event = Event(kind: EventKind, paths: seq<Path>)

  /** What one `recv_timeout` returns: an event, a watch error, a timeout or a disconnected channel. */
  datatype Outcome = Received(event: Event) | WatchError | Timeout | Disconnected

  /** `Path::file_name`: the last component, unless there is none or it is `..`. */
  function FileName(p: Path): (r: Option<string>)
    ensures r.Some? <==> |p.components| > 0 && p.components[|p.components| - 1] != ".."
    ensures r.Some? ==> r.value == p.components[|p.components| - 1]
  {
    if |p.components| == 0 || p.components[|p.components| - 1] == ".." then None
    else Some(p.components[|p.components| - 1])
  }

  /** `file_name().map(|n| n == "stats-cache.json").unwrap_or(false)`. */
  predicate IsStatsPath(p: Path) {
    match FileName(p)
    case None => false
    case Some(n) => n == StatsFileName
  }

  /** `paths.iter().any(is_stats_path)`. */
  function AnyStatsPath(paths: seq<Path>): (b: bool)
    ensures b <==> exists i :: 0 <= i < |paths| && IsStatsPath(paths[i])
  {
    if paths == [] then false else IsStatsPath(paths[0]) || AnyStatsPath(paths[1..])
  }

  /**
   * The refresh rule: a timeout always refreshes; an event refreshes when one
   * of its paths names the stats file and it is a modification or creation.
   */
  predicate Triggers(o: Outcome) {
    match o
    case Timeout => true
    case Received(e) =>
      (e.kind == Modify || e.kind == Create) &&
      exists i :: 0 <= i < |e.paths| && IsStatsPath(e.paths[i])
    case WatchError => false
    case Disconnected => false
  }

  /** Position of the first disconnect, or the length when there is none. */
  function FirstDisconnect(outcomes: seq<Outcome>): (k: nat)
    ensures k <= |outcomes|
    ensures forall j :: 0 <= j < k ==> !outcomes[j].Disconnected?
    ensures k < |outcomes| ==> outcomes[k].Disconnected?
  {
    if outcomes == [] then 0
    else if outcomes[0].Disconnected? then 0
    else 1 + FirstDisconnect(outcomes[1..])
  }

  /** How many outcomes of `s` trigger a refresh. */
  function CountTriggers(s: seq<Outcome>): nat {
    if s == [] then 0
    else CountTriggers(s[..|s| - 1]) + (if Triggers(s[|s| - 1]) then 1 else 0)
  }

  /** Refreshes the loop performs on `outcomes`: the triggering ones before the first disconnect. */
  function WatchRefreshes(outcomes: seq<Outcome>): nat {
    CountTriggers(outcomes[..FirstDisconnect(outcomes)])
  }

  /**
   * The body of the watcher's `loop`, run over the outcomes received in turn:
   * it returns how many refreshes it performed and how many outcomes it took
   * from the channel before stopping (or running out of outcomes).
   */
  method Watch(outcomes: seq<Outcome>) returns (refreshes: nat, consumed: nat)
    ensures refreshes == WatchRefreshes(outcomes)
    ensures consumed == if FirstDisconnect(outcomes) < |outcomes| then FirstDisconnect(outcomes) + 1 else |outcomes|
  {
    refreshes := 0;
    var i := 0;
    while i < |outcomes|
      invariant 0 <= i <= |outcomes|
      invariant forall j :: 0 <= j < i ==> !outcomes[j].Disconnected?
      invariant refreshes == CountTriggers(outcomes[..i])
    {
      assert outcomes[..i + 1][..i] == outcomes[..i];
      match outcomes[i] {
        case Received(event) =>
          var isStatsFile := AnyStatsPath(event.paths);
          if isStatsFile {
            if event.kind == Modify || event.kind == Create {
              refreshes := refreshes + 1;
            }
          }
        case WatchError =>
        case Timeout =>
          refreshes := refreshes + 1;
        case Disconnected =>
          assert FirstDisconnect(outcomes) == i by { FirstDisconnectAt(outcomes, i); }
          return refreshes, i + 1;
      }
      i := i + 1;
    }
    assert outcomes[..i] == outcomes;
    FirstDisconnectAt(outcomes, i);
    consumed := i;
  }

  lemma {:induction false} FirstDisconnectAt(outcomes: seq<Outcome>, k: nat)
    requires k <= |outcomes|
    requires forall j :: 0 <= j < k ==> !outcomes[j].Disconnected?
    requires k < |outcomes| ==> outcomes[k].Disconnected?
    ensures FirstDisconnect(outcomes) == k
    decreases k
  {
    if k > 0 {
      FirstDisconnectAt(outcomes[1..], k - 1);
    }
  }

  lemma {:induction false} CountTriggersAppend(a: seq<Outcome>, b: seq<Outcome>)
    ensures CountTriggers(a + b) == CountTriggers(a) + CountTriggers(b)
    decreases |b|
  {
    if b == [] {
      assert a + b == a;
    } else {
      assert (a + b)[..|a + b| - 1] == a + b[..|b| - 1];
      CountTriggersAppend(a, b[..|b| - 1]);
    }
  }

  /**
   * One step of the loop: a disconnect ends it with no refresh; any other
   * outcome adds one refresh if it triggers, none otherwise, and the loop
   * goes on with the rest.
   */
  lemma {:induction false} WatchStep(o: Outcome, rest: seq<Outcome>)
    ensures WatchRefreshes([o] + rest)
         == if o.Disconnected? then 0 else (if Triggers(o) then 1 else 0) + WatchRefreshes(rest)
  {
    var s := [o] + rest;
    if !o.Disconnected? {
      FirstDisconnectAt(s, 1 + FirstDisconnect(rest));
      assert s[..1 + FirstDisconnect(rest)] == [o] + rest[..FirstDisconnect(rest)];
      CountTriggersAppend([o], rest[..FirstDisconnect(rest)]);
      assert [o][..0] == [];
    } else {
      FirstDisconnectAt(s, 0);
    }
  }

  /** Nothing received after a disconnect is ever processed. */
  lemma {:induction false} WatchStopsAtDisconnect(before: seq<Outcome>, after: seq<Outcome>)
    ensures WatchRefreshes(before + [Disconnected] + after) == WatchRefreshes(before)
    decreases |before|
  {
    if before == [] {
      WatchStep(Disconnected, after);
      assert [] + [Disconnected] + after == [Disconnected] + after;
      assert FirstDisconnect([]) == 0;
    } else {
      var o := before[0];
      assert before + [Disconnected] + after == [o] + (before[1..] + [Disconnected] + after);
      assert before == [o] + before[1..];
      WatchStep(o, before[1..] + [Disconnected] + after);
      WatchStep(o, before[1..]);
      WatchStopsAtDisconnect(before[1..], after);
    }
  }

  /** Each outcome yields at most one refresh. */
  lemma {:induction false} CountTriggersBound(s: seq<Outcome>)
    ensures CountTriggers(s) <= |s|
    decreases |s|
  {
    if s != [] {
      CountTriggersBound(s[..|s| - 1]);
    }
  }

  /** No deduplication: k triggering outcomes in a row give k refreshes. */
  lemma {:induction false} NoDeduplication(o: Outcome, k: nat)
    requires Triggers(o)
    ensures WatchRefreshes(seq(k, _ => o)) == k
    decreases k
  {
    var s := seq(k, _ => o);
    if k > 0 {
      assert s == [o] + seq(k - 1, _ => o);
      WatchStep(o, seq(k - 1, _ => o));
      NoDeduplication(o, k - 1);
    } else {
      assert s == [];
    }
  }

  /** The filter cases: file name, event kind, and paths without a file name. */
  lemma {:induction false} TriggerExamples()
    ensures Triggers(Received(Event(Modify, [Path(["home", ".claude", "stats-cache.json"])])))
    ensures Triggers(Received(Event(Create, [Path(["tmp", "x"]), Path(["stats-cache.json"])])))
    ensures !Triggers(Received(Event(Modify, [Path(["home", ".claude", "settings.json"])])))
    ensures !Triggers(Received(Event(Remove, [Path(["home", ".claude", "stats-cache.json"])])))
    ensures !Triggers(Received(Event(Access, [Path(["stats-cache.json"])])))
    ensures !Triggers(Received(Event(Modify, [Path([]), Path(["stats-cache.json", ".."])])))
    ensures !Triggers(Received(Event(Modify, [])))
  {
    var p1 := Path(["home", ".claude", "stats-cache.json"]);
    var p3 := Path(["stats-cache.json"]);
    assert IsStatsPath(p1) && IsStatsPath(p3);
    assert IsStatsPath([p1][0]);
    assert IsStatsPath([Path(["tmp", "x"]), p3][1]);
    var p2 := Path(["home", ".claude", "settings.json"]);
    assert !IsStatsPath(p2) by {
      assert FileName(p2) == Some("settings.json");
      assert "settings.json"[1] != StatsFileName[1];
    }
    assert !IsStatsPath(Path([]));
    assert !IsStatsPath(Path(["stats-cache.json", ".."]));
  }
}
