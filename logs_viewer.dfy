/** The live log viewer: a bounded list of log entries fed by "log" frames
    of the push channel, a level filter, and the effect that subscribes to
    the channel. */
module LogsViewer {
  import opened Types
  import opened Registry
  import opened Dispatch
  import opened Wrappers
  import opened Seqs

  /** `prev.slice(-200)` keeps the last 200 entries. */
  const Keep: nat := 200

  /** The component's state: `logs`, `filter`, `autoScroll`. */
  datatype Viewer = Viewer(logs: seq<LogEntry>, filter: string, autoScroll: bool)

  const Mounted: Viewer := Viewer([], "all", true)

  /** `[...prev.slice(-200), data]`: the last 200 entries of the previous
      list, then the new one.  The list can thus hold 201 entries. */
  function Append(prev: seq<LogEntry>, e: LogEntry): (r: seq<LogEntry>)
    ensures |r| == (if |prev| < Keep then |prev| else Keep) + 1
    ensures |r| <= Keep + 1
    ensures r[|r| - 1] == e
    ensures r[..|r| - 1] == prev[|prev| - (|r| - 1)..]
    ensures |prev| <= Keep ==> r == prev + [e]
  {
    var start := if |prev| < Keep then 0 else |prev| - Keep;
    prev[start..] + [e]
  }

  /** The state update of one delivered "log" frame. */
  function OnLog(v: Viewer, e: LogEntry): (r: Viewer)
    ensures r.logs == Append(v.logs, e) && r.filter == v.filter && r.autoScroll == v.autoScroll
  {
    v.(logs := Append(v.logs, e))
  }

  /** The Clear button. */
  function Clear(v: Viewer): (r: Viewer)
    ensures r.logs == [] && r.filter == v.filter && r.autoScroll == v.autoScroll
  {
    v.(logs := [])
  }

  /** The filter test of `filteredLogs`. */
  predicate Shown(e: LogEntry, filter: string) {
    filter == "all" || LevelName(e.level) == filter
  }

  /** `logs.filter((log) => filter === "all" || log.level === filter)`. */
  function Filtered(logs: seq<LogEntry>, filter: string): (r: seq<LogEntry>)
    ensures |r| <= |logs|
    ensures forall i :: 0 <= i < |r| ==> Shown(r[i], filter)
  {
    if logs == [] then []
    else (if Shown(logs[0], filter) then [logs[0]] else []) + Filtered(logs[1..], filter)
  }

  /** Filter "all" shows every entry, unchanged. */
  lemma {:induction false} FilterAllIsIdentity(logs: seq<LogEntry>)
    ensures Filtered(logs, "all") == logs
  {
    if logs != [] {
      FilterAllIsIdentity(logs[1..]);
    }
  }

  /** A filter keeps the order of the entries it shows. */
  lemma {:induction false} FilterPreservesOrder(logs: seq<LogEntry>, filter: string)
    ensures IsSubseq(Filtered(logs, filter), logs)
  {
    if logs != [] {
      var rest := Filtered(logs[1..], filter);
      FilterPreservesOrder(logs[1..], filter);
      if Shown(logs[0], filter) {
        assert Filtered(logs, filter) == [logs[0]] + rest;
        assert ([logs[0]] + rest)[1..] == rest;
      } else {
        assert Filtered(logs, filter) == rest;
      }
    }
  }

  /** A filter shows every entry that passes it, as often as it occurs,
      and no other. */
  lemma {:induction false} FilterCounts(logs: seq<LogEntry>, filter: string, x: LogEntry)
    ensures multiset(Filtered(logs, filter))[x] == if Shown(x, filter) then multiset(logs)[x] else 0
  {
    if logs != [] {
      FilterCounts(logs[1..], filter, x);
      assert logs == [logs[0]] + logs[1..];
    }
  }

  /** Filtering by a level name shows exactly the entries of that level. */
  lemma FilterByLevelIsExact(logs: seq<LogEntry>, l: Level, x: LogEntry)
    ensures multiset(Filtered(logs, LevelName(l)))[x] == if x.level == l then multiset(logs)[x] else 0
  {
    FilterCounts(logs, LevelName(l), x);
  }

  /** `getLevelColor(level)`. */
  function LevelColor(level: string): (cls: string)
    ensures level == "error" ==> cls == "text-red-600"
    ensures level == "warn" ==> cls == "text-yellow-600"
    ensures level == "info" ==> cls == "text-blue-600"
    ensures level == "debug" ==> cls == "text-gray-600"
    ensures level !in {"error", "warn", "info", "debug"} ==> cls == "text-gray-800"
  {
    match level
    case "error" => "text-red-600"
    case "warn" => "text-yellow-600"
    case "info" => "text-blue-600"
    case "debug" => "text-gray-600"
    case _ => "text-gray-800"
  }

  /** Every declared level has its own colour, never the default one. */
  lemma LevelsHaveDistinctColors(a: Level, b: Level)
    ensures LevelColor(LevelName(a)) != "text-gray-800"
    ensures a != b ==> LevelColor(LevelName(a)) != LevelColor(LevelName(b))
  {
  }

  // ----- The effect and the shared registry -----

  /** One run of the effect registers handler `h` under "log"; its cleanup
      calls `off` with `stray`, a closure created by the cleanup itself. */
  function EffectCycle(reg: Handlers, h: HandlerId, stray: HandlerId): (r: Handlers)
    ensures r.Keys == reg.Keys + {"log"}
    ensures h in Lookup(r, "log") || h == stray
    ensures forall k :: k in reg && k != "log" ==> r[k] == reg[k]
  {
    Off(On(reg, "log", h), "log", stray)
  }

  /** The cleanup cannot remove the handler: `stray` was never registered,
      so the registry after mount and cleanup still holds `h`. */
  lemma CleanupLeavesHandler(reg: Handlers, h: HandlerId, stray: HandlerId)
    requires h !in Lookup(reg, "log") && stray != h && stray !in Lookup(reg, "log")
    ensures Lookup(EffectCycle(reg, h, stray), "log") == Lookup(reg, "log") + [h]
  {
    OffStrayKeeps(reg, "log", h, stray);
  }

  /** The registry after the effect has run once per handler of `hs` (a
      mount, then one re-run per `autoScroll` change), each followed by its
      cleanup. */
  function EffectRuns(reg: Handlers, hs: seq<HandlerId>, stray: seq<HandlerId>): Handlers
    requires |stray| == |hs|
    decreases |hs|
  {
    if hs == [] then reg else EffectRuns(EffectCycle(reg, hs[0], stray[0]), hs[1..], stray[1..])
  }

  /** Each run of the effect leaves one more "log" handler behind. */
  lemma {:induction false} HandlersAccumulate(reg: Handlers, hs: seq<HandlerId>, stray: seq<HandlerId>)
    requires |stray| == |hs| && NoDup(hs)
    requires forall h :: h in hs ==> h !in Lookup(reg, "log")
    requires forall x :: x in stray ==> x !in hs && x !in Lookup(reg, "log")
    ensures Lookup(EffectRuns(reg, hs, stray), "log") == Lookup(reg, "log") + hs
    decreases |hs|
  {
    if hs != [] {
      var log := Lookup(reg, "log");
      var reg' := EffectCycle(reg, hs[0], stray[0]);
      assert hs[0] in hs && stray[0] in stray;
      FirstCycle(reg, hs, stray);
      FreshTail(log, hs, stray);
      HandlersAccumulate(reg', hs[1..], stray[1..]);
      AppendHeadThenTail(log, hs);
    }
  }

  /** The first run of the effect adds `hs[0]`; the rest of the runs start
      from there. */
  lemma FirstCycle(reg: Handlers, hs: seq<HandlerId>, stray: seq<HandlerId>)
    requires |stray| == |hs| && hs != []
    requires hs[0] !in Lookup(reg, "log") && stray[0] != hs[0] && stray[0] !in Lookup(reg, "log")
    ensures var reg' := EffectCycle(reg, hs[0], stray[0]);
      && EffectRuns(reg, hs, stray) == EffectRuns(reg', hs[1..], stray[1..])
      && Lookup(reg', "log") == Lookup(reg, "log") + [hs[0]]
  {
    CleanupLeavesHandler(reg, hs[0], stray[0]);
  }

  /** Handlers and closures new to `log` stay new after `hs[0]` joins it. */
  lemma FreshTail(log: seq<HandlerId>, hs: seq<HandlerId>, stray: seq<HandlerId>)
    requires |stray| == |hs| && hs != [] && NoDup(hs)
    requires forall h :: h in hs ==> h !in log
    requires forall x :: x in stray ==> x !in hs && x !in log
    ensures NoDup(hs[1..])
    ensures forall h :: h in hs[1..] ==> h !in log + [hs[0]]
    ensures forall x :: x in stray[1..] ==> x !in hs[1..] && x !in log + [hs[0]]
  {
    assert hs[0] !in hs[1..];
    forall h | h in hs[1..]
      ensures h !in log + [hs[0]]
    {
      assert h in hs && h != hs[0];
    }
    forall x | x in stray[1..]
      ensures x !in hs[1..] && x !in log + [hs[0]]
    {
      assert x in stray;
    }
  }

  lemma AppendHeadThenTail(a: seq<HandlerId>, b: seq<HandlerId>)
    requires b != []
    ensures a + [b[0]] + b[1..] == a + b
  {
    assert [b[0]] + b[1..] == b;
  }

  /** Applies the state updates of a sequence of "log" deliveries. */
  function ApplyAll(v: Viewer, ds: seq<Delivery<LogEntry>>): Viewer
    decreases |ds|
  {
    if ds == [] then v else ApplyAll(OnLog(v, ds[0].payload), ds[1..])
  }

  /** `n` copies of `e`. */
  function Copies(e: LogEntry, n: nat): (r: seq<LogEntry>)
    ensures |r| == n && forall i :: 0 <= i < n ==> r[i] == e
  {
    if n == 0 then [] else [e] + Copies(e, n - 1)
  }

  /** `s.slice(-k)` for `k > 0`: the last `k` entries, or all of them when
      there are fewer. */
  function Last<T>(s: seq<T>, k: nat): (r: seq<T>)
    ensures |r| == if |s| < k then |s| else k
  {
    if |s| <= k then s else s[|s| - k..]
  }

  /** An append keeps the last 201 entries of the old list with the new
      entry added. */
  lemma AppendKeepsLast(prev: seq<LogEntry>, e: LogEntry)
    ensures Append(prev, e) == Last(prev + [e], Keep + 1)
  {
    if |prev| >= Keep {
      assert (prev + [e])[|prev| - Keep..] == prev[|prev| - Keep..] + [e];
    }
  }

  /** Trimming to the last `k` entries before appending more changes
      nothing once the result is trimmed again. */
  lemma LastAbsorbs<T>(x: seq<T>, w: seq<T>, k: nat)
    ensures Last(Last(x, k) + w, k) == Last(x + w, k)
  {
    if |x| > k {
      if |w| >= k {
        LongAppend(x, w, k);
      } else {
        ShortAppend(x, w, k);
      }
    }
  }

  /** At least `k` new entries push out all the old ones. */
  lemma LongAppend<T>(x: seq<T>, w: seq<T>, k: nat)
    requires |x| > k && |w| >= k
    ensures Last(x[|x| - k..] + w, k) == w[|w| - k..]
    ensures Last(x + w, k) == w[|w| - k..]
  {
    var t := x[|x| - k..];
    assert (t + w)[|w|..] == w[|w| - k..];
    assert (x + w)[|x| + |w| - k..] == w[|w| - k..];
  }

  /** Fewer than `k` new entries keep the last old ones. */
  lemma ShortAppend<T>(x: seq<T>, w: seq<T>, k: nat)
    requires |x| > k > |w|
    ensures Last(x[|x| - k..] + w, k) == x[|x| + |w| - k..] + w
    ensures Last(x + w, k) == x[|x| + |w| - k..] + w
  {
    var t := x[|x| - k..];
    assert (t + w)[|w|..] == t[|w|..] + w;
    assert t[|w|..] == x[|x| + |w| - k..];
    assert (x + w)[|x| + |w| - k..] == x[|x| + |w| - k..] + w;
  }

  /** With `n` accumulated "log" handlers, one "log" frame appends its entry
      `n` times, and the list keeps the last 201 entries of the old list
      followed by those copies; below the cap nothing is dropped. */
  lemma OneFramePerHandler(v: Viewer, reg: Handlers, e: LogEntry, ts: string)
    ensures var o := Dispatch.Dispatch(reg, Some(Envelope(Some("log"), e, ts)), {});
      var n := |Lookup(reg, "log")|;
      && |o.deliveries| == n
      && (n == 0 ==> ApplyAll(v, o.deliveries).logs == v.logs)
      && (n > 0 ==> ApplyAll(v, o.deliveries).logs == Last(v.logs + Copies(e, n), Keep + 1))
      && (|v.logs| + n <= Keep + 1 ==> ApplyAll(v, o.deliveries).logs == v.logs + Copies(e, n))
  {
    var hs := Lookup(reg, "log");
    Dispatch.DispatchNamed(reg, "log", e, ts, {});
    DeliverAllWhenNoneThrow(hs, e, {});
    var ds := Deliver(hs, e, {});
    if ds != [] {
      ApplyCopies(v, ds, e);
    }
  }

  /** Applying `n > 0` deliveries of one entry trims the old list with the
      copies appended to the last 201 entries. */
  lemma {:induction false} ApplyCopies(v: Viewer, ds: seq<Delivery<LogEntry>>, e: LogEntry)
    requires ds != [] && forall i :: 0 <= i < |ds| ==> ds[i].payload == e
    ensures ApplyAll(v, ds).logs == Last(v.logs + Copies(e, |ds|), Keep + 1)
    decreases |ds|
  {
    ApplyFirst(v, ds, e);
    if |ds| == 1 {
      CopiesTrimmed(v.logs, e, 0);
    } else {
      ApplyCopies(OnLog(v, e), ds[1..], e);
      CopiesTrimmed(v.logs, e, |ds| - 1);
    }
  }

  /** Trimming after the first copy and again after the rest is trimming
      once after all of them. */
  lemma CopiesTrimmed(logs: seq<LogEntry>, e: LogEntry, m: nat)
    ensures m == 0 ==> Append(logs, e) == Last(logs + Copies(e, 1), Keep + 1)
    ensures Last(Append(logs, e) + Copies(e, m), Keep + 1) == Last(logs + Copies(e, m + 1), Keep + 1)
  {
    AppendKeepsLast(logs, e);
    CopiesStep(logs, e, m + 1);
    assert Copies(e, 1) == [e] + Copies(e, 0);
    TrimThenAppend(Append(logs, e), logs + [e], Copies(e, m), logs + Copies(e, m + 1), Keep + 1);
  }

  lemma TrimThenAppend<T>(trimmed: seq<T>, a: seq<T>, c: seq<T>, full: seq<T>, k: nat)
    requires trimmed == Last(a, k) && a + c == full
    ensures Last(trimmed + c, k) == Last(full, k)
  {
    LastAbsorbs(a, c, k);
  }

  /** The first delivery appends its entry and trims the list. */
  lemma ApplyFirst(v: Viewer, ds: seq<Delivery<LogEntry>>, e: LogEntry)
    requires ds != [] && forall i :: 0 <= i < |ds| ==> ds[i].payload == e
    ensures ApplyAll(v, ds) == ApplyAll(OnLog(v, e), ds[1..])
    ensures |ds| == 1 ==> ApplyAll(v, ds) == OnLog(v, e)
    ensures forall i :: 0 <= i < |ds[1..]| ==> ds[1..][i].payload == e
  {
    assert ds[0].payload == e;
  }

  lemma CopiesStep(logs: seq<LogEntry>, e: LogEntry, n: nat)
    requires n > 0
    ensures logs + [e] + Copies(e, n - 1) == logs + Copies(e, n)
  {
    assert Copies(e, n) == [e] + Copies(e, n - 1);
  }
}
