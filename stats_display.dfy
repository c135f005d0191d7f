/** The statistics panel: summary cards, the recent-trades table, the
    "stats_update" subscription and the REST fetch/reset of the stats. */
module StatsDisplay {
  import opened Types
  import opened Wrappers
  import opened Registry
  import opened Dispatch

  /** The component's state: `stats`, `loading`. */
  datatype Panel = Panel(stats: Option<TradingStats>, loading: bool)

  const Mounted: Panel := Panel(None, true)

  /** The payload of a "stats_update" frame; `stats` is `None` when the
      field is missing. */
  datatype StatsUpdate = StatsUpdate(stats: Option<TradingStats>)

  /** How many trades the table shows (`slice(-10)`). */
  const RecentCount: nat := 10

  function Reverse<T>(s: seq<T>): (r: seq<T>)
    ensures |r| == |s| && forall i :: 0 <= i < |s| ==> r[i] == s[|s| - 1 - i]
  {
    if s == [] then [] else Reverse(s[1..]) + [s[0]]
  }

  /** `trades.slice(-10).reverse()`: the last ten trades, newest first. */
  function RecentTrades(trades: seq<Trade>): (rows: seq<Trade>)
    ensures |rows| == if |trades| < RecentCount then |trades| else RecentCount
    ensures forall i :: 0 <= i < |rows| ==> rows[i] == trades[|trades| - 1 - i]
    ensures trades != [] ==> rows[0] == trades[|trades| - 1]
  {
    var start := if |trades| < RecentCount then 0 else |trades| - RecentCount;
    Reverse(trades[start..])
  }

  /** `StatCard`'s colour: blue without a sign, green when positive, red
      otherwise. */
  function CardColor(positive: Option<bool>): (cls: string)
    ensures positive.None? ==> cls == "text-blue-600"
    ensures positive == Some(true) ==> cls == "text-green-600"
    ensures positive == Some(false) ==> cls == "text-red-600"
  {
    match positive
    case None => "text-blue-600"
    case Some(p) => if p then "text-green-600" else "text-red-600"
  }

  datatype Card = Card(title: string, positive: Option<bool>)

  /** The four summary cards in display order. */
  function SummaryCards(s: TradingStats): (cards: seq<Card>)
    ensures |cards| == 4
    ensures cards[0].title == "Net Profit" && cards[0].positive == Some(s.netProfit >= 0.0)
    ensures cards[1].title == "Total Trades" && cards[1].positive.None?
    ensures cards[2].title == "Win Rate" && cards[2].positive == Some(s.winRate >= 50.0)
    ensures cards[3].title == "Best Trade" && cards[3].positive == Some(true)
  {
    [ Card("Net Profit", Some(s.netProfit >= 0.0)),
      Card("Total Trades", None),
      Card("Win Rate", Some(s.winRate >= 50.0)),
      Card("Best Trade", Some(true)) ]
  }

  /** The colours of the cards follow the sign thresholds: Net Profit is
      green iff it is at least 0, Win Rate iff at least 50, Best Trade
      always, Total Trades is blue. */
  lemma CardColors(s: TradingStats)
    ensures CardColor(SummaryCards(s)[0].positive) == (if s.netProfit >= 0.0 then "text-green-600" else "text-red-600")
    ensures CardColor(SummaryCards(s)[1].positive) == "text-blue-600"
    ensures CardColor(SummaryCards(s)[2].positive) == (if s.winRate >= 50.0 then "text-green-600" else "text-red-600")
    ensures CardColor(SummaryCards(s)[3].positive) == "text-green-600"
  {
  }

  /** The side badge is green iff the trade is LONG. */
  function SideBadge(t: Trade): (cls: string)
    ensures cls == "bg-green-100 text-green-800" <==> t.side == Long
    ensures t.side == Short ==> cls == "bg-red-100 text-red-800"
  {
    if t.side == Long then "bg-green-100 text-green-800" else "bg-red-100 text-red-800"
  }

  /** The profit cell is green iff the profit is at least 0. */
  function ProfitColor(t: Trade): (cls: string)
    ensures cls == "text-green-600" <==> t.profit >= 0.0
    ensures t.profit < 0.0 ==> cls == "text-red-600"
  {
    if t.profit >= 0.0 then "text-green-600" else "text-red-600"
  }

  /** What the panel renders. */
  datatype Screen = LoadingScreen | NoStats | Dashboard(cards: seq<Card>, rows: seq<Trade>)

  function Render(p: Panel): (s: Screen)
    ensures p.loading ==> s == LoadingScreen
    ensures !p.loading && p.stats.None? ==> s == NoStats
    ensures !p.loading && p.stats.Some? ==>
      s == Dashboard(SummaryCards(p.stats.value), RecentTrades(p.stats.value.trades))
    ensures s.Dashboard? ==> p.stats.Some? && s.rows == RecentTrades(p.stats.value.trades) && |s.rows| <= RecentCount
  {
    if p.loading then LoadingScreen
    else match p.stats
      case None => NoStats
      case Some(st) => Dashboard(SummaryCards(st), RecentTrades(st.trades))
  }

  /** `fetchStats()`: `fetched` is the REST result, `None` when it fails. */
  function FetchStats(p: Panel, fetched: Option<TradingStats>): (r: Panel)
    ensures !r.loading
    ensures fetched.Some? ==> r.stats == fetched
    ensures fetched.None? ==> r.stats == p.stats
  {
    match fetched
    case Some(_) => Panel(fetched, false)
    case None => p.(loading := false)
  }

  /** A failed first fetch leaves "No stats available" on screen. */
  lemma FailedFirstFetchShowsNoStats()
    ensures Render(FetchStats(Mounted, None)) == NoStats
    ensures Render(Mounted) == LoadingScreen
  {
  }

  /** The "stats_update" handler: `setStats(data.stats)`. */
  function OnStatsUpdate(p: Panel, u: StatsUpdate): (r: Panel)
    ensures r.stats == u.stats && r.loading == p.loading
  {
    p.(stats := u.stats)
  }

  /** `handleReset`: nothing unless confirmed; a failed reset only alerts;
      a successful one fetches the stats again. */
  function HandleReset(p: Panel, confirmed: bool, resetOk: bool, fetched: Option<TradingStats>): (r: Panel)
    ensures !confirmed || !resetOk ==> r == p
    ensures confirmed && resetOk ==> r == FetchStats(p, fetched)
  {
    if !confirmed || !resetOk then p else FetchStats(p, fetched)
  }

  /** The effect's cleanup passes a new closure to `off`, so the handler it
      registered stays in the registry and keeps receiving frames. */
  lemma CleanupLeavesStatsHandler(reg: Handlers, h: HandlerId, stray: HandlerId, ts: string, u: StatsUpdate)
    requires h !in Lookup(reg, "stats_update") && stray != h && stray !in Lookup(reg, "stats_update")
    ensures var after := Off(On(reg, "stats_update", h), "stats_update", stray);
      && h in Lookup(after, "stats_update")
      && Delivery(h, u) in Dispatch.Dispatch(after, Some(Envelope(Some("stats_update"), u, ts)), {}).deliveries
  {
    var key := "stats_update";
    var l := Lookup(reg, key);
    var after := Off(On(reg, key, h), key, stray);
    OffStrayKeeps(reg, key, h, stray);
    Dispatch.DispatchNamed(after, key, u, ts, {});
    LastHandlerReceives(l, h, u);
  }

  /** The handler registered last receives the payload when none throws. */
  lemma LastHandlerReceives(l: seq<HandlerId>, h: HandlerId, u: StatsUpdate)
    ensures Delivery(h, u) in Deliver(l + [h], u, {})
  {
    var hs := l + [h];
    DeliverAllWhenNoneThrow(hs, u, {});
    assert Deliver(hs, u, {})[|hs| - 1] == Delivery(h, u);
  }
}
