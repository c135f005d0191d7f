/** The shapes of the data the dashboard receives from the backend.
    Numbers are modelled as `real` (prices, profits, rates) or `int`
    (milliseconds and counters); payloads are not validated at run time, so
    string enumerations keep an extra case for values outside the declared
    union where the code has a fallback for them. */
module Types {

  /** `BotStatus.state`; `Unlisted` is any other string the backend sends. */
  datatype BotState = Idle | Running | Stopping | Failed | Unlisted(name: string)

  /** The wire name of a bot state. */
  function StateName(s: BotState): string {
    match s
    case Idle => "idle"
    case Running => "running"
    case Stopping => "stopping"
    case Failed => "error"
    case Unlisted(name) => name
  }

  datatype BotStatus = BotStatus(state: BotState, isRunning: bool, uptime: int, consecutiveLosses: int)

  /** `Trade.side`. */
  datatype Side = Long | Short

  datatype Trade = Trade(
    timestamp: string,
    side: Side,
    entryPrice: real,
    exitPrice: real,
    quantity: real,
    profit: real,
    fees: real,
    isProfit: bool)

  datatype TradingStats = TradingStats(
    totalTrades: int,
    profitableTrades: int,
    lossTrades: int,
    totalProfit: real,
    totalLoss: real,
    netProfit: real,
    winRate: real,
    averageProfit: real,
    averageLoss: real,
    bestTrade: real,
    worstTrade: real,
    trades: seq<Trade>)

  /** `LogEntry.level`. */
  datatype Level = Info | Warn | Error | Debug

  /** The wire name of a log level. */
  function LevelName(l: Level): string {
    match l
    case Info => "info"
    case Warn => "warn"
    case Error => "error"
    case Debug => "debug"
  }

  datatype LogEntry = LogEntry(level: Level, message: string, timestamp: string)

  /** The sections of `BotConfig`. */
  const ConfigSections: seq<string> := ["trading", "strategy", "risk", "fees", "logging"]
}
