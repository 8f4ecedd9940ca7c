/** The application settings that the engines read (app/core/config.py), and the clock
    (app/utils/timeframes.py). Times are microseconds since 1970-01-01T00:00Z. */
module Config {

  const MINUTE: int := 60000000
  const DAY: int := 86400000000

  datatype Timeframe = M1 | M5 | M15 | H1 | H4 {
    function Minutes(): int {
      match this
      case M1 => 1
      case M5 => 5
      case M15 => 15
      case H1 => 60
      case H4 => 240
    }

    function Length(): int {
      Minutes() * MINUTE
    }

    function Name(): string {
      match this
      case M1 => "1m"
      case M5 => "5m"
      case M15 => "15m"
      case H1 => "1h"
      case H4 => "4h"
    }
  }

  datatype ExecutionModel = CandleModel | DepthModel

  datatype Settings = Settings(
    paperStartingBalance: real,
    maxRiskPerTrade: real,
    maxPositionNotionalPct: real,
    maxConcurrentPositions: int,
    maxDailyLossPct: real,
    maxDrawdownPct: real,
    maxSpreadBps: real,
    maxSlippageBps: real,
    defaultFeeBps: real,
    defaultSlippageBps: real,
    stopLossCooldownMinutes: int,
    strategyExitCooldownMinutes: int,
    defaultLeverage: real,
    maxLeverage: real,
    maxGrossExposurePct: real,
    maxNetExposurePct: real,
    maxSideExposurePct: real,
    minLiquidationBufferPct: real,
    maxAbsFundingRate: real,
    defaultMaintenanceMarginPct: real,
    killSwitch: bool,
    symbolAllowlist: seq<string>,
    allowedWeekdays: seq<int>,
    sessionStart: int,
    sessionEnd: int,
    defaultExecutionModel: ExecutionModel,
    evaluateOnBarCloseOnly: bool)

  function TimeOfDay(now: int): int {
    now % DAY
  }

  function StartOfDay(now: int): int {
    now - TimeOfDay(now)
  }

  /** Monday is 0; the first day of 1970 was a Thursday. */
  function Weekday(now: int): int {
    (now / DAY + 3) % 7
  }
}
