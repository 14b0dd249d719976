/** The script's module-level configuration constants. */
module Config {

  /** Width of the rolling means behind the RSI (also their min_periods). */
  const RsiWindow: nat := 14

  /** Width of the Bollinger moving average and standard deviation (also their min_periods). */
  const BbWindow: nat := 20

  /** Number of standard deviations between the moving average and each band. */
  const BbStd: real := 2.0

  /** A drawdown below this fraction of the running peak is part of the buy condition. */
  const DrawdownThreshold: real := -0.20

  /** The RSI level below which the series counts as oversold. */
  const RsiOversold: real := 30.0

  /** How many of the latest buy rows are reported. */
  const SignalTail: nat := 10
}
