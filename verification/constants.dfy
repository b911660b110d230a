/** The numeric constants shared by the chart and the dashboard (services/constants.ts). */
module Constants {

  /** Poll cadence of the dashboard and spacing of chart slots, in milliseconds. */
  const POLL_INTERVAL: int := 10000

  /** Number of bars the rolling chart keeps. */
  const MAX_BARS: int := 10

  /** Bytes in one mebibyte and in one gibibyte. */
  const ONE_MB: int := 1024 * 1024
  const ONE_GB: int := 1024 * 1024 * 1024
}
