/** The collector's fixed constants and the data sources it looks for once, at import. */
module Platform {
  /** Scheduler ticks per second (`TICKS_PER_SEC`). */
  const TicksPerSec: nat := 100

  /** Bytes per virtual-memory page (`BYTES_PER_PAGE`). */
  const BytesPerPage: nat := 4096

  /**
   * Which optional sources existed when the module was imported: /proc/stat,
   * /proc/self/stat, /proc/self/limits and the /proc/self/fd directory.
   * The existence checks themselves are inputs to the model.
   */
  datatype Capabilities = Capabilities(
    haveProcStat: bool,
    haveProcSelfStat: bool,
    haveProcSelfLimits: bool,
    haveProcSelfFd: bool)
}
