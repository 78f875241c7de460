/**
 * The sample-once cache: `update_resource_metrics` (here `Collect`) replaces
 * the cached resource usage, the /proc/self/stat fields and the fd counts;
 * the registered callbacks then read only what is cached. The module-level
 * globals become the fields of one `ProcessSampler`.
 */
module Sampler {
  import opened Wrappers
  import opened Text
  import opened Platform
  import opened ProcStat
  import opened FdClassifier
  import Scanners

  /** The part of `getrusage(RUSAGE_SELF)` the collector reads: CPU seconds and peak RSS in kilobytes. */
  datatype Rusage = Rusage(ruUtime: real, ruStime: real, ruMaxrss: int)

  class ProcessSampler {
    /** The capability flags probed at import; never change. */
    const caps: Capabilities
    /** The boot time read at import (`boot_time`); never changes. */
    const bootTime: Option<int>

    /** `rusage`: None until the first collect. */
    var rusage: Option<Rusage>
    /** `stats`: empty until the first collect that reads /proc/self/stat. */
    var stats: map<string, int>
    /** `fd_counts`: None until the first collect that gets that far. */
    var fdCounts: Option<map<FdType, nat>>

    /** A cached fd table always has every label. */
    ghost predicate Valid()
      reads this
    {
      fdCounts.Some? ==> fdCounts.value.Keys == AllTypes
    }

    /**
     * The state right after import: nothing sampled yet. `bootTime` is the
     * value `Scanners.ReadBootTime` returned, so it is None without /proc/stat.
     */
    constructor (caps: Capabilities, bootTime: Option<int>)
      requires !caps.haveProcStat ==> bootTime.None?
      ensures Valid()
      ensures this.caps == caps && this.bootTime == bootTime
      ensures rusage == None && stats == map[] && fdCounts == None
    {
      this.caps := caps;
      this.bootTime := bootTime;
      rusage := None;
      stats := map[];
      fdCounts := None;
    }

    /**
     * The /proc/self/stat step of a collection pass: split the line after the
     * first ") ", then write each tracked field in turn into `stats`.
     */
    method ReadStatLine(statText: string) returns (failure: Option<ParseError>)
      modifies this`stats
      ensures (stats, failure) == StatUpdate(old(stats), statText)
    {
      var rest := AfterFirst(statText, ") ");
      if rest.None? {
        return Some(IndexError(1));
      }
      var raw := SplitOn(rest.value, ' ');
      assert RemainderTokens(statText) == Some(raw);
      StatFieldNamesAreTheTable();
      var i := 0;
      while i < |StatFieldNames|
        invariant 0 <= i <= |StatFieldNames|
        invariant FillStats(stats, raw, StatFieldNames[i..]) == FillStats(old(stats), raw, StatFieldNames)
      {
        var name := StatFieldNames[i];
        assert StatFieldNames[i..][1..] == StatFieldNames[i + 1..];
        var field := ReadField(raw, name);
        if field.Err? {
          return Some(field.error);
        }
        stats := stats[name := field.value];
        i := i + 1;
      }
      return None;
    }

    /**
     * One collection pass over the given OS readings: the rusage snapshot,
     * the text of /proc/self/stat and the stat result of each listed
     * descriptor. Returns the exception that ended the pass, if any; a pass
     * that raises in the stat parse has already replaced `rusage` and the
     * fields read before the failing one, and leaves `fdCounts` as it was.
     */
    method Collect(usage: Rusage, statText: string, fdEntries: seq<Option<nat>>) returns (failure: Option<ParseError>)
      requires Valid()
      modifies this
      ensures Valid()
      ensures rusage == Some(usage)
      ensures (stats, failure) == if caps.haveProcSelfStat then StatUpdate(old(stats), statText) else (old(stats), None)
      ensures fdCounts == if failure.None? then Some(FdCounts(caps.haveProcSelfFd, fdEntries)) else old(fdCounts)
      ensures failure.None? <==> !caps.haveProcSelfStat || ParseStatLine(statText).Ok?
      ensures failure.None? && caps.haveProcSelfStat ==>
        forall name :: name in StatFields ==> name in stats && stats[name] == ParseStatLine(statText).value[name]
      ensures forall key :: key !in StatFields ==> (key in stats <==> key in old(stats))
      ensures forall key :: key !in StatFields && key in old(stats) ==> stats[key] == old(stats)[key]
    {
      rusage := Some(usage);
      StatUpdateWritesRecord(stats, statText);
      ParseStatLineReadsFields(statText);
      if caps.haveProcSelfStat {
        failure := ReadStatLine(statText);
        if failure.Some? {
          return;
        }
      }
      var counts := ProcessFds(caps.haveProcSelfFd, fdEntries);
      fdCounts := Some(counts);
      return None;
    }

    // -------------------------------------------------------------------
    // The callbacks over the cache. None where the Python lambda raises:
    // reading before the first collect, or a missing boot time.
    // -------------------------------------------------------------------

    /** Legacy `utime`: user CPU time in milliseconds. */
    function UtimeMillis(): (r: Option<real>)
      reads this
      ensures r.Some? <==> rusage.Some?
      ensures r.Some? ==> r.value / 1000.0 == rusage.value.ruUtime
    {
      if rusage.None? then None else Some(rusage.value.ruUtime * 1000.0)
    }

    /** Legacy `stime`: system CPU time in milliseconds. */
    function StimeMillis(): (r: Option<real>)
      reads this
      ensures r.Some? <==> rusage.Some?
      ensures r.Some? ==> r.value / 1000.0 == rusage.value.ruStime
    {
      if rusage.None? then None else Some(rusage.value.ruStime * 1000.0)
    }

    /** Legacy `maxrss`: peak resident memory, kilobytes to bytes. */
    function MaxrssBytes(): (r: Option<int>)
      reads this
      ensures r.Some? <==> rusage.Some?
      ensures r.Some? ==> r.value % 1024 == 0 && r.value / 1024 == rusage.value.ruMaxrss
    {
      if rusage.None? then None else Some(rusage.value.ruMaxrss * 1024)
    }

    /** `cpu_user_seconds_total`: user ticks over ticks per second. */
    function CpuUserSeconds(): (r: Option<real>)
      reads this
      ensures r.Some? <==> "utime" in stats
      ensures r.Some? ==> r.value * TicksPerSec as real == stats["utime"] as real
    {
      if "utime" in stats then Some(stats["utime"] as real / TicksPerSec as real) else None
    }

    /** `cpu_system_seconds_total`: system ticks over ticks per second. */
    function CpuSystemSeconds(): (r: Option<real>)
      reads this
      ensures r.Some? <==> "stime" in stats
      ensures r.Some? ==> r.value * TicksPerSec as real == stats["stime"] as real
    {
      if "stime" in stats then Some(stats["stime"] as real / TicksPerSec as real) else None
    }

    /** `cpu_seconds_total`: user plus system ticks over ticks per second. */
    function CpuSeconds(): (r: Option<real>)
      reads this
      ensures r.Some? <==> "utime" in stats && "stime" in stats
      ensures r.Some? ==> r.value * TicksPerSec as real == (stats["utime"] + stats["stime"]) as real
    {
      if "utime" in stats && "stime" in stats then
        Some((stats["utime"] + stats["stime"]) as real / TicksPerSec as real)
      else None
    }

    /** `virtual_memory_bytes`: the vsize field, already in bytes. */
    function VirtualMemoryBytes(): (r: Option<int>)
      reads this
      ensures r.Some? <==> "vsize" in stats
      ensures r.Some? ==> r.value == stats["vsize"]
    {
      if "vsize" in stats then Some(stats["vsize"]) else None
    }

    /** `resident_memory_bytes`: resident pages times the page size. */
    function ResidentMemoryBytes(): (r: Option<int>)
      reads this
      ensures r.Some? <==> "rss" in stats
      ensures r.Some? ==> r.value % BytesPerPage == 0 && r.value / BytesPerPage == stats["rss"]
    {
      if "rss" in stats then Some(stats["rss"] * BytesPerPage) else None
    }

    /**
     * `start_time_seconds`: boot time plus start ticks over ticks per second,
     * with Python 2's integer (floor) division. Raises (None) without a boot time.
     */
    function StartTimeSeconds(): (r: Option<int>)
      reads this
      ensures r.Some? <==> bootTime.Some? && "starttime" in stats
      ensures r.Some? ==>
        var ticks := bootTime.value * TicksPerSec + stats["starttime"];
        r.value * TicksPerSec <= ticks < (r.value + 1) * TicksPerSec
    {
      if bootTime.Some? && "starttime" in stats then
        Some(bootTime.value + stats["starttime"] / TicksPerSec)
      else None
    }

    /** `open_fds`: the sum of the CACHED fd counts. */
    function OpenFds(): (r: Option<nat>)
      requires Valid()
      reads this
      ensures r.Some? <==> fdCounts.Some?
      ensures r.Some? ==> r.value == SumCounts(fdCounts.value)
    {
      if fdCounts.Some? then Some(SumCounts(fdCounts.value)) else None
    }

    /** `fds`: calls `_process_fds` afresh on each read; the cache is not consulted. */
    method Fds(fdEntries: seq<Option<nat>>) returns (counts: map<FdType, nat>)
      ensures counts.Keys == AllTypes
      ensures counts == FdCounts(caps.haveProcSelfFd, fdEntries)
    {
      counts := ProcessFds(caps.haveProcSelfFd, fdEntries);
    }

    /** `max_fds`: re-reads the limits file on each read; the cache is not consulted. */
    method MaxFds(limitsLines: seq<string>) returns (r: Result<Option<int>, ParseError>)
      ensures r == Scanners.MaxFdsScan(limitsLines)
    {
      r := Scanners.GetMaxFds(limitsLines);
    }

    /** The combined CPU time is the sum of the user and system CPU times. */
    lemma CpuSecondsIsSum()
      ensures CpuSeconds().Some? ==> CpuSeconds().value == CpuUserSeconds().value + CpuSystemSeconds().value
    {
    }
  }

  /**
   * A collect that succeeds determines what the callbacks read: open_fds
   * counts the descriptors whose stat succeeded, and the stat-based metrics
   * are the converted fields of that collect's line.
   */
  method CollectThenRead(s: ProcessSampler, usage: Rusage, statText: string, fdEntries: seq<Option<nat>>)
    returns (failure: Option<ParseError>)
    requires s.Valid()
    modifies s
    ensures s.Valid()
    ensures s.MaxrssBytes() == Some(usage.ruMaxrss * 1024)
    ensures failure.None? <==> !s.caps.haveProcSelfStat || ParseStatLine(statText).Ok?
    ensures failure.None? ==> s.OpenFds() == Some(if s.caps.haveProcSelfFd then Successes(fdEntries) else 0)
    ensures failure.None? && s.caps.haveProcSelfStat ==>
      var record := ParseStatLine(statText).value;
      && s.ResidentMemoryBytes() == Some(record["rss"] * BytesPerPage)
      && s.VirtualMemoryBytes() == Some(record["vsize"])
      && (s.bootTime.Some? ==> s.StartTimeSeconds() == Some(s.bootTime.value + record["starttime"] / TicksPerSec))
      && (s.bootTime.None? ==> s.StartTimeSeconds().None?)
  {
    failure := s.Collect(usage, statText, fdEntries);
    OpenFdsCountsDescriptors(s.caps.haveProcSelfFd, fdEntries);
  }

  /**
   * Two collects in a row: what the callbacks read comes from the second
   * alone; nothing of the first survives a second pass that succeeds.
   */
  method SecondCollectReplacesFirst(s: ProcessSampler,
                                    usage1: Rusage, statText1: string, fdEntries1: seq<Option<nat>>,
                                    usage2: Rusage, statText2: string, fdEntries2: seq<Option<nat>>)
    requires s.Valid()
    requires s.caps.haveProcSelfStat && ParseStatLine(statText2).Ok?
    modifies s
    ensures s.Valid()
    ensures s.rusage == Some(usage2)
    ensures s.fdCounts == Some(FdCounts(s.caps.haveProcSelfFd, fdEntries2))
    ensures forall name :: name in StatFields ==> name in s.stats && s.stats[name] == ParseStatLine(statText2).value[name]
    ensures s.ResidentMemoryBytes() == Some(ParseStatLine(statText2).value["rss"] * BytesPerPage)
  {
    var first := s.Collect(usage1, statText1, fdEntries1);
    var second := s.Collect(usage2, statText2, fdEntries2);
  }
}
