# Process resource metrics: a Dafny model

This project models the core of Synapse's process metrics collector,
`synapse/metrics/process_collector.py`. The collector samples the process's
resource usage once per metrics pass. It caches what it reads, and the
callbacks registered with the metrics facility read only that cache. The
model covers these parts:

- **Parsing the `/proc/self/stat` line** (module `ProcStat`). The parser drops
  the text up to and including the first `") "`. It splits the rest on single
  spaces and reads `utime`, `stime`, `starttime`, `vsize` and `rss` at their
  proc(5) field numbers minus three.
- **The two line scanners** (module `Scanners`). The `btime ` scan of
  `/proc/stat` keeps the value of the last matching line. The
  `Max open files ` scan of `/proc/self/limits` stops at the first matching
  line.
- **The file-descriptor classifier** (module `FdClassifier`, `_process_fds`).
  It counts the descriptors under the seven file-type labels and `"other"`,
  and skips descriptors whose `stat` failed.
- **The sample-once cache** (module `Sampler`). The module's globals `rusage`,
  `stats` and `fd_counts` become the fields of the class `ProcessSampler`.
  `Collect` replaces them, and the callbacks are functions that read only
  those fields. The two exceptions are `fds` and `max_fds`, which read afresh.
- **Registration** (module `Registrar`). This is the list of collectors and
  callbacks registered for each setting of the capability flags.

Python's string builtins used by the collector are modelled in module
`Text`: `split(sep, 1)`, `split(" ")`, `split()`, `startswith` and `int()`.

Every read of the operating system is an input. This covers the `/proc` files'
text or lines, the `stat` result of each listed descriptor, the `getrusage`
snapshot, and whether each `/proc` path exists (`Platform.Capabilities`).
A Python exception is modelled as a `ParseError` value (`IndexError` or
`ValueError`). The callbacks that only read the cache return `None` where
the code would raise: this covers reading before the first collect and
reading without a boot time. `ProcessSampler.MaxFds` reads the limits file
afresh and can raise for two reasons, so it returns a `Result`. It returns
`Err` when the read raises, and `Ok(None)` where the code returns `None`
(no `Max open files ` line). The callback is registered only when the
limits file existed at import. If the file has disappeared since, `open`
raises IOError; like the other I/O errors, that is not modelled.

Behaviour of the code worth noting:

- The stat line is split at the first `") "`, not the last, so a command
  name that contains `") "` shifts every field.
  `ProcStat.StatFieldShift` proves the shift by three is right when the
  command name contains no `") "`.
  `ProcStat.FirstCloseParenInsideCommand` shows what the parser reads when
  the command name does contain one.
- `max_fds` reads `split()[3]` of the `Max open files` row, which is the soft
  limit, not the hard one. `Scanners.MaxFdsReadsSoftLimit` proves this for
  the row as the kernel pads it, with runs of spaces between the columns.
- A callback read before the first pass raises, because the cache is still
  empty. The model returns `None`.
- `start_time_seconds` uses Python 2 integer division, so the model uses floor
  division. For the positive divisor 100, Dafny's `/` is floor division.

## Model

| member | source | states |
|---|---|---|
| `Text.FindFirst` | synapse/metrics/process_collector.py:76 | the index found is an occurrence of the pattern and no earlier index is one; None means there is no occurrence |
| `Text.AfterFirst` | synapse/metrics/process_collector.py:76 | `split(sep, 1)[1]`: None (IndexError) exactly when `sep` does not occur; otherwise the text after the first occurrence |
| `Text.AfterFirstCloseParen` | synapse/metrics/process_collector.py:76 | when `x` has no `") "`, the text after the first `") "` of `x + ") " + y` is exactly `y` |
| `Text.SplitOn` | synapse/metrics/process_collector.py:76 | `split(" ")` always gives at least one piece and no piece contains the separator |
| `Text.JoinSplitOn` | synapse/metrics/process_collector.py:76 | joining the pieces of `split(c)` with `c` gives the text back |
| `Text.SplitOnJoin` | synapse/metrics/process_collector.py:76 | pieces that do not contain `c`, joined with `c` and split again, come back unchanged |
| `Text.Words` | synapse/metrics/process_collector.py:64 | `split()` yields only non-empty words without whitespace |
| `Text.WordsConcat` | synapse/metrics/process_collector.py:64 | `split()` of a concatenation cut next to whitespace is the concatenation of the two splits |
| `Text.WordsOfSpaced` | synapse/metrics/process_collector.py:64 | `split()` returns the maximal non-whitespace runs in order: for leading whitespace, words separated by non-empty whitespace runs of any length, and trailing whitespace, it gives back exactly the words |
| `Text.WordsOfJoin` | synapse/metrics/process_collector.py:171 | words joined by single spaces, with trailing whitespace such as a newline, split back into the same words |
| `Text.ParseIntShowInt` | synapse/metrics/process_collector.py:81 | `int()` reads back every integer written in decimal |
| `ProcStat.RemainderTokens` | synapse/metrics/process_collector.py:76 | the tokens after the command: None (IndexError) exactly when the line has no `") "`; otherwise at least one token |
| `ProcStat.ReadField` | synapse/metrics/process_collector.py:78-81 | `int(raw_stats[index - 3])` succeeds exactly when that position exists and holds an integer; a missing position raises IndexError at that index |
| `ProcStat.StatFieldNamesAreTheTable` | synapse/metrics/process_collector.py:43-49 | the fields the parse visits are exactly the keys of `STAT_FIELDS` |
| `ProcStat.FillStatsOverwrites` | synapse/metrics/process_collector.py:78-81 | filling the existing `stats` equals writing the values read into an empty table over it, with the same exception |
| `ProcStat.FillStatsFromEmpty` | synapse/metrics/process_collector.py:78-81 | the fill writes only the visited names; on success each name holds its field's integer; an exception is the one some field raised |
| `ProcStat.StatUpdateWritesRecord` | synapse/metrics/process_collector.py:76-81 | a parse succeeds exactly when the line yields a record, and then `stats` becomes old `stats` overwritten by the record; keys other than the five never change, even when the parse raises |
| `ProcStat.ParseStatLineReadsFields` | synapse/metrics/process_collector.py:76-81 | a record has exactly the five keys, each the integer at remainder position (field number - 3); a line without `") "` raises IndexError(1); other failures come from one of the five reads |
| `ProcStat.RemainderPositions` | synapse/metrics/process_collector.py:43-49 | the five fields are read from remainder positions 11, 12, 19, 20 and 21 |
| `ProcStat.StatFieldShift` | synapse/metrics/process_collector.py:75-81 | for a pid without `)` and a command name without `") "`, the tokens are the fields after the command, so position (n - 3) is proc(5) field n |
| `ProcStat.ParseWellFormedStatLine` | synapse/metrics/process_collector.py:73-81 | on a well-formed line with at least 24 fields whose tracked fields are integers, the parse succeeds and each name gets the integer of its proc(5) field |
| `ProcStat.FirstCloseParenInsideCommand` | synapse/metrics/process_collector.py:76 | when the command name contains `") "`, the tokens start inside the command name |
| `Scanners.IntToken` | synapse/metrics/process_collector.py:64 | `int(line.split()[k])` succeeds exactly when token k exists and is an integer; a missing token raises IndexError(k) |
| `Scanners.ReadBootTime` | synapse/metrics/process_collector.py:59-64 | None without `/proc/stat`; otherwise the loop that overwrites `boot_time` on every `btime ` line gives the scan result |
| `Scanners.BootTimeScanErrSticks` | synapse/metrics/process_collector.py:60-64 | once a `btime ` line has raised, the scan of the whole file raises the same exception |
| `Scanners.BootTimeNoneIff` | synapse/metrics/process_collector.py:59-64 | the boot time stays None exactly when no line starts with `btime ` |
| `Scanners.BootTimeLastMatchWins` | synapse/metrics/process_collector.py:62-64 | a boot time found is the second token of a `btime ` line with no later `btime ` line |
| `Scanners.BootTimeErrIff` | synapse/metrics/process_collector.py:62-64 | the scan raises exactly when some `btime ` line lacks an integer second token |
| `Scanners.BootTimeReadsValue` | synapse/metrics/process_collector.py:59-64 | a `/proc/stat` whose only `btime ` line is `btime t` yields t |
| `Scanners.GetMaxFds` | synapse/metrics/process_collector.py:165-172 | the loop with its early return computes the first-match scan of the limits lines |
| `Scanners.MaxFdsNoneIff` | synapse/metrics/process_collector.py:165-172 | the result is None exactly when no line starts with `Max open files ` |
| `Scanners.MaxFdsFirstMatchDecides` | synapse/metrics/process_collector.py:167-171 | the first matching line decides the result, whether it parses or raises; later lines are never read |
| `Scanners.MaxFdsReadsSoftLimit` | synapse/metrics/process_collector.py:170-171 | on the `Max open files` row with soft limit, hard limit and units, each column padded by any non-empty run of whitespace, and preceded only by non-matching lines, the value read is the soft limit |
| `FdClassifier.FileFormat` | synapse/metrics/process_collector.py:98 | `S_IFMT(mode)` keeps only the four file-type bits: a multiple of 0x1000, at most 0xF000, and the rest of the mode lies outside those bits |
| `FdClassifier.Classify` | synapse/metrics/process_collector.py:99-102 | a mode is counted as "other" exactly when its format is not in `TYPES`; otherwise it gets `TYPES[fmt]` |
| `FdClassifier.FdCounts` | synapse/metrics/process_collector.py:88-93 | the table's keys are exactly the seven type labels and "other"; without an fd directory every count is zero |
| `FdClassifier.TallyStep` | synapse/metrics/process_collector.py:95-107 | one more descriptor adds 1 to exactly its own label, or nothing when its stat raised OSError |
| `FdClassifier.InitialTableIsEmptyTally` | synapse/metrics/process_collector.py:88-89 | the starting table (every `TYPES` label, then "other", at zero) is the count of no descriptors |
| `FdClassifier.ProcessFds` | synapse/metrics/process_collector.py:87-109 | the counting loop returns the count table of the listed descriptors, or the all-zero table without an fd directory |
| `FdClassifier.TallySumIsSuccesses` | synapse/metrics/process_collector.py:95-107 | the counts add up to the number of descriptors whose stat succeeded |
| `FdClassifier.SuccessesAtMostEntries` | synapse/metrics/process_collector.py:95-107 | no more descriptors are counted than were listed |
| `FdClassifier.OpenFdsCountsDescriptors` | synapse/metrics/process_collector.py:158-162 | the sum of a table is the number of successful stats, or 0 without an fd directory, and at most the number listed |
| `FdClassifier.LabelsMatchTypes` | synapse/metrics/process_collector.py:32-40 | the labels of the eight table keys are distinct, each known format's label is the string `TYPES` maps it to, and "other" is none of those strings |
| `FdClassifier.ClassifyKnownFormat` | synapse/metrics/process_collector.py:99-100 | a mode gets a known type's label exactly when its format bits equal that type's value |
| `FdClassifier.CountKnownType` | synapse/metrics/process_collector.py:95-104 | each type label counts exactly the stat'ed descriptors whose format bits are that type's value |
| `FdClassifier.CountOtherType` | synapse/metrics/process_collector.py:99-104 | "other" counts exactly the stat'ed descriptors whose format bits are not in `TYPES` |
| `Sampler.ProcessSampler.constructor` | synapse/metrics/process_collector.py:52-64 | after import nothing is sampled: no rusage, empty `stats`, no fd counts; the flags and boot time are fixed |
| `Sampler.ProcessSampler.ReadStatLine` | synapse/metrics/process_collector.py:71-81 | the loop that writes the fields into `stats` computes the parse's new table and exception |
| `Sampler.ProcessSampler.Collect` | synapse/metrics/process_collector.py:67-84 | rusage is replaced; with `/proc/self/stat` the five fields are overwritten by the parse and no other key changes; on success `fd_counts` is replaced by a fresh count, and on a parse failure it is kept |
| `Sampler.ProcessSampler.UtimeMillis` | synapse/metrics/process_collector.py:119-120 | legacy `utime` is the cached user CPU time in milliseconds; it raises before the first collect |
| `Sampler.ProcessSampler.StimeMillis` | synapse/metrics/process_collector.py:121 | legacy `stime` is the cached system CPU time in milliseconds |
| `Sampler.ProcessSampler.MaxrssBytes` | synapse/metrics/process_collector.py:123-124 | legacy `maxrss` is a whole number of kilobytes (1024 bytes) equal to the cached `ru_maxrss` |
| `Sampler.ProcessSampler.CpuUserSeconds` | synapse/metrics/process_collector.py:131-134 | user CPU seconds times 100 ticks per second gives the cached `utime`; KeyError before it is cached |
| `Sampler.ProcessSampler.CpuSystemSeconds` | synapse/metrics/process_collector.py:135-138 | system CPU seconds times 100 gives the cached `stime` |
| `Sampler.ProcessSampler.CpuSeconds` | synapse/metrics/process_collector.py:139-142 | total CPU seconds times 100 gives `utime + stime` |
| `Sampler.ProcessSampler.VirtualMemoryBytes` | synapse/metrics/process_collector.py:144-147 | the cached `vsize`, unconverted; KeyError before it is cached |
| `Sampler.ProcessSampler.ResidentMemoryBytes` | synapse/metrics/process_collector.py:148-151 | a whole number of 4096-byte pages equal to the cached `rss` |
| `Sampler.ProcessSampler.StartTimeSeconds` | synapse/metrics/process_collector.py:153-156 | the whole second that contains `boot_time + starttime/100` (integer division), and it raises without a boot time |
| `Sampler.ProcessSampler.OpenFds` | synapse/metrics/process_collector.py:158-162 | the sum of the cached fd counts; it raises before the first collect |
| `Sampler.ProcessSampler.Fds` | synapse/metrics/process_collector.py:126 | `fds` recounts the descriptors it is given rather than reading the cache, and always reports every label |
| `Sampler.ProcessSampler.MaxFds` | synapse/metrics/process_collector.py:174-177 | `max_fds` rescans the limits lines it is given on each read |
| `Sampler.ProcessSampler.CpuSecondsIsSum` | synapse/metrics/process_collector.py:131-142 | over exact reals, total CPU seconds equal user plus system CPU seconds |
| `Sampler.CollectThenRead` | synapse/metrics/process_collector.py:67-162 | after a successful collect, `open_fds` is the number of successful stats; resident memory, virtual memory and start time are the converted fields of that collect's line |
| `Sampler.SecondCollectReplacesFirst` | synapse/metrics/process_collector.py:67-84 | after two collects, the cache holds the second pass's rusage, fields and fd counts, with nothing merged from the first |
| `Registrar.RegistrationGating` | synapse/metrics/process_collector.py:117-177 | each metric is registered exactly when its gate holds: `utime`, `stime`, `maxrss` and `fds` always; the six CPU, memory and start-time metrics with `/proc/self/stat`; `open_fds` with `/proc/self/fd`; `max_fds` with `/proc/self/limits` |
| `Registrar.RegistrationsPlaced` | synapse/metrics/process_collector.py:115-126 | the collector is registered first in the "resource" subspace; the legacy callbacks are in that subspace and the rest in the process namespace |
| `Registrar.RegistrationsDistinct` | synapse/metrics/process_collector.py:117-177 | nothing is registered twice |
| `Registrar.RegistrationsIgnoreProcStat` | synapse/metrics/process_collector.py:27 | the registrations are the same whatever the `/proc/stat` flag, so `start_time_seconds` is registered even when there is no boot time |
| `Registrar.MetricNamesDistinct` | synapse/metrics/process_collector.py:120-175 | different metrics are registered under different names |

## Left out

- Operating-system access (`os.path.exists`, `open`, `os.listdir`, `os.stat`, `getrusage`) is not modelled. Its results are inputs. An I/O error from opening or listing, which the code lets propagate, is not modelled.
- The metrics facility is not modelled: `make_subspace`, `register_collector`, `register_callback`, the `labels=["type"]` declaration of `fds`, and export. A registration is modelled only as its space and metric.
- Sampler.ProcessSampler.UtimeMillis: the value is exact arithmetic on `real`, so floating-point rounding of `ru_utime * 1000` is not modelled. The same holds for StimeMillis, CpuUserSeconds, CpuSystemSeconds and CpuSeconds.
- Sampler.ProcessSampler.CpuSecondsIsSum: the equality holds over exact reals. The code's three floats can differ in the last place: with utime 10 and stime 20, `30/100.0` is 0.3 but `10/100.0 + 20/100.0` is 0.30000000000000004.
- Sampler.ProcessSampler.ReadStatLine: fields are read in the order the table lists them. Python 2 visits them in dict hash order. After a failing parse, which fields are already written may therefore differ. So may which exception is raised: with 20 tokens after the `") "` and a non-integer at position 11, table order raises ValueError at `utime`, while an order that visits `vsize` or `rss` first raises IndexError. The guarantees that do not depend on order hold either way: keys other than the five never change, and a successful parse writes all five.
- ParseInt accepts surrounding whitespace, one optional sign and decimal digits. Other spellings that Python 2's `int()` may accept are treated as ValueError. None of them occur in `/proc`.
- Files are given as their lines (or, for `/proc/self/stat`, its text) as Python's file iteration and `read()` yield them. Splitting a file into lines is not modelled.
- Thread safety is not modelled. A read racing with a collect is not a concern of the single-threaded model, and the code has no locking.
- The fd table's keys are 1-tuples of label strings in the code. The model keys the table by `FdClassifier.FdType`, and `FdType.Label()` gives the string; `FdClassifier.LabelsMatchTypes` proves this mapping is one-to-one and agrees with `TYPES`.
