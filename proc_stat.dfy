/**
 * Parsing the one line of /proc/self/stat: drop everything up to and
 * including the first ") ", split the rest on single spaces, and read five
 * fields by their proc(5) numbers shifted by three.
 */
module ProcStat {
  import opened Wrappers
  import opened Text

  /** The tracked fields and their 1-based field numbers in proc(5) (`STAT_FIELDS`). */
  const StatFields: map<string, nat> :=
    map["utime" := 14, "stime" := 15, "starttime" := 22, "vsize" := 23, "rss" := 24]

  /** The same names, in the order the table lists them; the parse visits them in this order. */
  const StatFieldNames: seq<string> := ["utime", "stime", "starttime", "vsize", "rss"]

  lemma StatFieldNamesAreTheTable()
    ensures forall k :: 0 <= k < |StatFieldNames| ==> StatFieldNames[k] in StatFields
    ensures forall name :: name in StatFields <==> name in StatFieldNames
  {
  }

  /**
   * The tokens after the pid and the command: `line.split(") ", 1)[1].split(" ")`.
   * None where Python raises IndexError because the line holds no ") ".
   */
  function RemainderTokens(line: string): (r: Option<seq<string>>)
    ensures r.None? <==> forall j :: 0 <= j ==> !OccursAt(line, ") ", j)
    ensures r.Some? ==> |r.value| >= 1
  {
    match AfterFirst(line, ") ")
    case None => None
    case Some(rest) => Some(SplitOn(rest, ' '))
  }

  /** `int(raw_stats[index - 3])` for one tracked field. */
  function ReadField(raw: seq<string>, name: string): (r: Result<int, ParseError>)
    requires name in StatFields
    ensures r.Ok? <==> StatFields[name] - 3 < |raw| && ParseInt(raw[StatFields[name] - 3]).Some?
    ensures r.Ok? ==> Some(r.value) == ParseInt(raw[StatFields[name] - 3])
    ensures r.Err? && |raw| <= StatFields[name] - 3 ==> r.error == IndexError(StatFields[name] - 3)
  {
    var k := StatFields[name] - 3;
    if k < |raw| then
      match ParseInt(raw[k])
      case Some(v) => Ok(v)
      case None => Err(ValueError(raw[k]))
    else Err(IndexError(k))
  }

  /**
   * The loop that fills `stats`: each name in turn is read and written,
   * stopping at the first one that raises. The result is the new table and
   * the exception, if any; the names written before it stay written.
   */
  function FillStats(stats: map<string, int>, raw: seq<string>, names: seq<string>): (map<string, int>, Option<ParseError>)
    requires forall k :: 0 <= k < |names| ==> names[k] in StatFields
    decreases |names|
  {
    if names == [] then (stats, None)
    else
      match ReadField(raw, names[0])
      case Err(e) => (stats, Some(e))
      case Ok(v) => FillStats(stats[names[0] := v], raw, names[1..])
  }

  /**
   * What one parse of `line` does to `stats`: the table afterwards and the
   * exception raised, if any.
   */
  function StatUpdate(stats: map<string, int>, line: string): (map<string, int>, Option<ParseError>)
  {
    match RemainderTokens(line)
    case None => (stats, Some(IndexError(1)))
    case Some(raw) =>
      StatFieldNamesAreTheTable();
      FillStats(stats, raw, StatFieldNames)
  }

  /** The five values one successful parse of `line` yields, or the exception it raises. */
  function ParseStatLine(line: string): (r: Result<map<string, int>, ParseError>)
  {
    var (m, e) := StatUpdate(map[], line);
    if e.Some? then Err(e.value) else Ok(m)
  }

  /** Filling a table is writing the values filled into an empty one over it. */
  lemma {:induction false} FillStatsOverwrites(stats: map<string, int>, raw: seq<string>, names: seq<string>)
    requires forall k :: 0 <= k < |names| ==> names[k] in StatFields
    ensures FillStats(stats, raw, names).0 == stats + FillStats(map[], raw, names).0
    ensures FillStats(stats, raw, names).1 == FillStats(map[], raw, names).1
    decreases |names|
  {
    if names != [] {
      match ReadField(raw, names[0])
      case Err(e) =>
      case Ok(v) =>
        var tail := FillStats(map[], raw, names[1..]).0;
        FillStatsOverwrites(stats[names[0] := v], raw, names[1..]);
        FillStatsOverwrites(map[names[0] := v], raw, names[1..]);
        assert stats[names[0] := v] + tail == stats + (map[names[0] := v] + tail);
    }
  }

  /**
   * Filling an empty table writes only the names visited; when nothing
   * raises, every name holds the integer read for it, and an exception is
   * the one some read raised.
   */
  lemma {:induction false} FillStatsFromEmpty(raw: seq<string>, names: seq<string>)
    requires forall k :: 0 <= k < |names| ==> names[k] in StatFields
    ensures forall key :: key in FillStats(map[], raw, names).0 ==> key in names
    ensures FillStats(map[], raw, names).1.None? ==>
      forall k :: 0 <= k < |names| ==> names[k] in FillStats(map[], raw, names).0 && ReadField(raw, names[k]) == Ok(FillStats(map[], raw, names).0[names[k]])
    ensures FillStats(map[], raw, names).1.Some? ==>
      exists k :: 0 <= k < |names| && ReadField(raw, names[k]) == Err(FillStats(map[], raw, names).1.value)
    decreases |names|
  {
    if names != [] {
      var rest := names[1..];
      FillStatsFromEmpty(raw, rest);
      match ReadField(raw, names[0])
      case Err(e) =>
      case Ok(v) =>
        FillStatsOverwrites(map[names[0] := v], raw, rest);
        var r := FillStats(map[], raw, rest);
        assert FillStats(map[], raw, names) == (map[names[0] := v] + r.0, r.1);
        if r.1.Some? {
          var k :| 0 <= k < |rest| && ReadField(raw, rest[k]) == Err(r.1.value);
          assert names[k + 1] == rest[k];
        } else {
          forall k | 0 <= k < |names|
            ensures names[k] in FillStats(map[], raw, names).0 && ReadField(raw, names[k]) == Ok(FillStats(map[], raw, names).0[names[k]])
          {
            if k > 0 {
              assert names[k] == rest[k - 1];
            }
          }
        }
    }
  }

  /**
   * A parse of the line succeeds exactly when the line yields a record; then
   * the five keys get the record's values and every other key keeps its value.
   * A failing parse also leaves every other key alone.
   */
  lemma StatUpdateWritesRecord(stats: map<string, int>, line: string)
    ensures StatUpdate(stats, line).1.None? <==> ParseStatLine(line).Ok?
    ensures ParseStatLine(line).Ok? ==> StatUpdate(stats, line).0 == stats + ParseStatLine(line).value
    ensures forall key :: key !in StatFields ==> (key in StatUpdate(stats, line).0 <==> key in stats)
    ensures forall key :: key !in StatFields && key in stats ==> StatUpdate(stats, line).0[key] == stats[key]
  {
    StatFieldNamesAreTheTable();
    match RemainderTokens(line)
    case None =>
    case Some(raw) =>
      FillStatsOverwrites(stats, raw, StatFieldNames);
      FillStatsFromEmpty(raw, StatFieldNames);
  }

  /**
   * A record holds exactly the five tracked keys, each the integer at
   * remainder position (field number - 3); a failure is the IndexError of a
   * line without ") " or the exception of one of the five reads.
   */
  lemma ParseStatLineReadsFields(line: string)
    ensures ParseStatLine(line).Ok? ==>
      && RemainderTokens(line).Some?
      && ParseStatLine(line).value.Keys == StatFields.Keys
      && forall name :: name in StatFields ==> ReadField(RemainderTokens(line).value, name) == Ok(ParseStatLine(line).value[name])
    ensures RemainderTokens(line).None? ==> ParseStatLine(line) == Err(IndexError(1))
    ensures RemainderTokens(line).Some? && ParseStatLine(line).Err? ==>
      exists name :: name in StatFields && ReadField(RemainderTokens(line).value, name) == Err(ParseStatLine(line).error)
  {
    StatFieldNamesAreTheTable();
    var tokens := RemainderTokens(line);
    if tokens.Some? {
      var raw := tokens.value;
      var r := FillStats(map[], raw, StatFieldNames);
      FillStatsFromEmpty(raw, StatFieldNames);
      assert StatUpdate(map[], line) == r;
      if r.1.None? {
        assert ParseStatLine(line) == Ok(r.0);
        forall name | name in StatFields
          ensures name in r.0 && ReadField(raw, name) == Ok(r.0[name])
        {
          var k :| 0 <= k < |StatFieldNames| && StatFieldNames[k] == name;
        }
      } else {
        assert ParseStatLine(line) == Err(r.1.value);
        var k :| 0 <= k < |StatFieldNames| && ReadField(raw, StatFieldNames[k]) == Err(r.1.value);
        assert StatFieldNames[k] in StatFields;
      }
    }
  }

  /** The remainder positions the five tracked fields are read from. */
  lemma RemainderPositions()
    ensures StatFields["utime"] - 3 == 11 && StatFields["stime"] - 3 == 12
    ensures StatFields["starttime"] - 3 == 19 && StatFields["vsize"] - 3 == 20 && StatFields["rss"] - 3 == 21
  {
  }

  // ---------------------------------------------------------------------
  // Why "minus three": the layout of the line
  // ---------------------------------------------------------------------

  /** A /proc/self/stat line as proc(5) lays it out: pid, command in parentheses, the other fields. */
  function StatLine(pid: string, comm: string, rest: seq<string>): string
  {
    pid + " (" + comm + ") " + Join(rest, ' ')
  }

  /** The fields of that line as proc(5) numbers them: field k (from 1) is element k - 1. */
  function ProcFields(pid: string, comm: string, rest: seq<string>): seq<string>
  {
    [pid, "(" + comm + ")"] + rest
  }

  lemma PidCommHasNoCloseParenSpace(pid: string, comm: string)
    requires ')' !in pid
    requires NoCloseParenSpace(comm)
    ensures NoCloseParenSpace(pid + " (" + comm)
  {
    var x := pid + " (" + comm;
    forall j | 0 <= j < |x| - 1
      ensures !(x[j] == ')' && x[j + 1] == ' ')
    {
      if j < |pid| {
        assert x[j] == pid[j];
      } else if j >= |pid| + 2 {
        assert x[j] == comm[j - |pid| - 2] && x[j + 1] == comm[j + 1 - |pid| - 2];
      }
    }
  }

  /**
   * For a pid without ')' and a command name without ") ", the tokens the
   * parser reads are the fields after the command, so the token at index
   * (field number - 3) is proc(5) field number `StatFields[name]`.
   */
  lemma {:induction false} StatFieldShift(pid: string, comm: string, rest: seq<string>)
    requires ')' !in pid
    requires NoCloseParenSpace(comm)
    requires |rest| >= 1 && forall k :: 0 <= k < |rest| ==> ' ' !in rest[k]
    ensures RemainderTokens(StatLine(pid, comm, rest)) == Some(rest)
    ensures forall name :: name in StatFields && StatFields[name] - 3 < |rest| ==>
      rest[StatFields[name] - 3] == ProcFields(pid, comm, rest)[StatFields[name] - 1]
  {
    PidCommHasNoCloseParenSpace(pid, comm);
    assert StatLine(pid, comm, rest) == (pid + " (" + comm) + ") " + Join(rest, ' ');
    AfterFirstCloseParen(pid + " (" + comm, Join(rest, ' '));
    SplitOnJoin(rest, ' ');
  }

  /**
   * The end-to-end reading: on a well-formed line whose five fields are
   * numerals, the parse succeeds and each tracked name gets the integer of
   * its proc(5) field.
   */
  lemma ParseWellFormedStatLine(pid: string, comm: string, rest: seq<string>)
    requires ')' !in pid
    requires NoCloseParenSpace(comm)
    requires |rest| >= 22 && forall k :: 0 <= k < |rest| ==> ' ' !in rest[k]
    requires forall name :: name in StatFields ==> ParseInt(ProcFields(pid, comm, rest)[StatFields[name] - 1]).Some?
    ensures ParseStatLine(StatLine(pid, comm, rest)).Ok?
    ensures forall name :: name in StatFields ==>
      Some(ParseStatLine(StatLine(pid, comm, rest)).value[name]) == ParseInt(ProcFields(pid, comm, rest)[StatFields[name] - 1])
  {
    var line := StatLine(pid, comm, rest);
    StatFieldShift(pid, comm, rest);
    StatFieldNamesAreTheTable();
    ParseStatLineReadsFields(line);
  }

  /**
   * The split is at the FIRST ") ": when the command name itself holds ") ",
   * the tokens start inside the command name, so every field is read one or
   * more places off.
   */
  lemma {:induction false} FirstCloseParenInsideCommand(pid: string, a: string, b: string, rest: seq<string>)
    requires ')' !in pid
    requires NoCloseParenSpace(a)
    ensures RemainderTokens(StatLine(pid, a + ") " + b, rest)) == Some(SplitOn(b + ") " + Join(rest, ' '), ' '))
  {
    PidCommHasNoCloseParenSpace(pid, a);
    assert StatLine(pid, a + ") " + b, rest) == (pid + " (" + a) + ") " + (b + ") " + Join(rest, ' '));
    AfterFirstCloseParen(pid + " (" + a, b + ") " + Join(rest, ' '));
  }
}
