/**
 * The two line scanners: the boot-time scan of /proc/stat, run once at
 * import, and the "Max open files" scan of /proc/self/limits, run afresh on
 * every read of the max_fds metric. The files' lines are inputs, each as
 * iterating over the open file yields it (with its newline).
 */
module Scanners {
  import opened Wrappers
  import opened Text

  const BtimePrefix: string := "btime "
  const MaxOpenFilesPrefix: string := "Max open files "

  /** `int(line.split()[k])`, or the IndexError / ValueError it raises. */
  function IntToken(line: string, k: nat): (r: Result<int, ParseError>)
    ensures r.Ok? <==> k < |Words(line)| && ParseInt(Words(line)[k]).Some?
    ensures r.Ok? ==> Some(r.value) == ParseInt(Words(line)[k])
    ensures r.Err? && |Words(line)| <= k ==> r.error == IndexError(k)
  {
    var words := Words(line);
    if k < |words| then
      match ParseInt(words[k])
      case Some(v) => Ok(v)
      case None => Err(ValueError(words[k]))
    else Err(IndexError(k))
  }

  predicate IsBtimeLine(line: string)
  {
    BtimePrefix <= line
  }

  predicate IsMaxOpenFilesLine(line: string)
  {
    MaxOpenFilesPrefix <= line
  }

  // ---------------------------------------------------------------------
  // boot time: every "btime " line overwrites the value, so the last wins
  // ---------------------------------------------------------------------

  /** The boot time after scanning `lines` in order, or the exception the scan raised. */
  function BootTimeScan(lines: seq<string>): Result<Option<int>, ParseError>
  {
    if lines == [] then Ok(None)
    else
      var prev := BootTimeScan(lines[..|lines| - 1]);
      var line := lines[|lines| - 1];
      if prev.Err? then prev
      else if IsBtimeLine(line) then
        match IntToken(line, 1)
        case Ok(v) => Ok(Some(v))
        case Err(e) => Err(e)
      else prev
  }

  /** Once the scan of a prefix has raised, the scan of the whole raises the same. */
  lemma {:induction false} BootTimeScanErrSticks(lines: seq<string>, n: nat)
    requires n <= |lines|
    requires BootTimeScan(lines[..n]).Err?
    ensures BootTimeScan(lines) == BootTimeScan(lines[..n])
    decreases |lines| - n
  {
    if n < |lines| {
      assert lines[..n + 1][..n] == lines[..n];
      BootTimeScanErrSticks(lines, n + 1);
    } else {
      assert lines[..n] == lines;
    }
  }

  /** The module-level scan: None when /proc/stat is absent, else the scan of its lines. */
  method ReadBootTime(haveProcStat: bool, procStatLines: seq<string>) returns (r: Result<Option<int>, ParseError>)
    ensures !haveProcStat ==> r == Ok(None)
    ensures haveProcStat ==> r == BootTimeScan(procStatLines)
  {
    var bootTime: Option<int> := None;
    if haveProcStat {
      var i := 0;
      while i < |procStatLines|
        invariant 0 <= i <= |procStatLines|
        invariant BootTimeScan(procStatLines[..i]) == Ok(bootTime)
      {
        var line := procStatLines[i];
        assert procStatLines[..i + 1][..i] == procStatLines[..i];
        if BtimePrefix <= line {
          var words := Words(line);
          if |words| <= 1 {
            BootTimeScanErrSticks(procStatLines, i + 1);
            return Err(IndexError(1));
          }
          var v := ParseInt(words[1]);
          if v.None? {
            BootTimeScanErrSticks(procStatLines, i + 1);
            return Err(ValueError(words[1]));
          }
          bootTime := Some(v.value);
        }
        i := i + 1;
      }
      assert procStatLines[..i] == procStatLines;
    }
    return Ok(bootTime);
  }

  /** The scan finds nothing exactly when no line starts with "btime ". */
  lemma {:induction false} BootTimeNoneIff(lines: seq<string>)
    ensures BootTimeScan(lines) == Ok(None) <==> forall i :: 0 <= i < |lines| ==> !IsBtimeLine(lines[i])
  {
    if lines != [] {
      var init := lines[..|lines| - 1];
      BootTimeNoneIff(init);
      BootTimeNeverBackToNone(init);
      assert forall i :: 0 <= i < |init| ==> init[i] == lines[i];
    }
  }

  /** Once a line has matched, the scan never returns to None. */
  lemma {:induction false} BootTimeNeverBackToNone(lines: seq<string>)
    ensures (exists i :: 0 <= i < |lines| && IsBtimeLine(lines[i])) ==> BootTimeScan(lines) != Ok(None)
  {
    if lines != [] {
      var init := lines[..|lines| - 1];
      BootTimeNeverBackToNone(init);
      if !IsBtimeLine(lines[|lines| - 1]) && exists i :: 0 <= i < |lines| && IsBtimeLine(lines[i]) {
        var i :| 0 <= i < |lines| && IsBtimeLine(lines[i]);
        assert init[i] == lines[i];
      }
    }
  }

  /** A boot time found is the value on the LAST line that starts with "btime ". */
  lemma {:induction false} BootTimeLastMatchWins(lines: seq<string>, v: int)
    requires BootTimeScan(lines) == Ok(Some(v))
    ensures exists i :: && 0 <= i < |lines| && IsBtimeLine(lines[i]) && IntToken(lines[i], 1) == Ok(v)
                        && (forall j :: i < j < |lines| ==> !IsBtimeLine(lines[j]))
  {
    var n := |lines|;
    var init := lines[..n - 1];
    if IsBtimeLine(lines[n - 1]) {
      assert IntToken(lines[n - 1], 1) == Ok(v);
    } else {
      BootTimeLastMatchWins(init, v);
      var i :| 0 <= i < |init| && IsBtimeLine(init[i]) && IntToken(init[i], 1) == Ok(v)
        && forall j :: i < j < |init| ==> !IsBtimeLine(init[j]);
      assert lines[i] == init[i];
      assert forall j :: i < j < n - 1 ==> lines[j] == init[j];
    }
  }

  /** The scan raises exactly when some "btime " line lacks an integer second token. */
  lemma {:induction false} BootTimeErrIff(lines: seq<string>)
    ensures BootTimeScan(lines).Err? <==> exists i :: 0 <= i < |lines| && IsBtimeLine(lines[i]) && IntToken(lines[i], 1).Err?
  {
    if lines != [] {
      var n := |lines|;
      var init := lines[..n - 1];
      BootTimeErrIff(init);
      assert forall i :: 0 <= i < n - 1 ==> init[i] == lines[i];
      if BootTimeScan(lines).Err? && BootTimeScan(init).Ok? {
        assert IsBtimeLine(lines[n - 1]) && IntToken(lines[n - 1], 1).Err?;
      }
    }
  }

  /** Lines that do not start with "btime " change nothing. */
  lemma {:induction false} BootTimeScanSkips(lines: seq<string>, after: seq<string>)
    requires forall i :: 0 <= i < |after| ==> !IsBtimeLine(after[i])
    ensures BootTimeScan(lines + after) == BootTimeScan(lines)
  {
    if after != [] {
      var init := after[..|after| - 1];
      assert (lines + after)[..|lines + after| - 1] == lines + init;
      assert forall i :: 0 <= i < |init| ==> init[i] == after[i];
      BootTimeScanSkips(lines, init);
      assert (lines + after)[|lines + after| - 1] == after[|after| - 1];
    } else {
      assert lines + after == lines;
    }
  }

  lemma BtimeLineValue(t: nat)
    ensures IsBtimeLine(Join(["btime", ShowNat(t)], ' ') + "\n")
    ensures IntToken(Join(["btime", ShowNat(t)], ' ') + "\n", 1) == Ok(t)
  {
    var line := Join(["btime", ShowNat(t)], ' ') + "\n";
    assert line[..6] == "btime ";
    ShowNatIsWord(t);
    WordsOfJoin(["btime", ShowNat(t)], "\n");
    ParseIntShowInt(t);
  }

  /** A /proc/stat whose one "btime " line holds `t` yields `t`. */
  lemma BootTimeReadsValue(before: seq<string>, t: nat, after: seq<string>)
    requires forall i :: 0 <= i < |before| ==> !IsBtimeLine(before[i])
    requires forall i :: 0 <= i < |after| ==> !IsBtimeLine(after[i])
    ensures BootTimeScan(before + [Join(["btime", ShowNat(t)], ' ') + "\n"] + after) == Ok(Some(t))
  {
    var line := Join(["btime", ShowNat(t)], ' ') + "\n";
    BtimeLineValue(t);
    BootTimeNoneIff(before);
    var lines := before + [line];
    assert lines[..|lines| - 1] == before;
    assert BootTimeScan(lines) == Ok(Some(t));
    BootTimeScanSkips(lines, after);
  }

  // ---------------------------------------------------------------------
  // max fds: the first "Max open files " line decides
  // ---------------------------------------------------------------------

  /** The soft open-file limit from the limits file's lines, or the exception the scan raises. */
  function MaxFdsScan(lines: seq<string>): Result<Option<int>, ParseError>
  {
    if lines == [] then Ok(None)
    else if IsMaxOpenFilesLine(lines[0]) then
      match IntToken(lines[0], 3)
      case Ok(v) => Ok(Some(v))
      case Err(e) => Err(e)
    else MaxFdsScan(lines[1..])
  }

  /** `_get_max_fds`: scan for the first matching line and return at once. */
  method GetMaxFds(limitsLines: seq<string>) returns (r: Result<Option<int>, ParseError>)
    ensures r == MaxFdsScan(limitsLines)
  {
    var i := 0;
    while i < |limitsLines|
      invariant 0 <= i <= |limitsLines|
      invariant MaxFdsScan(limitsLines[i..]) == MaxFdsScan(limitsLines)
    {
      var line := limitsLines[i];
      assert limitsLines[i..][1..] == limitsLines[i + 1..];
      if !(MaxOpenFilesPrefix <= line) {
        i := i + 1;
        continue;
      }
      var words := Words(line);
      if |words| <= 3 {
        return Err(IndexError(3));
      }
      var v := ParseInt(words[3]);
      if v.None? {
        return Err(ValueError(words[3]));
      }
      return Ok(Some(v.value));
    }
    return Ok(None);
  }

  /** No limit is found exactly when no line starts with "Max open files ". */
  lemma {:induction false} MaxFdsNoneIff(lines: seq<string>)
    ensures MaxFdsScan(lines) == Ok(None) <==> forall i :: 0 <= i < |lines| ==> !IsMaxOpenFilesLine(lines[i])
  {
    if lines != [] {
      MaxFdsNoneIff(lines[1..]);
      assert forall i :: 1 <= i < |lines| ==> lines[i] == lines[1..][i - 1];
    }
  }

  /**
   * The FIRST matching line decides, whether its fourth token parses or not;
   * the lines after it are never looked at.
   */
  lemma {:induction false} MaxFdsFirstMatchDecides(lines: seq<string>, i: nat)
    requires i < |lines| && IsMaxOpenFilesLine(lines[i])
    requires forall j :: 0 <= j < i ==> !IsMaxOpenFilesLine(lines[j])
    ensures MaxFdsScan(lines) == match IntToken(lines[i], 3) case Ok(v) => Ok(Some(v)) case Err(e) => Err(e)
  {
    if i > 0 {
      assert lines[1..][i - 1] == lines[i];
      assert forall j :: 0 <= j < i - 1 ==> lines[1..][j] == lines[j + 1];
      MaxFdsFirstMatchDecides(lines[1..], i - 1);
    }
  }

  /**
   * On a limits line laid out as "Max open files<pad><soft><pad><hard><pad><units><pad>",
   * with the column padding of any length the kernel writes, the value read
   * is the soft limit (the fourth token), not the hard one.
   */
  lemma MaxFdsReadsSoftLimit(before: seq<string>, soft: nat, hard: nat, units: string, pads: seq<string>, after: seq<string>)
    requires IsWord(units)
    requires |pads| == 4 && pads[0] != [] && pads[0][0] == ' '
    requires forall k :: 0 <= k < 4 ==> AllSpace(pads[k])
    requires forall k :: 0 <= k < 3 ==> pads[k] != []
    requires forall i :: 0 <= i < |before| ==> !IsMaxOpenFilesLine(before[i])
    ensures MaxFdsScan(before + [LimitsLine(soft, hard, units, pads)] + after) == Ok(Some(soft))
  {
    var ws := ["Max", "open", "files", ShowNat(soft), ShowNat(hard), units];
    var gaps := [" ", " "] + pads;
    var line := LimitsLine(soft, hard, units, pads);
    var lines := before + [line] + after;
    assert ws[1..][1..] == ws[2..] && gaps[1..][1..] == gaps[2..];
    assert line == "Max open files" + (pads[0] + Spaced(ws[3..], gaps[3..])) by {
      assert line == ws[0] + gaps[0] + Spaced(ws[1..], gaps[1..]);
      assert Spaced(ws[1..], gaps[1..]) == ws[1] + gaps[1] + Spaced(ws[2..], gaps[2..]);
      assert Spaced(ws[2..], gaps[2..]) == ws[2] + gaps[2] + Spaced(ws[3..], gaps[3..]);
      assert ws[2..][1..] == ws[3..] && gaps[2..][1..] == gaps[3..];
    }
    assert IsMaxOpenFilesLine(line);
    ShowNatIsWord(soft);
    ShowNatIsWord(hard);
    WordsOfSpaced([], ws, gaps);
    assert [] + line == line;
    ParseIntShowInt(soft);
    assert lines[|before|] == line;
    MaxFdsFirstMatchDecides(lines, |before|);
  }

  /**
   * The "Max open files" row of /proc/self/limits: the row name, then the
   * soft limit, the hard limit and the units, each column followed by its
   * padding.
   */
  function LimitsLine(soft: nat, hard: nat, units: string, pads: seq<string>): string
    requires |pads| == 4
  {
    Spaced(["Max", "open", "files", ShowNat(soft), ShowNat(hard), units], [" ", " "] + pads)
  }
}
