/**
 * `_process_fds`: count the process's open file descriptors by file type.
 * The directory listing and each `os.stat` are inputs: one entry per listed
 * descriptor, Some(st_mode) when its stat succeeded and None when it raised
 * OSError (the descriptor was closed between listing and stat).
 */
module FdClassifier {
  import opened Wrappers

  /** The labels of the count table; `Label` gives the string the metric is labelled with. */
  datatype FdType = Sock | Lnk | Reg | Blk | Dir | Chr | Fifo | Other
  {
    function Label(): string
    {
      match this
      case Sock => "SOCK"
      case Lnk => "LNK"
      case Reg => "REG"
      case Blk => "BLK"
      case Dir => "DIR"
      case Chr => "CHR"
      case Fifo => "FIFO"
      case Other => "other"
    }
  }

  /** Every label the table has a count for: the seven type labels and "other". */
  const AllTypes: set<FdType> := {Sock, Lnk, Reg, Blk, Dir, Chr, Fifo, Other}

  /** The same labels as a list, for summing. */
  const TypeList: seq<FdType> := [Sock, Lnk, Reg, Blk, Dir, Chr, Fifo, Other]

  /** The file-type bits of a mode (`stat.S_IFMT`, i.e. `mode & 0o170000`). */
  function FileFormat(mode: nat): (fmt: nat)
    ensures fmt % 0x1000 == 0 && fmt <= 0xF000
    ensures fmt <= mode && (mode - fmt) % 0x1_0000 < 0x1000
  {
    (mode / 0x1000 % 16) * 0x1000
  }

  /** The label of each known file type (`TYPES`), keyed by its S_IF* value. */
  const Types: map<nat, FdType> := map[
    0xC000 := Sock,  // S_IFSOCK, 0o140000
    0xA000 := Lnk,   // S_IFLNK,  0o120000
    0x8000 := Reg,   // S_IFREG,  0o100000
    0x6000 := Blk,   // S_IFBLK,  0o060000
    0x4000 := Dir,   // S_IFDIR,  0o040000
    0x2000 := Chr,   // S_IFCHR,  0o020000
    0x1000 := Fifo   // S_IFIFO,  0o010000
  ]

  /** `TYPES` as the code writes it: each S_IF* value's label string. */
  const TypeLabels: map<nat, string> := map[
    0xC000 := "SOCK", 0xA000 := "LNK", 0x8000 := "REG", 0x6000 := "BLK",
    0x4000 := "DIR", 0x2000 := "CHR", 0x1000 := "FIFO"
  ]

  /**
   * Keying the table by `FdType` loses nothing: `Label` tells the labels
   * apart, gives each known format the string `TYPES` maps it to, and gives
   * "other" a string no known format has.
   */
  lemma LabelsMatchTypes()
    ensures forall t: FdType, t': FdType :: t != t' ==> t.Label() != t'.Label()
    ensures Types.Keys == TypeLabels.Keys
    ensures forall fmt :: fmt in Types ==> Types[fmt].Label() == TypeLabels[fmt]
    ensures Other.Label() == "other" && "other" !in TypeLabels.Values
  {
    forall t: FdType, t': FdType | t != t'
      ensures t.Label() != t'.Label()
    {
      assert t.Label()[0] != t'.Label()[0];
    }
  }

  /** The label a descriptor of this mode is counted under. */
  function Classify(mode: nat): (t: FdType)
    ensures t == Other <==> FileFormat(mode) !in Types
    ensures t != Other ==> Types[FileFormat(mode)] == t
  {
    var fmt := FileFormat(mode);
    if fmt in Types then Types[fmt] else Other
  }

  /** How many of the entries were stat'ed successfully and classified as `t`. */
  function CountType(entries: seq<Option<nat>>, t: FdType): nat
  {
    if entries == [] then 0
    else
      var last := entries[|entries| - 1];
      CountType(entries[..|entries| - 1], t) + (if last.Some? && Classify(last.value) == t then 1 else 0)
  }

  /** How many of the entries were stat'ed successfully. */
  function Successes(entries: seq<Option<nat>>): nat
  {
    if entries == [] then 0
    else Successes(entries[..|entries| - 1]) + (if entries[|entries| - 1].Some? then 1 else 0)
  }

  /** The count table after classifying `entries`. */
  function Tally(entries: seq<Option<nat>>): map<FdType, nat>
  {
    map t | t in AllTypes :: CountType(entries, t)
  }

  /** What `_process_fds` returns: the all-zero table when there is no fd directory. */
  function FdCounts(haveProcSelfFd: bool, entries: seq<Option<nat>>): (counts: map<FdType, nat>)
    ensures counts.Keys == AllTypes
    ensures !haveProcSelfFd ==> forall t :: t in counts ==> counts[t] == 0
  {
    if haveProcSelfFd then Tally(entries) else Tally([])
  }

  /** Classifying one more entry adds one to exactly its label, or nothing when its stat failed. */
  lemma TallyStep(entries: seq<Option<nat>>, e: Option<nat>)
    ensures e.None? ==> Tally(entries + [e]) == Tally(entries)
    ensures e.Some? ==> Tally(entries + [e]) == Tally(entries)[Classify(e.value) := Tally(entries)[Classify(e.value)] + 1]
  {
    var es := entries + [e];
    assert es[..|es| - 1] == entries;
  }

  /** The table `_process_fds` starts from: every type label, then "other", at zero. */
  lemma InitialTableIsEmptyTally()
    ensures (map t | t in Types.Values :: 0)[Other := 0] == Tally([])
  {
    var m := (map t | t in Types.Values :: 0)[Other := 0];
    assert Sock == Types[0xC000] && Lnk == Types[0xA000] && Reg == Types[0x8000] && Blk == Types[0x6000];
    assert Dir == Types[0x4000] && Chr == Types[0x2000] && Fifo == Types[0x1000];
    assert m.Keys == AllTypes;
  }

  method ProcessFds(haveProcSelfFd: bool, entries: seq<Option<nat>>) returns (counts: map<FdType, nat>)
    ensures counts == FdCounts(haveProcSelfFd, entries)
  {
    counts := map t | t in Types.Values :: 0;
    counts := counts[Other := 0];
    InitialTableIsEmptyTally();
    if !haveProcSelfFd {
      return;
    }
    var i := 0;
    while i < |entries|
      invariant 0 <= i <= |entries|
      invariant counts == Tally(entries[..i])
    {
      var e := entries[i];
      assert entries[..i + 1] == entries[..i] + [e];
      TallyStep(entries[..i], e);
      if e.Some? {
        var t := Classify(e.value);
        counts := counts[t := counts[t] + 1];
      }
      i := i + 1;
    }
    assert entries[..i] == entries;
  }

  // ---------------------------------------------------------------------
  // Sums
  // ---------------------------------------------------------------------

  /** The sum of the counts of the labels in `ts`. */
  function SumOver(ts: seq<FdType>, counts: map<FdType, nat>): nat
    requires forall k :: 0 <= k < |ts| ==> ts[k] in counts
  {
    if ts == [] then 0 else counts[ts[0]] + SumOver(ts[1..], counts)
  }

  /** `sum(counts.values())` for a table keyed by every label. */
  function SumCounts(counts: map<FdType, nat>): nat
    requires counts.Keys == AllTypes
  {
    SumOver(TypeList, counts)
  }

  lemma {:induction false} SumOverIncrement(ts: seq<FdType>, counts: map<FdType, nat>, t: FdType)
    requires forall k :: 0 <= k < |ts| ==> ts[k] in counts
    requires t in counts
    requires forall i, j :: 0 <= i < j < |ts| ==> ts[i] != ts[j]
    ensures SumOver(ts, counts[t := counts[t] + 1]) == SumOver(ts, counts) + (if t in ts then 1 else 0)
  {
    if ts != [] {
      assert forall k :: 0 <= k < |ts| - 1 ==> ts[1..][k] == ts[k + 1];
      SumOverIncrement(ts[1..], counts, t);
      assert t in ts <==> t == ts[0] || t in ts[1..];
      if t == ts[0] {
        assert t !in ts[1..];
      }
    }
  }

  lemma {:induction false} SumOverZero(ts: seq<FdType>, counts: map<FdType, nat>)
    requires forall k :: 0 <= k < |ts| ==> ts[k] in counts && counts[ts[k]] == 0
    ensures SumOver(ts, counts) == 0
  {
    if ts != [] {
      SumOverZero(ts[1..], counts);
    }
  }

  /** The counts add up to the number of descriptors whose stat succeeded. */
  lemma {:induction false} TallySumIsSuccesses(entries: seq<Option<nat>>)
    ensures SumCounts(Tally(entries)) == Successes(entries)
  {
    if entries == [] {
      SumOverZero(TypeList, Tally([]));
    } else {
      var n := |entries| - 1;
      var init := entries[..n];
      var e := entries[n];
      assert entries == init + [e];
      TallySumIsSuccesses(init);
      TallyStep(init, e);
      assert Successes(entries) == Successes(init) + (if e.Some? then 1 else 0);
      if e.Some? {
        var m := Tally(init);
        var t := Classify(e.value);
        assert t in TypeList;
        SumOverIncrement(TypeList, m, t);
      }
    }
  }

  lemma {:induction false} SuccessesAtMostEntries(entries: seq<Option<nat>>)
    ensures Successes(entries) <= |entries|
  {
    if entries != [] {
      SuccessesAtMostEntries(entries[..|entries| - 1]);
    }
  }

  /**
   * What the open_fds metric reports from a table: the number of descriptors
   * whose stat succeeded (none without an fd directory), at most the number
   * listed.
   */
  lemma OpenFdsCountsDescriptors(haveProcSelfFd: bool, entries: seq<Option<nat>>)
    ensures SumCounts(FdCounts(haveProcSelfFd, entries)) == if haveProcSelfFd then Successes(entries) else 0
    ensures SumCounts(FdCounts(haveProcSelfFd, entries)) <= |entries|
  {
    TallySumIsSuccesses(entries);
    TallySumIsSuccesses([]);
    SuccessesAtMostEntries(entries);
  }

  /** A mode gets a known type's label exactly when its format bits are that type's value. */
  lemma ClassifyKnownFormat(mode: nat, fmt: nat)
    requires fmt in Types
    ensures Classify(mode) == Types[fmt] <==> FileFormat(mode) == fmt
  {
  }

  /** Each known type's count is the number of stat'ed descriptors whose format bits are that type's value. */
  lemma {:induction false} CountKnownType(entries: seq<Option<nat>>, fmt: nat)
    requires fmt in Types
    ensures CountType(entries, Types[fmt]) == |set i | 0 <= i < |entries| && entries[i].Some? && FileFormat(entries[i].value) == fmt|
  {
    if entries != [] {
      var n := |entries| - 1;
      var init := entries[..n];
      CountKnownType(init, fmt);
      var before := set i | 0 <= i < |init| && init[i].Some? && FileFormat(init[i].value) == fmt;
      var now := set i | 0 <= i < |entries| && entries[i].Some? && FileFormat(entries[i].value) == fmt;
      if entries[n].Some? {
        ClassifyKnownFormat(entries[n].value, fmt);
      }
      assert forall i :: 0 <= i < n ==> init[i] == entries[i];
      if entries[n].Some? && FileFormat(entries[n].value) == fmt {
        assert now == before + {n};
      } else {
        assert now == before;
      }
    }
  }

  /** The "other" count is the number of stat'ed descriptors whose format bits are no known type. */
  lemma {:induction false} CountOtherType(entries: seq<Option<nat>>)
    ensures CountType(entries, Other) == |set i | 0 <= i < |entries| && entries[i].Some? && FileFormat(entries[i].value) !in Types|
  {
    if entries != [] {
      var n := |entries| - 1;
      var init := entries[..n];
      CountOtherType(init);
      var before := set i | 0 <= i < |init| && init[i].Some? && FileFormat(init[i].value) !in Types;
      var now := set i | 0 <= i < |entries| && entries[i].Some? && FileFormat(entries[i].value) !in Types;
      assert forall i :: 0 <= i < n ==> init[i] == entries[i];
      if entries[n].Some? && FileFormat(entries[n].value) !in Types {
        assert now == before + {n};
      } else {
        assert now == before;
      }
    }
  }
}
