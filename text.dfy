/**
 * The Python 2 string builtins the collector relies on, over `string`:
 * `s.split(sep, 1)[1]`, `s.split(" ")`, `s.split()`, `s.startswith(p)`
 * (written `p <= s` here) and `int(s)`.
 */
module Text {
  import opened Wrappers

  /** The exceptions a parse step can raise: an index past the end of a list, or `int()` of a non-number. */
  datatype ParseError = IndexError(index: nat) | ValueError(token: string)

  /** `str.isspace` for one character: space, tab, newline, carriage return, vertical tab, form feed. */
  predicate IsSpace(c: char)
  {
    c == ' ' || c == '\t' || c == '\n' || c == '\r' || c == '\U{0B}' || c == '\U{0C}'
  }

  predicate IsDigit(c: char)
  {
    '0' <= c <= '9'
  }

  // ---------------------------------------------------------------------
  // s.split(sep, 1)[1]
  // ---------------------------------------------------------------------

  /** `pat` occurs in `s` starting at index `i`. */
  predicate OccursAt(s: string, pat: string, i: nat)
  {
    i + |pat| <= |s| && s[i..i + |pat|] == pat
  }

  /** The first index at or after `from` where `pat` occurs, if any. */
  function FindFirst(s: string, pat: string, from: nat): (r: Option<nat>)
    requires |pat| > 0 && from <= |s|
    decreases |s| - from
    ensures r.Some? ==> from <= r.value && OccursAt(s, pat, r.value)
    ensures r.Some? ==> forall j :: from <= j < r.value ==> !OccursAt(s, pat, j)
    ensures r.None? ==> forall j :: from <= j ==> !OccursAt(s, pat, j)
  {
    if from + |pat| > |s| then None
    else if s[from..from + |pat|] == pat then Some(from)
    else FindFirst(s, pat, from + 1)
  }

  /**
   * `s.split(sep, 1)[1]`: the text after the first occurrence of `sep`.
   * None where Python raises IndexError, because `sep` does not occur.
   */
  function AfterFirst(s: string, sep: string): (r: Option<string>)
    requires |sep| > 0
    ensures r.None? <==> forall j :: 0 <= j ==> !OccursAt(s, sep, j)
    ensures r.Some? ==> exists i: nat ::
      && OccursAt(s, sep, i)
      && (forall j :: 0 <= j < i ==> !OccursAt(s, sep, j))
      && r.value == s[i + |sep|..]
  {
    match FindFirst(s, sep, 0)
    case None => None
    case Some(i) => Some(s[i + |sep|..])
  }

  /** No `") "` inside `x`. */
  predicate NoCloseParenSpace(x: string)
  {
    forall j :: 0 <= j < |x| - 1 ==> !(x[j] == ')' && x[j + 1] == ' ')
  }

  /** When `x` holds no `") "`, splitting `x + ") " + y` at the first `") "` leaves exactly `y`. */
  lemma {:induction false} AfterFirstCloseParen(x: string, y: string)
    requires NoCloseParenSpace(x)
    ensures AfterFirst(x + ") " + y, ") ") == Some(y)
  {
    var s := x + ") " + y;
    assert OccursAt(s, ") ", |x|) by { assert s[|x|..|x| + 2] == ") "; }
    forall j | 0 <= j < |x|
      ensures !OccursAt(s, ") ", j)
    {
      assert s[j..j + 2] == [s[j], s[j + 1]];
    }
    var r := AfterFirst(s, ") ");
    var i: nat :| OccursAt(s, ") ", i) && (forall j :: 0 <= j < i ==> !OccursAt(s, ") ", j)) && r.value == s[i + 2..];
    assert i == |x|;
    assert s[|x| + 2..] == y;
  }

  // ---------------------------------------------------------------------
  // s.split(c) and c.join(parts)
  // ---------------------------------------------------------------------

  /**
   * `s.split(c)` with an explicit one-character separator: every occurrence
   * of `c` ends a piece, so adjacent separators give empty pieces and the
   * result always has at least one piece.
   */
  function SplitOn(s: string, c: char): (r: seq<string>)
    ensures |r| >= 1
    ensures forall k :: 0 <= k < |r| ==> c !in r[k]
  {
    if s == [] then [[]]
    else
      var tail := SplitOn(s[1..], c);
      if s[0] == c then [[]] + tail
      else [[s[0]] + tail[0]] + tail[1..]
  }

  /** `c.join(parts)`. */
  function Join(parts: seq<string>, c: char): string
  {
    if |parts| == 0 then []
    else if |parts| == 1 then parts[0]
    else parts[0] + [c] + Join(parts[1..], c)
  }

  /** Splitting and joining again on the same separator gives the text back. */
  lemma {:induction false} JoinSplitOn(s: string, c: char)
    ensures Join(SplitOn(s, c), c) == s
  {
    if s != [] {
      var tail := SplitOn(s[1..], c);
      JoinSplitOn(s[1..], c);
      if s[0] == c {
        assert SplitOn(s, c)[1..] == tail;
      } else {
        var r := SplitOn(s, c);
        if |tail| == 1 {
          assert r == [[s[0]] + tail[0]];
        } else {
          assert r[1..] == tail[1..];
          assert Join(tail, c) == tail[0] + [c] + Join(tail[1..], c);
        }
      }
    }
  }

  lemma {:induction false} SplitOnWithout(p: string, c: char)
    requires c !in p
    ensures SplitOn(p, c) == [p]
  {
    if p != [] {
      SplitOnWithout(p[1..], c);
      assert [p[0]] + p[1..] == p;
    }
  }

  lemma {:induction false} SplitOnAfterPiece(p: string, t: string, c: char)
    requires c !in p
    ensures SplitOn(p + [c] + t, c) == [p] + SplitOn(t, c)
  {
    if p == [] {
      assert p + [c] + t == [c] + t;
      assert ([c] + t)[1..] == t;
    } else {
      var s := p + [c] + t;
      assert s[1..] == p[1..] + [c] + t;
      SplitOnAfterPiece(p[1..], t, c);
      assert [p[0]] + p[1..] == p;
    }
  }

  /** Joining pieces free of the separator and splitting again gives the pieces back. */
  lemma {:induction false} SplitOnJoin(parts: seq<string>, c: char)
    requires |parts| >= 1
    requires forall k :: 0 <= k < |parts| ==> c !in parts[k]
    ensures SplitOn(Join(parts, c), c) == parts
  {
    if |parts| == 1 {
      SplitOnWithout(parts[0], c);
    } else {
      SplitOnJoin(parts[1..], c);
      SplitOnAfterPiece(parts[0], Join(parts[1..], c), c);
    }
  }

  // ---------------------------------------------------------------------
  // s.split() with no separator
  // ---------------------------------------------------------------------

  /** A non-empty run of non-space characters. */
  predicate IsWord(w: string)
  {
    w != [] && forall i :: 0 <= i < |w| ==> !IsSpace(w[i])
  }

  predicate AllSpace(t: string)
  {
    forall i :: 0 <= i < |t| ==> IsSpace(t[i])
  }

  /** The length of the run of non-space characters `s` starts with. */
  function WordLength(s: string): (n: nat)
    ensures n <= |s|
    ensures forall i :: 0 <= i < n ==> !IsSpace(s[i])
    ensures n == |s| || IsSpace(s[n])
  {
    if s == [] || IsSpace(s[0]) then 0 else 1 + WordLength(s[1..])
  }

  /**
   * `s.split()`: the maximal runs of non-space characters, in order; leading,
   * trailing and repeated whitespace produce no empty words.
   */
  function Words(s: string): (r: seq<string>)
    decreases |s|
    ensures forall k :: 0 <= k < |r| ==> IsWord(r[k])
  {
    if s == [] then []
    else if IsSpace(s[0]) then Words(s[1..])
    else
      var n := WordLength(s);
      [s[..n]] + Words(s[n..])
  }

  lemma {:induction false} WordsAllSpace(t: string)
    requires AllSpace(t)
    ensures Words(t) == []
  {
    if t != [] {
      WordsAllSpace(t[1..]);
    }
  }

  lemma {:induction false} WordLengthOfWord(w: string, t: string)
    requires IsWord(w)
    requires t == [] || IsSpace(t[0])
    ensures WordLength(w + t) == |w|
  {
    if |w| == 1 {
      assert (w + t)[1..] == t;
    } else {
      assert (w + t)[1..] == w[1..] + t;
      WordLengthOfWord(w[1..], t);
    }
  }

  lemma {:induction false} WordsAfterWord(w: string, t: string)
    requires IsWord(w)
    requires t == [] || IsSpace(t[0])
    ensures Words(w + t) == [w] + Words(t)
  {
    WordLengthOfWord(w, t);
    assert (w + t)[..|w|] == w;
    assert (w + t)[|w|..] == t;
  }

  /**
   * Words joined by single spaces, followed by any trailing whitespace (a
   * line's newline, say), split back into the same words.
   */
  lemma {:induction false} WordsOfJoin(ws: seq<string>, tail: string)
    requires |ws| >= 1
    requires forall k :: 0 <= k < |ws| ==> IsWord(ws[k])
    requires AllSpace(tail)
    ensures Words(Join(ws, ' ') + tail) == ws
  {
    if |ws| == 1 {
      WordsAfterWord(ws[0], tail);
      WordsAllSpace(tail);
    } else {
      var rest := Join(ws[1..], ' ') + tail;
      assert Join(ws, ' ') + tail == ws[0] + (" " + rest);
      WordsAfterWord(ws[0], " " + rest);
      assert (" " + rest)[1..] == rest;
      WordsOfJoin(ws[1..], tail);
    }
  }

  /**
   * Splitting distributes over concatenation when the cut falls next to
   * whitespace, so that no word straddles it.
   */
  lemma {:induction false} WordsConcat(a: string, b: string)
    requires a == [] || b == [] || IsSpace(a[|a| - 1]) || IsSpace(b[0])
    ensures Words(a + b) == Words(a) + Words(b)
    decreases |a|
  {
    if a == [] {
      assert a + b == b;
    } else if IsSpace(a[0]) {
      var t := a[1..];
      assert a + b == [a[0]] + (t + b) && (a + b)[1..] == t + b;
      assert t != [] ==> t[|t| - 1] == a[|a| - 1];
      WordsConcat(t, b);
    } else if WordLength(a) == |a| {
      assert a + [] == a;
      WordsAfterWord(a, []);
      WordsAfterWord(a, b);
    } else {
      var m := WordLength(a);
      WordsSplitAt(a, b, m);
      WordsConcat(a[m..], b);
    }
  }

  /** The first word of `a` is the first word of `a + b` when `a` goes on past it. */
  lemma WordsSplitAt(a: string, b: string, m: nat)
    requires 0 < m < |a| && IsSpace(a[m])
    requires forall i :: 0 <= i < m ==> !IsSpace(a[i])
    ensures Words(a) == [a[..m]] + Words(a[m..])
    ensures Words(a + b) == [a[..m]] + Words(a[m..] + b)
  {
    var w, rest := a[..m], a[m..];
    assert a == w + rest;
    assert a + b == w + (rest + b);
    WordsAfterWord(w, rest);
    WordsAfterWord(w, rest + b);
  }

  /**
   * A line laid out as words, each followed by its own run of whitespace:
   * `gaps[k]` comes after `ws[k]`; the last gap may be empty.
   */
  function Spaced(ws: seq<string>, gaps: seq<string>): string
    requires |gaps| == |ws|
  {
    if ws == [] then [] else ws[0] + gaps[0] + Spaced(ws[1..], gaps[1..])
  }

  /**
   * `split()` returns the words of any layout: leading whitespace, then the
   * words separated by non-empty whitespace runs of any length, then
   * trailing whitespace. Every string has such a layout, so this fixes
   * `Words` on all inputs.
   */
  lemma {:induction false} WordsOfSpaced(lead: string, ws: seq<string>, gaps: seq<string>)
    requires AllSpace(lead) && |gaps| == |ws|
    requires forall k :: 0 <= k < |ws| ==> IsWord(ws[k]) && AllSpace(gaps[k])
    requires forall k :: 0 <= k < |ws| - 1 ==> gaps[k] != []
    ensures Words(lead + Spaced(ws, gaps)) == ws
    decreases |ws|
  {
    WordsAllSpace(lead);
    if ws == [] {
      assert lead + Spaced(ws, gaps) == lead;
    } else {
      var rest := Spaced(ws[1..], gaps[1..]);
      assert lead + Spaced(ws, gaps) == lead + (ws[0] + (gaps[0] + rest));
      WordsConcat(lead, ws[0] + (gaps[0] + rest));
      assert |ws| == 1 ==> rest == [];
      WordsAfterWord(ws[0], gaps[0] + rest);
      WordsOfSpaced(gaps[0], ws[1..], gaps[1..]);
    }
  }

  // ---------------------------------------------------------------------
  // int(s)
  // ---------------------------------------------------------------------

  function TrimLeft(s: string): string
  {
    if s != [] && IsSpace(s[0]) then TrimLeft(s[1..]) else s
  }

  function TrimRight(s: string): string
  {
    if s != [] && IsSpace(s[|s| - 1]) then TrimRight(s[..|s| - 1]) else s
  }

  /** `s.strip()`. */
  function Strip(s: string): string
  {
    TrimRight(TrimLeft(s))
  }

  predicate AllDigits(d: string)
  {
    forall i :: 0 <= i < |d| ==> IsDigit(d[i])
  }

  /** The value of a decimal numeral, most significant digit first. */
  function DigitsValue(d: string): nat
    requires AllDigits(d)
  {
    if d == [] then 0
    else DigitsValue(d[..|d| - 1]) * 10 + (d[|d| - 1] as int - '0' as int)
  }

  /**
   * `int(s)` on a byte string: surrounding whitespace is ignored, then an
   * optional sign and at least one decimal digit. None where Python raises
   * ValueError.
   */
  function ParseInt(s: string): Option<int>
  {
    var t := Strip(s);
    if t != [] && (t[0] == '-' || t[0] == '+') then
      var d := t[1..];
      if d != [] && AllDigits(d) then
        Some(if t[0] == '-' then -(DigitsValue(d) as int) else DigitsValue(d))
      else None
    else if t != [] && AllDigits(t) then Some(DigitsValue(t))
    else None
  }

  function DigitChar(k: nat): char
    requires k < 10
  {
    ('0' as int + k) as char
  }

  /** The decimal numeral of `n`, as `str(n)` writes it. */
  function ShowNat(n: nat): (r: string)
    ensures r != [] && AllDigits(r)
  {
    if n < 10 then [DigitChar(n)] else ShowNat(n / 10) + [DigitChar(n % 10)]
  }

  function ShowInt(n: int): string
  {
    if n < 0 then "-" + ShowNat(-n) else ShowNat(n)
  }

  lemma {:induction false} DigitsValueShowNat(n: nat)
    ensures DigitsValue(ShowNat(n)) == n
  {
    var d := ShowNat(n);
    if n >= 10 {
      DigitsValueShowNat(n / 10);
      assert d[..|d| - 1] == ShowNat(n / 10);
    }
  }

  lemma ShowNatIsWord(n: nat)
    ensures IsWord(ShowNat(n))
  {
    var d := ShowNat(n);
    forall i | 0 <= i < |d|
      ensures !IsSpace(d[i])
    {
      assert IsDigit(d[i]);
    }
  }

  /** `int()` reads back every integer `str()` writes. */
  lemma {:induction false} ParseIntShowInt(n: int)
    ensures ParseInt(ShowInt(n)) == Some(n)
  {
    if n < 0 {
      var d := ShowNat(-n);
      var t := "-" + d;
      assert !IsSpace(t[0]);
      assert !IsSpace(t[|t| - 1]) by { assert t[|t| - 1] == d[|d| - 1]; assert IsDigit(d[|d| - 1]); }
      assert Strip(t) == t;
      assert t[1..] == d;
      DigitsValueShowNat(-n);
    } else {
      var d := ShowNat(n);
      assert IsDigit(d[0]) && IsDigit(d[|d| - 1]);
      assert Strip(d) == d;
      DigitsValueShowNat(n);
    }
  }
}
