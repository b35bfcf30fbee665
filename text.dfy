/**
 * The string operations the query assembler is built from, written as Python
 * defines them: `sep.join(parts)`, `s.split('\n')`, `s.replace('\n', '\n' + tab)`,
 * `tab * n` and `str(n)` for an integer, with the inverses that show no text is lost.
 */
module Text {
  import opened Outcome

  /** `t` is a suffix of `s`. */
  predicate EndsWith(s: string, t: string) {
    |t| <= |s| && s[|s| - |t|..] == t
  }

  lemma EndsWithAppend(a: string, t: string)
    ensures EndsWith(a + t, t)
  {
    assert (a + t)[|a|..] == t;
  }

  /** A text between a prefix and a suffix can be cut back out. */
  lemma Framed(pre: string, t: string, post: string)
    ensures var s := pre + t + post;
            |s| >= |pre| + |post| && s[..|pre|] == pre && s[|s| - |post|..] == post &&
            s[|pre|..|s| - |post|] == t
  {
    var s := pre + t + post;
    assert s[..|pre|] == pre;
    assert s[|s| - |post|..] == post;
    assert s[|pre|..|s| - |post|] == t;
  }

  predicate NewlineFree(s: string) {
    '\n' !in s
  }

  function NewlineCount(s: string): nat {
    if |s| == 0 then 0 else (if s[0] == '\n' then 1 else 0) + NewlineCount(s[1..])
  }

  /** Concatenation regroups freely. */
  lemma AppendAssoc(a: string, b: string, c: string)
    ensures a + b + c == a + (b + c)
  {
  }

  lemma {:induction false} NewlineCountAppend(a: string, b: string)
    ensures NewlineCount(a + b) == NewlineCount(a) + NewlineCount(b)
  {
    if |a| > 0 {
      assert (a + b)[1..] == a[1..] + b;
      NewlineCountAppend(a[1..], b);
    } else {
      assert a + b == b;
    }
  }

  lemma {:induction false} NewlineFreeCount(s: string)
    requires NewlineFree(s)
    ensures NewlineCount(s) == 0
  {
    if |s| > 0 {
      assert s[0] in s;
      assert forall i :: 0 <= i < |s[1..]| ==> s[1..][i] == s[i + 1];
      NewlineFreeCount(s[1..]);
    }
  }

  // ---------------------------------------------------------------------------
  // join and split

  /** Python's `sep.join(parts)`. */
  function Join(parts: seq<string>, sep: string): string {
    if |parts| == 0 then ""
    else if |parts| == 1 then parts[0]
    else parts[0] + sep + Join(parts[1..], sep)
  }

  /** Python's `s.split('\n')`: the pieces between newlines, at least one. */
  function SplitLines(s: string): (r: seq<string>)
    ensures |r| >= 1
  {
    if |s| == 0 then [""]
    else
      var rest := SplitLines(s[1..]);
      if s[0] == '\n' then [""] + rest else [[s[0]] + rest[0]] + rest[1..]
  }

  lemma {:induction false} JoinSplitLines(s: string)
    ensures Join(SplitLines(s), "\n") == s
  {
    if |s| > 0 {
      var rest := SplitLines(s[1..]);
      JoinSplitLines(s[1..]);
      if s[0] == '\n' {
        assert Join(SplitLines(s), "\n") == "" + "\n" + Join(rest, "\n");
      } else if |rest| == 1 {
        assert SplitLines(s) == [[s[0]] + rest[0]];
      } else {
        var r := SplitLines(s);
        assert r[1..] == rest[1..];
        assert Join(rest, "\n") == rest[0] + "\n" + Join(rest[1..], "\n");
        assert Join(r, "\n") == [s[0]] + rest[0] + "\n" + Join(rest[1..], "\n");
      }
    }
  }

  lemma {:induction false} SplitLinesOfLine(line: string, rest: string)
    requires NewlineFree(line)
    ensures SplitLines(line + "\n" + rest) == [line] + SplitLines(rest)
    ensures SplitLines(line) == [line]
  {
    if |line| == 0 {
      assert line + "\n" + rest == "\n" + rest;
      assert ("\n" + rest)[1..] == rest;
    } else {
      assert line[0] in line;
      assert forall c :: c in line[1..] ==> c in line;
      SplitLinesOfLine(line[1..], rest);
      assert (line + "\n" + rest)[1..] == line[1..] + "\n" + rest;
      assert [line[0]] + line[1..] == line;
    }
  }

  /** Joining newline-free lines with "\n" and splitting again gives the lines back. */
  lemma {:induction false} SplitLinesJoin(parts: seq<string>)
    requires |parts| >= 1
    requires forall i :: 0 <= i < |parts| ==> NewlineFree(parts[i])
    ensures SplitLines(Join(parts, "\n")) == parts
  {
    if |parts| == 1 {
      SplitLinesOfLine(parts[0], "");
    } else {
      SplitLinesJoin(parts[1..]);
      SplitLinesOfLine(parts[0], Join(parts[1..], "\n"));
      assert parts == [parts[0]] + parts[1..];
    }
  }

  // ---------------------------------------------------------------------------
  // indentation

  /** Python's `s.replace('\n', '\n' + tab)`. */
  function AfterNewlines(s: string, tab: string): string {
    if |s| == 0 then ""
    else (if s[0] == '\n' then "\n" + tab else [s[0]]) + AfterNewlines(s[1..], tab)
  }

  /**
   * `(tab + s).replace('\n', '\n' + tab)`: the source's way of indenting a query by
   * one unit, used by the FROM builder and, with `tab * level`, by the tab-level helper.
   */
  function Indent(s: string, tab: string): string {
    AfterNewlines(tab + s, tab)
  }

  lemma {:induction false} AfterNewlinesAppend(a: string, b: string, tab: string)
    ensures AfterNewlines(a + b, tab) == AfterNewlines(a, tab) + AfterNewlines(b, tab)
  {
    if |a| == 0 {
      assert a + b == b;
    } else {
      assert (a + b)[1..] == a[1..] + b;
      AfterNewlinesAppend(a[1..], b, tab);
    }
  }

  lemma {:induction false} AfterNewlinesOfFree(s: string, tab: string)
    requires NewlineFree(s)
    ensures AfterNewlines(s, tab) == s
  {
    if |s| > 0 {
      assert s[0] in s;
      assert forall c :: c in s[1..] ==> c in s;
      AfterNewlinesOfFree(s[1..], tab);
    }
  }

  lemma {:induction false} AfterNewlinesEmptyTab(s: string)
    ensures AfterNewlines(s, "") == s
  {
    if |s| > 0 {
      AfterNewlinesEmptyTab(s[1..]);
    }
  }

  /** With a newline-free unit, indenting is the unit followed by a tab after every newline. */
  lemma IndentUnfold(s: string, tab: string)
    requires NewlineFree(tab)
    ensures Indent(s, tab) == tab + AfterNewlines(s, tab)
  {
    AfterNewlinesAppend(tab, s, tab);
    AfterNewlinesOfFree(tab, tab);
  }

  lemma IndentEmptyUnit(s: string)
    ensures Indent(s, "") == s
  {
    assert "" + s == s;
    AfterNewlinesEmptyTab(s);
  }

  lemma {:induction false} AfterNewlinesLength(s: string, tab: string)
    ensures |AfterNewlines(s, tab)| == |s| + |tab| * NewlineCount(s)
  {
    if |s| > 0 {
      AfterNewlinesLength(s[1..], tab);
    }
  }

  lemma {:induction false} AfterNewlinesCount(s: string, tab: string)
    requires NewlineFree(tab)
    ensures NewlineCount(AfterNewlines(s, tab)) == NewlineCount(s)
  {
    if |s| > 0 {
      AfterNewlinesCount(s[1..], tab);
      var head := if s[0] == '\n' then "\n" + tab else [s[0]];
      NewlineCountAppend(head, AfterNewlines(s[1..], tab));
      if s[0] == '\n' {
        NewlineFreeCount(tab);
        NewlineCountAppend("\n", tab);
      }
    }
  }

  /** Indenting adds one unit at the start and one after each of the newlines. */
  lemma IndentLength(s: string, tab: string)
    requires NewlineFree(tab)
    ensures |Indent(s, tab)| == |s| + |tab| * (1 + NewlineCount(s))
  {
    IndentUnfold(s, tab);
    AfterNewlinesLength(s, tab);
  }

  /** Indenting by a newline-free unit keeps the number of lines. */
  lemma IndentNewlineCount(s: string, tab: string)
    requires NewlineFree(tab)
    ensures NewlineCount(Indent(s, tab)) == NewlineCount(s)
  {
    IndentUnfold(s, tab);
    NewlineCountAppend(tab, AfterNewlines(s, tab));
    NewlineFreeCount(tab);
    AfterNewlinesCount(s, tab);
  }

  /** Indentation distributes over the lines of a text. */
  lemma IndentAroundNewline(x: string, y: string, tab: string)
    requires NewlineFree(tab)
    ensures Indent(x + "\n" + y, tab) == Indent(x, tab) + "\n" + Indent(y, tab)
  {
    IndentUnfold(x + "\n" + y, tab);
    IndentUnfold(x, tab);
    IndentUnfold(y, tab);
    AfterNewlinesAppend(x + "\n", y, tab);
    AfterNewlinesAppend(x, "\n", tab);
    assert AfterNewlines("\n", tab) == "\n" + tab + AfterNewlines("", tab);
    var ax := AfterNewlines(x, tab);
    var ay := AfterNewlines(y, tab);
    assert AfterNewlines("\n", tab) == "\n" + tab;
    SplicedLine(tab, ax, ay);
  }

  lemma SplicedLine(tab: string, ax: string, ay: string)
    ensures tab + (ax + ("\n" + tab) + ay) == tab + ax + "\n" + (tab + ay)
  {
    AppendAssoc(ax, "\n" + tab, ay);
    AppendAssoc("\n", tab, ay);
    AppendAssoc(tab, ax, "\n" + (tab + ay));
    AppendAssoc(tab + ax, "\n", tab + ay);
  }

  lemma {:induction false} AfterNewlinesTwice(s: string, a: string, b: string)
    requires NewlineFree(a)
    ensures AfterNewlines(AfterNewlines(s, a), b) == AfterNewlines(s, b + a)
  {
    if |s| > 0 {
      var head := if s[0] == '\n' then "\n" + a else [s[0]];
      AfterNewlinesTwice(s[1..], a, b);
      AfterNewlinesAppend(head, AfterNewlines(s[1..], a), b);
      if s[0] == '\n' {
        AfterNewlinesAppend("\n", a, b);
        AfterNewlinesOfFree(a, b);
        assert AfterNewlines("\n", b) == "\n" + b + AfterNewlines("", b);
      } else {
        assert AfterNewlines([s[0]], b) == [s[0]] + AfterNewlines("", b);
      }
    }
  }

  /** Indenting twice is indenting once by both units; this is how nesting accumulates. */
  lemma IndentTwice(s: string, a: string, b: string)
    requires NewlineFree(a) && NewlineFree(b)
    ensures Indent(Indent(s, a), b) == Indent(s, b + a)
  {
    var inner := AfterNewlines(s, a);
    IndentUnfold(s, a);
    IndentUnfold(a + inner, b);
    assert forall c :: c in b + a ==> c in b || c in a;
    IndentUnfold(s, b + a);
    AfterNewlinesAppend(a, inner, b);
    AfterNewlinesOfFree(a, b);
    AfterNewlinesTwice(s, a, b);
    AppendAssoc(b, a, AfterNewlines(s, b + a));
  }

  /** Removes what AfterNewlines inserted: `tab` must follow every newline. */
  function StripAfterNewlines(s: string, tab: string): Option<string>
    decreases |s|
  {
    if |s| == 0 then Some("")
    else if s[0] == '\n' then
      if tab <= s[1..] then
        match StripAfterNewlines(s[1 + |tab|..], tab)
        case None => None
        case Some(r) => Some("\n" + r)
      else None
    else
      match StripAfterNewlines(s[1..], tab)
      case None => None
      case Some(r) => Some([s[0]] + r)
  }

  /** The inverse of Indent: removes the leading unit and the unit after each newline. */
  function StripIndent(s: string, tab: string): Option<string> {
    if tab <= s then StripAfterNewlines(s[|tab|..], tab) else None
  }

  lemma {:induction false} StripAfterNewlinesInverse(s: string, tab: string)
    ensures StripAfterNewlines(AfterNewlines(s, tab), tab) == Some(s)
  {
    if |s| > 0 {
      var t := AfterNewlines(s, tab);
      StripAfterNewlinesInverse(s[1..], tab);
      if s[0] == '\n' {
        assert t == "\n" + tab + AfterNewlines(s[1..], tab);
        assert t[1..] == tab + AfterNewlines(s[1..], tab);
        assert t[1 + |tab|..] == AfterNewlines(s[1..], tab);
        assert "\n" + s[1..] == s;
      } else {
        assert t[1..] == AfterNewlines(s[1..], tab);
        assert [s[0]] + s[1..] == s;
      }
    }
  }

  lemma {:induction false} StripAfterNewlinesExact(t: string, tab: string, s: string)
    requires StripAfterNewlines(t, tab) == Some(s)
    ensures AfterNewlines(s, tab) == t
    decreases |t|
  {
    if |t| > 0 {
      if t[0] == '\n' {
        var r := StripAfterNewlines(t[1 + |tab|..], tab).value;
        StripAfterNewlinesExact(t[1 + |tab|..], tab, r);
        assert s == "\n" + r;
        assert s[1..] == r;
        assert t == "\n" + tab + t[1 + |tab|..];
      } else {
        var r := StripAfterNewlines(t[1..], tab).value;
        StripAfterNewlinesExact(t[1..], tab, r);
        assert s == [t[0]] + r;
        assert s[1..] == r;
        assert t == [t[0]] + t[1..];
      }
    }
  }

  /** Removing the indentation recovers the text exactly: nothing is lost by nesting. */
  lemma StripIndentOfIndent(s: string, tab: string)
    requires NewlineFree(tab)
    ensures StripIndent(Indent(s, tab), tab) == Some(s)
  {
    IndentUnfold(s, tab);
    var t := Indent(s, tab);
    assert t[|tab|..] == AfterNewlines(s, tab);
    StripAfterNewlinesInverse(s, tab);
  }

  /** And whatever StripIndent accepts is exactly an indented text. */
  lemma StripIndentExact(t: string, tab: string, s: string)
    requires NewlineFree(tab)
    requires StripIndent(t, tab) == Some(s)
    ensures Indent(s, tab) == t
  {
    StripAfterNewlinesExact(t[|tab|..], tab, s);
    IndentUnfold(s, tab);
    assert t == tab + t[|tab|..];
  }

  // ---------------------------------------------------------------------------
  // repetition

  /** Python's `tab * n`; empty for n <= 0. */
  function Repeat(tab: string, n: int): (r: string)
    decreases n
  {
    if n <= 0 then "" else tab + Repeat(tab, n - 1)
  }

  lemma {:induction false} RepeatLength(tab: string, n: nat)
    ensures |Repeat(tab, n)| == |tab| * n
  {
    if n > 0 {
      RepeatLength(tab, n - 1);
    }
  }

  lemma {:induction false} RepeatNewlineFree(tab: string, n: int)
    requires NewlineFree(tab)
    ensures NewlineFree(Repeat(tab, n))
    decreases n
  {
    if n > 0 {
      RepeatNewlineFree(tab, n - 1);
      assert forall c :: c in tab + Repeat(tab, n - 1) ==> c in tab || c in Repeat(tab, n - 1);
    }
  }

  lemma {:induction false} RepeatAdd(tab: string, m: nat, n: nat)
    ensures Repeat(tab, m) + Repeat(tab, n) == Repeat(tab, m + n)
    decreases m
  {
    if m == 0 {
      assert Repeat(tab, m) + Repeat(tab, n) == Repeat(tab, n);
    } else {
      var k: nat := m - 1 + n;
      RepeatAdd(tab, m - 1, n);
      assert Repeat(tab, m + n) == tab + Repeat(tab, k);
      assert Repeat(tab, m) == tab + Repeat(tab, m - 1);
      assert (tab + Repeat(tab, m - 1)) + Repeat(tab, n) == tab + (Repeat(tab, m - 1) + Repeat(tab, n));
    }
  }

  // ---------------------------------------------------------------------------
  // decimal text of an integer

  predicate IsDigit(c: char) {
    '0' <= c <= '9'
  }

  function DigitChar(d: nat): (c: char)
    requires d < 10
    ensures IsDigit(c)
  {
    ('0' as int + d) as char
  }

  /** The decimal digits of a natural number, most significant first, no leading zero. */
  function NatText(n: nat): (r: string)
    ensures |r| >= 1
    ensures forall i :: 0 <= i < |r| ==> IsDigit(r[i])
    decreases n
  {
    if n < 10 then [DigitChar(n)] else NatText(n / 10) + [DigitChar(n % 10)]
  }

  /** Python's `str(n)` (and "{}".format(n)) for an integer. */
  function IntText(n: int): string {
    if n < 0 then "-" + NatText(-n) else NatText(n)
  }

  function DigitValue(c: char): nat
    requires IsDigit(c)
  {
    c as int - '0' as int
  }

  function DigitsValue(s: string): nat
    requires forall i :: 0 <= i < |s| ==> IsDigit(s[i])
  {
    if |s| == 0 then 0 else DigitsValue(s[..|s| - 1]) * 10 + DigitValue(s[|s| - 1])
  }

  /** Python's `int(s)` for an optional minus sign followed by decimal digits. */
  function ParseInt(s: string): Option<int> {
    if |s| > 0 && s[0] == '-' then
      if |s| > 1 && forall i :: 1 <= i < |s| ==> IsDigit(s[i]) then Some(0 - DigitsValue(s[1..])) else None
    else if |s| > 0 && forall i :: 0 <= i < |s| ==> IsDigit(s[i]) then Some(DigitsValue(s))
    else None
  }

  lemma {:induction false} DigitsValueNatText(n: nat)
    ensures DigitsValue(NatText(n)) == n
    decreases n
  {
    if n >= 10 {
      DigitsValueNatText(n / 10);
      var r := NatText(n);
      assert r[..|r| - 1] == NatText(n / 10);
    }
  }

  lemma ParseIntNatText(n: nat)
    ensures ParseInt(NatText(n)) == Some(n)
  {
    var r := NatText(n);
    assert r[0] != '-';
    DigitsValueNatText(n);
  }

  lemma ParseIntNegative(m: nat)
    requires m > 0
    ensures ParseInt("-" + NatText(m)) == Some(0 - m)
  {
    var d := NatText(m);
    var r := "-" + d;
    assert r[1..] == d;
    assert forall i :: 1 <= i < |r| ==> r[i] == d[i - 1];
    DigitsValueNatText(m);
  }

  /** The text written for an integer reads back as that integer. */
  lemma ParseIntText(n: int)
    ensures ParseInt(IntText(n)) == Some(n)
  {
    if n < 0 {
      assert IntText(n) == "-" + NatText(-n);
      ParseIntNegative(-n);
    } else {
      assert IntText(n) == NatText(n);
      ParseIntNatText(n);
    }
  }
}
