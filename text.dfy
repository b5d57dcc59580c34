/** The string operations of Python's `str` that the log parser relies on, over `seq<char>`. */
module Text {
  import opened Wrappers

  /** The index of the first `c` in `s`. */
  function IndexOf(s: string, c: char): (r: Option<nat>)
    ensures r.None? <==> c !in s
    ensures r.Some? ==> r.value < |s| && s[r.value] == c && c !in s[..r.value]
  {
    if s == [] then None
    else if s[0] == c then Some(0)
    else
      match IndexOf(s[1..], c)
      case None => None
      case Some(i) =>
        assert s[..i + 1] == [s[0]] + s[1..][..i];
        Some(i + 1)
  }

  /** `s.split(c, 1)`: `[s]` when `s` has no `c`, else the text before and after the first `c`. */
  function SplitOnce(s: string, c: char): (parts: seq<string>)
    ensures |parts| == 1 || |parts| == 2
    ensures |parts| == 1 <==> c !in s
    ensures |parts| == 1 ==> parts[0] == s
    ensures |parts| == 2 ==> s == parts[0] + [c] + parts[1] && c !in parts[0]
  {
    match IndexOf(s, c)
    case None => [s]
    case Some(i) =>
      assert s == s[..i] + [c] + s[i + 1..];
      [s[..i], s[i + 1..]]
  }

  /** Splitting at a separator that the head does not contain gives back the head and the tail. */
  lemma SplitOnceOf(head: string, c: char, tail: string)
    requires c !in head
    ensures SplitOnce(head + [c] + tail, c) == [head, tail]
  {
    var s := head + [c] + tail;
    assert s[|head|] == c;
    var parts := SplitOnce(s, c);
    assert |parts[0]| == |head|;
    assert parts[0] == s[..|head|] == head;
    assert parts[1] == s[|head| + 1..] == tail;
  }

  /** `s.replace(c, d, 1)`: the first `c`, and only that one, becomes `d`. */
  function ReplaceFirst(s: string, c: char, d: char): (r: string)
    ensures |r| == |s|
    ensures c !in s ==> r == s
    ensures c in s ==> var parts := SplitOnce(s, c); r == parts[0] + [d] + parts[1]
  {
    if s == [] then []
    else if s[0] == c then
      SplitOnceOf([], c, s[1..]);
      assert s == [] + [c] + s[1..];
      [d] + s[1..]
    else
      var r := [s[0]] + ReplaceFirst(s[1..], c, d);
      assert s == [s[0]] + s[1..];
      if c in s[1..] then ReplaceFirstCons(s[0], s[1..], c, d, r[1..]); r else r
  }

  /** Replacing after a character other than the separator keeps that character in front. */
  lemma ReplaceFirstCons(x: char, t: string, c: char, d: char, rest: string)
    requires x != c && c in t
    requires rest == SplitOnce(t, c)[0] + [d] + SplitOnce(t, c)[1]
    ensures [x] + rest == SplitOnce([x] + t, c)[0] + [d] + SplitOnce([x] + t, c)[1]
  {
    SplitOnceCons(x, t, c);
  }

  /** Replacing the first separator of `head + [c] + tail`, where `head` has none, rewrites just that one. */
  lemma ReplaceFirstOf(head: string, c: char, d: char, tail: string)
    requires c !in head
    ensures ReplaceFirst(head + [c] + tail, c, d) == head + [d] + tail
  {
    SplitOnceOf(head, c, tail);
    assert (head + [c] + tail)[|head|] == c;
  }

  /** Splitting after a character other than the separator keeps that character in the head. */
  lemma SplitOnceCons(x: char, s: string, c: char)
    requires x != c && c in s
    ensures var parts := SplitOnce(s, c); SplitOnce([x] + s, c) == [[x] + parts[0], parts[1]]
  {
    var parts := SplitOnce(s, c);
    SplitOnceOf([x] + parts[0], c, parts[1]);
    assert [x] + s == [x] + parts[0] + [c] + parts[1];
  }

  /** `sep.join(parts)`. */
  function Join(parts: seq<string>, sep: string): string
  {
    if parts == [] then ""
    else if |parts| == 1 then parts[0]
    else parts[0] + sep + Join(parts[1..], sep)
  }

  /** The characters at which Python's `str.splitlines` ends a line. */
  predicate IsLineBreak(ch: char)
  {
    ch == '\n' || ch == '\r' || ch == '\U{0b}' || ch == '\U{0c}' || ch == '\U{1c}' || ch == '\U{1d}'
    || ch == '\U{1e}' || ch == '\U{85}' || ch == '\U{2028}' || ch == '\U{2029}'
  }

  /** The index of the first line break in `s`, or `|s|`. */
  function FirstBreak(s: string): (i: nat)
    ensures i <= |s|
    ensures i < |s| ==> IsLineBreak(s[i])
    ensures forall j | 0 <= j < i :: !IsLineBreak(s[j])
  {
    if s == [] then 0
    else if IsLineBreak(s[0]) then 0
    else 1 + FirstBreak(s[1..])
  }

  /**
   * `s.splitlines()`: the lines of `s` without their terminators; `\r\n` ends one line,
   * and a terminator at the very end does not start an empty last line.
   */
  function SplitLines(s: string): (lines: seq<string>)
    ensures s == [] <==> lines == []
    ensures forall i, j | 0 <= i < |lines| && 0 <= j < |lines[i]| :: !IsLineBreak(lines[i][j])
    decreases |s|
  {
    if s == [] then []
    else
      var i := FirstBreak(s);
      if i == |s| then [s]
      else
        var width := if s[i] == '\r' && i + 1 < |s| && s[i + 1] == '\n' then 2 else 1;
        [s[..i]] + SplitLines(s[i + width..])
  }

  /** Every character of a line is a character of the text. */
  lemma {:induction false} SplitLinesChars(s: string, ch: char)
    requires ch !in s
    ensures forall i | 0 <= i < |SplitLines(s)| :: ch !in SplitLines(s)[i]
    decreases |s|
  {
    if s != [] {
      var i := FirstBreak(s);
      if i < |s| {
        var width := if s[i] == '\r' && i + 1 < |s| && s[i + 1] == '\n' then 2 else 1;
        var tail := s[i + width..];
        assert forall c | c in tail :: c in s;
        assert forall c | c in s[..i] :: c in s;
        SplitLinesChars(tail, ch);
        var lines, rest := SplitLines(s), SplitLines(tail);
        assert lines == [s[..i]] + rest;
        forall k | 0 <= k < |lines| ensures ch !in lines[k] {
          if k > 0 {
            assert lines[k] == rest[k - 1];
          }
        }
      }
    }
  }

  /** Text whose only line breaks are `\n` and which does not end with one. */
  predicate PlainLines(s: string)
  {
    (forall j | 0 <= j < |s| :: IsLineBreak(s[j]) ==> s[j] == '\n')
    && (s == [] || s[|s| - 1] != '\n')
  }

  /** For such text, joining the lines with `\n` gives back the text. */
  lemma {:induction false} JoinSplitLines(s: string)
    requires PlainLines(s)
    ensures Join(SplitLines(s), "\n") == s
    decreases |s|
  {
    if s != [] {
      var i := FirstBreak(s);
      if i == |s| {
        assert SplitLines(s) == [s];
      } else {
        PlainLinesAfterBreak(s, i);
        JoinSplitLines(s[i + 1..]);
        JoinSplitLinesStep(s, i);
      }
    }
  }

  lemma JoinSplitLinesStep(s: string, i: nat)
    requires i == FirstBreak(s) < |s| && s[i] == '\n' && s[i + 1..] != []
    requires Join(SplitLines(s[i + 1..]), "\n") == s[i + 1..]
    ensures Join(SplitLines(s), "\n") == s
  {
    SplitLinesAtNewline(s, i);
    JoinAtNewline(s, i, SplitLines(s[i + 1..]));
  }

  lemma JoinAtNewline(s: string, i: nat, lines: seq<string>)
    requires i < |s| && s[i] == '\n' && lines != []
    requires Join(lines, "\n") == s[i + 1..]
    ensures Join([s[..i]] + lines, "\n") == s
  {
    JoinCons(s[..i], lines, "\n");
    assert [s[i]] == "\n";
    assert s == s[..i] + [s[i]] + s[i + 1..];
  }

  lemma SplitLinesAtNewline(s: string, i: nat)
    requires i == FirstBreak(s) < |s| && s[i] == '\n'
    ensures SplitLines(s) == [s[..i]] + SplitLines(s[i + 1..])
  {
  }

  lemma PlainLinesAfterBreak(s: string, i: nat)
    requires PlainLines(s) && i == FirstBreak(s) < |s|
    ensures s[i] == '\n'
    ensures s[i + 1..] != [] && PlainLines(s[i + 1..])
  {
    var rest := s[i + 1..];
    assert rest != [] && rest[|rest| - 1] == s[|s| - 1];
    forall j | 0 <= j < |rest| ensures IsLineBreak(rest[j]) ==> rest[j] == '\n' {
      assert rest[j] == s[i + 1 + j];
    }
  }

  lemma JoinCons(head: string, tail: seq<string>, sep: string)
    requires tail != []
    ensures Join([head] + tail, sep) == head + sep + Join(tail, sep)
  {
    assert ([head] + tail)[1..] == tail;
  }

  /** The escape character that starts a terminal control sequence. */
  const Esc: char := '\U{1b}'

  predicate IsDigit(ch: char)
  {
    '0' <= ch <= '9'
  }

  /** A two-digit colour code, the only kind the formatter emits. */
  predicate IsColourCode(code: string)
  {
    |code| == 2 && IsDigit(code[0]) && IsDigit(code[1])
  }

  /** The control sequence `ESC [ code m` that selects a terminal colour. */
  function Sgr(code: string): string
  {
    [Esc, '['] + code + "m"
  }

  /** `s` with every two-digit colour sequence removed: what a reader of the text sees. */
  function StripColour(s: string): string
    decreases |s|
  {
    if |s| >= 5 && s[0] == Esc && s[1] == '[' && IsDigit(s[2]) && IsDigit(s[3]) && s[4] == 'm' then
      StripColour(s[5..])
    else if s == [] then []
    else [s[0]] + StripColour(s[1..])
  }

  /** Text without escape characters passes through unchanged, whatever follows it. */
  lemma {:induction false} StripPlainPrefix(a: string, b: string)
    requires Esc !in a
    ensures StripColour(a + b) == a + StripColour(b)
    decreases |a|
  {
    if a != [] {
      assert a[0] in a;
      var s := a + b;
      assert s[0] == a[0] != Esc;
      assert s[1..] == a[1..] + b;
      assert StripColour(s) == [s[0]] + StripColour(s[1..]);
      StripPlainPrefix(a[1..], b);
      assert a == [a[0]] + a[1..];
    } else {
      assert a + b == b;
    }
  }

  /** A colour sequence disappears. */
  lemma StripColourPrefix(code: string, b: string)
    requires IsColourCode(code)
    ensures StripColour(Sgr(code) + b) == StripColour(b)
  {
    assert (Sgr(code) + b)[5..] == b;
  }

  /** `[f'\033[{open}m{l}\033[{close}m' for l in lines]`. */
  function Wrapped(lines: seq<string>, open: string, close: string): (r: seq<string>)
    ensures |r| == |lines|
    ensures forall i | 0 <= i < |lines| :: r[i] == Sgr(open) + lines[i] + Sgr(close)
  {
    if lines == [] then [] else [Sgr(open) + lines[0] + Sgr(close)] + Wrapped(lines[1..], open, close)
  }

  /** Removing the colours from lines wrapped in colours gives the lines, joined as before. */
  lemma {:induction false} StripWrappedLines(lines: seq<string>, open: string, close: string, tail: string)
    requires IsColourCode(open) && IsColourCode(close)
    requires forall i | 0 <= i < |lines| :: Esc !in lines[i]
    ensures StripColour(Join(Wrapped(lines, open, close), "\n") + tail) == Join(lines, "\n") + StripColour(tail)
    decreases |lines|
  {
    if lines == [] {
      assert Join(Wrapped(lines, open, close), "\n") + tail == tail;
      assert Join(lines, "\n") + StripColour(tail) == StripColour(tail);
    } else if |lines| == 1 {
      var w := Wrapped(lines, open, close);
      assert Join(w, "\n") + tail == Sgr(open) + (lines[0] + (Sgr(close) + tail));
      StripUnwrap(open, lines[0], close, tail);
    } else {
      StripWrappedLines(lines[1..], open, close, tail);
      StripWrappedStep(lines, open, close, tail);
    }
  }

  lemma StripWrappedStep(lines: seq<string>, open: string, close: string, tail: string)
    requires IsColourCode(open) && IsColourCode(close)
    requires |lines| > 1 && Esc !in lines[0]
    requires StripColour(Join(Wrapped(lines[1..], open, close), "\n") + tail)
             == Join(lines[1..], "\n") + StripColour(tail)
    ensures StripColour(Join(Wrapped(lines, open, close), "\n") + tail) == Join(lines, "\n") + StripColour(tail)
  {
    var l := lines[0];
    var more := Join(Wrapped(lines[1..], open, close), "\n") + tail;
    var rest := Join(lines[1..], "\n");
    assert lines == [l] + lines[1..];
    calc {
      StripColour(Join(Wrapped(lines, open, close), "\n") + tail);
      { WrappedJoinShape(lines, open, close, tail); }
      StripColour(Sgr(open) + (l + (Sgr(close) + ("\n" + more))));
      { StripUnwrap(open, l, close, "\n" + more); }
      l + StripColour("\n" + more);
      { StripPlainPrefix("\n", more); }
      l + ("\n" + StripColour(more));
      l + ("\n" + (rest + StripColour(tail)));
      { JoinCons(l, lines[1..], "\n"); ConcatAssoc(l, rest, StripColour(tail)); }
      Join(lines, "\n") + StripColour(tail);
    }
  }

  lemma ConcatAssoc(a: string, b: string, c: string)
    ensures a + ("\n" + (b + c)) == a + "\n" + b + c
  {
  }

  lemma WrappedJoinShape(lines: seq<string>, open: string, close: string, tail: string)
    requires |lines| > 1
    ensures Join(Wrapped(lines, open, close), "\n") + tail
            == Sgr(open) + (lines[0] + (Sgr(close) + ("\n" + (Join(Wrapped(lines[1..], open, close), "\n") + tail))))
  {
    var w := Wrapped(lines, open, close);
    var more := Wrapped(lines[1..], open, close);
    assert w == [Sgr(open) + lines[0] + Sgr(close)] + more;
    JoinCons(Sgr(open) + lines[0] + Sgr(close), more, "\n");
  }

  /** The colours around one line disappear. */
  lemma StripUnwrap(open: string, l: string, close: string, rest: string)
    requires IsColourCode(open) && IsColourCode(close) && Esc !in l
    ensures StripColour(Sgr(open) + (l + (Sgr(close) + rest))) == l + StripColour(rest)
  {
    StripColourPrefix(open, l + (Sgr(close) + rest));
    StripPlainPrefix(l, Sgr(close) + rest);
    StripColourPrefix(close, rest);
  }

  /** `s` starts with a two-digit colour sequence. */
  predicate StartsWithColour(s: string)
  {
    |s| >= 5 && s[0] == Esc && s[1] == '[' && IsDigit(s[2]) && IsDigit(s[3]) && s[4] == 'm'
  }

  /** The colour a terminal is left in after showing `s`: the code of its last colour sequence. */
  function LastColour(s: string): Option<string>
    decreases |s|
  {
    if StartsWithColour(s) then
      var later := LastColour(s[5..]);
      if later.Some? then later else Some(s[2..4])
    else if s == [] then None
    else LastColour(s[1..])
  }

  /** Text without escape characters selects no colour. */
  lemma {:induction false} LastColourPlain(t: string)
    requires Esc !in t
    ensures LastColour(t) == None
    decreases |t|
  {
    if t != [] {
      assert t[0] in t;
      assert forall ch | ch in t[1..] :: ch in t;
      LastColourPlain(t[1..]);
    }
  }

  /**
   * A colour sequence followed only by plain text decides the final colour, whatever comes
   * before it: no earlier sequence can swallow its escape character.
   */
  lemma {:induction false} LastColourAtEnd(a: string, code: string, t: string)
    requires IsColourCode(code) && Esc !in t
    ensures LastColour(a + Sgr(code) + t) == Some(code)
    decreases |a|
  {
    var s := a + Sgr(code) + t;
    if a == [] {
      assert s == Sgr(code) + t;
      assert StartsWithColour(s);
      assert s[5..] == t && s[2..4] == code;
      LastColourPlain(t);
    } else if StartsWithColour(a) {
      assert s[..5] == a[..5];
      assert StartsWithColour(s);
      assert s[5..] == a[5..] + Sgr(code) + t;
      LastColourAtEnd(a[5..], code, t);
    } else {
      assert s[|a|] == Esc;
      assert !StartsWithColour(s) by {
        if |a| >= 5 {
          assert s[..5] == a[..5];
        }
      }
      assert s[1..] == a[1..] + Sgr(code) + t;
      LastColourAtEnd(a[1..], code, t);
    }
  }

  /** `s.endswith(t)`. */
  predicate EndsWith(s: string, t: string)
  {
    |t| <= |s| && s[|s| - |t|..] == t
  }

  /** Whatever is put in front keeps the ending. */
  lemma EndsWithAfter(a: string, b: string, t: string)
    requires EndsWith(b, t)
    ensures EndsWith(a + b, t)
  {
    assert (a + b)[|a + b| - |t|..] == b[|b| - |t|..];
  }

  /** The last of several lines ends the text they join into. */
  lemma {:induction false} JoinEndsWith(parts: seq<string>, sep: string, t: string)
    requires parts != [] && EndsWith(parts[|parts| - 1], t)
    ensures EndsWith(Join(parts, sep), t)
  {
    if |parts| > 1 {
      JoinEndsWith(parts[1..], sep, t);
      EndsWithAfter(parts[0] + sep, Join(parts[1..], sep), t);
    }
  }

  /** A text that ends in a colour sequence and plain text is left in that colour. */
  lemma LastColourEndsWith(s: string, code: string, t: string)
    requires IsColourCode(code) && Esc !in t && EndsWith(s, Sgr(code) + t)
    ensures LastColour(s) == Some(code)
  {
    var a := s[..|s| - |Sgr(code) + t|];
    assert s == a + Sgr(code) + t;
    LastColourAtEnd(a, code, t);
  }
}
