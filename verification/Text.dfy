/** Strings and byte sequences: cutting at separators, decimal numerals, white space, lines. */
module Text {

  // ---------------------------------------------------------------- cutting at a separator

  /** The part before the first separator, and everything after it, are determined by the whole. */
  lemma FirstCut<T>(a: seq<T>, x: seq<T>, b: seq<T>, y: seq<T>, c: T)
    requires c !in a && c !in b && a + [c] + x == b + [c] + y
    ensures a == b && x == y
  {
    var whole := a + [c] + x;
    assert whole[|a|] == c && whole[|b|] == c;
    assert forall i :: 0 <= i < |a| ==> whole[i] == a[i];
    assert forall i :: 0 <= i < |b| ==> whole[i] == b[i];
    assert |a| == |b|;
    assert a == whole[..|a|] && b == whole[..|b|];
    assert x == whole[|a| + 1..] && y == whole[|b| + 1..];
  }

  /** The same from the end: the part after the last separator is determined by the whole. */
  lemma LastCut<T>(x: seq<T>, a: seq<T>, y: seq<T>, b: seq<T>, c: T)
    requires c !in a && c !in b && x + [c] + a == y + [c] + b
    ensures a == b && x == y
  {
    var whole := x + [c] + a;
    assert |whole| == |x| + 1 + |a| == |y| + 1 + |b|;
    assert whole[|x|] == c && whole[|y|] == c;
    assert forall i :: |x| < i < |whole| ==> whole[i] == a[i - |x| - 1];
    assert forall i :: |y| < i < |whole| ==> whole[i] == b[i - |y| - 1];
    assert |x| == |y|;
    assert x == whole[..|x|] && y == whole[..|y|];
    assert a == whole[|x| + 1..] && b == whole[|y| + 1..];
  }

  function Split<T(==)>(s: seq<T>, c: T): (parts: seq<seq<T>>)
    ensures |parts| >= 1
  {
    if |s| == 0 then [[]]
    else
      var rest := Split(s[1..], c);
      if s[0] == c then [[]] + rest else [[s[0]] + rest[0]] + rest[1..]
  }

  function Join<T>(parts: seq<seq<T>>, c: T): seq<T> {
    if |parts| == 0 then []
    else if |parts| == 1 then parts[0]
    else parts[0] + [c] + Join(parts[1..], c)
  }

  lemma {:induction false} JoinSplit<T>(s: seq<T>, c: T)
    ensures Join(Split(s, c), c) == s
  {
    if |s| > 0 {
      JoinSplit(s[1..], c);
      var rest := Split(s[1..], c);
      var parts := Split(s, c);
      if s[0] == c {
        assert parts[1..] == rest;
        assert s == [] + [c] + s[1..];
      } else {
        assert parts[1..] == rest[1..];
        if |rest| == 1 {
          assert s == [s[0]] + s[1..];
        } else {
          assert s == [s[0]] + (rest[0] + [c] + Join(rest[1..], c));
        }
      }
    }
  }

  /** Splitting distributes over a separator, whatever stands on its two sides. */
  lemma {:induction false} SplitAt<T>(a: seq<T>, b: seq<T>, c: T)
    ensures Split(a + [c] + b, c) == Split(a, c) + Split(b, c)
  {
    var whole := a + [c] + b;
    if |a| == 0 {
      assert whole[0] == c && whole[1..] == b;
    } else {
      assert whole[0] == a[0] && whole[1..] == a[1..] + [c] + b;
      SplitAt(a[1..], b, c);
    }
  }

  lemma {:induction false} SplitPlain<T>(a: seq<T>, c: T)
    requires c !in a
    ensures Split(a, c) == [a]
  {
    if |a| > 0 {
      assert a[0] in a && forall x :: x in a[1..] ==> x in a;
      SplitPlain(a[1..], c);
      assert [a[0]] + a[1..] == a;
    }
  }

  lemma {:induction false} SplitPartsPlain<T>(s: seq<T>, c: T)
    ensures forall i :: 0 <= i < |Split(s, c)| ==> c !in Split(s, c)[i]
  {
    if |s| > 0 {
      SplitPartsPlain(s[1..], c);
      var rest := Split(s[1..], c);
      assert c !in rest[0];
    }
  }

  // ---------------------------------------------------------------- decimal numerals

  predicate IsDigit(c: char) {
    '0' <= c <= '9'
  }

  predicate AllDigits(s: string) {
    forall i :: 0 <= i < |s| ==> IsDigit(s[i])
  }

  function NatText(n: nat): (s: string)
    ensures |s| >= 1 && AllDigits(s)
  {
    var last := [(n % 10 + '0' as int) as char];
    if n < 10 then last else NatText(n / 10) + last
  }

  function IntText(n: int): string {
    if n < 0 then "-" + NatText(-n) else NatText(n)
  }

  function DigitsValue(s: string): nat
    requires AllDigits(s)
  {
    if |s| == 0 then 0 else 10 * DigitsValue(s[..|s| - 1]) + (s[|s| - 1] as int - '0' as int)
  }

  lemma {:induction false} NatTextValue(n: nat)
    ensures DigitsValue(NatText(n)) == n
  {
    var s := NatText(n);
    if n < 10 {
      assert s[..|s| - 1] == "";
    } else {
      assert s[..|s| - 1] == NatText(n / 10);
      NatTextValue(n / 10);
    }
  }

  lemma IntTextInjective(m: int, n: int)
    requires IntText(m) == IntText(n)
    ensures m == n
  {
    var a, b := NatText(if m < 0 then -m else m), NatText(if n < 0 then -n else n);
    NatTextValue(if m < 0 then -m else m);
    NatTextValue(if n < 0 then -n else n);
    assert IsDigit(a[0]) && IsDigit(b[0]);
    assert IntText(m)[0] == (if m < 0 then '-' else a[0]) && IntText(n)[0] == (if n < 0 then '-' else b[0]);
    if m < 0 {
      assert IntText(m)[1..] == a && IntText(n)[1..] == b;
    }
  }

  lemma IntTextPlain(n: int, c: char)
    requires !IsDigit(c) && c != '-'
    ensures c !in IntText(n)
  {
    var digits := NatText(if n < 0 then -n else n);
    assert c !in digits;
  }

  // ---------------------------------------------------------------- white space

  /** The characters with the Unicode property White_Space. */
  predicate IsSpace(c: char) {
    var n := c as int;
    9 <= n <= 13 || n == 32 || n == 0x85 || n == 0xA0 || n == 0x1680 || 0x2000 <= n <= 0x200A
    || n == 0x2028 || n == 0x2029 || n == 0x202F || n == 0x205F || n == 0x3000
  }

  predicate AllSpace(s: string) {
    forall i :: 0 <= i < |s| ==> IsSpace(s[i])
  }

  function TrimEnd(s: string): (r: string)
    ensures r <= s && AllSpace(s[|r|..])
    ensures r == "" || !IsSpace(r[|r| - 1])
  {
    if s == "" || !IsSpace(s[|s| - 1]) then s else TrimEnd(s[..|s| - 1])
  }

  function TrimStart(s: string): (r: string)
    ensures |r| <= |s| && r == s[|s| - |r|..] && AllSpace(s[..|s| - |r|])
    ensures r == "" || !IsSpace(r[0])
  {
    if s == "" || !IsSpace(s[0]) then s else TrimStart(s[1..])
  }

  function Trim(s: string): string {
    TrimStart(TrimEnd(s))
  }

  /** Neither end is white space: the strings that trimming leaves alone. */
  predicate Tight(s: string) {
    s == "" || (!IsSpace(s[0]) && !IsSpace(s[|s| - 1]))
  }

  lemma TrimIsTight(s: string)
    ensures Tight(Trim(s)) && |Trim(s)| <= |s|
    ensures Tight(s) ==> Trim(s) == s
  {
    var e := TrimEnd(s);
    var r := TrimStart(e);
    if r != "" {
      assert r[|r| - 1] == e[|e| - 1];
    }
  }

  /** Trimming strips white space from the two ends and nothing else. */
  lemma TrimParts(s: string) returns (pre: string, post: string)
    ensures s == pre + Trim(s) + post && AllSpace(pre) && AllSpace(post)
  {
    hide TrimEnd, TrimStart, IsSpace;
    var e := TrimEnd(s);
    var r := TrimStart(e);
    pre := e[..|e| - |r|];
    post := s[|e|..];
    assert s == e + post && e == pre + r;
  }

  lemma {:induction false} TrimEndPadded(core: string, post: string)
    requires AllSpace(post) && core != "" && !IsSpace(core[|core| - 1])
    ensures TrimEnd(core + post) == core
  {
    if post == "" {
      assert core + post == core;
    } else {
      var s := core + post;
      assert s[|s| - 1] == post[|post| - 1];
      assert s[..|s| - 1] == core + post[..|post| - 1];
      TrimEndPadded(core, post[..|post| - 1]);
    }
  }

  lemma {:induction false} TrimStartPadded(pre: string, core: string)
    requires AllSpace(pre) && core != "" && !IsSpace(core[0])
    ensures TrimStart(pre + core) == core
  {
    if pre == "" {
      assert pre + core == core;
    } else {
      assert (pre + core)[1..] == pre[1..] + core;
      TrimStartPadded(pre[1..], core);
    }
  }

  /** Trimming the end of a text that ends in something visible trims the end of that part only. */
  lemma TrimEndTail(head: string, tail: string)
    ensures TrimEnd(tail) != "" ==> TrimEnd(head + tail) == head + TrimEnd(tail)
    ensures TrimEnd(tail) == "" ==> TrimEnd(head + tail) == TrimEnd(head)
  {
    var t := TrimEnd(tail);
    assert tail == t + tail[|t|..];
    if t != "" {
      assert head + tail == (head + t) + tail[|t|..];
      assert (head + t)[|head + t| - 1] == t[|t| - 1];
      TrimEndPadded(head + t, tail[|t|..]);
    } else {
      assert AllSpace(tail);
      TrimEndOfBlank(head, tail);
    }
  }

  lemma {:induction false} TrimEndOfBlank(head: string, blank: string)
    requires AllSpace(blank)
    ensures TrimEnd(head + blank) == TrimEnd(head)
  {
    if blank == "" {
      assert head + blank == head;
    } else {
      var s := head + blank;
      assert s[|s| - 1] == blank[|blank| - 1];
      assert s[..|s| - 1] == head + blank[..|blank| - 1];
      TrimEndOfBlank(head, blank[..|blank| - 1]);
    }
  }

  // ---------------------------------------------------------------- lines

  function DropCr(line: string): string {
    if line != "" && line[|line| - 1] == '\r' then line[..|line| - 1] else line
  }

  function DropCrs(lines: seq<string>): (r: seq<string>)
    ensures |r| == |lines|
  {
    if |lines| == 0 then [] else [DropCr(lines[0])] + DropCrs(lines[1..])
  }

  /** Rust's str::lines: a line ends in "\n" or "\r\n"; text after the last "\n" is a line if it is not empty. */
  function Lines(s: string): seq<string> {
    var parts := Split(s, '\n');
    var last := parts[|parts| - 1];
    DropCrs(parts[..|parts| - 1]) + (if last == "" then [] else [last])
  }

  /** Every line followed by a newline. */
  function Unlines(lines: seq<string>): string {
    if |lines| == 0 then "" else lines[0] + "\n" + Unlines(lines[1..])
  }

  lemma {:induction false} DropCrsConcat(a: seq<string>, b: seq<string>)
    ensures DropCrs(a + b) == DropCrs(a) + DropCrs(b)
  {
    if |a| == 0 {
      assert a + b == b;
    } else {
      assert (a + b)[1..] == a[1..] + b;
      DropCrsConcat(a[1..], b);
    }
  }

  /** A line that str::lines can produce from a terminated line. */
  predicate CleanLine(line: string) {
    '\n' !in line && (line == "" || line[|line| - 1] != '\r')
  }

  /** Prepending one terminated line prepends one line, less one carriage return at its end. */
  lemma LinesCons(line: string, rest: string)
    requires '\n' !in line
    ensures Lines(line + "\n" + rest) == [DropCr(line)] + Lines(rest)
  {
    SplitAt(line, rest, '\n');
    SplitPlain(line, '\n');
    var parts := Split(rest, '\n');
    assert ([line] + parts)[..|parts|] == [line] + parts[..|parts| - 1];
    DropCrsConcat([line], parts[..|parts| - 1]);
  }

  lemma {:induction false} LinesUnlinesAny(lines: seq<string>, rest: string)
    requires forall i :: 0 <= i < |lines| ==> '\n' !in lines[i]
    ensures Lines(Unlines(lines) + rest) == DropCrs(lines) + Lines(rest)
  {
    if |lines| == 0 {
      assert Unlines(lines) + rest == rest;
    } else {
      assert Unlines(lines) + rest == lines[0] + "\n" + (Unlines(lines[1..]) + rest);
      LinesUnlinesAny(lines[1..], rest);
      LinesCons(lines[0], Unlines(lines[1..]) + rest);
    }
  }

  lemma {:induction false} DropCrsClean(lines: seq<string>)
    requires forall i :: 0 <= i < |lines| ==> CleanLine(lines[i])
    ensures DropCrs(lines) == lines
  {
    if |lines| > 0 {
      DropCrsClean(lines[1..]);
    }
  }

  lemma LinesUnlines(lines: seq<string>, rest: string)
    requires forall i :: 0 <= i < |lines| ==> CleanLine(lines[i])
    ensures Lines(Unlines(lines) + rest) == lines + Lines(rest)
  {
    LinesUnlinesAny(lines, rest);
    DropCrsClean(lines);
  }

  lemma {:induction false} DropCrsAt(lines: seq<string>, i: nat)
    requires i < |lines|
    ensures DropCrs(lines)[i] == DropCr(lines[i])
  {
    if i > 0 {
      DropCrsAt(lines[1..], i - 1);
    }
  }

  lemma LinesPlain(s: string)
    ensures forall i :: 0 <= i < |Lines(s)| ==> '\n' !in Lines(s)[i]
  {
    var parts := Split(s, '\n');
    SplitPartsPlain(s, '\n');
    var whole := parts[..|parts| - 1];
    forall i | 0 <= i < |whole|
      ensures '\n' !in DropCrs(whole)[i]
    {
      DropCrsAt(whole, i);
    }
  }

  lemma {:induction false} UnlinesConcat(a: seq<string>, b: seq<string>)
    ensures Unlines(a + b) == Unlines(a) + Unlines(b)
  {
    if |a| == 0 {
      assert a + b == b;
    } else {
      assert (a + b)[1..] == a[1..] + b;
      UnlinesConcat(a[1..], b);
    }
  }
}
