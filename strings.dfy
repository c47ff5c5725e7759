/** The string operations the client performs: decimal rendering of numbers (template literals
    and `String(n)`), `padStart`, `split`/`join` on one separator character, `trim`,
    a global one-character `replace`, and the `a || b` fallback on strings. */
module Strings {

  import opened Wrappers

  predicate IsDigit(c: char) { '0' <= c <= '9' }

  predicate AllDigits(s: string) { forall i :: 0 <= i < |s| ==> IsDigit(s[i]) }

  function Digit(d: nat): (c: char)
    requires d < 10
    ensures IsDigit(c) && c as int - '0' as int == d
  {
    ('0' as int + d) as char
  }

  /** The value of a string of decimal digits (the empty string reads as 0). */
  function DigitsValue(s: string): nat
    requires AllDigits(s)
  {
    if s == [] then 0 else DigitsValue(s[..|s| - 1]) * 10 + (s[|s| - 1] as int - '0' as int)
  }

  /** `String(n)` for a non-negative integer: its shortest decimal rendering. */
  function NatToString(n: nat): (s: string)
    ensures |s| >= 1 && AllDigits(s)
    ensures |s| > 1 ==> s[0] != '0'
  {
    if n < 10 then [Digit(n)] else NatToString(n / 10) + [Digit(n % 10)]
  }

  lemma {:induction false} NatToStringRoundTrip(n: nat)
    ensures DigitsValue(NatToString(n)) == n
  {
    if n >= 10 {
      var s := NatToString(n);
      assert s[..|s| - 1] == NatToString(n / 10);
      NatToStringRoundTrip(n / 10);
    }
  }

  /** `String(i)` for any integer: a minus sign before the magnitude when negative. */
  function IntToString(i: int): (s: string)
  {
    if i < 0 then "-" + NatToString(-i) else NatToString(i)
  }

  /** Reads back what IntToString writes. */
  function ParseInt(s: string): Option<int>
  {
    if |s| >= 2 && s[0] == '-' && AllDigits(s[1..]) then Some(-(DigitsValue(s[1..]) as int))
    else if |s| >= 1 && AllDigits(s) then Some(DigitsValue(s) as int)
    else None
  }

  lemma IntToStringRoundTrip(i: int)
    ensures ParseInt(IntToString(i)) == Some(i)
  {
    var s := IntToString(i);
    if i < 0 {
      var m := NatToString(-i);
      assert s == "-" + m;
      assert s[1..] == m;
      NatToStringRoundTrip(-i);
    } else {
      NatToStringRoundTrip(i);
    }
  }

  /** A rendered integer holds only digits and possibly a leading minus sign. */
  lemma IntToStringCharacters(i: int)
    ensures forall k :: 0 <= k < |IntToString(i)| ==> IsDigit(IntToString(i)[k]) || (k == 0 && i < 0)
  {
    var s := IntToString(i);
    if i < 0 {
      var m := NatToString(-i);
      assert s == "-" + m;
      assert forall k :: 1 <= k < |s| ==> s[k] == m[k - 1];
    }
  }

  function Repeat(c: char, n: nat): (r: string)
    ensures |r| == n && forall i :: 0 <= i < n ==> r[i] == c
  {
    seq(n, _ => c)
  }

  /** `s.padStart(width, pad)` with a one-character pad string. */
  function PadStart(s: string, width: nat, pad: char): (r: string)
    ensures |r| == if |s| >= width then |s| else width
    ensures r[|r| - |s|..] == s
    ensures forall i :: 0 <= i < |r| - |s| ==> r[i] == pad
  {
    if |s| >= width then s else Repeat(pad, width - |s|) + s
  }

  /** `String(n).padStart(2, '0')`. */
  function TwoDigits(n: nat): string
  {
    PadStart(NatToString(n), 2, '0')
  }

  lemma TwoDigitsRoundTrip(n: nat)
    requires n < 100
    ensures |TwoDigits(n)| == 2 && AllDigits(TwoDigits(n))
    ensures DigitsValue(TwoDigits(n)) == n
  {
    var s := TwoDigits(n);
    if n < 10 {
      assert s == ['0', Digit(n)];
      assert s[..1] == ['0'];
    } else {
      assert NatToString(n / 10) == [Digit(n / 10)];
      assert NatToString(n) == NatToString(n / 10) + [Digit(n % 10)];
      assert s == [Digit(n / 10), Digit(n % 10)];
      assert s[..1] == [Digit(n / 10)];
      assert DigitsValue(s[..1]) == n / 10;
    }
  }

  /** `s.split(sep)` for a one-character separator: the pieces between separators, in order;
      the empty string splits into one empty piece. */
  function Split(s: string, sep: char): (pieces: seq<string>)
    ensures |pieces| >= 1
  {
    if s == [] then [[]]
    else
      var rest := Split(s[1..], sep);
      if s[0] == sep then [[]] + rest else [[s[0]] + rest[0]] + rest[1..]
  }

  /** No piece contains the separator. */
  lemma {:induction false} SplitPiecesLackSeparator(s: string, sep: char)
    ensures forall i :: 0 <= i < |Split(s, sep)| ==> sep !in Split(s, sep)[i]
  {
    if s != [] {
      var rest := Split(s[1..], sep);
      SplitPiecesLackSeparator(s[1..], sep);
      var pieces := Split(s, sep);
      if s[0] == sep {
        assert pieces == [[]] + rest;
        assert forall i :: 1 <= i < |pieces| ==> pieces[i] == rest[i - 1];
      } else {
        assert pieces == [[s[0]] + rest[0]] + rest[1..];
        assert forall i :: 1 <= i < |pieces| ==> pieces[i] == rest[i];
      }
    }
  }

  /** `pieces.join(sep)`; joining no pieces gives the empty string. */
  function Join(pieces: seq<string>, sep: char): string
  {
    if |pieces| == 0 then []
    else if |pieces| == 1 then pieces[0]
    else pieces[0] + [sep] + Join(pieces[1..], sep)
  }

  lemma {:induction false} JoinSplit(s: string, sep: char)
    ensures Join(Split(s, sep), sep) == s
  {
    if s != [] {
      var rest := Split(s[1..], sep);
      JoinSplit(s[1..], sep);
      if s[0] == sep {
        assert Split(s, sep)[1..] == rest;
      } else if |rest| > 1 {
        assert Split(s, sep)[1..] == rest[1..];
        assert Join(rest, sep) == rest[0] + [sep] + Join(rest[1..], sep);
      }
    }
  }

  lemma {:induction false} SplitJoin(pieces: seq<string>, sep: char)
    requires |pieces| >= 1
    requires forall i :: 0 <= i < |pieces| ==> sep !in pieces[i]
    ensures Split(Join(pieces, sep), sep) == pieces
  {
    if |pieces| == 1 {
      SplitNoSeparator(pieces[0], sep);
    } else {
      SplitJoin(pieces[1..], sep);
      var tail := Join(pieces[1..], sep);
      SplitConcat(pieces[0], tail, sep);
      SplitNoSeparator(pieces[0], sep);
      assert Join(pieces, sep) == pieces[0] + [sep] + tail;
      assert [pieces[0]] + pieces[1..] == pieces;
    }
  }

  lemma {:induction false} SplitNoSeparator(s: string, sep: char)
    requires sep !in s
    ensures Split(s, sep) == [s]
  {
    if s != [] {
      SplitNoSeparator(s[1..], sep);
      assert [s[0]] + s[1..] == s;
    }
  }

  /** One step of `Split`: the first character either ends a piece or joins the first one. */
  lemma SplitCons(c: char, t: string, sep: char)
    ensures Split([c] + t, sep) ==
            if c == sep then [[]] + Split(t, sep) else [[c] + Split(t, sep)[0]] + Split(t, sep)[1..]
  {
    assert ([c] + t)[0] == c;
    assert ([c] + t)[1..] == t;
  }

  /** Splitting is compositional at a separator: order of the pieces is preserved. */
  lemma {:induction false} SplitConcat(a: string, b: string, sep: char)
    ensures Split(a + [sep] + b, sep) == Split(a, sep) + Split(b, sep)
  {
    if a == [] {
      assert a + [sep] + b == [sep] + b;
      SplitCons(sep, b, sep);
    } else {
      SplitConcat(a[1..], b, sep);
      SplitConcatStep(a[0], a[1..], b, sep);
      assert a == [a[0]] + a[1..];
      assert a + [sep] + b == [a[0]] + (a[1..] + [sep] + b);
    }
  }

  lemma SplitConcatStep(c: char, a: string, b: string, sep: char)
    requires Split(a + [sep] + b, sep) == Split(a, sep) + Split(b, sep)
    ensures Split([c] + (a + [sep] + b), sep) == Split([c] + a, sep) + Split(b, sep)
  {
    SplitCons(c, a + [sep] + b, sep);
    SplitCons(c, a, sep);
    PiecesAlgebra(c == sep, [c], Split(a, sep), Split(b, sep));
  }

  /** How the first character's piece combines with the pieces after it. */
  lemma PiecesAlgebra(isSep: bool, c: string, ra: seq<string>, rb: seq<string>)
    requires |ra| >= 1
    ensures (if isSep then [[]] + (ra + rb) else [c + (ra + rb)[0]] + (ra + rb)[1..]) ==
            (if isSep then [[]] + ra else [c + ra[0]] + ra[1..]) + rb
  {
    if !isSep {
      assert (ra + rb)[1..] == ra[1..] + rb;
    }
  }

  /** A separator-free piece followed by a separator is split off as the first piece. */
  lemma SplitFirstPiece(a: string, rest: string, sep: char)
    requires sep !in a
    ensures Split(a + [sep] + rest, sep) == [a] + Split(rest, sep)
  {
    SplitConcat(a, rest, sep);
    SplitNoSeparator(a, sep);
  }

  /** The characters `String.prototype.trim` strips: white space and line terminators. */
  predicate IsWhitespace(c: char)
  {
    c == '\t' || c == '\n' || c == '\U{000B}' || c == '\U{000C}' || c == '\r' || c == ' ' ||
    c == '\U{00A0}' || c == '\U{1680}' || ('\U{2000}' <= c <= '\U{200A}') ||
    c == '\U{2028}' || c == '\U{2029}' || c == '\U{202F}' || c == '\U{205F}' ||
    c == '\U{3000}' || c == '\U{FEFF}'
  }

  /** `s.trimStart()`. */
  function TrimStart(s: string): string
  {
    if s != [] && IsWhitespace(s[0]) then TrimStart(s[1..]) else s
  }

  /** `s.trimEnd()`. */
  function TrimEnd(s: string): string
  {
    if s != [] && IsWhitespace(s[|s| - 1]) then TrimEnd(s[..|s| - 1]) else s
  }

  /** TrimStart keeps a suffix of its input ... */
  lemma {:induction false} TrimStartSuffix(s: string)
    ensures |TrimStart(s)| <= |s| && TrimStart(s) == s[|s| - |TrimStart(s)|..]
  {
    if s != [] && IsWhitespace(s[0]) {
      TrimStartSuffix(s[1..]);
      var r := TrimStart(s[1..]);
      assert s[1..][|s| - 1 - |r|..] == s[|s| - |r|..];
    }
  }

  /** ... that does not start with white space ... */
  lemma {:induction false} TrimStartFirst(s: string)
    ensures TrimStart(s) == [] || !IsWhitespace(TrimStart(s)[0])
  {
    if s != [] && IsWhitespace(s[0]) {
      TrimStartFirst(s[1..]);
    }
  }

  /** ... and what it removes is white space only. */
  lemma {:induction false} TrimStartRemovesOnlySpace(s: string)
    ensures forall i :: 0 <= i < |s| - |TrimStart(s)| ==> IsWhitespace(s[i])
  {
    if s != [] && IsWhitespace(s[0]) {
      TrimStartRemovesOnlySpace(s[1..]);
      assert forall i :: 1 <= i < |s| ==> s[i] == s[1..][i - 1];
    }
  }

  /** TrimEnd keeps a prefix of its input ... */
  lemma {:induction false} TrimEndPrefix(s: string)
    ensures |TrimEnd(s)| <= |s| && TrimEnd(s) == s[..|TrimEnd(s)|]
  {
    if s != [] && IsWhitespace(s[|s| - 1]) {
      TrimEndPrefix(s[..|s| - 1]);
      var r := TrimEnd(s[..|s| - 1]);
      assert s[..|s| - 1][..|r|] == s[..|r|];
    }
  }

  /** ... that does not end with white space ... */
  lemma {:induction false} TrimEndLast(s: string)
    ensures TrimEnd(s) == [] || !IsWhitespace(TrimEnd(s)[|TrimEnd(s)| - 1])
  {
    if s != [] && IsWhitespace(s[|s| - 1]) {
      TrimEndLast(s[..|s| - 1]);
    }
  }

  /** ... and what it removes is white space only. */
  lemma {:induction false} TrimEndRemovesOnlySpace(s: string)
    ensures forall i :: |TrimEnd(s)| <= i < |s| ==> IsWhitespace(s[i])
  {
    if s != [] && IsWhitespace(s[|s| - 1]) {
      TrimEndRemovesOnlySpace(s[..|s| - 1]);
      assert forall i :: 0 <= i < |s| - 1 ==> s[i] == s[..|s| - 1][i];
    }
  }

  /** Neither starts nor ends with white space. */
  predicate IsTrimmed(s: string)
  {
    s == [] || (!IsWhitespace(s[0]) && !IsWhitespace(s[|s| - 1]))
  }

  /** `s.trim()`: the part of `s` between its leading and trailing white space. */
  function Trim(s: string): string
  {
    TrimEnd(TrimStart(s))
  }

  /** Trimming only shortens, and what it gives is trimmed. */
  lemma TrimIsTrimmed(s: string)
    ensures |Trim(s)| <= |s| && IsTrimmed(Trim(s))
  {
    var t := TrimStart(s);
    TrimStartSuffix(s);
    TrimStartFirst(s);
    TrimEndPrefix(t);
    TrimEndLast(t);
    var r := TrimEnd(t);
    if r != [] {
      assert r[0] == t[0];
    }
  }

  /** Trimming leaves a trimmed string as it is, so trimming twice is trimming once. */
  lemma TrimKeepsTrimmed(s: string)
    requires IsTrimmed(s)
    ensures Trim(s) == s
  {
  }

  /** Trimming removes exactly the white space around a trimmed, non-empty core. */
  lemma TrimSurrounded(pre: string, core: string, post: string)
    requires forall i :: 0 <= i < |pre| ==> IsWhitespace(pre[i])
    requires forall i :: 0 <= i < |post| ==> IsWhitespace(post[i])
    requires core != "" && IsTrimmed(core)
    ensures Trim(pre + core + post) == core
  {
    TrimStartSkips(pre, core + post);
    assert pre + core + post == pre + (core + post);
    TrimEndSkips(core, post);
  }

  lemma {:induction false} TrimStartSkips(pre: string, s: string)
    requires forall i :: 0 <= i < |pre| ==> IsWhitespace(pre[i])
    requires s == [] || !IsWhitespace(s[0])
    ensures TrimStart(pre + s) == s
  {
    if pre != [] {
      assert (pre + s)[1..] == pre[1..] + s;
      TrimStartSkips(pre[1..], s);
    }
  }

  lemma {:induction false} TrimEndSkips(s: string, post: string)
    requires forall i :: 0 <= i < |post| ==> IsWhitespace(post[i])
    requires s == [] || !IsWhitespace(s[|s| - 1])
    ensures TrimEnd(s + post) == s
  {
    if post != [] {
      assert (s + post)[..|s + post| - 1] == s + post[..|post| - 1];
      TrimEndSkips(s, post[..|post| - 1]);
    }
  }

  /** Trimming only removes characters. */
  lemma TrimSubstring(s: string, c: char)
    requires c !in s
    ensures c !in Trim(s)
  {
    var t := TrimStart(s);
    TrimStartSuffix(s);
    SliceLacks(s, c, |s| - |t|, |s|);
    TrimEndPrefix(t);
    SliceLacks(t, c, 0, |TrimEnd(t)|);
  }

  lemma SliceLacks(s: string, c: char, lo: nat, hi: nat)
    requires c !in s && lo <= hi <= |s|
    ensures c !in s[lo..hi]
  {
    assert forall k :: 0 <= k < hi - lo ==> s[lo..hi][k] == s[lo + k];
  }

  /** `s.replace(/x/g, y)` for one character `x` and one character `y`. */
  function ReplaceChar(s: string, from: char, to: char): (r: string)
    ensures |r| == |s|
    ensures forall i :: 0 <= i < |s| ==> r[i] == if s[i] == from then to else s[i]
  {
    seq(|s|, i requires 0 <= i < |s| => if s[i] == from then to else s[i])
  }

  lemma ReplaceCharRemoves(s: string, from: char, to: char)
    requires from != to
    ensures from !in ReplaceChar(s, from, to)
    ensures from !in s ==> ReplaceChar(s, from, to) == s
  {
    var r := ReplaceChar(s, from, to);
    assert forall i :: 0 <= i < |r| ==> r[i] != from;
  }

  lemma ReplaceCharConcat(a: string, b: string, from: char, to: char)
    ensures ReplaceChar(a + b, from, to) == ReplaceChar(a, from, to) + ReplaceChar(b, from, to)
  {
  }

  /** `s || fallback` on strings: the empty string is falsy. */
  function OrDefault(s: string, fallback: string): (r: string)
    ensures s != "" ==> r == s
    ensures s == "" ==> r == fallback
  {
    if s != "" then s else fallback
  }
}
