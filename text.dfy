/** Python `str` operations the extraction code relies on, as functions on
    `string` (a sequence of Unicode scalar values): `count`, `startswith`,
    `find`/`rfind`, `strip`, `split` on one character, `join`, `replace` of
    one character, `str(n)` for a natural number and `int(s)` for text. */
module PyText {

  /** `c.isspace()` for the characters that `str.strip()` removes. */
  predicate IsSpace(c: char) {
    c == ' ' || ('\t' <= c <= '\r') || ('\U{1C}' <= c <= '\U{1F}')
    || c == '\U{85}' || c == '\U{A0}' || c == '\U{1680}'
    || ('\U{2000}' <= c <= '\U{200A}') || c == '\U{2028}' || c == '\U{2029}'
    || c == '\U{202F}' || c == '\U{205F}' || c == '\U{3000}'
  }

  predicate AllSpace(s: string) {
    forall i :: 0 <= i < |s| ==> IsSpace(s[i])
  }

  /** `s.count(c)` for a one-character needle. */
  function CountChar(s: string, c: char): nat {
    if |s| == 0 then 0 else (if s[0] == c then 1 else 0) + CountChar(s[1..], c)
  }

  lemma {:induction false} CountConcat(a: string, b: string, c: char)
    ensures CountChar(a + b, c) == CountChar(a, c) + CountChar(b, c)
  {
    if |a| == 0 {
      assert a + b == b;
    } else {
      assert (a + b)[1..] == a[1..] + b;
      CountConcat(a[1..], b, c);
    }
  }

  lemma {:induction false} CountAbsent(s: string, c: char)
    ensures CountChar(s, c) == 0 <==> c !in s
  {
    if |s| > 0 {
      CountAbsent(s[1..], c);
      assert s == [s[0]] + s[1..];
    }
  }

  lemma {:induction false} CountBound(s: string, c: char)
    ensures CountChar(s, c) <= |s|
  {
    if |s| > 0 { CountBound(s[1..], c); }
  }

  /** `s.startswith(c)`: false on the empty string. */
  predicate StartsWith(s: string, c: char) {
    |s| > 0 && s[0] == c
  }

  /** `s.find(c)`: the first index of `c`, or -1. */
  function IndexOf(s: string, c: char): (r: int)
    ensures -1 <= r < |s|
    ensures r == -1 <==> c !in s
    ensures r >= 0 ==> s[r] == c && c !in s[..r]
  {
    if |s| == 0 then -1
    else if s[0] == c then 0
    else
      var k := IndexOf(s[1..], c);
      assert s == [s[0]] + s[1..];
      if k == -1 then -1 else (assert s[..k + 1] == [s[0]] + s[1..][..k]; k + 1)
  }

  /** `s.rfind(c)`: the last index of `c`, or -1. */
  function LastIndexOf(s: string, c: char): (r: int)
    ensures -1 <= r < |s|
    ensures r == -1 <==> c !in s
    ensures r >= 0 ==> s[r] == c && c !in s[r + 1..]
  {
    if |s| == 0 then -1
    else if s[|s| - 1] == c then |s| - 1
    else
      var k := LastIndexOf(s[..|s| - 1], c);
      LastIndexOfGrow(s, c, k);
      k
  }

  /** A last character other than `c` does not move its last occurrence. */
  lemma LastIndexOfGrow(s: string, c: char, k: int)
    requires |s| > 0 && s[|s| - 1] != c && -1 <= k < |s| - 1
    requires k == -1 <==> c !in s[..|s| - 1]
    requires k >= 0 ==> c !in s[..|s| - 1][k + 1..]
    ensures k == -1 <==> c !in s
    ensures k >= 0 ==> c !in s[k + 1..]
  {
    assert s == s[..|s| - 1] + [s[|s| - 1]];
    if k >= 0 {
      assert s[k + 1..] == s[..|s| - 1][k + 1..] + [s[|s| - 1]];
    }
  }

  /** `s.lstrip()`, `s.rstrip()` and `s.strip()` with no argument. */
  function TrimLeft(s: string): string {
    if |s| > 0 && IsSpace(s[0]) then TrimLeft(s[1..]) else s
  }

  function TrimRight(s: string): string {
    if |s| > 0 && IsSpace(s[|s| - 1]) then TrimRight(s[..|s| - 1]) else s
  }

  function Strip(s: string): string {
    TrimRight(TrimLeft(s))
  }

  /** A character that is not white space survives `strip()` in every count. */
  lemma {:induction false} CountTrimLeft(s: string, c: char)
    requires !IsSpace(c)
    ensures CountChar(TrimLeft(s), c) == CountChar(s, c)
  {
    if |s| > 0 && IsSpace(s[0]) { CountTrimLeft(s[1..], c); }
  }

  lemma {:induction false} CountTrimRight(s: string, c: char)
    requires !IsSpace(c)
    ensures CountChar(TrimRight(s), c) == CountChar(s, c)
  {
    if |s| > 0 && IsSpace(s[|s| - 1]) {
      var t := s[..|s| - 1];
      CountTrimRight(t, c);
      assert s == t + [s[|s| - 1]];
      CountConcat(t, [s[|s| - 1]], c);
    }
  }

  lemma CountStrip(s: string, c: char)
    requires !IsSpace(c)
    ensures CountChar(Strip(s), c) == CountChar(s, c)
  {
    CountTrimLeft(s, c);
    CountTrimRight(TrimLeft(s), c);
  }

  lemma {:induction false} TrimLeftIdle(s: string)
    requires |s| == 0 || !IsSpace(s[0])
    ensures TrimLeft(s) == s
  {
  }

  lemma {:induction false} TrimRightIdle(s: string)
    requires |s| == 0 || !IsSpace(s[|s| - 1])
    ensures TrimRight(s) == s
  {
  }

  /** `strip()` keeps a stretch of its argument, so it adds no character. */
  lemma {:induction false} StripFree(s: string, c: char)
    requires c !in s
    ensures c !in Strip(s)
  {
    TrimLeftFree(s, c);
    TrimRightFree(TrimLeft(s), c);
  }

  lemma {:induction false} TrimLeftFree(s: string, c: char)
    requires c !in s
    ensures c !in TrimLeft(s)
  {
    if |s| > 0 && IsSpace(s[0]) {
      assert forall i :: 0 <= i < |s[1..]| ==> s[1..][i] == s[i + 1];
      TrimLeftFree(s[1..], c);
    }
  }

  lemma {:induction false} TrimRightFree(s: string, c: char)
    requires c !in s
    ensures c !in TrimRight(s)
  {
    if |s| > 0 && IsSpace(s[|s| - 1]) {
      assert forall i :: 0 <= i < |s| - 1 ==> s[..|s| - 1][i] == s[i];
      TrimRightFree(s[..|s| - 1], c);
    }
  }

  /** `strip()` leaves a string alone when neither end is white space. */
  lemma StripIdle(s: string)
    requires |s| == 0 || (!IsSpace(s[0]) && !IsSpace(s[|s| - 1]))
    ensures Strip(s) == s
  {
    TrimLeftIdle(s);
    TrimRightIdle(s);
  }

  /** `strip()` removes leading white space and nothing more. */
  lemma {:induction false} StripLeadingSpace(w: string, s: string)
    requires AllSpace(w)
    requires |s| > 0 && !IsSpace(s[0]) && !IsSpace(s[|s| - 1])
    ensures Strip(w + s) == s
  {
    if |w| == 0 {
      assert w + s == s;
      StripIdle(s);
    } else {
      assert (w + s)[1..] == w[1..] + s;
      StripLeadingSpace(w[1..], s);
    }
  }

  /** `s.split(c)`: the pieces between occurrences of `c`; never empty. */
  function Split(s: string, c: char): (r: seq<string>)
    ensures |r| >= 1
  {
    if |s| == 0 then [""]
    else if s[0] == c then [""] + Split(s[1..], c)
    else
      var rest := Split(s[1..], c);
      [[s[0]] + rest[0]] + rest[1..]
  }

  /** `sep.join(parts)`. */
  function Join(parts: seq<string>, sep: string): string {
    if |parts| == 0 then ""
    else if |parts| == 1 then parts[0]
    else parts[0] + sep + Join(parts[1..], sep)
  }

  /** Splitting on `c` and joining with `c` gives the text back. */
  lemma {:induction false} JoinSplit(s: string, c: char)
    ensures Join(Split(s, c), [c]) == s
  {
    if |s| == 0 {
    } else if s[0] == c {
      JoinSplit(s[1..], c);
      var rest := Split(s[1..], c);
      assert Join([""] + rest, [c]) == "" + [c] + Join(rest, [c]) by {
        assert ([""] + rest)[1..] == rest;
      }
    } else {
      JoinSplit(s[1..], c);
      var rest := Split(s[1..], c);
      var r := [[s[0]] + rest[0]] + rest[1..];
      assert r[1..] == rest[1..];
      if |rest| == 1 {
        assert Join(r, [c]) == [s[0]] + rest[0];
      } else {
        assert Join(rest, [c]) == rest[0] + [c] + Join(rest[1..], [c]);
        assert Join(r, [c]) == ([s[0]] + rest[0]) + [c] + Join(rest[1..], [c]);
      }
    }
  }

  /** No piece of a split contains the separator. */
  lemma {:induction false} SplitPiecesFree(s: string, c: char)
    ensures forall i :: 0 <= i < |Split(s, c)| ==> c !in Split(s, c)[i]
  {
    if |s| > 0 {
      SplitPiecesFree(s[1..], c);
      var rest := Split(s[1..], c);
      if s[0] != c {
        var r := [[s[0]] + rest[0]] + rest[1..];
        forall i | 0 <= i < |r| ensures c !in r[i] {
          if i == 0 { assert c !in rest[0]; } else { assert r[i] == rest[i]; }
        }
      } else {
        forall i | 0 <= i < |Split(s, c)| ensures c !in Split(s, c)[i] {
          if i > 0 { assert Split(s, c)[i] == rest[i - 1]; }
        }
      }
    }
  }

  /** Joining pieces free of `c` with `c` and splitting on `c` gives the pieces back. */
  lemma {:induction false} SplitJoin(parts: seq<string>, c: char)
    requires |parts| >= 1
    requires forall i :: 0 <= i < |parts| ==> c !in parts[i]
    ensures Split(Join(parts, [c]), c) == parts
  {
    if |parts| == 1 {
      SplitFree(parts[0], c);
    } else {
      SplitJoin(parts[1..], c);
      SplitPrefix(parts[0], Join(parts[1..], [c]), c);
      assert parts == [parts[0]] + parts[1..];
    }
  }

  lemma {:induction false} SplitFree(s: string, c: char)
    requires c !in s
    ensures Split(s, c) == [s]
  {
    if |s| > 0 {
      SplitFree(s[1..], c);
      assert s == [s[0]] + s[1..];
    }
  }

  lemma {:induction false} SplitPrefix(a: string, b: string, c: char)
    requires c !in a
    ensures Split(a + [c] + b, c) == [a] + Split(b, c)
  {
    if |a| == 0 {
      assert a + [c] + b == [c] + b;
      assert ([c] + b)[1..] == b;
    } else {
      assert (a + [c] + b)[1..] == a[1..] + [c] + b;
      SplitPrefix(a[1..], b, c);
      assert [a[0]] + a[1..] == a;
    }
  }

  /** How many pieces a join of `n` pieces with a one-character separator leaves. */
  lemma {:induction false} CountJoin(parts: seq<string>, c: char)
    requires forall i :: 0 <= i < |parts| ==> c !in parts[i]
    ensures |parts| >= 1 ==> CountChar(Join(parts, [c]), c) == |parts| - 1
  {
    if |parts| == 1 {
      CountAbsent(parts[0], c);
    } else if |parts| > 1 {
      CountJoin(parts[1..], c);
      CountAbsent(parts[0], c);
      CountConcat(parts[0] + [c], Join(parts[1..], [c]), c);
      CountConcat(parts[0], [c], c);
    }
  }

  /** Joining two runs of pieces is joining each and putting one separator between. */
  lemma {:induction false} JoinAppend(f: seq<string>, g: seq<string>, sep: string)
    requires |f| >= 1 && |g| >= 1
    ensures Join(f + g, sep) == Join(f, sep) + sep + Join(g, sep)
  {
    if |f| == 1 {
      assert (f + g)[1..] == g;
    } else {
      assert (f + g)[1..] == f[1..] + g;
      JoinAppend(f[1..], g, sep);
    }
  }

  /** A character in neither the pieces nor the separator is not in the join. */
  lemma {:induction false} JoinFree(parts: seq<string>, sep: string, c: char)
    requires c !in sep
    requires forall i :: 0 <= i < |parts| ==> c !in parts[i]
    ensures c !in Join(parts, sep)
  {
    if |parts| > 1 {
      JoinFree(parts[1..], sep, c);
    }
  }

  /** `rfind` finds the occurrence after which the character no longer appears. */
  lemma LastIndexOfAt(a: string, b: string, c: char)
    requires c !in b
    ensures LastIndexOf(a + [c] + b, c) == |a|
  {
    var s := a + [c] + b;
    var r := LastIndexOf(s, c);
    assert s[|a|] == c;
    assert s[|a| + 1..] == b;
  }

  /** `s.replace(a, b)` for one character by one character. */
  function ReplaceChar(s: string, a: char, b: char): (r: string)
    ensures |r| == |s|
    ensures forall i :: 0 <= i < |s| ==> r[i] == (if s[i] == a then b else s[i])
  {
    if |s| == 0 then "" else [if s[0] == a then b else s[0]] + ReplaceChar(s[1..], a, b)
  }

  lemma {:induction false} ReplaceRemoves(s: string, a: char, b: char)
    requires a != b
    ensures a !in ReplaceChar(s, a, b)
  {
    var r := ReplaceChar(s, a, b);
    forall i | 0 <= i < |r| ensures r[i] != a { }
  }

  predicate IsDigit(c: char) { '0' <= c <= '9' }

  function DigitChar(d: nat): char
    requires d < 10
  {
    "0123456789"[d]
  }

  /** `str(n)` for a natural number. */
  function NatToString(n: nat): (r: string)
    ensures |r| >= 1
    ensures forall i :: 0 <= i < |r| ==> IsDigit(r[i])
    decreases n
  {
    if n < 10 then [DigitChar(n)] else NatToString(n / 10) + [DigitChar(n % 10)]
  }

  function DigitValue(c: char): nat
    requires IsDigit(c)
  {
    (c as int) - ('0' as int)
  }

  /** The value of a run of decimal digits, most significant first. */
  function DigitsValue(s: string): nat
    requires forall i :: 0 <= i < |s| ==> IsDigit(s[i])
  {
    if |s| == 0 then 0 else DigitsValue(s[..|s| - 1]) * 10 + DigitValue(s[|s| - 1])
  }

  /** `str(n)` is read back as `n`. */
  lemma {:induction false} NatToStringValue(n: nat)
    ensures DigitsValue(NatToString(n)) == n
  {
    if n >= 10 {
      NatToStringValue(n / 10);
      var r := NatToString(n);
      assert r[..|r| - 1] == NatToString(n / 10);
    }
  }

  /** `str(n)` tells numbers apart. */
  lemma NatToStringInjective(m: nat, n: nat)
    requires NatToString(m) == NatToString(n)
    ensures m == n
  {
    NatToStringValue(m);
    NatToStringValue(n);
  }

  /** The digit groups `int()` accepts: digits, single underscores only between digits. */
  predicate DigitGroups(s: string) {
    |s| > 0 && IsDigit(s[0]) && IsDigit(s[|s| - 1])
    && (forall i :: 0 <= i < |s| ==> IsDigit(s[i]) || s[i] == '_')
    && (forall i :: 0 <= i < |s| - 1 ==> !(s[i] == '_' && s[i + 1] == '_'))
  }

  function DropUnderscores(s: string): (r: string)
    ensures forall i :: 0 <= i < |r| ==> r[i] != '_'
    ensures |r| <= |s|
  {
    if |s| == 0 then "" else (if s[0] == '_' then "" else [s[0]]) + DropUnderscores(s[1..])
  }

  lemma {:induction false} DropUnderscoresDigits(s: string)
    requires forall i :: 0 <= i < |s| ==> IsDigit(s[i]) || s[i] == '_'
    ensures forall i :: 0 <= i < |DropUnderscores(s)| ==> IsDigit(DropUnderscores(s)[i])
  {
    if |s| > 0 { DropUnderscoresDigits(s[1..]); }
  }

  /** `int(s)` for text: white space around, an optional sign, then decimal
      digit groups; `None` stands for the `ValueError` it raises otherwise. */
  function ParseInt(s: string): (r: Option<int>)
    ensures r.Some? ==> |Strip(s)| > 0
  {
    var t := Strip(s);
    if |t| == 0 then None
    else
      var neg := t[0] == '-';
      var body := if t[0] == '-' || t[0] == '+' then t[1..] else t;
      if !DigitGroups(body) then None
      else
        DropUnderscoresDigits(body);
        var v: int := DigitsValue(DropUnderscores(body));
        Some(if neg then -v else v)
  }

  lemma {:induction false} DropUnderscoresIdle(s: string)
    requires '_' !in s
    ensures DropUnderscores(s) == s
  {
    if |s| > 0 {
      assert '_' !in s[1..];
      DropUnderscoresIdle(s[1..]);
    }
  }

  /** A digit string is its own digit groups and has nothing to strip. */
  lemma DigitsPlain(s: string)
    requires |s| > 0 && forall i :: 0 <= i < |s| ==> IsDigit(s[i])
    ensures Strip(s) == s && DigitGroups(s) && DropUnderscores(s) == s
  {
    assert !IsSpace(s[0]) && !IsSpace(s[|s| - 1]);
    StripIdle(s);
    assert '_' !in s by {
      forall i | 0 <= i < |s| ensures s[i] != '_' { assert IsDigit(s[i]); }
    }
    DropUnderscoresIdle(s);
  }

  /** `int()` of a digit string is its value. */
  lemma ParseIntDigits(s: string)
    requires Strip(s) == s && DigitGroups(s) && DropUnderscores(s) == s
    requires forall i :: 0 <= i < |s| ==> IsDigit(s[i])
    ensures ParseInt(s) == Some(DigitsValue(s))
  {
    assert s[0] != '-' && s[0] != '+';
  }

  /** `int(str(n)) == n`. */
  lemma ParseIntNat(n: nat)
    ensures ParseInt(NatToString(n)) == Some(n)
  {
    var s := NatToString(n);
    DigitsPlain(s);
    ParseIntDigits(s);
    NatToStringValue(n);
  }

  /** `drop_duplicates()` on one column: the first of equal values stays,
      in order. */
  function Unique<T(==)>(xs: seq<T>): seq<T> {
    if |xs| == 0 then []
    else
      var kept := Unique(xs[..|xs| - 1]);
      if xs[|xs| - 1] in kept then kept else kept + [xs[|xs| - 1]]
  }

  /** The result has every value of its input, each once. */
  lemma {:induction false} UniqueSpec<T>(xs: seq<T>)
    ensures forall x :: x in Unique(xs) <==> x in xs
    ensures forall i, j :: 0 <= i < j < |Unique(xs)| ==> Unique(xs)[i] != Unique(xs)[j]
    ensures |Unique(xs)| <= |xs|
  {
    if |xs| > 0 {
      UniqueSpec(xs[..|xs| - 1]);
      assert xs == xs[..|xs| - 1] + [xs[|xs| - 1]];
    }
  }

  /** `ys` is `xs` read at the strictly increasing positions `p`: an
      order-preserving selection. */
  ghost predicate Picks<T>(xs: seq<T>, p: seq<nat>, ys: seq<T>) {
    && |p| == |ys|
    && (forall k :: 0 <= k < |p| ==> p[k] < |xs| && ys[k] == xs[p[k]])
    && (forall k, l :: 0 <= k < l < |p| ==> p[k] < p[l])
  }

  /** The positions `i` where `xs[i]` occurs for the first time. */
  function FirstPositions<T(==)>(xs: seq<T>): seq<nat> {
    if |xs| == 0 then []
    else FirstPositions(xs[..|xs| - 1]) + (if xs[|xs| - 1] in xs[..|xs| - 1] then [] else [|xs| - 1])
  }

  /** `ys` keeps the first occurrence of every value of `xs`, in the order of
      `xs`: it is `xs` read at exactly the positions `i` with `xs[i]` not in
      `xs[..i]`. */
  ghost predicate FirstOccurrences<T>(xs: seq<T>, ys: seq<T>) {
    exists p :: Picks(xs, p, ys) && forall i :: 0 <= i < |xs| ==> (i in p <==> xs[i] !in xs[..i])
  }

  lemma {:induction false} FirstPositionsSpec<T>(xs: seq<T>)
    ensures Picks(xs, FirstPositions(xs), Unique(xs))
    ensures forall i :: 0 <= i < |xs| ==> (i in FirstPositions(xs) <==> xs[i] !in xs[..i])
  {
    if |xs| > 0 {
      var n := |xs| - 1;
      var init := xs[..n];
      FirstPositionsSpec(init);
      UniqueSpec(init);
      var p := FirstPositions(init);
      forall i | 0 <= i < n ensures init[i] == xs[i] && init[..i] == xs[..i] {}
      forall i | 0 <= i < |xs| ensures (i in FirstPositions(xs) <==> xs[i] !in xs[..i]) {
        if i == n {
          assert n !in p;
        }
      }
    }
  }

  /** `drop_duplicates` keeps first occurrences in order. */
  lemma UniqueOrder<T>(xs: seq<T>)
    ensures FirstOccurrences(xs, Unique(xs))
  {
    FirstPositionsSpec(xs);
  }

  datatype Option<+T> = None | Some(value: T)
}
