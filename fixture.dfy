/** The list that `test.py` copies to the clipboard before repairing it: a
    notification list as SAP prints it, in which four records are wrapped
    onto a second line. Each line is written as the pipe-separated cells it
    consists of; the repairs are first proved for any list of that shape and
    then applied to the lines themselves. */
module RepairFixture {
  import opened PyText
  import opened ClipboardRepair

  /** A printed table line: cells separated by pipes. */
  function Row(cells: seq<string>): string {
    Join(cells, "|")
  }

  /** Cells that hold neither a pipe nor a line break. */
  predicate PlainCells(cells: seq<string>) {
    forall i :: 0 <= i < |cells| ==> '|' !in cells[i] && '\n' !in cells[i]
  }

  /** Text made of printable characters other than the pipe: no control
      character, so no line break, comes before the blank. */
  predicate Printable(s: string) {
    forall i :: 0 <= i < |s| ==> ' ' <= s[i] && s[i] != '|'
  }

  /** Cell `k`, if there is one, is printable. */
  predicate CleanAt(cells: seq<string>, k: nat) {
    k >= |cells| || Printable(cells[k])
  }

  /** The cells `lo` to `hi` (those that exist) are printable. */
  predicate PlainSpan(cells: seq<string>, lo: nat, hi: nat) {
    forall k :: lo <= k < hi && k < |cells| ==> Printable(cells[k])
  }

  /** Six cells in a row, checked one by one. */
  lemma SixCells(cells: seq<string>, lo: nat)
    requires CleanAt(cells, lo) && CleanAt(cells, lo + 1) && CleanAt(cells, lo + 2)
    requires CleanAt(cells, lo + 3) && CleanAt(cells, lo + 4) && CleanAt(cells, lo + 5)
    ensures PlainSpan(cells, lo, lo + 6)
  {
    forall k | lo <= k < lo + 6 && k < |cells| ensures Printable(cells[k]) {
      if k == lo { assert CleanAt(cells, lo); }
      else if k == lo + 1 { assert CleanAt(cells, lo + 1); }
      else if k == lo + 2 { assert CleanAt(cells, lo + 2); }
      else if k == lo + 3 { assert CleanAt(cells, lo + 3); }
      else if k == lo + 4 { assert CleanAt(cells, lo + 4); }
      else { assert CleanAt(cells, lo + 5); }
    }
  }

  /** A row of at most twelve printable cells is plain. */
  lemma PlainRow(cells: seq<string>)
    requires |cells| <= 12 && PlainSpan(cells, 0, 6) && PlainSpan(cells, 6, 12)
    ensures PlainCells(cells)
  {
    forall i | 0 <= i < |cells| ensures '|' !in cells[i] && '\n' !in cells[i] {
      if i < 6 { assert PlainSpan(cells, 0, 6); } else { assert PlainSpan(cells, 6, 12); }
      PrintablePlain(cells[i]);
    }
  }

  lemma PrintablePlain(s: string)
    requires Printable(s)
    ensures '|' !in s && '\n' !in s
  {
    forall i | 0 <= i < |s| ensures s[i] != '\n' {
      assert ' ' <= s[i];
    }
  }


  /** The pipes and the ends of a printed line. */
  lemma RowFacts(cells: seq<string>)
    requires |cells| >= 2 && PlainCells(cells)
    ensures CountChar(Row(cells), '|') == |cells| - 1
    ensures '\n' !in Row(cells)
    ensures |Row(cells)| >= 1
    ensures cells[0] == "" ==> Row(cells)[0] == '|'
    ensures |cells[0]| > 0 ==> Row(cells)[0] == cells[0][0]
    ensures cells[|cells| - 1] == "" ==> Row(cells)[|Row(cells)| - 1] == '|'
  {
    CountJoin(cells, '|');
    JoinFree(cells, "|", '\n');
    RowSnoc(cells);
  }

  lemma RowSnoc(f: seq<string>)
    requires |f| >= 2
    ensures Row(f) == Row(f[..|f| - 1]) + "|" + f[|f| - 1]
  {
    var n := |f|;
    assert f == f[..n - 1] + [f[n - 1]];
    JoinAppend(f[..n - 1], [f[n - 1]], "|");
  }

  /** When the last cell holds no pipe, a line runs through its last pipe up
      to the start of that cell. */
  lemma ThroughLastPipeRow(f: seq<string>)
    requires |f| >= 2 && '|' !in f[|f| - 1]
    ensures ThroughLastPipe(Row(f)) == Row(f[..|f| - 1]) + "|"
  {
    RowSnoc(f);
    LastIndexOfAt(Row(f[..|f| - 1]), f[|f| - 1], '|');
  }

  lemma RowSpaced(g: seq<string>)
    requires |g| >= 1
    ensures Row([" " + g[0]] + g[1..]) == " " + Row(g)
  {
    var h := [" " + g[0]] + g[1..];
    if |g| >= 2 {
      assert h[1..] == g[1..];
    }
  }

  /** The current revision's merge of a line into the one before it: the
      cell after the last pipe is replaced by the cells of the second line. */
  lemma MergedRow(f: seq<string>, line: string, g: seq<string>)
    requires |f| >= 2 && |g| >= 1 && '|' !in f[|f| - 1]
    requires Strip(line) == Row(g)
    ensures Merged(Row(f), line) == Row(f[..|f| - 1] + g)
  {
    ThroughLastPipeRow(f);
    JoinAppend(f[..|f| - 1], g, "|");
  }

  /** The earlier revision's merge: the same, with a space in front of the
      second line's first cell. */
  lemma LegacyMergedRow(f: seq<string>, line: string, g: seq<string>)
    requires |f| >= 2 && |g| >= 1 && '|' !in f[|f| - 1]
    requires Strip(line) == Row(g)
    ensures LegacyMerged(Row(f), line) == Row(f[..|f| - 1] + [" " + g[0]] + g[1..])
  {
    var a := f[..|f| - 1];
    var h := [" " + g[0]] + g[1..];
    ThroughLastPipeRow(f);
    RowSpaced(g);
    JoinAppend(a, h, "|");
    assert a + [" " + g[0]] + g[1..] == a + h;
    assert (Row(a) + "|") + " " + Row(g) == Row(a) + "|" + (" " + Row(g));
  }

  /** A line that starts with blanks before its first pipe strips to the line
      without them. */
  lemma StripIndentedRow(w: string, h: seq<string>)
    requires AllSpace(w) && |h| >= 1 && h[|h| - 1] == "" && PlainCells(h)
    ensures Strip(Row([w] + h)) == Row([""] + h)
  {
    assert ([w] + h)[1..] == h && ([""] + h)[1..] == h;
    var rest := "|" + Row(h);
    assert Row([w] + h) == w + rest;
    assert Row([""] + h) == rest;
    if |h| >= 2 {
      RowFacts(h);
    }
    StripLeadingSpace(w, rest);
  }

  /** A row that starts with a non-blank cell and ends with a pipe has no
      blanks to strip. */
  lemma RowStripped(cells: seq<string>)
    requires |cells| >= 2 && PlainCells(cells)
    requires |cells[0]| > 0 && !IsSpace(cells[0][0]) && cells[|cells| - 1] == ""
    ensures Strip(Row(cells)) == Row(cells)
  {
    RowFacts(cells);
    StripIdle(Row(cells));
  }

  /** The earlier revision's merge of a line stripping to a row that starts
      with an empty cell. */
  lemma LegacyMergedBlank(f: seq<string>, line: string, h: seq<string>)
    requires |f| >= 2 && '|' !in f[|f| - 1]
    requires Strip(line) == Row([""] + h)
    ensures LegacyMerged(Row(f), line) == Row(f[..|f| - 1] + [" "] + h)
  {
    var g := [""] + h;
    LegacyMergedRow(f, line, g);
    assert g[0] == "" && g[1..] == h && " " + "" == " ";
  }

  lemma LinesFreeCons(line: string, rest: seq<string>)
    requires '\n' !in line && LinesFree(rest, '\n')
    ensures LinesFree([line] + rest, '\n')
  {
    assert forall i :: 1 <= i < |rest| + 1 ==> ([line] + rest)[i] == rest[i - 1];
  }

  /** A line without a line break. */
  predicate Unbroken(line: string) {
    '\n' !in line
  }

  /** A line that opens with a pipe, as every record line does. */
  predicate Opens(line: string) {
    StartsWith(line, '|')
  }

  /** The number of pipes in a line. */
  function Pipes(line: string): nat {
    CountChar(line, '|')
  }

  /** A list of nineteen lines, none of which holds a line break. */
  lemma ListUnbroken(lines: seq<string>, r: string, h: string, a03: string, a04: string, a05: string, a06: string, a07: string, a08: string, a09: string, a10: string, a11: string, a12: string, a13: string, a14: string, a15: string, a16: string, a17: string, a18: string)
    requires lines == [r, h, r] + [a03, a04, a05, a06, a07, a08, a09, a10, a11, a12, a13, a14, a15, a16, a17, a18]
    requires Unbroken(r) && Unbroken(h) && Unbroken(a03) && Unbroken(a04) && Unbroken(a05) && Unbroken(a06)
    requires Unbroken(a07) && Unbroken(a08) && Unbroken(a09) && Unbroken(a10) && Unbroken(a11) && Unbroken(a12)
    requires Unbroken(a13) && Unbroken(a14) && Unbroken(a15) && Unbroken(a16) && Unbroken(a17) && Unbroken(a18)
    ensures LinesFree(lines, '\n')
  {
    forall i | 0 <= i < |lines| ensures '\n' !in lines[i] {
      if i == 0 { assert lines[i] == r; }
      else if i == 1 { assert lines[i] == h; }
      else if i == 2 { assert lines[i] == r; }
      else if i == 3 { assert lines[i] == a03; }
      else if i == 4 { assert lines[i] == a04; }
      else if i == 5 { assert lines[i] == a05; }
      else if i == 6 { assert lines[i] == a06; }
      else if i == 7 { assert lines[i] == a07; }
      else if i == 8 { assert lines[i] == a08; }
      else if i == 9 { assert lines[i] == a09; }
      else if i == 10 { assert lines[i] == a10; }
      else if i == 11 { assert lines[i] == a11; }
      else if i == 12 { assert lines[i] == a12; }
      else if i == 13 { assert lines[i] == a13; }
      else if i == 14 { assert lines[i] == a14; }
      else if i == 15 { assert lines[i] == a15; }
      else if i == 16 { assert lines[i] == a16; }
      else if i == 17 { assert lines[i] == a17; }
      else { assert lines[i] == a18; }
    }
  }

  /** Two whole lines and a record wrapped onto two lines. */
  lemma CurrentKeepKeepJoin(processed: seq<string>, merges: nat, a: string, b: string, head: string, tail: string, rest: seq<string>, expected: nat)
    requires Opens(a) && Opens(b) && Opens(head) && !Opens(tail)
    requires Pipes(tail) < expected <= Pipes(head) + Pipes(tail)
    ensures CurrentPass(processed, merges, [a, b, head, tail] + rest, expected) ==
            CurrentPass(processed + [a, b, Merged(head, tail)], merges + 1, rest, expected)
  {
    CurrentKeep(processed, merges, a, [b, head, tail] + rest, expected);
    CurrentKeep(processed + [a], merges, b, [head, tail] + rest, expected);
    CurrentJoin(processed + [a] + [b], merges, head, tail, rest, expected);
    assert [a] + ([b, head, tail] + rest) == [a, b, head, tail] + rest;
    assert [b] + ([head, tail] + rest) == [b, head, tail] + rest;
    assert processed + [a] + [b] + [Merged(head, tail)] == processed + [a, b, Merged(head, tail)];
  }

  /** The first nine record lines of the fixture's shape: three whole lines,
      a wrapped record, two whole lines and a wrapped record. */
  lemma CurrentFirstHalf(processed: seq<string>, merges: nat, a03: string, a04: string, a05: string, a06: string, a07: string, a08: string, a09: string, a10: string, a11: string, rest: seq<string>, expected: nat)
    requires Opens(a03) && Opens(a04) && Opens(a05) && Opens(a06) && Opens(a08) && Opens(a09) && Opens(a10)
    requires !Opens(a07) && !Opens(a11)
    requires Pipes(a07) < expected <= Pipes(a06) + Pipes(a07)
    requires Pipes(a11) < expected <= Pipes(a10) + Pipes(a11)
    ensures CurrentPass(processed, merges, [a03, a04, a05, a06, a07, a08, a09, a10, a11] + rest, expected) ==
            CurrentPass(processed + [a03, a04, a05, Merged(a06, a07), a08, a09, Merged(a10, a11)], merges + 2, rest, expected)
  {
    var t2 := [a08, a09, a10, a11] + rest;
    var t1 := [a04, a05, a06, a07] + t2;
    var p1 := processed + [a03];
    var p2 := p1 + [a04, a05, Merged(a06, a07)];
    CurrentKeep(processed, merges, a03, t1, expected);
    CurrentKeepKeepJoin(p1, merges, a04, a05, a06, a07, t2, expected);
    CurrentKeepKeepJoin(p2, merges + 1, a08, a09, a10, a11, rest, expected);
    assert [a03] + t1 == [a03, a04, a05, a06, a07, a08, a09, a10, a11] + rest;
    assert p2 + [a08, a09, Merged(a10, a11)] == processed + [a03, a04, a05, Merged(a06, a07), a08, a09, Merged(a10, a11)];
  }

  /** The last seven record lines of the fixture's shape: two whole lines,
      two wrapped records and a whole line. */
  lemma CurrentSecondHalf(processed: seq<string>, merges: nat, a12: string, a13: string, a14: string, a15: string, a16: string, a17: string, a18: string, rest: seq<string>, expected: nat)
    requires Opens(a12) && Opens(a13) && Opens(a14) && Opens(a16) && Opens(a18)
    requires !Opens(a15) && !Opens(a17)
    requires Pipes(a15) < expected <= Pipes(a14) + Pipes(a15)
    requires Pipes(a17) < expected <= Pipes(a16) + Pipes(a17)
    ensures CurrentPass(processed, merges, [a12, a13, a14, a15, a16, a17, a18] + rest, expected) ==
            CurrentPass(processed + [a12, a13, Merged(a14, a15), Merged(a16, a17), a18], merges + 2, rest, expected)
  {
    var t2 := [a18] + rest;
    var t1 := [a16, a17] + t2;
    var p1 := processed + [a12, a13, Merged(a14, a15)];
    var p2 := p1 + [Merged(a16, a17)];
    CurrentKeepKeepJoin(processed, merges, a12, a13, a14, a15, t1, expected);
    CurrentJoin(p1, merges + 1, a16, a17, t2, expected);
    CurrentKeep(p2, merges + 2, a18, rest, expected);
    assert [a12, a13, a14, a15] + t1 == [a12, a13, a14, a15, a16, a17, a18] + rest;
    assert p2 + [a18] == processed + [a12, a13, Merged(a14, a15), Merged(a16, a17), a18];
  }

  /** Any list shaped like the fixture: after the three heading lines come
      eight lines that start with a pipe and four records wrapped onto a
      second line, each second line short of the heading's pipes but holding
      enough of them together with its first line. The current revision
      merges each of the four records into one line and keeps every other
      line. */
  lemma CurrentWrappedList(processed: seq<string>, rest: seq<string>, expected: nat, a03: string, a04: string, a05: string, a06: string, a07: string, a08: string, a09: string, a10: string, a11: string, a12: string, a13: string, a14: string, a15: string, a16: string, a17: string, a18: string)
    requires Opens(a03) && Opens(a04) && Opens(a05) && Opens(a06) && Opens(a08) && Opens(a09) && Opens(a10)
    requires Opens(a12) && Opens(a13) && Opens(a14) && Opens(a16) && Opens(a18)
    requires !Opens(a07) && !Opens(a11) && !Opens(a15) && !Opens(a17)
    requires Pipes(a07) < expected <= Pipes(a06) + Pipes(a07)
    requires Pipes(a11) < expected <= Pipes(a10) + Pipes(a11)
    requires Pipes(a15) < expected <= Pipes(a14) + Pipes(a15)
    requires Pipes(a17) < expected <= Pipes(a16) + Pipes(a17)
    ensures CurrentPass(processed, 0, [a03, a04, a05, a06, a07, a08, a09, a10, a11, a12, a13, a14, a15, a16, a17, a18] + rest, expected) ==
            CurrentPass(processed + [a03, a04, a05, Merged(a06, a07), a08, a09, Merged(a10, a11), a12, a13, Merged(a14, a15), Merged(a16, a17), a18], 4, rest, expected)
  {
    var first := [a03, a04, a05, Merged(a06, a07), a08, a09, Merged(a10, a11)];
    var second := [a12, a13, a14, a15, a16, a17, a18] + rest;
    CurrentFirstHalf(processed, 0, a03, a04, a05, a06, a07, a08, a09, a10, a11, second, expected);
    CurrentSecondHalf(processed + first, 2, a12, a13, a14, a15, a16, a17, a18, rest, expected);
    assert [a03, a04, a05, a06, a07, a08, a09, a10, a11] + second ==
           [a03, a04, a05, a06, a07, a08, a09, a10, a11, a12, a13, a14, a15, a16, a17, a18] + rest;
    assert processed + first + [a12, a13, Merged(a14, a15), Merged(a16, a17), a18] ==
           processed + [a03, a04, a05, Merged(a06, a07), a08, a09, Merged(a10, a11), a12, a13, Merged(a14, a15), Merged(a16, a17), a18];
  }

  /** The text of such a list, repaired by the current revision. */
  lemma CurrentWrappedText(lines: seq<string>, r: string, h: string, a03: string, a04: string, a05: string, a06: string, a07: string, a08: string, a09: string, a10: string, a11: string, a12: string, a13: string, a14: string, a15: string, a16: string, a17: string, a18: string)
    requires lines == [r, h, r] + [a03, a04, a05, a06, a07, a08, a09, a10, a11, a12, a13, a14, a15, a16, a17, a18]
    requires LinesFree(lines, '\n')
    requires Opens(a03) && Opens(a04) && Opens(a05) && Opens(a06) && Opens(a08) && Opens(a09) && Opens(a10)
    requires Opens(a12) && Opens(a13) && Opens(a14) && Opens(a16) && Opens(a18)
    requires !Opens(a07) && !Opens(a11) && !Opens(a15) && !Opens(a17)
    requires Pipes(a07) < Pipes(h) <= Pipes(a06) + Pipes(a07)
    requires Pipes(a11) < Pipes(h) <= Pipes(a10) + Pipes(a11)
    requires Pipes(a15) < Pipes(h) <= Pipes(a14) + Pipes(a15)
    requires Pipes(a17) < Pipes(h) <= Pipes(a16) + Pipes(a17)
    ensures CurrentPass(lines[..3], 0, lines[3..], Pipes(h)) ==
            Done([r, h, r] + [a03, a04, a05, Merged(a06, a07), a08, a09, Merged(a10, a11), a12, a13, Merged(a14, a15), Merged(a16, a17), a18], 4)
    ensures FixCurrent(Join(lines, "\n")) ==
            Repair(true, Join([r, h, r] + [a03, a04, a05, Merged(a06, a07), a08, a09, Merged(a10, a11), a12, a13, Merged(a14, a15), Merged(a16, a17), a18], "\n"))
  {
    var none: seq<string> := [];
    var tl := [a03, a04, a05, a06, a07, a08, a09, a10, a11, a12, a13, a14, a15, a16, a17, a18];
    var out := [r, h, r] + [a03, a04, a05, Merged(a06, a07), a08, a09, Merged(a10, a11), a12, a13, Merged(a14, a15), Merged(a16, a17), a18];
    CurrentWrappedList([r, h, r], none, Pipes(h), a03, a04, a05, a06, a07, a08, a09, a10, a11, a12, a13, a14, a15, a16, a17, a18);
    assert tl + none == tl && tl == lines[3..] && [r, h, r] == lines[..3] && lines[1] == h;
    assert CurrentPass(out, 4, none, Pipes(h)) == Done(out, 4);
    FixCurrentDone(lines, out, 4);
  }

  /** Two whole lines and a record wrapped onto two lines. */
  lemma LegacyKeepKeepJoin(processed: seq<string>, merges: nat, a: string, b: string, head: string, tail: string, rest: seq<string>)
    requires Opens(a) && Opens(b) && Opens(head) && !Opens(tail)
    ensures LegacyPass(processed, merges, [a, b, head, tail] + rest) ==
            LegacyPass(processed + [a, b, LegacyMerged(head, tail)], merges + 1, rest)
  {
    LegacyKeep(processed, merges, a, [b, head, tail] + rest);
    LegacyKeep(processed + [a], merges, b, [head, tail] + rest);
    LegacyJoin(processed + [a] + [b], merges, head, tail, rest);
    assert [a] + ([b, head, tail] + rest) == [a, b, head, tail] + rest;
    assert [b] + ([head, tail] + rest) == [b, head, tail] + rest;
    assert processed + [a] + [b] + [LegacyMerged(head, tail)] == processed + [a, b, LegacyMerged(head, tail)];
  }

  /** The first nine record lines of the fixture's shape: three whole lines,
      a wrapped record, two whole lines and a wrapped record. */
  lemma LegacyFirstHalf(processed: seq<string>, merges: nat, a03: string, a04: string, a05: string, a06: string, a07: string, a08: string, a09: string, a10: string, a11: string, rest: seq<string>)
    requires Opens(a03) && Opens(a04) && Opens(a05) && Opens(a06) && Opens(a08) && Opens(a09) && Opens(a10)
    requires !Opens(a07) && !Opens(a11)
    ensures LegacyPass(processed, merges, [a03, a04, a05, a06, a07, a08, a09, a10, a11] + rest) ==
            LegacyPass(processed + [a03, a04, a05, LegacyMerged(a06, a07), a08, a09, LegacyMerged(a10, a11)], merges + 2, rest)
  {
    var t2 := [a08, a09, a10, a11] + rest;
    var t1 := [a04, a05, a06, a07] + t2;
    var p1 := processed + [a03];
    var p2 := p1 + [a04, a05, LegacyMerged(a06, a07)];
    LegacyKeep(processed, merges, a03, t1);
    LegacyKeepKeepJoin(p1, merges, a04, a05, a06, a07, t2);
    LegacyKeepKeepJoin(p2, merges + 1, a08, a09, a10, a11, rest);
    assert [a03] + t1 == [a03, a04, a05, a06, a07, a08, a09, a10, a11] + rest;
    assert p2 + [a08, a09, LegacyMerged(a10, a11)] == processed + [a03, a04, a05, LegacyMerged(a06, a07), a08, a09, LegacyMerged(a10, a11)];
  }

  /** The last seven record lines of the fixture's shape: two whole lines,
      two wrapped records and a whole line. */
  lemma LegacySecondHalf(processed: seq<string>, merges: nat, a12: string, a13: string, a14: string, a15: string, a16: string, a17: string, a18: string, rest: seq<string>)
    requires Opens(a12) && Opens(a13) && Opens(a14) && Opens(a16) && Opens(a18)
    requires !Opens(a15) && !Opens(a17)
    ensures LegacyPass(processed, merges, [a12, a13, a14, a15, a16, a17, a18] + rest) ==
            LegacyPass(processed + [a12, a13, LegacyMerged(a14, a15), LegacyMerged(a16, a17), a18], merges + 2, rest)
  {
    var t2 := [a18] + rest;
    var t1 := [a16, a17] + t2;
    var p1 := processed + [a12, a13, LegacyMerged(a14, a15)];
    var p2 := p1 + [LegacyMerged(a16, a17)];
    LegacyKeepKeepJoin(processed, merges, a12, a13, a14, a15, t1);
    LegacyJoin(p1, merges + 1, a16, a17, t2);
    LegacyKeep(p2, merges + 2, a18, rest);
    assert [a12, a13, a14, a15] + t1 == [a12, a13, a14, a15, a16, a17, a18] + rest;
    assert p2 + [a18] == processed + [a12, a13, LegacyMerged(a14, a15), LegacyMerged(a16, a17), a18];
  }

  /** Any list shaped like the fixture: after the three heading lines come
      eight lines that start with a pipe and four records wrapped onto a
      second line. The earlier revision
      merges each of the four records into one line and keeps every other
      line. */
  lemma LegacyWrappedList(processed: seq<string>, rest: seq<string>, a03: string, a04: string, a05: string, a06: string, a07: string, a08: string, a09: string, a10: string, a11: string, a12: string, a13: string, a14: string, a15: string, a16: string, a17: string, a18: string)
    requires Opens(a03) && Opens(a04) && Opens(a05) && Opens(a06) && Opens(a08) && Opens(a09) && Opens(a10)
    requires Opens(a12) && Opens(a13) && Opens(a14) && Opens(a16) && Opens(a18)
    requires !Opens(a07) && !Opens(a11) && !Opens(a15) && !Opens(a17)
    ensures LegacyPass(processed, 0, [a03, a04, a05, a06, a07, a08, a09, a10, a11, a12, a13, a14, a15, a16, a17, a18] + rest) ==
            LegacyPass(processed + [a03, a04, a05, LegacyMerged(a06, a07), a08, a09, LegacyMerged(a10, a11), a12, a13, LegacyMerged(a14, a15), LegacyMerged(a16, a17), a18], 4, rest)
  {
    var first := [a03, a04, a05, LegacyMerged(a06, a07), a08, a09, LegacyMerged(a10, a11)];
    var second := [a12, a13, a14, a15, a16, a17, a18] + rest;
    LegacyFirstHalf(processed, 0, a03, a04, a05, a06, a07, a08, a09, a10, a11, second);
    LegacySecondHalf(processed + first, 2, a12, a13, a14, a15, a16, a17, a18, rest);
    assert [a03, a04, a05, a06, a07, a08, a09, a10, a11] + second ==
           [a03, a04, a05, a06, a07, a08, a09, a10, a11, a12, a13, a14, a15, a16, a17, a18] + rest;
    assert processed + first + [a12, a13, LegacyMerged(a14, a15), LegacyMerged(a16, a17), a18] ==
           processed + [a03, a04, a05, LegacyMerged(a06, a07), a08, a09, LegacyMerged(a10, a11), a12, a13, LegacyMerged(a14, a15), LegacyMerged(a16, a17), a18];
  }

  /** The text of such a list, repaired by the earlier revision. */
  lemma LegacyWrappedText(lines: seq<string>, r: string, h: string, a03: string, a04: string, a05: string, a06: string, a07: string, a08: string, a09: string, a10: string, a11: string, a12: string, a13: string, a14: string, a15: string, a16: string, a17: string, a18: string)
    requires lines == [r, h, r] + [a03, a04, a05, a06, a07, a08, a09, a10, a11, a12, a13, a14, a15, a16, a17, a18]
    requires LinesFree(lines, '\n')
    requires Opens(a03) && Opens(a04) && Opens(a05) && Opens(a06) && Opens(a08) && Opens(a09) && Opens(a10)
    requires Opens(a12) && Opens(a13) && Opens(a14) && Opens(a16) && Opens(a18)
    requires !Opens(a07) && !Opens(a11) && !Opens(a15) && !Opens(a17)
    ensures LegacyPass(lines[..3], 0, lines[3..]) ==
            Done([r, h, r] + [a03, a04, a05, LegacyMerged(a06, a07), a08, a09, LegacyMerged(a10, a11), a12, a13, LegacyMerged(a14, a15), LegacyMerged(a16, a17), a18], 4)
    ensures FixLegacy(Join(lines, "\n")) ==
            Repair(true, Join([r, h, r] + [a03, a04, a05, LegacyMerged(a06, a07), a08, a09, LegacyMerged(a10, a11), a12, a13, LegacyMerged(a14, a15), LegacyMerged(a16, a17), a18], "\n"))
  {
    var none: seq<string> := [];
    var tl := [a03, a04, a05, a06, a07, a08, a09, a10, a11, a12, a13, a14, a15, a16, a17, a18];
    var out := [r, h, r] + [a03, a04, a05, LegacyMerged(a06, a07), a08, a09, LegacyMerged(a10, a11), a12, a13, LegacyMerged(a14, a15), LegacyMerged(a16, a17), a18];
    LegacyWrappedList([r, h, r], none, a03, a04, a05, a06, a07, a08, a09, a10, a11, a12, a13, a14, a15, a16, a17, a18);
    assert tl + none == tl && tl == lines[3..] && [r, h, r] == lines[..3] && lines[1] == h;
    assert LegacyPass(out, 4, none) == Done(out, 4);
    FixLegacyDone(lines, out, 4);
  }

  /** A rule of `n` dashes. */
  function Dashes(n: nat): (r: string)
    ensures |r| == n && '\n' !in r && '|' !in r
  {
    if n == 0 then "" else "-" + Dashes(n - 1)
  }

  /** The rules above and below the heading. */
  const Rule: string := Dashes(145)

  const F01: seq<string> := ["", "  Avviso    ", "Mod. il   ", "Data      ", "Descrizione                             ", "Tp.", "Sede tecnica        ", "St.sist.      ", "Ordine      ", "Pse", "Sis.Legacy", ""]
  const F03: seq<string> := ["", "  1100103572", "28.04.2025", "31.03.2025", "819 abb error de encoder                ", "Z1 ", "MXW-MXPA-X4-18-GE-ES", "MELA          ", "            ", "MX ", "OFA       ", ""]
  const F04: seq<string> := ["", "  1100103640", "28.04.2025", "01.04.2025", "767; Mal funcionamiento subsistema  pitc", "Z1 ", "MXW-MXPA-X5-05-PS-HG", "MELA          ", "            ", "MX ", "OFA       ", ""]
  const F05: seq<string> := ["", "  1100103637", "28.04.2025", "01.04.2025", "1830; Diferencia excesiva pala 2        ", "Z1 ", "MXW-MXPA-X6-21-PS-HG", "MELA          ", "            ", "MX ", "OFA       ", ""]
  const F06: seq<string> := ["", "  1100103876", "28.04.2025", "11.04.2025", ""]
  const F07: seq<string> := ["3038 Disparo disyuntores refrigeración ", "Z1 ", "MXW-MXPA-X7-28-CF-RF", "MELA          ", "            ", "MX ", "OFA       ", ""]
  const F08: seq<string> := ["", "  1200790761", "28.04.2025", "01.04.2025", "4082 error cabecera gh                  ", "Z2 ", "MXW-MXPA-X1-31-HG-ES", "MELA          ", "            ", "MX ", "OFA       ", ""]
  const F09: seq<string> := ["", "  1200797742", "05.05.2025", "20.04.2025", "WTG 21 783  Cables untwisting           ", "Z2 ", "ZAW-ZAW4-X3-21-SI-ME", "FCAN MECO     ", "            ", "ZA ", "POM       ", ""]
  const F10: seq<string> := ["", "  1200799069", "          ", "25.04.2025", "WTG 04 2931 GearOilLevelTooLow M:"]
  const F11: seq<string> := ["      ", "Z2 ", "ZAW-ZAW5-X7-04-ML-RF", "MAPE          ", "            ", "ZA ", "POM       ", ""]
  const F12: seq<string> := ["", "  1500179021", "01.04.2025", "06.02.2025", "Inspección de palas WTG 19 PET          ", "Z5 ", "CLW-CLWL-X3-19-RT-PA", "MECO ORAT     ", "210001163962", "CL ", "          ", ""]
  const F13: seq<string> := ["", "  1200796096", "14.04.2025", "11.04.2025", "falla under voltage modulefailure INV-G3", "Z2 ", "CLS-CLSB-07-03-IT   ", "MECO ORAT     ", "240000489332", "CL ", "OFA       ", ""]
  const F14: seq<string> := ["", "  1200796097", "11.04.2025", "11.04.2025", ""]
  const F15: seq<string> := ["3038 Disparo disyuntores refrigeración/", "Z2 ", "MXW-MXPA-X7-28-CF-RF", "MELA ORAT     ", "240000489333", "MX ", "OFA       ", ""]
  const F16: seq<string> := ["", "  1200796100", "11.04.2025", "11.04.2025", ""]
  const F17: seq<string> := ["3038 Disparo disyuntores refrigeración ", "Z2 ", "MXW-MXPA-X7-28-CF-RF", "MELA ORAT     ", "240000489335", "MX ", "OFA       ", ""]
  const F18: seq<string> := ["", "  1200796101", "29.04.2025", "29.04.2025", "Falla Interna SI 30-SC15                ", "Z2 ", "COS-COFD-15-P1-30-01", "MECO ORAT     ", "240000489336", "CO ", "OFA       ", ""]

  const Line01: string := Row(F01)
  const Line03: string := Row(F03)
  const Line04: string := Row(F04)
  const Line05: string := Row(F05)
  const Line06: string := Row(F06)
  const Line07: string := Row(F07)
  const Line08: string := Row(F08)
  const Line09: string := Row(F09)
  const Line10: string := Row(F10)
  const Line11: string := Row(F11)
  const Line12: string := Row(F12)
  const Line13: string := Row(F13)
  const Line14: string := Row(F14)
  const Line15: string := Row(F15)
  const Line16: string := Row(F16)
  const Line17: string := Row(F17)
  const Line18: string := Row(F18)

  /** The copied text, line by line (`test_content`). */
  const PrintedList: seq<string> :=
    [Rule, Line01, Rule] +
    [Line03, Line04, Line05, Line06, Line07, Line08, Line09, Line10, Line11, Line12, Line13, Line14, Line15, Line16, Line17, Line18]

  const Copied: string := Join(PrintedList, "\n")

  /** The table the current revision should produce: one line per record,
      each wrapped record glued back together. The record of notification
      1200799069 loses the text after its last pipe, since that cell is
      replaced by the cells of the continuation line. */
  const Repaired: seq<string> :=
    [Rule, Line01, Rule] +
    [Line03, Line04, Line05, Row(F06[..4] + F07), Line08, Line09, Row(F10[..4] + [""] + F11[1..]),
     Line12, Line13, Row(F14[..4] + F15), Row(F16[..4] + F17), Line18]

  /** What the earlier revision should produce: the same, with a space in
      front of each glued-on continuation. */
  const LegacyRepaired: seq<string> :=
    [Rule, Line01, Rule] +
    [Line03, Line04, Line05, Row(F06[..4] + [" " + F07[0]] + F07[1..]), Line08, Line09, Row(F10[..4] + [" "] + F11[1..]),
     Line12, Line13, Row(F14[..4] + [" " + F15[0]] + F15[1..]), Row(F16[..4] + [" " + F17[0]] + F17[1..]), Line18]

  lemma Cell01Longest()
    ensures Printable(F01[4])
  {
  }

  lemma Cell03Longest()
    ensures Printable(F03[4])
  {
  }

  lemma Cell04Longest()
    ensures Printable(F04[4])
  {
  }

  lemma Cell05Longest()
    ensures Printable(F05[4])
  {
  }

  lemma Cell06Longest()
    ensures Printable(F06[1])
  {
  }

  lemma Cell07Longest()
    ensures Printable(F07[0])
  {
  }

  lemma Cell08Longest()
    ensures Printable(F08[4])
  {
  }

  lemma Cell09Longest()
    ensures Printable(F09[4])
  {
  }

  lemma Cell10Longest()
    ensures Printable(F10[4])
  {
  }

  lemma Cell11Longest()
    ensures Printable(F11[2])
  {
  }

  lemma Cell12Longest()
    ensures Printable(F12[4])
  {
  }

  lemma Cell13Longest()
    ensures Printable(F13[4])
  {
  }

  lemma Cell14Longest()
    ensures Printable(F14[1])
  {
  }

  lemma Cell15Longest()
    ensures Printable(F15[0])
  {
  }

  lemma Cell16Longest()
    ensures Printable(F16[1])
  {
  }

  lemma Cell17Longest()
    ensures Printable(F17[0])
  {
  }

  lemma Cell18Longest()
    ensures Printable(F18[4])
  {
  }

  lemma Cells01Front()
    ensures PlainSpan(F01, 0, 6)
  {
    Cell01Longest();
    SixCells(F01, 0);
  }

  lemma Cells01Back()
    ensures PlainSpan(F01, 6, 12)
  {
    SixCells(F01, 6);
  }

  lemma Cells01Plain()
    ensures PlainCells(F01)
  {
    Cells01Front();
    Cells01Back();
    PlainRow(F01);
  }

  lemma Line01Facts()
    ensures Unbroken(Line01) && Pipes(Line01) == 11
  {
    Cells01Plain();
    RowFacts(F01);
  }

  lemma Cells03Front()
    ensures PlainSpan(F03, 0, 6)
  {
    Cell03Longest();
    SixCells(F03, 0);
  }

  lemma Cells03Back()
    ensures PlainSpan(F03, 6, 12)
  {
    SixCells(F03, 6);
  }

  lemma Cells03Plain()
    ensures PlainCells(F03)
  {
    Cells03Front();
    Cells03Back();
    PlainRow(F03);
  }

  lemma Line03Facts()
    ensures Unbroken(Line03) && Opens(Line03) && Pipes(Line03) == 11
  {
    Cells03Plain();
    RowFacts(F03);
  }

  lemma Cells04Front()
    ensures PlainSpan(F04, 0, 6)
  {
    Cell04Longest();
    SixCells(F04, 0);
  }

  lemma Cells04Back()
    ensures PlainSpan(F04, 6, 12)
  {
    SixCells(F04, 6);
  }

  lemma Cells04Plain()
    ensures PlainCells(F04)
  {
    Cells04Front();
    Cells04Back();
    PlainRow(F04);
  }

  lemma Line04Facts()
    ensures Unbroken(Line04) && Opens(Line04) && Pipes(Line04) == 11
  {
    Cells04Plain();
    RowFacts(F04);
  }

  lemma Cells05Front()
    ensures PlainSpan(F05, 0, 6)
  {
    Cell05Longest();
    SixCells(F05, 0);
  }

  lemma Cells05Back()
    ensures PlainSpan(F05, 6, 12)
  {
    SixCells(F05, 6);
  }

  lemma Cells05Plain()
    ensures PlainCells(F05)
  {
    Cells05Front();
    Cells05Back();
    PlainRow(F05);
  }

  lemma Line05Facts()
    ensures Unbroken(Line05) && Opens(Line05) && Pipes(Line05) == 11
  {
    Cells05Plain();
    RowFacts(F05);
  }

  lemma Cells06Front()
    ensures PlainSpan(F06, 0, 6)
  {
    Cell06Longest();
    SixCells(F06, 0);
  }

  lemma Cells06Plain()
    ensures PlainCells(F06)
  {
    Cells06Front();
    PlainRow(F06);
  }

  lemma Line06Facts()
    ensures Unbroken(Line06) && Opens(Line06) && Pipes(Line06) == 4
  {
    Cells06Plain();
    RowFacts(F06);
  }

  lemma Cells07Front()
    ensures PlainSpan(F07, 0, 6)
  {
    Cell07Longest();
    SixCells(F07, 0);
  }

  lemma Cells07Back()
    ensures PlainSpan(F07, 6, 12)
  {
    SixCells(F07, 6);
  }

  lemma Cells07Plain()
    ensures PlainCells(F07)
  {
    Cells07Front();
    Cells07Back();
    PlainRow(F07);
  }

  lemma Line07Facts()
    ensures Unbroken(Line07) && !Opens(Line07) && Pipes(Line07) == 7
  {
    Cells07Plain();
    RowFacts(F07);
  }

  lemma Cells08Front()
    ensures PlainSpan(F08, 0, 6)
  {
    Cell08Longest();
    SixCells(F08, 0);
  }

  lemma Cells08Back()
    ensures PlainSpan(F08, 6, 12)
  {
    SixCells(F08, 6);
  }

  lemma Cells08Plain()
    ensures PlainCells(F08)
  {
    Cells08Front();
    Cells08Back();
    PlainRow(F08);
  }

  lemma Line08Facts()
    ensures Unbroken(Line08) && Opens(Line08) && Pipes(Line08) == 11
  {
    Cells08Plain();
    RowFacts(F08);
  }

  lemma Cells09Front()
    ensures PlainSpan(F09, 0, 6)
  {
    Cell09Longest();
    SixCells(F09, 0);
  }

  lemma Cells09Back()
    ensures PlainSpan(F09, 6, 12)
  {
    SixCells(F09, 6);
  }

  lemma Cells09Plain()
    ensures PlainCells(F09)
  {
    Cells09Front();
    Cells09Back();
    PlainRow(F09);
  }

  lemma Line09Facts()
    ensures Unbroken(Line09) && Opens(Line09) && Pipes(Line09) == 11
  {
    Cells09Plain();
    RowFacts(F09);
  }

  lemma Cells10Front()
    ensures PlainSpan(F10, 0, 6)
  {
    Cell10Longest();
    SixCells(F10, 0);
  }

  lemma Cells10Plain()
    ensures PlainCells(F10)
  {
    Cells10Front();
    PlainRow(F10);
  }

  lemma Line10Facts()
    ensures Unbroken(Line10) && Opens(Line10) && Pipes(Line10) == 4
  {
    Cells10Plain();
    RowFacts(F10);
  }

  lemma Cells11Front()
    ensures PlainSpan(F11, 0, 6)
  {
    Cell11Longest();
    SixCells(F11, 0);
  }

  lemma Cells11Back()
    ensures PlainSpan(F11, 6, 12)
  {
    SixCells(F11, 6);
  }

  lemma Cells11Plain()
    ensures PlainCells(F11)
  {
    Cells11Front();
    Cells11Back();
    PlainRow(F11);
  }

  lemma Line11Facts()
    ensures Unbroken(Line11) && !Opens(Line11) && Pipes(Line11) == 7
  {
    Cells11Plain();
    RowFacts(F11);
  }

  lemma Cells12Front()
    ensures PlainSpan(F12, 0, 6)
  {
    Cell12Longest();
    SixCells(F12, 0);
  }

  lemma Cells12Back()
    ensures PlainSpan(F12, 6, 12)
  {
    SixCells(F12, 6);
  }

  lemma Cells12Plain()
    ensures PlainCells(F12)
  {
    Cells12Front();
    Cells12Back();
    PlainRow(F12);
  }

  lemma Line12Facts()
    ensures Unbroken(Line12) && Opens(Line12) && Pipes(Line12) == 11
  {
    Cells12Plain();
    RowFacts(F12);
  }

  lemma Cells13Front()
    ensures PlainSpan(F13, 0, 6)
  {
    Cell13Longest();
    SixCells(F13, 0);
  }

  lemma Cells13Back()
    ensures PlainSpan(F13, 6, 12)
  {
    SixCells(F13, 6);
  }

  lemma Cells13Plain()
    ensures PlainCells(F13)
  {
    Cells13Front();
    Cells13Back();
    PlainRow(F13);
  }

  lemma Line13Facts()
    ensures Unbroken(Line13) && Opens(Line13) && Pipes(Line13) == 11
  {
    Cells13Plain();
    RowFacts(F13);
  }

  lemma Cells14Front()
    ensures PlainSpan(F14, 0, 6)
  {
    Cell14Longest();
    SixCells(F14, 0);
  }

  lemma Cells14Plain()
    ensures PlainCells(F14)
  {
    Cells14Front();
    PlainRow(F14);
  }

  lemma Line14Facts()
    ensures Unbroken(Line14) && Opens(Line14) && Pipes(Line14) == 4
  {
    Cells14Plain();
    RowFacts(F14);
  }

  lemma Cells15Front()
    ensures PlainSpan(F15, 0, 6)
  {
    Cell15Longest();
    SixCells(F15, 0);
  }

  lemma Cells15Back()
    ensures PlainSpan(F15, 6, 12)
  {
    SixCells(F15, 6);
  }

  lemma Cells15Plain()
    ensures PlainCells(F15)
  {
    Cells15Front();
    Cells15Back();
    PlainRow(F15);
  }

  lemma Line15Facts()
    ensures Unbroken(Line15) && !Opens(Line15) && Pipes(Line15) == 7
  {
    Cells15Plain();
    RowFacts(F15);
  }

  lemma Cells16Front()
    ensures PlainSpan(F16, 0, 6)
  {
    Cell16Longest();
    SixCells(F16, 0);
  }

  lemma Cells16Plain()
    ensures PlainCells(F16)
  {
    Cells16Front();
    PlainRow(F16);
  }

  lemma Line16Facts()
    ensures Unbroken(Line16) && Opens(Line16) && Pipes(Line16) == 4
  {
    Cells16Plain();
    RowFacts(F16);
  }

  lemma Cells17Front()
    ensures PlainSpan(F17, 0, 6)
  {
    Cell17Longest();
    SixCells(F17, 0);
  }

  lemma Cells17Back()
    ensures PlainSpan(F17, 6, 12)
  {
    SixCells(F17, 6);
  }

  lemma Cells17Plain()
    ensures PlainCells(F17)
  {
    Cells17Front();
    Cells17Back();
    PlainRow(F17);
  }

  lemma Line17Facts()
    ensures Unbroken(Line17) && !Opens(Line17) && Pipes(Line17) == 7
  {
    Cells17Plain();
    RowFacts(F17);
  }

  lemma Cells18Front()
    ensures PlainSpan(F18, 0, 6)
  {
    Cell18Longest();
    SixCells(F18, 0);
  }

  lemma Cells18Back()
    ensures PlainSpan(F18, 6, 12)
  {
    SixCells(F18, 6);
  }

  lemma Cells18Plain()
    ensures PlainCells(F18)
  {
    Cells18Front();
    Cells18Back();
    PlainRow(F18);
  }

  lemma Line18Facts()
    ensures Unbroken(Line18) && Opens(Line18) && Pipes(Line18) == 11
  {
    Cells18Plain();
    RowFacts(F18);
  }

  /** The continuation line of notification 1100103876 has no blanks to strip. */
  lemma Line07Strip()
    ensures Strip(Line07) == Line07
  {
    Cells07Plain();
    RowStripped(F07);
  }
  /** The continuation line of notification 1200796097 has no blanks to strip. */
  lemma Line15Strip()
    ensures Strip(Line15) == Line15
  {
    Cells15Plain();
    RowStripped(F15);
  }
  /** The continuation line of notification 1200796100 has no blanks to strip. */
  lemma Line17Strip()
    ensures Strip(Line17) == Line17
  {
    Cells17Plain();
    RowStripped(F17);
  }

  /** The continuation line of notification 1200799069 opens with six blanks
      before its first pipe; stripping removes them. */
  lemma Line11Strip()
    ensures Strip(Line11) == Row([""] + F11[1..])
  {
    Cells11Plain();
    assert F11 == ["      "] + F11[1..];
    StripIndentedRow("      ", F11[1..]);
  }

  /** The record of notification 1100103876: its description moved to the
      next line, which starts with the description itself. */
  lemma Record06Merge()
    ensures Merged(Line06, Line07) == Row(F06[..4] + F07)
  {
    Line07Strip();
    MergedRow(F06, Line07, F07);
  }

  lemma Record06LegacyMerge()
    ensures LegacyMerged(Line06, Line07) == Row(F06[..4] + [" " + F07[0]] + F07[1..])
  {
    Line07Strip();
    LegacyMergedRow(F06, Line07, F07);
  }

  /** The record of notification 1200796097, wrapped in the same way. */
  lemma Record14Merge()
    ensures Merged(Line14, Line15) == Row(F14[..4] + F15)
  {
    Line15Strip();
    MergedRow(F14, Line15, F15);
  }

  lemma Record14LegacyMerge()
    ensures LegacyMerged(Line14, Line15) == Row(F14[..4] + [" " + F15[0]] + F15[1..])
  {
    Line15Strip();
    LegacyMergedRow(F14, Line15, F15);
  }

  /** The record of notification 1200796100, wrapped in the same way. */
  lemma Record16Merge()
    ensures Merged(Line16, Line17) == Row(F16[..4] + F17)
  {
    Line17Strip();
    MergedRow(F16, Line17, F17);
  }

  lemma Record16LegacyMerge()
    ensures LegacyMerged(Line16, Line17) == Row(F16[..4] + [" " + F17[0]] + F17[1..])
  {
    Line17Strip();
    LegacyMergedRow(F16, Line17, F17);
  }

  /** The record of notification 1200799069: the cell after its last pipe
      holds the start of the description, which the merge replaces by the
      cells of the continuation line. */
  lemma Record10Merge()
    ensures Merged(Line10, Line11) == Row(F10[..4] + [""] + F11[1..])
  {
    Cells10Plain();
    Line11Strip();
    MergedRow(F10, Line11, [""] + F11[1..]);
    assert F10[..4] + ([""] + F11[1..]) == F10[..4] + [""] + F11[1..];
  }

  lemma Record10LegacyMerge()
    ensures LegacyMerged(Line10, Line11) == Row(F10[..4] + [" "] + F11[1..])
  {
    Cells10Plain();
    Line11Strip();
    LegacyMergedBlank(F10, Line11, F11[1..]);
  }



  /** No line of the copied text holds a line break. */
  lemma PrintedUnbroken()
    ensures LinesFree(PrintedList, '\n')
  {
    Line01Facts(); Line03Facts(); Line04Facts(); Line05Facts(); Line06Facts(); Line07Facts(); Line08Facts(); Line09Facts(); Line10Facts(); Line11Facts(); Line12Facts(); Line13Facts(); Line14Facts(); Line15Facts(); Line16Facts(); Line17Facts(); Line18Facts();
    assert Unbroken(Rule);
    ListUnbroken(PrintedList, Rule, Line01, Line03, Line04, Line05, Line06, Line07, Line08, Line09,
      Line10, Line11, Line12, Line13, Line14, Line15, Line16, Line17, Line18);
  }

  /** Which lines of the copied text start with a pipe. */
  lemma PrintedOpens()
    ensures Opens(Line03) && Opens(Line04) && Opens(Line05) && Opens(Line06) && Opens(Line08) && Opens(Line09) && Opens(Line10)
    ensures Opens(Line12) && Opens(Line13) && Opens(Line14) && Opens(Line16) && Opens(Line18)
    ensures !Opens(Line07) && !Opens(Line11) && !Opens(Line15) && !Opens(Line17)
  {
    Line03Facts(); Line04Facts(); Line05Facts(); Line06Facts(); Line07Facts(); Line08Facts(); Line09Facts(); Line10Facts(); Line11Facts(); Line12Facts(); Line13Facts(); Line14Facts(); Line15Facts(); Line16Facts(); Line17Facts(); Line18Facts();
  }

  /** How many pipes the heading and the wrapped records hold. */
  lemma PrintedPipes()
    ensures Pipes(Line01) == 11
    ensures Pipes(Line06) == Pipes(Line10) == Pipes(Line14) == Pipes(Line16) == 4
    ensures Pipes(Line07) == Pipes(Line11) == Pipes(Line15) == Pipes(Line17) == 7
  {
    Line01Facts(); Line06Facts(); Line07Facts(); Line10Facts(); Line11Facts(); Line14Facts(); Line15Facts(); Line16Facts(); Line17Facts();
  }

  /** The current revision glues each of the four continuation lines to the
      line before it: each glued line has the heading's eleven pipes, four
      from its first part and seven from its continuation. */
  lemma FixtureCurrentLines()
    ensures CurrentPass(PrintedList[..3], 0, PrintedList[3..], Pipes(Line01)) ==
            Done([Rule, Line01, Rule] + [Line03, Line04, Line05, Merged(Line06, Line07), Line08, Line09, Merged(Line10, Line11), Line12, Line13, Merged(Line14, Line15), Merged(Line16, Line17), Line18], 4)
    ensures FixCurrent(Copied) ==
            Repair(true, Join([Rule, Line01, Rule] + [Line03, Line04, Line05, Merged(Line06, Line07), Line08, Line09, Merged(Line10, Line11), Line12, Line13, Merged(Line14, Line15), Merged(Line16, Line17), Line18], "\n"))
  {
    PrintedUnbroken(); PrintedOpens(); PrintedPipes();
    CurrentWrappedText(PrintedList, Rule, Line01, Line03, Line04, Line05, Line06, Line07, Line08, Line09,
      Line10, Line11, Line12, Line13, Line14, Line15, Line16, Line17, Line18);
  }

  /** The earlier revision glues the same four lines. */
  lemma FixtureLegacyLines()
    ensures LegacyPass(PrintedList[..3], 0, PrintedList[3..]) ==
            Done([Rule, Line01, Rule] + [Line03, Line04, Line05, LegacyMerged(Line06, Line07), Line08, Line09, LegacyMerged(Line10, Line11), Line12, Line13, LegacyMerged(Line14, Line15), LegacyMerged(Line16, Line17), Line18], 4)
    ensures FixLegacy(Copied) ==
            Repair(true, Join([Rule, Line01, Rule] + [Line03, Line04, Line05, LegacyMerged(Line06, Line07), Line08, Line09, LegacyMerged(Line10, Line11), Line12, Line13, LegacyMerged(Line14, Line15), LegacyMerged(Line16, Line17), Line18], "\n"))
  {
    PrintedUnbroken(); PrintedOpens(); PrintedPipes();
    LegacyWrappedText(PrintedList, Rule, Line01, Line03, Line04, Line05, Line06, Line07, Line08, Line09,
      Line10, Line11, Line12, Line13, Line14, Line15, Line16, Line17, Line18);
  }



  /** Merging the continuation of notification 1200799069 drops the text that
      followed the last pipe of its first line: the merged line keeps that
      line only up to the pipe. */
  lemma FixtureFragmentDropped()
    ensures F10[4] == "WTG 04 2931 GearOilLevelTooLow M:"
    ensures Line10 == ThroughLastPipe(Line10) + F10[4]
    ensures Merged(Line10, Line11) == ThroughLastPipe(Line10) + Strip(Line11)
  {
    Cell10Longest();
    ThroughLastPipeRow(F10);
    RowSnoc(F10);
  }


  /** The current revision repairs the copied text to the expected table:
      of its nineteen lines, the four that continue a wrapped record are
      merged into the line before, and fifteen lines remain. */
  lemma FixtureCurrent()
    ensures |PrintedList| == 19 && |Repaired| == 15
    ensures FixCurrent(Copied) == Repair(true, Join(Repaired, "\n"))
  {
    FixtureCurrentLines();
    Record06Merge(); Record10Merge(); Record14Merge(); Record16Merge();
  }

  /** The earlier revision repairs it to its own expected table. */
  lemma FixtureLegacy()
    ensures |LegacyRepaired| == 15
    ensures FixLegacy(Copied) == Repair(true, Join(LegacyRepaired, "\n"))
  {
    FixtureLegacyLines();
    Record06LegacyMerge(); Record10LegacyMerge(); Record14LegacyMerge(); Record16LegacyMerge();
  }
}
