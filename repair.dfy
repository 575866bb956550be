/** Repair of a list copied from the SAP list viewer (`%pc` export) before it
    is loaded as a table. The text is split into lines; the first three lines
    (rule, heading, rule) are kept, and every later line that SAP wrapped onto
    a continuation line is glued back onto the line before it. Two revisions of
    `fix_clipboard_table_content` exist and both are modelled:
    the current one, which only merges lines that are short of pipes and
    refuses a merge that still leaves too few pipes, and the earlier one,
    which merges every line not starting with a pipe and never refuses. */
module ClipboardRepair {
  import opened PyText

  /** The pair `(success, text)` the repair returns. */
  datatype Repair = Repair(ok: bool, text: string)

  /** Where a pass over the lines after the heading ends: with the repaired
      lines and the number of merges, or with the error message. */
  datatype Pass = Done(lines: seq<string>, merges: nat) | Abort(message: string)

  /** A line the current revision treats as the wrapped end of the line
      before it: it does not start with a pipe and has fewer pipes than the
      heading line. */
  predicate IsContinuation(line: string, expected: nat) {
    !StartsWith(line, '|') && CountChar(line, '|') < expected
  }

  /** The line before a wrap, up to and including its last pipe; whatever
      followed that pipe is dropped. (Without a pipe that is the empty
      prefix, a case both revisions test for before merging.) */
  function ThroughLastPipe(prev: string): (r: string)
    ensures |r| <= |prev|
    ensures '|' in prev ==> |r| >= 1 && r[0] == prev[0] && r[|r| - 1] == '|'
  {
    prev[..LastIndexOf(prev, '|') + 1]
  }

  /** The part of the line dropped by a merge holds no pipe. */
  lemma ThroughLastPipeDrops(prev: string)
    ensures var r := ThroughLastPipe(prev);
      prev == r + prev[|r|..] && '|' !in prev[|r|..]
  {
  }

  /** The merge of the current revision: no space between the two parts. */
  function Merged(prev: string, line: string): string {
    ThroughLastPipe(prev) + Strip(line)
  }

  /** The merge of the earlier revision: one space between the two parts. */
  function LegacyMerged(prev: string, line: string): string {
    ThroughLastPipe(prev) + " " + Strip(line)
  }

  function NoPreviousMessage(line: string): string {
    "Errore: non è possibile unire la riga corrente '" + line + "' con una riga precedente."
  }

  function IncoherentMessage(merged: string): string {
    "Attenzione: il numero di '|' non è coerente nella riga unita: " + merged
  }

  /** The current revision's loop over the `rest` of the lines, as a fold:
      `processed` are the lines kept so far and `expected` the number of pipes
      in the heading line. */
  function CurrentPass(processed: seq<string>, merges: nat, rest: seq<string>, expected: nat): Pass
    decreases |rest|
  {
    if |rest| == 0 then Done(processed, merges)
    else
      var line := rest[0];
      if !IsContinuation(line, expected) then
        CurrentPass(processed + [line], merges, rest[1..], expected)
      else if |processed| == 0 || '|' !in processed[|processed| - 1] then
        Abort(NoPreviousMessage(line))
      else
        var merged := Merged(processed[|processed| - 1], line);
        if CountChar(merged, '|') < expected then Abort(IncoherentMessage(merged))
        else CurrentPass(processed[..|processed| - 1] + [merged], merges + 1, rest[1..], expected)
  }

  /** What the current `fix_clipboard_table_content` returns for `result`. */
  function FixCurrent(result: string): Repair {
    var lines := Split(result, '\n');
    if |lines| < 4 then Repair(false, result)
    else
      match CurrentPass(lines[..3], 0, lines[3..], CountChar(lines[1], '|'))
      case Abort(msg) => Repair(false, msg)
      case Done(out, _) => Repair(true, Join(out, "\n"))
  }

  /** The earlier revision's loop, as a fold. */
  function LegacyPass(processed: seq<string>, merges: nat, rest: seq<string>): (r: Pass)
    ensures r.Done?
    decreases |rest|
  {
    if |rest| == 0 then Done(processed, merges)
    else
      var line := rest[0];
      if StartsWith(line, '|') || |processed| == 0 || '|' !in processed[|processed| - 1] then
        LegacyPass(processed + [line], merges, rest[1..])
      else
        var merged := LegacyMerged(processed[|processed| - 1], line);
        LegacyPass(processed[..|processed| - 1] + [merged], merges + 1, rest[1..])
  }

  /** What the earlier `fix_clipboard_table_content` returns for `result`. */
  function FixLegacy(result: string): Repair {
    var lines := Split(result, '\n');
    if |lines| < 4 then Repair(false, result)
    else Repair(true, Join(LegacyPass(lines[..3], 0, lines[3..]).lines, "\n"))
  }

  /** The current revision: a loop over the lines that edits the list of
      kept lines in place. */
  method FixClipboardTableContent(result: string) returns (ok: bool, content: string)
    ensures Repair(ok, content) == FixCurrent(result)
  {
    var lines := Split(result, '\n');
    if |lines| < 4 {
      return false, result;
    }
    var processed := lines[..3];
    var expected := CountChar(lines[1], '|');
    var merges := 0;
    var i := 3;
    while i < |lines|
      invariant 3 <= i <= |lines|
      invariant CurrentPass(processed, merges, lines[i..], expected)
             == CurrentPass(lines[..3], 0, lines[3..], expected)
      decreases |lines| - i
    {
      var line := lines[i];
      assert lines[i..][1..] == lines[i + 1..];
      if !StartsWith(line, '|') && CountChar(line, '|') < expected {
        if |processed| > 0 {
          var prev := processed[|processed| - 1];
          var k := LastIndexOf(prev, '|');
          if k != -1 {
            var merged := prev[..k + 1] + Strip(line);
            if CountChar(merged, '|') < expected {
              return false, IncoherentMessage(merged);
            }
            processed := processed[..|processed| - 1] + [merged];
            merges := merges + 1;
          } else {
            return false, NoPreviousMessage(line);
          }
        } else {
          return false, NoPreviousMessage(line);
        }
      } else {
        processed := processed + [line];
      }
      i := i + 1;
    }
    assert lines[i..] == [];
    return true, Join(processed, "\n");
  }

  /** The earlier revision, as a loop. */
  method FixClipboardTableContentLegacy(result: string) returns (ok: bool, content: string)
    ensures Repair(ok, content) == FixLegacy(result)
  {
    var lines := Split(result, '\n');
    if |lines| < 4 {
      return false, result;
    }
    var processed := lines[..3];
    var merges := 0;
    var i := 3;
    while i < |lines|
      invariant 3 <= i <= |lines|
      invariant LegacyPass(processed, merges, lines[i..]) == LegacyPass(lines[..3], 0, lines[3..])
      decreases |lines| - i
    {
      var line := lines[i];
      assert lines[i..][1..] == lines[i + 1..];
      if !StartsWith(line, '|') {
        if |processed| > 0 {
          var prev := processed[|processed| - 1];
          var k := LastIndexOf(prev, '|');
          if k != -1 {
            processed := processed[..|processed| - 1] + [prev[..k + 1] + " " + Strip(line)];
            merges := merges + 1;
          } else {
            processed := processed + [line];
          }
        } else {
          processed := processed + [line];
        }
      } else {
        processed := processed + [line];
      }
      i := i + 1;
    }
    assert lines[i..] == [];
    return true, Join(processed, "\n");
  }

  /** A merge keeps every pipe of both lines: the text after the last pipe
      of the earlier line holds none, and `strip()` removes none. */
  lemma MergeCount(prev: string, line: string)
    requires '|' in prev
    ensures CountChar(Merged(prev, line), '|') == CountChar(prev, '|') + CountChar(line, '|')
    ensures CountChar(LegacyMerged(prev, line), '|') == CountChar(prev, '|') + CountChar(line, '|')
  {
    var r := ThroughLastPipe(prev);
    ThroughLastPipeDrops(prev);
    CountConcat(r, prev[|r|..], '|');
    CountAbsent(prev[|r|..], '|');
    CountStrip(line, '|');
    CountConcat(r, Strip(line), '|');
    CountConcat(r + " ", Strip(line), '|');
    CountConcat(r, " ", '|');
  }

  /** A merge brings in no line break that neither line had. */
  lemma MergeFree(prev: string, line: string, c: char)
    requires '|' in prev && c != '|' && c != ' '
    requires c !in prev && c !in line
    ensures c !in Merged(prev, line) && c !in LegacyMerged(prev, line)
  {
    StripFree(line, c);
  }

  /** Lines from index `k` on that the current revision would not merge. */
  predicate NoContinuationFrom(lines: seq<string>, k: nat, expected: nat) {
    forall i :: k <= i < |lines| ==> !IsContinuation(lines[i], expected)
  }

  /** Lines that do not hold the character `c`. */
  predicate LinesFree(lines: seq<string>, c: char) {
    forall i :: 0 <= i < |lines| ==> c !in lines[i]
  }

  /** One step of the current revision on a continuation line: it fails when
      the line before has no pipe, fails when the two lines together are
      still short of pipes, and merges them otherwise. */
  lemma CurrentStep(processed: seq<string>, merges: nat, rest: seq<string>, expected: nat)
    requires |processed| >= 1 && |rest| >= 1 && IsContinuation(rest[0], expected)
    ensures var prev := processed[|processed| - 1];
      CurrentPass(processed, merges, rest, expected) ==
        if '|' !in prev then Abort(NoPreviousMessage(rest[0]))
        else if CountChar(prev, '|') + CountChar(rest[0], '|') < expected
        then Abort(IncoherentMessage(Merged(prev, rest[0])))
        else CurrentPass(processed[..|processed| - 1] + [Merged(prev, rest[0])], merges + 1, rest[1..], expected)
  {
    var prev := processed[|processed| - 1];
    if '|' in prev {
      MergeCount(prev, rest[0]);
    }
  }

  /** What the current revision's pass keeps: all kept lines but the last
      stay as they are, every merge removes exactly one line, no line it
      adds is one it would merge, and it brings in no line break. */
  lemma {:induction false} CurrentPassKeeps(processed: seq<string>, merges: nat, rest: seq<string>, expected: nat, k: nat)
    requires |processed| >= 1
    requires NoContinuationFrom(processed, k, expected)
    requires LinesFree(processed, '\n') && LinesFree(rest, '\n')
    ensures match CurrentPass(processed, merges, rest, expected)
      case Done(out, m) =>
        && |processed| <= |out|
        && out[..|processed| - 1] == processed[..|processed| - 1]
        && |out| + m == |processed| + merges + |rest|
        && NoContinuationFrom(out, k, expected)
        && LinesFree(out, '\n')
      case Abort(_) => true
    decreases |rest|
  {
    if |rest| > 0 {
      var line := rest[0];
      assert LinesFree(rest[1..], '\n') by {
        forall i | 0 <= i < |rest[1..]| ensures '\n' !in rest[1..][i] { assert rest[1..][i] == rest[i + 1]; }
      }
      var n := |processed|;
      if !IsContinuation(line, expected) {
        var p := processed + [line];
        assert p[..n - 1] == processed[..n - 1];
        CurrentPassKeeps(p, merges, rest[1..], expected, k);
        var r := CurrentPass(p, merges, rest[1..], expected);
        if r.Done? {
          assert r.lines[..n - 1] == r.lines[..n][..n - 1];
        }
      } else if '|' in processed[n - 1] {
        var prev := processed[n - 1];
        var merged := Merged(prev, line);
        MergeCount(prev, line);
        MergeFree(prev, line, '\n');
        if CountChar(merged, '|') >= expected {
          var p := processed[..n - 1] + [merged];
          assert p[..n - 1] == processed[..n - 1];
          CurrentPassKeeps(p, merges + 1, rest[1..], expected, k);
        }
      }
    }
  }

  /** Lines with no wrap after the heading are left exactly as they were. */
  lemma {:induction false} CurrentPassIdle(processed: seq<string>, merges: nat, rest: seq<string>, expected: nat)
    requires NoContinuationFrom(rest, 0, expected)
    ensures CurrentPass(processed, merges, rest, expected) == Done(processed + rest, merges)
    decreases |rest|
  {
    if |rest| > 0 {
      assert NoContinuationFrom(rest[1..], 0, expected) by {
        forall i | 0 <= i < |rest[1..]| ensures !IsContinuation(rest[1..][i], expected) { assert rest[1..][i] == rest[i + 1]; }
      }
      CurrentPassIdle(processed + [rest[0]], merges, rest[1..], expected);
      assert processed + [rest[0]] + rest[1..] == processed + rest;
    }
  }

  /** The current revision: fewer than four lines are refused as they are;
      on success the result's lines are the input's lines with the rule and
      the heading kept, no more lines than before, and no line after the
      heading that it would have merged. */
  lemma FixCurrentShape(result: string)
    ensures var lines := Split(result, '\n');
      |lines| < 4 ==> FixCurrent(result) == Repair(false, result)
    ensures var lines := Split(result, '\n');
      var r := FixCurrent(result);
      r.ok ==>
        var out := Split(r.text, '\n');
        && |lines| >= 4
        && 3 <= |out| <= |lines|
        && out[..2] == lines[..2]
        && NoContinuationFrom(out, 3, CountChar(lines[1], '|'))
  {
    var lines := Split(result, '\n');
    if |lines| >= 4 {
      var e := CountChar(lines[1], '|');
      var p := lines[..3];
      SplitPiecesFree(result, '\n');
      assert LinesFree(p, '\n') && LinesFree(lines[3..], '\n') by {
        forall i | 0 <= i < 3 ensures '\n' !in p[i] { assert p[i] == lines[i]; }
        forall i | 0 <= i < |lines| - 3 ensures '\n' !in lines[3..][i] { assert lines[3..][i] == lines[i + 3]; }
      }
      CurrentPassKeeps(p, 0, lines[3..], e, 3);
      var r := CurrentPass(p, 0, lines[3..], e);
      if r.Done? {
        SplitJoin(r.lines, '\n');
        assert r.lines[..2] == p[..2];
      }
    }
  }

  /** Input without a wrapped line comes back unchanged. */
  lemma FixCurrentIdle(result: string)
    requires |Split(result, '\n')| >= 4
    requires NoContinuationFrom(Split(result, '\n'), 3, CountChar(Split(result, '\n')[1], '|'))
    ensures FixCurrent(result) == Repair(true, result)
  {
    var lines := Split(result, '\n');
    var e := CountChar(lines[1], '|');
    assert NoContinuationFrom(lines[3..], 0, e) by {
      forall i | 0 <= i < |lines[3..]| ensures !IsContinuation(lines[3..][i], e) { assert lines[3..][i] == lines[i + 3]; }
    }
    CurrentPassIdle(lines[..3], 0, lines[3..], e);
    assert lines[..3] + lines[3..] == lines;
    JoinSplit(result, '\n');
  }

  /** What the earlier revision's pass keeps: all kept lines but the last
      stay as they are, every merge removes exactly one line, and every line
      after position `k` starts with a pipe or follows a line without one. */
  predicate LegacyShaped(lines: seq<string>, k: nat) {
    forall i :: 1 <= k <= i < |lines| ==> StartsWith(lines[i], '|') || '|' !in lines[i - 1]
  }

  /** One step of the earlier revision keeps the kept lines in shape. */
  lemma LegacyStepShaped(processed: seq<string>, line: string, k: nat)
    requires 1 <= k && |processed| >= 1 && LegacyShaped(processed, k)
    requires LinesFree(processed, '\n') && '\n' !in line
    ensures var n := |processed|;
      var prev := processed[n - 1];
      var p := if StartsWith(line, '|') || '|' !in prev then processed + [line]
               else processed[..n - 1] + [LegacyMerged(prev, line)];
      LegacyShaped(p, k) && LinesFree(p, '\n') && p[..n - 1] == processed[..n - 1]
  {
    var n := |processed|;
    var prev := processed[n - 1];
    if StartsWith(line, '|') || '|' !in prev {
      var p := processed + [line];
      assert p[..n - 1] == processed[..n - 1];
    } else {
      var merged := LegacyMerged(prev, line);
      MergeFree(prev, line, '\n');
      assert merged[0] == prev[0];
      var p := processed[..n - 1] + [merged];
      assert p[..n - 1] == processed[..n - 1];
    }
  }

  /** The earlier revision never touches the kept lines before the last one,
      and each merge shortens the list by one. */
  lemma {:induction false} LegacyPassKeeps(processed: seq<string>, merges: nat, rest: seq<string>)
    requires |processed| >= 1
    ensures var r := LegacyPass(processed, merges, rest);
      && |processed| <= |r.lines|
      && r.lines[..|processed| - 1] == processed[..|processed| - 1]
      && |r.lines| + r.merges == |processed| + merges + |rest|
    decreases |rest|
  {
    if |rest| > 0 {
      var line := rest[0];
      var n := |processed|;
      var prev := processed[n - 1];
      if StartsWith(line, '|') || '|' !in prev {
        var p := processed + [line];
        assert p[..n - 1] == processed[..n - 1];
        assert LegacyPass(processed, merges, rest) == LegacyPass(p, merges, rest[1..]);
        LegacyPassKeeps(p, merges, rest[1..]);
        var r := LegacyPass(p, merges, rest[1..]);
        assert r.lines[..n - 1] == r.lines[..n][..n - 1];
      } else {
        var p := processed[..n - 1] + [LegacyMerged(prev, line)];
        assert p[..n - 1] == processed[..n - 1];
        assert LegacyPass(processed, merges, rest) == LegacyPass(p, merges + 1, rest[1..]);
        LegacyPassKeeps(p, merges + 1, rest[1..]);
      }
    }
  }

  /** The earlier revision keeps its lines free of line breaks, and leaves no
      line without a pipe in front of one that does not start with a pipe. */
  lemma {:induction false} LegacyPassShaped(processed: seq<string>, merges: nat, rest: seq<string>, k: nat)
    requires 1 <= k && |processed| >= 1
    requires LegacyShaped(processed, k)
    requires LinesFree(processed, '\n') && LinesFree(rest, '\n')
    ensures var r := LegacyPass(processed, merges, rest);
      LegacyShaped(r.lines, k) && LinesFree(r.lines, '\n')
    decreases |rest|
  {
    if |rest| > 0 {
      var line := rest[0];
      assert LinesFree(rest[1..], '\n') by {
        forall i | 0 <= i < |rest[1..]| ensures '\n' !in rest[1..][i] { assert rest[1..][i] == rest[i + 1]; }
      }
      var n := |processed|;
      var prev := processed[n - 1];
      LegacyStepShaped(processed, line, k);
      if StartsWith(line, '|') || '|' !in prev {
        var p := processed + [line];
        assert LegacyPass(processed, merges, rest) == LegacyPass(p, merges, rest[1..]);
        LegacyPassShaped(p, merges, rest[1..], k);
      } else {
        var p := processed[..n - 1] + [LegacyMerged(prev, line)];
        assert LegacyPass(processed, merges, rest) == LegacyPass(p, merges + 1, rest[1..]);
        LegacyPassShaped(p, merges + 1, rest[1..], k);
      }
    }
  }

  /** Lines that all start with a pipe are left exactly as they were. */
  lemma {:induction false} LegacyPassIdle(processed: seq<string>, merges: nat, rest: seq<string>)
    requires forall i :: 0 <= i < |rest| ==> StartsWith(rest[i], '|')
    ensures LegacyPass(processed, merges, rest) == Done(processed + rest, merges)
    decreases |rest|
  {
    if |rest| > 0 {
      assert forall i :: 0 <= i < |rest[1..]| ==> rest[1..][i] == rest[i + 1];
      LegacyPassIdle(processed + [rest[0]], merges, rest[1..]);
      assert processed + [rest[0]] + rest[1..] == processed + rest;
    }
  }

  /** The earlier revision fails exactly on fewer than four lines; on success
      the result's lines keep the rule and the heading, are no more than
      before, and every line after the heading starts with a pipe unless the
      line before it has none. */
  lemma FixLegacyShape(result: string)
    ensures var lines := Split(result, '\n');
      FixLegacy(result).ok <==> |lines| >= 4
    ensures var lines := Split(result, '\n');
      |lines| < 4 ==> FixLegacy(result).text == result
    ensures var lines := Split(result, '\n');
      var r := FixLegacy(result);
      r.ok ==>
        var out := Split(r.text, '\n');
        && 3 <= |out| <= |lines|
        && out[..2] == lines[..2]
        && LegacyShaped(out, 3)
  {
    var lines := Split(result, '\n');
    if |lines| >= 4 {
      var p := lines[..3];
      SplitPiecesFree(result, '\n');
      assert LinesFree(p, '\n') && LinesFree(lines[3..], '\n') by {
        forall i | 0 <= i < 3 ensures '\n' !in p[i] { assert p[i] == lines[i]; }
        forall i | 0 <= i < |lines| - 3 ensures '\n' !in lines[3..][i] { assert lines[3..][i] == lines[i + 3]; }
      }
      LegacyPassKeeps(p, 0, lines[3..]);
      LegacyPassShaped(p, 0, lines[3..], 3);
      var r := LegacyPass(p, 0, lines[3..]);
      SplitJoin(r.lines, '\n');
      assert r.lines[..2] == p[..2];
    }
  }

  /** Input whose lines after the heading all start with a pipe comes back unchanged. */
  lemma FixLegacyIdle(result: string)
    requires |Split(result, '\n')| >= 4
    requires forall i :: 3 <= i < |Split(result, '\n')| ==> StartsWith(Split(result, '\n')[i], '|')
    ensures FixLegacy(result) == Repair(true, result)
  {
    var lines := Split(result, '\n');
    assert forall i :: 0 <= i < |lines[3..]| ==> lines[3..][i] == lines[i + 3];
    LegacyPassIdle(lines[..3], 0, lines[3..]);
    assert lines[..3] + lines[3..] == lines;
    JoinSplit(result, '\n');
  }

  /** A table record as SAP printed it: on one line, or wrapped onto a
      second line. */
  datatype Record = Whole(line: string) | Wrapped(head: string, tail: string)

  /** The printed lines of a run of records. */
  function PrintedLines(records: seq<Record>): (r: seq<string>)
    ensures |r| >= |records|
  {
    if |records| == 0 then []
    else
      (match records[0]
       case Whole(l) => [l]
       case Wrapped(h, t) => [h, t])
      + PrintedLines(records[1..])
  }

  lemma {:induction false} PrintedLinesAppend(a: seq<Record>, b: seq<Record>)
    ensures PrintedLines(a + b) == PrintedLines(a) + PrintedLines(b)
    decreases |a|
  {
    if |a| > 0 {
      assert (a + b)[0] == a[0] && (a + b)[1..] == a[1..] + b;
      PrintedLinesAppend(a[1..], b);
    } else {
      assert a + b == b;
    }
  }

  function WrappedCount(records: seq<Record>): nat {
    if |records| == 0 then 0
    else (if records[0].Wrapped? then 1 else 0) + WrappedCount(records[1..])
  }

  /** A record the current revision recognises: a whole line is not a
      continuation; a wrapped record's second line is one, its first line is
      not, holds a pipe, and the two hold at least as many pipes as the heading. */
  predicate CurrentRecord(rec: Record, expected: nat) {
    match rec
    case Whole(l) => !IsContinuation(l, expected)
    case Wrapped(h, t) =>
      && !IsContinuation(h, expected) && IsContinuation(t, expected) && '|' in h
      && CountChar(h, '|') + CountChar(t, '|') >= expected
  }

  /** The line a record should come back as under the current revision. */
  function CurrentRecordLine(rec: Record): string {
    if rec.Whole? then rec.line else Merged(rec.head, rec.tail)
  }

  function CurrentRecordLines(records: seq<Record>): seq<string> {
    if |records| == 0 then []
    else [CurrentRecordLine(records[0])] + CurrentRecordLines(records[1..])
  }

  /** The current revision on the first of a run of records. */
  lemma CurrentFirstRecord(processed: seq<string>, merges: nat, records: seq<Record>, expected: nat)
    requires |records| >= 1 && CurrentRecord(records[0], expected)
    ensures CurrentPass(processed, merges, PrintedLines(records), expected)
         == CurrentPass(processed + [CurrentRecordLine(records[0])],
                        merges + (if records[0].Wrapped? then 1 else 0),
                        PrintedLines(records[1..]), expected)
  {
    var rec := records[0];
    var more := PrintedLines(records[1..]);
    if rec.Whole? {
      var l := rec.line;
      assert PrintedLines(records) == [l] + more;
      assert ([l] + more)[0] == l && ([l] + more)[1..] == more;
    } else {
      var h, t := rec.head, rec.tail;
      var lines := [h, t] + more;
      assert PrintedLines(records) == lines;
      assert lines[0] == h && lines[1..] == [t] + more;
      assert CurrentPass(processed, merges, lines, expected) == CurrentPass(processed + [h], merges, [t] + more, expected);
      MergeCount(h, t);
      assert ([t] + more)[0] == t && ([t] + more)[1..] == more;
      assert (processed + [h])[..|processed|] == processed;
    }
  }

  /** The current revision turns each recognised record back into one line,
      and merges once per wrapped record. */
  /** How the first record adds to the lines the current revision gives back. */
  lemma CurrentRecordsCons(processed: seq<string>, records: seq<Record>)
    requires |records| > 0
    ensures processed + CurrentRecordLines(records)
         == processed + [CurrentRecordLine(records[0])] + CurrentRecordLines(records[1..])
    ensures WrappedCount(records) == (if records[0].Wrapped? then 1 else 0) + WrappedCount(records[1..])
  {
    assert CurrentRecordLines(records) == [CurrentRecordLine(records[0])] + CurrentRecordLines(records[1..]);
  }

  lemma {:induction false} CurrentRecords(processed: seq<string>, merges: nat, records: seq<Record>, expected: nat)
    requires forall i :: 0 <= i < |records| ==> CurrentRecord(records[i], expected)
    ensures CurrentPass(processed, merges, PrintedLines(records), expected)
         == Done(processed + CurrentRecordLines(records), merges + WrappedCount(records))
    decreases |records|
  {
    if |records| > 0 {
      var first := CurrentRecordLine(records[0]);
      var step := if records[0].Wrapped? then 1 else 0;
      var rest := records[1..];
      var tl := CurrentRecordLines(rest);
      CurrentFirstRecord(processed, merges, records, expected);
      forall i | 0 <= i < |rest| ensures CurrentRecord(rest[i], expected) {
        assert rest[i] == records[i + 1];
      }
      CurrentRecords(processed + [first], merges + step, rest, expected);
      CurrentRecordsCons(processed, records);
    }
  }

  /** A record the earlier revision recognises: a whole line starts with a
      pipe; a wrapped record's first line starts with a pipe and its second
      line does not. */
  predicate LegacyRecord(rec: Record) {
    match rec
    case Whole(l) => StartsWith(l, '|')
    case Wrapped(h, t) => StartsWith(h, '|') && !StartsWith(t, '|')
  }

  /** The line a record should come back as under the earlier revision. */
  function LegacyRecordLine(rec: Record): string {
    if rec.Whole? then rec.line else LegacyMerged(rec.head, rec.tail)
  }

  function LegacyRecordLines(records: seq<Record>): seq<string> {
    if |records| == 0 then []
    else [LegacyRecordLine(records[0])] + LegacyRecordLines(records[1..])
  }

  /** The earlier revision on the first of a run of records. */
  lemma LegacyFirstRecord(processed: seq<string>, merges: nat, records: seq<Record>)
    requires |records| >= 1 && LegacyRecord(records[0])
    ensures LegacyPass(processed, merges, PrintedLines(records))
         == LegacyPass(processed + [LegacyRecordLine(records[0])],
                       merges + (if records[0].Wrapped? then 1 else 0),
                       PrintedLines(records[1..]))
  {
    var rec := records[0];
    var more := PrintedLines(records[1..]);
    if rec.Whole? {
      var l := rec.line;
      assert PrintedLines(records) == [l] + more;
      assert ([l] + more)[0] == l && ([l] + more)[1..] == more;
    } else {
      var h, t := rec.head, rec.tail;
      var lines := [h, t] + more;
      assert PrintedLines(records) == lines;
      assert h[0] == '|';
      assert lines[0] == h && lines[1..] == [t] + more;
      assert LegacyPass(processed, merges, lines) == LegacyPass(processed + [h], merges, [t] + more);
      assert ([t] + more)[0] == t && ([t] + more)[1..] == more;
      assert (processed + [h])[..|processed|] == processed;
    }
  }

  /** How the first record adds to the lines the earlier revision gives back. */
  lemma LegacyRecordsCons(processed: seq<string>, records: seq<Record>)
    requires |records| > 0
    ensures processed + LegacyRecordLines(records)
         == processed + [LegacyRecordLine(records[0])] + LegacyRecordLines(records[1..])
    ensures WrappedCount(records) == (if records[0].Wrapped? then 1 else 0) + WrappedCount(records[1..])
  {
    assert LegacyRecordLines(records) == [LegacyRecordLine(records[0])] + LegacyRecordLines(records[1..]);
  }

  lemma {:induction false} LegacyRecords(processed: seq<string>, merges: nat, records: seq<Record>)
    requires forall i :: 0 <= i < |records| ==> LegacyRecord(records[i])
    ensures LegacyPass(processed, merges, PrintedLines(records))
         == Done(processed + LegacyRecordLines(records), merges + WrappedCount(records))
    decreases |records|
  {
    if |records| > 0 {
      var first := LegacyRecordLine(records[0]);
      var step := if records[0].Wrapped? then 1 else 0;
      var rest := records[1..];
      var tl := LegacyRecordLines(rest);
      LegacyFirstRecord(processed, merges, records);
      forall i | 0 <= i < |rest| ensures LegacyRecord(rest[i]) {
        assert rest[i] == records[i + 1];
      }
      LegacyRecords(processed + [first], merges + step, rest);
      LegacyRecordsCons(processed, records);
    }
  }

  /** A line the current revision does not merge is kept as it is. */
  lemma CurrentKeep(processed: seq<string>, merges: nat, line: string, rest: seq<string>, expected: nat)
    requires !IsContinuation(line, expected)
    ensures CurrentPass(processed, merges, [line] + rest, expected) ==
            CurrentPass(processed + [line], merges, rest, expected)
  {
    assert ([line] + rest)[1..] == rest;
  }

  /** A record printed on two lines, whose lines together hold enough pipes,
      is merged back into one line by the current revision. */
  lemma CurrentJoin(processed: seq<string>, merges: nat, head: string, tail: string, rest: seq<string>, expected: nat)
    requires StartsWith(head, '|') && IsContinuation(tail, expected)
    requires CountChar(head, '|') + CountChar(tail, '|') >= expected
    ensures CurrentPass(processed, merges, [head, tail] + rest, expected) ==
            CurrentPass(processed + [Merged(head, tail)], merges + 1, rest, expected)
  {
    assert [head, tail] + rest == [head] + ([tail] + rest);
    CurrentKeep(processed, merges, head, [tail] + rest, expected);
    var p := processed + [head];
    assert p[|p| - 1] == head && p[..|p| - 1] == processed;
    assert head[0] == '|';
    CurrentStep(p, merges, [tail] + rest, expected);
    assert ([tail] + rest)[0] == tail && ([tail] + rest)[1..] == rest;
  }

  /** A line that starts with a pipe is kept by the earlier revision. */
  lemma LegacyKeep(processed: seq<string>, merges: nat, line: string, rest: seq<string>)
    requires StartsWith(line, '|')
    ensures LegacyPass(processed, merges, [line] + rest) == LegacyPass(processed + [line], merges, rest)
  {
    assert ([line] + rest)[1..] == rest;
  }

  /** The earlier revision merges a line that does not start with a pipe into
      the line before it when that one starts with a pipe. */
  lemma LegacyJoin(processed: seq<string>, merges: nat, head: string, tail: string, rest: seq<string>)
    requires StartsWith(head, '|') && !StartsWith(tail, '|')
    ensures LegacyPass(processed, merges, [head, tail] + rest) ==
            LegacyPass(processed + [LegacyMerged(head, tail)], merges + 1, rest)
  {
    assert [head, tail] + rest == [head] + ([tail] + rest);
    LegacyKeep(processed, merges, head, [tail] + rest);
    var p := processed + [head];
    assert p[|p| - 1] == head && p[..|p| - 1] == processed;
    assert head[0] == '|';
    assert ([tail] + rest)[0] == tail && ([tail] + rest)[1..] == rest;
  }

  /** The current revision's answer for a copied list of at least four lines
      whose pass ends without an error. */
  lemma FixCurrentDone(lines: seq<string>, out: seq<string>, merges: nat)
    requires |lines| >= 4 && LinesFree(lines, '\n')
    requires CurrentPass(lines[..3], 0, lines[3..], CountChar(lines[1], '|')) == Done(out, merges)
    ensures FixCurrent(Join(lines, "\n")) == Repair(true, Join(out, "\n"))
  {
    SplitJoin(lines, '\n');
  }

  lemma FixLegacyDone(lines: seq<string>, out: seq<string>, merges: nat)
    requires |lines| >= 4 && LinesFree(lines, '\n')
    requires LegacyPass(lines[..3], 0, lines[3..]) == Done(out, merges)
    ensures FixLegacy(Join(lines, "\n")) == Repair(true, Join(out, "\n"))
  {
    SplitJoin(lines, '\n');
  }
}
