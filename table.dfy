/** The table materialiser: `clean_data` in `DF_Tools.py` and its variant
    `clean_and_load_data` in `test.py`. A pipe-separated listing loses its
    decorative lines; its first line names the columns; rows with more pipes
    than the heading get the extra pipes of their description turned into
    dashes; the rows are cut into stripped fields and the anonymous columns
    are dropped. A pandas DataFrame is modelled as column names plus rows of
    cells. */
module TableCleaning {
  import opened PyText
  import opened Headers

  /** A DataFrame cell: pandas fills the cells a short row lacks with `None`. */
  datatype Cell = Missing | Text(text: string)

  datatype Table = Table(columns: seq<string>, rows: seq<seq<Cell>>)

  /** Every row has one cell per column. */
  predicate WellFormed(t: Table) {
    forall i :: 0 <= i < |t.rows| ==> |t.rows[i]| == |t.columns|
  }

  // ---------------------------------------------------------------------
  // Decorative lines

  /** `all(c == '-' for c in line.replace(' ', ''))`: nothing but dashes and
      blanks (true of the empty line). */
  predicate DashRule(line: string) {
    forall i :: 0 <= i < |line| ==> line[i] == '-' || line[i] == ' '
  }

  /** The stripped lines `clean_data` keeps, in their order: `if line and not
      all(...)`, where the empty line already counts as a dash rule. */
  function Survivors(lines: seq<string>): (r: seq<string>)
    ensures |r| <= |lines|
  {
    if |lines| == 0 then []
    else
      var line := Strip(lines[|lines| - 1]);
      Survivors(lines[..|lines| - 1]) + (if DashRule(line) then [] else [line])
  }

  /** Every line kept has content and is not a rule. */
  lemma {:induction false} SurvivorsContent(lines: seq<string>)
    ensures forall i :: 0 <= i < |Survivors(lines)| ==> Survivors(lines)[i] != "" && !DashRule(Survivors(lines)[i])
  {
    if |lines| > 0 {
      SurvivorsContent(lines[..|lines| - 1]);
    }
  }

  /** The first loop of `clean_data`. */
  method KeepContentLines(lines: seq<string>) returns (filtered: seq<string>)
    ensures filtered == Survivors(lines)
  {
    filtered := [];
    for i := 0 to |lines|
      invariant filtered == Survivors(lines[..i])
    {
      assert lines[..i + 1][..i] == lines[..i];
      var line := Strip(lines[i]);
      if !DashRule(line) {
        filtered := filtered + [line];
      }
    }
    assert lines[..|lines|] == lines;
  }

  /** Every line strips to dashes and blanks. */
  predicate AllRules(lines: seq<string>) {
    forall i :: 0 <= i < |lines| ==> DashRule(Strip(lines[i]))
  }

  /** A listing has no content exactly when each of its lines strips to
      dashes and blanks. */
  lemma {:induction false} SurvivorsEmpty(lines: seq<string>)
    ensures Survivors(lines) == [] <==> AllRules(lines)
  {
    if |lines| > 0 {
      SurvivorsEmpty(lines[..|lines| - 1]);
    }
  }

  // ---------------------------------------------------------------------
  // Over-piped rows

  /** `[i for i, char in enumerate(line) if char == '|']`: one position per
      pipe. */
  function PipeIndices(s: string): (r: seq<nat>)
    ensures |r| == CountChar(s, '|')
  {
    if |s| == 0 then []
    else
      var t := s[..|s| - 1];
      CountConcat(t, [s[|s| - 1]], '|');
      assert s == t + [s[|s| - 1]];
      PipeIndices(t) + (if s[|s| - 1] == '|' then [|s| - 1] else [])
  }

  /** The `k`-th position holds a pipe with `k` pipes before it. */
  lemma {:induction false} PipeAt(s: string, k: nat)
    requires k < CountChar(s, '|')
    ensures var p := PipeIndices(s)[k]; p < |s| && s[p] == '|' && CountChar(s[..p], '|') == k
    decreases |s|
  {
    var t := s[..|s| - 1];
    CountConcat(t, [s[|s| - 1]], '|');
    assert s == t + [s[|s| - 1]];
    if k < CountChar(t, '|') {
      PipeAt(t, k);
      var p := PipeIndices(t)[k];
      assert PipeIndices(s)[k] == p;
      assert s[..p] == t[..p];
    } else {
      assert s[..|s| - 1] == t;
    }
  }

  /** Pipe `a` comes before pipe `b`, with the `b - a - 1` pipes of index
      `a + 1` to `b - 1` between them. */
  lemma PipesBetween(s: string, a: nat, b: nat)
    requires a < b < CountChar(s, '|')
    ensures var p := PipeIndices(s);
      p[a] < p[b] < |s| && CountChar(s[p[a] + 1..p[b]], '|') == b - a - 1
  {
    PipeOrder(s, a, b);
    CountSpan(s, PipeIndices(s)[a], PipeIndices(s)[b]);
  }

  /** The pipes strictly between a pipe at `i` and position `j`. */
  lemma CountSpan(s: string, i: nat, j: nat)
    requires i < j <= |s| && s[i] == '|'
    ensures CountChar(s[i + 1..j], '|') == CountChar(s[..j], '|') - CountChar(s[..i], '|') - 1
  {
    var x, m := s[..i], s[i + 1..j];
    assert s[..j] == x + [s[i]] + m;
    CountConcat(x + [s[i]], m, '|');
    CountConcat(x, [s[i]], '|');
  }

  /** Later pipes sit at later positions. */
  lemma PipeOrder(s: string, a: nat, b: nat)
    requires a < b < CountChar(s, '|')
    ensures PipeIndices(s)[a] < PipeIndices(s)[b] < |s|
    ensures s[PipeIndices(s)[a]] == '|' && CountChar(s[..PipeIndices(s)[a]], '|') == a
    ensures CountChar(s[..PipeIndices(s)[b]], '|') == b
  {
    var pa, pb := PipeIndices(s)[a], PipeIndices(s)[b];
    PipeAt(s, a);
    PipeAt(s, b);
    CountPrefixOrder(s, pa, pb);
  }

  /** A prefix with fewer pipes is the shorter one. */
  lemma CountPrefixOrder(s: string, x: nat, y: nat)
    requires x <= |s| && y <= |s| && CountChar(s[..x], '|') < CountChar(s[..y], '|')
    ensures x < y
  {
    if y <= x {
      assert s[..x] == s[..y] + s[y..x];
      CountConcat(s[..y], s[y..x], '|');
    }
  }

  /** `line[:start] + line[start:end].replace('|', '-') + line[end:]`. */
  function Repiped(line: string, start: nat, end: nat): string
    requires start <= end <= |line|
  {
    line[..start] + ReplaceChar(line[start..end], '|', '-') + line[end..]
  }

  /** An over-piped row with its description, from after pipe 3 up to pipe
      `3 + extra`, freed of pipes. */
  function Corrected(line: string, expected: nat): string
    requires expected < CountChar(line, '|')
    requires 4 + (CountChar(line, '|') - expected) < CountChar(line, '|')
  {
    var idx := PipeIndices(line);
    var extra := CountChar(line, '|') - expected;
    PipesBetween(line, 3, 4 + extra);
    Repiped(line, idx[3] + 1, idx[4 + extra])
  }

  /** What the correction loop does with one row. */
  datatype Fix = Keep(line: string) | Skip | Fail

  /** One row under `clean_data`: a row with no more pipes than the heading is
      kept; otherwise the description, from after pipe 3 to pipe `3 + extra`,
      loses its pipes. Fewer than four pipes raise `ValueError`, a pipe index
      past the end raises `IndexError`, and a count that still differs raises
      `ValueError`; each makes `clean_data` return `None`. */
  function FixRow(line: string, expected: nat): Fix {
    var actual := CountChar(line, '|');
    if actual <= expected then Keep(line)
    else
      var extra := actual - expected;
      var idx := PipeIndices(line);
      if |idx| < 4 then Fail
      else if 4 + extra >= |idx| then Fail
      else
        var fixed := Corrected(line, expected);
        if CountChar(fixed, '|') == expected then Keep(fixed) else Fail
  }

  /** The description correction leaves exactly the heading's pipes, and
      changes nothing but pipes into dashes, and those only after pipe 3
      and before pipe `4 + extra`. */
  lemma RepipedCount(line: string, expected: nat)
    requires CountChar(line, '|') > expected
    requires 4 + (CountChar(line, '|') - expected) < CountChar(line, '|')
    ensures var fixed := Corrected(line, expected);
      var idx := PipeIndices(line);
      var extra := CountChar(line, '|') - expected;
      && CountChar(fixed, '|') == expected
      && |fixed| == |line|
      && (forall i :: 0 <= i < |line| ==> fixed[i] == line[i] || (line[i] == '|' && fixed[i] == '-'))
      && (forall i :: 0 <= i < |line| && (i <= idx[3] || idx[4 + extra] <= i) ==> fixed[i] == line[i])
  {
    var idx := PipeIndices(line);
    var extra := CountChar(line, '|') - expected;
    PipesBetween(line, 3, 4 + extra);
    CorrectedCount(line, expected);
    RepipedShape(line, idx[3] + 1, idx[4 + extra]);
  }

  /** The description correction leaves exactly the heading's pipes. */
  lemma CorrectedCount(line: string, expected: nat)
    requires CountChar(line, '|') > expected
    requires 4 + (CountChar(line, '|') - expected) < CountChar(line, '|')
    ensures CountChar(Corrected(line, expected), '|') == expected
  {
    var idx := PipeIndices(line);
    var actual := CountChar(line, '|');
    var extra := actual - expected;
    var start, end := idx[3] + 1, idx[4 + extra];
    PipesBetween(line, 3, 4 + extra);
    PipeAt(line, 3);
    var head, mid, tail := line[..start], line[start..end], line[end..];
    assert line == head + mid + tail;
    CountConcat(head + mid, tail, '|');
    CountConcat(head, mid, '|');
    assert head == line[..idx[3]] + [line[idx[3]]];
    CountConcat(line[..idx[3]], [line[idx[3]]], '|');
    var dashed := ReplaceChar(mid, '|', '-');
    ReplaceRemoves(mid, '|', '-');
    CountAbsent(dashed, '|');
    CountConcat(head + dashed, tail, '|');
    CountConcat(head, dashed, '|');
    assert Repiped(line, start, end) == head + dashed + tail;
  }

  /** Replacing the pipes of a span keeps the length, changes nothing but
      pipes into dashes, and nothing outside the span. */
  lemma RepipedShape(line: string, start: nat, end: nat)
    requires start <= end <= |line|
    ensures var fixed := Repiped(line, start, end);
      && |fixed| == |line|
      && (forall i :: 0 <= i < |line| ==> fixed[i] == line[i] || (line[i] == '|' && fixed[i] == '-'))
      && (forall i :: 0 <= i < |line| && (i < start || end <= i) ==> fixed[i] == line[i])
  {
    var fixed := Repiped(line, start, end);
    var mid := line[start..end];
    var dashed := ReplaceChar(mid, '|', '-');
    assert fixed == line[..start] + dashed + line[end..];
    forall i | 0 <= i < |line| ensures fixed[i] == line[i] || (line[i] == '|' && fixed[i] == '-') {
      if start <= i < end {
        assert fixed[i] == dashed[i - start] && line[i] == mid[i - start];
      }
    }
    forall i | 0 <= i < |line| && (i < start || end <= i) ensures fixed[i] == line[i] {
      if end <= i {
        assert fixed[i] == line[end..][i - end];
      }
    }
  }

  /** `clean_data` never skips a row: it keeps it, repaired to the heading's
      pipe count when it had more, or fails exactly when the row has more
      pipes than the heading and the heading no more than four. */
  lemma FixRowOutcome(line: string, expected: nat)
    ensures FixRow(line, expected) != Skip
    ensures FixRow(line, expected) == Fail <==> CountChar(line, '|') > expected && expected <= 4
    ensures FixRow(line, expected).Keep? ==>
      && |FixRow(line, expected).line| == |line|
      && CountChar(FixRow(line, expected).line, '|') == (if CountChar(line, '|') <= expected then CountChar(line, '|') else expected)
  {
    var actual := CountChar(line, '|');
    if actual > expected && 4 + (actual - expected) < actual {
      RepipedCount(line, expected);
    }
  }

  /** The rows after correction, or `None` once a row fails. */
  function CorrectedRows(lines: seq<string>, expected: nat): (r: Option<seq<string>>)
    ensures r.Some? ==> |r.value| == |lines|
    ensures r.Some? ==> forall i :: 0 <= i < |r.value| ==> FixRow(lines[i], expected) == Keep(r.value[i])
  {
    if |lines| == 0 then Some([])
    else
      match FixRow(lines[0], expected)
      case Keep(l) =>
        (match CorrectedRows(lines[1..], expected)
         case Some(rest) =>
           assert forall i :: 1 <= i < |lines| ==> lines[1..][i - 1] == lines[i];
           Some([l] + rest)
         case None => None)
      case _ => None
  }

  /** `acc` in front of the rows still to come. */
  function Prepend(acc: seq<string>, rest: Option<seq<string>>): Option<seq<string>> {
    match rest
    case Some(r) => Some(acc + r)
    case None => None
  }

  /** The body of the correction loop of `clean_data` for one row. */
  method CorrectLine(line: string, expected: nat) returns (fix: Fix)
    ensures fix == FixRow(line, expected)
  {
    var actual := CountChar(line, '|');
    if actual > expected {
      var extra := actual - expected;
      var pipeIndices := PipeIndices(line);
      if |pipeIndices| >= 4 {
        if 4 + extra >= |pipeIndices| {
          return Fail;
        }
        var correctedLine := Corrected(line, expected);
        if CountChar(correctedLine, '|') == expected {
          fix := Keep(correctedLine);
        } else {
          fix := Fail;
        }
      } else {
        fix := Fail;
      }
    } else {
      fix := Keep(line);
    }
  }

  /** The correction loop of `clean_data`; a failing row raises, which the
      surrounding `try` turns into `None`. */
  method CorrectLines(lines: seq<string>, expected: nat) returns (r: Option<seq<string>>)
    ensures r == CorrectedRows(lines, expected)
  {
    var corrected: seq<string> := [];
    assert lines[0..] == lines;
    if CorrectedRows(lines, expected).Some? {
      assert corrected + CorrectedRows(lines, expected).value == CorrectedRows(lines, expected).value;
    }
    for i := 0 to |lines|
      invariant CorrectedRows(lines, expected) == Prepend(corrected, CorrectedRows(lines[i..], expected))
    {
      assert lines[i..][1..] == lines[i + 1..];
      var fix := CorrectLine(lines[i], expected);
      match fix {
        case Keep(l) =>
          if CorrectedRows(lines[i + 1..], expected).Some? {
            assert corrected + ([l] + CorrectedRows(lines[i + 1..], expected).value)
                == (corrected + [l]) + CorrectedRows(lines[i + 1..], expected).value;
          }
          corrected := corrected + [l];
        case _ =>
          return None;
      }
    }
    assert lines[|lines|..] == [];
    assert corrected + [] == corrected;
    r := Some(corrected);
  }

  // ---------------------------------------------------------------------
  // Fields, frame, anonymous columns

  /** `[field.strip() for field in line.split('|')]`. */
  function Fields(line: string): seq<string> {
    var parts := Split(line, '|');
    seq(|parts|, i requires 0 <= i < |parts| => Strip(parts[i]))
  }

  function FieldRows(lines: seq<string>): seq<seq<string>> {
    seq(|lines|, i requires 0 <= i < |lines| => Fields(lines[i]))
  }

  /** Cutting a heading in front of the rows and dropping its fields again
      leaves the rows' fields. */
  lemma FieldRowsTail(header: string, lines: seq<string>)
    ensures FieldRows([header] + lines)[1..] == FieldRows(lines)
  {
    assert forall k :: 0 <= k < |lines| ==> ([header] + lines)[k + 1] == lines[k];
  }

  /** The loop that cuts the corrected rows into fields. */
  method SplitFields(lines: seq<string>) returns (rows: seq<seq<string>>)
    ensures rows == FieldRows(lines)
  {
    rows := [];
    for i := 0 to |lines|
      invariant |rows| == i
      invariant forall k :: 0 <= k < i ==> rows[k] == Fields(lines[k])
    {
      rows := rows + [Fields(lines[i])];
    }
  }

  /** The length of the longest row. */
  function Width(rows: seq<seq<string>>): (w: nat)
    ensures forall i :: 0 <= i < |rows| ==> |rows[i]| <= w
    ensures |rows| > 0 ==> exists i :: 0 <= i < |rows| && |rows[i]| == w
  {
    if |rows| == 0 then 0
    else
      var w := Width(rows[1..]);
      assert forall i :: 1 <= i < |rows| ==> rows[i] == rows[1..][i - 1];
      if |rows[0]| >= w then |rows[0]| else w
  }

  function Padded(row: seq<string>, width: nat): seq<Cell>
    requires |row| <= width
  {
    seq(width, k requires 0 <= k < width => if k < |row| then Text(row[k]) else Missing)
  }

  /** `pd.DataFrame(data, columns=headers)`: the rows are padded to the widest
      one, and a width other than the number of columns raises `ValueError`.
      No rows give an empty frame with the given columns. */
  function Frame(columns: seq<string>, rows: seq<seq<string>>): (r: Option<Table>)
    ensures r.Some? ==> r.value.columns == columns && |r.value.rows| == |rows| && WellFormed(r.value)
    ensures r.None? <==>
      || (exists i :: 0 <= i < |rows| && |rows[i]| > |columns|)
      || (|rows| > 0 && forall i :: 0 <= i < |rows| ==> |rows[i]| < |columns|)
  {
    if |rows| > 0 && Width(rows) != |columns| then None
    else Some(Table(columns, seq(|rows|, i requires 0 <= i < |rows| => Padded(rows[i], |columns|))))
  }

  /** `col == '' or pd.isna(col) or str(col).startswith('Unnamed_')`. */
  predicate Anonymous(col: string) {
    col == "" || (|col| >= 8 && col[..8] == "Unnamed_")
  }

  /** The entries of `xs` that sit under a named column. */
  function KeepNamed<T>(columns: seq<string>, xs: seq<T>): (r: seq<T>)
    requires |xs| == |columns|
    ensures |r| == |KeepNamedColumns(columns)|
  {
    if |columns| == 0 then []
    else (if Anonymous(columns[0]) then [] else [xs[0]]) + KeepNamed(columns[1..], xs[1..])
  }

  function KeepNamedColumns(columns: seq<string>): seq<string> {
    if |columns| == 0 then []
    else (if Anonymous(columns[0]) then [] else [columns[0]]) + KeepNamedColumns(columns[1..])
  }

  /** The columns kept are exactly the named ones. */
  lemma {:induction false} KeptColumns(columns: seq<string>)
    ensures forall c :: c in KeepNamedColumns(columns) <==> c in columns && !Anonymous(c)
  {
    if |columns| > 0 {
      KeptColumns(columns[1..]);
      assert columns == [columns[0]] + columns[1..];
    }
  }

  /** `df.drop(columns=unnamed_cols)`, then `reset_index(drop=True)`. */
  function DropAnonymous(t: Table): Table
    requires WellFormed(t)
  {
    Table(KeepNamedColumns(t.columns),
          seq(|t.rows|, i requires 0 <= i < |t.rows| => KeepNamed(t.columns, t.rows[i])))
  }

  /** Every position moved one to the right. */
  function Shift(p: seq<nat>): (r: seq<nat>)
    ensures |r| == |p| && forall k :: 0 <= k < |p| ==> r[k] == p[k] + 1
  {
    seq(|p|, k requires 0 <= k < |p| => p[k] + 1)
  }

  /** The positions of the named columns, in order. */
  function NamedPositions(columns: seq<string>): seq<nat> {
    if |columns| == 0 then []
    else (if Anonymous(columns[0]) then [] else [0]) + Shift(NamedPositions(columns[1..]))
  }

  /** A selection from the tail, shifted, is a selection from the whole,
      with or without the head in front. */
  lemma PicksTail<T>(xs: seq<T>, p: seq<nat>, ys: seq<T>, keep: bool)
    requires |xs| > 0 && Picks(xs[1..], p, ys)
    ensures Picks(xs, (if keep then [0] else []) + Shift(p), (if keep then [xs[0]] else []) + ys)
  {
    var q := (if keep then [0] else []) + Shift(p);
    var zs := (if keep then [xs[0]] else []) + ys;
    var d := if keep then 1 else 0;
    forall k | d <= k < |q| ensures q[k] == p[k - d] + 1 && zs[k] == ys[k - d] {}
    forall k | d <= k < |q| ensures q[k] < |xs| && zs[k] == xs[q[k]] {
      assert xs[1..][p[k - d]] == xs[q[k]];
    }
  }

  /** The named columns are the columns read at `NamedPositions`, which are
      exactly the positions of the named columns; every row is cut the same
      way. */
  lemma {:induction false} KeepNamedAt<T>(columns: seq<string>, xs: seq<T>)
    requires |xs| == |columns|
    ensures Picks(columns, NamedPositions(columns), KeepNamedColumns(columns))
    ensures Picks(xs, NamedPositions(columns), KeepNamed(columns, xs))
    ensures forall k :: 0 <= k < |columns| ==> (k in NamedPositions(columns) <==> !Anonymous(columns[k]))
  {
    if |columns| > 0 {
      var rest := NamedPositions(columns[1..]);
      KeepNamedAt(columns[1..], xs[1..]);
      var keep := !Anonymous(columns[0]);
      PicksTail(columns, rest, KeepNamedColumns(columns[1..]), keep);
      PicksTail(xs, rest, KeepNamed(columns[1..], xs[1..]), keep);
      var p := NamedPositions(columns);
      assert p == (if keep then [0] else []) + Shift(rest);
      forall k | 0 <= k < |columns| ensures (k in p <==> !Anonymous(columns[k])) {
        if k > 0 {
          assert columns[k] == columns[1..][k - 1];
          if k - 1 in rest {
            var m :| 0 <= m < |rest| && rest[m] == k - 1;
            assert Shift(rest)[m] == k;
          }
        }
      }
    }
  }

  /** After the drop no column is anonymous and every row still fits; the
      columns kept are the named ones in their order, and every row keeps the
      cells under them. */
  lemma DropAnonymousShape(t: Table)
    requires WellFormed(t)
    ensures WellFormed(DropAnonymous(t)) && |DropAnonymous(t).rows| == |t.rows|
    ensures forall c :: c in DropAnonymous(t).columns <==> c in t.columns && !Anonymous(c)
    ensures var p := NamedPositions(t.columns);
      && Picks(t.columns, p, DropAnonymous(t).columns)
      && (forall k :: 0 <= k < |t.columns| ==> (k in p <==> !Anonymous(t.columns[k])))
      && forall i :: 0 <= i < |t.rows| ==> Picks(t.rows[i], p, DropAnonymous(t).rows[i])
  {
    KeptColumns(t.columns);
    KeepNamedAt(t.columns, t.columns);
    forall i | 0 <= i < |t.rows| ensures Picks(t.rows[i], NamedPositions(t.columns), DropAnonymous(t).rows[i]) {
      KeepNamedAt(t.columns, t.rows[i]);
    }
  }

  /** Field `k` of a row cut at its pipes, stripped; `Missing` where the row
      has fewer fields and the frame pads it. */
  function FieldAt(line: string, k: nat): Cell {
    var parts := Split(line, '|');
    if k < |parts| then Text(Strip(parts[k])) else Missing
  }

  /** `t` holds, row by row, the fields of `lines` under the named columns
      of `names`, in their order. */
  ghost predicate Aligned(names: seq<string>, lines: seq<string>, t: Table) {
    var p := NamedPositions(names);
    && Picks(names, p, t.columns)
    && (forall k :: 0 <= k < |names| ==> (k in p <==> !Anonymous(names[k])))
    && WellFormed(t)
    && |t.rows| == |lines|
    && forall i, j :: 0 <= i < |t.rows| && 0 <= j < |t.columns| ==> t.rows[i][j] == FieldAt(lines[i], p[j])
  }

  /** The frame of the rows' fields, cleared of anonymous columns, is
      aligned with the rows. */
  lemma DroppedAligned(names: seq<string>, lines: seq<string>)
    requires Frame(names, FieldRows(lines)).Some?
    ensures Aligned(names, lines, DropAnonymous(Frame(names, FieldRows(lines)).value))
  {
    var f := Frame(names, FieldRows(lines)).value;
    DropAnonymousShape(f);
    var t := DropAnonymous(f);
    var p := NamedPositions(names);
    forall i, j | 0 <= i < |t.rows| && 0 <= j < |t.columns| ensures t.rows[i][j] == FieldAt(lines[i], p[j]) {
      assert t.rows[i][j] == f.rows[i][p[j]];
      assert FieldRows(lines)[i] == Fields(lines[i]);
    }
  }

  // ---------------------------------------------------------------------
  // clean_data

  /** What `clean_data` returns for the text `data`. */
  function Cleaned(data: string): Option<Table> {
    if data == "" then None
    else
      var filtered := Survivors(Split(Strip(data), '\n'));
      if |filtered| == 0 then None
      else
        var header := filtered[0];
        var names := UniqueHeaders(Split(Strip(header), '|'));
        match CorrectedRows(filtered[1..], CountChar(header, '|'))
        case None => None
        case Some(rows) =>
          match Frame(names, FieldRows(rows))
          case None => None
          case Some(t) => Some(DropAnonymous(t))
  }

  /** `clean_data`. */
  method CleanData(data: string) returns (r: Option<Table>)
    ensures r == Cleaned(data)
  {
    if data == "" {
      return None;
    }
    var filtered := KeepContentLines(Split(Strip(data), '\n'));
    if |filtered| == 0 {
      return None;
    }
    var header := filtered[0];
    var names := HandleDuplicateHeaders(Split(Strip(header), '|'));
    var expected := CountChar(header, '|');
    var corrected := CorrectLines(filtered[1..], expected);
    if corrected.None? {
      return None;
    }
    var rows := SplitFields(corrected.value);
    var frame := Frame(names, rows);
    if frame.None? {
      return None;
    }
    r := Some(DropAnonymous(frame.value));
  }

  /** No table comes out of empty text or of text that is all rules. */
  lemma CleanedNothing(data: string)
    requires data == "" || AllRules(Split(Strip(data), '\n'))
    ensures Cleaned(data) == None
  {
    if data != "" {
      var lines := Split(Strip(data), '\n');
      SurvivorsEmpty(lines);
      assert Survivors(lines) == [];
    }
  }

  /** A table that comes out has one row per content line after the heading,
      one cell per column in every row, and no anonymous column; its columns
      are the named ones among the renamed headers. */
  lemma CleanedShape(data: string)
    requires Cleaned(data).Some?
    ensures var filtered := Survivors(Split(Strip(data), '\n'));
      var t := Cleaned(data).value;
      && |filtered| >= 1
      && |t.rows| == |filtered| - 1
      && WellFormed(t)
      && (forall c :: c in t.columns <==> c in UniqueHeaders(Split(Strip(filtered[0]), '|')) && !Anonymous(c))
      && CorrectedRows(filtered[1..], CountChar(filtered[0], '|')).Some?
      && Aligned(UniqueHeaders(Split(Strip(filtered[0]), '|')), CorrectedRows(filtered[1..], CountChar(filtered[0], '|')).value, t)
  {
    var filtered := Survivors(Split(Strip(data), '\n'));
    var header := filtered[0];
    var names := UniqueHeaders(Split(Strip(header), '|'));
    var rows := CorrectedRows(filtered[1..], CountChar(header, '|')).value;
    DropAnonymousShape(Frame(names, FieldRows(rows)).value);
    DroppedAligned(names, rows);
  }

  /** A listing whose only content line is its heading gives an empty table
      with the heading's named columns. */
  lemma CleanedHeadingOnly(data: string)
    requires data != "" && |Survivors(Split(Strip(data), '\n'))| == 1
    ensures var header := Survivors(Split(Strip(data), '\n'))[0];
      Cleaned(data) == Some(Table(KeepNamedColumns(UniqueHeaders(Split(Strip(header), '|'))), []))
  {
    var filtered := Survivors(Split(Strip(data), '\n'));
    var names := UniqueHeaders(Split(Strip(filtered[0]), '|'));
    assert filtered[1..] == [];
    assert FieldRows([]) == [];
    var t := Frame(names, []).value;
    assert t == Table(names, []);
    assert DropAnonymous(t).rows == [];
  }

  // ---------------------------------------------------------------------
  // clean_and_load_data (test.py)

  /** `all(c in '-|' for c in line)`. */
  predicate PipeRule(line: string) {
    forall i :: 0 <= i < |line| ==> line[i] == '-' || line[i] == '|'
  }

  /** The stripped lines `clean_and_load_data` keeps. */
  function LoadSurvivors(lines: seq<string>): (r: seq<string>)
    ensures |r| <= |lines|
  {
    if |lines| == 0 then []
    else
      var line := Strip(lines[|lines| - 1]);
      LoadSurvivors(lines[..|lines| - 1]) + (if PipeRule(line) then [] else [line])
  }

  /** Every line kept has content and is not a rule. */
  lemma {:induction false} LoadSurvivorsContent(lines: seq<string>)
    ensures forall i :: 0 <= i < |LoadSurvivors(lines)| ==> LoadSurvivors(lines)[i] != "" && !PipeRule(LoadSurvivors(lines)[i])
  {
    if |lines| > 0 {
      LoadSurvivorsContent(lines[..|lines| - 1]);
    }
  }

  method LoadContentLines(lines: seq<string>) returns (filtered: seq<string>)
    ensures filtered == LoadSurvivors(lines)
  {
    filtered := [];
    for i := 0 to |lines|
      invariant filtered == LoadSurvivors(lines[..i])
    {
      assert lines[..i + 1][..i] == lines[..i];
      var line := Strip(lines[i]);
      if !PipeRule(line) {
        filtered := filtered + [line];
      }
    }
    assert lines[..|lines|] == lines;
  }

  /** Python's `xs[lo:hi]`: bounds past the end are clamped, and a slice
      whose start is not before its end is empty. */
  function PySlice<T>(xs: seq<T>, lo: nat, hi: nat): (r: seq<T>)
    ensures |r| <= |xs|
    ensures lo <= hi <= |xs| ==> r == xs[lo..hi]
  {
    var h := if hi <= |xs| then hi else |xs|;
    if lo >= h then [] else xs[lo..h]
  }

  /** The fallback of `clean_and_load_data`: fields `4 .. 4 + extra` are
      joined with dashes into one description and the row is joined again. */
  function MergeExtraFields(parts: seq<string>, extra: nat): string {
    var mergedDescription := Join(PySlice(parts, 4, 4 + extra + 1), "-");
    Join(PySlice(parts, 0, 4) + [mergedDescription] + PySlice(parts, 4 + extra + 1, |parts|), "|")
  }

  /** One row under `clean_and_load_data`: like `clean_data`, except that a
      row with fewer than four pipes is skipped, and a count that still
      differs falls back to joining fields `4 .. 4 + extra` with dashes. The
      `IndexError` is not caught there. */
  function LoadFixRow(line: string, expected: nat): Fix {
    var actual := CountChar(line, '|');
    if actual <= expected then Keep(line)
    else
      var extra := actual - expected;
      var idx := PipeIndices(line);
      if |idx| < 4 then Skip
      else if 4 + extra >= |idx| then Fail
      else
        var fixed := Corrected(line, expected);
        if CountChar(fixed, '|') == expected then Keep(fixed)
        else
          var parts := Split(line, '|');
          if |parts| > expected + 1 then
            Keep(MergeExtraFields(parts, extra))
          else Skip
  }

  /** The variant skips the rows `clean_data` fails on for having fewer than
      four pipes, fails on the others `clean_data` fails on, and otherwise
      keeps the same row; its fallback is never reached. */
  lemma LoadFixRowOutcome(line: string, expected: nat)
    ensures LoadFixRow(line, expected) == Skip <==> expected < CountChar(line, '|') < 4
    ensures LoadFixRow(line, expected) == Fail <==> 4 <= CountChar(line, '|') && expected < CountChar(line, '|') && expected <= 4
    ensures FixRow(line, expected).Keep? ==> LoadFixRow(line, expected) == FixRow(line, expected)
    ensures LoadFixRow(line, expected).Keep? ==> FixRow(line, expected) == LoadFixRow(line, expected)
  {
    var actual := CountChar(line, '|');
    if actual > expected && 4 + (actual - expected) < actual {
      RepipedCount(line, expected);
    }
  }

  /** The rows after correction under the variant; `None` when a row raises. */
  function LoadedRows(lines: seq<string>, expected: nat): (r: Option<seq<string>>)
    ensures r.Some? ==> |r.value| <= |lines|
  {
    if |lines| == 0 then Some([])
    else
      match LoadFixRow(lines[0], expected)
      case Fail => None
      case Skip => LoadedRows(lines[1..], expected)
      case Keep(l) => Prepend([l], LoadedRows(lines[1..], expected))
  }

  /** The body of the correction loop of `clean_and_load_data` for one row:
      the rows it only reports are skipped. */
  method LoadCorrectLine(line: string, expected: nat) returns (fix: Fix)
    ensures fix == LoadFixRow(line, expected)
  {
    var actual := CountChar(line, '|');
    if actual > expected {
      var extra := actual - expected;
      var pipeIndices := PipeIndices(line);
      if |pipeIndices| >= 4 {
        if 4 + extra >= |pipeIndices| {
          return Fail;
        }
        var correctedLine := Corrected(line, expected);
        if CountChar(correctedLine, '|') == expected {
          fix := Keep(correctedLine);
        } else {
          var parts := Split(line, '|');
          if |parts| > expected + 1 {
            fix := Keep(MergeExtraFields(parts, extra));
          } else {
            fix := Skip;
          }
        }
      } else {
        fix := Skip;
      }
    } else {
      fix := Keep(line);
    }
  }

  /** The correction loop of `clean_and_load_data`. */
  method LoadCorrectLines(lines: seq<string>, expected: nat) returns (r: Option<seq<string>>)
    ensures r == LoadedRows(lines, expected)
  {
    var corrected: seq<string> := [];
    assert lines[0..] == lines;
    if LoadedRows(lines, expected).Some? {
      assert corrected + LoadedRows(lines, expected).value == LoadedRows(lines, expected).value;
    }
    for i := 0 to |lines|
      invariant LoadedRows(lines, expected) == Prepend(corrected, LoadedRows(lines[i..], expected))
    {
      assert lines[i..][1..] == lines[i + 1..];
      var fix := LoadCorrectLine(lines[i], expected);
      match fix {
        case Keep(l) =>
          if LoadedRows(lines[i + 1..], expected).Some? {
            assert corrected + ([l] + LoadedRows(lines[i + 1..], expected).value)
                == (corrected + [l]) + LoadedRows(lines[i + 1..], expected).value;
          }
          corrected := corrected + [l];
        case Skip =>
        case Fail =>
          return None;
      }
    }
    assert lines[|lines|..] == [];
    assert corrected + [] == corrected;
    r := Some(corrected);
  }

  /** What `clean_and_load_data` gives after reading the file's `lines`: no
      content, an exception, or a table. */
  datatype Load = NoContent | Raises | Loaded(table: Table)

  function LoadedTable(lines: seq<string>): Load {
    var filtered := LoadSurvivors(lines);
    if |filtered| == 0 then NoContent
    else
      var header := filtered[0];
      var names := UniqueHeaders(Split(Strip(header), '|'));
      match LoadedRows(filtered[1..], CountChar(header, '|'))
      case None => Raises
      case Some(rows) =>
        match Frame(names, FieldRows(rows))
        case None => Raises
        case Some(t) => Loaded(DropAnonymous(t))
  }

  /** `clean_and_load_data` from the `readlines()` result on: the heading
      stays in `corrected_lines` and is left out of the data by
      `data_rows[1:]`. */
  method CleanAndLoadData(lines: seq<string>) returns (r: Load)
    ensures r == LoadedTable(lines)
  {
    var filtered := LoadContentLines(lines);
    if |filtered| == 0 {
      return NoContent;
    }
    var originalHeaders := filtered[0];
    var names := HandleDuplicateHeaders(Split(Strip(originalHeaders), '|'));
    var expected := CountChar(originalHeaders, '|');
    var corrected := LoadCorrectLines(filtered[1..], expected);
    if corrected.None? {
      return Raises;
    }
    var dataRows := SplitFields([originalHeaders] + corrected.value);
    FieldRowsTail(originalHeaders, corrected.value);
    var frame := Frame(names, dataRows[1..]);
    if frame.None? {
      return Raises;
    }
    r := Loaded(DropAnonymous(frame.value));
  }

  /** A loaded table has one cell per column in every row, no anonymous
      column, and no more rows than content lines after the heading. */
  lemma LoadedShape(lines: seq<string>)
    requires LoadedTable(lines).Loaded?
    ensures var filtered := LoadSurvivors(lines);
      var t := LoadedTable(lines).table;
      && |filtered| >= 1
      && |t.rows| <= |filtered| - 1
      && WellFormed(t)
      && (forall c :: c in t.columns <==> c in UniqueHeaders(Split(Strip(filtered[0]), '|')) && !Anonymous(c))
      && LoadedRows(filtered[1..], CountChar(filtered[0], '|')).Some?
      && Aligned(UniqueHeaders(Split(Strip(filtered[0]), '|')), LoadedRows(filtered[1..], CountChar(filtered[0], '|')).value, t)
  {
    var filtered := LoadSurvivors(lines);
    var header := filtered[0];
    var names := UniqueHeaders(Split(Strip(header), '|'));
    var rows := LoadedRows(filtered[1..], CountChar(header, '|')).value;
    DropAnonymousShape(Frame(names, FieldRows(rows)).value);
    DroppedAligned(names, rows);
  }
}
