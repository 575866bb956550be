/** The IW29 extraction orchestrator: `extract_IW29` in
    `kpi_ofa/services/sap_transactions.py` and its older revision in
    `SAP_Transactions.py`, with the result rule of `extract_IW29_old`. One
    query runs per step of a fixed plan; list results are repaired, turned
    into tables, tagged with their kind and stored under a key; single hits
    are collected and queried again as a list; the tables are concatenated
    and full-row duplicates dropped. The single-query executor is a function
    argument. */
module Extraction {
  import opened PyText
  import opened ClipboardRepair
  import opened TableCleaning
  import opened SapSession

  /** `extract_IW29_single(dataInizio, dataFine, kind, ids, prefix)` for the
      dates of the run. */
  type Query = (string, seq<string>, Option<string>) -> Outcome

  /** One query of the plan: `"Lista"` runs with prefix `""`, the loops pass
      the configured prefix. */
  datatype Step = Step(kind: string, prefix: Option<string>)

  /** The technologies of `tech_config`, in its order, with their prefixes. */
  datatype Tech = Tech(name: string, prefixes: seq<string>)

  /** The local state: the `iw29` dict in insertion order and the set of
      single hits, kept as a duplicate-free sequence in insertion order. */
  datatype Tally = Tally(frames: seq<(string, Table)>, singles: seq<string>)

  /** A result row after `pd.concat`: its non-null cells by column name. */
  type Row = map<string, string>

  // ---------------------------------------------------------------------
  // The plan

  /** `[t for t in tipo_estrazioni if t != "Lista"]`. */
  function Others(kinds: seq<string>): (r: seq<string>)
    ensures forall i :: 0 <= i < |r| ==> r[i] != "Lista" && r[i] in kinds
    ensures forall k :: k in kinds && k != "Lista" ==> k in r
  {
    if |kinds| == 0 then []
    else (if kinds[0] == "Lista" then [] else [kinds[0]]) + Others(kinds[1..])
  }

  /** The configured prefixes of one technology that are not blank. */
  function PrefixPlan(kind: string, prefixes: seq<string>): seq<Step> {
    if |prefixes| == 0 then []
    else (if Strip(prefixes[0]) == "" then [] else [Step(kind, Some(prefixes[0]))]) + PrefixPlan(kind, prefixes[1..])
  }

  function TechPlan(kind: string, techs: seq<Tech>): seq<Step> {
    if |techs| == 0 then [] else PrefixPlan(kind, techs[0].prefixes) + TechPlan(kind, techs[1..])
  }

  function KindsPlan(kinds: seq<string>, techs: seq<Tech>): seq<Step> {
    if |kinds| == 0 then [] else TechPlan(kinds[0], techs) + KindsPlan(kinds[1..], techs)
  }

  /** The queries of one run, in order: `"Lista"` once when configured, then
      every other kind for every technology and every non-blank prefix. */
  function Plan(kinds: seq<string>, techs: seq<Tech>): seq<Step> {
    (if "Lista" in kinds then [Step("Lista", Some(""))] else []) + KindsPlan(Others(kinds), techs)
  }

  /** How many non-blank prefixes a list holds. */
  function Usable(prefixes: seq<string>): nat {
    if |prefixes| == 0 then 0 else (if Strip(prefixes[0]) == "" then 0 else 1) + Usable(prefixes[1..])
  }

  function UsableAll(techs: seq<Tech>): nat {
    if |techs| == 0 then 0 else Usable(techs[0].prefixes) + UsableAll(techs[1..])
  }

  lemma {:induction false} PrefixPlanLength(kind: string, prefixes: seq<string>)
    ensures |PrefixPlan(kind, prefixes)| == Usable(prefixes)
  {
    if |prefixes| > 0 {
      PrefixPlanLength(kind, prefixes[1..]);
    }
  }

  lemma {:induction false} TechPlanLength(kind: string, techs: seq<Tech>)
    ensures |TechPlan(kind, techs)| == UsableAll(techs)
  {
    if |techs| > 0 {
      PrefixPlanLength(kind, techs[0].prefixes);
      TechPlanLength(kind, techs[1..]);
    }
  }

  lemma {:induction false} KindsPlanLength(kinds: seq<string>, techs: seq<Tech>)
    ensures |KindsPlan(kinds, techs)| == |kinds| * UsableAll(techs)
  {
    if |kinds| > 0 {
      TechPlanLength(kinds[0], techs);
      KindsPlanLength(kinds[1..], techs);
      assert |kinds| * UsableAll(techs) == UsableAll(techs) + (|kinds| - 1) * UsableAll(techs);
    }
  }

  /** Step `i` of one technology's prefixes. */
  lemma {:induction false} PrefixPlanStep(kind: string, prefixes: seq<string>, i: nat)
    requires i < |PrefixPlan(kind, prefixes)|
    ensures var s := PrefixPlan(kind, prefixes)[i];
      s.kind == kind && s.prefix.Some? && s.prefix.value in prefixes && Strip(s.prefix.value) != ""
  {
    var head := if Strip(prefixes[0]) == "" then [] else [Step(kind, Some(prefixes[0]))];
    assert PrefixPlan(kind, prefixes) == head + PrefixPlan(kind, prefixes[1..]);
    if i >= |head| {
      PrefixPlanStep(kind, prefixes[1..], i - |head|);
    }
  }

  /** Step `i` of one kind: `t` is the technology it comes from. */
  lemma {:induction false} TechPlanStep(kind: string, techs: seq<Tech>, i: nat) returns (t: nat)
    requires i < |TechPlan(kind, techs)|
    ensures var s := TechPlan(kind, techs)[i];
      t < |techs| && s.kind == kind && s.prefix.Some? && s.prefix.value in techs[t].prefixes && Strip(s.prefix.value) != ""
  {
    var head := PrefixPlan(kind, techs[0].prefixes);
    if i < |head| {
      PrefixPlanStep(kind, techs[0].prefixes, i);
      t := 0;
    } else {
      var u := TechPlanStep(kind, techs[1..], i - |head|);
      t := u + 1;
      assert techs[1..][u] == techs[t];
    }
  }

  lemma {:induction false} KindsPlanStep(kinds: seq<string>, techs: seq<Tech>, i: nat) returns (t: nat)
    requires i < |KindsPlan(kinds, techs)|
    ensures var s := KindsPlan(kinds, techs)[i];
      t < |techs| && s.kind in kinds && s.prefix.Some? && s.prefix.value in techs[t].prefixes && Strip(s.prefix.value) != ""
  {
    var head := TechPlan(kinds[0], techs);
    if i < |head| {
      t := TechPlanStep(kinds[0], techs, i);
    } else {
      t := KindsPlanStep(kinds[1..], techs, i - |head|);
    }
  }

  /** The plan runs `"Lista"` first and only there, and after it exactly
      `|kinds without "Lista"| * |non-blank prefixes|` queries, each of a
      configured kind with a configured non-blank prefix. */
  lemma PlanShape(kinds: seq<string>, techs: seq<Tech>)
    ensures var p := Plan(kinds, techs);
      var lead := if "Lista" in kinds then 1 else 0;
      && |p| == lead + |Others(kinds)| * UsableAll(techs)
      && ("Lista" in kinds ==> p[0] == Step("Lista", Some("")))
      && forall i :: lead <= i < |p| ==>
           p[i].kind in kinds && p[i].kind != "Lista" && p[i].prefix.Some? && Strip(p[i].prefix.value) != "" &&
           exists t :: 0 <= t < |techs| && p[i].prefix.value in techs[t].prefixes
  {
    var others := Others(kinds);
    var lead: seq<Step> := if "Lista" in kinds then [Step("Lista", Some(""))] else [];
    var rest := KindsPlan(others, techs);
    KindsPlanLength(others, techs);
    forall i | |lead| <= i < |lead| + |rest|
      ensures (lead + rest)[i].kind in kinds && (lead + rest)[i].kind != "Lista"
      ensures (lead + rest)[i].prefix.Some? && Strip((lead + rest)[i].prefix.value) != ""
      ensures exists t :: 0 <= t < |techs| && (lead + rest)[i].prefix.value in techs[t].prefixes
    {
      var t := KindsPlanStep(others, techs, i - |lead|);
      assert (lead + rest)[i] == rest[i - |lead|];
    }
  }

  // ---------------------------------------------------------------------
  // Results

  /** `f"df_{tipo_estrazione}{f'_{prefix}' if prefix else ''}"`: the
      technology is not part of the key. */
  function Key(kind: string, prefix: Option<string>): string {
    "df_" + kind + (if prefix.Some? && prefix.value != "" then "_" + prefix.value else "")
  }

  /** `iw29[key] = df`: a known key keeps its place and gets the new table. */
  function Put(frames: seq<(string, Table)>, key: string, t: Table): (r: seq<(string, Table)>)
    ensures |r| == |frames| || |r| == |frames| + 1
  {
    if |frames| == 0 then [(key, t)]
    else if frames[0].0 == key then [(key, t)] + frames[1..]
    else [frames[0]] + Put(frames[1..], key, t)
  }

  /** `iw29.get(key)`. */
  function Lookup(frames: seq<(string, Table)>, key: string): Option<Table> {
    if |frames| == 0 then None
    else if frames[0].0 == key then Some(frames[0].1)
    else Lookup(frames[1..], key)
  }

  /** After the store the key gives the new table and every other key what
      it gave before. */
  lemma {:induction false} PutLookup(frames: seq<(string, Table)>, key: string, t: Table, other: string)
    ensures Lookup(Put(frames, key, t), key) == Some(t)
    ensures other != key ==> Lookup(Put(frames, key, t), other) == Lookup(frames, other)
  {
    if |frames| > 0 && frames[0].0 != key {
      PutLookup(frames[1..], key, t, other);
    }
  }

  /** Storing twice under a key keeps only the second table: two
      technologies sharing a prefix leave one table for it. */
  lemma {:induction false} PutTwice(frames: seq<(string, Table)>, key: string, t1: Table, t2: Table)
    ensures Put(Put(frames, key, t1), key, t2) == Put(frames, key, t2)
  {
    if |frames| > 0 && frames[0].0 != key {
      PutTwice(frames[1..], key, t1, t2);
    }
  }

  /** `df['TipoEstrazione'] = tipo_estrazione`: the column is overwritten
      when present and appended otherwise. */
  function Tag(t: Table, kind: string): (r: Table)
    ensures |r.rows| == |t.rows|
    ensures "TipoEstrazione" in r.columns
  {
    if "TipoEstrazione" in t.columns then
      Table(t.columns, seq(|t.rows|, i requires 0 <= i < |t.rows| =>
        seq(|t.rows[i]|, c requires 0 <= c < |t.rows[i]| =>
          if c < |t.columns| && t.columns[c] == "TipoEstrazione" then Text(kind) else t.rows[i][c])))
    else
      Table(t.columns + ["TipoEstrazione"], seq(|t.rows|, i requires 0 <= i < |t.rows| => t.rows[i] + [Text(kind)]))
  }

  /** Every row of a tagged table carries its kind in the `TipoEstrazione`
      column; every other cell is kept. */
  lemma TagSpec(t: Table, kind: string)
    requires WellFormed(t)
    ensures var r := Tag(t, kind);
      && WellFormed(r)
      && r.columns[..|t.columns|] == t.columns
      && (forall i, c :: 0 <= i < |r.rows| && 0 <= c < |r.columns| && r.columns[c] == "TipoEstrazione" ==> r.rows[i][c] == Text(kind))
      && (forall i, c :: 0 <= i < |t.rows| && 0 <= c < |t.columns| && t.columns[c] != "TipoEstrazione" ==> r.rows[i][c] == t.rows[i][c])
  {
  }

  /** `single_value_set.add(x)`. */
  function AddOnce(singles: seq<string>, x: string): (r: seq<string>)
    ensures x in r && forall y :: y in r <==> y in singles || y == x
    ensures x in singles ==> r == singles
  {
    if x in singles then singles else singles + [x]
  }

  /** `handle_extraction_result`: `None` where it returns `False`.
      `repairCurrent` picks the revision of `fix_clipboard_table_content`
      the class carries. */
  function Handle(repairCurrent: bool, o: Outcome, kind: string, prefix: Option<string>, st: Tally): Option<Tally> {
    match o
    case Error => None
    case List(text) =>
      var fixed := if repairCurrent then FixCurrent(text) else FixLegacy(text);
      if !fixed.ok then None
      else
        (match Cleaned(fixed.text)
         case None => None
         case Some(t) => Some(Tally(Put(st.frames, Key(kind, prefix), Tag(t, kind)), st.singles)))
    case Single(id) => Some(Tally(st.frames, AddOnce(st.singles, id)))
    case Empty => Some(st)
  }

  /** The state after the queries of `plan`, or `None` once one fails. */
  function Run(repairCurrent: bool, query: Query, ids: seq<string>, plan: seq<Step>, st: Tally): Option<Tally> {
    if |plan| == 0 then Some(st)
    else
      match Handle(repairCurrent, query(plan[0].kind, ids, plan[0].prefix), plan[0].kind, plan[0].prefix, st)
      case None => None
      case Some(next) => Run(repairCurrent, query, ids, plan[1..], next)
  }

  /** Running a plan after a state that may have failed. */
  function Then(repairCurrent: bool, query: Query, ids: seq<string>, st: Option<Tally>, plan: seq<Step>): Option<Tally> {
    match st
    case None => None
    case Some(s) => Run(repairCurrent, query, ids, plan, s)
  }

  /** Running two plans one after the other is running their concatenation. */
  lemma {:induction false} RunAppend(repairCurrent: bool, query: Query, ids: seq<string>, p1: seq<Step>, p2: seq<Step>, st: Tally)
    ensures Run(repairCurrent, query, ids, p1 + p2, st) == Then(repairCurrent, query, ids, Run(repairCurrent, query, ids, p1, st), p2)
  {
    if |p1| > 0 {
      assert (p1 + p2)[0] == p1[0] && (p1 + p2)[1..] == p1[1..] + p2;
      var s := p1[0];
      match Handle(repairCurrent, query(s.kind, ids, s.prefix), s.kind, s.prefix, st)
      case None =>
      case Some(next) => RunAppend(repairCurrent, query, ids, p1[1..], p2, next);
    } else {
      assert p1 + p2 == p2;
    }
  }

  /** Fail fast: one query of the plan that returns code 0 makes the run
      fail, whatever the others return. */
  lemma {:induction false} ErrorAborts(repairCurrent: bool, query: Query, ids: seq<string>, plan: seq<Step>, st: Tally, i: nat)
    requires i < |plan| && query(plan[i].kind, ids, plan[i].prefix) == Error
    ensures Run(repairCurrent, query, ids, plan, st) == None
  {
    if i > 0 {
      match Handle(repairCurrent, query(plan[0].kind, ids, plan[0].prefix), plan[0].kind, plan[0].prefix, st)
      case None =>
      case Some(next) =>
        assert plan[1..][i - 1] == plan[i];
        ErrorAborts(repairCurrent, query, ids, plan[1..], next, i - 1);
    }
  }

  // ---------------------------------------------------------------------
  // The loops

  method RunPrefixes(repairCurrent: bool, query: Query, ids: seq<string>, kind: string, prefixes: seq<string>, st0: Tally)
    returns (r: Option<Tally>)
    ensures r == Run(repairCurrent, query, ids, PrefixPlan(kind, prefixes), st0)
  {
    var st := st0;
    for c := 0 to |prefixes|
      invariant Run(repairCurrent, query, ids, PrefixPlan(kind, prefixes), st0)
             == Run(repairCurrent, query, ids, PrefixPlan(kind, prefixes[c..]), st)
    {
      assert prefixes[c..][1..] == prefixes[c + 1..];
      var prefix := prefixes[c];
      if Strip(prefix) == "" {
        assert PrefixPlan(kind, prefixes[c..]) == PrefixPlan(kind, prefixes[c + 1..]);
        continue;
      }
      assert PrefixPlan(kind, prefixes[c..]) == [Step(kind, Some(prefix))] + PrefixPlan(kind, prefixes[c + 1..]);
      var o := query(kind, ids, Some(prefix));
      var h := Handle(repairCurrent, o, kind, Some(prefix), st);
      if h.None? {
        return None;
      }
      st := h.value;
    }
    assert prefixes[|prefixes|..] == [];
    r := Some(st);
  }

  method RunTechs(repairCurrent: bool, query: Query, ids: seq<string>, kind: string, techs: seq<Tech>, st0: Tally)
    returns (r: Option<Tally>)
    ensures r == Run(repairCurrent, query, ids, TechPlan(kind, techs), st0)
  {
    var st := st0;
    for b := 0 to |techs|
      invariant Run(repairCurrent, query, ids, TechPlan(kind, techs), st0)
             == Run(repairCurrent, query, ids, TechPlan(kind, techs[b..]), st)
    {
      assert techs[b..][1..] == techs[b + 1..];
      RunAppend(repairCurrent, query, ids, PrefixPlan(kind, techs[b].prefixes), TechPlan(kind, techs[b + 1..]), st);
      if |techs[b].prefixes| == 0 {
        continue;
      }
      var h := RunPrefixes(repairCurrent, query, ids, kind, techs[b].prefixes, st);
      if h.None? {
        return None;
      }
      st := h.value;
    }
    assert techs[|techs|..] == [];
    r := Some(st);
  }

  method RunKinds(repairCurrent: bool, query: Query, ids: seq<string>, kinds: seq<string>, techs: seq<Tech>, st0: Tally)
    returns (r: Option<Tally>)
    ensures r == Run(repairCurrent, query, ids, KindsPlan(kinds, techs), st0)
  {
    var st := st0;
    for a := 0 to |kinds|
      invariant Run(repairCurrent, query, ids, KindsPlan(kinds, techs), st0)
             == Run(repairCurrent, query, ids, KindsPlan(kinds[a..], techs), st)
    {
      assert kinds[a..][1..] == kinds[a + 1..];
      RunAppend(repairCurrent, query, ids, TechPlan(kinds[a], techs), KindsPlan(kinds[a + 1..], techs), st);
      var h := RunTechs(repairCurrent, query, ids, kinds[a], techs, st);
      if h.None? {
        return None;
      }
      st := h.value;
    }
    assert kinds[|kinds|..] == [];
    r := Some(st);
  }

  /** The part of both revisions up to the single hits: `"Lista"` first,
      then the nested loops. */
  function Collected(repairCurrent: bool, query: Query, ids: seq<string>, kinds: seq<string>, techs: seq<Tech>): Option<Tally> {
    Run(repairCurrent, query, ids, Plan(kinds, techs), Tally([], []))
  }

  method Collect(repairCurrent: bool, query: Query, ids: seq<string>, kinds: seq<string>, techs: seq<Tech>)
    returns (r: Option<Tally>)
    ensures r == Collected(repairCurrent, query, ids, kinds, techs)
  {
    var st := Tally([], []);
    var lead: seq<Step> := [];
    if "Lista" in kinds {
      lead := [Step("Lista", Some(""))];
      var h := Handle(repairCurrent, query("Lista", ids, Some("")), "Lista", Some(""), st);
      if h.None? {
        RunAppend(repairCurrent, query, ids, lead, KindsPlan(Others(kinds), techs), st);
        return None;
      }
      st := h.value;
    }
    RunAppend(repairCurrent, query, ids, lead, KindsPlan(Others(kinds), techs), Tally([], []));
    r := RunKinds(repairCurrent, query, ids, Others(kinds), techs, st);
  }

  // ---------------------------------------------------------------------
  // Single hits and the final table

  /** `df["Avviso"].iloc[0]` of the first non-empty table with an `Avviso`
      column, or `None` when there is none. */
  function FirstAvviso(frames: seq<(string, Table)>): Option<Cell> {
    if |frames| == 0 then None
    else
      var t := frames[0].1;
      if |t.rows| > 0 && "Avviso" in t.columns then
        var c := IndexOfName(t.columns, "Avviso");
        Some(if c < |t.rows[0]| then t.rows[0][c] else Missing)
      else FirstAvviso(frames[1..])
  }

  function IndexOfName(names: seq<string>, name: string): (r: nat)
    requires name in names
    ensures r < |names| && names[r] == name && name !in names[..r]
  {
    if names[0] == name then 0
    else
      var r := 1 + IndexOfName(names[1..], name);
      assert names[..r] == [names[0]] + names[1..][..r - 1];
      r
  }

  /** `if avviso_singolo:` — a missing cell and an empty text are falsy. */
  function Truthy(c: Option<Cell>): Option<string> {
    match c
    case Some(Text(s)) => if s != "" then Some(s) else None
    case _ => None
  }

  /** The current revision's handling of the single hits: none, nothing to
      do; one, borrow a notice from the tables or fail; several, query them
      again as `"ListaSingoli"`. */
  function SinglesCurrent(query: Query, st: Tally): Option<Tally> {
    if |st.singles| == 0 then Some(st)
    else if |st.singles| == 1 then
      match Truthy(FirstAvviso(st.frames))
      case None => None
      case Some(a) =>
        var values := AddOnce(st.singles, a);
        Handle(true, query("ListaSingoli", values, None), "ListaSingoli", None, Tally(st.frames, values))
    else Handle(true, query("ListaSingoli", st.singles, None), "ListaSingoli", None, st)
  }

  /** The older revision: a borrowed notice is added when there is one, and
      the re-query runs only when that leaves more than one value. */
  function SinglesLegacy(query: Query, st: Tally): Option<Tally> {
    var values :=
      if |st.singles| == 1 then
        (match Truthy(FirstAvviso(st.frames))
         case None => st.singles
         case Some(a) => AddOnce(st.singles, a))
      else st.singles;
    if |values| > 1 then Handle(false, query("ListaSingoli", values, None), "ListaSingoli", None, Tally(st.frames, values))
    else Some(Tally(st.frames, values))
  }

  /** A table row keyed by column; null cells are left out, so they compare
      like the cells `pd.concat` fills in for a column a table lacks. */
  function RowOf(columns: seq<string>, cells: seq<Cell>): Row
    decreases |columns|
  {
    if |columns| == 0 || |cells| == 0 then map[]
    else
      var rest := RowOf(columns[1..], cells[1..]);
      match cells[0]
      case Text(s) => rest[columns[0] := s]
      case Missing => rest
  }

  function Records(t: Table): (r: seq<Row>)
    ensures |r| == |t.rows|
  {
    seq(|t.rows|, i requires 0 <= i < |t.rows| => RowOf(t.columns, t.rows[i]))
  }

  /** `pd.concat(iw29.values(), ignore_index=True)`. */
  function Concat(frames: seq<(string, Table)>): seq<Row> {
    if |frames| == 0 then [] else Records(frames[0].1) + Concat(frames[1..])
  }

  /** The end of both revisions: no table is a failure. */
  function Finished(st: Option<Tally>): Option<seq<Row>> {
    match st
    case None => None
    case Some(s) => if |s.frames| == 0 then None else Some(Unique(Concat(s.frames)))
  }

  /** What the current `extract_IW29` returns; `None` is `(False, None)`.
      The dates are the strings `toString("dd.MM.yyyy")` gives, empty for an
      invalid date. */
  function ExtractedCurrent(query: Query, startDate: string, endDate: string, kinds: seq<string>, techs: seq<Tech>, ids: seq<string>): Option<seq<Row>> {
    if startDate == "" || endDate == "" then None
    else
      match Collected(true, query, ids, kinds, techs)
      case None => None
      case Some(st) => Finished(SinglesCurrent(query, st))
  }

  /** What the older `extract_IW29` returns. */
  function ExtractedLegacy(query: Query, kinds: seq<string>, techs: seq<Tech>, ids: seq<string>): Option<seq<Row>> {
    match Collected(false, query, ids, kinds, techs)
    case None => None
    case Some(st) => Finished(SinglesLegacy(query, st))
  }

  /** The final table: a failure exactly when no table was stored, and
      otherwise every row of the concatenation, each once, at its first
      occurrence and in order. */
  lemma FinishedSpec(st: Tally)
    ensures Finished(Some(st)).None? <==> |st.frames| == 0
    ensures Finished(Some(st)).Some? ==>
      var rows := Finished(Some(st)).value;
      && (forall row :: row in rows <==> row in Concat(st.frames))
      && (forall i, j :: 0 <= i < j < |rows| ==> rows[i] != rows[j])
      && FirstOccurrences(Concat(st.frames), rows)
  {
    UniqueSpec(Concat(st.frames));
    UniqueOrder(Concat(st.frames));
  }

  /** The tail both revisions share. */
  method Finish(st: Tally) returns (r: Option<seq<Row>>)
    ensures r == Finished(Some(st))
  {
    if |st.frames| == 0 {
      return None;
    }
    r := Some(Unique(Concat(st.frames)));
  }

  /** `extract_IW29`, current revision. */
  method ExtractIW29(query: Query, startDate: string, endDate: string, kinds: seq<string>, techs: seq<Tech>, ids: seq<string>)
    returns (r: Option<seq<Row>>)
    ensures r == ExtractedCurrent(query, startDate, endDate, kinds, techs, ids)
  {
    if startDate == "" || endDate == "" {
      return None;
    }
    var collected := Collect(true, query, ids, kinds, techs);
    if collected.None? {
      return None;
    }
    var st := collected.value;
    if |st.singles| == 1 {
      var avviso := Truthy(FirstAvviso(st.frames));
      if avviso.None? {
        return None;
      }
      var values := AddOnce(st.singles, avviso.value);
      var h := Handle(true, query("ListaSingoli", values, None), "ListaSingoli", None, Tally(st.frames, values));
      if h.None? {
        return None;
      }
      st := h.value;
    } else if |st.singles| > 1 {
      var h := Handle(true, query("ListaSingoli", st.singles, None), "ListaSingoli", None, st);
      if h.None? {
        return None;
      }
      st := h.value;
    }
    r := Finish(st);
  }

  /** `extract_IW29`, older revision. */
  method ExtractIW29Legacy(query: Query, kinds: seq<string>, techs: seq<Tech>, ids: seq<string>)
    returns (r: Option<seq<Row>>)
    ensures r == ExtractedLegacy(query, kinds, techs, ids)
  {
    var collected := Collect(false, query, ids, kinds, techs);
    if collected.None? {
      return None;
    }
    var st := collected.value;
    if |st.singles| == 1 {
      var avviso := Truthy(FirstAvviso(st.frames));
      if avviso.Some? {
        st := Tally(st.frames, AddOnce(st.singles, avviso.value));
      }
    }
    if |st.singles| > 1 {
      var h := Handle(false, query("ListaSingoli", st.singles, None), "ListaSingoli", None, st);
      if h.None? {
        return None;
      }
      st := h.value;
    }
    r := Finish(st);
  }

  /** The current revision fails on a lone single hit when the tables offer
      no notice to pair it with; otherwise it always queries the hits again,
      even when the borrowed notice is the hit itself. */
  lemma SinglesCurrentCases(query: Query, st: Tally)
    ensures |st.singles| == 0 ==> SinglesCurrent(query, st) == Some(st)
    ensures |st.singles| == 1 && Truthy(FirstAvviso(st.frames)).None? ==> SinglesCurrent(query, st) == None
    ensures |st.singles| == 1 && Truthy(FirstAvviso(st.frames)) == Some(st.singles[0]) ==>
      SinglesCurrent(query, st) == Handle(true, query("ListaSingoli", st.singles, None), "ListaSingoli", None, st)
    ensures |st.singles| > 1 ==>
      SinglesCurrent(query, st) == Handle(true, query("ListaSingoli", st.singles, None), "ListaSingoli", None, st)
  {
    if |st.singles| == 1 {
      assert st.singles[0] in st.singles;
    }
  }

  /** The older revision never fails on a lone single hit: with no notice to
      borrow, or one equal to the hit, it skips the re-query. */
  lemma SinglesLegacyLone(query: Query, st: Tally)
    requires |st.singles| == 1
    requires Truthy(FirstAvviso(st.frames)).None? || Truthy(FirstAvviso(st.frames)) == Some(st.singles[0])
    ensures SinglesLegacy(query, st) == Some(st)
  {
    assert st.singles[0] in st.singles;
  }

  /** Both revisions fail when a query returns code 0 anywhere in the plan. */
  lemma ExtractFailsFast(query: Query, startDate: string, endDate: string, kinds: seq<string>, techs: seq<Tech>, ids: seq<string>, i: nat)
    requires i < |Plan(kinds, techs)|
    requires var s := Plan(kinds, techs)[i]; query(s.kind, ids, s.prefix) == Error
    ensures ExtractedCurrent(query, startDate, endDate, kinds, techs, ids) == None
    ensures ExtractedLegacy(query, kinds, techs, ids) == None
  {
    ErrorAborts(true, query, ids, Plan(kinds, techs), Tally([], []), i);
    ErrorAborts(false, query, ids, Plan(kinds, techs), Tally([], []), i);
  }

  // ---------------------------------------------------------------------
  // extract_IW29_old

  /** The result rule of `extract_IW29_old`: code 0 is only logged, a list
      whose raw text gives no table stops the run, a single hit is collected
      and code 3 changes nothing. */
  function OldHandle(o: Outcome, kind: string, prefix: Option<string>, st: Tally): Option<Tally> {
    match o
    case Error => Some(st)
    case List(text) =>
      (match Cleaned(text)
       case None => None
       case Some(t) => Some(Tally(Put(st.frames, Key(kind, prefix), Tag(t, kind)), st.singles)))
    case Single(id) => Some(Tally(st.frames, AddOnce(st.singles, id)))
    case Empty => Some(st)
  }

  /** The queries of `plan` under the old rule. */
  function OldRun(query: Query, ids: seq<string>, plan: seq<Step>, st: Tally): Option<Tally> {
    if |plan| == 0 then Some(st)
    else
      match OldHandle(query(plan[0].kind, ids, plan[0].prefix), plan[0].kind, plan[0].prefix, st)
      case None => None
      case Some(next) => OldRun(query, ids, plan[1..], next)
  }

  /** The loops of `extract_IW29_old`: every configured kind, `"Lista"`
      included, runs once per technology and non-blank prefix. */
  function OldCollected(query: Query, ids: seq<string>, kinds: seq<string>, techs: seq<Tech>): Option<Tally> {
    OldRun(query, ids, KindsPlan(kinds, techs), Tally([], []))
  }

  /** A list result whose text gives no table. */
  predicate Unreadable(o: Outcome) {
    o.List? && Cleaned(o.text) == None
  }

  /** Only a list result without a table stops the old loops: code 0 never
      does. */
  lemma {:induction false} OldRunStops(query: Query, ids: seq<string>, plan: seq<Step>, st: Tally)
    requires OldRun(query, ids, plan, st) == None
    ensures exists i :: 0 <= i < |plan| && Unreadable(query(plan[i].kind, ids, plan[i].prefix))
  {
    var o := query(plan[0].kind, ids, plan[0].prefix);
    match OldHandle(o, plan[0].kind, plan[0].prefix, st)
    case None =>
      assert o.List? && Cleaned(o.text) == None;
    case Some(next) =>
      OldRunStops(query, ids, plan[1..], next);
      var i :| 0 <= i < |plan[1..]| && Unreadable(query(plan[1..][i].kind, ids, plan[1..][i].prefix));
      assert plan[1..][i] == plan[i + 1];
  }

  // ---------------------------------------------------------------------
  // The older class as written

  /** How a call into the older class ends as written: with its own result,
      or with the `TypeError` of `self.df_utils.clean_data(...)`, since
      `clean_data` is declared without `self` or `@staticmethod` and so is
      handed two arguments for one parameter. Nothing there catches it. */
  datatype Ending = Ended(result: Option<Tally>) | Raised

  /** `handle_extraction_result` of the older `extract_IW29` as written: a
      list that the repair accepts reaches the bound call. */
  function BoundLegacyHandle(o: Outcome, kind: string, prefix: Option<string>, st: Tally): Ending {
    match o
    case List(text) => if FixLegacy(text).ok then Raised else Ended(None)
    case _ => Ended(Handle(false, o, kind, prefix, st))
  }

  /** As written, the older handler raises on every list the repair accepts,
      and agrees with `Handle` everywhere else. */
  lemma BoundLegacyHandleSpec(o: Outcome, kind: string, prefix: Option<string>, st: Tally)
    ensures BoundLegacyHandle(o, kind, prefix, st).Raised? <==> o.List? && FixLegacy(o.text).ok
    ensures BoundLegacyHandle(o, kind, prefix, st).Ended? ==> BoundLegacyHandle(o, kind, prefix, st).result == Handle(false, o, kind, prefix, st)
  {
  }

  /** The result rule of `extract_IW29_old` as written: every list result
      reaches the bound call. */
  function BoundOldHandle(o: Outcome, kind: string, prefix: Option<string>, st: Tally): Ending {
    if o.List? then Raised else Ended(OldHandle(o, kind, prefix, st))
  }

  /** The loops of `extract_IW29_old` as written. */
  function BoundOldRun(query: Query, ids: seq<string>, plan: seq<Step>, st: Tally): Ending {
    if |plan| == 0 then Ended(Some(st))
    else
      match BoundOldHandle(query(plan[0].kind, ids, plan[0].prefix), plan[0].kind, plan[0].prefix, st)
      case Raised => Raised
      case Ended(r) =>
        (match r
         case None => Ended(None)
         case Some(next) => BoundOldRun(query, ids, plan[1..], next))
  }

  /** Some query of `plan` returns a list. */
  ghost predicate SomeList(query: Query, ids: seq<string>, plan: seq<Step>) {
    exists i :: 0 <= i < |plan| && query(plan[i].kind, ids, plan[i].prefix).List?
  }

  /** As written, the old loops raise exactly when some query returns a
      list; otherwise they end as the intended ones do, and never stop
      early. */
  lemma {:induction false} BoundOldRunSpec(query: Query, ids: seq<string>, plan: seq<Step>, st: Tally)
    ensures BoundOldRun(query, ids, plan, st).Raised? <==> SomeList(query, ids, plan)
    ensures BoundOldRun(query, ids, plan, st).Ended? ==>
      BoundOldRun(query, ids, plan, st).result == OldRun(query, ids, plan, st) && OldRun(query, ids, plan, st).Some?
  {
    if |plan| > 0 {
      var o := query(plan[0].kind, ids, plan[0].prefix);
      if o.List? {
        assert SomeList(query, ids, plan) by { assert o.List?; }
      } else {
        var next := OldHandle(o, plan[0].kind, plan[0].prefix, st).value;
        BoundOldRunSpec(query, ids, plan[1..], next);
        if SomeList(query, ids, plan) {
          var i :| 0 <= i < |plan| && query(plan[i].kind, ids, plan[i].prefix).List?;
          assert plan[1..][i - 1] == plan[i];
        }
        if SomeList(query, ids, plan[1..]) {
          var i :| 0 <= i < |plan[1..]| && query(plan[1..][i].kind, ids, plan[1..][i].prefix).List?;
          assert plan[i + 1] == plan[1..][i];
        }
      }
    }
  }
}
