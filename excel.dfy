/** `ExcelDataProcessor` (`kpi_ofa/core/excel_data_processor.py`): the
    `idItem` column of the sheet is reduced to distinct integer ids, which
    are split into maintenance notices (AdM, below two billion) and
    maintenance orders (OdM, from two billion up). */
module ExcelData {
  import opened PyText

  /** Ids from this value up are orders, below it notices. */
  const OrderThreshold: int := 2000000000

  /** One cell of the `idItem` column: empty, a number, a text, or a value
      `int()` refuses. */
  datatype Item = Null | Number(n: int) | Str(s: string) | Other

  /** The text before the first `-` or `/`, or all of it when it holds
      neither. */
  function BasePart(s: string): (r: string)
    ensures r <= s
    ensures '-' !in r && '/' !in r
    ensures |r| < |s| ==> s[|r|] == '-' || s[|r|] == '/'
  {
    var dash := IndexOf(s, '-');
    var slash := IndexOf(s, '/');
    if dash >= 0 && (slash < 0 || dash < slash) then s[..dash]
    else if slash >= 0 then s[..slash]
    else s
  }

  /** `extract_base_id`: `None` where it logs a warning and returns `None`. */
  function ExtractBaseId(item: Item): Option<int> {
    match item
    case Str(s) => ParseInt(BasePart(s))
    case Number(n) => Some(n)
    case Null => None
    case Other => None
  }

  /** The cut falls at the first separator. */
  lemma BasePartAt(s: string, k: nat)
    requires k < |s| && (s[k] == '-' || s[k] == '/')
    requires forall i :: 0 <= i < k ==> s[i] != '-' && s[i] != '/'
    ensures BasePart(s) == s[..k]
  {
  }

  /** An id written as digits and then a `-` or `/` suffix gives its
      digits' value. */
  lemma BaseIdSuffixed(n: nat, sep: char, rest: string)
    requires sep == '-' || sep == '/'
    ensures ExtractBaseId(Str(NatToString(n) + [sep] + rest)) == Some(n)
  {
    var digits := NatToString(n);
    var s := digits + [sep] + rest;
    forall i | 0 <= i < |digits| ensures s[i] != '-' && s[i] != '/' {
      assert s[i] == digits[i] && IsDigit(digits[i]);
    }
    BasePartAt(s, |digits|);
    assert s[..|digits|] == digits;
    ParseIntNat(n);
  }

  /** An id written as digits only gives their value. */
  lemma BaseIdPlain(n: nat)
    ensures ExtractBaseId(Str(NatToString(n))) == Some(n)
  {
    var digits := NatToString(n);
    forall i | 0 <= i < |digits| ensures digits[i] != '-' && digits[i] != '/' {
      assert IsDigit(digits[i]);
    }
    assert BasePart(digits) == digits;
    ParseIntNat(n);
  }

  /** The ids that survive `dropna` and `extract_base_id`, in order. */
  function Parsed(items: seq<Item>): seq<int> {
    if |items| == 0 then []
    else
      var last := items[|items| - 1];
      Parsed(items[..|items| - 1]) +
        (if last.Null? then [] else match ExtractBaseId(last) case Some(v) => [v] case None => [])
  }

  lemma {:induction false} ParsedSpec(items: seq<Item>)
    ensures forall v :: v in Parsed(items) <==> exists i :: 0 <= i < |items| && items[i] != Null && ExtractBaseId(items[i]) == Some(v)
  {
    if |items| > 0 {
      var init := items[..|items| - 1];
      ParsedSpec(init);
      forall v ensures v in Parsed(items) <==> exists i :: 0 <= i < |items| && items[i] != Null && ExtractBaseId(items[i]) == Some(v)
      {
        if v in Parsed(items) && v !in Parsed(init) {
          assert ExtractBaseId(items[|items| - 1]) == Some(v);
        }
        if exists i :: 0 <= i < |items| && items[i] != Null && ExtractBaseId(items[i]) == Some(v) {
          var i :| 0 <= i < |items| && items[i] != Null && ExtractBaseId(items[i]) == Some(v);
          if i < |init| {
            assert init[i] == items[i];
          }
        }
      }
    }
  }

  /** `normalize_df`: `None` for an empty column, otherwise its distinct
      ids in order of first occurrence. */
  function Normalized(items: seq<Item>): Option<seq<int>> {
    if |items| == 0 then None else Some(Unique(Parsed(items)))
  }

  /** The normalised ids are exactly the ids some cell gives, each once, in
      the order in which the cells first give them. */
  lemma NormalizedSpec(items: seq<Item>)
    ensures Normalized(items).None? <==> |items| == 0
    ensures Normalized(items).Some? ==>
      var ids := Normalized(items).value;
      && |ids| <= |items|
      && (forall i, j :: 0 <= i < j < |ids| ==> ids[i] != ids[j])
      && (forall v :: v in ids <==> exists i :: 0 <= i < |items| && items[i] != Null && ExtractBaseId(items[i]) == Some(v))
      && FirstOccurrences(Parsed(items), ids)
  {
    ParsedSpec(items);
    UniqueSpec(Parsed(items));
    UniqueOrder(Parsed(items));
    ParsedLength(items);
  }

  lemma {:induction false} ParsedLength(items: seq<Item>)
    ensures |Parsed(items)| <= |items|
  {
    if |items| > 0 {
      ParsedLength(items[..|items| - 1]);
    }
  }

  /** `extract_adm`: the ids below the threshold, in order. */
  function NoticeIds(ids: seq<int>): (r: seq<int>)
    ensures forall x :: x in r ==> x < OrderThreshold
  {
    if |ids| == 0 then []
    else NoticeIds(ids[..|ids| - 1]) + (if ids[|ids| - 1] < OrderThreshold then [ids[|ids| - 1]] else [])
  }

  /** `extract_odm`: the ids from the threshold up, in order. */
  function OrderIds(ids: seq<int>): (r: seq<int>)
    ensures forall x :: x in r ==> x >= OrderThreshold
  {
    if |ids| == 0 then []
    else OrderIds(ids[..|ids| - 1]) + (if ids[|ids| - 1] >= OrderThreshold then [ids[|ids| - 1]] else [])
  }

  /** Notices and orders split the ids between them: every id goes to
      exactly one side, with the threshold to the orders. */
  lemma {:induction false} SplitPartition(ids: seq<int>)
    ensures multiset(NoticeIds(ids)) + multiset(OrderIds(ids)) == multiset(ids)
  {
    if |ids| > 0 {
      var init := ids[..|ids| - 1];
      var x := ids[|ids| - 1];
      SplitPartition(init);
      assert ids == init + [x];
      if x < OrderThreshold {
        assert NoticeIds(ids) == NoticeIds(init) + [x] && OrderIds(ids) == OrderIds(init);
      } else {
        assert NoticeIds(ids) == NoticeIds(init) && OrderIds(ids) == OrderIds(init) + [x];
      }
    }
  }

  /** Both sides keep the input order: splitting a concatenation is
      concatenating the splits. */
  lemma {:induction false} SplitOrder(xs: seq<int>, ys: seq<int>)
    ensures NoticeIds(xs + ys) == NoticeIds(xs) + NoticeIds(ys)
    ensures OrderIds(xs + ys) == OrderIds(xs) + OrderIds(ys)
    decreases |ys|
  {
    if |ys| == 0 {
      assert xs + ys == xs;
    } else {
      var init := ys[..|ys| - 1];
      SplitOrder(xs, init);
      assert (xs + ys)[..|xs + ys| - 1] == xs + init;
    }
  }

  /** An id that is its own notice or order. */
  lemma SplitSingle(x: int)
    ensures x < OrderThreshold ==> NoticeIds([x]) == [x] && OrderIds([x]) == []
    ensures x >= OrderThreshold ==> NoticeIds([x]) == [] && OrderIds([x]) == [x]
  {
    assert [x][..0] == [];
  }

  /** The processor's state: the results of the last run and its file. */
  class ExcelDataProcessor {
    var notices: Option<seq<int>>
    var orders: Option<seq<int>>
    var normalized: Option<seq<int>>
    var excelFilePath: Option<string>

    constructor ()
      ensures notices == None && orders == None && normalized == None && excelFilePath == None
    {
      notices := None;
      orders := None;
      normalized := None;
      excelFilePath := None;
    }

    /** `process_excel_file`, given the `idItem` column `check_excel_file`
        read, or `None` when it refused the file. A failed normalisation
        still stores its `None`. */
    method ProcessExcelFile(filePath: string, column: Option<seq<Item>>) returns (ok: bool)
      modifies this
      ensures excelFilePath == Some(filePath)
      ensures column.None? ==> !ok && normalized == old(normalized)
      ensures column.Some? ==> normalized == Normalized(column.value)
      ensures ok <==> column.Some? && normalized.Some?
      ensures ok ==> notices == Some(NoticeIds(normalized.value)) && orders == Some(OrderIds(normalized.value))
      ensures !ok ==> notices == old(notices) && orders == old(orders)
    {
      excelFilePath := Some(filePath);
      if column.None? {
        return false;
      }
      normalized := Normalized(column.value);
      if normalized.None? {
        return false;
      }
      notices := Some(NoticeIds(normalized.value));
      orders := Some(OrderIds(normalized.value));
      ok := true;
    }

    /** `clear_data`. */
    method ClearData()
      modifies this
      ensures notices == None && orders == None && normalized == None && excelFilePath == None
    {
      notices := None;
      orders := None;
      normalized := None;
      excelFilePath := None;
    }
  }
}
