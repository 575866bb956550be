/** `handle_duplicate_headers` (`DF_Tools.py` and its copy in `test.py`):
    blank headers are renamed `Unnamed_0`, `Unnamed_1`, ... in the order they
    appear, the others are stripped, and each later repeat of a name gets the
    suffix `_1`, `_2`, ... counting the repeats seen so far. */
module Headers {
  import opened PyText

  /** `not header or header.strip() == ""`. */
  predicate Blank(h: string) {
    Strip(h) == ""
  }

  /** How many of `hs` are blank. */
  function BlankCount(hs: seq<string>): nat {
    if |hs| == 0 then 0
    else BlankCount(hs[..|hs| - 1]) + (if Blank(hs[|hs| - 1]) then 1 else 0)
  }

  /** `f"Unnamed_{n}"`. */
  function Unnamed(n: nat): string {
    "Unnamed_" + NatToString(n)
  }

  /** What the first pass makes of header `i`: the blank ones are numbered by
      how many blank headers come before them. */
  function NamedAt(headers: seq<string>, i: nat): string
    requires i < |headers|
  {
    if Blank(headers[i]) then Unnamed(BlankCount(headers[..i])) else Strip(headers[i])
  }

  function Named(headers: seq<string>): seq<string> {
    seq(|headers|, i requires 0 <= i < |headers| => NamedAt(headers, i))
  }

  /** A name seen `k` times before: `f"{header}_{k}"`, or the name itself the
      first time. */
  function Suffixed(h: string, k: nat): string {
    if k == 0 then h else h + "_" + NatToString(k)
  }

  /** The second pass: every name carries the number of times it occurred
      before it. */
  function Deduped(names: seq<string>): seq<string> {
    seq(|names|, i requires 0 <= i < |names| => Tagged(names, i))
  }

  /** Name `i` with the number of its earlier occurrences. */
  function Tagged(names: seq<string>, i: nat): string
    requires i < |names|
  {
    Suffixed(names[i], multiset(names[..i])[names[i]])
  }

  /** The headers `handle_duplicate_headers` returns. */
  function UniqueHeaders(headers: seq<string>): seq<string> {
    Deduped(Named(headers))
  }

  /** `handle_duplicate_headers`: its two loops, one after the other. */
  method HandleDuplicateHeaders(headers: seq<string>) returns (unique: seq<string>)
    ensures unique == UniqueHeaders(headers)
  {
    var processed := RenameBlanks(headers);
    unique := NumberRepeats(processed);
  }

  /** The first loop: blank headers are renamed with a running counter, the
      others are stripped. */
  method RenameBlanks(headers: seq<string>) returns (processed: seq<string>)
    ensures processed == Named(headers)
  {
    var unnamed := 0;
    processed := [];
    for i := 0 to |headers|
      invariant |processed| == i
      invariant unnamed == BlankCount(headers[..i])
      invariant forall j :: 0 <= j < i ==> processed[j] == NamedAt(headers, j)
    {
      assert headers[..i + 1][..i] == headers[..i];
      if Blank(headers[i]) {
        processed := processed + [Unnamed(unnamed)];
        unnamed := unnamed + 1;
      } else {
        processed := processed + [Strip(headers[i])];
      }
    }
  }

  /** `counts` is the `Counter` after the names of `seen`: each name seen
      has a count one less than its number of occurrences. */
  ghost predicate Tallies(counts: map<string, nat>, seen: multiset<string>) {
    forall h :: (h in counts <==> h in seen) && (h in counts ==> counts[h] + 1 == seen[h])
  }

  /** One more name: the counter either gains it at 0 or raises its count. */
  lemma TallyStep(counts: map<string, nat>, seen: multiset<string>, h: string)
    requires Tallies(counts, seen)
    ensures h in counts ==> seen[h] == counts[h] + 1 && Tallies(counts[h := counts[h] + 1], seen + multiset{h})
    ensures h !in counts ==> seen[h] == 0 && Tallies(counts[h := 0], seen + multiset{h})
  {
  }

  /** The second loop: a counter per name, 0 at its first occurrence and
      raised by one at each repeat, whose value is appended to the repeat. */
  method NumberRepeats(processed: seq<string>) returns (unique: seq<string>)
    ensures unique == Deduped(processed)
  {
    var counts: map<string, nat> := map[];
    unique := [];
    for i := 0 to |processed|
      invariant |unique| == i
      invariant Tallies(counts, multiset(processed[..i]))
      invariant forall j :: 0 <= j < i ==> unique[j] == Tagged(processed, j)
    {
      var h := processed[i];
      ghost var seen := multiset(processed[..i]);
      TallyStep(counts, seen, h);
      assert processed[..i + 1] == processed[..i] + [h];
      assert Tagged(processed, i) == Suffixed(h, seen[h]);
      if h in counts {
        counts := counts[h := counts[h] + 1];
        unique := unique + [Suffixed(h, counts[h])];
      } else {
        counts := counts[h := 0];
        unique := unique + [h];
      }
    }
  }

  /** One name per header, in the headers' order. */
  lemma UniqueHeadersLength(headers: seq<string>)
    ensures |UniqueHeaders(headers)| == |headers|
    ensures forall i :: 0 <= i < |headers| && !Blank(headers[i]) && Strip(headers[i]) !in Named(headers)[..i] ==>
              UniqueHeaders(headers)[i] == Strip(headers[i])
  {
  }

  lemma {:induction false} BlankCountGrows(hs: seq<string>, i: nat, j: nat)
    requires i < j <= |hs| && Blank(hs[i])
    ensures BlankCount(hs[..i]) < BlankCount(hs[..j])
    decreases j
  {
    assert hs[..j][..j - 1] == hs[..j - 1];
    if j - 1 > i {
      BlankCountGrows(hs, i, j - 1);
    } else {
      assert hs[..j][j - 1] == hs[i];
    }
    assert BlankCount(hs[..j]) >= BlankCount(hs[..j - 1]);
  }

  /** Two blank headers never get the same `Unnamed_` name. */
  lemma BlankNamesDistinct(headers: seq<string>, i: nat, j: nat)
    requires i < j < |headers| && Blank(headers[i]) && Blank(headers[j])
    ensures Named(headers)[i] != Named(headers)[j]
  {
    var m, n := BlankCount(headers[..i]), BlankCount(headers[..j]);
    BlankCountGrows(headers, i, j);
    if Unnamed(m) == Unnamed(n) {
      assert Unnamed(m)[8..] == NatToString(m);
      assert Unnamed(n)[8..] == NatToString(n);
      NatToStringInjective(m, n);
    }
  }

  /** A name keeps its spelling exactly when it has not occurred before; every
      repeat gets a suffix. */
  lemma FirstOccurrenceKept(names: seq<string>, i: nat)
    requires i < |names|
    ensures Deduped(names)[i] == names[i] <==> names[i] !in names[..i]
  {
    var k := multiset(names[..i])[names[i]];
    assert k == 0 <==> names[i] !in names[..i];
    if k > 0 {
      assert |Deduped(names)[i]| > |names[i]|;
    }
  }

  /** On headers that are already stripped, non-blank and distinct the
      renaming changes nothing. */
  lemma UniqueHeadersIdle(headers: seq<string>)
    requires forall i :: 0 <= i < |headers| ==> !Blank(headers[i]) && Strip(headers[i]) == headers[i]
    requires forall i, j :: 0 <= i < j < |headers| ==> headers[i] != headers[j]
    ensures UniqueHeaders(headers) == headers
  {
    var n := Named(headers);
    assert n == headers;
    forall i | 0 <= i < |headers| ensures multiset(n[..i])[n[i]] == 0 {
      assert n[i] !in n[..i];
    }
  }

  /** Stripped, non-blank headers keep their names in the first pass. */
  lemma NamedPlain(hs: seq<string>)
    requires forall i :: 0 <= i < |hs| ==> hs[i] != "" && Strip(hs[i]) == hs[i]
    ensures Named(hs) == hs
  {
  }

  /** The renaming does not make the headers unique: a header that already
      looks like a renamed repeat clashes with one. */
  lemma NotAlwaysUnique(a: string)
    requires a != "" && Strip(a) == a && Strip(a + "_1") == a + "_1"
    ensures UniqueHeaders([a, a, a + "_1"]) == [a, a + "_1", a + "_1"]
  {
    var b := a + "_1";
    var hs := [a, a, b];
    NamedPlain(hs);
    assert hs[..1] == [a] && hs[..2] == [a, a];
    assert b != a by { assert |b| > |a|; }
    assert NatToString(1) == "1";
    assert Tagged(hs, 0) == a;
    assert Tagged(hs, 1) == b;
    assert Tagged(hs, 2) == b;
  }

  /** For instance `['A', 'A', 'A_1']` becomes `['A', 'A_1', 'A_1']`. */
  lemma NotUniqueExample()
    ensures UniqueHeaders(["A", "A", "A_1"]) == ["A", "A_1", "A_1"]
  {
    StripIdle("A");
    StripIdle("A_1");
    assert "A" + "_1" == "A_1";
    NotAlwaysUnique("A");
  }
}
