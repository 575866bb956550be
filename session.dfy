/** The SAP side of one extraction query (`kpi_ofa/services/sap_transactions.py`):
    the two polling waits, the clipboard text that selects a list of ids, and
    the classification of what the session shows after the run. The session
    and the clipboard are oracles: the k-th look at `session.Busy`, the k-th
    `pyperclip.paste()`, and the texts of the status bar and the window.
    `None` stands for a look that raised. Time is counted in milliseconds of
    sleep since the wait began. */
module SapSession {
  import opened PyText

  /** `time.sleep(0.5)` between two looks at `session.Busy`. */
  const SapPollMs: nat := 500
  /** `time.sleep(0.1)` after an empty clipboard. */
  const ClipboardPollMs: nat := 100
  /** `time.sleep(0.5)` after a clipboard read that raised. */
  const ClipboardErrorMs: nat := 500
  /** Both waits are called with `timeout=30` seconds. */
  const WaitSeconds: nat := 30

  // ---------------------------------------------------------------------
  // wait_for_sap

  /** The outcome of `wait_for_sap` from look `k` on: ready at the first look
      that finds the session idle, not ready when a look raises or when the
      session is still busy after more than `limit` milliseconds. */
  function SapWait(busy: nat -> Option<bool>, k: nat, limit: nat): bool
    decreases limit + SapPollMs - k * SapPollMs
  {
    match busy(k)
    case None => false
    case Some(b) =>
      if !b then true
      else if k * SapPollMs > limit then false
      else SapWait(busy, k + 1, limit)
  }

  /** `wait_for_sap(timeout)`. */
  method WaitForSap(busy: nat -> Option<bool>, timeout: nat) returns (ready: bool)
    ensures ready == SapWait(busy, 0, timeout * 1000)
  {
    var limit := timeout * 1000;
    var k := 0;
    while true
      invariant SapWait(busy, 0, limit) == SapWait(busy, k, limit)
      decreases limit + SapPollMs - k * SapPollMs
    {
      match busy(k) {
        case None =>
          return false;
        case Some(b) =>
          if !b {
            return true;
          }
      }
      if k * SapPollMs > limit {
        return false;
      }
      k := k + 1;
    }
  }

  /** Look `k` finds the session idle after looks `k0 .. k - 1` found it busy
      within the time limit. */
  ghost predicate IdleAt(busy: nat -> Option<bool>, k0: nat, k: nat, limit: nat) {
    k0 <= k && busy(k) == Some(false) &&
    forall j :: k0 <= j < k ==> busy(j) == Some(true) && j * SapPollMs <= limit
  }

  /** A successful wait found the session idle in time. */
  lemma {:induction false} SapWaitSound(busy: nat -> Option<bool>, k0: nat, limit: nat)
    requires SapWait(busy, k0, limit)
    ensures exists k :: IdleAt(busy, k0, k, limit)
    decreases limit + SapPollMs - k0 * SapPollMs
  {
    if busy(k0) == Some(false) {
      assert IdleAt(busy, k0, k0, limit);
    } else {
      SapWaitSound(busy, k0 + 1, limit);
      var k :| IdleAt(busy, k0 + 1, k, limit);
      assert IdleAt(busy, k0, k, limit);
    }
  }

  /** A session that becomes idle in time makes the wait succeed. */
  lemma {:induction false} SapWaitComplete(busy: nat -> Option<bool>, k0: nat, k: nat, limit: nat)
    requires IdleAt(busy, k0, k, limit)
    ensures SapWait(busy, k0, limit)
    decreases k - k0
  {
    if k0 < k {
      assert busy(k0) == Some(true) && k0 * SapPollMs <= limit;
      SapWaitComplete(busy, k0 + 1, k, limit);
    }
  }

  /** The wait succeeds exactly when some look finds the session idle and
      every earlier look found it busy within the time limit: it fails when
      a look raises or the session stays busy beyond the limit. */
  lemma SapWaitReady(busy: nat -> Option<bool>, limit: nat)
    ensures SapWait(busy, 0, limit) <==> exists k :: IdleAt(busy, 0, k, limit)
  {
    if SapWait(busy, 0, limit) {
      SapWaitSound(busy, 0, limit);
    }
    if exists k :: IdleAt(busy, 0, k, limit) {
      var k :| IdleAt(busy, 0, k, limit);
      SapWaitComplete(busy, 0, k, limit);
    }
  }

  // ---------------------------------------------------------------------
  // wait_for_write_clipboard_data

  /** `data and data.strip()`. */
  predicate Filled(data: string) {
    data != "" && Strip(data) != ""
  }

  /** The outcome of `wait_for_write_clipboard_data` from read `k` on, after
      `elapsed` milliseconds: a read that raised costs a longer sleep, an
      empty clipboard a short one, and the wait gives up once more than
      `limit` milliseconds have passed. */
  function ClipWait(polls: nat -> Option<string>, k: nat, elapsed: nat, limit: nat): bool
    decreases limit + 1 - elapsed
  {
    if elapsed > limit then false
    else
      match polls(k)
      case None => ClipWait(polls, k + 1, elapsed + ClipboardErrorMs, limit)
      case Some(data) =>
        if Filled(data) then true else ClipWait(polls, k + 1, elapsed + ClipboardPollMs, limit)
  }

  /** `wait_for_write_clipboard_data(timeout)`. */
  method WaitForWriteClipboardData(polls: nat -> Option<string>, timeout: nat) returns (found: bool)
    ensures found == ClipWait(polls, 0, 0, timeout * 1000)
  {
    var limit := timeout * 1000;
    var elapsed := 0;
    var k := 0;
    while true
      invariant ClipWait(polls, 0, 0, limit) == ClipWait(polls, k, elapsed, limit)
      decreases limit + 1 - elapsed
    {
      if elapsed > limit {
        return false;
      }
      match polls(k) {
        case None =>
          elapsed := elapsed + ClipboardErrorMs;
        case Some(data) =>
          if Filled(data) {
            return true;
          }
          elapsed := elapsed + ClipboardPollMs;
      }
      k := k + 1;
    }
  }

  /** The milliseconds slept before read `k`. */
  function Slept(polls: nat -> Option<string>, k: nat): nat {
    if k == 0 then 0
    else Slept(polls, k - 1) + (if polls(k - 1).None? then ClipboardErrorMs else ClipboardPollMs)
  }

  /** Read `k` returns text that is not blank, within the time limit, and
      reads `k0 .. k - 1` did not. */
  ghost predicate FilledAt(polls: nat -> Option<string>, k0: nat, k: nat, limit: nat) {
    k0 <= k && Slept(polls, k) <= limit && polls(k).Some? && Filled(polls(k).value) &&
    forall j :: k0 <= j < k ==> !(polls(j).Some? && Filled(polls(j).value))
  }

  lemma {:induction false} SleptGrows(polls: nat -> Option<string>, i: nat, j: nat)
    requires i <= j
    ensures Slept(polls, i) <= Slept(polls, j)
    decreases j
  {
    if i < j {
      SleptGrows(polls, i, j - 1);
    }
  }

  /** A successful wait saw text in the clipboard in time. */
  lemma {:induction false} ClipWaitSound(polls: nat -> Option<string>, k0: nat, limit: nat)
    requires ClipWait(polls, k0, Slept(polls, k0), limit)
    ensures exists k :: FilledAt(polls, k0, k, limit)
    decreases limit + 1 - Slept(polls, k0)
  {
    if polls(k0).Some? && Filled(polls(k0).value) {
      assert FilledAt(polls, k0, k0, limit);
    } else {
      assert Slept(polls, k0 + 1) == Slept(polls, k0) + (if polls(k0).None? then ClipboardErrorMs else ClipboardPollMs);
      ClipWaitSound(polls, k0 + 1, limit);
      var k :| FilledAt(polls, k0 + 1, k, limit);
      assert FilledAt(polls, k0, k, limit);
    }
  }

  /** Text that appears in time makes the wait succeed. */
  lemma {:induction false} ClipWaitComplete(polls: nat -> Option<string>, k0: nat, k: nat, limit: nat)
    requires FilledAt(polls, k0, k, limit)
    ensures ClipWait(polls, k0, Slept(polls, k0), limit)
    decreases k - k0
  {
    SleptGrows(polls, k0, k);
    if k0 < k {
      assert !(polls(k0).Some? && Filled(polls(k0).value));
      assert Slept(polls, k0 + 1) == Slept(polls, k0) + (if polls(k0).None? then ClipboardErrorMs else ClipboardPollMs);
      ClipWaitComplete(polls, k0 + 1, k, limit);
    }
  }

  /** The clipboard counts as written exactly when some read returns text
      that is not blank within the time limit, every read before it having
      come back empty or raised. */
  lemma ClipWaitFound(polls: nat -> Option<string>, limit: nat)
    ensures ClipWait(polls, 0, 0, limit) <==> exists k :: FilledAt(polls, 0, k, limit)
  {
    if ClipWait(polls, 0, 0, limit) {
      ClipWaitSound(polls, 0, limit);
    }
    if exists k :: FilledAt(polls, 0, k, limit) {
      var k :| FilledAt(polls, 0, k, limit);
      ClipWaitComplete(polls, 0, k, limit);
    }
  }

  // ---------------------------------------------------------------------
  // copy_values_for_sap_selection

  /** The clipboard text for a multiple selection: one value per line with
      Windows line ends; nothing is copied for an empty collection. */
  function SelectionText(values: seq<string>): (r: Option<string>)
    ensures r.None? <==> |values| == 0
  {
    if |values| == 0 then None else Some(Join(values, "\r\n"))
  }

  /** The lines of the selection as split at `\n`: every value but the last
      keeps the `\r` of its line end. */
  function CarriageEnded(values: seq<string>): seq<string> {
    if |values| <= 1 then values
    else [values[0] + "\r"] + CarriageEnded(values[1..])
  }

  /** `line.rstrip('\r')` for a line with at most one `\r`. */
  function DropCarriage(line: string): string {
    if |line| > 0 && line[|line| - 1] == '\r' then line[..|line| - 1] else line
  }

  lemma {:induction false} JoinCarriage(values: seq<string>)
    ensures Join(values, "\r\n") == Join(CarriageEnded(values), "\n")
    ensures |CarriageEnded(values)| == |values|
  {
    if |values| > 1 {
      JoinCarriage(values[1..]);
      var rest := CarriageEnded(values[1..]);
      assert CarriageEnded(values) == [values[0] + "\r"] + rest;
      assert |rest| >= 1;
      assert Join(CarriageEnded(values), "\n") == values[0] + "\r" + "\n" + Join(rest, "\n");
    }
  }

  lemma {:induction false} CarriageEndedFree(values: seq<string>)
    requires forall i :: 0 <= i < |values| ==> '\n' !in values[i]
    ensures forall i :: 0 <= i < |CarriageEnded(values)| ==> '\n' !in CarriageEnded(values)[i]
  {
    if |values| > 1 {
      CarriageEndedFree(values[1..]);
      assert forall i :: 1 <= i < |values| ==> values[1..][i - 1] == values[i];
    }
  }

  lemma {:induction false} CarriageEndedDropped(values: seq<string>, i: nat)
    requires i < |values| && (|values[i]| == 0 || values[i][|values[i]| - 1] != '\r')
    ensures |CarriageEnded(values)| == |values| && DropCarriage(CarriageEnded(values)[i]) == values[i]
    decreases |values|
  {
    JoinCarriage(values);
    if |values| > 1 && i > 0 {
      CarriageEndedDropped(values[1..], i - 1);
      JoinCarriage(values[1..]);
    } else if |values| > 1 {
      assert (values[0] + "\r")[..|values[0]|] == values[0];
    }
  }

  /** SAP polls the selection back value by value: splitting it into lines
      and dropping each line's `\r` gives the values, provided no value
      holds a line break or ends in `\r`. */
  lemma SelectionRoundTrip(values: seq<string>)
    requires |values| > 0
    requires forall i :: 0 <= i < |values| ==> '\n' !in values[i]
    requires forall i :: 0 <= i < |values| ==> |values[i]| == 0 || values[i][|values[i]| - 1] != '\r'
    ensures var lines := Split(SelectionText(values).value, '\n');
      |lines| == |values| && forall i :: 0 <= i < |values| ==> DropCarriage(lines[i]) == values[i]
  {
    JoinCarriage(values);
    CarriageEndedFree(values);
    SplitJoin(CarriageEnded(values), '\n');
    forall i | 0 <= i < |values| ensures DropCarriage(CarriageEnded(values)[i]) == values[i] {
      CarriageEndedDropped(values, i);
    }
  }

  // ---------------------------------------------------------------------
  // extract_IW29_single

  /** The status code `extract_IW29_single` returns, with its payload. */
  datatype Outcome = Error | List(text: string) | Single(id: string) | Empty

  /** `0=errore, 1=successo con lista, 2=singolo valore, 3=nessun risultato`. */
  function Code(o: Outcome): (c: nat)
    ensures c <= 3
    ensures (c == 0 <==> o.Error?) && (c == 1 <==> o.List?) && (c == 2 <==> o.Single?) && (c == 3 <==> o.Empty?)
  {
    match o
    case Error => 0
    case List(_) => 1
    case Single(_) => 2
    case Empty => 3
  }

  const NoObjects: string := "Non sono stati selezionati oggetti"
  const DetailTitle: string := "Visualizzare avviso PM: Segnalazione guasto"
  const ListTitle: string := "Visualizzare avvisi: lista avvisi"

  /** What the session and the clipboard do during one query. */
  datatype Session = Session(
    scriptFails: bool,                  // some scripting call raises
    copyFails: bool,                    // copying the ids to the clipboard raises
    busyAfterRun: nat -> Option<bool>,  // looks at `Busy` after pressing Execute
    statusBar: string,
    title: string,
    noticeId: string,                   // the notice number on the detail screen
    busyAfterExport: nat -> Option<bool>,
    clipboardPolls: nat -> Option<string>,
    pasted: string)                     // the final `pyperclip.paste()`

  predicate ListKind(kind: string) {
    kind == "Lista" || kind == "ListaSingoli"
  }

  predicate KnownKind(kind: string) {
    kind == "Creazione" || kind == "Modifica" || ListKind(kind)
  }

  /** The selection screen could be filled in: a known kind, a prefix for
      `Creazione`, ids for the list kinds, and no scripting failure. */
  predicate Prepared(kind: string, ids: seq<string>, prefix: Option<string>, s: Session) {
    && KnownKind(kind)
    && !(kind == "Creazione" && prefix.None?)
    && !(ListKind(kind) && (|ids| == 0 || s.copyFails))
    && !s.scriptFails
  }

  /** `extract_IW29_single`: its decision chain over what the session shows. */
  function ExtractSingle(kind: string, ids: seq<string>, prefix: Option<string>, s: Session): Outcome {
    if !KnownKind(kind) then Error
    else if kind == "Creazione" && prefix.None? then Error
    else if ListKind(kind) && |ids| == 0 then Error
    else if ListKind(kind) && s.copyFails then Error
    else if s.scriptFails then Error
    else if !SapWait(s.busyAfterRun, 0, WaitSeconds * 1000) then Error
    else if s.statusBar == NoObjects then Empty
    else if s.title == DetailTitle then Single(s.noticeId)
    else if s.title != ListTitle then Error
    else if !SapWait(s.busyAfterExport, 0, WaitSeconds * 1000) then Error
    else if !ClipWait(s.clipboardPolls, 0, 0, WaitSeconds * 1000) then Error
    else if s.pasted != "" then List(s.pasted)
    else Error
  }

  /** The outcome of a query: "no objects" on the status bar gives code 3,
      the detail screen code 2 with its notice, the list screen code 1 with
      the non-empty clipboard once both waits succeed, and everything else,
      including a run that never became idle, code 0. */
  lemma ExtractSingleOutcome(kind: string, ids: seq<string>, prefix: Option<string>, s: Session)
    ensures var o := ExtractSingle(kind, ids, prefix, s);
      var ran := Prepared(kind, ids, prefix, s) && SapWait(s.busyAfterRun, 0, WaitSeconds * 1000);
      && (o.Empty? <==> ran && s.statusBar == NoObjects)
      && (o.Single? <==> ran && s.statusBar != NoObjects && s.title == DetailTitle)
      && (o.Single? ==> o.id == s.noticeId)
      && (o.List? <==> ran && s.statusBar != NoObjects && s.title == ListTitle
                       && SapWait(s.busyAfterExport, 0, WaitSeconds * 1000)
                       && ClipWait(s.clipboardPolls, 0, 0, WaitSeconds * 1000) && s.pasted != "")
      && (o.List? ==> o.text == s.pasted && o.text != "")
  {
    assert |DetailTitle| != |ListTitle|;
  }
}
