# KPI_OFA in Dafny

KPI_OFA drives SAP GUI to extract IW29 maintenance notices. The ids come
from an Excel sheet. The notices the SAP export pastes to the clipboard as a `|`-delimited
text are turned into tables and merged into one result. This project models
the decision logic of that pipeline and proves what it promises:

- **Clipboard table repair** (`ClipboardRepair`, `RepairFixture`): both revisions of
  `fix_clipboard_table_content`, which glue a wrapped free-text fragment
  back onto its row. The real export in `test.py` is checked against both.
- **Table materialisation** (`Headers`, `TableCleaning`): `handle_duplicate_headers`,
  `clean_data` and the variant `clean_and_load_data`. A DataFrame is a
  list of column names and rows of cells (`Missing` or `Text`).
- **One SAP query** (`SapSession`): the two polling waits, the clipboard text of a
  multiple selection, and the status code `extract_IW29_single` derives
  from what the session shows. The session and the clipboard are oracles
  (functions from the look number to what it returns). Time is
  milliseconds of sleep.
- **The orchestrator** (`Extraction`): the iteration plan of `extract_IW29`, its
  fail-fast rule, the single-hit re-query, the keyed table store and the
  final concatenation without duplicate rows. The current and the older
  revision are modelled, and so is the result rule of `extract_IW29_old`.
  The single-query executor is a function argument.
- **idItem normalisation** (`ExcelData`): the base id of each cell, order-preserving
  deduplication, and the split into notices (AdM) and orders (OdM) at two
  billion. `ExcelDataProcessor` is a class over its result fields.
- **Configuration** (`Configuration`): `validate_config` with "path exists" as a
  predicate, dotted-key reads and writes, and `ConfigManager` as a class
  over the in-memory configuration.
- **Logging** (`Logging`): `LogManager.log` dispatch to the logger, the log widget
  and the status bar, and the status-bar policy that keeps an important
  message on screen for its minimum time.

`PyText` models the Python string operations the code relies on: `strip`,
`split`, `join`, `count`, `find`, `rfind`, `int()` on text, and
`drop_duplicates` on one column.

The repository holds two copies of the SAP extractor: `SAP_Transactions.py`
and `kpi_ofa/services/sap_transactions.py`. The table code is in
`DF_Tools.py` and `test.py`. Where the current and the older revision
differ, both are modelled, and a `repairCurrent` flag picks the repair
revision the extractor class carries.

## Model

| member | source | states |
|---|---|---|
| ClipboardRepair.FixClipboardTableContent | kpi_ofa/services/sap_transactions.py:1028-1134 | the loop over the lines computes exactly the current repair `FixCurrent` (continuation test, merge, both failure messages, `\n` join) |
| ClipboardRepair.FixCurrentShape | kpi_ofa/services/sap_transactions.py:1044-1129 | fewer than 4 lines → `(False, input)` unchanged; on success the first two lines are kept, the output has at most as many lines as the input, and no continuation line is left after the third |
| ClipboardRepair.FixCurrentIdle | kpi_ofa/services/sap_transactions.py:1054-1129 | a text without continuation lines comes back unchanged with `True` |
| ClipboardRepair.CurrentStep | kpi_ofa/services/sap_transactions.py:1070-1107 | a continuation line aborts when the previous line has no `\|` or the merged count is short, and otherwise replaces the previous line by the merge |
| ClipboardRepair.CurrentKeep | kpi_ofa/services/sap_transactions.py:1109-1111 | a line that is not a continuation (it starts with `\|` or has enough pipes) is appended unchanged |
| ClipboardRepair.CurrentJoin | kpi_ofa/services/sap_transactions.py:1070-1097 | a row followed by a continuation whose pipes reach the expected count become one merged line and one merge |
| ClipboardRepair.ThroughLastPipe | kpi_ofa/services/sap_transactions.py:1076-1080 | the kept part of the previous line ends at its last `\|`, starts like it, and is no longer than it |
| ClipboardRepair.ThroughLastPipeDrops | kpi_ofa/services/sap_transactions.py:1076-1080 | the text after the last `\|` of the previous line is what the merge drops, and it holds no `\|` |
| ClipboardRepair.MergeCount | kpi_ofa/services/sap_transactions.py:1076-1086 | a merged line has count(previous) + count(current) pipes, in both revisions |
| ClipboardRepair.MergeFree | kpi_ofa/services/sap_transactions.py:1076-1083 | a merge introduces no character other than `\|` and blank, so it adds no line break |
| ClipboardRepair.CurrentPassKeeps | kpi_ofa/services/sap_transactions.py:1063-1114 | a successful pass keeps the lines before the last processed one, leaves no continuation, and loses exactly one line per merge |
| ClipboardRepair.CurrentPassIdle | kpi_ofa/services/sap_transactions.py:1063-1114 | a pass over lines with no continuation appends them all and merges nothing |
| ClipboardRepair.CurrentRecords | kpi_ofa/services/sap_transactions.py:1063-1114 | a list of records, each on one line or wrapped onto a second line, repairs to one line per record, with one merge per wrapped record |
| ClipboardRepair.FixCurrentDone | kpi_ofa/services/sap_transactions.py:1117-1129 | a pass that ends `Done(out)` makes the repair return `True` and the `\n`-join of `out` |
| ClipboardRepair.FixClipboardTableContentLegacy | SAP_Transactions.py:527-605 | the loop computes exactly the older repair `FixLegacy`; `test.py:32-110` is the same code |
| ClipboardRepair.LegacyPass | SAP_Transactions.py:556-592 | the older pass never fails on content |
| ClipboardRepair.FixLegacyShape | SAP_Transactions.py:543-605 | success exactly when there are at least 4 lines, a short input comes back unchanged, the first lines are kept, and every line after the third starts with `\|` unless it follows a line without one |
| ClipboardRepair.FixLegacyIdle | test.py:61-94 | a text whose lines all start with `\|` comes back unchanged with `True` |
| ClipboardRepair.LegacyStepShaped | test.py:67-94 | one step of the older pass merges with a blank only when the line does not start with `\|` and the previous line has one, and appends otherwise |
| ClipboardRepair.LegacyKeep | SAP_Transactions.py:587-589 | a line starting with `\|` is appended unchanged |
| ClipboardRepair.LegacyJoin | SAP_Transactions.py:562-580 | a line not starting with `\|` after a row is merged whatever its pipe count |
| ClipboardRepair.LegacyPassKeeps | SAP_Transactions.py:556-592 | the older pass keeps the earlier lines and loses exactly one line per merge |
| ClipboardRepair.LegacyPassShaped | SAP_Transactions.py:556-592 | after the older pass every line starts with `\|` unless the line before it has none |
| ClipboardRepair.LegacyPassIdle | SAP_Transactions.py:556-592 | lines that all start with `\|` pass through unchanged |
| ClipboardRepair.LegacyRecords | test.py:61-94 | records, each on one line or wrapped, repair to one line per record under the older revision |
| ClipboardRepair.FixLegacyDone | SAP_Transactions.py:594-601 | a pass that ends `Done(out)` makes the older repair return `True` and the `\n`-join of `out` |
| RepairFixture.PrintedOpens | test.py:9-27 | in the fixture exactly four lines (16, 20, 24, 26 of the file) do not start with `\|` |
| RepairFixture.PrintedPipes | test.py:9-27 | the header has 11 pipes, each wrapped row 4 and each fragment 7, so every merge gives 4 + 7 = 11 |
| RepairFixture.FixtureCurrentLines | kpi_ofa/services/sap_transactions.py:1058-1129 | the current revision accepts all four merges of the fixture and gives the listed 15 lines |
| RepairFixture.FixtureLegacyLines | test.py:32-110 | the older revision performs the same four merges, with a blank separator |
| RepairFixture.FixtureFragmentDropped | test.py:19-20 | merging line 20 drops the fragment `WTG 04 2931 GearOilLevelTooLow M:` after line 19's last `\|` |
| RepairFixture.FixtureCurrent | test.py:9-27 | the fixture has 19 lines and the current repair returns `True` with 15 |
| RepairFixture.FixtureLegacy | test.py:9-27 | the older repair returns `True` with 15 lines |
| Headers.HandleDuplicateHeaders | DF_Tools.py:391-430 | the two loops compute `UniqueHeaders`: blanks renamed, names stripped, and repeats numbered |
| Headers.RenameBlanks | DF_Tools.py:403-415 | the first loop gives `Named`: blank or whitespace headers become `Unnamed_<k>` by their order among blanks, others are stripped |
| Headers.NumberRepeats | DF_Tools.py:418-430 | the second loop gives `Deduped`: the k-th later repeat of a name becomes `name_k` |
| Headers.TallyStep | DF_Tools.py:418-430 | the counter map is the number of earlier occurrences of each name |
| Headers.UniqueHeadersLength | DF_Tools.py:406-430 | the length is kept, and a non-blank header not seen before keeps its stripped name in its place |
| Headers.BlankNamesDistinct | DF_Tools.py:403-412 | two blank headers get two different `Unnamed_` names |
| Headers.FirstOccurrenceKept | DF_Tools.py:421-430 | a name is kept exactly when it is its first occurrence |
| Headers.UniqueHeadersIdle | DF_Tools.py:421-430 | the normaliser is the identity on a list of distinct, stripped, non-blank names |
| Headers.NotAlwaysUnique | DF_Tools.py:421-430 | for any name `a`, `[a, a, a_1]` gives `[a, a_1, a_1]`: the output need not be unique |
| Headers.NotUniqueExample | DF_Tools.py:421-430 | `['A','A','A_1']` gives `['A','A_1','A_1']` |
| TableCleaning.KeepContentLines | DF_Tools.py:291-300 | the filter loop keeps exactly `Survivors`: the non-empty stripped lines not made only of `-` and blanks |
| TableCleaning.SurvivorsContent | DF_Tools.py:294-300 | no surviving line is empty or a dash rule |
| TableCleaning.SurvivorsEmpty | DF_Tools.py:302-304 | nothing survives exactly when every line is a rule |
| TableCleaning.CleanData | DF_Tools.py:278-389 | the method computes `Cleaned`: filter, header, row repair, split, frame and drop of anonymous columns |
| TableCleaning.CleanedNothing | DF_Tools.py:286-304 | empty input, or input of rules only, gives `None` |
| TableCleaning.CleanedShape | DF_Tools.py:307-385 | a cleaned table has one row per surviving line after the header, one cell per column, and exactly the named columns of the normalised header, in header order; each cell is the stripped field of its repaired line under that header, or missing when the line is short |
| TableCleaning.CleanedHeadingOnly | DF_Tools.py:307-385 | a lone header line gives a table with its named columns and no rows |
| TableCleaning.CorrectLine | DF_Tools.py:321-360 | one row's repair is `FixRow` |
| TableCleaning.FixRowOutcome | DF_Tools.py:321-360 | a row fails exactly when it has extra pipes and the expected count is at most 4; a kept row has its length, and its pipe count is brought down to the expected one |
| TableCleaning.RepipedCount | DF_Tools.py:325-345 | the repair turns exactly the extra pipes into `-`, leaving the expected count and changing no other character; nothing up to pipe 3 or from pipe `4 + extra` on changes |
| TableCleaning.CorrectedCount | DF_Tools.py:325-345 | the repaired row has exactly the header's pipe count |
| TableCleaning.RepipedShape | DF_Tools.py:330-341 | the repair only turns pipes into dashes, and only inside the replaced span |
| TableCleaning.PipeAt | DF_Tools.py:328-331 | the k-th pipe position holds a `\|` with k pipes before it |
| TableCleaning.CorrectLines | DF_Tools.py:318-360 | the row loop fails on the first row that fails and otherwise keeps every repaired row in order |
| TableCleaning.CorrectedRows | DF_Tools.py:318-360 | a successful repair has one row per line, each the `Keep` of its own line |
| TableCleaning.SplitFields | DF_Tools.py:363-368 | rows are the lines split on `\|` with each field stripped |
| TableCleaning.FieldRowsTail | test.py:238-247 | the header line is excluded from the data by dropping the first split row |
| TableCleaning.Frame | DF_Tools.py:371-375 | the DataFrame constructor pads short rows, and it refuses when a row is wider than the header or when every row is narrower |
| TableCleaning.Width | DF_Tools.py:375 | the frame width is the widest row |
| TableCleaning.KeptColumns | DF_Tools.py:378-379 | the kept columns are exactly those not empty and not starting with `Unnamed_` |
| TableCleaning.DropAnonymousShape | DF_Tools.py:378-382 | dropping anonymous columns keeps every row and one cell per remaining column; the kept columns are the named ones in their order, and every row keeps the cells under them |
| TableCleaning.KeepNamedAt | DF_Tools.py:378-382 | the kept columns, and the kept cells of a row, are those at exactly the positions of the named columns, in increasing order |
| TableCleaning.DroppedAligned | DF_Tools.py:363-382 | after `pd.DataFrame(data, columns=headers)` and the drop, cell `(i, j)` is field `p[j]` of row `i`, stripped, where `p` lists the named header positions; a short row gives missing cells |
| TableCleaning.LoadContentLines | test.py:171-175 | the variant skips empty lines and lines made only of `-` and `\|` |
| TableCleaning.LoadSurvivorsContent | test.py:172-175 | no surviving line is empty or a pipe-and-dash rule |
| TableCleaning.LoadCorrectLine | test.py:195-235 | one row's variant repair is `LoadFixRow` |
| TableCleaning.LoadFixRowOutcome | test.py:195-235 | a row with extra pipes but fewer than 4 is skipped; one that still cannot be repaired fails; a row the main repair keeps is kept the same way |
| TableCleaning.PySlice | test.py:225-226 | Python slicing on a list agrees with a Dafny slice when the bounds are in range |
| TableCleaning.LoadCorrectLines | test.py:193-235 | the variant's row loop computes `LoadedRows`, dropping skipped rows |
| TableCleaning.CleanAndLoadData | test.py:171-260 | the variant computes `LoadedTable` from the lines read |
| TableCleaning.LoadedShape | test.py:182-257 | a loaded table has at most one row per surviving line after the header, one cell per column, and exactly the named columns in header order; each cell is the stripped field of its kept line under that header, or missing when the line is short |
| SapSession.WaitForSap | kpi_ofa/services/sap_transactions.py:949-977 | the polling loop returns `SapWait`: the first idle look, unless a look raises or the time passes the timeout |
| SapSession.SapWaitReady | kpi_ofa/services/sap_transactions.py:962-977 | the wait succeeds exactly when some look finds the session idle before any look raises and before the timeout passes |
| SapSession.SapWaitSound | kpi_ofa/services/sap_transactions.py:962-977 | a successful wait has an idle look in time |
| SapSession.SapWaitComplete | kpi_ofa/services/sap_transactions.py:962-977 | an idle look in time makes the wait succeed |
| SapSession.WaitForWriteClipboardData | kpi_ofa/services/sap_transactions.py:979-1024 | the polling loop returns `ClipWait`, with 0.1 s after an empty read and 0.5 s after a failed one |
| SapSession.ClipWaitFound | kpi_ofa/services/sap_transactions.py:998-1010 | the wait succeeds exactly when some read in time returns text that is non-empty after strip |
| SapSession.ClipWaitSound | kpi_ofa/services/sap_transactions.py:998-1010 | a successful wait has a filled read in time |
| SapSession.ClipWaitComplete | kpi_ofa/services/sap_transactions.py:998-1010 | a filled read in time makes the wait succeed |
| SapSession.SleptGrows | kpi_ofa/services/sap_transactions.py:998-1010 | the time slept only grows with the number of reads |
| SapSession.SelectionText | kpi_ofa/services/sap_transactions.py:86-123 | nothing is copied for an empty collection |
| SapSession.JoinCarriage | kpi_ofa/services/sap_transactions.py:112 | the `\r\n` join is the `\n` join of the values with a `\r` ending each but the last |
| SapSession.SelectionRoundTrip | kpi_ofa/services/sap_transactions.py:112 | splitting the copied text at `\n` and dropping the `\r` gives back every value |
| SapSession.Code | kpi_ofa/services/sap_transactions.py:285-286 | the codes 0..3 are exactly Error, List, Single and Empty |
| SapSession.ExtractSingleOutcome | kpi_ofa/services/sap_transactions.py:330-449 | "no objects" gives 3; the detail screen gives 2 with its notice; the list screen gives 1 with the non-empty clipboard once both waits succeed; anything else gives 0 |
| Extraction.Others | kpi_ofa/services/sap_transactions.py:197 | the loop kinds are exactly the configured kinds other than "Lista" |
| Extraction.PlanShape | kpi_ofa/services/sap_transactions.py:186-215 | "Lista" runs once first when configured; after it come (kinds other than Lista) × (non-blank prefixes of every technology) steps, each a configured kind with a non-blank prefix of some technology |
| Extraction.PrefixPlanLength | kpi_ofa/services/sap_transactions.py:204-208 | one step per non-blank prefix |
| Extraction.PrefixPlanStep | kpi_ofa/services/sap_transactions.py:204-211 | every prefix step carries a configured, non-blank prefix |
| Extraction.TechPlanStep | kpi_ofa/services/sap_transactions.py:200-211 | every technology step carries a prefix of one of the technologies |
| Extraction.KindsPlanLength | kpi_ofa/services/sap_transactions.py:197-215 | the loops run kinds × usable prefixes queries |
| Extraction.KindsPlanStep | kpi_ofa/services/sap_transactions.py:197-215 | every loop step has a configured kind and a technology's non-blank prefix |
| Extraction.RunPrefixes | kpi_ofa/services/sap_transactions.py:204-215 | the innermost loop computes `Run` over the prefix plan, stopping at the first failure |
| Extraction.RunTechs | kpi_ofa/services/sap_transactions.py:200-215 | the technology loop computes `Run` over its plan |
| Extraction.RunKinds | kpi_ofa/services/sap_transactions.py:197-215 | the kind loop computes `Run` over its plan |
| Extraction.Collect | kpi_ofa/services/sap_transactions.py:186-215 | Lista and the loops together compute `Run` over `Plan` |
| Extraction.RunAppend | kpi_ofa/services/sap_transactions.py:186-215 | running two plans in turn is running their concatenation |
| Extraction.ErrorAborts | kpi_ofa/services/sap_transactions.py:154-215 | one code-0 answer anywhere in the plan makes the run fail |
| Extraction.PutLookup | kpi_ofa/services/sap_transactions.py:166-173 | after a store the key gives the new table and every other key what it gave before |
| Extraction.PutTwice | kpi_ofa/services/sap_transactions.py:166-173 | the key ignores the technology, so two technologies sharing a prefix leave one table |
| Extraction.Put | kpi_ofa/services/sap_transactions.py:173 | a store adds at most one entry |
| Extraction.TagSpec | kpi_ofa/services/sap_transactions.py:172 | a tagged table carries its kind in every row's `TipoEstrazione` cell and keeps every other cell |
| Extraction.AddOnce | kpi_ofa/services/sap_transactions.py:178 | adding to the set of single hits adds the value once |
| Extraction.SinglesCurrentCases | kpi_ofa/services/sap_transactions.py:218-258 | no hits: nothing to do; one hit: fail without a borrowed notice, else re-query as ListaSingoli even when the notice equals the hit; several hits: re-query |
| Extraction.FinishedSpec | kpi_ofa/services/sap_transactions.py:261-272 | no tables is a failure; otherwise the result holds every row of the concatenation, each once, at its first occurrence and in the order of the concatenation |
| Extraction.Records | kpi_ofa/services/sap_transactions.py:267 | one record per table row |
| Extraction.Finish | kpi_ofa/services/sap_transactions.py:261-272 | the tail computes `Finished` |
| Extraction.ExtractIW29 | kpi_ofa/services/sap_transactions.py:127-272 | the method computes `ExtractedCurrent`: date check, plan, single hits, concatenation |
| Extraction.ExtractFailsFast | kpi_ofa/services/sap_transactions.py:154-215 | in both revisions a code-0 answer at any step of the plan makes the extraction return `(False, None)` |
| Extraction.ExtractIW29Legacy | SAP_Transactions.py:166-276 | the older method computes `ExtractedLegacy` |
| Extraction.SinglesLegacyLone | SAP_Transactions.py:243-256 | the older revision never fails on a lone hit: with no notice to borrow, or one equal to the hit, it skips the re-query |
| Extraction.OldRunStops | SAP_Transactions.py:93-114 | in `extract_IW29_old`, with `clean_data` taken as static, a code-0 answer is only logged; the run stops only at a list text that cannot be read as a table |
| Extraction.BoundLegacyHandleSpec | SAP_Transactions.py:177-205 | as written, the older handler raises `TypeError` on every list the repair accepts, and otherwise agrees with `Handle` |
| Extraction.BoundOldRunSpec | SAP_Transactions.py:78-113 | as written, the loops of `extract_IW29_old` raise `TypeError` exactly when some query returns a list; otherwise they end as `OldRun` does, and never early |
| ExcelData.BasePart | kpi_ofa/core/excel_data_processor.py:214-224 | the base part is a prefix with no `-` or `/`, cut at the first of them |
| ExcelData.BasePartAt | kpi_ofa/core/excel_data_processor.py:214-224 | the cut falls at the first separator |
| ExcelData.BaseIdSuffixed | kpi_ofa/core/excel_data_processor.py:205-231 | an id written as digits then `-` or `/` and anything gives the digits' value |
| ExcelData.BaseIdPlain | kpi_ofa/core/excel_data_processor.py:205-231 | an id written as digits only gives their value |
| ExcelData.ParsedSpec | kpi_ofa/core/excel_data_processor.py:197-241 | the parsed ids are exactly the values of the non-null cells that convert |
| ExcelData.NormalizedSpec | kpi_ofa/core/excel_data_processor.py:170-266 | an empty column fails; otherwise the ids are distinct, no more than the cells, exactly the values some cell gives, and in the order the cells first give them |
| ExcelData.NoticeIds | kpi_ofa/core/excel_data_processor.py:297-298 | AdM ids are all below 2000000000 |
| ExcelData.OrderIds | kpi_ofa/core/excel_data_processor.py:341-342 | OdM ids are all from 2000000000 up |
| ExcelData.SplitPartition | kpi_ofa/core/excel_data_processor.py:298-342 | together AdM and OdM hold every id exactly once |
| ExcelData.SplitOrder | kpi_ofa/core/excel_data_processor.py:298-342 | both sides keep the input order |
| ExcelData.SplitSingle | kpi_ofa/core/excel_data_processor.py:298-342 | the threshold itself is an order |
| ExcelData.ExcelDataProcessor.constructor | kpi_ofa/core/excel_data_processor.py:24-32 | every result field starts empty |
| ExcelData.ExcelDataProcessor.ProcessExcelFile | kpi_ofa/core/excel_data_processor.py:52-105 | the path is stored first; a refused file changes nothing more; a failed normalisation stores `None`; success stores the normalised ids and their AdM/OdM split |
| ExcelData.ExcelDataProcessor.ClearData | kpi_ofa/core/excel_data_processor.py:435-440 | every result field is emptied |
| Configuration.ValidateCases | kpi_ofa/core/config_manager.py:165-209 | valid exactly when the save directory is a non-empty existing path and some operation and some technology is enabled; each of the five error messages, and the exception for a value of the wrong type, exactly when the checks before it passed and its own fails |
| Configuration.ConfigManager.ValidateConfig | kpi_ofa/core/config_manager.py:165-209 | the key loop computes `Validate` on the given or the current configuration |
| Configuration.ConfigManager.GetConfigValue | kpi_ofa/core/config_manager.py:266-294 | the walk over the key's segments computes `ConfigValue` |
| Configuration.SetPath | kpi_ofa/core/config_manager.py:244-255 | a dotted write leaves every other key of each map it walks through unchanged |
| Configuration.SetPathWalk | kpi_ofa/core/config_manager.py:244-255 | reading back the path after a write gives the value written |
| Configuration.SetPathFails | kpi_ofa/core/config_manager.py:244-255 | a write fails exactly when some segment before the last names a non-map |
| Configuration.FreshNeverBlocked | kpi_ofa/core/config_manager.py:249-251 | missing segments are created as empty maps, so they never block a write |
| Configuration.UpdateThenGet | kpi_ofa/core/config_manager.py:228-294 | `get_config_value` after a successful `update_config_value` returns the value |
| Configuration.UpdateOthers | kpi_ofa/core/config_manager.py:228-264 | an update leaves other top-level keys unchanged |
| Configuration.UpdateFails | kpi_ofa/core/config_manager.py:228-264 | a plain key always updates; a dotted one fails exactly when its path is blocked |
| Configuration.Updated | kpi_ofa/core/config_manager.py:244-258 | a dotted update stores under the first segment |
| Configuration.StoreReset | kpi_ofa/core/config_manager.py:211-226 | a reset sets the configuration to the defaults |
| Configuration.ResetKeepsNestedUpdate | kpi_ofa/core/config_manager.py:220-258 | as written: a nested update after a reset changes the defaults, survives the next reset, and stays in memory when the save fails |
| Configuration.FixedUpdateSpec | kpi_ofa/core/config_manager.py:228-264 | with deep copies a failed update changes nothing, a successful one reads back, and a reset restores the defaults |
| Configuration.ConfigManager.constructor | kpi_ofa/core/config_manager.py:39-68 | the configuration is the loaded one, or the defaults without a file |
| Configuration.ConfigManager.GetConfig | kpi_ofa/core/config_manager.py:129-136 | the current configuration |
| Configuration.ConfigManager.SaveConfig | kpi_ofa/core/config_manager.py:99-127 | a successful save replaces the configuration; a failed one keeps it |
| Configuration.ConfigManager.ResetConfig | kpi_ofa/core/config_manager.py:211-226 | the configuration becomes the defaults, whatever the save gives |
| Configuration.ConfigManager.UpdateConfigValue | kpi_ofa/core/config_manager.py:228-264 | success exactly when the save succeeds and the path is not blocked; the configuration is then the updated one, and otherwise unchanged |
| Logging.Rank | kpi_ofa/core/log_manager.py:129-138 | the index in `level_importance`, 0 for an unknown level |
| Logging.RankIncreasing | kpi_ofa/core/log_manager.py:115 | ranks follow the listed order of importance |
| Logging.DefaultMinTime | kpi_ofa/core/log_manager.py:118-125 | every default minimum time is positive |
| Logging.Step | kpi_ofa/core/log_manager.py:124-165 | a message shows exactly when the update condition holds; the shown text is prefix + message and the state records its level, its time and its minimum display time (the one given, or the level's default); otherwise the state is unchanged |
| Logging.FirstRequestShows | kpi_ofa/core/log_manager.py:40-46 | the first status request after start always shows |
| Logging.HeldLeavesNoTrace | kpi_ofa/core/log_manager.py:150-165 | a message held back has no effect on the next decision |
| Logging.ShownStays | kpi_ofa/core/log_manager.py:140-148 | within its minimum time a shown message is replaced only by a more important level or the same level |
| Logging.CriticalAlwaysShows | kpi_ofa/core/log_manager.py:129-148 | critical messages always show; an unknown level never pushes another aside within its time |
| Logging.LogManager.constructor | kpi_ofa/core/log_manager.py:31-48 | empty status, no callbacks |
| Logging.LogManager.SetUiCallback | kpi_ofa/core/log_manager.py:50-52 | only the widget callback changes |
| Logging.LogManager.SetStatusBarCallback | kpi_ofa/core/log_manager.py:54-56 | only the status-bar callback changes |
| Logging.LogManager.UpdateStatusBar | kpi_ofa/core/log_manager.py:105-165 | state and shown text follow `Step` |
| Logging.LogManager.Log | kpi_ofa/core/log_manager.py:86-103 | the logger gets the message only for origin "UnKnown", at the level `LoggerLevel` maps to; the widget gets it when asked and installed; the status bar follows `Step` when asked and installed |
| PyText.ParseIntNat | kpi_ofa/core/excel_data_processor.py:227-231 | `int()` of a number's decimal digits gives the number |
| PyText.UniqueSpec | kpi_ofa/core/excel_data_processor.py:246-250 | `drop_duplicates` keeps every value, each once |
| PyText.UniqueOrder | kpi_ofa/core/excel_data_processor.py:246-250 | `drop_duplicates` reads the input at exactly the positions where a value occurs for the first time, in increasing order |
| PyText.SplitJoin | kpi_ofa/services/sap_transactions.py:1044-1117 | splitting a `\n`-join of lines without `\n` gives the lines back |
| PyText.JoinSplit | kpi_ofa/services/sap_transactions.py:1044-1117 | joining the pieces of a split gives the text back |

## Left out

- SAP GUI scripting, the clipboard, Qt widgets, file reads and writes, and Python's logger are oracles or recorded calls. `time.time()` is a parameter, and waits count milliseconds of sleep; the time the polled calls themselves take is not modelled.
- `extract_IW29_single` is modelled as its decision chain over what the session shows. The scripting steps that fill in the selection screen are one failure flag.
- `SapSession.WaitForSap`: the loop's elapsed time counts only the sleeps between looks.
- pandas is replaced by lists. A DataFrame row is a sequence of `Missing`/`Text` cells. In the final concatenation a row is a map from column to text, so a null cell and a column the table lacks compare equal, as `drop_duplicates` treats two NaN cells. Column order after `pd.concat` is not modelled.
- `Extraction.FirstAvviso`: a table with two columns named `Avviso` is read at the first of them.
- Duplicate columns in a frame, and float or NaN cells in the `idItem` column, are not modelled: ids read from Excel are integers or text.
- The Python set of single hits is a duplicate-free sequence in insertion order. The iteration order of a real set is unspecified.
- `extract_IW29_old` is modelled only as its result rule, as a function. Its tail is left out: it returns a bare `False`, passes a `None` frame on, and adds `None` to the set.
- `Configuration.ConfigManager.UpdateConfigValue` uses the corrected deep-copy semantics. The shallow-copy aliasing is modelled on values in `StoreUpdate`, not on shared objects.
- `Configuration.ConfigManager.GetConfig` returns the configuration as a value. `get_config` returns `self.config.copy()`, a shallow copy whose nested dicts stay shared with the manager; a caller mutating them is not modelled.
- `Configuration.Validate`: a `save_directory` that is not a string is reported as raising. The case where `os.path.exists` takes an integer as a file descriptor is not modelled.
- The singleton `__new__` patterns, the `_load_config` file parsing, JSON floats, and `kpi_ofa/constants.py`'s default configuration are left out: the defaults are a parameter of `ConfigManager`.
- `Logging.LogManager.Log`: the `format`/`%` message formatting is left out, and the message arrives formatted. Logger attributes beyond the five standard levels are not modelled.
- The current extractor imports `DataFrameTools` from `kpi_ofa.core.utilis`, which is not part of this model. `DF_Tools.py` stands in for it, with `clean_data` taken as callable on the instance, as `self.df_utils.clean_data(fixed_content)` calls it (kpi_ofa/services/sap_transactions.py:167). If that module declares it without `self` as `DF_Tools.py` does, the current revision raises `TypeError` exactly where the older one does (see Findings).
- Extraction.ExtractIW29Legacy: computes the intended behaviour, with `clean_data` treated as a static method. As written the older class raises `TypeError` at SAP_Transactions.py:190 on every list the repair accepts; `Extraction.BoundLegacyHandle` models that (see Findings).
- Extraction.OldHandle: treats `clean_data` as a static method. As written every list result raises `TypeError` at SAP_Transactions.py:101, and the re-query of single hits does so at line 146; `Extraction.BoundOldRun` models the loops as written.
- Extraction.OldRunStops: states the intended rule, under which only an unreadable list stops the loops. As written the loops raise at the first list result, which `Extraction.BoundOldRunSpec` states.
- PyText models `str.strip` with Python's whitespace set, and `int()` with ASCII digits, an optional sign and single underscores. Other Unicode digits are not modelled.

## Findings

| source | as written | input that shows it | evidently intended | confidence | as-written member | corrected member |
|---|---|---|---|---|---|---|
| kpi_ofa/core/config_manager.py:241-258 | `new_config = self.config.copy()` is a shallow copy, so a dotted key whose first segment exists writes into the nested dict shared with `self.config`. After `reset_config` (line 220, also a shallow copy) that dict is `default_config`'s own | `reset_config()`, then `update_config_value("operations.estrai_AdM", v)` with a save that fails, then `reset_config()` | a failed update leaves the configuration as it was, and a reset restores the defaults | not executed | Configuration.ResetKeepsNestedUpdate | Configuration.FixedUpdateSpec |
| SAP_Transactions.py:190 | `clean_data(data)` is declared in `DataFrameTools` (DF_Tools.py:278) without `self` or `@staticmethod`, yet the older `extract_IW29` calls it on an instance, `self.df_utils.clean_data(fixed_content)`. Python passes the instance as `data` and the text as a second argument, so the call raises `TypeError`, which nothing catches | a run of the older `extract_IW29` in which a query returns a list that `fix_clipboard_table_content` accepts | `clean_data` is a static method and the repaired text becomes a table | not executed | Extraction.BoundLegacyHandleSpec | Extraction.ExtractIW29Legacy |
| SAP_Transactions.py:101 | the same bound call in `extract_IW29_old`, and again at line 146 | a run of `extract_IW29_old` in which any query returns a list | the list text becomes a table, and only an unreadable one stops the loops | not executed | Extraction.BoundOldRunSpec | Extraction.OldRunStops |
