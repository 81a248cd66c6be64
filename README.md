# D-Tools opportunity-hours report, modelled in Dafny

This project models the core of `Dtools_Data_Pull.py`, a tool that pulls data from the D-Tools cloud API and writes a CSV report of labor minutes per opportunity. The model covers three parts.

- **The API client `DtoolsAPI`.** It counts the calls of the current run. It refuses to call once today's total reaches the daily quota of 10000. It folds the run's count into the persisted record `{date, totalCalls, lastCalls}`, and it holds an error flag.
- **`updateTime`.** This is the nested accumulator `allMins[projId][task] = [quoted, worked]` with its sibling `"TOTALS"` entry.
- **The data part of `compileData`.**
  - Each document is retrieved cache-first. The cache files are `Dtools_All_Hours.txt`, `Dtools_Opps_List.txt`, `OpportunityDetails/<id>.txt`, `ChangeDetails/<id>.txt` and `QuoteDetails/<id>.txt`.
  - Worked minutes are aggregated from the time entries.
  - A won project gets the labor of its detail and of its accepted change orders.
  - Any other opportunity gets the labor of its best quote.
  - Finally the rows are built.

The model has two layers.

- **Module `Pipeline`: the run as total functions over values.** The cache is a map from key to document. The outside world is the call count plus the cache (`Io`). The network is an oracle `respond(callNumber, path)` that returns a document or `None`.
- **Module `Compile`: the run as imperative methods over the objects the source mutates.**
  - The client is the class `Quota.DtoolsApi`.
  - The accumulator is the class `Accumulator.AllMinutes`, whose `UpdateTime`, `Touch` and `Replace` update it in place.
  - Each loop of the source is a `for` loop. Its invariants tie it to the matching `Pipeline` function.
  - `Compile.CompileData` is proved to produce exactly the outcome, rows, cache and call count of `Pipeline.Run`.

The other modules state what the run means:

| module | what it proves |
|---|---|
| `QuotaBound` | The run stays within the quota. |
| `WonBranch` | What a won project accumulates. |
| `QuoteChoice` | Which quote a non-won opportunity keeps, and what is left of it. |
| `Rows` | Every row lines up with the header row. |
| `Retrieval` | The laws of cache-first retrieval and of failures. |
| `TotalsInvariant` | `"TOTALS"` stays the sum of a project's entries through the whole loop. |
| `Scenarios` | A few small runs worked through. |

A Python `dict` remembers insertion order. The model keeps that order in `OrderedDict.Dict`, because both CSV output and the quote-replacement loop iterate over it.

The source builds a non-won opportunity's minutes in a particular way, and the model follows the code as written:

- Each labor type of the chosen quote replaces the project's whole table, so only the last labor type survives.
- The project's worked minutes are discarded.
- When no retrieved quote has a positive total, the lazily created `{'TOTALS': [0, 0]}` table (or the table the time entries built) is kept.

The header row is written by the GUI handler, in the order of the selection list. `Rows.Ascending` states that order. Under it, every row has one cell per selected column (`Rows.RowsForMatchHeader`).

The getters `DtoolsApi.GetTotal`, `GetLast` and `GetError` are functions whose bodies are their definitions. Their properties appear in the contracts of `PullData`, `Update` and the constructor.

## Model

| member | source | states |
|---|---|---|
| Documents.ToMinutes | Dtools_Data_Pull.py:420 | `int(seconds/60)` truncates toward zero. For non-negative seconds the result m satisfies 60m <= seconds < 60m+60. For negative seconds it is the mirror image. |
| Documents.PathIdInjective | Dtools_Data_Pull.py:385 | A cache file name `<dir>/<id>.txt` determines the id. |
| Documents.KeysAreNamespaced | Dtools_Data_Pull.py:64-68 | Cache keys of different entity kinds never collide. Within a kind that has ids, the key determines the id. |
| OrderedDict.Put | Dtools_Data_Pull.py:297-301 | Dict assignment sets the value. A new key is appended to the iteration order. An existing key keeps its place. |
| OrderedDict.PutValid | Dtools_Data_Pull.py:297-301 | Dict assignment keeps the order duplicate-free and in step with the keys. |
| Accumulator.AddTimeFrame | Dtools_Data_Pull.py:295-307 | `updateTime` changes only the project `projId`, creating it if absent. Afterwards that project holds `task` and `TOTALS` in addition to its earlier keys. |
| Accumulator.AddTimeAddsOnce | Dtools_Data_Pull.py:295-307 | `updateTime` adds the pair exactly once, to the right place: to `[projId][task]`, creating it if absent, and to the project's `TOTALS`. The project is created if absent. No other project or task changes. |
| Accumulator.AddTimeGet | Dtools_Data_Pull.py:295-307 | At any entry other than `TOTALS`, the pair is added at `(projId, task)` and nowhere else. |
| Accumulator.AddTimeGetTotals | Dtools_Data_Pull.py:302-303 | The pair is added to the `TOTALS` of its own project only. |
| Accumulator.BumpKeepsTotals | Dtools_Data_Pull.py:296-303 | Adding a pair to an existing project's task and to its `TOTALS` keeps `TOTALS` equal to the sum of the other tasks and keeps the table well formed. |
| Accumulator.AddTimeKeepsTotals | Dtools_Data_Pull.py:286-307 | If `TOTALS` equalled the sum of the other tasks before (or the project is new), it still does after `updateTime` of a task other than `TOTALS`. |
| Accumulator.TouchKeepsTotals | Dtools_Data_Pull.py:411-413 | The lazy `{'TOTALS': [0, 0]}` creation satisfies the invariant. It leaves existing projects alone and adds only the new key. |
| Accumulator.FreshShape | Dtools_Data_Pull.py:304-307 | The literal `{task: p, 'TOTALS': p}` lists `task` first, then `TOTALS`, both holding p. |
| Accumulator.FreshKeepsTotals | Dtools_Data_Pull.py:487-490 | The replacement table `{lt: [m, 0], 'TOTALS': [m, 0]}` satisfies the invariant and lists `lt` before `TOTALS`. |
| Accumulator.SumBump | Dtools_Data_Pull.py:297-299 | Adding to a listed task adds the same amount to the sum of the tasks. |
| Accumulator.AllMinutes.constructor | Dtools_Data_Pull.py:323 | The accumulator starts empty. |
| Accumulator.AllMinutes.UpdateTime | Dtools_Data_Pull.py:295-307 | The in-place update leaves exactly the accumulator `AddTime` describes. |
| Accumulator.AllMinutes.Touch | Dtools_Data_Pull.py:412-413 | A project is created with `{'TOTALS': [0, 0]}` only when absent. |
| Accumulator.AllMinutes.Replace | Dtools_Data_Pull.py:487-490 | The project's whole table is replaced by `{lt: [m, 0], 'TOTALS': [m, 0]}`. |
| Quota.CommitFoldsRun | Dtools_Data_Pull.py:243-257 | `update` sets `lastCalls` to the run's calls. On the same day `totalCalls` grows by them. On a new day the date becomes today and `totalCalls` restarts at the run's calls. |
| Quota.PullGate | Dtools_Data_Pull.py:230-241 | At or above the quota no call is made and None is returned. Below it, exactly one call is counted, failed or not. The day's total never rises above max(10000, its value before). |
| Quota.DtoolsApi.constructor | Dtools_Data_Pull.py:153-163 | The client starts with no calls and no error, loads the stored record or a fresh one, and commits the empty run. After that `lastCalls` is 0. `totalCalls` is the stored value on the same day, else 0. |
| Quota.DtoolsApi.SetError | Dtools_Data_Pull.py:190-204 | The error flag reads back as the value set. |
| Quota.DtoolsApi.PullData | Dtools_Data_Pull.py:221-241 | Implements the quota gate on the object's fields: at quota no call and None; below quota `apiPulls + 1` and the network's answer. `getTotal()` stays within max(10000, old total). |
| Quota.DtoolsApi.Update | Dtools_Data_Pull.py:243-257 | Folds `apiPulls` into the record as `Commit` describes; `getLast()` then equals `apiPulls`. |
| Pipeline.Fetch | Dtools_Data_Pull.py:384-401 | A retrieved document is of the requested kind and is stored in the cache under its key. The cache gains no key other than that one. |
| Pipeline.QuoteLabor | Dtools_Data_Pull.py:476-481 | A quote's labor dictionary is well formed. Its keys, minutes and order are stated by the `QuoteChoice.QuoteLabor*` lemmas. |
| Pipeline.ScanQuotes | Dtools_Data_Pull.py:456-484 | The best-quote search keeps a well-formed labor dictionary. |
| Compile.CachedFetch | Dtools_Data_Pull.py:431-441 | Reads the cache when the flag is set and the file holds the right kind, otherwise calls the client and writes a successful answer through. Computes exactly `Fetch`, including the client's call count. |
| Compile.AddTimeEntries | Dtools_Data_Pull.py:345-350 | The time-entry loop leaves the accumulator `AddEntries` describes. |
| Compile.AddLaborTypes | Dtools_Data_Pull.py:418-422 | The `laborTypes` loop leaves the accumulator `AddLabor` describes. |
| Compile.ApplyChangeOrders | Dtools_Data_Pull.py:425-449 | The change-order loop computes `ApplyChanges`: cache, call count and minutes. |
| Compile.ScanQuoteList | Dtools_Data_Pull.py:453-484 | The quote loop computes `ScanQuotes`: best total, its labor, cache and call count. |
| Compile.ReplaceLabor | Dtools_Data_Pull.py:486-490 | The replacement loop computes `ReplaceAll`. |
| Compile.GatherMinutes | Dtools_Data_Pull.py:411-490 | The minute gathering for one opportunity computes `LaborFor`. |
| Compile.EmitRows | Dtools_Data_Pull.py:493-511 | The row construction computes `RowsFor`. |
| Compile.ProcessOpportunity | Dtools_Data_Pull.py:379-511 | One iteration of the opportunity loop computes `ProcessOpp`: rows, minutes, cache and calls. |
| Compile.ProcessOpportunities | Dtools_Data_Pull.py:372-511 | The loop over the opportunity list computes `ProcessOpps`: the rows of every opportunity in list order, with the final minutes, cache and calls. |
| Compile.CompileData | Dtools_Data_Pull.py:309-511 | `compileData` yields exactly the outcome, rows, cache and call count of `Run`. An aborted run sets the error flag to 1. |
| QuotaBound.FetchWithin | Dtools_Data_Pull.py:230-241 | One retrieval never pushes the day's total over max(10000, its total before). |
| QuotaBound.ApplyChangesWithin | Dtools_Data_Pull.py:425-441 | Neither does the change-order loop. |
| QuotaBound.ScanQuotesWithin | Dtools_Data_Pull.py:456-472 | Neither does the quote loop. |
| QuotaBound.ProcessOppWithin | Dtools_Data_Pull.py:379-490 | Neither does one opportunity. |
| QuotaBound.ProcessOppsWithin | Dtools_Data_Pull.py:372-511 | Neither does the opportunity loop. |
| QuotaBound.RunOppsWithin | Dtools_Data_Pull.py:352-511 | Neither does the run from the opportunity list on. |
| QuotaBound.RunWithinQuota | Dtools_Data_Pull.py:309-511 | A whole run never pushes the day's total over max(10000, the total it started with), and it never lowers the call count. |
| QuotaBound.RunAtQuotaMakesNoCall | Dtools_Data_Pull.py:230 | A run that starts at or above the quota makes no call and serves only cached data. |
| WonBranch.AddEntriesGet | Dtools_Data_Pull.py:345-350 | Worked minutes per (project, labor type) are the sum of `hoursWorkedInMinutes` over the matching time entries. Their quoted part is unchanged. |
| WonBranch.AddLaborGet | Dtools_Data_Pull.py:418-422 | A `laborTypes` loop adds to each labor type of its project exactly the truncated minutes of its items. It adds nothing to other projects. |
| WonBranch.AddLaborTotals | Dtools_Data_Pull.py:418-422 | It adds the items' total minutes to the project's `TOTALS`. |
| WonBranch.ApplyChangesIsFold | Dtools_Data_Pull.py:425-449 | The change-order loop is the accepted-labor fold over the change orders it managed to retrieve. Unretrievable ones are skipped. |
| WonBranch.AddAcceptedGet | Dtools_Data_Pull.py:443-449 | Only accepted change orders add their labor minutes, per labor type. |
| WonBranch.AddAcceptedTotals | Dtools_Data_Pull.py:443-449 | Only accepted change orders add to the project's `TOTALS`. |
| WonBranch.TouchedGet | Dtools_Data_Pull.py:412-413 | Creating the project lazily adds nothing to any entry. |
| WonBranch.WonTaskMinutes | Dtools_Data_Pull.py:416-449 | For a won project, each labor type's quoted minutes grow by the detail's minutes plus those of the accepted retrieved change orders. Worked minutes are untouched. |
| WonBranch.WonTotalMinutes | Dtools_Data_Pull.py:416-449 | A won project's `TOTALS` grows by the detail's total plus the accepted change orders' totals. |
| QuoteChoice.Choose | Dtools_Data_Pull.py:474-484 | The selection over a list of quotes keeps a well-formed labor dictionary. |
| QuoteChoice.ScanQuotesIsChoice | Dtools_Data_Pull.py:456-484 | The quote loop is the selection over the quotes it retrieved. Unretrievable quotes are skipped. |
| QuoteChoice.QuoteLaborKeys | Dtools_Data_Pull.py:476-481 | The labor types in `quoteLabor` are exactly the names of the quote's items. |
| QuoteChoice.QuoteLaborLastWins | Dtools_Data_Pull.py:476-481 | A labor type's minutes are the truncated minutes of the last item carrying that name. |
| QuoteChoice.QuoteLaborFirstOrder | Dtools_Data_Pull.py:476-481 | `quoteLabor` lists its labor types in the order of their first occurrence among the items, without duplicates. |
| QuoteChoice.QuoteLaborDistinct | Dtools_Data_Pull.py:476-481 | With distinct item names, `quoteLabor` lists the names in item order, so its last key is the last item's name. |
| QuoteChoice.ChooseIsMaximum | Dtools_Data_Pull.py:482-484 | The kept total is at least every quote's total and the starting best. If no quote beats the starting total, the starting labor is kept. |
| QuoteChoice.ChooseIsFirstMaximum | Dtools_Data_Pull.py:482-484 | A kept total other than the starting one is that of the first quote reaching it, and the kept labor is that quote's labor. Every earlier quote is strictly smaller, so ties go to the earlier quote. |
| QuoteChoice.ReplaceAllKeepsLast | Dtools_Data_Pull.py:486-490 | After the replacement loop the project holds only `{lt: [m, 0], 'TOTALS': [m, 0]}` for the last labor type `lt`. With no labor, nothing changes. |
| QuoteChoice.ReplaceAfterTouch | Dtools_Data_Pull.py:411-413 | After the lazy creation, replacing with no labor leaves the created project. Replacing with labor leaves only the last labor type's one-entry table, whatever was created or held before. |
| QuoteChoice.NonWonIsChoice | Dtools_Data_Pull.py:452-490 | A non-won opportunity's minutes are the replacement by the chosen quote's labor, after the lazy creation. |
| QuoteChoice.NonWonMinutes | Dtools_Data_Pull.py:452-490 | With no chosen labor, the project is only created lazily. Otherwise its table becomes the one-entry table of the chosen quote's last labor type, whatever it held before. |
| QuoteChoice.NonWonWithoutPositiveQuote | Dtools_Data_Pull.py:482-490 | When no retrieved quote has more than 0 minutes, the project is only created lazily. |
| QuoteChoice.NonWonDropsWorked | Dtools_Data_Pull.py:486-490 | Once a quote with labor is chosen, no task of the project keeps any worked minutes. |
| QuoteChoice.NonWonLastItem | Dtools_Data_Pull.py:474-490 | The kept labor may be that of a retrieved quote whose items have distinct names. Then the opportunity's table ends as `{name: [m, 0], 'TOTALS': [m, 0]}` for that quote's last item, with m its truncated minutes. |
| Rows.ScalarColumns | Dtools_Data_Pull.py:404-408 | The scalar columns are exactly the selected columns that are not time columns. |
| Rows.NonTotals | Dtools_Data_Pull.py:494-495 | The tasks that get a row are exactly the listed tasks other than `TOTALS`. |
| Rows.RowOfCells | Dtools_Data_Pull.py:493-511 | A header-aligned row has one cell per column. The cell under each column is that column's value. |
| Rows.ScalarPrefixShape | Dtools_Data_Pull.py:404-408 | The scalar prefix is the detail's fields under the selected non-time columns, in header order. |
| Rows.LaborRowsShape | Dtools_Data_Pull.py:493-503 | With "Labor Type" selected there is one row per non-`TOTALS` task, in insertion order: prefix, task name, then the quoted and worked cells when selected. Zero tasks give zero rows. |
| Rows.RowPiecesLineUp | Dtools_Data_Pull.py:493-511 | With columns in selection-list order, prefix, task cell and minute cells are exactly the header-aligned row. |
| Rows.RowsForMatchHeader | Dtools_Data_Pull.py:493-511 | With "Labor Type" selected, one header-aligned row per non-`TOTALS` task. Otherwise exactly one header-aligned row carrying the `TOTALS` minutes. |
| Retrieval.FetchCalls | Dtools_Data_Pull.py:331-342 | A cache hit makes no call and changes nothing. A miss makes one call under the quota and none at quota, uses the network's answer, and writes only that answer. A failure leaves the cache unchanged. |
| Retrieval.FetchRoundTrip | Dtools_Data_Pull.py:384-398 | A document once retrieved comes back from the cache next time its flag is set: the same document, with no call. |
| Retrieval.FetchKeepsOtherFiles | Dtools_Data_Pull.py:437-438 | A retrieval leaves every other cache file as it was. |
| Retrieval.RunOutcome | Dtools_Data_Pull.py:328-363 | The run aborts with no rows exactly when a time column is selected and the time entries cannot be had, or when the opportunity list cannot be had. Otherwise it completes. |
| Retrieval.DetailFailureSkips | Dtools_Data_Pull.py:397-401 | An opportunity whose detail cannot be had gets no row and leaves the minutes alone. |
| Retrieval.ChangeFailureSkips | Dtools_Data_Pull.py:437-441 | A change order that cannot be had adds nothing. |
| Retrieval.QuoteFailureSkips | Dtools_Data_Pull.py:468-472 | A quote that cannot be had leaves the best quote as it was. |
| TotalsInvariant.FetchKeepsClean | Dtools_Data_Pull.py:384-401 | From a cache and network that never name a `TOTALS` labor type, a retrieval yields such a document and keeps the cache so. |
| TotalsInvariant.AddTimeKeepsAll | Dtools_Data_Pull.py:286-307 | `updateTime` keeps every project's `TOTALS` equal to the sum of its tasks. |
| TotalsInvariant.AddEntriesKeepsAll | Dtools_Data_Pull.py:345-350 | So does the time-entry loop. |
| TotalsInvariant.AddLaborKeepsAll | Dtools_Data_Pull.py:418-422 | So does a `laborTypes` loop. |
| TotalsInvariant.TouchKeepsAll | Dtools_Data_Pull.py:412-413 | So does the lazy project creation. |
| TotalsInvariant.ApplyChangesKeepsAll | Dtools_Data_Pull.py:425-449 | So does the change-order loop, which also keeps the cache clean. |
| TotalsInvariant.QuoteLaborNoTotals | Dtools_Data_Pull.py:476-481 | A quote with no `TOTALS` labor type gives a labor dictionary without that key. |
| TotalsInvariant.ScanQuotesKeepsClean | Dtools_Data_Pull.py:456-484 | The quote loop keeps the cache clean and its chosen labor free of `TOTALS`. |
| TotalsInvariant.ReplaceAllKeepsAll | Dtools_Data_Pull.py:486-490 | The replacement loop keeps every project's invariant. |
| TotalsInvariant.LaborForKeepsAll | Dtools_Data_Pull.py:411-490 | Gathering one opportunity's minutes keeps every project's invariant. |
| TotalsInvariant.ProcessOppKeepsAll | Dtools_Data_Pull.py:379-511 | So does one iteration of the opportunity loop. |
| TotalsInvariant.ProcessOppsKeepsAll | Dtools_Data_Pull.py:372-511 | Every step of the opportunity loop keeps every project's `TOTALS` equal to the sum of its tasks. |
| TotalsInvariant.EntriesStartClean | Dtools_Data_Pull.py:345-350 | The minutes the loop starts from satisfy the invariant. |
| Scenarios.InstallMinutes | Dtools_Data_Pull.py:418-422 | One hour of "Install" on a new won project gives the order `[TOTALS, Install]` and 60 quoted minutes. |
| Scenarios.InstallPrefix | Dtools_Data_Pull.py:404-408 | For the columns Job ID, Labor Type and Worked Minutes, the scalar prefix is the job id alone. |
| Scenarios.InstallRows | Dtools_Data_Pull.py:493-503 | That table gives the single row `1, "Install", 0`. |
| Scenarios.InstallStep | Dtools_Data_Pull.py:384-422 | With the detail cached, the opportunity is read without a call and gathers only its own labor. |
| Scenarios.WonInstallRow | Dtools_Data_Pull.py:379-503 | The won opportunity 1 with one hour of Install, no change orders and no time entries yields exactly the row `1, "Install", 0`. |
| Scenarios.BiggerQuoteWins | Dtools_Data_Pull.py:474-484 | A 300-minute quote followed by a 200-minute quote: the first is kept. |
| Scenarios.TieKeepsEarlierQuote | Dtools_Data_Pull.py:482-484 | Two quotes of equal total: the earlier is kept. |

## Left out

- The tkinter GUI is not part of this model. That covers `compileDataClicked`, `filterClicked`, `windowClosed`, `main`, the progress bar and the title updates. The header row is written by `compileDataClicked`; `Rows.Ascending` states the column order it uses.
- The background thread that runs `compileData` is not modelled. The run is modelled as sequential.
- The HTTP request, `raise_for_status`, `.json()` and the 0.75 s pause are replaced by the oracle `respond(callNumber, path)`. `None` stands for any failure of the request.
- File I/O for `readFile` and `writeFile` is replaced by a map from file name to document. A missing or unparsable file is a miss, as in the source, where `readFile` returns `None`. A cached file that parses but holds a document of another shape is also read as a miss. That part is a modelling choice: the source's `readFile` returns any well-formed JSON, and the first field access then raises (Dtools_Data_Pull.py:346, 379, 405, 418, 444, 477).
- The API answer is unwrapped to its `timeEntries` and `opportunities` lists before caching. The model's typed documents represent the unwrapped list directly.
- CSV quoting and the appending to the report file are represented by the sequence of rows.
- `getHeader` and `encodeAuth` (credentials, base64, JSON) are not modelled: they are library calls over a file.
- `strStats` and all logging are text output only.
- `safeExit` and `sys.exit` become the run's `Outcome` plus the error flag 1. `os.startfile` is left out.
- `datetime.now()` becomes the `today` parameter of `DtoolsApi.Update` and of the constructor.
- `Documents.ToMinutes`: `int(x/60)` uses floating-point division in the source. The model uses exact integer division truncated toward zero, so it does not capture float rounding for durations beyond 2^53 seconds.
- An API answer of the wrong shape, for any of the five document kinds, makes the source raise. For time entries it is a `KeyError` at Dtools_Data_Pull.py:338, and for the opportunity list at :359. For a detail, change order or quote it happens at the first field access. The exception ends the worker thread: the error flag is never set and the window stays open. The model instead treats such an answer as a failed retrieval. Time entries or an opportunity list of the wrong shape end the run with `NoTimeEntries` or `NoOpportunityList` and error flag 1 (`Pipeline.Run`, `Compile.CompileData`). A detail, change order or quote of the wrong shape is skipped.
- `Accumulator.Bump` creates a `TOTALS` entry when it is missing, where the source would raise `KeyError`. This cannot happen, because every table is created with `TOTALS` (`Accumulator.TouchKeepsTotals`, `Accumulator.FreshKeepsTotals`).
- `TotalsInvariant.ProcessOppsKeepsAll` holds only when no document names a labor type `"TOTALS"`. A labor type of that name is added to `TOTALS` twice by `updateTime`, and the model follows the code there.
- The run stops after `compileData` writes its rows. The closing `api.update()` and `safeExit(api.getError())` in `main` are covered by `DtoolsApi.Update` and the error flag, not by a combined run.
