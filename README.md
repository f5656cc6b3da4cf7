# NPORT-P holdings scraper, modelled in Dafny

The script `ETFQuarterlyHoldingsExtractor.py` takes the 10-digit CIK of a fund. It then:

- fetches the fund's submissions index from the regulator;
- keeps the rows whose form is `NPORT-P`;
- fetches each filing's HTML page and reads the reporting date and one record per holding;
- keeps one holdings table per reporting date in `master_df_list`, where a later filing replaces an earlier table for the same date;
- writes one `<date>_NPORT-P_HOLDINGS.csv` file per date.

This project models that behaviour and proves properties of it.

Modules:

- `Wrappers` and `Faults`: `Option`/`Result`, and the exceptions the script can raise.
  - `ColumnLengthMismatch`: pandas refuses arrays of unequal length.
  - `MissingValueCell`: `.get_text` is called on a missing `find_next_sibling('td')`.
  - `MissingAmountHeading`: `c2.find_next` is called when there is no Item C.2 heading.
- `Text`: Python's `in` on strings, `str.strip()` and the ASCII part of `str.isdigit()`.
- `Html`: the parsed page as a tree of text pieces and tags, plus the BeautifulSoup navigation the script uses:
  - `.string`, `find_all` and `find_next`, as positions in the document-order flattening;
  - a tag's own `find`, whose hit keeps its following siblings for `find_next_sibling`;
  - `get_text(strip=True)`.
- `Filings`: `filter_nport_p_filings`. It builds rows from the four arrays of `filings.recent` and selects the NPORT-P rows in table order.
- `Naming`: the CIK check of `main`, the submissions URL, the filing URL and the CSV file name.
- `Extraction`: the body of `scrape_filing` after the page is parsed.
  - The Part A loop picks the reporting date through its chain: Part A heading, then the Item A.3 heading, then the table, the date cell and its value cell.
  - The Part C loop builds one record per holding heading from the Item C.1 and Item C.2 tables.
  - Both are written twice: as functions (`FirstDate`, `HoldingAt`, `Holdings`, `Extract`) and as the imperative loops of the script (`ReadReportingDate`, `CollectHoldings`, `ExtractFiling`), which are proved equal to the functions.
- `Scraper`:
  - the master map as a value (`Master`: the dates in insertion order, like a Python dict, and the table per date);
  - the whole run as a trace value. It is defined step by step (`RunFilings`) and also whole (`RunUntilCrash`: stop at the first crash), and a lemma proves the two agree;
  - the class `NPORTPScraper`, whose fields `dates`/`frames` are `master_df_list`. Its methods are `__init__`, `fetch_submission_data`, `scrape_filing`, `save_holdings` and `run`, each proved against the trace functions;
  - `Start` for `main`.

The two HTTP GETs are parameters, `string -> Response<T>`, which map a URL to the status code and the decoded body. Every run returns the list of URLs it requested, in order. `SavedFiles` stands for the files written: each has a name and the table written to it.

Facts about the script that shape the model:

- The script has no retry, no resume record and no per-filing skip. A filing that raises ends the run, and nothing is saved.
- The CUSIP is extracted, at lines 104-107.
- pandas raises on arrays of unequal length (line 46). The model keeps that as `ColumnLengthMismatch`.

## Model

| member | source | states |
|---|---|---|
| Text.ContainsIffOccurs | ETFQuarterlyHoldingsExtractor.py:68 | `sub in s` holds exactly when `sub` occurs at some index of `s` |
| Text.TrimStartSpec | ETFQuarterlyHoldingsExtractor.py:162 | removing leading whitespace leaves a suffix that starts with a non-space or is empty, with only whitespace removed |
| Text.TrimEndSpec | ETFQuarterlyHoldingsExtractor.py:162 | removing trailing whitespace leaves a prefix that ends with a non-space or is empty, with only whitespace removed |
| Text.StripSpec | ETFQuarterlyHoldingsExtractor.py:162 | `strip()` returns the slice between the leading and the trailing whitespace, and neither end of the result is whitespace |
| Text.PaddedUnique | ETFQuarterlyHoldingsExtractor.py:162 | a non-empty string without surrounding whitespace can be padded into a given string at only one place |
| Text.StripTrimmed | ETFQuarterlyHoldingsExtractor.py:162 | stripping an already trimmed string changes nothing (strip is idempotent) |
| Text.TrimmedConcat | ETFQuarterlyHoldingsExtractor.py:76 | pieces without surrounding whitespace join into a string without it |
| Html.FindFromFirstHit | ETFQuarterlyHoldingsExtractor.py:70 | `find_next` returns the first matching position after the anchor, and None only when no later node matches |
| Html.FindFromIsFirst | ETFQuarterlyHoldingsExtractor.py:72 | a matching position with no match before it is the one `find_next` returns |
| Html.FindFromConcat | ETFQuarterlyHoldingsExtractor.py:94 | searching a concatenation finds the first hit of the first part, or else the second part's hit shifted past the first |
| Html.FindAllFromHits | ETFQuarterlyHoldingsExtractor.py:68 | `find_all` lists every matching position once, in increasing order, and nothing else |
| Html.FindInIsFirstInOrder | ETFQuarterlyHoldingsExtractor.py:74 | a tag's own `find` returns the first hit of a document-order walk of its descendants |
| Html.FindInFound | ETFQuarterlyHoldingsExtractor.py:74 | what a tag's `find` returns is a hit and one of the tag's descendants |
| Html.FindInNone | ETFQuarterlyHoldingsExtractor.py:74 | a tag's `find` finds nothing when none of its descendants match |
| Html.FindInKeepsSiblings | ETFQuarterlyHoldingsExtractor.py:76 | the siblings carried by the hit are those after the first matching node in document order, in that node's own child list, where `find_next_sibling` looks |
| Html.DescendantsInForest | ETFQuarterlyHoldingsExtractor.py:72-74 | every node below a node of the page is itself a node of the page |
| Html.GetTextTrimmed | ETFQuarterlyHoldingsExtractor.py:76 | `get_text(strip=True)` never begins or ends with whitespace |
| Html.GetTextAllTrimmed | ETFQuarterlyHoldingsExtractor.py:102 | the text of a run of nodes never begins or ends with whitespace |
| Html.GetTextOfString | ETFQuarterlyHoldingsExtractor.py:76 | for a node with a `.string`, `get_text(strip=True)` is that string stripped |
| Filings.Rows | ETFQuarterlyHoldingsExtractor.py:45-51 | the table exists exactly when the four arrays (absent ones empty) have equal length, otherwise the pandas fault; row `i` holds element `i` of each array |
| Filings.SelectForm | ETFQuarterlyHoldingsExtractor.py:52 | the selection has no more rows than the table |
| Filings.SelectFormMembers | ETFQuarterlyHoldingsExtractor.py:52 | a row is selected exactly when it is in the table and its form equals the one asked for |
| Filings.SelectFormConcat | ETFQuarterlyHoldingsExtractor.py:52 | selecting from two tables joined is joining the two selections, so order is kept |
| Filings.SelectFormCounts | ETFQuarterlyHoldingsExtractor.py:52 | each matching row is kept as often as it occurs, and every other row never |
| Filings.FilterPicksNportPRowsInOrder | ETFQuarterlyHoldingsExtractor.py:41-52 | the filtered rows are the table's NPORT-P rows at strictly increasing positions, and every NPORT-P row is among them |
| Naming.TypedCikAccepted | ETFQuarterlyHoldingsExtractor.py:162-163 | the typed line is accepted exactly when it is ten digits with only whitespace before and after them |
| Naming.RemoveDashes | ETFQuarterlyHoldingsExtractor.py:58 | `replace('-', '')` leaves no dash and never lengthens the string |
| Naming.RemoveDashesKeepsOthers | ETFQuarterlyHoldingsExtractor.py:58 | every other character is kept as often as it occurs |
| Naming.RemoveDashesConcat | ETFQuarterlyHoldingsExtractor.py:58 | removal works piece by piece, so the kept characters stay in order |
| Naming.RemoveDashesNoDash | ETFQuarterlyHoldingsExtractor.py:58 | a string without dashes is unchanged |
| Naming.AccessionRoundTrip | ETFQuarterlyHoldingsExtractor.py:58 | for an accession number shaped 10-2-6 digits, the URL segment has 18 digits and putting the dashes back recovers the number |
| Naming.FilingUrlInjective | ETFQuarterlyHoldingsExtractor.py:58 | for one fund and accession numbers in the regulator's 10-2-6 layout, two filings get the same URL only when both the accession number and the document are equal |
| Naming.FileNameRoundTrip | ETFQuarterlyHoldingsExtractor.py:141 | the date can be read back from the file name, so two dates never share a file |
| Extraction.FirstDateIsFirstComplete | ETFQuarterlyHoldingsExtractor.py:69-77 | the date comes from the first Part A heading whose chain reaches the date cell; later headings are not consulted |
| Extraction.FirstDateBrokenIffNoChain | ETFQuarterlyHoldingsExtractor.py:67-82 | no date is found exactly when no Part A heading has a complete chain |
| Extraction.PutFieldsAdds | ETFQuarterlyHoldingsExtractor.py:99-127 | the field steps add exactly the fields whose label cell was found, with the value cell's text, and leave other keys alone |
| Extraction.PutFieldsFault | ETFQuarterlyHoldingsExtractor.py:99-127 | a failed field step is a found label cell without a value cell |
| Extraction.HoldingHasFoundFieldsOnly | ETFQuarterlyHoldingsExtractor.py:91-127 | a holding record has exactly the five possible keys whose label cell was found, each with the stripped text of the next `td` |
| Extraction.HoldingFaultSites | ETFQuarterlyHoldingsExtractor.py:100-127 | every failure while reading a holding is a label cell without a value cell, or no Item C.2 heading after the Part C heading |
| Extraction.NoAmountHeadingCrashes | ETFQuarterlyHoldingsExtractor.py:110-111 | with no Item C.2 heading after a Part C heading, reading that holding fails whatever Item C.1 held |
| Extraction.CollectSpec | ETFQuarterlyHoldingsExtractor.py:90-130 | the records are collected exactly when every heading gave one, in order; otherwise the failure is the first failing heading's |
| Extraction.CollectFirstFault | ETFQuarterlyHoldingsExtractor.py:90-130 | a failure after clean results is the failure of the whole loop |
| Extraction.DropEmpty | ETFQuarterlyHoldingsExtractor.py:129-130 | dropping empty records never adds any |
| Extraction.DropEmptyMembers | ETFQuarterlyHoldingsExtractor.py:129-130 | the kept records are exactly the non-empty ones |
| Extraction.DropEmptyConcat | ETFQuarterlyHoldingsExtractor.py:129-130 | dropping works piece by piece, so the kept records stay in order |
| Extraction.DropEmptyCount | ETFQuarterlyHoldingsExtractor.py:129-130 | the kept count is the total minus the number of empty records |
| Extraction.NoCompleteChainNoOutput | ETFQuarterlyHoldingsExtractor.py:67-82 | with no complete Part A chain the filing yields nothing, whatever its Part C content |
| Extraction.NoDateCaptionNoOutput | ETFQuarterlyHoldingsExtractor.py:74-82 | a page with no cell labelled with the date caption yields nothing |
| Extraction.DateFromFirstCompleteChain | ETFQuarterlyHoldingsExtractor.py:67-84 | the first complete chain decides: an empty date yields nothing, a non-empty one leads to holdings or a crash, and it is the date returned |
| Extraction.ScrapedDateTrimmed | ETFQuarterlyHoldingsExtractor.py:76-82 | a scraped reporting date is non-empty and has no surrounding whitespace |
| Extraction.ScrapedHoldingsShape | ETFQuarterlyHoldingsExtractor.py:84-132 | the scraped holdings are the Part C records in heading order with the empty ones dropped: at most one per heading and none empty |
| Extraction.HoldingFaultCrashesFiling | ETFQuarterlyHoldingsExtractor.py:87-132 | once a date is found, the first Part C heading whose record fails makes the filing crash with that failure |
| Extraction.AddField | ETFQuarterlyHoldingsExtractor.py:100-102 | the label lookup stores the value cell's text, skips a missing label and fails on a missing value cell |
| Extraction.ReadIdentification | ETFQuarterlyHoldingsExtractor.py:94-107 | the Item C.1 block gives the issuer and CUSIP steps of the field fold `PutFields` |
| Extraction.ReadAmounts | ETFQuarterlyHoldingsExtractor.py:110-127 | the Item C.2 block gives the balance, value and percentage steps of the field fold `PutFields` |
| Extraction.CollectFields | ETFQuarterlyHoldingsExtractor.py:90-127 | filling `investment_data` gives the record `HoldingAt` describes |
| Extraction.ReadReportingDate | ETFQuarterlyHoldingsExtractor.py:67-77 | the Part A loop with its `break` returns the first-complete-chain result |
| Extraction.CollectHoldings | ETFQuarterlyHoldingsExtractor.py:84-131 | the Part C loop returns the collected records with the empty ones dropped, or the first failure |
| Extraction.ExtractFiling | ETFQuarterlyHoldingsExtractor.py:64-132 | both loops together give the extraction outcome: nothing, a date with holdings, or a crash |
| Scraper.Put | ETFQuarterlyHoldingsExtractor.py:158 | the date's table is replaced, every other date's is kept, a known date keeps its place in the order and the map stays well formed |
| Scraper.Store | ETFQuarterlyHoldingsExtractor.py:157-158 | storing an outcome keeps the map well formed and the date order extended |
| Scraper.StoreAll | ETFQuarterlyHoldingsExtractor.py:153-158 | storing a run of outcomes keeps the map well formed and only extends the date order |
| Scraper.StoreAllKeys | ETFQuarterlyHoldingsExtractor.py:153-158 | a date is a key afterwards exactly when it was one before or some scraped filing reported it |
| Scraper.LastWriteWins | ETFQuarterlyHoldingsExtractor.py:153-158 | the table kept for a date is the last one stored for it |
| Scraper.UnwrittenDateUnchanged | ETFQuarterlyHoldingsExtractor.py:153-158 | a date no filing reported keeps its table |
| Scraper.SavedFiles | ETFQuarterlyHoldingsExtractor.py:140-141 | one file per date of the map |
| Scraper.SavedFilesOnePerDate | ETFQuarterlyHoldingsExtractor.py:136-143 | every date gets a file named after it holding its table, every file name reads back to a date of the map, and no two files share a name |
| Scraper.FirstCrash | ETFQuarterlyHoldingsExtractor.py:153-158 | the position of the first filing that raises: none before it crashed, and it crashed unless it is the end |
| Scraper.UntilCrashStep | ETFQuarterlyHoldingsExtractor.py:153-158 | a filing that does not raise is stored, requested first, and the rest of the run starts from the map it leaves |
| Scraper.RunFilingsUntilCrash | ETFQuarterlyHoldingsExtractor.py:149-159 | the step-by-step loop equals the whole-run description: stop after the first filing that raises, without saving, or store all and save |
| Scraper.NoIndexNoWork | ETFQuarterlyHoldingsExtractor.py:149-151 | without a successful, non-empty index the run requests only the index and changes nothing |
| Scraper.RunRequestsInOrder | ETFQuarterlyHoldingsExtractor.py:149-159 | the index is requested first, then the NPORT-P filings in table order; the run saves exactly when every filing was fetched and none raised, and an aborted run ends on the filing that raised |
| Scraper.SavedRunKeepsLastTable | ETFQuarterlyHoldingsExtractor.py:149-159 | after a saving run each reported date has a file with the table of the last filing that reported it |
| Scraper.SavedRunOnlyReportedDates | ETFQuarterlyHoldingsExtractor.py:149-159 | a run from the empty map saves files only for dates some filing reported |
| Scraper.NPORTPScraper.constructor | ETFQuarterlyHoldingsExtractor.py:7-28 | the CIK is kept, the submissions URL is built from it and the master map starts empty |
| Scraper.NPORTPScraper.FetchSubmissionData | ETFQuarterlyHoldingsExtractor.py:30-39 | the decoded body is returned exactly when the status is 200, and None otherwise |
| Scraper.NPORTPScraper.ScrapeFiling | ETFQuarterlyHoldingsExtractor.py:54-132 | the filing URL is requested; a non-200 answer yields nothing and a page yields the extraction outcome |
| Scraper.NPORTPScraper.StoreHoldings | ETFQuarterlyHoldingsExtractor.py:158 | the master map becomes `Put` of the old one and stays well formed |
| Scraper.NPORTPScraper.SaveHoldings | ETFQuarterlyHoldingsExtractor.py:136-143 | the files written are those of the master map, in its order |
| Scraper.NPORTPScraper.ScrapeFilings | ETFQuarterlyHoldingsExtractor.py:153-158 | the loop's result, final map and requested URLs are the step-by-step run from the old map |
| Scraper.NPORTPScraper.Run | ETFQuarterlyHoldingsExtractor.py:145-159 | the result, the final map and the requested URLs are the run's trace from the old map |
| Scraper.Start | ETFQuarterlyHoldingsExtractor.py:161-167 | a typed CIK that, once stripped, is not ten digits is rejected with no request; otherwise a fresh scraper's run is performed |

## Left out

- HTTP transport, its headers (lines 11-26), timeouts and network exceptions: the GETs are `string -> Response<T>` parameters, and a GET that raises is not modelled.
- `print` logging (lines 34, 37, 59, 62, 81, 142, 164): it has no effect on the results.
- JSON decoding (line 39): the body is given as a decoded `Submissions` value. Malformed JSON, a top-level value that is not an object, `"filings": null` and array elements that are not strings are not modelled.
- HTML parsing (line 64): the page is given as a tree of text pieces and tags. Attributes, comments and other special strings are not modelled.
- pandas (lines 46-52, 131, 143): tables are `seq<Filing>` and `seq<Record>`. Column order, NaN filling of missing fields and CSV bytes are not modelled; a saved file is its name and its table.
- `input()` (line 162): the typed line is a parameter of `Start`.
- Naming.ValidCik: accepts ASCII digits only, weaker than `str.isdigit()`, which also accepts other Unicode digits. Unicode digit tables are not part of this model.
- Text.Strip: removes the whitespace that `str.isspace` accepts for the code points listed in `IsSpace`. Python's full Unicode whitespace database is not part of this model.
- Scraper.NPORTPScraper.Run: a filing that raises is returned as `Aborted` with the map at that point. In Python the exception ends the process, and nothing after the failing filing runs.
