# ss-webscraping-ms in Dafny

This project models the core of a microservice that scrapes utility bills
from provider web sites and extracts consumption data from them. The
service runs in four stages:

1. **Scraping recipes.** A provider's recipe is an ordered list of actions:
   fill an input with the customer number, click a button, query links,
   submit a form, check for debt or download PDFs. The interpreter
   (`WebScrapService`, and the older `ScrapService.parser`) resolves each
   action's selector, performs it against the page and collects the bills
   it finds. A bill is either `{"url": …}` or `{"content": …}`.
2. **Saving bills.** The collected bills are merged into the user
   service's scrapped-data record, with duplicates removed. There are two
   variants: `BillService.save_bills` compares URLs, and the helper in
   `scrap_utils/req_backend.py` compares whole serialised bills.
3. **Parsing bills.** The PDF texts are parsed. `GenericBillParser` applies
   a pattern list per field and normalises locale numbers. The older
   `convert_data_to_json` cleans the text and picks the first capture per
   field.
4. **Extraction bookkeeping.** `ExtractDataService` splits the stored bills
   into URL bills and text bills, converts each into a record, and stores
   the records as `consumption_data` keyed by position. A separate helper
   saves consumption data only when some entry is new.

The browser page, the regex engine, the CAPTCHA solver, PDF reading and
the HTTP backend are oracles: functions passed in as parameters. The model
states what the services do with the answers they get. A Python exception
becomes an explicit outcome (`None`, a `Raised`/`Stopped`/`Failed` case or
an error message), never a precondition, unless the caller can never
trigger it.

Modules, one per source file or concern:

- `Wrappers`, `PyStr`, `Dicts`, `Decimals`, `JsonValues`, `Regex` are the
  Python values and built-ins the core relies on: `Option`, `str.strip`,
  `split`, `replace`, `upper`, slicing, ordered dicts, `Decimal` and its
  `str`, JSON values with Python truthiness, and the regex oracle.
- `Selector`, `Recipe`: `get_selector` and the recipe action.
- `ScrapService`: the older interpreter, `ScrapService.parser`.
- `WebScrap`: `WebScrapService`. It is a class whose fields are the
  service's state: `debt`, `bills`, `save_bills_called`,
  `downloaded_files`, and the calls made to `save_bills`. It is proved
  against the `ServiceState` functions.
- `MainClient`, `BillService`: the main backend's client calls and the
  URL-based merge.
- `ScrapBackend`, `ExtractBackend`: the two `req_backend.py` helper
  modules.
- `BillPatterns`, `BillParser`: `GenericBillParser` and
  `convert_data_to_json`.
- `LegacyPatterns`, `LegacyParser`: the older converter.
- `ExtractService`: `ExtractDataService`.

## Model

| member | source | states |
|---|---|---|
| Selector.GetSelector | src/utils/scrap_utils/get_selector.py:1-9 | id gives `#`+content and class gives `.`+content; any other type gives the content unchanged. The result ends with the content and is one character longer exactly for id and class |
| Selector.ContentRoundTrip | src/utils/scrap_utils/get_selector.py:2-9 | the content can be read back from the selector and the component type, so resolving loses nothing |
| Selector.SelectorInjective | src/utils/scrap_utils/get_selector.py:2-9 | for one component type, two steps resolve to the same selector exactly when their contents are equal |
| Recipe.ActionSelector | src/services/scrap_service.py:73-84 | a step has a selector exactly when both locator keys are present; otherwise the resolver raises `KeyError` |
| ScrapService.FormatLinks | src/services/scrap_service.py:51-60 | with `extra == "map"`, one `{"url"}` per value from the page. Otherwise one `{"url": base + href}` per element in order, and a missing `href` raises |
| ScrapService.InputValue | src/services/scrap_service.py:39-47 | without `size`, the whole number is typed and the cursor stays; a zero `size` keeps the previous value (an explicit `null` or string size is under Left out); otherwise the slice at the cursor is typed and the cursor advances by `size` |
| ScrapService.Step | src/services/scrap_service.py:29-62 | a step whose selector is missing or absent raises at that step; a step stops only by raising or, for a query step, by returning its links; a step that goes on keeps the typed values and adds at most one, the value an input step typed |
| ScrapService.Run | src/services/scrap_service.py:27-71 | the typed values only grow, by at most one per step, and a walk that does not finish stops at a step of the recipe |
| ScrapService.Parser | src/services/scrap_service.py:27-71 | the loop's outcome and typed values equal the recursive walk `Run` |
| ScrapService.SizedInputsConcatenate | src/services/scrap_service.py:28-47 | a recipe of sized inputs that all succeed runs to its end, and the typed values concatenate to the first `Σ size` characters of the client number (clamped to its length, as Python slicing is) |
| ScrapService.SizedRunFrom | src/services/scrap_service.py:39-47 | from any step whose remaining sized inputs all succeed, the run finishes having appended exactly the successive slices of those sizes, starting at the cursor |
| ScrapService.CutsConcat | src/services/scrap_service.py:42-44 | successive slices joined are one slice as long as the sizes together |
| ScrapService.SizedStep | src/services/scrap_service.py:41-44 | one sized input step types the slice at the cursor and advances it |
| ScrapService.UnsizedInputTypesWhole | src/services/scrap_service.py:45-46 | an input without `size` types the whole number and leaves the cursor |
| ScrapService.ReturnsAtFirstQuery | src/services/scrap_service.py:48-62 | the walk returns at the first query step, with that step's links |
| ScrapService.ReturnedFrom | src/services/scrap_service.py:48-62 | a walk that returns does so at a query step, with that step's links |
| ScrapService.LaterStepsUnused | src/services/scrap_service.py:48-62 | after the first query step returns, the page's answers to later steps cannot change the result |
| ScrapService.LaterStepsUnusedFrom | src/services/scrap_service.py:29-62 | the same, from any step of the walk |
| ScrapService.NoQueryFinishes | src/services/scrap_service.py:29-71 | without a query step, and with every step carried out, the walk finishes and returns `None` |
| ScrapService.NoQueryFinishesFrom | src/services/scrap_service.py:29-71 | the same, from any step |
| WebScrap.BrowserType | src/services/web_scrap_service.py:93-95 | Chrome when `captcha` is unset or the CAPTCHA sequence is empty (when Firefox is chosen is `FirefoxIffInlineCaptcha`) |
| WebScrap.CaptchaModeFor | src/services/web_scrap_service.py:448-451 | inline solving exactly when the CAPTCHA sequence is non-empty; otherwise an external solve is awaited |
| WebScrap.FirefoxIffInlineCaptcha | src/services/web_scrap_service.py:93-95 | with `captcha` set, the browser is Firefox exactly when the CAPTCHA is solved inline |
| WebScrap.SolveWithSequence | src/services/web_scrap_service.py:180-225 | a solver answer of 0 is a `CaptchaError`; success needs at least three sequence steps, the first with its locator, and a page that responds |
| WebScrap.HandleCaptcha | src/services/web_scrap_service.py:443-454 | dispatches to the inline solve or the external wait by the CAPTCHA mode |
| WebScrap.SolverZeroIsCaptchaError | src/services/web_scrap_service.py:214-221 | with a sequence and a solver answer of 0, the CAPTCHA step fails with `CaptchaError` |
| WebScrap.DebtAfterCheck | src/services/web_scrap_service.py:497-519 | debt is cleared exactly when there is a first element whose text matches a non-empty `no_debt_text`; no elements, no text or any error means debt |
| WebScrap.DebtCheckedOnlyWhenAsked | src/services/web_scrap_service.py:478-479 | an action without `debt`, or one that is not an element action, leaves `debt` unchanged |
| WebScrap.UrlsFrom | src/services/web_scrap_service.py:582-593 | at most one URL bill per element |
| WebScrap.UrlsFromAppend | src/services/web_scrap_service.py:582-593 | the bills of two runs of elements joined are the bills of each run in turn, and raise exactly when either run raises |
| WebScrap.UrlsFromNone | src/services/web_scrap_service.py:582-593 | the URLs raise exactly when some element's `href` cannot be read |
| WebScrap.UrlsFromOrder | src/services/web_scrap_service.py:582-593 | when every element has an `href`, one `{"url"}` per element, in element order |
| WebScrap.UrlsFromDropsAbsent | src/services/web_scrap_service.py:582-593 | elements without `href` contribute nothing |
| WebScrap.ExecuteFailsIff | src/services/web_scrap_service.py:277-329 | an action fails exactly when its selector is missing or the page reports an error for it |
| WebScrap.ActionSpec | src/services/web_scrap_service.py:277-329 | a failing action changes nothing but, for a redirect query, the debt flag it has already set |
| WebScrap.ExecuteSpec | src/services/web_scrap_service.py:277-329 | an action fails exactly when its dispatch fails; the new state is the dispatch's followed by the downloads the listener registered at line 405 saw during the action |
| WebScrap.AfterUrls | src/services/web_scrap_service.py:595-603 | the bills gain the formatted ones at the end; debt and downloads stay; `save_bills` is called with them and the debt flag only on the first non-empty batch, so it stays called at most once |
| WebScrap.ScrapeSpec | src/services/web_scrap_service.py:378-441 | the CAPTCHA failure happens exactly when `captcha` is set and solving fails, and then nothing changes; a `ScrapingError` stops at a step of the recipe |
| WebScrap.QueryPrecedence | src/services/web_scrap_service.py:521-553 | for a query action, redirect takes precedence over form, and form over URL extraction |
| WebScrap.InputFillsPrefix | src/services/web_scrap_service.py:235-267 | every input fills a prefix of the customer number (`[0:size]`, the whole number without `size`), because the cursor starts at 0 on each call |
| WebScrap.UrlBillsRecordedTwice | src/services/web_scrap_service.py:595-603 | a URL-extracting query adds its bills to `bills` once when handling the URLs, and the loop at lines 419-420 adds them again |
| WebScrap.ButtonsDoubleBills | src/services/web_scrap_service.py:300-302 | a `buttons` action returns `self.bills`, which the loop at lines 419-420 appends to itself |
| WebScrap.DuplicateDownloadSkipped | src/services/web_scrap_service.py:118-140 | a download whose file name was already seen changes nothing |
| WebScrap.UnreadablePdfStillBlocks | src/services/web_scrap_service.py:118-140 | the name is recorded before the text is read, so an unreadable PDF still blocks later downloads with that name |
| WebScrap.DownloadsFrame | src/services/web_scrap_service.py:611-648 | downloads change only `bills` and `downloaded_files` |
| WebScrap.DownloadsRecordNames | src/services/web_scrap_service.py:611-648 | after downloads, the recorded names are the old ones plus every name seen |
| WebScrap.DownloadsAddOnePerName | src/services/web_scrap_service.py:118-140 | each readable download with a new name appends exactly one `{"content": text}` bill |
| WebScrap.DownloadChangesNamesAndBills | src/services/web_scrap_service.py:118-140 | one download changes only the names and the bills: its name is recorded and at most one bill is added after the others |
| WebScrap.DownloadsSeeOnlyBillsAndNames | src/services/web_scrap_service.py:118-140 | the effect of downloads on bills and names depends on nothing else in the state |
| WebScrap.SeenDownloadsSkipped | src/services/web_scrap_service.py:118-140 | downloads whose names were all seen change nothing |
| WebScrap.ClickDownloadBecomesBill | src/services/web_scrap_service.py:297-299 | a button click that starts a readable download with a new name adds one content bill, through the listener of line 405, and records the name |
| WebScrap.ButtonDownloadsHandledOnce | src/services/web_scrap_service.py:300-302 | when the listener of line 405 sees the same downloads as the `buttons` handler, its pass adds nothing |
| WebScrap.ExecuteKeepsSaveGuard | src/services/web_scrap_service.py:595-603 | an action keeps "`save_bills` called at most once", and calls it no more after `save_bills_called` is set |
| WebScrap.RunKeepsSaveGuard | src/services/web_scrap_service.py:398-441 | the whole action loop keeps the same guard |
| WebScrap.RunFrom | src/services/web_scrap_service.py:398-441 | the loop never yields a CAPTCHA failure, and stops with `ScrapingError` only at a step of the recipe |
| WebScrap.Streak | src/services/web_scrap_service.py:403-435 | the count of consecutive failures before a step is at most the step's index |
| WebScrap.StreakOfFour | src/services/web_scrap_service.py:403-435 | the fourth consecutive failure occurs at step `k` exactly when steps `k-3`..`k` all fail |
| WebScrap.RunFromEnds | src/services/web_scrap_service.py:398-441 | the loop stops with `ScrapingError` exactly at the first step that is a fourth consecutive failure; otherwise it completes and returns `self.bills` |
| WebScrap.CompletesWithoutFourFailures | src/services/web_scrap_service.py:398-441 | when every window of four steps has a success, scraping completes and returns `self.bills` |
| WebScrap.PrepareResponse | src/services/web_scrap_service.py:331-349 | `should_extract` holds exactly when new bills were saved, the save failed, or some bill has a `url` key; the debt flag and the save result are passed on |
| WebScrap.ContentOnlyNeedsNoExtraction | src/services/web_scrap_service.py:341-349 | after a successful save with nothing new, bills that all hold text need no extraction |
| WebScrap.WebScrapService.constructor | src/services/web_scrap_service.py:55-64 | the service starts with no debt, no bills, no downloads and `save_bills` not yet called |
| WebScrap.WebScrapService.HandleDownload | src/services/web_scrap_service.py:118-140 | the new state is `AfterDownload` of the old one: an unseen name is recorded, and a readable text appends one content bill |
| WebScrap.WebScrapService.HandleDownloads | src/services/web_scrap_service.py:611-648 | the new state is the downloads folded over the old one, in order; it serves the `buttons` handler and the download listener of line 405 |
| WebScrap.WebScrapService.CheckDebtStatus | src/services/web_scrap_service.py:497-519 | only `debt` changes, to `DebtAfterCheck` |
| WebScrap.WebScrapService.HandleInputOrButton | src/services/web_scrap_service.py:235-267 | the result is true exactly when the page interacts. An input types `customer[0:size]` and returns `size` as the index; a button returns index 0; nothing else changes |
| WebScrap.WebScrapService.HandleFormSubmission | src/services/web_scrap_service.py:562-574 | always returns `[]`; the forms submitted are exactly those at indices 0, 2 and 4 that exist |
| WebScrap.WebScrapService.HandleUrls | src/services/web_scrap_service.py:576-609 | returns the URL bills of the elements and updates the state as `AfterUrls`, including the one guarded `save_bills` call |
| WebScrap.WebScrapService.ExecuteAction | src/services/web_scrap_service.py:277-329 | the new state and result are those of `ExecuteSpec`: the dispatch on the element type, then the downloads of the listener of line 405; a `buttons` action returns the final `self.bills` |
| WebScrap.WebScrapService.PerformAction | src/services/web_scrap_service.py:277-329 | the new state and result are those of `ActionSpec`, the dispatch on the element type |
| WebScrap.WebScrapService.Advance | src/services/web_scrap_service.py:411-433 | one pass of the loop: the failure count is reset or grows by one, and the rest of the run is unchanged, or ends with `ScrapingError` at this step on the fourth failure |
| WebScrap.WebScrapService.HandleScraping | src/services/web_scrap_service.py:378-441 | the loop's state and outcome are those of `ScrapeSpec`: the CAPTCHA step, then the actions with the consecutive-error counter |
| WebScrap.WebScrapService.ProcessAndSaveResults | src/services/web_scrap_service.py:351-376 | the report is that of `BillService.save_bills` with the service's debt flag, and a failed save never claims new bills |
| WebScrap.WebScrapService.Search | src/services/web_scrap_service.py:149-178 | scrapes, saves the scraped bills and prepares the response from the resulting state |
| BillService.Failure | src/services/bill_service.py:105-111 | every exception gives `success: False, new_bills_saved: False` |
| BillService.NewBills | src/services/bill_service.py:85-89 | the new bills are never more than the incoming bills |
| BillService.NewBillsMembers | src/services/bill_service.py:80-89 | a bill is new exactly when it is an incoming dict with a truthy URL not among the stored URLs; content-only bills are never added |
| BillService.NewBillsAllKnown | src/services/bill_service.py:80-89 | when every URL is already stored, nothing is new |
| BillService.UrlsAppend | src/services/bill_service.py:80-82 | the stored URLs of two lists joined are the union of their URLs |
| BillService.ResaveAddsNothing | src/services/bill_service.py:80-94 | saving the same bills again over the merged list adds nothing |
| BillService.CurrentBills | src/services/bill_service.py:73-77 | a list `bills_url` is used as it is |
| BillService.RecordsOf | src/services/bill_service.py:65-68 | a dict answer is one record, and a list answer its items |
| BillService.AddRecord | src/services/bill_service.py:68-97 | one turn of the loop only adds calls, and a stopped loop stays stopped (what the turn sends is `RecordUpdateAppends`) |
| BillService.ProcessRecordsSnoc | src/services/bill_service.py:68-97 | the loop over one more record is one more turn after the loop |
| BillService.StoppedStays | src/services/bill_service.py:68-111 | once an exception stops the loop, later records change nothing |
| BillService.RecordUpdateAppends | src/services/bill_service.py:91-94 | a record adds at most one call, the update whose bill list is the stored list followed by the new bills, sent only when there are new bills |
| BillService.SavedIffSomeRecordSaves | src/services/bill_service.py:68-97 | `new_bills_saved` is set exactly when some record's update was sent and answered truthily |
| BillService.SaveBillsSpec | src/services/bill_service.py:18-111 | a failure never claims new bills, and the first call is always the user-service lookup |
| BillService.SaveBills | src/services/bill_service.py:18-111 | the report and calls of the loop are those of `SaveBillsSpec` |
| BillService.UpdateRecords | src/services/bill_service.py:68-97 | the loop over the records computes `ProcessRecords` |
| BillService.SaveBillsMerges | src/services/bill_service.py:65-103 | when the records are read, the report is success, with `new_bills_saved` exactly when some record's update succeeded; the calls after the two reads are the loop's updates |
| BillService.SaveBillsCreatesOn404 | src/services/bill_service.py:46-62 | a 404 on the read creates a record with all incoming bills, and reports new bills whatever the create call answered, as long as it did not raise |
| BillService.SaveBillsUnknownUserService | src/services/bill_service.py:34-41 | a falsy user-service lookup reports "User service not found" and makes no other call |
| BillService.ValidBills | src/services/bill_service.py:130 | exactly the bills with a truthy URL; this is the merge's URL filter with nothing stored |
| BillService.Downloaded | src/services/bill_service.py:136-146 | at most one path per bill with a URL |
| BillService.DownloadPdfs | src/services/bill_service.py:113-149 | `[]` for anything but a list; for a list, a result exactly when every bill is a dict (a non-dict bill raises) |
| BillService.DownloadedAll | src/services/bill_service.py:136-180 | when every download succeeds, file `i` is the download of the `i`-th bill with a URL |
| ScrapBackend.MakeRequest | src/utils/scrap_utils/req_backend.py:7-35 | no fuel, an exception, a status outside 200, 201 and 307, or a 307 without a `location` header gives `None`; an answer without a redirect is the response body |
| ScrapBackend.MakeRequestStatus | src/utils/scrap_utils/req_backend.py:7-35 | 404 and any status outside 200, 201 and 307 give `None`, as does an exception; 307 repeats the request at the `location`, and gives `None` when the header is missing; 200 and 201 give the body |
| ScrapBackend.EndlessRedirectGivesNone | src/utils/scrap_utils/req_backend.py:28-35 | a chain of redirects longer than the recursion limit gives `None` |
| ScrapBackend.ToSave | src/utils/scrap_utils/req_backend.py:135-141 | never more bills than come in (which ones is `ToSaveMembers`, their order `ToSaveAppend`) |
| ScrapBackend.CollectBillsToSave | src/utils/scrap_utils/req_backend.py:135-141 | the loop collects exactly `ToSave` |
| ScrapBackend.ToSaveMembers | src/utils/scrap_utils/req_backend.py:137-141 | a bill is saved exactly when it comes in and is not stored |
| ScrapBackend.ToSaveAppend | src/utils/scrap_utils/req_backend.py:137-141 | the filter works batch by batch, so the incoming order is kept |
| ScrapBackend.ToSaveNothingStored | src/utils/scrap_utils/req_backend.py:137-141 | against an empty store every incoming bill is saved, duplicates included |
| ScrapBackend.ToSaveIdempotent | src/utils/scrap_utils/req_backend.py:135-144 | saving the same bills again over the merged list adds nothing |
| ScrapBackend.ToSaveAllStored | src/utils/scrap_utils/req_backend.py:137-141 | when every incoming bill is stored, nothing is saved |
| ScrapBackend.StoredBills | src/utils/scrap_utils/req_backend.py:131-136 | a list `bills_url` is kept as it is |
| ScrapBackend.WithBills | src/utils/scrap_utils/req_backend.py:143-144 | the record, still a dict, with `bills_url` set to the given bills |
| ScrapBackend.NewRecord | src/utils/scrap_utils/req_backend.py:62-67 | the created record holds the user service, all the bills, `consumption_data {}` and the debt flag |
| ScrapBackend.AddRecord | src/utils/scrap_utils/req_backend.py:86-116 | one record of a list adds at most one request; an ended loop stays ended, and the loop ends only on a missing `id` or a failed update |
| ScrapBackend.AddRecordSends | src/utils/scrap_utils/req_backend.py:86-116 | a non-dict record or one with nothing new is passed over; without `id` the loop ends with the `KeyError`; otherwise one PATCH of the stored list followed by the new bills, and the loop ends exactly when its answer is missing or falsy |
| ScrapBackend.UpdateRecords | src/utils/scrap_utils/req_backend.py:84-116 | no more requests than records, and the loop ends only on a missing `id` or a failed update |
| ScrapBackend.UpdateRecordsSnoc | src/utils/scrap_utils/req_backend.py:86-116 | the loop over one more record is one more turn after the loop |
| ScrapBackend.EndedStays | src/utils/scrap_utils/req_backend.py:111-116 | once an update fails, later records change nothing |
| ScrapBackend.SaveBillsSpec | src/utils/scrap_utils/req_backend.py:38-166 | the first request is always the user-service lookup |
| ScrapBackend.SaveBills | src/utils/scrap_utils/req_backend.py:38-166 | the outcome and requests of the loops are those of `SaveBillsSpec` |
| ScrapBackend.UpdateEach | src/utils/scrap_utils/req_backend.py:84-121 | the loop over the records computes `UpdateRecords` |
| ScrapBackend.SaveBillsUnknownUser | src/utils/scrap_utils/req_backend.py:45-53 | a missing user service ends the call with no further request |
| ScrapBackend.SaveBillsCreates | src/utils/scrap_utils/req_backend.py:61-81 | without stored data, all bills are POSTed with `{}` consumption data and the debt flag; the report follows the POST's answer |
| ScrapBackend.SaveToRecord | src/utils/scrap_utils/req_backend.py:131-166 | at most one request, and new bills are reported only after a PATCH |
| ScrapBackend.SaveBillsInvalidFormat | src/utils/scrap_utils/req_backend.py:123-129 | stored data that is neither a list nor a dict gives "Invalid data format" after the two reads |
| ScrapBackend.SaveToRecordAppends | src/utils/scrap_utils/req_backend.py:135-166 | for one record, the PATCH carries the stored list followed by the new bills; with nothing new there is no PATCH and no new bill is reported |
| ScrapBackend.SecondSaveReportsNothingNew | src/utils/scrap_utils/req_backend.py:161-166 | once the merged record is stored, saving the same bills again sends nothing and reports no new bills |
| ScrapBackend.SaveBillsListReportsNew | src/utils/scrap_utils/req_backend.py:117-121 | a list of records reports new bills whenever no update failed, even when nothing was sent |
| ScrapBackend.NothingNewNoUpdate | src/utils/scrap_utils/req_backend.py:102-110 | with nothing new in any record, the list branch sends no update |
| ExtractBackend.Request | src/utils/extract_utils/req_backend.py:9-30 | a body only for a 2xx status with JSON; every other status or exception gives `None` |
| ExtractBackend.GetUserService | src/utils/extract_utils/req_backend.py:33-41 | the user service, or `None` when the answer is missing or falsy |
| ExtractBackend.GetDataByUserServiceId | src/utils/extract_utils/req_backend.py:44-55 | `None` exactly when the answer is missing or falsy; a non-list answer is returned as it is |
| ExtractBackend.GetDataNormalises | src/utils/extract_utils/req_backend.py:44-55 | a missing or empty answer gives `None`, a non-empty list its first element, and a non-empty dict itself |
| ExtractBackend.Elements | src/utils/extract_utils/req_backend.py:84-92 | a list gives its items; only lists, strings and dicts can be iterated |
| ExtractBackend.StoredEntries | src/utils/extract_utils/req_backend.py:73-81 | a missing `bills_url` is `[]`, a list is used directly, a dict gives its `bills`, and anything else fails |
| ExtractBackend.ConsumptionBody | src/utils/extract_utils/req_backend.py:96-100 | the PATCH body carries all of the consumption data |
| ExtractBackend.SaveFailsWithoutRecord | src/utils/extract_utils/req_backend.py:63-70 | without a dict record with a truthy `id`, the result is "Failed to save data" and nothing is patched |
| ExtractBackend.SaveConsumedData | src/utils/extract_utils/req_backend.py:58-106 | the read comes first and at most one PATCH follows; "Data saved" needs the PATCH of all the consumption data; without scrapped data the result is "Failed to save data" after the read alone |
| ExtractBackend.SaveConsumedPatchesOnlyNew | src/utils/extract_utils/req_backend.py:58-106 | a PATCH is sent exactly when some consumed entry is not stored; it carries all the data, and "Data saved" is reported exactly when its answer is truthy; with nothing new the result is "No new data to save" |
| JsonValues.ConvertDecimals | src/services/extract_data_service.py:220-227 | dicts keep their keys in order and lists their length; the result holds no `Decimal` |
| JsonValues.ConvertDecimalsKeepsClean | src/services/extract_data_service.py:220-227 | a value without decimals is left exactly as it was |
| JsonValues.ConvertDecimalsIdempotent | src/services/extract_data_service.py:220-227 | converting twice is converting once |
| JsonValues.ConvertedDecimalReadsBack | src/utils/convert_data.py:386-388 | a decimal's string reads back as the same sign, coefficient and scale |
| Decimals.ParseDecimal | src/utils/convert_data.py:298-301 | `Decimal(s)` for plain notation: the value is negative exactly when the text starts with `-` (which texts are accepted is `ParseDecimalAccepts`) |
| Decimals.ParseDecimalAccepts | src/utils/convert_data.py:298-301 | a string is accepted exactly when it is an optional `+` or `-`, then digits with at most one point and at least one digit |
| Decimals.DecimalToString | src/utils/convert_data.py:386-388 | `str(Decimal)`: plain notation while the exponent allows it, scientific below that |
| Decimals.PlainRoundTrip | src/utils/convert_data.py:386-388 | printing a decimal in plain notation and parsing it back gives the same decimal |
| Decimals.ScientificNotRead | src/utils/convert_data.py:386-388 | scientific notation is not read back by the plain grammar |
| BillParser.FieldCandidate | src/utils/convert_data.py:144-148 | a pattern yields nothing exactly when it does not match or its group 1 did not take part |
| BillParser.ExtractField | src/utils/convert_data.py:142-151 | with no patterns, the default (which pattern wins is stated by the three lemmas below) |
| BillParser.ExtractFieldFirstMatch | src/utils/convert_data.py:144-148 | the first pattern, in list order, that yields a candidate decides the field |
| BillParser.ExtractFieldNoMatch | src/utils/convert_data.py:144-151 | when no pattern yields a candidate, the default is returned |
| BillParser.ExtractFieldAppend | src/utils/convert_data.py:135-151 | an appended pattern is consulted only after every earlier one fails, so it can only replace the default |
| BillParser.NormaliseNumber | src/utils/convert_data.py:290-296 | no comma survives, and a text without a comma is kept as it is |
| BillParser.SafeDecimalConvert | src/utils/convert_data.py:282-301 | a missing or empty value gives `None` |
| BillParser.SafeDecimalAccepts | src/utils/convert_data.py:284-301 | a value is converted exactly when its stripped, normalised text is a decimal literal |
| BillParser.SafeDecimalThousands | src/utils/convert_data.py:290-293 | "1.234,56" reads as 1234.56: the dots are thousands separators and the comma is the point |
| BillParser.SafeDecimalComma | src/utils/convert_data.py:294-296 | "45,00" reads as 45.00 |
| BillParser.SafeDecimalDot | src/utils/convert_data.py:291-299 | a lone dot is kept: "1.234" is 1.234 |
| BillParser.SafeDecimalNotANumber | src/utils/convert_data.py:298-301 | text outside the decimal grammar, such as "N/A", gives `None` instead of raising |
| BillParser.AllMatches | src/utils/convert_data.py:156-158 | no patterns give no matches (how the matches of split lists combine is `AllMatchesAppend`) |
| BillParser.KeepNumericFilters | src/utils/convert_data.py:167-170 | the result holds only digits, points and minus signs; a numeric string is unchanged; a single character is kept exactly when it is numeric |
| BillParser.KeepNumericAppend | src/utils/convert_data.py:167-170 | filtering a concatenation concatenates the filtered parts, so with the one-character case every digit, point and minus sign is kept, in order |
| BillParser.ChargeAmountText | src/utils/convert_data.py:161-174 | the amount text handed to `Decimal` is never empty |
| BillParser.ChargesSnoc | src/utils/convert_data.py:156-184 | the charges after one more match are those before it, with that match assigned |
| BillParser.ChargesLookup | src/utils/convert_data.py:155-184 | the amount stored under a concept is that of the last accepted match with that concept |
| BillParser.ChargesUnique | src/utils/convert_data.py:155-184 | the concepts of the charges dict are distinct, and there are no more of them than matches |
| BillParser.AddCharges | src/utils/convert_data.py:157-182 | the inner loop over one pattern's matches assigns their charges after those found before |
| BillParser.ChargeWithThousandsSkipped | src/utils/convert_data.py:161-180 | "1.234,56" becomes "1.234.56", which `Decimal` rejects, so the charge is skipped |
| BillParser.TwoPointsRejected | src/utils/convert_data.py:176-180 | a second point makes the amount invalid |
| BillParser.CollectFrom | src/utils/convert_data.py:201-230 | one record per match, or `None` once a record fails to build |
| BillParser.CollectFromAll | src/utils/convert_data.py:201-230 | one record per match, in match order, exactly when no match raises |
| BillParser.CollectNoneExtends | src/utils/convert_data.py:201-230 | once a record fails to build, later matches do not matter |
| BillParser.InstallmentOf | src/utils/convert_data.py:207-212 | an installment is built only when group 2, the amount, took part in the match |
| BillParser.DetailOf | src/utils/convert_data.py:220-229 | with one group, just the description; with no group, a failure; with two or more, success exactly when every group after the first took part |
| BillParser.AddressToJson | src/utils/convert_data.py:11-20 | a dict of the eight address fields |
| BillParser.StreetNumberSplit | src/utils/convert_data.py:238-241 | with several tokens, the street's tokens followed by the number are exactly the match's tokens |
| BillParser.StreetWithoutNumber | src/utils/convert_data.py:238-241 | with a single token, the street is the match and there is no number |
| BillParser.FirstCity | src/utils/convert_data.py:247-254 | the first token that is one of the known cities |
| BillParser.CityIsSingleToken | src/utils/convert_data.py:246-260 | a city, when found, is MENDOZA or MALARGUE (the two-word names never match a token), and its province is MENDOZA |
| BillParser.DefaultPatternsKept | src/utils/convert_data.py:26-133 | the default table keeps its own defaults |
| BillParser.KeepsDefaultsValid | src/utils/convert_data.py:303-369 | a table that keeps the defaults has every category and consumption position the parser reads |
| BillParser.ConsumptionPatternsFixed | src/utils/convert_data.py:307-328 | the six consumption patterns read by position are always the defaults |
| BillParser.BusinessInfoOf | src/utils/convert_data.py:186-199 | either empty, or all five keys with one shared value |
| BillParser.OptDec | src/utils/convert_data.py:282-301 | a decimal, or `null` |
| BillParser.ConsumptionOf | src/utils/convert_data.py:303-349 | when it succeeds, a dict of six figures |
| BillParser.ConsumptionKeysFixed | src/utils/convert_data.py:342-349 | the consumption dict always has the six keys, in order |
| BillParser.ConsumptionRaises | src/utils/convert_data.py:317-340 | it raises exactly when the billed-volume match has no group 4 or the variable-charge match no group 3 |
| BillParser.FilterEmptyKeeps | src/utils/convert_data.py:369 | the filter keeps exactly the entries whose value is not `None`, `{}` or `""`, in order |
| BillParser.ChargesJson | src/utils/convert_data.py:363 | the charges as a dict with one entry per concept |
| BillParser.ParseRecord | src/utils/convert_data.py:353-367 | the thirteen keys, in order |
| BillParser.FilteredRecordKeeps | src/utils/convert_data.py:361-369 | `address`, `consumption`, `service_details` and `installments` always survive the filter, and no surviving value is empty |
| BillParser.AddressOf | src/utils/convert_data.py:232-267 | an address is built exactly when the `Dpto:` search does not raise; it carries that apartment, no floor or neighbourhood, and the province derived from the city |
| BillParser.ParseSpec | src/utils/convert_data.py:351-369 | a dict, and nothing when the address or the consumption extraction raises |
| BillParser.ParseKeepsStructure | src/utils/convert_data.py:351-369 | a parse result always has the address and consumption dicts and no empty values |
| BillParser.KeptKey | src/utils/convert_data.py:369 | an entry that is not dropped keeps its key in the filtered dict |
| BillParser.AllMatchesAppend | src/utils/convert_data.py:156-158 | the matches of a split pattern list are the matches of each part in turn |
| BillParser.RaisedAt | src/utils/convert_data.py:204-230 | a failure among the matches of the first patterns fails the whole category |
| BillParser.GenericBillParser.constructor | src/utils/convert_data.py:24-133 | the parser starts with the default pattern table |
| BillParser.GenericBillParser.AddPattern | src/utils/convert_data.py:135-140 | the pattern goes last in its category, which is created when new; no other category changes |
| BillParser.GenericBillParser.ExtractCharges | src/utils/convert_data.py:153-184 | the charges are those of every match of every pattern, in order |
| BillParser.GenericBillParser.CollectMatches | src/utils/convert_data.py:201-230 | the records built from every match, in order, or `None` once one raises |
| BillParser.GenericBillParser.CollectMore | src/utils/convert_data.py:204-230 | building the records of one more pattern's matches extends the records built so far, or raises as the whole list would |
| BillParser.GenericBillParser.ExtractInstallments | src/utils/convert_data.py:201-213 | one installment per match, or `None` where one raises |
| BillParser.GenericBillParser.ExtractServiceDetails | src/utils/convert_data.py:215-230 | one detail per match, or `None` where one raises |
| BillParser.GenericBillParser.ExtractBusinessInfo | src/utils/convert_data.py:186-199 | the loop over the five keys computes `BusinessInfoOf` |
| BillParser.GenericBillParser.ExtractAddress | src/utils/convert_data.py:232-267 | the address is built field by field as `AddressOf` states |
| BillParser.GenericBillParser.Parse | src/utils/convert_data.py:351-369 | the result is `ParseSpec` of the current pattern table |
| BillParser.ParseDefault | src/utils/convert_data.py:351-369 | a fresh parser's `parse`, with the default table, returns a non-empty dict, which is truthy |
| BillParser.ConvertDataToJson | src/utils/convert_data.py:372-399 | parses the text with a fresh parser and converts every decimal to its string; `{}` wherever anything raises, a non-string content included |
| LegacyParser.CleanText | src/utils/extract_utils/convert_data.py:71-77 | no line breaks, only single spaces as whitespace, no whitespace at either end, and upper-cased |
| LegacyParser.CleanTextIdempotent | src/utils/extract_utils/convert_data.py:75-77 | cleaning a cleaned text changes nothing |
| LegacyParser.CollapseIsCollapsed | src/utils/extract_utils/convert_data.py:76 | after the whitespace collapse, no two whitespace characters are adjacent and every whitespace character is a plain space |
| LegacyParser.CollapseFixed | src/utils/extract_utils/convert_data.py:76 | a collapsed string is its own collapse |
| LegacyParser.PatternsFor | src/utils/extract_utils/convert_data.py:99 | an unknown kind has no patterns |
| LegacyParser.Captures | src/utils/extract_utils/convert_data.py:100-105 | at most one capture per pattern |
| LegacyParser.ExtractData | src/utils/extract_utils/convert_data.py:91-105 | at most one capture per pattern of the kind |
| LegacyParser.ExtractDataUnknownKind | src/utils/extract_utils/convert_data.py:99-105 | an unknown kind yields no captures |
| LegacyParser.CapturesOfMatching | src/utils/extract_utils/convert_data.py:101-105 | one capture per matching pattern, in pattern-list order |
| LegacyParser.CapturesFirst | src/utils/extract_utils/convert_data.py:101-105 | the first capture is that of the first matching pattern |
| LegacyParser.CapturesNone | src/utils/extract_utils/convert_data.py:101-105 | without a matching pattern there is no capture |
| LegacyParser.CapturesRaise | src/utils/extract_utils/convert_data.py:102-104 | it raises exactly when a pattern matches without a capture group |
| LegacyParser.ValidateDate | src/utils/extract_utils/convert_data.py:80-88 | an accepted date has a slash and eight to ten characters, as `%d/%m/%Y` demands |
| LegacyParser.ValidateDateAsWritten | src/utils/extract_utils/convert_data.py:80-88 | as written, the check never returns a verdict: it raises |
| LegacyParser.ValidateDateDigits | src/utils/extract_utils/convert_data.py:80-88 | a `dd/mm/yyyy` date is accepted exactly when it names a real day |
| LegacyParser.TwoDigitYearRejected | src/utils/extract_utils/convert_data.py:80-88 | a two-digit year, as several date patterns capture, is never accepted |
| LegacyParser.LeapDay | src/utils/extract_utils/convert_data.py:80-88 | the 29th of February exists only in leap years |
| LegacyParser.FirstOrNull | src/utils/extract_utils/convert_data.py:127-129 | `null` without captures, otherwise the first capture |
| LegacyParser.Fields | src/utils/extract_utils/convert_data.py:136-142 | exactly the five keys date, address, consumption, period and cost, in order |
| LegacyParser.CostTextAsWritten | src/utils/extract_utils/convert_data.py:130-134 | no comma reaches `float`; without a thousands dot or a comma the capture is passed as it is |
| LegacyParser.CostText | src/utils/extract_utils/convert_data.py:130-134 | no comma reaches `float`; with a thousands dot, or without any comma, the intended text is the written one |
| LegacyParser.FinishAsWritten | src/utils/extract_utils/convert_data.py:119-142 | when it returns, a dict of five fields |
| LegacyParser.Finish | src/utils/extract_utils/convert_data.py:119-142 | when it returns, a dict of five fields |
| LegacyParser.CostField | src/utils/extract_utils/convert_data.py:130-134 | `null` without a cost capture; a capture that did not take part raises; otherwise a string |
| LegacyParser.ThousandsCost | src/utils/extract_utils/convert_data.py:130-131 | "1.234,56" reaches `float` as "1234.56", in the written code and the intended one alike |
| LegacyParser.FinishFields | src/utils/extract_utils/convert_data.py:119-142 | the five keys in order: the date only when it names a real day, the cost rendered from the first capture, the other fields their first capture or `None`. It raises only on a capture that did not take part or on a cost `float` rejects |
| LegacyParser.ConvertDataToJson | src/utils/extract_utils/convert_data.py:108-142 | raises when an extraction raises |
| LegacyParser.ConvertDataToJsonAsWritten | src/utils/extract_utils/convert_data.py:108-142 | the converter as written, with the date check of lines 80-88 that always raises; it raises when an extraction raises |
| LegacyParser.ExtractFrom | src/utils/extract_utils/convert_data.py:119-123 | the five extractions, each yielding at most one capture per pattern of its kind |
| LegacyParser.ExtractFromRaises | src/utils/extract_utils/convert_data.py:119-123 | the five extractions raise exactly when some date, address, consumption, period or cost pattern matches without a capture group |
| LegacyParser.ExtractAll | src/utils/extract_utils/convert_data.py:112-123 | the text (or its `str`) is cleaned, and the extractions raise exactly when some pattern of the five kinds matches the cleaned text without a capture group |
| LegacyParser.AsWrittenRaisesOnDate | src/utils/extract_utils/convert_data.py:80-88 | as written, the converter returns only when no date pattern matches, and then `date` is `None` |
| LegacyParser.DateCaptureDiverges | src/utils/extract_utils/convert_data.py:126 | where a date is captured, the written converter raises while the intended one returns |
| ExtractService.SortEntry | src/services/extract_data_service.py:83-87 | `None` exactly for a non-dict entry, which makes `.get` raise |
| ExtractService.SortEntriesFilters | src/services/extract_data_service.py:82-87 | sorting a nested list appends its URL entries and its text entries, in order, or raises on a non-dict |
| ExtractService.PartitionFrom | src/services/extract_data_service.py:77-87 | the loop only appends to the URL bills and the text bills it starts with |
| ExtractService.PartitionFromFilters | src/services/extract_data_service.py:77-87 | the partition is the URL and text entries of the nested lists, in order |
| ExtractService.UrlEntriesMembers | src/services/extract_data_service.py:84-85 | an entry is a URL bill exactly when it is a dict with a truthy `url` |
| ExtractService.ContentEntriesMembers | src/services/extract_data_service.py:86-87 | an entry is a text bill exactly when it is a dict without a truthy `url` and with truthy `content` |
| ExtractService.PartitionMeaning | src/services/extract_data_service.py:77-87 | when every nested entry is a dict, the URL bills and text bills are exactly the filters of the nested entries |
| ExtractService.FlatBillsIgnored | src/services/extract_data_service.py:78-81 | entries without their own `bills_url` list contribute nothing |
| ExtractService.FlatNothingNested | src/services/extract_data_service.py:78-81 | a list of flat bills has no nested entries |
| ExtractService.UrlAndContentBillsAreFlat | src/services/extract_data_service.py:77-87 | flat `{url}` and `{content}` bills, the shape the scraper stores, are never processed |
| ExtractService.PdfData | src/utils/process_utility_bill_pdf.py:7-19 | `process_utility_bill_pdf`: a dict; `{}` when the text cannot be read or the parser raises, and otherwise the non-empty parse of the text with the default patterns |
| ExtractService.UrlRecords | src/services/extract_data_service.py:104-136 | at most one record per downloaded file, none holding a `Decimal` |
| ExtractService.PdfRecord | src/services/extract_data_service.py:109-124 | with `_process_pdf` reading files through `process_utility_bill_pdf`, a file adds a record exactly when its text was read and parses, and the record is the parsed data with its decimals as strings |
| ExtractService.UrlRecordsFromFiles | src/services/extract_data_service.py:109-124 | every URL record is the converted, truthy data `_process_pdf` gave for one of the downloaded files |
| ExtractService.UrlRecordsStep | src/services/extract_data_service.py:109-134 | the records of one more file are those before it, plus its record when its text is extracted |
| ExtractService.BillText | src/services/extract_data_service.py:143-151 | a string `content` is the bill's text |
| ExtractService.Converted | src/services/extract_data_service.py:153-160 | the converted record holds no `Decimal` |
| ExtractService.ContentRecords | src/services/extract_data_service.py:138-164 | at most one record per text bill |
| ExtractService.ContentRecordsStep | src/services/extract_data_service.py:141-162 | the records of one more bill are those before it, plus its record when its content is a string |
| ExtractService.ContentRecordsOnePerText | src/services/extract_data_service.py:141-164 | every bill whose content is a string gives exactly one record, in order |
| ExtractService.NonStringContentSkipped | src/services/extract_data_service.py:147-151 | a bill whose content is not a string adds nothing |
| ExtractService.IndexKeyed | src/services/extract_data_service.py:230-234 | one entry per record |
| ExtractService.IndexKeyedShape | src/services/extract_data_service.py:230-234 | the keys are "0" to "n-1" in list order, and entry `i` is record `i` with its decimals turned into strings |
| ExtractService.IndexKeyedKeepsClean | src/services/extract_data_service.py:220-234 | records without decimals are stored unchanged |
| ExtractService.SaveSpec | src/services/extract_data_service.py:236-258 | one read of the scrapped data, then at most one update; a save needs the update, and the update sets only `consumption_data`, to the index-keyed records, on a truthy record id |
| ExtractService.NewRecords | src/services/extract_data_service.py:65-95 | a non-list adds nothing; it raises exactly when splitting the nested entries raises; otherwise no more records than URL and text entries |
| ExtractService.ProcessSpec | src/services/extract_data_service.py:23-63 | the held records are kept; no scrapped data gives "No scrapped data found"; "No new bills to process" comes with no records and only the read; "Bills processed and saved" comes after the read, one more call and the update of the index-keyed records |
| ExtractService.ListAnswerUsedAsIs | src/services/extract_data_service.py:40-44 | a non-empty list answer of flat bills gives "No new bills to process" and no records |
| ExtractService.ExtractDataService.constructor | src/services/extract_data_service.py:18-21 | the service starts with no processed data, converts a text as `Converted` does, and reads each downloaded file as `PdfData` of the text pdfplumber extracts |
| ExtractService.ExtractDataService.SplitBills | src/services/extract_data_service.py:73-87 | the loop's partition is `PartitionFrom` |
| ExtractService.ExtractDataService.ProcessUrlBills | src/services/extract_data_service.py:97-136 | appends exactly the records of the downloaded files |
| ExtractService.ExtractDataService.AppendUrlRecords | src/services/extract_data_service.py:109-134 | the loop over the downloaded files appends exactly their records, in order |
| ExtractService.ExtractDataService.ConvertText | src/utils/convert_data.py:372-399 | the converted record of one text |
| ExtractService.ExtractDataService.ProcessContentBills | src/services/extract_data_service.py:138-164 | appends exactly the records of the text bills |
| ExtractService.ExtractDataService.ProcessAllBills | src/services/extract_data_service.py:65-95 | raises exactly when the partition raises; otherwise appends the URL records and then the text records |
| ExtractService.ExtractDataService.SaveProcessedData | src/services/extract_data_service.py:208-263 | the result and calls are `SaveSpec`, and the processed data is kept |
| ExtractService.ExtractDataService.ProcessBills | src/services/extract_data_service.py:23-63 | result, calls and new processed data are those of `ProcessSpec` |
| PyStr.SplitJoin | src/utils/convert_data.py:239-240 | joining words with single spaces and splitting again gives the words back |
| PyStr.StripRemovesOnlySpace | src/utils/convert_data.py:148 | `strip` removes whitespace from the ends only |
| PyStr.UpperIdempotent | src/utils/extract_utils/convert_data.py:77 | upper-casing twice is upper-casing once |
| Dicts.PutKeys | src/utils/convert_data.py:178 | assigning a key keeps the key order and adds a new key at the end |
| Dicts.PutNew | src/utils/convert_data.py:178 | assigning a key not yet present appends it, with its value, at the end |

## Left out

- Browser work: Playwright waits, fills, clicks, navigation, dialogs,
  `expect_download`, the sleeps and `cleanup`. The page is an oracle that
  answers each step. `_initialize_browser` and `_navigate_to_page` are
  modelled only by the browser choice, not by launch or navigation
  failures.
- `with_retry` on `search`: its module is not part of this model, so one
  attempt is modelled.
- The regex engine: `re.search`/`re.finditer` are an oracle, and so are
  `re.error` and Python's regex semantics. The pattern texts are kept as
  constants.
- PDF text extraction (`pdfplumber`), temporary files and `os.remove`:
  the joined page text of a file is an oracle answer (`pdfText` in the
  extraction service, `None` where opening or reading raises); what
  `process_utility_bill_pdf` does with it is modelled with the bill
  parser. The text the scraper reads from a download is an oracle answer
  too.
- `asyncio.gather` concurrency in the downloads: downloads run in list
  order.
- `download_pdf` in `src/utils/extract_utils/req_backend.py` is not part of
  this model: the extraction service downloads through `BillService`.
- URL handling: `urljoin`/`urlparse` are an oracle (`urlOf`) in the newer
  interpreter. In the older one the scheme-and-host prefix is a parameter.
- The HTTP transport: both the `httpx` clients and the main backend are
  oracles from request to answer, not a stored map. Exact message strings
  are enum cases.
- `http_client`'s 403 handling and its other endpoints
  (`get_user_services_by_service`, `get_services`) are not used by the core.
- ScrapBackend.MakeRequest: Python's recursion limit on 307 redirects is a
  `fuel` bound; running out gives `None`, as the caught `RecursionError`
  does.
- Floating point: `extract_consumption_history` is not modelled. In the
  older converter, `"{:.2f}".format(float(t))` is an oracle (`TwoPlaces`).
- Decimals: only plain and scientific `str(Decimal)` and the plain literal
  grammar are modelled. Exponents, `Infinity` and `NaN` are outside it and
  are rejected, as the parser's patterns never capture them.
- Unicode: `upper()` is modelled for ASCII and Latin-1 (accented
  letters, `ß` to `SS`, `µ` and `ÿ`), and other characters are kept as
  they are. `isdigit()` accepts only the ASCII digits. Whitespace is
  Python's full `isspace` set.
- `json.dumps` equality is value equality over the JSON model. Values
  `json.dumps` cannot serialise, and its key-order sensitivity for dicts
  built in different orders, are not modelled.
- ExtractService.ProcessSpec: the `KeyError` from
  `user_service_data["user_service"]["id"]` is not modelled; the id is a
  parameter.
- ExtractService.Converted: the `json.loads(json.dumps(...))` round trip in
  `_convert_to_json` is modelled only by its effect on decimals.
- WebScrap.WebScrapService.HandleInputOrButton: an explicit `null` size is
  read like a missing one, while Python's `int(None)` would raise. The
  size is an integer: `int(...)` of a numeric string such as `"4"`, and
  the `ValueError` it raises for any other string, are not modelled.
- WebScrap.ExecuteSpec: the download listener's handlers are taken to run
  at the end of the action whose click started them, after the action's
  own effects and in event order. How Playwright interleaves them with the
  action's awaits, and downloads that finish after a later action has
  begun, are not modelled.
- ScrapService.InputValue: a step's size is an integer or absent. An
  explicit `null`, `""` or `false` size is read as a missing key and types
  the whole client number, while `if action['size']:` finds it falsy and
  keeps the previous value, or raises `UnboundLocalError` when nothing was
  typed yet. String sizes are not modelled: `int("4")` slices like 4,
  `"0"` is truthy and types an empty slice, and any other string raises a
  `ValueError` that `except KeyError` does not catch.
- ScrapService.Parser: a step without a `query` key reads as `false`,
  while the older parser's `action['query']` raises `KeyError`.

## Findings

| source | as written | input that shows it | evidently intended | confidence | as-written member | corrected member |
|---|---|---|---|---|---|---|
| src/utils/extract_utils/convert_data.py:80-88 | `datetime.strptime` is looked up on the `datetime` module, which has no such attribute. The `AttributeError` escapes `except ValueError`, so every date capture makes `convert_data_to_json` raise | "Periodo 01/02/23": the `PERIODO` date pattern captures "01/02/23" | `datetime.datetime.strptime(s, "%d/%m/%Y")`: return whether the capture is a real `dd/mm/yyyy` date, so this input gives `date: None` | high, not executed | LegacyParser.PeriodoDateWitness | LegacyParser.ValidateDateDigits |
| src/utils/extract_utils/convert_data.py:130-134 | without a thousands dot, every comma is removed before `float`, so a decimal comma multiplies the cost by ten per decimal | "TOTAL $ 45,50": the pattern `TOTAL \$ ([0-9]+,[0-9]+)` captures "45,50", which reaches `float` as "4550" | read the comma as the decimal point, as the thousands branch does: "45.50" | medium, not executed | LegacyParser.CommaCostAsWritten | LegacyParser.CommaCost |
