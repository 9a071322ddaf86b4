# KOBE admin dashboard — a Dafny model of its core

KOBE is a single-page admin console for a group of five subsidiaries:
- BEOK, a clothing shop;
- WORD'S, a blog;
- VÓID AI, an AI subscription service;
- ESCAN, online courses;
- EBOK, ebooks.

This project models the logic of that console as pure Dafny functions, and proves properties about them:

- **Global search.** The mock API's `globalSearch` aggregates navigation shortcuts, products, posts, courses and ebooks. It matches case-insensitively, and its result blocks come in a fixed order. The mock API also has the `getProducts` and `getOrders` accessors.
- **Subsidiary managers.** Each of the four managers (BEOK, WORD'S, EBOK, ESCAN) has the following parts:
  - its form validation;
  - the record its submit handler builds;
  - the add, update and delete handlers;
  - the random "live" simulation, run as a step function.

  BEOK and WORD'S also have the five-image upload cap and a filtered, sorted table with a click-to-sort header. EBOK and ESCAN have neither.
- **Command palette.** Opening, closing, typing, the keyboard handler with its wrap-around selection, and the grouping of results by type for display.
- **Header search box.** The debounced search, the answers, the dropdown and the result click.
- **Analytics page.** Monthly totals, the year-to-date estimate, the top performer, and the subscription and user counts.
- **Dashboard.** Its live tick.
- **VÓID AI screen.** The plan change, API key generation and the live metrics.
- **Data.** The constant data in `constants.tsx` and the record types of `types.ts`.

Modelling conventions:
- Every `Math.random()` call becomes a parameter, either a real in [0, 1) or a bounded draw.
- `Date.now()` becomes a `stamp` string, and today's date a `today` string.
- Timers and promises become explicit events: a debounce ending, an answer arriving, or a batch of chosen files finishing reading. The form handlers use the one-step upload (`Uploads.AddImages`), which is the evented upload with one batch at a time (`Uploads.SettledBatchIsAfterBatch`).
- `parseFloat` and `parseInt` results are `Option` values, with `None` standing for NaN.
- JavaScript's `%` is modelled as a truncating remainder.
- Array sorting is modelled as a stable sort, as `Array.prototype.sort` is.

Modules:
- `Wrappers`, `Seqs`, `Text`: `Option`/`Result`, sequence helpers, and lowering, containment and trimming.
- `Types`, `Fixtures`: the records and the constant data.
- `Search`: the mock API.
- `Crud`: the add, update and delete handlers that all four managers share.
- `Sorting`, `Uploads`: the table sort and the image cap that BEOK and WORD'S share.
- `Beok`, `Words`, `Ebok`, `Escan`: one module per subsidiary manager.
- `Palette`, `HeaderSearch`, `Analytics`, `Dashboard`, `VoidAi`: one module per remaining screen.

## Model

| member | source | states |
|---|---|---|
| Search.GetProducts | services/api.ts:29-37 | The product list is the mock product list, and its ids are distinct. |
| Search.GetOrders | services/api.ts:44-52 | The order list is the mock order list, and its ids are distinct. |
| Search.GlobalSearch | services/api.ts:59-98 | Never more results than records scanned. Results are grouped by type in the order Navigation, Product, Blog Post, Course, Ebook. Each result carries its type's subsidiary label and target screen. |
| Search.EmptyQueryShortcuts | services/api.ts:66-71 | The empty query yields exactly one "Go to" shortcut per menu entry, in menu order. |
| Search.EmptyQueryIgnoresEntities | services/api.ts:66-71 | For the empty query, only the menu decides the answer; the entity collections are not consulted. |
| Search.CaseInsensitive | services/api.ts:63 | Two queries that lower-case alike get identical answers. |
| Search.HoodieEitherCase | services/api.ts:63 | "HOODIE" and "hoodie" get the same answer over any collections. |
| Search.NonEmptyQueryBlocks | services/api.ts:74-92 | For a non-empty query, the results of each type are exactly the matching records of that collection, in collection order. |
| Search.OfKindMembers | services/api.ts:74-92 | Selecting one type keeps exactly the results of that type. |
| Search.ProductsFound | services/api.ts:79-80 | A product is reported iff its name or category contains the lowered query. Each product result names it, under BEOK. |
| Search.PostsFound | services/api.ts:83-84 | A post is reported iff its title or author contains the lowered query. |
| Search.CoursesFound | services/api.ts:87-88 | A course is reported iff its title or instructor contains the lowered query. |
| Search.EbooksFound | services/api.ts:91-92 | An ebook is reported iff its title or author contains the lowered query. |
| Search.NavFound | services/api.ts:75-76 | A menu entry is reported iff its label contains the lowered query. |
| Search.QuantumFindsOnlyFirst | services/api.ts:74-92 | Suppose only the first product mentions "quantum" and no other searchable field has a q. Then the query "quantum" finds that product and nothing else. |
| Search.NoQuantumWithoutQ | services/api.ts:79 | A field without the letter q cannot contain "quantum", in either case. |
| Search.MockCatalogQuantumShape | constants.tsx:15-64 | In the shipped collections only the first product's name starts with "Quantum", and no other searchable field holds a q. |
| Search.MockQuantumFindsHoodie | services/api.ts:74-92 | On the shipped collections, "quantum" finds the first product and nothing else. |
| Search.MockHoodieResult | services/api.ts:79-80 | That result is the Quantum Hoodie, id "p1", a product under BEOK that opens the BEOK view. |
| Crud.Add | BeokControl.tsx:320-322 | A new record is shown first, and the others keep their order. |
| Crud.UpdateById | BeokControl.tsx:324-326 | Every record with the edited id is replaced, and every other record is untouched. |
| Crud.DeleteById | BeokControl.tsx:328-332 | Exactly the records without the id survive, and none with the id is left. |
| Crud.DeleteAfterAdd | BeokControl.tsx:320-332 | Deleting a record right after adding it restores the list, when its id was fresh. |
| Crud.AddKeepsKeysUnique | BeokControl.tsx:320-322 | Adding a record with a fresh id keeps ids unique. |
| Crud.UpdateKeepsKeys | BeokControl.tsx:324-326 | An edit leaves the sequence of ids unchanged. |
| Crud.UpdateKeepsKeysUnique | BeokControl.tsx:324-326 | An edit keeps ids unique. |
| Crud.FilterKeepsKeysUnique | BeokControl.tsx:328-332 | Any filtering keeps ids unique. |
| Crud.DeleteKeepsKeysUnique | BeokControl.tsx:328-332 | A deletion keeps ids unique. |
| Crud.UpdateIdempotent | BeokControl.tsx:324-326 | Submitting the same edit twice equals submitting it once. |
| Crud.UpdateFound | BeokControl.tsx:324-326 | The edited record is visible afterwards iff some record carried its id, or it was already there. |
| Crud.DeleteAfterUpdate | BeokControl.tsx:324-332 | Deleting an id after editing it equals deleting it straight away. |
| Sorting.Compare | BeokControl.tsx:279-289 | The comparator returns -1, 0 or 1, and returns 0 exactly for equal keys. Strings compare by UTF-16 code units, as `<` does. |
| Sorting.CompareAntisymmetric | BeokControl.tsx:279-289 | Swapping the arguments, or flipping the direction, negates the comparator. |
| Sorting.InOrderMeaning | BeokControl.tsx:279-289 | Ascending, the smaller or equal key may come first; descending, the larger or equal key may. |
| Sorting.InOrderTransitive | BeokControl.tsx:279-289 | Being in order is transitive. |
| Sorting.KeyLessTransitive | BeokControl.tsx:281 | `<` on one column's values is transitive. |
| Sorting.KeyLessTotal | BeokControl.tsx:281-285 | Any two distinct keys are ordered one way or the other. |
| Sorting.Insert | BeokControl.tsx:279-289 | Inserting into a sorted table keeps it sorted. The result is the table plus exactly the new row. |
| Sorting.Sort | BeokControl.tsx:278-290 | The sorted table is a permutation of the rows, and every pair of rows is in order. |
| Sorting.SortStable | BeokControl.tsx:279-289 | Rows whose keys tie keep their input order. |
| Sorting.InsertStable | BeokControl.tsx:279-289 | Inserting a row puts it before every row it ties with. |
| Sorting.RequestSort | BeokControl.tsx:294-301 | The image column is ignored. Another column sorts ascending. The same column flips to descending only when it was ascending. |
| Sorting.RequestSortToggles | BeokControl.tsx:294-301 | Repeated clicks on one header alternate the direction. |
| Uploads.AddImages | BeokControl.tsx:82-95 | A batch is accepted iff the total stays at most five. Accepted pictures are appended after the existing ones. A refusal carries the five-image message. |
| Uploads.AfterBatch | components/WordsControl.tsx:114-125 | A batch read before the next edit never takes a list of at most five above five. The list either keeps its length or grows by the whole batch. |
| Uploads.RemoveImage | BeokControl.tsx:96-98 | Exactly the picture at the index is dropped, and any other index changes nothing. |
| Uploads.EditsKeepCap | components/WordsControl.tsx:114-129 | With each batch read before the next edit, no sequence of uploads and removals takes a list of at most five above five. |
| Uploads.RemoveAfterAdd | BeokControl.tsx:82-98 | Removing the picture just added restores the list. |
| Uploads.FilesChosen | BeokControl.tsx:82-90 | As written: a batch is refused with the five-image message iff it and the shown pictures exceed five; batches still being read are not counted. An accepted batch starts reading and the list is unchanged. |
| Uploads.BatchRead | BeokControl.tsx:91-92 | A batch that finishes reading is appended to the list as it is by then, in any order of completion. Shown plus pending pictures stay the same. |
| Uploads.SettledBatchIsAfterBatch | BeokControl.tsx:82-92 | With nothing being read, choosing files and letting them be read gives exactly the one-step upload's list and refusal. |
| Uploads.OverlappingBatchesExceedCap | BeokControl.tsx:82-92 | As written: two batches of three chosen on an empty form before either is read both pass, and the list ends with six pictures. |
| Uploads.FilesChosenIntended | BeokControl.tsx:82-90 | The corrected check counts the pictures still being read. With nothing being read it agrees with the check as written. |
| Uploads.UploadStepIntendedKeepsCap | BeokControl.tsx:82-98 | With the corrected check, every event keeps the shown and pending pictures within five. |
| Uploads.UploadRunIntendedKeepsCap | BeokControl.tsx:82-98 | With the corrected check, no sequence of choices, completions and removals shows more than five pictures. |
| Beok.StockStatus | BeokControl.tsx:237-239 | The simulation's rule: out of stock iff stock ≤ 0, low stock iff 0 < stock < 40, in stock iff stock ≥ 40. |
| Beok.SubmitStatus | BeokControl.tsx:121 | The form's rule: in stock iff stock > 40, low stock iff 0 < stock ≤ 40, out of stock iff stock ≤ 0. |
| Beok.StatusRulesDisagreeOnlyAt40 | BeokControl.tsx:121 | The two status rules disagree exactly at 40 units. |
| Beok.SubmitProduct | BeokControl.tsx:100-126 | Submission fails with the fields message when a text is empty, a number is NaN, the price is not positive or the stock is negative. Otherwise it fails with the image message when there are no images. Otherwise the product carries the form's values, the edited id or "p"+stamp, and the form's status rule. |
| Beok.SubmitAt40Inconsistent | BeokControl.tsx:121 | A product submitted with 40 units gets a status the stock rule calls inconsistent. The intended submit does not. |
| Beok.SubmitProductIntended | BeokControl.tsx:100-126 | It succeeds exactly when the submit does, and then yields a status-consistent product. |
| Beok.EditRoundTrip | BeokControl.tsx:62-126 | As written: opening the edit form on a valid, consistent product whose stock is not 40, and submitting it unchanged, gives back the product. |
| Beok.EditAt40Demotes | BeokControl.tsx:62-126 | As written: the same round trip on a consistent product with exactly 40 units gives it back as "Low Stock", not as it was. |
| Beok.EditRoundTripIntended | BeokControl.tsx:62-126 | With the intended submit, the round trip gives back every valid, consistent product, 40 units included. |
| Beok.Restock | BeokControl.tsx:234-239 | The stock moves by the change, floored at zero, and the status is recomputed. Nothing else changes. |
| Beok.StockTick | BeokControl.tsx:228-243 | An empty list or a skipped tick changes nothing. Otherwise only the drawn product is restocked. |
| Beok.StockTickBounds | BeokControl.tsx:234-235 | The drawn product's stock moves by at most four up and one down, never below zero, and it keeps its id. |
| Beok.StockTickKeepsConsistent | BeokControl.tsx:228-243 | Ticks keep every product's status in line with its stock. |
| Beok.Processable | BeokControl.tsx:248 | Exactly the processing orders. |
| Beok.FindIndex | BeokControl.tsx:253 | Returns the first position holding the id, or -1 exactly when none does. |
| Beok.OrderTick | BeokControl.tsx:246-257 | A skipped tick, or one with nothing processing, changes nothing. Otherwise at most one order changes, to Shipped. |
| Beok.OrderTickShipsOne | BeokControl.tsx:246-257 | With unique ids, the drawn processing order is shipped and nothing else changes. |
| Beok.OrderTickKeepsSettled | BeokControl.tsx:246-257 | Orders that are not processing are never touched. |
| Beok.ProductView | BeokControl.tsx:268-292 | Shows exactly the products whose name contains the search text, ignoring case, and whose status passes the filter. They are sorted by the current column, as a permutation of the filtered list. |
| Beok.ProductViewUnfiltered | BeokControl.tsx:268-292 | With no search text and "All", the table is a reordering of the whole list. |
| Beok.HandlersKeepConsistent | BeokControl.tsx:320-332 | Add, update and delete keep the list status-consistent. |
| Words.Validate | components/WordsControl.tsx:81-88 | Title error iff the trimmed title is empty. Author error iff the trimmed author is empty. Image error iff there are more than five images. Each error carries the source's message. |
| Words.ValidateBlank | components/WordsControl.tsx:83-84 | A text made only of white space is rejected, exactly as an empty one is. |
| Words.UploadedImagesNeverTooMany | components/WordsControl.tsx:85 | Images collected through the upload control, one batch at a time, never trip the image error. |
| Words.OverlappingUploadsTripImageError | components/WordsControl.tsx:85-123 | Two overlapping batches of three pass the upload check, and the six pictures trip the form's image error. |
| Words.SubmitPost | components/WordsControl.tsx:131-150 | Refused with the errors iff any exists. A new post is a draft dated today, with no traffic and id "b"+stamp. An edit keeps id, date, status and traffic. |
| Words.EditRoundTrip | components/WordsControl.tsx:131-150 | Submitting an unchanged valid post gives it back. |
| Words.PostTick | components/WordsControl.tsx:205-222 | Published posts gain 0 to 24 views and keep their date. A draft either stays as it was or is published with today's date. |
| Words.TickNeverUnpublishes | components/WordsControl.tsx:207-217 | The number of published posts never falls. |
| Words.PostView | components/WordsControl.tsx:253-280 | Shows exactly the posts whose title contains the search text, ignoring case, with the chosen status. They are sorted as a permutation of the filtered list. |
| Words.InitialViewNewestFirst | components/WordsControl.tsx:201 | Under the opening sort, no post is listed above one with a later date. |
| Ebok.Validate | components/EbokControl.tsx:29-38 | Title error iff the trimmed title is empty. Author error iff the trimmed author is empty. Cover error iff the cover is missing or the empty string, as `!coverImage` is. File error iff adding without a file. |
| Ebok.SubmitEbook | components/EbokControl.tsx:83-105 | Refused iff there are errors. A new ebook is pending, with no sales or revenue and id "e"+stamp. An edit keeps id, sales, revenue and status, and keeps the stored file unless another is chosen. |
| Ebok.EditRoundTrip | components/EbokControl.tsx:83-105 | Submitting an unchanged valid ebook with a non-empty cover, with no new file chosen, gives it back. |
| Ebok.EditWithoutCoverRefused | components/EbokControl.tsx:33 | Editing an ebook whose stored cover is the empty string is refused with the cover message. |
| Ebok.EbookStep | components/EbokControl.tsx:156-170 | A published ebook sells copies at its average price. A pending one may be published. Sales and revenue of a pending ebook stay. |
| Ebok.EbookTick | components/EbokControl.tsx:153-174 | Every ebook steps with its own draw, and sales rise by at most two. |
| Ebok.StepKeepsAveragePrice | components/EbokControl.tsx:161-163 | A book that has sold keeps its average price across a tick. |
| Ebok.FirstSaleAtDefaultPrice | components/EbokControl.tsx:161 | A first sale with no revenue sets the average to 9.99. |
| Ebok.StepMonotone | components/EbokControl.tsx:156-170 | Sales and revenue never fall. |
| Escan.Validate | components/EscanControl.tsx:33-42 | Title and instructor errors iff blank. Price error iff NaN or not positive. Cover error iff the cover is missing or the empty string, as `!coverImage` is. |
| Escan.SubmitCourse | components/EscanControl.tsx:85-107 | Refused iff there are errors. A new course is upcoming, with no students and id "c"+stamp. An edit keeps id, students and status, and keeps the stored materials unless another file is chosen. |
| Escan.EditRoundTrip | components/EscanControl.tsx:85-107 | Submitting an unchanged valid course with a non-empty cover gives it back. |
| Escan.EditWithoutCoverRefused | components/EscanControl.tsx:39 | Editing a course whose stored cover is the empty string is refused with the cover message. |
| Escan.CourseTick | components/EscanControl.tsx:158-174 | Live courses gain 0 to 4 students and nothing else. An upcoming course stays as it was or goes live. |
| Escan.LiveStaysLive | components/EscanControl.tsx:163-168 | A live course stays live. |
| Escan.ZeroDrawIsIdle | components/EscanControl.tsx:163-164 | A live course drawing no new students is left as it was. |
| Palette.TruncRem | components/shared/CommandPalette.tsx:58-61 | JavaScript's `%`: for a non-negative dividend it is the Euclidean remainder; otherwise it is non-positive and follows the dividend's sign. |
| Palette.AddMod | components/shared/CommandPalette.tsx:58-61 | NaN arises exactly from an empty list or an existing NaN. Otherwise the selection wraps modulo the list length. |
| Palette.Open | components/shared/CommandPalette.tsx:19-24 | Opening starts loading and sends the empty query. |
| Palette.Close | components/shared/CommandPalette.tsx:25-30 | Closing clears the query and results, and puts the selection back on the first row. |
| Palette.ResultsArrived | components/shared/CommandPalette.tsx:33-40 | An answer replaces the results, selects the first row and ends loading. The selection is then in range iff anything was found. |
| Palette.QueryTyped | components/shared/CommandPalette.tsx:42-48 | Typing replaces the query and changes nothing else. |
| Palette.DebounceEnded | components/shared/CommandPalette.tsx:42-48 | When the debounce ends, the current query is sent and loading begins. |
| Palette.TypeThenAnswer | components/shared/CommandPalette.tsx:33-48 | Typing, waiting and receiving the answer shows exactly the search for the typed query. The first row is selected, and it exists iff anything was found. |
| Palette.HandleKey | components/shared/CommandPalette.tsx:50-77 | While closed every key is ignored. Escape closes. Enter opens a screen iff the selection names a row, and it opens that row's screen. Arrows change only the selection. |
| Palette.ArrowsKeepSelectionInRange | components/shared/CommandPalette.tsx:56-61 | The arrows keep an in-range selection in range. |
| Palette.ArrowArithmetic | components/shared/CommandPalette.tsx:58-61 | Down moves to the next row, wrapping to the first. Up moves to the previous row, wrapping to the last. |
| Palette.DownThenUp | components/shared/CommandPalette.tsx:56-61 | Down then Up, or Up then Down, returns to the same row. |
| Palette.DownPresses | components/shared/CommandPalette.tsx:56-58 | k presses of Down from row v reach row v+k, while that stays in the list. |
| Palette.FullCircle | components/shared/CommandPalette.tsx:56-58 | n presses of Down on n rows return to the first row. |
| Palette.EmptyResultsEnterInert | components/shared/CommandPalette.tsx:62-66 | With no results, Enter does nothing. |
| Palette.Push | components/shared/CommandPalette.tsx:81-88 | A result joins its type's group, or opens a new group at the end. |
| Palette.GroupByTypeCorrect | components/shared/CommandPalette.tsx:81-90 | The groups have distinct types and none is empty. Each holds exactly its type's results, in order, and every type present has a group. |
| Palette.FlattenContiguous | components/shared/CommandPalette.tsx:81-90 | When each type's results are contiguous, flattening the groups gives back the results. |
| Palette.DisplayOrderMatchesSelection | components/shared/CommandPalette.tsx:90-121 | For any search answer, the flattened grouped display equals the result list. So the highlighted row is the row that Enter opens. |
| Palette.Show | components/shared/CommandPalette.tsx:111-140 | The loading line shows iff loading with a non-empty query. Otherwise the no-results line shows iff there are no results, and the groups show iff there are some. |
| Palette.RowHovered | components/shared/CommandPalette.tsx:121-127 | Hovering a shown row selects its display position, which is in range. Nothing else changes. |
| Palette.RowClicked | components/shared/CommandPalette.tsx:74-77 | Clicking a shown row opens that row's screen and closes the palette. |
| Palette.BackdropClicked | components/shared/CommandPalette.tsx:93 | A click on the backdrop closes the palette exactly as Escape does, opening nothing. |
| Palette.HoverThenEnter | components/shared/CommandPalette.tsx:62-66 | Enter after hovering display row j opens the screen of the j-th result. |
| Palette.HoverThenEnterOpensRow | components/shared/CommandPalette.tsx:62-127 | For results in runs of one type, Enter after hovering a row opens the screen a click on that row opens. |
| Palette.HoverThenEnterOnAnswer | components/shared/CommandPalette.tsx:62-127 | For any search answer, Enter after hovering a row opens the screen a click on that row opens. |
| Palette.GroupByTypeLength | components/shared/CommandPalette.tsx:81-90 | Grouping neither loses nor adds a result: the groups hold as many rows as the results. |
| HeaderSearch.QueryChanged | components/Header.tsx:48-63 | As written: a new blank query empties the results and cancels the timer but leaves the spinner as it was. A new non-blank query turns the spinner on and schedules its untrimmed text. Setting the same query does nothing. |
| HeaderSearch.QueryChangedIntended | components/Header.tsx:48-63 | The same effect, with the spinner off after a blank query. It agrees with the effect as written on every non-blank query. |
| HeaderSearch.TimerFired | components/Header.tsx:55-60 | The scheduled query is sent, and nothing else changes. |
| HeaderSearch.SearchResolved | components/Header.tsx:56-59 | The oldest search sent is answered with the search results for its query, and the spinner stops, whatever the query is by then. |
| HeaderSearch.ResultClicked | components/Header.tsx:83-89 | The result's screen opens. The query and results are cleared, focus and the mobile search close, and the dropdown is hidden. Clearing the query runs the effect as written, which cancels any timer. |
| HeaderSearch.ClickOutside | components/Header.tsx:66-78 | Pressing outside closes the profile menu or unfocuses the search. On a narrow window it also closes the mobile search. |
| HeaderSearch.DropdownOf | components/Header.tsx:97-162 | Hidden iff the box is unfocused or the query is empty. Spinner iff shown while loading. The no-results line iff shown, not loading and empty. |
| HeaderSearch.Step | components/Header.tsx:48-97 | As written: typing runs the effect as written. A result click opens a screen iff the dropdown lists results and the clicked result is among them. |
| HeaderSearch.StepKeepsConsistent | components/Header.tsx:48-97 | As written, every event keeps two facts: a running timer is for the current non-blank query, and the spinner turns only while a search is outstanding or the query is blank. |
| HeaderSearch.RunKeepsConsistent | components/Header.tsx:48-97 | As written, the same holds over any sequence of events. |
| HeaderSearch.SpinnerAwaitsAnswerOrBlank | components/Header.tsx:138-141 | As written, from the opening state, whenever "Searching..." shows, a search is still coming or the query is blank. |
| HeaderSearch.StepIntended | components/Header.tsx:48-63 | Typing runs the intended effect; every other event is handled as written. |
| HeaderSearch.StepsDifferOnlyOnBlank | components/Header.tsx:49-52 | The header as written and the intended one differ only when a new blank query is typed while the spinner turns. |
| HeaderSearch.StepIntendedKeepsConsistent | components/Header.tsx:48-97 | With the intended effect, every event keeps the timer for the current non-blank query, and the spinner turns only while a search is outstanding. |
| HeaderSearch.RunIntendedKeepsConsistent | components/Header.tsx:48-97 | With the intended effect, the same holds over any sequence of events. |
| HeaderSearch.SpinnerAlwaysAwaitsAnswerIntended | components/Header.tsx:138-141 | With the intended effect, from the opening state, whenever "Searching..." shows, a search is still coming. |
| HeaderSearch.BlankQuerySpinsForever | components/Header.tsx:49-52 | As written: typing "a" then replacing it with a space before the debounce ends leaves "Searching..." showing with nothing left to answer. |
| HeaderSearch.BlankAfterTypingSpins | components/Header.tsx:49-52 | As written: from an idle focused box, any non-blank query replaced by a blank one before its debounce ends leaves "Searching..." showing with nothing outstanding, for good. |
| HeaderSearch.BlankAfterTypingIntended | components/Header.tsx:49-52 | With the intended effect, the same sequence shows the no-results line and keeps the header consistent. |
| HeaderSearch.BlankQueryIntendedShowsNoResults | components/Header.tsx:49-52 | With the intended effect, the same keystrokes show the no-results line. |
| Analytics.MonthTotal | components/GlobalAnalytics.tsx:26-29 | The reduce over the five subsidiaries equals the sum of their five figures, leaving out `amt`. |
| Analytics.MonthTotalIgnoresAmt | components/GlobalAnalytics.tsx:24-28 | The `amt` column and the month's name do not affect the total. |
| Analytics.TotalRevenueData | components/GlobalAnalytics.tsx:26-29 | One point per month, named as the month, with the five-subsidiary sum. |
| Analytics.YearToDate | components/GlobalAnalytics.tsx:31-32 | The estimate is the last month's total times the number of months. |
| Analytics.YearToDateExactForSteadyMonths | components/GlobalAnalytics.tsx:31-32 | When every month earned what the last did, the estimate equals the true sum of the months. |
| Analytics.BestIndex | components/GlobalAnalytics.tsx:35-36 | Finds the earliest position holding the largest figure. |
| Analytics.TopPerformerIsEarliestBest | components/GlobalAnalytics.tsx:34-36 | The first entry after a stable descending sort is the earliest subsidiary with the largest figure. |
| Analytics.EscanTops | components/GlobalAnalytics.tsx:34-36 | A month in which ESCAN earned strictly the most is topped by ESCAN. |
| Analytics.FixtureTopPerformer | components/GlobalAnalytics.tsx:34-36 | ESCAN tops the shipped chart's last month, with 5100. |
| Analytics.TotalsIgnoreEarlierMonths | components/GlobalAnalytics.tsx:38-41 | The subscription and user counts read only the last entry of their series: prepending any earlier months changes neither. |
| Analytics.FixtureFigures | components/GlobalAnalytics.tsx:23-50 | On the shipped data, `YearToDate` gives 129430 estimated revenue, `TotalSubscriptions` (the last month's free, pro and business subscribers) gives 42800, and `TotalUsers` (the last user-growth point) gives 245301. |
| Dashboard.MetricsTick | components/Dashboard.tsx:72-77 | Revenue grows by less than 500, users by 0 to 9, subscriptions by 0 to 4. Activity ends up in [80, 99.9], and moves by at most 0.1 away from the clamps. |
| Dashboard.Jitter | components/Dashboard.tsx:85 | A chart figure ends up at least 1000, and within 100 of its old value when that was well above 1000. |
| Dashboard.ChartTick | components/Dashboard.tsx:80-90 | Only the last month's five subsidiary columns move, each kept at least 1000. The name, `amt` and earlier months stay. |
| Dashboard.NewNotification | components/Dashboard.tsx:31-47 | A notification gets the id "notif-"+stamp and the timestamp "Just now", and names one of the five subsidiaries. |
| Dashboard.FeedTick | components/Dashboard.tsx:93-95 | With a draw above 0.6, a new entry goes on top and the feed is cut to four entries. Otherwise it is unchanged. |
| Dashboard.KpiTick | components/Dashboard.tsx:98-102 | The KPIs stay at least 5, 2 and 80, and each moves within its drift bound. |
| Dashboard.BarChange | components/Dashboard.tsx:108 | A bar changes by a whole amount in [-100, 99]. |
| Dashboard.PerformanceTick | components/Dashboard.tsx:105-110 | Bars keep their names, never fall below 2000, and move within [-100, 99] above the floor. |
| Dashboard.UserGrowthTick | components/Dashboard.tsx:113-119 | Only the last point moves, gaining 0 to 499 users. |
| Dashboard.TickKeepsBounds | components/Dashboard.tsx:69-121 | A tick keeps activity within its clamps, the feed at four entries or fewer, and the KPI and bar floors. |
| Dashboard.RunKeepsBounds | components/Dashboard.tsx:69-124 | Over any run the bounds hold, and revenue, users and subscriptions never fall. |
| VoidAi.KeyChar | VoidAiControl.tsx:9 | A draw gives its first base-36 digit. A draw of exactly zero gives nothing. |
| VoidAi.KeyChars | VoidAiControl.tsx:9 | At most one base-36 digit per draw. |
| VoidAi.Digits | VoidAiControl.tsx:9 | The digits of the non-zero draws are all below 36. |
| VoidAi.GenerateApiKey | VoidAiControl.tsx:9 | The key is "vd_sk_" followed by at most twenty base-36 digits. |
| VoidAi.DigitValue | VoidAiControl.tsx:9 | Reads a base-36 digit back to its value. |
| VoidAi.KeyCharsDecode | VoidAiControl.tsx:9 | Reading the key's digits back gives the digit of every non-zero draw, in order. |
| VoidAi.GenerateApiKeyDecodes | VoidAiControl.tsx:9 | The generated key decodes to its draws' digits. |
| VoidAi.FullKeyIffNoZeroDraw | VoidAiControl.tsx:9 | The key has twenty digits iff no draw was zero. |
| VoidAi.Swing | VoidAiControl.tsx:22-23 | `floor(random * 2h - h)` lies in [-h, h-1]. |
| VoidAi.MetricsTick | VoidAiControl.tsx:19-27 | Active users move within [-10, 9]. Requests never go below 5000, and move within [-50, 49] above it. |
| VoidAi.Initial | VoidAiControl.tsx:12-17 | The screen opens on Pro, with no pending plan and a well-formed key. |
| VoidAi.SelectPlanClicked | VoidAiControl.tsx:81 | The current plan's button does nothing. Any other button asks to confirm that plan. |
| VoidAi.ConfirmPlan | VoidAiControl.tsx:29-33 | With a plan waiting, it becomes current and the dialog closes. Otherwise nothing changes. |
| VoidAi.CancelPlan | VoidAiControl.tsx:50 | The dialog's plan is forgotten, and the current plan and key stay. |
| VoidAi.RegenerateKey | VoidAiControl.tsx:35-38 | A fresh key replaces the old one and the dialog closes. The plan is unaffected. |
| VoidAi.StepKeepsConsistent | VoidAiControl.tsx:11-44 | Every event keeps these facts: the current plan is a tier; a waiting plan is another tier; the key is well formed; requests stay at 5000 or above. |
| VoidAi.RunKeepsConsistent | VoidAiControl.tsx:11-44 | The same holds over any sequence of events. |
| VoidAi.InitialConsistent | VoidAiControl.tsx:12-17 | The opening screen is consistent whenever Pro is a tier. |
| VoidAi.SelectThenConfirmOrCancel | VoidAiControl.tsx:29-33 | Choosing another tier then confirming switches to it. Cancelling instead keeps the plan and clears the dialog. |
| VoidAi.FixtureTiers | constants.tsx:47-52 | The shipped tiers are named, and Pro is one of them. |
| Fixtures.NavItemsMatchViews | constants.tsx:5-23 | One menu entry per screen, in screen order, labelled with the screen's name, with no duplicates. |
| Fixtures.OneProcessingOrder | constants.tsx:33-38 | Exactly one mock order, ORD-002, is processing. |
| Fixtures.MockEbookAveragePrices | constants.tsx:60-64 | The published mock ebooks average 9.90 and 9.99. |
| Types.ViewNameInjective | constants.tsx:5-13 | Screens have distinct names. |
| Text.TrimEmptyIffBlank | components/WordsControl.tsx:83-84 | `trim()` gives "" exactly for strings of white space. |
| Text.TrimIdempotent | components/WordsControl.tsx:83-84 | Trimming twice equals trimming once. |
| Text.CodeUnits | BeokControl.tsx:281 | A BMP character is one code unit holding its code point; any other is a lead and a trail surrogate from which its code point is recovered. |
| Text.Utf16Injective | BeokControl.tsx:281 | Distinct strings have distinct UTF-16 encodings. |
| Text.StrLessTotal | BeokControl.tsx:281 | Any two distinct strings are ordered one way or the other by `<`. |
| Text.CharOrder | BeokControl.tsx:281 | `<` follows code points between BMP characters, but puts any character beyond the BMP before the BMP characters from E000 up. |
| Text.EmojiBeforeFullwidthTilde | BeokControl.tsx:281 | "\u{1F600}" sorts before "\u{FF5E}" under `<`, although its code point is larger. |

## Left out

- Rendering, icons, CSS classes, animations, and the open/closed flags of the edit and confirmation modals are not modelled. The `touched`/blur bookkeeping that decides when an error is displayed is also left out; validation itself is modelled.
- Timers, intervals and promise latency are replaced by explicit events. The dashboard's interval is mounted once, and the unmount cleanup is not modelled.
- `Math.random()` draws become parameters, and only their range is assumed. `Date.now()` and `new Date()` become `stamp` and `today` parameters.
- `fileToBase64` and the `FileReader` are not modelled. Images are the strings the reader would produce, and a file is its name and size.
- `toLowerCase()` is modelled on ASCII letters only. Non-ASCII letters such as "Ó" are left as they are.
- JavaScript doubles are modelled as exact reals. Rounding in revenue sums, averages and drifts is not modelled.
- The sort comparator on a column that mixed numbers and strings is not modelled. No table column does mix them; numbers are placed first only to make the order total.
- Number and currency formatting (`formatNumber`, `formatCurrency`, `toFixed`, `toLocaleString`) is not modelled, nor are notification texts with their random amounts.
- The clipboard write in `copyApiKey` is not modelled; only the copied indicator is.
- The header's 100 ms focus delay after opening the mobile search is not modelled.
- The palette's debounce effect also fires when closing resets the query to "". The answer can then arrive while the palette is closed, and `ResultsArrived` accepts it in any state. The model does not single out that case.
- The Gemini-backed assistant, `services/geminiService.ts`, is not part of this model, nor are the sidebar, notification panel, quick actions, profile modal or chart components.
- Analytics.YearToDate: requires a non-empty chart. The page reads the last month unguarded and would throw on an empty one. The same holds for Analytics.TotalSubscriptions and Analytics.TotalUsers.
- VoidAi.Swing: requires a positive half-width. The source only uses 10 and 50.
- Beok.OrderTickShipsOne: assumes unique order ids. Without them, `findIndex` can pick an earlier order with the same id; `Beok.OrderTick` models that case as written.
- Beok.StockTickBounds: the upper bound of +4 is stated only for a non-negative starting stock.
- Uploads.EditsKeepCap: assumes each batch of chosen files is read and appended before the next edit. The source checks the cap before awaiting the read, so overlapping batches can exceed five (`Uploads.OverlappingBatchesExceedCap`).
- Uploads.AfterBatch: the same one-batch-at-a-time assumption as `Uploads.EditsKeepCap`.
- Words.UploadedImagesNeverTooMany: holds only when upload batches do not overlap, as for `Uploads.EditsKeepCap`. Overlapping batches do trip the error (`Words.OverlappingUploadsTripImageError`).

## Findings

| source | as written | input that shows it | evidently intended | confidence | as-written member | corrected member |
|---|---|---|---|---|---|---|
| BeokControl.tsx:121 | The submit handler calls stock > 40 "In Stock", so exactly 40 is "Low Stock". The stock simulation (lines 237-239) calls 40 "In Stock". | Submit a product with stock 40: it is saved as "Low Stock", and the next tick that touches it turns it into "In Stock" without its stock changing. | One rule for both, with 40 or more in stock. | medium, not executed | Beok.EditAt40Demotes | Beok.EditRoundTripIntended |
| components/Header.tsx:49-52 | A blank query clears the results and cancels the debounce timer, but never turns the spinner off. | Focus the search box, type "a", and within 300 ms replace it with a space. "Searching..." then shows with no search pending or in flight. | Turn the spinner off for a blank query too, so that the spinner shows only while an answer is awaited. | medium, not executed | HeaderSearch.BlankQuerySpinsForever | HeaderSearch.RunIntendedKeepsConsistent |
| BeokControl.tsx:86-92 | The image cap is checked against the pictures shown before the files are read, and the batch is appended after the read. A batch still being read is not counted. The same code is at components/WordsControl.tsx:117-123. | On an empty form choose three files, then choose three more before the first three are read (large files read slowly). Both batches pass, and six pictures are shown. | Count the pictures still being read against the cap, so the list never exceeds five. | low, not executed | Uploads.OverlappingBatchesExceedCap | Uploads.UploadRunIntendedKeepsCap |
