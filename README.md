# rep-navigator, modelled in Dafny

rep-navigator is a field-sales itinerary tracker. Sales representatives
("reps") do four things each working day:

- record the start and end odometer readings;
- record visits to shops, each with one or more outcome tags and a GPS fix;
- record fuel fills;
- browse the history of their earlier days.

Administrators and managers manage users and shops. They import shops from
a spreadsheet or a pipe-separated table, and they produce a monthly
"running chart" report.

All persistent state lives in a hosted backend. This project models the
logic that sits between the backend calls:

- validation and guards;
- list updates and reconciliation;
- the chunked batch loops;
- the report arithmetic and the layout rules of the printed grid;
- paging;
- the routing decisions.

Every backend answer is an input of the model. Fetched rows are sequences.
A write is `BackendResult` (`Ok` or `Failed(message)`), or `InsertResult`
(`Created(id)` or `InsertFailed(message)`) when the write returns a new row.
The failures of a chunked loop are a map from chunk index to error message.

Form fields hold text in the application. The model holds what the
component's own parse makes of it: `Reading = Blank | NotANumber | Num(v)`.
Odometer readings are `nat`. Distances and litres are `real`.

How the modules relate:

- **Libraries.**
  - `Domain` holds the rows and enumerations.
  - `Text` holds JavaScript string operations on `seq<char>`.
  - `OrderedSet` holds insertion-ordered JavaScript `Set`s, as sequences without duplicates.
  - `Calendar` holds ISO dates and month windows.
  - `Chunks` holds the fixed-size batch loop.
- **Components and pages.** One module per source component or page, named
  after it. Where the component keeps state that its handlers update, that
  state is a class. The handlers are methods, specified against the
  functions of the module.

## Model

| member | source | states |
|---|---|---|
| Domain.OutcomeTag | src/integrations/supabase/types.ts:257 | each visit outcome is stored as a non-empty tag that contains no comma |
| Domain.OutcomeTagInjective | src/integrations/supabase/types.ts:257 | distinct outcomes have distinct tags, so a tag names exactly one outcome |
| Domain.NonEmpty | src/components/admin/UserManagement.tsx:134-135 | `x \|\| null` on text gives null exactly for the empty string and keeps any other text unchanged |
| Text.Trim | src/components/admin/ShopManagement.tsx:250-253 | `trim()` returns a string no longer than the input that neither starts nor ends with white space |
| Text.TrimIsSlice | src/components/admin/ShopManagement.tsx:250-253 | the trimmed string is a slice of the input, and only white space is cut off before and after it |
| Text.TrimIdempotent | src/components/admin/ShopManagement.tsx:250-253 | trimming twice gives the same result as trimming once |
| Text.TrimEmptyIffAllSpace | src/components/rep/StartDayCard.tsx:41-45 | a trimmed value is empty exactly when every character of the input is white space |
| Text.Lower | src/components/admin/ShopManagement.tsx:252 | `toLowerCase()` keeps the length and lowers every ASCII capital letter, position by position |
| Text.Split | src/components/rep/ShopList.tsx:134-135 | `split(c)` yields at least one part, and no part contains the separator |
| Text.SplitJoin | src/components/rep/ShopList.tsx:133-167 | splitting a join of comma-free parts returns exactly those parts |
| Text.Truncate | src/lib/bulkImport.ts:17 | `slice(0, n)` is the prefix of length min(length, n) |
| Text.LeadingDigits | supabase/functions/bulk-import-shops/index.ts:14 | the length of the leading run of decimal digits: all earlier characters are digits and the next one is not |
| Text.Decimal | src/lib/bulkImport.ts:36 | a number is written as a non-empty string of decimal digits that denote exactly that number, with a leading zero only for 0 itself |
| OrderedSet.Add | src/components/rep/ShopList.tsx:66-76 | `Set.add` appends a new element at the end, leaves an existing one in place and keeps the elements distinct |
| OrderedSet.Remove | src/components/rep/ShopList.tsx:66-76 | `Set.delete` removes exactly that element, shortening a duplicate-free set by one when the element was there and changing nothing when it was not |
| OrderedSet.RemoveAt | src/components/rep/ShopList.tsx:66-76 | in a duplicate-free set the element at position i is taken out of exactly that position; the elements before and after it keep their order |
| OrderedSet.RemoveAppend | src/components/rep/ShopList.tsx:66-76 | deleting from a concatenation deletes from each part, so the remaining elements keep their order |
| OrderedSet.FromSeq | src/components/rep/ShopList.tsx:134-135 | `new Set(xs)` holds the same elements as xs without duplicates, starts with the first element of xs, and leaves a duplicate-free xs unchanged |
| OrderedSet.FromSeqSnoc | src/components/rep/ShopList.tsx:134-135 | `new Set([...xs, x])` is `new Set(xs)` followed by `add(x)`, so every element stands where it first occurs |
| OrderedSet.ToggleTwice | src/components/admin/ShopManagement.tsx:90-95 | flipping one id twice restores the set's elements |
| Calendar.BeforeTransitive | src/hooks/useRepWorkflow.ts:56-60 | the ISO order on dates is transitive |
| Calendar.NotAfterTransitive | src/hooks/useRepWorkflow.ts:56-60 | the not-after order on dates is transitive |
| Calendar.Total | src/components/rep/FuelLogCard.tsx:59-66 | any two dates are ordered one way or the other |
| Calendar.MonthWindow | src/components/admin/ReportsPanel.tsx:121-125 | the window of month M of year Y starts on Y-M-01 and ends on the first day of the next month; December rolls over to January of Y+1 |
| Calendar.PrevMonth | src/components/admin/ReportsPanel.tsx:127-128 | the month before January of Y is December of Y-1; otherwise Y and M-1 |
| Calendar.PrevMonthWindow | src/components/admin/ReportsPanel.tsx:127-129 | the previous month's window ends where this month's window starts |
| Calendar.MonthWindowExact | src/components/admin/ReportsPanel.tsx:121-125 | a valid date lies in the month window exactly when it has that year and month |
| Calendar.PrevMonthWindowExact | src/components/admin/ReportsPanel.tsx:127-129 | a valid date lies in the previous-month window exactly when it is in the previous month, January to December included |
| Calendar.NextThenPrev | src/components/admin/ReportsPanel.tsx:121-129 | the month before month M+1 has the same window as month M, across year ends too |
| Chunks.Run | src/components/admin/ShopManagement.tsx:108-118 | in a chunked loop every item ends up either succeeded or failed, so the two counts add up to the number of items |
| Chunks.RunAllSucceed | src/lib/bulkImport.ts:28-40 | with no failed chunk every item succeeds, in order, and there are no errors |
| Chunks.RunUnfold | src/components/admin/ShopManagement.tsx:108-118 | a run is its first chunk followed by the run over the rest, with the next chunk index |
| Chunks.RunOneFailure | src/components/admin/ShopManagement.tsx:108-118 | when only one chunk fails, exactly that chunk's items are failed and all the other items, before and after it, succeed |
| Chunks.FirstChunkFails | src/components/admin/ShopManagement.tsx:108-118 | a failing first chunk fails its items only; the loop goes on with the rest |
| Chunks.ShiftOneFailure | src/components/admin/ShopManagement.tsx:108-118 | a failure in a later chunk leaves the first chunk's items succeeded |
| Chunks.ThenAssoc | src/components/admin/ShopManagement.tsx:108-118 | accumulating tallies is associative, so the order of grouping chunks does not matter |
| Chunks.SendStep | src/components/admin/ShopManagement.tsx:108-118 | one turn of the loop moves exactly one chunk's tally from the pending part to the done part |
| Chunks.SendInChunks | src/components/admin/ShopManagement.tsx:102-118 | the loop's success count, failure count and error list are those of the chunked run, and the two counts add up to the number of items |
| ShopManagement.Entries | src/components/admin/ShopManagement.tsx:235 | the name map has one entry per rep, in list order, keyed by the trimmed lower-case name |
| ShopManagement.LookupLast | src/components/admin/ShopManagement.tsx:235-255 | an exact lookup finds nothing exactly when no rep has that key, and otherwise returns the id of a rep with that key |
| ShopManagement.LookupLastIsLast | src/components/admin/ShopManagement.tsx:235-255 | for a repeated key the map holds the last rep with that key, because a later set overwrites |
| ShopManagement.FirstFuzzy | src/components/admin/ShopManagement.tsx:258-266 | the fuzzy scan stops at the first key, in insertion order, that is longer than 3 and contains, or is contained in, the name |
| ShopManagement.ResolveRep | src/components/admin/ShopManagement.tsx:252-266 | a usable exact match wins; otherwise an empty name gives null; otherwise a name resolves exactly when some key passes the fuzzy test; any result is a rep's id |
| ShopManagement.FuzzyFirstInListOrder | src/components/admin/ShopManagement.tsx:258-266 | without an exact match, the first rep in list order whose key passes the fuzzy test is chosen |
| ShopManagement.ResolveEmptyName | src/components/admin/ShopManagement.tsx:252-266 | an empty rep name resolves to null when no rep's trimmed name is empty |
| ShopManagement.ResolveEmptyNameToBlankRep | src/components/admin/ShopManagement.tsx:252-255 | a rep whose name is only white space has the empty key, so an empty rep name resolves to that rep |
| ShopManagement.FirstPresent | src/components/admin/ShopManagement.tsx:273-282 | a row's value is the first non-empty value among the candidate column names; it is empty exactly when all of them are empty or absent |
| ShopManagement.BpMap | src/components/admin/ShopManagement.tsx:236-239 | the keys are exactly the lower-cased, trimmed BP codes of the shops that have one, and each entry is a shop with that code |
| ShopManagement.BpMapLastWins | src/components/admin/ShopManagement.tsx:236-239 | a later `set` overwrites an earlier one: under each code sits the last shop in list order with that code |
| ShopManagement.BuildBpMap | src/components/admin/ShopManagement.tsx:236-239 | the loop builds exactly the BP-code map of the shops |
| ShopManagement.Reassigned | src/components/admin/ShopManagement.tsx:291-302 | a matched shop is queued with all its fields as they are except its rep, which becomes the resolved rep, or stays as it was when nothing resolved |
| ShopManagement.Classify | src/components/admin/ShopManagement.tsx:285-315 | a row is an update exactly when its code matches a shop not yet queued, a skipped duplicate when that shop is already queued, and an insert exactly when its code matches nothing and it has a name; an insert carries the resolved rep and the code or null |
| ShopManagement.Views | src/components/admin/ShopManagement.tsx:250-282 | each row is read in the same way, in row order |
| ShopManagement.Ids | src/components/admin/ShopManagement.tsx:288-289 | the ids of the queued shops, one per shop, in order |
| ShopManagement.StepConsistent | src/components/admin/ShopManagement.tsx:268-315 | one row keeps the invariants: each count equals its list's length, the counts add up to at most the rows seen, the unmatched names and queued ids are distinct, the processed set is the set of queued ids, queued shops come from the existing shops, and inserted shops have names |
| ShopManagement.ReconcileConsistent | src/components/admin/ShopManagement.tsx:284-315 | after all rows the invariants hold, so updated+inserted never exceeds the number of rows |
| ShopManagement.UnmatchedExactly | src/components/admin/ShopManagement.tsx:268-270 | a name ends up in the unmatched set exactly when some row names it and it resolved to nothing usable, duplicates included |
| ShopManagement.DuplicateCodeIgnored | src/components/admin/ShopManagement.tsx:288-289 | a row reaching an already queued shop changes nothing except the unmatched names |
| ShopManagement.ReconcileSnoc | src/components/admin/ShopManagement.tsx:284-315 | processing one more row is one more step on the result so far |
| ShopManagement.StepIs | src/components/admin/ShopManagement.tsx:268-315 | the updates the loop body makes to its accumulators amount to one step of the reconciliation |
| ShopManagement.ApplyRow | src/components/admin/ShopManagement.tsx:268-315 | the loop body's effect on the accumulators is one reconciliation step |
| ShopManagement.ProcessRows | src/components/admin/ShopManagement.tsx:249-316 | the row loop computes the reconciliation of all rows, in order |
| ShopManagement.ErrorMessage | src/components/admin/ShopManagement.tsx:319-330 | there is an error exactly when a non-empty upsert or a non-empty insert failed |
| ShopManagement.Feedback | src/components/admin/ShopManagement.tsx:227-350 | an empty file, a failure, nothing to import, or a report of the updated and added counts; the report shows at most three missing rep names and counts the rest |
| ShopManagement.FilteredShops | src/components/admin/ShopManagement.tsx:70-74 | "all" keeps every shop in order; "unassigned" keeps exactly the shops without a rep; any other value keeps exactly the shops of that rep |
| ShopManagement.FilterAppend | src/components/admin/ShopManagement.tsx:70-74 | the filter keeps list order and repeats: filtering a concatenation filters each part |
| ShopManagement.ShopAdmin.constructor | src/components/admin/ShopManagement.tsx:32-38 | the screen starts with the filter on "all", no selection and the import dialog closed |
| ShopManagement.ShopAdmin.ToggleSelectAll | src/components/admin/ShopManagement.tsx:76-88 | when every filtered shop is selected, exactly the filtered ids are removed; otherwise they are added; ids outside the filter stay; nothing else changes |
| ShopManagement.ShopAdmin.ToggleSelectShop | src/components/admin/ShopManagement.tsx:90-95 | a selected id is taken out of its place, the others keeping their order; an unselected one is appended; nothing else changes |
| ShopManagement.ShopAdmin.FetchData | src/components/admin/ShopManagement.tsx:44-62 | the shops become the list the query returns, or none without an answer; filter, selection and dialog stay as they were |
| ShopManagement.ShopAdmin.BulkDelete | src/components/admin/ShopManagement.tsx:97-129 | nothing happens without a selection or a confirmation; otherwise the selection is deleted in chunks of 20, the counts are those of the chunked run and add up to the selection size, the selection is cleared and the shops are reloaded |
| ShopManagement.ShopAdmin.BulkUnassign | src/components/admin/ShopManagement.tsx:131-160 | the same, with chunks of 50: nothing happens without a selection or a confirmation; otherwise the counts are those of the chunked run, the selection is cleared and the shops are reloaded |
| ShopManagement.Import | src/components/admin/ShopManagement.tsx:226-352 | an empty file queues nothing; otherwise the queued writes are the reconciliation of the rows against the shops' BP codes, and the outcome follows from them and from the backend answers |
| ShopManagement.ShopAdmin.CloseImport | src/components/admin/ShopManagement.tsx:346-347 | after a successful import the dialog closes and the filter shows every shop again; the shops and the selection stay as they were |
| ShopManagement.ShopAdmin.ProcessData | src/components/admin/ShopManagement.tsx:226-352 | the queued writes are the reconciliation of the rows against the shops on screen, the outcome follows from them and from the backend answers, and only a successful import resets the filter to "all", closes the dialog and reloads the shops |
| ShopManagement.SecondDeleteChunkFails | src/components/admin/ShopManagement.tsx:102-118 | deleting 45 shops with a failing second chunk reports 25 succeeded and exactly the 20 ids of that chunk as failed |
| ReportsPanel.ReportWindows | src/components/admin/ReportsPanel.tsx:119-129 | no report without a rep and a month; otherwise the month window, and a previous window that ends where the month starts |
| ReportsPanel.JanuaryReport | src/components/admin/ReportsPanel.tsx:121-129 | January's report covers Y-01-01 to Y-02-01 and looks back to December of Y-1 |
| ReportsPanel.KmsRun | src/components/admin/ReportsPanel.tsx:166-167 | the distance of a day is end minus start when both readings are present, and blank otherwise |
| ReportsPanel.DayVisits | src/components/admin/ReportsPanel.tsx:164 | a day's visits are exactly the fetched visits of that log, each taken from the fetched list |
| ReportsPanel.DayVisitsAppend | src/components/admin/ReportsPanel.tsx:164 | a day's visits keep the fetched order: those of a concatenation are those of each part, in turn |
| ReportsPanel.DayRows | src/components/admin/ReportsPanel.tsx:170-182 | a day without visits gives one "No visits" row; otherwise there is one row per visit, in order; only the first row carries the date, the readings and the distance |
| ReportsPanel.RowCount | src/components/admin/ReportsPanel.tsx:160-184 | the itinerary has the sum over the days of max(1, visits) rows, so at least one per day |
| ReportsPanel.CountAttachedAdd | src/components/admin/ReportsPanel.tsx:164-173 | adding one log id adds exactly that log's visits to the attached count |
| ReportsPanel.CountAttachedAll | src/components/admin/ReportsPanel.tsx:173 | when every visit belongs to a listed log, all of them are counted |
| ReportsPanel.VisitTotalCountsAttached | src/components/admin/ReportsPanel.tsx:160-184 | with distinct log ids, the visit total counts each visit attached to one of the logs exactly once |
| ReportsPanel.CountAttachedNone | src/components/admin/ReportsPanel.tsx:173 | with no logs no visit is counted |
| ReportsPanel.TotalVisitsIsFetched | src/components/admin/ReportsPanel.tsx:143-230 | when the visits were fetched by the month's log ids, the visit total equals the number of visits fetched |
| ReportsPanel.PushDayRows | src/components/admin/ReportsPanel.tsx:170-182 | the loop body appends exactly one day's rows and counts that day's visits |
| ReportsPanel.BuildRows | src/components/admin/ReportsPanel.tsx:160-184 | the day loop builds the itinerary rows of all days, in order, and counts the visits |
| ReportsPanel.FuelRows | src/components/admin/ReportsPanel.tsx:187-195 | one fuel row per fuel log, in order, with that log's fields |
| ReportsPanel.TotalKms | src/components/admin/ReportsPanel.tsx:198-202 | this month's end reading minus last month's end reading, or minus the month's first start reading when there is none; 0 without an end reading or an anchor |
| ReportsPanel.LitersSplit | src/components/admin/ReportsPanel.tsx:207 | the litres add up over consecutive parts of the fills |
| ReportsPanel.SumsSplit | src/components/admin/ReportsPanel.tsx:203-204 | the personal and official sums add up over consecutive parts of the month |
| ReportsPanel.MissingPersonalIsZero | src/components/admin/ReportsPanel.tsx:203 | missing personal distances count as 0 |
| ReportsPanel.MakeSummary | src/components/admin/ReportsPanel.tsx:198-231 | the summary holds this month's last end reading, the previous month's end reading, the distance between them, the personal, official and litre sums of the month, the number of days and the visit count; the km per litre and personal litres are blank exactly when litres (or the distance) are not positive, and otherwise solve their defining ratios |
| ReportsPanel.Telescope | src/components/admin/ReportsPanel.tsx:198-202 | on days that continue each other's readings, the days' distances add up to the last end reading minus the first start reading |
| ReportsPanel.TotalKmsDecomposition | src/components/admin/ReportsPanel.tsx:198-202 | the month's distance is the sum of the days' distances plus the gap between the anchor and the first start reading |
| ReportsPanel.TotalKmsIsSumOfRuns | src/components/admin/ReportsPanel.tsx:198-202 | when the month starts where last month ended, the month's distance is the sum of the days' distances |
| ReportsPanel.PadRows | src/components/admin/ReportsPanel.tsx:341-343 | the table keeps its rows and is padded with blank rows to max(rows + 3, 10) |
| ReportsPanel.FuelGrid | src/components/admin/ReportsPanel.tsx:371-379 | the DATE, MR and LTRS rows have a label and 12 slots; slot i shows the i-th fuel log, later slots are empty, and logs beyond the twelfth are not printed |
| ReportsPanel.Printed | src/components/admin/ReportsPanel.tsx:428-433 | a summary value is printed exactly when it is positive |
| ReportsPanel.SummaryCells | src/components/admin/ReportsPanel.tsx:427-434 | the eight summary cells, in order; the six readings and totals are printed only when positive, and the two ratios as they are |
| ReportsPanel.EmptyMonthPrintsNothing | src/components/admin/ReportsPanel.tsx:198-204 | a month without logs has no end reading, distance, official or personal total, or personal litres, so the summary row (lines 428-434) prints none of them |
| RepWorkflow.OfficialKm | src/hooks/useRepWorkflow.ts:150 | the official distance is never negative; it is end - start - personal when that is not negative, and 0 otherwise; a missing start counts as 0 |
| RepWorkflow.OfficialPlusPersonal | src/hooks/useRepWorkflow.ts:150 | when the personal distance is within the day's distance, official plus personal is the day's distance |
| RepWorkflow.InsertPos | src/hooks/useRepWorkflow.ts:215-217 | a new fuel log goes after every log not later than it and before the later ones |
| RepWorkflow.InsertByDate | src/hooks/useRepWorkflow.ts:215-217 | adding a fuel log yields the old logs plus the new one, as a permutation |
| RepWorkflow.InsertKeepsOrder | src/hooks/useRepWorkflow.ts:215-217 | a list sorted by fill date stays sorted after the addition |
| RepWorkflow.InsertIsStable | src/hooks/useRepWorkflow.ts:215-217 | the other logs keep their relative order, and the new log comes after every log of its date, as a stable sort of the appended list would place it |
| RepWorkflow.RemoveById | src/hooks/useRepWorkflow.ts:227 | deleting removes exactly the logs with that id and keeps every other log; an unknown id changes nothing |
| RepWorkflow.RemoveKeepsOrder | src/hooks/useRepWorkflow.ts:227 | a list sorted by fill date stays sorted after a deletion |
| RepWorkflow.RemoveByIdAppend | src/hooks/useRepWorkflow.ts:227 | the delete keeps the other entries in their order and with their repeats: deleting from a concatenation deletes from each part |
| RepWorkflow.UpdateById | src/hooks/useRepWorkflow.ts:250-252 | only visits with the matching id get the new outcome and note; every other visit is unchanged |
| RepWorkflow.UpdateUnknownId | src/hooks/useRepWorkflow.ts:250-252 | an unknown visit id leaves the list unchanged |
| RepWorkflow.FuelWindow | src/hooks/useRepWorkflow.ts:56-60 | a valid date lies in the fuel window exactly when it is in today's month |
| RepWorkflow.Workflow.constructor | src/hooks/useRepWorkflow.ts:43-50 | the hook starts loading, with no log, shops, visits or fuel logs |
| RepWorkflow.Workflow.FetchTodayData | src/hooks/useRepWorkflow.ts:52-103 | without a user nothing happens; otherwise the fuel window is this month and the state becomes today's log, its visits (none without a log), the assigned shops and the month's fuel logs |
| RepWorkflow.Workflow.StartDay | src/hooks/useRepWorkflow.ts:109-143 | no log is created without a user, when a given vehicle number fails to save, or when the insert fails; otherwise today's log is started with the start reading |
| RepWorkflow.Workflow.EndDay | src/hooks/useRepWorkflow.ts:145-166 | without a user, without today's log or on a failed update nothing changes; otherwise the log gets the end reading, the personal distance and the official distance, and becomes completed |
| RepWorkflow.Workflow.RecordVisit | src/hooks/useRepWorkflow.ts:168-196 | without a user, without today's log or on a failed insert the visits are unchanged; otherwise the new visit is put in front |
| RepWorkflow.Workflow.AddFuelLog | src/hooks/useRepWorkflow.ts:198-219 | on success the new fuel log is inserted by date, keeping the list sorted; otherwise nothing changes |
| RepWorkflow.Workflow.DeleteFuelLog | src/hooks/useRepWorkflow.ts:221-229 | on success exactly the logs with that id are removed; otherwise nothing changes |
| RepWorkflow.Workflow.UpdateVisit | src/hooks/useRepWorkflow.ts:231-254 | on success only the matching visit changes; otherwise nothing changes |
| EndDayCard.StartOf | src/components/rep/EndDayCard.tsx:26 | a missing start reading counts as 0 |
| EndDayCard.ValidateEnd | src/components/rep/EndDayCard.tsx:30-40 | an end reading is accepted exactly when it is a whole number above the start and at most 999999; each rejection holds exactly when its check is the first to fail (blank, not a number, negative, fractional, above 999999, equal to the start, below the start) |
| EndDayCard.ValidatePersonal | src/components/rep/EndDayCard.tsx:42-50 | nothing is checked with the toggle off or a blank field; otherwise a personal distance is accepted exactly when it is a number from 0 up to and including end - start |
| EndDayCard.PersonalVal | src/components/rep/EndDayCard.tsx:27-28 | the personal distance is 0 with the toggle off or without a number, and the number otherwise |
| EndDayCard.TotalKm | src/components/rep/EndDayCard.tsx:63-64 | the previewed total is end - start, and positive, on a valid form, and 0 otherwise |
| EndDayCard.OfficialKm | src/components/rep/EndDayCard.tsx:65 | the previewed official distance is `Math.max(0, total - personal)`: never negative, at least total - personal, and equal to one of the two |
| EndDayCard.PreviewBounds | src/components/rep/EndDayCard.tsx:63-65 | on a valid form 0 <= official <= total, and official + personal = total |
| EndDayCard.HandleEnd | src/components/rep/EndDayCard.tsx:67-83 | an end-reading error is shown first; otherwise a personal error; the day is ended exactly when both checks pass, with the whole end reading and the personal distance |
| EndDayCard.StoredMatchesPreview | src/components/rep/EndDayCard.tsx:63-83 | the official distance stored when ending the day equals the one previewed |
| EndDayCard.AcceptedEndIsValidStart | src/components/rep/EndDayCard.tsx:30-40 | an accepted end reading would also be accepted as the next day's start reading |
| StartDayCard.ValidateMeter | src/components/rep/StartDayCard.tsx:26-34 | a start reading is accepted exactly when it is a whole number from 0 to 999999; blank, non-numeric, negative, fractional and too-high readings each have their own error |
| StartDayCard.StartForm.constructor | src/components/rep/StartDayCard.tsx:14-18 | the form starts blank and without errors, with the profile's vehicle number or empty |
| StartDayCard.StartForm.SyncInitialVehicle | src/components/rep/StartDayCard.tsx:20-24 | a non-empty profile vehicle number replaces the field; otherwise the field stays |
| StartDayCard.StartForm.HandleMeterChange | src/components/rep/StartDayCard.tsx:36-39 | the field takes the new value, and an error already shown is computed again |
| StartDayCard.StartForm.HandleVehicleChange | src/components/rep/StartDayCard.tsx:41-45 | the vehicle error is shown exactly when the trimmed vehicle number is empty |
| StartDayCard.StartForm.HandleStart | src/components/rep/StartDayCard.tsx:47-64 | both errors are computed; the day is started exactly when neither is set, with the whole reading and the vehicle number |
| FuelLogCard.ValidateMeter | src/components/rep/FuelLogCard.tsx:38-47 | a fuel meter reading is accepted exactly when it is a whole number from 1 to 999999; zero is rejected |
| FuelLogCard.ValidateLiters | src/components/rep/FuelLogCard.tsx:49-57 | litres are accepted exactly when 0 < litres <= 500 |
| FuelLogCard.ValidateDate | src/components/rep/FuelLogCard.tsx:59-66 | an empty date and a date after today are rejected, and nothing else is |
| FuelLogCard.FirstError | src/components/rep/FuelLogCard.tsx:84-94 | the toast shows the first error in the order date, meter, litres, and none exactly when all pass |
| FuelLogCard.FuelForm.constructor | src/components/rep/FuelLogCard.tsx:28-36 | the form starts closed, dated today, with blank fields and no errors |
| FuelLogCard.FuelForm.HandleMeterChange | src/components/rep/FuelLogCard.tsx:68-71 | the field takes the new value; its error is computed again only when one is shown; nothing else changes |
| FuelLogCard.FuelForm.HandleLitersChange | src/components/rep/FuelLogCard.tsx:73-76 | the same, for litres |
| FuelLogCard.FuelForm.HandleDateChange | src/components/rep/FuelLogCard.tsx:78-81 | the same, for the date |
| FuelLogCard.FuelForm.HandleSubmit | src/components/rep/FuelLogCard.tsx:83-110 | all three errors are computed; the fill is passed on exactly when all pass, with values in range; after a successful call the form closes and is cleared, and otherwise the fields are kept |
| ShopList.FilteredShops | src/components/rep/ShopList.tsx:57-64 | a shop is shown exactly when its name, town or code contains the lower-cased term, ignoring ASCII case |
| ShopList.SearchAppend | src/components/rep/ShopList.tsx:57-64 | the search keeps list order and repeats: searching a concatenation searches each part |
| ShopList.EmptySearchKeepsAll | src/components/rep/ShopList.tsx:57-64 | the empty term keeps every shop, in order |
| ShopList.VisitedIds | src/components/rep/ShopList.tsx:55 | a shop is marked visited exactly when some visit carries its id |
| ShopList.RecordMarksVisited | src/components/rep/ShopList.tsx:55 | recording a visit marks its shop visited (the mark shown at line 236) and changes no other mark |
| ShopList.EditTarget | src/components/rep/ShopList.tsx:283-285 | the visit to edit is the first visit, in list order, to that shop in the log of the list's first visit, and there is none when no such visit exists |
| ShopList.FindOn | src/components/rep/ShopList.tsx:283-285 | `find` returns the first visit with that shop and log, no earlier visit matching, or reports that there is none |
| ShopList.Decode | src/components/rep/ShopList.tsx:134-135 | a stored outcome decodes to a non-empty, duplicate-free list of comma-free tags holding exactly the comma-separated parts, the first part first |
| ShopList.DecodeEncode | src/components/rep/ShopList.tsx:133-167 | decoding the stored join of a selection gives back the same selection, in the same order |
| ShopList.EncodeOutcomes | src/components/rep/ShopList.tsx:167 | splitting the stored join of outcome tags on "," gives back those tags |
| ShopList.VisitDialog.constructor | src/components/rep/ShopList.tsx:41-52 | no dialog open, the selection is {just_visit}, an empty note, no GPS fix and no bypass |
| ShopList.VisitDialog.ToggleOutcome | src/components/rep/ShopList.tsx:66-76 | an absent tag is appended; a present tag is taken out of its place, the others keeping their order, only when more than one tag is selected; a non-empty selection therefore never becomes empty |
| ShopList.VisitDialog.OpenVisitDialog | src/components/rep/ShopList.tsx:125-152 | a new visit starts with {just_visit}, an empty note and no fix; an edit decodes the stored outcome, keeps the note, and keeps the old fix only when both coordinates are non-zero |
| ShopList.VisitDialog.ReceiveGps | src/components/rep/ShopList.tsx:78-123 | a location request ends with the fix it delivered, or none, and turns the bypass off |
| ShopList.VisitDialog.BypassGps | src/components/rep/ShopList.tsx:390 | "continue without GPS" turns the bypass on and changes nothing else |
| ShopList.VisitDialog.HandleCompleteVisit | src/components/rep/ShopList.tsx:154-184 | it is refused without a shop, without a fix or bypass, or with an empty selection; an edit updates the old visit; otherwise a new visit is recorded with the joined outcome, the note and the fix's latitude and longitude, or null for both without a fix; the dialog closes only after a call that did not throw |
| BulkImport.Columns | src/lib/bulkImport.ts:12 | a line's columns are its "\|"-separated parts, trimmed |
| BulkImport.Col | src/lib/bulkImport.ts:13-23 | a missing column reads as empty |
| BulkImport.ShopOf | src/lib/bulkImport.ts:16-24 | the name is column 7 cut to 255 characters; the codes and places come from columns 2, 3, 6, 14 and 10, with empty read as null; the shop is suspended exactly when column 8 is "Y" |
| BulkImport.LineShop | src/lib/bulkImport.ts:11-24 | a line gives a shop exactly when it starts with "\|" and its name is not empty, "BP Name" or dashes; the shop has a name of 1 to 255 characters |
| BulkImport.ParsedShops | src/lib/bulkImport.ts:10-25 | at most one shop per line |
| BulkImport.ParsedFromTableLines | src/lib/bulkImport.ts:10-25 | every parsed shop comes from some input line and has a name of 1 to 255 characters |
| BulkImport.ParsedAppend | src/lib/bulkImport.ts:10-25 | the shops of two runs of lines are the shops of each run, in line order, so a line contributes the same wherever it stands |
| BulkImport.NonTableLinesIgnored | src/lib/bulkImport.ts:11 | lines that do not start with "\|" add nothing |
| BulkImport.ParseLines | src/lib/bulkImport.ts:10-25 | the parse loop yields exactly the parsed shops of the lines, in order |
| BulkImport.Messages | src/lib/bulkImport.ts:36 | one "Batch i: message" entry per failed batch, in order |
| BulkImport.BulkImportShops | src/lib/bulkImport.ts:8-43 | the shops go in batches of 50; the inserted count is the total size of the accepted batches, and there is one error per failed batch |
| BulkImport.AllBatchesAccepted | src/lib/bulkImport.ts:28-42 | when no batch fails, every parsed shop is inserted and there are no errors |
| BulkImportFunction.StripLineNumber | supabase/functions/bulk-import-shops/index.ts:14 | stripping the line number never lengthens the line |
| BulkImportFunction.LineShop | supabase/functions/bulk-import-shops/index.ts:13-31 | a line gives a shop exactly when, after stripping its number, it starts with "\|" and its name column is not a skipped name; the shop follows the client's column mapping, and its name has 1 to 255 characters and is not "N" |
| BulkImportFunction.ParsedShops | supabase/functions/bulk-import-shops/index.ts:8-33 | at most one shop per line |
| BulkImportFunction.ParsedAppend | supabase/functions/bulk-import-shops/index.ts:8-33 | the server parser likewise distributes over concatenation of lines, in line order |
| BulkImportFunction.ParseLines | supabase/functions/bulk-import-shops/index.ts:8-33 | the parse loop yields exactly the parsed shops of the text's lines |
| BulkImportFunction.TrimStartSpaces | supabase/functions/bulk-import-shops/index.ts:14 | spaces before a non-space are removed by the strip |
| BulkImportFunction.NumberedLine | supabase/functions/bulk-import-shops/index.ts:14-15 | a "digits:" prefix followed by spaces is stripped, leaving the table row |
| BulkImportFunction.AgreesWithClient | supabase/functions/bulk-import-shops/index.ts:8-33 | on lines without a number prefix and without the name "N", the function parses exactly the shops the client does |
| BulkImportFunction.TableRowUnchanged | supabase/functions/bulk-import-shops/index.ts:14 | a line that already starts with "\|" is not changed by the strip |
| BulkImportFunction.Serve | supabase/functions/bulk-import-shops/index.ts:35-85 | a preflight is answered OK; a body without dataUrl gets 400 before any parsing; a malformed body gets 500 with its message; otherwise the report gives the parsed total, the total size of the accepted batches of 50, and one error per failed batch |
| DailyHistory.Bucket | src/components/rep/DailyHistory.tsx:87-90 | a bucket holds only visits of its log, taken from the input |
| DailyHistory.BucketEmpty | src/components/rep/DailyHistory.tsx:78-91 | a log's bucket is empty exactly when no visit carries its id |
| DailyHistory.BucketHasAll | src/components/rep/DailyHistory.tsx:87-90 | every visit lands in the bucket of its own log |
| DailyHistory.BucketAppend | src/components/rep/DailyHistory.tsx:87-90 | bucketing keeps the input order: the bucket of a concatenation is the bucket of the first part followed by that of the second |
| DailyHistory.GroupVisits | src/components/rep/DailyHistory.tsx:78-91 | the grouping loop builds one bucket per log that has visits, holding exactly that log's visits in input order |
| DailyHistory.History.constructor | src/components/rep/DailyHistory.tsx:33-38 | the history starts empty and loading, with paging switched on |
| DailyHistory.History.FetchPage | src/components/rep/DailyHistory.tsx:47-106 | the page range is [offset, offset+9]; without a user nothing changes; a short page ends paging; the first page replaces the logs and buckets, and later pages append logs and merge buckets, where new keys override old ones |
| DailyHistory.History.LoadMore | src/components/rep/DailyHistory.tsx:47-190 | "Load More" asks for the page at the current number of logs; without a user nothing changes; with logs shown it appends the page, merges the new buckets over the old ones, ends paging on a short page and keeps `loading`; with none shown it acts as a first page |
| DailyHistory.History.ResetFilter | src/components/rep/DailyHistory.tsx:108-114 | a filter change clears the logs and buckets, allows more pages, then fetches the first page: the logs are that page's and the buckets are that page's visits grouped by log |
| HistoryLogItem.TotalKm | src/components/rep/HistoryLogItem.tsx:29-31 | the day's distance is end - start when both readings are present and non-zero, and 0 otherwise |
| HistoryLogItem.ZeroStartShowsNoDistance | src/components/rep/HistoryLogItem.tsx:29-31 | a day started at reading 0 shows 0 km, whatever its end reading |
| HistoryLogItem.VisitWord | src/components/rep/HistoryLogItem.tsx:49 | the count reads "visit" exactly for one visit, and "visits" otherwise |
| HistoryLogItem.PersonalLine | src/components/rep/HistoryLogItem.tsx:74-76 | the personal line is shown for a positive personal distance only: not for a day not yet ended and not for 0 km |
| HistoryLogItem.TagOutcome | src/components/rep/HistoryLogItem.tsx:101-102 | a stored tag names the outcome whose tag it is, and is unknown when no outcome has that tag |
| HistoryLogItem.OutcomeLabel | src/components/rep/HistoryLogItem.tsx:14-19 | each outcome has a non-empty label that differs from its stored tag |
| HistoryLogItem.LabelsDistinct | src/components/rep/HistoryLogItem.tsx:14-19 | different outcomes are shown with different labels |
| HistoryLogItem.Label | src/components/rep/HistoryLogItem.tsx:102 | an unknown tag is shown as it is |
| HistoryLogItem.Badges | src/components/rep/HistoryLogItem.tsx:100-104 | one badge per comma-separated tag, in order, each with that tag's label |
| HistoryLogItem.LabelOfTag | src/components/rep/HistoryLogItem.tsx:14-19 | a known tag is shown with its outcome's label (the badge at line 102) |
| HistoryLogItem.BadgesOfStoredOutcomes | src/components/rep/HistoryLogItem.tsx:100-104 | a stored outcome shows exactly the labels of the outcomes it was made from, in order |
| HistoryLogItem.ShopName | src/components/rep/HistoryLogItem.tsx:89 | the shop's name, or "Unknown Shop" when it is missing or empty |
| RepDashboard.Render | src/pages/RepDashboard.tsx:17-68 | only a spinner while loading; then the start card exactly when there is no log today; the shop list and the end card exactly while the day is open; the fuel card exactly once started, locked exactly when completed; the visit log exactly with visits; the completion panel exactly when completed |
| RepDashboard.OnePhase | src/pages/RepDashboard.tsx:25-68 | once loaded, the page is in exactly one of three phases: not started, open, or completed |
| RepDashboard.StartThenEnd | src/pages/RepDashboard.tsx:25-68 | starting the day moves the page from the start card to the day's cards; ending it moves the page to the completed phase |
| ProtectedRoute.AllowedRoles | src/components/ProtectedRoute.tsx:28 | a single required role is read as a one-element list |
| ProtectedRoute.Decide | src/components/ProtectedRoute.tsx:15-35 | a spinner exactly while session or role load; the sign-in page exactly without a user; the page exactly when nothing is required, the user is an admin, or the role is listed; the landing page otherwise |
| ProtectedRoute.AdminPassesAll | src/components/ProtectedRoute.tsx:30 | an admin passes every requirement |
| ProtectedRoute.EmptyListAdmitsOnlyAdmin | src/components/ProtectedRoute.tsx:27-33 | an empty role list admits admins only, and refuses a user without a role |
| IndexPage.Land | src/pages/Index.tsx:8-24 | a spinner exactly while loading; the sign-in page exactly without a user; /admin exactly for admins and managers; /rep for any other role, or none |
| IndexPage.LandingIsAdmitted | src/pages/Index.tsx:20-24 | the gate of the page a signed-in user is sent to lets that user in, so the redirects do not loop |
| UserManagement.RoleOf | src/components/admin/UserManagement.tsx:44-47 | a user's role is null exactly without a role row, and otherwise that of the user's last role row |
| UserManagement.Merge | src/components/admin/UserManagement.tsx:44-48 | one user row per profile, in order: the profile's fields plus the user's role |
| UserManagement.RoleOfAppend | src/components/admin/UserManagement.tsx:44 | a later role row of the same user replaces the earlier one; rows of other users change nothing |
| UserManagement.DigitsOnly | src/components/admin/UserManagement.tsx:389 | removing non-digits leaves only digits, never lengthens the input, leaves an all-digit input unchanged, and keeps a single character exactly when it is a digit |
| UserManagement.DigitsOnlyAppend | src/components/admin/UserManagement.tsx:389 | the digits of two strings are the digits of each, in order, so every digit of the input is kept in its place |
| UserManagement.SanitizePhone | src/components/admin/UserManagement.tsx:389 | the phone field holds the first ten digits of the input (all of them when there are fewer), in order |
| UserManagement.SanitizeIdempotent | src/components/admin/UserManagement.tsx:389 | sanitising a sanitised phone changes nothing |
| UserManagement.FailureText | src/components/admin/UserManagement.tsx:221-222 | the toast of a failure is its message, or "Failed to save user" when the message is empty |
| UserManagement.UserAdmin.constructor | src/components/admin/UserManagement.tsx:26-37 | no users, no selection, the dialog closed, empty fields and the role "rep" |
| UserManagement.UserAdmin.FetchUsers | src/components/admin/UserManagement.tsx:39-51 | the list becomes the merge of profiles and roles, and nothing else changes |
| UserManagement.UserAdmin.Ids | src/components/admin/UserManagement.tsx:66 | the ids of the listed users, in order |
| UserManagement.UserAdmin.ToggleSelectAll | src/components/admin/UserManagement.tsx:57-69 | when every user is selected the selection is cleared; otherwise it becomes every listed user |
| UserManagement.UserAdmin.ToggleSelectUser | src/components/admin/UserManagement.tsx:71-76 | a selected id is taken out of its place, the others keeping their order; an unselected one is appended; nothing else changes |
| UserManagement.UserAdmin.HandleBulkDelete | src/components/admin/UserManagement.tsx:78-114 | refused without a selection, refused exactly when the selection holds the current user, cancelled exactly when otherwise not confirmed; profiles are deleted only after the roles were, and the outcome names exactly which of the two requests failed; the selection is cleared once the roles are gone; on full success every selected user is counted |
| UserManagement.UserAdmin.OpenAddDialog | src/components/admin/UserManagement.tsx:228-237 | the dialog opens for a new user, with empty fields and the role "rep" |
| UserManagement.UserAdmin.OpenEditDialog | src/components/admin/UserManagement.tsx:239-248 | the dialog opens with the user's name, vehicle and phone and the user's role ("rep" without one), and with email and password empty |
| UserManagement.UserAdmin.HandlePhoneChange | src/components/admin/UserManagement.tsx:389 | the phone field holds the sanitised input, and nothing else changes |
| UserManagement.UserAdmin.HandleSaveUser | src/components/admin/UserManagement.tsx:116-253 | nothing happens without a name; a non-empty phone not of 10 digits is rejected; a new user needs email and password; an edit writes exactly the profile update, followed by the role update exactly when the stored role differs, and a failed profile update stops there with its message; an enumeration error gets the hint; a new user is signed up and, exactly when the sign-up returns a user, given the role; the dialog closes exactly on success |

## Left out

- Network I/O: every backend query, insert, update, upsert, delete and auth call is an input. `Promise.all` is left out; its results are taken as given sequences.
- The function fetches the table from `dataUrl`. Whether that fetch ever threw or answered is an input of `BulkImportFunction.Serve`.
- Text parsing with `parseFloat`, `Number` and `parseInt` is left out. Form fields hold the parsed `Reading`; the end reading passed on is its whole value. `parseInt` of exponent forms such as "1e3" is not modelled.
- Number and date formatting is left out: `toFixed(2)` rounding of litres and ratios (src/components/admin/ReportsPanel.tsx:207-212), `toLocaleDateString`, `toString` of meter readings and litres, and the GPS display. Natural numbers in messages are written by `Text.Decimal`.
- `ReportsPanel.MakeSummary`: litres are summed exactly, without the two-decimal rounding, and the ratios are exact reals.
- Real calendar arithmetic is not modelled: windows are built from year and month, and a valid date only bounds the month and day.
- Time zones are not modelled. The hook's "today" is the UTC date (`toISOString`), while the fuel form's and the history's "today" is the local date. Each is an input.
- The history query's date filters and its restriction to days before today are not modelled. Logs are given as the query returns them.
- The report's rep and vehicle name fallbacks (src/components/admin/ReportsPanel.tsx:215-216) are not modelled.
- PDF rendering with jsPDF and autoTable is left out: logo, fonts, page numbers and column widths. Only the padding, slot and cell rules are modelled.
- CSV and XLSX parsing with FileReader is left out. The import takes its rows as input.
- Geolocation with the high-then-low accuracy fallback is left out. `ShopList.VisitDialog.ReceiveGps` takes the fix it delivered, or none.
- Toasts, confirmation dialogs, spinners, and the `submitting`, `gpsLoading` and `loadingMore` flags are left out. Confirmation is a boolean input.
- A handler that throws is a `thrown` input of `HandleSubmit` and `HandleCompleteVisit`.
- The EndDayCard change handlers (src/components/rep/EndDayCard.tsx:52-61) are not modelled. They store the new text and, while an error is shown, compute that error again with `validateEnd` or `validatePersonal`.
- Admin-only button gating in the user screen, and the refetch after a save or a delete, are left out. The refetch is a separate `FetchUsers` call.
- `UserManagement.UserAdmin.HandleSaveUser`: the failure texts are kept as messages, but the create-path role toasts are reduced to an enumeration flag. Exceptions thrown by the network are not modelled.
- `RepWorkflow.Workflow.StartDay` and `RepWorkflow.Workflow.EndDay` build the stored log from what they wrote. The source keeps the row the backend returns, which is taken to echo the write.
- RecordVisit and AddFuelLog: the new visit and the new fuel entry are built from the method's inputs and the id the insert answers with (`RepWorkflow.Workflow.RecordVisit`, `RepWorkflow.Workflow.AddFuelLog`). The source keeps the row the backend returns, which is taken to echo the insert.
- Trim: its own contract states the length bound and the trimmed ends; that the result is a slice of the input with only white space cut off around it is the separate lemma `Text.TrimIsSlice`.
- RemoveKeepsOrder: states only that a date-sorted list stays sorted after a delete. That the kept entries keep their relative order is the separate lemma `RepWorkflow.RemoveByIdAppend`.
- The shop screen's reload (`ShopManagement.ShopAdmin.FetchData`) takes the shops as the query returns them. The rep-name column it adds for display and the rep list it loads are not modelled; the import takes the reps as an input.
- The shop screen's single add and edit dialog (src/components/admin/ShopManagement.tsx:164-220) is not modelled.
- The remaining parts of the repository are not part of this model: the sign-in page, the history date filter, the visit log, the day status banner, the admin overview, routing and layout, the generated backend types (only the enumerations are used), the dummy-data script and the Python upload script.
- `toLowerCase` is modelled on ASCII letters, and `trim` on the common white-space characters.
- Text.Truncate: it counts characters, while `substring` and `slice` count UTF-16 code units, so a name with characters outside the Basic Multilingual Plane is cut at a different place at 255.

## Where the code and the app's design notes differ

The model follows the code in both cases.

- The design notes say that choosing "shop closed" as an outcome excludes every other outcome. The visit dialog does not enforce this; only the dummy-data script does. `ShopList.VisitDialog.ToggleOutcome` follows the dialog.
- The design notes say that a failed backend operation leaves the prior state unchanged. The fuel form is still cleared and closed when the backend rejects the fill, because `addFuelLog` reports the error itself and does not throw. `FuelLogCard.FuelForm.HandleSubmit` clears the form unless the call threw.

## Behaviour that follows from the code

- The exact lookup comes first, and it is tried for the empty name as well. A rep whose name is only white space therefore matches an empty rep name (`ShopManagement.ResolveEmptyNameToBlankRep`).
- The fuel form accepts a date that does not parse (`FuelLogCard.ValidateDate`), because the future-date comparison with an invalid date is false.
- The history distance is 0 for a day started at reading 0, because 0 is falsy (`HistoryLogItem.ZeroStartShowsNoDistance`).
- When a visit is edited, a stored coordinate of exactly 0 is dropped, for the same reason.
- `updateVisit` keeps the raw note in the local list but stores an empty note as null.
- Fuel logs are deleted by id without a user check.
