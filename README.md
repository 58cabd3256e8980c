# Roster GM planning tool: a Dafny model of its core

The application lets a delivery manager plan a customer roster for a fiscal
quarter. It shows the gross-margin (GM) effect of each change. A Flask server
(`app.py`) reads an allocation file with one line per employee and
allocation. It aggregates that file per employee, with cost per capita (CPC),
into the roster and the employee pool. It also prices a single roster change
as FTE change × CPC, and joins revenue, plan, allocation cost and other
direct costs into the GM details of the portfolio. In the browser, two
Alpine stores hold the state:

- The employees store (`static/js/stores/employees.js`) keeps the base
  roster and an append-only audit log of roster edits. The roster shown is
  the base roster with the log replayed over it.
- The filters store (`static/js/stores/filters.js`) keeps the month,
  business unit, customer, location and billability selections. A change
  that would discard logged edits needs the user's confirmation; a refusal
  reverts it.

The model is written in Dafny, one module per concern:

| file | module | models |
|---|---|---|
| `wrappers.dfy` | `Wrappers` | Option and Result |
| `seqs.dfy` | `Seqs` | order-keeping filter (`Array.filter`, pandas masks), duplicate-freedom |
| `py_text.dfy` | `PyText` | Python `str(int)`, `int(str)`, slicing, `join`, list repr |
| `py_num.dfy` | `PyNum` | float division with infinities and NaN, `round(x, 2)` |
| `py_dict.dfy` | `PyDict` | insertion-ordered `dict[str, float]`: get, assignment, fill loops |
| `grouping.dfy` | `Grouping` | `groupby(keys).sum()` with sorted output, Python ordering of keys |
| `allocation.dfy` | `Allocation` | the allocation file's rows and columns, the employee key and row id |
| `quarter.dfy` | `Quarter` | `get_quarter_months` |
| `load_employees.dfy` | `LoadEmployees` | `load_employees`, `get_employees` |
| `gm_impact.dfy` | `GmImpact` | `calculate_gm_impact` (POST /api/gm-impact) |
| `gm_details.dfy` | `GmDetails` | `get_gm_details` (GET /api/gm-details) |
| `data_cache.dfy` | `DataCache` | `get_cached_data`, with the clock as a parameter |
| `employee_store.dfy` | `EmployeeStore` | the employees store |
| `filter_store.dfy` | `FilterStore` | the filters store |

Float arithmetic is modelled over the reals. Where a float division can give
an infinity or NaN, `PyNum.Num` keeps that explicit. The current time, the
file contents, the HTTP request, the fetched JSON, the random and clock parts
of an audit entry's id, and the user's answer to `confirm()` are all
parameters.

Where the project's own documentation and the code differ, the model follows
the code:

- On the impact path, a zero quarter FTE is replaced by 1 before dividing
  (app.py:251). An employee with no FTE is therefore charged a third of the
  quarter cost, not 0 (`GmImpact.ImpactCpc`, `GmImpact.ImpactCpcAgainstLoadCpc`).
- The roster path divides unguarded (app.py:78-81), so its CPC can be
  infinite or NaN (`LoadEmployees.QuarterCpc`).
- PlanGM% replaces only NaN by 0 (app.py:144). A plan cost against no
  planned revenue stays infinite (`GmDetails.PlanGmPercent`).
- The left merges leave missing values missing. There is no ×3 on the
  cost impact: it is FTE change × CPC (app.py:358).
- The handler writes `gmImpact` into the posted `latestEntry`, but it
  responds with the posted `auditLog` unchanged (app.py:364-376).
  `GmImpact.CalculateGmImpact` returns both the response and the impact it
  wrote.

## Model

| member | source | states |
|---|---|---|
| `PyText.IntToString` | app.py:259 | str(int): non-empty, starts with '-' exactly for negatives |
| `PyText.ParseInt` | app.py:341 | int(s) succeeds iff the stripped text is an optional sign followed by at least one digit, and then gives the sign times the digits' value |
| `PyText.ParseIntOfIntToString` | app.py:259 | int(str(i)) == i for every integer |
| `PyText.IntToStringInjective` | app.py:259-261 | distinct employee codes get distinct lookup keys |
| `PyText.Take` | app.py:420 | s[:n] has length min(n, len s) and is a prefix of s |
| `PyText.Drop` | app.py:421 | s[n:] has length len s − n (or 0) and s == s[:n] + s[n:] |
| `PyText.ListRepr` | app.py:218 | the message's list text: `[]` exactly for no columns, else bracketed and quoted, starting with the first name in quotes |
| `PyNum.Div` | app.py:78-80 | float a / b: finite iff b ≠ 0 and then the exact quotient; 0/0 is NaN; a positive over 0 is +inf |
| `PyNum.DivBy` | app.py:81 | dividing by a positive constant keeps finiteness, passes inf and NaN through |
| `PyNum.RoundHalfEven` | app.py:365-367 | round() gives an integer within 1/2 of x, and an exact tie goes to the even integer |
| `PyNum.Round2` | app.py:402 | round(x, 2) is a whole number of hundredths within 0.005 of x, and an exact half-cent goes to the even hundredth |
| `PyNum.Round2OfCents` | app.py:402 | a value already in hundredths is left unchanged |
| `PyNum.Round2Idempotent` | app.py:365-367 | rounding a rounded value changes nothing |
| `PyNum.Round2Monotone` | app.py:365-367 | round(x, 2) is monotone in x |
| `PyNum.Round2Sign` | app.py:367 | rounding never changes the sign of an impact |
| `PyDict.Get` | app.py:313-314 | d.get(k) is present iff k is a key, and then is the value stored with k |
| `PyDict.Put` | app.py:261 | d[k] = v: k now maps to v, other keys keep their values, the size grows iff k was new, keys stay unique |
| `PyDict.FoldPut` | app.py:258-261 | a dict filled by assignments has unique keys |
| `PyDict.LastValue` | app.py:258-261 | the value of the last assignment to k, absent iff k was never assigned |
| `PyDict.GetFoldPut` | app.py:258-261 | after a fill loop each key holds the value of its last assignment |
| `PyDict.FoldPutSize` | app.py:281-282 | len() of a filled dict is the number of distinct keys assigned |
| `PyDict.SumValuesBounds` | app.py:322 | the sum of the values lies between len × min and len × max |
| `Grouping.GroupTotal` | app.py:76 | the column-wise sum of a key's rows has one entry per numeric column |
| `Grouping.InsertPos` | app.py:229-242 | the sorted position of a key: every earlier group is below it, the next is not |
| `Grouping.GroupedSpec` | app.py:229-242 | groupby().sum() as a fold keeps every total at the number of numeric columns |
| `Grouping.InsertIsGrouping` | app.py:229-242 | adding one row to a grouping of the earlier rows gives the grouping of all of them |
| `Grouping.GroupedSpecIsGrouping` | app.py:76 | the fold yields groups sorted by key, one per distinct key, each with its key's column sums |
| `Grouping.AddRow` | app.py:229-242 | the front-to-back search for a row's group computes the fold's step |
| `Grouping.GroupBy` | app.py:76 | groupby(keys).sum() equals the fold and is a grouping of the rows |
| `Allocation.MissingColumns` | app.py:215-218 | exactly the required columns the file lacks, in the order they are required, each once |
| `Allocation.KeyCells` | app.py:72-76 | an employee is grouped on eleven key columns |
| `Allocation.KeyOfCells` | app.py:76 | a grouping tuple reads back as the key it came from |
| `Allocation.Id` | app.py:77 | the id is the concatenation of the eleven key cells' texts in key order, so it starts with the code's text and ends with the billable text |
| `Allocation.IdCollision` | app.py:77 | the undelimited id gives two different employee keys the same id |
| `Allocation.RawKey` | app.py:224-229 | the impact path's key carries BillableYN as stored |
| `Allocation.BillableText` | app.py:75 | 'Y' maps to True, 'N' to False, anything else to NaN |
| `Allocation.MappedKey` | app.py:75-76 | a row is grouped iff its BillableYN is Y or N, with that key |
| `Quarter.QuarterNumber` | app.py:423-428 | the quarter table knows exactly Q1..Q4 |
| `Quarter.FirstMonth` | app.py:424-425 | a quarter starts at month 1, 4, 7 or 10 |
| `Quarter.MonthAbbrev` | app.py:431 | %b gives a three-letter abbreviation with no space |
| `Quarter.MonthLabel` | app.py:431 | strftime("%b %y"): six characters, the month abbreviation, a space, the two-digit year |
| `Quarter.TwoDigitYear` | app.py:431 | %y gives two digits |
| `Quarter.QuarterMonths` | app.py:417-435 | success iff the year parses, the quarter is known and the calendar year is in range; otherwise the matching error; keys M1, M2, M3, QTR with QTR the input |
| `Quarter.QuarterMonthsCalendar` | app.py:423-432 | month i of Qn of FYy is month 3(n−1)+i after April of y−1 |
| `Quarter.ParseYear2026` | app.py:421 | int("2026") is 2026 |
| `Quarter.Q1FY2026Months` | app.py:418 | Q1FY2026 gives Apr 25, May 25, Jun 25 |
| `Quarter.Q4FY2026Months` | app.py:429 | Q4 lies in the fiscal year's own calendar year: Jan 26 to Mar 26 |
| `Quarter.FirstToken` | app.py:169 | split(' ')[0] is a space-free prefix |
| `Quarter.FirstTokenOfLabel` | app.py:166-169 | the first word of a month label is its abbreviation |
| `LoadEmployees.LoadRows` | app.py:70-76 | twelve figures per row, at most one row per file row, every key in the mapped key cell shape; what the rows hold is stated by `LoadRowsContents` |
| `LoadEmployees.LoadRowsContents` | app.py:70-76 | exactly the file rows whose BillableYN is Y or N, in file order, each with its mapped key cells and its twelve figures |
| `LoadEmployees.LoadRowsKey` | app.py:75-76 | an employee key is grouped iff some file row maps to it |
| `LoadEmployees.LoadRowsKeys` | app.py:75-76 | the grouped keys are exactly the keys the file rows map to |
| `LoadEmployees.MonthCpc` | app.py:78-80 | CPC_Mi is finite iff the month's FTE is non-zero, and then cost / FTE |
| `LoadEmployees.QuarterCpc` | app.py:81 | CPC_QTR is finite iff the quarter FTE is non-zero, and then cost / FTE / 3 |
| `LoadEmployees.GroupedOf` | app.py:76-81 | each grouped row carries its key's id and its CPC_QTR |
| `LoadEmployees.ViewsOf` | app.py:88-92 | without_ctc is grouped_df with the FTE totals, costs and CPCs dropped, row for row |
| `LoadEmployees.GroupsOf` | app.py:76 | a grouped row read back as its grouping tuple and column sums |
| `LoadEmployees.Aggregate` | app.py:72-81 | grouped_df is the sorted groupby-sum of the rows, with ids and CPCs |
| `LoadEmployees.LoadEmployees` | app.py:42-96 | the three empty frames iff a column is missing; otherwise grouped_df, the customer-filtered view and the full view |
| `LoadEmployees.Frame.DropInPlace` | app.py:91 | drop(inplace=True) fails iff a column is absent, else removes exactly those columns |
| `LoadEmployees.LoadEmployeesAsWritten` | app.py:84-96 | as written: an empty customer list also gives the three empty frames |
| `LoadEmployees.SelectedPeriod` | app.py:397-407 | the quarter FTE iff no month, "Quarter" or "QTR"; M1, M2, M3 each select their own month; a failure iff the month is none of these |
| `LoadEmployees.SelectFte` | app.py:397-407 | each row keeps its key and id, with FTE the period's allocation rounded to cents |
| `LoadEmployees.GetEmployees` | app.py:390-414 | a result iff the frame loaded and the month names an FTE column (QTR included); it is the location-filtered rows with the period's FTE |
| `LoadEmployees.GetEmployeesRows` | app.py:409-412 | every returned row comes from a row at that location, every such row is returned, and no location or "All" keeps all |
| `GmImpact.ImpactRows` | app.py:221-242 | one grouping row per file row, twelve numeric columns |
| `GmImpact.ImpactCpc` | app.py:251-254 | CPC_QTR × 3 × FTE == cost, with FTE 0 read as 1 |
| `GmImpact.ImpactCpcAgainstLoadCpc` | app.py:251 | with non-zero FTE both paths agree; with zero FTE the roster path has no CPC while this one charges cost / 3 |
| `GmImpact.EmployeeEntries` | app.py:258-261 | one assignment per employee row |
| `GmImpact.BuildEmployeeLookup` | app.py:258-261 | the lookup loop computes the dict of those assignments |
| `GmImpact.EmployeeLookupGet` | app.py:256-261 | a key is present iff it is str(int) of some employee's code, with the CPC of the last such row |
| `GmImpact.BandRows` | app.py:265-268 | one row per employee, with quarter cost and FTE |
| `GmImpact.BandAvg` | app.py:277 | avg × 3 × FTE == cost when FTE > 0, else 0 |
| `GmImpact.BandEntries` | app.py:270-279 | one assignment per band and location group |
| `GmImpact.BuildBandLookup` | app.py:270-279 | the band loop computes the dict of those assignments |
| `GmImpact.BandTotals` | app.py:265-268 | a band and location's summed cost and FTE |
| `GmImpact.BandEntriesSound` | app.py:270-279 | every value assigned under a key is the average of a band and location spelling it |
| `GmImpact.BandEntriesComplete` | app.py:270-279 | every employee's band and location key gets assigned |
| `GmImpact.BandLookupGet` | app.py:263-279 | a key is present iff some employee's band and location spell it, and its value is such a band's average over all its employees |
| `GmImpact.BandLookup` | app.py:263-279 | a dict with unique keys; what each key holds is stated by `BandLookupGet` |
| `GmImpact.MethodTextInjective` | app.py:315-354 | calculationMethod tells which path was taken and with which key |
| `GmImpact.NewHireCpc` | app.py:305-324 | band_location_avg iff the key is present, with its value; fallback_avg iff absent and the dict is non-empty, with the mean; else "" and 0 |
| `GmImpact.ExistingCpc` | app.py:326-354 | employee_specific iff the code text is a key, with its value; conversion_error iff not and int() fails; direct_lookup iff int() reads a code of the table, with the first such row's CPC_QTR; not_found otherwise; 0 on the last two |
| `GmImpact.FallbackWithinBounds` | app.py:321-323 | the fallback mean lies between the smallest and largest band averages |
| `GmImpact.FirstCpcWithCode` | app.py:342-344 | the CPC of the first row with the code, absent iff no row has it |
| `GmImpact.ExistingCpcPaths` | app.py:326-354 | employee_specific iff the text is a code's str(int); direct_lookup iff int() reads another spelling of a known code; not_found iff it reads an unknown code; conversion_error iff int() fails |
| `GmImpact.Resolve` | app.py:304-354 | a new-hire method iff isNewHire; a band average or employee CPC is the lookup's value for the request's own key or code; 0 when nothing is found |
| `GmImpact.ImpactOfChange` | app.py:356-369 | cpcUsed is round(cpc, 2), fteChange is round(fteChange, 2) and costImpact is round(fteChange × cpc, 2), each a half-cent tie to even; costImpact keeps the product's sign; the method text is carried |
| `GmImpact.Outcome` | app.py:294-382 | 500 with the NoneType message iff latestEntry or its gmData is null; otherwise the posted audit log and both lookup sizes; an impact iff latestEntry is an object, and then the impact of its resolved request |
| `GmImpact.AbsentGmDataImpact` | app.py:294-358 | an entry without gmData gives zero impact by conversion_error |
| `GmImpact.BuildLookups` | app.py:221-279 | the employee table and both lookups as the handler builds them |
| `GmImpact.CalculateGmImpact` | app.py:183-388 | 400 on no data; 500 on an empty file; 500 listing the missing columns; otherwise the response and written impact of the lookups |
| `GmDetails.Matching` | app.py:147 | the right rows with the key, without repeats if the right side has none, and at most one if the right side's keys are distinct |
| `GmDetails.LeftJoin` | app.py:147 | every output row pairs a left row with a right row of the same key, or with nothing exactly when no right row has its key |
| `GmDetails.LeftJoinAtMostOne` | app.py:172-174 | with at most one match per row the merge keeps the left rows one for one |
| `GmDetails.LeftJoinComplete` | app.py:147 | each left row is paired with every right row of its key, and with nothing when no right row has its key |
| `GmDetails.LeftJoinKeepsLeft` | app.py:175-177 | a left merge never drops a left row |
| `GmDetails.PlanGmPercent` | app.py:143-144 | (rev − cost) / rev when rev ≠ 0; 0 for 0/0; ±inf for a cost against no revenue |
| `GmDetails.PlanRows` | app.py:138-142 | the rows to group are exactly the current quarter's plan lines, keyed on BU and Prism with PlanRevenue and PlanCost; every such line is among them |
| `GmDetails.PairGroups` | app.py:142 | grouping rows keyed on business unit and customer: each group holds its key's column sums, every key has a group, no pair twice |
| `GmDetails.PlanGmsGrouped` | app.py:142-145 | one grouped plan row per business unit and customer of the current plan lines, none twice, with that pair's PlanRevenue total and the GM% of its PlanRevenue and PlanCost totals |
| `GmDetails.PlanGms` | app.py:142-145 | one row per group of the current plan lines; what each row holds is stated by `PlanGmsGrouped` |
| `GmDetails.MaxQuarterMonths` | app.py:167 | the month map of the latest quarter has keys M1, M2, M3, QTR |
| `GmDetails.MonthNames` | app.py:166-169 | the month join keys are Apr, May and Jun |
| `GmDetails.CostRows` | app.py:151-157 | row i is allocation line i keyed on FinalBU and PrismCustomerGroup with its three AllocationCost_M values |
| `GmDetails.MeltMonth` | app.py:159-171 | one melted row per group for a month, with that month's cost |
| `GmDetails.Melt` | app.py:159-164 | melt gives three rows per group |
| `GmDetails.CostGroupsDistinct` | app.py:151-157 | no two cost groups share business unit and customer |
| `GmDetails.MeltKeysUnique` | app.py:159-171 | no two melted rows share business unit, customer and month |
| `GmDetails.MeltMatchesAtMostOne` | app.py:172-174 | each revenue row matches at most one melted row |
| `GmDetails.MeltedCost` | app.py:151-171 | a melted row's AllocationCost is, for its month, the sum of that month's AllocationCost_M over the allocation lines of its business unit and customer |
| `GmDetails.MeltCovers` | app.py:159-171 | every business unit and customer of the allocation lines has a melted row for each of the three months |
| `GmDetails.CurrentRevenue` | app.py:137-138 | a revenue row is kept iff its quarter is the current one; the kept rows keep their order and every repeat |
| `GmDetails.PortfolioRevenue` | app.py:146-148 | every row is current-quarter revenue of a portfolio customer, with a grouped plan row of the same customer, or with none exactly when the customer has no plan |
| `GmDetails.JoinPlan` | app.py:146-148 | the plan merge over a given grouped plan: current-quarter portfolio revenue, paired with a plan row of the same customer or with none exactly when there is none |
| `GmDetails.JoinPlanComplete` | app.py:147-148 | each current-quarter portfolio revenue row is paired with every plan row of its customer, or kept alone when there is none |
| `GmDetails.PortfolioRevenueComplete` | app.py:138-148 | no current-quarter revenue row of a portfolio customer is lost: it appears with each plan row of its customer, or alone |
| `GmDetails.CostMerge` | app.py:172-174 | every output row carries an input row; an attached allocation row is a melted row with the same business unit, customer and month; none is attached only when no melted row has that key; every input row is carried |
| `GmDetails.CostMergeKeepsRows` | app.py:172-174 | the cost merge neither repeats nor drops a revenue row |
| `GmDetails.DetailOf` | app.py:175-179 | OtherDirectCosts is Total_Revenue × ODC, present iff the business unit has a rate |
| `GmDetails.MergeCosts` | app.py:172-179 | every response row carries a portfolio row's revenue and plan |
| `GmDetails.MergeCostsAllocation` | app.py:172-174 | an AllocationCost is that of a melted row with the row's plan business unit, customer and month; it is missing only when no melted row has that key |
| `GmDetails.MergeCostsComplete` | app.py:172-177 | every portfolio row is answered by a response row |
| `GmDetails.MergeCostsOdc` | app.py:175-179 | an OtherDirectCosts is Total_Revenue × the rate of an ODC row of the plan's business unit |
| `GmDetails.MergeCostsOdcMissing` | app.py:175-177 | a planned row gets no OtherDirectCosts only when no ODC row has its plan's business unit |
| `GmDetails.GmDetails` | app.py:129-181 | every row is current-quarter revenue of a portfolio customer, with a grouped plan row of that customer if any |
| `GmDetails.GmDetailsComplete` | app.py:137-177 | every current-quarter revenue row of a portfolio customer is in the response |
| `GmDetails.GmDetailsAllocationCost` | app.py:151-174 | AllocationCost is the row month's AllocationCost_M total over the allocation lines of the plan's business unit and the customer; it is present whenever the row has a plan, its month is one of the quarter's and such lines exist |
| `GmDetails.GmDetailsOdc` | app.py:175-179 | OtherDirectCosts of a response row is its Total_Revenue × the ODC rate of its plan's business unit |
| `GmDetails.GmDetailsOdcMissing` | app.py:175-179 | OtherDirectCosts is missing from a planned row only when its plan's business unit has no ODC rate |
| `DataCache.SecondsPart` | app.py:24 | timedelta.seconds lies in 0..86399 and, under a day, is the whole seconds of the age |
| `DataCache.StaleAsWritten` | app.py:24 | the test as written: the age less its whole days is at least 3601 seconds |
| `DataCache.Stale` | app.py:24 | the test as intended: a copy a day old is always stale, and within a day whatever the written test calls stale is |
| `DataCache.StaleAsWrittenWithinADay` | app.py:24 | under a day the test as written is "more than 3600 whole seconds" and implies staleness |
| `DataCache.StaleAsWrittenMissesADay` | app.py:24 | a copy a day and a minute old is stale yet passes the test as written |
| `DataCache.Cache.constructor` | app.py:15-18 | both globals start out None |
| `DataCache.Cache.Get` | app.py:20-29 | keeps the copy while it is fresh, else reloads and stamps it; what it serves is at most an hour old |
| `DataCache.Cache.GetAsWritten` | app.py:20-29 | the same with the test on timedelta.seconds |
| `DataCache.ServesADayOldCopy` | app.py:20-29 | as written, a second call a day and a minute later serves the first copy again |
| `EmployeeStore.FirstIndex` | static/js/stores/employees.js:55 | findIndex: none iff no row has the id, else the first such row |
| `EmployeeStore.EditFte` | static/js/stores/employees.js:54-61 | EDIT_FTE sets FTE on the first row with the id only; same ids and length; an absent id changes nothing |
| `EmployeeStore.RemoveEmployee` | static/js/stores/employees.js:62-63 | REMOVE_EMPLOYEE keeps exactly the rows with other ids, in their order and with their repeats; the id is gone |
| `EmployeeStore.ApplyAuditLog` | static/js/stores/employees.js:50-68 | the loop over a copy computes the in-order replay of the log over the base roster |
| `EmployeeStore.ApplyEntry` | static/js/stores/employees.js:53-65 | an entry adds no id and no row; EDIT_FTE keeps the rows and ids; REMOVE_EMPLOYEE leaves its id absent; other actions change nothing |
| `EmployeeStore.Replay` | static/js/stores/employees.js:50-68 | the replayed roster is no longer than the base, and no id removed anywhere in the log is in it |
| `EmployeeStore.EditAfterRemove` | static/js/stores/employees.js:62-63 | an edit after a removal of the same id changes nothing |
| `EmployeeStore.ReplayIgnoresOtherActions` | static/js/stores/employees.js:53-65 | dropping entries with other actions leaves the replayed roster the same |
| `EmployeeStore.ReplayKeepsIds` | static/js/stores/employees.js:50-68 | replay never adds an id to the base roster's |
| `EmployeeStore.ReplayAppend` | static/js/stores/employees.js:11-14 | one more logged entry replays as that entry applied to the previous roster |
| `EmployeeStore.AuditDescription` | static/js/stores/employees.js:91-98 | the FTE-change and removal texts, and "" exactly for other actions |
| `EmployeeStore.Available` | static/js/stores/employees.js:106-112 | a pool row is available iff its id is on neither the roster nor the new hires; the available rows keep the pool's order and repeats |
| `EmployeeStore.NewHireIdInjective` | static/js/stores/employees.js:146 | different counts give different new-hire ids |
| `EmployeeStore.NewHireId` | static/js/stores/employees.js:146 | newhire followed by text that int() reads back as the count |
| `EmployeeStore.NewHireIdsDistinct` | static/js/stores/employees.js:145-149 | newhire1..newhireN never repeat |
| `EmployeeStore.Store.constructor` | static/js/stores/employees.js:5-19 | empty lists, loading, version 0, the stored log |
| `EmployeeStore.Store.Init` | static/js/stores/employees.js:21-48 | the fetched pool and roster, [] for a failed fetch, loading cleared |
| `EmployeeStore.Store.RosterEmployees` | static/js/stores/employees.js:11-14 | the roster shown is the replay of the stored log |
| `EmployeeStore.Store.AddAuditEntry` | static/js/stores/employees.js:70-89 | exactly one entry appended, version + 1, roster = that entry applied to the old roster |
| `EmployeeStore.Store.ClearAuditLog` | static/js/stores/employees.js:100-104 | empty log, version + 1, roster back to the base roster |
| `EmployeeStore.Store.GetAvailableEmployees` | static/js/stores/employees.js:106-112 | the pool rows off the replayed roster and the new hires |
| `EmployeeStore.Store.AddToRoster` | static/js/stores/employees.js:114-124 | the employee with fte, location and isBillable appended to the base roster |
| `EmployeeStore.Store.SetFilteredEmployees` | static/js/stores/employees.js:126-129 | the base roster becomes the given rows |
| `EmployeeStore.Store.FindBase` | static/js/stores/employees.js:132 | find() succeeds iff the base roster has the id, and then gives the first base row with that id |
| `EmployeeStore.Store.RemoveFromRoster` | static/js/stores/employees.js:131-136 | logs a removal only for a base-roster id, which the replayed roster then lacks; otherwise nothing changes |
| `EmployeeStore.Store.UpdateEmployeeFTE` | static/js/stores/employees.js:138-143 | logs an FTE edit only for a base-roster id, and the roster becomes the edited one; otherwise nothing changes |
| `EmployeeStore.Store.AddNewHire` | static/js/stores/employees.js:145-149 | the hire is appended with id newhire(n+1), keeping ids newhire1..newhireN |
| `FilterStore.Toggle` | static/js/stores/filters.js:313-322 | checking appends the value iff absent, keeping the rest as a prefix; unchecking removes every copy and keeps the order and count of the rest; no duplicates arise |
| `FilterStore.Without` | static/js/stores/filters.js:319-321 | filter(x !== v) removes exactly the copies of v, keeping the order and count of the rest |
| `FilterStore.ToggleIdempotent` | static/js/stores/filters.js:443-452 | repeating a toggle changes nothing |
| `FilterStore.ToggleRoundTrip` | static/js/stores/filters.js:540-549 | checking then unchecking a new value restores the selection |
| `FilterStore.Distinct` | static/js/stores/filters.js:138 | the distinct business units, each once, in input order (a subsequence of the input), first one first |
| `FilterStore.BusinessUnitsOf` | static/js/stores/filters.js:138 | the rows' FinalBU values in order |
| `FilterStore.FirstPerGroup` | static/js/stores/filters.js:141-151 | one customer per group, the same groups, a subsequence of the rows (so in first-occurrence order), the first row first |
| `FilterStore.FirstPerGroupKeepsFirstRows` | static/js/stores/filters.js:141-151 | each kept customer is its group's first row |
| `FilterStore.UniqueCustomers` | static/js/stores/filters.js:141-152 | the forEach with a seen set computes that list |
| `FilterStore.FirstCustomer` | static/js/stores/filters.js:154-155 | one customer selected iff there is one, and it is the first row's customer group |
| `FilterStore.SelectionMessage` | static/js/stores/filters.js:51-58 | the none-selected and n-selected messages |
| `FilterStore.CanMakeChanges` | static/js/stores/filters.js:46-48 | changes are allowed only with a customer selected and no selection message shown |
| `FilterStore.MessageEmptyIffCanMakeChanges` | static/js/stores/filters.js:47-58 | the message is empty iff exactly one customer is selected |
| `FilterStore.Confirm` | static/js/stores/filters.js:61-93 | declined iff the log is non-empty and the user refuses; unasked iff the log is empty |
| `FilterStore.SelectAll` | static/js/stores/filters.js:474-484 | never checked and indeterminate at once; none selected is neither |
| `FilterStore.SelectAllMeansCoverage` | static/js/stores/filters.js:573-584 | on a duplicate-free selection of options: checked iff all are selected, indeterminate iff some but not all |
| `FilterStore.LocationDisplay` | static/js/stores/filters.js:486-507 | "No Locations", "All Locations (2)", the single name, or "n Locations"; clear hidden iff all |
| `FilterStore.BillableLabel` | static/js/stores/filters.js:601-607 | Y reads Billable, N Non-Billable, others as themselves |
| `FilterStore.BillableDisplay` | static/js/stores/filters.js:586-613 | "No Billability", "All Billability (2)", the single label, or "n Selected"; clear hidden iff all |
| `FilterStore.SingleDisplay` | static/js/stores/filters.js:403-412 | the first selected value, or the placeholder when none |
| `FilterStore.MonthDisplay` | static/js/stores/filters.js:117-126 | "Quarter", else a non-empty period name, else the key |
| `FilterStore.Store.constructor` | static/js/stores/filters.js:5-17 | month Quarter, empty selections and lists |
| `FilterStore.Store.FilteredCustomers` | static/js/stores/filters.js:301-311 | narrowed to the selected units iff some but not all are selected, else all customers; in the customers' order with every copy kept, which decides the first customer picked at filters.js:294-295 |
| `FilterStore.Store.Init` | static/js/stores/filters.js:129-160 | distinct units, first row per customer, first customer and unit selected, all locations and billability; with rows, exactly one customer, of the selected unit |
| `FilterStore.Store.ToggleBusinessUnit` | static/js/stores/filters.js:313-326 | the units toggled, nothing else changes, no duplicates |
| `FilterStore.Store.ToggleCustomer` | static/js/stores/filters.js:388-401 | the customers toggled, nothing else changes, no duplicates |
| `FilterStore.Store.ToggleLocation` | static/js/stores/filters.js:443-457 | the locations toggled, and the select-all box they leave |
| `FilterStore.Store.ToggleBillableStatus` | static/js/stores/filters.js:540-554 | the billability toggled, and the select-all box it leaves |
| `FilterStore.Store.ToggleAllLocations` | static/js/stores/filters.js:459-472 | all locations or none |
| `FilterStore.Store.ToggleAllBillableStatus` | static/js/stores/filters.js:556-571 | all billability values or none |
| `FilterStore.Store.SelectBusinessUnitWithConfirmation` | static/js/stores/filters.js:279-300 | refused: both selections restored; else [bu] and the first narrowed customer, which then belongs to bu |
| `FilterStore.Store.SelectCustomerWithConfirmation` | static/js/stores/filters.js:374-386 | refused: only the previous first customer, unless it was ""; else [customer], shown on the button |
| `FilterStore.Store.SelectMonth` | static/js/stores/filters.js:616-636 | refused: the previous month and its display; else the new month and its display name |

## Left out

- Reading the CSV files, the HTTP layer (Flask routing and JSON encoding beyond the status codes modelled) and console logging: I/O.
- `calculate_gm`, `get_gm_state`, `get_filter_state`, `get_direct_costs` and `get_customers_by_bu` return constants or data from models.py. `home`, `component_template`, `get_total_employees`, `get_customers` and `get_period` only render a template or send the modelled values as JSON. None of these is modelled.
- `update_employee` and `save_employee_data` (app.py:452-476, 110-117) edit columns that `load_employees` never returns, then write a CSV. They are not modelled.
- `get_files.py` and `verify_auth.py`: authentication and file download over the network.
- models.py is not part of this model: `FilterState`, `bu_to_customers` and the sample direct costs feed only the routes above. The portfolio customer list is the constant of app.py:33-34.
- Floating point: sums are exact over the reals, so summation order and binary rounding are not modelled. `round` is round-half-even on the exact value.
- Python `int()`: only ASCII white space, a sign and ASCII digits are modelled. Underscores and non-ASCII digits are not.
- `GmImpact.ExistingCpc`: an `employeeCode` sent as a JSON number is modelled through its text. The `str()` of a float such as `7.0` is not modelled.
- JSON values of an unexpected type (a string `fteChange`, a non-boolean `isNewHire`) are not modelled. Each field of `GmRequest` has its expected type.
- CPC_M1..CPC_M3 of the impact path (app.py:248-250) are computed but never used, so they are not modelled. Once a zero FTE is read as 1, finite totals give finite CPCs, so the inf→0 replacement (app.py:254) is not modelled.
- `Allocation.MappedKey`: every key cell of an allocation row is taken to be present, and `EmployeeCode` an integer. pandas `groupby` drops a row with a missing key cell (app.py:76, 229), and `astype(str)` of a float code would change the id; neither is modelled, so "grouped iff BillableYN is Y or N" holds under that assumption.
- `GmImpact.BandKey`: two different band and location pairs can spell the same `band_location` key (`"a_b"+"c"` and `"a"+"b_c"`). The lookup then holds the later group's value. The model computes this but proves nothing specific about it.
- `GmDetails.GmDetails`: pandas matches NaN keys to NaN keys in a merge. The model gives a revenue row without a plan no business unit, which matches nothing. The revenue, plan and ODC columns not used in a computation, and the string columns groupby would sum, are not carried.
- `LoadEmployees.GetEmployees`: the row order and column order of the JSON are kept, but the JSON rendering of NaN or infinite values is not.
- In the browser stores: DOM rendering (`innerHTML`, checkbox state), `setTimeout` polling and delayed re-renders, `fetch`, `localStorage` JSON serialisation, `CustomEvent` dispatch and page reload are not modelled. The stored log is a field. `confirm()` is a boolean parameter and its prompt text is not modelled.
- `FilterStore.Store.SelectBusinessUnitWithConfirmation`, `FilterStore.Store.SelectCustomerWithConfirmation` and `FilterStore.Store.SelectMonth`: on the Confirmed branch, filters.js:27-28 and 84-86 call the employees store's `clearAuditLog`. The model returns `Confirmed` but does not compose the filter store with `EmployeeStore.Store.ClearAuditLog`; the two stores are separate objects here.
- `FilterStore.Store.SelectBusinessUnitWithConfirmation`, `FilterStore.Store.SelectCustomerWithConfirmation` and `FilterStore.Store.SelectMonth`: the Confirmed branch then reloads the page (filters.js:43), which runs `init` again and resets every selection. The model keeps the selection the user chose and does not model the reload.
- `updateFilters` (filters.js:639-657) sends the selections as a query string and hands the reply to the employees store. It is I/O and not modelled.
- `EmployeeStore.Store.AddToRoster`: `parseFloat` of the FTE text is not modelled; the FTE is a number already.
- `EmployeeStore.AuditDescription`: JavaScript's `String()` of a number is a parameter (`numText`).
- Audit entry ids and timestamps come from `Date.now()`, `Math.random()` and the clock. They are parameters.
- `populateBusinessUnitOptions`, `populateMonthOptions` and the `update*Options` renderers only write HTML.

## Findings

| source | as written | input that shows it | evidently intended | confidence | as-written member | corrected member |
|---|---|---|---|---|---|---|
| app.py:84-96 | with an empty or missing customer list, `filtered_df` is the same object as `grouped_df`. The in-place drop removes the columns from `grouped_df` too, so the second `drop` raises KeyError and the function returns three empty frames | `load_employees([])` or `load_employees()` on a complete file | no customer filter: all employees, as the non-empty branch gives for its customers | high; not executed | `LoadEmployees.LoadEmployeesAsWritten` | `LoadEmployees.LoadEmployees` |
| app.py:24 | staleness is judged on `timedelta.seconds`, which drops whole days | a copy loaded one day and 60 seconds ago (`DataCache.StaleAsWrittenMissesADay`, `DataCache.ServesADayOldCopy`) is served again | test the total age, `total_seconds() > 3600` | high; not executed | `DataCache.Cache.GetAsWritten` | `DataCache.Cache.Get` |
