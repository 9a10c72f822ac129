# CrutemConvert core in Dafny

CrutemConvert reads the CRUTEM4 station list: a header file with one line per
station and a data file in which each station's header line is followed by
one line of twelve monthly temperatures per year. This project models the
parts of the program that do not depend on floating point or the operating
system, and proves what they promise:

- **Text** (`text.dfy`): the standard-library pieces the sources use. These
  are `std::getline` with a delimiter, `std::remove` on a string,
  `std::string::find`, `atoi`, the project's `to_string` and `::tolower`.
- **StationParse** (`station_parse.dfy`): `Split`, `ParseStation` and the
  ignore list of `main.cpp`. It covers the station search by identifier,
  the year range, the NAME and COUNTRY C strings and the year rows. Every
  way the function can end is modelled, including undefined behaviour.
- **ParseArgs** (`parse_args.dfy`): `SplitParam`, the `ParseArgs`
  comparison chain, the `PAOutput` defaults and the `cellrect` reader.
- **Date** (`date.dfy`): `EMDate`, whose year, month and day are each
  valid or not on their own. It has rolling day and month arithmetic, the
  keep day, the comparisons and the `_year`/`_month`/`_day` helpers. The
  `DateVal` functions specify each operator, and the `EMDate` class
  performs them in place.
- **Task** (`task.dfy`): the `tb` scheduler. It has three task groups
  (low, normal, high), each with a queue of one-shot jobs and a list of
  repeating jobs, plus the `Repeating` handles. Priority routing, queue
  order, thread budgets, finalisation, cancellation and one pass of the
  repeater thread are modelled.
- **AvgAccum** (`avg_accum.dfy`): `IDAvgAccum`, a running average per key.
- **StationCalc** (`station_calc.dfy`): `Calc::Result`, year rows of twelve
  monthly slots plus a yearly slot, and thirteen final slots.
- **CoordCell** (`coord_cell.dfy`): the station list of a grid cell and
  the earliest start and end years in it.
- **Rect** (`rect.dfy`): `EMRect` equality, intersection, union and
  containment.
- **FileSystem** (`file_system.dfy`): `fs::Entry` name decoding and the
  child paths of a directory.
- **Support** (`support.dfy`): the `erase_if` helper and the
  `erase(remove_if(...))` idiom, as libstdc++ executes them.

The model follows the code as written. Two comments in `Date.h` describe
results the code does not produce, and the model proves what the code gives:

- "32 September" rolls to 2 October, not to the 1 October of `Date.h:53-54`.
- The keep-day table of `Date.h:71-79` shows 29 February 2000, but the code
  gives February 28 days in every year (see "## Findings").

Two places where the code evidently does not do what its authors meant are
listed under "## Findings". For each, the model uses the code as written
throughout, and keeps the evidently intended rule beside it
(`Date.DaysInMonthIntended`, `FileSystem.ChildPathIntended`) with its property
proved; nothing else uses the intended rules.

## Model

| member | source | states |
|---|---|---|
| Support.EraseIf | CrutemConvert/src/Task.cpp:33-43 | reports removal exactly when the element is present; an absent element leaves the container unchanged |
| Support.EraseIfDistinct | CrutemConvert/src/Task.cpp:33-43 | on a duplicate-free container, `erase_if` removes exactly the one match, keeps the order of the rest and keeps it duplicate-free |
| Support.RemoveIfEraseOne | CrutemConvert/src/CoordCell.cpp:71-92 | `erase(remove_if(...))` with a single-iterator erase introduces no new elements |
| Support.RemoveIfEraseOnce | CrutemConvert/src/CoordCell.cpp:71-92 | a single occurrence is removed outright and the container shrinks by one |
| Support.RemoveIfEraseDuplicate | CrutemConvert/src/CoordCell.cpp:71-92 | with two occurrences, one stale copy stays behind (`[x, y, x]` becomes `[y, x]`) |
| Text.GetlineTokensFree | CrutemConvert/src/main.cpp:44-54 | no token `getline` delivers contains the delimiter |
| Text.GetlineJoin | CrutemConvert/src/main.cpp:44-54 | the tokens joined by the delimiter give back the input, less one trailing delimiter |
| Text.JoinGetline | CrutemConvert/src/main.cpp:44-54 | non-empty delimiter-free tokens, joined and read back, come back unchanged |
| Text.NonEmptyShape | CrutemConvert/src/main.cpp:48-51 | the kept tokens are non-empty tokens of the input |
| Text.RemoveCharSpec | CrutemConvert/src/main.cpp:138 | removing a character removes every copy of it and keeps the count of every other character |
| Text.RemoveCharAbsent | CrutemConvert/src/main.cpp:138 | removing an absent character changes nothing |
| Text.FindSpec | CrutemConvert/src/main.cpp:89-90 | `find` is `npos` exactly when the pattern does not occur; otherwise it is the first position where it occurs |
| Text.AtoiDecimalString | CrutemConvert/src/main.cpp:175-178 | `atoi` reads back what `to_string` writes, for every integer |
| Text.AtoiDigits | CrutemConvert/src/main.cpp:112-113 | `atoi` of a digit string is its decimal value |
| Text.AtoiNegative | CrutemConvert/src/main.cpp:112-113 | `atoi` of `-` followed by digits is the negated value |
| Text.LowerChar | CrutemConvert/src/ParseArgs.cpp:95 | an upper-case letter becomes the lower-case letter at the same place in the alphabet; anything else is unchanged; the result is never upper-case |
| StationParse.Split | CrutemConvert/src/main.cpp:44-54 | appends exactly the non-empty `getline` tokens to `out` |
| StationParse.SplitTokensShape | CrutemConvert/src/main.cpp:48-50 | every token `Split` delivers is non-empty and delimiter-free |
| StationParse.SplitJoin | CrutemConvert/src/main.cpp:44-54 | tokens joined by single delimiters split back into the same tokens |
| StationParse.Station.constructor | CrutemConvert/src/StationListFormat.cpp:21-28 | ID 0, no rows, NAME and COUNTRY terminated at their last slot |
| StationParse.FindStation | CrutemConvert/src/main.cpp:88-91 | the first line from `dataIndex` on that contains the identifier; -1 exactly when none does or the start is negative |
| StationParse.SearchStation | CrutemConvert/src/main.cpp:88-91 | the search loop finds the line `FindStation` specifies |
| StationParse.Truncate | CrutemConvert/src/main.cpp:139-146 | at most `n` characters, a prefix of the input, the whole input when it fits |
| StationParse.NameOf | CrutemConvert/src/main.cpp:130-146 | the NAME has no '-' and at most 126 characters |
| StationParse.CountryOf | CrutemConvert/src/main.cpp:148-158 | the COUNTRY has no '-' and at most 62 characters |
| StationParse.RowOf | CrutemConvert/src/main.cpp:176-207 | a row is valid exactly when its line starts with the year, and then it holds that year |
| StationParse.RowsOf | CrutemConvert/src/main.cpp:164-211 | one row per year of the range |
| StationParse.NextIndex | CrutemConvert/src/main.cpp:89-91 | the data index never moves backwards |
| StationParse.NoDataIffAbsent | CrutemConvert/src/main.cpp:88-218 | "Unable to find data for station" is returned exactly when no line from `dataIndex` on contains the identifier, and then the index is unchanged |
| StationParse.ParsedShape | CrutemConvert/src/main.cpp:105-118 | a parsed station spans 1 to 400 years and was found on a line from `dataIndex` on |
| StationParse.YearHalves | CrutemConvert/src/main.cpp:105-113 | an eight-digit year token gives back its two four-digit years |
| StationParse.CopyCString | CrutemConvert/src/main.cpp:143-146 | the text is copied to the front of the buffer and NUL-terminated; the rest of the buffer is unchanged |
| StationParse.JoinName | CrutemConvert/src/main.cpp:130-136 | the NAME loop joins token 4 through `pos-2` with single spaces, or gives token 4 alone |
| StationParse.ReadYearRows | CrutemConvert/src/main.cpp:164-211 | the rows can be read exactly when every row's line exists and can be read, and then they are `RowsOf` |
| StationParse.ReadYearRow | CrutemConvert/src/main.cpp:172-209 | one row step extends the readable prefix by that row |
| StationParse.FillStation | CrutemConvert/src/main.cpp:120-211 | after the year check: succeeds exactly when the header has five tokens and the rows can be read; the years stay as set |
| StationParse.SetNumbers | CrutemConvert/src/main.cpp:120-123 | ID is `atoi` of token 0 stored into 32 bits; ELEV is `atoi` of token 3 |
| StationParse.AttachRows | CrutemConvert/src/main.cpp:164-211 | a fresh array of rows, filled exactly when every row can be read |
| StationParse.WriteNames | CrutemConvert/src/main.cpp:130-158 | NAME and COUNTRY are written as NUL-terminated strings |
| StationParse.ReadYears | CrutemConvert/src/main.cpp:105-113 | the start and end years come from the two four-character halves of the year token |
| StationParse.ParseStation | CrutemConvert/src/main.cpp:81-219 | the outcome and new index are those of `Verdict`/`NextIndex`; on success the fields, strings and rows are filled; on a bad year count the years are still stored |
| StationParse.ParseFound | CrutemConvert/src/main.cpp:105-213 | from the matching line on, the outcome is `FoundVerdict` |
| StationParse.ParseYears | CrutemConvert/src/main.cpp:115-213 | once the years are read, the outcome is `YearVerdict`, with the station filled on success |
| StationParse.MatchIgnoreList | CrutemConvert/src/main.cpp:288-293 | a header is ignored exactly when some ignore-list line occurs in it |
| ParseArgs.SplitParam | CrutemConvert/src/ParseArgs.cpp:80-97 | the find/erase/remove/resize/erase/transform steps give the pair `Entry` defines |
| ParseArgs.SplitParamShape | CrutemConvert/src/ParseArgs.cpp:80-97 | the name is the text before the first '=' less its first character, lower-cased; the value is empty without '=', and otherwise keeps the '=' and loses every '"' |
| ParseArgs.ValueShape | CrutemConvert/src/ParseArgs.cpp:86-90 | every value is empty or starts with '=', so `atof` reads no number from it |
| ParseArgs.KnownNames | CrutemConvert/src/ParseArgs.cpp:121-179 | exactly the ten option names are recognised |
| ParseArgs.Apply | CrutemConvert/src/ParseArgs.cpp:118-179 | one parameter fails exactly when its name is not recognised |
| ParseArgs.ParseFails | CrutemConvert/src/ParseArgs.cpp:105-185 | `ParseArgs` returns null exactly when there are fewer than two arguments or some name is not recognised |
| ParseArgs.ApplyAllFails | CrutemConvert/src/ParseArgs.cpp:118-180 | the parameter loop fails exactly when some parameter's name is not recognised |
| ParseArgs.IgnoreSetsBoth | CrutemConvert/src/ParseArgs.cpp:129-131 | "ignore" sets the ignore file and `expectIgnored`, and nothing else |
| ParseArgs.OutputAlwaysCsv | CrutemConvert/src/ParseArgs.cpp:132-139 | "output" never stores the file name and selects CSV for every value `SplitParam` can produce |
| ParseArgs.FillFour | CrutemConvert/src/ParseArgs.cpp:155-173 | four or more fields set the rectangle to the `atof` of the first four, in order |
| ParseArgs.FillPastEdges | CrutemConvert/src/ParseArgs.cpp:171-172 | from the fifth field on, the "unknown boundary" branch leaves the rectangle unchanged |
| ParseArgs.NumericOptionsReadNothing | CrutemConvert/src/ParseArgs.cpp:140-148 | "gridsize", "interpolate" and "infill" store `atof` of a text it reads no number from |
| ParseArgs.CellRectOrder | CrutemConvert/src/ParseArgs.cpp:152-173 | the first four fields become west, north, east and south; later fields change nothing |
| ParseArgs.UntouchedKeepDefaults | CrutemConvert/src/ParseArgs.cpp:118-180 | options whose name is never given keep their values |
| ParseArgs.ApplyFrame | CrutemConvert/src/ParseArgs.cpp:121-179 | each branch changes only its own fields |
| ParseArgs.AutoOnly | CrutemConvert/src/ParseArgs.cpp:105-124 | `-auto` alone gives the defaults with `autoValues` set |
| ParseArgs.PAOutput.constructor | CrutemConvert/src/ParseArgs.cpp:34-58 | the fields start at the listed defaults |
| ParseArgs.PAOutput.ApplyParam | CrutemConvert/src/ParseArgs.cpp:121-179 | a recognised name updates the fields as `Apply` says; an unrecognised one changes nothing and fails |
| ParseArgs.PAOutput.ApplyFileParam | CrutemConvert/src/ParseArgs.cpp:121-131 | the "auto", "header", "data" and "ignore" branches |
| ParseArgs.PAOutput.ApplyOutputParam | CrutemConvert/src/ParseArgs.cpp:132-139 | the "output" branch with `find` used as a truth value |
| ParseArgs.PAOutput.ApplyNumberParam | CrutemConvert/src/ParseArgs.cpp:140-148 | the "gridsize", "interpolate" and "infill" branches |
| ParseArgs.PAOutput.ApplySelectParam | CrutemConvert/src/ParseArgs.cpp:149-174 | the "station" and "cellrect" branches |
| ParseArgs.ReadCellRect | CrutemConvert/src/ParseArgs.cpp:155-173 | the comma loop fills the edges in order, as `CellRectOf` says |
| ParseArgs.ParseArguments | CrutemConvert/src/ParseArgs.cpp:105-185 | null exactly when `Parse` fails; otherwise a fresh `PAOutput` holding `Parse`'s options |
| Date.Default | CrutemConvert/src/Date.h:225-231 | `EMDate()` has year INT32_MAX (a valid year) and invalid month and day |
| Date.Make | CrutemConvert/src/Date.h:233-240 | `EMDate(y, m, d)` stores the three fields, without a keep day |
| Date.YearOnly | CrutemConvert/src/Date.h:179-182 | `_year(y)` has only the year valid, exactly when `y < INT64_MAX` |
| Date.MonthOnly | CrutemConvert/src/Date.h:185-188 | `_month(m)` has only the month valid, exactly when 1 <= m <= 12 |
| Date.DayOnly | CrutemConvert/src/Date.h:191-194 | `_day(d)` has only the day valid, exactly when 1 <= d <= 31 |
| Date.IsLeapYear | CrutemConvert/src/Date.cpp:94-107 | the Gregorian rule; the INT64_MAX argument means this date's year, and false when that is invalid |
| Date.DaysInMonth | CrutemConvert/src/Date.cpp:110-130 | 0 exactly when neither the argument nor this date's month is a month; otherwise 28 to 31 (February's 28 in every year is stated by `FebruaryAlways28`) |
| Date.MonthTable | CrutemConvert/src/Date.cpp:118-129 | 30 days exactly for April, June, September and November; 31 exactly for the other months but February |
| Date.LeapFebruary | CrutemConvert/src/Date.cpp:126-127 | under the intended rule `DaysInMonthIntended`, February has 29 days exactly when this date's year is valid and a leap year, so 29 February 2000 fits its month |
| Date.FebruaryAlways28 | CrutemConvert/src/Date.cpp:126-127 | as written, February has 28 days in every year, so 29 February 2000 is not a valid day; the written and intended rules differ only there |
| Date.NoLeapDay | CrutemConvert/src/Date.cpp:314-447 | as written, 29 February 2000 rolls to 1 March, the day after 28 February 2000 is 1 March, and 29 February is not greater than 28 February |
| Date.DayValidBounds | CrutemConvert/src/Date.cpp:51-58 | a valid day lies in 1..31, and in 1..days-of-month when the month is valid |
| Date.Gt | CrutemConvert/src/Date.cpp:414-447 | only a valid date can be greater |
| Date.SelfComparison | CrutemConvert/src/Date.cpp:398-454 | a date equals itself exactly when it is valid, is never greater than itself, and is less than itself exactly when invalid |
| Date.EqSymmetricTransitive | CrutemConvert/src/Date.cpp:398-405 | `==` is symmetric and transitive |
| Date.CompareFullyValid | CrutemConvert/src/Date.cpp:398-454 | on fully valid dates, `>`, `<` and `==` are lexicographic on (year, month, day), and exactly one of them holds |
| Date.GtBothWays | CrutemConvert/src/Date.cpp:414-447 | on partially valid dates `>` can hold both ways: `_year(2000)` and `_month(5)` |
| Date.RolledMonth | CrutemConvert/src/Date.cpp:350-360 | keeps year*12+month and the day; a valid month is unchanged; a month in -11..24 ends valid |
| Date.RollDayStep | CrutemConvert/src/Date.cpp:325-342 | one step of the day roll leaves a valid month and brings the day closer to valid |
| Date.RolledDay | CrutemConvert/src/Date.cpp:314-347 | the rolled date has a valid month and day and the same keep day |
| Date.RolledDayValid | CrutemConvert/src/Date.cpp:314-347 | a valid day is not rolled |
| Date.RolledDayForward | CrutemConvert/src/Date.cpp:329-342 | an overflow of up to 28 days moves to the next month, less the month's length |
| Date.RolledDayBackward | CrutemConvert/src/Date.cpp:325-328 | a day below 1 moves to the previous month, plus that month's length |
| Date.ThirtySecondOfSeptember | CrutemConvert/src/Date.h:53-54 | 32 September 1999 rolls to 2 October 1999 |
| Date.KeepDayEnforced | CrutemConvert/src/Date.cpp:363-379 | changes the date exactly when a keep day is set and differs from the day, and then the day becomes the keep day clamped to the month |
| Date.WithKeepDay | CrutemConvert/src/Date.cpp:85-90 | stores the keep day; a keep day in 1..31 is enforced at once, any other leaves the day alone |
| Date.Shifted | CrutemConvert/src/Date.cpp:214-222 | `<<` copies exactly the valid fields of the operand, then applies the keep day |
| Date.ChangeMonth | CrutemConvert/src/Date.cpp:243-259 | the month step moves year*12+month by the given amount and keeps the keep day |
| Date.Sum | CrutemConvert/src/Date.cpp:225-270 | `+=` and `+`: an invalid operand changes nothing; the keep day is kept |
| Date.Difference | CrutemConvert/src/Date.cpp:273-307 | `-=` and `-`: an invalid date or operand changes nothing; the keep day is kept |
| Date.AddMonths | CrutemConvert/src/Date.cpp:243-259 | adding k months advances the month count by k; the day is clamped, and a last day stays a last day |
| Date.SubtractMonths | CrutemConvert/src/Date.cpp:287-299 | subtracting k months moves the month count back by k under the same day rule |
| Date.AddYears | CrutemConvert/src/Date.cpp:261-266 | adding years changes only the year |
| Date.EndOfJanuaryPlusMonths | CrutemConvert/src/Date.h:59-64 | 31 January plus a month is 28 February (1999), and plus another is 31 March |
| Date.MonthsWithoutKeepDay | CrutemConvert/src/Date.h:71-79 | the table's left column as the code computes it: 29 Dec 1999, then 29 Jan, 28 Feb, 31 Mar, 30 Apr 2000 (the table shows 29 Feb) |
| Date.KeepDayThroughMonths | CrutemConvert/src/Date.h:71-79 | the table's right column as the code computes it: with keep day 29, 29 Jan, 28 Feb, 29 Mar, 29 Apr 2000 (the table shows 29 Feb) |
| Date.EMDate.constructor | CrutemConvert/src/Date.h:225-231 | the object holds `Default()` |
| Date.EMDate.Of | CrutemConvert/src/Date.h:233-240 | the object holds `Make(y, m, d)` |
| Date.EMDate.RollMonth | CrutemConvert/src/Date.cpp:350-360 | `_rollMonth` computes `RolledMonth` in place |
| Date.EMDate.RollDay | CrutemConvert/src/Date.cpp:314-347 | the `_rollDay` loops compute `RolledDay` in place |
| Date.EMDate.EnforceKeepDay | CrutemConvert/src/Date.cpp:363-379 | `_enforceKeepDay` computes `KeepDayEnforced` and reports a change |
| Date.EMDate.SetKeepDay | CrutemConvert/src/Date.cpp:85-90 | computes `WithKeepDay` in place |
| Date.EMDate.Shift | CrutemConvert/src/Date.cpp:214-222 | `<<` computes `Shifted` in place |
| Date.EMDate.AddAssign | CrutemConvert/src/Date.cpp:225-270 | `+=` computes `Sum` in place |
| Date.EMDate.SubAssign | CrutemConvert/src/Date.cpp:273-307 | `-=` computes `Difference` in place |
| Date.EMDate.AddDaysInPlace | CrutemConvert/src/Date.cpp:231-241 | the day step of `+=` |
| Date.EMDate.SubtractDaysInPlace | CrutemConvert/src/Date.cpp:279-285 | the day step of `-=` |
| Date.EMDate.MoveMonth | CrutemConvert/src/Date.cpp:243-259 | the month step shared by `+=` and `-=` computes `ChangeMonth` |
| Task.RoutingByValue | CrutemConvert/src/Task.h:98-110 | IDLE and LOW go to the low group, URGENT and SUPER to the high group, everything else to the normal group |
| Task.FrontIsGroupMaximum | CrutemConvert/src/Task.cpp:495-507 | a job goes to the front of its queue exactly when its priority is the highest its group takes |
| Task.CoveredGroups | CrutemConvert/src/Task.cpp:240-257 | the fall-through switch covers the priority's own group and every lower one; DEFAULT covers all |
| Task.QueueOrder | CrutemConvert/src/Task.cpp:495-507 | after a run of submissions the queue is the front-placed jobs in reverse, the old queue, then the back-placed jobs in order |
| Task.HighOvertakesNormal | CrutemConvert/src/Task.h:33-39 | NORMAL a, HIGH b, NORMAL c queue as b, a, c |
| Task.CapacityRules | CrutemConvert/src/Task.cpp:425-479 | constructor and `SetPriority` agree except on DEFAULT, which gets `hw` from one and `hw/2` from the other; the low group gets `hw/2` |
| Task.ThreadBudget | CrutemConvert/src/Task.cpp:512-516 | `Assign` adds at most one thread, never beyond the maximum, and always starts a first thread when allowed |
| Task.CountBudget | CrutemConvert/src/Task.cpp:336-351 | a count of n runs the payload on the first n executions; the next one reports that the job is done |
| Task.MinInterval | CrutemConvert/src/Task.cpp:723-746 | the smallest of the poll bound and all intervals |
| Task.Scan | CrutemConvert/src/Task.cpp:726-747 | one pass keeps every owner; a spent owner forces a next delta of 0, otherwise it is the least interval |
| Task.ScanSleep | CrutemConvert/src/Task.cpp:752-754 | the sleep is at least the group's minimum delay and at most 1000 ms |
| Task.ScanStates | CrutemConvert/src/Task.cpp:726-747 | exactly the due owners up to the spent one are executed; the spent one is due with an exhausted count, and none before it is |
| Task.InsertByInterval | CrutemConvert/src/Task.cpp:530-535 | inserting adds exactly the new owner |
| Task.InsertKeepsSorted | CrutemConvert/src/Task.cpp:530-535 | inserting keeps the repeat list sorted by interval |
| Task.SortByInterval | CrutemConvert/src/Task.cpp:533-535 | the sort returns a permutation sorted by interval |
| Task.OwnerStates | CrutemConvert/src/Task.cpp:726-728 | the owner states read, one per owner |
| Task.RepeatOwner.constructor | CrutemConvert/src/Task.cpp:313-322 | count, interval, last 0, and a fresh watcher that points back and is the original watcher |
| Task.RepeatOwner.Execute | CrutemConvert/src/Task.cpp:336-351 | computes `Step`: stamps the time, decrements the count, runs the payload unless exhausted |
| Task.RepeatOwner.WatcherMoved | CrutemConvert/src/Task.cpp:354-364 | the watcher becomes the new handle and the original watcher is dropped |
| Task.RepeatOwner.SetInterval | CrutemConvert/src/Task.cpp:399-404 | only the interval changes |
| Task.RepeatOwner.SetCount | CrutemConvert/src/Task.cpp:407-412 | only the count changes |
| Task.RepeatOwner.Destroy | CrutemConvert/src/Task.cpp:325-333 | the watcher is told its owner is gone, and the original watcher is dropped |
| Task.Repeating.constructor | CrutemConvert/src/Task.cpp:49-53 | no owner |
| Task.Repeating.Attached | CrutemConvert/src/Task.cpp:56-60 | attached to the given owner |
| Task.Repeating.Move | CrutemConvert/src/Task.cpp:63-76 | the new handle takes over the owner, which now reports to it; the old handle is emptied |
| Task.Repeating.Destroy | CrutemConvert/src/Task.cpp:79-85 | the owner forgets this handle |
| Task.Repeating.Last | CrutemConvert/src/Task.cpp:88-95 | the owner's last run time, or 0 without an owner |
| Task.Repeating.CountRemaining | CrutemConvert/src/Task.cpp:98-105 | the owner's count, or 0 without an owner |
| Task.Repeating.Interval | CrutemConvert/src/Task.cpp:108-115 | the owner's interval, or 0 without an owner |
| Task.Repeating.SetInterval | CrutemConvert/src/Task.cpp:135-145 | succeeds exactly when there is an owner, and sets its interval |
| Task.Repeating.SetCount | CrutemConvert/src/Task.cpp:148-158 | succeeds exactly when there is an owner, and sets its count |
| Task.Repeating.OwnerDestroyed | CrutemConvert/src/Task.cpp:169-203 | the handle forgets its owner |
| Task.Repeating.Cancel | CrutemConvert/src/Task.cpp:118-132 | succeeds exactly when some group holds the owner; then the owner is destroyed and forgotten, and no queue changes |
| Task.TaskGroup.constructor | CrutemConvert/src/Task.cpp:425-438 | DEFAULT becomes NORMAL; the thread budget is `ConstructedCapacity`; empty and not finalised |
| Task.TaskGroup.SetPriority | CrutemConvert/src/Task.cpp:456-479 | the priority and `ResetCapacity` budget change; queues and threads do not |
| Task.TaskGroup.Assign | CrutemConvert/src/Task.cpp:482-519 | after finalisation it throws and changes nothing; otherwise it places the job by priority and updates the thread count |
| Task.TaskGroup.AssignRepeat | CrutemConvert/src/Task.cpp:522-539 | after finalisation it throws; otherwise it adds the owner, keeps the list sorted and starts the repeater, which fixes its sleep floor from the priority at that moment (Task.cpp:709-717); a running repeater keeps its floor |
| Task.TaskGroup.Next | CrutemConvert/src/Task.cpp:609-623 | pops the queue's front, or nothing from an empty queue |
| Task.TaskGroup.Execute | CrutemConvert/src/Task.cpp:543-553 | runs the front job and returns the remaining depth; 0 on an empty queue |
| Task.TaskGroup.CountPending | CrutemConvert/src/Task.cpp:556-561 | 0 exactly when the queue is empty |
| Task.TaskGroup.Finalize | CrutemConvert/src/Task.cpp:564-580 | `Finalize(true)` drains the queue and clears the repeats; `Finalize(false)` only clears the flag |
| Task.TaskGroup.Cancel | CrutemConvert/src/Task.cpp:583-606 | succeeds exactly when the owner is in the group; it is removed and destroyed and its handle forgets it |
| Task.TaskGroup.RunWorker | CrutemConvert/src/Task.cpp:630-695 | a non-warrior worker runs the whole queue unless finalised, counts all but the last job, and exits |
| Task.TaskGroup.RemoveSpent | CrutemConvert/src/Task.cpp:731-737 | the spent owner is removed and destroyed; other states are unchanged |
| Task.TaskGroup.RepeaterPass | CrutemConvert/src/Task.cpp:699-761 | one pass computes `Scan` on the owners, the runs and the removal; the sleep is bounded below by the floor fixed when the thread started, not by the current priority; the thread stops when the list empties |
| Task.ScanOwners | CrutemConvert/src/Task.cpp:726-747 | the scan loop computes `Scan` on the owner objects |
| Task.VisitOwner | CrutemConvert/src/Task.cpp:727-746 | one owner of the scan: due exactly when its interval has elapsed; executed when due |
| Task.Scheduler.constructor | CrutemConvert/src/Task.cpp:776-782 | the three global groups: LOW with `hw/2` threads, NORMAL and URGENT with `hw`, all empty |
| Task.Scheduler.SetDefaultPriority | CrutemConvert/src/Task.cpp:234-237 | resets only the normal group's priority and budget |
| Task.Scheduler.CountPending | CrutemConvert/src/Task.cpp:240-257 | sums the queues of the covered groups |
| Task.Scheduler.Finalize | CrutemConvert/src/Task.cpp:260-274 | drains exactly the covered groups |
| Task.Scheduler.ReInitialize | CrutemConvert/src/Task.cpp:277-291 | clears the finalised flag of exactly the covered groups |
| Task.Scheduler.CancelOwner | CrutemConvert/src/Task.cpp:121-125 | tries low, normal, high in turn and stops at the first group that holds the owner |
| Task.Scheduler.TotalExecuted | CrutemConvert/src/Task.cpp:294-297 | the executed-job counter |
| Task.Scheduler.ResetTotalExecuted | CrutemConvert/src/Task.cpp:299-302 | the counter becomes 0 |
| Task.Scheduler.Assign | CrutemConvert/src/Task.h:90-113 | routes the job to its priority's group and places it there, or fails after finalisation |
| Task.Scheduler.Async | CrutemConvert/src/Task.h:125-130 | a DEFAULT job goes to the back of the normal queue |
| Task.Scheduler.AsyncRepeat | CrutemConvert/src/Task.h:133-157 | creates an owner with the given count and interval in the routed group and returns its handle |
| Task.Scheduler.AsyncEvery | CrutemConvert/src/Task.h:160-165 | a normal-group owner with count INT_MAX |
| Task.Scheduler.AsyncTimes | CrutemConvert/src/Task.h:168-173 | a normal-group owner with the given count |
| Task.Scheduler.AsyncEveryAt | CrutemConvert/src/Task.h:176-181 | an owner with count INT_MAX in the routed group |
| Task.Scheduler.RunWorker | CrutemConvert/src/Task.cpp:663-671 | the global total grows by what the worker counted |
| Task.Scheduler.RepeaterPass | CrutemConvert/src/Task.cpp:699-761 | the global total grows by the payload runs of the pass, and the sleep uses the group repeater's start-time floor |
| AvgAccum.IndexOf | CrutemConvert/src/IDAvgAccum.h:155-168 | the first entry with the key, or -1 exactly when there is none |
| AvgAccum.AddedWellFormed | CrutemConvert/src/IDAvgAccum.h:75-91 | `add` keeps the keys distinct and the counts positive |
| AvgAccum.AddedKeys | CrutemConvert/src/IDAvgAccum.h:75-91 | `add` adds exactly the key to the key set |
| AvgAccum.AddEffect | CrutemConvert/src/IDAvgAccum.h:75-91 | a new key appends (key, 1, val); a known key keeps the size; other entries are unchanged; count and total grow by 1 and val |
| AvgAccum.AddOthers | CrutemConvert/src/IDAvgAccum.h:75-91 | other keys' counts and totals are unchanged |
| AvgAccum.AccumulateFigures | CrutemConvert/src/IDAvgAccum.h:75-91 | after any adds, each key's count and total are the number and sum of its adds |
| AvgAccum.AccumulateKeys | CrutemConvert/src/IDAvgAccum.h:75-91 | after any adds, the keys are exactly the keys added, each once |
| AvgAccum.SizeIsKeyCount | CrutemConvert/src/IDAvgAccum.h:106-110 | `size` is the number of distinct keys added |
| AvgAccum.GetIsMean | CrutemConvert/src/IDAvgAccum.h:94-104 | `get` is the mean of the values added under the key, or 0 for a key never added |
| AvgAccum.DocumentedExample | CrutemConvert/src/IDAvgAccum.h:16-31 | the documented adds give 15.0 for 1850, 1860 and 1870 |
| AvgAccum.ExampleFigures | CrutemConvert/src/IDAvgAccum.h:16-31 | in the example each year has two values summing to 30 |
| AvgAccum.DocumentedSize | CrutemConvert/src/IDAvgAccum.h:16-31 | the example holds three entries |
| AvgAccum.SortByKeySpec | CrutemConvert/src/IDAvgAccum.h:112-120 | `sort` gives a permutation ordered by key |
| AvgAccum.SortedWellFormed | CrutemConvert/src/IDAvgAccum.h:112-120 | sorted entries stay well formed with strictly increasing keys |
| AvgAccum.InsertByKeySpec | CrutemConvert/src/IDAvgAccum.h:115-119 | inserting into a sorted table keeps it sorted and adds exactly the entry |
| AvgAccum.IDAvgAccum.constructor | CrutemConvert/src/IDAvgAccum.h:44 | an empty table |
| AvgAccum.IDAvgAccum.Find | CrutemConvert/src/IDAvgAccum.h:155-168 | the loop finds `IndexOf` |
| AvgAccum.IDAvgAccum.Add | CrutemConvert/src/IDAvgAccum.h:75-91 | the table becomes `Added`, still well formed |
| AvgAccum.IDAvgAccum.Get | CrutemConvert/src/IDAvgAccum.h:94-104 | returns `Average` |
| AvgAccum.IDAvgAccum.Size | CrutemConvert/src/IDAvgAccum.h:106-110 | the number of entries |
| AvgAccum.IDAvgAccum.Sort | CrutemConvert/src/IDAvgAccum.h:112-120 | the table becomes `SortByKey` |
| AvgAccum.IDAvgAccum.ForEach | CrutemConvert/src/IDAvgAccum.h:141-152 | visits each entry in order with its key, mean and count |
| StationCalc.RowIndex | CrutemConvert/src/StationCalc.cpp:67-72 | the first row with the year, or -1 exactly when none has it |
| StationCalc.MapYearSlot | CrutemConvert/src/StationCalc.cpp:160-166 | one row per row |
| StationCalc.SetWellFormed | CrutemConvert/src/StationCalc.cpp:58-81 | `Set` keeps 13 slots per row and 32-bit keys |
| StationCalc.SetNeedsYearAndMonth | CrutemConvert/src/StationCalc.cpp:58-81 | `Set` changes nothing exactly when the year or month is invalid or the slot already holds the value |
| StationCalc.SetEffect | CrutemConvert/src/StationCalc.cpp:58-81 | a known year writes one slot; a new year appends a zeroed row with the key truncated to 32 bits |
| StationCalc.SetKeepsDistinct | CrutemConvert/src/StationCalc.cpp:67-80 | for years a uint32 holds, `Set` keeps the years distinct |
| StationCalc.GetAfterSet | CrutemConvert/src/StationCalc.cpp:20-81 | after `Set(date, v)`, `Get(date)` is v within range |
| StationCalc.GetFrame | CrutemConvert/src/StationCalc.cpp:20-81 | `Set` does not change what `Get` gives for any other slot |
| StationCalc.NewYearReadsZero | CrutemConvert/src/StationCalc.cpp:74-80 | other months of a newly created year read 0 instead of FAILURE |
| StationCalc.WideYearAlwaysAppends | CrutemConvert/src/StationCalc.cpp:74-80 | a year outside uint32 is never found again: every `Set` appends, `Get` fails, and the value shows under the truncated year |
| StationCalc.NoRow | CrutemConvert/src/StationCalc.cpp:67-72 | no row holds a year outside uint32 |
| StationCalc.GetFailures | CrutemConvert/src/StationCalc.cpp:20-55 | FAILURE without year and month or out of range; month-only reads the final slot; year-only reads the yearly slot |
| StationCalc.Result.constructor | CrutemConvert/src/StationCalc.cpp:10-14 | no rows, every final slot FAILURE |
| StationCalc.Result.FindRow | CrutemConvert/src/StationCalc.cpp:67-72 | the row loop finds `RowIndex` |
| StationCalc.Result.Get | CrutemConvert/src/StationCalc.cpp:20-55 | returns `GetValue` |
| StationCalc.Result.Set | CrutemConvert/src/StationCalc.cpp:58-81 | the rows become `SetRows` |
| StationCalc.Result.SetFinal | CrutemConvert/src/StationCalc.cpp:85-92 | null changes nothing; otherwise the 13 final slots are copied |
| StationCalc.Result.ForEachYear | CrutemConvert/src/StationCalc.cpp:160-166 | the callback rewrites each row's yearly slot |
| StationCalc.Result.ForEachFinal | CrutemConvert/src/StationCalc.cpp:113-119 | the callback rewrites each final slot |
| CoordCell.MinOf | CrutemConvert/src/CoordCell.cpp:110-117 | the least of the start and all years, reached by one of them |
| CoordCell.TrackedIsMin | CrutemConvert/src/CoordCell.cpp:110-117 | one insert keeps the smaller year; the date is unchanged or year-only |
| CoordCell.TrackedAllIsMin | CrutemConvert/src/CoordCell.cpp:95-120 | from the default date, the tracked year is the least of INT32_MAX and all inserted years |
| CoordCell.EMCoordCell.constructor | CrutemConvert/src/CoordCell.cpp:13-25 | no stations, default years |
| CoordCell.EMCoordCell.Find | CrutemConvert/src/CoordCell.cpp:63-68 | true exactly when the station is in the cell |
| CoordCell.EMCoordCell.Count | CrutemConvert/src/CoordCell.cpp:123-127 | the number of stations |
| CoordCell.EMCoordCell.Insert | CrutemConvert/src/CoordCell.cpp:95-120 | refused exactly for null or outside; otherwise appended, with both years tracked |
| CoordCell.EMCoordCell.Remove | CrutemConvert/src/CoordCell.cpp:71-92 | the remove/erase result; a single occurrence is removed outright; the years are unchanged |
| Rect.EqIsEquality | CrutemConvert/src/Rect.cpp:55-67 | `==` is equality of the four edges and `!=` its negation |
| Rect.IntersectionIsMeet | CrutemConvert/src/Rect.cpp:70-75 | `&` lies inside both and holds every rectangle that does |
| Rect.UnionIsJoin | CrutemConvert/src/Rect.cpp:78-83 | `\|` holds both and lies inside every rectangle that does |
| Rect.ContainsOrder | CrutemConvert/src/Rect.cpp:105-110 | containment is reflexive and transitive and carries points |
| Rect.CornersContained | CrutemConvert/src/Rect.cpp:97-102 | a valid rectangle contains its four corners |
| Rect.IntersectsMeansCommonPoint | CrutemConvert/src/Rect.cpp:86-94 | valid rectangles intersect exactly when `&` is valid and when they share a point; it is symmetric |
| Rect.InvalidIntersectsNothing | CrutemConvert/src/Rect.cpp:86-94 | an invalid rectangle, such as the default one, intersects nothing |
| FileSystem.StripOne | CrutemConvert/src/FileSystem.cpp:302-303 | removing one trailing delimiter leaves a non-empty path unless the path was empty or "/" |
| FileSystem.LastToken | CrutemConvert/src/FileSystem.cpp:307-314 | the last `getline` segment is the text after the last delimiter |
| FileSystem.DecodeSpecialPaths | CrutemConvert/src/FileSystem.cpp:292-299 | an empty path changes nothing; "/" is a directory with no name |
| FileSystem.DecodeOrdinary | CrutemConvert/src/FileSystem.cpp:289-315 | one trailing delimiter is stripped; the name is delimiter-free and is the text after the last delimiter |
| FileSystem.TrailingDelimiterSilent | CrutemConvert/src/FileSystem.cpp:307-314 | a trailing delimiter adds no segment |
| FileSystem.DoubleTrailingDelimiter | CrutemConvert/src/FileSystem.cpp:302-314 | with "//" at the end, one delimiter stays in the path and the name is still the last segment |
| FileSystem.RootChild | CrutemConvert/src/FileSystem.cpp:337-339 | a child of "/" is "/name": the "//" is erased |
| FileSystem.ChildPathKeepsParent | CrutemConvert/src/FileSystem.cpp:330-339 | under the intended rule `ChildPathIntended`, a parent not starting with a delimiter is kept whole: "." and "data" give "./data" |
| FileSystem.ChildPathShape | CrutemConvert/src/FileSystem.cpp:330-339 | a child path is the built path, less at most its first character, and ends with "/name" |
| FileSystem.ChildNameRoundTrip | CrutemConvert/src/FileSystem.cpp:330-339 | decoding a child path gives back its name, with no delimiter stripped |
| FileSystem.ChildNames | CrutemConvert/src/FileSystem.cpp:318-346 | the children's decoded names are the readdir names without "." and "..", in order |
| FileSystem.DotsSkipped | CrutemConvert/src/FileSystem.cpp:329-341 | every name except "." and ".." becomes a child |
| FileSystem.OneCharParentLost | CrutemConvert/src/FileSystem.cpp:337-339 | as written, a one-character parent is lost ("." and "data" give "/data") and "a/b" with "c" gives "/b/c" |
| FileSystem.AbsoluteParentsAgree | CrutemConvert/src/FileSystem.cpp:337-339 | for parents starting with "/", the code as written and the intended rule agree |
| FileSystem.LastSection | CrutemConvert/src/FileSystem.cpp:307-314 | the deque loop leaves the last segment at the front |
| FileSystem.Entry.constructor | CrutemConvert/src/FileSystem.cpp:82-91 | the fields are those `Decode` gives for the path; no children listed yet |
| FileSystem.Entry.DecodeName | CrutemConvert/src/FileSystem.cpp:289-315 | the fields become `Decode` of the old ones |
| FileSystem.Entry.InitVector | CrutemConvert/src/FileSystem.cpp:318-346 | once and only for a directory, appends the child paths the code builds (`ChildPaths`, with the erase as written) and marks the list done; otherwise nothing changes |
| FileSystem.Entry.Count | CrutemConvert/src/FileSystem.cpp:197-202 | lists the children as `InitVector` does (once, only for a directory) and returns their number |

## Left out

- Threads, mutexes, condition variables and sleeps of the scheduler. A worker or the repeater is a method that runs its loop on the caller's thread.
- `Task.TaskGroup.RunWorker` models a non-warrior worker, including its exit after 15 dry polls. The warrior thread's exemption from that limit (its endless loop), the 250 ms waits and the 2.5 s wake-ups are left out.
- The backpressure wait in `TBTaskGroup::Assign`, `Repeating::WaitOnce`, `_SetOSThreadPriority` and thread renaming are left out: they only affect timing.
- The millisecond clock `ms_time()` is a parameter `now`, fixed for one repeater pass.
- `thread::hardware_concurrency()` is a parameter `hw`.
- `Task.Scheduler.Assign`: the payload of a future is an opaque job, and `shared_future` results are not modelled.
- `Task.Scheduler.CancelOwner` does not assume the three groups hold disjoint owners, so it states the short-circuit per group instead.
- Integer widths are unbounded: the int64 year, int16 month/day/keep day, int32 counters and the `unsigned long long` total do not wrap.
- Two widths are modelled: the uint32 station ID (`atoi` result stored modulo 2^32) and the uint32 year key of `Calc::Result`.
- `AvgAccum.IDAvgAccum.Add`: the uint32 count does not wrap, and values are exact reals, so sums never round.
- `Date.DaysFrom` and `EMDateRange` are not modelled: `EMDateRange` has no implementation, so `Calc::Result::Get` takes the range test as an input.
- `StationCalc.Result.Set`: the `fDRange.Include` call is not modelled, for the same reason.
- `Date.EMDate.AddAssign`: the operand is taken by value, so `d += d` aliasing is not modelled.
- Floating point is left out:
  - latitude, longitude, monthly temperatures and averages in `ParseStation`;
  - `atof` results, which are kept as the text `atof` would read;
  - NaN edges of `EMRect`;
  - the area and elevation of `EMCoordCell`.
- `main()`'s statistics loop, `ParseFile` and all printing and I/O (`printf`, `PrintHelp`, `PrintToStream`, the "Unknown cellrect boundary" message) are left out.
- `StationParse.ParseStation`: reading past a list or string ends in an `Undefined` or `OutOfRange` outcome, and the station's fields are not stated then.
- `StationParse.ParseStation`: the 1.3-second `snooze` after a year mismatch is left out.
- `CoordCell.EMCoordCell.Insert`: whether the cell's rectangle contains the station is floating-point geometry, so it is an input.
- `CoordCell.EMCoordCell.Insert` and `CoordCell.EMCoordCell.Remove` leave out the elevation grid updates.
- `CoordCell.EMCoordCell.Remove` requires the station to be present: otherwise the source calls `erase(end())`, which is undefined behaviour.
- `Calc::Result::foreach_month` and `foreach_day` are not modelled: the first only builds dates for the callback, and the second is empty.
- `EMRect` `InsetBy`, `OffsetBy`, `OffsetTo`, `Width`, `Height` and `PrintToStream` are not modelled: they are float arithmetic or output.
- `fs::Entry` probes are inputs: `opendir`/`readdir` give the names, and `lstat`/`fopen` give whether the path is a directory.
- The `IsDirectory` cache, `for_each_file`, `for_each_directory`, `EntryAt` and the iterators of `fs::Entry` are not modelled.
- `FileSystem.Entry.DecodeName` leaves out the second empty-path check of `_DecodeName`. It can never fire, because the path is then neither empty nor "/".

## Findings

| source | as written | input that shows it | evidently intended | confidence | as-written member | corrected member |
|---|---|---|---|---|---|---|
| CrutemConvert/src/FileSystem.cpp:337-339 | erases the first character of the child path whenever the second character is '/' | parent "." (the entry for the current directory), name "data": the child becomes "/data"; parent "a/b", name "c": "/b/c" | erase only a doubled leading delimiter ("//name" for the root), so "./data" stays "./data" | high; not executed | FileSystem.OneCharParentLost | FileSystem.ChildPathKeepsParent |
| CrutemConvert/src/Date.cpp:126-127 | `DaysInMonth` calls `IsLeapYear()`, whose default argument is INT32_MAX (Date.h:116), but the "this date's year" sentinel is INT64_MAX, so year 2147483647 is tested | 2000-02-xx: `DaysInMonth(2)` is 28, and the documented keep-day table (Date.h:71-79) gives 28 Feb 2000 instead of 29 | February has 29 days in leap years of this date | high; not executed | Date.FebruaryAlways28 | Date.LeapFebruary |
