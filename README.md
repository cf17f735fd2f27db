# Tsung log reader and report engine, in Dafny

This project models the core of a load-test report generator. The `Tsung`
class reads the `tsung.log` a Tsung load test writes. That log is a series of
statistics dumps, each opened by a `# stats: dump at <timestamp>` line and
followed by `stats: <name> <values…>` lines. From it the class derives:

- the list of blocks, one per dump (`parse`);
- the names it finds, in the groups `add_name_by_category` chooses;
- for every name, a series of 10-second counts and a series of 10-second
  means, each stamped with the first block it appears in (`process`);
- the transaction and HTTP status-code tables (`tables`);
- the three charts: mean transaction duration, transaction rate and HTTP
  code rate (`one_chart_data`, `charts`).

It also models the helpers of `utils.py` that read a statistic as an int or a
float (`number`) and render durations and rates (`str_sec`, `str_number`).

The class is a Dafny `class Tsung` (module `TsungData`). Its fields
`startTimestamp`, `data`, `names`, `count` and `mean` are updated by its
methods as the Python methods update them, and its loops keep invariants.
Each method is proved equal to a specification function in one of four
modules:

- `TsungLog`: what a line means, and the fold over the lines;
- `TsungNames`: the classifier and the walk order of the names;
- `TsungSeries`: the walk of `process`;
- `TsungReport`: the rows and chart lines.

Lemmas then state what the source promises about those functions. Python's
own behaviour is written out in `Wrappers`, `Strings`, `Numerals` and
`Builtins`. This covers:

- exceptions, as `Result`/`Outcome` values;
- the edge cases of `str.strip`, `str.split` and `sorted` on strings;
- `int` and `float` of text, and `int` of a float;
- `'{:.Nf}'` formatting;
- `range`, `zip`, `max`, `min` and `sum`.

Every Python exception the modelled code can raise is modelled as the value
`IndexError`, `KeyError`, `ValueError`, `TypeError` or `ZeroDivisionError`.
A method that ends in an exception leaves the object as the Python method
leaves it at the point of the raise, given the order the model walks sets
in (see "## Left out": for `process`, which status codes already have
series at a ValueError depends on that order).

Some of the code's behaviour is easy to get wrong when reading it; the
model follows the code:

- Only `tr_` lines and status-code lines are stored by `parse`. Every other
  `stats:` line is dropped, Tsung's match, error and sensor lines included.
- The error group takes names that start with `error_`, not names that
  contain `error`. There are no cpu, load or freemem categories: those
  names, like the main, network and users names, stay in the fixed tuples
  of `self.names`.
- The HTTP mean rate divides the total by the whole test's duration (last
  block's timestamp minus the first block's). It does not use the time
  since the code was first seen (tsung_data.py:227,254).
- The ignored transactions are removed from the transaction group before
  `process` builds any series. So they get no series at all, instead of
  keeping series that the report merely leaves out (tsung_data.py:181).

## Model

| member | source | states |
|---|---|---|
| TsungData.Tsung.constructor | tsung_data.py:105-127 | a new object has start timestamp 0, no blocks, empty discovered groups and no series, and satisfies the class invariant `Valid` (every discovered name is in the group its form selects) |
| TsungData.Tsung.Parse | tsung_data.py:133-171 | the blocks read are appended to `data` and the outcome is that of `ParseLog(lines)`, exception included; blocks handed over before an exception stay appended |
| TsungData.Tsung.ApplyLine | tsung_data.py:143-168 | one line's effect on the reader: a dump header hands over a non-empty block, then opens a stamped block or raises ValueError; a record is stored under its name; the state is `Step` of the scan |
| TsungData.Tsung.ReadLineAt | tsung_data.py:138-139 | reading line `i` gives the `i`-th element of `Effects(lines)` |
| TsungData.Tsung.ReadLine | tsung_data.py:139-168 | a raw line is stripped and recognised exactly as `Interpret` says: blank, header, transaction, status code or dropped line, or the exception it raises |
| TsungData.Tsung.AddNameByCategory | tsung_data.py:208-219 | the groups after the call are `AddName` of the groups before it, and `Valid` is kept |
| TsungData.Tsung.CollectNames | tsung_data.py:177-179 | after the first loop of `process` the groups are `GroupsOf` the old groups and all blocks, and `Valid` is kept |
| TsungData.Tsung.AddKeys | tsung_data.py:178-179 | adding a block's keys one by one, in any order, yields `Added(old groups, keys)` and keeps `Valid` |
| TsungData.Tsung.VisitBlock | tsung_data.py:188-201 | one block of the walk: its timestamp is read (KeyError), the sample, if any, opens the missing count and mean series and extends them (ValueError on an unreadable count); the result is `Visit` |
| TsungData.Tsung.VisitName | tsung_data.py:187-201 | the walk of one name over all blocks in order, stopping at the first exception, is `VisitBlocks` |
| TsungData.Tsung.VisitNamesInOrder | tsung_data.py:186-201 | the walk of every name in order, stopping at the first exception, is `VisitNames` |
| TsungData.Tsung.WalkNames | tsung_data.py:183-201 | the start timestamp, the series and the outcome are those of `ProcessOf` (IndexError with no blocks, KeyError when the first is unstamped) |
| TsungData.Tsung.Process | tsung_data.py:173-201 | the groups become `WithoutIgnored(GroupsOf(old groups, data))`, `Valid` is kept, and the start, series and outcome are `ProcessOf` of the data and those groups |
| TsungData.Tsung.Tables | tsung_data.py:221-260 | the result is `TablesOf` the object's state: the duration, then the transaction rows, then the HTTP rows, or the first exception |
| TsungData.Tsung.TransactionTable | tsung_data.py:230-246 | the loop over the sorted transactions collects `TransactionEntries`, stopping at the first exception |
| TsungData.Tsung.TransactionRowAt | tsung_data.py:231-245 | one pass of the transaction loop yields the `i`-th entry of `TransactionEntries` |
| TsungData.Tsung.HttpTable | tsung_data.py:249-258 | the loop over the sorted status codes collects `HttpEntries`, stopping at the first exception |
| TsungData.Tsung.HttpRowAt | tsung_data.py:250-257 | one pass of the HTTP loop yields the `i`-th entry of `HttpEntries` |
| TsungData.Tsung.OneChartData | tsung_data.py:262-280 | the lines of the chart are `ChartOf(names, get, start)` |
| TsungData.Tsung.Charts | tsung_data.py:282-310 | the three charts are `ChartsOf` the groups, start and series; the first exception ends it |
| TsungLog.Numbers | tsung_data.py:156 | `map(number, tokens)` succeeds exactly when `number` accepts every token, and then holds each token's value in order |
| TsungLog.Effects | tsung_data.py:138-139 | one effect per line |
| TsungLog.EffectsAt | tsung_data.py:138-139 | the `k`-th effect is the meaning of the `k`-th line |
| TsungLog.Finish | tsung_data.py:170 | `parse` ends normally exactly when no line raised |
| TsungLog.BlankLineSkipped | tsung_data.py:139-141 | a line of whitespace only does nothing |
| TsungLog.BlankLogOneBlock | tsung_data.py:170 | a log of blank lines yields exactly one empty block: the last block is appended even when empty |
| TsungLog.StoreThenWithinBlock | tsung_data.py:152-168 | after a record is stored, further lines of the same block (no dump header, no exception) leave the reader as they would have without that record, apart from the entry of its name |
| TsungLog.LastSampleWins | tsung_data.py:152-168 | a name stored twice in one block keeps the later record, whatever lines of that block come between the two: the reader ends as if the first record had never been read |
| TsungLog.HeaderLineRead | tsung_data.py:144-149 | `# stats: dump at <ts>` opens a block stamped `ts` |
| TsungLog.StatLine | tsung_data.py:139-152 | a `stats: ` line is read as its text after the 7 skipped characters |
| TsungLog.TransactionLineRead | tsung_data.py:153-158 | a `tr_` line with seven values `number` accepts stores a `Data` record of those values under the name |
| TsungLog.TransactionLineArity | tsung_data.py:156 | a `tr_` line with readable values but not exactly seven of them raises TypeError |
| TsungLog.TransactionLineBadValue | tsung_data.py:156 | a `tr_` line with a value `number` rejects raises ValueError |
| TsungLog.CounterLineRead | tsung_data.py:160-168 | a status-code line with two values stores a counter record whose values stay text |
| TsungLog.CounterLineArity | tsung_data.py:167 | a status-code line without exactly three fields raises TypeError |
| TsungLog.OtherLineSkipped | tsung_data.py:160-168 | a line of any other name changes nothing |
| TsungLog.ShortLineFails | tsung_data.py:152-162 | a non-blank, non-header line of at most 7 characters raises IndexError |
| TsungLog.RecordFits | tsung_data.py:153-168 | every stored record is stored under its own name, `tr_` names as `Data` and status codes as counters |
| TsungLog.InterpretFits | tsung_data.py:139-168 | every line's effect stores only such records |
| TsungLog.StepSound | tsung_data.py:144-157 | one line keeps the reader's invariant: handed-over blocks are non-empty, all but the first are stamped, every block is well keyed |
| TsungLog.ScanSound | tsung_data.py:138-168 | the invariant holds after any lines |
| TsungLog.FinishShape | tsung_data.py:170 | appending the last block keeps the invariant |
| TsungLog.ParseLogShape | tsung_data.py:133-171 | after `parse` every block but the first carries a timestamp, every block but the last is non-empty, and every block is well keyed |
| TsungLog.HeaderStamps | tsung_data.py:144-148 | at most one timestamp per line |
| TsungLog.BlocksFollowHeaders | tsung_data.py:139-170 | a log that opens with a header and raises nothing has exactly one block per header line, stamped with its timestamp, in file order |
| TsungLog.ScanStamps | tsung_data.py:144-149 | the same for the reader's state after any effects |
| TsungNames.CategoryOf | tsung_data.py:208-219 | first match wins: `timestamp` never, then `tr_` → transaction, all digits → http, `error_` → error, containing `match` → match, stated as one if-and-only-if per group |
| TsungNames.AddNameClassified | tsung_data.py:208-219 | adding a name keeps every group holding only names of its category |
| TsungNames.ClassifiedDisjoint | tsung_data.py:208-219 | the four discovered groups share no name |
| TsungNames.AddedOneMore | tsung_data.py:178-179 | adding a set of names plus one more is one more call of `add_name_by_category` |
| TsungNames.GroupsOfMembers | tsung_data.py:177-179 | a name ends up in a group exactly when it was there or names a statistic of some block and belongs to the group |
| TsungNames.GroupsOfClassified | tsung_data.py:177-179 | the grouping of any blocks keeps the groups classified |
| TsungNames.WithoutIgnored | tsung_data.py:181 | no ignored transaction is left in the transaction group |
| TsungNames.IgnoredAreTransactions | tsung_data.py:101-103 | every ignored name is a transaction name |
| TsungNames.Ungrouped | tsung_data.py:208-219 | a name starting with none of `t`, `e` or a digit, lacking a letter of `match`, belongs to no group |
| TsungNames.FixedNamesUngrouped | tsung_data.py:114-123 | the fixed main, network, users and server names belong to no discovered group |
| TsungNames.SortedNamesDistinct | tsung_data.py:184 | a set walked in sorted order visits each name once |
| TsungNames.AllNamesDistinct | tsung_data.py:184 | the walk order of `self.names` repeats no name |
| TsungNames.AllNamesMembers | tsung_data.py:184 | a name is walked exactly when it is a fixed name or in one of the groups |
| TsungNames.IgnoredNotWalked | tsung_data.py:181-184 | once removed, an ignored transaction is not walked |
| TsungSeries.CountOf | tsung_data.py:195 | `int(count_10sec)`: an int as is, a float truncated toward zero, a counter's text read by `int` (ValueError otherwise) |
| TsungSeries.Opened | tsung_data.py:193-200 | a series missing for the name is created with the block's timestamp and no values; a present one and every other name are untouched |
| TsungSeries.Appended | tsung_data.py:195-201 | the value is appended to the name's series; its timestamp and every other name are untouched |
| TsungSeries.FirstStamp | tsung_data.py:193-194 | there is a first stamp exactly when some block holds a sample of the name |
| TsungSeries.FirstMeanStamp | tsung_data.py:199-200 | there is a first mean stamp exactly when some block holds a transaction sample of the name |
| TsungSeries.FirstStampIsFirst | tsung_data.py:193-194 | a count series is stamped with the timestamp of the first block holding the name |
| TsungSeries.FirstMeanStampIsFirst | tsung_data.py:199-200 | a mean series is stamped with the timestamp of the first block holding a transaction sample of the name |
| TsungSeries.VisitBlocksFrame | tsung_data.py:186-201 | walking one name leaves every other name's series alone |
| TsungSeries.VisitBlocksFails | tsung_data.py:187-195 | the walk of a name ends normally exactly when every block is stamped and every count of the name reads; otherwise it raises KeyError or ValueError |
| TsungSeries.VisitBlocksCounts | tsung_data.py:187-195 | over stamped, readable blocks the count series is the old one continued by the name's counts in block order, or a new one from the first block holding it; no zeros are added for blocks without it |
| TsungSeries.VisitBlocksMeans | tsung_data.py:187-201 | likewise the mean series is continued by the means of its transaction samples |
| TsungSeries.VisitBlocksSeries | tsung_data.py:187-201 | both of the above at once |
| TsungSeries.NoStampNoCounts | tsung_data.py:189-191 | a name held by no block gets no counts |
| TsungSeries.NoStampNoMeans | tsung_data.py:189-201 | a name with no transaction sample gets no means |
| TsungSeries.VisitNamesFails | tsung_data.py:186-195 | the walk over the names ends normally exactly when there are none, or every block is stamped and every name's counts read |
| TsungSeries.VisitNamesFrame | tsung_data.py:186-201 | names not walked keep their series |
| TsungSeries.VisitNamesSeries | tsung_data.py:186-201 | walking distinct names leaves each with its old series continued by its counts and means in block order |
| TsungSeries.ProcessOfOutcome | tsung_data.py:183-195 | `process` completes exactly when there is a block, all are stamped and every walked name's counts read; IndexError with no blocks, KeyError with an unstamped first one, and then nothing has changed |
| TsungSeries.ProcessOfSeries | tsung_data.py:183-201 | after a complete `process` the start is the first block's timestamp, each walked name has its series continued by its counts and means, and every other name keeps what it had |
| TsungSeries.IgnoredKeepSeries | tsung_data.py:181-201 | the ignored transactions keep whatever series they had (none, on a fresh object), whether or not `process` completes |
| TsungSeries.ProcessOfFrame | tsung_data.py:184-201 | a name `process` does not walk keeps its series |
| TsungSeries.DataReadable | tsung_data.py:195 | the counts of parsed transaction samples always read |
| TsungSeries.DataAligned | tsung_data.py:193-201 | a name with only transaction samples has as many means as counts, both series starting at the same block |
| TsungSeries.CountersHaveNoMeans | tsung_data.py:197-201 | a name with only counter samples gets no mean series |
| TsungReport.CountedPeriods | tsung_data.py:232 | the positions whose count is positive, each once, in increasing order |
| TsungReport.KeepCounted | tsung_data.py:232 | a value is kept exactly when some pair with a positive count holds it; no more values than pairs |
| TsungReport.KeepCountedSelects | tsung_data.py:232 | the kept values are those of the pairs with a positive count, one per such pair, in order and with repetitions |
| TsungReport.ValuesWithoutZero | tsung_data.py:232 | `values_without_zero`: a mean is kept exactly when some period with a positive count has it |
| TsungReport.ValuesWithoutZeroSelects | tsung_data.py:232 | `values_without_zero` holds one value per period (up to the shorter series) whose count is positive, in order, each the mean at that position |
| TsungReport.Rates | tsung_data.py:239 | one rate per count, each the count over ten |
| TsungReport.PositiveRates | tsung_data.py:252 | exactly the rates of the positive counts |
| TsungReport.TransactionStatsOf | tsung_data.py:232-241 | the transaction statistics exist exactly when some period with a mean counted something; otherwise `max` raises ValueError |
| TsungReport.TransactionStatsUnfold | tsung_data.py:232-241 | they are the max, min and mean of the counted means, the max and mean of the rates, and the total of the counts |
| TsungReport.TransactionMeanOfCounted | tsung_data.py:232-236 | the row's mean is the sum of the means of the periods with a positive count, divided by the number of those periods |
| TsungReport.TransactionMeans | tsung_data.py:232-236 | the highest and lowest are counted means that bound all of them, and lowest ≤ mean ≤ highest |
| TsungReport.TransactionRates | tsung_data.py:238-241 | the total is the sum of the counts, the highest rate is a rate bounding every count over ten, and the mean rate is the total over ten over the number of periods |
| TsungReport.SumRates | tsung_data.py:239-241 | the rates add up to the total count over ten |
| TsungReport.HighestRate | tsung_data.py:239-240 | the highest rate is one of the rates and bounds every count over ten |
| TsungReport.MeanRate | tsung_data.py:241 | the mean rate is the total count over ten over the number of periods |
| TsungReport.TransactionRowOf | tsung_data.py:242-245 | the row carries the name and the total |
| TsungReport.TransactionEntry | tsung_data.py:231-245 | a transaction without a mean or a count series raises KeyError; the row exists exactly when both exist and the statistics do |
| TsungReport.TransactionEntries | tsung_data.py:231-245 | one entry per name |
| TsungReport.TransactionEntriesAt | tsung_data.py:231-245 | the `k`-th entry is the entry of the `k`-th name |
| TsungReport.HttpStatsOf | tsung_data.py:251-254 | the HTTP statistics exist exactly when some period saw the code and the test lasted; ValueError when none saw it, ZeroDivisionError on a zero duration |
| TsungReport.HttpStatsUnfold | tsung_data.py:251-254 | they are the max of the positive rates, the total over the duration, and the total |
| TsungReport.TransactionRateWithinTotal | tsung_data.py:238-240 | with no negative count, the total is non-negative and the highest rate is at most a tenth of the total |
| TsungReport.HttpRateWithinTotal | tsung_data.py:251-253 | with no negative count, the total is non-negative and the highest rate is at most a tenth of the total |
| TsungReport.HttpStatsFacts | tsung_data.py:251-254 | the highest rate is the rate of a period that saw the code and bounds all such, and the mean rate is the total per second of the test |
| TsungReport.HighestPositiveRate | tsung_data.py:252-253 | the max of the positive rates is one of them and bounds them all |
| TsungReport.PerSecond | tsung_data.py:254 | true division: the rate times the duration is the total |
| TsungReport.HttpRowOf | tsung_data.py:255-257 | the row carries the code and the total |
| TsungReport.HttpEntry | tsung_data.py:250-257 | a code without a count series raises KeyError; the row exists exactly when the series and the statistics do |
| TsungReport.HttpEntries | tsung_data.py:250-257 | one entry per code |
| TsungReport.HttpEntriesAt | tsung_data.py:250-257 | the `k`-th entry is the entry of the `k`-th code |
| TsungReport.Duration | tsung_data.py:227 | the duration exists exactly when there is a last block and it is stamped, and is its timestamp minus the start |
| TsungReport.TransactionEntriesOk | tsung_data.py:231-246 | every pass of the transaction loop succeeds exactly when every transaction has its row |
| TsungReport.HttpEntriesOk | tsung_data.py:250-258 | every pass of the HTTP loop succeeds exactly when every code has its row |
| TsungReport.TablesOfOk | tsung_data.py:221-260 | `tables` succeeds exactly when the duration exists and every transaction and every code has its row |
| TsungReport.TablesOfRows | tsung_data.py:221-260 | when it does, the rows follow the sorted names one for one, each the entry of its name |
| TsungReport.Points | tsung_data.py:269-270 | one point per value, the `i`-th at `x0 + 10·i` |
| TsungReport.LineOf | tsung_data.py:267-277 | a chart line is labelled with the name, unfilled, tension 0, with one point per value at `x = first stamp − start + 10·i` |
| TsungReport.ChartOfLines | tsung_data.py:262-280 | `one_chart_data` succeeds exactly when `get` does for every name, and then gives one line per name in sorted order |
| TsungReport.MeanChartLines | tsung_data.py:287 | the mean chart succeeds exactly when every transaction has a mean series, and plots each as it is |
| TsungReport.RateChartLines | tsung_data.py:292-305 | a rate chart succeeds exactly when every name has a count series, and plots each count over ten from the series' timestamp |
| TsungReport.ChartsOfOk | tsung_data.py:282-310 | `charts` succeeds exactly when every transaction has a mean and a count series and every code a count series |
| Utils.Number | utils.py:1-3 | `number` yields a float exactly when the text holds a point, and otherwise what `int` yields |
| Utils.NumberOfIntText | utils.py:1-3 | `number` reads the decimal text of any int as that int |
| Utils.NumberOfDecimalText | utils.py:1-3 | `number` reads digits, a point and digits as that exact decimal, a float |
| Utils.NumberRejects | utils.py:1-3 | text with no point that is not an optionally signed digit run makes `number` raise |
| Utils.StrSec | utils.py:6-8 | the text ends with ` sec` |
| Utils.StrSecRead | utils.py:6-8 | the text before ` sec` reads back as the sign of the value and, with two decimals, the magnitude of the milliseconds over 1000 times 100, rounded half to even |
| Utils.StrSecAccuracy | utils.py:6-8 | the hundredths of a second shown are within one half of the milliseconds over ten |
| Utils.StrNumber | utils.py:11-17 | the text ends with `unit` |
| Utils.StrNumberRead | utils.py:11-17 | an int with accuracy 0 is written as `str` writes it; anything else as its sign and its magnitude times 10^accuracy, rounded half to even, with `accuracy` decimals |
| Numerals.ParseInt | tsung_data.py:148 | `int` of text accepts only text that is not blank once stripped |
| Numerals.ParseIntOfIntToString | utils.py:14 | `int` reads back what `str` writes for any int |
| Numerals.ParseIntDigits | tsung_data.py:148 | `int` of a digit run is its value |
| Numerals.NatToStringValue | utils.py:14 | `str` of a natural writes its digits, with no leading zero |
| Numerals.ParseFloatDecimal | utils.py:3 | `float` of an optionally signed decimal literal is that exact number |
| Numerals.ParseFloatInteger | utils.py:3 | `float` of an optionally signed digit run is its integer value |
| Numerals.Trunc | tsung_data.py:195 | `int` of a float truncates toward zero |
| Numerals.RoundHalfEven | utils.py:6-17 | rounding to the nearest integer, ties to the even one |
| Numerals.Rounded | utils.py:6-17 | the scaled magnitude is within one half of the exact one |
| Numerals.FormatFixedRead | utils.py:6-17 | the fixed-point text reads back as the sign and the rounded scaled magnitude |
| Strings.StripSlice | tsung_data.py:139 | `strip` cuts exactly the whitespace at both ends |
| Strings.StripEmpty | tsung_data.py:139-141 | a line is blank once stripped exactly when it is all whitespace |
| Strings.StripUnchanged | tsung_data.py:139 | a string with no whitespace at either end is its own strip |
| Strings.Split | tsung_data.py:155-160 | `split` yields non-empty words without whitespace |
| Strings.SplitJoinWords | tsung_data.py:155-160 | splitting words joined by spaces gives the words back |
| Strings.SortedNames | tsung_data.py:231 | `sorted` of a set holds exactly its names, as many as the set has |
| Strings.SortedNamesSorted | tsung_data.py:231 | and in strictly increasing order of code points |
| Strings.LessTotal | tsung_data.py:231 | any two different strings are ordered |
| Strings.LessTransitive | tsung_data.py:231 | the order is transitive |
| Strings.LessIrreflexive | tsung_data.py:231 | and irreflexive |
| Builtins.Range | tsung_data.py:270 | `range` starts at its start, steps by `step` and stays below its stop |
| Builtins.RangeSteps | tsung_data.py:270 | a range ending `n` steps after its start holds exactly `n` values, the `i`-th `start + i·step` |
| Builtins.Zip | tsung_data.py:232 | `zip` pairs elements up to the shorter list |
| Builtins.Max | tsung_data.py:234 | `max` raises ValueError exactly on an empty list, and otherwise returns an element bounding all |
| Builtins.Min | tsung_data.py:235 | `min` likewise, bounding all from below |
| Builtins.SumBounds | tsung_data.py:236 | a sum of `n` values lies between `n` times a lower and `n` times an upper bound |
| Builtins.MeanWithin | tsung_data.py:236 | a mean lies between those bounds |
| Builtins.TotalBounds | tsung_data.py:238 | each of a list of non-negative counts is at most their total |
| Builtins.TotalNonNegative | tsung_data.py:238 | a total of non-negative counts is non-negative |
| Wrappers.Collect | tsung_data.py:230-246 | a loop appending each pass's result succeeds exactly when every pass does, then holds their values in order, and otherwise raises the first failure |
| Wrappers.CollectOneMore | tsung_data.py:231-245 | one more pass appends its value or ends the loop with its exception |
| Wrappers.CollectStopsAt | tsung_data.py:231-245 | a failing pass ends the loop with its exception, whatever follows |

## Left out

- create_report.py is not part of this model. It covers the command line,
  the template rendering and the writing of the HTML file.
- File handling in `parse` (tsung_data.py:135-137) is left out. `Parse`
  takes the lines of tsung.log as a sequence of strings.
- The debug prints (tsung_data.py:161,185,204-206) are left out.
- `json.dumps` (tsung_data.py:130,289,298,307) is left out. `Charts`
  returns the chart lines themselves, not their JSON text.
- The catalog dictionaries `tables` and `charts` (tsung_data.py:19-90) are
  not modelled: their titles, headers, axis labels and `done` flags. So
  are the other tables (`main`, `network`, `match`, `users`, `errors`,
  `server`), which the code never fills. `Tables` returns the transaction
  rows and the HTTP rows.
- The shallow copies `tables.copy()` and `charts.copy()`
  (tsung_data.py:223,285) are not modelled. They share the inner
  dictionaries with the module-level catalog, so a call's rows outlive it
  and later calls overwrite them. The model's results are fresh values.
- The unfinished `table_transactions` stub (tsung_data.py:312-318) is not
  modelled.
- Floats are exact reals, not IEEE doubles. `float(text)` is the exact
  decimal value. Sums and means over floats are exact, and `'{:.Nf}'`
  rounds the exact value half to even. These are the decimal results
  before binary rounding. Overflow to `inf` and `nan` are not modelled.
  Nor is the `OverflowError` of `int` on an infinite float.
- `int(text)` accepts ASCII digits only. Underscore separators (`1_000`)
  and non-ASCII digits are not modelled. `str.isdigit` is likewise ASCII
  only. Whitespace is Python's full `isspace` set.
- `process` walks the keys of each block's dict in insertion order
  (tsung_data.py:177-179), and then walks the sets of `self.names` in hash
  order (tsung_data.py:184-186).
  - The model adds a block's keys as a set. `Added` shows the grouping
    does not depend on their order.
  - It walks each set of `self.names` in sorted order. Each name is walked
    once (`AllNamesDistinct`) and touches only its own series
    (`VisitBlocksFrame`). So when `process` completes, the series do not
    depend on the order.
  - When `process` raises during the walk, they do. The only exception
    possible there is the ValueError of `int(d.count_10sec)` on a status
    code's count text (tsung_data.py:195): the KeyError of an unstamped
    block already comes at `connect`, the first name, before any series is
    made. At that ValueError, which other status codes already hold series
    depends on the set's order. The model shows the state the sorted order
    leaves; Python may leave more or fewer codes with series.
- The dict keys of a block other than `'timestamp'` are the names of its
  records. The `'timestamp'` key becomes the block's `timestamp` field, and
  `KeysOf` adds it back when grouping names. No record can be named
  `timestamp`, since such a name is neither `tr_` nor digits.
- The reference count series `Counts` is defined as one count per block
  holding the name, in block order. No separate lemma counts those blocks.
