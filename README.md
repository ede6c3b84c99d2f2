# drivedata: the per-row aggregation engine

`drivedata.py` reads a CSV of drive telemetry one row at a time. It folds each
row into four module-level tables, each keyed by region and by the reserved
key `"global"`:

- `drivedata`: drive count, power-on-hours sum and average, power-cycle sum
  and average, and zero-size tally;
- `driveage`: a histogram of drive age in years;
- `modeldict`: model-family frequencies;
- `sizedict`: per size, a drive count and a power-on-hours sum and average.

It also keeps three module-level counters: rows with an empty
Power_On_Hours field (`zero_poh`), rows with an empty Power_Cycle_Count
field (`zero_pcc`), and comment rows (`comment_line_count`).

This project models that engine and proves what it guarantees. It covers:

- the region resolver (`get_region_name`);
- lazy key creation (`add_keys`);
- the four field processors;
- the row branch of `process_data`;
- the loop over a file's rows.

The modules are:

- `Text`: the string operations the source spells with Python built-ins.
  - `PrefixBefore`: the text before the first occurrence of a character.
  - `Split`: a reference definition of `str.split`.
  - `Trim`: `str.strip`, over the characters `str.isspace()` accepts.
  - `ParseNat`: a digit-only `int()` that can fail.
  - `DigitText`: the decimal text of a number.
- `Sums`: the sum of the values of a map.
- `DriveData`: the engine as functions on a value `Tables` (the four tables
  and the three counters).
  - Each processor is written as the same sequence of single-entry updates
    the source performs, in the source's order.
  - The uncaught exceptions are `Failure` values: IndexError, ValueError and
    KeyError.
  - `Step` is one row. `Run` is `process_data` over a sequence of rows.
- `DriveProperties`: what one processor, and one row, does to the entry of
  any key, in closed form.
- `DriveInvariants`: the per-key balance between count and table totals, and
  Global as the sum of the regions. Both are preserved by every row.
- `DriveRuns`: the same properties over whole runs, and the counters as
  counts of rows.
- `DriveRules`: the repair rules, restated with `split`, `strip`, `int` and
  `str`.
- `DriveFaults`: exactly when a row raises, and what.
- `Engine`: the imperative engine, close to the source.
  - `Store` is a class whose fields are the module-level tables and
    counters. Its methods update them in place.
  - `Row` is a class whose string fields the processors rewrite in place,
    as the source rewrites the `row` dict.
  - Each method is proved to leave the store as a `DriveData` function
    computes it: the function of the same name for the processors and their
    parts, `Step` for `ProcessRow` and `Run` for `ProcessData`.

Averages are exact fractions `sum / count` (type `Average`). When a field
must be filled in from an average, the model uses `Whole`, the integer part
of the average, which `str(avg)` cut at its `.` yields.

The age histograms:

- They are seeded with the buckets 0 to 12 (drivedata.py:42 and 104). The
  report prints only the buckets 0 to 11 (`max_years = 12`, drivedata.py:17
  and 338).
- An age of 13 years or more raises KeyError at `driveage[region][age] += 1`
  (drivedata.py:151) and does not create a bucket. The model treats it as a
  fault (`AgeOutOfRange`).

A hostname whose region segment is `global` is not excluded. Its row updates
the Global entry twice, as the source does. The per-key balance holds
regardless, and the run lemmas count such rows separately.

## Model

| member | source | states |
|---|---|---|
| DriveRules.RegionIsSecondSegment | drivedata.py:116-120 | a region exists exactly when `hostname.split(".")` has a second element, and it is that element |
| DriveRules.RegionHasNoDot | drivedata.py:118-120 | a region never contains a `.` |
| DriveFaults.StepMalformed | drivedata.py:77-82 | a drive row fails with IndexError (MalformedHostname) exactly when its hostname has fewer than two `.`-segments |
| DriveData.AddKeys | drivedata.py:100-106 | an unseen region gets a zeroed stats entry, a histogram seeded 0..12 and empty model and size tables; existing keys, other entries and the counters are unchanged; the key set grows by the region only |
| DriveInvariants.CountDriveAt | drivedata.py:82-85 | after add_keys and the two count increments, the entry of any key is its old entry (or the zeroed one) with its count raised by one per hit; the three other tables are unchanged |
| DriveData.CountDrive | drivedata.py:84-85 | the two count increments keep the key sets, and afterwards both the region's count and Global's count are positive |
| DriveData.ProcessPowerOnHours | drivedata.py:123-154 | on success the key sets are kept, both counts stay positive, and the repaired field parsed as a number |
| DriveData.RecordHours | drivedata.py:143-152 | on success the key sets are kept and both counts stay positive |
| DriveProperties.RecordHoursAt | drivedata.py:143-147 | the entry of any key gains the hours once per hit (twice on Global when the region is "global"), and its average becomes sum / count |
| DriveProperties.RecordHoursAgeAt | drivedata.py:149-152 | bucket `hours div 8760` of the region's and of Global's histogram gains one per hit, and that bucket was seeded |
| DriveProperties.RecordHoursFrame | drivedata.py:143-152 | recording hours changes only `drivedata` and `driveage` |
| DriveProperties.RecordHoursFails | drivedata.py:150-152 | recording hours raises exactly when the age bucket is missing from the region's or Global's histogram |
| DriveProperties.RecordHoursFault | drivedata.py:150-152 | the exception raised is KeyError on that age |
| DriveProperties.PowerOnHoursRejects | drivedata.py:130-144 | a repaired value that `int()` rejects raises ValueError carrying the repaired text |
| DriveProperties.PowerOnHoursRecords | drivedata.py:130-154 | a value that parses is recorded, with zero_poh raised by one exactly when the field was empty |
| DriveRules.HoursTextCutsAtDot | drivedata.py:137-140 | a non-empty field becomes `split('.')[0]`: a prefix of the field holding no `.` (truncation, not rounding) |
| DriveRules.EmptyHoursTakeAverage | drivedata.py:130-140 | an empty field becomes `str(avg)` cut at its `.`, which `int()` reads as the integer part of the average |
| DriveRules.IntegerQuotientBounds | drivedata.py:131-140 | the integer part of `n / d` is the `q` with `q * d <= n < q * d + d` |
| DriveRules.WholeIsFloor | drivedata.py:131-140 | the integer part of an average is its floor, both as integers and against its real value |
| DriveRules.MeanFloor | drivedata.py:131-146 | the integer part of the average `sum / count` is `sum div count` |
| DriveInvariants.BaseStatsCurrent | drivedata.py:146-175 | on balanced tables the entry a row starts from has both averages equal to sum / count (0 before the first drive) |
| DriveFaults.EmptyHoursUseAverage | drivedata.py:130-140 | an empty field records the floor of the region's average over the drives before this row (0 for a new region), i.e. `prevSum div prevCount` |
| DriveFaults.StepBadHours | drivedata.py:144 | a drive row whose repaired Power_On_Hours is not a number raises ValueError with that text |
| DriveFaults.StepAgeFault | drivedata.py:150-152 | on balanced tables a drive row raises exactly when its age exceeds 12 years, with KeyError on that age |
| DriveFaults.StepSucceeds | drivedata.py:77-94 | on balanced tables a row raises nothing exactly when it is a comment, or its hostname has a region, its hours parse and its age is at most 12 |
| DriveRules.FreshBuckets | drivedata.py:42 | the seeded histogram holds exactly the ages 0 to 12 |
| DriveData.ProcessPowerCycleCount | drivedata.py:157-177 | the key sets are kept and both counts stay positive; the row is never aborted |
| DriveProperties.PowerCycleAt | drivedata.py:164-175 | the entry of any key gains the repaired value per hit (`"1"` for an empty field, nothing for a value `int()` rejects) and its average becomes sum / count over the incremented count |
| DriveProperties.PowerCycleFrame | drivedata.py:157-177 | only `drivedata` and zero_pcc change |
| DriveProperties.PowerCycleCounter | drivedata.py:164-166 | zero_pcc rises by one exactly when the field is empty |
| DriveData.ProcessDriveModel | drivedata.py:244-269 | the key sets are kept and the region's and Global's entries stay present |
| DriveData.CountFamily | drivedata.py:256-267 | the model tables keep their keys |
| DriveRules.FamilyIsFirstSegment | drivedata.py:247-253 | the family is `model.split('-')[0].strip()` of the repaired model (`(NULL)` for an empty one) and holds no `-` |
| DriveProperties.EnsureFamiliesAt | drivedata.py:256-262 | after the first-sighting checks a family new to the region's or Global's table is stored as 1; other tables are unchanged |
| DriveProperties.BumpFamiliesAt | drivedata.py:266-267 | the two increments add one per hit to a present family |
| DriveProperties.CountFamilyAt | drivedata.py:256-267 | a family's entry becomes its old value, or 1 if it is new, plus one per hit |
| DriveData.ProcessDriveSize | drivedata.py:180-242 | the key sets are kept |
| DriveData.CountSize | drivedata.py:201-240 | the size tables keep their keys |
| DriveRules.SizeKeyIsFirstSegment | drivedata.py:184-185 | the size key is `size.split('.')[0].strip()` |
| DriveProperties.EnsureSizesAt | drivedata.py:202-216 | a size new to the region's or Global's table gets a zeroed entry; other entries are unchanged |
| DriveProperties.AddToSizesAt | drivedata.py:228-238 | the size entry gains one drive per hit and the hours per hit, and its average becomes sum / count |
| DriveProperties.CountSizeAt | drivedata.py:201-240 | the two steps together: the entry, or a zeroed one, gains the drive and its hours per hit |
| DriveProperties.DriveSizeAt | drivedata.py:193-240 | a size key of `""` or `"0"` leaves every size table as it is; any other key updates the region's and Global's entries as above |
| DriveProperties.DriveSizeZeroAt | drivedata.py:193-199 | a size key of `""` or `"0"` raises zero_size by one per hit; any other key leaves `drivedata` as it is |
| DriveProperties.DriveSizeFrame | drivedata.py:180-242 | only `drivedata` and `sizedict` change |
| DriveData.ProcessFields | drivedata.py:87-91 | on success the four processors keep the key sets |
| DriveProperties.FieldsUnfold | drivedata.py:87-91 | a successful row runs the four processors in order, and the size processor uses the hours the first processor repaired |
| DriveProperties.FieldsAt | drivedata.py:87-91 | the `drivedata` entry of any key after the four processors: hours, cycles and zero-size updates composed |
| DriveProperties.FieldsAgesAt | drivedata.py:87-91 | the histogram of any key after the four processors |
| DriveProperties.FieldsModelsAt | drivedata.py:87-91 | the model table of any key after the four processors |
| DriveProperties.FieldsSizesAt | drivedata.py:87-91 | the size table of any key after the four processors, with the repaired hours |
| DriveProperties.FieldsCounters | drivedata.py:87-91 | zero_poh and zero_pcc rise exactly for empty fields; comment_line_count is unchanged |
| DriveProperties.FieldsRejectHours | drivedata.py:88 | a row whose repaired hours do not parse raises ValueError before any other processor runs |
| DriveProperties.FieldsRejectAge | drivedata.py:88 | a row raises KeyError exactly when its age bucket is missing |
| DriveData.Step | drivedata.py:77-94 | a comment row only raises comment_line_count by one; a successful drive row has a region and adds exactly it to the keys; well-formedness is kept |
| DriveInvariants.StepUnfold | drivedata.py:80-91 | a drive row is add_keys, the two count increments, then the four processors |
| DriveInvariants.StepStatsAt | drivedata.py:80-91 | the `drivedata` entry of any key after a drive row, in closed form, from its entry before |
| DriveInvariants.StepAgesAt | drivedata.py:80-91 | the histogram of any key after a drive row |
| DriveInvariants.StepModelsAt | drivedata.py:80-91 | the model table of any key after a drive row |
| DriveInvariants.StepSizesAt | drivedata.py:80-91 | the size table of any key after a drive row |
| DriveInvariants.StepCounters | drivedata.py:80-91 | a drive row raises zero_poh and zero_pcc exactly for empty fields and leaves comment_line_count unchanged |
| DriveInvariants.FreshBalanced | drivedata.py:103-106 | a fresh key is balanced: histogram, model and size totals all match its zero count |
| DriveInvariants.AgesStayBalanced | drivedata.py:149-152 | incrementing a seeded bucket once per hit keeps the histogram total equal to the count |
| DriveInvariants.ModelsStayBalanced | drivedata.py:256-267 | counting a family keeps the model total equal to the count plus the number of distinct families |
| DriveInvariants.SizeCountsUpdate | drivedata.py:228-238 | updating one size entry updates only that entry's count |
| DriveInvariants.SizesStayBalanced | drivedata.py:193-240 | a size row keeps the size counts plus zero_size equal to the count |
| DriveInvariants.RowStats | drivedata.py:84-240 | after a row a key's averages are current and its count and zero_size rise per hit |
| DriveInvariants.RowKeepsBalance | drivedata.py:84-240 | one row keeps a key's entries balanced |
| DriveInvariants.FreshKeyBalanced | drivedata.py:100-106 | the entries add_keys creates are balanced |
| DriveInvariants.OnlyGlobalBalanced | drivedata.py:41-45 | tables holding only a balanced Global are balanced |
| DriveInvariants.InitBalanced | drivedata.py:41-45 | the initial tables are balanced |
| DriveInvariants.StepBalancedAt | drivedata.py:80-91 | every key a drive row touches or keeps stays balanced |
| DriveInvariants.DriveRowKeepsBalance | drivedata.py:80-91 | a drive row keeps every key balanced |
| DriveInvariants.StepKeepsBalance | drivedata.py:77-94 | any row keeps every key balanced: histogram total = count, model total = count + distinct families, size counts + zero_size = count, averages current |
| DriveInvariants.CellAt | drivedata.py:84-240 | each summed counter of a key (count, hours, cycles, zero sizes) grows by the row's amount on the region and on Global and nowhere else |
| DriveInvariants.StepCell | drivedata.py:80-91 | the same for a whole drive row whose region is not "global" |
| DriveInvariants.StepAdvances | drivedata.py:80-91 | a drive row moves each summed counter of the region and of Global by the same amount and leaves the other regions alone |
| DriveInvariants.AdvancedColumn | drivedata.py:80-91 | the region column after such a row is the old column with the region's cell raised by that amount |
| DriveInvariants.AdvancedKeepsTotal | drivedata.py:80-91 | if Global was the sum of the regions before, it still is afterwards |
| DriveInvariants.StepKeepsTotals | drivedata.py:77-94 | a row whose region is not "global" keeps each of Global's counters equal to the sum over the regions |
| DriveData.Run | drivedata.py:64-94 | a successful run keeps the tables well-formed |
| DriveRuns.RunStopsAtFault | drivedata.py:64-94 | the first row that raises ends the run with its exception |
| DriveRuns.RunPrefixSucceeds | drivedata.py:64-94 | a successful run succeeded on every prefix of its rows |
| DriveRuns.RunKeepsBalance | drivedata.py:64-94 | every key stays balanced over any run |
| DriveRuns.RunFromInitBalanced | drivedata.py:41-94 | from the initial tables every completed run leaves all keys balanced |
| DriveRuns.NoGlobalRegionSplit | drivedata.py:64-94 | a run without rows of region "global" splits into a prefix and a last row of the same kind |
| DriveRuns.RunKeepsTotals | drivedata.py:64-94 | without rows of region "global", Global stays the sum of the regions over any run |
| DriveRuns.InitIsTotal | drivedata.py:41-45 | initially Global's counters are the (empty) sum of the regions |
| DriveRuns.RunFromInitTotals | drivedata.py:41-94 | from the initial tables, without rows of region "global", Global's count, hours, cycles and zero sizes are the sums over the regions |
| DriveRuns.StepMovesCounters | drivedata.py:77-94 | one row raises comment_line_count, zero_poh and zero_pcc by one exactly for a comment row, an empty hours field and an empty cycles field |
| DriveRuns.StepMovesGlobalCount | drivedata.py:80-85 | Global's count rises by one per drive row, and by one more for a row of region "global" |
| DriveRuns.RunMovesCounters | drivedata.py:64-94 | over a run each counter rises by the number of rows of its kind |
| DriveRuns.RunFromInitCounters | drivedata.py:64-94 | from the initial tables comment_line_count, zero_poh and zero_pcc count the comment rows and the rows with an empty field, and Global's count is the number of drive rows (rows of region "global" twice) |
| DriveRuns.FamilyStep | drivedata.py:256-267 | counting one row's family in the model tables moves the count of family `f` in a key's table by its hits when the row's family is `f`, creating the region's table if needed |
| DriveRuns.StepCountsFamily | drivedata.py:77-94 | a row adds its hits for family `f` to the count held by any key's model table: absent at 0, 1 + the count once present |
| DriveRuns.RunCountsFamilies | drivedata.py:64-94 | from the initial tables every model-family entry of any key is 1 + the number of times the rows counted that family there, and absent when there were none |
| DriveRuns.RunFromInitFamilies | drivedata.py:244-267 | a region's entry for a family is 1 + its drive rows of that family, Global's is 1 + all drive rows of that family (rows of region "global" twice); the entry exists exactly when that number is positive |
| Text.PrefixBeforeIsPrefix | drivedata.py:138-140 | the text before the first `.` is a prefix holding no `.`, followed by the `.` when shorter, and the whole text when there is none |
| Text.SplitHead | drivedata.py:184-185 | the first element of `split(c)` is the text before the first `c` |
| Text.SplitHasSecond | drivedata.py:118-120 | `split(c)` has a second element exactly when the text contains `c` |
| Text.SplitSecond | drivedata.py:118-120 | the second element of `split(c)` is the text between the first and the second `c` |
| Text.DropLeadingIsSuffix | drivedata.py:185 | stripping leading whitespace leaves a suffix that starts with no space |
| Text.DropTrailingIsPrefix | drivedata.py:185 | stripping trailing whitespace leaves a prefix that ends with no space |
| Text.TrimIsStrip | drivedata.py:253 | `strip()` leaves the infix between whitespace runs, starting and ending with no space, and empty exactly for all-space text |
| Text.TrimNoSpace | drivedata.py:253 | `strip()` leaves text without surrounding whitespace unchanged |
| Text.DigitText | drivedata.py:131 | `str` of a whole number is a non-empty digit string without leading zeros |
| Text.ParseDigitText | drivedata.py:131-144 | `int(str(n)) == n` |
| Engine.Row.constructor | drivedata.py:63-64 | a row holds the fields read from the file |
| Engine.Store.constructor | drivedata.py:41-45 | the store starts as the module initialises it: only Global's entries, histogram seeded 0..12, counters at zero |
| Engine.Store.AddKeys | drivedata.py:100-106 | the store becomes `DriveData.AddKeys` of the old store |
| Engine.Store.CountDrive | drivedata.py:84-85 | the store becomes `DriveData.CountDrive` of the old store |
| Engine.Store.ProcessPowerOnHours | drivedata.py:123-154 | only the row's Power_On_Hours field is rewritten, to the repaired text; the store and the exception follow `DriveData.ProcessPowerOnHours` |
| Engine.Store.RecordHours | drivedata.py:143-152 | the store and the exception follow `DriveData.RecordHours` |
| Engine.Store.ProcessPowerCycleCount | drivedata.py:157-177 | only the row's Power_Cycle_Count field is rewritten (`"1"` for empty); the store follows `DriveData.ProcessPowerCycleCount` |
| Engine.Store.ProcessDriveModel | drivedata.py:244-269 | only the row's Model field is rewritten (`(NULL)` for empty); the store follows `DriveData.ProcessDriveModel` |
| Engine.Store.CountFamily | drivedata.py:256-267 | only `modeldict` changes, as `DriveData.CountFamily` |
| Engine.Store.ProcessDriveSize | drivedata.py:180-242 | the store follows `DriveData.ProcessDriveSize` with the row's repaired hours |
| Engine.Store.CountSize | drivedata.py:201-240 | only `sizedict` changes, as `DriveData.CountSize` |
| Engine.Store.AddToSize | drivedata.py:230-238 | only one size entry changes, as `DriveData.AddToSize` |
| Engine.Store.ProcessRow | drivedata.py:77-94 | the store and the exception follow `DriveData.Step` on the row as read |
| Engine.Store.ProcessFields | drivedata.py:87-91 | the store and the exception follow `DriveData.ProcessFields` |
| Engine.Store.ProcessData | drivedata.py:64-94 | the store and the exception follow `DriveData.Run` over the rows |
| Engine.Aggregate | drivedata.py:41-94 | a fresh store runs the rows; on success every key is balanced and the counters count comment rows and rows with an empty hours or cycles field |

## Left out

- Reading the CSV file, the existence check, argparse, `main` and exit codes (drivedata.py:62-64, 388-453). The rows are a parameter.
- The header check (drivedata.py:65-72): every row has all fields, so it cannot fail in the model.
- Rows that lack a column (KeyError on a missing field) are not modelled.
- The report and print functions (drivedata.py:272-386), the verbose and debug output, and `line_numb`.
- The unconditional message printed for an invalid Power_Cycle_Count (drivedata.py:172): the model only keeps the sums unchanged.
- `line_count` (drivedata.py:13): it is printed, and read at drivedata.py:65 so that the header check runs on the first row only; that check is left out above.
- The `drivesize` table (drivedata.py:36, 43): nothing reads or updates it.
- The defensive branch at drivedata.py:221-226. It cannot be reached because Power_On_Hours was repaired by then, and it calls an undefined `line_num`.
- Engine.Store.ProcessDriveSize: requires that the row's Power_On_Hours field already parses, which the first processor guarantees, instead of modelling the unreachable branch and the `int()` at lines 231 and 237.
- Averages are exact fractions, not floats. Float rounding at large magnitudes and scientific-notation output of `str(float)` are not modelled; the substituted value is the exact integer part of the average.
- The age `int(int(poh)/hrs_per_year)` uses float division; the model uses exact integer division, which differs only beyond float precision.
- `int()` is modelled on ASCII digit strings only. Signs, surrounding whitespace, underscores and non-ASCII digits are not modelled; such values are rejected. For Power_On_Hours that is a ValueError, and for Power_Cycle_Count nothing is added.
- `ignored_records` is never updated by the source; the model keeps it at its initial zero.
- After an uncaught exception the program ends, so the methods leave the store unspecified once they return a fault.
