# EOCIS data-processor core, modelled in Dafny

This project models the processing core of the EOCIS data-processor and proves
properties of that model. The core has three parts.

The job daemon:
- A `Daemon` worker repeatedly sleeps, claims the next task from the job store, and runs it through `TaskRunner`.
- It then records the outcome: a task is completed, re-queued while retries remain, or failed.
- For a successful task it zips the results; for every claimed task it updates the job.
- `start_daemons` registers one worker per thread number.
- `TaskRunner.run` builds the environment of a task's process from its spec.
- `ProcessRunner` launches that process, forwards each output line to the console, the log file and the handler, and reports the exit code and timeout flag.

The subsetter:
- The subsetter's `Extractor` walks a date range day by day, split into calendar-year slices.
- For each day it fills the `{YEAR}`, `{MONTH}` and `{DAY}` placeholders of the input location and globs for files.
- A day with exactly one match yields that file's data, reduced to the requested variables and the bounding box. A day with no match is skipped, and more than one match raises.
- `subset` picks a NetCDF or GeoTIFF formatter by name, writes every yielded slice, and closes the formatter.

The regridder:
- The regridder's `Extractor` opens one input per year and yields it once per time period.
- `regrid` aggregates each period and writes it through a NetCDF formatter.
- The formatters (base, CSV, NetCDF and GeoTIFF) name their output files from a `str.format` pattern whose fields are `strftime` codes of the period's mid time. The GeoTIFF formatter of the subsetter names them from the original file name instead.

Each module follows one source file (or one concern shared by several):

| module | file | models |
|---|---|---|
| `Daemons` | daemon.dfy | `daemon/daemon.py` |
| `TaskRunning` | task_runner.dfy | `daemon/task_runner.py` |
| `ProcessRunning` | process_runner.dfy | `daemon/process_runner.py` |
| `SubsetExtraction` | subset_extractor.dfy | `tools/subsetter/extractor.py` |
| `Subsetting` | subsetter.dfy | `tools/subsetter/subsetter.py` |
| `RegridExtraction` | regrid_extractor.dfy | `tools/regridder/extractor.py` |
| `Regridding` | regridder.dfy | `tools/regridder/regridder.py` |
| `Formatting` | formatting.dfy | `tools/common/formatter.py` (and its copy in `tools/regridder/netcdf4formatter.py`) |
| `Geotiff` | geotiff.dfy | `tools/common/geotiff_formatter.py`, `tools/regridder/geotiff_formatter.py` |
| `Netcdf` | netcdf.dfy | `tools/regridder/netcdf4formatter.py`, `tools/regridder/netcdf4_formatter.py` |
| `CsvOutput` | csv_output.dfy | `tools/regridder/csv_formatter.py` |
| `YearSlicing` | year_slices.dfy | the year split shared by both extractors' `generate_data` |
| `CommandLine` | command_line.dfy | the option defaults and date/variable parsing of both dispatchers |
| `Calendar`, `Decimal`, `Text`, `Paths`, `Datasets` | calendar.dfy, decimal.dfy, text.dfy, paths.dfy, datasets.dfy | the parts of `datetime`, `str`, `os.path` and xarray the core relies on |
| `Wrappers` | wrappers.dfy | `Option` and `Result` |

The model's form follows the source's form:
- Objects whose fields change become classes with `modifies` clauses: `ProcessRunner`, `Daemon`, the daemon registry and `CSVFormatter`.
- The loops of the source (the day walk, the year loop, the write loops, the poll loop, the environment loop, the daemon rounds) are `while`/`for` loops. Each is proved against a specification function.
- Generators are modelled as the finite `Stream` of what they yield, with the error that stops them.
- Things outside the core are parameters of the model:
  - the filesystem (`glob.glob`, `xr.open_dataset`);
  - the subprocess;
  - the job store;
  - `createTimePeriods`;
  - the aggregator;
  - the regridder's base formatter.
- Effects on the world (files written, store calls, sink outputs) are recorded as sequences of events.

## Model

| member | source | states |
|---|---|---|
| Calendar.Make | src/data_processor/tools/subsetter/subsetter.py:190-191 | `datetime.datetime(...)` succeeds exactly when every field is in range (year 1..9999, month 1..12, day within the month, time fields in range); the value then has those fields |
| Calendar.DaysInMonth | src/data_processor/tools/subsetter/extractor.py:111 | a month of the proleptic Gregorian calendar has between 28 and 31 days |
| Calendar.NextDay | src/data_processor/tools/subsetter/extractor.py:98 | `dt + timedelta(days=1)` keeps the time of day, is valid again and is strictly later |
| Calendar.NextDayImmediate | src/data_processor/tools/subsetter/extractor.py:98 | no valid datetime with the same time of day lies strictly between a day and the next |
| Calendar.DaysFromWithin | src/data_processor/tools/subsetter/extractor.py:79-98 | every day the `while dt <= end_date` walk visits is valid, keeps the start's time and lies between start and end inclusive |
| Calendar.DaysFromIncreasing | src/data_processor/tools/subsetter/extractor.py:79-98 | the walk visits days in strictly increasing order, so none twice |
| Calendar.DaysFromComplete | src/data_processor/tools/subsetter/extractor.py:79-98 | every datetime with the start's time of day between start and end is visited |
| Calendar.DaysFromAcrossYearEnd | src/data_processor/tools/subsetter/extractor.py:108-116 | a walk between middays of different years is the walk up to 31 December followed by the walk from 1 January |
| CommandLine.SubsetDefaultIsTimestamp | src/data_processor/tools/subsetter/subsetter.py:171 | the subsetter's default name pattern is the six timestamp codes `{Y}{m}{d}{H}{M}{S}` followed by fixed text |
| CommandLine.RegridDefaultIsTimestamp | src/data_processor/tools/regridder/regridder.py:195 | the regridder's default name pattern is the six timestamp codes followed by fixed text ending in `.nc` |
| CommandLine.SubsetDefaultNames | src/data_processor/tools/subsetter/subsetter.py:167-172 | with the default pattern an output name is the timestamp year to second plus the fixed text, and different valid datetimes (four-digit years) get different names |
| CommandLine.RegridDefaultNames | src/data_processor/tools/regridder/regridder.py:191-196 | the same for the regridder's default pattern |
| CommandLine.NoonOf | src/data_processor/tools/subsetter/subsetter.py:190-191 | building the noon datetime succeeds exactly when all three options are given and form a valid date; a missing option raises `TypeError`, and the value is at 12:00:00 with the given date |
| CommandLine.NoonOfChecksMonthFirst | src/data_processor/tools/regridder/regridder.py:206-207 | a month out of range is reported as the month error even when the day is out of range too |
| CommandLine.DefaultVariablesParse | src/data_processor/tools/subsetter/subsetter.py:181 | the default `--variables ""` gives the one variable name `""` |
| CsvOutput.HeaderFor | src/data_processor/tools/regridder/csv_formatter.py:60 | the header row is `year`, `month`, `day` followed by the variable names, in order |
| CsvOutput.MeansFromValues | src/data_processor/tools/regridder/csv_formatter.py:64-65 | the means from the k-th variable on can be computed exactly when every remaining variable is in the dataset, and are then one per variable, in order |
| CsvOutput.MeansFromFailure | src/data_processor/tools/regridder/csv_formatter.py:65 | when the means cannot be computed the error is `KeyError` for the first missing variable |
| CsvOutput.MeansSpec | src/data_processor/tools/regridder/csv_formatter.py:63-66 | the means of a row are one per variable, in order, exactly when every variable is in the dataset; otherwise the error is `KeyError` for the first missing one |
| CsvOutput.CsvFormatter.constructor | src/data_processor/tools/regridder/csv_formatter.py:34-44 | a new formatter keeps the folder and has no file, no writer and no rows |
| CsvOutput.CsvFormatter.Write | src/data_processor/tools/regridder/csv_formatter.py:47-66 | the first write opens `name(mid) + ".csv"` in the folder and writes the header; every write appends its data row or raises; later writes keep the first file |
| CsvOutput.CsvFormatter.Close | src/data_processor/tools/regridder/csv_formatter.py:68-72 | close clears the writer, closes the file, and raises when no file was opened; the rows stay |
| CsvOutput.CsvFormatter.WriteEach | src/data_processor/tools/regridder/csv_formatter.py:47-66 | over a sequence of `write` calls on one formatter, the first call of a fresh formatter opens the file named after its own mid time and writes the header of its own variables; then the rows are exactly the earlier rows, that header, and one data row per call that ended normally, in call order |
| CsvOutput.DataRowsCount | src/data_processor/tools/regridder/csv_formatter.py:63-66 | there is exactly one data row per call that ended normally, and every one is a data row |
| Daemons.RunTaskCounts | src/data_processor/daemon/daemon.py:68-86 | `run_task` makes one launch and one `update_task`, one `set_completed` on success, one `retry` and one `queue_task` on failure with retries left, one `set_failed` otherwise, and no other call |
| Daemons.RunTaskOrder | src/data_processor/daemon/daemon.py:68-86 | the launch comes first and `update_task` last; just before it, `set_completed` on success, `retry` then `queue_task(job, name)` while retries remain, or `set_failed("Unknown error")` |
| Daemons.Outcome | src/data_processor/daemon/daemon.py:74-86 | the store calls after the process ended; stated by RunTaskCounts and RunTaskOrder |
| Daemons.AfterRunTask | src/data_processor/daemon/daemon.py:68-86 | the store calls of `run_task`: the launch, then the outcome; stated by RunTaskCounts and RunTaskOrder |
| Daemons.IterationCounts | src/data_processor/daemon/daemon.py:51-66 | one iteration makes one sleep, one session and one `get_next_task`; for a claimed task one `set_running`, `update_task` and `update_job` besides `run_task`'s calls, and `zip_results` exactly when the run succeeded |
| Daemons.IterationOrder | src/data_processor/daemon/daemon.py:51-66 | an iteration only appends calls; for a claimed task `set_running` and `update_task` follow `get_next_task`, then the launch, and `update_job` of that task's job is last |
| Daemons.AfterIteration | src/data_processor/daemon/daemon.py:52-66 | the calls of one loop iteration; stated by IterationCounts and IterationOrder |
| Daemons.RoundsCounts | src/data_processor/daemon/daemon.py:50-66 | the calls of a sequence of iterations are the sum of each iteration's |
| Daemons.RoundsTotals | src/data_processor/daemon/daemon.py:50-66 | over any run, one `get_next_task` per iteration and one launch and `update_job` per claimed task |
| Daemons.RoundsUpdateTotals | src/data_processor/daemon/daemon.py:50-66 | over any run, `update_task` twice per claimed task and `zip_results` once per successful task |
| Daemons.RunTotals | src/data_processor/daemon/daemon.py:50-66 | the store's call counts after a run grow by exactly those totals |
| Daemons.Daemon.constructor | src/data_processor/daemon/daemon.py:33-40 | a daemon keeps its id and store, with poll interval 2 and retry limit 2 by default |
| Daemons.Daemon.RunTask | src/data_processor/daemon/daemon.py:68-86 | `run_task` returns true exactly when the process exits with code 0, and the store log grows by exactly the launch and the outcome calls |
| Daemons.Daemon.RunIteration | src/data_processor/daemon/daemon.py:52-66 | one iteration appends exactly the iteration's calls for what the store handed out and how its process ended |
| Daemons.Daemon.Run | src/data_processor/daemon/daemon.py:50-66 | the loop over the given rounds appends exactly the calls of those iterations, in order |
| Daemons.DaemonKeyInjective | src/data_processor/daemon/daemon.py:45 | different thread numbers give different keys `daemon<n>` |
| Daemons.DaemonKeysStep | src/data_processor/daemon/daemon.py:44-47 | the next daemon's key is not yet registered, so no daemon replaces another |
| Daemons.Registry.constructor | src/data_processor/daemon/daemon.py:31 | the registry starts empty |
| Daemons.Registry.StartDaemons | src/data_processor/daemon/daemon.py:42-48 | registers a fresh daemon under each key `daemon0`, ..., `daemon<n-1>`, sharing the store with the default interval and retries; other entries keep their daemons; a non-positive count registers none |
| Datasets.DropNames | src/data_processor/tools/subsetter/extractor.py:90 | the dropped names are exactly the dataset's variables that were not requested and are not dimensions |
| Datasets.DropVars | src/data_processor/tools/subsetter/extractor.py:91 | `drop_vars` leaves exactly the variables not named, unchanged, and the dimensions |
| Datasets.KeepRequestedSpec | src/data_processor/tools/regridder/extractor.py:72-73 | after the drop, exactly the requested variables and the dimensions are left, unchanged |
| Datasets.KeepRequestedIdempotent | src/data_processor/tools/subsetter/extractor.py:90-91 | dropping twice with the same request is dropping once |
| Datasets.Chain | src/data_processor/tools/subsetter/extractor.py:114 | `yield from` one generator then another: the items of both when the first ends normally, else the first's items and error |
| Decimal.Digits | src/data_processor/tools/regridder/extractor.py:69 | `str(n)` of a natural number is a non-empty string of digits that starts with `0` only for `n == 0` |
| Decimal.ParseDigitsOfDigits | src/data_processor/tools/regridder/extractor.py:69 | reading back `str(n)` gives `n` |
| Decimal.DigitsInjective | src/data_processor/daemon/daemon.py:45 | distinct naturals render as distinct strings |
| Decimal.DigitsLength | src/data_processor/tools/subsetter/extractor.py:81-83 | a number below `10^k` has at most `k` digits |
| Decimal.IntToStringInjective | src/data_processor/daemon/task_runner.py:40-41 | distinct integers render as distinct strings |
| Decimal.ZeroPad | src/data_processor/tools/subsetter/extractor.py:81-83 | `f"{n:0Wd}"` of a natural number consists of digits only |
| Decimal.PadInt | src/data_processor/tools/subsetter/extractor.py:81 | `f"{i:0Wd}"` of any integer is the zero-padded digits for a non-negative value, and consists of digits and `-` only |
| Decimal.ParseDigitsLeadingZeros | src/data_processor/tools/subsetter/extractor.py:81-83 | leading zeros do not change the value read |
| Decimal.ZeroPadSpec | src/data_processor/tools/subsetter/extractor.py:81-83 | the padded field has exactly `W` characters when `n < 10^W`, and always reads back as `n` |
| Formatting.FormatLiteral | src/data_processor/tools/common/formatter.py:58 | `str.format` copies a pattern without braces unchanged |
| Formatting.FormatAfterLiteral | src/data_processor/tools/common/formatter.py:58 | literal text in front of the rest of a pattern is copied in front of its result, or the error is passed through |
| Formatting.FormatField | src/data_processor/tools/common/formatter.py:58 | a plain name field is replaced by its substitution |
| Formatting.FormatUnknownField | src/data_processor/tools/common/formatter.py:58 | a plain name field without a substitution raises `KeyError` with the name |
| Formatting.FieldEndOfName | src/data_processor/tools/common/formatter.py:58 | the field of a plain name ends at the `}` right after it |
| Formatting.Format | src/data_processor/tools/common/formatter.py:58 | `str.format(**subs)` for plain named fields, `{{` and `}}` escapes and the brace errors; a specification function without a contract of its own, whose behaviour the lemmas FormatLiteral, FormatAfterLiteral, FormatField, FormatUnknownField and FormatRepeated state |
| Formatting.SubsLookup | src/data_processor/tools/common/formatter.py:57 | the substitutions are exactly the seven codes `yYmdHMS`, each mapped to its `strftime` |
| Formatting.CodeIsName | src/data_processor/tools/common/formatter.py:57 | each code is a one-character, non-numeric field name |
| Formatting.Strftime | src/data_processor/tools/common/formatter.py:57 | `timestamp.strftime('%' + f)` for one code; the widths and values are stated by StrftimeWidths |
| Formatting.Subs | src/data_processor/tools/common/formatter.py:57 | the substitution dict built from the seven codes; its keys and values are stated by SubsLookup |
| Formatting.TwoDigits | src/data_processor/tools/common/formatter.py:57 | a number below 100 renders in exactly two digits that read back as it |
| Formatting.FourDigits | src/data_processor/tools/common/formatter.py:57 | a year 1000..9999 renders in exactly four digits that read back as it |
| Formatting.StrftimeWidths | src/data_processor/tools/common/formatter.py:57 | for a valid datetime with a four-digit year, `%Y` is four digits, `%y` the last two digits of the year, the others two digits, each reading back as its field |
| Formatting.OutputFilename | src/data_processor/tools/common/formatter.py:39-58 | `get_output_filename`: the name pattern formatted with the substitutions of the time; its behaviour is stated by OutputFilenameFixed, OutputFilenameUnknownCode, OutputFilenameRepeated and TimestampPatternName |
| Formatting.OutputFilenameFixed | src/data_processor/tools/common/formatter.py:39-58 | a pattern without braces names every output the same, whatever the time |
| Formatting.OutputFilenameUnknownCode | src/data_processor/tools/common/formatter.py:39-58 | a field outside the seven codes raises `KeyError` with its name |
| Formatting.FormatRepeated | src/data_processor/tools/common/formatter.py:58 | a field used twice with literal text between is replaced at both places |
| Formatting.OutputFilenameRepeated | src/data_processor/tools/common/formatter.py:39-58 | a code used twice is replaced with the same text at both places |
| Formatting.TimestampPatternParts | src/data_processor/tools/common/formatter.py:42-48 | a timestamp pattern is the six fields `Y m d H M S` followed by its fixed text |
| Formatting.TimestampPatternWith | src/data_processor/tools/common/formatter.py:58 | a timestamp pattern formats to the six substitutions followed by the fixed text |
| Formatting.TimestampPatternName | src/data_processor/tools/common/formatter.py:39-58 | a timestamp pattern names an output by `%Y%m%d%H%M%S` of the time followed by the fixed text |
| Formatting.TimestampNameRelative | src/data_processor/tools/common/formatter.py:39-58 | a timestamp name starts with a digit, never with `/` |
| Formatting.TimestampNameInjective | src/data_processor/tools/common/formatter.py:39-58 | two valid datetimes with four-digit years get the same timestamp name only when they are equal |
| Formatting.BaseWrite | src/data_processor/tools/common/formatter.py:60-61 | the base `write` writes nothing |
| Formatting.BaseClose | src/data_processor/tools/common/formatter.py:63-64 | the base `close` writes nothing; the `close` of both GeoTIFF formatters (`common/geotiff_formatter.py:60-61`, `regridder/geotiff_formatter.py:55-56`) and of both NetCDF formatters (`regridder/netcdf4formatter.py:72-73`, `regridder/netcdf4_formatter.py:51-52`) is the same `pass` |
| Geotiff.RasterAttrs | src/data_processor/tools/common/geotiff_formatter.py:55-56 | a raster's attributes are its variable's without `grid_mapping` |
| Geotiff.RastersFrom | src/data_processor/tools/common/geotiff_formatter.py:48-58 | the loop from the k-th variable on writes at most one raster per remaining variable |
| Geotiff.Rasters | src/data_processor/tools/common/geotiff_formatter.py:48-58 | a `write` writes at most one raster per variable |
| Geotiff.WriteRasters | src/data_processor/tools/common/geotiff_formatter.py:48-58 | the loop of both `write` methods produces exactly the rasters, edited dataset and error of the specification `Rasters` |
| Geotiff.RastersFromAt | src/data_processor/tools/common/geotiff_formatter.py:48-58 | the i-th raster from the k-th variable is that of variable k+i: its path is the stem's `.tif` in the folder, with the variable's attributes without `grid_mapping` |
| Geotiff.RastersFromEnd | src/data_processor/tools/common/geotiff_formatter.py:48-58 | the loop ends normally exactly when every remaining variable got a raster; otherwise the error is the first unwritten variable's (`KeyError` or the stem's error) |
| Geotiff.RastersFromEditOf | src/data_processor/tools/common/geotiff_formatter.py:54-56 | a variable loses `grid_mapping` exactly when the loop wrote it; nothing else in the dataset changes |
| Geotiff.RastersOutputs | src/data_processor/tools/common/geotiff_formatter.py:48-58 | a `write`'s rasters are one per variable in order up to the first that fails, and it ends normally exactly when all got one |
| Geotiff.RastersEdits | src/data_processor/tools/common/geotiff_formatter.py:54-56 | after a `write` the written variables have lost `grid_mapping` and the others are unchanged |
| Geotiff.RastersSucceed | src/data_processor/tools/common/geotiff_formatter.py:48-58 | every variable gets its raster and the write ends normally exactly when all variables are present and the stem could be made (or there are none) |
| Geotiff.TifNameInjective | src/data_processor/tools/common/geotiff_formatter.py:50-52 | for a fixed stem, the file name determines the variable |
| Geotiff.TifNameStart | src/data_processor/tools/common/geotiff_formatter.py:50-53 | two variables' file names are both absolute or both relative |
| Geotiff.RasterPathsDistinct | src/data_processor/tools/common/geotiff_formatter.py:48-58 | within one `write` distinct variables go to distinct paths |
| Geotiff.CommonStem | src/data_processor/tools/common/geotiff_formatter.py:49-52 | the stem is the original file name without its extension when one is given, else the pattern's name for the mid time |
| Geotiff.CommonWrite | src/data_processor/tools/common/geotiff_formatter.py:38-58 | the common `write` writes exactly the rasters of the loop specification `Rasters` with the common stem; the start and end times play no part |
| Geotiff.CommonWriteFromOriginal | src/data_processor/tools/common/geotiff_formatter.py:52-53 | with an original file `stem.ext`, variable `v` is written to `stem-v.tif` in the folder |
| Geotiff.CommonWriteWithoutNames | src/data_processor/tools/common/geotiff_formatter.py:49-50 | with neither an original file name nor a mid time, a non-empty list writes no raster and raises |
| Geotiff.RegridWrite | src/data_processor/tools/regridder/geotiff_formatter.py:38-53 | the regridder's `write` writes exactly the rasters of `Rasters` with the stem `name(mid)`; the start and end times play no part |
| Geotiff.RegridWritePaths | src/data_processor/tools/regridder/geotiff_formatter.py:47-53 | when every variable is in the dataset, the write ends normally with one raster per variable, in order, variable `v` at `name(mid) + "-" + v + ".tif"` in the folder |
| Netcdf.NetcdfPath | src/data_processor/tools/regridder/netcdf4formatter.py:69 | the output path is the mid time's name plus `.nc` in the folder, or the naming error |
| Netcdf.Write | src/data_processor/tools/regridder/netcdf4formatter.py:61-70 | `write` writes the whole dataset to one file whose path depends on the mid time only |
| Netcdf.DefaultPatternPath | src/data_processor/tools/regridder/netcdf4formatter.py:69 | with the regridder's default pattern, which already ends in `.nc`, a period's file is the timestamp, the fixed text and a second `.nc` |
| Netcdf.DefaultPatternPathsDistinct | src/data_processor/tools/regridder/netcdf4formatter.py:69-70 | with the default pattern, different valid mid times go to different files, so none overwrites another |
| Netcdf.NcPathsDistinct | src/data_processor/tools/regridder/netcdf4formatter.py:69 | different relative names give different `.nc` paths in one folder |
| Netcdf.NamedWrite | src/data_processor/tools/regridder/netcdf4_formatter.py:39-49 | `write` writes the whole dataset to one file named after the mid time; the variable names play no part |
| Netcdf.NamedWritePathsDistinct | src/data_processor/tools/regridder/netcdf4_formatter.py:48 | mid times with different relative names are written to different files |
| Paths.PathJoin | src/data_processor/tools/common/geotiff_formatter.py:53 | `os.path.join`: an absolute name replaces the folder; otherwise the name follows the folder with exactly one `/` between unless the folder is empty |
| Paths.PathJoinInjective | src/data_processor/tools/common/geotiff_formatter.py:53 | in one folder, two names both relative or both absolute give the same path only when they are equal |
| Paths.RelativeExtended | src/data_processor/tools/common/geotiff_formatter.py:50 | a relative name stays relative when text not starting with `/` is appended |
| Paths.PathJoinDistinct | src/data_processor/tools/common/geotiff_formatter.py:53 | different names, both relative or both absolute, give different paths |
| Paths.BaseName | src/data_processor/tools/subsetter/extractor.py:88 | `os.path.split(p)[-1]` is the suffix of `p` after its last `/`, and contains no `/` |
| Paths.SplitExtRoot | src/data_processor/tools/common/geotiff_formatter.py:52 | `os.path.splitext(p)[0]` is a prefix of `p` that drops the extension from the last dot of the last component, unless that component is only dots before it |
| Paths.NoCharAfterLast | src/data_processor/tools/common/geotiff_formatter.py:52 | past the last dot there is neither a dot nor a slash |
| Paths.LastIndexOfPrefix | src/data_processor/tools/common/geotiff_formatter.py:52 | cutting after the last `c` keeps that `c` as the last one |
| Paths.SplitExtOfFileName | src/data_processor/tools/common/geotiff_formatter.py:52 | a file name `stem.ext` whose stem is not only dots loses exactly `.ext` |
| ProcessRunning.FirstExit | src/data_processor/daemon/process_runner.py:75-77 | the loop stops at the first poll that reports an exit code |
| ProcessRunning.StripNewlineSpec | src/data_processor/daemon/process_runner.py:105-106 | exactly one trailing newline is removed, and nothing else changes |
| ProcessRunning.AllEventsStep | src/data_processor/daemon/process_runner.py:75-77 | handling one more output extends the events of the earlier outputs by that output's events |
| ProcessRunning.OutputEventsReceived | src/data_processor/daemon/process_runner.py:103-112 | one non-empty output reaches each enabled sink exactly once and a disabled sink not at all; an empty one reaches none |
| ProcessRunning.SinksReceiveEveryOutput | src/data_processor/daemon/process_runner.py:75-79 | every enabled sink receives every non-empty output, in read order, nothing lost or added; a disabled sink receives nothing |
| ProcessRunning.SinkTexts | src/data_processor/daemon/process_runner.py:107-112 | for the k-th non-empty output the console shows `[name:pid]: line`, the log gets `line` and a newline, the handler gets `line`, with the trailing newline removed |
| ProcessRunning.ProcessRunner.constructor | src/data_processor/daemon/process_runner.py:50-64 | the runner keeps its arguments, with no return code, process, log file or monitor and not timed out |
| ProcessRunning.ProcessRunner.HandleOutput | src/data_processor/daemon/process_runner.py:103-112 | appends exactly the output's events for the current sinks: console, log, handler, each when present, none for an empty output |
| ProcessRunning.ProcessRunner.TimeoutIfNotComplete | src/data_processor/daemon/process_runner.py:92-101 | with no return code yet the run becomes timed out; after an exit code nothing changes |
| ProcessRunning.ProcessRunner.PollRound | src/data_processor/daemon/process_runner.py:76-77 | one loop turn handles the line, records the poll's result, and marks a timeout exactly when the deadline passes before an exit |
| ProcessRunning.ProcessRunner.Pump | src/data_processor/daemon/process_runner.py:75-77 | the loop handles every line up to the first exit poll, records its code, and is timed out exactly when the monitor runs and the deadline passes by then |
| ProcessRunning.ProcessRunner.Drain | src/data_processor/daemon/process_runner.py:79 | the final read is handled like every other output |
| ProcessRunning.ProcessRunner.Start | src/data_processor/daemon/process_runner.py:67-74 | the log file opens when a non-empty log path is set, the monitor starts exactly when the timeout is positive, the process is launched with the command, environment and working directory |
| ProcessRunning.ProcessRunner.Run | src/data_processor/daemon/process_runner.py:66-87 | `run` returns the first exit code and the timeout flag, which is set exactly when the timeout is positive and the deadline passes before the exit; the sinks get exactly the events of every output read and the drain; the log file is closed |
| RegridExtraction.YearPathFilled | src/data_processor/tools/regridder/extractor.py:69 | no `{YEAR}` is left in the opened path |
| RegridExtraction.YearPathFixed | src/data_processor/tools/regridder/extractor.py:69 | a location without `{YEAR}` is opened unchanged |
| RegridExtraction.Tagged | src/data_processor/tools/regridder/extractor.py:77-78 | one item per period, in order, each with the year's one dataset |
| RegridExtraction.GenerateYearData | src/data_processor/tools/regridder/extractor.py:55-78 | yields one item per period of `createTimePeriods(resolution, start, end)`, in order, each with the start year's input reduced to the requested variables |
| RegridExtraction.YearsAt | src/data_processor/tools/regridder/extractor.py:93-101 | each item of the year loop is an item of one of the years it visits |
| RegridExtraction.ItemsFromSlices | src/data_processor/tools/regridder/extractor.py:93-101 | every yielded item has a period of some year's slice and that year's reduced dataset |
| RegridExtraction.ItemsFromCount | src/data_processor/tools/regridder/extractor.py:93-101 | when every slice has a period, at least one item is yielded per year of the range |
| RegridExtraction.ItemsFromStep | src/data_processor/tools/regridder/extractor.py:99 | one year's items come before the later years' |
| RegridExtraction.GenerateData | src/data_processor/tools/regridder/extractor.py:80-101 | `generateData` yields the items of `generateYearData` over each year's slice, year after year |
| Regridding.RegridAsWritten | src/data_processor/tools/regridder/regridder.py:101-132 | `regrid` as written looks `generate_data` up among the methods the regridder's `Extractor` defines; since it is not one of them, the run makes the folder and then raises `AttributeError`: nothing is aggregated, written or closed |
| Regridding.ProcessPeriod | src/data_processor/tools/regridder/regridder.py:123-130 | one period's loop body produces exactly the event and error of the specification `ProcessItem` |
| Regridding.ProcessItem | src/data_processor/tools/regridder/regridder.py:123-130 | one period's aggregate and write; stated by ProcessItemWrites |
| Regridding.PeriodsFromStep | src/data_processor/tools/regridder/regridder.py:118-130 | a period processed without error is followed by the later periods |
| Regridding.ProcessAll | src/data_processor/tools/regridder/regridder.py:118-132 | the loop and `close` produce exactly the events of the specification `Outcome` |
| Regridding.Outcome | src/data_processor/tools/regridder/regridder.py:118-132 | the loop over the periods and the `close` after it; stated by OutcomeOrder |
| Regridding.RegridRun | src/data_processor/tools/regridder/regridder.py:101-132 | what the corrected `regrid` does with its generator's periods; stated by RegridOrder |
| Regridding.Regrid | src/data_processor/tools/regridder/regridder.py:45-132 | the corrected `regrid` produces exactly the events of the pipeline over `generateData` |
| Regridding.PeriodsFromAt | src/data_processor/tools/regridder/regridder.py:118-130 | the i-th event from period k is period k+i's, and every earlier one ended normally |
| Regridding.PeriodsFromEnd | src/data_processor/tools/regridder/regridder.py:118-130 | the periods end normally exactly when each does, with one event per period; otherwise the error is the last one's |
| Regridding.ProcessItemWrites | src/data_processor/tools/regridder/regridder.py:126-130 | a period's aggregate is written, exactly, to one file named after its mid time; a write that raises writes nothing |
| Regridding.OutcomeOrder | src/data_processor/tools/regridder/regridder.py:118-132 | after the earlier events come the periods in generator order; `close` is last exactly when no period raised |
| Regridding.ProcessAllOrder | src/data_processor/tools/regridder/regridder.py:118-132 | each period is aggregated and written in order, and `close` comes last exactly when every file name could be made |
| Regridding.RegridOrder | src/data_processor/tools/regridder/regridder.py:101-132 | the folder is made first, each period aggregated and written in generator order, and `close` last once exactly when every period succeeded |
| Regridding.AsWrittenProcessesNothing | src/data_processor/tools/regridder/regridder.py:118-121 | whenever there is a period to yield, the corrected pipeline processes it while `regrid` as written processes none and never closes |
| Regridding.Dispatch | src/data_processor/tools/regridder/regridder.py:204-214 | `dispatch` produces exactly the run of the specification `DispatchRun`: the dates, the variables, then the corrected `regrid` |
| Regridding.DispatchRun | src/data_processor/tools/regridder/regridder.py:204-214 | what `dispatch` does; stated by DispatchCallsRegrid |
| Regridding.DispatchCallsRegrid | src/data_processor/tools/regridder/regridder.py:204-214 | with valid dates and an output path, `dispatch` runs `regrid` from noon of the start day to noon of the end day on the stripped comma-separated variables; a missing date, or a missing `--out-path` (the `TypeError` of `os.makedirs(None)`), raises before the folder is made |
| SubsetExtraction.InputPatternFilled | src/data_processor/tools/subsetter/extractor.py:81-83 | no `{YEAR}`, `{MONTH}` or `{DAY}` is left after the substitution |
| SubsetExtraction.InputPatternFixed | src/data_processor/tools/subsetter/extractor.py:81-83 | a location without placeholders is globbed unchanged |
| SubsetExtraction.InputPatternFields | src/data_processor/tools/subsetter/extractor.py:81-83 | the fields read back as the date: the year in exactly four characters, month and day in two |
| SubsetExtraction.InputPattern | src/data_processor/tools/subsetter/extractor.py:81-83 | the location with `{YEAR}`, `{MONTH}` and `{DAY}` replaced in that order; stated by InputPatternFilled, InputPatternFixed and InputPatternFields |
| SubsetExtraction.LatitudeReversed | src/data_processor/tools/subsetter/extractor.py:92 | whether the first latitude exceeds the last, with the `KeyError` of a missing coordinate and the `IndexError` of an empty one; used by VisitDaySpec and BoxFollowsAxis |
| SubsetExtraction.BoxFollowsAxis | src/data_processor/tools/subsetter/extractor.py:92-94 | for `lat_min <= lat_max` the latitude slice runs in the direction of the data's axis, so it selects the box either way |
| SubsetExtraction.VisitDay | src/data_processor/tools/subsetter/extractor.py:81-97 | one day of the walk: skip, yield or raise; stated by VisitDaySpec |
| SubsetExtraction.VisitDaySpec | src/data_processor/tools/subsetter/extractor.py:81-97 | without a location every day raises the `AttributeError` of `None.replace`; otherwise a day with no match is skipped; one match yields the day, the file's base name and its reduced and boxed data (or the latitude lookup's error); more matches raise naming the pattern |
| SubsetExtraction.Walk | src/data_processor/tools/subsetter/extractor.py:79-98 | the day-by-day walk over given days and a given visit, stopping at the first failing day and after the last representable day; stated by WalkStep, WalkItems, WalkSucceeds, WalkYieldsInOrder, WalkStops and WalkAppend |
| SubsetExtraction.WalkStep | src/data_processor/tools/subsetter/extractor.py:79-98 | one day that does not raise is followed by the rest of the walk |
| SubsetExtraction.WalkItems | src/data_processor/tools/subsetter/extractor.py:79-98 | every yielded item is the item of some day of the walk |
| SubsetExtraction.WalkSucceeds | src/data_processor/tools/subsetter/extractor.py:79-98 | the walk ends normally exactly when no day fails and it does not step past the last representable day |
| SubsetExtraction.WalkYieldsInOrder | src/data_processor/tools/subsetter/extractor.py:79-98 | a walk that ends normally yields one item per yielding day, in order |
| SubsetExtraction.WalkStops | src/data_processor/tools/subsetter/extractor.py:79-98 | the walk stops at the first failing day, with that day's error after the earlier days' items |
| SubsetExtraction.WalkAppend | src/data_processor/tools/subsetter/extractor.py:79-98 | walking two runs of days in turn is walking their concatenation |
| SubsetExtraction.ScanDaysItems | src/data_processor/tools/subsetter/extractor.py:70-98 | every item of `generate_year_data` comes from an extractor with a location and is a single-match day with its file's base name and reduced data |
| SubsetExtraction.VisitOneDay | src/data_processor/tools/subsetter/extractor.py:81-97 | the loop body for one day does what the specification `VisitDay` says |
| SubsetExtraction.WalkDays | src/data_processor/tools/subsetter/extractor.py:79-98 | the `while dt <= end_date` loop yields and raises exactly what the walk over the days from start to end does |
| SubsetExtraction.GenerateYearData | src/data_processor/tools/subsetter/extractor.py:70-98 | `generate_year_data` yields and raises exactly the day walk's result |
| SubsetExtraction.SliceWalkAt | src/data_processor/tools/subsetter/extractor.py:111-114 | the walk of a year of the range walks that year's slice |
| SubsetExtraction.SliceWalkOf | src/data_processor/tools/subsetter/extractor.py:111-114 | the walk of the year k years after the start's is the walk of slice k |
| SubsetExtraction.SliceWalksOf | src/data_processor/tools/subsetter/extractor.py:111-114 | each year's walk is its slice's walk |
| SubsetExtraction.YearWalksStep | src/data_processor/tools/subsetter/extractor.py:109-116 | a year that raises ends the chain with its error; one that ends normally is followed by the later years |
| SubsetExtraction.YearWalksDays | src/data_processor/tools/subsetter/extractor.py:108-116 | chaining the year walks is walking all the slices' days |
| SubsetExtraction.SliceWalksChain | src/data_processor/tools/subsetter/extractor.py:108-116 | the chained year walks of a range are the walk of all its slices' days, in order |
| SubsetExtraction.YearWalksRange | src/data_processor/tools/subsetter/extractor.py:108-116 | for a midday-to-midday range the chained year walks are one walk over every day of the range |
| SubsetExtraction.GenerateDataWalksRange | src/data_processor/tools/subsetter/extractor.py:100-116 | for a midday-to-midday range `generate_data` behaves as one walk over every day: the year split neither loses nor repeats a day |
| SubsetExtraction.GenerateSliceData | src/data_processor/tools/subsetter/extractor.py:111-114 | the walk of one year's slice, as `generate_data` calls it |
| SubsetExtraction.ChainSlices | src/data_processor/tools/subsetter/extractor.py:108-116 | the year loop yields each slice's items in turn and stops at the first error |
| SubsetExtraction.GenerateData | src/data_processor/tools/subsetter/extractor.py:100-116 | `generate_data` yields and raises exactly the chained year walks |
| Subsetting.SelectFormat | src/data_processor/tools/subsetter/subsetter.py:105-110 | `"netcdf"` and `"geotiff"` pick their formatter; any other name raises the unsupported-format error naming it |
| Subsetting.DefaultFormatRejected | src/data_processor/tools/subsetter/subsetter.py:174-179 | the command line's default format `"netcdf4"` is refused |
| Subsetting.WriteSlice | src/data_processor/tools/subsetter/subsetter.py:114 | one slice's `formatter.write` produces exactly the step of the specification `WriteItem` |
| Subsetting.WritesFromStep | src/data_processor/tools/subsetter/subsetter.py:113-114 | a write that ends normally is followed by the later slices' writes |
| Subsetting.WriteItem | src/data_processor/tools/subsetter/subsetter.py:114 | one slice's `formatter.write`; for GeoTIFF stated by GeotiffItemRasters |
| Subsetting.WriteAll | src/data_processor/tools/subsetter/subsetter.py:113-116 | the loop and `close` produce exactly the events of the specification `Outcome` |
| Subsetting.Outcome | src/data_processor/tools/subsetter/subsetter.py:113-116 | the write loop over a generator's slices and the `close` after it; stated by OutcomeOrder |
| Subsetting.SubsetRun | src/data_processor/tools/subsetter/subsetter.py:98-116 | what `subset` does with its generator's stream; stated by SubsetOrder, RefusedFormatWritesNothing and MissingInputRaises |
| Subsetting.Subset | src/data_processor/tools/subsetter/subsetter.py:45-116 | `subset` produces exactly the events of `SubsetRun` |
| Subsetting.WritesFromAt | src/data_processor/tools/subsetter/subsetter.py:113-114 | the i-th write from slice k is slice k+i's, and all earlier ones ended normally |
| Subsetting.WritesFromEnd | src/data_processor/tools/subsetter/subsetter.py:113-114 | the writes end normally exactly when each does, one per slice; otherwise the error is the last write's |
| Subsetting.OutcomeOrder | src/data_processor/tools/subsetter/subsetter.py:113-116 | after the earlier events come the slices' writes in order; `close` is last exactly when nothing raised |
| Subsetting.SubsetOrder | src/data_processor/tools/subsetter/subsetter.py:98-116 | with a supported format, the folder is made first, the slices are written in generator order by the chosen formatter, and `close` is last exactly when nothing raised |
| Subsetting.RefusedFormatWritesNothing | src/data_processor/tools/subsetter/subsetter.py:98-110 | a refused format raises right after the folder is made; nothing is written or closed |
| Subsetting.GeotiffItemRasters | src/data_processor/tools/subsetter/subsetter.py:113-114 | a GeoTIFF write of a slice names its rasters `stem-variable.tif` after the slice's file, one per variable, whatever the name pattern |
| Subsetting.Dispatch | src/data_processor/tools/subsetter/subsetter.py:188-197 | `dispatch` produces exactly the run of the specification `DispatchRun`: the dates, the variables, then `subset` |
| Subsetting.DispatchRun | src/data_processor/tools/subsetter/subsetter.py:188-197 | what `dispatch` does; stated by DispatchCallsSubset and DispatchDefaultFormat |
| Subsetting.DispatchCallsSubset | src/data_processor/tools/subsetter/subsetter.py:188-197 | with valid dates and an output path, `dispatch` runs `subset` from noon of the start day to noon of the end day on the stripped comma-separated variables and the given input path; a missing date, or a missing `--out-path` (the `TypeError` of `os.makedirs(None)`), raises before the folder is made |
| Subsetting.DispatchDefaultFormat | src/data_processor/tools/subsetter/subsetter.py:188-197 | with the default format and valid dates, `dispatch` always ends with the unsupported-format error right after making the folder, or with the `makedirs` `TypeError` when no output path was given |
| Subsetting.MissingInputRaises | src/data_processor/tools/subsetter/subsetter.py:98-116 | without an input path, `subset` with a supported format makes the folder and then raises the `AttributeError` of `None.replace` at the first day of a non-empty range, writing and closing nothing; an empty range closes normally |
| TaskRunning.CoerceListRoundTrip | src/data_processor/daemon/task_runner.py:38-39 | a non-empty list of comma-free items is recovered by splitting its environment value |
| TaskRunning.CoerceIntInjective | src/data_processor/daemon/task_runner.py:40-41 | distinct integers give distinct environment values |
| TaskRunning.Coerce | src/data_processor/daemon/task_runner.py:38-41 | the value stored for one spec item: a list joined with commas, an integer through `str`, a string kept; stated by CoerceListRoundTrip and CoerceIntInjective |
| TaskRunning.EnvOfKeys | src/data_processor/daemon/task_runner.py:31-42 | the environment's keys are exactly the three base keys and the spec's keys |
| TaskRunning.EnvOfKeepsBase | src/data_processor/daemon/task_runner.py:31-42 | a base key the spec does not mention keeps its value |
| TaskRunning.EnvOfValue | src/data_processor/daemon/task_runner.py:36-42 | each spec key maps to its own coerced value, overriding the base |
| TaskRunning.EnvOf | src/data_processor/daemon/task_runner.py:31-42 | the environment after the spec's items are stored in order into the base; stated by EnvOfKeys, EnvOfKeepsBase and EnvOfValue |
| TaskRunning.Script | src/data_processor/daemon/task_runner.py:44-45 | the command: `task_runner.sh` joined to the module's folder |
| TaskRunning.BuildEnv | src/data_processor/daemon/task_runner.py:36-42 | the loop builds the environment with exactly those keys and values |
| TaskRunning.Run | src/data_processor/daemon/task_runner.py:29-48 | launches `task_runner.sh` with the environment built from its spec and no working directory, and succeeds exactly when the process exits with code 0 |
| Text.DigitsForeign | src/data_processor/tools/regridder/extractor.py:69 | a rendered number shares no character with a text that has no digit and no `-` |
| Text.ReplaceAbsent | src/data_processor/tools/subsetter/extractor.py:81-83 | `str.replace` returns a string unchanged when the pattern does not occur |
| Text.Replace | src/data_processor/tools/subsetter/extractor.py:81-83 | `str.replace` of every non-overlapping occurrence, left to right; stated by ReplaceAbsent, ReplacementLeads, ReplacedPrefix, ReplaceRemovesAll and ReplaceKeepsAbsent |
| Text.OccursInSuffix | src/data_processor/tools/subsetter/extractor.py:81-83 | an occurrence in a suffix is an occurrence in the whole |
| Text.OccursPastForeign | src/data_processor/tools/subsetter/extractor.py:81-83 | when `q` starts with a character foreign to `a`, an occurrence of `q` in `a + b` lies inside `b` |
| Text.ReplacementLeads | src/data_processor/tools/subsetter/extractor.py:81-83 | where the pattern starts the input, the output starts with the replacement |
| Text.ReplacedPrefix | src/data_processor/tools/subsetter/extractor.py:81-83 | an output prefix foreign to the replacement was already a prefix of the input |
| Text.ReplaceRemovesAll | src/data_processor/tools/subsetter/extractor.py:81-83 | with a non-empty replacement that shares no character with the pattern, no occurrence of the pattern remains |
| Text.ReplaceKeepsAbsent | src/data_processor/tools/subsetter/extractor.py:81-83 | a later replacement with such a replacement text cannot bring back an absent placeholder |
| Text.Split | src/data_processor/tools/subsetter/subsetter.py:193 | `str.split` with one separator: one piece more than there are separators, none containing the separator |
| Text.JoinSplit | src/data_processor/tools/subsetter/subsetter.py:193 | joining the pieces gives back the string |
| Text.SplitWithoutSeparator | src/data_processor/tools/subsetter/subsetter.py:193 | a string without the separator splits into itself |
| Text.SplitAfterPiece | src/data_processor/tools/subsetter/subsetter.py:193 | splitting peels off the text before the first separator as the first piece |
| Text.SplitJoin | src/data_processor/daemon/task_runner.py:38-39 | splitting a join of a non-empty list of separator-free items gives back the list |
| Text.Join | src/data_processor/daemon/task_runner.py:39 | `",".join(v)`; stated by SplitJoin |
| Text.Strip | src/data_processor/tools/subsetter/subsetter.py:193 | `str.strip` is the input without its leading and trailing whitespace: a slice that neither starts nor ends with whitespace, empty exactly when the input is all whitespace |
| Text.StripClean | src/data_processor/tools/subsetter/subsetter.py:193 | a string without surrounding whitespace is its own strip |
| Text.SplitAndStrip | src/data_processor/tools/subsetter/subsetter.py:193 | the variable list has one name per comma-separated piece |
| Text.SplitAndStripPieces | src/data_processor/tools/regridder/regridder.py:209 | each parsed name is the stripped piece at the same position |
| Text.SplitAndStripEmpty | src/data_processor/tools/regridder/regridder.py:198 | the default `""` gives one empty name |
| Text.SplitAndStripJoin | src/data_processor/tools/regridder/regridder.py:209 | a comma-joined list of comma-free names without surrounding whitespace parses back into the same list |
| YearSlicing.YearSlices | src/data_processor/tools/subsetter/extractor.py:108-116 | one slice per year from the start's year to the end's year |
| YearSlicing.YearSlicesShape | src/data_processor/tools/subsetter/extractor.py:111-112 | slice i lies in year start+i; the first starts at the range start, the last ends at the range end, the others run from 1 January to 31 December at noon |
| YearSlicing.YearSliceAt | src/data_processor/tools/regridder/extractor.py:96-97 | the slice at index i is the slice of year start+i |
| YearSlicing.YearSlicesValid | src/data_processor/tools/regridder/extractor.py:96-97 | every slice starts at a valid datetime |
| YearSlicing.YearSlicesCoverRange | src/data_processor/tools/subsetter/extractor.py:108-116 | for a midday-to-midday range, walking each slice's days in turn visits exactly the range's days, in order |

## Left out

- Threads: the daemon threads, the `ProcessMonitor` thread and its lock are not run. The monitor's effect is the `deadline` of `ProcessOracle`, the poll after which it fires.
- Signals and sleeps: `time.sleep` is recorded as an event and not waited for. The `SIGTERM`/`SIGKILL` of `timeout_if_not_complete` are not modelled.
- `subprocess.Popen` and the process's output are given as `ProcessOracle`, what readline, poll and the final read return. The `print` of `task_runner.py` is not modelled.
- Daemons.Daemon.RunTask: the two `self.logger.info` calls of `run_task` (`daemon.py:69,72`) are not modelled; logging has no effect on the store or the outcome.
- TaskRunning.SpecValue, TaskRunning.Coerce: spec values are modelled as strings, integers, booleans and lists of strings only. A `float` (which `str(v)` renders in Python's shortest round-trip form) is not modelled. Nor are values of any other type, which the source stores in the environment unchanged, nor a list with a non-string item, for which `",".join(v)` raises `TypeError`.
- Daemons.Daemon.Run: the infinite `while True` loop is modelled as finitely many rounds, one per element of `rounds`.
- The job store, `JobOperations`, `JobManager` and task objects are foreign. Their calls are recorded as actions. The effect of `task.retry()` on the retry count is not assumed, and the session's exception handling is not modelled.
- `glob.glob`, `xr.open_dataset`, `xarray.open_mfdataset`, `createTimePeriods` and `Aggregator.aggregate` are given as functions. The aggregator's averaging is not modelled.
- Floating-point means in the CSV rows are given as a function `mean`; the CSV rows are typed values, and CSV quoting is not modelled.
- The raster and NetCDF writers (`rio.write_crs`, `rio.to_raster`, `to_netcdf`) are recorded as the written file's path and contents. The CRS `epsg:4326` is not part of the record.
- Geotiff.RasterAttrs: states only that `grid_mapping` is gone. That the other attributes are kept follows from its map difference and is proved in Geotiff.RastersFromEditOf.
- The attribute deletion of the GeoTIFF formatter is modelled on values: the edited dataset is returned, and aliasing with the caller's dataset is not modelled.
- The `uuid` the formatters store is not used by any output and is left out.
- `regridder.py:115`: `period_duration` is computed and never used. It is left out.
- `tools/common/netcdf4_formatter.py` (the subsetter's NetCDF formatter) is not part of this model. Its `write` is a parameter.
- The regridder's base formatter `tools/regridder/formatter.py` is not part of this model. Its `get_output_filename` is the parameter `nameOf`.
- `strftime` for years below 1000 depends on the platform and is left out: `%Y` is modelled as four zero-padded digits. `str.format` is modelled for plain named fields, `{{`/`}}` escapes and the errors of unbalanced braces; format specs, conversions and indexing are left out.
- argparse: options arrive already converted. The dates and the output paths are `Option` values, `None` when not given; the other options have defaults. Its type conversion and usage errors are not modelled.
- Regridding.DispatchRun: `--in-path` is taken as given. Without it `regrid` as written still fails at `generate_data` (Regridding.RegridAsWritten does not read the location), but the corrected pipeline would raise `AttributeError` at its first `location.replace`, which the model does not capture.
- Generators are evaluated eagerly, as the finite stream of what they yield and the error that ends them. A consumer that stops early (a write or an aggregate that raises) leaves the rest of the generator unrun. That difference cannot be seen here, because `glob` and `open_dataset` are pure parameters that record no event, and the loops report a write error before looking at any later failure of the generator.
- SubsetExtraction.GenerateData, SubsetExtraction.GenerateYearData: require a valid start datetime, which every Python `datetime` is.
- The latitude direction test on the data's `y` coordinate is modelled with an error for an empty or missing axis. Selection by value within the box is recorded as the pair of slice bounds.

## Findings

| source | as written | input that shows it | evidently intended | confidence | as-written member | corrected member |
|---|---|---|---|---|---|---|
| src/data_processor/tools/regridder/regridder.py:118 | the loop calls `extractor.generate_data(...)`, but the regridder's `Extractor` defines only `generateData`, so `regrid` always raises `AttributeError` after making the folder, and nothing is aggregated, written or closed | any `regrid` call whose range has at least one period | call `extractor.generateData(...)`, the generator of `tools/regridder/extractor.py:80-101` | not executed | Regridding.RegridAsWritten, Regridding.AsWrittenProcessesNothing | Regridding.Regrid, Regridding.RegridOrder |

Two properties follow from the code as written and are stated as lemmas, not as findings:
- Subsetting.DefaultFormatRejected: the subsetter's default `--output-format` is `"netcdf4"`, which `subset` refuses.
- Netcdf.DefaultPatternPath: the regridder's default pattern already ends in `.nc`, so the NetCDF file is named `...fv01.0.nc.nc`.
