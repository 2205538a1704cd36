# MYLOG core, modelled in Dafny

MYLOG is a small C++ logging library. A logger formats each record through a
`Formatter` compiled from a printf-like pattern (`[%d{%H:%M:%S}][%t][%c][%f:%l][%p]%T%m%n`).
It then hands the text to its sinks: standard output, one file, or a file that
rolls over by size. In asynchronous mode the text first goes into a growable
`Buffer` that a background thread swaps out and drains.

This project models four parts of that core and proves properties about them:

- `buffer.dfy` (module `LogBuffer`): the `Buffer` class. It has a storage
  sequence, a read cursor and a write cursor, and the two-regime growth rule.
- `format.dfy` (module `Format`):
  - `parsePattern`, modelled twice. `Scan` is a pure reference definition.
    `ParsePattern` is the imperative loop, proved equal to `Scan`.
  - `createItem`, the format items, and the two `format` overloads.
  - The constructor, as `NewFormatter`/`Compile`.
- `util.dfy` (module `Util`): `File::path`, and `File::create_directory` as
  the list of `mkdir` calls it makes.
- `sink.dfy` (module `Sink`): `FileSink` and `RollBySizeSink` as classes.
  The files they open and the writes each file receives are fields.
- `text.dfy` (module `Text`): decimal text of naturals, which is what
  `operator<<` prints for the line number and for the parts of a rolled file
  name.
- `wrappers.dfy` (module `Wrappers`): `Option` and `Result`.

Errors that abort or fail in the C++ code are modelled as `Result` errors.
The formatter's `ConfigError` covers three cases:

- a `%` at the end of the pattern;
- a `{` without a matching `}`;
- an unknown directive letter (`createItem` calls `abort()`).

Above 8 MiB, `ensureEnoughSize` adds 1 MiB exactly once
(log/logs/buffer.hpp:87-91). So `Buffer.Push` requires that the record fit
after that one step, which is what the assertion in `moveWriter` demands.

## Model

| member | source | states |
|---|---|---|
| Text.DecimalRoundTrip | log/logs/format.hpp:69-76 | the decimal text printed for a number reads back as that number |
| Text.DecimalStringInjective | log/logs/sink.hpp:108-115 | different numbers print as different decimal texts |
| LogBuffer.GrowthMonotone | log/logs/buffer.hpp:78-92 | growth never shrinks the storage; it leaves it alone exactly when `len` is below the writable space, and grows it otherwise, also when `len` equals the writable space |
| LogBuffer.DoublingAlwaysFits | log/logs/buffer.hpp:83-86 | below 8 MiB the new capacity `2*C+len` always has room for the record |
| LogBuffer.LinearGrowthBound | log/logs/buffer.hpp:87-97 | at or above 8 MiB a push fits exactly when `len` is at most the writable space plus 1 MiB, and the capacity grows by 0 or by exactly 1 MiB |
| LogBuffer.Buffer.constructor | log/logs/buffer.hpp:16-18 | a new buffer holds 10 MiB, both cursors at 0, nothing readable |
| LogBuffer.Buffer.Push | log/logs/buffer.hpp:21-29 | the readable bytes become the old readable bytes followed by the record; the write cursor moves by its length; bytes already written are kept |
| LogBuffer.Buffer.WriteAbleSize | log/logs/buffer.hpp:31-34 | the result plus the write cursor is the capacity |
| LogBuffer.Buffer.ReadAbleSize | log/logs/buffer.hpp:43-46 | the result is the number of readable bytes |
| LogBuffer.Buffer.MoveReader | log/logs/buffer.hpp:49-53 | with `len` at most the readable size, the first `len` readable bytes are consumed and the rest stay readable |
| LogBuffer.Buffer.Reset | log/logs/buffer.hpp:56-60 | both cursors return to 0 and nothing is readable; the storage is kept |
| LogBuffer.Buffer.Swap | log/logs/buffer.hpp:63-68 | the two buffers exchange storage and both cursors, and both stay valid |
| LogBuffer.Buffer.Empty | log/logs/buffer.hpp:71-74 | true exactly when nothing is readable |
| LogBuffer.Buffer.EnsureEnoughSize | log/logs/buffer.hpp:78-92 | the capacity becomes the growth rule's value, which is the old capacity or one increment more for any valid buffer; old bytes are kept |
| LogBuffer.Buffer.MoveWriter | log/logs/buffer.hpp:95-99 | with the bytes in range, the write cursor advances by `len` and those bytes become readable |
| LogBuffer.SwapTwice | log/logs/buffer.hpp:63-68 | swapping twice restores both buffers |
| Util.FindLastSep | log/logs/util.hpp:46 | the position found is a `/` or `\` with none after it; no position means no separator |
| Util.FindFirstSep | log/logs/util.hpp:61 | the position found is the first `/` or `\` at or after `from`; no position means none |
| Util.PathShape | log/logs/util.hpp:40-52 | the result is "." for an empty name or one without separators, otherwise the prefix up to and including the last separator |
| Util.PathIdempotent | log/logs/util.hpp:40-52 | taking the directory part of a directory part changes nothing |
| Util.SeparatorPrefixesShape | log/logs/util.hpp:59-75 | the candidate parents are separator-terminated prefixes of the path, strictly growing |
| Util.MissingShape | log/logs/util.hpp:67-73 | only directories that do not exist are created, shortest first |
| Util.MkdirCallsShape | log/logs/util.hpp:55-76 | the `mkdir` calls are strictly growing; every call other than the whole path is a missing, separator-terminated prefix of it; when the path does not end in a separator, the whole path is the last `mkdir` call |
| Util.MkdirCallsComplete | log/logs/util.hpp:55-76 | conversely, every missing separator-terminated prefix of the path is handed to `mkdir`, and so is the whole path when it does not end in a separator, whether or not it exists |
| Util.CreateDirectory | log/logs/util.hpp:55-76 | the loop makes exactly the `mkdir` calls of `MkdirCalls` |
| Format.BraceSplitShape | log/logs/format.hpp:206-215 | the sub-pattern stops at the first `}` and holds none; without a `}` there is no split |
| Format.ReadSubPattern | log/logs/format.hpp:209-212 | the inner loop collects the text up to the first `}` or the end of the pattern |
| Format.ScanLiteralAt | log/logs/format.hpp:175-179 | a character other than `%` is appended to the pending literal |
| Format.ScanEscapeAt | log/logs/format.hpp:182-187 | `%%` appends one `%` to the pending literal |
| Format.ScanDanglingAt | log/logs/format.hpp:197-202 | a `%` as the last character fails |
| Format.ScanBareAt | log/logs/format.hpp:189-224 | a directive without `{` emits the pending literal if any, then the key with an empty value |
| Format.ScanBraceAt | log/logs/format.hpp:206-221 | a directive with `{` emits the pending literal, then the key with the text up to the first `}`; without a `}` parsing fails |
| Format.ReadDirective | log/logs/format.hpp:196-221 | reads one directive and returns the entry and the next cursor, or the failure, as `Scan` defines them |
| Format.ParsePattern | log/logs/format.hpp:166-225 | the imperative loop returns exactly what the reference `Scan` yields: the `fmt_order` list or the failure |
| Format.ScanWellFormed | log/logs/format.hpp:189-224 | no empty literal is emitted, every literal is followed by a directive, and directive keys are one character other than `%` |
| Format.ScanEscape | log/logs/format.hpp:175-187 | literal text with each `%` doubled is read back unchanged into the pending literal |
| Format.ScanBareDirective | log/logs/format.hpp:204-224 | `%k` followed by anything but `{` yields the entry (k, "") after the pending literal |
| Format.ScanBracedDirective | log/logs/format.hpp:206-224 | `%k{sub}` yields the entry (k, sub) after the pending literal |
| Format.ScanUnparse | log/logs/format.hpp:172-225 | parsing the printed form of a well-formed plan, followed by more text, yields the plan followed by what that text yields |
| Format.UnparseRoundTrip | log/logs/format.hpp:166-231 | every well-formed plan is what parsing its printed form returns |
| Format.TrailingLiteralDropped | log/logs/format.hpp:172-229 | after any printed plan, literal text (`%%` included) is parsed but produces no entry |
| Format.TrailingPercentFails | log/logs/format.hpp:196-202 | a lone `%` at the end fails, after any printed plan and literal text (`%%` included) |
| Format.ScanUnclosed | log/logs/format.hpp:213-217 | `%k{` with no `}` after it fails |
| Format.UnclosedBraceFails | log/logs/format.hpp:213-217 | an unclosed `{` fails, after any printed plan and literal text (`%%` included) |
| Format.CreateItemKeys | log/logs/format.hpp:234-279 | only `d T t p c f l m n` and the literal key give items, anything else aborts with that key; only `d` and literals keep their value |
| Format.CreateItemsOk | log/logs/format.hpp:226-229 | creating the items succeeds exactly when every key is known, and gives one item per entry in order |
| Format.CreateItemsFirstError | log/logs/format.hpp:226-229 | a failure is the error of the first entry with an unknown key |
| Format.CompileSpec | log/logs/format.hpp:144-148 | a pattern compiles exactly when it parses and names only known directives; the formatter keeps the pattern and has one item per entry |
| Format.NewFormatter | log/logs/format.hpp:226-229 | the loop over `fmt_order` builds exactly the formatter `Compile` describes, or stops at the first unknown key |
| Format.RenderAppend | log/logs/format.hpp:150-156 | the items' output is the concatenation of what each part of the item list writes |
| Format.FormatToAppends | log/logs/format.hpp:158-163 | the stream overload appends exactly the string overload's result to what the stream held |
| Format.FormatItem | log/logs/format.hpp:24-126 | the item classes' output, one case per class; the line-number item writes non-empty decimal digits that read back as the message's line (what the other items write is stated by the pattern lemmas below) |
| Format.ScanTextThen | log/logs/format.hpp:172-224 | plain text and one directive, in front of text that parses, add their literal entry and directive entry in front |
| Format.LevelPayloadPattern | log/logs/format.hpp:144-163 | `<open>%p<close>%m%n` compiles to a literal, level, literal, payload and newline item, and writes the level name between the two texts, then the payload and a newline |
| Format.BracketedLevelFormats | log/logs/format.hpp:144-163 | `[%p]%m%n` compiles to those five items and writes `[level]payload` and a newline |
| Format.DefaultShapeFormats | log/logs/format.hpp:144-163 | a pattern shaped like the default compiles to its sixteen items and writes the time, thread, logger, file, line, level, a tab, the payload and a newline between its texts |
| Format.DefaultPatternShape | log/logs/format.hpp:144 | the constructor's default pattern is that shape with `[`, `][`, `:`, `]` and `%H:%M:%S` |
| Format.DefaultPatternFormats | log/logs/format.hpp:144-163 | a formatter built with the default pattern writes `[time][thread][logger][file:line][level]`, a tab, the payload and a newline |
| Format.CompileWithoutAsserts | log/logs/format.hpp:144-148 | built with NDEBUG, the constructor keeps the pattern but never parses it, so the formatter writes the empty text for every message |
| Format.ReleaseBuildFormatsNothing | log/logs/format.hpp:147 | for the pattern `%m` the intended formatter writes the payload, while the NDEBUG build writes nothing |
| Sink.CounterRoundTrip | log/logs/sink.hpp:101-118 | the counter is read back from a rolled file name, whatever the base name and the time |
| Sink.RollFileNamesDistinct | log/logs/sink.hpp:101-118 | names made with different counter values differ, even at the same time |
| Sink.StampAmbiguous | log/logs/sink.hpp:108-113 | the unpadded date and time do not identify the time: 2024-01-11 and 2024-11-01 print alike |
| Sink.FileSink.constructor | log/logs/sink.hpp:41-50 | the directories of the path's directory part are created and the file starts empty |
| Sink.FileSink.Log | log/logs/sink.hpp:52-56 | the record is appended to the file |
| Sink.RollBySizeSink.constructor | log/logs/sink.hpp:68-81 | the first file is named with counter 0, its directories are created, nothing is written yet |
| Sink.RollBySizeSink.CreateNewFile | log/logs/sink.hpp:101-118 | the name is base name, time and counter, and the counter advances by one |
| Sink.RollBySizeSink.Roll | log/logs/sink.hpp:86-93 | the full current file is closed, a new one with the next name is opened, the size count restarts at 0 |
| Sink.RollBySizeSink.Write | log/logs/sink.hpp:94-96 | the record goes to the current file and its length is added to the size count |
| Sink.RollBySizeSink.Log | log/logs/sink.hpp:84-97 | a new file is opened exactly when the current one has reached the maximum; the record is then written to the current file, and the size becomes the record's length after a roll and the old size plus it otherwise; everything logged is kept, in order; every closed file reached the maximum and received no write after reaching it |
| Sink.OpenedNamesDistinct | log/logs/sink.hpp:101-118 | no two files of a rolling sink share a name |
| Sink.LoggedSize | log/logs/sink.hpp:92-96 | the characters logged are those in the closed files plus the current size count |

## Left out

- log/logs/looper.hpp: the asynchronous looper is not part of this model. Its thread, mutex, condition variables, the safe/unsafe overflow policy and shutdown are concurrency.
- `StdoutSink` writes to the process's standard output, which is I/O. The diagnostics `parsePattern` and `createItem` print to `std::cout` before failing or aborting (log/logs/format.hpp:200, 217, 276) are left out too; the model returns `DanglingPercent`, `UnclosedSubPattern` or `UnknownDirective` instead.
- Level names: `LogLevel::toString` is not part of this model. A level's printed name is the parameter `Env.levelName`.
- Time text: `localtime_r` and `strftime` are foreign calls. A `%d` item writes `Env.timeText(format, ctime)`. The 31-character limit of the `strftime` buffer is not modelled.
- The clock: `Date::now()` and `localtime_r` in `createNewFile` are replaced by the `LocalTime` parameter of the sink's constructor and `Log`. Years before 1900 (a negative `tm_year`) are not modelled.
- The file system: `File::exists` is the `existing` set of directories, fixed during one call. `mkdir` calls are recorded, not performed. Files are the sinks' own fields. Because the set does not grow during the call, a directory the call itself has made under another spelling is not seen: for `a//b` the model lists `a/`, `a//` and `a//b`, while the source's `stat("a//")` succeeds after `mkdir("a/")` and skips it (likewise `a/./b` and `a/b/../c`). The directories that exist afterwards are the same, since `mkdir` on an existing directory only fails with EEXIST.
- Files opened in append mode start empty in the model; text already in a file of the same name is not modelled, and `_cur_fsize` does not count it either.
- The `assert`s on `is_open()` and `good()` in the sinks: opening and writing are taken to succeed.
- Thread ids are the text they print as; the creation time is an integer timestamp.
- `size_t` arithmetic: sizes and counters are unbounded naturals. Wrap-around of `_cur_fsize` or `_name_count` is not modelled.
- Bytes are characters: records are `seq<char>`, not `char*` plus length.
- LogBuffer.Buffer.Push: requires that the record fit after one growth step, as `LinearGrowthBound` states exactly. In a build with NDEBUG the `moveWriter` assertion is compiled out, and a longer record (reachable through the looper's unsafe mode, log/logs/looper.hpp:48-52, which skips the wait for space) makes `std::copy` at log/logs/buffer.hpp:26 write past the end of the storage; that overflow is not modelled.
- Buffer `begin()` is the function `Readable()`, the readable bytes it points at, rather than a pointer.

## Findings

| source | as written | input that shows it | evidently intended | confidence | as-written member | corrected member |
|---|---|---|---|---|---|---|
| log/logs/format.hpp:147 | `parsePattern()` is called only inside `assert`, so a build with NDEBUG never parses the pattern and the item list stays empty | pattern `%m`, any record with payload `x`, compiled with NDEBUG: `format` returns "" | the pattern is parsed in every build, and `format` returns `x` | high; not executed | Format.ReleaseBuildFormatsNothing | Format.CompileSpec |
