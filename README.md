# 406decoder: scan, lock and decode controller

A Dafny model of `app/decoder.py` of 406decoder, the program that watches the 406 MHz
distress-beacon band with an RTL-SDR tuner. It has three parts:

- **Peak selection.** This is one pass over the `rtl_power` log. Each CSV row carries a
  base frequency in field 2 and a bin width in field 4. The fields from index 6 on are
  power readings in dB for consecutive bins. The pass keeps the strongest reading, starting
  from a floor of -200 dB at frequency 0, together with its absolute frequency
  `base + bin * width`.
  - Modelled by the `PeakSelector` module.
  - `SelectPeak` is the loop. It is proved equal to the declarative `SpecPeak`: the
    maximum reading, taken from the first row that holds it and the first bin in that row.
- **Tuner reset filter (`reset_dvbt`).** It splits the `lsusb` listing into lines and
  resets `/dev/bus/usb/<bus>/<dev>` for every line that has more than six
  whitespace-separated tokens, mentions "Realtek", and has "2832" or "2838" as token 5.
  - Modelled by the `UsbReset` module.
  - The `Text` module supplies the Python string operations it uses: `str.split()`,
    `str.split("\n")`, the substring test `in`, and `s[:-1]`.
- **Controller (`scan_frequencies`).** Its loops work like this:
  - Each round resets the tuner, records the date, and then scans until a pass finds a peak
    above -200 dB.
  - A failing scan tool ends the controller. A missing power log costs one more reset and
    another scan.
  - Once a peak is found, the controller decodes again and again at that frequency while
    the status file contains "TROUVE". Each hit sends a notification, but only when both
    the token and the chat id are set. The first miss starts a new round.
  - Modelled by the `Controller` module as a state machine (`Step`, `Run`) over three input
    streams: the dates, the scan outcomes and the decoder status texts. It emits a trace of
    `Reset`, `Scan`, `Decode(frq)` and `Notify(date)` actions.
  - The method `ScanFrequencies` keeps the source's nested loops and is proved to emit
    exactly the trace of `Run`.

- **Launching the scan tool.** The `Launch` module models how `subprocess.check_output`
  starts the power-scan command, with and without a shell, and which of its exceptions the
  handler at line 77 catches.

Files: `wrappers.dfy` (Option), `text.dfy`, `peak_selector.dfy`, `usb_reset.dfy`,
`controller.dfy`, `launch.dfy`.

Two behaviours of the code are easy to misread:

- **Malformed readings are not mapped to -200 dB.** `float()` raises on non-numeric text
  (app/decoder.py:94). Only an empty reading list gives -200, as the `default` of `max`
  (line 95). The model therefore makes numeric fields a precondition.
- **`reset_dvbt` is not best-effort.** A failing `lsusb` raises out of it (line 22), and so
  out of `scan_frequencies` (lines 69 and 87).

## Model

| member | source | states |
|---|---|---|
| `Text.IsSpace` | app/decoder.py:24 | Defines the whitespace of `str.split()`: the characters for which `str.isspace()` holds |
| `Text.WordLen` | app/decoder.py:24 | The first word of a text runs up to the first whitespace character or the end, and holds no whitespace |
| `Text.Words` | app/decoder.py:24 | `str.split()` yields only non-empty tokens without whitespace; `Text.WordsOfSpaced` and `Text.SpacedWords` fix which tokens |
| `Text.WordsOfJoin` | app/decoder.py:24 | Splitting tokens joined by single spaces gives back exactly those tokens |
| `Text.WordsSkipSpace` | app/decoder.py:24 | `str.split()` ignores leading whitespace: a whitespace run in front of a text does not change its tokens |
| `Text.WordsOfSpaced` | app/decoder.py:24 | For any non-empty, whitespace-free tokens separated by whitespace runs of any length and kind (possibly empty before the first token and after the last), `str.split()` gives back exactly those tokens |
| `Text.SpacedWords` | app/decoder.py:24 | Every text is its tokens separated by such whitespace runs; with `Text.WordsOfSpaced` this fixes the tokens of every line, including leading, trailing and repeated whitespace |
| `Text.WordOccurs` | app/decoder.py:24-25 | Every token of a line occurs as a substring of the line |
| `Text.IndexOfChar` | app/decoder.py:22 | Finds the first occurrence of a character, with no earlier occurrence |
| `Text.SplitOn` | app/decoder.py:22 | `str.split("\n")` yields at least one piece, and no piece holds the separator |
| `Text.JoinSplitOn` | app/decoder.py:22 | Splitting loses nothing: rejoining the pieces with the separator gives back the listing |
| `Text.Contains` | app/decoder.py:25 | `sub in s` holds exactly when `sub` occurs at some index of `s` |
| `Text.DropLast` | app/decoder.py:26 | `s[:-1]` is `s` without its last character, and is empty for the empty string |
| `UsbReset.Triggers` | app/decoder.py:25-27 | Defines the reset test: more than 6 tokens, "Realtek" in the line, and token 5 equal to "2832" or "2838" |
| `UsbReset.DevicePath` | app/decoder.py:26-28 | The reset path is `/dev/bus/usb/` followed by token 1, a slash, and token 3 without its last character; it always lies under `/dev/bus/usb/` |
| `UsbReset.ResetPaths` | app/decoder.py:23-28 | Defines the resets of a listing: those of each line, in line order |
| `UsbReset.AtMostOneResetPerLine` | app/decoder.py:23-28 | Each line causes at most one reset, so a listing causes at most as many resets as it has lines |
| `UsbReset.ResetPathsAppend` | app/decoder.py:23-28 | Lines are handled independently and in order: the resets of a listing are the resets of its parts, concatenated |
| `UsbReset.ResetPathsExact` | app/decoder.py:23-28 | A path is reset exactly when some line has more than 6 tokens, contains "Realtek", has token 5 equal to "2832" or "2838", and addresses that path |
| `UsbReset.ResetDvbt` | app/decoder.py:20-28 | The loop over the lines of the listing issues, in order, the resets of the filter, and a path is reset if and only if some line triggers and addresses it |
| `UsbReset.RealLineExists` | app/decoder.py:24 | The usual `lsusb` line of an RTL2838 stick splits into 11 tokens, with "0bda:2838" as token 5 |
| `UsbReset.PairTokenNeverTriggers` | app/decoder.py:27 | As written, a line whose token 5 contains a colon never causes a reset |
| `UsbReset.RealLineIgnored` | app/decoder.py:27 | As written, the usual RTL2838 `lsusb` line is ignored |
| `UsbReset.ProductId` | app/decoder.py:27 | The product part of a `vendor:product` token holds no colon, and a token without a colon is its own product part |
| `UsbReset.ProductIdOfPair` | app/decoder.py:27 | The product part of `vendor:product` is `product` |
| `UsbReset.IntendedTriggersConservative` | app/decoder.py:25-27 | The corrected test agrees with the written one on every line whose token 5 has no colon |
| `UsbReset.RealLineNamesVendor` | app/decoder.py:25 | The usual RTL2838 line passes the "Realtek" substring test |
| `UsbReset.RealLineProduct` | app/decoder.py:27 | The product part of the usual line's token 5 is a supported tuner id |
| `UsbReset.RealLineIntended` | app/decoder.py:25-27 | With the corrected test, the usual RTL2838 line causes a reset |
| `UsbReset.RealLinePath` | app/decoder.py:26-28 | The reset for the usual line addresses `/dev/bus/usb/001/004` (the bus token, and the device token without its trailing colon) |
| `PeakSelector.BinFrequency` | app/decoder.py:98 | Defines the absolute frequency of bin `k` as `float(parts[2]) + k * float(parts[4])` |
| `PeakSelector.SeqMax` | app/decoder.py:95 | The maximum of a non-empty reading list is one of its readings and no reading exceeds it |
| `PeakSelector.MaxOrFloor` | app/decoder.py:95 | `max(freqs, default=-200)`: -200 for an empty list, otherwise a reading of the list that bounds all of them |
| `PeakSelector.IndexOf` | app/decoder.py:98 | `freqs.index(v)` is the first position holding `v` |
| `PeakSelector.RowTop` | app/decoder.py:95-96 | A row's contribution is at least -200, bounds every reading of the row, and is a reading of the row when above -200 |
| `PeakSelector.Level` | app/decoder.py:90-97 | Defines the level of a pass as the larger of -200 and every row's maximum; it is never below -200 |
| `PeakSelector.LevelIsMax` | app/decoder.py:90-97 | The level of a pass bounds every reading, and is either -200 or one of the readings |
| `PeakSelector.FirstRowWith` | app/decoder.py:96-98 | Finds the first row that holds a given reading, so no earlier row holds it |
| `PeakSelector.SpecPeak` | app/decoder.py:90-98 | Defines the peak of a pass: its level, and the frequency of the first bin of the first row holding that level, or 0 Hz at -200 dB; the level is never below -200 |
| `PeakSelector.SpecPeakIsFirstMaximum` | app/decoder.py:90-98 | The selected peak bounds every reading. It is -200 at frequency 0 exactly when no reading is above -200. Otherwise it is a reading at `base + bin * width`, taken from the first row holding that value and the first bin of that row holding it (strict `>` tie-break) |
| `PeakSelector.SentinelIffNoSignal` | app/decoder.py:90-101 | A pass yields the sentinel (-200 dB, 0 Hz) if and only if no reading is above -200, and only then does the peak fail the `> -200` lock test |
| `PeakSelector.LevelAppend` | app/decoder.py:92-97 | One more row raises the level to the larger of the old level and that row's maximum |
| `PeakSelector.FirstRowAppendOld` | app/decoder.py:96-98 | A reading already present keeps its first row when a row is appended |
| `PeakSelector.FirstRowAppendNew` | app/decoder.py:96-98 | A reading found only in the appended row is located in that row |
| `PeakSelector.PeakExtend` | app/decoder.py:92-98 | Appending a row changes the declarative peak exactly as one loop iteration does: replace it only when the row's maximum is strictly greater |
| `PeakSelector.SelectPeak` | app/decoder.py:90-98 | The selection loop returns the declarative peak of the pass |
| `PeakSelector.ScenarioPeak` | app/decoder.py:90-98 | A row at 406 000 000 Hz with 1000 Hz bins and readings -150, -90, -160 dB peaks at -90 dB and 406 001 000 Hz |
| `Controller.DecoderFlags` | app/decoder.py:62-64 | The decoder gets `--100 --M3 --une_minute`, and `--osm` is among the flags exactly when it is enabled |
| `Controller.Truthy` | app/decoder.py:125 | Python truthiness of an optional credential: present and non-empty |
| `Controller.NotifyEnabled` | app/decoder.py:125 | Notifications are on exactly when both the token and the chat id are truthy |
| `Controller.DecodeSucceeded` | app/decoder.py:115-121 | A decode succeeds exactly when the status file exists and its text contains "TROUVE". A missing file means not found |
| `Controller.AfterRestart` | app/decoder.py:68-72 | The head of the outer loop consumes exactly one date and no scan or status |
| `Controller.AfterScan` | app/decoder.py:74-101 | One scan pass consumes exactly one scan outcome and no date or status; `ScanFails`, `ScanMissing`, `ScanSilent` and `ScanLocks` pin its four branches |
| `Controller.AfterDecode` | app/decoder.py:104-128 | One decode pass consumes exactly one status and no date or scan outcome |
| `Controller.Step` | app/decoder.py:68-128 | Every transition consumes exactly one input, so the controller cannot spin without consuming input, and keeps every action already taken |
| `Controller.Run` | app/decoder.py:68-128 | A run ends only when the controller has aborted or the input its phase needs is used up |
| `Controller.ScanFrequencies` | app/decoder.py:68-128 | The nested loops emit exactly the trace of the state machine and end as it does. Every Notify directly follows a Decode and needs both credentials. An abort comes right after a Scan |
| `Controller.RunNotifiesOnlyAfterDecode` | app/decoder.py:124-126 | In every run, each notification directly follows a decode and happens only when token and chat id are both non-empty |
| `Controller.RunAbortEndsWithScan` | app/decoder.py:75-79 | A run that aborts ends with the failed scan: no decode, reset or notification follows it |
| `Controller.ScanFails` | app/decoder.py:75-79 | A failing scan tool ends the run at once: the controller aborts right after that scan, with nothing decoded, reset or notified afterwards |
| `Controller.ScanLocks` | app/decoder.py:96-107 | A pass with a reading above -200 dB locks the controller after one scan, at the frequency of that pass's selected peak |
| `Controller.RunExtendsTrace` | app/decoder.py:68-128 | A run keeps every action already taken: the trace only grows |
| `Controller.RunIterate` | app/decoder.py:68-128 | Taking any number of steps first leads to the same end of run, and their trace is a prefix of the run's, so the step lemmas below describe the trace of `ScanFrequencies` |
| `Controller.FirstScanFails` | app/decoder.py:68-79 | When the very first scan fails, `scan_frequencies` resets the tuner, scans once and returns |
| `Controller.ScanMissing` | app/decoder.py:82-88 | A missing power log costs one scan and one reset, and the controller stays in the scan loop |
| `Controller.MissingLogThen` | app/decoder.py:82-88 | A missing log followed by retries is one more round of scan and reset |
| `Controller.MissingLogsRetry` | app/decoder.py:82-88 | Any number k of missing logs give exactly k rounds of scan and reset, never abort, and leave the controller scanning, with no retry bound |
| `Controller.ThreeMissingLogs` | app/decoder.py:82-88 | Three missing logs give scan, reset three times over, and the controller is still scanning |
| `Controller.ScanSilent` | app/decoder.py:74-101 | A pass with no reading above -200 dB neither locks nor decodes. The controller scans again |
| `Controller.SilentPassThen` | app/decoder.py:74-101 | A silent pass followed by more silent passes is one more scan |
| `Controller.SilentPassesRescan` | app/decoder.py:74-101 | k silent passes give exactly k scans, with no decode, reset or notification, and the controller stays scanning |
| `Controller.DecodeHit` | app/decoder.py:115-126 | A decode whose status contains "TROUVE" keeps the lock on the same frequency. It notifies only when enabled, with the date of the current round |
| `Controller.HitThen` | app/decoder.py:104-126 | One hit followed by more hits adds one decode and its optional notification |
| `Controller.LockedWhileFound` | app/decoder.py:104-126 | While k statuses in a row contain "TROUVE", the controller stays locked on the same frequency. It decodes k times, notifies after each decode when enabled, always with the date recorded at the start of the round, and consumes no scan or date |
| `Controller.MissReturnsToScan` | app/decoder.py:68-128 | A decode without "TROUVE" leaves the decode loop. The next moves are a reset and a new date, and then scanning resumes |
| `Controller.ScenarioLocks` | app/decoder.py:90-101 | A pass holding the example row locks the controller at 406 001 000 Hz after one scan |
| `Launch.CheckOutput` | app/decoder.py:76 | The scan call succeeds exactly when the program it starts is installed and exits with status 0. With a shell it never raises `FileNotFoundError`; without one, a program that cannot be found raises it |
| `Launch.ScanCallUncaught` | app/decoder.py:76-79 | As written, without a shell, the scan call raises `FileNotFoundError` for any arguments when no installed program name contains a space, and the handler does not catch it |
| `Launch.ShellRunsTool` | app/decoder.py:66 | With a shell, the program started by the power command is `rtl_power` |
| `Launch.ShellScanCallCaught` | app/decoder.py:76-79 | Corrected, with a shell: the scan call succeeds exactly when `rtl_power` is installed and exits with status 0, and every failure is the non-zero exit the handler catches |

## Left out

- `send_telegram` (the HTTP POST through `requests`) is a foreign call. The model records only the `Notify(date)` action it is called with, and not whether the post succeeded, which the controller ignores anyway.
- `touch`, `display_trame` and opening or reading the power log and the status file are filesystem I/O. Their contents, or their absence, are inputs: `ScanOutcome` and `Status`.
- The external tools are not modelled: `rtl_power`, `rtl_fm`, `sox`, `dec406_V7`, the 56 s `timeout`, and `os.system` and `subprocess` themselves. A scan is an input outcome (failed tool, missing log, or rows), and a decode is an input status text.
- Shell command strings are not modelled. They mostly format the Python float `frq` as text. Only the decoder flags are modelled (`DecoderFlags`).
- `main` (argparse, the temporary directory, the directory check) and the logging setup are command-line plumbing.
- The wall clock (`datetime.now().strftime`) is left out. The date of each round is an input, one per round of the outer loop.
- Parsing decimal text into numbers is left out. Rows arrive split and converted, and real arithmetic stands for Python floats: no rounding, NaN or infinities.
- `PeakSelector.SelectPeak`: requires base frequency and bin width to be numeric in every row that has readings. The source converts them only when that row takes the lead, so a malformed header in a row that never leads would go unnoticed there. Non-numeric text in either place makes `float()` raise (an uncaught `ValueError`), which the model excludes rather than models.
- `Controller.ScanFrequencies`: inherits that precondition for every pass, through `WellFormedScans`.
- `Controller.ScanFrequencies`: the source loops forever. The model stops when the input stream that the current phase needs is used up, and reports `InputExhausted`.
- `UsbReset.ResetDvbt`: a failure of `lsusb` itself (`check_output` raising) is not modelled. The listing is an input, and the result of running `reset_usb` is not observed.
- `Controller.ScanFrequencies`: a failing `lsusb` inside `reset_dvbt` (lines 69 and 87) would end `scan_frequencies` with an exception at a reset. In the model a `Reset` always succeeds.
- `Controller.ScanFrequencies`: `ToolFailed` stands for the caught non-zero exit of the scan tool, which is the corrected launch of `Launch.ShellScanCallCaught`. As written, the scan call raises an uncaught `FileNotFoundError` at the first scan (see Findings). The trace up to that point is the same as for `ToolFailed`, but the model does not show the exception.
- Decoding errors of the listing bytes and of the status file (`.decode()`, `f.read()`) are left out. Text is a sequence of characters.

## Findings

| source | as written | input that shows it | evidently intended | confidence | as-written member | corrected member |
|---|---|---|---|---|---|---|
| app/decoder.py:27 | The product test compares the whole token 5 with "2832" or "2838", but `lsusb` prints token 5 as `vendor:product`, so the test never matches a real listing and the tuner is never reset | `Bus 001 Device 004: ID 0bda:2838 Realtek Semiconductor Corp. RTL2838 DVB-T` (token 5 is `0bda:2838`) | Compare the product part of token 5, after the colon, with "2832" or "2838" | high; not executed | `UsbReset.RealLineIgnored` | `UsbReset.RealLineIntended` |
| app/decoder.py:76 | The power command is one string passed to `subprocess.check_output` without `shell=True`. On POSIX the whole string is taken as the program name, so the call raises `FileNotFoundError`. The handler at line 77 catches only `CalledProcessError`, so `scan_frequencies` ends with an exception at the first scan | `rtl_power -p 0 -f 405900000:406200000:400 -i55 -P -O -1 -e55 -w hamming /tmp/x/log_power.csv 2>/dev/null`, with `rtl_power` installed | Run the command through a shell (`shell=True`, which the `2>/dev/null` redirection also needs), so that `rtl_power` is started and its failures are caught | high; not executed | `Launch.ScanCallUncaught` | `Launch.ShellScanCallCaught` |
