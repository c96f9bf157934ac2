# Call recorder service — a Dafny model

This project models the recording-session logic of the Android dialer's
`CallRecorderService`. The service holds three pieces of state:

- the session state, `Idle` or `Recording`;
- an optional capture handle, which is the device's `MediaRecorder`;
- the metadata of the latest recording, which is its `CallRecording`.

Four binder calls make up the service's interface. Two of them change the
state: start and stop. The other two only read it: is-recording and
active-recording. Start and stop rest on two internal transitions:

- Start first performs an implicit stop of any recording in progress. It
  then checks two permissions. Last, it runs a fallback probe over 32
  capture configurations in a fixed order and keeps the first one the
  device accepts.
- Stop forces the state back to idle even when the device's `stop()` throws
  `IllegalStateException`. It also announces the current file to the media
  scanner.

File names follow the rule `<number or "unknown">_<yyMMdd_HHmmssSSS>.amr`.

The model is split into modules:

- `Wrappers` (`wrappers.dfy`) holds the `Option` type.
- `FilenamePolicy` (`filename_policy.dfy`) holds the file-name rule.
  - These are pure functions: zero-padded field rendering, the timestamp
    pattern and the "unknown" substitution.
  - Parsers for the timestamp and the file name come with round-trip
    lemmas.
- `CaptureConfig` (`capture_config.dfy`) holds the probe order and its
  specification.
  - It defines the five preference lists and their lexicographic product
    in the order the nested loops enumerate it.
  - `FirstAccepted` is the first position in an order whose candidate the
    device accepts.
  - `ProbeWinner` and `ProbeAttempts` specify the probe's result and the
    configurations it tries.
- `CallRecorder` (`call_recorder_service.dfy`) holds the service itself.
  - `CallRecorderService` is a class whose fields are the service's fields.
  - Its methods are the internal transitions and the binder calls.
  - The module-level method `ProbeConfigurations` is the five nested `for`
    loops, with an early return on success. It is proved equal to the probe
    specification.

The environment is abstracted as follows:

- **Capture device.** A set `accepted` of candidate configurations.
  Membership means that configuring the device, setting the output file,
  `prepare()` and `start()` all succeed for that candidate.
- **`stop()`.** A `StopOutcome`: it either returns normally or throws
  `IllegalStateException`.
- **Permissions.** The two permission checks are boolean inputs.
- **Filesystem.** The field `files`, the set of existing paths.
- **Clock.** The file-name clock reading is a `DateFields` value (calendar
  fields). The stored start time is the separate input `nowMillis`.
- **Ghost logs.** Three ghost fields record what happens at the device:
  - `attempts`: every configuration tried;
  - `scans`: every media-scan notification;
  - `handleEnds`: for every capture handle dropped, whether it was released
    first.

The invariant `Valid()` states five things:

- a handle exists exactly while recording;
- the handle writes a file that exists;
- the handle's configuration belongs to the product;
- there is then a recording whose name a stop can announce;
- the handle writes that recording's file.

The first four make up `Consistent()`. Every control call preserves
`Valid()`. Inside a start, the current recording is replaced before the
internal start runs, so only `Consistent()` holds there. The internal start
restores `Valid()` when it is given the current recording's path.

Some behaviours are reproduced as the source writes them:

- `startRecording` replaces the current recording before the implicit
  stop. That stop's scan notification therefore names the **new** file.
- The current recording is never cleared. `GetActiveRecording` returns it
  when idle too, and after a failed start.
- The encoder list is independent of the format list, so mismatched
  format and encoder pairs are among the 32 candidates.
- A `stop()` that throws `IllegalStateException` skips `reset()` and
  `release()`. The handle is
  then dropped without being released, which the model logs as
  `Abandoned`.

## Model

| member | source | states |
|---|---|---|
| FilenamePolicy.DigitsRoundTrip | src/com/android/services/callrecorder/CallRecorderService.java:63 | Reading back a zero-padded field of width `w` gives the original value whenever it fits in `w` digits. |
| FilenamePolicy.Timestamp | src/com/android/services/callrecorder/CallRecorderService.java:63 | The `yyMMdd_HHmmssSSS` rendering is 16 characters long. It has `_` at index 6 and ASCII decimal digits everywhere else. |
| FilenamePolicy.TimestampRoundTrip | src/com/android/services/callrecorder/CallRecorderService.java:63 | Parsing the timestamp gives back every date field. The year comes back reduced to its last two digits. |
| FilenamePolicy.TimestampOfTruncated | src/com/android/services/callrecorder/CallRecorderService.java:63 | The timestamp depends on the year only through `year % 100`. |
| FilenamePolicy.NumberOrUnknown | src/com/android/services/callrecorder/CallRecorderService.java:235-237 | The name part is never empty. It is `"unknown"` exactly when the number is null, empty or the literal `"unknown"`. Otherwise it is the number itself. |
| FilenamePolicy.GenerateFilename | src/com/android/services/callrecorder/CallRecorderService.java:232-241 | The file name is the name part, then `_`, then the 16-character timestamp, then `.amr`. Its length is the name part's length plus 21. |
| FilenamePolicy.FilenameRoundTrip | src/com/android/services/callrecorder/CallRecorderService.java:232-241 | Splitting a generated file name gives back the name part and the truncated date. |
| FilenamePolicy.FilenameCollision | src/com/android/services/callrecorder/CallRecorderService.java:232-241 | Two starts produce the same file name if and only if they share the name part and the truncated date, to the millisecond. |
| CaptureConfig.CandidatesAreOrderedProduct | src/com/android/services/callrecorder/CallRecorderService.java:147-151 | The 32 candidates are all drawn from the five preference lists and appear strictly in lexicographic order, so none repeats. Every combination appears, including mismatched format/encoder pairs. |
| CaptureConfig.CandidateAtPosition | src/com/android/services/callrecorder/CallRecorderService.java:147-151 | The `k`-th candidate comes from the product, and its preference ranks encode `k`. |
| CaptureConfig.PositionOfProduct | src/com/android/services/callrecorder/CallRecorderService.java:147-151 | Every combination of the five lists sits in the order at the position its ranks encode. |
| CaptureConfig.CandidateOfIndices | src/com/android/services/callrecorder/CallRecorderService.java:147-157 | The candidate the nested loops build at given list indices is the order's entry at position `16s + 8f + 4e + 2r + c`. |
| CaptureConfig.IndicesOf | src/com/android/services/callrecorder/CallRecorderService.java:147-151 | Every position of the order holds the candidate the loops build at some combination of the five indices, and the weighted sum of those indices is the position. |
| CaptureConfig.FirstAcceptedIsFirst | src/com/android/services/callrecorder/CallRecorderService.java:152-176 | The search returns a position whose candidate is accepted, with every earlier one rejected. When it finds none, every candidate from the start position on is rejected. |
| CaptureConfig.ProbeWinnerSpec | src/com/android/services/callrecorder/CallRecorderService.java:147-169 | The probe has a winner if and only if the device accepts some candidate. The winner is accepted and drawn from the product. |
| CaptureConfig.ProbeAttemptsSpec | src/com/android/services/callrecorder/CallRecorderService.java:147-181 | The attempt log is a non-empty prefix of the order, and every entry but the last is rejected. The log ends at the winner. With no winner, all 32 are tried and the device accepts none of them. |
| CaptureConfig.WinnerIsLeastAccepted | src/com/android/services/callrecorder/CallRecorderService.java:147-169 | The winner precedes every other accepted configuration in the lexicographic order of the preference lists. |
| CaptureConfig.AttemptsExtend | src/com/android/services/callrecorder/CallRecorderService.java:147-157 | The order's prefix up to the candidate the loops build at given indices is the prefix before it followed by that candidate. |
| CaptureConfig.FirstAcceptedAt | src/com/android/services/callrecorder/CallRecorderService.java:152-169 | The first accepted position determines the winner and the attempt log. |
| CaptureConfig.NoneAccepted | src/com/android/services/callrecorder/CallRecorderService.java:172-181 | With every position rejected, there is no winner and all 32 candidates are tried. |
| CaptureConfig.AcceptedAfterRejected | src/com/android/services/callrecorder/CallRecorderService.java:152-169 | An attempt log that is a prefix of the order, rejected up to an accepted last entry, is the probe's attempt log, and that last entry is the winner. |
| CaptureConfig.NoneAcceptedIn | src/com/android/services/callrecorder/CallRecorderService.java:147-181 | The whole order, with every entry rejected, is the probe's attempt log, and there is no winner. |
| CaptureConfig.PreferredFirst | src/com/android/services/callrecorder/CallRecorderService.java:147-169 | When the device accepts voice-call/AMR-WB/AMR-WB/16000 Hz/stereo, that is the only attempt and the winner. |
| CallRecorder.ProbeConfigurations | src/com/android/services/callrecorder/CallRecorderService.java:146-181 | The nested loops return exactly the probe's winner. The attempt log, built one candidate per iteration, is exactly the probe's. The winner is accepted and drawn from the product. Afterwards the output file exists if a candidate was accepted and is absent otherwise. |
| CallRecorder.CallRecorderService.constructor | src/com/android/services/callrecorder/CallRecorderService.java:59-61 | The service starts idle, with no handle, no recording and empty logs. |
| CallRecorder.CallRecorderService.IsRecording | src/com/android/services/callrecorder/CallRecorderService.java:85-88 | Under the invariant the answer is true exactly when a capture handle is live. |
| CallRecorder.CallRecorderService.GetActiveRecording | src/com/android/services/callrecorder/CallRecorderService.java:90-93 | While recording, an active recording is always returned. |
| CallRecorder.CallRecorderService.StopRecordingInternal | src/com/android/services/callrecorder/CallRecorderService.java:190-208 | With a handle present it always ends idle and without a handle, also when `stop()` throws `IllegalStateException`. It logs exactly one scan, naming the current recording's file, and one handle end: released after a normal stop, abandoned otherwise. With no handle, nothing changes. The invariant is kept. |
| CallRecorder.CallRecorderService.StartRecordingInternal | src/com/android/services/callrecorder/CallRecorderService.java:120-188 | Any handle present is stopped first. Start succeeds if and only if both permissions are granted and the probe has a winner. On success the service records with the winner on the given path. Given the current recording's path, the full invariant holds afterwards. On failure it is idle with no handle. A missing permission means no attempts and untouched files. Otherwise the probe's attempts are logged. The output path exists after a success and is absent after exhaustion, and an exhausted probe releases its handle. The consistency part of the invariant is kept. |
| CallRecorder.CallRecorderService.StopRecording | src/com/android/services/callrecorder/CallRecorderService.java:67-73 | When idle it returns null and changes nothing. When recording it returns the current recording and ends idle with no handle. It logs one scan naming that recording's file, which is the file the stopped handle was writing. It logs one handle end: released after a normal stop, abandoned after an `IllegalStateException`. The invariant is kept. |
| CallRecorder.CallRecorderService.StartRecording | src/com/android/services/callrecorder/CallRecorderService.java:76-83 | In every case the new recording becomes the current one, carrying the phone number, creation time, generated file name and start time. The implicit stop's scan names the new file, so when the name changed the announced file is not the one the stopped handle was writing. Success, handle, attempts, files and handle ends are as for the internal start, with the path built from the generated file name. The invariant is kept. |

`GetState` (source lines 228-230) is the plain read of the session state
that `IsRecording` and `StopRecording` use. It has no contract of its own.

## Left out

- Concurrency: `synchronized` and the binder transport are not modelled.
  Each call is one atomic step. The time between `stopRecording`'s state
  check and its stop is therefore not modelled.
- The `onCreate`/`onDestroy` shared-preference flags and the preference
  read at the start of the probe are left out. They are lifecycle I/O whose
  values decide nothing.
- The device classes are abstracted:
  - `MediaRecorder` is the `accepted` set and the `StopOutcome`.
  - `MediaScannerConnection` is the `scans` log.
  - `checkSelfPermission` is the two booleans.
  - `SimpleDateFormat` with `new Date()` is the `DateFields` input.
  - `System.currentTimeMillis()` is `nowMillis`.
- The probe assumes the device behaves the same on every attempt. Only
  the candidate decides success, not the history of the reused handle.
- Only runtime exceptions of the kind the source catches are modelled:
  - During the probe, any failure moves on to the next candidate.
  - In stop, only an `IllegalStateException` from `stop()` is modelled.
    An `IllegalStateException` from `reset()` or `release()` is not
    modelled. The source catches it too, so `release()` is skipped and the
    handle is dropped unreleased, while the model logs `Released` after a
    normal `stop()`. A runtime exception of any other type from `stop()`,
    `reset()` or `release()` is not modelled either.
    `MediaRecorder.stop()` throws a plain `RuntimeException`, for example,
    when no data has been captured yet. In the source that exception skips
    the scan and the reset of the fields (lines 195-206). The handle stays
    set, the state stays recording, and the exception leaves
    `stopRecording` or `startRecording`.
- `File.mkdirs()` on the parent directory is not modelled. The directory
  is assumed to exist.
- The `CallRecording` class is not among the source files. The model's
  `CallRecording` datatype keeps only the four values the service passes
  to its constructor (lines 79-80). Its `getFile()` is taken to be the
  recordings directory, `/`, and the file name (`RecordingPath`). Nothing
  else of the class is modelled, such as how it crosses the binder.
- The files besides the service are context and are not modelled:
  - the call recorder settings wrapper;
  - the settings fragment;
  - the assisted-dialing mediator.
- Logging is left out.
- `FilenamePolicy.Timestamp`: the date formatter uses the device's default
  locale, which can render its own digits, for example Arabic-Indic ones.
  The model assumes the locale renders ASCII digits `0`-`9`. The timestamp
  and file-name parsers and their round-trip and collision lemmas rest on
  that assumption.
- Calendar validity of the date fields is not checked beyond the field
  ranges. For example, 31 February is accepted. The formatter only renders
  the fields it is given.
