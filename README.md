# Voice-to-spreadsheet recorder: a Dafny model

The program is a small desktop tool. It has a start and a stop button. It records up to 15 seconds of
16 kHz mono audio, sends the recording to a speech-recognition service and shows the transcript.
The transcript is then written into a cell of a chosen worksheet, and the cell pointer moves one row
down. When no worksheet is selected, or the cell write fails, the transcript goes to a local CSV file
instead. The spreadsheet, the worksheet and the last cell are remembered in a settings file.

This project models the logic under the window, the audio device and the two remote services. It
proves properties of that model.

- `util.dfy` (module `Util`): `Option`, `Min`, and `Span`, the length of the longest prefix of a
  sequence whose elements satisfy a predicate.
- `cell_address.dfy` (module `CellAddress`) covers the cell pointer:
  - the entry's `.strip().upper()` normalisation;
  - the start-anchored match of `([A-Z]+)(\d+)`, proved equal to "the regular expression matches a prefix";
  - `int()` and `str()` on row numbers;
  - moving to the next row;
  - the bijective base-26 column numbering, both directions.
- `settings.dfy` (module `Settings`): the settings store. It is a map loaded from a file, with the
  five defaults used when the file is missing or unreadable.
- `sheets.dfy` (module `Sheets`): the spreadsheet handler, as a class with these fields:
  - the selected spreadsheet and worksheet;
  - the cell writes sent so far;
  - the local CSV file as a sequence of rows.

  The title searches are loops. The save routing is specified by the function `PlanSave`.
- `recognition.dfy` (module `Recognition`) covers the value-level parts of the voice processor:
  - the capture bound of 234 reads;
  - a specification of the capture loop, and the loop itself;
  - the routing after capture;
  - the choice of transcript from a recognition response;
  - the console result line.
- `session.dfy` (module `Session`): the window (`Gui`) and the voice processor (`VoiceProcessor`),
  as two classes that reference each other.
  - The window's fields are its state: the recording flag, the buttons, the status text, the blink
    and timer flags, the countdown, the cell entry and label, the text area and the two pickers.
  - The processor holds its own recording flag, the number of capture threads started, and the
    console lines.
- `scenarios.dfy` (module `Scenarios`): whole sessions on concrete inputs.

How the outside world enters the model:

- **Threads run one after another.**
  - A capture thread is one call of `VoiceProcessor.RecordAndRecognize`. Its loop is given a
    sequence of `Tick`s: the recording flag as polled at the top of each iteration, and whether that
    iteration's read succeeded.
  - The flag the thread re-reads after the loop is the processor's field at the time of the call.
  - Any combination of ticks and field is reachable by real interleavings. A stop after the last
    poll gives a raised flag in every tick and a lowered field. A stop followed by a new start gives a
    lowered tick and a raised field.
  - The timer thread is `Gui.TimerCountdown`. It is given, for each one-second sleep, whether the
    timer was stopped during it.
- **Remote services are values.**
  - A `Service` value holds what the account lists: its spreadsheets, and the worksheets of each.
    The picker handlers take it as a parameter, so the account is assumed not to change during one
    event.
  - A recognition call is a `Response`.
  - A save has a `SinkEnv`: the clock reading, whether the cell write succeeds, and whether the
    local file can be written.
- **Collaborators are attached after construction.** A new window has no voice processor, sheet
  handler or settings store. The start-up code attaches them one at a time: the processor, then the
  handler, then the store. The setters `SetVoiceProcessor`, `SetSheetHandler` and
  `SetSettingsManager` do what the program's setters do, including the picker reloads they trigger.

Three behaviours of the program are kept and shown as scenarios:

- **Restart while transcribing.** A user stop lowers both flags before the pending transcription
  finishes. So a new start is accepted and a second capture thread is started
  (`Scenarios.RestartWhileTranscribing`).
- **Start after a timeout.** A capture that runs to the 234-read bound never lowers the processor's
  flag. The window is reset when the result is shown. The next start click then shows a recording
  window, but the processor starts no capture thread (`Scenarios.StartAfterTimeout`).
- **The stored spreadsheet is ignored at start-up.** The sheet handler is attached, and both pickers
  reloaded, before the settings store. So the spreadsheet picker takes the first listed spreadsheet,
  even when `last_spreadsheet` names another one. Only the sheet picker, reloaded when the store
  arrives, follows the store (`Scenarios.StartUpIgnoresStoredSpreadsheet`).

## Model

| member | source | states |
|---|---|---|
| CellAddress.Strip | gui.py:278 | `str.strip()`: white space in the sense of `str.isspace()` is removed from both ends; `StripIsTrimmedInfix` states the result |
| CellAddress.StripLeadingRemovesSpace | gui.py:278 | the leading strip removes a prefix made only of white space and stops at a character that is not white space |
| CellAddress.StripTrailingRemovesSpace | gui.py:278 | the trailing strip removes a suffix made only of white space and stops at a character that is not white space |
| CellAddress.StripIsTrimmedInfix | gui.py:278 | the stripped entry is an infix of the entry; everything before and after it is white space, and neither of its ends is |
| CellAddress.ToUpper | gui.py:313 | a lower-case ASCII letter becomes the capital 32 code points below it; capitals and digits are unchanged |
| CellAddress.Upper | gui.py:313 | `upper()` keeps the length and maps each character as `ToUpper` does, so a-z become A-Z and capitals and digits stay |
| CellAddress.Normalize | gui.py:313 | the entry as the window reads it: upper-case of the stripped text; `NormalizeFormat` shows a formatted cell is a fixed point |
| CellAddress.DecimalValue | gui.py:320 | `int()` on a digit string, leading zeros allowed; `DecimalRoundTrip` makes it the inverse of `Decimal` |
| CellAddress.Decimal | gui.py:324 | `str(n)` is a non-empty digit string without a leading zero (it starts with 0 exactly for 0, and is one digit exactly below 10); reading it back gives `n` (`DecimalRoundTrip`) |
| CellAddress.Format | gui.py:324 | the letters followed by `str(row)`; `ParseFormat` and `NormalizeFormat` show it parses back to the same cell |
| CellAddress.Parse | main.py:172-175 | a match yields non-empty capital letters that are a prefix of the entry |
| CellAddress.ParseIffRegexMatches | gui.py:317-318 | the parse succeeds exactly when `([A-Z]+)(\d+)` matches some prefix of the text (both directions) |
| CellAddress.ParseGreedy | gui.py:317-320 | letters, then digits, then anything not starting with a digit parse to those letters and the digits' value |
| CellAddress.DecimalRoundTrip | gui.py:320-324 | `int(str(n)) == n` for every row number |
| CellAddress.ParseFormat | gui.py:319-324 | a formatted cell parses back to the same letters and row |
| CellAddress.NormalizeFormat | gui.py:313-324 | a formatted cell is unchanged by strip and upper-case, so a moved entry reads back as written |
| CellAddress.Advance | gui.py:311-329 | the entry is advanced exactly when its normalised text matches |
| CellAddress.AdvanceMovesDownOneRow | gui.py:319-329 | the advanced entry has the same letters and row + 1, drops anything after the digits, and parses back to that cell |
| CellAddress.ColumnLetters | main.py:177-180 | the letters of a column are capitals, non-empty exactly for columns >= 1 |
| CellAddress.ColumnValue | main.py:178-180 | the letters' column number read left to right; `LettersOfColumn` and `ColumnOfLetters` make it the inverse of `ColumnLetters` |
| CellAddress.LettersOfColumn | main.py:177-180 | converting letters to a column number and back gives the same letters |
| CellAddress.ColumnOfLetters | main.py:177-180 | converting a column number to letters and back gives the same number |
| CellAddress.ColumnValueInjective | main.py:178-180 | distinct letter strings give distinct columns, both directions; non-empty letters give a column >= 1 |
| CellAddress.ColumnNumber | main.py:177-180 | the accumulating loop computes the bijective base-26 value, which is >= 1 for non-empty letters |
| CellAddress.ParsePlainAddress | gui.py:315-317 | "C10" is column C, row 10 |
| CellAddress.ParseIgnoresTrailing | main.py:172-175 | "A1X" is A1: the match is anchored only at the start |
| CellAddress.ParseLeadingZero | main.py:172-175 | "A01" is A1 |
| CellAddress.LowerCaseEntry | gui.py:311-327 | an entry " c10 " is read as C10 and advanced to C11 |
| CellAddress.ParseRejects | gui.py:317-318 | "1A", "A" and "" do not match |
| CellAddress.ColumnExamples | main.py:177-180 | A is 1, Z is 26, AA is 27 |
| Settings.LoadSettings | main.py:17-30 | a parsed file gives its contents; a missing or unreadable file gives the defaults |
| Settings.DefaultsWhenUnreadable | main.py:41-49 | the defaults are exactly five keys with the values 음성기록, 시트1, A1, 1 and 1 |
| Settings.LookupAfterStore | main.py:51-58 | after a store the key reads back the new value, every other key is unchanged, and the size grows only for a new key |
| Settings.SettingsManager.constructor | main.py:13-15 | the store starts as the loaded map |
| Settings.SettingsManager.GetSetting | main.py:51-53 | the stored value for a present key, the given default for a missing key |
| Settings.SettingsManager.SetSetting | main.py:55-58 | the map gains or replaces that entry; the key reads back the value; every other key reads as before |
| Sheets.FirstIndex | main.py:272-278 | the index of the first equal title, with no equal title before it; none exactly when the title is absent |
| Sheets.PlanSave | main.py:164-201 | with a worksheet and a matching cell, exactly the text goes to that row and column. A failed write falls back to one local record; a non-matching cell is dropped with no fallback; no worksheet means one local record |
| Sheets.AppendKeepsCsvShape | main.py:313-322 | appending keeps one header at the top followed by records. A new file gets the header, then the row; an existing file grows by exactly that row |
| Sheets.SheetHandler.constructor | main.py:61-68 | start-up keeps whatever spreadsheet it found, selects no worksheet and sends no writes |
| Sheets.SheetHandler.CurrentCellPosition | main.py:153-162 | the handler's current cell is always A1, column 1 |
| Sheets.SheetHandler.AllSpreadsheets | main.py:203-241 | the listed spreadsheets, or none when the listing fails |
| Sheets.SheetHandler.AllSheets | main.py:243-264 | none without a spreadsheet; otherwise the listed worksheets, or none when the listing fails |
| Sheets.SheetHandler.SetTargetSpreadsheet | main.py:266-285 | true exactly when a listed title is equal. Then the first such spreadsheet is selected and the worksheet is cleared; otherwise nothing changes |
| Sheets.SheetHandler.SetTargetSheet | main.py:287-305 | false without a spreadsheet. Otherwise true exactly when a listed title is equal, and then the first such worksheet is selected; otherwise nothing changes |
| Sheets.SheetHandler.SaveToLocalFile | main.py:307-327 | a writable file gains the header only when it did not exist, then exactly one record; an unwritable one is unchanged |
| Sheets.SheetHandler.SaveToSheet | main.py:164-201 | the save does what `PlanSave` routes: one cell write, one local record, or nothing |
| Recognition.MaxReadsValue | speechtext.py:87 | `int(16000 / 1024 * 15)` is 234, which equals 240000 div 1024 |
| Recognition.ReadsPerformed | speechtext.py:87-90 | at most 234 reads. Every read happens with the flag seen raised, and the loop stops at the first lowered flag |
| Recognition.Successes | speechtext.py:92-97 | the frames a run of reads appends, successful reads only and in order; `SuccessesAppend` and `SuccessesLength` state it |
| Recognition.Captured | speechtext.py:86-97 | the buffer after the loop is the successful frames of the reads performed; `CapturedBounds` and `CapturedPrefix` state it |
| Recognition.SuccessesAppend | speechtext.py:92-97 | the frames of two runs of reads are the frames of each, in order |
| Recognition.SuccessesLength | speechtext.py:92-97 | at most one frame per read, and exactly one per read when none fails |
| Recognition.CapturedBounds | speechtext.py:86-97 | at most as many frames as reads, at most 234. An uninterrupted run with no failure collects 234; a flag lowered before the first read collects none |
| Recognition.CapturedPrefix | speechtext.py:86-97 | the buffer is the frames up to any earlier point followed by the frames after it |
| Recognition.Join | speechtext.py:130 | `b''.join(frames)`; `JoinAppend` shows it distributes over concatenation |
| Recognition.JoinAppend | speechtext.py:130 | joining two runs of frames is the concatenation of the two joins |
| Recognition.CaptureFrames | speechtext.py:86-97 | the loop performs exactly the specified reads and collects exactly the successful frames in order |
| Recognition.RouteAfterCapture | speechtext.py:103-121 | transcribe exactly when a frame was collected; "no collected data" exactly when the flag is down and the buffer empty; "no recorded data" exactly when the flag is up and the buffer empty |
| Recognition.ApiErrorText | speechtext.py:253 | the tag, at most the first 50 characters of the message, then "..."; never longer than the tag plus 53 |
| Recognition.Recognize | speechtext.py:210-253 | the first alternative of the first result when there is one. Otherwise the no-client text, the tagged API error, or the no-result text, each with 0.0 |
| Recognition.FailuresAreTaggedTexts | speechtext.py:213-253 | every failure is a bracketed text with confidence 0.0, so a non-zero confidence comes only from a recognised alternative |
| Recognition.ConsoleLine | speechtext.py:264-266 | the console line carries the timestamp and the text, and the confidence suffix exactly when the confidence is positive |
| Recognition.FailureLinesHaveNoConfidence | speechtext.py:262-266 | a failure is never printed with a confidence |
| Session.AreaLine | gui.py:262-270 | the window's line shows the confidence exactly when one is given and it is non-zero (`if confidence:`) |
| Session.ConfidenceOrZero | gui.py:282 | the saved confidence is the given one, or 0.0 when none is given |
| Session.ConsoleAndAreaAgree | speechtext.py:262-271 | console and window show the same text. A confidence printed on the console is shown in the window; a negative one is shown only in the window |
| Session.SaveTarget | gui.py:278-281 | the save goes to the normalised entry, or to A1 when that is empty |
| Session.NextEntry | gui.py:311-329 | an entry that does not match stays as it is |
| Session.SaveThenAdvance | gui.py:276-290 | after a save the entry names the cell one row below the saved cell, and saving again uses it unchanged |
| Session.BlankEntryStaysOnA1 | gui.py:278-290 | a blank entry saves to A1 and is never advanced |
| Session.AfterSave | gui.py:276-290 | the saving half of showing a result: with a handler the `PlanSave` effect, `last_cell` and the move; without one nothing changes. `AfterShowExtends` states its effect |
| Session.AfterShow | gui.py:262-290 | the line is added to the text area, then the result is saved as `AfterSave` describes |
| Session.AfterShowExtends | gui.py:262-290 | showing only appends: one line, at most one cell write, the targets kept. With a handler and a store exactly `last_cell` is stored, as the saved cell, and every other setting is kept; without a handler nothing is saved, stored or moved |
| Session.Choose | gui.py:366-383 | the stored title when it is non-empty and listed, otherwise the first title; always a listed title |
| Session.ChooseIsStable | gui.py:414-425 | storing the chosen title and choosing again from the same titles gives the same title |
| Session.SettingText | gui.py:428-433 | what the entry shows for a restored `last_cell`: the text itself, `str()` of a number, or None |
| Session.StoredIn | gui.py:366-367 | `get_setting` on the store, or `None` without a store |
| Session.RefreshedSpreadsheets | gui.py:346-394 | a non-empty listing fills the picker with every title. The choice is `Choose` of the stored `last_spreadsheet`, the first title without a store; the first spreadsheet with that title is targeted and the worksheet cleared. An empty listing clears the picker with an error status and keeps the targets |
| Session.RefreshedSheets | gui.py:396-449 | a non-empty listing fills the picker. The choice is `Choose` of the stored `last_sheet`, the first title without a store; a non-empty choice is targeted and stored as `last_sheet`, every other setting kept. With a store, a truthy `last_cell` goes into the entry and the label. An empty listing only clears the picker |
| Session.RefreshedSheetsIdempotent | gui.py:396-449 | reloading the sheet picker a second time with the same account changes nothing |
| Session.SessionOutcome | speechtext.py:68-147 | how a capture thread ends: a device error, no audio (routed on the re-read flag), a WAV error, or the joined frames and their transcript; `TranscribedOnlyWithAudio` states when each happens |
| Session.TranscribedOnlyWithAudio | speechtext.py:68-147 | a transcript exists exactly when the device opened, a frame was collected and the WAV file was written. Its audio is the joined frames; a flag lowered before the first read gives the no-audio status for the flag as re-read |
| Session.Gui.constructor | gui.py:7-37 | a new window has no processor, handler or store; it is idle, with the countdown at 15, the entry and label on A1, and empty text area and pickers |
| Session.Gui.SetVoiceProcessor | gui.py:153-155 | the window's processor becomes the given one |
| Session.Gui.CurrentCellPosition | gui.py:305-309 | the window's current cell parses as column 1, row 1 |
| Session.Gui.UpdateStatus | gui.py:258-260 | the status is the message |
| Session.Gui.StartBlinking | gui.py:214-218 | blinking is on |
| Session.Gui.StopBlinking | gui.py:220-222 | blinking is off |
| Session.Gui.StartTimer | gui.py:224-229 | the timer is on at 15 seconds |
| Session.Gui.StopTimer | gui.py:231-234 | the timer is off and its label cleared |
| Session.Gui.ResetButtons | gui.py:295-302 | not recording, start enabled, stop disabled, ready status, no blinking, no timer |
| Session.Gui.TimerCountdown | gui.py:236-246 | a running timer shows 15, 14, ... one label per second and counts down by one per undisturbed second, never below 0. It ends at 0 still active, or at the first stop; the label is cleared either way |
| Session.Gui.StartRecording | gui.py:173-198 | ignored while recording. Otherwise the window shows recording and the processor is started; without a processor the window is reset |
| Session.Gui.ShowRecording | gui.py:178-191 | the recording flag is raised, start disabled, stop enabled, the recording status shown, and blinking and the 15-second timer started |
| Session.Gui.StopRecording | gui.py:200-212 | ignored unless recording; otherwise both flags are lowered and the window is idle, keeping the document |
| Session.Gui.MoveToNextCell | gui.py:311-329 | a matching entry and the label both become the next row's cell; otherwise both are unchanged |
| Session.Gui.DisplayResult | gui.py:262-293 | the document becomes `AfterShow` of the old one: the line is added, then with a handler the save, `last_cell` and the move. The collaborators stay attached and the status ends as "✅ 인식 완료" |
| Session.Gui.SaveToCell | gui.py:276-290 | the document becomes `AfterSave` of the old one and the collaborators stay attached |
| Session.Gui.RefreshSpreadsheets | gui.py:346-394 | without a handler nothing changes. Otherwise the picker, the status and the handler's targets become `RefreshedSpreadsheets` of the old ones, read through the attached store, and no write is sent |
| Session.Gui.RefreshSheets | gui.py:396-449 | without a handler nothing changes. Otherwise the picker, the worksheet, the whole settings map, the entry and the label become `RefreshedSheets` of the old ones for the targeted spreadsheet, and no write is sent |
| Session.Gui.OnSpreadsheetSelected | gui.py:451-468 | a non-empty, listed choice is targeted. The sheet picker, worksheet, settings map, entry and label become `RefreshedSheets` for it from a cleared worksheet, with `last_spreadsheet` stored on top. Otherwise nothing changes |
| Session.Gui.OnSheetSelected | gui.py:470-486 | a listed choice is targeted and stored as `last_sheet`; otherwise nothing changes |
| Session.Gui.SetSheetHandler | gui.py:157-163 | the handler is attached. The spreadsheet picker becomes `RefreshedSpreadsheets` of the old one, then the sheet picker `RefreshedSheets` for the spreadsheet it targeted; without a handler nothing else changes |
| Session.Gui.SetSettingsManager | gui.py:165-171 | the store is attached. With a handler the sheet picker becomes `RefreshedSheets` read through the new store; without one nothing else changes |
| Session.VoiceProcessor.constructor | speechtext.py:10-25 | a new processor is not recording and has started no capture |
| Session.VoiceProcessor.SetGui | speechtext.py:43-45 | the processor reports to that window |
| Session.VoiceProcessor.StartRecording | speechtext.py:47-56 | a capture thread is started exactly when the flag was down; the flag is up afterwards |
| Session.VoiceProcessor.StopRecording | speechtext.py:58-66 | unguarded: the flag is lowered and the window is idle, keeping the document |
| Session.VoiceProcessor.ReportFailure | speechtext.py:116-121 | an error status followed by the reset leaves the window idle and the document untouched |
| Session.VoiceProcessor.DisplayResult | speechtext.py:262-273 | one console line is printed. The window's document becomes `AfterShow` of the old one, and the window is reset |
| Session.VoiceProcessor.ShowIn | speechtext.py:270-273 | the window ends idle and its document is `AfterShow` of the old one |
| Session.VoiceProcessor.SpeechToTextSimple | speechtext.py:210-260 | the displayed transcript is the one `Recognize` chooses |
| Session.VoiceProcessor.ProcessRecordedAudio | speechtext.py:165-208 | a failed WAV write gives the WAV error and leaves the document untouched. Otherwise the joined frames are transcribed as `Recognize` chooses, printed, shown and saved as `AfterShow` describes; the window ends idle either way |
| Session.VoiceProcessor.RecordAndRecognize | speechtext.py:68-163 | the outcome is `SessionOutcome`. The processor's flag is untouched and the window ends idle; the result is saved only on a transcript, otherwise the document is unchanged |
| Scenarios.StartUpChoices | gui.py:366-383 | with two listed spreadsheets and no store the first is chosen; with the default store its sheet picker takes the stored `last_sheet`, while `last_spreadsheet` still names the second spreadsheet |
| Scenarios.AttachHandlerAtStartUp | main.py:355-366 | after the processor and the handler are attached to a new window, the first listed spreadsheet is chosen and targeted, and no store is attached |
| Scenarios.StartUpIgnoresStoredSpreadsheet | main.py:355-367 | after start-up the first spreadsheet and the stored sheet are selected, although `last_spreadsheet` names the other spreadsheet |
| Scenarios.RestartWhileTranscribing | speechtext.py:58-66 | after start and stop, a second start is accepted and a second capture thread starts |
| Scenarios.FullCaptureTranscribes | speechtext.py:86-121 | an uninterrupted, unfailing run collects 234 frames and is transcribed |
| Scenarios.StartAfterTimeout | speechtext.py:47-52 | after a timed-out capture the next start shows recording but starts no capture thread |
| Scenarios.CaptureToTheBound | speechtext.py:86-121 | a capture run to the bound is transcribed, leaves the processor's flag raised and the window idle |
| Scenarios.FirstCellSave | main.py:172-183 | an entry of A1 saves to row 1, column 1 and advances to A2 |
| Scenarios.FirstCellShow | gui.py:276-290 | showing a greeting with the entry on A1 appends the write to row 1, column 1, stores A1 as `last_cell` and moves the entry to A2 |
| Scenarios.SingleSheetChoices | gui.py:396-433 | for an account with one spreadsheet and one worksheet, the reloads target both; with the default store the worksheet is stored again and the entry reads A1 |
| Scenarios.AttachSingleSheet | main.py:366-367 | attaching the handler and then the default store through the setters targets 시트1, puts A1 in the entry and sends no write |
| Scenarios.SaveToFirstCell | gui.py:276-290 | in a window wired through the setters to one worksheet, a greeting is written to row 1, column 1; `last_cell` becomes A1 and the entry A2 |

## Left out

- Widget layout, fonts, styles (including the second `setup_styles`) and colours are not modelled. The blink thread's colour changes are left out too; only the `blink_active` flag is kept.
- Real threads, `time.sleep` and interleavings are not modelled. Threads run sequentially on input sequences, as described above.
- The PyAudio stream, WAV writing and deletion of the temporary file are device and file I/O. They appear only as the device-open outcome, the read outcomes and the WAV-write outcome.
- The speech client set-up and `recognize` are foreign services, and so are gspread's authorisation, `open`, `openall`, `worksheets` and `update_cell`. They are modelled as values: `hasClient`, `Response`, `Service`, `SinkEnv`.
- The handler's start-up search for the 음성기록 spreadsheet is a service call. Its result is the constructor's `connected` parameter.
- Re-authorisation inside `get_all_spreadsheets` is a service call and is left out.
- Reading and writing the JSON settings file is file I/O. `save_settings` is left out, and a store does not fail.
- JSON values other than null, strings and integers are left out.
- Writing the CSV file is file I/O; the file is a sequence of rows.
- Timestamps and the `:.2f` formatting of confidences are left out. Timestamps are opaque strings, and confidences are compared only with 0.
- `\d` also matches non-ASCII decimal digits, and `upper()` has multi-character mappings. Neither is modelled: digits are 0-9, and only upper-case mappings that produce A-Z are kept.
- `restore_last_settings` only prints, so it is left out.
- Exceptions raised outside the modelled service calls are left out. In the model those steps do not fail, so these handlers are never reached:
  - an exception inside `refresh_spreadsheets` after the listing (gui.py:392-394) leaves "❌ 스프레드시트 목록 오류" on screen. In the model a failed listing is already an empty one, which has its own status;
  - the outer handler of `speech_to_text_simple` (speechtext.py:255-260) catches a failed read of the WAV file. It prints, resets the window, and shows and saves nothing;
  - the outer handler of `process_recorded_audio` (speechtext.py:202-208) shows "❌ 오디오 처리 오류" and resets the window.
- Session.Gui.TimerCountdown: a stop is taken to happen during a one-second sleep. A `stop_timer` that lands between the loop test and the label write (gui.py:238-239) leaves "⏱️ 남은 시간: N초" on screen after the stop, because `stop_timer` has already cleared the label and the final clear runs only while the timer is active. The model does not show this interleaving.
- test_cloud_run.py is a one-off HTTP request with no logic of its own.
- Session.Gui.StopRecording: requires `Linked()`, meaning the processor reports to this same window, as the start-up code wires it.
- Session.VoiceProcessor.RecordAndRecognize: requires at least 234 ticks. The loop never looks further, so longer inputs add nothing.
- Session.Gui.TimerCountdown: requires a stop indication for every remaining second. The loop never needs more.
