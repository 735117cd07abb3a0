/**
 * The recording window and the voice processor. The two objects reference
 * each other (the window starts and stops the processor, the processor
 * updates the window), so both classes live in this module.
 *
 * Threads are run one after another: a capture thread is the body of
 * `VoiceProcessor.RecordAndRecognize`, called once per started capture, and
 * the timer thread is `Gui.TimerCountdown`, driven by a sequence that says,
 * for each one-second sleep, whether the timer was stopped during it.
 */
module Session {
  import opened Util
  import opened CellAddress
  import opened Settings
  import opened Sheets
  import opened Recognition

  const ReadyStatus := "준비됨"
  const RecordingStatus := "🎙️ 녹음 중..."
  const StoppedStatus := "⏹️ 녹음 중지됨"
  const RecognizingStatus := "☁️ 음성 인식 중..."
  const CompletedStatus := "✅ 인식 완료"
  const LoadingStatus := "🔄 스프레드시트 목록 로딩 중..."
  const NoSpreadsheetsStatus := "❌ 스프레드시트 목록을 가져올 수 없습니다"

  /** The countdown's starting value, in seconds. */
  const TimerSeconds: nat := 15

  function LoadedStatus(count: nat): string {
    "✅ " + Decimal(count) + "개 스프레드시트 로드 완료"
  }

  function TimerText(seconds: nat): string {
    "⏱️ 남은 시간: " + Decimal(seconds) + "초"
  }

  function WavErrorStatus(reason: string): string { "❌ WAV 파일 저장 오류: " + reason }
  function RecordingErrorStatus(reason: string): string { "❌ 녹음 오류: " + reason }

  /** The window's result line: `if confidence:` shows the suffix for a present, non-zero confidence. */
  function AreaLine(timestamp: string, text: string, confidence: Option<real>): (line: ResultLine)
    ensures line.timestamp == timestamp && line.text == text
    ensures line.confidence.Some? <==> confidence.Some? && confidence.value != 0.0
    ensures line.confidence.Some? ==> line.confidence == confidence
  {
    ResultLine(timestamp, text, if confidence.Some? && confidence.value != 0.0 then confidence else None)
  }

  /** `confidence or 0.0`. */
  function ConfidenceOrZero(confidence: Option<real>): (c: real)
    ensures confidence.Some? ==> c == confidence.value
    ensures confidence.None? ==> c == 0.0
  {
    if confidence.Some? && confidence.value != 0.0 then confidence.value else 0.0
  }

  /** The processor always passes a number: a line it prints with a suffix is shown with one in the window. */
  lemma ConsoleAndAreaAgree(timestamp: string, t: Transcription)
    ensures var c := ConsoleLine(timestamp, t); var a := AreaLine(timestamp, t.text, Some(t.confidence));
            c.text == a.text && (c.confidence.Some? ==> a.confidence == c.confidence)
    ensures t.confidence < 0.0 ==> ConsoleLine(timestamp, t).confidence.None? &&
                                   AreaLine(timestamp, t.text, Some(t.confidence)).confidence.Some?
  {
  }

  /** The cell a save goes to: the stripped, upper-cased entry, or "A1" when that is empty. */
  function SaveTarget(entry: string): (target: string)
    ensures Normalize(entry) != "" ==> target == Normalize(entry)
    ensures Normalize(entry) == "" ==> target == "A1"
  {
    var current := Normalize(entry);
    if current == "" then "A1" else current
  }

  /** The entry after the move to the next cell: advanced, or unchanged when it does not match. */
  function NextEntry(entry: string): (next: string)
    ensures Parse(Normalize(entry)).None? ==> next == entry
  {
    match Advance(entry)
    case Some(n) => n
    case None => entry
  }

  /**
   * The save and the move agree: the entry ends up one row below the cell
   * the save addressed, with the same letters.
   */
  lemma SaveThenAdvance(entry: string, c: Cell)
    requires Normalize(entry) != "" && Parse(SaveTarget(entry)) == Some(c)
    ensures NextEntry(entry) == Format(Cell(c.letters, c.row + 1))
    ensures Parse(NextEntry(entry)) == Some(Cell(c.letters, c.row + 1))
    ensures SaveTarget(NextEntry(entry)) == NextEntry(entry)
  {
    assert Parse(Normalize(entry)) == Some(c);
    AdvanceMovesDownOneRow(entry);
    var next := Format(Cell(c.letters, c.row + 1));
    assert Advance(entry) == Some(next);
    assert NextEntry(entry) == next;
    assert next != "" by {
      assert |c.letters| > 0;
    }
    assert Normalize(next) == next;
  }
  /**
   * What showing a result may change: the text area, the cell pointer and,
   * when a sheet handler is attached (`linked`), its targets and outputs,
   * and the settings store.
   */
  datatype Document = Document(textArea: seq<ResultLine>, cellEntry: string, cellLabel: string,
                               linked: bool, spreadsheet: Option<Spreadsheet>, sheet: Option<Worksheet>,
                               updates: seq<CellUpdate>, localFile: Option<seq<CsvRow>>, store: Store)

  /**
   * The saving half of showing a result. With a sheet handler the text is
   * saved to the entry's cell (or A1) as `PlanSave` decides, that cell is
   * stored as `last_cell` and the entry moves one row down; the label
   * follows only when the entry names a cell. Without one nothing changes.
   */
  function AfterSave(d: Document, text: string, confidence: Option<real>, sink: SinkEnv): Document {
    if !d.linked then d
    else
      var target := SaveTarget(d.cellEntry);
      var action := PlanSave(d.sheet, text, ConfidenceOrZero(confidence), target, sink);
      var next := NextEntry(d.cellEntry);
      d.(updates := d.updates + (if action.Written? then [action.update] else []),
         localFile := if action.Fallback? && sink.localWritable then Some(AfterAppend(d.localFile, action.record))
                      else d.localFile,
         store := if d.store.Some? then Some(d.store.value["last_cell" := Text(target)]) else None,
         cellEntry := next,
         cellLabel := if Advance(d.cellEntry).Some? then next else d.cellLabel)
  }

  /** Showing a result: the line is added to the text area, then the text is saved. */
  function AfterShow(d: Document, text: string, confidence: Option<real>, timestamp: string, sink: SinkEnv): Document {
    AfterSave(d.(textArea := d.textArea + [AreaLine(timestamp, text, confidence)]), text, confidence, sink)
  }

  /**
   * Showing a result only appends to the text area, the sent updates and
   * the local file, keeps the targets, and stores exactly the cell it
   * addressed; the entry lands where that cell's successor is.
   */
  lemma {:induction false} AfterShowExtends(d: Document, text: string, confidence: Option<real>, timestamp: string, sink: SinkEnv)
    ensures var e := AfterShow(d, text, confidence, timestamp, sink);
            e.textArea == d.textArea + [AreaLine(timestamp, text, confidence)] &&
            e.linked == d.linked && e.spreadsheet == d.spreadsheet && e.sheet == d.sheet &&
            |d.updates| <= |e.updates| <= |d.updates| + 1 && d.updates <= e.updates &&
            (e.store.Some? <==> d.store.Some?) &&
            (d.linked && d.store.Some? ==>
               e.store.value.Keys == d.store.value.Keys + {"last_cell"} &&
               e.store.value["last_cell"] == Text(SaveTarget(d.cellEntry)) &&
               forall k :: k in d.store.value && k != "last_cell" ==> e.store.value[k] == d.store.value[k]) &&
            (!d.linked ==> e.updates == d.updates && e.localFile == d.localFile && e.store == d.store &&
                           e.cellEntry == d.cellEntry && e.cellLabel == d.cellLabel)
  {
  }


  /** A blank entry saves to A1 every time and is never advanced. */
  lemma BlankEntryStaysOnA1(entry: string)
    requires Normalize(entry) == ""
    ensures SaveTarget(entry) == "A1" && Parse(SaveTarget(entry)) == Some(Cell("A", 1))
    ensures NextEntry(entry) == entry
  {
    assert Parse("A1") == Some(Cell("A", 1)) by {
      ParseGreedy("A", "1", "");
      assert "A" + "1" + "" == "A1";
      assert "1"[..0] == "";
    }
    assert Parse(Normalize(entry)) == None;
  }

  /**
   * The selection rule for both pickers: the stored value when it is truthy
   * and among the titles, otherwise the first title.
   */
  function Choose(last: Setting, titles: seq<string>): (choice: string)
    requires |titles| > 0
    ensures choice in titles
    ensures last.Text? && last.text != "" && last.text in titles ==> choice == last.text
    ensures !(last.Text? && last.text != "" && last.text in titles) ==> choice == titles[0]
  {
    if Truthy(last) && last.Text? && last.text in titles then last.text else titles[0]
  }

  /** Storing the choice and choosing again with the same titles gives the same choice. */
  lemma ChooseIsStable(last: Setting, titles: seq<string>)
    requires |titles| > 0
    ensures Choose(Text(Choose(last, titles)), titles) == Choose(last, titles)
  {
    var c := Choose(last, titles);
    if c == "" {
      assert c == titles[0];
    }
  }

  /** What the window's entry shows for a restored `last_cell`: `str(value)`. */
  function SettingText(v: Setting): string {
    match v
    case Null => "None"
    case Text(s) => s
    case Number(n) => SignedDecimal(n)
  }

  /** The remote account as the handler's listing calls see it during one event. */
  datatype Service = Service(spreadsheets: Listing<Spreadsheet>, worksheets: map<string, Listing<Worksheet>>)

  /** What `worksheets()` on a spreadsheet handle returns. */
  function WorksheetsOf(service: Service, s: Option<Spreadsheet>): Listing<Worksheet> {
    if s.Some? && s.value.id in service.worksheets then service.worksheets[s.value.id] else ListFailed
  }

  /** A settings store as the window sees it: absent, or its map. */
  type Store = Option<map<string, Setting>>

  /** `get_setting(key, default)` on the store, or `None` without one. */
  function StoredIn(store: Store, key: string, default: Setting := Null): Setting {
    if store.Some? then Lookup(store.value, key, default) else Null
  }

  /** The spreadsheet picker and the handler's selection. */
  datatype SpreadsheetPicker = SpreadsheetPicker(status: string, values: seq<string>, choice: string,
                                                 spreadsheet: Option<Spreadsheet>, sheet: Option<Worksheet>)

  /**
   * The spreadsheet picker after a refresh. A non-empty listing fills the
   * picker, picks the stored spreadsheet when it is listed (otherwise the
   * first), targets the first listed spreadsheet with that title and clears
   * the worksheet. An empty listing clears the picker and keeps the rest.
   */
  function RefreshedSpreadsheets(service: Service, store: Store, p: SpreadsheetPicker): (q: SpreadsheetPicker)
    ensures var listed := Items(service.spreadsheets);
            var titles := SpreadsheetTitles(listed);
            q.values == titles &&
            (|titles| == 0 ==>
               q.status == NoSpreadsheetsStatus && q.choice == p.choice &&
               q.spreadsheet == p.spreadsheet && q.sheet == p.sheet) &&
            (|titles| > 0 ==>
               q.status == LoadedStatus(|titles|) && q.choice in titles &&
               q.choice == Choose(StoredIn(store, "last_spreadsheet"), titles) &&
               q.spreadsheet == Some(listed[FirstIndex(titles, q.choice).value]) &&
               q.spreadsheet.value.title == q.choice && q.sheet == None) &&
            (|titles| > 0 && store.None? ==> q.choice == titles[0])
  {
    var listed := Items(service.spreadsheets);
    var titles := SpreadsheetTitles(listed);
    if |titles| == 0 then p.(status := NoSpreadsheetsStatus, values := [])
    else
      var choice := Choose(StoredIn(store, "last_spreadsheet"), titles);
      p.(status := LoadedStatus(|titles|), values := titles, choice := choice,
         spreadsheet := Some(listed[FirstIndex(titles, choice).value]), sheet := None)
  }

  /** The sheet picker, the handler's worksheet, the settings store and the cell entry and label. */
  datatype SheetPicker = SheetPicker(values: seq<string>, choice: string, sheet: Option<Worksheet>,
                                     store: Store, entry: string, entryLabel: string)

  /**
   * The sheet picker after a refresh for `spreadsheet`. A non-empty listing
   * fills the picker and picks the stored sheet when it is listed (otherwise
   * the first); a non-empty pick is targeted and stored as `last_sheet`; with
   * a store, a truthy `last_cell` is restored into the entry and the label.
   * An empty listing clears the picker and keeps the rest.
   */
  function RefreshedSheets(service: Service, spreadsheet: Option<Spreadsheet>, p: SheetPicker): (q: SheetPicker)
    ensures var listed := Items(WorksheetsOf(service, spreadsheet));
            var titles := SheetTitles(listed);
            var lastCell := StoredIn(p.store, "last_cell", Text("A1"));
            q.values == titles && (q.store.Some? <==> p.store.Some?) &&
            (|titles| == 0 ==> q == p.(values := [])) &&
            (|titles| > 0 ==>
               q.choice in titles && q.choice == Choose(StoredIn(p.store, "last_sheet"), titles) &&
               (q.choice != "" ==>
                  q.sheet == Some(listed[FirstIndex(titles, q.choice).value]) && q.sheet.value.title == q.choice &&
                  (p.store.Some? ==> q.store.value == p.store.value["last_sheet" := Text(q.choice)])) &&
               (q.choice == "" ==> q.sheet == p.sheet && q.store == p.store) &&
               (p.store.Some? && Truthy(lastCell) ==> q.entry == SettingText(lastCell) && q.entryLabel == q.entry) &&
               (p.store.None? || !Truthy(lastCell) ==> q.entry == p.entry && q.entryLabel == p.entryLabel)) &&
            (|titles| > 0 && p.store.None? ==> q.choice == titles[0])
  {
    var listed := Items(WorksheetsOf(service, spreadsheet));
    var titles := SheetTitles(listed);
    if |titles| == 0 then p.(values := [])
    else
      var choice := Choose(StoredIn(p.store, "last_sheet"), titles);
      var picked := if choice != "" then p.(sheet := Some(listed[FirstIndex(titles, choice).value])) else p;
      var stored := if choice != "" && p.store.Some? then picked.(store := Some(p.store.value["last_sheet" := Text(choice)]))
                    else picked;
      var lastCell := StoredIn(p.store, "last_cell", Text("A1"));
      var restored := if p.store.Some? && Truthy(lastCell)
                      then stored.(entry := SettingText(lastCell), entryLabel := SettingText(lastCell))
                      else stored;
      restored.(values := titles, choice := choice)
  }

  /** Refreshing the sheet picker twice in a row with the same account changes nothing the second time. */
  lemma {:induction false} RefreshedSheetsIdempotent(service: Service, spreadsheet: Option<Spreadsheet>, p: SheetPicker)
    ensures var q := RefreshedSheets(service, spreadsheet, p);
            RefreshedSheets(service, spreadsheet, q) == q
  {
    var q := RefreshedSheets(service, spreadsheet, p);
    var r := RefreshedSheets(service, spreadsheet, q);
    var titles := SheetTitles(Items(WorksheetsOf(service, spreadsheet)));
    if |titles| > 0 {
      ChooseIsStable(StoredIn(p.store, "last_sheet"), titles);
      if p.store.Some? {
        assert StoredIn(q.store, "last_cell", Text("A1")) == StoredIn(p.store, "last_cell", Text("A1"));
        if q.choice != "" {
          assert StoredIn(q.store, "last_sheet") == Text(q.choice);
          assert r.store.value == q.store.value;
        }
      }
      assert r.choice == q.choice;
    }
  }

  /** `Calm(b)`: the timer was not stopped during that second. */
  predicate Calm(stopped: bool) { !stopped }

  class Gui {
    var isRecording: bool
    var startEnabled: bool
    var stopEnabled: bool
    var status: string
    var blinkActive: bool
    var timerActive: bool
    var remainingSeconds: nat
    var timerLabel: string
    /** The cell-address entry and the "current position" label beside it. */
    var cellEntry: string
    var cellLabel: string
    /** The result lines shown in the text area, oldest first. */
    var textArea: seq<ResultLine>
    var spreadsheetValues: seq<string>
    var spreadsheetChoice: string
    var sheetValues: seq<string>
    var sheetChoice: string
    /** The collaborators, attached after construction by the start-up code. */
    var processor: VoiceProcessor?
    var handler: SheetHandler?
    var settings: SettingsManager?
    const currentRow: nat := 1
    const currentCol: nat := 1

    /** A new window: no collaborators yet, in its initial state. */
    constructor ()
      ensures processor == null && handler == null && settings == null
      ensures Idle() && remainingSeconds == TimerSeconds
      ensures cellEntry == "A1" && cellLabel == "A1" && textArea == []
      ensures spreadsheetValues == [] && spreadsheetChoice == "" && sheetValues == [] && sheetChoice == ""
    {
      processor := null;
      handler := null;
      settings := null;
      isRecording := false;
      startEnabled := true;
      stopEnabled := false;
      status := ReadyStatus;
      blinkActive := false;
      timerActive := false;
      remainingSeconds := TimerSeconds;
      timerLabel := "";
      cellEntry := "A1";
      cellLabel := "A1";
      textArea := [];
      spreadsheetValues := [];
      spreadsheetChoice := "";
      sheetValues := [];
      sheetChoice := "";
    }

    /** Not recording, start enabled, stop disabled, ready, no blinking, no timer. */
    predicate Idle()
      reads this`isRecording, this`startEnabled, this`stopEnabled, this`status,
            this`blinkActive, this`timerActive, this`timerLabel
    {
      !isRecording && startEnabled && !stopEnabled && status == ReadyStatus &&
      !blinkActive && !timerActive && timerLabel == ""
    }

    /** The processor reports back to this window. */
    predicate Linked()
      reads this, processor
    {
      processor != null ==> processor.gui == this
    }

    /** The pickers are as they were. */
    twostate predicate KeepsSelection()
      reads this`spreadsheetValues, this`spreadsheetChoice, this`sheetValues, this`sheetChoice
    {
      spreadsheetValues == old(spreadsheetValues) && spreadsheetChoice == old(spreadsheetChoice) &&
      sheetValues == old(sheetValues) && sheetChoice == old(sheetChoice)
    }

    /** The collaborators and the document are as they were. */
    twostate predicate KeepsDocument()
      reads this`processor, this`handler, this`settings, this`textArea, this`cellEntry, this`cellLabel,
            handler, settings
    {
      KeepsWiring() && DocumentNow() == old(DocumentNow())
    }

    /** The collaborators stay attached and the document is as `AfterShow` describes. */
    twostate predicate Saved(text: string, confidence: Option<real>, timestamp: string, sink: SinkEnv)
      reads this`processor, this`handler, this`settings, this`textArea, this`cellEntry, this`cellLabel,
            handler, settings
    {
      KeepsWiring() && DocumentNow() == AfterShow(old(DocumentNow()), text, confidence, timestamp, sink)
    }

    /** The collaborators are as they were. */
    twostate predicate KeepsWiring()
      reads this`processor, this`handler, this`settings
    {
      processor == old(processor) && handler == old(handler) && settings == old(settings)
    }

    /** The settings map, when a store is attached. */
    function StoreNow(): Store
      reads this`settings, settings
    {
      if settings != null then Some(settings.settings) else None
    }

    function DocumentNow(): Document
      reads this`textArea, this`cellEntry, this`cellLabel, this`handler, this`settings, handler, settings
    {
      Document(textArea, cellEntry, cellLabel, handler != null,
               if handler != null then handler.spreadsheet else None,
               if handler != null then handler.sheet else None,
               if handler != null then handler.updates else [],
               if handler != null then handler.localFile else None,
               StoreNow())
    }

    function SpreadsheetPickerNow(): SpreadsheetPicker
      reads this, handler
    {
      SpreadsheetPicker(status, spreadsheetValues, spreadsheetChoice,
                        if handler != null then handler.spreadsheet else None,
                        if handler != null then handler.sheet else None)
    }

    function SheetPickerNow(): SheetPicker
      reads this, handler, settings
    {
      SheetPicker(sheetValues, sheetChoice, if handler != null then handler.sheet else None,
                  StoreNow(), cellEntry, cellLabel)
    }

    method SetVoiceProcessor(p: VoiceProcessor?)
      modifies this`processor
      ensures processor == p
    {
      processor := p;
    }

    /** The window's own notion of the current cell. */
    function CurrentCellPosition(): (cell: string)
      ensures Parse(cell) == Some(Cell(ColumnLetters(currentCol), currentRow))
    {
      assert ColumnLetters(currentCol) == [LetterChar(currentCol - 1)];
      ParseFormat(Cell([LetterChar(currentCol - 1)], currentRow));
      [LetterChar(currentCol - 1)] + Decimal(currentRow)
    }

    method UpdateStatus(message: string)
      modifies this`status
      ensures status == message
    {
      status := message;
    }

    method StartBlinking()
      modifies this`blinkActive
      ensures blinkActive
    {
      blinkActive := true;
    }

    method StopBlinking()
      modifies this`blinkActive
      ensures !blinkActive
    {
      blinkActive := false;
    }

    method StartTimer()
      modifies this`timerActive, this`remainingSeconds
      ensures timerActive && remainingSeconds == TimerSeconds
    {
      timerActive := true;
      remainingSeconds := TimerSeconds;
    }

    method StopTimer()
      modifies this`timerActive, this`timerLabel
      ensures !timerActive && timerLabel == ""
    {
      timerActive := false;
      timerLabel := "";
    }

    method ResetButtons()
      modifies this`isRecording, this`startEnabled, this`stopEnabled, this`status
      modifies this`blinkActive, this`timerActive, this`timerLabel
      ensures Idle()
    {
      isRecording := false;
      startEnabled := true;
      stopEnabled := false;
      UpdateStatus(ReadyStatus);
      StopBlinking();
      StopTimer();
    }

    /**
     * The timer thread. `stops[i]` says whether the timer was stopped during
     * the i-th one-second sleep; `shown` is the sequence of labels displayed.
     * A running timer counts down one per second until it is stopped or
     * reaches 0, and its label is cleared either way.
     */
    method TimerCountdown(stops: seq<bool>) returns (shown: seq<string>)
      requires |stops| >= remainingSeconds
      modifies this`timerActive, this`timerLabel, this`remainingSeconds
      ensures !old(timerActive) ==>
                shown == [] && !timerActive && timerLabel == old(timerLabel) &&
                remainingSeconds == old(remainingSeconds)
      ensures old(timerActive) ==>
                var calm := Span(stops, Calm);
                var r := old(remainingSeconds);
                timerLabel == "" &&
                remainingSeconds == r - Min(calm, r) &&
                (timerActive <==> calm >= r) &&
                |shown| == Min(calm + 1, r) &&
                forall j :: 0 <= j < |shown| ==> shown[j] == TimerText(r - j)
    {
      ghost var r := remainingSeconds;
      ghost var wasActive := timerActive;
      shown := [];
      var i := 0;
      while timerActive && remainingSeconds > 0
        invariant 0 <= i <= r
        invariant |shown| == i
        invariant forall j :: 0 <= j < i ==> shown[j] == TimerText(r - j)
        invariant !wasActive ==> i == 0 && !timerActive && timerLabel == old(timerLabel) && remainingSeconds == r
        invariant timerActive ==> remainingSeconds == r - i && forall j :: 0 <= j < i ==> !stops[j]
        invariant wasActive && !timerActive ==>
                    i > 0 && stops[i - 1] && remainingSeconds == r - (i - 1) && timerLabel == "" &&
                    forall j :: 0 <= j < i - 1 ==> !stops[j]
        decreases remainingSeconds + (if timerActive then 1 else 0)
      {
        timerLabel := TimerText(remainingSeconds);
        shown := shown + [timerLabel];
        if stops[i] {
          StopTimer();
        }
        if timerActive {
          remainingSeconds := remainingSeconds - 1;
        }
        i := i + 1;
      }
      if timerActive {
        timerLabel := "";
      }
      if wasActive {
        if timerActive {
          assert i == r;
        } else {
          SpanIs(stops, Calm, i - 1);
        }
      }
    }

    /**
     * A click on start: ignored while recording; otherwise the buttons
     * swap, the status, blinking and timer start and the processor is
     * started. `spawned` says whether a capture thread was started.
     */
    method StartRecording() returns (spawned: bool)
      modifies this`isRecording, this`startEnabled, this`stopEnabled, this`status
      modifies this`blinkActive, this`timerActive, this`remainingSeconds, this`timerLabel, processor
      ensures old(isRecording) ==>
                !spawned && unchanged(this) && (processor != null ==> unchanged(processor))
      ensures !old(isRecording) && processor != null ==>
                isRecording && !startEnabled && stopEnabled && status == RecordingStatus &&
                blinkActive && timerActive && remainingSeconds == TimerSeconds &&
                timerLabel == old(timerLabel) &&
                (spawned <==> !old(processor.isRecording)) && processor.isRecording &&
                processor.captures == old(processor.captures) + (if spawned then 1 else 0) &&
                processor.gui == old(processor.gui) && processor.console == old(processor.console)
      ensures !old(isRecording) && processor == null ==>
                !spawned && Idle() && remainingSeconds == TimerSeconds
      ensures KeepsSelection() && KeepsDocument()
    {
      if isRecording {
        return false;
      }
      ShowRecording();
      if processor != null {
        spawned := processor.StartRecording();
      } else {
        ResetButtons();
        spawned := false;
      }
    }

    /** The window side of a start click: the buttons swap, the status, blinking and timer start. */
    method ShowRecording()
      modifies this`isRecording, this`startEnabled, this`stopEnabled, this`status
      modifies this`blinkActive, this`timerActive, this`remainingSeconds
      ensures isRecording && !startEnabled && stopEnabled && status == RecordingStatus
      ensures blinkActive && timerActive && remainingSeconds == TimerSeconds
    {
      isRecording := true;
      startEnabled := false;
      stopEnabled := true;
      UpdateStatus(RecordingStatus);
      StartBlinking();
      StartTimer();
    }

    /**
     * A click on stop: ignored unless recording; otherwise the processor is
     * stopped, which resets this window.
     */
    method StopRecording()
      requires Linked()
      modifies this, processor
      ensures KeepsSelection() && KeepsDocument()
      ensures !old(isRecording) ==> unchanged(this) && (processor != null ==> unchanged(processor))
      ensures old(isRecording) ==> Idle() && remainingSeconds == old(remainingSeconds)
      ensures old(isRecording) && processor != null ==>
                !processor.isRecording && processor.captures == old(processor.captures) &&
                processor.gui == this && processor.console == old(processor.console)
    {
      if !isRecording {
        return;
      }
      isRecording := false;
      if processor != null {
        processor.StopRecording();
      } else {
        ResetButtons();
      }
    }

    /** Moves the entry and the label one row down when the entry names a cell. */
    method MoveToNextCell()
      modifies this`cellEntry, this`cellLabel
      ensures Advance(old(cellEntry)).Some? ==>
                cellEntry == Advance(old(cellEntry)).value && cellLabel == cellEntry
      ensures Advance(old(cellEntry)).None? ==>
                cellEntry == old(cellEntry) && cellLabel == old(cellLabel)
      ensures cellEntry == NextEntry(old(cellEntry))
    {
      var current := Normalize(cellEntry);
      if current != "" {
        var matched := Parse(current);
        if matched.Some? {
          var next := Format(Cell(matched.value.letters, matched.value.row + 1));
          cellEntry := next;
          cellLabel := next;
        }
      }
    }

    /** Shows a result, then saves it and moves to the next cell as `AfterShow` describes. */
    method DisplayResult(text: string, confidence: Option<real>, timestamp: string, sink: SinkEnv)
      modifies this`textArea, this`status, this`cellEntry, this`cellLabel, handler, settings
      ensures Saved(text, confidence, timestamp, sink)
      ensures status == CompletedStatus
    {
      textArea := textArea + [AreaLine(timestamp, text, confidence)];
      SaveToCell(text, confidence, sink);
      UpdateStatus(CompletedStatus);
    }

    /** The saving half of `DisplayResult`. */
    method SaveToCell(text: string, confidence: Option<real>, sink: SinkEnv)
      modifies this`cellEntry, this`cellLabel, handler, settings
      ensures KeepsWiring() && DocumentNow() == AfterSave(old(DocumentNow()), text, confidence, sink)
    {
      if handler != null {
        ghost var d := DocumentNow();
        var target := Normalize(cellEntry);
        if target == "" {
          target := "A1";
        }
        assert target == SaveTarget(d.cellEntry);
        var _ := handler.SaveToSheet(text, ConfidenceOrZero(confidence), target, sink);
        if settings != null {
          settings.SetSetting("last_cell", Text(target));
        }
        assert StoreNow() == AfterSave(d, text, confidence, sink).store;
        MoveToNextCell();
      }
    }

    /**
     * Reloads the spreadsheet picker and targets the chosen spreadsheet, as
     * `RefreshedSpreadsheets` describes; nothing happens without a handler.
     */
    method RefreshSpreadsheets(service: Service)
      modifies this`status, this`spreadsheetValues, this`spreadsheetChoice, handler
      ensures handler == null ==> SpreadsheetPickerNow() == old(SpreadsheetPickerNow())
      ensures handler != null ==>
                SpreadsheetPickerNow() == RefreshedSpreadsheets(service, StoreNow(), old(SpreadsheetPickerNow())) &&
                handler.updates == old(handler.updates) && handler.localFile == old(handler.localFile)
    {
      if handler == null {
        return;
      }
      UpdateStatus(LoadingStatus);
      var all := handler.AllSpreadsheets(service.spreadsheets);
      if |all| > 0 {
        var titles := SpreadsheetTitles(all);
        spreadsheetValues := titles;
        var last := if settings != null then settings.GetSetting("last_spreadsheet") else Null;
        var choice := Choose(last, titles);
        spreadsheetChoice := choice;
        var _ := handler.SetTargetSpreadsheet(choice, service.spreadsheets);
        UpdateStatus(LoadedStatus(|titles|));
      } else {
        spreadsheetValues := [];
        UpdateStatus(NoSpreadsheetsStatus);
      }
    }

    /**
     * A sheet picked in the picker: the handler targets it and, when that
     * succeeds, it is stored as `last_sheet`.
     */
    method OnSheetSelected(service: Service)
      modifies handler, settings
      ensures handler != null ==>
                handler.spreadsheet == old(handler.spreadsheet) &&
                handler.updates == old(handler.updates) && handler.localFile == old(handler.localFile)
      ensures handler == null || sheetChoice == "" ==>
                (handler != null ==> handler.sheet == old(handler.sheet)) &&
                (settings != null ==> settings.settings == old(settings.settings))
      ensures handler != null && sheetChoice != "" ==>
                var listed := Items(WorksheetsOf(service, handler.spreadsheet));
                var titles := SheetTitles(listed);
                var found := handler.spreadsheet.Some? && sheetChoice in titles;
                (found ==> handler.sheet == Some(listed[FirstIndex(titles, sheetChoice).value])) &&
                (!found ==> handler.sheet == old(handler.sheet)) &&
                (settings != null ==>
                   settings.settings == if found then old(settings.settings)["last_sheet" := Text(sheetChoice)]
                                        else old(settings.settings))
    {
      var selected := sheetChoice;
      if selected != "" && handler != null {
        var success := handler.SetTargetSheet(selected, WorksheetsOf(service, handler.spreadsheet));
        if success && settings != null {
          settings.SetSetting("last_sheet", Text(selected));
        }
      }
    }

    /**
     * Reloads the sheet picker for the current spreadsheet, as
     * `RefreshedSheets` describes; nothing happens without a handler.
     */
    method RefreshSheets(service: Service)
      modifies this`sheetValues, this`sheetChoice, this`cellEntry, this`cellLabel, handler, settings
      ensures handler == null ==> SheetPickerNow() == old(SheetPickerNow())
      ensures handler != null ==>
                SheetPickerNow() == RefreshedSheets(service, handler.spreadsheet, old(SheetPickerNow())) &&
                handler.spreadsheet == old(handler.spreadsheet) &&
                handler.updates == old(handler.updates) && handler.localFile == old(handler.localFile)
    {
      if handler == null {
        return;
      }
      var all := handler.AllSheets(WorksheetsOf(service, handler.spreadsheet));
      if |all| > 0 {
        var titles := SheetTitles(all);
        sheetValues := titles;
        if settings != null {
          var last := settings.GetSetting("last_sheet");
          sheetChoice := Choose(last, titles);
          OnSheetSelected(service);
          var lastCell := settings.GetSetting("last_cell", Text("A1"));
          if Truthy(lastCell) {
            var restored := SettingText(lastCell);
            cellEntry := restored;
            cellLabel := restored;
          }
        } else {
          sheetChoice := titles[0];
          OnSheetSelected(service);
        }
      } else {
        sheetValues := [];
      }
    }

    /**
     * A spreadsheet picked in the picker: the handler targets it, the sheet
     * picker is reloaded for it (from a cleared worksheet) and it is stored
     * as `last_spreadsheet`. An empty or unlisted choice changes nothing.
     */
    method OnSpreadsheetSelected(service: Service)
      modifies this`sheetValues, this`sheetChoice, this`cellEntry, this`cellLabel, handler, settings
      ensures handler != null ==>
                handler.updates == old(handler.updates) && handler.localFile == old(handler.localFile)
      ensures handler == null || spreadsheetChoice == "" ||
              spreadsheetChoice !in SpreadsheetTitles(Items(service.spreadsheets)) ==>
                SheetPickerNow() == old(SheetPickerNow()) &&
                (handler != null ==> handler.spreadsheet == old(handler.spreadsheet))
      ensures handler != null && spreadsheetChoice != "" &&
              spreadsheetChoice in SpreadsheetTitles(Items(service.spreadsheets)) ==>
                var listed := Items(service.spreadsheets);
                var chosen := listed[FirstIndex(SpreadsheetTitles(listed), spreadsheetChoice).value];
                var q := RefreshedSheets(service, Some(chosen), old(SheetPickerNow()).(sheet := None));
                handler.spreadsheet == Some(chosen) &&
                SheetPickerNow() == q.(store := if settings != null
                                                then Some(q.store.value["last_spreadsheet" := Text(spreadsheetChoice)])
                                                else None)
    {
      var selected := spreadsheetChoice;
      if selected != "" && handler != null {
        var success := handler.SetTargetSpreadsheet(selected, service.spreadsheets);
        if success {
          RefreshSheets(service);
          if settings != null {
            settings.SetSetting("last_spreadsheet", Text(selected));
          }
        }
      }
    }

    /**
     * Attaches the sheet handler, then reloads the spreadsheet picker and the
     * sheet picker for the spreadsheet that reload targeted.
     */
    method SetSheetHandler(h: SheetHandler?, service: Service)
      modifies this`handler, this`status, this`spreadsheetValues, this`spreadsheetChoice
      modifies this`sheetValues, this`sheetChoice, this`cellEntry, this`cellLabel, h, settings
      ensures handler == h
      ensures h == null ==>
                status == old(status) && spreadsheetValues == old(spreadsheetValues) &&
                spreadsheetChoice == old(spreadsheetChoice) && sheetValues == old(sheetValues) &&
                sheetChoice == old(sheetChoice) && cellEntry == old(cellEntry) && cellLabel == old(cellLabel) &&
                StoreNow() == old(StoreNow())
      ensures h != null ==>
                var s := RefreshedSpreadsheets(service, old(StoreNow()),
                           SpreadsheetPicker(old(status), old(spreadsheetValues), old(spreadsheetChoice),
                                             old(h.spreadsheet), old(h.sheet)));
                var q := RefreshedSheets(service, s.spreadsheet,
                           SheetPicker(old(sheetValues), old(sheetChoice), s.sheet, old(StoreNow()),
                                       old(cellEntry), old(cellLabel)));
                SpreadsheetPickerNow() == s.(sheet := q.sheet) && SheetPickerNow() == q &&
                h.updates == old(h.updates) && h.localFile == old(h.localFile)
    {
      handler := h;
      if h != null {
        RefreshSpreadsheets(service);
        RefreshSheets(service);
      }
    }

    /**
     * Attaches the settings store and, with a sheet handler, reloads the
     * sheet picker, which reads the store's `last_sheet` and `last_cell`.
     */
    method SetSettingsManager(m: SettingsManager?, service: Service)
      modifies this`settings, this`sheetValues, this`sheetChoice, this`cellEntry, this`cellLabel, handler, m
      ensures settings == m
      ensures handler == null ==>
                sheetValues == old(sheetValues) && sheetChoice == old(sheetChoice) &&
                cellEntry == old(cellEntry) && cellLabel == old(cellLabel) &&
                (m != null ==> m.settings == old(m.settings))
      ensures handler != null ==>
                SheetPickerNow() ==
                  RefreshedSheets(service, handler.spreadsheet,
                                  old(SheetPickerNow()).(store := if m != null then Some(old(m.settings)) else None)) &&
                handler.spreadsheet == old(handler.spreadsheet) &&
                handler.updates == old(handler.updates) && handler.localFile == old(handler.localFile)
    {
      settings := m;
      if handler != null {
        RefreshSheets(service);
      }
    }
  }

  /** How one capture thread ended. */
  datatype CaptureOutcome =
    | DeviceError(reason: string)
    | NoAudio(route: Route)
    | WavError(reason: string)
    | Transcribed(audio: seq<byte>, result: Transcription)

  datatype Device = Opened | OpenFailed(reason: string)
  datatype WavWrite = WavWritten | WavFailed(reason: string)

  /** What one capture thread sees of the world: the device, the loop's iterations, and the WAV write. */
  datatype CaptureEnv = CaptureEnv(device: Device, ticks: seq<Tick>, wav: WavWrite)

  /**
   * How a capture ends, given the flag as re-read after the loop: a device
   * error, no audio, a WAV error, or the joined audio and its transcript.
   */
  function SessionOutcome(env: CaptureEnv, recordingAfter: bool, hasClient: bool, response: Response): CaptureOutcome
    requires |env.ticks| >= MaxReads
  {
    match env.device
    case OpenFailed(reason) => DeviceError(reason)
    case Opened =>
      var route := RouteAfterCapture(recordingAfter, |Captured(env.ticks)|);
      if route != Transcribe then NoAudio(route)
      else match env.wav
        case WavFailed(reason) => WavError(reason)
        case WavWritten => Transcribed(Join(Captured(env.ticks)), Recognize(hasClient, response))
  }

  /**
   * A transcript is produced exactly when the device opened, at least one
   * read succeeded before the stop or the bound, and the WAV file was
   * written; the audio is then all captured frames joined in order.
   */
  lemma TranscribedOnlyWithAudio(env: CaptureEnv, recordingAfter: bool, hasClient: bool, response: Response)
    requires |env.ticks| >= MaxReads
    ensures var o := SessionOutcome(env, recordingAfter, hasClient, response);
            o.Transcribed? <==> env.device.Opened? && |Captured(env.ticks)| > 0 && env.wav.WavWritten?
    ensures var o := SessionOutcome(env, recordingAfter, hasClient, response);
            o.Transcribed? ==> o.audio == Join(Captured(env.ticks)) && o.result == Recognize(hasClient, response)
    ensures env.device.Opened? && !env.ticks[0].recording ==>
              SessionOutcome(env, recordingAfter, hasClient, response) ==
              NoAudio(if recordingAfter then NoAudioRecorded else NoAudioAfterStop)
  {
    CapturedBounds(env.ticks);
  }

  class VoiceProcessor {
    var isRecording: bool
    /** Capture threads started so far. */
    var captures: nat
    var gui: Gui?
    /** The result lines printed to the console. */
    var console: seq<ResultLine>
    /** Whether the speech client could be created at start-up. */
    const hasClient: bool

    constructor (hasClient: bool)
      ensures !isRecording && captures == 0 && gui == null && console == [] && this.hasClient == hasClient
    {
      isRecording := false;
      captures := 0;
      gui := null;
      console := [];
      this.hasClient := hasClient;
    }

    method SetGui(g: Gui?)
      modifies this`gui
      ensures gui == g
    {
      gui := g;
    }

    /** The objects a displayed result may change. */
    ghost function Display(): (r: set<object>)
      reads this, gui
      ensures this !in r
    {
      if gui == null then {}
      else {gui} + (if gui.handler != null then {gui.handler} else {}) +
           (if gui.settings != null then {gui.settings} else {})
    }

    /** Ignored while recording; otherwise raises the flag and starts a capture thread. */
    method StartRecording() returns (spawned: bool)
      modifies this`isRecording, this`captures
      ensures spawned <==> !old(isRecording)
      ensures isRecording
      ensures captures == old(captures) + (if spawned then 1 else 0)
    {
      if isRecording {
        return false;
      }
      isRecording := true;
      captures := captures + 1;
      spawned := true;
    }

    /** Unguarded: always lowers the flag and resets the window. */
    method StopRecording()
      modifies this`isRecording, gui
      ensures !isRecording
      ensures gui != null ==>
                gui.Idle() && gui.remainingSeconds == old(gui.remainingSeconds) &&
                gui.KeepsSelection() && gui.KeepsDocument()
    {
      isRecording := false;
      if gui != null {
        gui.UpdateStatus(StoppedStatus);
        gui.ResetButtons();
      }
    }

    /** Prints the result line, then shows and saves it in the window and resets the window. */
    method DisplayResult(text: string, confidence: real, consoleTime: string, guiTime: string, sink: SinkEnv)
      modifies this`console, Display()
      ensures console == old(console) + [ConsoleLine(consoleTime, Transcription(text, confidence))]
      ensures gui != null ==>
                gui.Idle() && gui.remainingSeconds == old(gui.remainingSeconds) && gui.KeepsSelection() &&
                gui.Saved(text, Some(confidence), guiTime, sink)
    {
      console := console + [ConsoleLine(consoleTime, Transcription(text, confidence))];
      if gui != null {
        ShowIn(gui, text, confidence, guiTime, sink);
      }
    }

    /** The window half of `DisplayResult`. */
    static method ShowIn(g: Gui, text: string, confidence: real, guiTime: string, sink: SinkEnv)
      modifies g`textArea, g`status, g`cellEntry, g`cellLabel, g.handler, g.settings
      modifies g`isRecording, g`startEnabled, g`stopEnabled, g`blinkActive, g`timerActive, g`timerLabel
      ensures g.Idle() && g.Saved(text, Some(confidence), guiTime, sink)
    {
      g.DisplayResult(text, Some(confidence), guiTime, sink);
      g.ResetButtons();
    }

    /** Transcribes the recorded audio and displays the outcome. */
    method SpeechToTextSimple(response: Response, consoleTime: string, guiTime: string, sink: SinkEnv)
      returns (t: Transcription)
      modifies this`console, Display()
      ensures t == Recognize(hasClient, response)
      ensures console == old(console) + [ConsoleLine(consoleTime, t)]
      ensures gui != null ==>
                gui.Idle() && gui.remainingSeconds == old(gui.remainingSeconds) && gui.KeepsSelection() &&
                gui.Saved(t.text, Some(t.confidence), guiTime, sink)
    {
      t := Recognize(hasClient, response);
      DisplayResult(t.text, t.confidence, consoleTime, guiTime, sink);
    }

    /** An error status, immediately followed by the reset of the window. */
    method ReportFailure(message: string)
      modifies gui
      ensures gui != null ==>
                gui.Idle() && gui.remainingSeconds == old(gui.remainingSeconds) &&
                gui.KeepsSelection() && gui.KeepsDocument()
    {
      if gui != null {
        gui.UpdateStatus(message);
        gui.ResetButtons();
      }
    }

    /**
     * The tail shared by both capture routes: write the WAV file, then show
     * the recognising status and transcribe; a WAV error is reported instead.
     */
    method ProcessRecordedAudio(frames: seq<Frame>, wav: WavWrite, response: Response,
                                consoleTime: string, guiTime: string, sink: SinkEnv)
      returns (outcome: CaptureOutcome)
      modifies this`console, Display()
      ensures wav.WavFailed? ==> outcome == WavError(wav.reason)
      ensures wav.WavWritten? ==> outcome == Transcribed(Join(frames), Recognize(hasClient, response))
      ensures console == old(console) + (if outcome.Transcribed? then [ConsoleLine(consoleTime, outcome.result)] else [])
      ensures gui != null ==>
                gui.Idle() && gui.remainingSeconds == old(gui.remainingSeconds) &&
                gui.KeepsSelection() && gui.KeepsWiring()
      ensures gui != null && outcome.Transcribed? ==>
                gui.Saved(outcome.result.text, Some(outcome.result.confidence), guiTime, sink)
      ensures gui != null && !outcome.Transcribed? ==> gui.KeepsDocument()
    {
      if wav.WavFailed? {
        ReportFailure(WavErrorStatus(wav.reason));
        return WavError(wav.reason);
      }
      if gui != null {
        gui.UpdateStatus(RecognizingStatus);
      }
      var t := SpeechToTextSimple(response, consoleTime, guiTime, sink);
      outcome := Transcribed(Join(frames), t);
    }

    /**
     * The capture thread: open the device, run the bounded loop, route on
     * the flag and the buffer, then process the audio. Every path leaves the
     * window idle; the processor's own flag is never touched.
     */
    method RecordAndRecognize(env: CaptureEnv, response: Response, consoleTime: string, guiTime: string, sink: SinkEnv)
      returns (outcome: CaptureOutcome)
      requires |env.ticks| >= MaxReads
      modifies this`console, Display()
      ensures outcome == SessionOutcome(env, old(isRecording), hasClient, response)
      ensures isRecording == old(isRecording) && gui == old(gui)
      ensures console == old(console) + (if outcome.Transcribed? then [ConsoleLine(consoleTime, outcome.result)] else [])
      ensures gui != null ==>
                gui.Idle() && gui.remainingSeconds == old(gui.remainingSeconds) &&
                gui.KeepsSelection() && gui.KeepsWiring()
      ensures gui != null && outcome.Transcribed? ==>
                gui.Saved(outcome.result.text, Some(outcome.result.confidence), guiTime, sink)
      ensures gui != null && !outcome.Transcribed? ==> gui.KeepsDocument()
    {
      if gui != null {
        gui.UpdateStatus(RecordingStatus);
      }
      if env.device.OpenFailed? {
        ReportFailure(RecordingErrorStatus(env.device.reason));
        return DeviceError(env.device.reason);
      }
      var frames, _ := CaptureFrames(env.ticks);
      var route := RouteAfterCapture(isRecording, |frames|);
      if route != Transcribe {
        ReportFailure(if route == NoAudioAfterStop then NoAudioAfterStopStatus else NoAudioRecordedStatus);
        return NoAudio(route);
      }
      outcome := ProcessRecordedAudio(frames, env.wav, response, consoleTime, guiTime, sink);
    }
  }
}
