/**
 * The process state of liveCSVble.py as a value, and the two ways it
 * changes: a sensor notification (`handle_notification`) and one character
 * read by the operator loop (one iteration of `keypress_monitor`).
 *
 * The recording sink is the file system as far as the core sees it: a map
 * from path to the rows written to that file, plus the path the current
 * `csv_writer` writes to. Control messages sent over the wireless link,
 * plot images saved and text printed to the operator's terminal are kept as
 * append-only logs.
 */
module LiveSession {
  import opened Wrappers
  import opened PyText
  import opened RollingWindow

  /** A row of a session file: the header, or one classified reading. */
  datatype Row = Header | Reading(timestamp: string, value: real, touch: Bit)

  /** The two payloads written to the device's characteristic. */
  datatype Control = SessionOn | SessionOff

  /** What the operator loop does with the next character: assemble a
      command, assemble a session name, or feed the blocking
      "Start a new session? (y/n)" prompt that follows an `e`. */
  datatype Mode = Command | Naming | Answering

  /** Whether the process still runs; `Quit` is `os._exit(0)`, `OpenFailed`
      the exception raised when a session file cannot be opened, which ends
      the operator loop and, through `run`, the process. */
  datatype Status = Running | Quit | OpenFailed(path: string)

  /** One `print` of the core on the operator's terminal. */
  datatype Output =
    | Welcome                        // "Type 'start' then your session name to begin. Press 'e' ..."
    | Ble(message: string)           // "[BLE] <message>"
    | Echo(c: char)                  // the typed character, without newline
    | Blank                          // an empty line
    | EnterName                      // "Enter session name:"
    | UnknownCommand(command: string) // "Unknown command: <command>"
    | Exiting                        // "\nExiting..."
    | Ending                         // "\nEnding session..."
    | RecordingStopped               // "Recording stopped."
    | PlotSaved(path: string)        // "Plot saved as: <path>"
    | AskNewSession                  // the prompt "Start a new session? (y/n): "
    | StartHint                      // "Type 'start' then your session name to begin."
    | NoActiveRecording              // "No active recording."

  /** The echo of each character of `w`, in order. */
  function Echoes(w: string): (r: seq<Output>)
    ensures |r| == |w| && forall i :: 0 <= i < |w| ==> r[i] == Echo(w[i])
  {
    if w == [] then [] else Echoes(w[..|w| - 1]) + [Echo(w[|w| - 1])]
  }

  datatype State = State(
    // module globals of liveCSVble.py
    recording: bool,
    sessionStarted: bool,
    recordedData: seq<(string, real)>,
    sessionName: string,
    writer: Option<string>,
    files: map<string, seq<Row>>,
    liveValues: Deque<real>,
    liveTouch: Deque<Bit>,
    client: bool,
    // locals of keypress_monitor's loop
    buffer: string,
    mode: Mode,
    answer: string,
    // observable effects
    sent: seq<Control>,
    plots: seq<string>,
    display: seq<Output>,
    status: Status)

  /** The state when the operator loop starts; `client` says whether a
      device connection is held (it always is once `run` calls the loop). */
  function Initial(client: bool): State {
    State(false, false, [], "", None, map[], [], [], client,
          "", Command, "", [], [], [Welcome], Running)
  }

  function SessionPath(name: string): string { "data/session_" + name + ".csv" }
  function PlotPath(name: string): string { "data/session_" + name + ".png" }

  /** `csv_writer.writerow(row)` on the file at `path`. */
  function WriteRow(files: map<string, seq<Row>>, path: string, row: Row): map<string, seq<Row>> {
    files[path := (if path in files then files[path] else []) + [row]]
  }

  /** `client.write_gatt_char(...)`, skipped when there is no client. */
  function Send(s: State, m: Control): seq<Control> {
    if s.client then s.sent + [m] else s.sent
  }

  // ---------------------------------------------------------------------
  // handle_notification

  /** The value a notification contributes to the window, if any. */
  function Accepted(s: State, message: string, parse: string -> Option<real>): seq<real> {
    if s.status.Running? && parse(Strip(message)).Some? then [parse(Strip(message)).value] else []
  }

  /** `print(f"[BLE] {message}")`, done only while a session is started. */
  function EchoMessage(s: State, msg: string): State {
    if s.sessionStarted then s.(display := s.display + [Ble(msg)]) else s
  }

  /** The `try` block once `float` succeeded: the reading joins
      `recorded_data` and, while recording, becomes a row labelled against
      the current window. */
  function RecordReading(s: State, timestamp: string, v: real): State {
    s.(recordedData := s.recordedData + [(timestamp, v)],
       files := if s.recording && s.writer.Some?
                then WriteRow(s.files, s.writer.value, Reading(timestamp, v, Label(v, s.liveValues)))
                else s.files)
  }

  /** The label computed again after the `try` block, and the two appends. */
  function PushReading(s: State, v: real): State {
    var touch := Label(v, s.liveValues);
    s.(liveValues := DequeAppend(s.liveValues, v, MaxLen),
       liveTouch := DequeAppend(s.liveTouch, touch, MaxLen))
  }

  function Notify(s: State, message: string, timestamp: string, parse: string -> Option<real>): State {
    if !s.status.Running? then s
    else
      var msg := Strip(message);
      var s1 := EchoMessage(s, msg);
      match parse(msg)
      case None => s1
      case Some(v) => PushReading(RecordReading(s1, timestamp, v), v)
  }

  // ---------------------------------------------------------------------
  // keypress_monitor, one character

  /** Name mode, newline: the stripped buffer becomes the session name and
      `recorded_data` is emptied. */
  function TakeName(s: State): State {
    s.(sessionName := Strip(s.buffer), buffer := "", mode := Command, recordedData := [])
  }

  /** Creating the session file (truncating any older one) with its header
      row, then recording and telling the device; an `open` that fails
      raises and ends the process. */
  function CreateSessionFile(s: State, canOpen: string -> bool): State {
    var path := SessionPath(s.sessionName);
    if !canOpen(path) then s.(status := OpenFailed(path))
    else
      s.(files := s.files[path := [Header]], writer := Some(path),
         recording := true, sessionStarted := true, sent := Send(s, SessionOn))
  }

  /** Opening the session named by the buffer (name mode, newline). */
  function StartSession(s: State, canOpen: string -> bool): State {
    CreateSessionFile(TakeName(s), canOpen)
  }

  /** Line assembly in command and name mode. */
  function Assemble(s: State, c: char, canOpen: string -> bool): State {
    if c != '\n' then s.(buffer := s.buffer + [c], display := s.display + [Echo(c)])
    else if s.mode == Command then
      var command := Strip(s.buffer);
      var s1 := s.(buffer := "", display := s.display + [Blank]);
      if Lower(command) == "start" then s1.(mode := Naming, display := s1.display + [EnterName])
      else s1.(display := s1.display + [UnknownCommand(command)])
    else StartSession(s, canOpen)
  }

  /** Stopping the recording on `e`. */
  function EndRecording(s: State): State {
    var png := PlotPath(s.sessionName);
    s.(recording := false, sessionStarted := false, sent := Send(s, SessionOff),
       plots := s.plots + [png],
       display := s.display + [RecordingStopped, PlotSaved(png), RecordingStopped])
  }

  /** The single-key triggers `e` and `q`, checked after line assembly. */
  function Trigger(s: State, c: char): State {
    if s.mode == Command && (c == 'e' || c == 'q') then
      if c == 'q' then
        s.(display := s.display + [Exiting], sent := Send(s, SessionOff), status := Quit)
      else
        var s1 := s.(display := s.display + [Ending]);
        var s2 := if s1.recording then EndRecording(s1) else s1;
        s2.(display := s2.display + [AskNewSession], mode := Answering, answer := "")
    else s
  }

  /** A character consumed by the blocking prompt that follows `e`. */
  function Answer(s: State, c: char): State {
    if c != '\n' then s.(answer := s.answer + [c])
    else
      var reply := Lower(Strip(s.answer));
      s.(mode := Command, answer := "",
         display := s.display + [if reply == "y" then StartHint else NoActiveRecording])
  }

  function Key(s: State, c: char, canOpen: string -> bool): State {
    if !s.status.Running? then s
    else if s.mode == Answering then Answer(s, c)
    else Trigger(Assemble(s, c, canOpen), c)
  }

  /** The operator loop over a sequence of characters. */
  function Keys(s: State, keys: seq<char>, canOpen: string -> bool): State
    decreases |keys|
  {
    if keys == [] then s
    else Key(Keys(s, keys[..|keys| - 1], canOpen), keys[|keys| - 1], canOpen)
  }

  // ---------------------------------------------------------------------
  // The invariant

  /** A session file: the header followed by readings. */
  ghost predicate WellFormed(rows: seq<Row>) {
    && |rows| >= 1 && rows[0] == Header
    && forall i :: 1 <= i < |rows| ==> rows[i].Reading?
  }

  /** The readings of the current file are the first readings of
      `recorded_data`, all of them while recording is on. */
  ghost predicate SessionLog(rows: seq<Row>, data: seq<(string, real)>, recording: bool) {
    && WellFormed(rows)
    && |rows| - 1 <= |data|
    && (recording ==> |rows| - 1 == |data|)
    && forall i :: 1 <= i < |rows| ==> rows[i].timestamp == data[i - 1].0 && rows[i].value == data[i - 1].1
  }

  ghost predicate Inv(s: State) {
    && |s.liveValues| == |s.liveTouch|
    && s.recording == s.sessionStarted
    && (s.recording ==> s.writer.Some?)
    && (s.writer.Some? ==> s.writer.value in s.files)
    && (s.writer.Some? && s.status.Running? ==>
                           SessionLog(s.files[s.writer.value], s.recordedData, s.recording))
    && (forall p :: p in s.files ==> WellFormed(s.files[p]))
    && (s.mode != Answering ==> s.answer == [])
  }

  /** The deques hold the last `MaxLen` accepted readings and their labels. */
  ghost predicate Consistent(s: State, history: seq<real>) {
    && s.liveValues == LastN(history, MaxLen)
    && s.liveTouch == LastN(Labels(history), MaxLen)
  }

  lemma InitialInv(client: bool)
    ensures Inv(Initial(client)) && Consistent(Initial(client), [])
  {
  }

  lemma NotifyInv(s: State, message: string, timestamp: string, parse: string -> Option<real>)
    requires Inv(s)
    ensures Inv(Notify(s, message, timestamp, parse))
  {
    var t := Notify(s, message, timestamp, parse);
    if s.status.Running? && parse(Strip(message)).Some? && s.writer.Some? {
      var w := s.writer.value;
      var rows, rows' := s.files[w], t.files[w];
      assert forall i :: 1 <= i < |rows| ==> rows'[i] == rows[i] && t.recordedData[i - 1] == s.recordedData[i - 1];
    }
  }

  /** What a notification does to the two deques. */
  lemma NotifyWindow(s: State, message: string, timestamp: string, parse: string -> Option<real>)
    ensures var t := Notify(s, message, timestamp, parse);
            if s.status.Running? && parse(Strip(message)).Some? then
              var v := parse(Strip(message)).value;
              && t.liveValues == DequeAppend(s.liveValues, v, MaxLen)
              && t.liveTouch == DequeAppend(s.liveTouch, Label(v, s.liveValues), MaxLen)
            else t.liveValues == s.liveValues && t.liveTouch == s.liveTouch
  {
  }

  lemma {:induction false} NotifyConsistent(s: State, history: seq<real>, message: string, timestamp: string,
                                            parse: string -> Option<real>)
    requires Consistent(s, history)
    ensures Consistent(Notify(s, message, timestamp, parse), history + Accepted(s, message, parse))
  {
    NotifyWindow(s, message, timestamp, parse);
    if s.status.Running? && parse(Strip(message)).Some? {
      var v := parse(Strip(message)).value;
      var h := history + [v];
      assert history + Accepted(s, message, parse) == h;
      assert LastN(h, MaxLen) == DequeAppend(LastN(history, MaxLen), v, MaxLen) by {
        LastNAppend(history, v, MaxLen);
      }
      assert Labels(h) == Labels(history) + [Label(v, s.liveValues)] by {
        assert h[..|h| - 1] == history;
      }
      assert LastN(Labels(h), MaxLen) == DequeAppend(s.liveTouch, Label(v, s.liveValues), MaxLen) by {
        LastNAppend(Labels(history), Label(v, s.liveValues), MaxLen);
      }
    } else {
      assert history + Accepted(s, message, parse) == history;
    }
  }

  lemma StartSessionInv(s: State, canOpen: string -> bool)
    requires Inv(s) && s.mode == Naming
    ensures Inv(StartSession(s, canOpen))
  {
  }

  lemma AssembleInv(s: State, c: char, canOpen: string -> bool)
    requires Inv(s) && s.mode != Answering
    ensures Inv(Assemble(s, c, canOpen))
  {
    if c == '\n' && s.mode == Naming {
      StartSessionInv(s, canOpen);
    }
  }

  lemma TriggerInv(s: State, c: char)
    requires Inv(s) && s.mode != Answering
    ensures Inv(Trigger(s, c))
  {
  }

  lemma KeyInv(s: State, c: char, canOpen: string -> bool)
    requires Inv(s)
    ensures Inv(Key(s, c, canOpen))
  {
    if s.status.Running? && s.mode != Answering {
      AssembleInv(s, c, canOpen);
      var t := Assemble(s, c, canOpen);
      if t.mode != Answering {
        TriggerInv(t, c);
      }
    }
  }

  /** The `e` and `q` triggers leave the files, the writer, the recorded
      data and the deques alone. */
  lemma TriggerFrame(s: State, c: char)
    ensures var t := Trigger(s, c);
            && t.files == s.files && t.writer == s.writer && t.recordedData == s.recordedData
            && t.liveValues == s.liveValues && t.liveTouch == s.liveTouch
  {
  }

  /** Line assembly leaves the same fields alone, except for the newline
      that ends a session name (Assemble is used only outside the prompt). */
  lemma AssembleFrame(s: State, c: char, canOpen: string -> bool)
    ensures var t := Assemble(s, c, canOpen);
            && t.liveValues == s.liveValues && t.liveTouch == s.liveTouch
            && (c != '\n' || s.mode == Command ==>
                  t.files == s.files && t.writer == s.writer && t.recordedData == s.recordedData)
  {
    if c == '\n' && s.mode != Command {
      assert Assemble(s, c, canOpen) == StartSession(s, canOpen);
    }
  }

  /** A key press leaves the rolling window alone. */
  lemma KeyKeepsWindow(s: State, c: char, canOpen: string -> bool)
    ensures Key(s, c, canOpen).liveValues == s.liveValues
    ensures Key(s, c, canOpen).liveTouch == s.liveTouch
  {
    if s.status.Running? && s.mode != Answering {
      var a := Assemble(s, c, canOpen);
      assert a.liveValues == s.liveValues && a.liveTouch == s.liveTouch by { AssembleFrame(s, c, canOpen); }
      assert Key(s, c, canOpen) == Trigger(a, c);
      TriggerFrame(a, c);
    }
  }

  lemma {:induction false} KeysInv(s: State, keys: seq<char>, canOpen: string -> bool)
    requires Inv(s)
    ensures Inv(Keys(s, keys, canOpen))
    decreases |keys|
  {
    if keys != [] {
      KeysInv(s, keys[..|keys| - 1], canOpen);
      KeyInv(Keys(s, keys[..|keys| - 1], canOpen), keys[|keys| - 1], canOpen);
    }
  }
}
