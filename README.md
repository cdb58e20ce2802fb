# liveCSVble.py, modelled in Dafny

`liveCSVble.py` records a live stream of numeric readings from a touch
sensor on an Arduino Nano 33, received over Bluetooth Low Energy. Each reading is labelled
"touch" or "no touch" against a rolling baseline and, while a session is
recording, written to a CSV file. The operator controls sessions from the
keyboard:

- `start` plus a session name opens `data/session_<name>.csv`;
- `e` ends the recording (and asks whether to start a new session);
- `q` quits.

A notification and a key press each change the same module-level state.

The model has these parts:

- **`PyText`** — `str.strip()` with Python's whitespace set, and `str.lower()`.
  - Strip is characterised by `StripSpec` and `StripUnique`, and is idempotent.
  - The command test: `Lower(s) == "start"` holds exactly for the mixed-case spellings of `start`.
- **`RollingWindow`** — the rolling baseline.
  - The two `deque(maxlen=200)` windows, and the threshold `mean * 0.92` (0 on an empty window).
  - The label, and the labels of a whole history of readings.
  - How a bounded deque relates to "the last 200 elements" of that history.
- **`LiveSession`** — the whole process state as a value `State`, and two pure transition functions.
  - `Notify` is `handle_notification`.
  - `Key` is one character read by `keypress_monitor`; `Keys` is a sequence of such characters.
  - What the state holds:
    - the module globals;
    - the loop locals (`buffer`, the command/name mode, and the `input()` prompt after `e`);
    - the session files, as a map from path to rows;
    - the messages written to the device;
    - the plots saved;
    - the terminal output, as a log of `Output` values;
    - whether the process still runs.
  - Lemmas prove the invariant `Inv`:
    - every file is a header followed by readings;
    - the current file's readings are `recorded_data`'s;
    - `recording` equals `session_started`;
    - the deques have equal length.
  - Lemmas prove the consistency of the two deques with the history of parsed readings (`Consistent`).
- **`SessionProperties`** — properties of single steps and of typed scenarios.
- **`LiveRecorder.Recorder`** — the program as it runs, as a class.
  - The globals and loop locals are fields, updated in place.
  - Each method ensures that its new state is the state the specification function gives, applied to the old state. So every property proved about `Notify` and `Key` holds of the object, for any interleaving of notifications and key presses.
  - `Monitor` is the `while` loop over the characters read.

Parameters stand in for effects outside the core:

- Python's `float()` is `parse: string -> Option<real>`.
- The formatted clock reading is `timestamp: string`.
- `canOpen: string -> bool` says which session files the file system lets the program create.
- `client: bool` says whether a device connection is held.

Readings are `real`, so the `0.92` comparison is exact.

Where the code's behaviour may surprise a reader, the model follows the code:

- The threshold is computed from the window **before** the new reading is appended (lines 43 and 48 run before line 51). A steady 10 followed by a 5 therefore meets a threshold of 9.2 (`DropAfterSteadySignal`).
- `start` is not refused while a session is recording. It asks for a new name, and the new file then replaces the old one as the writer's target.
- `e` does not close the session file, and leaves the writer pointing at it. After `e`, readings still join `recorded_data`, but no rows are written.
- A session file that cannot be opened raises out of the loop, which ends the process (`OpenFailed`). The loop ends there.
- `e` and `q` typed in command mode are appended to the buffer (line 99) before they trigger (line 120). Typed in a session name, they trigger nothing.
- Nothing clears the buffer after `e` (lines 120-144). So after the y/n prompt, typing `start` and newline as the hint at line 142 says reports the unknown command `estart` (`StartAfterEnd`).

## Model

| member | source | states |
|---|---|---|
| PyText.IsSpace | liveCSVble.py:34 | no contract; the characters `str.isspace()` holds for, which `strip()` removes at lines 34, 91, 103 and 140; see StripSpec, StripUnique |
| PyText.Strip | liveCSVble.py:34 | the stripped string is never longer than the input |
| PyText.StripSpec | liveCSVble.py:34 | `Strip(s)` is a piece of `s` with only whitespace around it, and neither end of it is whitespace |
| PyText.StripUnique | liveCSVble.py:91 | any non-whitespace-ended piece of `s` surrounded by whitespace only is `Strip(s)` |
| PyText.StripUnpadded | liveCSVble.py:103 | a name without whitespace at either end is kept as it is |
| PyText.StripIdempotent | liveCSVble.py:103 | stripping a stripped string changes nothing |
| PyText.Lower | liveCSVble.py:93 | lowering keeps the length and maps each character through the ASCII lower-case map |
| PyText.LowerUnchanged | liveCSVble.py:93 | a string without upper-case ASCII letters is its own lower-cased form |
| PyText.LowerCharTo | liveCSVble.py:93 | a character lowers to the letter `l` iff it is `l` or its upper-case form |
| PyText.LowerIsStart | liveCSVble.py:93 | `command.lower() == "start"` iff the command is five characters spelling `start` in any letter case |
| RollingWindow.DequeAppend | liveCSVble.py:25-26 | appending to a `deque(maxlen=n)` keeps at most `n` elements, evicts exactly the oldest when full, and puts the new element last |
| RollingWindow.LastN | liveCSVble.py:25 | the last `n` elements of a sequence: length `min(n, len)`, aligned with its end |
| RollingWindow.LastNAppend | liveCSVble.py:51-52 | a deque that holds the last 200 elements of a history, after an append, holds the last 200 of the longer history |
| RollingWindow.Sum | liveCSVble.py:43 | no contract; `sum(window)` (also line 48); see Threshold, SteadyThreshold |
| RollingWindow.Threshold | liveCSVble.py:43 | no contract; `sum(window) / len(window) * 0.92`, or 0 on an empty window (also line 48); see LabelIsBelowBaseline, SteadyThreshold |
| RollingWindow.Label | liveCSVble.py:44 | no contract; `1 if value < threshold else 0` (also line 49); see LabelIsBelowBaseline, DropAfterSteadySignal |
| RollingWindow.LabelIsBelowBaseline | liveCSVble.py:48-49 | the label is 1 iff `value * len(window) < 0.92 * sum(window)`; on an empty window iff the value is negative |
| RollingWindow.SteadyThreshold | liveCSVble.py:43 | on a steady signal of level `c` the threshold is `0.92 * c` |
| RollingWindow.Labels | liveCSVble.py:48-52 | one label per reading of the history |
| RollingWindow.LabelsAt | liveCSVble.py:48-49 | the label of reading `j` is computed against the last 200 readings before it |
| RollingWindow.WindowAligned | liveCSVble.py:48-52 | element `i` of the touch window is the label computed for element `i` of the value window when it arrived |
| RollingWindow.DropAfterSteadySignal | liveCSVble.py:43-52 | readings 10, 10, 10, 10, 5 are labelled 0, 0, 0, 0, 1; the threshold before the 5 is 9.2 |
| LiveSession.Initial | liveCSVble.py:18-26 | no contract; the globals of lines 18-26, the loop locals of lines 82-83 and the welcome line of line 78; see InitialInv |
| LiveSession.SessionPath | liveCSVble.py:108 | no contract; the file name `data/session_<name>.csv`; see NameLine, TypeName |
| LiveSession.PlotPath | liveCSVble.py:136 | no contract; the plot name `data/session_<name>.png`; see EndKey |
| LiveSession.WriteRow | liveCSVble.py:45 | no contract; `csv_writer.writerow` appends one row to the writer's file; see ParsedReading |
| LiveSession.Send | liveCSVble.py:114-115 | no contract; `write_gatt_char` only when a client is held (also lines 123-124 and 133-134); see NameLine, EndKey, QuitKey |
| LiveSession.EchoMessage | liveCSVble.py:35-36 | no contract; the `[BLE]` echo while a session is started; see UnparsedChangesNothing, ParsedReading |
| LiveSession.RecordReading | liveCSVble.py:39-45 | no contract; the reading joins `recorded_data` and, while recording, becomes a labelled row; see ParsedReading, NotifyInv |
| LiveSession.PushReading | liveCSVble.py:48-52 | no contract; the label against the old window and the two bounded appends; see NotifyWindow, NotifyConsistent |
| LiveSession.Notify | liveCSVble.py:32-52 | no contract; `handle_notification`; see NotifyInv, NotifyWindow, NotifyConsistent, ParsedReading, UnparsedChangesNothing, NoRowsWhileNotRecording |
| LiveSession.TakeName | liveCSVble.py:103-107 | no contract; the stripped buffer becomes the name, the buffer is cleared and `recorded_data` emptied; see NameLine |
| LiveSession.CreateSessionFile | liveCSVble.py:108-115 | no contract; the truncated header-only file, the writer, the flags and `session_on`, or the failed open; see NameLine, StartSessionInv |
| LiveSession.StartSession | liveCSVble.py:102-115 | no contract; the name-mode newline; see NameLine, TypeName, StartSessionInv |
| LiveSession.Assemble | liveCSVble.py:88-118 | no contract; line assembly in command and name mode; see CommandCharacter, CommandLine, NameCharacter, NameLine, AssembleInv, AssembleFrame |
| LiveSession.EndRecording | liveCSVble.py:130-139 | no contract; `e` while recording; see EndKey |
| LiveSession.Trigger | liveCSVble.py:120-144 | no contract; the `e` and `q` triggers; see EndKey, QuitKey, TriggerInv, TriggerFrame |
| LiveSession.Answer | liveCSVble.py:140-144 | no contract; a character of the y/n prompt's line; see AnswerLine |
| LiveSession.Key | liveCSVble.py:85-144 | no contract; one pass of `keypress_monitor`'s loop; see KeyInv, KeyKeepsWindow, KeyKeepsFiles, KeyWritesNoReadings and the step lemmas |
| LiveSession.Keys | liveCSVble.py:84-146 | no contract; the loop over a sequence of characters; see KeysInv, KeysSnoc, KeysConcat, KeysUntilStopped, StoppedStaysStopped |
| LiveSession.Echoes | liveCSVble.py:100 | one echo per typed character, in order |
| LiveSession.InitialInv | liveCSVble.py:18-26 | the initial globals satisfy the invariant and hold an empty window |
| LiveSession.NotifyInv | liveCSVble.py:32-52 | a notification preserves the invariant: the current file's readings stay `recorded_data`'s, every file stays well formed, the deques stay equal in length |
| LiveSession.NotifyWindow | liveCSVble.py:48-52 | a parsed reading is appended to the value deque and its label, against the window before the append, to the touch deque; otherwise both deques are unchanged |
| LiveSession.NotifyConsistent | liveCSVble.py:41-52 | after a notification the deques hold the last 200 parsed readings and their labels, the history extended by the new reading if it parsed |
| LiveSession.StartSessionInv | liveCSVble.py:102-115 | opening a session preserves the invariant |
| LiveSession.AssembleInv | liveCSVble.py:88-118 | line assembly preserves the invariant |
| LiveSession.TriggerInv | liveCSVble.py:120-144 | the `e` and `q` triggers preserve the invariant |
| LiveSession.KeyInv | liveCSVble.py:85-144 | one character step preserves the invariant |
| LiveSession.TriggerFrame | liveCSVble.py:120-144 | `e` and `q` change neither the files, the writer, `recorded_data` nor the deques |
| LiveSession.AssembleFrame | liveCSVble.py:88-118 | line assembly keeps the deques; outside the newline that ends a session name it keeps the files, the writer and `recorded_data` |
| LiveSession.KeyKeepsWindow | liveCSVble.py:85-144 | typing never changes the deques |
| LiveSession.KeysInv | liveCSVble.py:84-146 | any sequence of typed characters preserves the invariant |
| SessionProperties.UnparsedChangesNothing | liveCSVble.py:34-47 | a payload that does not parse changes nothing but the `[BLE]` echo, which is printed only while a session is started |
| SessionProperties.ParsedReading | liveCSVble.py:39-52 | a parsed reading extends `recorded_data` by exactly one pair and both deques by one (evicting the oldest when full); it is labelled against the old window; a row is written iff recording, and its touch is the label appended to the touch deque; the `[BLE]` echo is printed iff a session is started; nothing else changes |
| SessionProperties.WindowMatchesHistory | liveCSVble.py:25-26 | `len(live_values) == len(live_touch) == min(200, readings so far)`; element `i` is the matching reading, and its label was computed when it arrived |
| SessionProperties.NoRowsWhileNotRecording | liveCSVble.py:42-45 | with recording off, a notification writes no row |
| SessionProperties.CommandCharacter | liveCSVble.py:98-100 | in command mode every non-newline character, `e` and `q` included, is buffered and echoed first; apart from `e` (prompt) and `q` (quit) nothing else happens |
| SessionProperties.CommandLine | liveCSVble.py:89-97 | a newline in command mode clears the buffer; it enters name mode iff the stripped, lower-cased line is `start`, otherwise it reports the unknown command; nothing else changes |
| SessionProperties.NameCharacter | liveCSVble.py:116-118 | in name mode any non-newline character, `e` and `q` included, only extends the name |
| SessionProperties.NameLine | liveCSVble.py:102-115 | a newline in name mode takes the stripped buffer as the name, clears the buffer, returns to command mode, empties `recorded_data`, creates the file with only the header, sets recording and `session_started`, and sends `session_on`; if the file cannot be opened the process ends with the files untouched |
| SessionProperties.StartWhileRecording | liveCSVble.py:93-95 | `start` (any letter case) while recording asks for a name and keeps recording into the current file |
| SessionProperties.EndKey | liveCSVble.py:128-144 | `e` stops a running recording, sends `session_off` and saves the plot, but keeps the file and the writer; with no recording it changes no flag and sends nothing; the terminal shows the echo, "Ending session...", the stop and plot lines iff recording, and the y/n prompt, which takes the next line |
| SessionProperties.QuitKey | liveCSVble.py:121-127 | `q` sends `session_off` and ends the process, with the files untouched; the terminal shows the echo and "Exiting..." |
| SessionProperties.AnswerLine | liveCSVble.py:140-144 | the line typed at the y/n prompt changes no session state and returns to command mode at its newline |
| SessionProperties.KeyWritesNoReadings | liveCSVble.py:101-115 | typing never adds a reading to any file and never deletes a file: a step either keeps all files or truncates the one file named by the stripped buffer to a fresh header, dropping any readings it held |
| SessionProperties.KeyKeepsFiles | liveCSVble.py:88-144 | only a newline in name mode changes the files or the writer |
| SessionProperties.StoppedStaysStopped | liveCSVble.py:127 | once the process has ended, further characters change nothing |
| SessionProperties.StoppedIgnoresNotification | liveCSVble.py:127 | once the process has ended, a notification changes nothing |
| SessionProperties.KeysUntilStopped | liveCSVble.py:84-127 | when the loop stops before the end of the input because the process has ended, the rest of the input changes nothing |
| SessionProperties.KeysSnoc | liveCSVble.py:84-86 | reading one more character is one more step |
| SessionProperties.KeysConcat | liveCSVble.py:84-86 | reading two stretches of characters is reading the first, then the second |
| SessionProperties.TypeWord | liveCSVble.py:98-100 | a word without newline (and, in command mode, without `e` or `q`) is only buffered and echoed |
| SessionProperties.TypeLine | liveCSVble.py:88-118 | a word and a newline: the newline meets the buffered word |
| SessionProperties.StartWord | liveCSVble.py:91-93 | the word `start` holds no trigger character and is its own stripped, lower-cased form |
| SessionProperties.TypeStart | liveCSVble.py:88-95 | typing `start` (any letter case, any surrounding whitespace other than newline) and newline in command mode with an empty buffer enters name mode and prints "Enter session name:", changing nothing else |
| SessionProperties.StartAfterEnd | liveCSVble.py:99-142 | with the `e` of the prompt still in the buffer, typing `start` and newline reports the unknown command `estart` and stays in command mode, changing nothing else |
| SessionProperties.TypeName | liveCSVble.py:101-115 | typing a name (no newline in it, no whitespace at either end) and newline in name mode, from an empty buffer and when the file can be opened, starts recording into `data/session_<name>.csv`, holding only the header |
| SessionProperties.StartDemo | liveCSVble.py:88-115 | from the initial state, `start`, newline, `demo`, newline gives a recording session `demo` with the file `data/session_demo.csv` holding only the header, and one `session_on` sent |
| SessionProperties.QuitBeforeStart | liveCSVble.py:120-127 | `q` before any session sends one `session_off`, ends the process and leaves no file |
| LiveRecorder.Recorder.constructor | liveCSVble.py:18-26 | the initial globals, an empty window and the welcome line; the invariant holds |
| LiveRecorder.Recorder.HandleNotification | liveCSVble.py:32-52 | the object's new state is `Notify` of its old state; the invariant and the window's consistency with the readings so far are kept |
| LiveRecorder.Recorder.PrintMessage | liveCSVble.py:35-36 | the `[BLE]` echo, printed only while a session is started |
| LiveRecorder.Recorder.RecordValue | liveCSVble.py:41-45 | `recorded_data` grows by the reading, and a labelled row is written while recording |
| LiveRecorder.Recorder.PushValue | liveCSVble.py:48-52 | the label against the old window, and the appends to both deques |
| LiveRecorder.Recorder.Transmit | liveCSVble.py:114-115 | a control message is sent when a client is connected |
| LiveRecorder.Recorder.KeyPress | liveCSVble.py:85-144 | the object's new state is `Key` of its old state; the invariant is kept and the window is untouched |
| LiveRecorder.Recorder.AnswerPrompt | liveCSVble.py:140-144 | a character of the y/n prompt's line |
| LiveRecorder.Recorder.AssembleLine | liveCSVble.py:88-118 | line assembly in command and name mode |
| LiveRecorder.Recorder.TakeSessionName | liveCSVble.py:103-107 | the name is taken from the buffer and `recorded_data` is emptied |
| LiveRecorder.Recorder.OpenSessionFile | liveCSVble.py:108-115 | the file is created with its header, recording starts and `session_on` is sent, or the process ends if it cannot be opened |
| LiveRecorder.Recorder.CheckTrigger | liveCSVble.py:120-144 | the `e` and `q` triggers |
| LiveRecorder.Recorder.StopRecording | liveCSVble.py:130-139 | recording stops, `session_off` is sent and the plot is saved |
| LiveRecorder.Recorder.MonitorStep | liveCSVble.py:85-144 | one more character read extends the run of `Keys` by one step |
| LiveRecorder.Recorder.Monitor | liveCSVble.py:84-146 | the loop's final state is `Keys` of the characters read; it stops early only when the process has ended, and then the remaining characters change nothing |

## Left out

- Bluetooth transport: `find_arduino`, `run`, and the `BleakClient`/`BleakScanner` calls are foreign asynchronous calls. Writing to the device's characteristic is the log `sent`, and the connection is the flag `client`. `ble_recieve.py` and `ble_send.py` are not part of this model; they hold transport code only.
- Terminal handling: `termios`, `tty`, `select`, `is_key_pressed` and `read_key` are operating-system capabilities. The loop consumes a given sequence of characters.
- Cooperative scheduling: `asyncio.sleep` and the interleaving of notifications at `await` points. The class allows any interleaving of whole notifications and whole key presses, but does not model a notification landing inside the `await client.write_gatt_char(...)` of a key press.
- Plotting: `update_plot`, `plt.pause`, `plt.savefig` and matplotlib are rendering libraries. A saved plot is only its path, appended to `plots`.
- The clock: `datetime.now()` formatting is the `timestamp` parameter.
- Number parsing: `float()` is the `parse` parameter. IEEE rounding, NaN and infinities are not modelled, because readings are exact reals.
- UTF-8 decoding of the payload: the message arrives as a decoded string. A payload that fails to decode raises `UnicodeDecodeError`, which is not modelled.
- Text: Python's `str.lower()` is modelled on ASCII letters only; every other character is kept as it is.
- Files: `os.makedirs`, file buffering and `session_file.close()` in `run`'s `finally` are left out. A file is the sequence of rows written to it, and opening with `'w'` truncates it. Files are told apart by string equality of their paths `data/session_<name>.csv`, so two names the file system resolves to the same file (such as `Demo` and `demo` on a case-insensitive volume, or a name containing `..`) are two files in the model. Rows still buffered when `os._exit(0)` ends the process are not modelled as lost.
- Terminal output: the text printed is a log of `Output` values, one per `print` of the core, not a character stream. The `print` calls of `run` and `find_arduino` are left out together with those functions.
- `LiveRecorder.Recorder.Monitor`: the source's `while True` loop never returns, and `os._exit(0)` ends it instead. The model reads a finite sequence of characters and stops when it is used up.
