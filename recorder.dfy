/**
 * liveCSVble.py as the program runs it: the module globals and the locals of
 * `keypress_monitor`'s loop are the fields of one object, updated in place by
 * the notification handler and by each character the operator loop reads.
 * Every method is tied to the value-level specification in LiveSession, so
 * everything proved there about Notify and Key holds of this object, for any
 * interleaving of notifications and key presses.
 */
module LiveRecorder {
  import opened Wrappers
  import opened PyText
  import opened RollingWindow
  import opened LiveSession
  import SessionProperties

  /** The module globals shared by the notification handler and the loop. */
  datatype Globals = Globals(recording: bool, sessionStarted: bool, recordedData: seq<(string, real)>,
                             sessionName: string, writer: Option<string>)

  /** The two `deque(maxlen=200)` objects. */
  datatype Window = Window(values: Deque<real>, touch: Deque<Bit>)

  /** The locals of `keypress_monitor`'s loop. */
  datatype Line = Line(buffer: string, mode: Mode, answer: string)

  /** What the process leaves outside itself: files, device messages, saved
      plots, terminal output, and whether it still runs. */
  datatype World = World(files: map<string, seq<Row>>, sent: seq<Control>, plots: seq<string>,
                         display: seq<Output>, status: Status)

  class Recorder {
    var session: Globals
    var live: Window
    var line: Line
    var world: World
    const client: bool

    /** Every reading parsed so far, oldest first. */
    ghost var history: seq<real>

    function Abs(): State
      reads this
    {
      State(session.recording, session.sessionStarted, session.recordedData, session.sessionName,
            session.writer, world.files, live.values, live.touch, client,
            line.buffer, line.mode, line.answer, world.sent, world.plots, world.display, world.status)
    }

    ghost predicate Valid()
      reads this
    {
      Inv(Abs()) && Consistent(Abs(), history)
    }

    constructor (client: bool)
      ensures Valid() && Abs() == Initial(client) && history == []
    {
      session := Globals(false, false, [], "", None);
      live := Window([], []);
      line := Line("", Command, "");
      world := World(map[], [], [], [Welcome], Running);
      this.client := client;
      history := [];
      InitialInv(client);
    }

    /** `handle_notification`: `message` is the decoded payload, `timestamp`
        the formatted clock reading and `parse` Python's `float()`. */
    method HandleNotification(message: string, timestamp: string, parse: string -> Option<real>)
      requires Valid()
      modifies this
      ensures Valid()
      ensures Abs() == Notify(old(Abs()), message, timestamp, parse)
      ensures history == old(history) + Accepted(old(Abs()), message, parse)
    {
      ghost var s := Abs();
      ghost var h := history;
      if !world.status.Running? {
        NotifyConsistent(s, h, message, timestamp, parse);
        return;
      }
      var msg := Strip(message);
      PrintMessage(msg);
      var parsed := parse(msg);
      if parsed.None? {
        NotifyInv(s, message, timestamp, parse);
        NotifyConsistent(s, h, message, timestamp, parse);
        return;
      }
      var value := parsed.value;
      RecordValue(timestamp, value);
      PushValue(value);
      NotifyInv(s, message, timestamp, parse);
      NotifyConsistent(s, h, message, timestamp, parse);
    }

    /** The echo of the stripped message. */
    method PrintMessage(msg: string)
      modifies this
      ensures Abs() == EchoMessage(old(Abs()), msg) && history == old(history)
    {
      if session.sessionStarted {
        world := world.(display := world.display + [Ble(msg)]);
      }
    }

    /** The rest of the `try` block once `float` succeeded. */
    method RecordValue(timestamp: string, value: real)
      modifies this
      ensures Abs() == RecordReading(old(Abs()), timestamp, value) && history == old(history)
    {
      session := session.(recordedData := session.recordedData + [(timestamp, value)]);
      if session.recording && session.writer.Some? {
        var threshold := Threshold(live.values);
        var touch: Bit := if value < threshold then 1 else 0;
        world := world.(files := WriteRow(world.files, session.writer.value, Reading(timestamp, value, touch)));
      }
    }

    /** The label computed once more, and the appends to both deques. */
    method PushValue(value: real)
      modifies this
      ensures Abs() == PushReading(old(Abs()), value) && history == old(history) + [value]
    {
      var threshold := Threshold(live.values);
      var touch: Bit := if value < threshold then 1 else 0;
      live := Window(DequeAppend(live.values, value, MaxLen), DequeAppend(live.touch, touch, MaxLen));
      history := history + [value];
    }

    /** `client.write_gatt_char(...)` when a client is connected. */
    method Transmit(m: Control)
      modifies this
      ensures Abs() == old(Abs()).(sent := Send(old(Abs()), m)) && history == old(history)
    {
      if client {
        world := world.(sent := world.sent + [m]);
      }
    }

    /** One pass of `keypress_monitor`'s loop that reads the character `c`;
        `canOpen` says which session files the file system lets it create. */
    method KeyPress(c: char, canOpen: string -> bool)
      requires Valid()
      modifies this
      ensures Valid()
      ensures Abs() == Key(old(Abs()), c, canOpen)
      ensures history == old(history)
    {
      ghost var s := Abs();
      if !world.status.Running? {
        return;
      }
      if line.mode == Answering {
        AnswerPrompt(c);
      } else {
        AssembleLine(c, canOpen);
        CheckTrigger(c);
      }
      assert Abs() == Key(s, c, canOpen);
      KeyInv(s, c, canOpen);
      KeyKeepsWindow(s, c, canOpen);
    }

    /** A character read by `input()` at the y/n prompt after `e`. */
    method AnswerPrompt(c: char)
      requires line.mode == Answering
      modifies this
      ensures Abs() == Answer(old(Abs()), c) && history == old(history)
    {
      if c == '\n' {
        var reply := Lower(Strip(line.answer));
        world := world.(display := world.display + [if reply == "y" then StartHint else NoActiveRecording]);
        line := line.(mode := Command, answer := "");
      } else {
        line := line.(answer := line.answer + [c]);
      }
    }

    /** Line assembly in command mode and in name mode. */
    method AssembleLine(c: char, canOpen: string -> bool)
      requires line.mode != Answering
      modifies this
      ensures Abs() == Assemble(old(Abs()), c, canOpen) && history == old(history)
    {
      if c != '\n' {
        line := line.(buffer := line.buffer + [c]);
        world := world.(display := world.display + [Echo(c)]);
      } else if line.mode == Command {
        world := world.(display := world.display + [Blank]);
        var command := Strip(line.buffer);
        line := line.(buffer := "");
        if Lower(command) == "start" {
          line := line.(mode := Naming);
          world := world.(display := world.display + [EnterName]);
        } else {
          world := world.(display := world.display + [UnknownCommand(command)]);
        }
      } else {
        TakeSessionName();
        OpenSessionFile(canOpen);
      }
    }

    /** Name mode, newline: the name is taken from the buffer. */
    method TakeSessionName()
      modifies this
      ensures Abs() == TakeName(old(Abs())) && history == old(history)
    {
      session := session.(sessionName := Strip(line.buffer));
      line := line.(buffer := "", mode := Command);
      session := session.(recordedData := []);
    }

    /** Creating the session file and starting the recording. */
    method OpenSessionFile(canOpen: string -> bool)
      modifies this
      ensures Abs() == CreateSessionFile(old(Abs()), canOpen) && history == old(history)
    {
      var path := SessionPath(session.sessionName);
      if !canOpen(path) {
        world := world.(status := OpenFailed(path));
        return;
      }
      world := world.(files := world.files[path := [Header]]);
      session := session.(writer := Some(path), recording := true, sessionStarted := true);
      Transmit(SessionOn);
    }

    /** The `e` and `q` triggers, checked once the character is assembled. */
    method CheckTrigger(c: char)
      modifies this
      ensures Abs() == Trigger(old(Abs()), c) && history == old(history)
    {
      if line.mode == Command && (c == 'e' || c == 'q') {
        if c == 'q' {
          world := world.(display := world.display + [Exiting]);
          Transmit(SessionOff);
          world := world.(status := Quit);
        } else {
          world := world.(display := world.display + [Ending]);
          if session.recording {
            StopRecording();
          }
          world := world.(display := world.display + [AskNewSession]);
          line := line.(mode := Answering, answer := "");
        }
      }
    }

    /** `e` while recording: stop, tell the device, save the plot. */
    method StopRecording()
      modifies this
      ensures Abs() == EndRecording(old(Abs())) && history == old(history)
    {
      session := session.(recording := false, sessionStarted := false);
      Transmit(SessionOff);
      world := world.(display := world.display + [RecordingStopped]);
      var png := PlotPath(session.sessionName);
      world := world.(plots := world.plots + [png]);
      world := world.(display := world.display + [PlotSaved(png)]);
      world := world.(display := world.display + [RecordingStopped]);
    }

    /** One pass of `keypress_monitor`'s loop: the next character read after
        the characters `done`, starting from `s0`. */
    method MonitorStep(ghost s0: State, ghost done: seq<char>, c: char, canOpen: string -> bool)
      requires Valid() && Abs() == Keys(s0, done, canOpen)
      modifies this
      ensures Valid() && history == old(history)
      ensures Abs() == Keys(s0, done + [c], canOpen)
    {
      KeyPress(c, canOpen);
      SessionProperties.KeysSnoc(s0, done, c, canOpen);
    }

    /** `keypress_monitor`'s loop over the characters the operator types, in
        order, until the process ends; returns how many were read. */
    method Monitor(keys: seq<char>, canOpen: string -> bool) returns (consumed: nat)
      requires Valid()
      modifies this
      ensures Valid() && history == old(history)
      ensures Abs() == Keys(old(Abs()), keys, canOpen)
      ensures consumed <= |keys| && Abs() == Keys(old(Abs()), keys[..consumed], canOpen)
      ensures consumed < |keys| ==> !world.status.Running?
    {
      ghost var s0 := Abs();
      consumed := 0;
      while consumed < |keys| && world.status.Running?
        invariant consumed <= |keys|
        invariant Valid() && history == old(history)
        invariant Abs() == Keys(s0, keys[..consumed], canOpen)
      {
        MonitorStep(s0, keys[..consumed], keys[consumed], canOpen);
        assert keys[..consumed] + [keys[consumed]] == keys[..consumed + 1];
        consumed := consumed + 1;
      }
      SessionProperties.KeysUntilStopped(s0, keys, consumed, canOpen);
    }
  }
}
