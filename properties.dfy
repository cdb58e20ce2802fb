/**
 * What one notification and one typed character do to the process state,
 * stated about the specification in LiveSession.
 */
module SessionProperties {
  import opened Wrappers
  import opened PyText
  import opened RollingWindow
  import opened LiveSession

  // ---------------------------------------------------------------------
  // Notifications

  /** A payload that does not parse changes nothing but the echo of the
      message on the terminal (printed only while a session is started). */
  lemma UnparsedChangesNothing(s: State, message: string, timestamp: string, parse: string -> Option<real>)
    requires parse(Strip(message)).None?
    ensures var t := Notify(s, message, timestamp, parse);
            && t.(display := s.display) == s
            && t.display == (if s.status.Running? && s.sessionStarted then s.display + [Ble(Strip(message))] else s.display)
  {
  }

  /** A parsed reading is recorded once, pushed onto both deques (evicting
      the oldest entry when full), labelled against the window as it was
      before the push, and written as a row exactly when recording. */
  lemma ParsedReading(s: State, message: string, timestamp: string, parse: string -> Option<real>)
    requires Inv(s) && s.status.Running? && parse(Strip(message)).Some?
    ensures var v := parse(Strip(message)).value;
            var t := Notify(s, message, timestamp, parse);
            && t.recordedData == s.recordedData + [(timestamp, v)]
            && |t.liveValues| == |t.liveTouch| == Min(MaxLen, |s.liveValues| + 1)
            && t.liveValues[|t.liveValues| - 1] == v
            && t.liveTouch[|t.liveTouch| - 1] == Label(v, s.liveValues)
            && (|s.liveValues| < MaxLen ==> t.liveValues == s.liveValues + [v] && t.liveTouch == s.liveTouch + [Label(v, s.liveValues)])
            && (|s.liveValues| == MaxLen ==> t.liveValues == s.liveValues[1..] + [v] && t.liveTouch == s.liveTouch[1..] + [Label(v, s.liveValues)])
            && (t.files != s.files <==> s.recording)
            && (s.recording ==>
                  t.files == s.files[s.writer.value := s.files[s.writer.value] +
                                     [Reading(timestamp, v, t.liveTouch[|t.liveTouch| - 1])]])
            && t.display == (if s.sessionStarted then s.display + [Ble(Strip(message))] else s.display)
            && t.(display := s.display, recordedData := s.recordedData, files := s.files,
                  liveValues := s.liveValues, liveTouch := s.liveTouch) == s
  {
    var v := parse(Strip(message)).value;
    var t := Notify(s, message, timestamp, parse);
    if s.recording {
      var w := s.writer.value;
      assert |t.files[w]| == |s.files[w]| + 1;
    }
  }

  /** The deques hold exactly the last `MaxLen` accepted readings; their
      length is `min(200, readings so far)`, and the touch deque holds, in
      the same positions, the labels computed when each reading arrived. */
  lemma WindowMatchesHistory(s: State, history: seq<real>, i: nat)
    requires Consistent(s, history)
    ensures |s.liveValues| == |s.liveTouch| == Min(MaxLen, |history|)
    ensures i < |s.liveValues| ==>
              var j := |history| - |s.liveValues| + i;
              && s.liveValues[i] == history[j]
              && s.liveTouch[i] == Label(history[j], LastN(history[..j], MaxLen))
  {
    if i < |s.liveValues| {
      var j := |history| - |s.liveValues| + i;
      assert s.liveValues[i] == history[j];
      WindowAligned(history, i);
    }
  }

  /** Notifications never touch the files while recording is off. */
  lemma NoRowsWhileNotRecording(s: State, message: string, timestamp: string, parse: string -> Option<real>)
    requires !s.recording
    ensures Notify(s, message, timestamp, parse).files == s.files
  {
  }

  // ---------------------------------------------------------------------
  // The operator loop

  /** In command mode every character but newline goes to the buffer and is
      echoed; apart from `e` and `q` nothing else happens (what those two
      print after their echo is stated by EndKey and QuitKey). */
  lemma CommandCharacter(s: State, c: char, canOpen: string -> bool)
    requires s.status.Running? && s.mode == Command && c != '\n'
    ensures var t := Key(s, c, canOpen);
            && t.buffer == s.buffer + [c]
            && |t.display| > |s.display| && t.display[..|s.display| + 1] == s.display + [Echo(c)]
            && (c != 'e' && c != 'q' ==> t == s.(buffer := s.buffer + [c], display := s.display + [Echo(c)]))
            && (c == 'e' ==> t.mode == Answering && t.status == Running)
            && (c == 'q' ==> t.status == Quit)
  {
  }

  /** A newline in command mode clears the buffer and enters name mode iff
      the stripped line is "start" in any letter case; otherwise it reports
      the unknown command. Nothing else changes. */
  lemma CommandLine(s: State, canOpen: string -> bool)
    requires s.status.Running? && s.mode == Command
    ensures var t := Key(s, '\n', canOpen);
            var command := Strip(s.buffer);
            && t.buffer == []
            && (t.mode == Naming <==> Lower(command) == "start")
            && (t.mode != Naming ==> t.mode == Command &&
                                     t.display == s.display + [Blank, UnknownCommand(command)])
            && (t.mode == Naming ==> t.display == s.display + [Blank, EnterName])
            && t.(buffer := s.buffer, mode := s.mode, display := s.display) == s
            && t == Assemble(s, '\n', canOpen)
  {
  }

  /** In name mode a character other than newline only extends the name;
      `e` and `q` typed here are part of the name and trigger nothing. */
  lemma NameCharacter(s: State, c: char, canOpen: string -> bool)
    requires s.status.Running? && s.mode == Naming && c != '\n'
    ensures Key(s, c, canOpen) == s.(buffer := s.buffer + [c], display := s.display + [Echo(c)])
  {
  }

  /** A newline in name mode opens (truncating) the session file named by the
      stripped buffer with only the header in it, points the writer at it,
      forgets the recorded data, turns recording on and sends `session_on`.
      The deques are left as they are, and so is every other file. */
  lemma NameLine(s: State, canOpen: string -> bool)
    requires s.status.Running? && s.mode == Naming
    ensures var t := Key(s, '\n', canOpen);
            var name := Strip(s.buffer);
            var path := SessionPath(name);
            && t == StartSession(s, canOpen)
            && t.sessionName == name && t.buffer == [] && t.mode == Command && t.recordedData == []
            && t.liveValues == s.liveValues && t.liveTouch == s.liveTouch
            && (canOpen(path) ==>
                  && t.status == Running
                  && t.files == s.files[path := [Header]]
                  && t.writer == Some(path)
                  && t.recording && t.sessionStarted
                  && t.sent == if s.client then s.sent + [SessionOn] else s.sent)
            && (!canOpen(path) ==>
                  t.status == OpenFailed(path) && t.files == s.files && t.writer == s.writer &&
                  t.recording == s.recording && t.sent == s.sent)
  {
  }

  /** `start` is not refused while a session is recording: the loop asks for
      a new name and keeps writing to the current file in the meantime. */
  lemma StartWhileRecording(s: State, canOpen: string -> bool)
    requires s.status.Running? && s.mode == Command && s.recording
    requires Lower(Strip(s.buffer)) == "start"
    ensures var t := Key(s, '\n', canOpen);
            t.mode == Naming && t.recording && t.writer == s.writer && t.files == s.files
  {
  }

  /** `e` in command mode stops a running recording and sends `session_off`
      (and saves the plot), but leaves the file and the writer alone; with no
      recording running it changes no flag and sends nothing. Either way the
      `e` stays in the buffer and the next line answers the y/n prompt. */
  lemma EndKey(s: State, canOpen: string -> bool)
    requires s.status.Running? && s.mode == Command
    ensures var t := Key(s, 'e', canOpen);
            && t.status == Running && t.mode == Answering && t.answer == []
            && t.buffer == s.buffer + ['e']
            && !t.recording && t.sessionStarted == (s.sessionStarted && !s.recording)
            && t.files == s.files && t.writer == s.writer
            && (s.recording ==> t.sent == (if s.client then s.sent + [SessionOff] else s.sent) &&
                                t.plots == s.plots + [PlotPath(s.sessionName)])
            && (!s.recording ==> t.sent == s.sent && t.plots == s.plots && t.sessionStarted == s.sessionStarted)
            && t.display == s.display + [Echo('e'), Ending] +
                            (if s.recording then [RecordingStopped, PlotSaved(PlotPath(s.sessionName)), RecordingStopped] else []) +
                            [AskNewSession]
  {
  }

  /** `q` in command mode sends `session_off` and ends the process, whether
      or not a session is recording, without touching the files. */
  lemma QuitKey(s: State, canOpen: string -> bool)
    requires s.status.Running? && s.mode == Command
    ensures var t := Key(s, 'q', canOpen);
            && t.status == Quit
            && t.sent == (if s.client then s.sent + [SessionOff] else s.sent)
            && t.files == s.files && t.recording == s.recording && t.buffer == s.buffer + ['q']
            && t.display == s.display + [Echo('q'), Exiting]
  {
  }

  /** The line typed at the y/n prompt is consumed by the prompt alone: it
      changes neither the buffer nor any session state. */
  lemma AnswerLine(s: State, c: char, canOpen: string -> bool)
    requires s.status.Running? && s.mode == Answering
    ensures var t := Key(s, c, canOpen);
            && t.(mode := s.mode, answer := s.answer, display := s.display) == s
            && (c == '\n' <==> t.mode == Command)
            && (c != '\n' ==> t.answer == s.answer + [c])
  {
  }

  /** Typing never adds a reading to any file: a step at most replaces one
      file by a fresh header. */
  lemma KeyWritesNoReadings(s: State, c: char, canOpen: string -> bool)
    ensures var t := Key(s, c, canOpen);
            && (forall p :: p in t.files ==> (p in s.files && t.files[p] == s.files[p]) || t.files[p] == [Header])
            && (t.files == s.files || t.files == s.files[SessionPath(Strip(s.buffer)) := [Header]])
  {
    if s.status.Running? && s.mode == Naming && c == '\n' {
      NameLine(s, canOpen);
    } else {
      KeyKeepsFiles(s, c, canOpen);
    }
  }

  /** Only a newline in name mode touches the files or the writer. */
  lemma KeyKeepsFiles(s: State, c: char, canOpen: string -> bool)
    requires !(s.status.Running? && s.mode == Naming && c == '\n')
    ensures Key(s, c, canOpen).files == s.files && Key(s, c, canOpen).writer == s.writer
  {
    if s.status.Running? && s.mode != Answering {
      var a := Assemble(s, c, canOpen);
      assert a.files == s.files && a.writer == s.writer by { AssembleFrame(s, c, canOpen); }
      assert Key(s, c, canOpen) == Trigger(a, c);
      TriggerFrame(a, c);
    }
  }

  /** Once the process has ended, further keys do nothing (and neither does
      a notification, as `Notify` returns a stopped state unchanged). */
  lemma {:induction false} StoppedStaysStopped(s: State, keys: seq<char>, canOpen: string -> bool)
    requires !s.status.Running?
    ensures Keys(s, keys, canOpen) == s
    decreases |keys|
  {
    if keys != [] {
      StoppedStaysStopped(s, keys[..|keys| - 1], canOpen);
    }
  }

  /** Once the process has ended, a notification does nothing either. */
  lemma StoppedIgnoresNotification(s: State, message: string, timestamp: string, parse: string -> Option<real>)
    requires !s.status.Running?
    ensures Notify(s, message, timestamp, parse) == s
  {
  }

  /** The operator loop stops early only once the process has ended, and then
      the rest of the keys change nothing. */
  lemma KeysUntilStopped(s: State, keys: seq<char>, n: nat, canOpen: string -> bool)
    requires n <= |keys|
    requires n < |keys| ==> !Keys(s, keys[..n], canOpen).status.Running?
    ensures Keys(s, keys, canOpen) == Keys(s, keys[..n], canOpen)
  {
    if n < |keys| {
      StoppedStaysStopped(Keys(s, keys[..n], canOpen), keys[n..], canOpen);
      assert keys[..n] + keys[n..] == keys;
      KeysConcat(s, keys[..n], keys[n..], canOpen);
    } else {
      assert keys[..n] == keys;
    }
  }

  /** Feeding one more key. */
  lemma KeysSnoc(s: State, keys: seq<char>, c: char, canOpen: string -> bool)
    ensures Keys(s, keys + [c], canOpen) == Key(Keys(s, keys, canOpen), c, canOpen)
  {
    assert (keys + [c])[..|keys|] == keys;
  }

  /** Feeding two stretches of keys one after the other. */
  lemma {:induction false} KeysConcat(s: State, a: seq<char>, b: seq<char>, canOpen: string -> bool)
    ensures Keys(s, a + b, canOpen) == Keys(Keys(s, a, canOpen), b, canOpen)
    decreases |b|
  {
    if b == [] {
      assert a + b == a;
    } else {
      var b' := b[..|b| - 1];
      assert (a + b)[..|a + b| - 1] == a + b';
      KeysConcat(s, a, b', canOpen);
    }
  }

  /** A word without newline is only buffered and echoed, in command mode
      as long as it holds no `e` or `q`, in name mode whatever it holds. */
  lemma {:induction false} TypeWord(s: State, w: string, canOpen: string -> bool)
    requires s.status.Running? && s.mode != Answering
    requires forall i :: 0 <= i < |w| ==> w[i] != '\n'
    requires s.mode == Command ==> forall i :: 0 <= i < |w| ==> w[i] != 'e' && w[i] != 'q'
    ensures Keys(s, w, canOpen) == s.(buffer := s.buffer + w, display := s.display + Echoes(w))
    decreases |w|
  {
    if w != [] {
      var w' := w[..|w| - 1];
      TypeWord(s, w', canOpen);
      assert s.buffer + w' + [w[|w| - 1]] == s.buffer + w;
      assert s.display + Echoes(w') + [Echo(w[|w| - 1])] == s.display + Echoes(w);
    }
  }

  /** A word and newline: the newline meets the buffered, echoed word. */
  lemma TypeLine(s: State, w: string, canOpen: string -> bool)
    requires s.status.Running? && s.mode != Answering
    requires forall i :: 0 <= i < |w| ==> w[i] != '\n'
    requires s.mode == Command ==> forall i :: 0 <= i < |w| ==> w[i] != 'e' && w[i] != 'q'
    ensures Keys(s, w + "\n", canOpen) ==
            Key(s.(buffer := s.buffer + w, display := s.display + Echoes(w)), '\n', canOpen)
  {
    assert Keys(s, w + "\n", canOpen) == Key(Keys(s, w, canOpen), '\n', canOpen) by {
      KeysSnoc(s, w, '\n', canOpen);
    }
    TypeWord(s, w, canOpen);
  }

  // ---------------------------------------------------------------------
  // Scenarios

  /** The word `start` triggers nothing while typed and is its own
      stripped, lower-cased form. */
  lemma StartWord(w: string)
    requires |w| == 5 && w[0] == 's' && w[1] == 't' && w[2] == 'a' && w[3] == 'r' && w[4] == 't'
    ensures forall i :: 0 <= i < |w| ==> w[i] != '\n' && w[i] != 'e' && w[i] != 'q'
    ensures Lower(Strip(w)) == "start"
  {
    forall i | 0 <= i < |w| ensures w[i] != '\n' && w[i] != 'e' && w[i] != 'q' {
      assert i == 0 || i == 1 || i == 2 || i == 3 || i == 4;
    }
    assert Strip(w) == w by {
      assert Unpadded(w) by { assert !IsSpace(w[0]) && !IsSpace(w[4]); }
      StripUnpadded(w);
    }
    assert Lower(w) == w by {
      forall i | 0 <= i < |w| ensures !('A' <= w[i] <= 'Z') {
        assert i == 0 || i == 1 || i == 2 || i == 3 || i == 4;
      }
      LowerUnchanged(w);
    }
    assert w == "start" by { SpellsStart(w); }
  }

  /** Typing `start` (in any letter case, with any surrounding whitespace)
      and newline in command mode with an empty buffer enters name mode. */
  lemma TypeStart(s: State, w: string, canOpen: string -> bool)
    requires s.status.Running? && s.mode == Command && s.buffer == []
    requires forall i :: 0 <= i < |w| ==> w[i] != '\n' && w[i] != 'e' && w[i] != 'q'
    requires Lower(Strip(w)) == "start"
    ensures var t := Keys(s, w + "\n", canOpen);
            && t.mode == Naming && t.buffer == [] && t.display == s.display + Echoes(w) + [Blank, EnterName]
            && t.(mode := s.mode, display := s.display) == s
  {
    var s1 := s.(buffer := w, display := s.display + Echoes(w));
    assert Keys(s, w + "\n", canOpen) == Key(s1, '\n', canOpen) by {
      assert s.buffer + w == w;
      TypeLine(s, w, canOpen);
    }
    CommandLine(s1, canOpen);
  }

  /** `e` followed by `start` is its own stripped form and is not the
      command `start`. */
  lemma EStartWord(w: string)
    requires |w| == 5 && w[0] == 's' && w[1] == 't' && w[2] == 'a' && w[3] == 'r' && w[4] == 't'
    ensures Strip(['e'] + w) == ['e'] + w && Lower(['e'] + w) != "start"
  {
    var line := ['e'] + w;
    assert Unpadded(line) by { assert !IsSpace(line[0]) && !IsSpace(line[5]); }
    StripUnpadded(line);
    assert |Lower(line)| == 6;
  }

  /** The `e` that opened the y/n prompt is still in the buffer once the
      prompt is answered, so typing `start` and newline next, as the hint
      printed for `y` says, reports the unknown command `estart` instead of
      asking for a session name. */
  lemma StartAfterEnd(s: State, w: string, canOpen: string -> bool)
    requires s.status.Running? && s.mode == Command && s.buffer == ['e']
    requires |w| == 5 && w[0] == 's' && w[1] == 't' && w[2] == 'a' && w[3] == 'r' && w[4] == 't'
    ensures var t := Keys(s, w + "\n", canOpen);
            && t.mode == Command && t.buffer == []
            && t.display == s.display + Echoes(w) + [Blank, UnknownCommand(['e'] + w)]
            && t.(buffer := s.buffer, display := s.display) == s
  {
    var s1 := s.(buffer := ['e'] + w, display := s.display + Echoes(w));
    assert Keys(s, w + "\n", canOpen) == Key(s1, '\n', canOpen) by {
      StartWord(w);
      TypeLine(s, w, canOpen);
    }
    assert Strip(s1.buffer) == s1.buffer && Lower(s1.buffer) != "start" by { EStartWord(w); }
    CommandLine(s1, canOpen);
  }

  /** Typing a name without surrounding whitespace and newline in name mode
      with an empty buffer starts recording under that name. */
  lemma TypeName(s: State, name: string, canOpen: string -> bool)
    requires s.status.Running? && s.mode == Naming && s.buffer == []
    requires forall i :: 0 <= i < |name| ==> name[i] != '\n'
    requires Unpadded(name) && canOpen(SessionPath(name))
    ensures var t := Keys(s, name + "\n", canOpen);
            && t.sessionName == name && t.buffer == [] && t.mode == Command && t.recordedData == []
            && t.files == s.files[SessionPath(name) := [Header]] && t.writer == Some(SessionPath(name))
            && t.recording && t.sessionStarted && t.sent == Send(s, SessionOn)
            && t.status == Running && t.display == s.display + Echoes(name)
  {
    var s1 := s.(buffer := name, display := s.display + Echoes(name));
    assert Keys(s, name + "\n", canOpen) == Key(s1, '\n', canOpen) by {
      assert s.buffer + name == name;
      TypeLine(s, name, canOpen);
    }
    assert Strip(name) == name by { StripUnpadded(name); }
    NameLine(s1, canOpen);
  }

  /** The name `demo` is a valid session name. */
  lemma DemoWord(demo: string)
    requires demo == "demo"
    ensures SessionPath(demo) == "data/session_demo.csv" && Unpadded(demo)
    ensures forall i :: 0 <= i < |demo| ==> demo[i] != '\n'
  {
    assert !IsSpace(demo[0]) && !IsSpace(demo[3]);
  }

  /** `start`, newline, `demo`, newline: recording into
      data/session_demo.csv, which holds just the header, after one
      `session_on`. */
  lemma StartDemo(start: string, demo: string, canOpen: string -> bool)
    requires start == "start" && demo == "demo" && canOpen("data/session_demo.csv")
    ensures var t := Keys(Initial(true), start + "\n" + demo + "\n", canOpen);
            && t.status == Running && t.recording && t.sessionStarted && t.mode == Command
            && t.sessionName == "demo"
            && t.files == map["data/session_demo.csv" := [Header]]
            && t.writer == Some("data/session_demo.csv")
            && t.sent == [SessionOn]
  {
    var s0 := Initial(true);
    var path := "data/session_demo.csv";
    var s1 := Keys(s0, start + "\n", canOpen);
    assert && s1.status == Running && s1.mode == Naming && s1.buffer == []
           && s1.files == map[] && s1.sent == [] && s1.client by {
      StartWord(start);
      TypeStart(s0, start, canOpen);
    }
    var t := Keys(s1, demo + "\n", canOpen);
    assert && t.status == Running && t.recording && t.sessionStarted && t.mode == Command
           && t.sessionName == demo && t.files == map[path := [Header]] && t.writer == Some(path)
           && t.sent == [SessionOn] by {
      DemoWord(demo);
      TypeName(s1, demo, canOpen);
    }
    assert Keys(s0, start + "\n" + demo + "\n", canOpen) == t by {
      assert start + "\n" + demo + "\n" == (start + "\n") + (demo + "\n");
      KeysConcat(s0, start + "\n", demo + "\n", canOpen);
    }
  }

  /** `q` before any session: the process ends after one `session_off`, and
      there is no file at all. */
  lemma QuitBeforeStart(canOpen: string -> bool)
    ensures var t := Key(Initial(true), 'q', canOpen);
            t.status == Quit && t.sent == [SessionOff] && t.files == map[] && t.writer == None
  {
  }
}
