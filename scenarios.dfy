/** Clients of the session controller: the documented usage scenarios, each
    checked from the controller's contracts alone. */
module SessionScenarios {
  import opened Text
  import opened RecognitionResults
  import opened SpeechSession

  /** Toggling mute twice while listening restores the muted flag and issues
      a stop() then a start() (when unmuted) or a start() then a stop() (when muted). */
  method ToggleMuteTwice(c: SessionController)
    requires c.Valid() && c.isListening
    modifies c
    ensures c.Valid()
    ensures c.isListening && c.isMuted == old(c.isMuted)
    ensures c.calls == old(c.calls) + (if old(c.isMuted) then [Start, Stop] else [Stop, Start])
    ensures c.transcript == old(c.transcript) && c.currentText == old(c.currentText)
  {
    c.ToggleMute();
    c.ToggleMute();
  }

  /** Muting issues stop(), and the end callback it provokes may arrive
      before the unmute: the unmute then only clears the flag and issues no
      start(), so recognition stays off. */
  method MuteEndUnmuteScenario()
  {
    var c := new SessionController(true);
    c.StartListening();
    c.ToggleMute();
    c.OnEnd();
    c.ToggleMute();
    assert !c.isListening && !c.isMuted;
    assert c.calls == [Start, Stop];
    assert MicrophoneStatus(c.isListening, c.isMuted) == OffStatus;
  }

  /** Start, then one final result of already trimmed words ("hello world"):
      one line with id 0 holding exactly those words. */
  method FinalResultScenario(words: string, now: int)
    requires words != "" && !IsWhitespace(words[0]) && !IsWhitespace(words[|words| - 1])
  {
    var c := new SessionController(true);
    c.StartListening();
    JoinedSingle(RecognitionResult(true, words), true);
    c.OnResult([RecognitionResult(true, words)], 0, now);
    TrimOfTrimmed(words);
    assert c.transcript == [TranscriptLine(0, words, now)];
    assert c.currentText == "" && c.isListening;
    assert c.calls == [Start];
  }

  /** Start, then an interim result only: no line, the interim text is shown. */
  method InterimResultScenario(now: int)
  {
    var c := new SessionController(true);
    c.StartListening();
    var batch := [RecognitionResult(false, "testing")];
    JoinedSingle(batch[0], false);
    c.OnResult(batch, 0, now);
    assert c.transcript == [] && c.currentText == "testing";
  }

  /** An interim result ("one") followed by a final one ("one two", already
      trimmed): the final replaces the interim text with one line holding
      exactly the final words. */
  method InterimThenFinalScenario(heard: string, words: string, now1: int, now2: int)
    requires heard != ""
    requires words != "" && !IsWhitespace(words[0]) && !IsWhitespace(words[|words| - 1])
  {
    var c := new SessionController(true);
    c.StartListening();
    var first := [RecognitionResult(false, heard)];
    JoinedSingle(first[0], false);
    JoinedSingle(first[0], true);
    c.OnResult(first, 0, now1);
    assert c.transcript == [] && c.currentText == heard;
    var second := [RecognitionResult(true, words)];
    JoinedSingle(second[0], true);
    c.OnResult(second, 0, now2);
    TrimOfTrimmed(words);
    assert c.transcript == [TranscriptLine(0, words, now2)] && c.currentText == "";
  }

  /** Reset after two lines: the log is empty and the next line gets id 0 again. */
  method ResetScenario(a: string, b: string, d: string, now: int)
    requires a != "" && b != "" && d != ""
  {
    var c := new SessionController(true);
    c.StartListening();
    JoinedSingle(RecognitionResult(true, a), true);
    JoinedSingle(RecognitionResult(true, b), true);
    JoinedSingle(RecognitionResult(true, d), true);
    c.OnResult([RecognitionResult(true, a)], 0, now);
    c.OnResult([RecognitionResult(true, b)], 0, now);
    assert |c.transcript| == 2 && c.transcript[1].id == 1;
    c.ResetTranscript();
    assert c.transcript == [] && c.currentText == "";
    c.OnResult([RecognitionResult(true, d)], 0, now);
    assert c.transcript == [TranscriptLine(0, Trim(d), now)];
  }

  /** Without a recognizer, start does nothing, while toggling mute still
      flips the flag: the status then reads muted although nothing listens. */
  method UnsupportedScenario()
  {
    var c := new SessionController(false);
    c.StartListening();
    assert !c.isListening && c.calls == [];
    c.ToggleMute();
    assert c.isMuted && !c.isListening && c.calls == [];
    assert MicrophoneStatus(c.isListening, c.isMuted) == MutedStatus;
  }

  /** An error while muted ends listening but leaves the muted flag set. */
  method ErrorWhileMutedScenario()
  {
    var c := new SessionController(true);
    c.StartListening();
    c.ToggleMute();
    c.OnError();
    assert !c.isListening && c.isMuted;
    assert c.calls == [Start, Stop];
    c.StartListening();
    assert c.isListening && !c.isMuted && c.calls == [Start, Stop, Start];
  }
}
