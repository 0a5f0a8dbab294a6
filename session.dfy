/** The recognition session controller: the listening and muted flags, the
    finalized transcript, the interim text and the line-id counter, driven by
    the owner's commands and by the recognizer's callbacks. */
module SpeechSession {
  import opened Text
  import opened RecognitionResults

  /** A call the controller makes on the recognizer object. */
  datatype RecognizerCall = Start | Stop

  /** A finalized line of the transcript. The timestamp is an opaque instant
      supplied by the caller (the source reads the clock). */
  datatype TranscriptLine = TranscriptLine(id: nat, text: string, timestamp: int)

  /** Line ids are exactly 0, 1, 2, ... in log order. */
  ghost predicate IdsAreIndices(lines: seq<TranscriptLine>) {
    forall i :: 0 <= i < |lines| ==> lines[i].id == i
  }

  /** Under the id invariant, ids strictly increase along the log and the
      next id to hand out belongs to no line yet. */
  lemma IdsIncreaseAndNextIsFresh(lines: seq<TranscriptLine>, next: nat)
    requires IdsAreIndices(lines) && next == |lines|
    ensures forall i, j :: 0 <= i < j < |lines| ==> lines[i].id < lines[j].id
    ensures forall i :: 0 <= i < |lines| ==> lines[i].id != next
  {
  }

  class SessionController {
    /** Whether the recognizer object exists (the browser offers speech recognition). */
    const supported: bool
    var isListening: bool
    var isMuted: bool
    var transcript: seq<TranscriptLine>
    var currentText: string
    /** The next line id to hand out. */
    var lineId: nat
    /** Every start() and stop() issued on the recognizer, oldest first. */
    ghost var calls: seq<RecognizerCall>

    /** The counter equals the log length and ids are the log positions; the
        controller is only ever listening when a recognizer exists. */
    ghost predicate Valid()
      reads this
    {
      lineId == |transcript| && IdsAreIndices(transcript) && (isListening ==> supported)
    }

    /** The state at mount: not listening, not muted, nothing transcribed. */
    constructor (supported: bool)
      ensures Valid()
      ensures this.supported == supported
      ensures !isListening && !isMuted
      ensures transcript == [] && currentText == "" && lineId == 0
      ensures calls == []
    {
      this.supported := supported;
      isListening, isMuted := false, false;
      transcript, currentText, lineId := [], "", 0;
      calls := [];
    }

    /** The result callback. A non-empty final text (checked before trimming)
        appends one line with the next id and the trimmed text and clears the
        interim slot, discarding any interim text of the same batch; otherwise
        (including a batch whose final fragments are all empty)
        the interim text replaces the slot. Flags and recognizer are untouched. */
    method OnResult(results: seq<RecognitionResult>, resultIndex: nat, now: int)
      requires Valid()
      modifies this
      ensures Valid()
      ensures var finalText := Joined(Window(results, resultIndex), true);
              if finalText != "" then
                transcript == old(transcript) + [TranscriptLine(old(lineId), Trim(finalText), now)] &&
                lineId == old(lineId) + 1 && currentText == ""
              else
                transcript == old(transcript) && lineId == old(lineId) &&
                currentText == Joined(Window(results, resultIndex), false)
      ensures isListening == old(isListening) && isMuted == old(isMuted) && calls == old(calls)
    {
      var finalTranscript, interimTranscript := Accumulate(results, resultIndex);
      if finalTranscript != "" {
        transcript := transcript + [TranscriptLine(lineId, Trim(finalTranscript), now)];
        lineId := lineId + 1;
        currentText := "";
      } else {
        currentText := interimTranscript;
      }
    }

    /** The error callback: the session stops listening; nothing else changes. */
    method OnError()
      requires Valid()
      modifies this
      ensures Valid()
      ensures !isListening
      ensures isMuted == old(isMuted) && calls == old(calls)
      ensures transcript == old(transcript) && currentText == old(currentText) && lineId == old(lineId)
    {
      isListening := false;
    }

    /** The end callback: the session stops listening; nothing else changes. */
    method OnEnd()
      requires Valid()
      modifies this
      ensures Valid()
      ensures !isListening
      ensures isMuted == old(isMuted) && calls == old(calls)
      ensures transcript == old(transcript) && currentText == old(currentText) && lineId == old(lineId)
    {
      isListening := false;
    }

    /** Start: with a recognizer and not yet listening, listen unmuted and
        issue exactly one start(); otherwise a no-op with no call. */
    method StartListening()
      requires Valid()
      modifies this
      ensures Valid()
      ensures if old(supported && !isListening) then
                isListening && !isMuted && calls == old(calls) + [Start]
              else
                isListening == old(isListening) && isMuted == old(isMuted) && calls == old(calls)
      ensures transcript == old(transcript) && currentText == old(currentText) && lineId == old(lineId)
    {
      if supported && !isListening {
        isListening := true;
        isMuted := false;
        calls := calls + [Start];
      }
    }

    /** Stop: with a recognizer and listening, stop listening and issue exactly
        one stop(), leaving the muted flag as it was; otherwise a no-op with no call. */
    method StopListening()
      requires Valid()
      modifies this
      ensures Valid()
      ensures if old(supported && isListening) then
                !isListening && calls == old(calls) + [Stop]
              else
                isListening == old(isListening) && calls == old(calls)
      ensures isMuted == old(isMuted)
      ensures transcript == old(transcript) && currentText == old(currentText) && lineId == old(lineId)
    {
      if supported && isListening {
        isListening := false;
        calls := calls + [Stop];
      }
    }

    /** Toggle mute: always flips the muted flag, listening or not. While
        listening, unmuting issues start() and muting issues stop(). */
    method ToggleMute()
      requires Valid()
      modifies this
      ensures Valid()
      ensures isMuted == !old(isMuted)
      ensures calls == old(calls) + (if !old(isListening) then []
                                     else if old(isMuted) then [Start]
                                     else [Stop])
      ensures isListening == old(isListening)
      ensures transcript == old(transcript) && currentText == old(currentText) && lineId == old(lineId)
    {
      if isListening {
        if isMuted {
          calls := calls + [Start];
        } else {
          calls := calls + [Stop];
        }
      }
      isMuted := !isMuted;
    }

    /** Reset: empties the transcript and the interim slot and restarts ids
        at 0, without touching the flags or the recognizer. */
    method ResetTranscript()
      requires Valid()
      modifies this
      ensures Valid()
      ensures transcript == [] && currentText == "" && lineId == 0
      ensures isListening == old(isListening) && isMuted == old(isMuted) && calls == old(calls)
    {
      transcript := [];
      currentText := "";
      lineId := 0;
    }

    /** The unmount cleanup: stop() on the recognizer if one exists. */
    method Unmount()
      requires Valid()
      modifies this
      ensures Valid()
      ensures calls == old(calls) + (if supported then [Stop] else [])
      ensures isListening == old(isListening) && isMuted == old(isMuted)
      ensures transcript == old(transcript) && currentText == old(currentText) && lineId == old(lineId)
    {
      if supported {
        calls := calls + [Stop];
      }
    }
  }

  const MutedStatus := "Microphone: Muted"
  const ListeningStatus := "Microphone: Listening"
  const OffStatus := "Microphone: Off"

  const MutedColor := "text-red-600"
  const ListeningColor := "text-blue-600"
  const OffColor := "text-gray-500"

  /** The status label: muted wins over listening, whatever the listening flag. */
  function MicrophoneStatus(isListening: bool, isMuted: bool): (r: string)
    ensures r == MutedStatus <==> isMuted
    ensures r == ListeningStatus <==> isListening && !isMuted
    ensures r == OffStatus <==> !isListening && !isMuted
  {
    if isMuted then MutedStatus
    else if isListening then ListeningStatus
    else OffStatus
  }

  /** The status colour, with the same three-way priority as the label. */
  function MicrophoneStatusColor(isListening: bool, isMuted: bool): (r: string)
    ensures r == MutedColor <==> isMuted
    ensures r == ListeningColor <==> isListening && !isMuted
    ensures r == OffColor <==> !isListening && !isMuted
  {
    if isMuted then MutedColor
    else if isListening then ListeningColor
    else OffColor
  }

  /** Label and colour always tell the same story: two flag settings share a
      label exactly when they share a colour. */
  lemma StatusAndColorAgree(l1: bool, m1: bool, l2: bool, m2: bool)
    ensures MicrophoneStatus(l1, m1) == MicrophoneStatus(l2, m2) <==>
            MicrophoneStatusColor(l1, m1) == MicrophoneStatusColor(l2, m2)
  {
  }

  /** The append guard looks at the untrimmed final text, so a final fragment
      of whitespace alone still produces a line, whose text is empty. */
  lemma WhitespaceFinalAppendsEmptyLine(r: RecognitionResult)
    requires r.isFinal && r.transcript != "" && AllWhitespace(r.transcript)
    ensures Joined([r], true) != "" && Trim(Joined([r], true)) == ""
  {
    assert [r][..0] == [];
  }

  /** A batch whose final text is non-empty discards its interim fragments:
      the interim text the callback computed is non-empty but is not kept. */
  lemma FinalBatchHasInterimText(final: string, interim: string)
    requires final != "" && interim != ""
    ensures var batch := [RecognitionResult(false, interim), RecognitionResult(true, final)];
            Joined(batch, true) == final && Joined(batch, false) == interim
  {
    var batch := [RecognitionResult(false, interim), RecognitionResult(true, final)];
    var first := batch[..1];
    assert first == [RecognitionResult(false, interim)] && first[..0] == [];
    assert Joined(first, true) == "" && Joined(first, false) == interim;
  }
}
