/** The batch of recognition results that the recognizer hands to the result
    callback, and the loop that splits it into final and interim text. */
module RecognitionResults {

  /** One entry of the result list: whether the recognizer has committed to it,
      and the transcript of its first (most likely) alternative. */
  datatype RecognitionResult = RecognitionResult(isFinal: bool, transcript: string)

  /** The results the callback walks: those from `resultIndex` to the end,
      none when the index lies past the end. */
  function Window(results: seq<RecognitionResult>, resultIndex: nat): seq<RecognitionResult>
  {
    if resultIndex <= |results| then results[resultIndex..] else []
  }

  /** The transcripts of the results whose finality is `isFinal`, concatenated
      in order. */
  function Joined(rs: seq<RecognitionResult>, isFinal: bool): string
  {
    if rs == [] then ""
    else
      var last := rs[|rs| - 1];
      Joined(rs[..|rs| - 1], isFinal) + (if last.isFinal == isFinal then last.transcript else "")
  }

  /** All transcripts of `rs`, concatenated in order, whatever their finality. */
  function Concatenated(rs: seq<RecognitionResult>): string
  {
    if rs == [] then "" else Concatenated(rs[..|rs| - 1]) + rs[|rs| - 1].transcript
  }

  /** The loop of the result callback: walks the results from `resultIndex`,
      appending final transcripts to one string and the others to another. */
  method Accumulate(results: seq<RecognitionResult>, resultIndex: nat)
    returns (finalTranscript: string, interimTranscript: string)
    ensures finalTranscript == Joined(Window(results, resultIndex), true)
    ensures interimTranscript == Joined(Window(results, resultIndex), false)
  {
    finalTranscript, interimTranscript := "", "";
    var i := resultIndex;
    while i < |results|
      invariant resultIndex <= i
      invariant i > |results| ==> i == resultIndex && finalTranscript == "" && interimTranscript == ""
      invariant i <= |results| ==> finalTranscript == Joined(results[resultIndex..i], true)
      invariant i <= |results| ==> interimTranscript == Joined(results[resultIndex..i], false)
    {
      assert results[resultIndex..i + 1][..i - resultIndex] == results[resultIndex..i];
      var transcript := results[i].transcript;
      if results[i].isFinal {
        finalTranscript := finalTranscript + transcript;
      } else {
        interimTranscript := interimTranscript + transcript;
      }
      i := i + 1;
    }
    assert i <= |results| ==> results[resultIndex..i] == Window(results, resultIndex);
  }

  /** Joining distributes over concatenation of batches: a batch can be
      split anywhere and the two halves joined separately. */
  lemma {:induction false} JoinedAppend(a: seq<RecognitionResult>, b: seq<RecognitionResult>, isFinal: bool)
    ensures Joined(a + b, isFinal) == Joined(a, isFinal) + Joined(b, isFinal)
    decreases |b|
  {
    if b == [] {
      assert a + b == a;
    } else {
      assert (a + b)[..|a + b| - 1] == a + b[..|b| - 1];
      JoinedAppend(a, b[..|b| - 1], isFinal);
    }
  }

  /** The joined text is empty exactly when every result of that finality has
      an empty transcript; this is what decides whether the callback appends a line. */
  lemma {:induction false} JoinedEmptyIff(rs: seq<RecognitionResult>, isFinal: bool)
    ensures Joined(rs, isFinal) == "" <==>
            forall i :: 0 <= i < |rs| && rs[i].isFinal == isFinal ==> rs[i].transcript == ""
  {
    if rs != [] {
      var init := rs[..|rs| - 1];
      JoinedEmptyIff(init, isFinal);
      assert forall i :: 0 <= i < |init| ==> init[i] == rs[i];
    }
  }

  /** A one-result batch contributes its transcript to its own side only. */
  lemma JoinedSingle(r: RecognitionResult, isFinal: bool)
    ensures Joined([r], isFinal) == if r.isFinal == isFinal then r.transcript else ""
  {
    assert [r][..0] == [];
  }

  /** A batch whose results all share one finality contributes all of its
      text to that side and nothing to the other. */
  lemma {:induction false} JoinedUniform(rs: seq<RecognitionResult>, isFinal: bool)
    requires forall i :: 0 <= i < |rs| ==> rs[i].isFinal == isFinal
    ensures Joined(rs, isFinal) == Concatenated(rs)
    ensures Joined(rs, !isFinal) == ""
  {
    if rs != [] {
      JoinedUniform(rs[..|rs| - 1], isFinal);
    }
  }

  /** Final and interim text together hold exactly the characters of the
      batch: nothing is lost, duplicated or invented by the split. */
  lemma {:induction false} JoinedPartitionsCharacters(rs: seq<RecognitionResult>)
    ensures multiset(Joined(rs, true)) + multiset(Joined(rs, false)) == multiset(Concatenated(rs))
  {
    if rs != [] {
      JoinedPartitionsCharacters(rs[..|rs| - 1]);
    }
  }
}
