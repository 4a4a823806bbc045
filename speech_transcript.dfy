/**
 * The text a speech-recognition result event carries to the practice
 * screen: the first alternative of every result, joined in order with no
 * separator.
 */
module SpeechTranscript {
  import opened Wrappers

  /** One hypothesis of the recogniser for a stretch of speech. */
  datatype Alternative = Alternative(transcript: string)

  /** One recognised stretch of speech: its alternatives, best first. */
  datatype RecognitionResult = RecognitionResult(alternatives: seq<Alternative>)

  /**
   * The transcript of each result's first alternative, in order. Reading
   * `.transcript` of a missing first alternative throws, so a result with no
   * alternatives makes the whole step fail.
   */
  function FirstAlternatives(results: seq<RecognitionResult>): (r: Option<seq<string>>)
    ensures r.Some? <==> forall i :: 0 <= i < |results| ==> results[i].alternatives != []
    ensures r.Some? ==>
      && |r.value| == |results|
      && forall i :: 0 <= i < |results| ==> r.value[i] == results[i].alternatives[0].transcript
    decreases |results|
  {
    if results == [] then Some([])
    else if results[0].alternatives == [] then None
    else
      match FirstAlternatives(results[1..])
      case None => None
      case Some(rest) => Some([results[0].alternatives[0].transcript] + rest)
  }

  /** `parts.join('')`. */
  function Join(parts: seq<string>): (r: string)
    decreases |parts|
  {
    if parts == [] then "" else parts[0] + Join(parts[1..])
  }

  lemma {:induction false} JoinAppend(a: seq<string>, b: seq<string>)
    ensures Join(a + b) == Join(a) + Join(b)
    decreases |a|
  {
    if a == [] {
      assert a + b == b;
    } else {
      assert (a + b)[1..] == a[1..] + b;
      JoinAppend(a[1..], b);
    }
  }

  /**
   * Joining puts every part at its place with nothing in between: the
   * parts before it, then it, then the parts after it.
   */
  lemma JoinAt(parts: seq<string>, k: nat)
    requires k < |parts|
    ensures Join(parts) == Join(parts[..k]) + parts[k] + Join(parts[k + 1..])
  {
    var before, tail := parts[..k], parts[k..];
    assert parts == before + tail;
    JoinAppend(before, tail);
    assert tail[1..] == parts[k + 1..];
  }

  /**
   * What the result handler passes on: the joined first alternatives of all
   * results so far, or nothing when some result has no alternative.
   */
  function Transcript(results: seq<RecognitionResult>): (r: Option<string>)
    ensures r.Some? <==> forall i :: 0 <= i < |results| ==> results[i].alternatives != []
    ensures results == [] ==> r == Some("")
  {
    match FirstAlternatives(results)
    case None => None
    case Some(parts) => Some(Join(parts))
  }

  /** One more result adds exactly its first alternative at the end of the transcript. */
  lemma TranscriptAppend(results: seq<RecognitionResult>, x: RecognitionResult)
    requires Transcript(results + [x]).Some?
    ensures Transcript(results).Some? && x.alternatives != []
    ensures Transcript(results + [x]).value == Transcript(results).value + x.alternatives[0].transcript
  {
    var rs := results + [x];
    assert forall i :: 0 <= i < |results| ==> results[i] == rs[i];
    assert rs[|results|] == x;
    var whole := FirstAlternatives(rs).value;
    var front := FirstAlternatives(results).value;
    assert whole == front + [x.alternatives[0].transcript];
    JoinAppend(front, [x.alternatives[0].transcript]);
  }

  /** The transcript only grows as results arrive: the old one is a prefix of the new one. */
  lemma TranscriptGrows(results: seq<RecognitionResult>, x: RecognitionResult)
    requires Transcript(results + [x]).Some?
    ensures Transcript(results).Some? && Transcript(results).value <= Transcript(results + [x]).value
  {
    TranscriptAppend(results, x);
  }
}
