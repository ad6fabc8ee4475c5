/**
 * `transcribe_file` of src/utils.py. The speech service itself is not
 * modelled: only the outcome of `recognize_once` is, and what the function
 * makes of it.
 */
module Transcription {
  import opened Wrappers

  /** `speechsdk.ResultReason` values `recognize_once` can report, with the
      text only on a recognised result. */
  datatype Recognition =
    | RecognizedSpeech(text: string)
    | NoMatch
    | Canceled

  /** `str(res.reason)`. */
  function ReasonName(r: Recognition): string {
    match r
    case RecognizedSpeech(_) => "ResultReason.RecognizedSpeech"
    case NoMatch => "ResultReason.NoMatch"
    case Canceled => "ResultReason.Canceled"
  }

  /** Return the recognised text, or the `RuntimeError` message. */
  function TranscribeFile(r: Recognition): (t: Result<string, string>)
    ensures t.Ok? <==> r.RecognizedSpeech?
    ensures t.Ok? ==> t.value == r.text
    ensures t.Err? ==> t.error == "Transcription failed: " + ReasonName(r)
  {
    if r.RecognizedSpeech? then Ok(r.text)
    else Err("Transcription failed: " + ReasonName(r))
  }

  /** A recording in which nothing was recognised is a failure, not an empty
      transcript. */
  lemma NoMatchFails()
    ensures TranscribeFile(NoMatch) == Err("Transcription failed: ResultReason.NoMatch")
  {
    assert "Transcription failed: " + "ResultReason.NoMatch" == "Transcription failed: ResultReason.NoMatch";
  }
}
