/** The result envelope of one extraction (main.py:25-79).

    Browser work is abstracted into the outcome it leaves behind: setup
    failed before the `try`, something inside the `try` raised (the 20-second
    wait for the transcript section timing out among them), or the page
    rendered and yielded its turn blocks in document order. */
module Extraction {
  import opened Wrappers
  import opened Blocks
  import opened Assembly

  /** What the browser session produced for one URL. */
  datatype PageOutcome =
    | SetupFailed(error: string)       // get_driver() or driver.get(url) raised (main.py:26-27)
    | LoadFailed(error: string)        // an exception inside the try, as str(e) (main.py:29-41, 74)
    | Rendered(blocks: seq<Block>)     // the blocks `BlockSelector` selects (main.py:43)

  /** The returned dictionary, one field per possible key; `None` means the
      key is absent. */
  datatype Envelope = Envelope(
    success: bool,
    error: Option<string>,
    transcript: Option<seq<string>>,
    totalLines: Option<nat>)

  /** `extract_transcript` either returns an envelope or lets an exception
      escape: a failure before the `try` is not caught. */
  datatype Outcome = Returned(envelope: Envelope) | Raised(error: string)

  function ExtractTranscript(page: PageOutcome): (r: Outcome)
    ensures r.Raised? <==> page.SetupFailed?
    ensures page.SetupFailed? ==> r.error == page.error
    ensures r.Returned? ==> (r.envelope.success <==> page.Rendered?)
    ensures r.Returned? && r.envelope.success ==>
              && r.envelope.error.None?
              && r.envelope.transcript.Some?
              && r.envelope.totalLines == Some(|r.envelope.transcript.value|)
              && |r.envelope.transcript.value| <= |page.blocks|
    ensures r.Returned? && !r.envelope.success ==>
              && r.envelope.error == Some(page.error)
              && r.envelope.transcript == Some([])
              && r.envelope.totalLines.None?
  {
    match page
    case SetupFailed(e) => Raised(e)
    case LoadFailed(e) => Returned(Envelope(false, Some(e), Some([]), None))
    case Rendered(blocks) =>
      var lines := Lines(blocks);
      Returned(Envelope(true, None, Some(lines), Some(|lines|)))
  }

  /** On success the transcript is the assembled lines of the blocks, and
      the count is the number of kept blocks. */
  lemma SuccessCarriesLines(blocks: seq<Block>)
    ensures ExtractTranscript(Rendered(blocks)).envelope.transcript == Some(Lines(blocks))
    ensures ExtractTranscript(Rendered(blocks)).envelope.totalLines == Some(|KeptIndices(blocks)|)
  {
    LinesFollowKeptBlocks(blocks);
  }

  /** A page with no turn blocks is a success with an empty transcript and
      a count of zero, not an error. */
  lemma NoBlocksIsEmptySuccess()
    ensures ExtractTranscript(Rendered([])) == Returned(Envelope(true, None, Some([]), Some(0)))
  {
  }
}
