/** The `/transcript` route (main.py:81-88): reject a missing URL, else
    return whatever extraction produced. */
module Route {
  import opened Wrappers
  import opened Blocks
  import opened Assembly
  import opened Extraction

  const NoUrlMessage: string := "No URL provided"

  datatype Response = Response(status: nat, body: Envelope)

  /** Either the view returns a response, or the exception that escaped
      extraction propagates out of it. */
  datatype RouteOutcome = Responded(response: Response) | Propagated(error: string)

  /** The query parameter is present and non-empty (main.py:84). */
  predicate UrlGiven(url: Option<string>) {
    url.Some? && url.value != ""
  }

  /** `load` stands for the browser session opened on the URL. The answer
      for each thing the session can leave behind: no URL is a 400; a
      failure before the `try` escapes; a failure inside it is a 200 with
      `success` false; a rendered page is a 200 carrying one line per kept
      block and their count. */
  function GetTranscript(url: Option<string>, load: string -> PageOutcome): (r: RouteOutcome)
    ensures (r.Responded? && r.response.status == 400) <==> !UrlGiven(url)
    ensures !UrlGiven(url) ==> r.Responded? && r.response.body == Envelope(false, Some(NoUrlMessage), None, None)
    ensures UrlGiven(url) ==> (r.Propagated? <==> load(url.value).SetupFailed?)
    ensures UrlGiven(url) && load(url.value).SetupFailed? ==> r.error == load(url.value).error
    ensures UrlGiven(url) && load(url.value).LoadFailed? ==>
              r == Responded(Response(200, Envelope(false, Some(load(url.value).error), Some([]), None)))
    ensures UrlGiven(url) && load(url.value).Rendered? ==>
              && r.Responded?
              && r.response.status == 200
              && r.response.body.success
              && r.response.body.transcript == Some(Lines(load(url.value).blocks))
              && r.response.body.totalLines == Some(|KeptIndices(load(url.value).blocks)|)
  {
    if !UrlGiven(url) then
      Responded(Response(400, Envelope(false, Some(NoUrlMessage), None, None)))
    else
      var page := load(url.value);
      match ExtractTranscript(page)
      case Raised(e) => Propagated(e)
      case Returned(env) =>
        assert page.Rendered? ==> env.totalLines == Some(|KeptIndices(page.blocks)|) by {
          if page.Rendered? {
            LinesFollowKeptBlocks(page.blocks);
          }
        }
        Responded(Response(200, env))
  }

  /** Status 400 is given exactly for a missing or empty URL; an extraction
      that fails inside its `try` still answers with status 200. */
  lemma BadRequestIffNoUrl(url: Option<string>, load: string -> PageOutcome)
    ensures GetTranscript(url, load).Responded? && GetTranscript(url, load).response.status == 400
            <==> !UrlGiven(url)
    ensures UrlGiven(url) && load(url.value).LoadFailed? ==>
              GetTranscript(url, load).response.status == 200
              && !GetTranscript(url, load).response.body.success
  {
  }

  /** Without a URL the browser is never consulted: the answer is the same
      whatever the session would have produced. */
  lemma NoUrlNeverExtracts(url: Option<string>, load1: string -> PageOutcome, load2: string -> PageOutcome)
    requires !UrlGiven(url)
    ensures GetTranscript(url, load1) == GetTranscript(url, load2)
  {
  }
}
