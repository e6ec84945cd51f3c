# Call-transcript assembly, modelled in Dafny

The scraper opens a call-recording page in a headless browser. It waits up to
20 seconds for the `section[aria-label='Call transcript']` element, then
parses the rendered HTML. Each `div.TranscriptGroup-module__groupItem` turn
block with non-empty text becomes one flat line `speaker timestamp | utterance`;
blocks without text are skipped. The
`/transcript` HTTP route wraps this and rejects a request without a URL.

This project models the decision logic of that path as pure functions over
immutable data:

- `Blocks` holds one turn block as the results of the queries made inside it.
  Each speaker selector, the timestamp span and the text-content div is
  either absent or the element's already-stripped text. The module also
  holds the speaker fallback chain (seven selectors, first match wins) and
  the `Unknown` / `""` defaults.
- `Assembly` holds the line format and the block loop. `Lines` is the
  reference definition of the loop. `AssembleLines` is the loop itself.
  `KeptIndices` says which blocks contribute lines and in what order.
- `Extraction` holds the envelope `extract_transcript` returns. On success
  it has `transcript` and `total_lines`. On an exception inside the `try`
  it has `error` and an empty `transcript`, and no `total_lines` key. An
  exception before the `try` is not caught and escapes.
- `Route` holds the `/transcript` view: a 400 response for a missing or
  empty `url`, and otherwise the extraction result with status 200.
- `Wrappers` holds `Option`.

The browser session is a parameter. `PageOutcome` is what the session left
behind: setup failed, the `try` raised, or the page rendered its blocks.
`GetTranscript` takes the session as a function from URL to `PageOutcome`.

Some behaviours of main.py a reader may not expect, all modelled as written:
- The speaker chain takes the first selector that matches any element,
  even one whose text is empty. It does not take the first non-empty text.
- A matched speaker element whose text is "Unknown" gives the same speaker as no match at all, so "Unknown" does not mean that no selector matched.
- A missing timestamp becomes `"Unknown"`, not the empty string.
- Zero blocks gives a success with an empty transcript, not a
  "no blocks found" error.
- A failure caught inside the `try` is still answered with HTTP status 200.
- The browser is not closed when navigation fails, because `driver.get(url)`
  sits before the `try`.

## Model

| member | source | states |
|---|---|---|
| Blocks.FirstHit | main.py:49-57 | the winning selector is one that matched and every earlier selector missed; there is no winner exactly when all seven miss |
| Blocks.FirstHitUnique | main.py:49-57 | whichever selector is the first to match is the one reported, so the winner is determined by the fixed order alone |
| Blocks.MatchStopsChain | main.py:49-57 | once a selector matches, no later selector can be the winner |
| Blocks.Speaker | main.py:49-59 | the speaker is either "Unknown" or the text of an element one of the seven selectors matched; which one is pinned down by SpeakerIsFirstMatch |
| Blocks.SpeakerIsFirstMatch | main.py:49-59 | the speaker is the text of the first matching selector; it is "Unknown" when none matches; it is empty exactly when the winning element's text is empty |
| Blocks.Timestamp | main.py:62-63 | the timestamp is the span's stripped text when the span exists, otherwise "Unknown" |
| Blocks.Utterance | main.py:66-67 | the utterance is the text-content div's stripped text when it exists, otherwise "" |
| Blocks.Kept | main.py:66-70 | a block is dropped exactly when its text-content div is absent or has empty text |
| Assembly.FormatLine | main.py:71 | the line is the speaker, a space, the timestamp, a space, a vertical bar, a space and the utterance, each part at its own position; its length is the sum plus 4 |
| Assembly.FormatLineInjective | main.py:71 | given the speaker and timestamp lengths, a line determines speaker, timestamp and utterance |
| Assembly.FormatLineAmbiguous | main.py:71 | without those lengths the line does not determine the speaker: "Ann Lee" at "2:15" and "Ann" at "Lee 2:15" give the same line |
| Assembly.LineOf | main.py:59-71 | a block's line starts with its speaker and ends with its utterance |
| Assembly.Lines | main.py:45-72 | the transcript never has more lines than there are blocks |
| Assembly.KeptIndices | main.py:47-72 | the kept block positions are in range, strictly increasing, and include every block with a non-empty utterance |
| Assembly.LinesFollowKeptBlocks | main.py:45-72 | line k of the transcript is the formatted line of the k-th kept block, so document order is kept and the line count equals the kept-block count |
| Assembly.LinesAppend | main.py:45-72 | assembling two runs of blocks one after the other gives the first run's lines followed by the second's |
| Assembly.LinesOfOne | main.py:70-72 | one block contributes exactly one line when kept and none otherwise |
| Assembly.NoLinesIffNoneKept | main.py:45-72 | the transcript is empty exactly when no block has a non-empty utterance |
| Assembly.AllKeptIndices | main.py:47-72 | every block position is a kept one exactly when every block has a non-empty utterance |
| Assembly.AllLinesIffAllKept | main.py:45-72 | the transcript has one line per block exactly when every block is kept |
| Assembly.AssembleLines | main.py:45-72 | the loop walking the blocks in order produces exactly the reference lines |
| Extraction.ExtractTranscript | main.py:25-79 | an exception before the try escapes; a caught exception gives success false with its message, an empty transcript and no total_lines; a rendered page gives success true with total_lines equal to the transcript length, at most the block count |
| Extraction.SuccessCarriesLines | main.py:43-79 | on success the transcript is the assembled lines and total_lines is the number of kept blocks |
| Extraction.NoBlocksIsEmptySuccess | main.py:43-79 | zero blocks gives success true, an empty transcript and total_lines 0 |
| Route.GetTranscript | main.py:81-88 | status 400 exactly when the url is missing or empty, with only success false and "No URL provided"; otherwise, per session outcome: a failure before the try propagates with its message, a failure inside it is status 200 with success false, the error and an empty transcript, and a rendered page is status 200 with success, one line per kept block and total_lines equal to the kept-block count |
| Route.BadRequestIffNoUrl | main.py:83-88 | status 400 is given exactly when the url is missing or empty; a failure caught during extraction still yields status 200 |
| Route.NoUrlNeverExtracts | main.py:83-85 | with no url the response does not depend on the browser session, so extraction is never run |

## Left out

- Browser driving is not modelled: driver options, driver installation, navigation, the 20-second `WebDriverWait`, scrolling and the 3-second sleep (main.py:14-39). They appear only as the `PageOutcome` a session produces.
- HTML parsing is not modelled. CSS selector matching and `get_text(strip=True)` come from an external library. Their results are inputs: optional, already-stripped strings.
- The seven speaker results of a block are taken as independent. In a real page some selectors imply others: a `span.only-speaker-visible` match means `.only-speaker-visible` matches too. Such a match may also be a different element, because `select_one` returns the first match in document order. On a real page `span.speaker` (the sixth selector, main.py:55) can never win: every element it matches is also matched by `span[class*="speaker"]` (the third selector, main.py:52), which is tried earlier. The model still allows the sixth result to win; the lemmas hold for all inputs, including ones no page can produce.
- `driver.quit()` in the `finally` (main.py:76-77) is resource handling. No claim is made that the browser is always closed: navigation failures escape before the `try`. An exception raised by `quit()` itself is not modelled.
- Exception messages are opaque strings. `str(e)` is not modelled.
- What the web framework does with an exception escaping the view is outside main.py. It is left as `Propagated`.
- JSON serialisation (`jsonify`), the `/debug` endpoint that writes `debug_output.html` (main.py:91-106) and server start-up (main.py:108-109) are HTTP and file I/O.
- The code has no millisecond time formatting, no speaker or time-range filtering, no classification of expired or invalid pages, no word-level timing and no splitting of a timestamp out of the speaker label. None of these is modelled.
