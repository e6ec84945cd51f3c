/** One transcript turn block as the page presents it, and the per-field
    resolution of speaker, timestamp and utterance (main.py:47-67).

    Selector matching and `get_text(strip=True)` belong to the HTML library;
    the model receives their results: for each query, either no element, or
    the element's already-stripped text. */
module Blocks {
  import opened Wrappers

  /** CSS selector for the turn blocks themselves; a rendered page is the
      sequence of blocks it selects, in document order. */
  const BlockSelector: string := "div.TranscriptGroup-module__groupItem"

  /** The speaker fallback chain, tried in exactly this order. */
  const SpeakerSelectors: seq<string> := [
    "span.only-speaker-visible",
    ".only-speaker-visible",
    "span[class*=\"speaker\"]",
    ".speaker-name",
    "[data-speaker]",
    "span.speaker",
    ".participant-name"
  ]

  const TimestampSelector: string := "div[class*=\"TranscriptGroup-module__timestamp\"] span"
  const TextSelector: string := "div[class*=\"TranscriptGroup-module__textContent\"]"

  /** Default for a missing speaker and for a missing timestamp. */
  const Unknown: string := "Unknown"

  /** The results of every query made inside one block: one field per
      speaker selector (same order as `SpeakerSelectors`), then the
      timestamp span (`TimestampSelector`) and the text-content div
      (`TextSelector`). */
  datatype Block = Block(
    onlySpeakerSpan: Option<string>,
    onlySpeakerAny: Option<string>,
    speakerClassSpan: Option<string>,
    speakerName: Option<string>,
    dataSpeaker: Option<string>,
    speakerSpan: Option<string>,
    participantName: Option<string>,
    timestamp: Option<string>,
    textContent: Option<string>)

  /** The speaker-selector results of `b`, position i belonging to
      `SpeakerSelectors[i]`. */
  function SpeakerHits(b: Block): (hits: seq<Option<string>>)
    ensures |hits| == |SpeakerSelectors|
  {
    [b.onlySpeakerSpan, b.onlySpeakerAny, b.speakerClassSpan, b.speakerName,
     b.dataSpeaker, b.speakerSpan, b.participantName]
  }

  /** Selector `i` matched, and every selector before it missed. */
  ghost predicate IsFirstHit(hits: seq<Option<string>>, i: int) {
    0 <= i < |hits| && hits[i].Some? && forall j :: 0 <= j < i ==> hits[j].None?
  }

  /** The position of the selector that wins the `or` chain: a matched
      element is always truthy, whatever its text, so the first selector
      that matches at all wins. */
  function FirstHit(hits: seq<Option<string>>): (r: Option<nat>)
    ensures r.None? <==> forall i :: 0 <= i < |hits| ==> hits[i].None?
    ensures r.Some? ==> IsFirstHit(hits, r.value)
  {
    if |hits| == 0 then None
    else if hits[0].Some? then Some(0)
    else match FirstHit(hits[1..])
      case None => None
      case Some(i) => Some(i + 1)
  }

  /** The first hit is unique: whichever selector is the first to match is
      the one `FirstHit` reports. */
  lemma FirstHitUnique(hits: seq<Option<string>>, i: int)
    requires IsFirstHit(hits, i)
    ensures FirstHit(hits) == Some(i)
  {
  }

  /** A selector that matches bounds the winner: no selector after it is
      ever consulted. */
  lemma MatchStopsChain(hits: seq<Option<string>>, j: int)
    requires 0 <= j < |hits| && hits[j].Some?
    ensures FirstHit(hits).Some? && FirstHit(hits).value <= j
  {
  }

  /** The speaker of a block (main.py:49-59): the text of the winning
      element, or `Unknown` when no selector matches. */
  function Speaker(b: Block): (r: string)
    ensures r == Unknown || Some(r) in SpeakerHits(b)
  {
    match FirstHit(SpeakerHits(b))
    case None => Unknown
    case Some(i) => SpeakerHits(b)[i].value
  }

  /** The speaker is the text of the first selector that matches, in the
      fixed order; `Unknown` when none matches; and empty exactly when the
      winning element's text is empty, never because nothing matched. */
  lemma SpeakerIsFirstMatch(b: Block)
    ensures (forall i :: 0 <= i < |SpeakerHits(b)| ==> SpeakerHits(b)[i].None?) ==> Speaker(b) == Unknown
    ensures forall i :: IsFirstHit(SpeakerHits(b), i) ==> Speaker(b) == SpeakerHits(b)[i].value
    ensures Speaker(b) == "" <==> exists i :: IsFirstHit(SpeakerHits(b), i) && SpeakerHits(b)[i].value == ""
  {
  }

  /** The timestamp of a block (main.py:62-63). */
  function Timestamp(b: Block): (r: string)
    ensures b.timestamp.Some? ==> r == b.timestamp.value
    ensures b.timestamp.None? ==> r == Unknown
  {
    b.timestamp.GetOr(Unknown)
  }

  /** The utterance of a block (main.py:66-67); empty when the text-content
      div is absent. */
  function Utterance(b: Block): (r: string)
    ensures b.textContent.Some? ==> r == b.textContent.value
    ensures b.textContent.None? ==> r == ""
  {
    b.textContent.GetOr("")
  }

  /** The block contributes a line: its utterance is non-empty (main.py:70).
      It is dropped exactly when its text-content div is absent or its
      stripped text is empty. */
  predicate Kept(b: Block)
    ensures !Kept(b) <==> b.textContent.None? || b.textContent.value == ""
  {
    Utterance(b) != ""
  }
}
