/** Turning the ordered turn blocks into transcript lines (main.py:45-72). */
module Assembly {
  import opened Blocks

  /** One transcript line, `speaker timestamp | utterance` (main.py:71),
      described by where each part sits in the line. */
  function FormatLine(speaker: string, timestamp: string, utterance: string): (line: string)
    ensures |line| == |speaker| + |timestamp| + |utterance| + 4
    ensures line[..|speaker|] == speaker
    ensures line[|speaker|] == ' '
    ensures line[|speaker| + 1..|speaker| + 1 + |timestamp|] == timestamp
    ensures line[|speaker| + 1 + |timestamp|..|speaker| + |timestamp| + 4] == " | "
    ensures line[|speaker| + |timestamp| + 4..] == utterance
  {
    speaker + " " + timestamp + " | " + utterance
  }

  /** Knowing the lengths of the speaker and the timestamp, the line
      determines all three parts. */
  lemma FormatLineInjective(s: string, t: string, u: string, s': string, t': string, u': string)
    requires |s| == |s'| && |t| == |t'|
    requires FormatLine(s, t, u) == FormatLine(s', t', u')
    ensures s == s' && t == t' && u == u'
  {
    var line := FormatLine(s, t, u);
    assert s == line[..|s|] == s';
    assert t == line[|s| + 1..|s| + 1 + |t|] == t';
    assert u == line[|s| + |t| + 4..] == u';
  }

  /** Without those lengths it does not: a speaker containing a space and a
      timestamp containing a space can trade words. */
  lemma FormatLineAmbiguous()
    ensures FormatLine("Ann Lee", "2:15", "hi") == FormatLine("Ann", "Lee 2:15", "hi")
  {
  }

  /** The line a kept block contributes. */
  function LineOf(b: Block): (line: string)
    ensures |line| == |Speaker(b)| + |Timestamp(b)| + |Utterance(b)| + 4
    ensures line[..|Speaker(b)|] == Speaker(b)
    ensures line[|Speaker(b)| + |Timestamp(b)| + 4..] == Utterance(b)
  {
    FormatLine(Speaker(b), Timestamp(b), Utterance(b))
  }

  /** The lines contributed by a run of blocks, in document order: the
      reference definition of the loop at main.py:47-72. */
  function Lines(blocks: seq<Block>): (lines: seq<string>)
    ensures |lines| <= |blocks|
    decreases |blocks|
  {
    if |blocks| == 0 then []
    else
      var last := blocks[|blocks| - 1];
      Lines(blocks[..|blocks| - 1]) + (if Kept(last) then [LineOf(last)] else [])
  }

  /** The positions of the kept blocks, increasing. */
  ghost function KeptIndices(blocks: seq<Block>): (ks: seq<nat>)
    ensures |ks| <= |blocks|
    ensures forall k :: 0 <= k < |ks| ==> ks[k] < |blocks| && Kept(blocks[ks[k]])
    ensures forall i :: 0 <= i < |blocks| && Kept(blocks[i]) ==> i in ks
    ensures forall k, l :: 0 <= k < l < |ks| ==> ks[k] < ks[l]
    decreases |blocks|
  {
    if |blocks| == 0 then []
    else
      var n := |blocks| - 1;
      var front := blocks[..n];
      assert forall i :: 0 <= i < n ==> front[i] == blocks[i];
      KeptIndices(front) + (if Kept(blocks[n]) then [n] else [])
  }

  /** Line k of the output is the line of the k-th kept block: lines come
      out in document order, one per kept block and none for the others. */
  lemma {:induction false} LinesFollowKeptBlocks(blocks: seq<Block>)
    ensures |Lines(blocks)| == |KeptIndices(blocks)|
    ensures forall k :: 0 <= k < |Lines(blocks)| ==>
              Lines(blocks)[k] == LineOf(blocks[KeptIndices(blocks)[k]])
    decreases |blocks|
  {
    if |blocks| > 0 {
      var n := |blocks| - 1;
      var front := blocks[..n];
      LinesFollowKeptBlocks(front);
      assert forall i :: 0 <= i < n ==> front[i] == blocks[i];
    }
  }

  /** Assembly distributes over concatenation of block runs. */
  lemma {:induction false} LinesAppend(a: seq<Block>, b: seq<Block>)
    ensures Lines(a + b) == Lines(a) + Lines(b)
    decreases |b|
  {
    if |b| == 0 {
      assert a + b == a;
    } else {
      var n := |b| - 1;
      assert (a + b)[..|a + b| - 1] == a + b[..n];
      assert (a + b)[|a + b| - 1] == b[n];
      LinesAppend(a, b[..n]);
    }
  }

  /** A single block contributes exactly one line when kept and none
      otherwise. */
  lemma LinesOfOne(b: Block)
    ensures Lines([b]) == if Kept(b) then [LineOf(b)] else []
  {
    assert [b][..0] == [];
  }

  /** The transcript is empty exactly when no block is kept. */
  lemma NoLinesIffNoneKept(blocks: seq<Block>)
    ensures Lines(blocks) == [] <==> forall i :: 0 <= i < |blocks| ==> !Kept(blocks[i])
  {
    LinesFollowKeptBlocks(blocks);
    var ks := KeptIndices(blocks);
    if Lines(blocks) != [] {
      assert ks[0] < |blocks| && Kept(blocks[ks[0]]);
    }
  }

  /** Every block is kept exactly when every position is a kept one. */
  lemma {:induction false} AllKeptIndices(blocks: seq<Block>)
    ensures |KeptIndices(blocks)| == |blocks| ==> forall i :: 0 <= i < |blocks| ==> Kept(blocks[i])
    ensures (forall i :: 0 <= i < |blocks| ==> Kept(blocks[i])) ==> |KeptIndices(blocks)| == |blocks|
    decreases |blocks|
  {
    if |blocks| > 0 {
      var n := |blocks| - 1;
      var front := blocks[..n];
      AllKeptIndices(front);
      var m := |KeptIndices(front)|;
      assert m <= n;
      assert |KeptIndices(blocks)| == m + (if Kept(blocks[n]) then 1 else 0);
      if |KeptIndices(blocks)| == |blocks| {
        assert Kept(blocks[n]) && m == n;
        forall i | 0 <= i < |blocks|
          ensures Kept(blocks[i])
        {
          if i < n {
            assert Kept(front[i]) && front[i] == blocks[i];
          }
        }
      }
      if forall i :: 0 <= i < |blocks| ==> Kept(blocks[i]) {
        forall i | 0 <= i < n
          ensures Kept(front[i])
        {
          assert front[i] == blocks[i];
        }
        assert m == n;
      }
    }
  }

  /** Every block yields a line exactly when every block is kept. */
  lemma AllLinesIffAllKept(blocks: seq<Block>)
    ensures |Lines(blocks)| == |blocks| <==> forall i :: 0 <= i < |blocks| ==> Kept(blocks[i])
  {
    LinesFollowKeptBlocks(blocks);
    AllKeptIndices(blocks);
  }

  /** The loop at main.py:45-72: walk the blocks in order, appending one
      formatted line for each block whose utterance is non-empty. */
  method AssembleLines(blocks: seq<Block>) returns (results: seq<string>)
    ensures results == Lines(blocks)
  {
    results := [];
    var i := 0;
    while i < |blocks|
      invariant 0 <= i <= |blocks|
      invariant results == Lines(blocks[..i])
    {
      var block := blocks[i];
      var speaker := Speaker(block);
      var timestamp := Timestamp(block);
      var utterance := Utterance(block);
      if utterance != "" {
        results := results + [FormatLine(speaker, timestamp, utterance)];
      }
      assert blocks[..i + 1][..i] == blocks[..i];
      i := i + 1;
    }
    assert blocks[..i] == blocks;
  }
}
