/** The streaming loop of `main` (app.py): the answer goes out in consecutive
    five-character slices. The messaging calls and the pause between slices
    are not modelled; the streamed slices are the result. */
module Stream {
  import opened Common

  const ChunkSize := 5

  /** `chunks` is `text` cut at offsets 0, 5, 10, …: there are
      ceil(|text| / 5) of them and chunk k is Python's `text[5k:5k+5]`. */
  predicate IsChunking(chunks: seq<string>, text: string) {
    && |chunks| == (|text| + ChunkSize - 1) / ChunkSize
    && forall k :: 0 <= k < |chunks| ==>
         ChunkSize * k < |text| && chunks[k] == text[ChunkSize * k .. Min(ChunkSize * k + ChunkSize, |text|)]
  }

  /** The first m chunks, put back together, are the first 5m characters. */
  lemma {:induction false} ChunkPrefix(chunks: seq<string>, text: string, m: nat)
    requires IsChunking(chunks, text) && m <= |chunks|
    ensures Concat(chunks[..m]) == text[..Min(ChunkSize * m, |text|)]
  {
    if m > 0 {
      ChunkPrefix(chunks, text, m - 1);
      assert chunks[..m][..m - 1] == chunks[..m - 1];
      var lo, hi := ChunkSize * (m - 1), Min(ChunkSize * m, |text|);
      assert chunks[..m][m - 1] == text[lo..hi];
      assert text[..lo] + text[lo..hi] == text[..hi];
    }
  }

  /** Fragment reconstruction: the chunks in emission order give back the
      text exactly, with no gap and no overlap. */
  lemma ChunksReassemble(chunks: seq<string>, text: string)
    requires IsChunking(chunks, text)
    ensures Concat(chunks) == text
  {
    ChunkPrefix(chunks, text, |chunks|);
    assert chunks[..|chunks|] == chunks;
    assert text[..|text|] == text;
  }

  /** Every chunk but the last is five characters long, the last one is not
      empty, and an empty text gives no chunk at all. */
  lemma ChunkSizes(chunks: seq<string>, text: string)
    requires IsChunking(chunks, text)
    ensures chunks == [] <==> text == ""
    ensures forall k :: 0 <= k < |chunks| - 1 ==> |chunks[k]| == ChunkSize
    ensures chunks != [] ==> 0 < |chunks[|chunks| - 1]| <= ChunkSize
  {
  }

  /** An answer of twelve characters goes out as three chunks of 5, 5 and
      2 characters. */
  lemma TwelveCharacters(chunks: seq<string>, text: string)
    requires IsChunking(chunks, text) && |text| == 12
    ensures |chunks| == 3 && |chunks[0]| == 5 && |chunks[1]| == 5 && |chunks[2]| == 2
  {
  }

  /** `for i in range(0, len(full_text), 5)`: emit `full_text[i:i + 5]`,
      in order. */
  method StreamChunks(fullText: string) returns (chunks: seq<string>)
    ensures IsChunking(chunks, fullText)
    ensures Concat(chunks) == fullText
  {
    chunks := [];
    var i := 0;
    while i < |fullText|
      invariant i == ChunkSize * |chunks| < |fullText| + ChunkSize
      invariant forall k :: 0 <= k < |chunks| ==>
        ChunkSize * k < |fullText| &&
        chunks[k] == fullText[ChunkSize * k .. Min(ChunkSize * k + ChunkSize, |fullText|)]
      invariant Concat(chunks) == fullText[..Min(i, |fullText|)]
    {
      var chunk := fullText[i .. Min(i + ChunkSize, |fullText|)];
      assert (chunks + [chunk])[..|chunks|] == chunks;
      assert fullText[..i] + chunk == fullText[..Min(i + ChunkSize, |fullText|)];
      chunks := chunks + [chunk];
      i := i + ChunkSize;
    }
    assert fullText[..|fullText|] == fullText;
  }
}
