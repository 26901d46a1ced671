/** The text splitter of `SimpleVectorService.splitText`: fixed-size windows
    that start every `chunkSize - overlap` characters and are clipped at the
    end of the text. Lengths and positions count the characters of a Dafny
    string; Java counts UTF-16 code units, which differ only beyond the Basic
    Multilingual Plane. */
module Chunking {

  function Min(a: int, b: int): int { if a <= b then a else b }

  /** Integer division of `n` by `d`, rounded up. */
  function CeilDiv(n: nat, d: nat): nat
    requires 0 < d
  {
    (n + d - 1) / d
  }

  /** The windows the splitter emits once its cursor stands at `start`. */
  function ChunksFrom(text: string, size: nat, step: nat, start: nat): seq<string>
    requires 0 < step
    decreases |text| - start
  {
    if start >= |text| then []
    else [text[start..Min(start + size, |text|)]] + ChunksFrom(text, size, step, start + step)
  }

  /** Every window of the text, in increasing start order. */
  function Chunks(text: string, chunkSize: nat, overlap: nat): seq<string>
    requires overlap < chunkSize
  {
    ChunksFrom(text, chunkSize, chunkSize - overlap, 0)
  }

  /** `splitText(text, chunkSize, overlap)`. The Java code never checks its
      arguments: with `overlap == chunkSize` its cursor never moves, with a
      larger overlap the cursor goes negative and the second `substring`
      throws, and a negative overlap skips characters between windows. */
  method SplitText(text: string, chunkSize: int, overlap: int) returns (chunks: seq<string>)
    requires 0 <= overlap < chunkSize
    ensures chunks == Chunks(text, chunkSize, overlap)
  {
    chunks := [];
    var start := 0;
    while start < |text|
      invariant 0 <= start
      invariant chunks + ChunksFrom(text, chunkSize, chunkSize - overlap, start) == Chunks(text, chunkSize, overlap)
      decreases |text| - start
    {
      var end := Min(start + chunkSize, |text|);
      var chunk := text[start..end];
      chunks := chunks + [chunk];
      start := start + (chunkSize - overlap);
    }
  }

  // ---------------------------------------------------------------------------
  // How many chunks there are, and which characters each one holds

  lemma MulAtLeast(k: nat, d: nat)
    requires 1 <= k
    ensures d <= k * d
  {
    assert k * d == d + (k - 1) * d;
  }

  lemma DivUnique(x: nat, d: nat, q: nat, r: nat)
    requires 0 < d && r < d && x == q * d + r
    ensures x / d == q
  {
    var q', r' := x / d, x % d;
    assert x == q' * d + r';
    if q' > q {
      assert (q' - q) * d == q' * d - q * d;
      MulAtLeast(q' - q, d);
    } else if q > q' {
      assert (q - q') * d == q * d - q' * d;
      MulAtLeast(q - q', d);
    }
  }

  lemma CeilDivStep(m: nat, d: nat)
    requires 0 < d < m
    ensures CeilDiv(m, d) == 1 + CeilDiv(m - d, d)
  {
    var x := m - d + d - 1;
    var q, r := x / d, x % d;
    assert x == q * d + r;
    assert m + d - 1 == (q + 1) * d + r;
    DivUnique(m + d - 1, d, q + 1, r);
  }

  lemma CeilDivOne(m: nat, d: nat)
    requires 0 < m <= d
    ensures CeilDiv(m, d) == 1
  {
    DivUnique(m + d - 1, d, 1, m - 1);
  }

  lemma {:induction false} ChunksFromCount(text: string, size: nat, step: nat, start: nat)
    requires 0 < step
    ensures |ChunksFrom(text, size, step, start)| == if start >= |text| then 0 else CeilDiv(|text| - start, step)
    decreases |text| - start
  {
    if start < |text| {
      ChunksFromCount(text, size, step, start + step);
      var m := |text| - start;
      if m <= step {
        CeilDivOne(m, step);
      } else {
        CeilDivStep(m, step);
      }
    }
  }

  /** Empty text yields no chunks; otherwise there are
      ceil(|text| / (chunkSize - overlap)) of them. */
  lemma ChunkCount(text: string, chunkSize: nat, overlap: nat)
    requires overlap < chunkSize
    ensures |Chunks(text, chunkSize, overlap)| == CeilDiv(|text|, chunkSize - overlap)
    ensures Chunks(text, chunkSize, overlap) == [] <==> text == []
  {
    ChunksFromCount(text, chunkSize, chunkSize - overlap, 0);
    if text != [] {
      assert Chunks(text, chunkSize, overlap)[0] == text[0..Min(chunkSize, |text|)];
    }
  }

  /** Where window k starts, counted in steps from the first window. */
  function Offset(k: nat, step: nat): nat
  {
    k * step
  }

  lemma {:induction false} ChunksFromAt(text: string, size: nat, step: nat, start: nat, k: nat)
    requires 0 < step
    requires k < |ChunksFrom(text, size, step, start)|
    ensures start + Offset(k, step) < |text|
    ensures ChunksFrom(text, size, step, start)[k]
         == text[start + Offset(k, step)..Min(start + Offset(k, step) + size, |text|)]
    decreases k
  {
    if k > 0 {
      ChunksFromAt(text, size, step, start + step, k - 1);
      assert step + Offset(k - 1, step) == Offset(k, step);
    }
  }

  /** Chunk k is the window of the text that starts at k * (chunkSize - overlap)
      and is clipped at the end of the text. */
  lemma ChunkAt(text: string, chunkSize: nat, overlap: nat, k: nat)
    requires overlap < chunkSize
    requires k < |Chunks(text, chunkSize, overlap)|
    ensures Offset(k, chunkSize - overlap) < |text|
    ensures Chunks(text, chunkSize, overlap)[k]
         == text[Offset(k, chunkSize - overlap)..Min(Offset(k, chunkSize - overlap) + chunkSize, |text|)]
  {
    ChunksFromAt(text, chunkSize, chunkSize - overlap, 0, k);
  }

  lemma WindowLength(text: string, start: nat, size: nat)
    requires start < |text| && 0 < size
    ensures 0 < |text[start..Min(start + size, |text|)]| <= size
    ensures |text[start..Min(start + size, |text|)]| == size <==> start + size <= |text|
  {
  }

  /** Every chunk is non-empty and at most chunkSize long, and it is full-size
      exactly when its window fits inside the text. Nothing says that only
      the last chunk is short: see TwoShortTails. */
  lemma ChunkLength(text: string, chunkSize: nat, overlap: nat, k: nat)
    requires overlap < chunkSize
    requires k < |Chunks(text, chunkSize, overlap)|
    ensures 0 < |Chunks(text, chunkSize, overlap)[k]| <= chunkSize
    ensures |Chunks(text, chunkSize, overlap)[k]| == chunkSize
        <==> Offset(k, chunkSize - overlap) + chunkSize <= |text|
  {
    ChunkAt(text, chunkSize, overlap, k);
    WindowLength(text, Offset(k, chunkSize - overlap), chunkSize);
  }

  /** With the sizes the ingestion uses, a 940-character text yields chunks of
      500, 490 and 40 characters: two of them are short. */
  lemma TwoShortTails(text: string)
    requires |text| == 940
    ensures |Chunks(text, 500, 50)| == 3
    ensures |Chunks(text, 500, 50)[0]| == 500
    ensures |Chunks(text, 500, 50)[1]| == 490
    ensures |Chunks(text, 500, 50)[2]| == 40
  {
    ChunkCount(text, 500, 50);
    ChunkAt(text, 500, 50, 0);
    ChunkAt(text, 500, 50, 1);
    ChunkAt(text, 500, 50, 2);
  }

  /** A text no longer than one step is a single chunk. */
  lemma ShortTextIsOneChunk(text: string, chunkSize: nat, overlap: nat)
    requires overlap < chunkSize
    requires 0 < |text| <= chunkSize - overlap
    ensures Chunks(text, chunkSize, overlap) == [text]
  {
    var step := chunkSize - overlap;
    assert ChunksFrom(text, chunkSize, step, step) == [];
    assert Chunks(text, chunkSize, overlap) == [text[0..Min(chunkSize, |text|)]] + [];
    assert text[0..|text|] == text;
  }

  /** A text that fits in one window but is longer than one step is still cut
      twice: a 500-character text gives a second chunk of its last 50
      characters, which the first chunk already holds. */
  lemma FullWindowTextSplitsTwice(text: string)
    requires |text| == 500
    ensures Chunks(text, 500, 50) == [text, text[450..]]
  {
    assert ChunksFrom(text, 500, 450, 900) == [];
    assert ChunksFrom(text, 500, 450, 450) == [text[450..500]] + [];
    assert Chunks(text, 500, 50) == [text[0..500]] + ChunksFrom(text, 500, 450, 450);
    assert text[0..500] == text;
  }

  // ---------------------------------------------------------------------------
  // Reassembling the text from its chunks

  /** The later chunks, each without its first min(overlap, |chunk|) characters. */
  function Tails(chunks: seq<string>, overlap: nat): string
  {
    if chunks == [] then []
    else chunks[0][Min(overlap, |chunks[0]|)..] + Tails(chunks[1..], overlap)
  }

  /** The first chunk followed by the trimmed later ones. */
  function Glue(chunks: seq<string>, overlap: nat): string
  {
    if chunks == [] then [] else chunks[0] + Tails(chunks[1..], overlap)
  }

  /** Dropping the first `d` characters of the slice text[a..b]. */
  lemma TrimSlice(text: string, a: nat, b: nat, d: nat)
    requires a <= b <= |text|
    ensures text[a..b][Min(d, b - a)..] == text[Min(a + d, b)..b]
  {
  }

  lemma SliceJoin(text: string, a: nat, b: nat)
    requires a <= b <= |text|
    ensures text[a..b] + text[b..] == text[a..]
  {
  }

  /** One step of `Tails` over the windows from `start`. */
  lemma TailsStep(text: string, size: nat, overlap: nat, start: nat)
    requires overlap < size && start < |text|
    ensures var c := text[start..Min(start + size, |text|)];
            Tails(ChunksFrom(text, size, size - overlap, start), overlap)
            == c[Min(overlap, |c|)..] + Tails(ChunksFrom(text, size, size - overlap, start + (size - overlap)), overlap)
  {
    var c := text[start..Min(start + size, |text|)];
    var rest := ChunksFrom(text, size, size - overlap, start + (size - overlap));
    assert ChunksFrom(text, size, size - overlap, start) == [c] + rest;
    assert ([c] + rest)[1..] == rest;
  }

  /** The windows from `start` once the windows from the next cursor are known. */
  lemma TailsFromStep(text: string, size: nat, overlap: nat, start: nat)
    requires overlap < size && start < |text|
    requires Tails(ChunksFrom(text, size, size - overlap, start + (size - overlap)), overlap)
          == text[Min(start + (size - overlap) + overlap, |text|)..]
    ensures Tails(ChunksFrom(text, size, size - overlap, start), overlap) == text[Min(start + overlap, |text|)..]
  {
    var n := |text|;
    var e := Min(start + size, n);
    var m := Min(start + overlap, n);
    TailsStep(text, size, overlap, start);
    assert Min(start + (size - overlap) + overlap, n) == e;
    TrimSlice(text, start, e, overlap);
    assert Min(start + overlap, e) == m;
    SliceJoin(text, m, e);
  }

  lemma {:induction false} TailsFrom(text: string, size: nat, overlap: nat, start: nat)
    requires overlap < size
    ensures Tails(ChunksFrom(text, size, size - overlap, start), overlap) == text[Min(start + overlap, |text|)..]
    decreases |text| - start
  {
    if start < |text| {
      TailsFrom(text, size, overlap, start + (size - overlap));
      TailsFromStep(text, size, overlap, start);
    } else {
      TailsPastEnd(text, size, overlap, start);
    }
  }

  lemma TailsPastEnd(text: string, size: nat, overlap: nat, start: nat)
    requires overlap < size && |text| <= start
    ensures Tails(ChunksFrom(text, size, size - overlap, start), overlap) == text[Min(start + overlap, |text|)..]
  {
  }

  /** Gluing the chunks back together, overlap trimmed, gives the text back. */
  lemma Reassemble(text: string, chunkSize: nat, overlap: nat)
    requires overlap < chunkSize
    ensures Glue(Chunks(text, chunkSize, overlap), overlap) == text
  {
    var step := chunkSize - overlap;
    if text != [] {
      var c := text[0..Min(chunkSize, |text|)];
      var rest := ChunksFrom(text, chunkSize, step, step);
      assert Chunks(text, chunkSize, overlap) == [c] + rest;
      assert ([c] + rest)[1..] == rest;
      TailsFrom(text, chunkSize, overlap, step);
      assert step + overlap == chunkSize;
      assert text == c + text[Min(chunkSize, |text|)..];
    }
  }
}
