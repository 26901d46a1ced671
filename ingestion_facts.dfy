/** What `processAndSaveText` and `search` send to the outside world, stated
    without the step-by-step threading of the request history. */
module IngestionFacts {
  import opened Common
  import opened External
  import opened VectorService
  import Chunking

  /** One embeddings request per chunk, in chunk order. */
  function EmbedRequests(model: string, chunks: seq<string>): (r: seq<Request>)
    ensures |r| == |chunks|
  {
    seq(|chunks|, i requires 0 <= i < |chunks| => Embeddings(model, [chunks[i]]))
  }

  /** The reply to chunk i's request, once the requests of chunks 0..i have
      been sent after `log`. */
  function ReplyTo(s: Services, model: string, log: seq<Request>, chunks: seq<string>, i: nat): Result<seq<Vector>>
    requires i < |chunks|
  {
    s.embedReply(log + EmbedRequests(model, chunks[..i + 1]))
  }

  function ItemsOf(r: Result<seq<Vector>>): seq<Vector>
  {
    if r.Ok? then r.value else []
  }

  /** Reference definition of the gathered vectors: for each of the first n
      chunks in order, every vector of the reply to that chunk, tagged with it. */
  function TaggedUpTo(s: Services, model: string, log: seq<Request>, chunks: seq<string>, n: nat): seq<Tagged>
    requires n <= |chunks|
    decreases n
  {
    if n == 0 then []
    else TaggedUpTo(s, model, log, chunks, n - 1) + TagAll(chunks[n - 1], ItemsOf(ReplyTo(s, model, log, chunks, n - 1)))
  }

  // ---------------------------------------------------------------------------
  // Moving the first chunk into the history

  lemma EmbedRequestsShift(model: string, chunks: seq<string>, k: nat)
    requires chunks != [] && k < |chunks|
    ensures EmbedRequests(model, chunks[..k + 1]) == [Embeddings(model, [chunks[0]])] + EmbedRequests(model, chunks[1..][..k])
  {
  }

  lemma ReplyToShift(s: Services, model: string, log: seq<Request>, chunks: seq<string>, k: nat)
    requires chunks != [] && k + 1 < |chunks|
    ensures ReplyTo(s, model, log, chunks, k + 1)
         == ReplyTo(s, model, log + [Embeddings(model, [chunks[0]])], chunks[1..], k)
  {
    EmbedRequestsShift(model, chunks, k + 1);
    assert log + ([Embeddings(model, [chunks[0]])] + EmbedRequests(model, chunks[1..][..k + 1]))
        == (log + [Embeddings(model, [chunks[0]])]) + EmbedRequests(model, chunks[1..][..k + 1]);
  }

  /** Sequence associativity, stated once so that `TaggedUpToShift` can use
      it without the solver searching for it in a large context. */
  lemma ConcatAssoc<T>(a: seq<T>, b: seq<T>, c: seq<T>)
    ensures (a + b) + c == a + (b + c)
  {
  }

  lemma {:induction false} TaggedUpToShift(s: Services, model: string, log: seq<Request>, chunks: seq<string>, n: nat)
    requires chunks != [] && n < |chunks|
    ensures TaggedUpTo(s, model, log, chunks, n + 1)
         == TagAll(chunks[0], ItemsOf(ReplyTo(s, model, log, chunks, 0)))
            + TaggedUpTo(s, model, log + [Embeddings(model, [chunks[0]])], chunks[1..], n)
    decreases n
  {
    var head := TagAll(chunks[0], ItemsOf(ReplyTo(s, model, log, chunks, 0)));
    var log' := log + [Embeddings(model, [chunks[0]])];
    if n == 0 {
      assert TaggedUpTo(s, model, log, chunks, 1) == [] + head;
      assert TaggedUpTo(s, model, log', chunks[1..], 0) == [];
    } else {
      var before := TaggedUpTo(s, model, log', chunks[1..], n - 1);
      var last := TagAll(chunks[n], ItemsOf(ReplyTo(s, model, log, chunks, n)));
      TaggedUpToShift(s, model, log, chunks, n - 1);
      ReplyToShift(s, model, log, chunks, n - 1);
      assert chunks[1..][n - 1] == chunks[n];
      assert TaggedUpTo(s, model, log', chunks[1..], n) == before + last;
      assert TaggedUpTo(s, model, log, chunks, n + 1) == (head + before) + last;
      ConcatAssoc(head, before, last);
    }
  }

  // ---------------------------------------------------------------------------
  // The embedding phase

  /** What the embedding phase `e` over `chunks` did: its requests are those
      of a prefix of the chunks; all replies succeeded and every chunk was
      sent, or the last request sent got the failing reply and the ones
      before it succeeded; the gathered vectors are those of the chunks
      whose replies succeeded. */
  ghost predicate PhaseFacts(s: Services, model: string, log: seq<Request>, chunks: seq<string>, e: EmbedRun)
  {
    && |e.requests| <= |chunks|
    && e.requests == EmbedRequests(model, chunks[..|e.requests|])
    && (e.failure.None? ==>
          && |e.requests| == |chunks|
          && (forall i :: 0 <= i < |chunks| ==> ReplyTo(s, model, log, chunks, i).Ok?)
          && e.tagged == TaggedUpTo(s, model, log, chunks, |chunks|))
    && (e.failure.Some? ==>
          && 0 < |e.requests|
          && (forall i :: 0 <= i < |e.requests| - 1 ==> ReplyTo(s, model, log, chunks, i).Ok?)
          && ReplyTo(s, model, log, chunks, |e.requests| - 1) == Err(e.failure.value)
          && e.tagged == TaggedUpTo(s, model, log, chunks, |e.requests| - 1))
  }

  lemma PhaseFactsStop(s: Services, model: string, log: seq<Request>, chunks: seq<string>, ex: Exception)
    requires chunks != [] && s.embedReply(log + [Embeddings(model, [chunks[0]])]) == Err(ex)
    ensures PhaseFacts(s, model, log, chunks, EmbedChunks(s, model, log, chunks))
  {
    var req := Embeddings(model, [chunks[0]]);
    assert EmbedRequests(model, chunks[..1]) == [req];
    assert ReplyTo(s, model, log, chunks, 0) == s.embedReply(log + [req]);
    assert EmbedChunks(s, model, log, chunks) == EmbedRun([req], [], Some(ex));
  }

  lemma PhaseFactsGo(s: Services, model: string, log: seq<Request>, chunks: seq<string>, items: seq<Vector>)
    requires chunks != [] && s.embedReply(log + [Embeddings(model, [chunks[0]])]) == Ok(items)
    requires var log' := log + [Embeddings(model, [chunks[0]])];
             PhaseFacts(s, model, log', chunks[1..], EmbedChunks(s, model, log', chunks[1..]))
    ensures PhaseFacts(s, model, log, chunks, EmbedChunks(s, model, log, chunks))
  {
    var req := Embeddings(model, [chunks[0]]);
    var log' := log + [req];
    var rest := EmbedChunks(s, model, log', chunks[1..]);
    var e := EmbedChunks(s, model, log, chunks);
    assert EmbedRequests(model, chunks[..1]) == [req];
    assert ReplyTo(s, model, log, chunks, 0) == Ok(items);
    assert e == EmbedRun([req] + rest.requests, TagAll(chunks[0], items) + rest.tagged, rest.failure);
    var m := |rest.requests|;
    EmbedRequestsShift(model, chunks, m);
    forall i | 0 < i <= m && i < |chunks|
      ensures ReplyTo(s, model, log, chunks, i) == ReplyTo(s, model, log', chunks[1..], i - 1)
    {
      ReplyToShift(s, model, log, chunks, i - 1);
    }
    if rest.failure.None? {
      TaggedUpToShift(s, model, log, chunks, |chunks| - 1);
      assert chunks[..|e.requests|] == chunks;
    } else {
      TaggedUpToShift(s, model, log, chunks, m - 1);
    }
  }

  /** The embedding phase sends one request per chunk, in chunk order, and
      stops at the first failing reply. It gathers, for every chunk it got
      through, every vector of that chunk's reply in reply order; when a reply
      fails, that failure is the phase's and nothing later is sent. */
  lemma {:induction false} EmbedPhase(s: Services, model: string, log: seq<Request>, chunks: seq<string>)
    ensures PhaseFacts(s, model, log, chunks, EmbedChunks(s, model, log, chunks))
    decreases |chunks|
  {
    if chunks == [] {
      assert chunks[..0] == [];
    } else {
      var log' := log + [Embeddings(model, [chunks[0]])];
      match s.embedReply(log')
      case Err(ex) =>
        PhaseFactsStop(s, model, log, chunks, ex);
      case Ok(items) =>
        EmbedPhase(s, model, log', chunks[1..]);
        PhaseFactsGo(s, model, log, chunks, items);
    }
  }

  // ---------------------------------------------------------------------------
  // The whole ingestion

  /** If any chunk's embedding fails, that failure is the outcome of the
      ingestion, and nothing but embeddings requests was sent: no lookup, no
      create and no upsert. */
  lemma EmbeddingFailureUpsertsNothing(s: Services, model: string, name: string, log: seq<Request>, issued: nat, text: string)
    requires EmbedChunks(s, model, log, Chunking.Chunks(text, ChunkSize, ChunkOverlap)).failure.Some?
    ensures var chunks := Chunking.Chunks(text, ChunkSize, ChunkOverlap);
            var run := Ingest(s, model, name, log, issued, text);
            && 0 < |run.requests| <= |chunks|
            && run.requests == EmbedRequests(model, chunks[..|run.requests|])
            && ReplyTo(s, model, log, chunks, |run.requests| - 1).Err?
            && run.outcome == Fail(ReplyTo(s, model, log, chunks, |run.requests| - 1).error)
            && (forall i :: 0 <= i < |run.requests| ==> run.requests[i].Embeddings?)
  {
    EmbedPhase(s, model, log, Chunking.Chunks(text, ChunkSize, ChunkOverlap));
  }

  /** When every embedding succeeds, the ingestion sends the embeddings
      requests of all chunks, then the collection bootstrap, then a single
      upsert, last, of the whole batch: one point per returned vector, in
      chunk order, each with fresh id and payload {"content": its chunk}. The
      upsert is skipped only when the bootstrap create fails. */
  lemma SuccessfulEmbeddingUpsertsWholeBatch(s: Services, model: string, name: string, log: seq<Request>, issued: nat, text: string)
    requires EmbedChunks(s, model, log, Chunking.Chunks(text, ChunkSize, ChunkOverlap)).failure.None?
    ensures var chunks := Chunking.Chunks(text, ChunkSize, ChunkOverlap);
            var points := PointsFrom(TaggedUpTo(s, model, log, chunks, |chunks|), issued);
            var save := SaveVectorRun(s, name, log + EmbedRequests(model, chunks), points);
            var run := Ingest(s, model, name, log, issued, text);
            && run.requests == EmbedRequests(model, chunks) + save.requests
            && run.outcome == save.outcome
            && run.issuedIds == issued + |points|
            && (forall i :: 0 <= i < |chunks| ==> ReplyTo(s, model, log, chunks, i).Ok?)
            && (forall i :: 0 <= i < |run.requests| && run.requests[i].Upsert? ==>
                  i == |run.requests| - 1 && run.requests[i] == Upsert(name, points))
            && (Upsert(name, points) !in run.requests ==> run.outcome.Fail?)
  {
    var chunks := Chunking.Chunks(text, ChunkSize, ChunkOverlap);
    EmbedPhase(s, model, log, chunks);
    assert chunks[..|chunks|] == chunks;
    var points := PointsFrom(TaggedUpTo(s, model, log, chunks, |chunks|), issued);
    var save := SaveVectorRun(s, name, log + EmbedRequests(model, chunks), points);
    var run := Ingest(s, model, name, log, issued, text);
    forall i | 0 <= i < |run.requests| && run.requests[i].Upsert?
      ensures i == |run.requests| - 1 && run.requests[i] == Upsert(name, points)
    {
      if i >= |chunks| {
        assert run.requests[i] == save.requests[i - |chunks|];
      }
    }
  }

  /** `saveVector` sends the create request at most once and the upsert of
      the batch at most once, and a create that succeeds is always followed
      by that upsert. */
  lemma CollectionCreatedAtMostOnce(s: Services, name: string, log: seq<Request>, points: seq<PointStruct>)
    ensures var r := SaveVectorRun(s, name, log, points);
            && multiset(r.requests)[CreateCollection(name, CollectionParams)] <= 1
            && multiset(r.requests)[Upsert(name, points)] <= 1
            && (var created := log + [GetCollectionInfo(name), CreateCollection(name, CollectionParams)];
                s.storeReply(created).Pass? ==> r.requests[|r.requests| - 1] == Upsert(name, points))
  {
    var r := SaveVectorRun(s, name, log, points);
    if |r.requests| == 2 {
      assert r.requests == [r.requests[0], r.requests[1]];
      assert multiset(r.requests) == multiset{r.requests[0], r.requests[1]};
    } else {
      assert r.requests == [r.requests[0], r.requests[1], r.requests[2]];
      assert multiset(r.requests) == multiset{r.requests[0], r.requests[1], r.requests[2]};
    }
  }

  /** The gathered vectors are tagged only with chunks of the text, each
      chunk's vectors standing after those of every earlier chunk. */
  lemma {:induction false} TaggedComeFromChunks(s: Services, model: string, log: seq<Request>, chunks: seq<string>, n: nat)
    requires n <= |chunks|
    ensures forall t :: t in TaggedUpTo(s, model, log, chunks, n) ==> t.chunk in chunks[..n]
    decreases n
  {
    if n > 0 {
      TaggedComeFromChunks(s, model, log, chunks, n - 1);
      assert chunks[..n] == chunks[..n - 1] + [chunks[n - 1]];
    }
  }

  /** The points of a batch carry pairwise distinct ids that the UUID supply
      had not handed out before, and each one's payload is exactly
      {"content": its chunk}. */
  lemma PointsAreFreshAndTagged(tagged: seq<Tagged>, first: nat)
    ensures var points := PointsFrom(tagged, first);
      && |points| == |tagged|
      && (forall i, j :: 0 <= i < j < |points| ==> points[i].id != points[j].id)
      && (forall i :: 0 <= i < |points| ==> points[i].id.Uuid? && points[i].id.serial >= first)
      && (forall i :: 0 <= i < |points| ==>
            points[i].payload == map[ContentKey := tagged[i].chunk] && points[i].vector == tagged[i].vector)
  {
  }

  // ---------------------------------------------------------------------------
  // The search query

  /** The query vector holds every returned embedding, in order, end to end;
      for the usual single embedding it is that embedding. */
  lemma {:induction false} QueryVectorIsEmbeddingsInOrder(name: string, embeddings: seq<Vector>, v: Vector)
    ensures SearchRequest(name, embeddings + [v]).vector == SearchRequest(name, embeddings).vector + v
    ensures SearchRequest(name, [v]).vector == v
  {
    ConcatAppend(embeddings, [v]);
  }

  /** A failed query embedding or a failed search is reported as such, never as
      an empty result; a successful search returns the store's list as it is. */
  lemma SearchNeverHidesFailure(s: Services, model: string, name: string, log: seq<Request>, text: string)
    ensures var run := SearchRun(s, model, name, log, text);
      && (run.result.Ok? ==> s.searchReply(log + run.requests) == run.result && |run.requests| == 2)
      && (s.embedReply(log + [Embeddings(model, [text])]).Err? ==> run.result.Err?)
  {
  }
}
