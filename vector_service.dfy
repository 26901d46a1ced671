/** `SimpleVectorService`: the ingestion pipeline (chunk, embed, build points,
    bootstrap the collection, upsert) and the nearest-neighbour search. */
module VectorService {
  import opened Common
  import opened External
  import Chunking

  const ChunkSize: nat := 500
  const ChunkOverlap: nat := 50
  /** The collection `createCollection` asks for: cosine distance over
      1536-component vectors. */
  const CollectionParams := VectorParams(Cosine, 1536)
  const SearchLimit: nat := 50
  /** `0.8f`; the model keeps the decimal value. */
  const ScoreThreshold: Float := 0.8
  const ContentKey := "content"

  /** A point carrying `vector` whose payload is exactly {"content": chunk}. */
  function PointOf(id: PointId, vector: Vector, chunk: string): (p: PointStruct)
    ensures p.payload.Keys == {ContentKey} && p.payload[ContentKey] == chunk
    ensures p.id == id && p.vector == vector
  {
    PointStruct(id, vector, map[ContentKey := chunk])
  }

  // ---------------------------------------------------------------------------
  // The embedding phase of processAndSaveText

  /** An embedding vector and the chunk it was computed for. */
  datatype Tagged = Tagged(chunk: string, vector: Vector)

  function TagAll(chunk: string, items: seq<Vector>): seq<Tagged>
  {
    seq(|items|, j requires 0 <= j < |items| => Tagged(chunk, items[j]))
  }

  /** Requests sent, vectors gathered, and the exception that stopped the
      phase if one did. */
  datatype EmbedRun = EmbedRun(requests: seq<Request>, tagged: seq<Tagged>, failure: Option<Exception>)

  /** One embeddings request per chunk, in order; the first failing reply
      stops the phase. */
  function EmbedChunks(s: Services, model: string, log: seq<Request>, chunks: seq<string>): EmbedRun
    decreases |chunks|
  {
    if chunks == [] then EmbedRun([], [], None)
    else
      var req := Embeddings(model, [chunks[0]]);
      match s.embedReply(log + [req])
      case Err(e) => EmbedRun([req], [], Some(e))
      case Ok(items) =>
        var rest := EmbedChunks(s, model, log + [req], chunks[1..]);
        EmbedRun([req] + rest.requests, TagAll(chunks[0], items) + rest.tagged, rest.failure)
  }

  /** The points built from the gathered vectors, with ids drawn in order from
      the UUID supply starting at serial `first`. */
  function PointsFrom(tagged: seq<Tagged>, first: nat): seq<PointStruct>
  {
    seq(|tagged|, k requires 0 <= k < |tagged| => PointOf(Uuid(first + k), tagged[k].vector, tagged[k].chunk))
  }

  lemma PointsFromSnoc(tagged: seq<Tagged>, t: Tagged, first: nat)
    ensures PointsFrom(tagged + [t], first)
         == PointsFrom(tagged, first) + [PointOf(Uuid(first + |tagged|), t.vector, t.chunk)]
  {
  }

  /** One step of the embedding phase: the reply to the first chunk's request
      decides whether the phase stops or goes on from the longer history. */
  lemma EmbedChunksStep(s: Services, model: string, log: seq<Request>, chunks: seq<string>)
    requires chunks != []
    ensures var req := Embeddings(model, [chunks[0]]);
            var e := EmbedChunks(s, model, log, chunks);
            match s.embedReply(log + [req])
            case Err(ex) => e == EmbedRun([req], [], Some(ex))
            case Ok(items) =>
              var rest := EmbedChunks(s, model, log + [req], chunks[1..]);
              e == EmbedRun([req] + rest.requests, TagAll(chunks[0], items) + rest.tagged, rest.failure)
  {
  }

  /** The embedding phase over `chunks`, seen after `sent` has been sent and
      `tagged` gathered for the first `i` chunks, goes on as the phase over
      the chunks still to do. */
  ghost predicate EmbedProgress(all: EmbedRun, s: Services, model: string, log: seq<Request>,
                                sent: seq<Request>, tagged: seq<Tagged>, chunks: seq<string>, i: nat)
    requires i <= |chunks|
  {
    var rest := EmbedChunks(s, model, log + sent, chunks[i..]);
    all == EmbedRun(sent + rest.requests, tagged + rest.tagged, rest.failure)
  }

  lemma EmbedStart(s: Services, model: string, log: seq<Request>, chunks: seq<string>)
    ensures EmbedProgress(EmbedChunks(s, model, log, chunks), s, model, log, [], [], chunks, 0)
  {
    assert chunks[0..] == chunks && log + [] == log;
  }

  lemma EmbedAdvance(all: EmbedRun, s: Services, model: string, log: seq<Request>,
                     sent: seq<Request>, tagged: seq<Tagged>, chunks: seq<string>, i: nat, items: seq<Vector>)
    requires i < |chunks| && EmbedProgress(all, s, model, log, sent, tagged, chunks, i)
    requires s.embedReply(log + sent + [Embeddings(model, [chunks[i]])]) == Ok(items)
    ensures EmbedProgress(all, s, model, log, sent + [Embeddings(model, [chunks[i]])],
                          tagged + TagAll(chunks[i], items), chunks, i + 1)
  {
    var req := Embeddings(model, [chunks[i]]);
    assert log + sent + [req] == log + (sent + [req]);
    assert chunks[i..][0] == chunks[i] && chunks[i..][1..] == chunks[i + 1..];
    EmbedChunksStep(s, model, log + sent, chunks[i..]);
  }

  lemma EmbedStop(all: EmbedRun, s: Services, model: string, log: seq<Request>,
                  sent: seq<Request>, tagged: seq<Tagged>, chunks: seq<string>, i: nat, ex: Exception)
    requires i < |chunks| && EmbedProgress(all, s, model, log, sent, tagged, chunks, i)
    requires s.embedReply(log + sent + [Embeddings(model, [chunks[i]])]) == Err(ex)
    ensures all == EmbedRun(sent + [Embeddings(model, [chunks[i]])], tagged, Some(ex))
  {
    assert chunks[i..][0] == chunks[i];
    EmbedChunksStep(s, model, log + sent, chunks[i..]);
  }

  lemma EmbedDone(all: EmbedRun, s: Services, model: string, log: seq<Request>,
                  sent: seq<Request>, tagged: seq<Tagged>, chunks: seq<string>)
    requires EmbedProgress(all, s, model, log, sent, tagged, chunks, |chunks|)
    ensures all == EmbedRun(sent, tagged, None)
  {
    assert chunks[|chunks|..] == [];
  }

  // ---------------------------------------------------------------------------
  // saveVector, processAndSaveText and search as functions of the history

  /** Requests sent and the completion of a `void` step. */
  datatype Run = Run(requests: seq<Request>, outcome: Outcome)

  /** `saveVector`: look the collection up; if the lookup throws, create it
      (a failing create propagates); then upsert the batch. */
  function SaveVectorRun(s: Services, name: string, log: seq<Request>, points: seq<PointStruct>): (r: Run)
    ensures 2 <= |r.requests| <= 3 && r.requests[0] == GetCollectionInfo(name)
    ensures CreateCollection(name, CollectionParams) in r.requests
        <==> s.storeReply(log + [GetCollectionInfo(name)]).Fail?
    ensures forall i :: 1 <= i < |r.requests| ==> r.requests[i] == CreateCollection(name, CollectionParams) || r.requests[i] == Upsert(name, points)
    ensures Upsert(name, points) in r.requests <==> r.requests[|r.requests| - 1] == Upsert(name, points)
    ensures Upsert(name, points) !in r.requests ==> r.outcome.Fail?
    ensures Upsert(name, points) in r.requests
        <==> s.storeReply(log + [GetCollectionInfo(name)]).Pass?
             || s.storeReply(log + [GetCollectionInfo(name), CreateCollection(name, CollectionParams)]).Pass?
    ensures CreateCollection(name, CollectionParams) in r.requests ==> r.requests[1] == CreateCollection(name, CollectionParams)
    ensures |r.requests| == 3 ==> r.requests[1] == CreateCollection(name, CollectionParams)
                                  && r.requests[2] == Upsert(name, points)
    ensures r.outcome == s.storeReply(log + r.requests)
  {
    var info := GetCollectionInfo(name);
    var upsert := Upsert(name, points);
    if s.storeReply(log + [info]).Pass? then
      Run([info, upsert], s.storeReply(log + [info, upsert]))
    else
      var create := CreateCollection(name, CollectionParams);
      match s.storeReply(log + [info, create])
      case Fail(e) => Run([info, create], Fail(e))
      case Pass => Run([info, create, upsert], s.storeReply(log + [info, create, upsert]))
  }

  /** Requests sent, UUIDs handed out so far, and the outcome of an ingestion. */
  datatype Ingestion = Ingestion(requests: seq<Request>, issuedIds: nat, outcome: Outcome)

  /** `processAndSaveText`: chunk, embed every chunk, build one point per
      returned vector, then save the whole batch. */
  function Ingest(s: Services, model: string, name: string, log: seq<Request>, issued: nat, text: string): Ingestion
  {
    var e := EmbedChunks(s, model, log, Chunking.Chunks(text, ChunkSize, ChunkOverlap));
    match e.failure
    case Some(ex) => Ingestion(e.requests, issued + |e.tagged|, Fail(ex))
    case None =>
      var save := SaveVectorRun(s, name, log + e.requests, PointsFrom(e.tagged, issued));
      Ingestion(e.requests + save.requests, issued + |e.tagged|, save.outcome)
  }

  /** `Ingest` once the embedding phase over the text's chunks is known. */
  lemma IngestAfter(s: Services, model: string, name: string, log: seq<Request>, issued: nat, text: string,
                    sent: seq<Request>, tagged: seq<Tagged>, failure: Option<Exception>)
    requires EmbedChunks(s, model, log, Chunking.Chunks(text, ChunkSize, ChunkOverlap)) == EmbedRun(sent, tagged, failure)
    ensures failure.Some? ==> Ingest(s, model, name, log, issued, text) == Ingestion(sent, issued + |tagged|, Fail(failure.value))
    ensures failure.None? ==>
              var save := SaveVectorRun(s, name, log + sent, PointsFrom(tagged, issued));
              Ingest(s, model, name, log, issued, text) == Ingestion(sent + save.requests, issued + |tagged|, save.outcome)
  {
  }

  /** The request `search` builds from the query embeddings. */
  function SearchRequest(name: string, embeddings: seq<Vector>): (q: SearchPoints)
    ensures q.collectionName == name && q.vector == Concat(embeddings)
    ensures q.limit == 50 && q.withPayload && q.scoreThreshold == 0.8
  {
    SearchPoints(name, Concat(embeddings), SearchLimit, true, ScoreThreshold)
  }

  datatype Searched = Searched(requests: seq<Request>, result: Result<seq<ScoredPoint>>)

  /** `search`: embed the whole query once, then ask the store. */
  function SearchRun(s: Services, model: string, name: string, log: seq<Request>, text: string): (r: Searched)
    ensures 1 <= |r.requests| <= 2 && r.requests[0] == Embeddings(model, [text])
    ensures s.embedReply(log + [Embeddings(model, [text])]).Err? ==>
              r.requests == [Embeddings(model, [text])]
              && r.result == Err(s.embedReply(log + [Embeddings(model, [text])]).error)
    ensures s.embedReply(log + [Embeddings(model, [text])]).Ok? ==>
              r.requests == [Embeddings(model, [text]), Search(SearchRequest(name, s.embedReply(log + [Embeddings(model, [text])]).value))]
              && r.result == s.searchReply(log + r.requests)
  {
    var req := Embeddings(model, [text]);
    match s.embedReply(log + [req])
    case Err(e) => Searched([req], Err(e))
    case Ok(embeddings) =>
      var search := Search(SearchRequest(name, embeddings));
      Searched([req, search], s.searchReply(log + [req, search]))
  }

  // ---------------------------------------------------------------------------
  // The service

  class SimpleVectorService {
    const services: Services
    const embeddingModel: string
    const collectionName: string

    constructor (services: Services, embeddingModel: string, collectionName: string)
      ensures this.services == services
      ensures this.embeddingModel == embeddingModel && this.collectionName == collectionName
    {
      this.services := services;
      this.embeddingModel := embeddingModel;
      this.collectionName := collectionName;
    }

    /** `processAndSaveText(text)`. */
    method ProcessAndSaveText(text: string) returns (r: Outcome)
      modifies services
      ensures var run := Ingest(services, embeddingModel, collectionName, old(services.log), old(services.issuedIds), text);
              services.log == old(services.log) + run.requests
              && services.issuedIds == run.issuedIds
              && r == run.outcome
    {
      var textChunks := Chunking.SplitText(text, ChunkSize, ChunkOverlap);
      ghost var log0 := services.log;
      ghost var issued0 := services.issuedIds;
      ghost var run := Ingest(services, embeddingModel, collectionName, log0, issued0, text);
      var pointStructs, failure, sent, tagged := EmbedChunksToPoints(textChunks);
      IngestAfter(services, embeddingModel, collectionName, log0, issued0, text, sent, tagged, failure);
      if failure.Some? {
        r := Fail(failure.value);
        assert run == Ingestion(sent, issued0 + |tagged|, r);
      } else {
        ghost var save := SaveVectorRun(services, collectionName, log0 + sent, pointStructs);
        r := SaveVector(pointStructs);
        assert run == Ingestion(sent + save.requests, issued0 + |tagged|, r);
        assert services.log == log0 + sent + save.requests == log0 + (sent + save.requests);
      }
    }

    /** The chunk loop of `processAndSaveText`: embed each chunk in turn and
        append one point per returned item; a failing embedding call ends the
        loop with its exception (`failure`), the points built so far unsaved. */
    method EmbedChunksToPoints(textChunks: seq<string>)
      returns (pointStructs: seq<PointStruct>, failure: Option<Exception>, ghost sent: seq<Request>, ghost tagged: seq<Tagged>)
      modifies services
      ensures EmbedChunks(services, embeddingModel, old(services.log), textChunks) == EmbedRun(sent, tagged, failure)
      ensures services.log == old(services.log) + sent
      ensures services.issuedIds == old(services.issuedIds) + |tagged|
      ensures pointStructs == PointsFrom(tagged, old(services.issuedIds))
    {
      pointStructs := [];
      ghost var log0 := services.log;
      ghost var issued0 := services.issuedIds;
      ghost var all := EmbedChunks(services, embeddingModel, log0, textChunks);
      sent := [];
      tagged := [];
      EmbedStart(services, embeddingModel, log0, textChunks);
      for i := 0 to |textChunks|
        invariant services.log == log0 + sent
        invariant services.issuedIds == issued0 + |tagged|
        invariant pointStructs == PointsFrom(tagged, issued0)
        invariant EmbedProgress(all, services, embeddingModel, log0, sent, tagged, textChunks, i)
      {
        var chunk := textChunks[i];
        ghost var req := Embeddings(embeddingModel, [chunk]);
        var next, stop, items := EmbedChunk(chunk, pointStructs, tagged, issued0);
        if stop.Some? {
          EmbedStop(all, services, embeddingModel, log0, sent, tagged, textChunks, i, stop.value);
          sent := sent + [req];
          failure := stop;
          return;
        }
        EmbedAdvance(all, services, embeddingModel, log0, sent, tagged, textChunks, i, items);
        pointStructs := next;
        sent := sent + [req];
        tagged := tagged + TagAll(chunk, items);
      }
      EmbedDone(all, services, embeddingModel, log0, sent, tagged, textChunks);
      failure := None;
    }

    /** One pass of the chunk loop of `processAndSaveText`: embed `chunk`,
        then append one point per returned item; a failing call yields its
        exception and leaves the points as they were. */
    method EmbedChunk(chunk: string, pointStructs: seq<PointStruct>, ghost tagged: seq<Tagged>, ghost issued0: nat)
      returns (next: seq<PointStruct>, failure: Option<Exception>, items: seq<Vector>)
      requires pointStructs == PointsFrom(tagged, issued0)
      requires services.issuedIds == issued0 + |tagged|
      modifies services
      ensures services.log == old(services.log) + [Embeddings(embeddingModel, [chunk])]
      ensures failure.Some? ==> services.embedReply(services.log) == Err(failure.value)
                                && services.issuedIds == old(services.issuedIds)
      ensures failure.None? ==> services.embedReply(services.log) == Ok(items)
                                && next == PointsFrom(tagged + TagAll(chunk, items), issued0)
                                && services.issuedIds == old(services.issuedIds) + |items|
    {
      var embeddings := services.GetEmbeddings(embeddingModel, chunk);
      if embeddings.Err? {
        return pointStructs, Some(embeddings.error), [];
      }
      items := embeddings.value;
      next := AddPoints(pointStructs, chunk, items, tagged, issued0);
      failure := None;
    }

    /** The inner loop of `processAndSaveText`: one point per embedding item
        of `chunk`, each with the next fresh UUID, appended in item order. */
    method AddPoints(pointStructs: seq<PointStruct>, chunk: string, items: seq<Vector>,
                     ghost tagged: seq<Tagged>, ghost issued0: nat) returns (result: seq<PointStruct>)
      requires pointStructs == PointsFrom(tagged, issued0)
      requires services.issuedIds == issued0 + |tagged|
      modifies services
      ensures result == PointsFrom(tagged + TagAll(chunk, items), issued0)
      ensures services.issuedIds == old(services.issuedIds) + |items|
      ensures services.log == old(services.log)
    {
      result := pointStructs;
      for j := 0 to |items|
        invariant services.log == old(services.log)
        invariant services.issuedIds == issued0 + |tagged| + j
        invariant result == PointsFrom(tagged + TagAll(chunk, items[..j]), issued0)
      {
        var point := GetPointStruct(items[j], chunk);
        assert tagged + TagAll(chunk, items[..j + 1]) == tagged + TagAll(chunk, items[..j]) + [Tagged(chunk, items[j])];
        PointsFromSnoc(tagged + TagAll(chunk, items[..j]), Tagged(chunk, items[j]), issued0);
        result := result + [point];
      }
      assert items[..|items|] == items;
    }

    /** `search(text)`: returns the store's list as it comes. */
    method Search(text: string) returns (r: Result<seq<ScoredPoint>>)
      modifies services
      ensures var run := SearchRun(services, embeddingModel, collectionName, old(services.log), text);
              services.log == old(services.log) + run.requests && r == run.result
      ensures services.issuedIds == old(services.issuedIds)
    {
      var embeddings := services.GetEmbeddings(embeddingModel, text);
      if embeddings.Err? {
        return Err(embeddings.error);
      }
      var request := SearchRequest(collectionName, embeddings.value);
      r := services.SearchAsync(request);
    }

    /** `getEmbeddings(text)`. */
    method GetEmbeddings(text: string) returns (r: Result<seq<Vector>>)
      modifies services
      ensures services.log == old(services.log) + [Embeddings(embeddingModel, [text])]
      ensures r == services.embedReply(services.log)
      ensures services.issuedIds == old(services.issuedIds)
    {
      r := services.GetEmbeddings(embeddingModel, text);
    }

    /** `createCollection()`. */
    method CreateCollection() returns (r: Outcome)
      modifies services
      ensures services.log == old(services.log) + [External.CreateCollection(collectionName, CollectionParams)]
      ensures r == services.storeReply(services.log)
      ensures services.issuedIds == old(services.issuedIds)
    {
      r := services.CreateCollectionAsync(collectionName, CollectionParams);
    }

    /** `saveVector(pointStructs)`. */
    method SaveVector(pointStructs: seq<PointStruct>) returns (r: Outcome)
      modifies services
      ensures var run := SaveVectorRun(services, collectionName, old(services.log), pointStructs);
              services.log == old(services.log) + run.requests && r == run.outcome
      ensures services.issuedIds == old(services.issuedIds)
    {
      ghost var log0 := services.log;
      var info := services.GetCollectionInfoAsync(collectionName);
      if info.Fail? {
        var created := CreateCollection();
        assert services.log == log0 + [GetCollectionInfo(collectionName), External.CreateCollection(collectionName, CollectionParams)];
        if created.Fail? {
          return created;
        }
      }
      r := services.UpsertAsync(collectionName, pointStructs);
    }

    /** `getPointStruct(point, chunk)`: a fresh UUID, the vector, and the
        chunk as the "content" payload. */
    method GetPointStruct(point: Vector, chunk: string) returns (p: PointStruct)
      modifies services
      ensures p == PointOf(Uuid(old(services.issuedIds)), point, chunk)
      ensures services.issuedIds == old(services.issuedIds) + 1
      ensures services.log == old(services.log)
    {
      var id := services.RandomUuid();
      p := PointOf(id, point, chunk);
    }
  }
}
