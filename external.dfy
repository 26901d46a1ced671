/** The collaborators the core calls but does not contain: the OpenAI
    embeddings endpoint, the Qdrant vector database and the JVM's random
    UUID generator. They are one object that records every request it is
    sent; what each request is answered with is decided by oracles that see
    the whole request history, so any pattern of replies and failures can be
    modelled. */
module External {
  import opened Common

  /** Embedding components and similarity scores are `float`s in the Java
      code; the core never computes with them. */
  type Float = real
  type Vector = seq<Float>

  /** Qdrant's unsigned 64-bit integer. */
  newtype u64 = x: int | 0 <= x < 0x1_0000_0000_0000_0000

  /** Qdrant's point id: an unsigned 64-bit number or a UUID. UUIDs come from
      a supply that never repeats, so each is identified by its serial number. */
  datatype PointId = Num(num: u64) | Uuid(serial: nat)

  /** A point's payload, restricted to string values. */
  type Payload = map<string, string>

  datatype PointStruct = PointStruct(id: PointId, vector: Vector, payload: Payload)

  datatype ScoredPoint = ScoredPoint(id: PointId, score: Float, payload: Payload)

  datatype Distance = Cosine | Euclid | Dot | Manhattan

  datatype VectorParams = VectorParams(distance: Distance, size: nat)

  /** Qdrant's `SearchPoints` request. */
  datatype SearchPoints = SearchPoints(
    collectionName: string,
    vector: Vector,
    limit: nat,
    withPayload: bool,
    scoreThreshold: Float)

  /** A request sent to OpenAI or Qdrant. */
  datatype Request =
    | Embeddings(model: string, input: seq<string>)
    | GetCollectionInfo(collectionName: string)
    | CreateCollection(collectionName: string, params: VectorParams)
    | Upsert(collectionName: string, points: seq<PointStruct>)
    | Search(search: SearchPoints)

  class Services {
    /** Every request sent so far, oldest first. */
    var log: seq<Request>
    /** How many random UUIDs have been handed out. */
    var issuedIds: nat

    /** The embedding data returned for the last request of a history, or the
        exception `.block()` rethrows. */
    const embedReply: seq<Request> -> Result<seq<Vector>>
    /** The outcome of a collection-info, create or upsert request (`.get()`). */
    const storeReply: seq<Request> -> Outcome
    /** The scored points a search returns, or the exception `.get()` throws. */
    const searchReply: seq<Request> -> Result<seq<ScoredPoint>>

    constructor (
      embedReply: seq<Request> -> Result<seq<Vector>>,
      storeReply: seq<Request> -> Outcome,
      searchReply: seq<Request> -> Result<seq<ScoredPoint>>)
      ensures log == [] && issuedIds == 0
      ensures this.embedReply == embedReply && this.storeReply == storeReply
      ensures this.searchReply == searchReply
    {
      log := [];
      issuedIds := 0;
      this.embedReply := embedReply;
      this.storeReply := storeReply;
      this.searchReply := searchReply;
    }

    /** `openAIAsyncClient.getEmbeddings(model, new EmbeddingsOptions(List.of(text))).block().getData()`. */
    method GetEmbeddings(model: string, text: string) returns (r: Result<seq<Vector>>)
      modifies this`log
      ensures log == old(log) + [Embeddings(model, [text])]
      ensures r == embedReply(log)
    {
      log := log + [Embeddings(model, [text])];
      r := embedReply(log);
    }

    /** `qdrantClient.getCollectionInfoAsync(name).get()`. */
    method GetCollectionInfoAsync(name: string) returns (r: Outcome)
      modifies this`log
      ensures log == old(log) + [GetCollectionInfo(name)]
      ensures r == storeReply(log)
    {
      log := log + [GetCollectionInfo(name)];
      r := storeReply(log);
    }

    /** `qdrantClient.createCollectionAsync(name, params).get()`. */
    method CreateCollectionAsync(name: string, params: VectorParams) returns (r: Outcome)
      modifies this`log
      ensures log == old(log) + [CreateCollection(name, params)]
      ensures r == storeReply(log)
    {
      log := log + [CreateCollection(name, params)];
      r := storeReply(log);
    }

    /** `qdrantClient.upsertAsync(name, points).get()`. */
    method UpsertAsync(name: string, points: seq<PointStruct>) returns (r: Outcome)
      modifies this`log
      ensures log == old(log) + [Upsert(name, points)]
      ensures r == storeReply(log)
    {
      log := log + [Upsert(name, points)];
      r := storeReply(log);
    }

    /** `qdrantClient.searchAsync(request).get()`. */
    method SearchAsync(request: SearchPoints) returns (r: Result<seq<ScoredPoint>>)
      modifies this`log
      ensures log == old(log) + [Search(request)]
      ensures r == searchReply(log)
    {
      log := log + [Search(request)];
      r := searchReply(log);
    }

    /** `UUID.randomUUID()`: an id never handed out before. */
    method RandomUuid() returns (id: PointId)
      modifies this`issuedIds
      ensures id == Uuid(old(issuedIds)) && issuedIds == old(issuedIds) + 1
    {
      id := Uuid(issuedIds);
      issuedIds := issuedIds + 1;
    }
  }
}
