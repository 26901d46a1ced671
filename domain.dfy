/** The records the RAG endpoints exchange: the search-result DTO and the
    chat request. */
module Domain {
  import opened External
  import VectorService

  /** `EmbeddingModelResponse`: a search hit as reported to callers. The Java
      class declares only `id` and `score`; `chunk` is the text its caller
      reads back, taken here from the hit's "content" payload. */
  datatype EmbeddingModelResponse = EmbeddingModelResponse(id: int, score: Float, chunk: string)

  /** `InputRequest`: who asks, what, and which model should answer. */
  datatype InputRequest = InputRequest(userId: string, input: string, modelId: string)

  /** Protobuf's `PointId.getNum()`: the unsigned 64-bit id read as a Java
      `long` (two's complement, so ids from 2^63 on come out negative), or 0
      when the id is a UUID. */
  function NumOf(id: PointId): (n: int)
    ensures -0x8000_0000_0000_0000 <= n < 0x8000_0000_0000_0000
    ensures id.Num? && id.num < 0x8000_0000_0000_0000 ==> n == id.num as int
    ensures id.Num? && id.num >= 0x8000_0000_0000_0000 ==> n == id.num as int - 0x1_0000_0000_0000_0000 && n < 0
    ensures id.Uuid? ==> n == 0
  {
    match id
    case Num(k) => if k < 0x8000_0000_0000_0000 then k as int else k as int - 0x1_0000_0000_0000_0000
    case Uuid(_) => 0
  }

  /** The signed reading loses nothing: two numeric ids that report the same
      number are the same id, and the largest id reports -1. */
  lemma NumericIdsStayDistinct(a: PointId, b: PointId)
    requires a.Num? && b.Num? && NumOf(a) == NumOf(b)
    ensures a == b
    ensures NumOf(Num(0xFFFF_FFFF_FFFF_FFFF)) == -1
  {
    if a.num < 0x8000_0000_0000_0000 {
      assert b.num < 0x8000_0000_0000_0000;
    } else {
      assert b.num >= 0x8000_0000_0000_0000;
    }
  }

  /** The "content" payload of a hit, or the empty text when it has none. */
  function ContentOf(p: ScoredPoint): string
  {
    if VectorService.ContentKey in p.payload then p.payload[VectorService.ContentKey] else ""
  }

  /** `EmbeddingModelResponse.toDTO`. */
  function ToDTO(p: ScoredPoint): EmbeddingModelResponse
  {
    EmbeddingModelResponse(NumOf(p.id), p.score, ContentOf(p))
  }

  /** `results.stream().map(EmbeddingModelResponse::toDTO).toList()`. */
  function ToDTOs(points: seq<ScoredPoint>): (r: seq<EmbeddingModelResponse>)
    ensures |r| == |points|
    ensures forall i :: 0 <= i < |points| ==> r[i] == ToDTO(points[i])
  {
    if points == [] then [] else [ToDTO(points[0])] + ToDTOs(points[1..])
  }

  /** One DTO per hit, in hit order, each with its hit's score and the hit's
      numeric id and the text of its "content" payload. */
  lemma DTOsFollowHits(points: seq<ScoredPoint>)
    ensures var dtos := ToDTOs(points);
      && |dtos| == |points|
      && (forall i :: 0 <= i < |points| ==> dtos[i].score == points[i].score && dtos[i].id == NumOf(points[i].id))
      && (forall i :: 0 <= i < |points| && VectorService.ContentKey in points[i].payload
            ==> dtos[i].chunk == points[i].payload[VectorService.ContentKey])
  {
  }

  /** Every point the ingestion creates has a UUID id, so every DTO built from
      such hits reports id 0: the reported ids cannot tell hits apart. */
  lemma {:induction false} UuidHitsAllReportIdZero(points: seq<ScoredPoint>)
    requires forall i :: 0 <= i < |points| ==> points[i].id.Uuid?
    ensures forall i :: 0 <= i < |points| ==> ToDTOs(points)[i].id == 0
  {
    forall i | 0 <= i < |points|
      ensures ToDTOs(points)[i].id == 0
    {
      assert ToDTOs(points)[i] == ToDTO(points[i]);
    }
  }
}
