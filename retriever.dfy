/** `ContentRetrieverPlugin`: the kernel function that turns a user question
    into context text for the RAG prompt. */
module Retriever {
  import opened Common
  import opened External
  import opened VectorService
  import opened Domain
  import opened Rag

  /** Returned when the search succeeds but its chunks hold no visible text. */
  const NoContext := "I don't have context based on the user query"
  /** Returned when the search throws. (Split in two because the verifier
      only sees inside short literals.) */
  const CannotRetrieve := "Sorry, I cannot " + "retrieve context based on the user query"

  /** The chunk of each hit, in hit order. */
  function ChunkTexts(items: seq<EmbeddingModelResponse>): (r: seq<string>)
    ensures |r| == |items| && forall i :: 0 <= i < |items| ==> r[i] == items[i].chunk
  {
    seq(|items|, i requires 0 <= i < |items| => items[i].chunk)
  }

  /** The chunks of the hits, joined in hit order with no separator. */
  function JoinChunks(items: seq<EmbeddingModelResponse>): (r: string)
    ensures items == [] ==> r == ""
    ensures |items| == 1 ==> r == items[0].chunk
  {
    Concat(ChunkTexts(items))
  }

  lemma BlankAppend(a: string, b: string)
    ensures IsBlank(a + b) <==> IsBlank(a) && IsBlank(b)
  {
    if IsBlank(a + b) {
      forall i | 0 <= i < |a| ensures IsWhitespace(a[i]) {
        assert a[i] == (a + b)[i];
      }
      forall i | 0 <= i < |b| ensures IsWhitespace(b[i]) {
        assert b[i] == (a + b)[|a| + i];
      }
    }
    if IsBlank(a) && IsBlank(b) {
      forall i | 0 <= i < |a + b| ensures IsWhitespace((a + b)[i]) {
        if i < |a| {
          assert (a + b)[i] == a[i];
        } else {
          assert (a + b)[i] == b[i - |a|];
        }
      }
    }
  }

  /** The joined text is blank exactly when every chunk is blank. */
  lemma {:induction false} BlankJoinIffAllBlank(items: seq<EmbeddingModelResponse>)
    ensures IsBlank(JoinChunks(items)) <==> forall i :: 0 <= i < |items| ==> IsBlank(items[i].chunk)
  {
    if items != [] {
      BlankJoinIffAllBlank(items[1..]);
      assert ChunkTexts(items)[1..] == ChunkTexts(items[1..]);
      assert JoinChunks(items) == items[0].chunk + JoinChunks(items[1..]);
      BlankAppend(items[0].chunk, JoinChunks(items[1..]));
      assert forall i :: 1 <= i < |items| ==> items[i] == items[1..][i - 1];
    }
  }

  /** `retrieveContext`'s result for a search outcome: the fixed apology when
      the search threw, the fixed "no context" text when the joined chunks are
      blank, and the joined chunks otherwise. */
  function ContextOf(found: Result<seq<EmbeddingModelResponse>>): (r: string)
    ensures found.Err? ==> r == CannotRetrieve
    ensures found.Ok? && IsBlank(JoinChunks(found.value)) ==> r == NoContext
    ensures found.Ok? && !IsBlank(JoinChunks(found.value)) ==> r == JoinChunks(found.value)
  {
    match found
    case Err(_) => CannotRetrieve
    case Ok(items) =>
      var joined := JoinChunks(items);
      if IsBlank(joined) then NoContext else joined
  }

  /** The context handed on is never blank; the two fixed texts differ, so a
      failed search and an empty one can be told apart; and after a
      successful search the context reads "no context" exactly when every
      chunk is blank (no hits at all included) or the chunks happen to spell
      that very text. */
  lemma {:induction false} ContextIsNeverBlank(found: Result<seq<EmbeddingModelResponse>>)
    ensures !IsBlank(ContextOf(found))
    ensures NoContext != CannotRetrieve
    ensures found.Ok? ==>
              (ContextOf(found) == NoContext
               <==> (forall i :: 0 <= i < |found.value| ==> IsBlank(found.value[i].chunk))
                    || JoinChunks(found.value) == NoContext)
  {
    assert !IsWhitespace(NoContext[0]);
    assert !IsWhitespace(CannotRetrieve[0]);
    assert NoContext[0] != CannotRetrieve[0];
    if found.Ok? {
      BlankJoinIffAllBlank(found.value);
    }
  }

  class ContentRetrieverPlugin {
    const rag: RagService

    constructor (rag: RagService)
      ensures this.rag == rag
    {
      this.rag := rag;
    }

    /** `retrieveContext(userQuestion)`: searches with the question as given
        and condenses the outcome with `ContextOf`; the search's failure is
        caught, never propagated. */
    method RetrieveContext(userQuestion: string) returns (r: string)
      modifies rag.vectors.services
      ensures var run := SearchRun(rag.vectors.services, rag.vectors.embeddingModel, rag.vectors.collectionName,
                                   old(rag.vectors.services.log), userQuestion);
              rag.vectors.services.log == old(rag.vectors.services.log) + run.requests
              && r == ContextOf(DTOResult(run.result))
      ensures rag.vectors.services.issuedIds == old(rag.vectors.services.issuedIds)
    {
      var context := rag.SearchContext(userQuestion);
      if context.Err? {
        return CannotRetrieve;
      }
      var collect := JoinChunks(context.value);
      if IsBlank(collect) {
        return NoContext;
      }
      return collect;
    }
  }
}
