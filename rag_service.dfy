/** `RagService`: document ingestion after upload, and search results turned
    into DTOs. */
module Rag {
  import opened Common
  import opened External
  import opened VectorService
  import opened Domain

  /** An uploaded file: its original name and its bytes. */
  datatype Upload = Upload(originalFilename: string, content: seq<bv8>)

  /** The search outcome as DTOs; a failure stays a failure. */
  function DTOResult(found: Result<seq<ScoredPoint>>): (r: Result<seq<EmbeddingModelResponse>>)
    ensures found.Err? <==> r.Err?
    ensures found.Err? ==> r.error == found.error
    ensures found.Ok? ==> |r.value| == |found.value|
  {
    match found
    case Err(e) => Err(e)
    case Ok(points) => Ok(ToDTOs(points))
  }

  /** The directory `uploads/`: the bytes stored under each file name. */
  type UploadDir = map<string, seq<bv8>>

  /** The directory after `saveToDir(file)`. `Files.copy` refuses to replace
      an existing file and its IOException is swallowed, so a name already
      present keeps the bytes stored first. */
  function Stored(dir: UploadDir, file: Upload): (r: UploadDir)
    ensures file.originalFilename in r
    ensures file.originalFilename in dir ==> r == dir
    ensures file.originalFilename !in dir ==> r == dir[file.originalFilename := file.content]
  {
    if file.originalFilename in dir then dir else dir[file.originalFilename := file.content]
  }

  /** Uploading again under a name already used stores nothing new: the file
      read back is the first one, whatever the second upload held. Uploads
      under other names are left as they were. */
  lemma {:induction false} ReuploadReadsFirstFile(dir: UploadDir, first: Upload, second: Upload)
    requires first.originalFilename == second.originalFilename
    ensures Stored(Stored(dir, first), second)[second.originalFilename]
         == (if first.originalFilename in dir then dir[first.originalFilename] else first.content)
    ensures Stored(Stored(dir, first), second).Keys == dir.Keys + {first.originalFilename}
    ensures forall other :: other in dir && other != first.originalFilename
              ==> Stored(Stored(dir, first), second)[other] == dir[other]
  {
    var once := Stored(dir, first);
    assert first.originalFilename in once;
    assert Stored(once, second) == once;
  }

  class RagService {
    const vectors: SimpleVectorService
    /** The files saved under `uploads/` so far. */
    var uploads: UploadDir
    /** PDFBox's `Loader.loadPDF` followed by `PDFTextStripper.getText`: the
        text of the stored bytes, or the IOException that stopped it. */
    const loadPdf: seq<bv8> -> Result<string>

    constructor (vectors: SimpleVectorService, uploads: UploadDir, loadPdf: seq<bv8> -> Result<string>)
      ensures this.vectors == vectors && this.uploads == uploads && this.loadPdf == loadPdf
    {
      this.vectors := vectors;
      this.uploads := uploads;
      this.loadPdf := loadPdf;
    }

    /** `saveToDir(file)`: copy the upload into `uploads/` unless a file of
        that name is already there. */
    method SaveToDir(file: Upload)
      modifies this`uploads
      ensures uploads == Stored(old(uploads), file)
    {
      if file.originalFilename !in uploads {
        uploads := uploads[file.originalFilename := file.content];
      }
    }

    /** `searchContext(query)`: the vector search, hit by hit as DTOs. */
    method SearchContext(query: string) returns (r: Result<seq<EmbeddingModelResponse>>)
      modifies vectors.services
      ensures var run := SearchRun(vectors.services, vectors.embeddingModel, vectors.collectionName, old(vectors.services.log), query);
              vectors.services.log == old(vectors.services.log) + run.requests
              && r == DTOResult(run.result)
      ensures vectors.services.issuedIds == old(vectors.services.issuedIds)
    {
      var results := vectors.Search(query);
      if results.Err? {
        return Err(results.error);
      }
      r := Ok(ToDTOs(results.value));
    }

    /** `saveContext(file)`: store the upload, extract the text of the file
        stored under its name, then ingest that text once, unchanged; a failed
        extraction ingests nothing. */
    method SaveContext(file: Upload) returns (r: Outcome)
      modifies this`uploads, vectors.services
      ensures uploads == Stored(old(uploads), file)
      ensures var text := loadPdf(uploads[file.originalFilename]);
              && (text.Err? ==>
                    r == Fail(text.error)
                    && vectors.services.log == old(vectors.services.log)
                    && vectors.services.issuedIds == old(vectors.services.issuedIds))
              && (text.Ok? ==>
                    var run := Ingest(vectors.services, vectors.embeddingModel, vectors.collectionName,
                                      old(vectors.services.log), old(vectors.services.issuedIds), text.value);
                    vectors.services.log == old(vectors.services.log) + run.requests
                    && vectors.services.issuedIds == run.issuedIds
                    && r == run.outcome)
    {
      SaveToDir(file);
      var content := loadPdf(uploads[file.originalFilename]);
      if content.Err? {
        return Fail(content.error);
      }
      r := vectors.ProcessAndSaveText(content.value);
    }
  }
}
