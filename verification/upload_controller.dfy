/**
 * The ingestion pipeline behind `POST /api/upload` and the listing behind
 * `GET /api/upload` (server/controllers/uploadController.js).
 *
 * Ingestion extracts the text of the uploaded PDF, splits it into chunks,
 * embeds all chunks in one call, builds one vector record per chunk,
 * upserts the batch, records the Document, and removes the temporary file,
 * in that order. Text extraction, the splitter, the embedder, the index,
 * the document collection and the file system are parameters (oracles);
 * the handler returns its response and the calls it made, in order.
 */
module UploadController {
  import opened JsValues
  import opened Strings
  import opened VectorStore

  /** What the upload middleware attaches as `req.file`; `filename` is the unique storage key. */
  datatype UploadedFile = UploadedFile(path: string, filename: string, originalname: string, mimetype: string, size: nat)

  /** The Document record created once the vectors are stored. */
  datatype DocumentRecord = DocumentRecord(user: string, filename: string, fileType: string, size: nat, vectorId: string)

  datatype UploadResponse =
    | Processed(chunks: nat, filename: string, documentId: string)   // 200
    | Refused(status: nat, message: string, error: Option<string>)   // 400 or 500

  /** A call made to an outside service or the file system, in the order made. */
  datatype UploadCall =
    | ExtractText(path: string)
    | EmbedDocuments(texts: seq<string>)
    | Upsert(vectors: seq<VectorRecord>)
    | CreateDocument(record: DocumentRecord)
    | Unlink(path: string)
  {
    /** The position of this kind of call in the fixed pipeline. */
    function Step(): nat {
      match this
      case ExtractText(_) => 0
      case EmbedDocuments(_) => 1
      case Upsert(_) => 2
      case CreateDocument(_) => 3
      case Unlink(_) => 4
    }
  }

  const NoFileUploaded := "No file uploaded"
  const ProcessingFailed := "Error processing file"
  const EmbeddingFailedPrefix := "Embedding Generation Failed: "
  /** The TypeError of the log line previewing `chunkTexts[0]` when there is no first chunk. */
  const NoFirstChunkError := "Cannot read properties of undefined (reading 'substring')"

  /**
   * The preview logged after embedding reads the first chunk's text whenever
   * some embedding came back, so it throws when there is no chunk to read.
   */
  predicate PreviewThrows(chunks: seq<string>, embeddings: seq<Vector>) {
    |embeddings| > 0 && |chunks| == 0
  }

  // ---------------------------------------------------------------------
  // Vector records
  // ---------------------------------------------------------------------

  /** The record of chunk `i`: id `${key}_${i}`, the i-th embedding, and the fixed metadata. */
  function VectorFor(file: UploadedFile, userId: string, chunks: seq<string>, embeddings: seq<Vector>, i: nat): VectorRecord
    requires i < |chunks|
  {
    VectorRecord(
      VectorId(file.filename, i),
      if i < |embeddings| then Some(embeddings[i]) else None,
      Metadata(chunks[i], file.originalname, 1, userId, file.filename))
  }

  /** The upsert batch: one record per chunk, in chunk order. */
  function Batch(file: UploadedFile, userId: string, chunks: seq<string>, embeddings: seq<Vector>): (vectors: seq<VectorRecord>)
    ensures |vectors| == |chunks|
    ensures forall i :: 0 <= i < |chunks| ==> vectors[i] == VectorFor(file, userId, chunks, embeddings, i)
  {
    seq(|chunks|, i requires 0 <= i < |chunks| => VectorFor(file, userId, chunks, embeddings, i))
  }

  /** Fills the batch chunk by chunk. */
  method BuildVectors(file: UploadedFile, userId: string, chunks: seq<string>, embeddings: seq<Vector>)
    returns (vectors: seq<VectorRecord>)
    ensures vectors == Batch(file, userId, chunks, embeddings)
  {
    vectors := [];
    for i := 0 to |chunks|
      invariant |vectors| == i
      invariant forall j :: 0 <= j < i ==> vectors[j] == VectorFor(file, userId, chunks, embeddings, j)
    {
      var values := if i < |embeddings| then Some(embeddings[i]) else None;
      vectors := vectors + [VectorRecord(
        VectorId(file.filename, i), values,
        Metadata(chunks[i], file.originalname, 1, userId, file.filename))];
    }
  }

  /** Index and id determine each other: record `i` has id `${key}_${i}` and no two records share an id. */
  lemma BatchIdsMatchIndices(file: UploadedFile, userId: string, chunks: seq<string>, embeddings: seq<Vector>)
    ensures var b := Batch(file, userId, chunks, embeddings);
      && (forall i :: 0 <= i < |b| ==> b[i].id == VectorId(file.filename, i))
      && (forall i, j :: 0 <= i < |b| && 0 <= j < |b| && b[i].id == b[j].id ==> i == j)
  {
    var b := Batch(file, userId, chunks, embeddings);
    forall i, j | 0 <= i < |b| && 0 <= j < |b| && b[i].id == b[j].id
      ensures i == j
    {
      VectorIdInjective(file.filename, i, file.filename, j);
    }
  }

  /** Two uploads stored under different keys never write the same vector id. */
  lemma BatchesOfDistinctUploadsDisjoint(
    file1: UploadedFile, user1: string, chunks1: seq<string>, embeddings1: seq<Vector>,
    file2: UploadedFile, user2: string, chunks2: seq<string>, embeddings2: seq<Vector>)
    requires file1.filename != file2.filename
    ensures var b1, b2 := Batch(file1, user1, chunks1, embeddings1), Batch(file2, user2, chunks2, embeddings2);
      forall i, j :: 0 <= i < |b1| && 0 <= j < |b2| ==> b1[i].id != b2[j].id
  {
    var b1, b2 := Batch(file1, user1, chunks1, embeddings1), Batch(file2, user2, chunks2, embeddings2);
    forall i, j | 0 <= i < |b1| && 0 <= j < |b2|
      ensures b1[i].id != b2[j].id
    {
      if b1[i].id == b2[j].id {
        VectorIdInjective(file1.filename, i, file2.filename, j);
      }
    }
  }

  /** Every record carries the uploader, the storage key as document id, page 1, and its chunk's text. */
  lemma BatchMetadata(file: UploadedFile, userId: string, chunks: seq<string>, embeddings: seq<Vector>)
    ensures var b := Batch(file, userId, chunks, embeddings);
      forall i :: 0 <= i < |b| ==>
        b[i].metadata == Metadata(chunks[i], file.originalname, 1, userId, file.filename)
    ensures |embeddings| == |chunks| ==>
      var b := Batch(file, userId, chunks, embeddings);
      forall i :: 0 <= i < |b| ==> b[i].values == Some(embeddings[i])
  {
  }

  // ---------------------------------------------------------------------
  // The upload handler
  // ---------------------------------------------------------------------

  /** The Document record: owner, display name, media type (default 'pdf'), size, and the key prefix. */
  function DocumentFor(file: UploadedFile, userId: string): (record: DocumentRecord)
    ensures record.user == userId && record.filename == file.originalname
    ensures record.vectorId == file.filename && record.size == file.size
    ensures record.fileType != ""
    ensures file.mimetype != "" ==> record.fileType == file.mimetype
    ensures file.mimetype == "" ==> record.fileType == "pdf"
  {
    DocumentRecord(userId, file.originalname, if file.mimetype != "" then file.mimetype else "pdf", file.size, file.filename)
  }

  /** The calls were made in pipeline order, each step at most once and none skipped. */
  predicate StepsInOrder(calls: seq<UploadCall>) {
    forall k :: 0 <= k < |calls| ==> calls[k].Step() == k
  }

  /**
   * `uploadFile`: ingests `file` for the authenticated `userId`.
   * `extractText` reads the temporary file and parses the PDF; `split` is the
   * text splitter; `embedDocuments`, `upsert`, `createDocument` and `unlink`
   * are the embedder, the index, the document collection and the file system.
   */
  method UploadFile(file: Option<UploadedFile>, userId: string,
                    extractText: string -> Outcome<string>,
                    split: string -> seq<string>,
                    embedDocuments: seq<string> -> Outcome<seq<Vector>>,
                    upsert: seq<VectorRecord> -> Outcome<()>,
                    createDocument: DocumentRecord -> Outcome<()>,
                    unlink: string -> Outcome<()>)
    returns (response: UploadResponse, calls: seq<UploadCall>)
    ensures StepsInOrder(calls)
    // no file: 400, nothing touched
    ensures file.None? ==> response == Refused(400, NoFileUploaded, None) && calls == []
    // nothing is written (upsert, record, unlink) unless every embedding was produced and previewed
    ensures |calls| > 2 ==>
      && file.Some? && extractText(file.value.path).Ok?
      && var chunks := split(extractText(file.value.path).value);
      && embedDocuments(chunks).Ok?
      && !PreviewThrows(chunks, embedDocuments(chunks).value)
    ensures file.Some? ==> calls != [] && calls[0] == ExtractText(file.value.path)
    ensures file.Some? && extractText(file.value.path).Err? ==>
      calls == [ExtractText(file.value.path)] &&
      response == Refused(500, ProcessingFailed, Some(extractText(file.value.path).message))
    ensures file.Some? && extractText(file.value.path).Ok? ==>
      var f := file.value;
      var chunks := split(extractText(f.path).value);
      && |calls| >= 2 && calls[1] == EmbedDocuments(chunks)
      && (embedDocuments(chunks).Err? ==>
            |calls| == 2 &&
            response == Refused(500, ProcessingFailed, Some(EmbeddingFailedPrefix + embedDocuments(chunks).message)))
      && (embedDocuments(chunks).Ok? && PreviewThrows(chunks, embedDocuments(chunks).value) ==>
            |calls| == 2 && response == Refused(500, ProcessingFailed, Some(NoFirstChunkError)))
    ensures file.Some? && extractText(file.value.path).Ok? ==>
      var f := file.value;
      var chunks := split(extractText(f.path).value);
      embedDocuments(chunks).Ok? && !PreviewThrows(chunks, embedDocuments(chunks).value) ==>
      var vectors := Batch(f, userId, chunks, embedDocuments(chunks).value);
      var record := DocumentFor(f, userId);
      && |calls| >= 3 && calls[2] == Upsert(vectors)
      && (upsert(vectors).Err? ==> |calls| == 3 && response == Refused(500, ProcessingFailed, Some(upsert(vectors).message)))
      && (upsert(vectors).Ok? ==>
            && |calls| >= 4 && calls[3] == CreateDocument(record)
            && (createDocument(record).Err? ==>
                  |calls| == 4 && response == Refused(500, ProcessingFailed, Some(createDocument(record).message)))
            && (createDocument(record).Ok? ==>
                  && calls == [ExtractText(f.path), EmbedDocuments(chunks), Upsert(vectors), CreateDocument(record), Unlink(f.path)]
                  && response == match unlink(f.path)
                       case Ok(_) => Processed(|chunks|, f.originalname, f.filename)
                       case Err(e) => Refused(500, ProcessingFailed, Some(e))))
  {
    if file.None? {
      return Refused(400, NoFileUploaded, None), [];
    }
    var f := file.value;

    calls := [ExtractText(f.path)];
    var extracted := extractText(f.path);
    if extracted.Err? {
      return Refused(500, ProcessingFailed, Some(extracted.message)), calls;
    }
    var chunks := split(extracted.value);

    calls := calls + [EmbedDocuments(chunks)];
    var embedded := embedDocuments(chunks);
    if embedded.Err? {
      return Refused(500, ProcessingFailed, Some(EmbeddingFailedPrefix + embedded.message)), calls;
    }
    if PreviewThrows(chunks, embedded.value) {
      return Refused(500, ProcessingFailed, Some(NoFirstChunkError)), calls;
    }

    var vectors := BuildVectors(f, userId, chunks, embedded.value);
    calls := calls + [Upsert(vectors)];
    var upserted := upsert(vectors);
    if upserted.Err? {
      return Refused(500, ProcessingFailed, Some(upserted.message)), calls;
    }

    var record := DocumentFor(f, userId);
    calls := calls + [CreateDocument(record)];
    var created := createDocument(record);
    if created.Err? {
      return Refused(500, ProcessingFailed, Some(created.message)), calls;
    }

    calls := calls + [Unlink(f.path)];
    var unlinked := unlink(f.path);
    if unlinked.Err? {
      return Refused(500, ProcessingFailed, Some(unlinked.message)), calls;
    }
    response := Processed(|chunks|, f.originalname, f.filename);
  }

  // ---------------------------------------------------------------------
  // Listing the caller's documents
  // ---------------------------------------------------------------------

  /** A Document as stored, with the creation time the collection stamps on it. */
  datatype StoredDocument = StoredDocument(record: DocumentRecord, createdAt: int)

  /** The documents whose owner is `userId`, in collection order. */
  function OwnedBy(docs: seq<StoredDocument>, userId: string): (owned: seq<StoredDocument>)
    ensures forall d :: multiset(owned)[d] == if d.record.user == userId then multiset(docs)[d] else 0
    decreases |docs|
  {
    if docs == [] then []
    else
      assert docs == [docs[0]] + docs[1..];
      (if docs[0].record.user == userId then [docs[0]] else []) + OwnedBy(docs[1..], userId)
  }

  /** Newest first: creation times never increase along the list. */
  ghost predicate NewestFirstOrder(docs: seq<StoredDocument>) {
    forall i, j :: 0 <= i < j < |docs| ==> docs[i].createdAt >= docs[j].createdAt
  }

  /** Places `d` into a newest-first list, before the first entry that is no newer. */
  function InsertByDate(d: StoredDocument, sorted: seq<StoredDocument>): (r: seq<StoredDocument>)
    ensures multiset(r) == multiset(sorted) + multiset{d}
    decreases |sorted|
  {
    if sorted == [] || d.createdAt >= sorted[0].createdAt then
      [d] + sorted
    else
      assert sorted == [sorted[0]] + sorted[1..];
      [sorted[0]] + InsertByDate(d, sorted[1..])
  }

  /** Every entry of the result is `d` or an entry of `sorted`. */
  lemma {:induction false} InsertByDateMembers(d: StoredDocument, sorted: seq<StoredDocument>)
    ensures forall x :: x in InsertByDate(d, sorted) ==> x == d || x in sorted
    decreases |sorted|
  {
    if sorted != [] && d.createdAt < sorted[0].createdAt {
      InsertByDateMembers(d, sorted[1..]);
    }
  }

  /** Inserting into a newest-first list keeps it newest first. */
  lemma {:induction false} InsertByDateKeepsOrder(d: StoredDocument, sorted: seq<StoredDocument>)
    requires NewestFirstOrder(sorted)
    ensures NewestFirstOrder(InsertByDate(d, sorted))
    decreases |sorted|
  {
    var r := InsertByDate(d, sorted);
    if sorted == [] {
    } else if d.createdAt >= sorted[0].createdAt {
      assert r == [d] + sorted;
      forall i, j | 0 <= i < j < |r|
        ensures r[i].createdAt >= r[j].createdAt
      {
        assert r[j] == sorted[j - 1];
        if i > 0 {
          assert r[i] == sorted[i - 1];
        } else {
          assert sorted[0].createdAt >= sorted[j - 1].createdAt;
        }
      }
    } else {
      var tail := sorted[1..];
      var rest := InsertByDate(d, tail);
      assert r == [sorted[0]] + rest;
      InsertByDateKeepsOrder(d, tail);
      InsertByDateMembers(d, tail);
      forall i, j | 0 <= i < j < |r|
        ensures r[i].createdAt >= r[j].createdAt
      {
        assert r[j] == rest[j - 1];
        if i > 0 {
          assert r[i] == rest[i - 1];
        } else {
          assert rest[j - 1] in rest;
          if rest[j - 1] != d {
            var k :| 0 <= k < |tail| && tail[k] == rest[j - 1];
            assert tail[k] == sorted[k + 1];
          }
        }
      }
    }
  }

  /** The collection's `sort({ createdAt: -1 })`. */
  function NewestFirst(docs: seq<StoredDocument>): (r: seq<StoredDocument>)
    ensures NewestFirstOrder(r)
    ensures multiset(r) == multiset(docs)
    decreases |docs|
  {
    if docs == [] then []
    else
      assert docs == [docs[0]] + docs[1..];
      InsertByDateKeepsOrder(docs[0], NewestFirst(docs[1..]));
      InsertByDate(docs[0], NewestFirst(docs[1..]))
  }

  datatype ListResponse =
    | Listed(documents: seq<StoredDocument>)                          // 200
    | ListFailed(status: nat, message: string, error: Option<string>)  // 500

  /** `getDocuments`: the caller's documents, newest first; `collection` is what the lookup returned. */
  method GetDocuments(userId: string, collection: Outcome<seq<StoredDocument>>) returns (response: ListResponse)
    ensures collection.Err? ==> response == ListFailed(500, "Error fetching documents", Some(collection.message))
    ensures collection.Ok? ==>
      && response.Listed?
      && NewestFirstOrder(response.documents)
      && (forall d :: d in response.documents ==> d.record.user == userId)
      && forall d: StoredDocument :: d.record.user == userId ==> multiset(response.documents)[d] == multiset(collection.value)[d]
  {
    if collection.Err? {
      return ListFailed(500, "Error fetching documents", Some(collection.message));
    }
    var listed := NewestFirst(OwnedBy(collection.value, userId));
    assert forall d :: d in listed ==> multiset(OwnedBy(collection.value, userId))[d] > 0;
    response := Listed(listed);
  }
}
