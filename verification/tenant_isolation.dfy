/**
 * What ingestion and retrieval promise together: the metadata every
 * uploaded vector carries, read against the filter every chat query sends,
 * keeps each user's chunks away from everyone else and confines a
 * document-scoped question to that one document.
 */
module TenantIsolation {
  import opened JsValues
  import opened VectorStore
  import opened ChatController
  import opened UploadController

  /** Another user's query, scoped or not, admits none of the uploader's vectors. */
  lemma IngestedVectorsInvisibleToOtherUsers(
    file: UploadedFile, owner: string, chunks: seq<string>, embeddings: seq<Vector>,
    caller: string, documentId: Option<string>)
    requires caller != owner
    ensures var b := Batch(file, owner, chunks, embeddings);
      forall i :: 0 <= i < |b| ==> !Admits(TenantFilter(caller, documentId), b[i].metadata)
  {
    var b := Batch(file, owner, chunks, embeddings);
    forall i | 0 <= i < |b|
      ensures !Admits(TenantFilter(caller, documentId), b[i].metadata)
    {
      TenantFilterAdmits(caller, documentId, b[i].metadata);
    }
  }

  /** A query of the owner's scoped to another document admits none of this upload's vectors. */
  lemma IngestedVectorsOutsideOtherDocuments(
    file: UploadedFile, owner: string, chunks: seq<string>, embeddings: seq<Vector>,
    documentId: string)
    requires documentId != "" && documentId != file.filename
    ensures var b := Batch(file, owner, chunks, embeddings);
      forall i :: 0 <= i < |b| ==> !Admits(TenantFilter(owner, Some(documentId)), b[i].metadata)
  {
    var b := Batch(file, owner, chunks, embeddings);
    forall i | 0 <= i < |b|
      ensures !Admits(TenantFilter(owner, Some(documentId)), b[i].metadata)
    {
      TenantFilterAdmits(owner, Some(documentId), b[i].metadata);
    }
  }

  /**
   * The owner's unscoped query, and the owner's query scoped to the id the
   * upload response returned, admit every vector of the upload.
   */
  lemma IngestedVectorsVisibleToOwner(
    file: UploadedFile, owner: string, chunks: seq<string>, embeddings: seq<Vector>)
    ensures var b := Batch(file, owner, chunks, embeddings);
      forall i :: 0 <= i < |b| ==>
        && Admits(TenantFilter(owner, None), b[i].metadata)
        && (file.filename != "" ==> Admits(TenantFilter(owner, Some(file.filename)), b[i].metadata))
  {
    var b := Batch(file, owner, chunks, embeddings);
    forall i | 0 <= i < |b|
      ensures Admits(TenantFilter(owner, None), b[i].metadata)
      ensures file.filename != "" ==> Admits(TenantFilter(owner, Some(file.filename)), b[i].metadata)
    {
      TenantFilterAdmits(owner, None, b[i].metadata);
      TenantFilterAdmits(owner, Some(file.filename), b[i].metadata);
    }
  }
}
