/**
 * The records the application writes to and reads from the external
 * similarity index, the id scheme of those records, and what a metadata
 * filter admits. The index itself (similarity ranking, storage) is outside
 * the model: a query is an oracle whose answer a caller may assume honours
 * its filter (HonoursFilter).
 */
module VectorStore {
  import opened JsValues
  import opened Strings

  /** An embedding: floating-point components, carried and never computed with. */
  type Vector = seq<real>

  /** A similarity score: a float, carried and never computed with. */
  type Score = real

  /** The metadata stored beside every vector; `page` is numeric, the rest are strings. */
  datatype Metadata = Metadata(text: string, filename: string, page: int, user: string, documentId: string)

  /** One record of an upsert batch; `values` is absent when no embedding sits at the chunk's index. */
  datatype VectorRecord = VectorRecord(id: string, values: Option<Vector>, metadata: Metadata)

  /** One hit of a similarity query, with its metadata included. */
  datatype Match = Match(id: string, score: Score, metadata: Metadata)

  /** A metadata filter: every key must equal its value (a conjunction of equalities). */
  type Filter = map<string, string>

  /** The parameters of one similarity query. */
  datatype QueryRequest = QueryRequest(vector: Vector, topK: nat, includeMetadata: bool, filter: Filter)

  /** The string-valued metadata field a filter key names (`page` is a number, so no string filter selects on it). */
  function MetadataField(md: Metadata, key: string): Option<string> {
    if key == "text" then Some(md.text)
    else if key == "filename" then Some(md.filename)
    else if key == "user" then Some(md.user)
    else if key == "documentId" then Some(md.documentId)
    else None
  }

  /** The filter admits a record when every filtered field holds the filter's value. */
  predicate Admits(filter: Filter, md: Metadata) {
    forall key :: key in filter ==> MetadataField(md, key) == Some(filter[key])
  }

  /** What a caller may expect of the index: at most `topK` hits, each admitted by the filter. */
  predicate HonoursFilter(request: QueryRequest, matches: seq<Match>) {
    && |matches| <= request.topK
    && forall i :: 0 <= i < |matches| ==> Admits(request.filter, matches[i].metadata)
  }

  /** The id of chunk `index` of the upload stored under `key`: `${key}_${index}`. */
  function VectorId(key: string, index: nat): string {
    key + "_" + NatToString(index)
  }

  /** A vector id determines both its key and its chunk index. */
  lemma VectorIdInjective(key1: string, index1: nat, key2: string, index2: nat)
    requires VectorId(key1, index1) == VectorId(key2, index2)
    ensures key1 == key2 && index1 == index2
  {
    var id := VectorId(key1, index1);
    var d1, d2 := NatToString(index1), NatToString(index2);
    // the last '_' of an id sits right after its key, since digits contain no '_'
    assert id == key1 + "_" + d1 == key2 + "_" + d2;
    assert forall i :: |key1| < i < |id| ==> id[i] == d1[i - |key1| - 1] && id[i] != '_';
    assert forall i :: |key2| < i < |id| ==> id[i] == d2[i - |key2| - 1] && id[i] != '_';
    assert id[|key1|] == '_' && id[|key2|] == '_';
    assert key1 == id[..|key1|] == key2;
    assert d1 == id[|key1| + 1..] == d2;
    NatToStringInjective(index1, index2);
  }
}
