/**
 * The retrieval and answer pipeline behind `POST /api/chat`
 * (server/controllers/chatController.js): validate the question, embed it,
 * query the index under a tenant filter, assemble the context from the
 * matches, build the prompt, generate, and return the answer with its
 * sources de-duplicated by filename.
 *
 * The embedding model, the index and the generation model are parameters
 * (oracles). The handler returns its response together with the sequence
 * of service calls it made, so that "no call after a failure" and "every
 * query is tenant-scoped" can be stated.
 */
module ChatController {
  import opened JsValues
  import opened Strings
  import opened VectorStore

  /** The JSON body of the request; `history` is read and never used. */
  datatype ChatRequest = ChatRequest(question: Option<string>, history: seq<string>, documentId: Option<string>)

  /** A citation shown under an answer. */
  datatype Source = Source(filename: string, score: Score)

  datatype ChatResponse =
    | Answered(answer: string, sources: seq<Source>)                  // 200
    | Refused(status: nat, message: string, error: Option<string>)    // 400, 429 or 500
  {
    function Status(): nat {
      if Answered? then 200 else status
    }
  }

  /** A call made to one of the outside services, in the order made. */
  datatype ServiceCall =
    | EmbedQuery(text: string)
    | QueryIndex(request: QueryRequest)
    | GenerateContent(prompt: string)

  const TopK: nat := 5
  const QuestionRequired := "Question is required"
  const EmbeddingRateLimited := "Too many requests to Gemini API (Embedding). Please wait a moment and try again."
  const GenerationRateLimited := "Too many requests to Gemini API (Generation). Please wait a moment and try again."
  const GenericFailure := "Error generating response"

  /** An upstream error is a rate limit when its message mentions 429. */
  predicate IsRateLimit(message: string) {
    Contains(message, "429")
  }

  // ---------------------------------------------------------------------
  // Tenant filter
  // ---------------------------------------------------------------------

  /** The filter of every similarity query: the caller, and the document when one is named. */
  function TenantFilter(userId: string, documentId: Option<string>): (filter: Filter)
    ensures "user" in filter && filter["user"] == userId
    ensures "documentId" in filter <==> Truthy(documentId)
    ensures Truthy(documentId) ==> filter["documentId"] == documentId.value
    ensures filter.Keys <= {"user", "documentId"}
  {
    if Truthy(documentId) then map["user" := userId, "documentId" := documentId.value]
    else map["user" := userId]
  }

  /** Builds the filter object as the handler does: the user key, then the document key if any. */
  method BuildFilter(userId: string, documentId: Option<string>) returns (filter: Filter)
    ensures filter == TenantFilter(userId, documentId)
  {
    filter := map["user" := userId];
    if Truthy(documentId) {
      filter := filter["documentId" := documentId.value];
    }
  }

  /** Tenant isolation: the filter admits exactly the caller's records (of the named document, if any). */
  lemma TenantFilterAdmits(userId: string, documentId: Option<string>, md: Metadata)
    ensures Admits(TenantFilter(userId, documentId), md)
        <==> md.user == userId && (Truthy(documentId) ==> md.documentId == documentId.value)
  {
    var filter := TenantFilter(userId, documentId);
    if Admits(filter, md) {
      assert MetadataField(md, "user") == Some(filter["user"]);
      if Truthy(documentId) {
        assert MetadataField(md, "documentId") == Some(filter["documentId"]);
      }
    }
  }

  /** An index that honours the filter returns only the caller's records. */
  lemma QueriedMatchesBelongToCaller(userId: string, documentId: Option<string>, vector: Vector, matches: seq<Match>)
    requires HonoursFilter(QueryRequest(vector, TopK, true, TenantFilter(userId, documentId)), matches)
    ensures |matches| <= 5
    ensures forall i :: 0 <= i < |matches| ==> matches[i].metadata.user == userId
    ensures Truthy(documentId) ==> forall i :: 0 <= i < |matches| ==> matches[i].metadata.documentId == documentId.value
  {
    forall i | 0 <= i < |matches|
      ensures matches[i].metadata.user == userId
      ensures Truthy(documentId) ==> matches[i].metadata.documentId == documentId.value
    {
      TenantFilterAdmits(userId, documentId, matches[i].metadata);
    }
  }

  // ---------------------------------------------------------------------
  // Context assembly
  // ---------------------------------------------------------------------

  /** The context contributed by one match. */
  function Segment(m: Match): string {
    "\n\n---\nSource: " + m.metadata.filename + "\nContent: " + m.metadata.text
  }

  /** The segments of all matches, concatenated in the order the index returned them. */
  function ContextOf(matches: seq<Match>): string
    decreases |matches|
  {
    if matches == [] then "" else ContextOf(matches[..|matches| - 1]) + Segment(matches[|matches| - 1])
  }

  /** Accumulates the context over the matches, one segment per match. */
  method AssembleContext(matches: seq<Match>) returns (context: string)
    ensures context == ContextOf(matches)
  {
    context := "";
    for i := 0 to |matches|
      invariant context == ContextOf(matches[..i])
    {
      assert matches[..i + 1][..i] == matches[..i];
      context := context + Segment(matches[i]);
    }
    assert matches[..|matches|] == matches;
  }

  /** Adding a match at the end adds its segment at the end. */
  lemma ContextOfSnoc(matches: seq<Match>, m: Match)
    ensures ContextOf(matches + [m]) == ContextOf(matches) + Segment(m)
  {
    assert (matches + [m])[..|matches|] == matches;
  }

  /** Context assembly distributes over concatenation of match lists. */
  lemma {:induction false} ContextOfAppend(a: seq<Match>, b: seq<Match>)
    ensures ContextOf(a + b) == ContextOf(a) + ContextOf(b)
    decreases |b|
  {
    if b == [] {
      assert a + b == a;
    } else {
      var init, last := b[..|b| - 1], b[|b| - 1];
      assert b == init + [last];
      assert a + b == (a + init) + [last];
      ContextOfAppend(a, init);
      ContextOfSnoc(a + init, last);
      ContextOfSnoc(init, last);
    }
  }

  /** Match `i`'s segment sits between the segments of the matches before and after it. */
  lemma {:induction false} ContextInOrder(matches: seq<Match>, i: nat)
    requires i < |matches|
    ensures ContextOf(matches) == ContextOf(matches[..i]) + Segment(matches[i]) + ContextOf(matches[i + 1..])
  {
    var before, at, after := matches[..i], [matches[i]], matches[i + 1..];
    assert at[..0] == [];
    assert ContextOf(at) == Segment(matches[i]);
    calc {
      ContextOf(matches);
      { assert matches == (before + at) + after; }
      ContextOf((before + at) + after);
      { ContextOfAppend(before + at, after); }
      ContextOf(before + at) + ContextOf(after);
      { ContextOfAppend(before, at); }
      ContextOf(before) + ContextOf(at) + ContextOf(after);
    }
  }

  /** The context is empty exactly when there are no matches. */
  lemma ContextEmptyIffNoMatches(matches: seq<Match>)
    ensures ContextOf(matches) == "" <==> matches == []
  {
    if matches != [] {
      assert |Segment(matches[|matches| - 1])| > 0;
    }
  }

  // ---------------------------------------------------------------------
  // Prompt
  // ---------------------------------------------------------------------

  /** The fixed instructions placed before the context. */
  const PromptHead: string :=
    "You are a helpful AI assistant called \"Second Brain\". match the following context to answer the user's question. \n"
    + "        \n"
    + "        Formatting Instructions:\n"
    + "        - Use simple, clear, and professional language.\n"
    + "        - Structure your answer with **Bold Headers** for key sections.\n"
    + "        - Use **bullet points** or **numbered lists** for steps or features to improve readability.\n"
    + "        - Important terms or numbers should be **bolded**.\n"
    + "        - If the answer is long, break it into concise paragraphs.\n"
    + "        \n"
    + "        If the answer is not in the context, say \"I couldn't find the answer in your documents.\" and then try to answer from your general knowledge but mention that it is general knowledge.\n"
    + "        \n"
    + "        Context:\n"
    + "        "

  /** The text between the context and the question. */
  const PromptMiddle: string := "\n\n        Question: "

  /** The text after the question. */
  const PromptTail: string := "\n        \n        Answer:"

  /** The one prompt sent to the generation model: the template, the context and the question. */
  function Prompt(context: string, question: string): string {
    PromptHead + context + PromptMiddle + question + PromptTail
  }

  /** For a given question, the prompt determines the context verbatim. */
  lemma PromptDeterminesContext(context1: string, context2: string, question: string)
    requires Prompt(context1, question) == Prompt(context2, question)
    ensures context1 == context2
  {
    var p := Prompt(context1, question);
    var h := |PromptHead|;
    assert |context1| == |context2|;
    assert p[h..h + |context1|] == context1;
    assert Prompt(context2, question)[h..h + |context2|] == context2;
  }

  /** For a given context, the prompt determines the question verbatim. */
  lemma PromptDeterminesQuestion(context: string, question1: string, question2: string)
    requires Prompt(context, question1) == Prompt(context, question2)
    ensures question1 == question2
  {
    var p := Prompt(context, question1);
    var start := |PromptHead| + |context| + |PromptMiddle|;
    assert |question1| == |question2|;
    assert p[start..start + |question1|] == question1;
    assert Prompt(context, question2)[start..start + |question2|] == question2;
  }

  // ---------------------------------------------------------------------
  // Source de-duplication
  // ---------------------------------------------------------------------

  function SourceOf(m: Match): Source {
    Source(m.metadata.filename, m.score)
  }

  /** The filenames of a list of matches. */
  function MatchFilenames(matches: seq<Match>): set<string> {
    set i | 0 <= i < |matches| :: matches[i].metadata.filename
  }

  /** The filenames of a list of sources. */
  function SourceFilenames(sources: seq<Source>): set<string> {
    set i | 0 <= i < |sources| :: sources[i].filename
  }

  /** The sources of the matches, keeping a filename only the first time it is seen. */
  function Dedup(matches: seq<Match>): seq<Source>
    decreases |matches|
  {
    if matches == [] then []
    else
      var kept := Dedup(matches[..|matches| - 1]);
      var m := matches[|matches| - 1];
      if m.metadata.filename in SourceFilenames(kept) then kept else kept + [SourceOf(m)]
  }

  /** Walks the matches once, remembering the filenames already kept. */
  method DedupSources(matches: seq<Match>) returns (sources: seq<Source>)
    ensures sources == Dedup(matches)
  {
    sources := [];
    var seen: set<string> := {};
    for i := 0 to |matches|
      invariant sources == Dedup(matches[..i])
      invariant seen == SourceFilenames(sources)
    {
      assert matches[..i + 1][..i] == matches[..i];
      var filename := matches[i].metadata.filename;
      if filename !in seen {
        SourceFilenamesSnoc(sources, Source(filename, matches[i].score));
        seen := seen + {filename};
        sources := sources + [Source(filename, matches[i].score)];
      }
    }
    assert matches[..|matches|] == matches;
  }

  lemma SourceFilenamesSnoc(sources: seq<Source>, s: Source)
    ensures SourceFilenames(sources + [s]) == SourceFilenames(sources) + {s.filename}
  {
    var all := sources + [s];
    forall f | f in SourceFilenames(all) ensures f in SourceFilenames(sources) + {s.filename} {
      var i :| 0 <= i < |all| && all[i].filename == f;
      if i < |sources| { assert sources[i] == all[i]; }
    }
    forall f | f in SourceFilenames(sources) ensures f in SourceFilenames(all) {
      var i :| 0 <= i < |sources| && sources[i].filename == f;
      assert all[i] == sources[i];
    }
    assert all[|sources|] == s;
  }

  lemma MatchFilenamesSnoc(matches: seq<Match>)
    requires matches != []
    ensures MatchFilenames(matches)
         == MatchFilenames(matches[..|matches| - 1]) + {matches[|matches| - 1].metadata.filename}
  {
    var prefix := matches[..|matches| - 1];
    forall f | f in MatchFilenames(matches)
      ensures f in MatchFilenames(prefix) + {matches[|matches| - 1].metadata.filename}
    {
      var i :| 0 <= i < |matches| && matches[i].metadata.filename == f;
      if i < |prefix| { assert prefix[i] == matches[i]; }
    }
    forall f | f in MatchFilenames(prefix) ensures f in MatchFilenames(matches) {
      var i :| 0 <= i < |prefix| && prefix[i].metadata.filename == f;
      assert matches[i] == prefix[i];
    }
  }

  /** The position of the first match carrying `filename`. */
  function FirstIndex(matches: seq<Match>, filename: string): (k: nat)
    requires filename in MatchFilenames(matches)
    ensures k < |matches| && matches[k].metadata.filename == filename
    ensures forall j :: 0 <= j < k ==> matches[j].metadata.filename != filename
    decreases |matches|
  {
    var n := |matches| - 1;
    MatchFilenamesSnoc(matches);
    if filename in MatchFilenames(matches[..n]) then
      var k := FirstIndex(matches[..n], filename);
      assert matches[k] == matches[..n][k];
      assert forall j :: 0 <= j < k ==> matches[j] == matches[..n][j];
      k
    else
      assert forall j :: 0 <= j < n ==> matches[j] == matches[..n][j] && matches[..n][j].metadata.filename in MatchFilenames(matches[..n]);
      n
  }

  /** No two sources share a filename. */
  ghost predicate DistinctFilenames(sources: seq<Source>) {
    forall i, j :: 0 <= i < j < |sources| ==> sources[i].filename != sources[j].filename
  }

  /** No filename is cited twice. */
  lemma {:induction false} DedupFilenamesDistinct(matches: seq<Match>)
    ensures DistinctFilenames(Dedup(matches))
    decreases |matches|
  {
    if matches != [] {
      var kept := Dedup(matches[..|matches| - 1]);
      DedupFilenamesDistinct(matches[..|matches| - 1]);
      var r := Dedup(matches);
      forall i, j | 0 <= i < j < |r| ensures r[i].filename != r[j].filename {
        assert r[i] == kept[i];
        if j == |kept| {
          assert kept[i].filename in SourceFilenames(kept);
        } else {
          assert r[j] == kept[j];
          assert kept[i].filename != kept[j].filename;
        }
      }
    }
  }

  /** Exactly the filenames of the matches are cited: none is lost and none is invented. */
  lemma {:induction false} DedupCoversMatches(matches: seq<Match>)
    ensures SourceFilenames(Dedup(matches)) == MatchFilenames(matches)
    decreases |matches|
  {
    if matches != [] {
      var prefix := matches[..|matches| - 1];
      var m := matches[|matches| - 1];
      DedupCoversMatches(prefix);
      MatchFilenamesSnoc(matches);
      if m.metadata.filename !in SourceFilenames(Dedup(prefix)) {
        SourceFilenamesSnoc(Dedup(prefix), SourceOf(m));
      }
    }
  }

  /** Every match's filename is cited. */
  lemma EveryMatchCited(matches: seq<Match>, i: nat)
    requires i < |matches|
    ensures matches[i].metadata.filename in SourceFilenames(Dedup(matches))
  {
    DedupCoversMatches(matches);
    assert matches[i].metadata.filename in MatchFilenames(matches);
  }

  /** Each citation carries the score of the first match with its filename. */
  lemma {:induction false} DedupKeepsFirstScore(matches: seq<Match>)
    ensures var r := Dedup(matches);
      forall k :: 0 <= k < |r| ==>
        r[k].filename in MatchFilenames(matches) && r[k] == SourceOf(matches[FirstIndex(matches, r[k].filename)])
    decreases |matches|
  {
    if matches != [] {
      var n := |matches| - 1;
      var prefix := matches[..n];
      var kept := Dedup(prefix);
      DedupKeepsFirstScore(prefix);
      DedupCoversMatches(prefix);
      MatchFilenamesSnoc(matches);
      var r := Dedup(matches);
      forall k | 0 <= k < |r|
        ensures r[k].filename in MatchFilenames(matches) && r[k] == SourceOf(matches[FirstIndex(matches, r[k].filename)])
      {
        if k < |kept| {
          assert r[k] == kept[k];
          var j := FirstIndex(prefix, kept[k].filename);
          assert FirstIndex(matches, r[k].filename) == j;
          assert matches[j] == prefix[j];
        } else {
          assert r[k] == SourceOf(matches[n]);
          assert FirstIndex(matches, r[k].filename) == n;
        }
      }
    }
  }

  /** Citations appear in the order their filenames were first seen among the matches. */
  lemma {:induction false} DedupFirstSeenOrder(matches: seq<Match>)
    ensures var r := Dedup(matches);
      forall k1, k2 :: 0 <= k1 < k2 < |r| ==>
        r[k1].filename in MatchFilenames(matches) && r[k2].filename in MatchFilenames(matches) &&
        FirstIndex(matches, r[k1].filename) < FirstIndex(matches, r[k2].filename)
    decreases |matches|
  {
    if matches != [] {
      var n := |matches| - 1;
      var prefix := matches[..n];
      var kept := Dedup(prefix);
      DedupFirstSeenOrder(prefix);
      DedupKeepsFirstScore(prefix);
      DedupCoversMatches(prefix);
      MatchFilenamesSnoc(matches);
      var r := Dedup(matches);
      forall k1, k2 | 0 <= k1 < k2 < |r|
        ensures r[k1].filename in MatchFilenames(matches) && r[k2].filename in MatchFilenames(matches) &&
          FirstIndex(matches, r[k1].filename) < FirstIndex(matches, r[k2].filename)
      {
        assert r[k1] == kept[k1];
        assert FirstIndex(matches, r[k1].filename) == FirstIndex(prefix, kept[k1].filename);
        if k2 < |kept| {
          assert r[k2] == kept[k2];
          assert FirstIndex(matches, r[k2].filename) == FirstIndex(prefix, kept[k2].filename);
        } else {
          assert r[k2] == SourceOf(matches[n]);
        }
      }
    }
  }

  /** There are never more citations than matches. */
  lemma {:induction false} DedupNoLonger(matches: seq<Match>)
    ensures |Dedup(matches)| <= |matches|
    decreases |matches|
  {
    if matches != [] {
      DedupNoLonger(matches[..|matches| - 1]);
    }
  }

  /** The worked example: [a 0.9, b 0.8, a 0.7] cites [a 0.9, b 0.8]. */
  lemma DedupExample(md: Metadata)
    ensures var a, b := md.(filename := "a"), md.(filename := "b");
      Dedup([Match("a_0", 0.9, a), Match("b_0", 0.8, b), Match("a_1", 0.7, a)])
        == [Source("a", 0.9), Source("b", 0.8)]
  {
    var a, b := md.(filename := "a"), md.(filename := "b");
    var ms := [Match("a_0", 0.9, a), Match("b_0", 0.8, b), Match("a_1", 0.7, a)];
    assert ms[..2][..1] == ms[..1] == [Match("a_0", 0.9, a)];
    assert ms[..1][..0] == [];
    assert Dedup(ms[..1]) == [Source("a", 0.9)];
    assert Source("a", 0.9).filename !in SourceFilenames([]);
    assert "b" !in SourceFilenames([Source("a", 0.9)]);
    assert Dedup(ms[..2]) == [Source("a", 0.9), Source("b", 0.8)];
    assert [Source("a", 0.9), Source("b", 0.8)][0].filename == "a";
    assert "a" in SourceFilenames([Source("a", 0.9), Source("b", 0.8)]);
  }

  // ---------------------------------------------------------------------
  // The handler
  // ---------------------------------------------------------------------

  /**
   * `chat`: answers `request` for the authenticated `userId`. The three
   * services are the question embedder, the similarity index and the
   * generation model. `history` takes no part in any outcome.
   */
  method Chat(request: ChatRequest, userId: string,
              embedQuery: string -> Outcome<Vector>,
              queryIndex: QueryRequest -> Outcome<seq<Match>>,
              generateContent: string -> Outcome<string>)
    returns (response: ChatResponse, calls: seq<ServiceCall>)
    // a missing or empty question is refused before any service is called
    ensures !Truthy(request.question) ==> response == Refused(400, QuestionRequired, None) && calls == []
    // every similarity query is scoped to the caller, asks for 5 hits and includes metadata
    ensures forall i :: 0 <= i < |calls| && calls[i].QueryIndex? ==>
      calls[i].request.filter == TenantFilter(userId, request.documentId) &&
      calls[i].request.topK == TopK && calls[i].request.includeMetadata
    // embedding fails: 429 if rate-limited, else 500; nothing else is called
    ensures Truthy(request.question) && embedQuery(request.question.value).Err? ==>
      var q := request.question.value;
      var e := embedQuery(q).message;
      && calls == [EmbedQuery(q)]
      && response == (if IsRateLimit(e) then Refused(429, EmbeddingRateLimited, None) else Refused(500, GenericFailure, Some(e)))
    // the index fails: 500, no generation
    ensures Truthy(request.question) && embedQuery(request.question.value).Ok? ==>
      var q := request.question.value;
      var query := QueryRequest(embedQuery(q).value, TopK, true, TenantFilter(userId, request.documentId));
      queryIndex(query).Err? ==>
        && calls == [EmbedQuery(q), QueryIndex(query)]
        && response == Refused(500, GenericFailure, Some(queryIndex(query).message))
    // the prompt is the template around the context of the matches and the question
    ensures Truthy(request.question) && embedQuery(request.question.value).Ok? ==>
      var q := request.question.value;
      var query := QueryRequest(embedQuery(q).value, TopK, true, TenantFilter(userId, request.documentId));
      queryIndex(query).Ok? ==>
        var matches := queryIndex(query).value;
        var prompt := Prompt(ContextOf(matches), q);
        && calls == [EmbedQuery(q), QueryIndex(query), GenerateContent(prompt)]
        && response == match generateContent(prompt)
             case Ok(text) => Answered(text, Dedup(matches))
             case Err(e) =>
               if IsRateLimit(e) then Refused(429, GenerationRateLimited, None) else Refused(500, GenericFailure, Some(e))
  {
    if !Truthy(request.question) {
      return Refused(400, QuestionRequired, None), [];
    }
    var question := request.question.value;

    calls := [EmbedQuery(question)];
    var embedded := embedQuery(question);
    if embedded.Err? {
      if IsRateLimit(embedded.message) {
        return Refused(429, EmbeddingRateLimited, None), calls;
      }
      return Refused(500, GenericFailure, Some(embedded.message)), calls;
    }

    var filter := BuildFilter(userId, request.documentId);
    var query := QueryRequest(embedded.value, TopK, true, filter);
    calls := calls + [QueryIndex(query)];
    var queried := queryIndex(query);
    if queried.Err? {
      return Refused(500, GenericFailure, Some(queried.message)), calls;
    }
    var matches := queried.value;

    var context := AssembleContext(matches);
    var prompt := Prompt(context, question);
    calls := calls + [GenerateContent(prompt)];
    var generated := generateContent(prompt);
    if generated.Err? {
      if IsRateLimit(generated.message) {
        return Refused(429, GenerationRateLimited, None), calls;
      }
      return Refused(500, GenericFailure, Some(generated.message)), calls;
    }

    var sources := DedupSources(matches);
    response := Answered(generated.value, sources);
  }
}
