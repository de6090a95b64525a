/**
 * Project-aware chat: retrieve the five nearest stored symbols for the question, render them as
 * numbered context snippets in the user prompt, ask the language model, and attach one truncated
 * reference per retrieved symbol.
 */
module Chat {
  import opened Common
  import opened Embedding

  /** A source location returned beside the answer. */
  datatype Reference = Reference(filePath: string, lineStart: int, lineEnd: int, snippet: string)

  datatype ChatResponse = ChatResponse(answer: string, references: seq<Reference>)

  /** Every chat query retrieves this many neighbours. */
  const RetrievalK: int := 5

  /** A reference carries at most this many characters of code. */
  const ReferenceLength: nat := 200

  const ChatSystemPrompt: string :=
    "You are an AI code assistant with full context of this repository. Use the provided code snippets as context to answer the user's question. If the provided context is insufficient or you're unsure about something, say so clearly. Be concise but thorough in your explanations."

  /** The snippet's first line: the file, "unknown" when absent. */
  function FileLine(m: MetadataRecord): string {
    "File: " + m.filePath.GetOr("unknown") + "\n"
  }

  /** The snippet's middle lines: kind and name, then the line range; absent keys read as defaults. */
  function SymbolLines(m: MetadataRecord): string {
    "Symbol: " + m.kind.GetOr("unknown") + " " + m.name.GetOr("unknown") + "\n"
    + "Lines: " + IntToString(m.lineStart.GetOr(0)) + "-" + IntToString(m.lineEnd.GetOr(0)) + "\n"
  }

  /** The snippet's close: the code, verbatim (empty when absent). */
  function CodeBlock(m: MetadataRecord): string {
    "Code:\n" + m.code.GetOr("") + "\n"
  }

  /** One context snippet: location, kind and name, line range, then the code. */
  function SnippetOf(r: SearchResult): string {
    FileLine(r.record) + SymbolLines(r.record) + CodeBlock(r.record)
  }

  /** A snippet opens with the record's file (or "unknown") and closes with its code (or nothing) verbatim. */
  lemma SnippetFrame(r: SearchResult)
    ensures StartsWith(SnippetOf(r), "File: " + r.record.filePath.GetOr("unknown") + "\n")
    ensures EndsWith(SnippetOf(r), "Code:\n" + r.record.code.GetOr("") + "\n")
  {
    var head := FileLine(r.record);
    var tail := CodeBlock(r.record);
    var s := SnippetOf(r);
    assert s[..|head|] == head;
    assert s[|s| - |tail|..] == tail;
  }

  function ContextSnippets(results: seq<SearchResult>): seq<string> {
    seq(|results|, i requires 0 <= i < |results| => SnippetOf(results[i]))
  }

  /** `_build_context_snippets`: one snippet per search result, in result order. */
  method BuildContextSnippets(results: seq<SearchResult>) returns (snippets: seq<string>)
    ensures |snippets| == |results|
    ensures forall i :: 0 <= i < |results| ==> snippets[i] == SnippetOf(results[i])
    ensures snippets == ContextSnippets(results)
  {
    snippets := [];
    for i := 0 to |results|
      invariant |snippets| == i
      invariant forall j :: 0 <= j < i ==> snippets[j] == SnippetOf(results[j])
    {
      snippets := snippets + [SnippetOf(results[i])];
    }
    assert forall j :: 0 <= j < |results| ==> snippets[j] == ContextSnippets(results)[j];
  }

  const RelevantHeader: string := "Relevant code snippets from the repository:\n\n"
  const NoSnippetsNotice: string := "No relevant code snippets found in the repository.\n\n"
  const ClosingRequest: string := "Please answer the user's question based on the provided context."

  function QuestionLine(query: string): string {
    "User question: " + query + "\n\n"
  }

  /** The block for the snippet at 1-based position `n`. */
  function SnippetBlock(n: nat, snippet: string): string {
    "--- Snippet " + NatToString(n) + " ---\n" + snippet + "\n\n"
  }

  /** The snippet blocks, numbered 1, 2, ... in snippet order. */
  function Blocks(snippets: seq<string>): seq<string> {
    seq(|snippets|, i requires 0 <= i < |snippets| => SnippetBlock(i + 1, snippets[i]))
  }

  function ContextSection(snippets: seq<string>): string {
    if snippets == [] then NoSnippetsNotice else RelevantHeader + Concat(Blocks(snippets))
  }

  function UserPrompt(query: string, snippets: seq<string>): string {
    QuestionLine(query) + ContextSection(snippets) + ClosingRequest
  }

  /** `_build_user_prompt`: the question, then the numbered snippets or the notice that there are none, then the request. */
  method BuildUserPrompt(query: string, snippets: seq<string>) returns (prompt: string)
    ensures prompt == UserPrompt(query, snippets)
  {
    prompt := QuestionLine(query);
    if snippets != [] {
      prompt := prompt + RelevantHeader;
      var blocks := Blocks(snippets);
      var i := 0;
      while i < |snippets|
        invariant 0 <= i <= |snippets|
        invariant prompt == QuestionLine(query) + RelevantHeader + Concat(blocks[..i])
      {
        assert blocks[..i + 1][..i] == blocks[..i];
        AppendAssoc(QuestionLine(query) + RelevantHeader, Concat(blocks[..i]), blocks[i]);
        prompt := prompt + SnippetBlock(i + 1, snippets[i]);
        i := i + 1;
      }
      assert blocks[..i] == blocks;
      AppendAssoc(QuestionLine(query), RelevantHeader, Concat(blocks));
    } else {
      prompt := prompt + NoSnippetsNotice;
    }
    prompt := prompt + ClosingRequest;
  }

  /** The prompt always opens with the question and closes with the request to answer from the context. */
  lemma PromptFrame(query: string, snippets: seq<string>)
    ensures StartsWith(UserPrompt(query, snippets), QuestionLine(query))
    ensures EndsWith(UserPrompt(query, snippets), ClosingRequest)
  {
    var q := QuestionLine(query);
    var body := q + ContextSection(snippets);
    assert (body + ClosingRequest)[..|q|] == body[..|q|] == q;
    assert (body + ClosingRequest)[|body|..] == ClosingRequest;
  }

  /** Without snippets the prompt is the question, the notice that nothing was found, and the request. */
  lemma PromptWithoutSnippets(query: string)
    ensures UserPrompt(query, []) == QuestionLine(query) + NoSnippetsNotice + ClosingRequest
    ensures Contains(UserPrompt(query, []), NoSnippetsNotice)
  {
    var p := UserPrompt(query, []);
    var q := QuestionLine(query);
    assert p[|q|..|q| + |NoSnippetsNotice|] == NoSnippetsNotice;
    assert OccursAt(p, NoSnippetsNotice, |q|);
  }

  /** Part `i` of a concatenation sits right after the parts before it. */
  lemma {:induction false} ConcatPartOccurs(parts: seq<string>, i: nat)
    requires i < |parts|
    ensures OccursAt(Concat(parts), parts[i], |Concat(parts[..i])|)
  {
    var init := parts[..|parts| - 1];
    var last := parts[|parts| - 1];
    if i == |parts| - 1 {
      assert parts[..i] == init;
      assert OccursAt(last, last, 0);
      OccursInAppend(Concat(init), last, last, 0);
    } else {
      ConcatPartOccurs(init, i);
      assert init[..i] == parts[..i] && init[i] == parts[i];
      OccursInAppend(Concat(init), last, parts[i], |Concat(parts[..i])|);
    }
  }

  /** Every snippet appears in the prompt under the header numbered with its 1-based position. */
  lemma PromptListsEverySnippet(query: string, snippets: seq<string>, i: nat)
    requires i < |snippets|
    ensures Contains(UserPrompt(query, snippets), "--- Snippet " + NatToString(i + 1) + " ---\n" + snippets[i] + "\n\n")
  {
    var blocks := Blocks(snippets);
    var sub := SnippetBlock(i + 1, snippets[i]);
    var k := |Concat(blocks[..i])|;
    assert OccursAt(Concat(blocks), sub, k) by {
      ConcatPartOccurs(blocks, i);
    }
    assert OccursAt(ContextSection(snippets), sub, |RelevantHeader| + k) by {
      OccursInAppend(RelevantHeader, Concat(blocks), sub, k);
    }
    var at := |QuestionLine(query)| + |RelevantHeader| + k;
    assert OccursAt(QuestionLine(query) + ContextSection(snippets), sub, at) by {
      OccursInAppend(QuestionLine(query), ContextSection(snippets), sub, |RelevantHeader| + k);
    }
    assert OccursAt(UserPrompt(query, snippets), sub, at) by {
      OccursInAppend(QuestionLine(query) + ContextSection(snippets), ClosingRequest, sub, at);
    }
  }

  /** One reference: file path and line range (with defaults) and the first 200 characters of the code. */
  function ReferenceOf(r: SearchResult): (ref: Reference)
    ensures |ref.snippet| <= ReferenceLength
    ensures StartsWith(r.record.code.GetOr(""), ref.snippet)
    ensures |r.record.code.GetOr("")| <= ReferenceLength ==> ref.snippet == r.record.code.GetOr("")
    ensures |r.record.code.GetOr("")| > ReferenceLength ==> |ref.snippet| == ReferenceLength
    ensures ref.filePath == r.record.filePath.GetOr("")
  {
    var code := r.record.code.GetOr("");
    Reference(r.record.filePath.GetOr(""), r.record.lineStart.GetOr(0), r.record.lineEnd.GetOr(0),
              code[..Min(ReferenceLength, |code|)])
  }

  function References(results: seq<SearchResult>): (refs: seq<Reference>)
    ensures |refs| == |results|
    ensures forall i :: 0 <= i < |results| ==> refs[i] == ReferenceOf(results[i])
  {
    seq(|results|, i requires 0 <= i < |results| => ReferenceOf(results[i]))
  }

  /**
   * `process_chat`: search the project's store with k = 5 (`queryVector` is the question's
   * embedding, None when the provider raised), prompt the model, and return its answer verbatim
   * with one reference per retrieved symbol; a model failure propagates.
   */
  method ProcessChat(store: VectorStore, projectId: int, message: string, queryVector: Option<Vector>,
                     nearest: NeighbourOracle, llm: LanguageModel)
    returns (r: Result<ChatResponse, ProviderError>)
    ensures var key := IntToString(projectId);
            var results := SearchSpec(Lookup(store.indexFiles, key), Lookup(store.metadataFiles, key), queryVector, RetrievalK, nearest);
            var answer := llm(ChatSystemPrompt, UserPrompt(message, ContextSnippets(results)));
            && (answer.Err? ==> r == Err(answer.error))
            && (answer.Ok? ==> r == Ok(ChatResponse(answer.value, References(results))))
            && (r.Ok? ==> |r.value.references| == |results|)
  {
    var results := store.Search(IntToString(projectId), queryVector, RetrievalK, nearest);
    var snippets := BuildContextSnippets(results);
    var userPrompt := BuildUserPrompt(message, snippets);
    var answer := llm(ChatSystemPrompt, userPrompt);
    if answer.Err? {
      return Err(answer.error);
    }
    r := Ok(ChatResponse(answer.value, References(results)));
  }
}
