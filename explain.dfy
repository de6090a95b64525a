/**
 * Code explanation: build a prompt around the submitted code, ask the language model, and derive a
 * complexity label and an issues hint from keywords in the answer.
 */
module Explain {
  import opened Common

  /** The request: the code, and optionally its file path, language and project. */
  datatype ExplainRequest = ExplainRequest(code: string, filePath: Option<string>, language: Option<string>, projectId: Option<int>)

  /** The complexity label reported as "low", "medium" or "high". */
  datatype Complexity = Low | Medium | High

  datatype ExplainResponse = ExplainResponse(explanation: string, complexity: Complexity, issues: seq<string>)

  const ExplainSystemPrompt: string :=
    "You are a helpful code explainer. Explain the provided code to an intermediate developer. Mention the code's purpose, how it works, its complexity level, and any potential pitfalls or issues. Be clear and concise."

  const Instructions: string :=
    "Please provide:\n1. A clear explanation of what this code does\n2. The complexity level (low/medium/high)\n3. Any potential issues or pitfalls"

  /** The one entry `issues` gets when the answer mentions a problem. */
  const IssuesHint: string := "See explanation for details"

  /** An optional header line: present only for a given, non-empty value (Python truthiness). */
  function HeaderLine(title: string, value: Option<string>): string {
    if value.Some? && value.value != "" then title + value.value + "\n" else ""
  }

  /** The code between triple-backtick fences. */
  function Fenced(code: string): string {
    "```\n" + code + "\n```\n"
  }

  /** The line that introduces the code, after a blank line. */
  const CodeIntro: string := "\nCode to explain:\n"

  /** What follows the optional header lines: the code introduction, the fenced code, and the three requests. */
  function PromptBody(code: string): string {
    CodeIntro + Fenced(code) + ("\n" + Instructions)
  }

  function ExplainUserPrompt(req: ExplainRequest): string {
    HeaderLine("File: ", req.filePath) + (HeaderLine("Language: ", req.language) + PromptBody(req.code))
  }

  /** The prompt opens with a "File: " line exactly when a non-empty file path was given. */
  lemma FileLineIffProvided(req: ExplainRequest)
    ensures StartsWith(ExplainUserPrompt(req), "File: ") <==> req.filePath.Some? && req.filePath.value != ""
  {
    var p := ExplainUserPrompt(req);
    var file := HeaderLine("File: ", req.filePath);
    var rest := HeaderLine("Language: ", req.language) + PromptBody(req.code);
    if file == "" {
      assert p == rest;
      assert p[0] == 'L' || p[0] == '\n';
    } else {
      assert p[..6] == file[..6];
      assert file[..6] == ("File: " + req.filePath.value)[..6] == "File: ";
    }
  }

  /** The body opens with the code introduction. */
  lemma BodyOpensWithIntro(code: string)
    ensures OccursAt(PromptBody(code), CodeIntro, 0)
  {
    OccursInAppend(CodeIntro, Fenced(code), CodeIntro, 0);
    OccursInAppend(CodeIntro + Fenced(code), "\n" + Instructions, CodeIntro, 0);
  }

  /** The language line follows the file line when a non-empty language was given; otherwise the code introduction does. */
  lemma LanguageLineIffProvided(req: ExplainRequest)
    ensures var p := ExplainUserPrompt(req);
            var at := |HeaderLine("File: ", req.filePath)|;
            && (req.language.Some? && req.language.value != "" ==>
                  OccursAt(p, "Language: " + req.language.value + "\n", at))
            && (req.language.None? || req.language.value == "" ==> OccursAt(p, CodeIntro, at))
  {
    var file := HeaderLine("File: ", req.filePath);
    var lang := HeaderLine("Language: ", req.language);
    var body := PromptBody(req.code);
    if lang != "" {
      OccursInAppend(lang, body, lang, 0);
      OccursInAppend(file, lang + body, lang, 0);
    } else {
      BodyOpensWithIntro(req.code);
      assert lang + body == body;
      OccursInAppend(file, body, CodeIntro, 0);
    }
  }

  /** The submitted code appears verbatim between triple-backtick fences. */
  lemma CodeIsFenced(req: ExplainRequest)
    ensures Contains(ExplainUserPrompt(req), Fenced(req.code))
  {
    var file := HeaderLine("File: ", req.filePath);
    var lang := HeaderLine("Language: ", req.language);
    var intro := CodeIntro;
    var code := Fenced(req.code);
    OccursInAppend(intro, code, code, 0);
    OccursInAppend(intro + code, "\n" + Instructions, code, |intro|);
    OccursInAppend(lang, PromptBody(req.code), code, |intro|);
    OccursInAppend(file, lang + PromptBody(req.code), code, |lang| + |intro|);
    assert OccursAt(ExplainUserPrompt(req), code, |file| + |lang| + |intro|);
  }

  /** ASCII lowercasing, one character at a time. */
  function LowerChar(c: char): char {
    if 'A' <= c <= 'Z' then (c as int + 32) as char else c
  }

  function Lower(s: string): (r: string)
    ensures |r| == |s|
    ensures forall i :: 0 <= i < |s| ==> r[i] == LowerChar(s[i])
  {
    seq(|s|, i requires 0 <= i < |s| => LowerChar(s[i]))
  }

  /** Lowercasing twice is lowercasing once. */
  lemma LowerIdempotent(s: string)
    ensures Lower(Lower(s)) == Lower(s)
  {
    assert forall i :: 0 <= i < |s| ==> Lower(Lower(s))[i] == Lower(s)[i];
  }

  /** A marker written in any letter case is found after lowercasing. */
  lemma LowerKeepsOccurrence(s: string, sub: string, i: int)
    requires OccursAt(s, sub, i)
    ensures OccursAt(Lower(s), Lower(sub), i)
  {
    assert forall j :: 0 <= j < |sub| ==> Lower(s)[i + j] == LowerChar(s[i + j]) == LowerChar(sub[j]) by {
      forall j | 0 <= j < |sub| ensures s[i + j] == sub[j] {
        assert s[i..i + |sub|][j] == sub[j];
      }
    }
    assert Lower(s)[i..i + |sub|] == Lower(sub);
  }

  predicate MentionsLow(lower: string) {
    Contains(lower, "complexity: low") || Contains(lower, "low complexity")
  }

  predicate MentionsHigh(lower: string) {
    Contains(lower, "complexity: high") || Contains(lower, "high complexity")
  }

  predicate MentionsIssue(lower: string) {
    Contains(lower, "issue") || Contains(lower, "pitfall") || Contains(lower, "problem")
  }

  /** The complexity heuristic on the lowercased answer: a low marker wins, then a high marker, else medium. */
  function ClassifyComplexity(explanation: string): Complexity {
    var lower := Lower(explanation);
    if MentionsLow(lower) then Low else if MentionsHigh(lower) then High else Medium
  }

  /** The issues heuristic: one hint when the lowercased answer mentions an issue, pitfall or problem. */
  function ExtractIssues(explanation: string): seq<string> {
    if MentionsIssue(Lower(explanation)) then [IssuesHint] else []
  }

  /** A low-complexity marker in any letter case yields `low`, whatever high markers the answer also has. */
  lemma LowMarkerWins(explanation: string, marker: string)
    requires Contains(explanation, marker)
    requires Lower(marker) == "complexity: low" || Lower(marker) == "low complexity"
    ensures ClassifyComplexity(explanation) == Low
  {
    var i :| 0 <= i <= |explanation| - |marker| && OccursAt(explanation, marker, i);
    LowerKeepsOccurrence(explanation, marker, i);
  }

  /** Without a low marker, a high-complexity marker in any letter case yields `high`. */
  lemma HighMarkerWithoutLow(explanation: string, marker: string)
    requires !MentionsLow(Lower(explanation))
    requires Contains(explanation, marker)
    requires Lower(marker) == "complexity: high" || Lower(marker) == "high complexity"
    ensures ClassifyComplexity(explanation) == High
  {
    var i :| 0 <= i <= |explanation| - |marker| && OccursAt(explanation, marker, i);
    LowerKeepsOccurrence(explanation, marker, i);
  }

  /** Both heuristics ignore letter case. */
  lemma HeuristicsIgnoreCase(explanation: string)
    ensures ClassifyComplexity(Lower(explanation)) == ClassifyComplexity(explanation)
    ensures ExtractIssues(Lower(explanation)) == ExtractIssues(explanation)
  {
    LowerIdempotent(explanation);
  }

  /**
   * `explain_code_standalone`: prompt the model with the request; its answer is returned verbatim
   * with the two heuristics' labels; a model failure propagates.
   */
  function ExplainCodeStandalone(req: ExplainRequest, llm: LanguageModel): (r: Result<ExplainResponse, ProviderError>)
    ensures var answer := llm(ExplainSystemPrompt, ExplainUserPrompt(req));
            && (r.Ok? <==> answer.Ok?)
            && (r.Err? ==> r.error == answer.error)
            && (r.Ok? ==> r.value.explanation == answer.value)
            && (r.Ok? ==> (r.value.issues == [IssuesHint] <==> MentionsIssue(Lower(answer.value))))
            && (r.Ok? ==> (r.value.issues == [] <==> !MentionsIssue(Lower(answer.value))))
            && (r.Ok? ==> (r.value.complexity == Low <==> MentionsLow(Lower(answer.value))))
            && (r.Ok? ==> (r.value.complexity == High <==> !MentionsLow(Lower(answer.value)) && MentionsHigh(Lower(answer.value))))
  {
    match llm(ExplainSystemPrompt, ExplainUserPrompt(req))
    case Err(e) => Err(e)
    case Ok(explanation) =>
      Ok(ExplainResponse(explanation, ClassifyComplexity(explanation), ExtractIssues(explanation)))
  }

  /** `explain_code`: the project id is ignored; the standalone path answers. */
  function ExplainCode(projectId: Option<int>, req: ExplainRequest, llm: LanguageModel): (r: Result<ExplainResponse, ProviderError>)
    ensures r == ExplainCodeStandalone(req, llm)
    ensures forall other: Option<int> :: r == ExplainCodeStandalone(req.(projectId := other), llm)
  {
    ExplainCodeStandalone(req, llm)
  }
}
