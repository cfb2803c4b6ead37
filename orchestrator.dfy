/** The dispatcher: menu choice to tool identifier, identifier to handler
    node, and what each handler node does to the workflow state. */
module Orchestrator {
  import opened Wrappers
  import opened Text
  import EmailGenerator

  /** The closed set of identifiers _route_tool may return. */
  datatype ToolId =
    | ResumeAnalyzer | EmailGenerator | ReadmeGenerator | ExplainCodebase | CodeReview
    | CodeSummarizer | WebSearch | JobSearch | ChatWithLlm | Exit | Unknown

  /** The identifier as the Python code spells it. */
  function Identifier(t: ToolId): string {
    match t
    case ResumeAnalyzer => "resume_analyzer"
    case EmailGenerator => "email_generator"
    case ReadmeGenerator => "readme_generator"
    case ExplainCodebase => "explain_codebase"
    case CodeReview => "code_review"
    case CodeSummarizer => "code_summarizer"
    case WebSearch => "web_search"
    case JobSearch => "job_search"
    case ChatWithLlm => "chat_with_llm"
    case Exit => "exit"
    case Unknown => "unknown"
  }

  /** The menu number of a tool, as the string the user types. */
  function Numeral(t: ToolId): string
    requires t != Unknown
  {
    match t
    case ResumeAnalyzer => "1"
    case EmailGenerator => "2"
    case ReadmeGenerator => "3"
    case ExplainCodebase => "4"
    case CodeReview => "5"
    case CodeSummarizer => "6"
    case WebSearch => "7"
    case JobSearch => "8"
    case ChatWithLlm => "9"
    case Exit => "10"
  }

  /** The lower-case display name accepted for a tool. */
  function DisplayName(t: ToolId): string
    requires t != Unknown
  {
    match t
    case ResumeAnalyzer => "resume analyzer"
    case EmailGenerator => "email generator"
    case ReadmeGenerator => "readme generator"
    case ExplainCodebase => "explain the codebase"
    case CodeReview => "code review"
    case CodeSummarizer => "code summarizer"
    case WebSearch => "web search"
    case JobSearch => "job search"
    case ChatWithLlm => "chat with a llm"
    case Exit => "exit"
  }

  /** The numbered menu label accepted for a tool. */
  function Label(t: ToolId): string
    requires t != Unknown
  {
    match t
    case ResumeAnalyzer => "1. resume_analyzer"
    case EmailGenerator => "2. email_generator"
    case ReadmeGenerator => "3. readme_generator"
    case ExplainCodebase => "4. explain_codebase"
    case CodeReview => "5. code_review"
    case CodeSummarizer => "6. code_summarizer"
    case WebSearch => "7. web_search"
    case JobSearch => "8. job_search"
    case ChatWithLlm => "9. chat_with_llm"
    case Exit => "10. exit"
  }

  /** The alias table, one set per tool; unknown has no alias. */
  function Aliases(t: ToolId): set<string> {
    match t
    case ResumeAnalyzer => {"1", "resume analyzer", "1. resume_analyzer"}
    case EmailGenerator => {"2", "email generator", "2. email_generator"}
    case ReadmeGenerator => {"3", "readme generator", "3. readme_generator"}
    case ExplainCodebase => {"4", "explain the codebase", "4. explain_codebase"}
    case CodeReview => {"5", "code review", "5. code_review"}
    case CodeSummarizer => {"6", "code summarizer", "6. code_summarizer"}
    case WebSearch => {"7", "web search", "7. web_search"}
    case JobSearch => {"8", "job search", "8. job_search"}
    case ChatWithLlm => {"9", "chat with a llm", "9. chat_with_llm"}
    case Exit => {"10", "exit", "10. exit"}
    case Unknown => {}
  }

  /** The if-chain of _normalize_tool_choice over an already folded string:
      a tool comes back only for one of its own aliases. */
  function Classify(normalized: string): (r: ToolId)
    ensures r != Unknown ==> normalized in Aliases(r)
  {
    if normalized in {"1", "resume analyzer", "1. resume_analyzer"} then ResumeAnalyzer
    else if normalized in {"2", "email generator", "2. email_generator"} then EmailGenerator
    else if normalized in {"3", "readme generator", "3. readme_generator"} then ReadmeGenerator
    else if normalized in {"4", "explain the codebase", "4. explain_codebase"} then ExplainCodebase
    else if normalized in {"5", "code review", "5. code_review"} then CodeReview
    else if normalized in {"6", "code summarizer", "6. code_summarizer"} then CodeSummarizer
    else if normalized in {"7", "web search", "7. web_search"} then WebSearch
    else if normalized in {"8", "job search", "8. job_search"} then JobSearch
    else if normalized in {"9", "chat with a llm", "9. chat_with_llm"} then ChatWithLlm
    else if normalized in {"10", "exit", "10. exit"} then Exit
    else Unknown
  }

  /** _normalize_tool_choice: strip, lower, then the if-chain. A tool comes
      back only when the folded, stripped choice is one of its aliases. */
  function Normalize(choice: string): (r: ToolId)
    ensures r != Unknown ==> Strip(Lower(choice)) in Aliases(r)
  {
    LowerStripCommute(choice);
    Classify(Lower(Strip(choice)))
  }

  /** Each tool's aliases are its menu number, its display name and
      "<number>. <identifier>". */
  lemma AliasShape(t: ToolId)
    requires t != Unknown
    ensures Aliases(t) == {Numeral(t), DisplayName(t), Label(t)}
    ensures Label(t) == Numeral(t) + ". " + Identifier(t)
  {
    NumberedLabelsLow();
    NumberedLabelsHigh();
  }

  lemma NumberedLabelsLow()
    ensures "1" + ". " + "resume_analyzer" == "1. resume_analyzer"
    ensures "2" + ". " + "email_generator" == "2. email_generator"
    ensures "3" + ". " + "readme_generator" == "3. readme_generator"
    ensures "4" + ". " + "explain_codebase" == "4. explain_codebase"
    ensures "5" + ". " + "code_review" == "5. code_review"
  {
  }

  lemma NumberedLabelsHigh()
    ensures "6" + ". " + "code_summarizer" == "6. code_summarizer"
    ensures "7" + ". " + "web_search" == "7. web_search"
    ensures "8" + ". " + "job_search" == "8. job_search"
    ensures "9" + ". " + "chat_with_llm" == "9. chat_with_llm"
    ensures "10" + ". " + "exit" == "10. exit"
  {
  }

  lemma ClassifyNumeral(t: ToolId)
    requires t != Unknown
    ensures Classify(Numeral(t)) == t
  {
  }

  lemma ClassifyDisplayName(t: ToolId)
    requires t != Unknown
    ensures Classify(DisplayName(t)) == t
  {
  }

  lemma ClassifyLabel(t: ToolId)
    requires t != Unknown
    ensures Classify(Label(t)) == t
  {
  }

  /** Every alias of a tool leads the chain to that tool, whatever the order
      of the tests. */
  lemma ClassifyAlias(t: ToolId, s: string)
    requires s in Aliases(t)
    ensures Classify(s) == t
  {
    AliasShape(t);
    ClassifyNumeral(t);
    ClassifyDisplayName(t);
    ClassifyLabel(t);
  }

  /** No string is an alias of two tools (in particular "1" and "10" are
      different aliases), so the order of the chain does not matter. */
  lemma AliasesDisjoint(t: ToolId, u: ToolId)
    requires t != u
    ensures Aliases(t) !! Aliases(u)
  {
    if s :| s in Aliases(t) && s in Aliases(u) {
      ClassifyAlias(t, s);
      ClassifyAlias(u, s);
    }
  }

  /** The chain returns a tool exactly when the folded string is one of that
      tool's aliases, and unknown exactly when it is nobody's alias. */
  lemma ClassifyIsAliasLookup(normalized: string, t: ToolId)
    ensures t != Unknown ==> (Classify(normalized) == t <==> normalized in Aliases(t))
    ensures Classify(normalized) == Unknown <==> forall u :: normalized !in Aliases(u)
  {
    if normalized in Aliases(t) {
      ClassifyAlias(t, normalized);
    }
    assert Classify(normalized) != Unknown ==> normalized in Aliases(Classify(normalized));
    forall u | normalized in Aliases(u)
      ensures Classify(normalized) == u
    {
      ClassifyAlias(u, normalized);
    }
  }

  /** Normalisation is the alias lookup of the stripped, case-folded choice,
      whichever order the folding and the stripping are done in. */
  lemma NormalizeIsLookup(choice: string, t: ToolId)
    requires t != Unknown
    ensures Normalize(choice) == t <==> Strip(Lower(choice)) in Aliases(t)
    ensures Normalize(choice) == Unknown <==> forall u :: Strip(Lower(choice)) !in Aliases(u)
  {
    LowerStripCommute(choice);
    ClassifyIsAliasLookup(Strip(Lower(choice)), t);
  }

  /** Letter case does not matter. */
  lemma NormalizeIgnoresCase(s: string, t: string)
    requires Lower(s) == Lower(t)
    ensures Normalize(s) == Normalize(t)
  {
    LowerStripCommute(s);
    LowerStripCommute(t);
  }

  /** Surrounding whitespace does not matter. */
  lemma NormalizeIgnoresPadding(w1: string, s: string, w2: string)
    requires AllSpace(w1) && AllSpace(w2)
    ensures Normalize(w1 + s + w2) == Normalize(s)
  {
    StripIgnoresPadding(w1, s, w2);
  }

  /** The email tool by number, with padding. */
  lemma NormalizePaddedNumberExample()
    ensures Normalize(" 2 ") == EmailGenerator
  {
    assert Strip(" 2 ") == "2" by {
      assert " 2 " == " " + "2" + " ";
      StripIgnoresPadding(" ", "2", " ");
    }
    assert Lower("2") == "2";
  }

  /** The email tool by its display name, in title case. */
  lemma NormalizeDisplayNameExample()
    ensures Normalize("Email Generator") == EmailGenerator
  {
    assert Strip("Email Generator") == "Email Generator";
    assert Lower("Email Generator") == "email generator";
  }

  /** The email tool by its numbered label. */
  lemma NormalizeLabelExample()
    ensures Normalize("2. email_generator") == EmailGenerator
  {
    assert Strip("2. email_generator") == "2. email_generator";
    assert Lower("2. email_generator") == "2. email_generator";
  }

  /** "10" is exit, not "1" followed by something. */
  lemma NormalizeExitNumberExample()
    ensures Normalize("10") == Exit
  {
    assert Strip("10") == "10";
    assert Lower("10") == "10";
  }

  /** The numbered exit label, with a capital letter. */
  lemma NormalizeExitLabelExample()
    ensures Normalize("10. Exit") == Exit
  {
    assert StripStart("10. Exit") == "10. Exit";
    assert Strip("10. Exit") == "10. Exit";
    assert Lower("10. Exit") == "10. exit";
    assert Classify("10. exit") == Exit;
  }

  lemma NormalizeFirstExample()
    ensures Normalize("1") == ResumeAnalyzer
  {
    assert Lower("1") == "1";
  }

  lemma NormalizeInvalidExample()
    ensures Normalize("invalid_tool_xyz") == Unknown
  {
    assert Strip("invalid_tool_xyz") == "invalid_tool_xyz";
    assert Lower("invalid_tool_xyz") == "invalid_tool_xyz";
  }

  /** The workflow state: both keys optional (TypedDict with total=False). */
  datatype ToolState = ToolState(tool: Option<string>, result: Option<string>)

  /** _route_tool: normalise the tool key, "" when it is missing. */
  function Route(state: ToolState): (r: ToolId)
    ensures state.tool.Some? ==> r == Normalize(state.tool.value)
    ensures state.tool.None? ==> r == Unknown
  {
    Normalize(state.tool.GetOr(""))
  }

  /** A state without a tool key routes to unknown. */
  lemma RouteMissingTool(result: Option<string>)
    ensures Route(ToolState(None, result)) == Unknown
  {
  }

  /** The nodes of the compiled graph. */
  datatype Node = Start | EmailGeneratorNode | ExitNode | UnknownNode | End

  /** The map given to add_conditional_edges from the start node. */
  const ConditionalEdges: map<ToolId, Node> :=
    map[EmailGenerator := EmailGeneratorNode, Exit := ExitNode, Unknown := UnknownNode]

  /** The plain edges: each handler node goes to END. */
  const TerminalEdges: map<Node, Node> :=
    map[EmailGeneratorNode := End, ExitNode := End, UnknownNode := End]

  /** The handler node an identifier is wired to, if any. */
  function Handler(t: ToolId): (r: Option<Node>)
    ensures r.Some? <==> t in {EmailGenerator, Exit, Unknown}
    ensures r.Some? ==> r.value in TerminalEdges && TerminalEdges[r.value] == End
  {
    if t in ConditionalEdges then Some(ConditionalEdges[t]) else None
  }

  /** The nodes one invocation visits. An identifier with no entry in the
      conditional map ends the run with no handler (taken from the comment
      beside the map; the library's behaviour is not part of this model). */
  function Visited(state: ToolState): (r: seq<Node>)
    ensures |r| >= 2 && r[0] == Start && r[|r| - 1] == End
  {
    match Handler(Route(state))
    case Some(n) => [Start, n, TerminalEdges[n]]
    case None => [Start, End]
  }

  /** Only email_generator, exit and unknown reach a handler, each its own,
      and the handler goes straight to the end. */
  lemma VisitedHandlers(state: ToolState)
    ensures EmailGeneratorNode in Visited(state) <==> Route(state) == EmailGenerator
    ensures ExitNode in Visited(state) <==> Route(state) == Exit
    ensures UnknownNode in Visited(state) <==> Route(state) == Unknown
    ensures Route(state) !in {EmailGenerator, Exit, Unknown} ==> Visited(state) == [Start, End]
    ensures Route(state) in {EmailGenerator, Exit, Unknown} ==> |Visited(state)| == 3 && Visited(state)[2] == End
  {
  }

  /** _start_node, _exit_node and _unknown_node hand the state on as is. */
  function RunPassThrough(state: ToolState): (r: ToolState)
    ensures r.tool == state.tool && r.result == state.result
  {
    state
  }

  /** The message _email_generator_node stores as the result. */
  function ResultMessage(outputPath: string): string {
    "Email generated and saved to: " + outputPath
  }

  /** _email_generator_node after generate_email returned a path: the state
      with only the result key added or replaced. */
  function RunEmailGenerator(state: ToolState, outputPath: string): (r: ToolState)
    ensures r.tool == state.tool
    ensures r.result == Some(ResultMessage(outputPath))
  {
    state.(result := Some(ResultMessage(outputPath)))
  }

  /** orchestrate_tools: run the graph on {"tool": choice}. The email node
      reads the description (userPrompt) and runs the agent, whose errors
      end the run; the other nodes change neither state nor directory. */
  method OrchestrateTools(choice: string, userPrompt: string, llm: EmailGenerator.Llm,
                          dir: EmailGenerator.OutputDirectory)
    returns (final: Result<ToolState, EmailGenerator.Error>)
    requires dir.Valid()
    modifies dir
    ensures dir.Valid()
    ensures Normalize(choice) != EmailGenerator ==>
      final == Success(ToolState(Some(choice), None)) && unchanged(dir)
    ensures Normalize(choice) == EmailGenerator ==>
      var o := EmailGenerator.Generate(old(dir.present), old(dir.entries), llm(userPrompt, EmailGenerator.SystemPrompt));
      dir.present == o.present && dir.entries == o.entries &&
      final == match o.result
        case Success(p) => Success(ToolState(Some(choice), Some(ResultMessage(p))))
        case Failure(e) => Failure(e)
  {
    var state := ToolState(Some(choice), None);
    state := RunPassThrough(state);
    match Handler(Route(state))
    case None =>
      final := Success(state);
    case Some(node) =>
      if node == EmailGeneratorNode {
        var path := dir.GenerateEmail(userPrompt, llm);
        if path.Failure? {
          return Failure(path.error);
        }
        final := Success(RunEmailGenerator(state, path.value));
      } else {
        final := Success(RunPassThrough(state));
      }
  }
}
