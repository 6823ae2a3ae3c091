/** The GitHub Copilot prompt optimizer: a case-sensitive keyword classifier
    for the prompt's intent and the shared template-and-strategies rewrite. */
module GitHubCopilot {
  import opened Wrappers
  import opened Text
  import opened PromptOptimizer

  /** The keyword arguments this tool passes to its template */
  function FormatArgs(prompt: string): (r: map<string, string>)
    ensures r.Keys == {"language", "description", "code_snippet", "quality_attribute"}
    ensures r["description"] == prompt && r["code_snippet"] == prompt
    ensures r["language"] == "Python"
  {
    map[
      "language" := "Python",
      "description" := prompt,
      "code_snippet" := prompt,
      "quality_attribute" := "readable"
    ]
  }

  class GitHubCopilotOptimizer {
    const toolConfig: ToolConfig

    constructor(config: ToolConfig)
      ensures toolConfig == config
    {
      toolConfig := config;
    }

    /** Intent by keyword, first match wins: "function" gives "function_generation";
        otherwise "code_completion". Complexity by word count; the "test_generation"
        requirement when "test" occurs. */
    method AnalyzePrompt(prompt: string) returns (analysis: Analysis)
      ensures analysis.intent == "function_generation" <==> Contains(prompt, "function")
      ensures analysis.intent == "code_completion" <==> !Contains(prompt, "function")
      ensures analysis.intent in {"function_generation", "code_completion"}
      ensures analysis.complexity == "high" <==> |Words(prompt)| > HighComplexityWords
      ensures analysis.complexity == "low" <==> |Words(prompt)| <= HighComplexityWords
      ensures analysis.requirements == (if Contains(prompt, "test") then ["test_generation"] else [])
    {
      analysis := Analysis(
        if Contains(prompt, "function") then "function_generation"
        else "code_completion",
        Complexity(prompt),
        []);
      if Contains(prompt, "test") {
        analysis := analysis.(requirements := analysis.requirements + ["test_generation"]);
      }
    }

    /** The shared rewrite with this tool's keyword arguments */
    method OptimizePrompt(prompt: string, analysis: Analysis, format: Formatter)
      returns (r: Result<Optimized, OptimizerError>)
      ensures r == OptimizeSpec(toolConfig, prompt, analysis.intent, format, FormatArgs(prompt))
    {
      r := Optimize(toolConfig, prompt, analysis.intent, format, FormatArgs(prompt));
    }
  }
}
