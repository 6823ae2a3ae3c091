/** The Kite prompt optimizer: a case-sensitive keyword classifier
    for the prompt's intent and the shared template-and-strategies rewrite. */
module Kite {
  import opened Wrappers
  import opened Text
  import opened PromptOptimizer

  /** The keyword arguments this tool passes to its template */
  function FormatArgs(prompt: string): (r: map<string, string>)
    ensures r.Keys == {"library_name", "version", "language", "task", "api_name", "framework_name", "description"}
    ensures r["task"] == prompt && r["description"] == prompt
    ensures r["language"] == "Python"
  {
    map[
      "library_name" := "requests",
      "version" := "2.28.1",
      "language" := "Python",
      "task" := prompt,
      "api_name" := "OpenAI",
      "framework_name" := "Flask",
      "description" := prompt
    ]
  }

  class KiteOptimizer {
    const toolConfig: ToolConfig

    constructor(config: ToolConfig)
      ensures toolConfig == config
    {
      toolConfig := config;
    }

    /** Intent by keyword, first match wins: "library" gives "library_usage";
        otherwise "API" gives "api_integration"; otherwise "framework_usage".
        Complexity by word count; the "documentation" requirement when
        "documentation" occurs. */
    method AnalyzePrompt(prompt: string) returns (analysis: Analysis)
      ensures analysis.intent == "library_usage" <==> Contains(prompt, "library")
      ensures analysis.intent == "api_integration" <==> !Contains(prompt, "library") && Contains(prompt, "API")
      ensures analysis.intent == "framework_usage" <==> !Contains(prompt, "library") && !Contains(prompt, "API")
      ensures analysis.intent in {"library_usage", "api_integration", "framework_usage"}
      ensures analysis.complexity == "high" <==> |Words(prompt)| > HighComplexityWords
      ensures analysis.complexity == "low" <==> |Words(prompt)| <= HighComplexityWords
      ensures analysis.requirements == (if Contains(prompt, "documentation") then ["documentation"] else [])
    {
      analysis := Analysis(
        if Contains(prompt, "library") then "library_usage"
        else if Contains(prompt, "API") then "api_integration"
        else "framework_usage",
        Complexity(prompt),
        []);
      if Contains(prompt, "documentation") {
        analysis := analysis.(requirements := analysis.requirements + ["documentation"]);
      }
    }

    /** The shared rewrite with this tool's keyword arguments */
    method OptimizePrompt(prompt: string, analysis: Analysis, format: Formatter)
      returns (r: Result<Optimized, OptimizerError>)
      ensures r == OptimizeSpec(toolConfig, prompt, analysis.intent, format, FormatArgs(prompt))
    {
      r := Optimize(toolConfig, prompt, analysis.intent, format, FormatArgs(prompt));
    }
  }
}
