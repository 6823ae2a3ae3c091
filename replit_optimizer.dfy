/** The Replit prompt optimizer: a case-sensitive keyword classifier
    for the prompt's intent and the shared template-and-strategies rewrite. */
module Replit {
  import opened Wrappers
  import opened Text
  import opened PromptOptimizer

  /** The keyword arguments this tool passes to its template */
  function FormatArgs(prompt: string): (r: map<string, string>)
    ensures r.Keys == {"language", "feature", "framework", "description", "task"}
    ensures r["feature"] == prompt && r["description"] == prompt && r["task"] == prompt
    ensures r["language"] == "Python"
  {
    map[
      "language" := "Python",
      "feature" := prompt,
      "framework" := "Flask",
      "description" := prompt,
      "task" := prompt
    ]
  }

  class ReplitOptimizer {
    const toolConfig: ToolConfig

    constructor(config: ToolConfig)
      ensures toolConfig == config
    {
      toolConfig := config;
    }

    /** Intent by keyword, first match wins: "prototype" gives "prototype";
        otherwise "web" gives "web_app"; otherwise "script". Complexity by word
        count; the "sample_io" requirement when "input" or "output" occurs. */
    method AnalyzePrompt(prompt: string) returns (analysis: Analysis)
      ensures analysis.intent == "prototype" <==> Contains(prompt, "prototype")
      ensures analysis.intent == "web_app" <==> !Contains(prompt, "prototype") && Contains(prompt, "web")
      ensures analysis.intent == "script" <==> !Contains(prompt, "prototype") && !Contains(prompt, "web")
      ensures analysis.intent in {"prototype", "web_app", "script"}
      ensures analysis.complexity == "high" <==> |Words(prompt)| > HighComplexityWords
      ensures analysis.complexity == "low" <==> |Words(prompt)| <= HighComplexityWords
      ensures analysis.requirements == (if Contains(prompt, "input") || Contains(prompt, "output") then ["sample_io"] else [])
    {
      analysis := Analysis(
        if Contains(prompt, "prototype") then "prototype"
        else if Contains(prompt, "web") then "web_app"
        else "script",
        Complexity(prompt),
        []);
      if Contains(prompt, "input") || Contains(prompt, "output") {
        analysis := analysis.(requirements := analysis.requirements + ["sample_io"]);
      }
    }

    /** The shared rewrite with this tool's keyword arguments */
    method OptimizePrompt(prompt: string, analysis: Analysis, format: Formatter)
      returns (r: Result<Optimized, OptimizerError>)
      ensures r == OptimizeSpec(toolConfig, prompt, analysis.intent, format, FormatArgs(prompt))
    {
      r := Optimize(toolConfig, prompt, analysis.intent, format, FormatArgs(prompt));
    }
  }
}
