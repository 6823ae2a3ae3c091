/** The Cursor prompt optimizer: a case-sensitive keyword classifier
    for the prompt's intent and the shared template-and-strategies rewrite. */
module Cursor {
  import opened Wrappers
  import opened Text
  import opened PromptOptimizer

  /** The keyword arguments this tool passes to its template */
  function FormatArgs(prompt: string): (r: map<string, string>)
    ensures r.Keys == {"language", "feature", "architecture_pattern", "related_files", "file_path", "aspect", "current_structure", "code_snippet"}
    ensures r["feature"] == prompt && r["code_snippet"] == prompt
    ensures r["language"] == "Python"
  {
    map[
      "language" := "Python",
      "feature" := prompt,
      "architecture_pattern" := "MVC",
      "related_files" := "main.py, utils.py",
      "file_path" := "main.py",
      "aspect" := "performance",
      "current_structure" := "def main(): ...",
      "code_snippet" := prompt
    ]
  }

  class CursorOptimizer {
    const toolConfig: ToolConfig

    constructor(config: ToolConfig)
      ensures toolConfig == config
    {
      toolConfig := config;
    }

    /** Intent by keyword, first match wins: "generate" gives "code_generation";
        otherwise "refactor" gives "refactoring"; otherwise "debugging". Complexity
        by word count; the "performance" requirement when "performance" occurs. */
    method AnalyzePrompt(prompt: string) returns (analysis: Analysis)
      ensures analysis.intent == "code_generation" <==> Contains(prompt, "generate")
      ensures analysis.intent == "refactoring" <==> !Contains(prompt, "generate") && Contains(prompt, "refactor")
      ensures analysis.intent == "debugging" <==> !Contains(prompt, "generate") && !Contains(prompt, "refactor")
      ensures analysis.intent in {"code_generation", "refactoring", "debugging"}
      ensures analysis.complexity == "high" <==> |Words(prompt)| > HighComplexityWords
      ensures analysis.complexity == "low" <==> |Words(prompt)| <= HighComplexityWords
      ensures analysis.requirements == (if Contains(prompt, "performance") then ["performance"] else [])
    {
      analysis := Analysis(
        if Contains(prompt, "generate") then "code_generation"
        else if Contains(prompt, "refactor") then "refactoring"
        else "debugging",
        Complexity(prompt),
        []);
      if Contains(prompt, "performance") {
        analysis := analysis.(requirements := analysis.requirements + ["performance"]);
      }
    }

    /** The shared rewrite with this tool's keyword arguments */
    method OptimizePrompt(prompt: string, analysis: Analysis, format: Formatter)
      returns (r: Result<Optimized, OptimizerError>)
      ensures r == OptimizeSpec(toolConfig, prompt, analysis.intent, format, FormatArgs(prompt))
    {
      r := Optimize(toolConfig, prompt, analysis.intent, format, FormatArgs(prompt));
    }
  }
}
