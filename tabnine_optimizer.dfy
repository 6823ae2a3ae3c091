/** The Tabnine prompt optimizer: a case-sensitive keyword classifier
    for the prompt's intent and the shared template-and-strategies rewrite. */
module Tabnine {
  import opened Wrappers
  import opened Text
  import opened PromptOptimizer

  /** The keyword arguments this tool passes to its template */
  function FormatArgs(prompt: string): (r: map<string, string>)
    ensures r.Keys == {"language", "pattern_name", "code_snippet", "additional_feature", "existing_function", "class_name", "architecture_pattern"}
    ensures r["code_snippet"] == prompt && r["additional_feature"] == prompt && r["existing_function"] == prompt
    ensures r["language"] == "Python"
  {
    map[
      "language" := "Python",
      "pattern_name" := "singleton",
      "code_snippet" := prompt,
      "additional_feature" := prompt,
      "existing_function" := prompt,
      "class_name" := "MyClass",
      "architecture_pattern" := "MVC"
    ]
  }

  class TabnineOptimizer {
    const toolConfig: ToolConfig

    constructor(config: ToolConfig)
      ensures toolConfig == config
    {
      toolConfig := config;
    }

    /** Intent by keyword, first match wins: "pattern" gives "pattern_completion";
        otherwise "extend" gives "function_extension"; otherwise
        "class_implementation". Complexity by word count; the "team_convention"
        requirement when "team" occurs. */
    method AnalyzePrompt(prompt: string) returns (analysis: Analysis)
      ensures analysis.intent == "pattern_completion" <==> Contains(prompt, "pattern")
      ensures analysis.intent == "function_extension" <==> !Contains(prompt, "pattern") && Contains(prompt, "extend")
      ensures analysis.intent == "class_implementation" <==> !Contains(prompt, "pattern") && !Contains(prompt, "extend")
      ensures analysis.intent in {"pattern_completion", "function_extension", "class_implementation"}
      ensures analysis.complexity == "high" <==> |Words(prompt)| > HighComplexityWords
      ensures analysis.complexity == "low" <==> |Words(prompt)| <= HighComplexityWords
      ensures analysis.requirements == (if Contains(prompt, "team") then ["team_convention"] else [])
    {
      analysis := Analysis(
        if Contains(prompt, "pattern") then "pattern_completion"
        else if Contains(prompt, "extend") then "function_extension"
        else "class_implementation",
        Complexity(prompt),
        []);
      if Contains(prompt, "team") {
        analysis := analysis.(requirements := analysis.requirements + ["team_convention"]);
      }
    }

    /** The shared rewrite with this tool's keyword arguments */
    method OptimizePrompt(prompt: string, analysis: Analysis, format: Formatter)
      returns (r: Result<Optimized, OptimizerError>)
      ensures r == OptimizeSpec(toolConfig, prompt, analysis.intent, format, FormatArgs(prompt))
    {
      r := Optimize(toolConfig, prompt, analysis.intent, format, FormatArgs(prompt));
    }
  }
}
