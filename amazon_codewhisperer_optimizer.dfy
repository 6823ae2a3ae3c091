/** The Amazon CodeWhisperer prompt optimizer: a case-sensitive keyword classifier
    for the prompt's intent and the shared template-and-strategies rewrite. */
module AmazonCodeWhisperer {
  import opened Wrappers
  import opened Text
  import opened PromptOptimizer

  /** The keyword arguments this tool passes to its template */
  function FormatArgs(prompt: string): (r: map<string, string>)
    ensures r.Keys == {"language", "aws_service", "description", "resource_type", "requirements"}
    ensures r["description"] == prompt && r["requirements"] == prompt
    ensures r["language"] == "Python"
  {
    map[
      "language" := "Python",
      "aws_service" := "S3",
      "description" := prompt,
      "resource_type" := "S3 Bucket",
      "requirements" := prompt
    ]
  }

  class AmazonCodeWhispererOptimizer {
    const toolConfig: ToolConfig

    constructor(config: ToolConfig)
      ensures toolConfig == config
    {
      toolConfig := config;
    }

    /** Intent by keyword, first match wins: "AWS" or "S3" gives "aws_integration";
        otherwise "Lambda" gives "lambda_function"; otherwise "cloudformation".
        Complexity by word count; the "security" requirement when "security" occurs. */
    method AnalyzePrompt(prompt: string) returns (analysis: Analysis)
      ensures analysis.intent == "aws_integration" <==> (Contains(prompt, "AWS") || Contains(prompt, "S3"))
      ensures analysis.intent == "lambda_function" <==> !(Contains(prompt, "AWS") || Contains(prompt, "S3")) && Contains(prompt, "Lambda")
      ensures analysis.intent == "cloudformation" <==> !(Contains(prompt, "AWS") || Contains(prompt, "S3")) && !Contains(prompt, "Lambda")
      ensures analysis.intent in {"aws_integration", "lambda_function", "cloudformation"}
      ensures analysis.complexity == "high" <==> |Words(prompt)| > HighComplexityWords
      ensures analysis.complexity == "low" <==> |Words(prompt)| <= HighComplexityWords
      ensures analysis.requirements == (if Contains(prompt, "security") then ["security"] else [])
    {
      analysis := Analysis(
        if Contains(prompt, "AWS") || Contains(prompt, "S3") then "aws_integration"
        else if Contains(prompt, "Lambda") then "lambda_function"
        else "cloudformation",
        Complexity(prompt),
        []);
      if Contains(prompt, "security") {
        analysis := analysis.(requirements := analysis.requirements + ["security"]);
      }
    }

    /** The shared rewrite with this tool's keyword arguments */
    method OptimizePrompt(prompt: string, analysis: Analysis, format: Formatter)
      returns (r: Result<Optimized, OptimizerError>)
      ensures r == OptimizeSpec(toolConfig, prompt, analysis.intent, format, FormatArgs(prompt))
    {
      r := Optimize(toolConfig, prompt, analysis.intent, format, FormatArgs(prompt));
    }
  }
}
