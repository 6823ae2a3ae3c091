/** What the six per-tool prompt optimizers share: the tool's configuration,
    the analysis record, the word-count complexity rule, and the common body of
    `optimize_prompt` (look the intent's template up, fill it in, and explain
    the result one line per step).

    Filling a template in (Python's `str.format` with keyword arguments) is a
    library call: it is the parameter `format`, applied to the template and to
    the keyword arguments each tool passes. */
module PromptOptimizer {
  import opened Wrappers
  import opened Text

  /** A tool's configuration: its optimisation strategies (the key may be
      missing) and its templates by intent (the key may be missing too) */
  datatype ToolConfig = ToolConfig(strategies: Option<seq<string>>, promptTemplates: Option<map<string, string>>)

  datatype Analysis = Analysis(intent: string, complexity: string, requirements: seq<string>)

  datatype Optimized = Optimized(optimizedPrompt: string, explanation: string)

  /** `tool_config['prompt_templates']` raises `KeyError` when the key is missing */
  datatype OptimizerError = MissingPromptTemplates

  /** Template filling: a template and keyword arguments to the filled-in text */
  type Formatter = (string, map<string, string>) -> string

  /** Prompts of more than this many whitespace-separated words are "high" complexity */
  const HighComplexityWords := 30

  /** `'high' if len(prompt.split()) > 30 else 'low'` */
  function Complexity(prompt: string): (c: string)
    ensures c == "high" || c == "low"
  {
    if |Words(prompt)| > HighComplexityWords then "high" else "low"
  }

  /** Thirty words joined by spaces are still "low"; thirty-one are "high" */
  lemma ComplexityThreshold(ws: seq<string>)
    requires forall i :: 0 <= i < |ws| ==> IsWord(ws[i])
    ensures |ws| == 30 ==> Complexity(Join(ws, " ")) == "low"
    ensures |ws| == 31 ==> Complexity(Join(ws, " ")) == "high"
  {
    WordsOfJoin(ws);
  }

  /** `tool_config.get('optimization_strategies', [])` */
  function Strategies(config: ToolConfig): (r: seq<string>)
    ensures config.strategies.Some? ==> r == config.strategies.value
    ensures config.strategies.None? ==> r == []
  {
    config.strategies.GetOr([])
  }

  /** `if template:` after `.get(intent, None)`: a template is used when one is
      configured for the intent and it is not the empty string */
  predicate TemplateUsed(templates: map<string, string>, intent: string) {
    intent in templates && templates[intent] != ""
  }

  function TemplateLine(intent: string): string {
    "Used template for " + intent + "."
  }

  function AppliedLine(strategy: string): string {
    "Applied: " + strategy
  }

  /** `[f"Applied: {s}" for s in strategies]` */
  function AppliedLines(strategies: seq<string>): (lines: seq<string>)
    ensures |lines| == |strategies|
    ensures forall k :: 0 <= k < |lines| ==> lines[k] == AppliedLine(strategies[k])
  {
    if strategies == [] then [] else [AppliedLine(strategies[0])] + AppliedLines(strategies[1..])
  }

  /** The explanation, line by line: the template line when a template was
      used, then one line per strategy in configuration order */
  function ExplanationLines(intent: string, templateUsed: bool, strategies: seq<string>): (lines: seq<string>)
    ensures |lines| == |strategies| + (if templateUsed then 1 else 0)
    ensures templateUsed ==> lines[0] == TemplateLine(intent)
    ensures forall k :: 0 <= k < |strategies| ==>
      lines[k + (if templateUsed then 1 else 0)] == AppliedLine(strategies[k])
  {
    (if templateUsed then [TemplateLine(intent)] else []) + AppliedLines(strategies)
  }

  /** What `optimize_prompt` returns for a tool configuration, a prompt, the
      analysed intent, the formatter and the tool's keyword arguments */
  function OptimizeSpec(config: ToolConfig, prompt: string, intent: string,
                        format: Formatter, args: map<string, string>): (r: Result<Optimized, OptimizerError>)
    ensures r.Failure? <==> config.promptTemplates.None?
    ensures r.Success? && !TemplateUsed(config.promptTemplates.value, intent) ==> r.value.optimizedPrompt == prompt
    ensures r.Success? && TemplateUsed(config.promptTemplates.value, intent) ==>
      r.value.optimizedPrompt == format(config.promptTemplates.value[intent], args)
  {
    match config.promptTemplates
    case None => Failure(MissingPromptTemplates)
    case Some(templates) =>
      var used := TemplateUsed(templates, intent);
      Success(Optimized(
        if used then format(templates[intent], args) else prompt,
        Join(ExplanationLines(intent, used, Strategies(config)), "\n")))
  }

  /** The explanation splits back into its lines at "\n" whenever neither the
      intent nor a strategy holds a line break and there is at least one line */
  lemma {:induction false} ExplanationSplits(config: ToolConfig, prompt: string, intent: string,
                                             format: Formatter, args: map<string, string>)
    requires config.promptTemplates.Some?
    requires '\n' !in intent
    requires forall k :: 0 <= k < |Strategies(config)| ==> '\n' !in Strategies(config)[k]
    requires TemplateUsed(config.promptTemplates.value, intent) || |Strategies(config)| > 0
    ensures SplitOn(OptimizeSpec(config, prompt, intent, format, args).value.explanation, '\n')
         == ExplanationLines(intent, TemplateUsed(config.promptTemplates.value, intent), Strategies(config))
  {
    var used := TemplateUsed(config.promptTemplates.value, intent);
    var lines := ExplanationLines(intent, used, Strategies(config));
    forall k | 0 <= k < |lines|
      ensures '\n' !in lines[k]
    {
      if used && k == 0 {
        TemplateLineOneLine(intent);
      } else {
        AppliedLineOneLine(Strategies(config)[k - (if used then 1 else 0)]);
      }
    }
    SplitOnJoin(lines, '\n');
  }

  lemma TemplateLineOneLine(intent: string)
    requires '\n' !in intent
    ensures '\n' !in TemplateLine(intent)
  {
    assert TemplateLine(intent) == "Used template for " + intent + ".";
  }

  lemma AppliedLineOneLine(strategy: string)
    requires '\n' !in strategy
    ensures '\n' !in AppliedLine(strategy)
  {
    assert AppliedLine(strategy) == "Applied: " + strategy;
  }

  /** With no strategies configured, the explanation is at most the template line */
  lemma NoStrategiesNoAppliedLines(config: ToolConfig, intent: string, used: bool)
    requires config.strategies.None?
    ensures ExplanationLines(intent, used, Strategies(config)) == (if used then [TemplateLine(intent)] else [])
  {
  }

  /** The common body of every tool's `optimize_prompt`: the prompt is replaced
      by the filled-in template when one is used, and the explanation list
      grows by the template line and then by the strategy lines */
  method Optimize(config: ToolConfig, prompt: string, intent: string,
                  format: Formatter, args: map<string, string>) returns (r: Result<Optimized, OptimizerError>)
    ensures r == OptimizeSpec(config, prompt, intent, format, args)
  {
    var strategies := Strategies(config);
    if config.promptTemplates.None? {
      return Failure(MissingPromptTemplates);
    }
    var templates := config.promptTemplates.value;
    var explanation: seq<string> := [];
    var optimizedPrompt := prompt;
    if intent in templates && templates[intent] != "" {
      optimizedPrompt := format(templates[intent], args);
      explanation := explanation + [TemplateLine(intent)];
    }
    explanation := explanation + AppliedLines(strategies);
    return Success(Optimized(optimizedPrompt, Join(explanation, "\n")));
  }
}
