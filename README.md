# A verified model of the inference estimator, agent recommender and prompt optimizers

This project models, in Dafny, the sequential logic of four parts of the
repository and proves what each promises.

- **LLM inference estimator** (`inference_calculator.dfy`, `inference_properties.dfy`).
  - Fixed catalogs of hardware and models, and the per-token latency,
    hardware-efficiency and deployment-factor tables.
  - The memory, latency and cost estimators.
  - The compatibility scorer and its ordered advisories.
  - The report that assembles them.
  - Python floats are `real`. A `KeyError` on a lookup and the
    `ZeroDivisionError` of a zero-token request are `Failure` values, reported
    in the order the Python code performs its lookups.
- **Agent database** (`agent_database.dfy`).
  - A class holding the loaded agent records.
  - A case-insensitive find-first by name.
  - A case-insensitive substring search, specified as an order-preserving filter.
- **Fallback recommender and reply unfencing** (`recommendation_engine.dfy`).
  - The weighted scorer.
  - Python's stable descending sort, modelled as an insertion sort proved to
    be a sorted, stable permutation.
  - `[:top_k]` with Python's slice semantics, including a negative `top_k`.
  - One-based ranking.
  - The stripping of a "```json" code fence around a model reply.
- **Prompt optimizers** (`prompt_optimizer.dfy` plus one file per tool).
  - Each tool is a class holding its configuration.
  - `AnalyzePrompt` is a case-sensitive keyword classifier with a 30-word
    complexity threshold.
  - `OptimizePrompt` looks up a template and builds the explanation lines.
  - Filling a template in (`str.format`) is the parameter `format`.

`wrappers.dfy` holds `Option` and `Result`. `text.dfy` models the Python
string operations the code relies on: `in`, `lower()`, `strip()`, `split()`
and `sep.join(parts)`. It also defines `SplitOn`, splitting at one
character. The code never calls it; it states the line structure of a
`'\n'.join` result (`Text.SplitOnJoin`, `PromptOptimizer.ExplanationSplits`).

Some behaviour of the code that a reader may not expect, and that the model keeps:

- The report does not reject a zero, negative or otherwise invalid token or
  batch count before computing. Only unknown keys and the division by zero in
  the latency estimate fail, and they fail as the lookups and the division do.
- The zero-token failure comes from the latency estimate's division (`DivisionByZero`).
  It is not a separate validation error.
- GPT-4 on an H100 in the cloud with 4096 tokens takes 4096 · 67 · 0.4 · 1.1 =
  120750.08 ms (`InferenceProperties.WorkedExampleGpt4OnH100Cloud`).
- The performance score is guaranteed to lie within [0, 100] for a positive
  token count and a nonnegative batch (`InferenceProperties.PerformanceScoreInRange`).
  A negative token count is accepted, and its score can exceed 100: 1000 negative
  tokens of the 7B model on an RTX 4090 do
  (`InferenceProperties.NegativeTokensScoreAboveHundred`).

## Model

| member | source | states |
|---|---|---|
| InferenceCalculator.HardwareSpecsCatalog | q1_llm_inference_calculator/inference_calculator.py:60-103 | the five hardware keys; VRAM positive and at most 80 GB, positive price and power |
| InferenceCalculator.ModelSpecsCatalog | q1_llm_inference_calculator/inference_calculator.py:105-132 | the three model keys; positive parameters and size, efficiency in (0, 1] |
| InferenceCalculator.BaseLatencyPerTokenMs | q1_llm_inference_calculator/inference_calculator.py:179-183 | keyed by exactly the catalog's models, every per-token latency positive |
| InferenceCalculator.HardwareEfficiency | q1_llm_inference_calculator/inference_calculator.py:186-192 | keyed by exactly the catalog's hardware, every factor positive |
| InferenceCalculator.DeploymentFactors | q1_llm_inference_calculator/inference_calculator.py:201-205 | keyed by local/cloud/edge; no mode makes inference faster (factor at least 1) |
| InferenceCalculator.MemoryOf | q1_llm_inference_calculator/inference_calculator.py:140-166 | total is weights + KV cache + activations with the 8/2^30 and 0.1/2^30 factors; effective times efficiency is total; utilisation times VRAM is effective times 100; fits iff effective is at most VRAM iff utilisation is at most 100% |
| InferenceCalculator.CalculateMemoryUsage | q1_llm_inference_calculator/inference_calculator.py:134-167 | fails exactly on an unknown model (first) or hardware; otherwise the estimate is `MemoryOf` the model's entry, the hardware's VRAM and tokens · batch |
| InferenceCalculator.LatencyOf | q1_llm_inference_calculator/inference_calculator.py:195-218 | total = tokens · per-token · hardware · deployment; phases 0.7/0.2/0.1 of the hardware-adjusted latency and summing to it; seconds · 1000 = total; throughput · seconds = tokens |
| InferenceCalculator.CalculateLatency | q1_llm_inference_calculator/inference_calculator.py:169-219 | succeeds iff all three keys are known and tokens is nonzero; errors in lookup order, then division by zero; the result is `LatencyOf` the catalog factors |
| InferenceCalculator.CostOf | q1_llm_inference_calculator/inference_calculator.py:228-253 | total per request = compute + power = (price + watts/1000 · 0.12) · seconds/3600; per-1k · tokens = total · 1000; hourly = total · rate; daily = 24 · hourly; monthly = 30 · daily |
| InferenceCalculator.CalculateCost | q1_llm_inference_calculator/inference_calculator.py:221-254 | unknown hardware fails before the latency is computed; otherwise fails exactly when the latency does, with its error; the result is `CostOf` the latency seconds and the hardware's price and power |
| InferenceCalculator.Advice | q1_llm_inference_calculator/inference_calculator.py:271-280 | at most four advisories; each present iff its condition holds (memory does not fit, latency at least 5000 ms, utilisation > 80, latency > 2000); strictly in that fixed order |
| InferenceCalculator.MessagesDistinct | q1_llm_inference_calculator/inference_calculator.py:273-280 | the four advisory texts are pairwise different, so the texts determine the advisories |
| InferenceCalculator.Assess | q1_llm_inference_calculator/inference_calculator.py:262-289 | latency acceptable iff under 5000 ms; score never negative, at most 100 when utilisation and latency are nonnegative; the recommendations are the texts of `Advice`; utilisation and latency echoed |
| InferenceCalculator.CheckHardwareCompatibility | q1_llm_inference_calculator/inference_calculator.py:256-289 | fails with the memory error, else the latency error; otherwise the verdict is `Assess` of the two estimates |
| InferenceCalculator.ScoreEstimates | q1_llm_inference_calculator/inference_calculator.py:262-289 | the two sub-scores, their mean and the advisories appended one condition at a time equal `Assess` |
| InferenceCalculator.CalculateInferenceMetrics | q1_llm_inference_calculator/inference_calculator.py:291-320 | succeeds iff keys known and tokens nonzero; the first error in lookup order; echoes inputs; sub-results equal the estimators'; summary copies effective memory, seconds, cost per request, throughput and score |
| InferenceCalculator.FirstError | q1_llm_inference_calculator/inference_calculator.py:295-298 | the report's error is the first that the calls raise: an unknown model, else unknown hardware, else an unknown deployment mode, else the zero-token division; each names the offending key |
| InferenceProperties.MemoryIgnoresDeploymentMode | q1_llm_inference_calculator/inference_calculator.py:134-167 | the memory estimate is the same for every deployment mode |
| InferenceProperties.LatencyIgnoresBatchSize | q1_llm_inference_calculator/inference_calculator.py:169-219 | the latency estimate is the same for every batch size |
| InferenceProperties.MemoryIncreasesWithTokens | q1_llm_inference_calculator/inference_calculator.py:144-150 | with a positive batch, more tokens gives a strictly larger KV cache and total |
| InferenceProperties.LatencyIncreasesWithTokens | q1_llm_inference_calculator/inference_calculator.py:195-207 | more (nonzero) tokens gives a strictly longer total latency |
| InferenceProperties.LatencyOfMonotone | q1_llm_inference_calculator/inference_calculator.py:195-207 | for positive factors, more tokens gives a strictly longer total latency |
| InferenceProperties.CostIncreasesWithTokens | q1_llm_inference_calculator/inference_calculator.py:227-238 | more (nonzero) tokens gives a strictly larger cost per request |
| InferenceProperties.CostOfMonotone | q1_llm_inference_calculator/inference_calculator.py:228-238 | with a positive price and power, a longer request costs strictly more |
| InferenceProperties.CostPerRequestIgnoresRequestRate | q1_llm_inference_calculator/inference_calculator.py:238-244 | the cost of one request does not depend on the request rate |
| InferenceProperties.ThroughputIndependentOfTokens | q1_llm_inference_calculator/inference_calculator.py:207-210 | any two nonzero token counts give the same tokens per second |
| InferenceProperties.ThroughputOfFactors | q1_llm_inference_calculator/inference_calculator.py:195-210 | a nonzero token count never divides by zero, and the throughput is 1000 over the product of the per-token factors |
| InferenceProperties.Gpt4NeverFits | q1_llm_inference_calculator/inference_calculator.py:124-166 | GPT-4 does not fit on any catalog hardware for a nonnegative workload |
| InferenceProperties.MemoryUtilizationNonNegative | q1_llm_inference_calculator/inference_calculator.py:140-166 | a nonnegative workload has a nonnegative memory utilisation |
| InferenceProperties.LatencyPositive | q1_llm_inference_calculator/inference_calculator.py:195-207 | a positive token count takes a positive time |
| InferenceProperties.PerformanceScoreInRange | q1_llm_inference_calculator/inference_calculator.py:266-269 | for positive tokens, nonnegative batch and any request rate the score lies in [0, 100] |
| InferenceProperties.NegativeTokensScoreAboveHundred | q1_llm_inference_calculator/inference_calculator.py:266-269 | a negative token count is accepted, and -1000 tokens of 7B on an RTX 4090 locally score above 100 |
| InferenceProperties.WorkedExample7bOnRtx4090 | q1_llm_inference_calculator/inference_calculator.py:327-337 | 7B on RTX 4090, 1024 tokens, local: 20480 ms, 50 tokens/s, fits, exactly the two latency advisories |
| InferenceProperties.Example7bEstimates | q1_llm_inference_calculator/inference_calculator.py:327-337 | the same configuration's latency is 20480 ms at 50 tokens/s, and its memory fits below 80% utilisation |
| InferenceProperties.WorkedExampleGpt4OnH100Cloud | q1_llm_inference_calculator/inference_calculator.py:351-360 | GPT-4 on H100, 4096 tokens, cloud: 120750.08 ms |
| Agents.AnyContains | q2_agent_recommender/agent_database.py:36-37 | true iff the query is a substring of some lower-cased item |
| Agents.NameMatches | q2_agent_recommender/agent_database.py:24 | the names match iff they have the same length and agree character by character once capitals are made small |
| Agents.MatchesQuery | q2_agent_recommender/agent_database.py:34-37 | the search condition; its meaning is stated by `MatchesQueryIff` |
| Agents.MatchesQueryIff | q2_agent_recommender/agent_database.py:34-37 | an agent matches iff the query occurs in its lower-cased name, description, some capability or some strength |
| Agents.MatchingAgents | q2_agent_recommender/agent_database.py:33-38 | the result is never longer than the list |
| Agents.MatchingAgentsExact | q2_agent_recommender/agent_database.py:33-38 | sound (every result is an agent of the list that matches) and complete (every matching agent is in the result) |
| Agents.MatchingPositions | q2_agent_recommender/agent_database.py:33-38 | strictly increasing positions, exactly those whose agent matches |
| Agents.MatchingIsSubsequence | q2_agent_recommender/agent_database.py:28-40 | the search result is the subsequence at the matching positions, in database order |
| Agents.EmptyQueryMatchesAll | q2_agent_recommender/agent_database.py:30-38 | the empty query returns every agent in order |
| Agents.AllMatchKeepsAll | q2_agent_recommender/agent_database.py:33-38 | a query every agent matches returns the whole list in order |
| Agents.AgentDatabase.constructor | q2_agent_recommender/agent_database.py:6-10 | the database holds the loaded records |
| Agents.AgentDatabase.GetAllAgents | q2_agent_recommender/agent_database.py:17-19 | returns the stored list unchanged |
| Agents.AgentDatabase.GetAgentByName | q2_agent_recommender/agent_database.py:21-26 | None iff no name matches ignoring case; otherwise the first agent whose name matches |
| Agents.AgentDatabase.SearchAgents | q2_agent_recommender/agent_database.py:28-40 | equals `MatchingAgents` of the stored agents and the lower-cased query |
| RecommendationEngine.ToSet | q2_agent_recommender/recommendation_engine.py:143 | `set(list)` has the list's elements and at most its length |
| RecommendationEngine.TaskTypeTerm | q2_agent_recommender/recommendation_engine.py:133-137 | the task-type term is 0, 0.2 or 0.4 |
| RecommendationEngine.TaskTypeOf | q2_agent_recommender/recommendation_engine.py:133 | `task_analysis.get('task_type', 'general')`: the analysis's task type when it has one, otherwise "general" |
| RecommendationEngine.OverlapTerm | q2_agent_recommender/recommendation_engine.py:139-153 | each overlap term lies in [0, 0.3], and is positive iff some wanted item is offered |
| RecommendationEngine.AgentScore | q2_agent_recommender/recommendation_engine.py:129-153 | every agent's score lies in [0, 1] |
| RecommendationEngine.FallbackScores | q2_agent_recommender/recommendation_engine.py:53-62 | under the fallback analysis a score is only the task-type term: 0, 0.2 or 0.4 |
| RecommendationEngine.Insert | q2_agent_recommender/recommendation_engine.py:161 | inserting adds exactly one entry (multiset) |
| RecommendationEngine.InsertSorted | q2_agent_recommender/recommendation_engine.py:161 | inserting into a ranking keeps it sorted best first |
| RecommendationEngine.SortByScore | q2_agent_recommender/recommendation_engine.py:161 | the sort is a permutation and sorted by descending score |
| RecommendationEngine.InsertKeepsTies | q2_agent_recommender/recommendation_engine.py:161 | an inserted entry lands before every entry of equal score |
| RecommendationEngine.SortIsStable | q2_agent_recommender/recommendation_engine.py:161 | entries of equal score keep their relative order |
| RecommendationEngine.Ranked | q2_agent_recommender/recommendation_engine.py:160-161 | the ranking has one entry per agent |
| RecommendationEngine.RankedFacts | q2_agent_recommender/recommendation_engine.py:128-161 | the ranking is a permutation of the scored agents, sorted, stable, each entry an agent of the list with its own score |
| RecommendationEngine.SliceLength | q2_agent_recommender/recommendation_engine.py:163 | `len(s[:k])`: min(k, n) for k ≥ 0, max(0, n + k) for k < 0 |
| RecommendationEngine.FallbackRecommendations | q2_agent_recommender/recommendation_engine.py:160-171 | the number of recommendations is the slice length |
| RecommendationEngine.Justification | q2_agent_recommender/recommendation_engine.py:168 | the justification text names the task type it was given |
| RecommendationEngine.FallbackRecommendationsFacts | q2_agent_recommender/recommendation_engine.py:160-173 | length min(top_k, n) for top_k ≥ 0; ranks 1..n in order; each entry a listed agent with its name and score; scores non-increasing; no omitted agent outscores a kept one |
| RecommendationEngine.ScoreAgent | q2_agent_recommender/recommendation_engine.py:129-153 | the accumulated score equals `AgentScore` |
| RecommendationEngine.AddOverlap | q2_agent_recommender/recommendation_engine.py:139-153 | each overlap block adds exactly `OverlapTerm`: 0.3 times the share of wanted items offered, nothing when a list is empty or nothing is shared |
| RecommendationEngine.ScoreAgents | q2_agent_recommender/recommendation_engine.py:128-158 | the scoring loop pairs each agent, in database order, with its `AgentScore` |
| RecommendationEngine.NumberRecommendations | q2_agent_recommender/recommendation_engine.py:163-171 | one recommendation per kept entry; the k-th carries rank k + 1 and that entry's agent, name and score |
| RecommendationEngine.GetFallbackRecommendations | q2_agent_recommender/recommendation_engine.py:123-173 | the scoring loop, sort, slice and ranking loop give exactly `FallbackRecommendations` |
| RecommendationEngine.Unfence | q2_agent_recommender/recommendation_engine.py:43-49 | the text handed to the parser is no longer than the reply and has no surrounding whitespace |
| RecommendationEngine.UnfenceInfix | q2_agent_recommender/recommendation_engine.py:43-49 | the text handed to the parser is one contiguous piece of the reply: the steps only cut text off the ends |
| RecommendationEngine.FencePiece | q2_agent_recommender/recommendation_engine.py:45-48 | dropping the opener and the closing fence from a piece of the reply leaves a piece of the reply, and so does any piece of that |
| RecommendationEngine.UnfenceFenced | q2_agent_recommender/recommendation_engine.py:43-47 | "```json" + body + "```" unfences to the stripped body |
| RecommendationEngine.DropOpener | q2_agent_recommender/recommendation_engine.py:44-45 | the result is a suffix of the text |
| RecommendationEngine.DropFence | q2_agent_recommender/recommendation_engine.py:46-47 | the result is a prefix of the text |
| RecommendationEngine.DropsExactly | q2_agent_recommender/recommendation_engine.py:44-47 | each step removes exactly its marker when the text has it (`"```json" + r` and `r + "```"` give the text back), and otherwise changes nothing |
| RecommendationEngine.UnfencePlain | q2_agent_recommender/recommendation_engine.py:43-49 | a reply without either fence is only stripped |
| RecommendationEngine.ExtractJsonText | q2_agent_recommender/recommendation_engine.py:111-117 | the step-by-step reassignment computes `Unfence` |
| Text.Contains | q2_agent_recommender/agent_database.py:34-37 | `sub in s`: true only when `sub` fits in `s`, and true whenever `sub` is a prefix of `s` |
| Text.ContainsAt | q2_agent_recommender/agent_database.py:34 | when `sub in s` holds, `sub` occurs at some position of `s` |
| Text.OccursContains | q2_agent_recommender/agent_database.py:34 | an occurrence of `sub` at any position makes `sub in s` true |
| Text.ContainsIff | q2_agent_recommender/agent_database.py:34 | `sub in s` iff `sub` occurs at some position of `s` |
| Text.Lower | q2_agent_recommender/agent_database.py:24-37 | `lower()` keeps the length and maps each character on its own: capitals to small letters, everything else unchanged |
| Text.Strip | q2_agent_recommender/recommendation_engine.py:43 | `strip()` removes only whitespace, and only from the ends: the result is the piece of the input at some offset with nothing but whitespace before and after it, and neither of its ends is whitespace |
| Text.StripUntrimmed | q2_agent_recommender/recommendation_engine.py:49 | a string with non-whitespace ends is left unchanged by `strip()` |
| Text.StripIdempotent | q2_agent_recommender/recommendation_engine.py:49 | stripping twice is stripping once |
| Text.Words | q3_adaptive_prompt_optimizer/optimizers/github_copilot_optimizer.py:9 | `split()` yields non-empty runs without whitespace; pinned to the input by `WordsOfInterleave` and `WordsDecompose` |
| Text.WordsOfInterleave | q3_adaptive_prompt_optimizer/optimizers/github_copilot_optimizer.py:9 | for any words separated by non-empty whitespace gaps, with any whitespace before and after, `split()` gives back exactly those words |
| Text.WordsDecompose | q3_adaptive_prompt_optimizer/optimizers/github_copilot_optimizer.py:9 | every text is its `split()` words interleaved with whitespace gaps, so the words are the maximal non-whitespace runs of the input, in order |
| Text.WordsOfJoin | q3_adaptive_prompt_optimizer/optimizers/github_copilot_optimizer.py:9 | splitting words joined by spaces gives the words back |
| Text.SplitOnJoin | q3_adaptive_prompt_optimizer/optimizers/github_copilot_optimizer.py:34 | splitting a "\n"-join of line-free parts on "\n" gives the parts back |
| Text.JoinEnds | q3_adaptive_prompt_optimizer/optimizers/github_copilot_optimizer.py:34 | a join of no parts is empty; otherwise it starts with the first part and ends with the last |
| Text.Join | q3_adaptive_prompt_optimizer/optimizers/github_copilot_optimizer.py:34 | `sep.join(parts)`: the parts with the separator between consecutive ones; no contract of its own, its meaning is stated by `Text.JoinEnds`, `Text.SplitOnJoin` and `Text.WordsOfJoin` |
| PromptOptimizer.Complexity | q3_adaptive_prompt_optimizer/optimizers/github_copilot_optimizer.py:9 | complexity is "high" or "low" |
| PromptOptimizer.ComplexityThreshold | q3_adaptive_prompt_optimizer/optimizers/cursor_optimizer.py:8 | exactly 30 words is "low", 31 is "high" |
| PromptOptimizer.AppliedLines | q3_adaptive_prompt_optimizer/optimizers/github_copilot_optimizer.py:31 | one "Applied: s" line per strategy, in order |
| PromptOptimizer.Strategies | q3_adaptive_prompt_optimizer/optimizers/github_copilot_optimizer.py:18 | `tool_config.get('optimization_strategies', [])`: the configured strategies, or none when the key is missing |
| PromptOptimizer.TemplateUsed | q3_adaptive_prompt_optimizer/optimizers/github_copilot_optimizer.py:19-22 | `if template:` after `.get(intent, None)`: a template is used exactly when one is configured for the intent and it is not empty; no contract of its own, `PromptOptimizer.OptimizeSpec` and `PromptOptimizer.ExplanationLines` state its effect |
| PromptOptimizer.ExplanationLines | q3_adaptive_prompt_optimizer/optimizers/cursor_optimizer.py:31-35 | line count is strategies + 1 if a template was used; the template line first, then the strategy lines in order |
| PromptOptimizer.OptimizeSpec | q3_adaptive_prompt_optimizer/optimizers/github_copilot_optimizer.py:16-35 | fails iff the templates key is missing; no usable template leaves the prompt unchanged; otherwise the prompt is the filled-in template |
| PromptOptimizer.ExplanationSplits | q3_adaptive_prompt_optimizer/optimizers/tabnine_optimizer.py:30-34 | the "\n"-joined explanation splits back into exactly its lines |
| PromptOptimizer.NoStrategiesNoAppliedLines | q3_adaptive_prompt_optimizer/optimizers/github_copilot_optimizer.py:18 | a missing strategies key gives no "Applied" lines |
| PromptOptimizer.Optimize | q3_adaptive_prompt_optimizer/optimizers/replit_optimizer.py:15-33 | the shared reassign-and-append body computes `OptimizeSpec` |
| GitHubCopilot.GitHubCopilotOptimizer.constructor | q3_adaptive_prompt_optimizer/optimizers/base_optimizer.py:5-6 | the optimizer holds its tool configuration |
| GitHubCopilot.GitHubCopilotOptimizer.AnalyzePrompt | q3_adaptive_prompt_optimizer/optimizers/github_copilot_optimizer.py:5-14 | function_generation iff "function" occurs, else code_completion; high iff more than 30 words; test_generation iff "test" occurs |
| GitHubCopilot.GitHubCopilotOptimizer.OptimizePrompt | q3_adaptive_prompt_optimizer/optimizers/github_copilot_optimizer.py:16-35 | `OptimizeSpec` with this tool's keyword arguments |
| GitHubCopilot.FormatArgs | q3_adaptive_prompt_optimizer/optimizers/github_copilot_optimizer.py:24-29 | exactly the keyword arguments this tool passes to `format`: the prompt under its prompt keys and "Python" as the language |
| Cursor.CursorOptimizer.constructor | q3_adaptive_prompt_optimizer/optimizers/base_optimizer.py:5-6 | the optimizer holds its tool configuration |
| Cursor.CursorOptimizer.AnalyzePrompt | q3_adaptive_prompt_optimizer/optimizers/cursor_optimizer.py:5-13 | code_generation iff "generate"; refactoring iff not that and "refactor"; debugging otherwise; always one of the three; high iff more than 30 words; performance iff "performance" occurs |
| Cursor.CursorOptimizer.OptimizePrompt | q3_adaptive_prompt_optimizer/optimizers/cursor_optimizer.py:15-36 | `OptimizeSpec` with this tool's keyword arguments |
| Cursor.FormatArgs | q3_adaptive_prompt_optimizer/optimizers/cursor_optimizer.py:21-30 | exactly the keyword arguments this tool passes to `format`: the prompt under its prompt keys and "Python" as the language |
| Replit.ReplitOptimizer.constructor | q3_adaptive_prompt_optimizer/optimizers/base_optimizer.py:5-6 | the optimizer holds its tool configuration |
| Replit.ReplitOptimizer.AnalyzePrompt | q3_adaptive_prompt_optimizer/optimizers/replit_optimizer.py:5-13 | prototype iff "prototype"; web_app iff not that and "web"; script otherwise; high iff more than 30 words; sample_io once iff "input" or "output" occurs |
| Replit.ReplitOptimizer.OptimizePrompt | q3_adaptive_prompt_optimizer/optimizers/replit_optimizer.py:15-33 | `OptimizeSpec` with this tool's keyword arguments |
| Replit.FormatArgs | q3_adaptive_prompt_optimizer/optimizers/replit_optimizer.py:21-27 | exactly the keyword arguments this tool passes to `format`: the prompt under its prompt keys and "Python" as the language |
| AmazonCodeWhisperer.AmazonCodeWhispererOptimizer.constructor | q3_adaptive_prompt_optimizer/optimizers/base_optimizer.py:5-6 | the optimizer holds its tool configuration |
| AmazonCodeWhisperer.AmazonCodeWhispererOptimizer.AnalyzePrompt | q3_adaptive_prompt_optimizer/optimizers/amazon_codewhisperer_optimizer.py:5-13 | aws_integration iff "AWS" or "S3" (case-sensitive); lambda_function iff not that and "Lambda"; cloudformation otherwise; high iff more than 30 words; security iff "security" occurs |
| AmazonCodeWhisperer.AmazonCodeWhispererOptimizer.OptimizePrompt | q3_adaptive_prompt_optimizer/optimizers/amazon_codewhisperer_optimizer.py:15-33 | `OptimizeSpec` with this tool's keyword arguments |
| AmazonCodeWhisperer.FormatArgs | q3_adaptive_prompt_optimizer/optimizers/amazon_codewhisperer_optimizer.py:21-27 | exactly the keyword arguments this tool passes to `format`: the prompt under its prompt keys and "Python" as the language |
| Tabnine.TabnineOptimizer.constructor | q3_adaptive_prompt_optimizer/optimizers/base_optimizer.py:5-6 | the optimizer holds its tool configuration |
| Tabnine.TabnineOptimizer.AnalyzePrompt | q3_adaptive_prompt_optimizer/optimizers/tabnine_optimizer.py:5-13 | pattern_completion iff "pattern"; function_extension iff not that and "extend"; class_implementation otherwise; high iff more than 30 words; team_convention iff "team" occurs |
| Tabnine.TabnineOptimizer.OptimizePrompt | q3_adaptive_prompt_optimizer/optimizers/tabnine_optimizer.py:15-35 | `OptimizeSpec` with this tool's keyword arguments |
| Tabnine.FormatArgs | q3_adaptive_prompt_optimizer/optimizers/tabnine_optimizer.py:21-29 | exactly the keyword arguments this tool passes to `format`: the prompt under its prompt keys and "Python" as the language |
| Kite.KiteOptimizer.constructor | q3_adaptive_prompt_optimizer/optimizers/base_optimizer.py:5-6 | the optimizer holds its tool configuration |
| Kite.KiteOptimizer.AnalyzePrompt | q3_adaptive_prompt_optimizer/optimizers/kite_optimizer.py:5-13 | library_usage iff "library"; api_integration iff not that and "API" (case-sensitive); framework_usage otherwise; high iff more than 30 words; documentation iff "documentation" occurs |
| Kite.KiteOptimizer.OptimizePrompt | q3_adaptive_prompt_optimizer/optimizers/kite_optimizer.py:15-35 | `OptimizeSpec` with this tool's keyword arguments |
| Kite.FormatArgs | q3_adaptive_prompt_optimizer/optimizers/kite_optimizer.py:21-29 | exactly the keyword arguments this tool passes to `format`: the prompt under its prompt keys and "Python" as the language |

## Left out

- The three Flask applications (routes, request defaults, JSON responses, templates): transport and user interface.
- The language-model calls of the recommender. Its constructor reads the API key and sets up the client. `analyze_task` and `get_recommendations` call the model and `json.loads`. `generate_gemini_prompt` reads a file and builds prompt text. These are network calls, file reads and a foreign parser. The fallback scorer takes the task analysis and agent list as inputs. `FallbackAnalysis` is the analysis used when the model call or the parse of its reply raises. The reply's text on its way to `json.loads` is `Unfence`.
- `RecommendationEngine.get_all_agents`: it only forwards to `AgentDatabase.get_all_agents`, which is modelled.
- `AgentDatabase._load_agents`: reading and parsing the JSON file. The constructor takes the loaded records.
- `main()` of the inference calculator: printing only. Its first and third examples are the worked-example lemmas.
- `str.format`: template filling is the uninterpreted parameter `format`. A `KeyError` raised by a placeholder without an argument is not modelled.
- `lower()`, `strip()` and `split()` follow ASCII case and whitespace rules, not Unicode ones.
- Floating point: quantities are exact reals. IEEE rounding, overflow, infinities and NaN are not modelled.
- RecommendationEngine.GetFallbackRecommendations: reports the exact score instead of `round(score, 2)`, because rounding to two decimals is a float formatting step the real-number model does not represent.
- RecommendationEngine.SortByScore: Python's in-place list sort is modelled as a function returning the sorted list. A stable permutation sorted by descending score is unique, so the result is the same.
- The unused catalog fields (bandwidth, TFLOPS, context window, nominal tokens per second) are carried in the records but have no properties.
- Agent fields other than name, description, capabilities, strengths, languages and frameworks are not modelled, because no modelled operation reads them. Neither are task-analysis fields other than task type, languages and frameworks.
- Records are taken to be well-formed: every agent has a name and a description, and list-valued fields hold strings. A missing list field reads as the empty list, as `.get(field, [])` does. The `KeyError` of an agent without a name is not modelled.
- `optimize_prompt` reads only the analysis's intent. Its `KeyError` for an analysis without one is not modelled, because `AnalyzePrompt` always sets it.
- The abstract base optimizer class is not a separate type. The six classes share what `prompt_optimizer.dfy` defines: `PromptOptimizer.Optimize`, `PromptOptimizer.Complexity` and the `HighComplexityWords` threshold. Each tool's module adds its own `FormatArgs`, the keyword arguments its template is filled with.
