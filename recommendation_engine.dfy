/** The recommender's deterministic parts: the fallback scorer that ranks agents
    when the language model cannot be used, and the stripper that removes a
    Markdown code fence around a model reply before it is parsed as JSON.

    The task analysis and the agent list are inputs; producing them (the
    language model, the database file) is not part of this model. */
module RecommendationEngine {
  import opened Wrappers
  import opened Text
  import opened Agents

  /** The fields of a task analysis the fallback scorer reads. A missing task
      type is `None`; missing language or framework lists are empty. */
  datatype TaskAnalysis = TaskAnalysis(taskType: Option<string>, languages: seq<string>, frameworks: seq<string>)

  /** `task_analysis.get('task_type', 'general')` */
  function TaskTypeOf(task: TaskAnalysis): (t: string)
    ensures task.taskType.Some? ==> t == task.taskType.value
    ensures task.taskType.None? ==> t == "general"
  {
    task.taskType.GetOr("general")
  }

  /** The analysis used when the model call or the parse of its reply raises */
  const FallbackAnalysis := TaskAnalysis(Some("general"), [], [])

  datatype ScoredAgent = ScoredAgent(agent: Agent, score: real)

  datatype Recommendation = Recommendation(
    rank: int,
    agentName: string,
    score: real,
    justification: string,
    agentInfo: Agent)

  // ---------------------------------------------------------------------
  // Scoring

  /** `set(items)` */
  function ToSet(items: seq<string>): (r: set<string>)
    ensures forall x :: x in r <==> x in items
    ensures |r| <= |items|
  {
    if items == [] then {} else {items[0]} + ToSet(items[1..])
  }

  lemma {:induction false} SubsetCard<T>(a: set<T>, b: set<T>)
    requires a <= b
    ensures |a| <= |b|
    decreases a
  {
    if a != {} {
      var x :| x in a;
      SubsetCard(a - {x}, b - {x});
    }
  }

  lemma ShareAtMostOne(part: real, whole: real)
    requires 0.0 <= part <= whole && whole > 0.0
    ensures 0.0 <= part / whole <= 1.0
  {
  }

  /** 0.4 when the task type is one of the agent's strengths, otherwise 0.2 when
      it is one of its capabilities, otherwise nothing */
  function TaskTypeTerm(taskType: string, agent: Agent): (t: real)
    ensures t == 0.0 || t == 0.2 || t == 0.4
  {
    if taskType in agent.strengths then 0.4
    else if taskType in agent.capabilities then 0.2
    else 0.0
  }

  /** 0.3 times the share of the wanted items the agent offers, counting
      distinct common items against every wanted entry; nothing when either
      list is empty */
  function OverlapTerm(wanted: seq<string>, offered: seq<string>): (t: real)
    ensures 0.0 <= t <= 0.3
    ensures t > 0.0 <==> exists i :: 0 <= i < |wanted| && wanted[i] in offered
  {
    if |wanted| > 0 && |offered| > 0 then
      var overlap := |ToSet(wanted) * ToSet(offered)|;
      SubsetCard(ToSet(wanted) * ToSet(offered), ToSet(wanted));
      if overlap > 0 then
        ShareAtMostOne(overlap as real, |wanted| as real);
        var x :| x in ToSet(wanted) * ToSet(offered);
        assert exists i :: 0 <= i < |wanted| && wanted[i] == x;
        0.3 * (overlap as real / |wanted| as real)
      else
        assert forall i :: 0 <= i < |wanted| ==> wanted[i] !in ToSet(wanted) * ToSet(offered);
        0.0
    else 0.0
  }

  /** The fallback score of one agent: between 0 and 1 */
  function AgentScore(task: TaskAnalysis, agent: Agent): (s: real)
    ensures 0.0 <= s <= 1.0
  {
    TaskTypeTerm(TaskTypeOf(task), agent)
      + OverlapTerm(task.languages, agent.languages)
      + OverlapTerm(task.frameworks, agent.frameworks)
  }

  /** Under the fallback analysis only the task-type term can contribute */
  lemma FallbackScores(agent: Agent)
    ensures AgentScore(FallbackAnalysis, agent) == TaskTypeTerm("general", agent)
    ensures var s := AgentScore(FallbackAnalysis, agent); s == 0.0 || s == 0.2 || s == 0.4
  {
  }

  /** Every agent paired with its score, in database order */
  function ScoreAll(task: TaskAnalysis, agents: seq<Agent>): seq<ScoredAgent>
  {
    seq(|agents|, k requires 0 <= k < |agents| => ScoredAgent(agents[k], AgentScore(task, agents[k])))
  }

  // ---------------------------------------------------------------------
  // `sort(key=score, reverse=True)`: stable, highest score first

  predicate SortedByScore(s: seq<ScoredAgent>) {
    forall i, j :: 0 <= i < j < |s| ==> s[i].score >= s[j].score
  }

  /** Puts `x` in front of the first entry that does not outscore it */
  function Insert(x: ScoredAgent, t: seq<ScoredAgent>): (r: seq<ScoredAgent>)
    ensures |r| == |t| + 1
    ensures multiset(r) == multiset(t) + multiset{x}
    ensures r[0] == (if t == [] || t[0].score <= x.score then x else t[0])
  {
    if t == [] || t[0].score <= x.score then [x] + t
    else
      assert t == [t[0]] + t[1..];
      [t[0]] + Insert(x, t[1..])
  }

  /** Inserting into a ranking gives a ranking */
  lemma {:induction false} InsertSorted(x: ScoredAgent, t: seq<ScoredAgent>)
    requires SortedByScore(t)
    ensures SortedByScore(Insert(x, t))
  {
    if t != [] && t[0].score > x.score {
      var rest := Insert(x, t[1..]);
      InsertSorted(x, t[1..]);
      assert Insert(x, t) == [t[0]] + rest;
      assert t[0].score >= rest[0].score;
    }
  }

  function SortByScore(s: seq<ScoredAgent>): (r: seq<ScoredAgent>)
    ensures |r| == |s|
    ensures multiset(r) == multiset(s)
    ensures SortedByScore(r)
  {
    if s == [] then []
    else
      assert s == [s[0]] + s[1..];
      InsertSorted(s[0], SortByScore(s[1..]));
      Insert(s[0], SortByScore(s[1..]))
  }

  /** The entries whose score is `v`, in order */
  function WithScore(s: seq<ScoredAgent>, v: real): seq<ScoredAgent> {
    if s == [] then []
    else (if s[0].score == v then [s[0]] else []) + WithScore(s[1..], v)
  }

  /** Inserting `x` only ever passes entries that outscore it, so it lands
      before every entry of equal score */
  lemma {:induction false} InsertKeepsTies(x: ScoredAgent, t: seq<ScoredAgent>, v: real)
    ensures WithScore(Insert(x, t), v) == (if x.score == v then [x] else []) + WithScore(t, v)
  {
    if t == [] || t[0].score <= x.score {
      assert Insert(x, t) == [x] + t;
      assert ([x] + t)[1..] == t;
    } else {
      var rest := Insert(x, t[1..]);
      assert Insert(x, t) == [t[0]] + rest;
      assert ([t[0]] + rest)[1..] == rest;
      assert WithScore(Insert(x, t), v) == (if t[0].score == v then [t[0]] else []) + WithScore(rest, v);
      InsertKeepsTies(x, t[1..], v);
      assert WithScore(t, v) == (if t[0].score == v then [t[0]] else []) + WithScore(t[1..], v);
    }
  }

  /** The sort is stable: entries of equal score keep their relative order */
  lemma {:induction false} SortIsStable(s: seq<ScoredAgent>, v: real)
    ensures WithScore(SortByScore(s), v) == WithScore(s, v)
  {
    if s != [] {
      InsertKeepsTies(s[0], SortByScore(s[1..]), v);
      SortIsStable(s[1..], v);
    }
  }

  /** The scored agents, best first */
  function Ranked(task: TaskAnalysis, agents: seq<Agent>): (r: seq<ScoredAgent>)
    ensures |r| == |agents|
  {
    SortByScore(ScoreAll(task, agents))
  }

  /** The ranking holds every agent once with its own score, best first, and
      agents of equal score in database order */
  lemma RankedFacts(task: TaskAnalysis, agents: seq<Agent>)
    ensures var r := Ranked(task, agents);
      && |r| == |agents|
      && multiset(r) == multiset(ScoreAll(task, agents))
      && SortedByScore(r)
      && (forall k :: 0 <= k < |r| ==> r[k].agent in agents && r[k].score == AgentScore(task, r[k].agent))
      && (forall v :: WithScore(r, v) == WithScore(ScoreAll(task, agents), v))
  {
    var r, all := Ranked(task, agents), ScoreAll(task, agents);
    assert |r| == |multiset(r)| == |multiset(all)| == |all|;
    forall k | 0 <= k < |r|
      ensures r[k].agent in agents && r[k].score == AgentScore(task, r[k].agent)
    {
      assert r[k] in multiset(all);
      var i :| 0 <= i < |all| && all[i] == r[k];
    }
    forall v
      ensures WithScore(r, v) == WithScore(all, v)
    {
      SortIsStable(all, v);
    }
  }

  // ---------------------------------------------------------------------
  // `s[:k]`

  /** Length of Python's `s[:k]` for a sequence of length `n`: a negative `k`
      drops that many entries from the end */
  function SliceLength(n: nat, k: int): (m: nat)
    ensures m <= n
    ensures k >= 0 ==> m == (if k < n then k else n)
    ensures k < 0 ==> m == (if n + k > 0 then n + k else 0)
  {
    if k >= 0 then (if k < n then k else n)
    else if n + k > 0 then n + k else 0
  }

  /** The justification text: it names the task type */
  function Justification(taskType: string): (r: string)
    ensures Contains(r, taskType)
  {
    var lead := "Recommended based on task type '";
    var r := lead + taskType + "' and language/framework compatibility.";
    assert r[|lead|..|lead| + |taskType|] == taskType;
    OccursContains(r, taskType, |lead|);
    r
  }

  /** The recommendation at position `k` of the kept ranking */
  function RecommendationAt(k: nat, entry: ScoredAgent, task: TaskAnalysis): Recommendation {
    Recommendation(k + 1, entry.agent.name, entry.score, Justification(TaskTypeOf(task)), entry.agent)
  }

  /** The fallback recommendations: the first `topK` entries of the ranking,
      with Python's slice semantics, numbered from 1 */
  function FallbackRecommendations(task: TaskAnalysis, agents: seq<Agent>, topK: int): (r: seq<Recommendation>)
    ensures |r| == SliceLength(|agents|, topK)
  {
    var top := Ranked(task, agents)[..SliceLength(|agents|, topK)];
    seq(|top|, k requires 0 <= k < |top| => RecommendationAt(k, top[k], task))
  }

  /** The k-th recommendation is built from the k-th entry of the ranking */
  lemma FallbackEntries(task: TaskAnalysis, agents: seq<Agent>, topK: int)
    ensures |FallbackRecommendations(task, agents, topK)| <= |Ranked(task, agents)|
    ensures forall k :: 0 <= k < |FallbackRecommendations(task, agents, topK)| ==>
      FallbackRecommendations(task, agents, topK)[k] == RecommendationAt(k, Ranked(task, agents)[k], task)
  {
  }

  /** What the fallback recommender promises: `min(topK, n)` entries for a
      nonnegative `topK`, ranks 1, 2, ... in order, each entry an agent of the
      database with its own name and score, scores never increasing, and no
      agent left out that outscores one kept */
  lemma FallbackRecommendationsFacts(task: TaskAnalysis, agents: seq<Agent>, topK: int)
    ensures var r := FallbackRecommendations(task, agents, topK);
      && (topK >= 0 ==> |r| == (if topK < |agents| then topK else |agents|))
      && (topK < 0 ==> |r| == (if |agents| + topK > 0 then |agents| + topK else 0))
      && (forall k :: 0 <= k < |r| ==>
            && r[k].rank == k + 1
            && r[k].agentInfo in agents
            && r[k].agentName == r[k].agentInfo.name
            && r[k].score == AgentScore(task, r[k].agentInfo)
            && r[k].justification == Justification(TaskTypeOf(task)))
      && (forall k, l :: 0 <= k < l < |r| ==> r[k].score >= r[l].score)
      && (forall k, j :: 0 <= k < |r| <= j < |agents| ==> Ranked(task, agents)[j].score <= r[k].score)
  {
    RankedFacts(task, agents);
    FallbackEntries(task, agents, topK);
    var ranked := Ranked(task, agents);
    var r := FallbackRecommendations(task, agents, topK);
    forall k, l | 0 <= k < l < |r|
      ensures r[k].score >= r[l].score
    {
      assert ranked[k].score >= ranked[l].score;
    }
    forall k, j | 0 <= k < |r| <= j < |agents|
      ensures ranked[j].score <= r[k].score
    {
      assert ranked[k].score >= ranked[j].score;
    }
  }

  /** The score of one agent, accumulated term by term */
  method ScoreAgent(taskAnalysis: TaskAnalysis, agent: Agent) returns (score: real)
    ensures score == AgentScore(taskAnalysis, agent)
  {
    score := 0.0;

    var taskType := TaskTypeOf(taskAnalysis);
    if taskType in agent.strengths {
      score := score + 0.4;
    } else if taskType in agent.capabilities {
      score := score + 0.2;
    }
    assert score == TaskTypeTerm(taskType, agent);

    score := AddOverlap(score, taskAnalysis.languages, agent.languages);
    score := AddOverlap(score, taskAnalysis.frameworks, agent.frameworks);
  }

  /** One overlap block of the scorer: adds 0.3 times the share of the wanted
      items the agent offers, when both lists are nonempty and they share one */
  method AddOverlap(score: real, wanted: seq<string>, offered: seq<string>) returns (r: real)
    ensures r == score + OverlapTerm(wanted, offered)
  {
    r := score;
    if |wanted| > 0 && |offered| > 0 {
      var overlap := |ToSet(wanted) * ToSet(offered)|;
      if overlap > 0 {
        r := r + 0.3 * (overlap as real / |wanted| as real);
      }
    }
  }

  /** Numbering Python's `[:top_k]` of the ranking from 1 gives `FallbackRecommendations` */
  lemma RecommendationsFromRanking(task: TaskAnalysis, agents: seq<Agent>, topK: int,
                                   ranked: seq<ScoredAgent>, recs: seq<Recommendation>)
    requires ranked == SortByScore(ScoreAll(task, agents))
    requires |recs| == SliceLength(|ranked|, topK)
    requires forall k :: 0 <= k < |recs| ==> recs[k] == RecommendationAt(k, ranked[k], task)
    ensures recs == FallbackRecommendations(task, agents, topK)
  {
    FallbackEntries(task, agents, topK);
  }

  /** The scoring loop: every agent, in database order, with its score */
  method ScoreAgents(taskAnalysis: TaskAnalysis, allAgents: seq<Agent>) returns (scoredAgents: seq<ScoredAgent>)
    ensures scoredAgents == ScoreAll(taskAnalysis, allAgents)
  {
    scoredAgents := [];
    for i := 0 to |allAgents|
      invariant |scoredAgents| == i
      invariant forall k :: 0 <= k < i ==>
        scoredAgents[k] == ScoredAgent(allAgents[k], AgentScore(taskAnalysis, allAgents[k]))
    {
      var agent := allAgents[i];
      var score := ScoreAgent(taskAnalysis, agent);
      scoredAgents := scoredAgents + [ScoredAgent(agent, score)];
    }
  }

  /** The numbering loop: the k-th entry of the kept ranking becomes the
      recommendation ranked k + 1 */
  method NumberRecommendations(taskAnalysis: TaskAnalysis, top: seq<ScoredAgent>)
    returns (recommendations: seq<Recommendation>)
    ensures |recommendations| == |top|
    ensures forall k :: 0 <= k < |top| ==> recommendations[k] == RecommendationAt(k, top[k], taskAnalysis)
  {
    recommendations := [];
    for i := 0 to |top|
      invariant |recommendations| == i
      invariant forall k :: 0 <= k < i ==> recommendations[k] == RecommendationAt(k, top[k], taskAnalysis)
    {
      var scoredAgent := top[i];
      var recommendation := Recommendation(
        i + 1,
        scoredAgent.agent.name,
        scoredAgent.score,
        Justification(TaskTypeOf(taskAnalysis)),
        scoredAgent.agent);
      recommendations := recommendations + [recommendation];
    }
  }

  /** Scores every agent, sorts best first (stably), keeps Python's
      `[:top_k]` of the ranking and numbers the result from 1 */
  method GetFallbackRecommendations(taskAnalysis: TaskAnalysis, allAgents: seq<Agent>, topK: int)
    returns (recommendations: seq<Recommendation>)
    ensures recommendations == FallbackRecommendations(taskAnalysis, allAgents, topK)
  {
    var scoredAgents := ScoreAgents(taskAnalysis, allAgents);
    scoredAgents := SortByScore(scoredAgents);
    var top := scoredAgents[..SliceLength(|scoredAgents|, topK)];

    recommendations := NumberRecommendations(taskAnalysis, top);
    RecommendationsFromRanking(taskAnalysis, allAgents, topK, scoredAgents, recommendations);
  }

  // ---------------------------------------------------------------------
  // Code-fence stripping

  const JsonOpener := "```json"
  const Fence := "```"

  /** The reply text handed to the JSON parser: the stripped reply, without a
      leading "```json" and then without a trailing "```", stripped again */
  function Unfence(reply: string): (r: string)
    ensures |r| <= |reply|
    ensures r == [] || (!IsSpace(r[0]) && !IsSpace(r[|r| - 1]))
  {
    var stripped := Strip(reply);
    var bodyAndFence := DropOpener(stripped);
    var body := DropFence(bodyAndFence);
    assert |body| <= |bodyAndFence| <= |stripped| <= |reply|;
    Strip(body)
  }

  /** The text handed to the parser is one piece of the reply */
  lemma UnfenceInfix(reply: string)
    ensures exists a :: InfixAt(reply, Unfence(reply), a)
  {
    var stripped := Strip(reply);
    var body := DropFence(DropOpener(stripped));
    var a := FencePiece(reply, stripped, body, Strip(body), StripStart(reply), StripStart(body));
    assert Unfence(reply) == Strip(body);
  }

  /** Removes a leading "```json" */
  function DropOpener(text: string): (r: string)
    ensures InfixAt(text, r, |text| - |r|)
  {
    if JsonOpener <= text then text[|JsonOpener|..] else text
  }

  /** Removes a trailing "```" */
  function DropFence(text: string): (r: string)
    ensures InfixAt(text, r, 0)
  {
    if EndsWith(text, Fence) then text[..|text| - |Fence|] else text
  }

  /** Each fence step removes its marker exactly when the text has it, and
      nothing else */
  lemma DropsExactly(text: string)
    ensures JsonOpener <= text ==> text == JsonOpener + DropOpener(text)
    ensures DropOpener(text) == text <==> !(JsonOpener <= text)
    ensures EndsWith(text, Fence) ==> text == DropFence(text) + Fence
    ensures DropFence(text) == text <==> !EndsWith(text, Fence)
  {
  }

  /** A piece of the body that is left once the fences are dropped from a piece
      of the reply is itself a piece of the reply */
  lemma FencePiece(reply: string, stripped: string, body: string, r: string, a1: int, a3: int)
    returns (a: int)
    requires InfixAt(reply, stripped, a1)
    requires body == DropFence(DropOpener(stripped))
    requires InfixAt(body, r, a3)
    ensures InfixAt(reply, r, a)
  {
    var bodyAndFence := DropOpener(stripped);
    var a2 := |stripped| - |bodyAndFence|;
    InfixOfInfix(reply, stripped, bodyAndFence, a1, a2);
    InfixOfInfix(reply, bodyAndFence, body, a1 + a2, 0);
    InfixOfInfix(reply, body, r, a1 + a2, a3);
    a := a1 + a2 + a3;
  }

  /** A reply fenced as a JSON code block gives back its body, stripped */
  lemma UnfenceFenced(body: string)
    ensures Unfence(JsonOpener + body + Fence) == Strip(body)
  {
    var reply := JsonOpener + body + Fence;
    StripUntrimmed(reply);
    assert JsonOpener <= reply;
    assert reply[|JsonOpener|..] == body + Fence;
    assert EndsWith(body + Fence, Fence);
    assert (body + Fence)[..|body|] == body;
  }

  /** A reply with neither fence is only stripped */
  lemma UnfencePlain(reply: string)
    requires !(JsonOpener <= Strip(reply)) && !EndsWith(Strip(reply), Fence)
    ensures Unfence(reply) == Strip(reply)
  {
    StripIdempotent(reply);
  }

  /** Reassigns the reply text step by step, as the parser's caller does */
  method ExtractJsonText(reply: string) returns (text: string)
    ensures text == Unfence(reply)
  {
    text := Strip(reply);
    if JsonOpener <= text {
      text := text[7..];
    }
    assert text == DropOpener(Strip(reply));
    if EndsWith(text, Fence) {
      text := text[..|text| - 3];
    }
    assert text == DropFence(DropOpener(Strip(reply)));
    text := Strip(text);
  }
}
