/** The LLM inference estimator: memory footprint, latency, operating cost and
    hardware compatibility of one (model, hardware, workload, deployment mode)
    configuration, computed from fixed catalogs.

    Python floats are modelled as `real`. Every dictionary lookup that can raise
    `KeyError`, and the one division that can raise `ZeroDivisionError`, becomes
    a `Failure`; the order in which failures are reported is the order in which
    the Python code performs its lookups. */
module InferenceCalculator {
  import opened Wrappers

  datatype HardwareSpecs = HardwareSpecs(
    name: string,
    vramGb: real,
    memoryBandwidthGbps: real,
    computeTflops: real,
    costPerHour: real,
    powerConsumptionW: real)

  datatype ModelSpecs = ModelSpecs(
    name: string,
    parametersBillions: real,
    modelSizeGb: real,
    contextWindow: int,
    tokensPerSecond: real,
    memoryEfficiency: real)

  /** `KeyError` on one of the lookup tables, or the `ZeroDivisionError` of a
      request with zero tokens */
  datatype CalcError =
    | UnknownModel(modelSize: string)
    | UnknownHardware(hardwareType: string)
    | UnknownDeploymentMode(deploymentMode: string)
    | DivisionByZero

  const ModelSizes: set<string> := {"7B", "13B", "GPT-4"}
  const HardwareTypes: set<string> := {"V100", "A100", "H100", "RTX4090", "CPU"}
  const DeploymentModes: set<string> := {"local", "cloud", "edge"}

  // ---------------------------------------------------------------------
  // Catalogs

  /** The hardware catalog built once by the calculator's constructor */
  function HardwareSpecsCatalog(): (catalog: map<string, HardwareSpecs>)
    ensures catalog.Keys == HardwareTypes
    ensures forall h :: h in catalog ==>
      && 0.0 < catalog[h].vramGb <= 80.0
      && catalog[h].costPerHour > 0.0
      && catalog[h].powerConsumptionW > 0.0
  {
    map[
      "V100" := HardwareSpecs("NVIDIA V100", 16.0, 900.0, 112.0, 2.48, 250.0),
      "A100" := HardwareSpecs("NVIDIA A100", 40.0, 1555.0, 312.0, 3.26, 400.0),
      "H100" := HardwareSpecs("NVIDIA H100", 80.0, 3350.0, 989.0, 4.00, 700.0),
      "RTX4090" := HardwareSpecs("NVIDIA RTX 4090", 24.0, 1008.0, 83.0, 0.50, 450.0),
      "CPU" := HardwareSpecs("High-end CPU", 64.0, 50.0, 1.0, 0.10, 150.0)
    ]
  }

  /** The model catalog built once by the calculator's constructor */
  function ModelSpecsCatalog(): (catalog: map<string, ModelSpecs>)
    ensures catalog.Keys == ModelSizes
    ensures forall m :: m in catalog ==>
      && catalog[m].parametersBillions > 0.0
      && catalog[m].modelSizeGb > 0.0
      && 0.0 < catalog[m].memoryEfficiency <= 1.0
  {
    map[
      "7B" := ModelSpecs("7B Parameter Model", 7.0, 14.0, 8192, 50.0, 0.85),
      "13B" := ModelSpecs("13B Parameter Model", 13.0, 26.0, 8192, 30.0, 0.80),
      "GPT-4" := ModelSpecs("GPT-4", 175.0, 350.0, 8192, 15.0, 0.90)
    ]
  }

  /** Milliseconds per token, by model */
  function BaseLatencyPerTokenMs(): (table: map<string, real>)
    ensures table.Keys == ModelSizes
    ensures forall m :: m in table ==> table[m] > 0.0
  {
    map["7B" := 20.0, "13B" := 33.0, "GPT-4" := 67.0]
  }

  /** Latency multiplier of each hardware type relative to the RTX 4090 */
  function HardwareEfficiency(): (table: map<string, real>)
    ensures table.Keys == HardwareTypes
    ensures forall h :: h in table ==> table[h] > 0.0
  {
    map["RTX4090" := 1.0, "V100" := 0.8, "A100" := 0.6, "H100" := 0.4, "CPU" := 5.0]
  }

  /** Latency multiplier of each deployment mode; none makes inference faster */
  function DeploymentFactors(): (table: map<string, real>)
    ensures table.Keys == DeploymentModes
    ensures forall d :: d in table ==> table[d] >= 1.0
  {
    map["local" := 1.0, "cloud" := 1.1, "edge" := 1.3]
  }

  /** 1024**3 */
  const GiB: real := 1073741824.0

  /** Price of one kilowatt-hour, in dollars */
  const EnergyPricePerKwh: real := 0.12

  // ---------------------------------------------------------------------
  // Small facts about real arithmetic used below

  lemma RatioAtMostHundred(x: real, y: real)
    requires y > 0.0
    ensures x <= y <==> x / y * 100.0 <= 100.0
    ensures x / y * 100.0 * y == x * 100.0
  {
    if x <= y {
      assert x / y <= 1.0;
    } else {
      assert x / y > 1.0;
    }
  }

  lemma ProductZero(t: real, a: real, b: real, c: real)
    requires a > 0.0 && b > 0.0 && c > 0.0
    ensures t * a * b * c == 0.0 <==> t == 0.0
  {
    var abc := a * b * c;
    assert abc > 0.0;
    assert t * a * b * c == t * abc;
  }

  // ---------------------------------------------------------------------
  // Memory

  datatype MemoryUsage = MemoryUsage(
    modelMemoryGb: real,
    kvCacheMemoryGb: real,
    activationMemoryGb: real,
    totalMemoryGb: real,
    effectiveMemoryGb: real,
    hardwareMemoryGb: real,
    memoryFits: bool,
    memoryUtilizationPercent: real)

  /** One memory estimate from the model's figures, the hardware's VRAM and the
      load `tokens * batch_size`: weights plus key/value cache plus activations,
      inflated by the model's memory efficiency and compared with the VRAM */
  function MemoryOf(model: ModelSpecs, vramGb: real, load: real): (m: MemoryUsage)
    requires model.memoryEfficiency > 0.0 && vramGb > 0.0
    ensures m.modelMemoryGb == model.modelSizeGb
    ensures m.kvCacheMemoryGb == load * model.parametersBillions * 8.0 / GiB
    ensures m.activationMemoryGb == load * model.parametersBillions * 0.1 / GiB
    ensures m.totalMemoryGb == m.modelMemoryGb + m.kvCacheMemoryGb + m.activationMemoryGb
    ensures m.effectiveMemoryGb * model.memoryEfficiency == m.totalMemoryGb
    ensures m.hardwareMemoryGb == vramGb
    ensures m.memoryUtilizationPercent * vramGb == m.effectiveMemoryGb * 100.0
    ensures m.memoryFits <==> m.effectiveMemoryGb <= vramGb
    ensures m.memoryFits <==> m.memoryUtilizationPercent <= 100.0
  {
    var modelMemoryGb := model.modelSizeGb;
    var kvCacheMemoryGb := load * model.parametersBillions * 2.0 * 4.0 / GiB;
    var activationMemoryGb := load * model.parametersBillions * 0.1 / GiB;
    var totalMemoryGb := modelMemoryGb + kvCacheMemoryGb + activationMemoryGb;
    var effectiveMemoryGb := totalMemoryGb / model.memoryEfficiency;
    RatioAtMostHundred(effectiveMemoryGb, vramGb);
    RatioAtMostHundred(totalMemoryGb, model.memoryEfficiency);
    MemoryUsage(
      modelMemoryGb, kvCacheMemoryGb, activationMemoryGb, totalMemoryGb, effectiveMemoryGb,
      vramGb, effectiveMemoryGb <= vramGb, effectiveMemoryGb / vramGb * 100.0)
  }

  /** The memory estimate of a catalog configuration. The deployment mode is
      accepted and never read. */
  function CalculateMemoryUsage(modelSize: string, tokens: int, batchSize: int,
                                hardwareType: string, deploymentMode: string): (r: Result<MemoryUsage, CalcError>)
    ensures r.Success? <==> modelSize in ModelSizes && hardwareType in HardwareTypes
    ensures modelSize !in ModelSizes ==> r == Failure(UnknownModel(modelSize))
    ensures modelSize in ModelSizes && hardwareType !in HardwareTypes ==> r == Failure(UnknownHardware(hardwareType))
    ensures r.Success? ==>
      r.value == MemoryOf(ModelSpecsCatalog()[modelSize], HardwareSpecsCatalog()[hardwareType].vramGb,
                          (tokens * batchSize) as real)
  {
    if modelSize !in ModelSpecsCatalog() then Failure(UnknownModel(modelSize))
    else if hardwareType !in HardwareSpecsCatalog() then Failure(UnknownHardware(hardwareType))
    else
      var model := ModelSpecsCatalog()[modelSize];
      var hardware := HardwareSpecsCatalog()[hardwareType];
      Success(MemoryOf(model, hardware.vramGb, (tokens * batchSize) as real))
  }

  // ---------------------------------------------------------------------
  // Latency

  datatype Latency = Latency(
    computeLatencyMs: real,
    memoryLatencyMs: real,
    modelLatencyMs: real,
    totalLatencyMs: real,
    totalLatencySeconds: real,
    tokensPerSecond: real)

  /** One latency estimate from its factors: tokens times the model's per-token
      latency, times the hardware factor, times the deployment factor. The three
      phases split the hardware-adjusted latency 70/20/10 and leave the
      deployment factor out. */
  function LatencyOf(tokens: real, perTokenMs: real, hardwareFactor: real, deploymentFactor: real): (l: Latency)
    requires tokens * perTokenMs * hardwareFactor * deploymentFactor / 1000.0 != 0.0
    ensures l.totalLatencyMs == tokens * perTokenMs * hardwareFactor * deploymentFactor
    ensures l.computeLatencyMs + l.memoryLatencyMs + l.modelLatencyMs == tokens * perTokenMs * hardwareFactor
    ensures l.computeLatencyMs == 0.7 * (tokens * perTokenMs * hardwareFactor)
    ensures l.memoryLatencyMs == 0.2 * (tokens * perTokenMs * hardwareFactor)
    ensures l.modelLatencyMs == 0.1 * (tokens * perTokenMs * hardwareFactor)
    ensures l.totalLatencySeconds * 1000.0 == l.totalLatencyMs
    ensures l.tokensPerSecond * l.totalLatencySeconds == tokens
  {
    var baseLatencyMs := tokens * perTokenMs;
    var hardwareAdjustedLatencyMs := baseLatencyMs * hardwareFactor;
    var totalLatencyMs := hardwareAdjustedLatencyMs * deploymentFactor;
    Latency(
      hardwareAdjustedLatencyMs * 0.7,
      hardwareAdjustedLatencyMs * 0.2,
      hardwareAdjustedLatencyMs * 0.1,
      totalLatencyMs,
      totalLatencyMs / 1000.0,
      tokens / (totalLatencyMs / 1000.0))
  }

  /** The latency estimate of the catalogs' model, hardware and deployment mode.
      The batch size is accepted and never read. */
  function CalculateLatency(modelSize: string, tokens: int, batchSize: int,
                            hardwareType: string, deploymentMode: string): (r: Result<Latency, CalcError>)
    ensures r.Success? <==>
      modelSize in ModelSizes && hardwareType in HardwareTypes && deploymentMode in DeploymentModes && tokens != 0
    ensures modelSize !in ModelSizes ==> r == Failure(UnknownModel(modelSize))
    ensures modelSize in ModelSizes && hardwareType !in HardwareTypes ==> r == Failure(UnknownHardware(hardwareType))
    ensures modelSize in ModelSizes && hardwareType in HardwareTypes && deploymentMode !in DeploymentModes ==>
      r == Failure(UnknownDeploymentMode(deploymentMode))
    ensures modelSize in ModelSizes && hardwareType in HardwareTypes && deploymentMode in DeploymentModes && tokens == 0 ==>
      r == Failure(DivisionByZero)
    ensures r.Success? ==>
      r.value == LatencyOf(tokens as real, BaseLatencyPerTokenMs()[modelSize],
                           HardwareEfficiency()[hardwareType], DeploymentFactors()[deploymentMode])
  {
    if modelSize !in ModelSpecsCatalog() then Failure(UnknownModel(modelSize))
    else if hardwareType !in HardwareSpecsCatalog() then Failure(UnknownHardware(hardwareType))
    else
      if deploymentMode !in DeploymentFactors() then Failure(UnknownDeploymentMode(deploymentMode))
      else
        var totalLatencyMs := tokens as real * BaseLatencyPerTokenMs()[modelSize]
                              * HardwareEfficiency()[hardwareType] * DeploymentFactors()[deploymentMode];
        ProductZero(tokens as real, BaseLatencyPerTokenMs()[modelSize], HardwareEfficiency()[hardwareType],
                    DeploymentFactors()[deploymentMode]);
        if totalLatencyMs / 1000.0 == 0.0 then Failure(DivisionByZero)
        else Success(LatencyOf(tokens as real, BaseLatencyPerTokenMs()[modelSize],
                               HardwareEfficiency()[hardwareType], DeploymentFactors()[deploymentMode]))
  }

  // ---------------------------------------------------------------------
  // Cost

  datatype Cost = Cost(
    costPerRequest: real,
    powerCostPerRequest: real,
    totalCostPerRequest: real,
    costPer1kTokens: real,
    hourlyCost: real,
    dailyCost: real,
    monthlyCost: real)

  /** One cost estimate: hardware rental plus electricity for the duration of
      one request, then scaled to 1000 tokens and to an hour, a day and a
      30-day month */
  function CostOf(latencySeconds: real, costPerHour: real, powerConsumptionW: real,
                  tokens: real, requestsPerHour: real): (c: Cost)
    requires tokens != 0.0
    ensures c.totalCostPerRequest == c.costPerRequest + c.powerCostPerRequest
    ensures c.totalCostPerRequest
            == (costPerHour + powerConsumptionW / 1000.0 * EnergyPricePerKwh) * latencySeconds / 3600.0
    ensures c.costPer1kTokens * tokens == c.totalCostPerRequest * 1000.0
    ensures c.hourlyCost == c.totalCostPerRequest * requestsPerHour
    ensures c.dailyCost == 24.0 * c.hourlyCost
    ensures c.monthlyCost == 30.0 * c.dailyCost
  {
    var timePerRequestHours := latencySeconds / 3600.0;
    var costPerRequest := timePerRequestHours * costPerHour;
    var powerCostPerHour := powerConsumptionW / 1000.0 * EnergyPricePerKwh;
    var powerCostPerRequest := timePerRequestHours * powerCostPerHour;
    var totalCostPerRequest := costPerRequest + powerCostPerRequest;
    var hourlyCost := totalCostPerRequest * requestsPerHour;
    Cost(
      costPerRequest,
      powerCostPerRequest,
      totalCostPerRequest,
      totalCostPerRequest / tokens * 1000.0,
      hourlyCost,
      hourlyCost * 24.0,
      hourlyCost * 24.0 * 30.0)
  }

  /** The cost estimate of a catalog configuration. The hardware is looked up
      before the latency is computed. */
  function CalculateCost(modelSize: string, tokens: int, batchSize: int, hardwareType: string,
                         deploymentMode: string, requestsPerHour: int): (r: Result<Cost, CalcError>)
    ensures hardwareType !in HardwareTypes ==> r == Failure(UnknownHardware(hardwareType))
    ensures hardwareType in HardwareTypes ==>
      r.Failure? == CalculateLatency(modelSize, tokens, batchSize, hardwareType, deploymentMode).Failure?
    ensures hardwareType in HardwareTypes && r.Failure? ==>
      r.error == CalculateLatency(modelSize, tokens, batchSize, hardwareType, deploymentMode).error
    ensures r.Success? ==>
      var hardware := HardwareSpecsCatalog()[hardwareType];
      r.value == CostOf(CalculateLatency(modelSize, tokens, batchSize, hardwareType, deploymentMode).value.totalLatencySeconds,
                        hardware.costPerHour, hardware.powerConsumptionW, tokens as real, requestsPerHour as real)
  {
    if hardwareType !in HardwareSpecsCatalog() then Failure(UnknownHardware(hardwareType))
    else
      var hardware := HardwareSpecsCatalog()[hardwareType];
      var latencyInfo :- CalculateLatency(modelSize, tokens, batchSize, hardwareType, deploymentMode);
      Success(CostOf(latencyInfo.totalLatencySeconds, hardware.costPerHour, hardware.powerConsumptionW,
                     tokens as real, requestsPerHour as real))
  }

  // ---------------------------------------------------------------------
  // Compatibility

  /** The four advisories, in the order the scorer considers them */
  datatype Advisory = MoreVram | MorePowerfulGpu | HighUtilization | HighLatency

  /** Position of an advisory in that order */
  function Rank(a: Advisory): nat {
    match a
    case MoreVram => 0
    case MorePowerfulGpu => 1
    case HighUtilization => 2
    case HighLatency => 3
  }

  const MemoryAdvice := "Consider using a GPU with more VRAM or reducing batch size"
  const LatencyAdvice := "Consider using a more powerful GPU or reducing model size"
  const UtilizationAdvice := "High memory utilization - consider optimization"
  const HighLatencyAdvice := "High latency - consider model optimization or better hardware"

  /** The text the scorer appends for an advisory */
  function Message(a: Advisory): string {
    match a
    case MoreVram => MemoryAdvice
    case MorePowerfulGpu => LatencyAdvice
    case HighUtilization => UtilizationAdvice
    case HighLatency => HighLatencyAdvice
  }

  function Messages(advice: seq<Advisory>): seq<string> {
    seq(|advice|, i requires 0 <= i < |advice| => Message(advice[i]))
  }

  lemma MessagesAppend(advice: seq<Advisory>, a: Advisory)
    ensures Messages(advice + [a]) == Messages(advice) + [Message(a)]
  {
  }

  /** Different advisories have different texts, so the text list determines the advisories */
  lemma MessagesDistinct(a: Advisory, b: Advisory)
    ensures Message(a) == Message(b) <==> a == b
  {
    assert |MemoryAdvice| == 58 && |LatencyAdvice| == 57;
    assert |UtilizationAdvice| == 47 && |HighLatencyAdvice| == 61;
  }

  /** Latency ceiling, in milliseconds, for an acceptable configuration */
  const LatencyCeilingMs: real := 5000.0

  datatype Compatibility = Compatibility(
    memoryCompatible: bool,
    latencyAcceptable: bool,
    performanceScore: real,
    recommendations: seq<string>,
    memoryUtilizationPercent: real,
    latencyMs: real)

  /** Python's `max(0, x)` */
  function ClampAtZero(x: real): real {
    if 0.0 >= x then 0.0 else x
  }

  /** The advisories, each present exactly when its condition holds, at most
      once, and in the fixed order memory, latency, utilization, high latency */
  function Advice(memoryFits: bool, utilizationPercent: real, latencyMs: real): (a: seq<Advisory>)
    ensures |a| <= 4
    ensures MoreVram in a <==> !memoryFits
    ensures MorePowerfulGpu in a <==> latencyMs >= LatencyCeilingMs
    ensures HighUtilization in a <==> utilizationPercent > 80.0
    ensures HighLatency in a <==> latencyMs > 2000.0
    ensures forall i, j :: 0 <= i < j < |a| ==> Rank(a[i]) < Rank(a[j])
  {
    (if !memoryFits then [MoreVram] else [])
    + (if !(latencyMs < LatencyCeilingMs) then [MorePowerfulGpu] else [])
    + (if utilizationPercent > 80.0 then [HighUtilization] else [])
    + (if latencyMs > 2000.0 then [HighLatency] else [])
  }

  /** The scorer's verdict on one memory estimate and one latency estimate: the
      score is the mean of two sub-scores clamped at zero, so it is never
      negative, and it is at most 100 when neither input is negative */
  function Assess(memory: MemoryUsage, latency: Latency): (c: Compatibility)
    ensures c.memoryCompatible == memory.memoryFits
    ensures c.latencyAcceptable <==> latency.totalLatencyMs < LatencyCeilingMs
    ensures 0.0 <= c.performanceScore
    ensures memory.memoryUtilizationPercent >= 0.0 && latency.totalLatencyMs >= 0.0 ==>
      c.performanceScore <= 100.0
    ensures c.recommendations == Messages(Advice(memory.memoryFits, memory.memoryUtilizationPercent, latency.totalLatencyMs))
    ensures c.memoryUtilizationPercent == memory.memoryUtilizationPercent && c.latencyMs == latency.totalLatencyMs
  {
    var memoryScore := ClampAtZero(100.0 - memory.memoryUtilizationPercent);
    var latencyScore := ClampAtZero(100.0 - latency.totalLatencyMs / 50.0);
    Compatibility(
      memory.memoryFits,
      latency.totalLatencyMs < LatencyCeilingMs,
      (memoryScore + latencyScore) / 2.0,
      Messages(Advice(memory.memoryFits, memory.memoryUtilizationPercent, latency.totalLatencyMs)),
      memory.memoryUtilizationPercent,
      latency.totalLatencyMs)
  }

  /** Recomputes both estimates, scores them and collects the advisories. */
  method CheckHardwareCompatibility(modelSize: string, tokens: int, batchSize: int,
                                    hardwareType: string, deploymentMode: string)
    returns (r: Result<Compatibility, CalcError>)
    ensures r.Success? <==>
      CalculateMemoryUsage(modelSize, tokens, batchSize, hardwareType, deploymentMode).Success? &&
      CalculateLatency(modelSize, tokens, batchSize, hardwareType, deploymentMode).Success?
    ensures CalculateMemoryUsage(modelSize, tokens, batchSize, hardwareType, deploymentMode).Failure? ==>
      r == Failure(CalculateMemoryUsage(modelSize, tokens, batchSize, hardwareType, deploymentMode).error)
    ensures CalculateMemoryUsage(modelSize, tokens, batchSize, hardwareType, deploymentMode).Success? &&
            CalculateLatency(modelSize, tokens, batchSize, hardwareType, deploymentMode).Failure? ==>
      r == Failure(CalculateLatency(modelSize, tokens, batchSize, hardwareType, deploymentMode).error)
    ensures r.Success? ==>
      r.value == Assess(CalculateMemoryUsage(modelSize, tokens, batchSize, hardwareType, deploymentMode).value,
                        CalculateLatency(modelSize, tokens, batchSize, hardwareType, deploymentMode).value)
  {
    var memoryInfo := CalculateMemoryUsage(modelSize, tokens, batchSize, hardwareType, deploymentMode);
    if memoryInfo.Failure? {
      return Failure(memoryInfo.error);
    }
    var latencyInfo := CalculateLatency(modelSize, tokens, batchSize, hardwareType, deploymentMode);
    if latencyInfo.Failure? {
      return Failure(latencyInfo.error);
    }
    var compatibility := ScoreEstimates(memoryInfo.value, latencyInfo.value);
    r := Success(compatibility);
  }

  /** The scoring half of `check_hardware_compatibility`: the two sub-scores,
      their mean, and the advisories appended one condition at a time */
  method ScoreEstimates(memory: MemoryUsage, latency: Latency) returns (c: Compatibility)
    ensures c == Assess(memory, latency)
  {
    var memoryCompatible := memory.memoryFits;
    var latencyAcceptable := latency.totalLatencyMs < LatencyCeilingMs;

    var memoryScore := ClampAtZero(100.0 - memory.memoryUtilizationPercent);
    var latencyScore := ClampAtZero(100.0 - latency.totalLatencyMs / 50.0);
    var performanceScore := (memoryScore + latencyScore) / 2.0;

    // The advisories each condition contributes, in order
    ghost var memoryPart := if !memoryCompatible then [MoreVram] else [];
    ghost var latencyPart := if !latencyAcceptable then [MorePowerfulGpu] else [];
    ghost var utilizationPart := if memory.memoryUtilizationPercent > 80.0 then [HighUtilization] else [];
    ghost var highLatencyPart := if latency.totalLatencyMs > 2000.0 then [HighLatency] else [];

    var recommendations: seq<string> := [];
    ghost var advice: seq<Advisory> := [];
    if !memoryCompatible {
      MessagesAppend(advice, MoreVram);
      recommendations, advice := recommendations + [MemoryAdvice], advice + [MoreVram];
    }
    assert advice == memoryPart && recommendations == Messages(advice);
    if !latencyAcceptable {
      MessagesAppend(advice, MorePowerfulGpu);
      recommendations, advice := recommendations + [LatencyAdvice], advice + [MorePowerfulGpu];
    }
    assert advice == memoryPart + latencyPart && recommendations == Messages(advice);
    if memory.memoryUtilizationPercent > 80.0 {
      MessagesAppend(advice, HighUtilization);
      recommendations, advice := recommendations + [UtilizationAdvice], advice + [HighUtilization];
    }
    assert advice == memoryPart + latencyPart + utilizationPart && recommendations == Messages(advice);
    if latency.totalLatencyMs > 2000.0 {
      MessagesAppend(advice, HighLatency);
      recommendations, advice := recommendations + [HighLatencyAdvice], advice + [HighLatency];
    }
    assert recommendations == Messages(advice);
    assert advice == memoryPart + latencyPart + utilizationPart + highLatencyPart;
    assert advice == Advice(memory.memoryFits, memory.memoryUtilizationPercent, latency.totalLatencyMs);

    c := Compatibility(memoryCompatible, latencyAcceptable, performanceScore, recommendations,
                       memory.memoryUtilizationPercent, latency.totalLatencyMs);
  }

  // ---------------------------------------------------------------------
  // The report

  datatype Inputs = Inputs(
    modelSize: string,
    tokens: int,
    batchSize: int,
    hardwareType: string,
    deploymentMode: string,
    requestsPerHour: int)

  datatype Summary = Summary(
    totalMemoryGb: real,
    totalLatencySeconds: real,
    costPerRequest: real,
    tokensPerSecond: real,
    performanceScore: real)

  datatype Metrics = Metrics(
    inputs: Inputs,
    memory: MemoryUsage,
    latency: Latency,
    cost: Cost,
    compatibility: Compatibility,
    summary: Summary)

  /** The first failure the report raises: an unknown model, then an unknown
      hardware type, then an unknown deployment mode, then zero tokens */
  function FirstError(modelSize: string, tokens: int, hardwareType: string, deploymentMode: string): (e: CalcError)
    ensures e == UnknownModel(modelSize) <==> modelSize !in ModelSizes
    ensures e == UnknownHardware(hardwareType) <==> modelSize in ModelSizes && hardwareType !in HardwareTypes
    ensures e == UnknownDeploymentMode(deploymentMode) <==>
      modelSize in ModelSizes && hardwareType in HardwareTypes && deploymentMode !in DeploymentModes
    ensures e == DivisionByZero <==>
      modelSize in ModelSizes && hardwareType in HardwareTypes && deploymentMode in DeploymentModes
  {
    if modelSize !in ModelSizes then UnknownModel(modelSize)
    else if hardwareType !in HardwareTypes then UnknownHardware(hardwareType)
    else if deploymentMode !in DeploymentModes then UnknownDeploymentMode(deploymentMode)
    else DivisionByZero
  }

  /** All four estimates for one configuration, and a summary copied from them */
  function CalculateInferenceMetrics(modelSize: string, tokens: int, batchSize: int, hardwareType: string,
                                     deploymentMode: string, requestsPerHour: int): (r: Result<Metrics, CalcError>)
    ensures r.Success? <==>
      modelSize in ModelSizes && hardwareType in HardwareTypes && deploymentMode in DeploymentModes && tokens != 0
    ensures r.Failure? ==> r.error == FirstError(modelSize, tokens, hardwareType, deploymentMode)
    ensures r.Success? ==>
      var m := r.value;
      && m.inputs == Inputs(modelSize, tokens, batchSize, hardwareType, deploymentMode, requestsPerHour)
      && Success(m.memory) == CalculateMemoryUsage(modelSize, tokens, batchSize, hardwareType, deploymentMode)
      && Success(m.latency) == CalculateLatency(modelSize, tokens, batchSize, hardwareType, deploymentMode)
      && Success(m.cost) == CalculateCost(modelSize, tokens, batchSize, hardwareType, deploymentMode, requestsPerHour)
      && m.compatibility == Assess(m.memory, m.latency)
      && m.summary == Summary(m.memory.effectiveMemoryGb, m.latency.totalLatencySeconds,
                              m.cost.totalCostPerRequest, m.latency.tokensPerSecond,
                              m.compatibility.performanceScore)
  {
    var memory :- CalculateMemoryUsage(modelSize, tokens, batchSize, hardwareType, deploymentMode);
    var latency :- CalculateLatency(modelSize, tokens, batchSize, hardwareType, deploymentMode);
    var cost := CalculateCost(modelSize, tokens, batchSize, hardwareType, deploymentMode, requestsPerHour).value;
    var compatibility := Assess(memory, latency);
    Success(Metrics(
      Inputs(modelSize, tokens, batchSize, hardwareType, deploymentMode, requestsPerHour),
      memory, latency, cost, compatibility,
      Summary(memory.effectiveMemoryGb, latency.totalLatencySeconds, cost.totalCostPerRequest,
              latency.tokensPerSecond, compatibility.performanceScore)))
  }
}
