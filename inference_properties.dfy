/** What the inference estimator promises across calls: which inputs each
    estimate ignores, how the estimates grow with the number of tokens, what
    the catalogs rule out, and the estimator's own worked examples. */
module InferenceProperties {
  import opened Wrappers
  import opened InferenceCalculator

  // ---------------------------------------------------------------------
  // Inputs that are accepted and never read

  /** The memory estimate does not depend on the deployment mode */
  lemma MemoryIgnoresDeploymentMode(modelSize: string, tokens: int, batchSize: int, hardwareType: string,
                                    mode1: string, mode2: string)
    ensures CalculateMemoryUsage(modelSize, tokens, batchSize, hardwareType, mode1)
         == CalculateMemoryUsage(modelSize, tokens, batchSize, hardwareType, mode2)
  {
  }

  /** The latency estimate does not depend on the batch size */
  lemma LatencyIgnoresBatchSize(modelSize: string, tokens: int, batch1: int, batch2: int,
                                hardwareType: string, deploymentMode: string)
    ensures CalculateLatency(modelSize, tokens, batch1, hardwareType, deploymentMode)
         == CalculateLatency(modelSize, tokens, batch2, hardwareType, deploymentMode)
  {
  }

  // ---------------------------------------------------------------------
  // Growth with the number of tokens

  lemma IntMulStrict(t1: int, t2: int, b: int)
    requires t1 < t2 && b > 0
    ensures t1 * b < t2 * b
  {
  }

  lemma RealMulStrict(x: real, y: real, c: real)
    requires x < y && c > 0.0
    ensures x * c < y * c
  {
  }

  /** With a positive batch, more tokens means a strictly larger key/value
      cache and a strictly larger total */
  lemma {:induction false} MemoryIncreasesWithTokens(modelSize: string, t1: int, t2: int, batchSize: int,
                                                     hardwareType: string, deploymentMode: string)
    requires modelSize in ModelSizes && hardwareType in HardwareTypes
    requires batchSize > 0 && t1 < t2
    ensures CalculateMemoryUsage(modelSize, t1, batchSize, hardwareType, deploymentMode).value.kvCacheMemoryGb
          < CalculateMemoryUsage(modelSize, t2, batchSize, hardwareType, deploymentMode).value.kvCacheMemoryGb
    ensures CalculateMemoryUsage(modelSize, t1, batchSize, hardwareType, deploymentMode).value.totalMemoryGb
          < CalculateMemoryUsage(modelSize, t2, batchSize, hardwareType, deploymentMode).value.totalMemoryGb
  {
    var p := ModelSpecsCatalog()[modelSize].parametersBillions;
    IntMulStrict(t1, t2, batchSize);
    var x, y := (t1 * batchSize) as real, (t2 * batchSize) as real;
    RealMulStrict(x, y, p);
    RealMulStrict(x * p, y * p, 8.0);
    RealMulStrict(x * p, y * p, 0.1);
  }

  /** Both requests known and nonzero: more tokens means a strictly longer
      total latency */
  lemma {:induction false} LatencyIncreasesWithTokens(modelSize: string, t1: int, t2: int, batchSize: int,
                                                      hardwareType: string, deploymentMode: string)
    requires modelSize in ModelSizes && hardwareType in HardwareTypes && deploymentMode in DeploymentModes
    requires t1 != 0 && t2 != 0 && t1 < t2
    ensures CalculateLatency(modelSize, t1, batchSize, hardwareType, deploymentMode).value.totalLatencyMs
          < CalculateLatency(modelSize, t2, batchSize, hardwareType, deploymentMode).value.totalLatencyMs
  {
    var a, b, c := BaseLatencyPerTokenMs()[modelSize], HardwareEfficiency()[hardwareType],
                   DeploymentFactors()[deploymentMode];
    ProductZero(t1 as real, a, b, c);
    ProductZero(t2 as real, a, b, c);
    LatencyOfMonotone(t1 as real, t2 as real, a, b, c);
  }

  lemma LatencyOfMonotone(t1: real, t2: real, a: real, b: real, c: real)
    requires t1 < t2 && a > 0.0 && b > 0.0 && c > 0.0
    requires t1 * a * b * c / 1000.0 != 0.0 && t2 * a * b * c / 1000.0 != 0.0
    ensures LatencyOf(t1, a, b, c).totalLatencyMs < LatencyOf(t2, a, b, c).totalLatencyMs
  {
    RealMulStrict(t1, t2, a);
    RealMulStrict(t1 * a, t2 * a, b);
    RealMulStrict(t1 * a * b, t2 * a * b, c);
  }

  /** Both requests known and nonzero: more tokens means a strictly larger
      total cost per request */
  lemma {:induction false} CostIncreasesWithTokens(modelSize: string, t1: int, t2: int, batchSize: int,
                                                   hardwareType: string, deploymentMode: string,
                                                   requestsPerHour: int)
    requires modelSize in ModelSizes && hardwareType in HardwareTypes && deploymentMode in DeploymentModes
    requires t1 != 0 && t2 != 0 && t1 < t2
    ensures CalculateCost(modelSize, t1, batchSize, hardwareType, deploymentMode, requestsPerHour).value.totalCostPerRequest
          < CalculateCost(modelSize, t2, batchSize, hardwareType, deploymentMode, requestsPerHour).value.totalCostPerRequest
  {
    LatencyIncreasesWithTokens(modelSize, t1, t2, batchSize, hardwareType, deploymentMode);
    var l1 := CalculateLatency(modelSize, t1, batchSize, hardwareType, deploymentMode).value;
    var l2 := CalculateLatency(modelSize, t2, batchSize, hardwareType, deploymentMode).value;
    assert l1.totalLatencySeconds < l2.totalLatencySeconds;
    var hardware := HardwareSpecsCatalog()[hardwareType];
    CostOfMonotone(l1.totalLatencySeconds, l2.totalLatencySeconds, hardware.costPerHour, hardware.powerConsumptionW,
                   t1 as real, t2 as real, requestsPerHour as real);
  }

  lemma CostOfMonotone(s1: real, s2: real, costPerHour: real, powerConsumptionW: real,
                       t1: real, t2: real, requestsPerHour: real)
    requires s1 < s2 && costPerHour > 0.0 && powerConsumptionW > 0.0 && t1 != 0.0 && t2 != 0.0
    ensures CostOf(s1, costPerHour, powerConsumptionW, t1, requestsPerHour).totalCostPerRequest
          < CostOf(s2, costPerHour, powerConsumptionW, t2, requestsPerHour).totalCostPerRequest
  {
    var rate := costPerHour + powerConsumptionW / 1000.0 * EnergyPricePerKwh;
    RealMulStrict(s1, s2, rate);
  }

  /** The request rate only scales the hourly, daily and monthly costs (see
      `CostOf`): the cost of one request does not depend on it */
  lemma CostPerRequestIgnoresRequestRate(modelSize: string, tokens: int, batchSize: int, hardwareType: string,
                                         deploymentMode: string, rate1: int, rate2: int)
    requires modelSize in ModelSizes && hardwareType in HardwareTypes && deploymentMode in DeploymentModes
    requires tokens != 0
    ensures CalculateCost(modelSize, tokens, batchSize, hardwareType, deploymentMode, rate1).value.totalCostPerRequest
         == CalculateCost(modelSize, tokens, batchSize, hardwareType, deploymentMode, rate2).value.totalCostPerRequest
  {
    var seconds := CalculateLatency(modelSize, tokens, batchSize, hardwareType, deploymentMode).value.totalLatencySeconds;
    var hardware := HardwareSpecsCatalog()[hardwareType];
    var c1 := CostOf(seconds, hardware.costPerHour, hardware.powerConsumptionW, tokens as real, rate1 as real);
    var c2 := CostOf(seconds, hardware.costPerHour, hardware.powerConsumptionW, tokens as real, rate2 as real);
    assert c1.totalCostPerRequest == c2.totalCostPerRequest;
  }

  /** Throughput is a property of the configuration alone: any two nonzero
      token counts give the same tokens per second */
  lemma {:induction false} ThroughputIndependentOfTokens(modelSize: string, t1: int, t2: int, batchSize: int,
                                                         hardwareType: string, deploymentMode: string)
    requires modelSize in ModelSizes && hardwareType in HardwareTypes && deploymentMode in DeploymentModes
    requires t1 != 0 && t2 != 0
    ensures CalculateLatency(modelSize, t1, batchSize, hardwareType, deploymentMode).value.tokensPerSecond
         == CalculateLatency(modelSize, t2, batchSize, hardwareType, deploymentMode).value.tokensPerSecond
  {
    var a, b, c := BaseLatencyPerTokenMs()[modelSize], HardwareEfficiency()[hardwareType],
                   DeploymentFactors()[deploymentMode];
    ThroughputOfFactors(t1 as real, a, b, c);
    ThroughputOfFactors(t2 as real, a, b, c);
  }

  /** Tokens per second is 1000 over the latency of one token, in milliseconds */
  lemma ThroughputOfFactors(t: real, a: real, b: real, c: real)
    requires t != 0.0 && a > 0.0 && b > 0.0 && c > 0.0
    ensures t * a * b * c / 1000.0 != 0.0
    ensures LatencyOf(t, a, b, c).tokensPerSecond == 1000.0 / (a * b * c)
  {
    ProductZero(t, a, b, c);
    var l := LatencyOf(t, a, b, c);
    var k := a * b * c;
    assert t * a * b * c == t * k;
    ScaleCancel(t, k, l.totalLatencySeconds, l.tokensPerSecond);
    assert k > 0.0;
  }

  lemma ScaleCancel(t: real, k: real, seconds: real, tps: real)
    requires t != 0.0
    requires seconds * 1000.0 == t * k
    requires tps * seconds == t
    ensures tps * k == 1000.0
  {
    calc {
      t * (tps * k);
      tps * (t * k);
      tps * (seconds * 1000.0);
      (tps * seconds) * 1000.0;
      t * 1000.0;
    }
  }

  // ---------------------------------------------------------------------
  // Catalog facts

  /** GPT-4 fits on no catalog hardware: its weights alone, inflated by its
      memory efficiency, need 350 / 0.9 GB, more than the largest VRAM */
  lemma {:induction false} Gpt4NeverFits(tokens: int, batchSize: int, hardwareType: string, deploymentMode: string)
    requires tokens >= 0 && batchSize >= 0 && hardwareType in HardwareTypes
    ensures !CalculateMemoryUsage("GPT-4", tokens, batchSize, hardwareType, deploymentMode).value.memoryFits
  {
    var m := CalculateMemoryUsage("GPT-4", tokens, batchSize, hardwareType, deploymentMode).value;
    var x := (tokens * batchSize) as real;
    assert tokens * batchSize >= 0;
    NonNegativeTerms(x, 175.0);
    assert m.totalMemoryGb >= 350.0;
    assert m.effectiveMemoryGb * 0.9 >= 350.0;
    assert m.hardwareMemoryGb <= 80.0;
  }

  lemma NonNegativeProduct(x: real, y: real)
    requires x >= 0.0 && y >= 0.0
    ensures x * y >= 0.0
  {
  }

  /** Both workload terms of the memory estimate are nonnegative */
  lemma NonNegativeTerms(x: real, p: real)
    requires x >= 0.0 && p >= 0.0
    ensures x * p * 8.0 / GiB >= 0.0 && x * p * 0.1 / GiB >= 0.0
  {
    NonNegativeProduct(x, p);
  }

  lemma NonNegativeFactor(x: real, k: real, y: real)
    requires k > 0.0 && y >= 0.0 && x * k == y
    ensures x >= 0.0
  {
    if x < 0.0 {
      RealMulStrict(x, 0.0, k);
    }
  }

  /** A nonnegative workload uses a nonnegative share of the VRAM */
  lemma {:induction false} MemoryUtilizationNonNegative(modelSize: string, tokens: int, batchSize: int,
                                                        hardwareType: string, deploymentMode: string)
    requires modelSize in ModelSizes && hardwareType in HardwareTypes
    requires tokens >= 0 && batchSize >= 0
    ensures CalculateMemoryUsage(modelSize, tokens, batchSize, hardwareType, deploymentMode)
              .value.memoryUtilizationPercent >= 0.0
  {
    var model := ModelSpecsCatalog()[modelSize];
    assert tokens * batchSize >= 0;
    NonNegativeTerms((tokens * batchSize) as real, model.parametersBillions);
    UtilizationNonNegative(CalculateMemoryUsage(modelSize, tokens, batchSize, hardwareType, deploymentMode).value,
                           model.memoryEfficiency);
  }

  lemma UtilizationNonNegative(m: MemoryUsage, efficiency: real)
    requires m.modelMemoryGb >= 0.0 && m.kvCacheMemoryGb >= 0.0 && m.activationMemoryGb >= 0.0
    requires m.totalMemoryGb == m.modelMemoryGb + m.kvCacheMemoryGb + m.activationMemoryGb
    requires efficiency > 0.0 && m.effectiveMemoryGb * efficiency == m.totalMemoryGb
    requires m.hardwareMemoryGb > 0.0 && m.memoryUtilizationPercent * m.hardwareMemoryGb == m.effectiveMemoryGb * 100.0
    ensures m.memoryUtilizationPercent >= 0.0
  {
    NonNegativeFactor(m.effectiveMemoryGb, efficiency, m.totalMemoryGb);
    NonNegativeFactor(m.memoryUtilizationPercent, m.hardwareMemoryGb, m.effectiveMemoryGb * 100.0);
  }

  /** A positive number of tokens takes a positive time */
  lemma {:induction false} LatencyPositive(modelSize: string, tokens: int, batchSize: int,
                                           hardwareType: string, deploymentMode: string)
    requires modelSize in ModelSizes && hardwareType in HardwareTypes && deploymentMode in DeploymentModes
    requires tokens > 0
    ensures CalculateLatency(modelSize, tokens, batchSize, hardwareType, deploymentMode).value.totalLatencyMs > 0.0
  {
    var a, b, c := BaseLatencyPerTokenMs()[modelSize], HardwareEfficiency()[hardwareType],
                   DeploymentFactors()[deploymentMode];
    assert a > 0.0 && b > 0.0 && c > 0.0;
    ProductPositive(tokens as real, a, b, c);
  }

  lemma ProductPositive(t: real, a: real, b: real, c: real)
    requires t > 0.0 && a > 0.0 && b > 0.0 && c > 0.0
    ensures t * a * b * c > 0.0
  {
    RealMulStrict(0.0, t, a);
    RealMulStrict(0.0, t * a, b);
    RealMulStrict(0.0, t * a * b, c);
  }

  /** A nonnegative workload scores between 0 and 100 */
  lemma {:induction false} PerformanceScoreInRange(modelSize: string, tokens: int, batchSize: int,
                                                   hardwareType: string, deploymentMode: string,
                                                   requestsPerHour: int)
    requires modelSize in ModelSizes && hardwareType in HardwareTypes && deploymentMode in DeploymentModes
    requires tokens > 0 && batchSize >= 0
    ensures 0.0 <= CalculateInferenceMetrics(modelSize, tokens, batchSize, hardwareType, deploymentMode,
                                             requestsPerHour).value.summary.performanceScore <= 100.0
  {
    MemoryUtilizationNonNegative(modelSize, tokens, batchSize, hardwareType, deploymentMode);
    LatencyPositive(modelSize, tokens, batchSize, hardwareType, deploymentMode);
  }

  /** A negative token count is accepted, and its negative latency pushes the
      score above 100 */
  lemma NegativeTokensScoreAboveHundred()
    ensures CalculateInferenceMetrics("7B", -1000, 1, "RTX4090", "local", 1).Success?
    ensures CalculateInferenceMetrics("7B", -1000, 1, "RTX4090", "local", 1).value.summary.performanceScore > 100.0
  {
    var lat := CalculateLatency("7B", -1000, 1, "RTX4090", "local").value;
    assert lat.totalLatencyMs == -20000.0;
    var mem := CalculateMemoryUsage("7B", -1000, 1, "RTX4090", "local").value;
    assert mem.totalMemoryGb > 13.0;
    assert mem.memoryUtilizationPercent > 0.0;
  }

  // ---------------------------------------------------------------------
  // Worked examples

  /** 7B on an RTX 4090, 1024 tokens, local: 20480 ms at 50 tokens per second,
      the memory fits, and only the two latency advisories are given */
  lemma WorkedExample7bOnRtx4090()
    ensures CalculateInferenceMetrics("7B", 1024, 1, "RTX4090", "local", 10).Success?
    ensures
      var m := CalculateInferenceMetrics("7B", 1024, 1, "RTX4090", "local", 10).value;
      && m.latency.totalLatencyMs == 20480.0
      && m.latency.tokensPerSecond == 50.0
      && m.memory.memoryFits
      && m.compatibility.recommendations == [LatencyAdvice, HighLatencyAdvice]
  {
    Example7bEstimates();
  }

  /** The two estimates of that configuration, by the numbers */
  lemma Example7bEstimates()
    ensures CalculateLatency("7B", 1024, 1, "RTX4090", "local").Success?
    ensures var lat := CalculateLatency("7B", 1024, 1, "RTX4090", "local").value;
      lat.totalLatencyMs == 20480.0 && lat.tokensPerSecond == 50.0
    ensures CalculateMemoryUsage("7B", 1024, 1, "RTX4090", "local").Success?
    ensures var mem := CalculateMemoryUsage("7B", 1024, 1, "RTX4090", "local").value;
      mem.memoryFits && mem.memoryUtilizationPercent < 80.0
  {
    var lat := CalculateLatency("7B", 1024, 1, "RTX4090", "local").value;
    assert lat.totalLatencyMs == 20480.0;
    assert lat.totalLatencySeconds == 20.48;
    var mem := CalculateMemoryUsage("7B", 1024, 1, "RTX4090", "local").value;
    assert mem.totalMemoryGb < 15.0;
    assert mem.effectiveMemoryGb < 18.0;
    assert mem.memoryUtilizationPercent < 80.0;
  }

  /** GPT-4 on an H100 in the cloud, 4096 tokens: 4096 * 67 * 0.4 * 1.1 ms */
  lemma WorkedExampleGpt4OnH100Cloud()
    ensures CalculateLatency("GPT-4", 4096, 1, "H100", "cloud").Success?
    ensures CalculateLatency("GPT-4", 4096, 1, "H100", "cloud").value.totalLatencyMs == 120750.08
  {
  }
}
