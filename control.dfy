/** The numeric policy of the health monitor: the derived metrics, the
    hysteresis controller that moves the resource factor, and the timer's
    pseudo-random workload perturbation, all on plain values. */
module Control {
  import opened DecimalText

  const MAX_WORKLOAD_LEVEL: nat := 100
  const MIN_RESOURCE_FACTOR: nat := 1
  const MAX_RESOURCE_FACTOR: nat := 10
  const INITIAL_RESOURCE_FACTOR: nat := 5
  /** Strictly above this level the controller adds a resource unit. */
  const HIGH_WORKLOAD: nat := 80
  /** Strictly below this level the controller removes a resource unit. */
  const LOW_WORKLOAD: nat := 20
  /** The timer perturbs the workload on every tick count divisible by this. */
  const PERTURB_PERIOD: nat := 10
  /** The perturbation is `draw % PERTURB_SPAN - PERTURB_OFFSET`, in [-10, 9]. */
  const PERTURB_SPAN: nat := 20
  const PERTURB_OFFSET: nat := 10
  /** `get_random_u32()` yields a value below this. */
  const U32_MODULUS: nat := 0x1_0000_0000

  function Min(a: nat, b: nat): nat { if a <= b then a else b }

  /** Simulated GPU temperature for a workload level, in degrees Celsius. */
  function GpuTemp(level: nat): (t: nat)
    ensures level <= MAX_WORKLOAD_LEVEL ==> 50 <= t <= 100
  {
    50 + level / 2
  }

  /** Simulated memory pressure for a workload level, in percent. */
  function MemPressure(level: nat): (p: nat)
    ensures p <= level
    ensures level <= MAX_WORKLOAD_LEVEL ==> p <= 66
  {
    level * 2 / 3
  }

  /** What a value injected through either write path becomes: it is capped
      at the maximum level (an unsigned value needs no lower clamp). */
  function ClampLevel(value: nat): (level: nat)
    ensures level <= MAX_WORKLOAD_LEVEL
    ensures value <= MAX_WORKLOAD_LEVEL ==> level == value
    ensures value > MAX_WORKLOAD_LEVEL ==> level == MAX_WORKLOAD_LEVEL
  {
    if value > MAX_WORKLOAD_LEVEL then MAX_WORKLOAD_LEVEL else value
  }

  predicate FactorInRange(factor: nat) { MIN_RESOURCE_FACTOR <= factor <= MAX_RESOURCE_FACTOR }

  /** The part of the monitor's record the controller owns. */
  datatype Output = Output(factor: nat, alerts: nat)

  /** One run of the controller on a sampled workload level. */
  function Step(level: nat, c: Output): (r: Output)
    ensures FactorInRange(c.factor) ==> FactorInRange(r.factor)
    ensures r.factor == c.factor || r.factor == c.factor + 1 || r.factor + 1 == c.factor
    ensures r.alerts == c.alerts || r.alerts == c.alerts + 1
    // an alert is raised exactly on the step that brings the factor up to the maximum
    ensures c.factor <= MAX_RESOURCE_FACTOR ==>
              (r.alerts == c.alerts + 1 <==> c.factor < MAX_RESOURCE_FACTOR == r.factor)
    ensures level > HIGH_WORKLOAD && c.factor < MAX_RESOURCE_FACTOR ==> r.factor == c.factor + 1
    ensures level > HIGH_WORKLOAD && c.factor >= MAX_RESOURCE_FACTOR ==> r == c
    ensures level < LOW_WORKLOAD && c.factor > MIN_RESOURCE_FACTOR ==> r == Output(c.factor - 1, c.alerts)
    ensures level < LOW_WORKLOAD && c.factor <= MIN_RESOURCE_FACTOR ==> r == c
    ensures LOW_WORKLOAD <= level <= HIGH_WORKLOAD ==> r == c
  {
    if level > HIGH_WORKLOAD && c.factor < MAX_RESOURCE_FACTOR then
      var f := c.factor + 1;
      Output(f, if f == MAX_RESOURCE_FACTOR then c.alerts + 1 else c.alerts)
    else if level < LOW_WORKLOAD && c.factor > MIN_RESOURCE_FACTOR then
      Output(c.factor - 1, c.alerts)
    else
      c
  }

  /** `n` controller runs while the workload stays at `level`. */
  function Steps(level: nat, c: Output, n: nat): Output
    decreases n
  {
    if n == 0 then c else Steps(level, Step(level, c), n - 1)
  }

  /** The controller's output after running once on each level in turn. */
  function Run(levels: seq<nat>, c: Output): Output
    decreases |levels|
  {
    if levels == [] then c else Run(levels[1..], Step(levels[0], c))
  }

  /** Whatever the workload does, the factor never leaves [1, 10], moves by at
      most one unit per run, and alerts are only ever added. */
  lemma {:induction false} RunStaysInRange(levels: seq<nat>, c: Output)
    requires FactorInRange(c.factor)
    ensures FactorInRange(Run(levels, c).factor)
    ensures Run(levels, c).alerts >= c.alerts
    ensures Run(levels, c).factor <= c.factor + |levels|
    ensures c.factor <= Run(levels, c).factor + |levels|
    decreases |levels|
  {
    if levels != [] {
      RunStaysInRange(levels[1..], Step(levels[0], c));
    }
  }

  /** Held above the high-water mark, the factor climbs to the maximum within
      `10 - factor` runs and stays there, with exactly one alert if it was not
      already saturated and none if it was. */
  lemma {:induction false} HighLoadSaturates(level: nat, c: Output, n: nat)
    requires level > HIGH_WORKLOAD && FactorInRange(c.factor)
    requires n >= MAX_RESOURCE_FACTOR - c.factor
    ensures Steps(level, c, n) ==
              Output(MAX_RESOURCE_FACTOR,
                     if c.factor < MAX_RESOURCE_FACTOR then c.alerts + 1 else c.alerts)
    decreases n
  {
    if n > 0 {
      HighLoadSaturates(level, Step(level, c), n - 1);
    }
  }

  /** Held below the low-water mark, the factor falls to the minimum within
      `factor - 1` runs and stays there; no alert is raised. */
  lemma {:induction false} LowLoadBottomsOut(level: nat, c: Output, n: nat)
    requires level < LOW_WORKLOAD && FactorInRange(c.factor)
    requires n >= c.factor - MIN_RESOURCE_FACTOR
    ensures Steps(level, c, n) == Output(MIN_RESOURCE_FACTOR, c.alerts)
    decreases n
  {
    if n > 0 {
      LowLoadBottomsOut(level, Step(level, c), n - 1);
    }
  }

  /** Inside the stable band the controller never changes anything. */
  lemma {:induction false} StableBandHolds(level: nat, c: Output, n: nat)
    requires LOW_WORKLOAD <= level <= HIGH_WORKLOAD
    ensures Steps(level, c, n) == c
    decreases n
  {
    if n > 0 {
      StableBandHolds(level, c, n - 1);
    }
  }

  /** From the initial factor 5 with the level held above 80: five runs (or
      more) reach factor 10 with exactly one alert. */
  lemma HighLoadFromStart(level: nat, alerts: nat, n: nat)
    requires level > HIGH_WORKLOAD && n >= 5
    ensures Steps(level, Output(INITIAL_RESOURCE_FACTOR, alerts), n) == Output(MAX_RESOURCE_FACTOR, alerts + 1)
  {
    HighLoadSaturates(level, Output(INITIAL_RESOURCE_FACTOR, alerts), n);
  }

  /** From the initial factor 5 with the level held below 20: four runs (or
      more) reach factor 1, and it decreases no further. */
  lemma LowLoadFromStart(level: nat, alerts: nat, n: nat)
    requires level < LOW_WORKLOAD && n >= 4
    ensures Steps(level, Output(INITIAL_RESOURCE_FACTOR, alerts), n) == Output(MIN_RESOURCE_FACTOR, alerts)
  {
    LowLoadBottomsOut(level, Output(INITIAL_RESOURCE_FACTOR, alerts), n);
  }

  /** The timer's new workload level, computed as the source does in
      `unsigned long`: `level + draw % 20 - 10` wraps modulo 2^64 when it
      would go below zero, and the upper clamp then turns the huge value
      into 100. A lower clamp would never fire. */
  function Perturb(level: nat, draw: nat): (r: nat)
    requires level <= MAX_WORKLOAD_LEVEL
    ensures r <= MAX_WORKLOAD_LEVEL
    ensures level + draw % PERTURB_SPAN >= PERTURB_OFFSET ==>
              r == Min(level + draw % PERTURB_SPAN - PERTURB_OFFSET, MAX_WORKLOAD_LEVEL)
    ensures level + draw % PERTURB_SPAN < PERTURB_OFFSET ==> r == MAX_WORKLOAD_LEVEL
  {
    var sum := level + draw % PERTURB_SPAN - PERTURB_OFFSET;
    var raw := sum % ULONG_MODULUS;
    assert 0 <= sum < ULONG_MODULUS ==> raw == sum;
    assert sum < 0 ==> raw == sum + ULONG_MODULUS;
    if raw > MAX_WORKLOAD_LEVEL then MAX_WORKLOAD_LEVEL else raw
  }
}
