/** The energy and carbon estimator of core/estimator.py: a linear power model
    driven by CPU utilisation and memory, turned into joules, kilowatt-hours and
    grams of CO2-equivalent. The sampling thread of `measure_execution` is not
    modelled; what it hands over (two series of samples) is a parameter. */
module Estimator {
  import opened PyBuiltins
  import opened Units

  /** The record both entry points return. */
  datatype EnergyMetrics = EnergyMetrics(
    durationSeconds: real,
    cpuPercent: real,
    memoryMb: real,
    energyJoules: real,
    carbonGrams: real,
    sciScore: real)

  /** Share of the TDP that scales with load, and share drawn even when idle. */
  const CpuPowerFactor: real := 0.6
  const CpuBaseline: real := 0.4
  /** Memory draws 0.375 W per gigabyte. */
  const RamWattsPerGb: real := 0.375
  /** TDP assumed for an architecture the table does not know. */
  const DefaultTdp: real := 65.0
  /** Grid intensity (g CO2e per kWh) when the caller gives none. */
  const DefaultCarbonIntensity: real := 475.0
  const MbPerGb: real := 1024.0

  /** TDP in watts per lower-cased architecture name. */
  const CpuTdp: map<string, real> := map["x86_64" := 65.0, "aarch64" := 15.0, "arm64" := 15.0]

  /** TDP lookup with fallback: 15 W exactly for the two ARM names, 65 W for
      x86_64 and for every name the table does not know. */
  function LookupTdp(platform: string): (tdp: real)
    ensures tdp == 15.0 <==> platform == "aarch64" || platform == "arm64"
    ensures tdp == 15.0 || tdp == 65.0
  {
    if platform in CpuTdp then CpuTdp[platform] else DefaultTdp
  }

  function LowerChar(c: char): char
  {
    if 'A' <= c <= 'Z' then (c as int + 32) as char else c
  }

  /** `str.lower()` on ASCII letters: same length, every upper-case ASCII letter
      replaced by its lower-case counterpart, and every other character unchanged. */
  function Lower(s: string): (r: string)
    ensures |r| == |s|
    ensures forall i :: 0 <= i < |r| ==> !('A' <= r[i] <= 'Z')
    ensures forall i :: 0 <= i < |s| && 'A' <= s[i] <= 'Z' ==> r[i] as int == s[i] as int + 32
    ensures forall i :: 0 <= i < |s| && !('A' <= s[i] <= 'Z') ==> r[i] == s[i]
  {
    seq(|s|, i requires 0 <= i < |s| => LowerChar(s[i]))
  }

  /** Two characters that are the same letter in upper and lower case. */
  predicate CaseVariants(x: char, y: char)
  {
    || ('A' <= x <= 'Z' && y as int == x as int + 32)
    || ('A' <= y <= 'Z' && x as int == y as int + 32)
  }

  /** Two names that differ at most in the case of ASCII letters. */
  predicate SameIgnoringAsciiCase(a: string, b: string)
  {
    |a| == |b| && forall i :: 0 <= i < |a| ==> a[i] == b[i] || CaseVariants(a[i], b[i])
  }

  /** Machine names that differ only in the case of ASCII letters lower-case to the
      same platform name, and so get the same TDP. */
  lemma TdpIgnoresAsciiCase(a: string, b: string)
    requires SameIgnoringAsciiCase(a, b)
    ensures Lower(a) == Lower(b)
    ensures LookupTdp(Lower(a)) == LookupTdp(Lower(b))
  {
    forall i | 0 <= i < |a|
      ensures Lower(a)[i] == Lower(b)[i]
    {
      if !CaseVariants(a[i], b[i]) {
        assert a[i] == b[i];
      }
    }
  }

  /** The architecture is lower-cased before the lookup, so its spelling does not matter. */
  lemma TdpIgnoresCase()
    ensures LookupTdp(Lower("ARM64")) == 15.0
    ensures LookupTdp(Lower("AArch64")) == 15.0
    ensures LookupTdp(Lower("X86_64")) == 65.0
  {
    assert Lower("ARM64") == "arm64";
    assert Lower("AArch64") == "aarch64";
  }

  /** Mean of a series of samples; a series with no samples averages to 0. */
  function Average(samples: seq<real>): (avg: real)
    ensures |samples| == 0 ==> avg == 0.0
    ensures |samples| > 0 ==> avg * |samples| as real == Sum(samples)
  {
    if |samples| > 0 then Sum(samples) / |samples| as real else 0.0
  }

  /** If every sample lies in [lo, hi] then so does the average (for an empty
      series, provided 0 lies in [lo, hi]); CPU samples in [0, 100] therefore
      average to a value in [0, 100]. */
  lemma AverageBounded(samples: seq<real>, lo: real, hi: real)
    requires forall i :: 0 <= i < |samples| ==> lo <= samples[i] <= hi
    requires |samples| > 0 || lo <= 0.0 <= hi
    ensures lo <= Average(samples) <= hi
  {
    if |samples| > 0 {
      var n := |samples| as real;
      var avg := Average(samples);
      SumBounds(samples, lo, hi);
      assert avg * n == Sum(samples);
      assert n * lo <= n * avg <= n * hi;
      if avg < lo {
        MultiplyMonotone(n, avg, lo);
      }
      if hi < avg {
        MultiplyMonotone(n, hi, avg);
      }
    }
  }

  class EnergyEstimator {
    /** g CO2e per kWh. */
    const carbonIntensity: real
    /** Lower-cased architecture name. */
    const platform: string
    /** Watts. */
    const tdp: real

    /** The TDP is the one the table gives for the platform. */
    ghost predicate Valid()
    {
      tdp == LookupTdp(platform)
    }

    /** `EnergyEstimator(carbon_intensity=475)`, with the machine name as a parameter. */
    constructor (machine: string, carbonIntensity: real := DefaultCarbonIntensity)
      ensures Valid()
      ensures this.carbonIntensity == carbonIntensity && platform == Lower(machine)
    {
      var p := Lower(machine);
      this.carbonIntensity := carbonIntensity;
      platform := p;
      tdp := LookupTdp(p);
    }

    /** CPU draw: the baseline share of the TDP plus the load share scaled by utilisation. */
    function CpuPower(cpuPercent: real): (watts: real)
      ensures cpuPercent == 0.0 ==> watts == CpuBaseline * tdp
      ensures cpuPercent == 100.0 ==> watts == tdp
    {
      var cpuUtil := cpuPercent / 100.0;
      tdp * (cpuUtil * CpuPowerFactor + CpuBaseline)
    }

    /** Memory draws 0.375 W per GB. */
    function RamPower(memoryGb: real): (watts: real)
      ensures 0.0 <= memoryGb ==> 0.0 <= watts
      ensures memoryGb == 0.0 ==> watts == 0.0
    {
      memoryGb * RamWattsPerGb
    }

    /** The machine's draw is the CPU draw plus the memory draw; an idle machine
        with no memory in use still draws the CPU baseline. */
    function TotalPower(cpuPercent: real, memoryGb: real): (watts: real)
      ensures cpuPercent == 0.0 && memoryGb == 0.0 ==> watts == CpuBaseline * tdp
    {
      CpuPower(cpuPercent) + RamPower(memoryGb)
    }

    /** `_calculate_energy`: energy is power times duration; carbon is energy in kWh
        times the intensity; the SCI score is the carbon; the inputs pass through,
        with memory reported in megabytes. */
    function CalculateEnergy(duration: real, cpuPercent: real, memoryGb: real): (m: EnergyMetrics)
      ensures m.durationSeconds == duration && m.cpuPercent == cpuPercent
      ensures m.memoryMb == memoryGb * MbPerGb
      ensures m.energyJoules == TotalPower(cpuPercent, memoryGb) * duration
      ensures m.carbonGrams == m.energyJoules / JoulesPerKwh * carbonIntensity
      ensures m.sciScore == m.carbonGrams
    {
      var totalPowerWatts := TotalPower(cpuPercent, memoryGb);
      var energyJoules := totalPowerWatts * duration;
      var energyKwh := energyJoules / JoulesPerKwh;
      var carbonGrams := energyKwh * carbonIntensity;
      EnergyMetrics(duration, cpuPercent, memoryGb * MbPerGb, energyJoules, carbonGrams, carbonGrams)
    }

    /** `estimate_from_metrics`: memory arrives in megabytes and is handed on in
        gigabytes; the record gives back the megabytes it was given. */
    function EstimateFromMetrics(duration: real, cpuPercent: real, memoryMb: real): (m: EnergyMetrics)
      ensures m.durationSeconds == duration && m.cpuPercent == cpuPercent
      ensures m.memoryMb == memoryMb
    {
      CalculateEnergy(duration, cpuPercent, memoryMb / MbPerGb)
    }

    /** What `measure_execution` computes once sampling has stopped: the mean CPU
        percentage and mean memory in GB of the samples, fed to the shared
        calculation. It agrees with the metrics entry point given those means. */
    function MeasureFromSamples(duration: real, cpuSamples: seq<real>, memorySamples: seq<real>): (m: EnergyMetrics)
      ensures m == EstimateFromMetrics(duration, Average(cpuSamples), Average(memorySamples) * MbPerGb)
    {
      var avgCpu := Average(cpuSamples);
      var avgMemoryGb := Average(memorySamples);
      EntryPointsAgree(this, duration, avgCpu, avgMemoryGb);
      CalculateEnergy(duration, avgCpu, avgMemoryGb)
    }
  }

  /** For utilisation in [0, 100] the CPU draws between 40% of the TDP (idle) and
      the full TDP (fully loaded), reaching both ends. */
  lemma CpuPowerRange(e: EnergyEstimator, cpuPercent: real)
    requires 0.0 <= e.tdp
    requires 0.0 <= cpuPercent <= 100.0
    ensures CpuBaseline * e.tdp <= e.CpuPower(cpuPercent) <= e.tdp
    ensures cpuPercent == 0.0 ==> e.CpuPower(cpuPercent) == CpuBaseline * e.tdp
    ensures cpuPercent == 100.0 ==> e.CpuPower(cpuPercent) == e.tdp
  {
    var x := cpuPercent / 100.0 * CpuPowerFactor + CpuBaseline;
    assert e.CpuPower(cpuPercent) == e.tdp * x;
    assert CpuBaseline <= x <= 1.0;
    MultiplyMonotone(e.tdp, CpuBaseline, x);
    MultiplyMonotone(e.tdp, x, 1.0);
    if cpuPercent == 0.0 {
      assert x == CpuBaseline;
    }
    if cpuPercent == 100.0 {
      assert x == 1.0;
    }
  }

  lemma MultiplyMonotone(k: real, a: real, b: real)
    requires 0.0 <= k && a <= b
    ensures k * a <= k * b
  {
    assert k * b - k * a == k * (b - a);
  }

  /** More load or more memory never lowers the estimated power. */
  lemma TotalPowerMonotone(e: EnergyEstimator, cpu1: real, cpu2: real, mem1: real, mem2: real)
    requires 0.0 <= e.tdp
    requires cpu1 <= cpu2 && mem1 <= mem2
    ensures e.TotalPower(cpu1, mem1) <= e.TotalPower(cpu2, mem2)
  {
    var x1 := cpu1 / 100.0 * CpuPowerFactor + CpuBaseline;
    var x2 := cpu2 / 100.0 * CpuPowerFactor + CpuBaseline;
    assert e.CpuPower(cpu1) == e.tdp * x1 && e.CpuPower(cpu2) == e.tdp * x2;
    MultiplyMonotone(e.tdp, x1, x2);
    assert e.RamPower(mem1) <= e.RamPower(mem2);
  }

  /** With no load and no memory the energy is the idle draw of the CPU times the duration. */
  lemma EnergyAtZeroLoad(e: EnergyEstimator, duration: real)
    ensures e.CalculateEnergy(duration, 0.0, 0.0).energyJoules == e.tdp * CpuBaseline * duration
  {
  }

  /** A 65 W CPU at 50% with 2 GB for 10 s: 45.5 W + 0.75 W = 46.25 W, so 462.5 J;
      at 475 g/kWh that is 462.5 / 3 600 000 * 475 g. */
  lemma WorkedExample(e: EnergyEstimator)
    requires e.Valid() && e.platform == "x86_64" && e.carbonIntensity == DefaultCarbonIntensity
    ensures e.CpuPower(50.0) == 45.5 && e.RamPower(2.0) == 0.75
    ensures e.CalculateEnergy(10.0, 50.0, 2.0).energyJoules == 462.5
    ensures e.CalculateEnergy(10.0, 50.0, 2.0).carbonGrams == 462.5 / 3600000.0 * 475.0
  {
    assert e.tdp == 65.0;
  }

  /** Non-negative inputs give non-negative energy, carbon and SCI score. */
  lemma MetricsNonNegative(e: EnergyEstimator, duration: real, cpuPercent: real, memoryGb: real)
    requires 0.0 <= e.tdp && 0.0 <= e.carbonIntensity
    requires 0.0 <= duration && 0.0 <= cpuPercent && 0.0 <= memoryGb
    ensures 0.0 <= e.CalculateEnergy(duration, cpuPercent, memoryGb).energyJoules
    ensures 0.0 <= e.CalculateEnergy(duration, cpuPercent, memoryGb).carbonGrams
    ensures 0.0 <= e.CalculateEnergy(duration, cpuPercent, memoryGb).sciScore
  {
    var p := e.TotalPower(cpuPercent, memoryGb);
    TotalPowerMonotone(e, 0.0, cpuPercent, 0.0, memoryGb);
    assert 0.0 <= e.TotalPower(0.0, 0.0);
    assert 0.0 <= p * duration;
    var joules := p * duration;
    assert 0.0 <= joules / JoulesPerKwh * e.carbonIntensity;
  }

  /** The metrics entry point, given the memory in megabytes, computes exactly
      what the sampling entry point computes from gigabytes. */
  lemma EntryPointsAgree(e: EnergyEstimator, duration: real, cpuPercent: real, memoryGb: real)
    ensures e.EstimateFromMetrics(duration, cpuPercent, memoryGb * MbPerGb)
         == e.CalculateEnergy(duration, cpuPercent, memoryGb)
  {
    assert memoryGb * MbPerGb / MbPerGb == memoryGb;
  }

  /** CPU samples in [0, 100] give a sampled CPU draw between the idle draw and the TDP. */
  lemma SampledCpuPowerInRange(e: EnergyEstimator, duration: real, cpuSamples: seq<real>, memorySamples: seq<real>)
    requires 0.0 <= e.tdp
    requires forall i :: 0 <= i < |cpuSamples| ==> 0.0 <= cpuSamples[i] <= 100.0
    ensures 0.0 <= e.MeasureFromSamples(duration, cpuSamples, memorySamples).cpuPercent <= 100.0
    ensures CpuBaseline * e.tdp <= e.CpuPower(Average(cpuSamples)) <= e.tdp
  {
    AverageBounded(cpuSamples, 0.0, 100.0);
    CpuPowerRange(e, Average(cpuSamples));
  }
}
