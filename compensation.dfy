/**
 * The KPI compensation engine: MemStorage.calculatePerformance
 * (server/storage.ts), which turns a month's six counters and the KPI
 * settings into a base salary, a KPI bonus and a total salary.
 *
 * Amounts are exact rationals (`real`); JavaScript's Math.round, which
 * rounds halves towards +infinity, is Round below.
 */
module Compensation {
  import opened Schema

  /** Math.round: the integer nearest to x, halves going up. */
  function Round(x: real): (r: int)
    ensures r as real <= x + 0.5 < r as real + 1.0
  {
    (x + 0.5).Floor
  }

  /** JavaScript's `v || d` on a number: 0 is falsy and falls back to d. */
  function OrElse(v: int, d: int): int
  {
    if v == 0 then d else v
  }

  function Min(a: real, b: real): real
  {
    if a <= b then a else b
  }

  /** Completion percentage of `done` against `target`; 0 when the target is not positive. */
  function Percentage(done: int, target: int): (pct: real)
    ensures target <= 0 ==> pct == 0.0
    ensures target > 0 ==> pct * target as real == 100.0 * done as real
  {
    if target > 0 then (done as real / target as real) * 100.0 else 0.0
  }

  /** The settings getKpiSettings materialises when none exist. */
  function DefaultSettings(id: int): KpiSettings
  {
    KpiSettings(id, 15, 20, 25, 8, 12, 10, 80, 80, 100, 75, 50, 30, 3000, 50, 50, "")
  }

  function TotalVisits(c: Counts): int
  {
    c.largeVisits + c.mediumVisits + c.smallVisits
  }

  function TotalContracts(c: Counts): int
  {
    c.largeContracts + c.mediumContracts + c.smallContracts
  }

  function VisitTargets(s: KpiSettings): int
  {
    s.targetLargeVisit + s.targetMediumVisit + s.targetSmallVisit
  }

  function ContractTargets(s: KpiSettings): int
  {
    s.targetLargeContract + s.targetMediumContract + s.targetSmallContract
  }

  function VisitPercentage(c: Counts, s: KpiSettings): real
  {
    Percentage(TotalVisits(c), VisitTargets(s))
  }

  function ContractPercentage(c: Counts, s: KpiSettings): real
  {
    Percentage(TotalContracts(c), ContractTargets(s))
  }

  /** The base salary: the base-salary percentage of the target salary, rounded. */
  function BaseSalary(s: KpiSettings): int
  {
    Round(s.totalTargetSalary as real * (s.baseSalaryPercentage as real / 100.0))
  }

  /** What is left of the target salary for the KPI bonus. */
  function PotentialKpiBonus(s: KpiSettings): int
  {
    s.totalTargetSalary - BaseSalary(s)
  }

  /** The effective contract threshold: a 0 threshold stands for 80. */
  function ContractThreshold(s: KpiSettings): int
  {
    OrElse(s.contractThreshold, 80)
  }

  /** The contracts' share of the bonus pool; a 0 share stands for 50%. */
  function ContractKpiPortion(s: KpiSettings): real
  {
    PotentialKpiBonus(s) as real * (OrElse(s.contractKpiPercentage, 50) as real / 100.0)
  }

  /** The visits' share of the bonus pool; a 0 share stands for 50%. */
  function VisitKpiPortion(s: KpiSettings): real
  {
    PotentialKpiBonus(s) as real * (OrElse(s.visitKpiPercentage, 50) as real / 100.0)
  }

  /** The per-contract bonuses summed over the three tiers. */
  function RawContractBonus(c: Counts, s: KpiSettings): int
  {
    c.largeContracts * s.largeCafeBonus
    + c.mediumContracts * s.mediumCafeBonus
    + c.smallContracts * s.smallCafeBonus
  }

  /**
   * The contract bonus: nothing below the (inclusive) threshold, otherwise
   * the raw bonus capped at the contracts' portion. It is not rounded.
   */
  function ContractBonus(c: Counts, s: KpiSettings): (bonus: real)
    ensures ContractPercentage(c, s) < ContractThreshold(s) as real ==> bonus == 0.0
    ensures ContractPercentage(c, s) >= ContractThreshold(s) as real ==>
      && bonus <= RawContractBonus(c, s) as real
      && bonus <= ContractKpiPortion(s)
      && (bonus == RawContractBonus(c, s) as real || bonus == ContractKpiPortion(s))
  {
    if ContractPercentage(c, s) >= ContractThreshold(s) as real
    then Min(RawContractBonus(c, s) as real, ContractKpiPortion(s))
    else 0.0
  }

  /**
   * The visit bonus: nothing below the (inclusive) threshold, which has no
   * default, otherwise the visits' portion scaled by the completion
   * percentage and rounded. It is not capped.
   */
  function VisitBonus(c: Counts, s: KpiSettings): (bonus: int)
    ensures VisitPercentage(c, s) < s.visitThreshold as real ==> bonus == 0
    ensures VisitPercentage(c, s) >= s.visitThreshold as real ==>
      bonus as real <= VisitKpiPortion(s) * (VisitPercentage(c, s) / 100.0) + 0.5 < bonus as real + 1.0
  {
    if VisitPercentage(c, s) >= s.visitThreshold as real
    then Round(VisitKpiPortion(s) * (VisitPercentage(c, s) / 100.0))
    else 0
  }

  /**
   * calculatePerformance: a copy of the record with the three salary fields
   * recomputed from its counters; everything else is kept.
   */
  function CalculatePerformance(p: MonthlyPerformance, s: KpiSettings): (r: MonthlyPerformance)
    ensures r.id == p.id && r.period == p.period && r.counts == p.counts
    ensures r.baseSalary == BaseSalary(s)
    ensures r.kpiBonus == ContractBonus(p.counts, s) + VisitBonus(p.counts, s) as real
    ensures r.totalSalary == r.baseSalary as real + r.kpiBonus
  {
    var baseSalary := BaseSalary(s);
    var kpiBonus := ContractBonus(p.counts, s) + VisitBonus(p.counts, s) as real;
    p.(baseSalary := baseSalary, kpiBonus := kpiBonus, totalSalary := baseSalary as real + kpiBonus)
  }

  /** A record is priced under s when its salary fields are what the engine gives. */
  predicate Priced(p: MonthlyPerformance, s: KpiSettings)
  {
    CalculatePerformance(p, s) == p
  }

  /** Re-running the engine on its own output changes nothing. */
  lemma CalculatePerformanceIdempotent(p: MonthlyPerformance, s: KpiSettings)
    ensures Priced(CalculatePerformance(p, s), s)
  {
  }

  /** The salary fields depend on the counters and the settings only. */
  lemma SalaryDependsOnlyOnCounts(p: MonthlyPerformance, q: MonthlyPerformance, s: KpiSettings)
    requires p.counts == q.counts
    ensures CalculatePerformance(p, s).baseSalary == CalculatePerformance(q, s).baseSalary
    ensures CalculatePerformance(p, s).kpiBonus == CalculatePerformance(q, s).kpiBonus
    ensures CalculatePerformance(p, s).totalSalary == CalculatePerformance(q, s).totalSalary
  {
  }
}
