/**
 * Properties of the compensation engine: the `||` defaults, the asymmetry
 * between the capped contract bonus and the uncapped visit bonus, that more
 * activity never lowers pay under sane settings, and worked examples under
 * the default settings.
 */
module CompensationProperties {
  import opened Schema
  import opened Compensation

  /** Under the default target salary and base percentage the base salary is 900. */
  lemma DefaultBaseSalary(s: KpiSettings)
    requires s.totalTargetSalary == 3000 && s.baseSalaryPercentage == 30
    ensures BaseSalary(s) == 900
  {
    assert s.totalTargetSalary as real * (s.baseSalaryPercentage as real / 100.0) == 900.0;
  }

  /** A 0 contract share behaves exactly like a 50% share. */
  lemma ZeroContractShareMeansFifty(c: Counts, s: KpiSettings)
    requires s.contractKpiPercentage == 0
    ensures ContractBonus(c, s) == ContractBonus(c, s.(contractKpiPercentage := 50))
  {
    var s' := s.(contractKpiPercentage := 50);
    assert BaseSalary(s') == BaseSalary(s);
    assert ContractKpiPortion(s') == ContractKpiPortion(s);
    assert ContractPercentage(c, s') == ContractPercentage(c, s);
  }

  /** A 0 visit share behaves exactly like a 50% share. */
  lemma ZeroVisitShareMeansFifty(c: Counts, s: KpiSettings)
    requires s.visitKpiPercentage == 0
    ensures VisitBonus(c, s) == VisitBonus(c, s.(visitKpiPercentage := 50))
  {
    var s' := s.(visitKpiPercentage := 50);
    assert BaseSalary(s') == BaseSalary(s);
    assert VisitKpiPortion(s') == VisitKpiPortion(s);
    assert VisitPercentage(c, s') == VisitPercentage(c, s);
  }

  /** A 0 contract threshold behaves exactly like an 80% threshold. */
  lemma ZeroContractThresholdMeansEighty(c: Counts, s: KpiSettings)
    requires s.contractThreshold == 0
    ensures ContractBonus(c, s) == ContractBonus(c, s.(contractThreshold := 80))
  {
    var s' := s.(contractThreshold := 80);
    assert BaseSalary(s') == BaseSalary(s);
    assert ContractKpiPortion(s') == ContractKpiPortion(s);
    assert ContractPercentage(c, s') == ContractPercentage(c, s);
  }

  /**
   * The visit threshold has no default: at 0, any non-negative number of
   * visits is paid, whereas a 0 contract threshold still gates at 80%.
   * With the default settings otherwise, one visit and one contract give a
   * visit bonus of round(1050 * (100/60) / 100) = 18 and no contract bonus.
   */
  lemma ZeroThresholdsAreAsymmetric(c: Counts, s: KpiSettings)
    requires s == DefaultSettings(s.id).(visitThreshold := 0, contractThreshold := 0)
    requires c == Counts(1, 0, 0, 1, 0, 0)
    ensures VisitBonus(c, s) == 18 && ContractBonus(c, s) == 0.0
  {
    DefaultBaseSalary(s);
    var portion, pct := VisitKpiPortion(s), VisitPercentage(c, s);
    assert portion == 1050.0;
    assert pct == Percentage(1, 60) && pct >= 0.0;
    assert VisitBonus(c, s) == Round(portion * (pct / 100.0));
    assert pct / 100.0 == 1.0 / 60.0;
    assert portion * (pct / 100.0) == 17.5;
    assert ContractPercentage(c, s) == Percentage(1, 30) < 80.0;
  }

  /**
   * The contract bonus is capped: 24 large contracts under the default
   * settings reach the 80% threshold exactly and earn a raw 2400, capped to
   * the contracts' portion 0.5 * (3000 - 900) = 1050.
   */
  lemma ContractBonusCapExample(c: Counts, s: KpiSettings)
    requires s == DefaultSettings(s.id)
    requires c == Counts(0, 0, 0, 24, 0, 0)
    ensures RawContractBonus(c, s) == 2400 && ContractBonus(c, s) == 1050.0
  {
    DefaultBaseSalary(s);
    assert ContractKpiPortion(s) == 1050.0;
    assert ContractPercentage(c, s) == Percentage(24, 30) == 80.0;
  }

  /**
   * The visit bonus is not capped: 90 visits against the default target of
   * 60 (150%) earn round(1050 * 1.5) = 1575, more than the visits' portion.
   */
  lemma VisitBonusOverTargetExample(c: Counts, s: KpiSettings)
    requires s == DefaultSettings(s.id)
    requires c == Counts(30, 30, 30, 0, 0, 0)
    ensures VisitKpiPortion(s) == 1050.0 && VisitBonus(c, s) == 1575
  {
    DefaultBaseSalary(s);
    var portion, pct := VisitKpiPortion(s), VisitPercentage(c, s);
    assert portion == 1050.0;
    assert pct == Percentage(90, 60) == 150.0;
    assert VisitBonus(c, s) == Round(portion * (pct / 100.0));
    assert portion * (pct / 100.0) == 1575.0;
  }

  /**
   * One contracted cafe (one visit and one contract, e.g. a medium cafe),
   * default settings: base 900, both completion rates far below 80%, so no
   * bonus and a total of 900.
   */
  lemma SingleContractScenario(p: MonthlyPerformance, s: KpiSettings)
    requires s == DefaultSettings(s.id)
    requires TotalVisits(p.counts) == 1 && TotalContracts(p.counts) == 1
    ensures var r := CalculatePerformance(p, s);
            r.baseSalary == 900 && r.kpiBonus == 0.0 && r.totalSalary == 900.0
  {
    DefaultBaseSalary(s);
    SingleVisitBelowThreshold(p.counts, s);
    SingleContractBelowThreshold(p.counts, s);
  }

  /** A single visit stays below the default 80% visit threshold. */
  lemma SingleVisitBelowThreshold(c: Counts, s: KpiSettings)
    requires s == DefaultSettings(s.id)
    requires TotalVisits(c) == 1
    ensures VisitBonus(c, s) == 0
  {
    assert VisitTargets(s) == 60;
    var visitPct := VisitPercentage(c, s);
    assert visitPct * 60.0 == 100.0;
    assert visitPct < s.visitThreshold as real;
  }

  /** A single contract stays below the default 80% contract threshold. */
  lemma SingleContractBelowThreshold(c: Counts, s: KpiSettings)
    requires s == DefaultSettings(s.id)
    requires TotalContracts(c) == 1
    ensures ContractBonus(c, s) == 0.0
  {
    assert ContractTargets(s) == 30;
    var contractPct := ContractPercentage(c, s);
    assert contractPct * 30.0 == 100.0;
    assert contractPct < ContractThreshold(s) as real;
  }

  /** Completion never drops when more is done against the same target. */
  lemma PercentageMonotone(d1: int, d2: int, target: int)
    requires d1 <= d2
    ensures Percentage(d1, target) <= Percentage(d2, target)
  {
    if target > 0 {
      var t := target as real;
      assert Percentage(d1, target) == 100.0 * d1 as real / t;
      assert Percentage(d2, target) == 100.0 * d2 as real / t;
      assert 100.0 * d1 as real <= 100.0 * d2 as real;
    }
  }

  /** Math.round is monotone. */
  lemma RoundMonotone(x: real, y: real)
    requires x <= y
    ensures Round(x) <= Round(y)
  {
  }

  /**
   * More visits never lower the visit bonus, provided the visits' portion is
   * not negative and the smaller visit total is not negative.
   */
  lemma VisitBonusMonotone(c1: Counts, c2: Counts, s: KpiSettings)
    requires 0 <= TotalVisits(c1) <= TotalVisits(c2)
    requires VisitKpiPortion(s) >= 0.0
    ensures VisitBonus(c1, s) <= VisitBonus(c2, s)
  {
    PercentageMonotone(TotalVisits(c1), TotalVisits(c2), VisitTargets(s));
    PercentageMonotone(0, TotalVisits(c1), VisitTargets(s));
    var p1, p2 := VisitPercentage(c1, s), VisitPercentage(c2, s);
    var portion := VisitKpiPortion(s);
    assert 0.0 <= p1 <= p2;
    if p1 >= s.visitThreshold as real {
      assert portion * (p1 / 100.0) <= portion * (p2 / 100.0);
      RoundMonotone(portion * (p1 / 100.0), portion * (p2 / 100.0));
    } else if p2 >= s.visitThreshold as real {
      assert 0.0 <= portion * (p2 / 100.0);
      RoundMonotone(0.0, portion * (p2 / 100.0));
    }
  }

  /**
   * More contracts in every tier never lower the contract bonus, provided
   * the per-contract bonuses and the contracts' portion are not negative and
   * the smaller counters are not negative.
   */
  lemma ContractBonusMonotone(c1: Counts, c2: Counts, s: KpiSettings)
    requires 0 <= c1.largeContracts <= c2.largeContracts
    requires 0 <= c1.mediumContracts <= c2.mediumContracts
    requires 0 <= c1.smallContracts <= c2.smallContracts
    requires s.largeCafeBonus >= 0 && s.mediumCafeBonus >= 0 && s.smallCafeBonus >= 0
    requires ContractKpiPortion(s) >= 0.0
    ensures ContractBonus(c1, s) <= ContractBonus(c2, s)
  {
    PercentageMonotone(TotalContracts(c1), TotalContracts(c2), ContractTargets(s));
    assert c1.largeContracts * s.largeCafeBonus <= c2.largeContracts * s.largeCafeBonus;
    assert c1.mediumContracts * s.mediumCafeBonus <= c2.mediumContracts * s.mediumCafeBonus;
    assert c1.smallContracts * s.smallCafeBonus <= c2.smallContracts * s.smallCafeBonus;
    assert 0 <= c1.largeContracts * s.largeCafeBonus;
    assert 0 <= c1.mediumContracts * s.mediumCafeBonus;
    assert 0 <= c1.smallContracts * s.smallCafeBonus;
    assert 0 <= RawContractBonus(c1, s) <= RawContractBonus(c2, s);
  }

  /** Hence, under those conditions, more activity never lowers the total salary. */
  lemma TotalSalaryMonotone(p1: MonthlyPerformance, p2: MonthlyPerformance, s: KpiSettings)
    requires 0 <= TotalVisits(p1.counts) <= TotalVisits(p2.counts)
    requires 0 <= p1.counts.largeContracts <= p2.counts.largeContracts
    requires 0 <= p1.counts.mediumContracts <= p2.counts.mediumContracts
    requires 0 <= p1.counts.smallContracts <= p2.counts.smallContracts
    requires s.largeCafeBonus >= 0 && s.mediumCafeBonus >= 0 && s.smallCafeBonus >= 0
    requires ContractKpiPortion(s) >= 0.0 && VisitKpiPortion(s) >= 0.0
    ensures CalculatePerformance(p1, s).totalSalary <= CalculatePerformance(p2, s).totalSalary
  {
    VisitBonusMonotone(p1.counts, p2.counts, s);
    ContractBonusMonotone(p1.counts, p2.counts, s);
  }

  /**
   * The visit bonus has no upper bound: when there are positive visit
   * targets and a positive visits' portion, some number of visits pays more
   * than any given amount. The contract bonus, by contrast, never exceeds
   * ContractKpiPortion (ContractBonus's own contract).
   */
  lemma VisitBonusUnbounded(s: KpiSettings, amount: nat)
    requires VisitTargets(s) > 0 && VisitKpiPortion(s) > 0.0
    ensures exists c: Counts :: VisitBonus(c, s) > amount
  {
    var portion := VisitKpiPortion(s);
    // p times the targets is past the threshold and lifts the bonus past amount
    var q := (amount as real + 1.0) / portion;
    var needed := q.Floor + 1;
    var p := (if s.visitThreshold > 0 then s.visitThreshold else 0) + (if needed > 0 then needed else 0);
    assert p as real > q && p >= s.visitThreshold;
    var c := Counts(p * VisitTargets(s), 0, 0, 0, 0, 0);
    VisitBonusAtMultiple(c, s, p);
    PortionTimesExceeds(portion, q, p, amount);
    assert VisitBonus(c, s) > amount;
  }

  /** Visits at p times the targets, p at or past the threshold, pay the visit portion p times, rounded. */
  lemma VisitBonusAtMultiple(c: Counts, s: KpiSettings, p: int)
    requires VisitTargets(s) > 0 && TotalVisits(c) == p * VisitTargets(s)
    requires 0 <= p && s.visitThreshold <= p
    ensures VisitBonus(c, s) == Round(VisitKpiPortion(s) * p as real)
  {
    PercentageOfMultiple(p, VisitTargets(s));
    var pct := VisitPercentage(c, s);
    assert pct == Percentage(p * VisitTargets(s), VisitTargets(s));
    assert pct == p as real * 100.0;
    assert pct >= s.visitThreshold as real;
    assert pct / 100.0 == p as real;
  }

  /** Past q, where portion * q is amount + 1, the scaled portion rounds to more than amount. */
  lemma PortionTimesExceeds(portion: real, q: real, p: int, amount: nat)
    requires portion > 0.0 && portion * q == amount as real + 1.0 && p as real > q
    ensures Round(portion * p as real) > amount
  {
    assert portion * (p as real - q) > 0.0;
    assert portion * p as real > amount as real + 1.0;
  }

  /** p times the target is exactly p hundred percent. */
  lemma PercentageOfMultiple(p: int, t: int)
    requires t > 0
    ensures Percentage(p * t, t) == p as real * 100.0
  {
    var pct := Percentage(p * t, t);
    assert pct * t as real == 100.0 * (p * t) as real;
    assert (p * t) as real == p as real * t as real;
    assert pct * t as real == (p as real * 100.0) * t as real;
  }
}
