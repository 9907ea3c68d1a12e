/**
 * The in-memory store MemStorage (server/storage.ts): cafes, the activity
 * log, the month records and the singleton KPI settings, with the
 * operations that keep a month's counters and salary in step with the
 * cafes. The `clock` parameter stands for `new Date()`: one reading per
 * store operation, where the source reads the date again in every nested
 * call.
 */
module Storage {
  import opened Wrappers
  import opened Schema
  import opened Compensation
  import opened Accumulator

  /** The current date and time, which the source reads with `new Date()`. */
  datatype Clock = Clock(year: int, month: int, timestamp: int)

  /** The month the clock is in (`getFullYear()`, `getMonth() + 1`). */
  function CurrentPeriod(clock: Clock): Period
  {
    Period(clock.year, clock.month)
  }

  /** The error an operation on an unknown cafe throws. */
  datatype StoreError = CafeNotFound(id: int)

  /** The settings getKpiSettings hands out: those stored, or the defaults it stores. */
  function EffectiveSettings(slot: Option<KpiSettings>, settingsId: int): KpiSettings
  {
    if slot.Some? then slot.value else DefaultSettings(settingsId)
  }

  /** The record getMonthPerformance creates for a month it has not seen. */
  function NewMonth(id: int, period: Period, s: KpiSettings): MonthlyPerformance
  {
    var baseSalary := Round(s.totalTargetSalary as real * (s.baseSalaryPercentage as real / 100.0));
    MonthlyPerformance(id, period, Zero(), baseSalary, 0.0, baseSalary as real)
  }

  /** The record of a month after getMonthPerformance: the stored one, or a new one. */
  function MonthOrNew(perf: map<Period, MonthlyPerformance>, period: Period, nextId: int, s: KpiSettings): MonthlyPerformance
  {
    if period in perf then perf[period] else NewMonth(nextId, period, s)
  }

  /** The month-record id counter after getMonthPerformance. */
  function NextPerformanceId(perf: map<Period, MonthlyPerformance>, period: Period, nextId: int): int
  {
    if period in perf then nextId else nextId + 1
  }

  /** The factor of updatePerformanceForCafe: -1 for a reversal, +1 otherwise. */
  function Factor(isReversal: bool): int
  {
    if isReversal then -1 else 1
  }

  /** The month records after updatePerformanceForCafe: the cafe applied, the salary recomputed. */
  function Accumulated(perf: map<Period, MonthlyPerformance>, period: Period, nextId: int, s: KpiSettings,
                       cafe: Cafe, isReversal: bool): map<Period, MonthlyPerformance>
  {
    var p := MonthOrNew(perf, period, nextId, s);
    perf[period := CalculatePerformance(p.(counts := Shift(p.counts, cafe, Factor(isReversal))), s)]
  }

  /** A month's counters before a record exists are zero. */
  function CountsOf(perf: map<Period, MonthlyPerformance>, period: Period): Counts
  {
    if period in perf then perf[period].counts else Zero()
  }

  /**
   * updatePerformanceForCafe moves the month's counters by exactly the
   * cafe's contribution, whether or not the month had a record, and
   * touches no other month.
   */
  lemma AccumulatedCounts(perf: map<Period, MonthlyPerformance>, period: Period, nextId: int, s: KpiSettings,
                          cafe: Cafe, isReversal: bool)
    ensures var after := Accumulated(perf, period, nextId, s, cafe, isReversal);
            && period in after
            && CountsOf(after, period) == Shift(CountsOf(perf, period), cafe, Factor(isReversal))
            && (forall other :: other != period ==> CountsOf(after, other) == CountsOf(perf, other))
  {
  }

  /**
   * With nothing done the engine pays no bonus, unless a negative contract
   * threshold lets a negative contract portion through the gate.
   */
  lemma NothingDoneNoBonus(c: Counts, s: KpiSettings)
    requires TotalVisits(c) == 0 && TotalContracts(c) == 0 && RawContractBonus(c, s) == 0
    requires ContractThreshold(s) > 0 || ContractKpiPortion(s) >= 0.0
    ensures ContractBonus(c, s) == 0.0 && VisitBonus(c, s) == 0
  {
    assert ContractPercentage(c, s) == 0.0;
    assert VisitPercentage(c, s) == 0.0;
    assert VisitKpiPortion(s) * (0.0 / 100.0) == 0.0;
  }

  /** A record with nothing done, no bonus and the base salary as total is priced. */
  lemma NothingDonePriced(p: MonthlyPerformance, s: KpiSettings)
    requires TotalVisits(p.counts) == 0 && TotalContracts(p.counts) == 0 && RawContractBonus(p.counts, s) == 0
    requires ContractThreshold(s) > 0 || ContractKpiPortion(s) >= 0.0
    requires p.baseSalary == BaseSalary(s) && p.kpiBonus == 0.0 && p.totalSalary == p.baseSalary as real
    ensures Priced(p, s)
  {
    NothingDoneNoBonus(p.counts, s);
  }

  /**
   * The record getMonthPerformance creates already carries the salary the
   * engine gives its zero counters (under the same condition).
   */
  lemma NewMonthPriced(id: int, period: Period, s: KpiSettings)
    requires ContractThreshold(s) > 0 || ContractKpiPortion(s) >= 0.0
    ensures Priced(NewMonth(id, period, s), s)
  {
    NothingDonePriced(NewMonth(id, period, s), s);
  }

  /** After updatePerformanceForCafe the month's record is priced by the settings. */
  lemma AccumulatedPriced(perf: map<Period, MonthlyPerformance>, period: Period, nextId: int, s: KpiSettings,
                          cafe: Cafe, isReversal: bool)
    ensures var after := Accumulated(perf, period, nextId, s, cafe, isReversal);
            period in after && Priced(after[period], s)
  {
    var p := MonthOrNew(perf, period, nextId, s);
    CalculatePerformanceIdempotent(p.(counts := Shift(p.counts, cafe, Factor(isReversal))), s);
  }

  /** Adding a cafe and then reversing it restores the month's six counters. */
  lemma {:induction false} AddThenReverseRestoresMonth(perf: map<Period, MonthlyPerformance>, period: Period,
                                                       nextId: int, s: KpiSettings, cafe: Cafe)
    ensures var added := Accumulated(perf, period, nextId, s, cafe, false);
            CountsOf(Accumulated(added, period, nextId, s, cafe, true), period) == CountsOf(perf, period)
  {
    var added := Accumulated(perf, period, nextId, s, cafe, false);
    AccumulatedCounts(perf, period, nextId, s, cafe, false);
    AccumulatedCounts(added, period, nextId, s, cafe, true);
    AddThenReverse(CountsOf(perf, period), cafe);
  }

  /**
   * The counters are kept by deltas on the month of each call, so reversing
   * a cafe in a month that has no record yet (one created in an earlier
   * month and deleted in this one) drives a counter below zero.
   */
  lemma ReversalInFreshMonthGoesNegative(perf: map<Period, MonthlyPerformance>, period: Period, nextId: int,
                                         s: KpiSettings, cafe: Cafe)
    requires period !in perf && CountsAsVisit(cafe)
    ensures VisitsOf(CountsOf(Accumulated(perf, period, nextId, s, cafe, true), period),
                     GetCafeSize(cafe.hookahCount)) == -1
  {
    AccumulatedCounts(perf, period, nextId, s, cafe, true);
    ShiftMovesOwnTier(Zero(), cafe, -1, GetCafeSize(cafe.hookahCount));
  }

  /** The descriptions and types of the entries the cafe operations log. */
  function AddedDescription(name: string): string { "Added new cafe: " + name }
  function UpdatedDescription(name: string): string { "Updated cafe: " + name }
  function StatusActivityType(status: string): string
  {
    if status == Contracted then ContractActivity else VisitActivity
  }
  function StatusDescription(status: string, name: string): string
  {
    (if status == Contracted then "Contracted with" else "Visited") + " cafe: " + name
  }

  /**
   * The activity log after updateCafe: an "update" entry, then, when the
   * status changed, a "contract" or "visit" entry under the next id.
   */
  function UpdateLog(activities: map<int, Activity>, nextId: int, before: Cafe, after: Cafe, timestamp: int)
    : map<int, Activity>
  {
    var logged := activities[nextId := Activity(nextId, after.id, UpdateActivity, UpdatedDescription(after.name), timestamp)];
    if before.status != after.status then
      logged[nextId + 1 := Activity(nextId + 1, after.id, StatusActivityType(after.status),
                                    StatusDescription(after.status, after.name), timestamp)]
    else logged
  }

  /** Whether updateCafe re-accumulates: the status or the hookah count changed. */
  predicate AffectsPerformance(before: Cafe, after: Cafe)
  {
    before.status != after.status || before.hookahCount != after.hookahCount
  }

  /** The cafe createCafe stores: the caller's fields, a fresh id and the creation time. */
  function NewCafe(id: int, cafe: InsertCafe, createdAt: int): Cafe
  {
    Cafe(id, cafe.name, cafe.area, cafe.ownerName, cafe.ownerNumber, cafe.hookahCount,
         cafe.tableCount, cafe.status, cafe.photoUrl, createdAt)
  }

  function Patched<T>(field: Option<T>, current: T): T
  {
    if field.Some? then field.value else current
  }

  /** `{ ...oldCafe, ...cafeData }`: the fields present in the patch win. */
  function ApplyPatch(cafe: Cafe, patch: CafePatch): (r: Cafe)
    ensures r.id == cafe.id && r.createdAt == cafe.createdAt
    ensures r.name == (if patch.name.Some? then patch.name.value else cafe.name)
    ensures r.area == (if patch.area.Some? then patch.area.value else cafe.area)
    ensures r.ownerName == (if patch.ownerName.Some? then patch.ownerName.value else cafe.ownerName)
    ensures r.ownerNumber == (if patch.ownerNumber.Some? then patch.ownerNumber.value else cafe.ownerNumber)
    ensures r.hookahCount == (if patch.hookahCount.Some? then patch.hookahCount.value else cafe.hookahCount)
    ensures r.tableCount == (if patch.tableCount.Some? then patch.tableCount.value else cafe.tableCount)
    ensures r.status == (if patch.status.Some? then patch.status.value else cafe.status)
    ensures r.photoUrl == (if patch.photoUrl.Some? then patch.photoUrl.value else cafe.photoUrl)
  {
    cafe.(name := Patched(patch.name, cafe.name),
          area := Patched(patch.area, cafe.area),
          ownerName := Patched(patch.ownerName, cafe.ownerName),
          ownerNumber := Patched(patch.ownerNumber, cafe.ownerNumber),
          hookahCount := Patched(patch.hookahCount, cafe.hookahCount),
          tableCount := Patched(patch.tableCount, cafe.tableCount),
          status := Patched(patch.status, cafe.status),
          photoUrl := Patched(patch.photoUrl, cafe.photoUrl))
  }

  /** The activities deleteCafe keeps: those of other cafes. */
  function ActivitiesNotOf(activities: map<int, Activity>, cafeId: int): map<int, Activity>
  {
    map k | k in activities && activities[k].cafeId != cafeId :: activities[k]
  }

  /**
   * The counter updates of updatePerformanceForCafe: the visit counter of
   * the cafe's tier moves by the factor when it is visited or contracted,
   * the contract counter when it is contracted.
   */
  method ApplyCafeToCounts(counts: Counts, cafe: Cafe, factor: int) returns (c: Counts)
    ensures c == Shift(counts, cafe, factor)
  {
    var cafeSize := GetCafeSize(cafe.hookahCount);
    c := counts;
    if cafe.status == Visited || cafe.status == Contracted {
      if cafeSize == Large {
        c := c.(largeVisits := c.largeVisits + factor);
      } else if cafeSize == Medium {
        c := c.(mediumVisits := c.mediumVisits + factor);
      } else {
        c := c.(smallVisits := c.smallVisits + factor);
      }
    }
    if cafe.status == Contracted {
      if cafeSize == Large {
        c := c.(largeContracts := c.largeContracts + factor);
      } else if cafeSize == Medium {
        c := c.(mediumContracts := c.mediumContracts + factor);
      } else {
        c := c.(smallContracts := c.smallContracts + factor);
      }
    }
  }

  /**
   * The salary formula as updatePerformanceForCafe writes it out a second
   * time; it agrees with calculatePerformance on every record and settings.
   */
  method RecomputeSalaryInline(performance: MonthlyPerformance, kpiSettings: KpiSettings)
    returns (updated: MonthlyPerformance)
    ensures updated == CalculatePerformance(performance, kpiSettings)
  {
    var c := performance.counts;
    var baseSalary := Round(kpiSettings.totalTargetSalary as real * (kpiSettings.baseSalaryPercentage as real / 100.0));

    var totalContracts := c.largeContracts + c.mediumContracts + c.smallContracts;
    var totalContractTargets := kpiSettings.targetLargeContract + kpiSettings.targetMediumContract
                                + kpiSettings.targetSmallContract;
    var contractPercentage := if totalContractTargets > 0
                              then (totalContracts as real / totalContractTargets as real) * 100.0 else 0.0;
    var potentialKpiBonus := kpiSettings.totalTargetSalary - baseSalary;
    var contractKpiPercentage := OrElse(kpiSettings.contractKpiPercentage, 50);
    var contractKpiPortion := potentialKpiBonus as real * (contractKpiPercentage as real / 100.0);
    var largeCafeBonus := c.largeContracts * kpiSettings.largeCafeBonus;
    var mediumCafeBonus := c.mediumContracts * kpiSettings.mediumCafeBonus;
    var smallCafeBonus := c.smallContracts * kpiSettings.smallCafeBonus;
    var contractThreshold := OrElse(kpiSettings.contractThreshold, 80);
    var meetsContractThreshold := contractPercentage >= contractThreshold as real;
    var contractBonus := if meetsContractThreshold
                         then Min((largeCafeBonus + mediumCafeBonus + smallCafeBonus) as real, contractKpiPortion)
                         else 0.0;

    var totalVisits := c.largeVisits + c.mediumVisits + c.smallVisits;
    var totalVisitTargets := kpiSettings.targetLargeVisit + kpiSettings.targetMediumVisit
                             + kpiSettings.targetSmallVisit;
    var visitPercentage := if totalVisitTargets > 0
                           then (totalVisits as real / totalVisitTargets as real) * 100.0 else 0.0;
    var visitKpiPercentage := OrElse(kpiSettings.visitKpiPercentage, 50);
    var visitKpiPortion := potentialKpiBonus as real * (visitKpiPercentage as real / 100.0);
    var visitBonus := if visitPercentage >= kpiSettings.visitThreshold as real
                      then Round(visitKpiPortion * (visitPercentage / 100.0)) else 0;

    var kpiBonus := contractBonus + visitBonus as real;
    updated := performance.(baseSalary := baseSalary, kpiBonus := kpiBonus,
                            totalSalary := baseSalary as real + kpiBonus);

    assert baseSalary == BaseSalary(kpiSettings);
    assert contractPercentage == ContractPercentage(c, kpiSettings);
    assert contractKpiPortion == ContractKpiPortion(kpiSettings);
    assert largeCafeBonus + mediumCafeBonus + smallCafeBonus == RawContractBonus(c, kpiSettings);
    assert contractBonus == ContractBonus(c, kpiSettings);
    assert visitBonus == VisitBonus(c, kpiSettings);
  }

  class MemStorage {
    var kpiSettingsData: Option<KpiSettings>
    const kpiSettingsId: int

    var cafesData: map<int, Cafe>
    var cafeCurrentId: int

    var activitiesData: map<int, Activity>
    var activityCurrentId: int

    var performanceData: map<Period, MonthlyPerformance>
    var performanceCurrentId: int

    /** Ids are handed out by the counters, and every record is stored under its own id. */
    ghost predicate Valid()
      reads this
    {
      && (forall id :: id in cafesData ==> id < cafeCurrentId && cafesData[id].id == id)
      && (forall id :: id in activitiesData ==> id < activityCurrentId && activitiesData[id].id == id)
    }

    /** A month's counters, zero while it has no record. */
    ghost function MonthCounts(period: Period): Counts
      reads this
    {
      CountsOf(performanceData, period)
    }

    /** The month's counters equal the sum of the current cafes' contributions. */
    ghost predicate Reconciled(period: Period)
      reads this
    {
      MonthCounts(period) == Tally(cafesData)
    }

    constructor ()
      ensures Valid()
      ensures kpiSettingsData == None && kpiSettingsId == 1
      ensures cafesData == map[] && activitiesData == map[] && performanceData == map[]
      ensures cafeCurrentId == 1 && activityCurrentId == 1 && performanceCurrentId == 1
      ensures forall period :: Reconciled(period)
    {
      kpiSettingsData := None;
      kpiSettingsId := 1;
      cafesData := map[];
      cafeCurrentId := 1;
      activitiesData := map[];
      activityCurrentId := 1;
      performanceData := map[];
      performanceCurrentId := 1;
    }

    /** getKpiSettings: the stored settings, or the defaults, stored on first use. */
    method GetKpiSettings() returns (settings: KpiSettings)
      modifies this`kpiSettingsData
      ensures settings == EffectiveSettings(old(kpiSettingsData), kpiSettingsId)
      ensures kpiSettingsData == Some(settings)
    {
      if kpiSettingsData.Some? {
        return kpiSettingsData.value;
      }
      var defaultSettings := DefaultSettings(kpiSettingsId);
      kpiSettingsData := Some(defaultSettings);
      return defaultSettings;
    }

    /**
     * getMonthPerformance: the stored record of the month unchanged, or a
     * new one with zero counters, no bonus and the base salary as total.
     */
    method GetMonthPerformance(year: int, month: int) returns (performance: MonthlyPerformance)
      modifies this`kpiSettingsData, this`performanceData, this`performanceCurrentId
      ensures var period := Period(year, month);
              var s := EffectiveSettings(old(kpiSettingsData), kpiSettingsId);
              && performance == MonthOrNew(old(performanceData), period, old(performanceCurrentId), s)
              && performanceData == old(performanceData)[period := performance]
              && performanceCurrentId == NextPerformanceId(old(performanceData), period, old(performanceCurrentId))
              && kpiSettingsData == if period in old(performanceData) then old(kpiSettingsData) else Some(s)
    {
      var monthKey := Period(year, month);
      if monthKey in performanceData {
        return performanceData[monthKey];
      }
      var kpiSettings := GetKpiSettings();
      var baseSalary := Round(kpiSettings.totalTargetSalary as real * (kpiSettings.baseSalaryPercentage as real / 100.0));
      performance := MonthlyPerformance(performanceCurrentId, monthKey, Counts(0, 0, 0, 0, 0, 0),
                                        baseSalary, 0.0, baseSalary as real);
      performanceCurrentId := performanceCurrentId + 1;
      performanceData := performanceData[monthKey := performance];
    }

    /** getCurrentMonthPerformance: getMonthPerformance for the clock's month. */
    method GetCurrentMonthPerformance(clock: Clock) returns (performance: MonthlyPerformance)
      modifies this`kpiSettingsData, this`performanceData, this`performanceCurrentId
      ensures var period := CurrentPeriod(clock);
              var s := EffectiveSettings(old(kpiSettingsData), kpiSettingsId);
              && performance == MonthOrNew(old(performanceData), period, old(performanceCurrentId), s)
              && performanceData == old(performanceData)[period := performance]
              && performanceCurrentId == NextPerformanceId(old(performanceData), period, old(performanceCurrentId))
              && kpiSettingsData == if period in old(performanceData) then old(kpiSettingsData) else Some(s)
    {
      performance := GetMonthPerformance(clock.year, clock.month);
    }

    /**
     * updateMonthPerformance: stores the record under the month, creating
     * the month first (which uses up a record id) when it is missing.
     */
    method UpdateMonthPerformance(year: int, month: int, performance: MonthlyPerformance)
      returns (updated: MonthlyPerformance)
      modifies this`kpiSettingsData, this`performanceData, this`performanceCurrentId
      ensures var period := Period(year, month);
              && updated == performance
              && performanceData == old(performanceData)[period := performance]
              && performanceCurrentId == NextPerformanceId(old(performanceData), period, old(performanceCurrentId))
              && kpiSettingsData == if period in old(performanceData) then old(kpiSettingsData)
                                    else Some(EffectiveSettings(old(kpiSettingsData), kpiSettingsId))
    {
      var monthKey := Period(year, month);
      if monthKey !in performanceData {
        var _ := GetMonthPerformance(year, month);
      }
      updated := performance;
      performanceData := performanceData[monthKey := updated];
    }

    /**
     * saveKpiSettings: replaces the settings wholesale (keeping the settings
     * id) and reprices the current month, creating it when missing.
     */
    method SaveKpiSettings(settings: KpiSettings, clock: Clock) returns (saved: KpiSettings)
      modifies this`kpiSettingsData, this`performanceData, this`performanceCurrentId
      ensures saved == settings.(id := kpiSettingsId) && kpiSettingsData == Some(saved)
      ensures var period := CurrentPeriod(clock);
              && performanceData == old(performanceData)[period :=
                   CalculatePerformance(MonthOrNew(old(performanceData), period, old(performanceCurrentId), saved), saved)]
              && performanceCurrentId == NextPerformanceId(old(performanceData), period, old(performanceCurrentId))
    {
      var updatedSettings := settings.(id := kpiSettingsId);
      kpiSettingsData := Some(updatedSettings);
      var _ := GetMonthPerformance(clock.year, clock.month);
      var monthKey := CurrentPeriod(clock);
      if monthKey in performanceData {
        var updatedPerformance := CalculatePerformance(performanceData[monthKey], updatedSettings);
        performanceData := performanceData[monthKey := updatedPerformance];
      }
      return updatedSettings;
    }

    /**
     * updatePerformanceForCafe: applies the cafe to the current month's
     * counters with factor +1, or -1 for a reversal, and recomputes the
     * month's salary with the formula written out a second time.
     */
    method UpdatePerformanceForCafe(cafe: Cafe, isReversal: bool, clock: Clock)
      modifies this`kpiSettingsData, this`performanceData, this`performanceCurrentId
      ensures var period := CurrentPeriod(clock);
              var s := EffectiveSettings(old(kpiSettingsData), kpiSettingsId);
              && kpiSettingsData == Some(s)
              && performanceData == Accumulated(old(performanceData), period, old(performanceCurrentId), s, cafe, isReversal)
              && performanceCurrentId == NextPerformanceId(old(performanceData), period, old(performanceCurrentId))
    {
      ghost var period := CurrentPeriod(clock);
      ghost var s := EffectiveSettings(kpiSettingsData, kpiSettingsId);
      ghost var before := performanceData;
      var performance := GetMonthPerformance(clock.year, clock.month);
      assert EffectiveSettings(kpiSettingsData, kpiSettingsId) == s;
      assert period in performanceData;
      var factor := if isReversal then -1 else 1;
      var counts := ApplyCafeToCounts(performance.counts, cafe, factor);
      var kpiSettings := GetKpiSettings();
      assert kpiSettings == s;
      var updatedPerformance := RecomputeSalaryInline(performance.(counts := counts), kpiSettings);
      ghost var mid := performanceData;
      var _ := UpdateMonthPerformance(clock.year, clock.month, updatedPerformance);
      assert performanceData == mid[period := updatedPerformance];
      assert mid[period := updatedPerformance] == before[period := updatedPerformance];
    }

    /** createActivity: appends an entry under the next activity id. */
    method CreateActivity(activity: InsertActivity, timestamp: int) returns (newActivity: Activity)
      requires Valid()
      modifies this`activitiesData, this`activityCurrentId
      ensures Valid()
      ensures newActivity == Activity(old(activityCurrentId), activity.cafeId, activity.activityType,
                                      activity.description, timestamp)
      ensures newActivity.id !in old(activitiesData)
      ensures activitiesData == old(activitiesData)[newActivity.id := newActivity]
      ensures activityCurrentId == old(activityCurrentId) + 1
    {
      var id := activityCurrentId;
      activityCurrentId := activityCurrentId + 1;
      newActivity := Activity(id, activity.cafeId, activity.activityType, activity.description, timestamp);
      activitiesData := activitiesData[id := newActivity];
    }

    /**
     * The re-accumulation step of updateCafe: the old cafe's contribution
     * reversed, then the new one's added, both in the clock's month.
     */
    method Reaccumulate(before: Cafe, after: Cafe, clock: Clock)
      modifies this`kpiSettingsData, this`performanceData, this`performanceCurrentId
      ensures var period := CurrentPeriod(clock);
              var s := EffectiveSettings(old(kpiSettingsData), kpiSettingsId);
              && kpiSettingsData == Some(s)
              && performanceData ==
                   Accumulated(Accumulated(old(performanceData), period, old(performanceCurrentId), s, before, true),
                               period, old(performanceCurrentId), s, after, false)
              && performanceCurrentId == NextPerformanceId(old(performanceData), period, old(performanceCurrentId))
      ensures CountsOf(performanceData, CurrentPeriod(clock)) ==
                Shift(Shift(CountsOf(old(performanceData), CurrentPeriod(clock)), before, -1), after, 1)
    {
      ghost var period := CurrentPeriod(clock);
      ghost var oldPerf := performanceData;
      ghost var oldPerfId := performanceCurrentId;
      ghost var s := EffectiveSettings(kpiSettingsData, kpiSettingsId);
      UpdatePerformanceForCafe(before, true, clock);
      ghost var mid := performanceData;
      AccumulatedCounts(oldPerf, period, oldPerfId, s, before, true);
      UpdatePerformanceForCafe(after, false, clock);
      AccumulatedCounts(mid, period, NextPerformanceId(oldPerf, period, oldPerfId), s, after, false);
    }

    /**
     * createCafe: stores the cafe under the next id, logs a "visit" entry
     * and adds the cafe's contribution to the current month.
     */
    method CreateCafe(cafe: InsertCafe, clock: Clock) returns (newCafe: Cafe)
      requires Valid()
      modifies this
      ensures Valid()
      ensures newCafe == NewCafe(old(cafeCurrentId), cafe, clock.timestamp)
      ensures newCafe.id !in old(cafesData)
      ensures cafesData == old(cafesData)[newCafe.id := newCafe] && cafeCurrentId == old(cafeCurrentId) + 1
      ensures activitiesData == old(activitiesData)[old(activityCurrentId) :=
                Activity(old(activityCurrentId), newCafe.id, VisitActivity, AddedDescription(cafe.name), clock.timestamp)]
      ensures activityCurrentId == old(activityCurrentId) + 1
      ensures var period := CurrentPeriod(clock);
              var s := EffectiveSettings(old(kpiSettingsData), kpiSettingsId);
              && kpiSettingsData == Some(s)
              && performanceData == Accumulated(old(performanceData), period, old(performanceCurrentId), s, newCafe, false)
              && performanceCurrentId == NextPerformanceId(old(performanceData), period, old(performanceCurrentId))
      ensures old(Reconciled(CurrentPeriod(clock))) ==> Reconciled(CurrentPeriod(clock))
    {
      ghost var period := CurrentPeriod(clock);
      ghost var oldCafes := cafesData;
      ghost var oldPerf := performanceData;
      ghost var oldPerfId := performanceCurrentId;
      ghost var s := EffectiveSettings(kpiSettingsData, kpiSettingsId);
      var id := cafeCurrentId;
      cafeCurrentId := cafeCurrentId + 1;
      newCafe := NewCafe(id, cafe, clock.timestamp);
      cafesData := cafesData[id := newCafe];
      var _ := CreateActivity(InsertActivity(id, VisitActivity, AddedDescription(cafe.name)), clock.timestamp);
      UpdatePerformanceForCafe(newCafe, false, clock);
      TallyInsert(oldCafes, id, newCafe);
      AccumulatedCounts(oldPerf, period, oldPerfId, s, newCafe, false);
    }

    /**
     * updateCafe: fails on an unknown id; otherwise overwrites the fields
     * present in the patch, logs the change, and, when the status or the
     * hookah count changed, reverses the old cafe's contribution and adds
     * the new one's.
     */
    method UpdateCafe(id: int, patch: CafePatch, clock: Clock) returns (r: Result<Cafe, StoreError>)
      requires Valid()
      modifies this
      ensures Valid()
      ensures id !in old(cafesData) ==> r == Failure(CafeNotFound(id)) && unchanged(this)
      ensures id in old(cafesData) ==>
                var before := old(cafesData[id]);
                var after := ApplyPatch(before, patch);
                var period := CurrentPeriod(clock);
                var s := EffectiveSettings(old(kpiSettingsData), kpiSettingsId);
                && r == Success(after)
                && cafesData == old(cafesData)[id := after]
                && cafeCurrentId == old(cafeCurrentId)
                && activitiesData == UpdateLog(old(activitiesData), old(activityCurrentId), before, after, clock.timestamp)
                && activityCurrentId == old(activityCurrentId) + (if before.status != after.status then 2 else 1)
                && (AffectsPerformance(before, after) ==>
                      && kpiSettingsData == Some(s)
                      && performanceData ==
                           Accumulated(Accumulated(old(performanceData), period, old(performanceCurrentId), s, before, true),
                                       period, old(performanceCurrentId), s, after, false)
                      && performanceCurrentId == NextPerformanceId(old(performanceData), period, old(performanceCurrentId)))
                && (!AffectsPerformance(before, after) ==>
                      && kpiSettingsData == old(kpiSettingsData)
                      && performanceData == old(performanceData)
                      && performanceCurrentId == old(performanceCurrentId))
      ensures old(Reconciled(CurrentPeriod(clock))) ==> Reconciled(CurrentPeriod(clock))
    {
      if id !in cafesData {
        return Failure(CafeNotFound(id));
      }
      ghost var period := CurrentPeriod(clock);
      ghost var oldCafes := cafesData;
      ghost var oldPerf := performanceData;
      ghost var oldPerfId := performanceCurrentId;
      ghost var s := EffectiveSettings(kpiSettingsData, kpiSettingsId);
      var oldCafe := cafesData[id];
      var updatedCafe := ApplyPatch(oldCafe, patch);
      cafesData := cafesData[id := updatedCafe];
      var _ := CreateActivity(InsertActivity(id, UpdateActivity, UpdatedDescription(updatedCafe.name)), clock.timestamp);
      if oldCafe.status != updatedCafe.status {
        var activityType := StatusActivityType(updatedCafe.status);
        var _ := CreateActivity(InsertActivity(id, activityType, StatusDescription(updatedCafe.status, updatedCafe.name)),
                                clock.timestamp);
      }
      TallyReplace(oldCafes, id, updatedCafe);
      if oldCafe.status != updatedCafe.status || oldCafe.hookahCount != updatedCafe.hookahCount {
        Reaccumulate(oldCafe, updatedCafe, clock);
      } else {
        ReaccumulateUnchanged(Tally(oldCafes), oldCafe, updatedCafe);
      }
      return Success(updatedCafe);
    }

    /**
     * deleteCafe: fails on an unknown id; otherwise reverses the cafe's
     * contribution to the current month, removes every activity of the
     * cafe and then the cafe itself.
     */
    method DeleteCafe(id: int, clock: Clock) returns (r: Outcome<StoreError>)
      requires Valid()
      modifies this
      ensures Valid()
      ensures id !in old(cafesData) ==> r == Fail(CafeNotFound(id)) && unchanged(this)
      ensures id in old(cafesData) ==>
                var period := CurrentPeriod(clock);
                var s := EffectiveSettings(old(kpiSettingsData), kpiSettingsId);
                && r == Pass
                && kpiSettingsData == Some(s)
                && performanceData == Accumulated(old(performanceData), period, old(performanceCurrentId), s,
                                                  old(cafesData[id]), true)
                && performanceCurrentId == NextPerformanceId(old(performanceData), period, old(performanceCurrentId))
                && activitiesData == ActivitiesNotOf(old(activitiesData), id)
                && activityCurrentId == old(activityCurrentId)
                && cafesData == old(cafesData) - {id}
                && cafeCurrentId == old(cafeCurrentId)
      ensures old(Reconciled(CurrentPeriod(clock))) ==> Reconciled(CurrentPeriod(clock))
    {
      if id !in cafesData {
        return Fail(CafeNotFound(id));
      }
      ghost var period := CurrentPeriod(clock);
      ghost var oldCafes := cafesData;
      ghost var oldPerf := performanceData;
      ghost var oldPerfId := performanceCurrentId;
      ghost var s := EffectiveSettings(kpiSettingsData, kpiSettingsId);
      var cafe := cafesData[id];
      UpdatePerformanceForCafe(cafe, true, clock);

      ghost var original := activitiesData;
      var remaining := activitiesData.Keys;
      while remaining != {}
        invariant remaining <= original.Keys
        invariant activitiesData.Keys <= original.Keys
        invariant activitiesData ==
                    map k | k in original && (k in remaining || original[k].cafeId != id) :: original[k]
        modifies this`activitiesData
        decreases remaining
      {
        NonEmptyHasElement(remaining);
        var activityId :| activityId in remaining;
        if activitiesData[activityId].cafeId == id {
          activitiesData := activitiesData - {activityId};
        }
        remaining := remaining - {activityId};
      }

      cafesData := cafesData - {id};
      TallyRemove(oldCafes, id);
      AccumulatedCounts(oldPerf, period, oldPerfId, s, cafe, true);
      return Pass;
    }
  }
}
