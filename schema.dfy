/**
 * The shared record types of the tracker and the cafe size classifier
 * (shared/schema.ts).
 */
module Schema {
  import opened Wrappers

  /** The three size tiers a cafe is sorted into by its hookah count. */
  datatype CafeSize = Small | Medium | Large

  /** The tier order small < medium < large, as a number. */
  function Rank(size: CafeSize): nat
  {
    match size
    case Small => 0
    case Medium => 1
    case Large => 2
  }

  /**
   * getCafeSize: up to 3 hookahs is small (0 and negative counts included),
   * 4 to 7 is medium, 8 or more is large.
   */
  function GetCafeSize(hookahCount: int): (size: CafeSize)
    ensures size == Small <==> hookahCount <= 3
    ensures size == Medium <==> 4 <= hookahCount <= 7
    ensures size == Large <==> 8 <= hookahCount
  {
    if hookahCount <= 3 then Small
    else if hookahCount <= 7 then Medium
    else Large
  }

  /** Fewer hookahs never give a larger tier. */
  lemma GetCafeSizeMonotone(a: int, b: int)
    requires a <= b
    ensures Rank(GetCafeSize(a)) <= Rank(GetCafeSize(b))
  {
  }

  /** The tier boundaries: 3 is small, 4 and 7 are medium, 8 is large. */
  lemma GetCafeSizeBoundaries()
    ensures GetCafeSize(3) == Small && GetCafeSize(4) == Medium
    ensures GetCafeSize(7) == Medium && GetCafeSize(8) == Large
    ensures GetCafeSize(0) == Small && GetCafeSize(-1) == Small
  {
  }

  /** The cafe statuses the store gives meaning to; the column itself is free text. */
  const Pending: string := "pending"
  const Visited: string := "visited"
  const Contracted: string := "contracted"

  /** The activity types the store writes. */
  const VisitActivity: string := "visit"
  const ContractActivity: string := "contract"
  const UpdateActivity: string := "update"

  /**
   * The KPI settings record (the `kpi_settings` table). Thresholds and
   * percentages are whole percentages; bonuses and salaries whole amounts.
   */
  datatype KpiSettings = KpiSettings(
    id: int,
    targetLargeVisit: int,
    targetMediumVisit: int,
    targetSmallVisit: int,
    targetLargeContract: int,
    targetMediumContract: int,
    targetSmallContract: int,
    visitThreshold: int,
    contractThreshold: int,
    largeCafeBonus: int,
    mediumCafeBonus: int,
    smallCafeBonus: int,
    baseSalaryPercentage: int,
    totalTargetSalary: int,
    visitKpiPercentage: int,
    contractKpiPercentage: int,
    representativeName: string)

  /** A cafe as the caller supplies it (`InsertCafe`: no id, no creation time). */
  datatype InsertCafe = InsertCafe(
    name: string,
    area: string,
    ownerName: string,
    ownerNumber: string,
    hookahCount: int,
    tableCount: int,
    status: string,
    photoUrl: Option<string>)

  /** A stored cafe (the `cafes` table). */
  datatype Cafe = Cafe(
    id: int,
    name: string,
    area: string,
    ownerName: string,
    ownerNumber: string,
    hookahCount: int,
    tableCount: int,
    status: string,
    photoUrl: Option<string>,
    createdAt: int)

  /** `Partial<InsertCafe>`: `None` is a field the update leaves out. */
  datatype CafePatch = CafePatch(
    name: Option<string>,
    area: Option<string>,
    ownerName: Option<string>,
    ownerNumber: Option<string>,
    hookahCount: Option<int>,
    tableCount: Option<int>,
    status: Option<string>,
    photoUrl: Option<Option<string>>)

  /** An audit-log entry (the `activities` table). */
  datatype Activity = Activity(
    id: int,
    cafeId: int,
    activityType: string,
    description: string,
    timestamp: int)

  /** An audit-log entry as the caller supplies it (`InsertActivity`: no id, no timestamp). */
  datatype InsertActivity = InsertActivity(
    cafeId: int,
    activityType: string,
    description: string)

  /** A calendar month; it is both the store's month key and the record's `month` column. */
  datatype Period = Period(year: int, month: int)

  /** The six counters of a month, by kind and size tier. */
  datatype Counts = Counts(
    largeVisits: int,
    mediumVisits: int,
    smallVisits: int,
    largeContracts: int,
    mediumContracts: int,
    smallContracts: int)

  /** A month's record (the `monthly_performance` table). */
  datatype MonthlyPerformance = MonthlyPerformance(
    id: int,
    period: Period,
    counts: Counts,
    baseSalary: int,
    kpiBonus: real,
    totalSalary: real)
}
