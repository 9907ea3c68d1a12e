# HorecaSalaryTracker core in Dafny

HorecaSalaryTracker tracks a sales representative who signs hookah cafes.
Each cafe has a size tier, decided by its hookah count, and a status: pending,
visited or contracted. For every calendar month the in-memory store
`MemStorage` keeps six counters: visits and contracts per tier. It also keeps
that month's salary: a base salary plus a KPI bonus. The bonus is paid from
the contract and visit completion percentages against configurable targets.

This project models that core:

- **`Schema`** (`schema.dfy`): the records of the store and the size rule `getCafeSize`.
- **`Compensation`** (`compensation.dfy`): the salary engine `calculatePerformance`.
  - Its arithmetic is exact rational arithmetic on `real`.
  - `Math.round` is `Floor(x + 1/2)`, which sends halves up.
  - JavaScript's `v || d` on numbers is written out as `OrElse`: a 0 setting falls back to its default.
- **`CompensationProperties`** (`compensation_props.dfy`): what the engine promises.
  - The defaults and the zero-value fallbacks.
  - The threshold gates and the cap on the contract bonus.
  - The visit bonus has no cap.
  - Monotonicity in the counters.
  - Worked examples.
- **`Accumulator`** (`accumulator.dfy`): the per-cafe deltas that `updatePerformanceForCafe` applies to a month's counters.
  - Reversal is the exact inverse of adding.
  - `Tally` sums the contributions of all current cafes.
- **`Storage`** (`storage.dfy`): `MemStorage` as a class whose methods update its map fields in place.
  - Methods: settings, month records, activities, and the cafe lifecycle (create, update, delete).
  - `updatePerformanceForCafe` writes the salary formula out a second time. The model keeps that second copy, `RecomputeSalaryInline`, and proves it equal to `calculatePerformance`.
  - The class-level invariant `Reconciled(period)`: the month's counters equal the sum of the current cafes' contributions. Create, update and delete preserve it for the current month.
- **`ExportUtils`** (`initials.dfy`): `getInitials`.
  - It is built from `split(' ')`, `part[0]`, `join`, `toUpperCase` and `slice(0, 2)`.
  - It is proved equal to a reference definition: the upper-cased first two word starts of the name.
- **`Learning`** (`learning.dfy`): the learning side of `MemStorage` as the class `LearningStore`. It shares no field with the cafe side.
  - Deleting a skill removes it from every learning path and removes its progress records and content.
  - Looking up a path's skills, and the content of a skill sorted by position.
  - Progress records: find, create, update and complete a skill.
  - Achievements: `awardAchievement` never awards a (user, achievement) pair twice. `checkAndAwardAchievements` awards exactly the achievements the user qualifies for, by points or, for "Sales Master" and "Product Guru", by completing every skill of the sales or product category.

The current date, which the source reads with `new Date()`, is the `Clock`
parameter (year, month, timestamp). The month key `` `${year}-${month}` ``
is the pair `Period(year, month)`; the string is injective on integer pairs,
so nothing is lost. Percentages, portions and the contract bonus are `real`.
Counters, targets and money amounts are unbounded `int`.

## Model

| member | source | states |
|---|---|---|
| Schema.GetCafeSize | HorecaSalaryTracker/shared/schema.ts:298-302 | at most 3 hookahs (0 and negatives included) is small, 4 to 7 is medium, 8 or more is large, each as an if-and-only-if |
| Schema.GetCafeSizeMonotone | HorecaSalaryTracker/shared/schema.ts:298-302 | more hookahs never give a smaller tier (small < medium < large) |
| Schema.GetCafeSizeBoundaries | HorecaSalaryTracker/shared/schema.ts:299-301 | 3 is small, 4 and 7 are medium, 8 is large, 0 and -1 are small |
| Compensation.Round | HorecaSalaryTracker/server/storage.ts:209 | Math.round gives the integer r with r <= x + 1/2 < r + 1 |
| Compensation.Percentage | HorecaSalaryTracker/server/storage.ts:218 | a non-positive target sum gives 0%; otherwise pct * target == 100 * done |
| Compensation.ContractBonus | HorecaSalaryTracker/server/storage.ts:212-237 | below the effective threshold (0 stands for 80) the bonus is 0; at or above it is the raw per-tier bonus or the contract portion, whichever is smaller, unrounded |
| Compensation.VisitBonus | HorecaSalaryTracker/server/storage.ts:240-253 | below the visit threshold (no default) the bonus is 0; at or above it is the visit portion scaled by the completion percentage, rounded half up |
| Compensation.CalculatePerformance | HorecaSalaryTracker/server/storage.ts:207-264 | id, month and all six counters are kept; baseSalary is the rounded base share of the target salary, kpiBonus is contract plus visit bonus, totalSalary is their sum |
| Compensation.CalculatePerformanceIdempotent | HorecaSalaryTracker/server/storage.ts:207-264 | pricing a priced record again changes nothing |
| Compensation.SalaryDependsOnlyOnCounts | HorecaSalaryTracker/server/storage.ts:207-264 | two records with the same counters get the same three salary fields |
| CompensationProperties.DefaultBaseSalary | HorecaSalaryTracker/server/storage.ts:157-209 | with the default 3000 target and 30% base share the base salary is 900 |
| CompensationProperties.ZeroContractShareMeansFifty | HorecaSalaryTracker/server/storage.ts:224 | a contract KPI share of 0 pays exactly as a share of 50 |
| CompensationProperties.ZeroVisitShareMeansFifty | HorecaSalaryTracker/server/storage.ts:249 | a visit KPI share of 0 pays exactly as a share of 50 |
| CompensationProperties.ZeroContractThresholdMeansEighty | HorecaSalaryTracker/server/storage.ts:236 | a contract threshold of 0 pays exactly as a threshold of 80 |
| CompensationProperties.ZeroThresholdsAreAsymmetric | HorecaSalaryTracker/server/storage.ts:236-251 | with both thresholds 0 and one visit and one contract, the visit bonus is paid (18) and the contract bonus is not (0), because only the contract threshold falls back to 80 |
| CompensationProperties.ContractBonusCapExample | HorecaSalaryTracker/server/storage.ts:229-237 | 24 large contracts under the defaults earn 2400 raw but are capped at the 1050 contract portion |
| CompensationProperties.VisitBonusOverTargetExample | HorecaSalaryTracker/server/storage.ts:240-253 | 90 visits against a 60 target earn 1575, more than the 1050 visit portion |
| CompensationProperties.SingleContractScenario | HorecaSalaryTracker/server/storage.ts:207-264 | under the defaults one visit and one contract pay only the 900 base: both gates fail |
| CompensationProperties.SingleVisitBelowThreshold | HorecaSalaryTracker/server/storage.ts:240-253 | one visit against the default 60 target stays below 80% and earns nothing |
| CompensationProperties.SingleContractBelowThreshold | HorecaSalaryTracker/server/storage.ts:212-237 | one contract against the default 30 target stays below 80% and earns nothing |
| CompensationProperties.PercentageMonotone | HorecaSalaryTracker/server/storage.ts:218 | more done against the same target never lowers the completion percentage |
| CompensationProperties.RoundMonotone | HorecaSalaryTracker/server/storage.ts:209 | Math.round never decreases |
| CompensationProperties.VisitBonusMonotone | HorecaSalaryTracker/server/storage.ts:240-253 | with a non-negative visit portion, more visits never lower the visit bonus |
| CompensationProperties.ContractBonusMonotone | HorecaSalaryTracker/server/storage.ts:212-237 | with non-negative per-tier bonuses and portion, more contracts in every tier never lower the contract bonus |
| CompensationProperties.TotalSalaryMonotone | HorecaSalaryTracker/server/storage.ts:207-264 | more visits and contracts in every tier never lower the total salary |
| CompensationProperties.VisitBonusUnbounded | HorecaSalaryTracker/server/storage.ts:240-253 | with positive targets and visit portion, some counters earn a visit bonus above any given amount: it has no cap |
| CompensationProperties.PercentageOfMultiple | HorecaSalaryTracker/server/storage.ts:246 | p times the target done is p * 100 percent |
| Accumulator.Contribution | HorecaSalaryTracker/server/storage.ts:456-478 | a cafe adds one visit to its own tier when visited or contracted, one contract when contracted, and nothing else |
| Accumulator.ShiftPending | HorecaSalaryTracker/server/storage.ts:456-466 | a pending cafe changes no counter |
| Accumulator.ShiftMovesOwnTier | HorecaSalaryTracker/server/storage.ts:456-478 | each counter moves by the factor exactly when the cafe's tier and status select it; all others stay put |
| Accumulator.AddThenReverse | HorecaSalaryTracker/server/storage.ts:453-478 | adding a cafe and then reversing it restores all six counters |
| Accumulator.ReverseThenAdd | HorecaSalaryTracker/server/storage.ts:453-478 | reversing a cafe and then adding it restores all six counters |
| Accumulator.ReaccumulateUnchanged | HorecaSalaryTracker/server/storage.ts:331-336 | reversing the old cafe and adding the new one is a no-op when status and hookah count agree |
| Accumulator.TallyInsert | HorecaSalaryTracker/server/storage.ts:275-296 | adding a cafe under a fresh id adds its contribution to the sum over all cafes |
| Accumulator.TallyRemove | HorecaSalaryTracker/server/storage.ts:342-361 | removing a cafe subtracts its contribution from the sum over all cafes |
| Accumulator.TallyReplace | HorecaSalaryTracker/server/storage.ts:298-340 | replacing a cafe subtracts the old contribution and adds the new one |
| Storage.AccumulatedCounts | HorecaSalaryTracker/server/storage.ts:443-533 | updatePerformanceForCafe moves the current month's counters by exactly the cafe's contribution times the factor, a missing month counting as zero, and no other month's counters |
| Storage.NothingDoneNoBonus | HorecaSalaryTracker/server/storage.ts:212-253 | no visits, no contracts and no raw contract bonus earn no bonus, unless a negative contract threshold opens the gate to a negative portion |
| Storage.NothingDonePriced | HorecaSalaryTracker/server/storage.ts:207-264 | such a record with no bonus and the base salary as total is already what calculatePerformance gives |
| Storage.NewMonthPriced | HorecaSalaryTracker/server/storage.ts:388-418 | given a positive contract threshold or a non-negative contract portion, the record getMonthPerformance creates carries the salary calculatePerformance gives its zero counters |
| Storage.AccumulatedPriced | HorecaSalaryTracker/server/storage.ts:443-533 | after updatePerformanceForCafe the month's record is priced by the settings |
| Storage.AddThenReverseRestoresMonth | HorecaSalaryTracker/server/storage.ts:443-533 | adding a cafe to the month and then reversing it restores the month's counters |
| Storage.ReversalInFreshMonthGoesNegative | HorecaSalaryTracker/server/storage.ts:443-478 | reversing a visited or contracted cafe in a month without a record drives its tier's visit counter to -1 |
| Storage.ApplyPatch | HorecaSalaryTracker/server/storage.ts:305-308 | the spread merge keeps the cafe's id and creation time; every field present in the patch wins and every absent field keeps the cafe's value |
| Storage.ApplyCafeToCounts | HorecaSalaryTracker/server/storage.ts:444-478 | the counter updates of updatePerformanceForCafe equal the cafe's contribution times the factor, added to the counters |
| Storage.RecomputeSalaryInline | HorecaSalaryTracker/server/storage.ts:480-529 | the second, inline copy of the salary formula gives exactly calculatePerformance's record |
| Storage.MemStorage.constructor | HorecaSalaryTracker/server/storage.ts:94-104 | no settings, no cafes, activities or month records, all id counters at 1, every month reconciled |
| Storage.MemStorage.GetKpiSettings | HorecaSalaryTracker/server/storage.ts:151-179 | returns the stored settings, or stores and returns the fixed defaults under the settings id; afterwards the slot holds what was returned |
| Storage.MemStorage.GetMonthPerformance | HorecaSalaryTracker/server/storage.ts:388-418 | an existing month record is returned unchanged; a missing one is created with the next record id, zero counters, no bonus and the base salary as total, after materialising the settings |
| Storage.MemStorage.GetCurrentMonthPerformance | HorecaSalaryTracker/server/storage.ts:383-386 | getMonthPerformance for the clock's month |
| Storage.MemStorage.UpdateMonthPerformance | HorecaSalaryTracker/server/storage.ts:426-441 | stores the record under the month, creating the month first (using up a record id) when it is missing |
| Storage.MemStorage.SaveKpiSettings | HorecaSalaryTracker/server/storage.ts:181-205 | the settings are replaced wholesale under the settings id; the current month exists afterwards and is priced by the new settings |
| Storage.MemStorage.UpdatePerformanceForCafe | HorecaSalaryTracker/server/storage.ts:443-533 | the current month becomes the engine's pricing of its counters shifted by the cafe's contribution (+1, or -1 for a reversal); the settings are materialised |
| Storage.MemStorage.CreateActivity | HorecaSalaryTracker/server/storage.ts:370-381 | the entry is stored under the next, previously unused activity id with the clock's timestamp |
| Storage.MemStorage.Reaccumulate | HorecaSalaryTracker/server/storage.ts:331-336 | the old cafe is reversed and the new one added in the current month: its counters move by minus the old and plus the new contribution, and the record is priced |
| Storage.MemStorage.CreateCafe | HorecaSalaryTracker/server/storage.ts:275-296 | the cafe is stored under the next id, a "visit" entry "Added new cafe: name" is logged, its contribution is added to the current month, and the month stays reconciled |
| Storage.MemStorage.UpdateCafe | HorecaSalaryTracker/server/storage.ts:298-340 | an unknown id fails and changes nothing; otherwise the patch is merged, an "update" entry is logged, plus a "contract" or "visit" entry on a status change, and the month is re-accumulated (old reversed, new added) exactly when status or hookah count changed; the month stays reconciled |
| Storage.MemStorage.DeleteCafe | HorecaSalaryTracker/server/storage.ts:342-361 | an unknown id fails and changes nothing; otherwise the cafe's contribution is reversed, every activity of the cafe and the cafe itself are removed, nothing else; the month stays reconciled |
| ExportUtils.Split | HorecaSalaryTracker/HorecaSalaryTracker/client/src/lib/exportUtils.ts:9 | split(' ') always gives at least one piece |
| ExportUtils.Head | HorecaSalaryTracker/HorecaSalaryTracker/client/src/lib/exportUtils.ts:10-11 | part[0] joins as one character for a non-empty piece and as nothing for an empty one |
| ExportUtils.UpperCase | HorecaSalaryTracker/HorecaSalaryTracker/client/src/lib/exportUtils.ts:12 | upper-casing keeps the length and maps each character through the ASCII upper-case rule |
| ExportUtils.TakeTwo | HorecaSalaryTracker/HorecaSalaryTracker/client/src/lib/exportUtils.ts:13 | slice(0, 2) is the prefix of length min(2, length) |
| ExportUtils.Initials | HorecaSalaryTracker/HorecaSalaryTracker/client/src/lib/exportUtils.ts:6-14 | an empty name gives "SR"; every result has at most two characters |
| ExportUtils.SplitJoin | HorecaSalaryTracker/HorecaSalaryTracker/client/src/lib/exportUtils.ts:9 | joining the pieces with a space gives back the name, and no piece contains a space |
| ExportUtils.FirstCharsAreWordStarts | HorecaSalaryTracker/HorecaSalaryTracker/client/src/lib/exportUtils.ts:9-11 | the first characters of the pieces are the name's word starts, in order: empty pieces from repeated spaces contribute nothing |
| ExportUtils.FirstCharsOfLaterPieces | HorecaSalaryTracker/HorecaSalaryTracker/client/src/lib/exportUtils.ts:9-11 | the pieces after the first start exactly at the word starts that follow a space |
| ExportUtils.InitialsAreWordStarts | HorecaSalaryTracker/HorecaSalaryTracker/client/src/lib/exportUtils.ts:8-13 | for a non-empty name the result is the upper-cased first two word starts |
| ExportUtils.NoSpaceNoLaterStart | HorecaSalaryTracker/HorecaSalaryTracker/client/src/lib/exportUtils.ts:9-11 | a string without spaces starts no further word |
| ExportUtils.OneWordName | HorecaSalaryTracker/HorecaSalaryTracker/client/src/lib/exportUtils.ts:8-13 | a one-word name yields exactly its first character, upper-cased |
| ExportUtils.TwoWordName | HorecaSalaryTracker/HorecaSalaryTracker/client/src/lib/exportUtils.ts:8-13 | two words separated by a space yield both initials, upper-cased, in order |
| ExportUtils.SpacesHaveNoStart | HorecaSalaryTracker/HorecaSalaryTracker/client/src/lib/exportUtils.ts:9-11 | a string of spaces only has no word start |
| ExportUtils.SpacesOnlyName | HorecaSalaryTracker/HorecaSalaryTracker/client/src/lib/exportUtils.ts:7-13 | a name of spaces only is truthy, so it yields "" rather than "SR" |
| ExportUtils.WordStartsOfWord | HorecaSalaryTracker/HorecaSalaryTracker/client/src/lib/exportUtils.ts:9-11 | a word contributes its first character and nothing else |
| ExportUtils.LaterWordStarts | HorecaSalaryTracker/HorecaSalaryTracker/client/src/lib/exportUtils.ts:9-11 | a run of non-spaces after a non-space starts no word |
| Learning.Without | HorecaSalaryTracker/server/storage.ts:784 | keeps exactly the ids other than the deleted one; a list without it is returned unchanged |
| Learning.WithoutAppend | HorecaSalaryTracker/server/storage.ts:784 | filtering a concatenation filters each part, so the kept ids stay in order and keep their multiplicity |
| Learning.WithoutSingle | HorecaSalaryTracker/server/storage.ts:784 | a single id is kept exactly when it is not the deleted one |
| Learning.PathWithout | HorecaSalaryTracker/server/storage.ts:783-789 | the path's list becomes the filtered list, without the deleted id and with every other id in order; every other field is kept |
| Learning.PathsWithout | HorecaSalaryTracker/server/storage.ts:782-790 | the same paths under the same ids; each list is the filtered list, so none lists the deleted skill; nothing else in them changes |
| Learning.ProgressNotOf | HorecaSalaryTracker/server/storage.ts:793-797 | exactly the progress records of other skills remain, unchanged |
| Learning.ContentNotOf | HorecaSalaryTracker/server/storage.ts:800-804 | exactly the content of other skills remains, unchanged |
| Learning.KnownSkills | HorecaSalaryTracker/server/storage.ts:852-861 | no more skills than ids; only stored skills that the path lists; every stored skill the path lists is in the result |
| Learning.KnownSkillsAppend | HorecaSalaryTracker/server/storage.ts:852-861 | the lookup of two id lists in a row is the two lookups in a row, so the result follows the path's order |
| Learning.KnownSkillsAllStored | HorecaSalaryTracker/server/storage.ts:852-861 | when every id of the path is stored, the result is the path's skills position by position |
| Learning.KnownSkillsSnoc | HorecaSalaryTracker/server/storage.ts:857-860 | one more id in the path appends its skill, or nothing when the id is unknown |
| Learning.KnownSkillsWithoutMissing | HorecaSalaryTracker/server/storage.ts:781-790 | once a skill is gone, filtering its id out of a path does not change what the path yields |
| Learning.DeleteSkillKeepsPathSkills | HorecaSalaryTracker/server/storage.ts:774-790 | after deleteSkill every path yields what it yielded before, less the deleted skill |
| Learning.InsertByPosition | HorecaSalaryTracker/server/storage.ts:1075 | one step of the sort: one entry longer, holding the old entries and the new one |
| Learning.InsertByPositionSorted | HorecaSalaryTracker/server/storage.ts:1072-1076 | inserting entries in id order keeps them sorted by position, ties by id, and is a permutation step |
| Learning.ContentBelowStep | HorecaSalaryTracker/server/storage.ts:1072-1074 | raising the id bound by one adds the content under the old bound exactly when it is the skill's |
| Learning.AwardPairsInsert | HorecaSalaryTracker/server/storage.ts:1060-1066 | storing an award under a fresh id adds exactly its (user, achievement) pair |
| Learning.PatchedProgress | HorecaSalaryTracker/server/storage.ts:909-913 | every field present in the patch overwrites the stored one; id and start date are kept; the completion date is the one given |
| Learning.PointsOverPick | HorecaSalaryTracker/server/storage.ts:956 | the points total does not depend on the order in which records are summed |
| Learning.PointsOverFrame | HorecaSalaryTracker/server/storage.ts:956 | the total over some records depends only on those records |
| Learning.TotalPointsStore | HorecaSalaryTracker/server/storage.ts:949-956 | storing a record changes the user's total by its points minus those of the record it replaces |
| Learning.CompletionAddsSkillPoints | HorecaSalaryTracker/server/storage.ts:949-956 | completing an unfinished record of a stored skill raises the user's total by that skill's points |
| Learning.NoCompletionNoPoints | HorecaSalaryTracker/server/storage.ts:949-956 | a user with no completed record of a stored skill has 0 points |
| Learning.CompletedSkills | HorecaSalaryTracker/server/storage.ts:950-953 | exactly the stored skills of the user's completed records |
| Learning.CompletedIdsIn | HorecaSalaryTracker/server/storage.ts:979-981 | exactly the ids of the completed skills of the category |
| Learning.SalesMasterWithoutSalesSkills | HorecaSalaryTracker/server/storage.ts:977-985 | while no sales skill is stored, "Sales Master" qualifies on any check, because `every` over nothing holds |
| Learning.QualifyingPairs | HorecaSalaryTracker/server/storage.ts:963-998 | exactly the pairs of this user with the stored achievements they qualify for |
| Learning.EarnedAchievementIds | HorecaSalaryTracker/server/storage.ts:959-960 | an achievement id is earned exactly when the user holds that pair |
| Learning.QualifyingPairsStep | HorecaSalaryTracker/server/storage.ts:964-998 | one more achievement considered adds its pair exactly when the user qualifies for it |
| Learning.LearningStore.constructor | HorecaSalaryTracker/server/storage.ts:125-127 | the seed skills, paths, achievements and content are stored; there is no progress and no award yet; the invariant holds |
| Learning.LearningStore.DeleteSkill | HorecaSalaryTracker/server/storage.ts:774-806 | an unknown skill fails and nothing changes; otherwise the skill is removed, filtered out of every path, and its progress and content removed |
| Learning.LearningStore.RemoveFromPaths | HorecaSalaryTracker/server/storage.ts:781-790 | every path becomes its filtered version |
| Learning.LearningStore.RemoveProgressOf | HorecaSalaryTracker/server/storage.ts:792-797 | exactly the progress records of the skill are removed |
| Learning.LearningStore.RemoveContentOf | HorecaSalaryTracker/server/storage.ts:799-805 | exactly the content of the skill is removed |
| Learning.LearningStore.DeleteLearningPath | HorecaSalaryTracker/server/storage.ts:844-850 | an unknown path fails and nothing changes; otherwise only that path is removed |
| Learning.LearningStore.GetSkillsForLearningPath | HorecaSalaryTracker/server/storage.ts:852-861 | an unknown path fails; otherwise the path's stored skills in the path's order |
| Learning.LearningStore.AwardAchievement | HorecaSalaryTracker/server/storage.ts:1043-1069 | a held pair is returned unchanged; an unknown achievement fails; otherwise one award under the next id; pairs stay unique and grow by exactly the pair on success |
| Learning.LearningStore.GetContentForSkill | HorecaSalaryTracker/server/storage.ts:1072-1076 | exactly the skill's content, as a multiset, sorted by position with ties in id order |
| Learning.LearningStore.CheckAndAwardAchievements | HorecaSalaryTracker/server/storage.ts:947-999 | existing awards are kept and the user's pairs grow by exactly the achievements they qualify for |
| Learning.LearningStore.SumPoints | HorecaSalaryTracker/server/storage.ts:956 | the reduce computes the user's points total |
| Learning.LearningStore.AwardAllQualified | HorecaSalaryTracker/server/storage.ts:963-998 | the loop adds exactly the qualifying pairs and keeps every award |
| Learning.LearningStore.AwardIfQualified | HorecaSalaryTracker/server/storage.ts:964-997 | an achievement is awarded in one pass exactly when the user qualifies for it |
| Learning.LearningStore.GetUserProgressByUserAndSkill | HorecaSalaryTracker/server/storage.ts:874-877 | the user's record of the skill with the lowest id, or nothing when there is none |
| Learning.LearningStore.CreateUserProgress | HorecaSalaryTracker/server/storage.ts:879-896 | the record is stored under the next id, started now and completed now if completed; a completed record runs the achievement check; otherwise awards are unchanged |
| Learning.LearningStore.UpdateUserProgress | HorecaSalaryTracker/server/storage.ts:898-924 | an unknown id fails; otherwise the patch is applied, the date set when the record becomes completed, and then the check runs for the record's previous user |
| Learning.LearningStore.CompleteSkill | HorecaSalaryTracker/server/storage.ts:926-944 | the result is the user's completed record of the skill at 100. The first existing record is patched, keeping its notes and start date, with the completion date set now unless it was already completed. Otherwise a new record is created under the next id, started and completed now, with notes "Skill completed". The check runs unless the record was already completed |

## Left out

- `DatabaseStorage` (server/storage.ts:1114-1787) is not part of this model. It is the Postgres-backed store and is not the one the server uses; its `createCafe` does not touch the month records at all.
- The `updatePerformanceForCafe` in server/routes.ts (191-276) is not part of this model. It is never called, and it differs: it has no `|| 80` default for the contract threshold.
- IEEE double rounding is not modelled. Percentages and bonuses are exact rationals, so a value that a double would land just below a threshold or a rounding half is decided exactly here.
- `async`/`await`: every store method is a sequential method. Interleaving of two requests on the same month is not modelled.
- `new Date()` is the `Clock` parameter. `createdAt` and activity timestamps are its integer `timestamp`. The ISO `month` string of a record (`YYYY-MM-01`) is its `Period`.
- Storage.MemStorage.UpdateCafe, Reaccumulate, CreateCafe and DeleteCafe read one clock per call. The source reads `new Date()` once per nested call (server/storage.ts:280, 375, 445), so in the source a call that straddles a month boundary can split across two months: `updateCafe` can reverse the old cafe in one month and add the new one in the next, leaving neither month reconciled. That case is not modelled, and the `Reconciled` ensures of these methods hold only for calls that stay within one month. The learning methods likewise use one `now` for every date they set in one call.
- `getRecentActivities` and `getPerformanceHistory` (server/storage.ts:364-368, 420-424) are not modelled: they only sort by parsed dates and slice.
- The user methods (`getUser`, `createUser`) and `getAllCafes`/`getCafeById` are plain map reads and are not modelled.
- Storage.MemStorage.UpdateMonthPerformance takes a whole record where the source takes a `Partial` and spreads it over the stored one. The only caller passes a whole record, so the result is the same.
- Storage.MemStorage.SaveKpiSettings puts the settings id first, as `{ id, ...settings }` does. A body that carried its own `id` would override it in the source; here the settings record's own id is replaced.
- Storage.ApplyPatch models `{ ...oldCafe, ...cafeData }` with absent fields as `None`. A field explicitly set to `undefined`, or an `id` in the body, would overwrite in the source and is not modelled. Request bodies are not validated in either.
- The status and activity type stay strings, as in the source, so an unknown status counts as pending.
- ExportUtils.Initials takes a string. The source's `!name` test also sends `null` and `undefined` to "SR"; those values are not modelled. The `getInitials` of exportUtils.ts has no caller in the source; MainLayout.tsx (67-75) has its own copy.
- Schema.GetCafeSize takes an integer hookah count. The cafe form coerces the count with `z.coerce.number().min(1)`, with no integer check, and the server stores the body as it is. A fractional count such as 3.5 (medium in the source) is not modelled.
- Compensation.CalculatePerformance takes integer settings. The settings form accepts any number of at least 0, with no integer check. Fractional salaries, targets, percentages and thresholds, and their effect inside `Math.round`, are not modelled.
- ExportUtils.UpperCase (and its per-character ToUpper): only the ASCII letters a-z are upper-cased. `toUpperCase` also maps other letters, and some, such as ß, to two characters; names are `seq<char>`, not UTF-16.
- Learning: the remaining learning methods of `MemStorage` (server/storage.ts:729-772, 809-842, 864-872, 1002-1041, 1078-1111) are not modelled. They are plain map reads and filters, or creates and spread updates of the same shape as `createUserProgress` and `updateUserProgress`.
- Learning.LearningStore.constructor takes the seed records as parameters. The literal records of `initializeLearningData` (server/storage.ts:536-727) are not written out.
- Learning.LearningStore.CreateUserProgress takes every field of the new record. In the source `progress` and `completed` have defaults that the request schema may leave to the database; `MemStorage` does not fill them in.
- Learning: a missing `notes` (`null` in the source) is the empty string.
- Learning.LearningStore.CheckAndAwardAchievements states the set of awarded pairs, not the ids and order of the new awards. Those follow the iteration order of the achievements map.
- The React pages, the PDF and Excel exporters, the photo upload and the client-side password gate are outside the core.
