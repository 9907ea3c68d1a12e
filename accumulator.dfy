/**
 * The performance accumulator of MemStorage.updatePerformanceForCafe
 * (server/storage.ts): a cafe contributes one visit in its size tier when
 * it is visited or contracted, and one contract in its tier when it is
 * contracted; adding applies the contribution with factor +1, reversing with
 * factor -1. Tally sums the contributions of all cafes in a map, the figure
 * a month's counters must agree with when every change is accumulated.
 */
module Accumulator {
  import opened Schema

  function Zero(): Counts
  {
    Counts(0, 0, 0, 0, 0, 0)
  }

  function Add(a: Counts, b: Counts): Counts
  {
    Counts(a.largeVisits + b.largeVisits, a.mediumVisits + b.mediumVisits, a.smallVisits + b.smallVisits,
           a.largeContracts + b.largeContracts, a.mediumContracts + b.mediumContracts,
           a.smallContracts + b.smallContracts)
  }

  function Scale(a: Counts, factor: int): Counts
  {
    Counts(factor * a.largeVisits, factor * a.mediumVisits, factor * a.smallVisits,
           factor * a.largeContracts, factor * a.mediumContracts, factor * a.smallContracts)
  }

  /** The visit counter of one size tier. */
  function VisitsOf(c: Counts, size: CafeSize): int
  {
    match size
    case Large => c.largeVisits
    case Medium => c.mediumVisits
    case Small => c.smallVisits
  }

  /** The contract counter of one size tier. */
  function ContractsOf(c: Counts, size: CafeSize): int
  {
    match size
    case Large => c.largeContracts
    case Medium => c.mediumContracts
    case Small => c.smallContracts
  }

  /** Whether a cafe counts as visited: its status is visited or contracted. */
  predicate CountsAsVisit(cafe: Cafe)
  {
    cafe.status == Visited || cafe.status == Contracted
  }

  /** Whether a cafe counts as a contract: its status is contracted. */
  predicate CountsAsContract(cafe: Cafe)
  {
    cafe.status == Contracted
  }

  /** What one cafe adds to a month's counters. */
  function Contribution(cafe: Cafe): (c: Counts)
    ensures forall size :: VisitsOf(c, size) == if CountsAsVisit(cafe) && size == GetCafeSize(cafe.hookahCount) then 1 else 0
    ensures forall size :: ContractsOf(c, size) == if CountsAsContract(cafe) && size == GetCafeSize(cafe.hookahCount) then 1 else 0
  {
    var v := if CountsAsVisit(cafe) then 1 else 0;
    var k := if CountsAsContract(cafe) then 1 else 0;
    match GetCafeSize(cafe.hookahCount)
    case Large => Counts(v, 0, 0, k, 0, 0)
    case Medium => Counts(0, v, 0, 0, k, 0)
    case Small => Counts(0, 0, v, 0, 0, k)
  }

  /** The counters after applying a cafe with the given factor (+1 add, -1 reverse). */
  function Shift(c: Counts, cafe: Cafe, factor: int): Counts
  {
    Add(c, Scale(Contribution(cafe), factor))
  }

  /** A cafe that is neither visited nor contracted moves no counter. */
  lemma ShiftPending(c: Counts, cafe: Cafe, factor: int)
    requires !CountsAsVisit(cafe)
    ensures Shift(c, cafe, factor) == c
  {
  }

  /**
   * Applying a cafe moves the visit counter of its own tier by the factor
   * when it is visited or contracted, the contract counter of its own tier
   * by the factor when it is contracted, and nothing else.
   */
  lemma ShiftMovesOwnTier(c: Counts, cafe: Cafe, factor: int, size: CafeSize)
    ensures VisitsOf(Shift(c, cafe, factor), size) ==
            VisitsOf(c, size) + (if CountsAsVisit(cafe) && size == GetCafeSize(cafe.hookahCount) then factor else 0)
    ensures ContractsOf(Shift(c, cafe, factor), size) ==
            ContractsOf(c, size) + (if CountsAsContract(cafe) && size == GetCafeSize(cafe.hookahCount) then factor else 0)
  {
    var k := Contribution(cafe);
    assert VisitsOf(k, size) == if CountsAsVisit(cafe) && size == GetCafeSize(cafe.hookahCount) then 1 else 0;
    assert ContractsOf(k, size) == if CountsAsContract(cafe) && size == GetCafeSize(cafe.hookahCount) then 1 else 0;
  }

  /** Adding a cafe and then reversing it restores all six counters. */
  lemma AddThenReverse(c: Counts, cafe: Cafe)
    ensures Shift(Shift(c, cafe, 1), cafe, -1) == c
  {
  }

  /** Reversing a cafe and then adding it back restores all six counters. */
  lemma ReverseThenAdd(c: Counts, cafe: Cafe)
    ensures Shift(Shift(c, cafe, -1), cafe, 1) == c
  {
  }

  /**
   * A cafe whose status and hookah count are unchanged contributes the
   * same, so reversing the old state and adding the new one is a no-op:
   * that is why updateCafe may skip it.
   */
  lemma ReaccumulateUnchanged(c: Counts, before: Cafe, after: Cafe)
    requires before.status == after.status && before.hookahCount == after.hookahCount
    ensures Shift(Shift(c, before, -1), after, 1) == c
  {
  }

  /** A non-empty set has an element. */
  lemma NonEmptyHasElement(keys: set<int>)
    requires keys != {}
    ensures exists id :: id in keys
  {
    if forall id :: id !in keys {
      assert false;
    }
  }

  /** Some key of a non-empty key set: the order in which Tally visits the cafes. */
  ghost function PickKey(keys: set<int>): (id: int)
    requires keys != {}
    ensures id in keys
  {
    NonEmptyHasElement(keys);
    var id :| id in keys;
    id
  }

  /** The sum of the contributions of the cafes under the given keys. */
  ghost function TallyOver(cafes: map<int, Cafe>, keys: set<int>): Counts
    requires keys <= cafes.Keys
    decreases keys
  {
    if keys == {} then Zero()
    else
      var id := PickKey(keys);
      Add(TallyOver(cafes, keys - {id}), Contribution(cafes[id]))
  }

  /** The sum of the contributions of all cafes in the map. */
  ghost function Tally(cafes: map<int, Cafe>): Counts
  {
    TallyOver(cafes, cafes.Keys)
  }

  /** Any key can be taken out of the sum first, whatever order the sum used. */
  lemma {:induction false} TallyOverPick(cafes: map<int, Cafe>, keys: set<int>, id: int)
    requires keys <= cafes.Keys && id in keys
    ensures TallyOver(cafes, keys) == Add(TallyOver(cafes, keys - {id}), Contribution(cafes[id]))
    decreases keys
  {
    var j := PickKey(keys);
    if j != id {
      TallyOverPick(cafes, keys - {j}, id);
      TallyOverPick(cafes, keys - {id}, j);
      assert keys - {j} - {id} == keys - {id} - {j};
    }
  }

  /** The sum over some keys sees only the cafes under those keys. */
  lemma {:induction false} TallyOverFrame(a: map<int, Cafe>, b: map<int, Cafe>, keys: set<int>)
    requires keys <= a.Keys && keys <= b.Keys
    requires forall id :: id in keys ==> a[id] == b[id]
    ensures TallyOver(a, keys) == TallyOver(b, keys)
    decreases keys
  {
    if keys != {} {
      var j := PickKey(keys);
      TallyOverPick(b, keys, j);
      TallyOverFrame(a, b, keys - {j});
    }
  }

  /** Storing a new cafe adds its contribution to the tally. */
  lemma TallyInsert(cafes: map<int, Cafe>, id: int, cafe: Cafe)
    requires id !in cafes
    ensures Tally(cafes[id := cafe]) == Shift(Tally(cafes), cafe, 1)
  {
    var m := cafes[id := cafe];
    TallyOverPick(m, m.Keys, id);
    assert m.Keys - {id} == cafes.Keys;
    TallyOverFrame(m, cafes, cafes.Keys);
  }

  /** Removing a cafe reverses its contribution to the tally. */
  lemma TallyRemove(cafes: map<int, Cafe>, id: int)
    requires id in cafes
    ensures Tally(cafes - {id}) == Shift(Tally(cafes), cafes[id], -1)
  {
    var m := cafes - {id};
    TallyOverPick(cafes, cafes.Keys, id);
    assert cafes.Keys - {id} == m.Keys;
    TallyOverFrame(cafes, m, m.Keys);
  }

  /** Replacing a cafe reverses the old contribution and adds the new one. */
  lemma TallyReplace(cafes: map<int, Cafe>, id: int, cafe: Cafe)
    requires id in cafes
    ensures Tally(cafes[id := cafe]) == Shift(Shift(Tally(cafes), cafes[id], -1), cafe, 1)
  {
    TallyRemove(cafes, id);
    TallyInsert(cafes - {id}, id, cafe);
    assert (cafes - {id})[id := cafe] == cafes[id := cafe];
  }
}
