/**
 * The learning side of MemStorage (server/storage.ts): skills grouped into
 * learning paths, each user's progress on skills, achievements earned by
 * points or by completing a category, and learning content per skill.
 * It shares no field with the cafe side, so it is its own class here.
 * Every `new Date()` of the source is the `now` parameter.
 */
module Learning {
  import opened Wrappers
  import Accumulator

  datatype Skill = Skill(id: int, name: string, description: string, category: string, difficulty: string,
                         points: int, icon: string, prerequisites: seq<int>, createdAt: int)

  datatype LearningPath = LearningPath(id: int, name: string, description: string, skillIds: seq<int>,
                                       icon: string, createdAt: int)

  datatype UserProgress = UserProgress(id: int, userId: int, skillId: int, progress: int, completed: bool,
                                       dateStarted: int, dateCompleted: Option<int>, notes: string)

  /** The caller's part of a progress record: createUserProgress adds the id and the dates. */
  datatype InsertUserProgress = InsertUserProgress(userId: int, skillId: int, progress: int, completed: bool,
                                                   notes: string)

  /** A partial progress record: the fields present overwrite the stored ones. */
  datatype ProgressPatch = ProgressPatch(userId: Option<int>, skillId: Option<int>, progress: Option<int>,
                                         completed: Option<bool>, notes: Option<string>)

  datatype Achievement = Achievement(id: int, name: string, description: string, icon: string,
                                     requiredPoints: int, badgeUrl: string, createdAt: int)

  datatype UserAchievement = UserAchievement(id: int, userId: int, achievementId: int, dateEarned: int)

  datatype LearningContent = LearningContent(id: int, skillId: int, title: string, contentType: string,
                                             content: string, position: int, createdAt: int)

  /** The errors the learning methods throw on an unknown id. */
  datatype LearningError =
    | SkillNotFound(id: int)
    | LearningPathNotFound(id: int)
    | UserProgressNotFound(id: int)
    | AchievementNotFound(id: int)

  /** `ids.filter(x => x !== id)`. */
  function Without(ids: seq<int>, id: int): (r: seq<int>)
    ensures |r| <= |ids|
    ensures forall x :: x in r <==> x in ids && x != id
    ensures id !in ids ==> r == ids
  {
    if ids == [] then []
    else
      var last := ids[|ids| - 1];
      assert forall x :: x in ids <==> x in ids[..|ids| - 1] || x == last;
      Without(ids[..|ids| - 1], id) + (if last == id then [] else [last])
  }

  /** Filtering distributes over concatenation, so the kept ids keep their order and multiplicity. */
  lemma {:induction false} WithoutAppend(a: seq<int>, b: seq<int>, id: int)
    ensures Without(a + b, id) == Without(a, id) + Without(b, id)
    decreases |b|
  {
    if b == [] {
      assert a + b == a;
    } else {
      var front := b[..|b| - 1];
      var last := b[|b| - 1];
      assert (a + b)[..|a + b| - 1] == a + front;
      assert (a + b)[|a + b| - 1] == last;
      WithoutAppend(a, front, id);
    }
  }

  /** A single id is kept exactly when it is not the deleted one. */
  lemma WithoutSingle(x: int, id: int)
    ensures Without([x], id) == if x == id then [] else [x]
  {
    assert [x][..0] == [];
  }

  /** A learning path after deleteSkill: the skill's id filtered out of its list when it was there. */
  function PathWithout(path: LearningPath, id: int): (r: LearningPath)
    ensures id !in r.skillIds
    ensures r.skillIds == Without(path.skillIds, id)
    ensures r.(skillIds := path.skillIds) == path
  {
    if id in path.skillIds then path.(skillIds := Without(path.skillIds, id)) else path
  }

  function PathsWithout(paths: map<int, LearningPath>, id: int): (r: map<int, LearningPath>)
    ensures r.Keys == paths.Keys
    ensures forall k :: k in r ==> id !in r[k].skillIds && r[k].(skillIds := paths[k].skillIds) == paths[k]
    ensures forall k :: k in r ==> r[k].skillIds == Without(paths[k].skillIds, id)
  {
    map k | k in paths :: PathWithout(paths[k], id)
  }

  function ProgressNotOf(progress: map<int, UserProgress>, skillId: int): (r: map<int, UserProgress>)
    ensures forall k :: k in r <==> k in progress && progress[k].skillId != skillId
    ensures forall k :: k in r ==> r[k] == progress[k]
  {
    map k | k in progress && progress[k].skillId != skillId :: progress[k]
  }

  function ContentNotOf(content: map<int, LearningContent>, skillId: int): (r: map<int, LearningContent>)
    ensures forall k :: k in r <==> k in content && content[k].skillId != skillId
    ensures forall k :: k in r ==> r[k] == content[k]
  {
    map k | k in content && content[k].skillId != skillId :: content[k]
  }

  /**
   * getSkillsForLearningPath's result: the path's skill ids looked up in
   * order, unknown ids dropped.
   */
  function KnownSkills(ids: seq<int>, skills: map<int, Skill>): (r: seq<Skill>)
    ensures |r| <= |ids|
    ensures forall x :: x in r ==> exists k :: k in ids && k in skills && skills[k] == x
    ensures forall k :: k in ids && k in skills ==> skills[k] in r
  {
    if ids == [] then []
    else
      var last := ids[|ids| - 1];
      assert forall k :: k in ids ==> k in ids[..|ids| - 1] || k == last;
      KnownSkills(ids[..|ids| - 1], skills) + (if last in skills then [skills[last]] else [])
  }

  /** When every id of the path is known, the result is exactly the skills in the path's order. */
  lemma {:induction false} KnownSkillsAllStored(ids: seq<int>, skills: map<int, Skill>)
    requires forall k :: k in ids ==> k in skills
    ensures |KnownSkills(ids, skills)| == |ids|
    ensures forall j :: 0 <= j < |ids| ==> ids[j] in skills && KnownSkills(ids, skills)[j] == skills[ids[j]]
  {
    if ids != [] {
      var prefix := ids[..|ids| - 1];
      var last := ids[|ids| - 1];
      assert forall k :: k in prefix ==> k in ids;
      KnownSkillsAllStored(prefix, skills);
      assert last in ids;
      assert KnownSkills(ids, skills) == KnownSkills(prefix, skills) + [skills[last]];
      forall j | 0 <= j < |ids|
        ensures ids[j] in skills && KnownSkills(ids, skills)[j] == skills[ids[j]]
      {
        if j < |ids| - 1 {
          assert ids[j] == prefix[j];
        }
      }
    }
  }

  /** The lookup of two lists of ids one after the other is the two lookups one after the other. */
  lemma {:induction false} KnownSkillsAppend(a: seq<int>, b: seq<int>, skills: map<int, Skill>)
    ensures KnownSkills(a + b, skills) == KnownSkills(a, skills) + KnownSkills(b, skills)
    decreases |b|
  {
    if b == [] {
      assert a + b == a;
    } else {
      var front := b[..|b| - 1];
      var last := b[|b| - 1];
      assert (a + b)[..|a + b| - 1] == a + front;
      assert (a + b)[|a + b| - 1] == last;
      KnownSkillsAppend(a, front, skills);
    }
  }

  /** Looking up one more id appends its skill, when it is stored. */
  lemma KnownSkillsSnoc(ids: seq<int>, x: int, skills: map<int, Skill>)
    ensures KnownSkills(ids + [x], skills) == KnownSkills(ids, skills) + (if x in skills then [skills[x]] else [])
  {
    assert (ids + [x])[..|ids|] == ids;
  }

  /**
   * Filtering a deleted skill's id out of a path changes nothing that
   * getSkillsForLearningPath returns once the skill is gone.
   */
  lemma {:induction false} KnownSkillsWithoutMissing(ids: seq<int>, id: int, skills: map<int, Skill>)
    requires id !in skills
    ensures KnownSkills(Without(ids, id), skills) == KnownSkills(ids, skills)
  {
    if ids != [] {
      var prefix := ids[..|ids| - 1];
      var last := ids[|ids| - 1];
      KnownSkillsWithoutMissing(prefix, id, skills);
      assert ids == prefix + [last];
      KnownSkillsSnoc(prefix, last, skills);
      if last != id {
        KnownSkillsSnoc(Without(prefix, id), last, skills);
      } else {
        assert Without(ids, id) == Without(prefix, id) + [];
        assert Without(prefix, id) + [] == Without(prefix, id);
        assert KnownSkills(ids, skills) == KnownSkills(prefix, skills) + [];
      }
    }
  }

  /** After deleteSkill, every path yields what it yielded before, less the deleted skill. */
  lemma DeleteSkillKeepsPathSkills(path: LearningPath, id: int, skills: map<int, Skill>)
    ensures KnownSkills(PathWithout(path, id).skillIds, skills - {id}) ==
              KnownSkills(path.skillIds, skills - {id})
  {
    KnownSkillsWithoutMissing(path.skillIds, id, skills - {id});
  }

  /** Contents ordered by position, ties by id (the order in which they were created). */
  predicate ContentBefore(a: LearningContent, b: LearningContent)
  {
    a.position < b.position || (a.position == b.position && a.id < b.id)
  }

  predicate SortedContent(s: seq<LearningContent>)
  {
    forall i, j :: 0 <= i < j < |s| ==> ContentBefore(s[i], s[j])
  }

  /**
   * One step of the stable sort by position: `c` goes after every entry
   * whose position is not greater.
   */
  function InsertByPosition(s: seq<LearningContent>, c: LearningContent): (r: seq<LearningContent>)
    ensures |r| == |s| + 1
    ensures forall x :: x in r <==> x in s || x == c
  {
    if s == [] then [c]
    else if s[0].position <= c.position then [s[0]] + InsertByPosition(s[1..], c)
    else [c] + s
  }

  /**
   * Entries inserted in increasing id order stay sorted by position, then
   * id, and nothing is lost or added on the way.
   */
  lemma {:induction false} InsertByPositionSorted(s: seq<LearningContent>, c: LearningContent)
    requires SortedContent(s)
    requires forall i :: 0 <= i < |s| ==> s[i].id < c.id
    ensures SortedContent(InsertByPosition(s, c))
    ensures multiset(InsertByPosition(s, c)) == multiset(s) + multiset{c}
  {
    if s == [] {
    } else if s[0].position <= c.position {
      var tail := s[1..];
      InsertByPositionSorted(tail, c);
      var rest := InsertByPosition(tail, c);
      assert s == [s[0]] + tail;
      forall j | 0 <= j < |rest|
        ensures ContentBefore(s[0], rest[j])
      {
        assert rest[j] in multiset(rest);
        if rest[j] != c {
          assert rest[j] in multiset(tail);
          var k :| 0 <= k < |tail| && tail[k] == rest[j];
          assert s[k + 1] == rest[j];
        }
      }
    } else {
      forall j | 0 <= j < |s|
        ensures ContentBefore(c, s[j])
      {
        if j > 0 {
          assert ContentBefore(s[0], s[j]);
        }
      }
    }
  }

  /** The contents of a skill, as a set of records. */
  function ContentOfSkill(content: map<int, LearningContent>, skillId: int): set<LearningContent>
  {
    set k | k in content && content[k].skillId == skillId :: content[k]
  }

  /** The contents of a skill whose ids lie below `bound`. */
  function ContentBelow(content: map<int, LearningContent>, skillId: int, bound: int): set<LearningContent>
  {
    set k | k in content && k < bound && content[k].skillId == skillId :: content[k]
  }

  /** Raising the bound by one adds the content stored under the old bound, if it is the skill's. */
  lemma ContentBelowStep(content: map<int, LearningContent>, skillId: int, i: int)
    requires forall k :: k in content ==> content[k].id == k
    ensures i in content && content[i].skillId == skillId ==>
              content[i] !in ContentBelow(content, skillId, i) &&
              ContentBelow(content, skillId, i + 1) == ContentBelow(content, skillId, i) + {content[i]}
    ensures !(i in content && content[i].skillId == skillId) ==>
              ContentBelow(content, skillId, i + 1) == ContentBelow(content, skillId, i)
  {
  }

  /** Whether the pair (user, achievement) is already awarded. */
  predicate Awarded(awards: map<int, UserAchievement>, userId: int, achievementId: int)
  {
    exists k :: k in awards && awards[k].userId == userId && awards[k].achievementId == achievementId
  }

  /** The (user, achievement) pairs awarded so far. */
  function AwardPairs(awards: map<int, UserAchievement>): set<(int, int)>
  {
    set k | k in awards :: (awards[k].userId, awards[k].achievementId)
  }

  /** Adding an award under a fresh key adds exactly its pair. */
  lemma AwardPairsInsert(awards: map<int, UserAchievement>, id: int, award: UserAchievement)
    requires id !in awards
    ensures AwardPairs(awards[id := award]) == AwardPairs(awards) + {(award.userId, award.achievementId)}
  {
    var after := awards[id := award];
    forall p | p in AwardPairs(after)
      ensures p in AwardPairs(awards) + {(award.userId, award.achievementId)}
    {
      var k :| k in after && p == (after[k].userId, after[k].achievementId);
      if k != id {
        assert p == (awards[k].userId, awards[k].achievementId);
      }
    }
    forall p | p in AwardPairs(awards)
      ensures p in AwardPairs(after)
    {
      var k :| k in awards && p == (awards[k].userId, awards[k].achievementId);
      assert after[k] == awards[k];
    }
    assert after[id] == award;
  }

  /** Whether a progress record is the user's record of the skill. */
  predicate ProgressOf(p: UserProgress, userId: int, skillId: int)
  {
    p.userId == userId && p.skillId == skillId
  }

  /**
   * A progress record with the fields present in the patch overwritten and
   * the given completion date; the id and start date are kept.
   */
  function PatchedProgress(p: UserProgress, patch: ProgressPatch, dateCompleted: Option<int>): (r: UserProgress)
    ensures r.id == p.id && r.dateStarted == p.dateStarted && r.dateCompleted == dateCompleted
    ensures r.userId == (if patch.userId.Some? then patch.userId.value else p.userId)
    ensures r.skillId == (if patch.skillId.Some? then patch.skillId.value else p.skillId)
    ensures r.progress == (if patch.progress.Some? then patch.progress.value else p.progress)
    ensures r.completed == (if patch.completed.Some? then patch.completed.value else p.completed)
    ensures r.notes == (if patch.notes.Some? then patch.notes.value else p.notes)
  {
    UserProgress(p.id,
                 if patch.userId.Some? then patch.userId.value else p.userId,
                 if patch.skillId.Some? then patch.skillId.value else p.skillId,
                 if patch.progress.Some? then patch.progress.value else p.progress,
                 if patch.completed.Some? then patch.completed.value else p.completed,
                 p.dateStarted, dateCompleted,
                 if patch.notes.Some? then patch.notes.value else p.notes)
  }

  /** The points a progress record brings its user: those of its skill, once completed and if the skill exists. */
  function EarnedPoints(p: UserProgress, userId: int, skills: map<int, Skill>): int
  {
    if p.userId == userId && p.completed && p.skillId in skills then skills[p.skillId].points else 0
  }

  /** The points the progress records under the given keys bring the user. */
  ghost function PointsOver(progress: map<int, UserProgress>, skills: map<int, Skill>, userId: int,
                            keys: set<int>): int
    requires keys <= progress.Keys
    decreases keys
  {
    if keys == {} then 0
    else
      var k := Accumulator.PickKey(keys);
      PointsOver(progress, skills, userId, keys - {k}) + EarnedPoints(progress[k], userId, skills)
  }

  /** checkAndAwardAchievements' total: the points of every completed skill of the user, one per record. */
  ghost function TotalPoints(progress: map<int, UserProgress>, skills: map<int, Skill>, userId: int): int
  {
    PointsOver(progress, skills, userId, progress.Keys)
  }

  /** Any record can be taken out of the total first, whatever order the total used. */
  lemma {:induction false} PointsOverPick(progress: map<int, UserProgress>, skills: map<int, Skill>, userId: int,
                                          keys: set<int>, k: int)
    requires keys <= progress.Keys && k in keys
    ensures PointsOver(progress, skills, userId, keys) ==
              PointsOver(progress, skills, userId, keys - {k}) + EarnedPoints(progress[k], userId, skills)
    decreases keys
  {
    var j := Accumulator.PickKey(keys);
    if j != k {
      PointsOverPick(progress, skills, userId, keys - {j}, k);
      PointsOverPick(progress, skills, userId, keys - {k}, j);
      assert keys - {j} - {k} == keys - {k} - {j};
    }
  }

  /** The total over some keys sees only the records under those keys. */
  lemma {:induction false} PointsOverFrame(a: map<int, UserProgress>, b: map<int, UserProgress>,
                                           skills: map<int, Skill>, userId: int, keys: set<int>)
    requires keys <= a.Keys && keys <= b.Keys
    requires forall k :: k in keys ==> a[k] == b[k]
    ensures PointsOver(a, skills, userId, keys) == PointsOver(b, skills, userId, keys)
    decreases keys
  {
    if keys != {} {
      var j := Accumulator.PickKey(keys);
      PointsOverPick(b, skills, userId, keys, j);
      PointsOverFrame(a, b, skills, userId, keys - {j});
    }
  }

  /** Storing a progress record, new or replacing one, changes the total by the difference of their points. */
  lemma TotalPointsStore(progress: map<int, UserProgress>, skills: map<int, Skill>, userId: int,
                         id: int, p: UserProgress)
    ensures TotalPoints(progress[id := p], skills, userId) ==
              TotalPoints(progress, skills, userId) + EarnedPoints(p, userId, skills)
              - (if id in progress then EarnedPoints(progress[id], userId, skills) else 0)
  {
    var m := progress[id := p];
    var rest := progress.Keys - {id};
    PointsOverPick(m, skills, userId, m.Keys, id);
    assert m.Keys - {id} == rest;
    PointsOverFrame(m, progress, skills, userId, rest);
    if id in progress {
      PointsOverPick(progress, skills, userId, progress.Keys, id);
    } else {
      assert rest == progress.Keys;
    }
  }

  /** Completing a user's unfinished record of a stored skill raises their total by the skill's points. */
  lemma CompletionAddsSkillPoints(progress: map<int, UserProgress>, skills: map<int, Skill>, id: int,
                                  completed: UserProgress)
    requires id in progress && !progress[id].completed
    requires completed == progress[id].(completed := true) && completed.skillId in skills
    ensures TotalPoints(progress[id := completed], skills, completed.userId) ==
              TotalPoints(progress, skills, completed.userId) + skills[completed.skillId].points
  {
    TotalPointsStore(progress, skills, completed.userId, id, completed);
  }

  /** A user without a completed record of a stored skill has no points. */
  lemma {:induction false} NoCompletionNoPoints(progress: map<int, UserProgress>, skills: map<int, Skill>,
                                               userId: int, keys: set<int>)
    requires keys <= progress.Keys
    requires forall k :: k in keys ==> EarnedPoints(progress[k], userId, skills) == 0
    ensures PointsOver(progress, skills, userId, keys) == 0
    decreases keys
  {
    if keys != {} {
      var j := Accumulator.PickKey(keys);
      NoCompletionNoPoints(progress, skills, userId, keys - {j});
    }
  }

  /** completedSkills: the stored skills the user has a completed record of. */
  function CompletedSkills(progress: map<int, UserProgress>, skills: map<int, Skill>, userId: int): (r: set<Skill>)
    ensures forall k ::
              (k in progress && progress[k].userId == userId && progress[k].completed &&
               progress[k].skillId in skills) ==> skills[progress[k].skillId] in r
    ensures forall c :: c in r ==>
              exists k :: k in progress && progress[k].userId == userId && progress[k].completed &&
                          progress[k].skillId in skills && skills[progress[k].skillId] == c
  {
    set k | k in progress && progress[k].userId == userId && progress[k].completed && progress[k].skillId in skills
      :: skills[progress[k].skillId]
  }

  /** The ids of the completed skills of one category (completedSalesSkillIds, completedProductSkillIds). */
  function CompletedIdsIn(completed: set<Skill>, category: string): (r: set<int>)
    ensures forall c :: c in completed && c.category == category ==> c.id in r
    ensures forall i :: i in r ==> exists c :: c in completed && c.category == category && c.id == i
  {
    set c | c in completed && c.category == category :: c.id
  }

  /** Whether every skill of the category is among the completed ones (`every`, so true when there is none). */
  predicate CategoryComplete(skills: map<int, Skill>, completed: set<Skill>, category: string)
  {
    forall k :: k in skills && skills[k].category == category ==> skills[k].id in CompletedIdsIn(completed, category)
  }

  /**
   * Whether an achievement is earned: by points, or, for "Sales Master" and
   * "Product Guru", by completing every skill of the sales or product
   * category.
   */
  predicate Qualifies(a: Achievement, totalPoints: int, completed: set<Skill>, skills: map<int, Skill>)
  {
    || totalPoints >= a.requiredPoints
    || (a.name == "Sales Master" && CategoryComplete(skills, completed, "sales"))
    || (a.name == "Product Guru" && CategoryComplete(skills, completed, "product"))
  }

  /**
   * `every` over no skills holds: while no skill of the sales category is
   * stored, "Sales Master" is earned by any achievement check.
   */
  lemma SalesMasterWithoutSalesSkills(a: Achievement, totalPoints: int, completed: set<Skill>, skills: map<int, Skill>)
    requires a.name == "Sales Master"
    requires forall k :: k in skills ==> skills[k].category != "sales"
    ensures Qualifies(a, totalPoints, completed, skills)
  {
  }

  /** The (user, achievement) pairs the user qualifies for among the stored achievements. */
  function QualifyingPairs(userId: int, achievements: map<int, Achievement>, totalPoints: int,
                           completed: set<Skill>, skills: map<int, Skill>): (r: set<(int, int)>)
    ensures forall p :: p in r ==> p.0 == userId && p.1 in achievements
    ensures forall a :: (userId, a) in r <==> a in achievements && Qualifies(achievements[a], totalPoints, completed, skills)
  {
    set a | a in achievements && Qualifies(achievements[a], totalPoints, completed, skills) :: (userId, a)
  }

  /** The achievement ids the user holds (getUserAchievementsByUser mapped to ids). */
  function EarnedAchievementIds(awards: map<int, UserAchievement>, userId: int): (r: set<int>)
    ensures forall a :: a in r <==> (userId, a) in AwardPairs(awards)
  {
    var r := set k | k in awards && awards[k].userId == userId :: awards[k].achievementId;
    assert forall a :: a in r ==> (userId, a) in AwardPairs(awards);
    assert forall a :: (userId, a) in AwardPairs(awards) ==> a in r;
    r
  }

  /** Taking one more achievement into account adds its pair exactly when the user qualifies for it. */
  lemma QualifyingPairsStep(userId: int, achievements: map<int, Achievement>, todo: set<int>, a: int,
                            totalPoints: int, completed: set<Skill>, skills: map<int, Skill>)
    requires a in todo
    ensures QualifyingPairs(userId, achievements - (todo - {a}), totalPoints, completed, skills) ==
              QualifyingPairs(userId, achievements - todo, totalPoints, completed, skills) +
              (if a in achievements && Qualifies(achievements[a], totalPoints, completed, skills)
               then {(userId, a)} else {})
  {
  }

  /** Every record of the first map is in the second, unchanged. */
  predicate Extends<K, V(==)>(before: map<K, V>, after: map<K, V>)
  {
    forall k :: k in before ==> k in after && after[k] == before[k]
  }

  class LearningStore {
    var skillsData: map<int, Skill>
    var learningPathsData: map<int, LearningPath>
    var userProgressData: map<int, UserProgress>
    var userProgressCurrentId: int
    var achievementsData: map<int, Achievement>
    var userAchievementsData: map<int, UserAchievement>
    var userAchievementCurrentId: int
    var learningContentData: map<int, LearningContent>
    var learningContentCurrentId: int

    /**
     * Records sit under their own ids, ids handed out by a counter lie in
     * [1, counter), and no (user, achievement) pair is awarded twice.
     */
    ghost predicate Valid()
      reads this
    {
      && userProgressCurrentId >= 1 && userAchievementCurrentId >= 1 && learningContentCurrentId >= 1
      && (forall k :: k in skillsData ==> skillsData[k].id == k)
      && (forall k :: k in achievementsData ==> achievementsData[k].id == k)
      && (forall k :: k in userProgressData ==> 1 <= k < userProgressCurrentId && userProgressData[k].id == k)
      && (forall k :: k in userAchievementsData ==>
            1 <= k < userAchievementCurrentId && userAchievementsData[k].id == k)
      && (forall k :: k in learningContentData ==>
            1 <= k < learningContentCurrentId && learningContentData[k].id == k)
      && (forall a, b ::
            (a in userAchievementsData && b in userAchievementsData &&
             userAchievementsData[a].userId == userAchievementsData[b].userId &&
             userAchievementsData[a].achievementId == userAchievementsData[b].achievementId) ==> a == b)
    }

    /**
     * The store with the seed records of initializeLearningData: skills,
     * learning paths, achievements and content, given with their counters;
     * no progress and no awards yet.
     */
    constructor (skills: map<int, Skill>, paths: map<int, LearningPath>, achievements: map<int, Achievement>,
                 content: map<int, LearningContent>, contentCurrentId: int)
      requires forall k :: k in skills ==> skills[k].id == k
      requires forall k :: k in achievements ==> achievements[k].id == k
      requires contentCurrentId >= 1
      requires forall k :: k in content ==> 1 <= k < contentCurrentId && content[k].id == k
      ensures Valid()
      ensures skillsData == skills && learningPathsData == paths && achievementsData == achievements
      ensures learningContentData == content && learningContentCurrentId == contentCurrentId
      ensures userProgressData == map[] && userProgressCurrentId == 1
      ensures userAchievementsData == map[] && userAchievementCurrentId == 1
    {
      skillsData := skills;
      learningPathsData := paths;
      userProgressData := map[];
      userProgressCurrentId := 1;
      achievementsData := achievements;
      userAchievementsData := map[];
      userAchievementCurrentId := 1;
      learningContentData := content;
      learningContentCurrentId := contentCurrentId;
    }

    /**
     * deleteSkill: fails on an unknown id; otherwise removes the skill,
     * filters its id out of every learning path that lists it, and removes
     * every progress record and every piece of content of the skill.
     */
    method DeleteSkill(id: int) returns (r: Outcome<LearningError>)
      requires Valid()
      modifies this`skillsData, this`learningPathsData, this`userProgressData, this`learningContentData
      ensures Valid()
      ensures id !in old(skillsData) ==> r == Fail(SkillNotFound(id)) && unchanged(this)
      ensures id in old(skillsData) ==>
                && r == Pass
                && skillsData == old(skillsData) - {id}
                && learningPathsData == PathsWithout(old(learningPathsData), id)
                && userProgressData == ProgressNotOf(old(userProgressData), id)
                && learningContentData == ContentNotOf(old(learningContentData), id)
    {
      if id !in skillsData {
        return Fail(SkillNotFound(id));
      }
      skillsData := skillsData - {id};
      RemoveFromPaths(id);
      RemoveProgressOf(id);
      RemoveContentOf(id);
      return Pass;
    }

    /** The loop of deleteSkill over the learning paths. */
    method RemoveFromPaths(id: int)
      modifies this`learningPathsData
      ensures learningPathsData == PathsWithout(old(learningPathsData), id)
    {
      ghost var paths := learningPathsData;
      var pending := learningPathsData.Keys;
      while pending != {}
        invariant pending <= paths.Keys
        invariant learningPathsData ==
                    map k | k in paths :: if k in pending then paths[k] else PathWithout(paths[k], id)
        decreases pending
      {
        Accumulator.NonEmptyHasElement(pending);
        var pathId :| pathId in pending;
        var path := learningPathsData[pathId];
        if id in path.skillIds {
          var updatedSkillIds := Without(path.skillIds, id);
          learningPathsData := learningPathsData[pathId := path.(skillIds := updatedSkillIds)];
        }
        pending := pending - {pathId};
      }
    }

    /** The loop of deleteSkill over the progress records. */
    method RemoveProgressOf(id: int)
      modifies this`userProgressData
      ensures userProgressData == ProgressNotOf(old(userProgressData), id)
    {
      ghost var progress := userProgressData;
      var pending := userProgressData.Keys;
      while pending != {}
        invariant pending <= progress.Keys
        invariant userProgressData ==
                    map k | k in progress && (k in pending || progress[k].skillId != id) :: progress[k]
        decreases pending
      {
        Accumulator.NonEmptyHasElement(pending);
        var progressId :| progressId in pending;
        if userProgressData[progressId].skillId == id {
          userProgressData := userProgressData - {progressId};
        }
        pending := pending - {progressId};
      }
    }

    /** The loop of deleteSkill over the learning content. */
    method RemoveContentOf(id: int)
      modifies this`learningContentData
      ensures learningContentData == ContentNotOf(old(learningContentData), id)
    {
      ghost var content := learningContentData;
      var pending := learningContentData.Keys;
      while pending != {}
        invariant pending <= content.Keys
        invariant learningContentData ==
                    map k | k in content && (k in pending || content[k].skillId != id) :: content[k]
        decreases pending
      {
        Accumulator.NonEmptyHasElement(pending);
        var contentId :| contentId in pending;
        if learningContentData[contentId].skillId == id {
          learningContentData := learningContentData - {contentId};
        }
        pending := pending - {contentId};
      }
    }

    /** deleteLearningPath: fails on an unknown id, otherwise removes the path. */
    method DeleteLearningPath(id: int) returns (r: Outcome<LearningError>)
      modifies this`learningPathsData
      ensures id !in old(learningPathsData) ==> r == Fail(LearningPathNotFound(id)) && unchanged(this)
      ensures id in old(learningPathsData) ==> r == Pass && learningPathsData == old(learningPathsData) - {id}
    {
      if id !in learningPathsData {
        return Fail(LearningPathNotFound(id));
      }
      learningPathsData := learningPathsData - {id};
      return Pass;
    }

    /**
     * getSkillsForLearningPath: fails on an unknown path; otherwise the
     * path's skills in the path's order, ids without a skill dropped.
     */
    method GetSkillsForLearningPath(learningPathId: int) returns (r: Result<seq<Skill>, LearningError>)
      ensures learningPathId !in learningPathsData ==> r == Failure(LearningPathNotFound(learningPathId))
      ensures learningPathId in learningPathsData ==>
                r == Success(KnownSkills(learningPathsData[learningPathId].skillIds, skillsData))
    {
      if learningPathId !in learningPathsData {
        return Failure(LearningPathNotFound(learningPathId));
      }
      var skillIds := learningPathsData[learningPathId].skillIds;
      var skills: seq<Skill> := [];
      var i := 0;
      while i < |skillIds|
        invariant 0 <= i <= |skillIds|
        invariant skills == KnownSkills(skillIds[..i], skillsData)
      {
        assert skillIds[..i + 1][..i] == skillIds[..i];
        if skillIds[i] in skillsData {
          skills := skills + [skillsData[skillIds[i]]];
        }
        i := i + 1;
      }
      assert skillIds[..|skillIds|] == skillIds;
      return Success(skills);
    }

    /**
     * awardAchievement: an existing award of the pair is returned and
     * nothing changes; otherwise an unknown achievement fails, and a known
     * one is awarded under the next award id.
     */
    method AwardAchievement(userId: int, achievementId: int, now: int) returns (r: Result<UserAchievement, LearningError>)
      requires Valid()
      modifies this`userAchievementsData, this`userAchievementCurrentId
      ensures Valid()
      ensures old(Awarded(userAchievementsData, userId, achievementId)) ==>
                && r.Success? && r.value in old(userAchievementsData).Values
                && r.value.userId == userId && r.value.achievementId == achievementId
                && unchanged(this)
      ensures !old(Awarded(userAchievementsData, userId, achievementId)) && achievementId !in achievementsData ==>
                r == Failure(AchievementNotFound(achievementId)) && unchanged(this)
      ensures !old(Awarded(userAchievementsData, userId, achievementId)) && achievementId in achievementsData ==>
                && r == Success(UserAchievement(old(userAchievementCurrentId), userId, achievementId, now))
                && userAchievementsData == old(userAchievementsData)[old(userAchievementCurrentId) := r.value]
                && userAchievementCurrentId == old(userAchievementCurrentId) + 1
      ensures r.Success? <==> Awarded(userAchievementsData, userId, achievementId)
      ensures Extends(old(userAchievementsData), userAchievementsData)
      ensures AwardPairs(userAchievementsData) ==
                old(AwardPairs(userAchievementsData)) + (if r.Success? then {(userId, achievementId)} else {})
    {
      if k :| k in userAchievementsData && userAchievementsData[k].userId == userId
              && userAchievementsData[k].achievementId == achievementId {
        return Success(userAchievementsData[k]);
      }
      if achievementId !in achievementsData {
        return Failure(AchievementNotFound(achievementId));
      }
      var id := userAchievementCurrentId;
      userAchievementCurrentId := userAchievementCurrentId + 1;
      var userAchievement := UserAchievement(id, userId, achievementId, now);
      assert id !in userAchievementsData;
      AwardPairsInsert(userAchievementsData, id, userAchievement);
      userAchievementsData := userAchievementsData[id := userAchievement];
      assert userAchievementsData[id] == userAchievement;
      return Success(userAchievement);
    }

    /**
     * getContentForSkill: the skill's content sorted by position; the sort
     * is stable over creation order, so equal positions stay in id order.
     */
    method GetContentForSkill(skillId: int) returns (r: seq<LearningContent>)
      requires Valid()
      ensures SortedContent(r)
      ensures multiset(r) == multiset(ContentOfSkill(learningContentData, skillId))
      ensures forall c :: c in r <==> c in ContentOfSkill(learningContentData, skillId)
    {
      r := [];
      var i := 1;
      while i < learningContentCurrentId
        invariant 1 <= i <= learningContentCurrentId
        invariant SortedContent(r)
        invariant forall j :: 0 <= j < |r| ==> r[j].id < i
        invariant multiset(r) == multiset(ContentBelow(learningContentData, skillId, i))
      {
        ContentBelowStep(learningContentData, skillId, i);
        if i in learningContentData && learningContentData[i].skillId == skillId {
          var c := learningContentData[i];
          InsertByPositionSorted(r, c);
          ghost var previous := r;
          r := InsertByPosition(r, c);
          forall j | 0 <= j < |r|
            ensures r[j].id < i + 1
          {
            assert r[j] in previous || r[j] == c;
          }
        }
        i := i + 1;
      }
      assert ContentBelow(learningContentData, skillId, i) == ContentOfSkill(learningContentData, skillId);
      forall c ensures c in r <==> c in ContentOfSkill(learningContentData, skillId) {
        assert c in r <==> c in multiset(r);
      }
    }

    /** The pairs checkAndAwardAchievements would award the user in the current state. */
    ghost function Qualifying(userId: int): set<(int, int)>
      reads this
    {
      QualifyingPairs(userId, achievementsData, TotalPoints(userProgressData, skillsData, userId),
                      CompletedSkills(userProgressData, skillsData, userId), skillsData)
    }

    /**
     * checkAndAwardAchievements: the user is awarded every stored achievement
     * they qualify for and do not hold yet; nothing else changes, and awards
     * held before are kept.
     */
    method CheckAndAwardAchievements(userId: int, now: int)
      requires Valid()
      modifies this`userAchievementsData, this`userAchievementCurrentId
      ensures Valid()
      ensures Extends(old(userAchievementsData), userAchievementsData)
      ensures AwardPairs(userAchievementsData) == old(AwardPairs(userAchievementsData)) + Qualifying(userId)
    {
      var totalPoints := SumPoints(userId);
      var completedSkills := CompletedSkills(userProgressData, skillsData, userId);
      var earnedAchievementIds := EarnedAchievementIds(userAchievementsData, userId);
      AwardAllQualified(userId, totalPoints, completedSkills, earnedAchievementIds, now);
    }

    /** The loop of checkAndAwardAchievements over the stored achievements. */
    method AwardAllQualified(userId: int, totalPoints: int, completedSkills: set<Skill>,
                             earnedAchievementIds: set<int>, now: int)
      requires Valid()
      requires forall a :: a in earnedAchievementIds ==> (userId, a) in AwardPairs(userAchievementsData)
      modifies this`userAchievementsData, this`userAchievementCurrentId
      ensures Valid()
      ensures Extends(old(userAchievementsData), userAchievementsData)
      ensures AwardPairs(userAchievementsData) ==
                old(AwardPairs(userAchievementsData)) +
                QualifyingPairs(userId, achievementsData, totalPoints, completedSkills, skillsData)
    {
      ghost var start := userAchievementsData;
      var todo := achievementsData.Keys;
      assert achievementsData - todo == map[];
      assert QualifyingPairs(userId, map[], totalPoints, completedSkills, skillsData) == {};
      while todo != {}
        invariant todo <= achievementsData.Keys
        invariant Valid()
        invariant Extends(start, userAchievementsData)
        invariant forall a :: a in earnedAchievementIds ==> (userId, a) in AwardPairs(userAchievementsData)
        invariant AwardPairs(userAchievementsData) ==
                    AwardPairs(start) + QualifyingPairs(userId, achievementsData - todo, totalPoints,
                                                        completedSkills, skillsData)
        modifies this`userAchievementsData, this`userAchievementCurrentId
        decreases todo
      {
        Accumulator.NonEmptyHasElement(todo);
        var achievementId :| achievementId in todo;
        QualifyingPairsStep(userId, achievementsData, todo, achievementId, totalPoints, completedSkills,
                            skillsData);
        AwardIfQualified(userId, achievementId, totalPoints, completedSkills, earnedAchievementIds, now);
        todo := todo - {achievementId};
      }
      assert achievementsData - todo == achievementsData;
    }

    /** The reduce of checkAndAwardAchievements: the user's total points. */
    method SumPoints(userId: int) returns (totalPoints: int)
      ensures totalPoints == TotalPoints(userProgressData, skillsData, userId)
    {
      totalPoints := 0;
      var pending := userProgressData.Keys;
      while pending != {}
        invariant pending <= userProgressData.Keys
        invariant totalPoints + PointsOver(userProgressData, skillsData, userId, pending) ==
                  TotalPoints(userProgressData, skillsData, userId)
        decreases pending
      {
        Accumulator.NonEmptyHasElement(pending);
        var k :| k in pending;
        PointsOverPick(userProgressData, skillsData, userId, pending, k);
        totalPoints := totalPoints + EarnedPoints(userProgressData[k], userId, skillsData);
        pending := pending - {k};
      }
    }

    /**
     * One pass of the loop of checkAndAwardAchievements: an achievement the
     * user did not hold at the start is awarded when they qualify for it.
     */
    method AwardIfQualified(userId: int, achievementId: int, totalPoints: int, completedSkills: set<Skill>,
                            earnedAchievementIds: set<int>, now: int)
      requires Valid() && achievementId in achievementsData
      requires forall a :: a in earnedAchievementIds ==> (userId, a) in AwardPairs(userAchievementsData)
      modifies this`userAchievementsData, this`userAchievementCurrentId
      ensures Valid()
      ensures Extends(old(userAchievementsData), userAchievementsData)
      ensures AwardPairs(userAchievementsData) ==
                old(AwardPairs(userAchievementsData)) +
                (if Qualifies(achievementsData[achievementId], totalPoints, completedSkills, skillsData)
                 then {(userId, achievementId)} else {})
    {
      var achievement := achievementsData[achievementId];
      if achievement.id in earnedAchievementIds {
        return;
      }
      if totalPoints >= achievement.requiredPoints {
        var _ := AwardAchievement(userId, achievement.id, now);
      }
      if achievement.name == "Sales Master" && CategoryComplete(skillsData, completedSkills, "sales") {
        var _ := AwardAchievement(userId, achievement.id, now);
      }
      if achievement.name == "Product Guru" && CategoryComplete(skillsData, completedSkills, "product") {
        var _ := AwardAchievement(userId, achievement.id, now);
      }
    }

    /**
     * getUserProgressByUserAndSkill: the user's record of the skill that
     * was stored first (the lowest id), or nothing.
     */
    method GetUserProgressByUserAndSkill(userId: int, skillId: int) returns (r: Option<UserProgress>)
      requires Valid()
      ensures r.Some? ==> && r.value.id in userProgressData && userProgressData[r.value.id] == r.value
                          && ProgressOf(r.value, userId, skillId)
                          && forall k :: k in userProgressData && k < r.value.id ==>
                                           !ProgressOf(userProgressData[k], userId, skillId)
      ensures r.None? ==> forall k :: k in userProgressData ==> !ProgressOf(userProgressData[k], userId, skillId)
    {
      var i := 1;
      while i < userProgressCurrentId
        invariant 1 <= i <= userProgressCurrentId
        invariant forall k :: k in userProgressData && k < i ==> !ProgressOf(userProgressData[k], userId, skillId)
      {
        if i in userProgressData && ProgressOf(userProgressData[i], userId, skillId) {
          return Some(userProgressData[i]);
        }
        i := i + 1;
      }
      return None;
    }

    /**
     * createUserProgress: stores the record under the next progress id,
     * started now and completed now if it is completed; a completed record
     * then runs the achievement check for its user.
     */
    method CreateUserProgress(progress: InsertUserProgress, now: int) returns (r: UserProgress)
      requires Valid()
      modifies this`userProgressData, this`userProgressCurrentId, this`userAchievementsData,
               this`userAchievementCurrentId
      ensures Valid()
      ensures r == UserProgress(old(userProgressCurrentId), progress.userId, progress.skillId, progress.progress,
                                progress.completed, now, if progress.completed then Some(now) else None,
                                progress.notes)
      ensures userProgressData == old(userProgressData)[r.id := r]
      ensures userProgressCurrentId == old(userProgressCurrentId) + 1
      ensures Extends(old(userAchievementsData), userAchievementsData)
      ensures progress.completed ==>
                AwardPairs(userAchievementsData) == old(AwardPairs(userAchievementsData)) + Qualifying(r.userId)
      ensures !progress.completed ==>
                userAchievementsData == old(userAchievementsData) &&
                userAchievementCurrentId == old(userAchievementCurrentId)
    {
      var id := userProgressCurrentId;
      userProgressCurrentId := userProgressCurrentId + 1;
      var newProgress := UserProgress(id, progress.userId, progress.skillId, progress.progress, progress.completed,
                                      now, if progress.completed then Some(now) else None, progress.notes);
      userProgressData := userProgressData[id := newProgress];
      if newProgress.completed {
        CheckAndAwardAchievements(newProgress.userId, now);
      }
      return newProgress;
    }

    /**
     * updateUserProgress: fails on an unknown id; otherwise the patch is
     * applied, the completion date set to now when the record becomes
     * completed, and then the achievement check runs for the user the
     * record belonged to before the patch.
     */
    method UpdateUserProgress(id: int, patch: ProgressPatch, now: int) returns (r: Result<UserProgress, LearningError>)
      requires Valid()
      modifies this`userProgressData, this`userAchievementsData, this`userAchievementCurrentId
      ensures Valid()
      ensures id !in old(userProgressData) ==> r == Failure(UserProgressNotFound(id)) && unchanged(this)
      ensures id in old(userProgressData) ==>
                var before := old(userProgressData)[id];
                var newlyCompleted := patch.completed == Some(true) && !before.completed;
                && r == Success(PatchedProgress(before, patch, if newlyCompleted then Some(now) else before.dateCompleted))
                && userProgressData == old(userProgressData)[id := r.value]
                && Extends(old(userAchievementsData), userAchievementsData)
                && (newlyCompleted ==>
                      AwardPairs(userAchievementsData) == old(AwardPairs(userAchievementsData)) + Qualifying(before.userId))
                && (!newlyCompleted ==>
                      userAchievementsData == old(userAchievementsData) &&
                      userAchievementCurrentId == old(userAchievementCurrentId))
    {
      if id !in userProgressData {
        return Failure(UserProgressNotFound(id));
      }
      var progress := userProgressData[id];
      var dateCompleted := progress.dateCompleted;
      if patch.completed == Some(true) && !progress.completed {
        dateCompleted := Some(now);
      }
      var updatedProgress := PatchedProgress(progress, patch, dateCompleted);
      userProgressData := userProgressData[id := updatedProgress];
      if patch.completed == Some(true) && !progress.completed {
        CheckAndAwardAchievements(progress.userId, now);
      }
      return Success(updatedProgress);
    }

    /**
     * completeSkill: the user's first record of the skill is marked
     * completed with progress 100, or a new completed record is created
     * when there is none.
     */
    method CompleteSkill(userId: int, skillId: int, now: int) returns (r: UserProgress)
      requires Valid()
      modifies this`userProgressData, this`userProgressCurrentId, this`userAchievementsData,
               this`userAchievementCurrentId
      ensures Valid()
      ensures ProgressOf(r, userId, skillId) && r.completed && r.progress == 100
      ensures r.id in userProgressData && userProgressData[r.id] == r
      ensures r.id in old(userProgressData) ==>
                var before := old(userProgressData)[r.id];
                && r == PatchedProgress(before, ProgressPatch(None, None, Some(100), Some(true), None),
                                        if before.completed then before.dateCompleted else Some(now))
                && userProgressData == old(userProgressData)[r.id := r]
                && userProgressCurrentId == old(userProgressCurrentId)
                && forall k :: k in old(userProgressData) && k < r.id ==>
                                 !ProgressOf(old(userProgressData)[k], userId, skillId)
      ensures r.id !in old(userProgressData) ==>
                && r == UserProgress(old(userProgressCurrentId), userId, skillId, 100, true, now, Some(now),
                                     "Skill completed")
                && userProgressData == old(userProgressData)[r.id := r]
                && userProgressCurrentId == old(userProgressCurrentId) + 1
                && forall k :: k in old(userProgressData) ==> !ProgressOf(old(userProgressData)[k], userId, skillId)
      ensures Extends(old(userAchievementsData), userAchievementsData)
      ensures r.id in old(userProgressData) && old(userProgressData)[r.id].completed ==>
                userAchievementsData == old(userAchievementsData) &&
                userAchievementCurrentId == old(userAchievementCurrentId)
      ensures !(r.id in old(userProgressData) && old(userProgressData)[r.id].completed) ==>
                AwardPairs(userAchievementsData) == old(AwardPairs(userAchievementsData)) + Qualifying(userId)
    {
      var existingProgress := GetUserProgressByUserAndSkill(userId, skillId);
      if existingProgress.Some? {
        var updated := UpdateUserProgress(existingProgress.value.id,
                                          ProgressPatch(None, None, Some(100), Some(true), None), now);
        r := updated.value;
      } else {
        r := CreateUserProgress(InsertUserProgress(userId, skillId, 100, true, "Skill completed"), now);
      }
    }
  }
}
