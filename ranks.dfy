/**
 * The agent profile's rank ladder (App.tsx, `SPY_RANKS` and `ProfilePage`): the
 * current rank is the highest one whose threshold the completed-mission count
 * reaches, falling back to the first rank, and the next rank is the one after it
 * in the ladder, if any.
 */
module Ranks {
  import opened Wrappers
  import opened Layout
  import opened Types
  import opened Catalog

  datatype Rank = Rank(name: string, minMissions: int)

  /** `SPY_RANKS`, lowest first. */
  const SpyRanks: seq<Rank> := [
    Rank("Recruit", 0),
    Rank("Beginner Agent", 1),
    Rank("Field Agent", 3),
    Rank("Senior Agent", 6),
    Rank("Specialist", 9),
    Rank("Elite Spy", 12),
    Rank("Master Spy", 15),
    Rank("Cyber Ghost", 18),
    Rank("Shadow Broker", 22)
  ]

  /** The thresholds climb strictly along the ladder, starting at zero. */
  lemma ThresholdsAscending(i: int, j: int)
    requires 0 <= i < j < |SpyRanks|
    ensures SpyRanks[i].minMissions < SpyRanks[j].minMissions
    ensures SpyRanks[0].minMissions == 0
  {
  }

  /** No two ranks share a name, so a rank is found again by its name. */
  lemma NamesDistinct(i: int, j: int)
    requires 0 <= i < |SpyRanks| && 0 <= j < |SpyRanks|
    requires SpyRanks[i].name == SpyRanks[j].name
    ensures i == j
  {
  }

  /** `[...s].reverse()`. */
  function Reverse(s: seq<Rank>): (r: seq<Rank>)
    ensures |r| == |s|
    ensures forall i :: 0 <= i < |s| ==> r[i] == s[|s| - 1 - i]
  {
    if s == [] then [] else Reverse(s[1..]) + [s[0]]
  }

  /** Whether `count` completed missions reach `rank`. */
  predicate Reaches(count: int, rank: Rank) {
    count >= rank.minMissions
  }

  /** `s.find(r => count >= r.minMissions)`, searching from index `k`. */
  function FindFrom(s: seq<Rank>, count: int, k: nat): (r: Option<Rank>)
    requires k <= |s|
    ensures r.Some? ==> exists i :: k <= i < |s| && s[i] == r.value && Reaches(count, s[i])
                                    && forall j :: k <= j < i ==> !Reaches(count, s[j])
    ensures r.None? ==> forall j :: k <= j < |s| ==> !Reaches(count, s[j])
    decreases |s| - k
  {
    if k == |s| then None
    else if Reaches(count, s[k]) then Some(s[k])
    else FindFrom(s, count, k + 1)
  }

  /** `s.find(r => count >= r.minMissions)`: the first reached rank, or none. */
  function Find(s: seq<Rank>, count: int): (r: Option<Rank>)
    ensures r.Some? ==> exists i :: 0 <= i < |s| && s[i] == r.value && Reaches(count, s[i])
                                    && forall j :: 0 <= j < i ==> !Reaches(count, s[j])
    ensures r.None? ==> forall j :: 0 <= j < |s| ==> !Reaches(count, s[j])
  {
    FindFrom(s, count, 0)
  }

  /** `s.findIndex(r => r.name === name)`, searching from index `k`; -1 when absent. */
  function FindIndexFrom(s: seq<Rank>, name: string, k: nat): (r: int)
    requires k <= |s|
    ensures r == -1 || (k <= r < |s| && s[r].name == name)
    ensures r == -1 <==> forall j :: k <= j < |s| ==> s[j].name != name
    ensures r != -1 ==> forall j :: k <= j < r ==> s[j].name != name
    decreases |s| - k
  {
    if k == |s| then -1
    else if s[k].name == name then k
    else FindIndexFrom(s, name, k + 1)
  }

  /** `s.findIndex(r => r.name === name)`. */
  function FindIndex(s: seq<Rank>, name: string): (r: int)
    ensures r == -1 || (0 <= r < |s| && s[r].name == name)
    ensures r == -1 <==> forall j :: 0 <= j < |s| ==> s[j].name != name
    ensures r != -1 ==> forall j :: 0 <= j < r ==> s[j].name != name
  {
    FindIndexFrom(s, name, 0)
  }

  /** A rank whose name no other rank shares is found at its own index. */
  lemma FindIndexOfUniqueName(s: seq<Rank>, i: int)
    requires 0 <= i < |s|
    requires forall j :: 0 <= j < |s| && s[j].name == s[i].name ==> j == i
    ensures FindIndex(s, s[i].name) == i
  {
  }

  /** `currentRank` for `count` completed missions. */
  function CurrentRank(count: int): Rank {
    Find(Reverse(SpyRanks), count).GetOr(SpyRanks[0])
  }

  /** `nextRankIndex`. */
  function NextRankIndex(count: int): int {
    FindIndex(SpyRanks, CurrentRank(count).name) + 1
  }

  /** `nextRank`, or `None` for `null` at the top of the ladder. */
  function NextRank(count: int): Option<Rank> {
    var n := NextRankIndex(count);
    if n < |SpyRanks| then Some(SpyRanks[n]) else None
  }

  /**
   * Reference definition of the rank level: index `i` is the highest rung whose
   * threshold `count` reaches, or the bottom rung when it reaches none.
   */
  predicate IsLevel(count: int, i: int) {
    && 0 <= i < |SpyRanks|
    && (Reaches(count, SpyRanks[i]) || i == 0)
    && forall j :: i < j < |SpyRanks| ==> !Reaches(count, SpyRanks[j])
  }

  /** Searching the reversed ladder finds the highest reached rung. */
  lemma {:induction false} FindReversedIsHighest(s: seq<Rank>, count: int)
    ensures Find(Reverse(s), count).Some? <==> exists i :: 0 <= i < |s| && Reaches(count, s[i])
    ensures Find(Reverse(s), count).Some? ==>
              exists i :: 0 <= i < |s| && s[i] == Find(Reverse(s), count).value && Reaches(count, s[i])
                          && forall j :: i < j < |s| ==> !Reaches(count, s[j])
  {
    var r := Reverse(s);
    var found := Find(r, count);
    if found.Some? {
      var k :| 0 <= k < |r| && r[k] == found.value && Reaches(count, r[k])
               && forall j :: 0 <= j < k ==> !Reaches(count, r[j]);
      var i := |s| - 1 - k;
      assert s[i] == r[k];
      forall j | i < j < |s| ensures !Reaches(count, s[j]) {
        assert s[j] == r[|s| - 1 - j];
      }
    } else {
      forall i | 0 <= i < |s| ensures !Reaches(count, s[i]) {
        assert s[i] == r[|s| - 1 - i];
      }
    }
  }

  /** Every count has exactly one level. */
  lemma LevelUnique(count: int, i: int, j: int)
    requires IsLevel(count, i) && IsLevel(count, j)
    ensures i == j
  {
    if i < j {
      ThresholdsAscending(0, j);
    } else if j < i {
      ThresholdsAscending(0, i);
    }
  }

  /**
   * The current rank is the rung at the count's level: the highest rank whose
   * threshold is reached, or `Recruit` for a negative count; the next rank is the
   * rung above it, and there is none at the top.
   */
  lemma CurrentRankIsLevel(count: int) returns (i: int)
    ensures IsLevel(count, i)
    ensures CurrentRank(count) == SpyRanks[i]
    ensures NextRankIndex(count) == i + 1
    ensures NextRank(count) == if i + 1 < |SpyRanks| then Some(SpyRanks[i + 1]) else None
  {
    FindReversedIsHighest(SpyRanks, count);
    var found := Find(Reverse(SpyRanks), count);
    if found.Some? {
      i :| 0 <= i < |SpyRanks| && SpyRanks[i] == found.value && Reaches(count, SpyRanks[i])
           && forall j :: i < j < |SpyRanks| ==> !Reaches(count, SpyRanks[j]);
    } else {
      i := 0;
    }
    forall j | 0 <= j < |SpyRanks| && SpyRanks[j].name == SpyRanks[i].name ensures j == i {
      NamesDistinct(j, i);
    }
    FindIndexOfUniqueName(SpyRanks, i);
  }

  /** More completed missions never lower the rank. */
  lemma LevelMonotone(c1: int, i1: int, c2: int, i2: int)
    requires c1 <= c2 && IsLevel(c1, i1) && IsLevel(c2, i2)
    ensures i1 <= i2
  {
    if i2 < i1 {
      ThresholdsAscending(0, i1);
    }
  }

  /**
   * With at most sixteen missions to complete the top two ranks are out of reach:
   * a completed set of mission ids earns at most `Master Spy`, and exactly that
   * once sixteen are done.
   */
  lemma RankCeiling(cases: seq<Case>, completed: set<int>)
    requires TotalMissionCount(cases) <= 16
    requires forall id :: id in completed ==> IsMissionId(cases, id)
    ensures CurrentRank(|completed|).minMissions <= 15
    ensures CurrentRank(|completed|) != Rank("Cyber Ghost", 18)
    ensures CurrentRank(|completed|) != Rank("Shadow Broker", 22)
    ensures |completed| == 16 ==> CurrentRank(|completed|) == Rank("Master Spy", 15)
  {
    IdSetBounded(cases, completed);
    var i := CurrentRankIsLevel(|completed|);
    if |completed| == 16 {
      assert IsLevel(16, 6);
      LevelUnique(16, i, 6);
    }
  }

  /** The catalog's sixteen missions put the same ceiling on the agent profile. */
  lemma CatalogRankCeiling(completed: set<int>)
    requires forall id :: id in completed ==> IsMissionId(Cases, id)
    ensures CurrentRank(|completed|).minMissions <= 15
    ensures |completed| == 16 ==> CurrentRank(|completed|) == Rank("Master Spy", 15)
  {
    TotalMissions();
    RankCeiling(Cases, completed);
  }
}
