/**
 * Navigation over a list of case files: positions, the last mission of a case,
 * the mission count and the reading order.  These are stated for any list of
 * cases; the catalog instantiates them with its own.
 */
module Layout {
  import opened Types

  /** `(c, m)` indexes a mission: `cases[c].missions[m]` is defined. */
  predicate IsPosition(cases: seq<Case>, c: int, m: int) {
    0 <= c < |cases| && 0 <= m < |cases[c].missions|
  }

  function MissionAt(cases: seq<Case>, c: int, m: int): Mission
    requires IsPosition(cases, c, m)
  {
    cases[c].missions[m]
  }

  /** Whether `m` is the last mission of case `c`. */
  predicate IsLastInCase(cases: seq<Case>, c: int, m: int)
    requires 0 <= c < |cases|
  {
    m == |cases[c].missions| - 1
  }

  /** There is a first case and every case has a first mission. */
  predicate NonEmpty(cases: seq<Case>) {
    && |cases| >= 1
    && forall c :: 0 <= c < |cases| ==> |cases[c].missions| >= 1
  }

  /** `id` is the id of some mission of `cases`. */
  predicate IsMissionId(cases: seq<Case>, id: int) {
    exists c, m :: 0 <= c < |cases| && 0 <= m < |cases[c].missions| && MissionAt(cases, c, m).id == id
  }

  /** `cases.reduce((acc, c) => acc + c.missions.length, 0)` after its first `n` steps. */
  function MissionCountUpTo(cases: seq<Case>, n: nat): nat
    requires n <= |cases|
  {
    if n == 0 then 0 else MissionCountUpTo(cases, n - 1) + |cases[n - 1].missions|
  }

  /** `totalMissions`: the number of missions. */
  function TotalMissionCount(cases: seq<Case>): nat {
    MissionCountUpTo(cases, |cases|)
  }

  /** The place of mission `m` of case `c` in reading order, counting from zero. */
  function Ordinal(cases: seq<Case>, c: int, m: int): nat
    requires IsPosition(cases, c, m)
  {
    MissionCountUpTo(cases, c) + m
  }

  /** The mission counts of the first `a` cases, plus case `a`, never exceed those of the first `b`. */
  lemma {:induction false} CountUpToMonotone(cases: seq<Case>, a: nat, b: nat)
    requires a <= b <= |cases|
    ensures MissionCountUpTo(cases, a) + (if a < b then |cases[a].missions| else 0) <= MissionCountUpTo(cases, b)
    decreases b - a
  {
    if a < b {
      CountUpToMonotone(cases, a + 1, b);
    }
  }

  /** Every mission's place is below the total. */
  lemma OrdinalBounded(cases: seq<Case>, c: int, m: int)
    requires IsPosition(cases, c, m)
    ensures Ordinal(cases, c, m) < TotalMissionCount(cases)
  {
    CountUpToMonotone(cases, c, |cases|);
  }

  /**
   * The mission after `(c, m)` in reading order: the next one of its case, else
   * the first of the next case; the last mission of the last case has the last
   * place.
   */
  lemma OrdinalSuccessor(cases: seq<Case>, c: int, m: int)
    requires NonEmpty(cases) && IsPosition(cases, c, m)
    ensures !IsLastInCase(cases, c, m) ==>
              IsPosition(cases, c, m + 1) && Ordinal(cases, c, m + 1) == Ordinal(cases, c, m) + 1
    ensures IsLastInCase(cases, c, m) && c + 1 < |cases| ==>
              IsPosition(cases, c + 1, 0) && Ordinal(cases, c + 1, 0) == Ordinal(cases, c, m) + 1
    ensures IsLastInCase(cases, c, m) && c == |cases| - 1 ==>
              Ordinal(cases, c, m) == TotalMissionCount(cases) - 1
  {
  }

  /** Distinct positions have distinct places: the reading order visits each mission once. */
  lemma OrdinalInjective(cases: seq<Case>, c1: int, m1: int, c2: int, m2: int)
    requires IsPosition(cases, c1, m1) && IsPosition(cases, c2, m2)
    requires Ordinal(cases, c1, m1) == Ordinal(cases, c2, m2)
    ensures c1 == c2 && m1 == m2
  {
    if c1 < c2 {
      CountUpToMonotone(cases, c1, c2);
    } else if c2 < c1 {
      CountUpToMonotone(cases, c2, c1);
    }
  }

  /** A list of cases has a first case, and each a first mission, when its mission counts are all positive. */
  lemma NonEmptyBySizes(cases: seq<Case>, sizes: seq<nat>)
    requires |cases| == |sizes| >= 1
    requires forall c :: 0 <= c < |sizes| ==> sizes[c] >= 1
    requires forall c :: 0 <= c < |sizes| ==> |cases[c].missions| == sizes[c]
    ensures NonEmpty(cases)
  {
  }

  /** The sum of a list of mission counts. */
  function SizeSum(sizes: seq<nat>): nat {
    if sizes == [] then 0 else SizeSum(sizes[..|sizes| - 1]) + sizes[|sizes| - 1]
  }

  /** Counting the missions of the first `n` cases adds up their mission counts. */
  lemma {:induction false} CountUpToBySizes(cases: seq<Case>, sizes: seq<nat>, n: nat)
    requires |cases| == |sizes| && n <= |cases|
    requires forall c :: 0 <= c < |sizes| ==> |cases[c].missions| == sizes[c]
    ensures MissionCountUpTo(cases, n) == SizeSum(sizes[..n])
  {
    if n > 0 {
      CountUpToBySizes(cases, sizes, n - 1);
      assert sizes[..n][..n - 1] == sizes[..n - 1];
    }
  }

  /** The mission total of a list of cases is the sum of their mission counts. */
  lemma CountBySizes(cases: seq<Case>, sizes: seq<nat>)
    requires |cases| == |sizes|
    requires forall c :: 0 <= c < |sizes| ==> |cases[c].missions| == sizes[c]
    ensures TotalMissionCount(cases) == SizeSum(sizes)
  {
    CountUpToBySizes(cases, sizes, |cases|);
    assert sizes[..|cases|] == sizes;
  }

  /** The ids of a case's missions, in order. */
  function IdsOf(missions: seq<Mission>): (r: seq<int>)
    ensures |r| == |missions|
    ensures forall m :: 0 <= m < |missions| ==> r[m] == missions[m].id
  {
    if missions == [] then [] else [missions[0].id] + IdsOf(missions[1..])
  }

  /** The ids of the missions of the first `n` cases, in reading order. */
  function IdsUpTo(cases: seq<Case>, n: nat): (r: seq<int>)
    requires n <= |cases|
    ensures |r| == MissionCountUpTo(cases, n)
  {
    if n == 0 then [] else IdsUpTo(cases, n - 1) + IdsOf(cases[n - 1].missions)
  }

  /** Every mission of the first `n` cases has its id listed. */
  lemma {:induction false} IdsUpToListsIds(cases: seq<Case>, n: nat)
    requires n <= |cases|
    ensures forall c, m :: 0 <= c < n && 0 <= m < |cases[c].missions| ==> MissionAt(cases, c, m).id in IdsUpTo(cases, n)
  {
    if n > 0 {
      IdsUpToListsIds(cases, n - 1);
      forall c, m | 0 <= c < n && 0 <= m < |cases[c].missions|
        ensures MissionAt(cases, c, m).id in IdsUpTo(cases, n)
      {
        if c == n - 1 {
          assert IdsOf(cases[c].missions)[m] == MissionAt(cases, c, m).id;
        }
      }
    }
  }

  /** A set drawn from a list has no more elements than the list. */
  lemma {:induction false} SetFromListBounded(s: set<int>, xs: seq<int>)
    requires forall x :: x in s ==> x in xs
    ensures |s| <= |xs|
  {
    if xs != [] {
      var last := xs[|xs| - 1];
      var rest := s - {last};
      forall x | x in rest ensures x in xs[..|xs| - 1] {
        var k :| 0 <= k < |xs| && xs[k] == x;
        assert k != |xs| - 1;
        assert xs[..|xs| - 1][k] == x;
      }
      SetFromListBounded(rest, xs[..|xs| - 1]);
    } else {
      assert s == {} by {
        forall x | x in s ensures false {
        }
      }
    }
  }

  /** A set of mission ids, such as the completed set, is no larger than the mission count. */
  lemma IdSetBounded(cases: seq<Case>, ids: set<int>)
    requires forall id :: id in ids ==> IsMissionId(cases, id)
    ensures |ids| <= TotalMissionCount(cases)
  {
    IdsUpToListsIds(cases, |cases|);
    SetFromListBounded(ids, IdsUpTo(cases, |cases|));
  }
}
