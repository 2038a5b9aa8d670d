/**
  The ladder navigator: a group's roles sorted ascending by rank value (in
  place, as `roles.sort((a, b) => a.rank - b.rank)` does), the position of a
  rank on that ladder, the neighbour one step up or down, and the
  case-insensitive lookup of a role by name used by absolute rank changes.
 */
module Ladder {
  import opened Common

  // ---------------------------------------------------------------------
  // Specification of a ladder
  // ---------------------------------------------------------------------

  predicate SortedByRank(s: seq<Role>)
  {
    forall i, j :: 0 <= i < j < |s| ==> s[i].rank <= s[j].rank
  }

  /** No two entries share a rank value (Roblox keeps rank values unique per group). */
  predicate DistinctRanks(s: seq<Role>)
  {
    forall i, j :: 0 <= i < |s| && 0 <= j < |s| && i != j ==> s[i].rank != s[j].rank
  }

  /** Some role of the list has this rank value. */
  predicate HasRank(roles: seq<Role>, rank: int)
  {
    exists q :: q in roles && q.rank == rank
  }

  /** `current` is on the ladder and no role lies above it. */
  predicate IsTop(roles: seq<Role>, current: int)
  {
    HasRank(roles, current) && forall q :: q in roles ==> q.rank <= current
  }

  /** `current` is on the ladder and no role lies below it. */
  predicate IsBottom(roles: seq<Role>, current: int)
  {
    HasRank(roles, current) && forall q :: q in roles ==> q.rank >= current
  }

  /** `r` is the role of least rank strictly above `current`. */
  predicate IsNextRankUp(roles: seq<Role>, current: int, r: Role)
  {
    r in roles && r.rank > current && forall q :: q in roles && q.rank > current ==> r.rank <= q.rank
  }

  /** `r` is the role of greatest rank strictly below `current`. */
  predicate IsNextRankDown(roles: seq<Role>, current: int, r: Role)
  {
    r in roles && r.rank < current && forall q :: q in roles && q.rank < current ==> q.rank <= r.rank
  }

  // ---------------------------------------------------------------------
  // Sorting in place
  // ---------------------------------------------------------------------

  /**
    Sorts the array ascending by rank value, keeping the same entries.
   */
  method SortByRank(a: array<Role>)
    modifies a
    ensures SortedByRank(a[..])
    ensures multiset(a[..]) == multiset(old(a[..]))
  {
    var i := 0;
    while i < a.Length
      invariant 0 <= i <= a.Length
      invariant SortedByRank(a[..i])
      invariant multiset(a[..]) == multiset(old(a[..]))
    {
      InsertAt(a, i);
      i := i + 1;
    }
    assert a[..a.Length] == a[..];
  }

  /** Moves `a[i]` down into the sorted prefix `a[..i]`. */
  method InsertAt(a: array<Role>, i: int)
    requires 0 <= i < a.Length
    requires SortedByRank(a[..i])
    modifies a
    ensures SortedByRank(a[..i + 1])
    ensures multiset(a[..]) == multiset(old(a[..]))
  {
    var j := i;
    while j > 0 && a[j - 1].rank > a[j].rank
      invariant 0 <= j <= i
      invariant forall k, l :: 0 <= k < l <= i && k != j && l != j ==> a[k].rank <= a[l].rank
      invariant forall l :: j < l <= i ==> a[j].rank < a[l].rank
      invariant multiset(a[..]) == multiset(old(a[..]))
    {
      SwapDown(a, j);
      j := j - 1;
    }
  }

  /** Exchanges `a[j - 1]` and `a[j]`. */
  method SwapDown(a: array<Role>, j: int)
    requires 0 < j < a.Length
    modifies a
    ensures a[j - 1] == old(a[j]) && a[j] == old(a[j - 1])
    ensures forall k :: 0 <= k < a.Length && k != j - 1 && k != j ==> a[k] == old(a[k])
    ensures multiset(a[..]) == multiset(old(a[..]))
  {
    a[j - 1], a[j] := a[j], a[j - 1];
  }

  // ---------------------------------------------------------------------
  // Navigation
  // ---------------------------------------------------------------------

  /** `findIndex(r => r.rank === rank)`: the first index holding the rank, or -1. */
  function FindIndexByRank(s: seq<Role>, rank: int): (i: int)
    ensures -1 <= i < |s|
    ensures i >= 0 ==> s[i].rank == rank && forall j :: 0 <= j < i ==> s[j].rank != rank
    ensures i == -1 <==> forall j :: 0 <= j < |s| ==> s[j].rank != rank
  {
    if |s| == 0 then -1
    else if s[0].rank == rank then 0
    else
      var k := FindIndexByRank(s[1..], rank);
      if k == -1 then -1 else k + 1
  }

  datatype Move =
    | MoveTo(role: Role)
    | AlreadyAtTop
    | AlreadyAtBottom
    /** The current rank is missing from the fetched ladder. */
    | NotOnLadder

  /**
    One step up a sorted ladder. The missing-rank case is reported instead of
    falling through to index 0 (see the findings in README.md).
   */
  function PromoteMove(sorted: seq<Role>, current: int): (m: Move)
    ensures m == NotOnLadder <==> forall j :: 0 <= j < |sorted| ==> sorted[j].rank != current
    ensures m.MoveTo? ==> m.role in sorted
    ensures !m.AlreadyAtBottom?
  {
    var i := FindIndexByRank(sorted, current);
    if i == -1 then NotOnLadder
    else if i == |sorted| - 1 then AlreadyAtTop
    else MoveTo(sorted[i + 1])
  }

  /**
    One step down a sorted ladder. In the source a missing rank reads
    `sortedRoles[-2]`, which is undefined, and the handler throws before any
    mutation; the model reports it.
   */
  function DemoteMove(sorted: seq<Role>, current: int): (m: Move)
    ensures m == NotOnLadder <==> forall j :: 0 <= j < |sorted| ==> sorted[j].rank != current
    ensures m.MoveTo? ==> m.role in sorted
    ensures !m.AlreadyAtTop?
  {
    var i := FindIndexByRank(sorted, current);
    if i == -1 then NotOnLadder
    else if i == 0 then AlreadyAtBottom
    else MoveTo(sorted[i - 1])
  }

  /**
    The promotion step exactly as the source writes it: with the rank missing
    (findIndex gives -1) it compares -1 with the last index and otherwise
    takes `sortedRoles[-1 + 1]`, the lowest role.
   */
  function PromoteMoveAsWritten(sorted: seq<Role>, current: int): (m: Move)
    ensures m != NotOnLadder && !m.AlreadyAtBottom?
    ensures m.MoveTo? ==> m.role in sorted
    // a rank missing from a non-empty ladder falls through to its lowest role
    ensures |sorted| > 0 && !HasRank(sorted, current) ==> m == MoveTo(sorted[0])
  {
    var i := FindIndexByRank(sorted, current);
    if i == |sorted| - 1 then AlreadyAtTop else MoveTo(sorted[i + 1])
  }

  /**
    On a sorted ladder, promotion reports a missing rank exactly when it is
    missing, and otherwise moves to a role no lower than the current one;
    with distinct ranks it moves exactly one step up, and refuses exactly at
    the top.
   */
  lemma {:induction false} PromoteMoveIsNextRankUp(sorted: seq<Role>, current: int)
    requires SortedByRank(sorted)
    ensures PromoteMove(sorted, current) == NotOnLadder <==> !HasRank(sorted, current)
    ensures PromoteMove(sorted, current) == AlreadyAtTop ==>
      IsTop(sorted, current)
    ensures DistinctRanks(sorted) ==>
      (PromoteMove(sorted, current) == AlreadyAtTop <==>
         IsTop(sorted, current))
    ensures PromoteMove(sorted, current).MoveTo? ==>
      PromoteMove(sorted, current).role in sorted && PromoteMove(sorted, current).role.rank >= current
    ensures PromoteMove(sorted, current).MoveTo? && DistinctRanks(sorted) ==>
      IsNextRankUp(sorted, current, PromoteMove(sorted, current).role)
    ensures !PromoteMove(sorted, current).AlreadyAtBottom?
  {
    var i := FindIndexByRank(sorted, current);
    if i == -1 {
      assert forall q :: q in sorted ==> q.rank != current;
    } else {
      assert sorted[i] in sorted;
      if i == |sorted| - 1 {
        forall q | q in sorted ensures q.rank <= current {
          var k :| 0 <= k < |sorted| && sorted[k] == q;
        }
      } else {
        var r := sorted[i + 1];
        assert r in sorted && r.rank >= current;
        if DistinctRanks(sorted) {
          assert r.rank > current;
          forall q | q in sorted && q.rank > current ensures r.rank <= q.rank {
            var k :| 0 <= k < |sorted| && sorted[k] == q;
          }
          assert !(forall q :: q in sorted ==> q.rank <= current);
        }
      }
    }
  }

  /** The mirror image of PromoteMoveIsNextRankUp for one step down. */
  lemma {:induction false} DemoteMoveIsNextRankDown(sorted: seq<Role>, current: int)
    requires SortedByRank(sorted)
    ensures DemoteMove(sorted, current) == NotOnLadder <==> !HasRank(sorted, current)
    ensures DemoteMove(sorted, current) == AlreadyAtBottom ==>
      IsBottom(sorted, current)
    ensures DistinctRanks(sorted) ==>
      (DemoteMove(sorted, current) == AlreadyAtBottom <==>
         IsBottom(sorted, current))
    ensures DemoteMove(sorted, current).MoveTo? ==>
      DemoteMove(sorted, current).role in sorted && DemoteMove(sorted, current).role.rank <= current
    ensures DemoteMove(sorted, current).MoveTo? && DistinctRanks(sorted) ==>
      IsNextRankDown(sorted, current, DemoteMove(sorted, current).role)
    ensures !DemoteMove(sorted, current).AlreadyAtTop?
  {
    var i := FindIndexByRank(sorted, current);
    if i == -1 {
      assert forall q :: q in sorted ==> q.rank != current;
    } else {
      assert sorted[i] in sorted;
      if i == 0 {
        forall q | q in sorted ensures q.rank >= current {
          var k :| 0 <= k < |sorted| && sorted[k] == q;
        }
      } else {
        var r := sorted[i - 1];
        assert r in sorted && r.rank <= current;
        if DistinctRanks(sorted) {
          assert r.rank < current;
          forall q | q in sorted && q.rank < current ensures q.rank <= r.rank {
            var k :| 0 <= k < |sorted| && sorted[k] == q;
          }
          assert !(forall q :: q in sorted ==> q.rank >= current);
        }
      }
    }
  }

  /**
    The source's promotion of a user whose rank is missing from the ladder
    picks the lowest role, which here lies below the user's rank.
   */
  lemma PromoteAsWrittenCanMoveDown()
    ensures var ladder := [Role(1, "Recruit", 1), Role(2, "Corporal", 10)];
      && SortedByRank(ladder) && DistinctRanks(ladder)
      && PromoteMoveAsWritten(ladder, 5) == MoveTo(Role(1, "Recruit", 1))
      && PromoteMove(ladder, 5) == NotOnLadder
  {
    var ladder := [Role(1, "Recruit", 1), Role(2, "Corporal", 10)];
    assert FindIndexByRank(ladder, 5) == -1;
  }

  /** Whenever the rank is on the ladder, the source's step and PromoteMove agree. */
  lemma PromoteAsWrittenAgreesOnLadder(sorted: seq<Role>, current: int)
    requires HasRank(sorted, current)
    ensures PromoteMoveAsWritten(sorted, current) == PromoteMove(sorted, current)
  {
    var q :| q in sorted && q.rank == current;
    var k :| 0 <= k < |sorted| && sorted[k] == q;
  }

  /** Ladder [Recruit(1), Private(5), Corporal(10)] at rank 5: up to Corporal, down to Recruit. */
  lemma ThreeRungLadder()
    ensures var ladder := [Role(1, "Recruit", 1), Role(2, "Private", 5), Role(3, "Corporal", 10)];
      && PromoteMove(ladder, 5) == MoveTo(Role(3, "Corporal", 10))
      && DemoteMove(ladder, 5) == MoveTo(Role(1, "Recruit", 1))
      && PromoteMove(ladder, 10) == AlreadyAtTop
      && DemoteMove(ladder, 1) == AlreadyAtBottom
  {
    var ladder := [Role(1, "Recruit", 1), Role(2, "Private", 5), Role(3, "Corporal", 10)];
    assert FindIndexByRank(ladder, 5) == 1;
    assert FindIndexByRank(ladder, 10) == 2;
  }

  // ---------------------------------------------------------------------
  // Moving between a role list and its sorted copy
  // ---------------------------------------------------------------------

  /** With distinct ranks a rank value names at most one role. */
  lemma SameRankSameRole(s: seq<Role>, a: Role, b: Role)
    requires DistinctRanks(s) && a in s && b in s && a.rank == b.rank
    ensures a == b
  {
    var i :| 0 <= i < |s| && s[i] == a;
    var j :| 0 <= j < |s| && s[j] == b;
  }

  /** With distinct ranks no entry occurs twice. */
  lemma {:induction false} DistinctRanksNoRepeats(s: seq<Role>, x: Role)
    requires DistinctRanks(s)
    ensures multiset(s)[x] <= 1
    decreases |s|
  {
    if s != [] {
      assert s == [s[0]] + s[1..];
      assert DistinctRanks(s[1..]) by {
        forall i, j | 0 <= i < |s[1..]| && 0 <= j < |s[1..]| && i != j
          ensures s[1..][i].rank != s[1..][j].rank
        {
          assert s[1..][i] == s[i + 1] && s[1..][j] == s[j + 1];
        }
      }
      DistinctRanksNoRepeats(s[1..], x);
      forall k | 0 <= k < |s[1..]| ensures s[1..][k] != s[0] {
        assert s[1..][k] == s[k + 1];
        assert s[k + 1].rank != s[0].rank;
      }
      assert s[0] !in s[1..];
    }
  }

  /** Distinct rank values survive any reordering of the same entries. */
  lemma {:induction false} DistinctRanksPermutation(a: seq<Role>, b: seq<Role>)
    requires multiset(a) == multiset(b)
    requires DistinctRanks(a)
    ensures DistinctRanks(b)
  {
    forall i, j | 0 <= i < |b| && 0 <= j < |b| && i != j ensures b[i].rank != b[j].rank {
      var lo, hi := if i < j then i else j, if i < j then j else i;
      DistinctRanksNoRepeats(a, b[lo]);
      assert b == b[..hi] + [b[hi]] + b[hi + 1..];
      assert b[lo] in b[..hi];
      assert multiset(b)[b[lo]] >= multiset(b[..hi])[b[lo]] + multiset([b[hi]])[b[lo]];
      assert b[lo] != b[hi];
      assert b[i] in multiset(a) && b[j] in multiset(a);
      var p :| 0 <= p < |a| && a[p] == b[i];
      var q :| 0 <= q < |a| && a[q] == b[j];
      assert a[p].rank != a[q].rank;
    }
  }

  // ---------------------------------------------------------------------
  // Lookup by name
  // ---------------------------------------------------------------------

  /**
    `roles.find(r => r.name.toLowerCase() === name.toLowerCase())`: the first
    role whose name equals `name` ignoring case.
   */
  function FindRoleByName(roles: seq<Role>, name: string): (r: Option<Role>)
    ensures r.Some? ==> r.value in roles && SameNameIgnoringCase(r.value.name, name)
    ensures r.None? <==> forall q :: q in roles ==> !SameNameIgnoringCase(q.name, name)
    ensures r.Some? ==>
              (exists i :: 0 <= i < |roles| && roles[i] == r.value &&
                 forall j :: 0 <= j < i ==> !SameNameIgnoringCase(roles[j].name, name))
  {
    if |roles| == 0 then None
    else if SameNameIgnoringCase(roles[0].name, name) then
      Some(roles[0])
    else
      var rest := FindRoleByName(roles[1..], name);
      assert forall q :: q in roles ==> q == roles[0] || q in roles[1..];
      if rest.Some? then
        ghost var i :| 0 <= i < |roles[1..]| && roles[1..][i] == rest.value &&
                         forall j :: 0 <= j < i ==> !SameNameIgnoringCase(roles[1..][j].name, name);
        assert roles[i + 1] == rest.value;
        rest
      else rest
  }

  /** Name lookup ignores case on both sides: "CORPORAL" finds the role named "Corporal". */
  lemma NameLookupIgnoresCase()
    ensures FindRoleByName([Role(1, "Recruit", 1), Role(3, "Corporal", 10)], "CORPORAL")
            == Some(Role(3, "Corporal", 10))
  {
    assert ToLower("Corporal") == ToLower("CORPORAL") == "corporal";
    assert ToLower("Recruit") != ToLower("CORPORAL") by {
      assert ToLower("Recruit")[0] == 'r';
    }
  }
}
