// The index UpdateCommitIndex picks: a sorted copy of matchIndex, read at len/2
// (raft/raft.go:400-406), and what being picked means for the servers.
module RaftMedian {

  ghost predicate Sorted(s: seq<nat>) {
    forall i, j :: 0 <= i < j < |s| ==> s[i] <= s[j]
  }

  function Insert(x: nat, s: seq<nat>): seq<nat> {
    if s == [] || x <= s[0] then [x] + s else [s[0]] + Insert(x, s[1..])
  }

  // sort.Ints on a copy.
  function SortInts(s: seq<nat>): seq<nat> {
    if s == [] then [] else Insert(s[0], SortInts(s[1..]))
  }

  function Median(s: seq<nat>): nat
    requires |s| > 0
  {
    SortedSame(s);
    SortInts(s)[|s| / 2]
  }

  // How many elements reach x.
  ghost function Reach(s: seq<nat>, x: nat): nat {
    if s == [] then 0 else (if s[0] >= x then 1 else 0) + Reach(s[1..], x)
  }

  lemma {:induction false} InsertSame(y: nat, s: seq<nat>)
    requires Sorted(s)
    ensures Sorted(Insert(y, s)) && |Insert(y, s)| == |s| + 1
    ensures forall z :: z in Insert(y, s) <==> z == y || z in s
    ensures forall x: nat :: Reach(Insert(y, s), x) == Reach([y] + s, x)
  {
    if s == [] || y <= s[0] {
      assert Insert(y, s) == [y] + s;
    } else {
      InsertSame(y, s[1..]);
      var t := Insert(y, s[1..]);
      assert Insert(y, s) == [s[0]] + t;
      forall i | 0 <= i < |t| ensures s[0] <= t[i] {
        assert t[i] in t;
      }
      assert Sorted([s[0]] + t);
      forall x: nat ensures Reach(Insert(y, s), x) == Reach([y] + s, x) {
        assert ([y] + s)[1..] == s;
        assert ([y] + s[1..])[1..] == s[1..];
      }
    }
  }

  lemma {:induction false} SortedSame(s: seq<nat>)
    ensures Sorted(SortInts(s)) && |SortInts(s)| == |s|
    ensures forall x: nat :: Reach(SortInts(s), x) == Reach(s, x)
  {
    if s != [] {
      SortedSame(s[1..]);
      InsertSame(s[0], SortInts(s[1..]));
      forall x: nat ensures Reach(SortInts(s), x) == Reach(s, x) {
        assert ([s[0]] + SortInts(s[1..]))[1..] == SortInts(s[1..]);
      }
    }
  }

  lemma {:induction false} SortedReach(s: seq<nat>, k: nat, x: nat)
    requires Sorted(s) && k < |s|
    ensures x <= s[k] ==> Reach(s, x) >= |s| - k
    ensures x > s[k] ==> Reach(s, x) < |s| - k
  {
    if k == 0 {
      if x <= s[0] { AllReach(s, x); } else { ReachAtMost(s[1..], x); }
    } else {
      SortedReach(s[1..], k - 1, x);
    }
  }

  lemma {:induction false} AllReach(s: seq<nat>, x: nat)
    requires forall i :: 0 <= i < |s| ==> s[i] >= x
    ensures Reach(s, x) == |s|
  {
    if s != [] { AllReach(s[1..], x); }
  }

  lemma {:induction false} ReachAtMost(s: seq<nat>, x: nat)
    ensures Reach(s, x) <= |s|
  {
    if s != [] { ReachAtMost(s[1..], x); }
  }

  // The median is the largest index that at least n - n/2 of the n servers reach.
  lemma MedianReached(s: seq<nat>, x: nat)
    requires |s| > 0
    ensures x <= Median(s) <==> Reach(s, x) >= |s| - |s| / 2
  {
    SortedSame(s);
    SortedReach(SortInts(s), |s| / 2, x);
  }

  // With an odd number of servers that is a strict majority, with an even number
  // it can be exactly half of them.
  lemma MedianMajority(s: seq<nat>, x: nat)
    requires |s| % 2 == 1
    ensures x <= Median(s) <==> 2 * Reach(s, x) > |s|
  {
    MedianReached(s, x);
  }

  // The element at len/2 falls short of a strict majority exactly when half of the
  // servers, no more, reach it; that takes an even number of them.
  lemma MedianTie(s: seq<nat>, x: nat)
    requires |s| > 0
    ensures x <= Median(s) && 2 * Reach(s, x) <= |s| <==> 2 * Reach(s, x) == |s|
  {
    MedianReached(s, x);
  }

  lemma EvenMedianIsHalf()
    ensures Median([1, 0]) == 1 && 2 * Reach([1, 0], 1) == 2
  {
    assert [1, 0][1..] == [0];
    assert SortInts([0]) == [0];
    assert SortInts([1, 0]) == Insert(1, [0]);
    assert [0][1..] == [];
    assert Insert(1, [0]) == [0, 1];
  }

  ghost function Reaching(s: seq<nat>, x: nat): set<nat> {
    set i: nat | i < |s| && s[i] >= x
  }

  lemma {:induction false} ReachLast(s: seq<nat>, x: nat)
    requires s != []
    ensures Reach(s, x) == Reach(s[..|s| - 1], x) + if s[|s| - 1] >= x then 1 else 0
  {
    if |s| > 1 {
      ReachLast(s[1..], x);
      assert s[1..][..|s| - 2] == s[..|s| - 1][1..];
    }
  }

  // Reach counts the servers whose index reaches x.
  lemma {:induction false} ReachIsCount(s: seq<nat>, x: nat)
    ensures |Reaching(s, x)| == Reach(s, x)
  {
    if s == [] {
      assert Reaching(s, x) == {};
    } else {
      var n := |s| - 1;
      ReachIsCount(s[..n], x);
      ReachLast(s, x);
      assert Reaching(s, x) == Reaching(s[..n], x) + if s[n] >= x then {n} else {};
    }
  }
}
