// Values shared by every part of the Raft model (raft/raft.go).
module RaftTypes {

  // The service's opaque commands; the sentinel entry carries none.
  datatype Command = NoCommand | Command(value: int)

  datatype Entry = Entry(term: nat, command: Command)

  // The entry Make() puts at index 0 of every log.
  const SENTINEL := Entry(0, NoCommand)

  type Log = seq<Entry>

  datatype Role = Follower | Candidate | Leader

  datatype ApplyMsg = ApplyMsg(index: nat, command: Command)

  // votedFor when no vote was cast in the current term.
  const NOBODY := -1

  // l and m hold the same entries at every index up to and including i.
  ghost predicate Has(l: Log, m: Log, i: nat) {
    i < |l| && i < |m| && forall j :: 0 <= j <= i ==> l[j] == m[j]
  }

  // The comparison RequestVote makes (raft.go:339): a log ending in
  // (index, term) is at least as up to date as l.
  predicate UpToDate(lastIndex: nat, lastTerm: nat, l: Log)
    requires |l| > 0
  {
    l[|l| - 1].term < lastTerm || (l[|l| - 1].term == lastTerm && |l| - 1 <= lastIndex)
  }

  // Votes a candidate needs (raft.go:707).
  function ElectionQuorum(n: nat): nat { n / 2 + 1 }

  // Servers that reach the index UpdateCommitIndex picks (raft.go:406).
  function CommitQuorum(n: nat): nat { n - n / 2 }

  lemma RangeSize(q: set<nat>, n: nat)
    requires forall s :: s in q ==> s < n
    ensures |q| <= n
  {
    if n == 0 {
      assert q == {};
    } else {
      var r := q - {n - 1};
      RangeSize(r, n - 1);
      assert q <= r + {n - 1};
      assert |q| <= |r| + 1;
    }
  }

  // Two sets of servers that are together larger than the cluster share a member.
  lemma Overlap(p: set<nat>, q: set<nat>, n: nat) returns (s: nat)
    requires forall s :: s in p ==> s < n
    requires forall s :: s in q ==> s < n
    requires |p| + |q| > n
    ensures s in p && s in q
  {
    RangeSize(p + q, n);
    assert |p + q| + |p * q| == |p| + |q|;
    s :| s in p * q;
  }

  // An election and a commit always share a server, for any number of servers.
  lemma QuorumsMeet(p: set<nat>, q: set<nat>, n: nat) returns (s: nat)
    requires (forall s :: s in p ==> s < n) && |p| >= ElectionQuorum(n)
    requires (forall s :: s in q ==> s < n) && |q| >= CommitQuorum(n)
    ensures s in p && s in q
  {
    s := Overlap(p, q, n);
  }
}
