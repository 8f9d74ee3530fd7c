// The Raft server as the program runs it: an object whose lock regions update its
// fields in place and save them through a persister (raft/raft.go,
// raft/persister.go). Each region is proved to compute the value RaftPeer gives it.
module RaftServer {
  import opened RaftTypes
  import opened RaftMedian
  import opened RaftPeer

  // The store that survives a crash. Encoding is the identity.
  class Persister {
    var saved: bool
    var raftstate: Stored

    constructor ()
      ensures Read() == BLANK
    {
      saved := false;
      raftstate := BLANK;
    }

    // What a server started on this persister restores (Make's defaults if empty).
    function Read(): Stored
      reads this
    {
      if saved then raftstate else BLANK
    }

    method SaveRaftState(state: Stored)
      modifies this
      ensures Read() == state
    {
      saved := true;
      raftstate := state;
    }

    method Copy() returns (np: Persister)
      ensures fresh(np) && np.Read() == Read()
    {
      np := new Persister();
      np.saved := saved;
      np.raftstate := raftstate;
    }
  }

  class Server {
    const me: nat
    const persister: Persister
    var currentTerm: nat
    var votedFor: int
    var log: Log
    var commitIndex: nat
    var lastApplied: nat
    var nextIndex: seq<nat>
    var matchIndex: seq<nat>
    var role: Role
    var firstIndexEachTerm: map<nat, nat>
    var applyCh: seq<ApplyMsg>

    ghost function Value(): Peer
      reads this, persister
    {
      Peer(me, currentTerm, votedFor, log, commitIndex, lastApplied, nextIndex, matchIndex, role,
           firstIndexEachTerm, applyCh, persister.Read())
    }

    // Make, on a new or a surviving persister.
    constructor (n: nat, me: nat, persister: Persister)
      ensures this.me == me && this.persister == persister
      ensures Value() == Boot(me, n, old(persister.Read()))
    {
      this.me := me;
      this.persister := persister;
      var st := persister.Read();
      currentTerm, votedFor, log := st.term, st.votedFor, st.log;
      commitIndex, lastApplied := 0, 0;
      nextIndex, matchIndex := seq(n, _ => 1), seq(n, _ => 0);
      role := Follower;
      firstIndexEachTerm := map[];
      applyCh := [];
    }

    method Save()
      modifies persister
      ensures Value() == Persist(old(Value()))
    {
      persister.SaveRaftState(Stored(currentTerm, votedFor, log));
    }

    method Retire(t: nat)
      modifies this, persister
      ensures Value() == StepDown(old(Value()), t)
    {
      currentTerm := t;
      role := Follower;
      votedFor := NOBODY;
      Save();
    }

    method RequestVote(a: VoteArgs) returns (reply: VoteReply)
      requires |log| > 0
      modifies this, persister
      ensures (Value(), reply) == HandleVote(old(Value()), a)
    {
      if a.term > currentTerm {
        Retire(a.term);
      } else if a.term < currentTerm {
        return VoteReply(currentTerm, false);
      }
      var last := log[|log| - 1].term;
      if last < a.lastTerm || (last == a.lastTerm && |log| - 1 <= a.lastIndex) {
        if votedFor == NOBODY || votedFor == a.candidate {
          votedFor := a.candidate;
          Save();
          role := Follower;
          return VoteReply(currentTerm, true);
        }
      }
      return VoteReply(currentTerm, false);
    }

    method AppendEntries(a: AppendArgs) returns (reply: AppendReply)
      modifies this, persister
      ensures (Value(), reply) == HandleAppend(old(Value()), a)
    {
      hide MergeFrom, Deliver;
      if a.term < currentTerm {
        return AppendReply(currentTerm, false, -1, -1);
      }
      if a.term > currentTerm {
        Retire(a.term);
      }
      if a.prevIndex >= |log| {
        return AppendReply(currentTerm, false, -1, -1);
      }
      if log[a.prevIndex].term != a.prevTerm {
        var t := log[a.prevIndex].term;
        var first := if t in firstIndexEachTerm then firstIndexEachTerm[t] else 0;
        log := log[..a.prevIndex];
        Save();
        return AppendReply(currentTerm, false, t, first);
      }
      MergeEntries(a.prevIndex + 1, a.entries);
      if a.leaderCommit > commitIndex {
        commitIndex := if a.leaderCommit < |log| - 1 then a.leaderCommit else |log| - 1;
        ApplyCommitted();
      }
      return AppendReply(currentTerm, true, -1, -1);
    }

    // raft.go:252-265
    method MergeEntries(at: nat, es: Log)
      requires 1 <= at <= |log|
      modifies this, persister
      ensures Value() == MergeFrom(old(Value()), at, es)
    {
      var i := 0;
      assert es[..0] == [];
      while i < |es|
        invariant 0 <= i <= |es| && Value() == MergeFrom(old(Value()), at, es[..i])
      {
        var k := at + i;
        MergeStep(old(Value()), at, es[..i], es[i]);
        assert es[..i + 1] == es[..i] + [es[i]];
        if !(k < |log| && log[k].term == es[i].term) {
          Overwrite(k, es[i]);
        }
        i := i + 1;
      }
      assert es[..|es|] == es;
    }

    // raft.go:257-263
    method Overwrite(k: nat, e: Entry)
      requires 1 <= k <= |log|
      modifies this, persister
      ensures Value() == AppendAt(old(Value()), k, e)
    {
      log := log[..k];
      log := log + [e];
      Save();
      if log[|log| - 2].term < log[|log| - 1].term {
        firstIndexEachTerm := firstIndexEachTerm[log[|log| - 1].term := |log| - 1];
      }
    }

    // raft.go:276-286 and 415-426
    method ApplyCommitted()
      requires lastApplied < commitIndex ==> commitIndex < |log|
      modifies this
      ensures Value() == Deliver(old(Value()))
    {
      while lastApplied < commitIndex
        invariant lastApplied < commitIndex ==> commitIndex < |log|
        invariant Deliver(Value()) == Deliver(old(Value()))
        decreases commitIndex - lastApplied
      {
        lastApplied := lastApplied + 1;
        applyCh := applyCh + [ApplyMsg(lastApplied, log[lastApplied].command)];
      }
    }

    // Returns true when the Go code would panic reading past the end of the log.
    method UpdateCommitIndex() returns (panics: bool)
      requires |matchIndex| > 0
      modifies this
      ensures panics == UpdateCommit(old(Value())).Panic?
      ensures !panics ==> Done(Value()) == UpdateCommit(old(Value()))
    {
      SortedSame(matchIndex);
      var matchIndices := SortInts(matchIndex);
      var n := matchIndices[|matchIndices| / 2];
      if n > commitIndex {
        if n >= |log| {
          return true;
        }
        if log[n].term == currentTerm {
          commitIndex := n;
        }
      }
      if lastApplied < commitIndex && commitIndex >= |log| {
        return true;
      }
      ApplyCommitted();
      return false;
    }

    // raft.go:437-455
    method BuildAppend(peer: nat) returns (send: bool, a: AppendArgs)
      requires peer < |nextIndex| && nextIndex[peer] >= 1
      ensures send == HasNews(Value(), peer)
      ensures send ==> a == ReplicateArgs(Value(), peer)
    {
      a := AppendArgs(0, 0, 0, 0, [], 0);
      send := role.Leader? && |log| - 1 >= nextIndex[peer];
      if send {
        var k := nextIndex[peer];
        a := AppendArgs(currentTerm, me, k - 1, log[k - 1].term, log[k..], commitIndex);
      }
    }

    // raft.go:466-501
    method OnAppendReply(peer: nat, a: AppendArgs, r: AppendReply) returns (panics: bool)
      requires peer < |nextIndex| == |matchIndex|
      modifies this, persister
      ensures panics == HandleAppendReply(old(Value()), peer, a, r).Panic?
      ensures !panics ==> Done(Value()) == HandleAppendReply(old(Value()), peer, a, r)
    {
      hide UpdateCommit;
      if r.term > currentTerm {
        Retire(r.term);
        return false;
      }
      if r.success {
        nextIndex := nextIndex[peer := a.prevIndex + |a.entries| + 1];
        matchIndex := matchIndex[peer := nextIndex[peer] - 1];
        panics := UpdateCommitIndex();
      } else {
        var k := if r.firstIndex == -1 then nextIndex[peer] - 1 else r.firstIndex;
        nextIndex := nextIndex[peer := if k < 1 then 1 else k];
        panics := false;
      }
    }

    // raft.go:548-568
    method Start(command: Command) returns (index: nat, term: nat, isLeader: bool)
      requires me < |nextIndex| == |matchIndex|
      modifies this, persister
      ensures Value() == StartCommand(old(Value()), command)
      ensures index == old(|log|) && term == old(currentTerm) && isLeader == old(role.Leader?)
      ensures isLeader ==> index < |log| && log[index] == Entry(term, command)
    {
      index, term, isLeader := |log|, currentTerm, role.Leader?;
      if isLeader {
        log := log + [Entry(currentTerm, command)];
        Save();
        nextIndex := nextIndex[me := |log|];
        matchIndex := matchIndex[me := |log| - 1];
      }
    }

    // raft.go:695-698
    method LaunchElection()
      modifies this, persister
      ensures Value() == Launch(old(Value()))
    {
      currentTerm := currentTerm + 1;
      votedFor := me;
      Save();
    }

    // raft.go:799-809, as far as it does not look at the clock
    method Tick(lostQuorum: bool, timedOut: bool) returns (elect: bool)
      modifies this, persister
      ensures elect == (old(!role.Leader?) && timedOut)
      ensures Value() == if old(role.Leader?) && lostQuorum then QuorumLoss(old(Value()))
                         else if elect then TimeOut(old(Value())) else old(Value())
    {
      elect := false;
      if role.Leader? && lostQuorum {
        role := Follower;
        votedFor := NOBODY;
        Save();
      } else if !role.Leader? && timedOut {
        role := Candidate;
        elect := true;
      }
    }

    // raft.go:746-778
    method OnVoteReply(nvotes: nat, r: VoteReply) returns (nvotes': nat)
      requires |nextIndex| == |matchIndex|
      modifies this, persister
      ensures (Value(), nvotes') == HandleVoteReply(old(Value()), nvotes, r)
    {
      nvotes' := nvotes;
      if currentTerm < r.term {
        Retire(r.term);
      } else if r.granted {
        nvotes' := nvotes + 1;
        if nvotes' >= |nextIndex| / 2 + 1 {
          role := Leader;
          for i := 0 to |nextIndex|
            invariant |nextIndex| == |matchIndex| == old(|nextIndex|)
            invariant Value() == old(Value()).(role := Leader, nextIndex := nextIndex, matchIndex := matchIndex)
            invariant forall j :: 0 <= j < i ==> nextIndex[j] == |log| && matchIndex[j] == 0
          {
            nextIndex, matchIndex := nextIndex[i := |log|], matchIndex[i := 0];
          }
          assert nextIndex == BecomeLeader(old(Value())).nextIndex;
          assert matchIndex == BecomeLeader(old(Value())).matchIndex;
        }
      }
    }
  }
}
