// What each handler answers and what it changes, in terms of its arguments and the
// server's fields alone (raft/raft.go).
module RaftEffects {
  import opened RaftTypes
  import opened RaftMedian
  import opened RaftPeer

  function Max(a: int, b: int): int { if a < b then b else a }

  function Min(a: int, b: int): int { if a < b then a else b }

  // ---------- AppendEntries ----------

  // The request is of the server's term or a later one, and the entry before its own
  // is in the log.
  predicate Fits(p: Peer, a: AppendArgs) {
    a.term >= p.currentTerm && a.prevIndex < |p.log| && p.log[a.prevIndex].term == a.prevTerm
  }

  // The answer: success exactly when the request fits; a conflict names its term and
  // the index recorded for that term, 0 if there is none.
  lemma AppendAnswer(p: Peer, a: AppendArgs)
    ensures var r := HandleAppend(p, a).1;
      && r.term == Max(p.currentTerm, a.term)
      && (r.success <==> Fits(p, a))
      && (if a.term >= p.currentTerm && a.prevIndex < |p.log| && p.log[a.prevIndex].term != a.prevTerm then
            var t := p.log[a.prevIndex].term;
            r.conflictTerm == t && r.firstIndex == if t in p.firstIndex then p.firstIndex[t] else 0
          else r.conflictTerm == -1 && r.firstIndex == -1)
  {
    hide MergeFrom, AdvanceCommit;
  }

  // A server that applied everything up to its commit index, in order: from p to q it
  // gained exactly the commands of log at the new positions.
  ghost predicate AppliedUpTo(p: Peer, q: Peer, log: Log) {
    && |q.applyCh| == q.lastApplied >= q.commitIndex
    && q.lastApplied == Max(p.lastApplied, q.commitIndex)
    && p.applyCh <= q.applyCh
    && forall j :: |p.applyCh| <= j < |q.applyCh| ==>
         j + 1 < |log| && q.applyCh[j] == ApplyMsg(j + 1, log[j + 1].command)
  }

  // A successful request commits up to the leader's commit index, or to the end of the
  // log if that is less, and applies what that covers.
  lemma AppendCommits(p: Peer, a: AppendArgs, n: nat)
    requires Sound(p, n) && SoundAppend(a) && Fits(p, a)
    ensures var q := HandleAppend(p, a).0;
      && q.commitIndex == (if a.leaderCommit > p.commitIndex then Min(a.leaderCommit, |q.log| - 1) else p.commitIndex)
      && AppliedUpTo(p, q, q.log)
  {
    var w := if a.term > p.currentTerm then StepDown(p, a.term) else p;
    hide MergeFrom, Sound, Deliver;
    assert Sound(w, n) by { HandleVoteKeeps(p, a.term, n); }
    MergeFromSound(w, a, n);
    var m := MergeFrom(w, a.prevIndex + 1, a.entries);
    SoundApplied(m, n);
    SoundApplied(p, n);
    if a.leaderCommit > p.commitIndex {
      DeliverSound(m.(commitIndex := Min(a.leaderCommit, |m.log| - 1)));
    }
  }

  lemma HandleVoteKeeps(p: Peer, t: nat, n: nat)
    requires Sound(p, n)
    ensures t > p.currentTerm ==> Sound(StepDown(p, t), n)
  {
  }

  lemma SoundApplied(p: Peer, n: nat)
    requires Sound(p, n)
    ensures p.commitIndex <= p.lastApplied == |p.applyCh| && |p.log| > 0 && |p.nextIndex| == |p.matchIndex| == n
    ensures forall k :: 0 <= k < |p.applyCh| ==> p.applyCh[k].index == k + 1
  {
  }

  // Everything else AppendEntries does: a higher term is adopted; a stale or too far
  // request leaves the log, a conflicting one cuts it before the conflict, and one that
  // fits cuts it at the first sent entry it lacks and appends from there.
  lemma AppendLog(p: Peer, a: AppendArgs, n: nat)
    requires Sound(p, n) && SoundAppend(a)
    ensures var q := HandleAppend(p, a).0;
      && q.me == p.me && q.nextIndex == p.nextIndex && q.matchIndex == p.matchIndex
      && q.currentTerm == Max(p.currentTerm, a.term)
      && (if a.term > p.currentTerm then q.role.Follower? && q.votedFor == NOBODY
          else q.role == p.role && q.votedFor == p.votedFor)
      && q.log == (if Fits(p, a) then Merged(p.log, a.prevIndex + 1, a.entries)
                   else if a.term >= p.currentTerm && a.prevIndex < |p.log| then p.log[..a.prevIndex]
                   else p.log)
      && (!Fits(p, a) ==>
            && q.commitIndex == p.commitIndex && q.lastApplied == p.lastApplied && q.applyCh == p.applyCh
            && q.firstIndex == p.firstIndex)
  {
    var w := if a.term > p.currentTerm then StepDown(p, a.term) else p;
    assert w.stored == Stored(w.currentTerm, w.votedFor, w.log);
    hide MergeFrom, Merge, Merged, AdvanceCommit, Sound;
    if Fits(p, a) {
      MergeFromLog(w, a.prevIndex + 1, a.entries);
      MergeClosedForm(w.log, a.prevIndex + 1, a.entries);
      AdvanceKeeps(MergeFrom(w, a.prevIndex + 1, a.entries), a.leaderCommit);
    }
  }

  lemma AdvanceKeeps(p: Peer, c: nat)
    requires |p.log| > 0
    ensures var q := AdvanceCommit(p, c);
      && q.me == p.me && q.role == p.role && q.currentTerm == p.currentTerm && q.votedFor == p.votedFor
      && q.log == p.log && q.nextIndex == p.nextIndex && q.matchIndex == p.matchIndex
  {
  }

  // Sent entry i is of a later term than the entry before it.
  predicate Begins(l: Log, at: nat, es: Log, i: nat)
    requires 1 <= at <= |l| && i < |es|
  {
    (if i == 0 then l[at - 1].term else es[i - 1].term) < es[i].term
  }

  ghost predicate SameAt(f: map<nat, nat>, g: map<nat, nat>, t: nat) {
    (t in g <==> t in f) && (t in f ==> g[t] == f[t])
  }

  // From records f to g, term t is recorded where it begins among the entries from k
  // on, and keeps its record if it does not.
  ghost predicate Recorded(l: Log, at: nat, es: Log, k: nat, t: nat, f: map<nat, nat>, g: map<nat, nat>)
    requires 1 <= at <= |l|
  {
    && (forall i :: k <= i < |es| && es[i].term == t && Begins(l, at, es, i) ==> t in g && g[t] == at + i)
    && ((forall i :: k <= i < |es| && es[i].term == t ==> !Begins(l, at, es, i)) ==> SameAt(f, g, t))
  }

  lemma BeginsLater(l: Log, l1: Log, at: nat, es: Log, i: nat)
    requires 1 <= at <= |l| && at < |l1| && 1 <= i < |es| && l1[at].term == es[0].term && SortedTerms(es)
    ensures es[1..][i - 1] == es[i] && (Begins(l1, at + 1, es[1..], i - 1) <==> Begins(l, at, es, i))
    ensures Begins(l, at, es, i) ==> es[0].term < es[i].term
  {
  }

  lemma RecordedMore(l: Log, l1: Log, at: nat, es: Log, k: nat, t: nat, f: map<nat, nat>, f1: map<nat, nat>, g: map<nat, nat>)
    requires 1 <= at <= |l| && at < |l1| && es != [] && l1[at].term == es[0].term && SortedTerms(es)
    requires Recorded(l1, at + 1, es[1..], if k > 0 then k - 1 else 0, t, f1, g)
    requires if k > 0 then f1 == f else f1 == if l[at - 1].term < es[0].term then f[es[0].term := at] else f
    ensures Recorded(l, at, es, k, t, f, g)
  {
    var rest := es[1..];
    forall i | 1 <= i < |es|
      ensures rest[i - 1] == es[i] && (Begins(l1, at + 1, rest, i - 1) <==> Begins(l, at, es, i))
      ensures Begins(l, at, es, i) ==> es[0].term < es[i].term
    {
      BeginsLater(l, l1, at, es, i);
    }
    assert Begins(l, at, es, 0) <==> l[at - 1].term < es[0].term;
    hide Begins;
    forall i | k <= i < |es| && es[i].term == t && Begins(l, at, es, i) ensures t in g && g[t] == at + i {
      if i > 0 { assert Begins(l1, at + 1, rest, i - 1); }
    }
  }

  // The index at which a term that the merge brings in begins is recorded for it, and
  // no other record changes.
  lemma {:induction false} MergeRecords(p: Peer, at: nat, es: Log, t: nat)
    requires 1 <= at <= |p.log| && SortedTerms(es)
    ensures Recorded(p.log, at, es, Agreeing(p.log, at, es), t, p.firstIndex, MergeFrom(p, at, es).firstIndex)
    decreases |es|
  {
    hide Recorded;
    if es == [] {
      RecordedNone(p.log, at, t, p.firstIndex);
    } else if at < |p.log| && p.log[at].term == es[0].term {
      MergeRecords(p, at + 1, es[1..], t);
      RecordedMore(p.log, p.log, at, es, Agreeing(p.log, at, es), t, p.firstIndex, p.firstIndex, MergeFrom(p, at, es).firstIndex);
    } else {
      var q := AppendAt(p, at, es[0]);
      MergeRecords(q, at + 1, es[1..], t);
      assert Agreeing(q.log, at + 1, es[1..]) == 0;
      RecordedMore(p.log, q.log, at, es, 0, t, p.firstIndex, q.firstIndex, MergeFrom(p, at, es).firstIndex);
    }
  }

  lemma RecordedNone(l: Log, at: nat, t: nat, f: map<nat, nat>)
    requires 1 <= at <= |l|
    ensures Recorded(l, at, [], 0, t, f, f)
  {
  }

  // ---------- The leader's side ----------

  // What a leader sends: to a peer that lacks entries, all it lacks, and to everyone the
  // end of its log; always with its term, its commit index and the entry before.
  lemma RequestCarries(p: Peer, peer: nat, n: nat)
    requires Sound(p, n) && peer < n && p.role.Leader?
    ensures HasNews(p, peer) <==> p.nextIndex[peer] <= |p.log| - 1
    ensures HasNews(p, peer) ==>
      var a := ReplicateArgs(p, peer);
      && a.term == p.currentTerm && a.leaderId == p.me && a.leaderCommit == p.commitIndex
      && a.prevIndex + 1 == p.nextIndex[peer] && a.prevTerm == p.log[a.prevIndex].term
      && p.log[..a.prevIndex + 1] + a.entries == p.log
    ensures var h := HeartbeatArgs(p);
      && h.term == p.currentTerm && h.leaderId == p.me && h.leaderCommit == p.commitIndex
      && h.entries == [] && h.prevIndex + 1 == |p.log| && h.prevTerm == p.log[h.prevIndex].term
  {
  }

  // A failed reply of a term not above the leader's: only the peer's nextIndex changes,
  // to one less or to the index the peer names, and never below 1.
  lemma BacksUp(p: Peer, peer: nat, a: AppendArgs, r: AppendReply)
    requires peer < |p.nextIndex| == |p.matchIndex| && !r.success && r.term <= p.currentTerm
    ensures var o := HandleAppendReply(p, peer, a, r);
      && o.Done? && o.peer == p.(nextIndex := o.peer.nextIndex) && |o.peer.nextIndex| == |p.nextIndex|
      && (forall s :: 0 <= s < |p.nextIndex| && s != peer ==> o.peer.nextIndex[s] == p.nextIndex[s])
      && o.peer.nextIndex[peer] == Max(1, if r.firstIndex == -1 then p.nextIndex[peer] - 1 else r.firstIndex)
  {
  }

  // The peers after k failed replies that name no index.
  ghost predicate Refusals(ps: seq<Peer>, peer: nat, args: seq<AppendArgs>, rs: seq<AppendReply>) {
    && |ps| == |rs| + 1 == |args| + 1
    && forall j :: 0 <= j < |rs| ==>
      && peer < |ps[j].nextIndex| == |ps[j].matchIndex|
      && !rs[j].success && rs[j].firstIndex == -1 && rs[j].term <= ps[j].currentTerm
      && HandleAppendReply(ps[j], peer, args[j], rs[j]) == Done(ps[j + 1])
  }

  // Such replies take nextIndex down one by one, and hold it at 1.
  lemma {:induction false} BacksUpToStart(ps: seq<Peer>, peer: nat, args: seq<AppendArgs>, rs: seq<AppendReply>, j: nat, n: nat)
    requires Refusals(ps, peer, args, rs) && Sound(ps[0], n) && peer < n && j < |ps|
    ensures Sound(ps[j], n) && ps[j] == ps[0].(nextIndex := ps[j].nextIndex)
    ensures ps[j].nextIndex[peer] == Max(1, ps[0].nextIndex[peer] - j)
    decreases j
  {
    if j > 0 {
      BacksUpToStart(ps, peer, args, rs, j - 1, n);
      BacksUp(ps[j - 1], peer, args[j - 1], rs[j - 1]);
      HandleAppendReplySound(ps[j - 1], peer, args[j - 1], rs[j - 1], n);
      hide HandleAppendReply;
    }
  }

  // After at most as many as nextIndex exceeds 1, the request the leader builds starts
  // right after the sentinel, and every server of no later term accepts it.
  lemma SentinelMatches(ps: seq<Peer>, peer: nat, args: seq<AppendArgs>, rs: seq<AppendReply>, n: nat, f: Peer)
    requires Refusals(ps, peer, args, rs) && Sound(ps[0], n) && peer < n && ps[0].role.Leader?
    requires |rs| >= ps[0].nextIndex[peer] - 1 && |ps[0].log| > 1 && Sound(f, n) && f.currentTerm <= ps[0].currentTerm
    ensures var p := ps[|rs|];
      && HasNews(p, peer) && p.nextIndex[peer] == 1
      && ReplicateArgs(p, peer).prevIndex == 0 && ReplicateArgs(p, peer).entries == p.log[1..]
      && HandleAppend(f, ReplicateArgs(p, peer)).1.success
  {
    BacksUpToStart(ps, peer, args, rs, |rs|, n);
    var p := ps[|rs|];
    hide Refusals, HandleAppend, HandleAppendReply;
    RequestCarries(p, peer, n);
    AppendAnswer(f, ReplicateArgs(p, peer));
  }

  // A successful reply records what the peer now holds.
  lemma ReplyRecords(p: Peer, peer: nat, a: AppendArgs, r: AppendReply, n: nat)
    requires Sound(p, n) && peer < n && r.success && r.term <= p.currentTerm
    ensures var o, m := HandleAppendReply(p, peer, a, r), a.prevIndex + |a.entries|;
      o.Done? ==>
        && o.peer.nextIndex == p.nextIndex[peer := m + 1] && o.peer.matchIndex == p.matchIndex[peer := m]
        && o.peer.log == p.log && o.peer.currentTerm == p.currentTerm && o.peer.role == p.role && o.peer.votedFor == p.votedFor
  {
  }

  // It commits index k, the largest that n - n/2 servers hold, if that is new and of the
  // leader's own term, and applies what that covers; if there is no such entry, it
  // panics.
  lemma ReplyCommits(p: Peer, peer: nat, a: AppendArgs, r: AppendReply, n: nat, k: nat)
    requires Sound(p, n) && peer < n && r.success && r.term <= p.currentTerm
    requires var held := p.matchIndex[peer := a.prevIndex + |a.entries|];
      |Reaching(held, k)| >= n - n / 2 && |Reaching(held, k + 1)| < n - n / 2
    ensures var o := HandleAppendReply(p, peer, a, r);
      && (o.Panic? <==> k > p.commitIndex && k >= |p.log|)
      && (o.Done? ==>
           && o.peer.commitIndex == (if k > p.commitIndex && p.log[k].term == p.currentTerm then k else p.commitIndex)
           && AppliedUpTo(p, o.peer, p.log))
  {
    hide Median, UpdateCommit, Sound, AppliedUpTo;
    SoundApplied(p, n);
    var held := p.matchIndex[peer := a.prevIndex + |a.entries|];
    ReachIsCount(held, k);
    ReachIsCount(held, k + 1);
    MedianReached(held, k);
    MedianReached(held, k + 1);
    CommitsAt(p, p.(nextIndex := p.nextIndex[peer := a.prevIndex + |a.entries| + 1], matchIndex := held), k);
  }

  lemma CommitsAt(p: Peer, w: Peer, k: nat)
    requires |w.matchIndex| > 0 && Median(w.matchIndex) == k && w == p.(nextIndex := w.nextIndex, matchIndex := w.matchIndex)
    requires p.commitIndex <= p.lastApplied == |p.applyCh| && forall j :: 0 <= j < |p.applyCh| ==> p.applyCh[j].index == j + 1
    ensures UpdateCommit(w).Panic? <==> k > p.commitIndex && k >= |p.log|
    ensures UpdateCommit(w).Done? ==>
      && UpdateCommit(w).peer.commitIndex == (if k > p.commitIndex && p.log[k].term == p.currentTerm then k else p.commitIndex)
      && AppliedUpTo(p, UpdateCommit(w).peer, p.log)
  {
    hide Median, Deliver;
    if !(k > p.commitIndex && k >= |p.log|) {
      var q := if k > p.commitIndex && p.log[k].term == p.currentTerm then w.(commitIndex := k) else w;
      DeliverSound(q);
      assert UpdateCommit(w) == Done(Deliver(q));
    }
  }

  // A reply of a higher term, to a request or a heartbeat, ends the term.
  lemma HigherTermRetires(p: Peer, peer: nat, a: AppendArgs, r: AppendReply)
    requires peer < |p.nextIndex| == |p.matchIndex| && r.term > p.currentTerm
    ensures var q := p.(currentTerm := r.term, role := Follower, votedFor := NOBODY, stored := Stored(r.term, NOBODY, p.log));
      HandleAppendReply(p, peer, a, r) == Done(q) && HandleHeartbeatReply(p, r) == q
    ensures HandleHeartbeatReply(p, r.(term := p.currentTerm)) == p
  {
  }

  // Start: a leader's log gains the command in its term, persisted, and it counts itself
  // as holding it; nobody else changes.
  lemma StartAppends(p: Peer, command: Command, n: nat)
    requires Sound(p, n)
    ensures var q := StartCommand(p, command);
      if p.role.Leader? then
        && q.log == p.log + [Entry(p.currentTerm, command)] && q.stored.log == q.log
        && q.matchIndex == p.matchIndex[p.me := |p.log|] && q.nextIndex == p.nextIndex[p.me := |p.log| + 1]
        && q == p.(log := q.log, stored := q.stored, matchIndex := q.matchIndex, nextIndex := q.nextIndex)
      else q == p
  {
  }

  // ---------- Elections ----------

  // RequestVote grants exactly when the term is not old, no other candidate has this
  // term's vote, and the candidate's log ends in a later term, or in the same and is no
  // shorter. A grant is persisted.
  lemma VoteGranted(p: Peer, a: VoteArgs, n: nat)
    requires Sound(p, n)
    ensures var (q, r) := HandleVote(p, a);
      var mine := p.log[|p.log| - 1].term;
      && r.term == q.currentTerm == Max(p.currentTerm, a.term)
      && (r.granted <==>
            && a.term >= p.currentTerm
            && (a.term > p.currentTerm || p.votedFor == NOBODY || p.votedFor == a.candidate)
            && (a.lastTerm > mine || (a.lastTerm == mine && a.lastIndex >= |p.log| - 1)))
      && q.votedFor == (if r.granted then a.candidate else if a.term > p.currentTerm then NOBODY else p.votedFor)
      && (if r.granted || a.term > p.currentTerm then q.role.Follower? else q.role == p.role)
      && q.stored == Stored(q.currentTerm, q.votedFor, q.log)
      && q == p.(currentTerm := q.currentTerm, votedFor := q.votedFor, role := q.role, stored := q.stored)
  {
  }

  // A candidate's own steps: it stands, takes the next term with its own vote, persisted,
  // and asks with the end of its log. A leader that lost its quorum drops its vote.
  lemma Standing(p: Peer, n: nat)
    requires Sound(p, n)
    ensures TimeOut(p) == p.(role := Candidate)
    ensures var q := Launch(p);
      q == p.(currentTerm := p.currentTerm + 1, votedFor := p.me, stored := Stored(p.currentTerm + 1, p.me, p.log))
    ensures VoteRequest(p) == VoteArgs(p.currentTerm, p.me, |p.log| - 1, p.log[|p.log| - 1].term)
    ensures QuorumLoss(p) == p.(role := Follower, votedFor := NOBODY, stored := Stored(p.currentTerm, NOBODY, p.log))
  {
  }

  // A granted vote is counted, and more than half of n servers make a leader that knows
  // nothing yet of what the others hold; a higher term ends the candidacy.
  lemma VoteCounts(p: Peer, nvotes: nat, r: VoteReply, n: nat)
    requires Sound(p, n)
    ensures var (q, k) := HandleVoteReply(p, nvotes, r);
      if r.term > p.currentTerm then
        && k == nvotes && q.role.Follower? && q.currentTerm == r.term && q.votedFor == NOBODY && q.log == p.log
      else
        && k == nvotes + (if r.granted then 1 else 0)
        && (r.granted && 2 * k > n ==>
              && q == p.(role := Leader, nextIndex := q.nextIndex, matchIndex := q.matchIndex)
              && |q.nextIndex| == |q.matchIndex| == n
              && forall s :: 0 <= s < n ==> q.nextIndex[s] == |p.log| && q.matchIndex[s] == 0)
        && (!r.granted || 2 * k <= n ==> q == p)
  {
  }

  // A restart keeps what was persisted and forgets the rest.
  lemma BootKeeps(me: nat, n: nat, st: Stored)
    ensures var p := Boot(me, n, st);
      && p.me == me && p.currentTerm == st.term && p.votedFor == st.votedFor && p.log == st.log && p.stored == st
      && p.role.Follower? && p.commitIndex == p.lastApplied == 0 && p.applyCh == [] && p.firstIndex == map[]
      && |p.nextIndex| == |p.matchIndex| == n && forall s :: 0 <= s < n ==> p.nextIndex[s] == 1 && p.matchIndex[s] == 0
  {
  }
}
