// One Raft server as a value, and what each of its lock regions does to it
// (raft/raft.go). RaftServer.dfy runs the same regions in place.
module RaftPeer {
  import opened RaftTypes
  import opened RaftMedian

  // What persist() saves; an empty persister reads back as a fresh server's state.
  datatype Stored = Stored(term: nat, votedFor: int, log: Log)

  const BLANK := Stored(0, NOBODY, [SENTINEL])

  datatype Peer = Peer(
    me: nat,
    currentTerm: nat,
    votedFor: int,
    log: Log,
    commitIndex: nat,
    lastApplied: nat,
    nextIndex: seq<nat>,
    matchIndex: seq<nat>,
    role: Role,
    firstIndex: map<nat, nat>,     // firstIndexEachTerm
    applyCh: seq<ApplyMsg>,        // everything sent on applyCh so far
    stored: Stored)

  datatype AppendArgs = AppendArgs(
    term: nat, leaderId: nat, prevIndex: nat, prevTerm: nat, entries: Log, leaderCommit: nat)

  datatype AppendReply = AppendReply(term: nat, success: bool, conflictTerm: int, firstIndex: int)

  datatype VoteArgs = VoteArgs(term: nat, candidate: nat, lastIndex: nat, lastTerm: nat)

  datatype VoteReply = VoteReply(term: nat, granted: bool)

  // A region either finishes or kills the process with a Go runtime panic.
  datatype Outcome = Done(peer: Peer) | Panic

  function LastIndex(p: Peer): nat
    requires |p.log| > 0
  {
    |p.log| - 1
  }

  function LastTerm(p: Peer): nat
    requires |p.log| > 0
  {
    p.log[|p.log| - 1].term
  }

  function Persist(p: Peer): Peer {
    p.(stored := Stored(p.currentTerm, p.votedFor, p.log))
  }

  function StepDown(p: Peer, t: nat): Peer {
    Persist(p.(currentTerm := t, role := Follower, votedFor := NOBODY))
  }

  // ---------- Make, crash and restart ----------

  function Boot(me: nat, n: nat, stored: Stored): Peer {
    Peer(me, stored.term, stored.votedFor, stored.log, 0, 0,
         seq(n, _ => 1), seq(n, _ => 0), Follower, map[], [], stored)
  }

  // ---------- RequestVote ----------

  function HandleVote(p: Peer, a: VoteArgs): (Peer, VoteReply)
    requires |p.log| > 0
  {
    if a.term < p.currentTerm then
      (p, VoteReply(p.currentTerm, false))
    else
      var q := if a.term > p.currentTerm then StepDown(p, a.term) else p;
      if UpToDate(a.lastIndex, a.lastTerm, q.log) && (q.votedFor == NOBODY || q.votedFor == a.candidate) then
        (Persist(q.(votedFor := a.candidate)).(role := Follower), VoteReply(q.currentTerm, true))
      else
        (q, VoteReply(q.currentTerm, false))
  }

  // ---------- AppendEntries ----------

  // Overwrite from index at on with e (raft.go:257-263).
  function AppendAt(p: Peer, at: nat, e: Entry): Peer
    requires 1 <= at <= |p.log|
  {
    var q := Persist(p.(log := p.log[..at] + [e]));
    if q.log[at - 1].term < e.term then q.(firstIndex := q.firstIndex[e.term := at]) else q
  }

  // The loop at raft.go:252-265, from index at.
  function MergeFrom(p: Peer, at: nat, es: Log): (q: Peer)
    requires 1 <= at <= |p.log|
    decreases |es|
    ensures q == p.(log := q.log, firstIndex := q.firstIndex, stored := q.stored) && |q.log| >= at + |es|
  {
    if es == [] then p
    else if at < |p.log| && p.log[at].term == es[0].term then MergeFrom(p, at + 1, es[1..])
    else MergeFrom(AppendAt(p, at, es[0]), at + 1, es[1..])
  }

  // The loops at raft.go:276-286 and 415-426.
  function Deliver(p: Peer): (q: Peer)
    requires p.lastApplied < p.commitIndex ==> p.commitIndex < |p.log|
    decreases p.commitIndex - p.lastApplied
    ensures q == p.(lastApplied := q.lastApplied, applyCh := q.applyCh) && q.lastApplied >= q.commitIndex
  {
    if p.lastApplied < p.commitIndex then
      var k := p.lastApplied + 1;
      Deliver(p.(lastApplied := k, applyCh := p.applyCh + [ApplyMsg(k, p.log[k].command)]))
    else p
  }

  // raft.go:272-287.
  function AdvanceCommit(p: Peer, leaderCommit: nat): Peer
    requires |p.log| > 0
  {
    if leaderCommit > p.commitIndex then
      Deliver(p.(commitIndex := if leaderCommit < |p.log| - 1 then leaderCommit else |p.log| - 1))
    else p
  }

  function FirstIndexOf(p: Peer, t: nat): nat {
    if t in p.firstIndex then p.firstIndex[t] else 0
  }

  function HandleAppend(p: Peer, a: AppendArgs): (Peer, AppendReply)
  {
    if a.term < p.currentTerm then
      (p, AppendReply(p.currentTerm, false, -1, -1))
    else
      var q := if a.term > p.currentTerm then StepDown(p, a.term) else p;
      if a.prevIndex >= |q.log| then
        (q, AppendReply(q.currentTerm, false, -1, -1))
      else if q.log[a.prevIndex].term != a.prevTerm then
        var t := q.log[a.prevIndex].term;
        (Persist(q.(log := q.log[..a.prevIndex])), AppendReply(q.currentTerm, false, t, FirstIndexOf(q, t)))
      else
        (AdvanceCommit(MergeFrom(q, a.prevIndex + 1, a.entries), a.leaderCommit),
         AppendReply(q.currentTerm, true, -1, -1))
  }

  // The request cut to its first k entries: what has reached the persister when the
  // server dies after merging those.
  function Partly(a: AppendArgs, k: nat): AppendArgs
    requires k <= |a.entries|
  {
    a.(entries := a.entries[..k], leaderCommit := 0)
  }

  // ---------- The leader ----------

  // raft.go:397-429; the read of logEntries[N] panics when N is past the end.
  function UpdateCommit(p: Peer): Outcome
    requires |p.matchIndex| > 0
  {
    var n := Median(p.matchIndex);
    if n > p.commitIndex && n >= |p.log| then Panic
    else
      var q := if n > p.commitIndex && p.log[n].term == p.currentTerm then p.(commitIndex := n) else p;
      if q.lastApplied < q.commitIndex && q.commitIndex >= |q.log| then Panic else Done(Deliver(q))
  }

  // raft.go:446-455: what to send peer, if it lacks anything.
  predicate HasNews(p: Peer, peer: nat) {
    && p.role.Leader?
    && peer < |p.nextIndex|
    && 1 <= p.nextIndex[peer] < |p.log|
  }

  function ReplicateArgs(p: Peer, peer: nat): AppendArgs
    requires HasNews(p, peer)
  {
    var k := p.nextIndex[peer];
    AppendArgs(p.currentTerm, p.me, k - 1, p.log[k - 1].term, p.log[k..], p.commitIndex)
  }

  // raft.go:634-641.
  function HeartbeatArgs(p: Peer): AppendArgs
    requires |p.log| > 0
  {
    AppendArgs(p.currentTerm, p.me, |p.log| - 1, LastTerm(p), [], p.commitIndex)
  }

  // raft.go:466-501.
  function HandleAppendReply(p: Peer, peer: nat, a: AppendArgs, r: AppendReply): Outcome
    requires peer < |p.nextIndex| == |p.matchIndex|
  {
    if r.term > p.currentTerm then Done(StepDown(p, r.term))
    else if r.success then
      var m := a.prevIndex + |a.entries|;
      UpdateCommit(p.(nextIndex := p.nextIndex[peer := m + 1], matchIndex := p.matchIndex[peer := m]))
    else
      var k := if r.firstIndex == -1 then p.nextIndex[peer] - 1 else r.firstIndex;
      Done(p.(nextIndex := p.nextIndex[peer := if k < 1 then 1 else k]))
  }

  // raft.go:655-664: a heartbeat's reply can only end the leader's term.
  function HandleHeartbeatReply(p: Peer, r: AppendReply): Peer {
    if r.term > p.currentTerm then StepDown(p, r.term) else p
  }

  // raft.go:552-565.
  function StartCommand(p: Peer, command: Command): Peer
    requires p.me < |p.nextIndex| == |p.matchIndex|
  {
    if p.role.Leader? then
      var q := Persist(p.(log := p.log + [Entry(p.currentTerm, command)]));
      q.(nextIndex := q.nextIndex[q.me := |q.log|], matchIndex := q.matchIndex[q.me := |q.log| - 1])
    else p
  }

  // ---------- Elections ----------

  // raft.go:799-805: the leader lost touch with the majority.
  function QuorumLoss(p: Peer): Peer {
    Persist(p.(role := Follower, votedFor := NOBODY))
  }

  // raft.go:809.
  function TimeOut(p: Peer): Peer {
    p.(role := Candidate)
  }

  // raft.go:695-698.
  function Launch(p: Peer): Peer {
    Persist(p.(currentTerm := p.currentTerm + 1, votedFor := p.me))
  }

  // raft.go:719-730.
  function VoteRequest(p: Peer): VoteArgs {
    if |p.log| > 0 then VoteArgs(p.currentTerm, p.me, LastIndex(p), LastTerm(p))
    else VoteArgs(p.currentTerm, p.me, 0, 0)
  }

  // raft.go:764-771.
  function BecomeLeader(p: Peer): Peer {
    p.(role := Leader, nextIndex := seq(|p.nextIndex|, _ => |p.log|), matchIndex := seq(|p.matchIndex|, _ => 0))
  }

  // raft.go:744-778, with the election's vote counter.
  function HandleVoteReply(p: Peer, nvotes: nat, r: VoteReply): (Peer, nat) {
    if p.currentTerm < r.term then (StepDown(p, r.term), nvotes)
    else if r.granted then
      (if nvotes + 1 >= ElectionQuorum(|p.nextIndex|) then BecomeLeader(p) else p, nvotes + 1)
    else (p, nvotes)
  }

  // ---------- What every region keeps, in every run ----------

  ghost predicate SortedTerms(l: Log) {
    forall i, j :: 0 <= i < j < |l| ==> l[i].term <= l[j].term
  }

  ghost predicate Sound(p: Peer, n: nat) {
    && |p.log| >= 1
    && p.log[0] == SENTINEL
    && SortedTerms(p.log)
    && LastTerm(p) <= p.currentTerm
    && p.stored == Stored(p.currentTerm, p.votedFor, p.log)
    && |p.nextIndex| == |p.matchIndex| == n
    && p.me < n
    && (forall s :: 0 <= s < n ==> p.nextIndex[s] >= 1)
    && p.commitIndex <= p.lastApplied == |p.applyCh|
    && (forall k :: 0 <= k < |p.applyCh| ==> p.applyCh[k].index == k + 1)
  }

  // An AppendEntries request keeps the order of terms the sender's log had.
  ghost predicate SoundAppend(a: AppendArgs) {
    && (a.prevIndex == 0 ==> a.prevTerm == 0)
    && a.prevTerm <= a.term
    && (forall i :: 0 <= i < |a.entries| ==> a.prevTerm <= a.entries[i].term <= a.term)
    && SortedTerms(a.entries)
  }

  lemma BootSound(me: nat, n: nat, stored: Stored)
    requires me < n && |stored.log| >= 1 && stored.log[0] == SENTINEL && SortedTerms(stored.log)
    requires stored.log[|stored.log| - 1].term <= stored.term
    ensures Sound(Boot(me, n, stored), n)
  {
  }

  lemma HandleVoteSound(p: Peer, a: VoteArgs, n: nat)
    requires Sound(p, n)
    ensures Sound(HandleVote(p, a).0, n) && p.currentTerm <= HandleVote(p, a).0.currentTerm
    ensures HandleVote(p, a).0.me == p.me
  {
  }

  // ---------- Merging ----------

  // The log part of MergeFrom.
  function Merge(l: Log, at: nat, es: Log): (r: Log)
    requires at <= |l|
    ensures |r| >= at + |es|
    decreases |es|
  {
    if es == [] then l
    else if at < |l| && l[at].term == es[0].term then Merge(l, at + 1, es[1..])
    else Merge(l[..at] + [es[0]], at + 1, es[1..])
  }

  // The loop one entry further: what it leaves after any number of entries is what the
  // merge of just those entries gives.
  lemma {:induction false} MergeStep(p: Peer, at: nat, es: Log, e: Entry)
    requires 1 <= at <= |p.log|
    ensures var q, k := MergeFrom(p, at, es), at + |es|;
      MergeFrom(p, at, es + [e]) == if k < |q.log| && q.log[k].term == e.term then q else AppendAt(q, k, e)
    decreases |es|
  {
    hide AppendAt;
    if es == [] {
      assert es + [e] == [e] && [e][1..] == [];
    } else {
      assert (es + [e])[1..] == es[1..] + [e];
      var q := if at < |p.log| && p.log[at].term == es[0].term then p else AppendAt(p, at, es[0]);
      AppendAtLength(p, at, es[0]);
      MergeStep(q, at + 1, es[1..], e);
    }
  }

  lemma AppendAtLength(p: Peer, at: nat, e: Entry)
    requires 1 <= at <= |p.log|
    ensures |AppendAt(p, at, e).log| == at + 1
  {
  }

  lemma {:induction false} MergeFromLog(p: Peer, at: nat, es: Log)
    requires 1 <= at <= |p.log|
    requires p.stored == Stored(p.currentTerm, p.votedFor, p.log)
    ensures var q := MergeFrom(p, at, es);
      q.log == Merge(p.log, at, es) && q.stored == Stored(q.currentTerm, q.votedFor, q.log)
    decreases |es|
  {
    if es != [] {
      if at < |p.log| && p.log[at].term == es[0].term {
        MergeFromLog(p, at + 1, es[1..]);
      } else {
        MergeFromLog(AppendAt(p, at, es[0]), at + 1, es[1..]);
      }
    }
  }

  // How many of the sent entries the log already holds, term for term, from at on.
  function Agreeing(l: Log, at: nat, es: Log): (k: nat)
    ensures k <= |es| && (k > 0 ==> at + k <= |l|)
    ensures forall i :: at <= i < at + k ==> l[i].term == es[i - at].term
    ensures k < |es| && at + k < |l| ==> l[at + k].term != es[k].term
    decreases |es|
  {
    if es == [] || at >= |l| || l[at].term != es[0].term then 0 else 1 + Agreeing(l, at + 1, es[1..])
  }

  // The merge keeps the log when it already holds every sent entry, and otherwise
  // cuts it at the first missing or conflicting one and appends the rest.
  lemma {:induction false} MergeClosedForm(l: Log, at: nat, es: Log)
    requires at <= |l|
    ensures Merge(l, at, es) == Merged(l, at, es)
    decreases |es|
  {
    if es != [] {
      var t := es[1..];
      if at < |l| && l[at].term == es[0].term {
        MergeClosedForm(l, at + 1, t);
        var k := Agreeing(l, at + 1, t);
        assert t[k..] == es[k + 1..];
      } else {
        var m := l[..at] + [es[0]];
        MergeClosedForm(m, at + 1, t);
        assert Agreeing(m, at + 1, t) == 0;
        assert Merge(m, at + 1, t) == m + t;
        assert m + t == l[..at] + es;
      }
    }
  }

  function Merged(l: Log, at: nat, es: Log): Log
    requires at <= |l|
  {
    var k := Agreeing(l, at, es);
    if k == |es| then l else l[..at + k] + es[k..]
  }

  // What a successful AppendEntries leaves: the log up to at unchanged, the sent
  // terms after it, and nothing dropped unless a term conflicts.
  lemma MergeResult(l: Log, at: nat, es: Log)
    requires at <= |l|
    ensures var r := Merge(l, at, es);
      && at + |es| <= |r|
      && r[..at] == l[..at]
      && (forall i :: at <= i < at + |es| ==> r[i].term == es[i - at].term)
      && (Agreeing(l, at, es) == |es| ==> r == l)
      && (!(l <= r) ==> exists i :: at <= i < at + |es| && i < |l| && l[i].term != es[i - at].term)
  {
    MergeClosedForm(l, at, es);
    var k := Agreeing(l, at, es);
    var r := Merge(l, at, es);
    if k < |es| {
      if at + k == |l| {
        assert l <= r;
      }
    }
  }

  // Receiving the same entries again changes nothing, and never shortens the log.
  lemma MergeIdempotent(l: Log, at: nat, es: Log)
    requires at <= |l|
    ensures Merge(Merge(l, at, es), at, es) == Merge(l, at, es)
  {
    MergeResult(l, at, es);
    var r := Merge(l, at, es);
    MergeClosedForm(r, at, es);
    var k := Agreeing(r, at, es);
    assert k == |es|;
  }

  lemma JoinSorted(l: Log, es: Log)
    requires SortedTerms(l) && SortedTerms(es) && |l| > 0 && |es| > 0 && l[|l| - 1].term <= es[0].term
    ensures SortedTerms(l + es)
  {
    forall i, j | 0 <= i < j < |l + es| ensures (l + es)[i].term <= (l + es)[j].term {
      if i < |l| <= j {
        assert l[i].term <= l[|l| - 1].term && es[0].term <= es[j - |l|].term;
      }
    }
  }

  lemma MergeSorted(l: Log, at: nat, es: Log, prevTerm: nat, top: nat)
    requires 1 <= at <= |l| && SortedTerms(l) && SortedTerms(es) && l[at - 1].term == prevTerm
    requires forall i :: 0 <= i < |es| ==> prevTerm <= es[i].term <= top
    requires l[|l| - 1].term <= top
    ensures var r := Merge(l, at, es); SortedTerms(r) && r[0] == l[0] && r[|r| - 1].term <= top
  {
    hide Merge, Agreeing;
    MergeClosedForm(l, at, es);
    var k := Agreeing(l, at, es);
    if k < |es| {
      var h, t := l[..at + k], es[k..];
      assert Merge(l, at, es) == h + t;
      assert h[|h| - 1].term <= t[0].term by {
        if k > 0 { assert l[at + k - 1].term == es[k - 1].term; }
      }
      JoinSorted(h, t);
      assert (h + t)[|h + t| - 1] == es[|es| - 1];
    }
  }

  // ---------- Sound after every region ----------

  lemma {:induction false} DeliverSound(p: Peer)
    requires p.lastApplied < p.commitIndex ==> p.commitIndex < |p.log|
    requires p.lastApplied == |p.applyCh|
    requires forall k :: 0 <= k < |p.applyCh| ==> p.applyCh[k].index == k + 1
    ensures var q := Deliver(p);
      && q.lastApplied == |q.applyCh| >= p.lastApplied
      && p.applyCh <= q.applyCh
      && (q.lastApplied == p.lastApplied || q.lastApplied == p.commitIndex)
      && (forall k :: 0 <= k < |q.applyCh| ==> q.applyCh[k].index == k + 1)
      && (forall k :: |p.applyCh| <= k < |q.applyCh| ==> k + 1 < |p.log| && q.applyCh[k].command == p.log[k + 1].command)
    decreases p.commitIndex - p.lastApplied
  {
    if p.lastApplied < p.commitIndex {
      var k := p.lastApplied + 1;
      DeliverSound(p.(lastApplied := k, applyCh := p.applyCh + [ApplyMsg(k, p.log[k].command)]));
    }
  }

  lemma AdvanceCommitSound(p: Peer, leaderCommit: nat, n: nat)
    requires Sound(p, n)
    ensures Sound(AdvanceCommit(p, leaderCommit), n)
  {
    if leaderCommit > p.commitIndex {
      DeliverSound(p.(commitIndex := if leaderCommit < |p.log| - 1 then leaderCommit else |p.log| - 1));
    }
  }

  lemma MergeFromSound(q: Peer, a: AppendArgs, n: nat)
    requires Sound(q, n) && SoundAppend(a) && a.term == q.currentTerm
    requires a.prevIndex < |q.log| && q.log[a.prevIndex].term == a.prevTerm
    ensures Sound(MergeFrom(q, a.prevIndex + 1, a.entries), n)
  {
    hide MergeFrom, Merge, SortedTerms;
    MergeFromLog(q, a.prevIndex + 1, a.entries);
    MergeSorted(q.log, a.prevIndex + 1, a.entries, a.prevTerm, a.term);
  }

  lemma HandleAppendSound(p: Peer, a: AppendArgs, n: nat)
    requires Sound(p, n) && SoundAppend(a)
    ensures Sound(HandleAppend(p, a).0, n) && p.currentTerm <= HandleAppend(p, a).0.currentTerm
    ensures HandleAppend(p, a).0.me == p.me
  {
    if a.term >= p.currentTerm {
      var q := if a.term > p.currentTerm then StepDown(p, a.term) else p;
      assert Sound(q, n);
      if a.prevIndex < |q.log| && q.log[a.prevIndex].term == a.prevTerm {
        hide Sound;
        MergeFromSound(q, a, n);
        AdvanceCommitSound(MergeFrom(q, a.prevIndex + 1, a.entries), a.leaderCommit, n);
      }
    }
  }

  lemma PartlySound(a: AppendArgs, k: nat)
    requires SoundAppend(a) && k <= |a.entries|
    ensures SoundAppend(Partly(a, k))
  {
  }

  lemma UpdateCommitSound(p: Peer, n: nat)
    requires Sound(p, n) && n > 0
    ensures UpdateCommit(p).Done? ==>
      Sound(UpdateCommit(p).peer, n) && UpdateCommit(p).peer.currentTerm == p.currentTerm && UpdateCommit(p).peer.me == p.me
    ensures UpdateCommit(p).Panic? <==> Median(p.matchIndex) > p.commitIndex && Median(p.matchIndex) >= |p.log|
  {
    var m := Median(p.matchIndex);
    if !(m > p.commitIndex && m >= |p.log|) {
      DeliverSound(if m > p.commitIndex && p.log[m].term == p.currentTerm then p.(commitIndex := m) else p);
    }
  }

  lemma HandleAppendReplySound(p: Peer, peer: nat, a: AppendArgs, r: AppendReply, n: nat)
    requires Sound(p, n) && peer < n
    ensures var o := HandleAppendReply(p, peer, a, r);
      o.Done? ==> Sound(o.peer, n) && p.currentTerm <= o.peer.currentTerm && o.peer.me == p.me
  {
    hide UpdateCommit;
    if r.term <= p.currentTerm && r.success {
      var m := a.prevIndex + |a.entries|;
      UpdateCommitSound(p.(nextIndex := p.nextIndex[peer := m + 1], matchIndex := p.matchIndex[peer := m]), n);
    }
  }

  lemma ElectionSound(p: Peer, nvotes: nat, r: VoteReply, n: nat)
    requires Sound(p, n)
    ensures Sound(TimeOut(p), n) && Sound(Launch(p), n) && Sound(QuorumLoss(p), n)
    ensures Sound(HandleVoteReply(p, nvotes, r).0, n) && p.currentTerm <= HandleVoteReply(p, nvotes, r).0.currentTerm
    ensures TimeOut(p).me == Launch(p).me == QuorumLoss(p).me == HandleVoteReply(p, nvotes, r).0.me == p.me
    ensures p.currentTerm <= Launch(p).currentTerm && TimeOut(p).currentTerm == QuorumLoss(p).currentTerm == p.currentTerm
  {
  }

  lemma StartSound(p: Peer, command: Command, n: nat)
    requires Sound(p, n)
    ensures Sound(StartCommand(p, command), n) && StartCommand(p, command).currentTerm == p.currentTerm
    ensures StartCommand(p, command).me == p.me
  {
  }

  // Every request a leader builds keeps the order of terms and reaches the end of
  // its log, so the commit index it carries points into what it covers.
  lemma RequestsSound(p: Peer, peer: nat, n: nat)
    requires Sound(p, n)
    ensures HasNews(p, peer) ==> SoundAppend(ReplicateArgs(p, peer))
    ensures SoundAppend(HeartbeatArgs(p))
    ensures HasNews(p, peer) ==>
      ReplicateArgs(p, peer).prevIndex + |ReplicateArgs(p, peer).entries| == |p.log| - 1
  {
  }
}
