// Every orderly step of the cluster is matched by moves of its history.
module RaftSteps {
  import opened RaftTypes
  import opened RaftPeer
  import opened RaftCore
  import opened RaftMoves
  import opened RaftCluster
  import opened RaftLink

  // ---------- Stepping down to a higher term ----------

  // elections launched so far have terms up to the server's own.
  lemma ElectionsPast(v: Node, k: Core, s: nat, e: nat)
    requires NodeOk(v, k, s) && Launches(k) && e in v.elections
    ensures e <= k.m[s].term
  {
    assert ElectionOk(v.elections[e], k, s, e);
    assert LaunchOk(k, k.m[s], e);
  }

  lemma Retired(v: Node, k: Core, s: nat, t: nat)
    requires CoreInv(k) && NodeOk(v, k, s) && t > v.peer.currentTerm
    ensures CoreInv(Bump(k, s, t)) && Grows(k, Bump(k, s, t))
    ensures NodeOk(v.(peer := StepDown(v.peer, t)), Bump(k, s, t), s)
  {
    BumpKeeps(k, s, t);
    RetiredNode(v, k, s, t);
  }

  lemma RetiredNode(v: Node, k: Core, s: nat, t: nat)
    requires Votes(k) && Launches(k) && NodeOk(v, k, s) && t > v.peer.currentTerm && Grows(k, Bump(k, s, t))
    ensures NodeOk(v.(peer := StepDown(v.peer, t)), Bump(k, s, t), s)
  {
    var d, w := Bump(k, s, t), v.(peer := StepDown(v.peer, t));
    assert t !in k.m[s].vote;
    assert t !in v.elections by {
      if t in v.elections { ElectionsPast(v, k, s, t); }
    }
    ElectionsFrame(v, k, d, s);
    if v.peer.commitIndex > 0 {
      DurableGrows(k, d, v.peer.log[..v.peer.commitIndex + 1], v.peer.currentTerm, t);
    }
  }

  // ---------- Steps that leave the history alone ----------

  lemma QuietStep(c: Cluster, a: Action, k: Core)
    requires Linked(c, k) && Enabled(c, a) && Actor(a) < |c.nodes|
    requires NodeOk(NodeNext(c, a), k, Actor(a))
    requires forall m :: m in Sent(c, a) ==> MsgOk(m, k)
    ensures Linked(Next(c, a), k)
  {
    hide NodeNext, Sent, NodeOk, MsgOk;
    GrowsSelf(k);
    Assemble(c, a, k, k);
  }

  lemma TickStep(c: Cluster, a: Action, k: Core)
    requires Linked(c, k) && Enabled(c, a) && a.Tick?
    ensures Linked(Next(c, a), k)
  {
    var v := c.nodes[a.s];
    assert NodeOk(v, k, a.s);
    assert NodeOk(v.(peer := TimeOut(v.peer), launching := true), k, a.s) by {
      assert ElectionsOk(v, k, a.s);
    }
    QuietStep(c, a, k);
  }

  lemma CrashNode(v: Node, k: Core, s: nat, n: nat)
    requires NodeOk(v, k, s) && Sound(v.peer, n) && n == |k.m|
    ensures NodeOk(Reboot(v, s, n), k, s)
  {
  }

  lemma CrashStep(c: Cluster, a: Action, k: Core)
    requires Linked(c, k) && Enabled(c, a) && a.Crash? && SoundCluster(c)
    ensures Linked(Next(c, a), k)
  {
    hide NodeOk, Sound, SoundAppend;
    CrashNode(c.nodes[a.s], k, a.s, |c.nodes|);
    QuietStep(c, a, k);
  }

  // Dying right after adopting a higher term.
  lemma CrashAdoptingStep(c: Cluster, a: Action, k: Core) returns (d: Core)
    requires CoreInv(k) && Linked(c, k) && Enabled(c, a) && a.CrashAdopting? && SoundCluster(c)
    ensures CoreInv(d) && Grows(k, d) && Linked(Next(c, a), d)
  {
    hide CoreInv, NodeOk, MsgOk, Grows, Sound, SoundAppend;
    var v, s, t := c.nodes[a.m.to], a.m.to, TermOf(a.m);
    d := k;
    GrowsSelf(k);
    if t > v.peer.currentTerm {
      d := Bump(k, s, t);
      Retired(v, k, s, t);
    }
    AdoptSound(v.peer, t, |c.nodes|);
    CrashNode(v.(peer := Adopt(v.peer, t)), d, s, |c.nodes|);
    Assemble(c, a, k, d);
  }

  // ---------- Running for election ----------

  lemma RunStep(c: Cluster, a: Action, k: Core) returns (d: Core)
    requires CoreInv(k) && Linked(c, k) && Enabled(c, a) && a.Run? && Orderly(c, a) && SoundCluster(c)
    ensures CoreInv(d) && Grows(k, d) && Linked(Next(c, a), d)
  {
    hide CoreInv, Sound, SoundAppend, NodeOk, MsgOk;
    var s := a.s;
    d := RaftMoves.Run(k, s);
    RunKeeps(k, s);
    RunLinked(c.nodes[s], k, s, |c.nodes|);
    Assemble(c, a, k, d);
  }

  lemma RunElections(v: Node, k: Core, s: nat, n: nat)
    requires NodeOk(v, k, s) && n == |k.m| && Grows(k, RaftMoves.Run(k, s))
    ensures ElectionsOk(RunNode(v, s, n), RaftMoves.Run(k, s), s)
  {
    var d, w, t := RaftMoves.Run(k, s), RunNode(v, s, n), v.peer.currentTerm + 1;
    ElectionsFrame(v, k, d, s);
    hide Grows;
    assert VotedFor(d, t, s, s);
    assert ElectionOk(w.elections[t], d, s, t);
  }

  lemma RunCommit(v: Node, k: Core, d: Core)
    requires CommitOk(v.peer, k) && Grows(k, d)
    ensures CommitOk(Launch(v.peer), d)
  {
    if v.peer.commitIndex > 0 {
      DurableGrows(k, d, v.peer.log[..v.peer.commitIndex + 1], v.peer.currentTerm, v.peer.currentTerm + 1);
    }
  }

  // No one leads a term its leader has not reached.
  lemma NotYetLed(k: Core, s: nat, t: nat)
    requires Reigns(k) && s < |k.m| && t > k.m[s].term && t in k.reign
    ensures k.reign[t].leader != s
  {
    assert ReignOk(k, t);
  }

  lemma RunLinked(v: Node, k: Core, s: nat, n: nat)
    requires CoreInv(k) && NodeOk(v, k, s) && v.peer.role.Candidate? && n == |k.m| && Grows(k, RaftMoves.Run(k, s))
    requires v.peer.me == s
    ensures NodeOk(RunNode(v, s, n), RaftMoves.Run(k, s), s)
  {
    hide CoreInv, Grows, ElectionsOk, CommitOk;
    RunElections(v, k, s, n);
    RunCommit(v, k, RaftMoves.Run(k, s));
    var t := v.peer.currentTerm + 1;
    CoreReigns(k);
    if t in k.reign {
      NotYetLed(k, s, t);
    }
  }

  lemma AskNodeOk(v: Node, k: Core, s: nat, e: nat, p: nat)
    requires NodeOk(v, k, s) && e in v.elections && p in v.elections[e].todo
    ensures NodeOk(AskNode(v, e, p), k, s)
  {
    var w := AskNode(v, e, p);
    assert ElectionOk(v.elections[e], k, s, e);
    assert ElectionOk(w.elections[e], k, s, e);
    assert ElectionsOk(w, k, s);
  }

  lemma AskStep(c: Cluster, a: Action, k: Core)
    requires CoreInv(k) && Linked(c, k) && Enabled(c, a) && a.AskVote? && Orderly(c, a) && SoundCluster(c)
    ensures Linked(Next(c, a), k)
  {
    var s, v := a.s, c.nodes[a.s];
    assert NodeOk(v, k, s);
    AskNodeOk(v, k, s, a.election, a.peer);
    AskedOk(v, k, s, a.election, a.peer);
    hide CoreInv, NodeOk, Sound, SoundAppend;
    QuietStep(c, a, k);
  }

  lemma AskedOk(v: Node, k: Core, s: nat, e: nat, p: nat)
    requires Launches(k) && NodeOk(v, k, s) && e in v.elections && p in v.elections[e].todo
    requires v.peer.currentTerm == e && v.peer.me == s && |v.peer.log| > 0
    ensures MsgOk(VoteReq(s, p, e, VoteRequest(v.peer)), k)
  {
    hide Grounded;
    assert ElectionOk(v.elections[e], k, s, e);
    assert LaunchOk(k, k.m[s], e);
  }

  // ---------- Voting ----------

  lemma GrantedNode(v: Node, k: Core, s: nat, cand: nat)
    requires NodeOk(v, k, s) && cand != s
    requires v.peer.votedFor == NOBODY || v.peer.votedFor == cand
    requires v.peer.votedFor == NOBODY ==> Grows(k, Grant(k, s, cand))
    ensures var w := v.(peer := Persist(v.peer.(votedFor := cand)).(role := Follower));
      var d := if v.peer.votedFor == NOBODY then Grant(k, s, cand) else k;
      NodeOk(w, d, s) && VotedFor(d, v.peer.currentTerm, s, cand)
  {
    var w := v.(peer := Persist(v.peer.(votedFor := cand)).(role := Follower));
    var d := if v.peer.votedFor == NOBODY then Grant(k, s, cand) else k;
    var t := v.peer.currentTerm;
    assert t !in v.elections;
    if v.peer.votedFor == NOBODY {
      ElectionsFrame(v, k, d, s);
      CommitFrame(v.peer, k, d);
    }
  }

  // The candidate's request entitles it to the vote RequestVote grants.
  lemma RequestEntitles(m: Message, k: Core, v: Node)
    requires m.VoteReq? && VoteReqOk(m, k) && NodeOk(v, k, m.to)
    requires v.peer.currentTerm == m.vote.term && v.peer.votedFor == NOBODY
    requires |v.peer.log| > 0 && UpToDate(m.vote.lastIndex, m.vote.lastTerm, v.peer.log)
    ensures MayGrant(k, m.to, m.from)
  {
  }

  // One server deciding on a vote request, from a term at least its own.
  lemma Decides(m: Message, k: Core, v: Node) returns (d: Core)
    requires CoreInv(k) && m.VoteReq? && VoteReqOk(m, k) && NodeOk(v, k, m.to)
    requires v.peer.currentTerm == m.vote.term && |v.peer.log| > 0
    ensures CoreInv(d) && Grows(k, d)
    ensures d == k || d == Grant(k, m.to, m.from)
    ensures NodeOk(v.(peer := HandleVote(v.peer, m.vote).0), d, m.to)
    ensures HandleVote(v.peer, m.vote).1.granted ==> VotedFor(d, m.vote.term, m.to, m.from)
  {
    d := k;
    GrowsSelf(k);
    if UpToDate(m.vote.lastIndex, m.vote.lastTerm, v.peer.log)
       && (v.peer.votedFor == NOBODY || v.peer.votedFor == m.vote.candidate) {
      if v.peer.votedFor == NOBODY {
        RequestEntitles(m, k, v);
        GrantKeeps(k, m.to, m.from);
        d := Grant(k, m.to, m.from);
      }
      hide NodeOk, CoreInv, MayGrant, UpToDate;
      GrantedNode(v, k, m.to, m.from);
    }
  }

  // A server handling any vote request.
  lemma VoteHandled(m: Message, k: Core, v: Node) returns (d: Core)
    requires CoreInv(k) && m.VoteReq? && MsgOk(m, k) && NodeOk(v, k, m.to) && |v.peer.log| > 0
    ensures CoreInv(d) && Grows(k, d) && d.reign == k.reign
    ensures forall s :: 0 <= s < |k.m| && s != m.to ==> d.m[s] == k.m[s]
    ensures NodeOk(v.(peer := HandleVote(v.peer, m.vote).0), d, m.to)
    ensures HandleVote(v.peer, m.vote).1.granted ==> VotedFor(d, m.vote.term, m.to, m.from)
  {
    hide CoreInv, NodeOk, HandleVote;
    d := k;
    GrowsSelf(k);
    if m.vote.term < v.peer.currentTerm {
      VoteRefused(v.peer, m.vote);
    } else if m.vote.term == v.peer.currentTerm {
      d := Decides(m, k, v);
    } else {
      var k1, w := Bump(k, m.to, m.vote.term), v.(peer := StepDown(v.peer, m.vote.term));
      Retired(v, k, m.to, m.vote.term);
      MsgFrame(m, k, k1);
      VoteAfterBump(v.peer, m.vote);
      d := Decides(m, k1, w);
      GrowsTransitive(k, k1, d);
    }
  }

  lemma VoteStep(c: Cluster, a: Action, k: Core) returns (d: Core)
    requires CoreInv(k) && Linked(c, k) && Enabled(c, a) && a.Vote?
    ensures CoreInv(d) && Grows(k, d) && Linked(Next(c, a), d)
  {
    hide CoreInv, NodeOk, HandleVote, MsgOk, Grows;
    d := VoteHandled(a.m, k, c.nodes[a.m.to]);
    MsgFrame(a.m, k, d);
    VoteReplyOk(c, a, d);
    Assemble(c, a, k, d);
  }

  lemma VoteRefused(p: Peer, a: VoteArgs)
    requires |p.log| > 0 && a.term < p.currentTerm
    ensures HandleVote(p, a) == (p, VoteReply(p.currentTerm, false))
  {
  }

  lemma VoteAfterBump(p: Peer, a: VoteArgs)
    requires |p.log| > 0 && a.term > p.currentTerm
    ensures HandleVote(p, a) == HandleVote(StepDown(p, a.term), a)
  {
  }

  lemma VoteReplyOk(c: Cluster, a: Action, d: Core)
    requires Enabled(c, a) && a.Vote?
    requires HandleVote(c.nodes[a.m.to].peer, a.m.vote).1.granted ==> VotedFor(d, a.m.vote.term, a.m.to, a.m.from)
    requires MsgOk(a.m, d)
    ensures forall m :: m in Sent(c, a) ==> MsgOk(m, d)
  {
    hide HandleVote;
  }

  // ---------- Counting votes ----------

  // Counting one more granted vote.
  lemma CountedOk(x: Election, k: Core, s: nat, e: nat, from: nat)
    requires ElectionOk(x, k, s, e) && from in x.waiting && VotedFor(k, e, from, s)
    ensures ElectionOk(x.(waiting := x.waiting - {from}, nvotes := x.nvotes + 1, voters := x.voters + {from}), k, s, e)
  {
  }

  // A server that answered no longer waits; nothing else about it changes.
  lemma AnsweredNode(v: Node, k: Core, s: nat, e: nat, y: Election)
    requires NodeOk(v, k, s) && e in v.elections && ElectionOk(y, k, s, e)
    ensures NodeOk(v.(elections := v.elections[e := y]), k, s)
  {
    var w := v.(elections := v.elections[e := y]);
    assert ElectionsOk(w, k, s);
  }

  // A candidate with a quorum of votes wins a term that has no leader yet.
  lemma CandidateWins(w: Node, k: Core, s: nat)
    requires Quorums(k) && NodeOk(w, k, s) && w.peer.role.Candidate? && w.peer.currentTerm in w.elections
    requires w.elections[w.peer.currentTerm].nvotes >= ElectionQuorum(|k.m|)
    ensures Wins(k, s, w.elections[w.peer.currentTerm].voters)
  {
    var t := w.peer.currentTerm;
    var q := w.elections[t].voters;
    assert ElectionOk(w.elections[t], k, s, t);
    assert Elects(k, t, s, q);
    if t in k.reign {
      OneLeader(k, t, s, q);
    }
  }

  lemma WinnerNode(w: Node, k: Core, s: nat, q: set<nat>)
    requires NodeOk(w, k, s) && Grows(k, Elect(k, s, q))
    ensures NodeOk(w.(peer := BecomeLeader(w.peer)), Elect(k, s, q), s)
  {
    ElectionsFrame(w, k, Elect(k, s, q), s);
    CommitFrame(w.peer, k, Elect(k, s, q));
    hide Grows, ElectionsOk;
  }

  // Already the leader: the count only resets what it believes of the others.
  lemma StillLeaderNode(w: Node, k: Core, s: nat)
    requires NodeOk(w, k, s) && w.peer.role.Leader?
    ensures NodeOk(w.(peer := BecomeLeader(w.peer)), k, s)
  {
  }

  // A candidate or leader, still in its election's term, after counting a vote.
  lemma VoteCounted(w: Node, k: Core, s: nat) returns (d: Core)
    requires CoreInv(k) && NodeOk(w, k, s) && !w.peer.role.Follower? && w.peer.currentTerm in w.elections
    requires w.elections[w.peer.currentTerm].nvotes >= ElectionQuorum(|k.m|)
    ensures CoreInv(d) && Grows(k, d) && d.m == k.m
    ensures forall t :: t in d.reign && t !in k.reign ==> d.reign[t].leader == s
    ensures NodeOk(w.(peer := BecomeLeader(w.peer)), d, s)
  {
    hide NodeOk;
    d := k;
    GrowsSelf(k);
    if w.peer.role.Leader? {
      hide CoreInv;
      StillLeaderNode(w, k, s);
    } else {
      CandidateWins(w, k, s);
      hide CoreInv, Wins;
      var q := w.elections[w.peer.currentTerm].voters;
      ElectKeeps(k, s, q);
      WinnerNode(w, k, s, q);
      d := Elect(k, s, q);
    }
  }

  // The goroutine that asked from is done, whatever the reply.
  lemma StopsWaiting(v: Node, k: Core, s: nat, e: nat, from: nat)
    requires NodeOk(v, k, s) && e in v.elections
    ensures NodeOk(v.(elections := v.elections[e := v.elections[e].(waiting := v.elections[e].waiting - {from})]), k, s)
  {
    assert ElectionOk(v.elections[e], k, s, e);
    AnsweredNode(v, k, s, e, v.elections[e].(waiting := v.elections[e].waiting - {from}));
  }

  lemma GainsVote(v: Node, k: Core, s: nat, e: nat, from: nat)
    requires NodeOk(v, k, s) && e in v.elections && from in v.elections[e].waiting && VotedFor(k, e, from, s)
    ensures var x := v.elections[e];
      var y := x.(waiting := x.waiting - {from}, nvotes := x.nvotes + 1, voters := x.voters + {from});
      NodeOk(v.(elections := v.elections[e := y]), k, s)
  {
    var x := v.elections[e];
    assert ElectionOk(x, k, s, e);
    CountedOk(x, k, s, e, from);
    AnsweredNode(v, k, s, e, x.(waiting := x.waiting - {from}, nvotes := x.nvotes + 1, voters := x.voters + {from}));
  }

  // Any reply to a vote request, under the orderliness conditions.
  lemma VoteAnswered(v: Node, k: Core, s: nat, m: Message) returns (d: Core)
    requires CoreInv(k) && NodeOk(v, k, s) && |k.m| == |v.peer.nextIndex|
    requires m.VoteRsp? && m.to == s && VoteRspOk(m, k)
    requires m.election in v.elections && m.from in v.elections[m.election].waiting
    requires m.voteReply.term > v.peer.currentTerm || !m.voteReply.granted
      || (v.peer.currentTerm == m.vote.term && !v.peer.role.Follower?)
    ensures CoreInv(d) && Grows(k, d)
    ensures forall r :: 0 <= r < |k.m| && r != s ==> d.m[r] == k.m[r]
    ensures forall t :: t in d.reign && t !in k.reign ==> d.reign[t].leader == s
    ensures NodeOk(AnswerNode(v, m.election, m.from, m.voteReply), d, s)
  {
    hide CoreInv, NodeOk, ElectionOk;
    var e, x := m.election, v.elections[m.election];
    d := k;
    GrowsSelf(k);
    hide Grows;
    if m.voteReply.term > v.peer.currentTerm {
      StopsWaiting(v, k, s, e, m.from);
      Retired(v.(elections := v.elections[e := x.(waiting := x.waiting - {m.from})]), k, s, m.voteReply.term);
      d := Bump(k, s, m.voteReply.term);
    } else if m.voteReply.granted {
      GainsVote(v, k, s, e, m.from);
      if x.nvotes + 1 >= ElectionQuorum(|k.m|) {
        var y := x.(waiting := x.waiting - {m.from}, nvotes := x.nvotes + 1, voters := x.voters + {m.from});
        d := VoteCounted(v.(elections := v.elections[e := y]), k, s);
      }
    } else {
      StopsWaiting(v, k, s, e, m.from);
    }
  }

  lemma VoteRspIsOk(m: Message, k: Core)
    requires m.VoteRsp? && MsgOk(m, k)
    ensures VoteRspOk(m, k)
  {
  }

  lemma VoteAnswerStep(c: Cluster, a: Action, k: Core) returns (d: Core)
    requires CoreInv(k) && Linked(c, k) && Enabled(c, a) && a.VoteAnswer? && Orderly(c, a) && SoundCluster(c)
    ensures CoreInv(d) && Grows(k, d) && Linked(Next(c, a), d)
  {
    SoundIndices(c.nodes[a.m.to].peer, |c.nodes|);
    hide CoreInv, NodeOk, MsgOk, Grows, Sound, SoundAppend;
    VoteRspIsOk(a.m, k);
    d := VoteAnswered(c.nodes[a.m.to], k, a.m.to, a.m);
    Assemble(c, a, k, d);
  }

  // ---------- Clients and requests ----------

  lemma SameElections(v: Node, w: Node, k: Core, s: nat)
    requires ElectionsOk(v, k, s) && w.elections == v.elections
    ensures ElectionsOk(w, k, s)
  {
  }

  lemma SubmitNode(v: Node, k: Core, s: nat, command: Command, d: Core)
    requires Reigns(k) && NodeOk(v, k, s) && v.peer.role.Leader? && v.peer.me == s
    requires s < |v.peer.nextIndex| == |v.peer.matchIndex|
    requires Leads(k, s) && d == Create(k, s, Entry(v.peer.currentTerm, command)) && Grows(k, d)
    ensures NodeOk(v.(peer := StartCommand(v.peer, command)), d, s)
  {
    hide Reigns, Grows, ElectionsOk;
    var p := StartCommand(v.peer, command);
    ElectionsFrame(v, k, d, s);
    SameElections(v, v.(peer := p), d, s);
    MatchFrame(v.peer, k, d);
    CommitFrame(v.peer, k, d);
    assert MatchOk(p, d) by {
      forall q | 0 <= q < |p.matchIndex| && p.matchIndex[q] > 0 ensures MatchAcked(p, d, q) {
        assert q != s ==> MatchAcked(v.peer, d, q);
      }
    }
    assert CommitOk(p, d) by {
      assert p.log[..p.commitIndex + 1] == v.peer.log[..p.commitIndex + 1];
    }
  }

  lemma SubmitStep(c: Cluster, a: Action, k: Core) returns (d: Core)
    requires CoreInv(k) && Linked(c, k) && Enabled(c, a) && a.Submit? && SoundCluster(c)
    ensures CoreInv(d) && Grows(k, d) && Linked(Next(c, a), d)
  {
    var v := c.nodes[a.s];
    assert NodeOk(v, k, a.s);
    d := k;
    GrowsSelf(k);
    if v.peer.role.Leader? {
      assert Leads(k, a.s) && k.m[a.s].term == v.peer.currentTerm;
      d := Create(k, a.s, Entry(v.peer.currentTerm, a.command));
      CreateKeeps(k, a.s, Entry(v.peer.currentTerm, a.command));
      SubmitNode(v, k, a.s, a.command, d);
    }
    hide CoreInv, NodeOk, Grows, Sound, SoundAppend;
    Assemble(c, a, k, d);
  }

  // A leader's requests carry its own log and a commit index it reached.
  lemma RequestOk(v: Node, k: Core, s: nat, q: nat, a: AppendArgs)
    requires Reigns(k) && NodeOk(v, k, s) && v.peer.role.Leader? && q < |k.m| && q != s
    requires a.term == v.peer.currentTerm && a.leaderCommit == v.peer.commitIndex && Covers(a, v.peer.log)
    requires a.prevIndex + |a.entries| == |v.peer.log| - 1
    ensures MsgOk(AppReq(s, q, a), k)
  {
    hide Grounded;
    assert ReignOk(k, v.peer.currentTerm);
  }

  lemma RequestCovers(v: Node, q: nat, n: nat)
    requires Sound(v.peer, n)
    ensures HasNews(v.peer, q) ==> Covers(ReplicateArgs(v.peer, q), v.peer.log)
    ensures Covers(HeartbeatArgs(v.peer), v.peer.log)
  {
  }

  lemma ReplicateStep(c: Cluster, a: Action, k: Core)
    requires CoreInv(k) && Linked(c, k) && Enabled(c, a) && a.Replicate? && SoundCluster(c)
    ensures Linked(Next(c, a), k)
  {
    hide CoreInv, Reigns, NodeOk, MsgOk, Sound, SoundAppend, Covers;
    CoreReigns(k);
    var v := c.nodes[a.s];
    RequestCovers(v, a.peer, |c.nodes|);
    RequestOk(v, k, a.s, a.peer, ReplicateArgs(v.peer, a.peer));
    QuietStep(c, a, k);
  }

  lemma CoreReigns(k: Core)
    requires CoreInv(k)
    ensures Reigns(k)
  {
  }

  lemma HeartbeatStep(c: Cluster, a: Action, k: Core)
    requires CoreInv(k) && Linked(c, k) && Enabled(c, a) && a.Heartbeat? && SoundCluster(c)
    ensures Linked(Next(c, a), k)
  {
    hide CoreInv, Reigns, NodeOk, MsgOk, Sound, SoundAppend, Covers;
    CoreReigns(k);
    var v := c.nodes[a.s];
    RequestCovers(v, a.peer, |c.nodes|);
    RequestOk(v, k, a.s, a.peer, HeartbeatArgs(v.peer));
    hide SoundCluster;
    QuietStep(c, a, k);
  }

  lemma HeartbeatAnswerStep(c: Cluster, a: Action, k: Core) returns (d: Core)
    requires CoreInv(k) && Linked(c, k) && Enabled(c, a) && a.HeartbeatAnswer?
    ensures CoreInv(d) && Grows(k, d) && Linked(Next(c, a), d)
  {
    hide CoreInv, NodeOk, MsgOk, Grows;
    var v, t := c.nodes[a.m.to], a.m.appReply.term;
    d := k;
    GrowsSelf(k);
    if t > v.peer.currentTerm {
      d := Bump(k, a.m.to, t);
      Retired(v, k, a.m.to, t);
    }
    Assemble(c, a, k, d);
  }
}
