// How a running cluster (RaftCluster) and its history (RaftCore) correspond.
module RaftLink {
  import opened RaftTypes
  import opened RaftPeer
  import opened RaftCore
  import opened RaftMoves
  import opened RaftCluster

  ghost predicate Mirrors(v: Node, r: Member) {
    && r.term == v.peer.currentTerm
    && r.log == v.peer.log
    && (v.peer.votedFor == NOBODY <==> r.term !in r.vote)
    && (r.term in r.vote ==> r.vote[r.term].candidate == v.peer.votedFor)
  }

  ghost predicate RoleOk(v: Node, k: Core, s: nat) {
    var t := v.peer.currentTerm;
    && (v.peer.role.Leader? ==> Leads(k, s))
    && (!v.peer.role.Leader? && t in v.elections && t in k.reign ==> k.reign[t].leader != s)
  }

  // The votes an election has counted were cast for s in its term.
  ghost predicate ElectionOk(x: Election, k: Core, s: nat, e: nat) {
    && e >= 1
    && s < |k.m|
    && e in k.m[s].launch
    && |x.voters| == x.nvotes
    && s in x.voters
    && x.voters !! x.todo
    && x.voters !! x.waiting
    && x.todo !! x.waiting
    && s !in x.todo
    && (forall q :: q in x.todo ==> q < |k.m|)
    && (forall q :: q in x.voters ==> VotedFor(k, e, q, s))
  }

  ghost predicate ElectionsOk(v: Node, k: Core, s: nat) {
    forall e :: e in v.elections ==> ElectionOk(v.elections[e], k, s, e)
  }

  // A leader's matchIndex never exceeds what the server acknowledged to it.
  ghost predicate MatchOk(p: Peer, k: Core) {
    p.role.Leader? ==> forall q :: 0 <= q < |p.matchIndex| && p.matchIndex[q] > 0 ==> MatchAcked(p, k, q)
  }

  ghost predicate MatchAcked(p: Peer, k: Core, q: nat) {
    && q < |p.matchIndex| && q < |k.m|
    && p.currentTerm in k.m[q].ack
    && p.matchIndex[q] <= k.m[q].ack[p.currentTerm]
  }

  ghost predicate CommitOk(p: Peer, k: Core) {
    && p.commitIndex < |p.log|
    && p.lastApplied == p.commitIndex == |p.applyCh|
    && (p.commitIndex > 0 ==> Durable(k, p.log[..p.commitIndex + 1], p.currentTerm))
    && (forall j :: 0 <= j < |p.applyCh| ==> p.applyCh[j].command == p.log[j + 1].command)
  }

  ghost predicate NodeOk(v: Node, k: Core, s: nat) {
    && s < |k.m|
    && Mirrors(v, k.m[s])
    && RoleOk(v, k, s)
    && ElectionsOk(v, k, s)
    && MatchOk(v.peer, k)
    && CommitOk(v.peer, k)
  }

  ghost predicate VoteReqOk(m: Message, k: Core)
    requires m.VoteReq?
  {
    && m.from != m.to && m.from < |k.m| && m.to < |k.m|
    && m.vote.candidate == m.from
    && m.vote.term == m.election
    && m.election in k.m[m.from].launch
    && (m.election !in k.reign ==>
         var l := k.m[m.from].launch[m.election];
         |l| > 0 && m.vote.lastIndex == |l| - 1 && m.vote.lastTerm == l[|l| - 1].term)
  }

  ghost predicate VoteRspOk(m: Message, k: Core)
    requires m.VoteRsp?
  {
    m.voteReply.granted ==> m.vote.term == m.election && VotedFor(k, m.election, m.from, m.to)
  }

  // The request's entries are those of its leader's log, and its commit index
  // points into them.
  ghost predicate AppReqOk(m: Message, k: Core)
    requires m.AppReq?
  {
    && m.from != m.to && m.to < |k.m|
    && m.app.term in k.reign
    && k.reign[m.app.term].leader == m.from
    && Covers(m.app, k.reign[m.app.term].log)
    && m.app.leaderCommit <= m.app.prevIndex + |m.app.entries|
    && (m.app.leaderCommit > 0 ==> Durable(k, k.reign[m.app.term].log[..m.app.leaderCommit + 1], m.app.term))
  }

  ghost predicate Covers(a: AppendArgs, l: Log) {
    && a.prevIndex + |a.entries| < |l|
    && l[a.prevIndex].term == a.prevTerm
    && forall i :: a.prevIndex < i <= a.prevIndex + |a.entries| ==> l[i] == a.entries[i - a.prevIndex - 1]
  }

  ghost predicate AppRspOk(m: Message, k: Core)
    requires m.AppRsp?
  {
    m.appReply.success ==>
      && m.from < |k.m|
      && m.app.term in k.m[m.from].ack
      && m.app.prevIndex + |m.app.entries| <= k.m[m.from].ack[m.app.term]
  }

  ghost predicate MsgOk(m: Message, k: Core) {
    match m
    case VoteReq(_, _, _, _) => VoteReqOk(m, k)
    case VoteRsp(_, _, _, _, _) => VoteRspOk(m, k)
    case AppReq(_, _, _) => AppReqOk(m, k)
    case AppRsp(_, _, _, _) => AppRspOk(m, k)
  }

  ghost predicate Linked(c: Cluster, k: Core) {
    && |k.m| == |c.nodes|
    && (forall s :: 0 <= s < |c.nodes| ==> NodeOk(c.nodes[s], k, s))
    && (forall m :: m in c.net ==> MsgOk(m, k))
  }

  // ---------- Frames ----------

  lemma MsgFrame(m: Message, k: Core, d: Core)
    requires Grows(k, d) && MsgOk(m, k)
    ensures MsgOk(m, d)
  {
    match m {
      case VoteReq(_, _, _, _) => assert MemberGrows(k.m[m.from], d.m[m.from]);
      case VoteRsp(_, _, _, _, _) =>
        if m.voteReply.granted { assert MemberGrows(k.m[m.from], d.m[m.from]); }
      case AppReq(_, _, _) => AppReqFrame(m, k, d);
      case AppRsp(_, _, _, _) =>
        if m.appReply.success { assert MemberGrows(k.m[m.from], d.m[m.from]); }
    }
  }

  lemma AppReqFrame(m: Message, k: Core, d: Core)
    requires m.AppReq? && Grows(k, d) && AppReqOk(m, k)
    ensures AppReqOk(m, d)
  {
    var t := m.app.term;
    assert Extends(k.reign[t].log, d.reign[t].log, t);
    if m.app.leaderCommit > 0 {
      var l := k.reign[t].log[..m.app.leaderCommit + 1];
      DurableGrows(k, d, l, t, t);
      assert d.reign[t].log[..m.app.leaderCommit + 1] == l;
    }
  }

  lemma ElectionsFrame(v: Node, k: Core, d: Core, s: nat)
    requires ElectionsOk(v, k, s) && Grows(k, d)
    ensures ElectionsOk(v, d, s)
  {
    forall e | e in v.elections ensures ElectionOk(v.elections[e], d, s, e) {
      ElectionFrame(v.elections[e], k, d, s, e);
    }
  }

  lemma ElectionFrame(x: Election, k: Core, d: Core, s: nat, e: nat)
    requires ElectionOk(x, k, s, e) && Grows(k, d)
    ensures ElectionOk(x, d, s, e)
  {
    assert MemberGrows(k.m[s], d.m[s]);
    forall q | q in x.voters ensures VotedFor(d, e, q, s) {
      assert VotedFor(k, e, q, s);
      assert MemberGrows(k.m[q], d.m[q]);
    }
  }

  lemma MatchFrame(p: Peer, k: Core, d: Core)
    requires MatchOk(p, k) && Grows(k, d)
    ensures MatchOk(p, d)
  {
    if p.role.Leader? {
      forall q | 0 <= q < |p.matchIndex| && p.matchIndex[q] > 0 ensures MatchAcked(p, d, q) {
        assert MatchAcked(p, k, q);
        assert MemberGrows(k.m[q], d.m[q]);
      }
    }
  }

  lemma CommitFrame(p: Peer, k: Core, d: Core)
    requires CommitOk(p, k) && Grows(k, d)
    ensures CommitOk(p, d)
  {
    if p.commitIndex > 0 {
      DurableGrows(k, d, p.log[..p.commitIndex + 1], p.currentTerm, p.currentTerm);
    }
  }

  lemma NodeFrame(v: Node, k: Core, d: Core, s: nat)
    requires NodeOk(v, k, s) && Grows(k, d)
    requires d.m[s] == k.m[s]
    requires forall t :: t in d.reign && t !in k.reign ==> d.reign[t].leader != s
    ensures NodeOk(v, d, s)
  {
    ElectionsFrame(v, k, d, s);
    MatchFrame(v.peer, k, d);
    CommitFrame(v.peer, k, d);
  }

  // Putting a step together: the acting server's node, the message it sent, and
  // the history's growth are all there is to check.
  lemma Assemble(c: Cluster, a: Action, k: Core, d: Core)
    requires Linked(c, k) && Enabled(c, a) && Actor(a) < |c.nodes|
    requires Grows(k, d)
    requires forall s :: 0 <= s < |c.nodes| && s != Actor(a) ==> d.m[s] == k.m[s]
    requires forall t :: t in d.reign && t !in k.reign ==> d.reign[t].leader == Actor(a)
    requires NodeOk(NodeNext(c, a), d, Actor(a))
    requires forall m :: m in Sent(c, a) ==> MsgOk(m, d)
    ensures Linked(Next(c, a), d)
  {
    hide NodeOk, MsgOk, NodeNext, Sent, Grows;
    var e := Next(c, a);
    assert |d.m| == |k.m| by { GrowsSize(k, d); }
    forall s | 0 <= s < |e.nodes| ensures NodeOk(e.nodes[s], d, s) {
      if s != Actor(a) { NodeFrame(c.nodes[s], k, d, s); }
    }
    forall m | m in e.net ensures MsgOk(m, d) {
      if m in c.net { MsgFrame(m, k, d); }
    }
  }

  lemma GrowsSize(k: Core, d: Core)
    requires Grows(k, d)
    ensures |d.m| == |k.m|
  {
  }

  lemma GrowsSelf(k: Core)
    ensures Grows(k, k)
  {
  }
}
