// Orderly append requests and their replies, matched by moves of the history.
module RaftAppend {
  import opened RaftTypes
  import opened RaftMedian
  import opened RaftPeer
  import opened RaftCore
  import opened RaftMoves
  import opened RaftCluster
  import opened RaftLink
  import opened RaftSteps

  // ---------- A follower's log against its leader's ----------

  // The sent entries, merged into a log that agrees with the leader's at
  // prevIndex, leave the leader's log up to the last entry sent, and drop only
  // what conflicts with it.
  lemma MergeAgrees(a: AppendArgs, l: Log, lead: Log)
    requires Covers(a, lead) && Has(l, lead, a.prevIndex)
    requires forall i: nat :: i < |l| && i < |lead| && l[i].term == lead[i].term ==> Has(l, lead, i)
    ensures var r := Merge(l, a.prevIndex + 1, a.entries);
      && Has(r, lead, a.prevIndex + |a.entries|)
      && (r == l || |r| == a.prevIndex + |a.entries| + 1)
      && (forall j: nat :: j < |l| && !Has(r, l, j) ==> !Has(l, lead, j))
  {
    hide Merge, Agreeing;
    var at := a.prevIndex + 1;
    MergeClosedForm(l, at, a.entries);
    var k := Agreeing(l, at, a.entries);
    assert Has(l, lead, a.prevIndex + k) by {
      if k > 0 { assert l[a.prevIndex + k].term == a.entries[k - 1].term; }
    }
    if k < |a.entries| {
      MergeTail(a, l, lead, k);
    }
  }

  lemma MergeTail(a: AppendArgs, l: Log, lead: Log, k: nat)
    requires Covers(a, lead) && k < |a.entries| && Has(l, lead, a.prevIndex + k)
    requires a.prevIndex + 1 + k < |l| ==> l[a.prevIndex + 1 + k].term != a.entries[k].term
    ensures var r := l[..a.prevIndex + 1 + k] + a.entries[k..];
      && Has(r, lead, a.prevIndex + |a.entries|)
      && (forall j: nat :: j < |l| && !Has(r, l, j) ==> !Has(l, lead, j))
  {
    var at := a.prevIndex + 1 + k;
    var r := l[..at] + a.entries[k..];
    forall j: nat | j < |l| && !Has(r, l, j) ensures !Has(l, lead, j) {
      assert j >= at;
      assert lead[at] == a.entries[k];
    }
  }

  lemma MergeTakes(a: AppendArgs, k: Core, s: nat)
    requires Reigns(k) && LogsOk(k) && s < |k.m| && a.term == k.m[s].term && a.term in k.reign
    requires k.reign[a.term].leader != s && Covers(a, k.reign[a.term].log)
    requires a.prevIndex < |k.m[s].log| && k.m[s].log[a.prevIndex].term == a.prevTerm
    ensures var r := Merge(k.m[s].log, a.prevIndex + 1, a.entries);
      Takes(k, s, r) && Has(r, k.reign[a.term].log, a.prevIndex + |a.entries|)
  {
    var l, lead := k.m[s].log, k.reign[a.term].log;
    assert ReignOk(k, a.term);
    var r := Merge(l, a.prevIndex + 1, a.entries);
    forall i: nat | i < |l| && i < |lead| && l[i].term == lead[i].term ensures Has(l, lead, i) {
      Matching(k.reign, l, lead, i);
    }
    MergeAgrees(a, l, lead);
    if r != l {
      PrefixGrounded(k, lead, r);
    }
  }

  lemma PrefixGrounded(k: Core, lead: Log, r: Log)
    requires Grounded(k.reign, lead) && |r| > 0 && Has(r, lead, |r| - 1)
    ensures Grounded(k.reign, r)
  {
    forall i | 1 <= i < |r| ensures r[i].term in k.reign && Has(r, k.reign[r[i].term].log, i) {
      assert Has(lead, k.reign[lead[i].term].log, i);
    }
  }

  lemma CutTakes(a: AppendArgs, k: Core, s: nat)
    requires Reigns(k) && LogsOk(k) && s < |k.m| && a.term == k.m[s].term && a.term in k.reign
    requires k.reign[a.term].leader != s && Covers(a, k.reign[a.term].log)
    requires 1 <= a.prevIndex < |k.m[s].log| && k.m[s].log[a.prevIndex].term != a.prevTerm
    ensures Takes(k, s, k.m[s].log[..a.prevIndex])
  {
    PrefixGrounded(k, k.m[s].log, k.m[s].log[..a.prevIndex]);
  }

  // ---------- What is committed survives ----------

  // A server never drops an entry it knows to be committed.
  lemma TakesKeepsCommitted(k: Core, s: nat, l: Log, p: Peer)
    requires Complete(k) && Takes(k, s, l) && p.log == k.m[s].log && p.currentTerm <= k.m[s].term
    requires CommitOk(p, k)
    ensures p.commitIndex < |l|
    ensures p.commitIndex > 0 ==> l[..p.commitIndex + 1] == p.log[..p.commitIndex + 1]
    ensures forall j :: 0 <= j <= p.commitIndex && p.commitIndex > 0 ==> l[j] == p.log[j]
  {
    if p.commitIndex > 0 {
      DurableLed(k, p.log[..p.commitIndex + 1], p.currentTerm, k.m[s].term);
      assert Has(p.log, k.reign[k.m[s].term].log, p.commitIndex);
      assert Has(l, p.log, p.commitIndex);
    }
  }

  // The peer whose log becomes l, with nothing else changed, is still linked.
  lemma TookNode(v: Node, k: Core, d: Core, s: nat, q: Peer)
    requires Complete(k) && NodeOk(v, k, s) && Takes(k, s, q.log) && Grows(k, d)
    requires d.m[s] == k.m[s].(log := q.log, ack := d.m[s].ack) && d.reign == k.reign
    requires q == v.peer.(log := q.log, firstIndex := q.firstIndex, stored := q.stored)
    ensures NodeOk(v.(peer := q), d, s)
  {
    TakesKeepsCommitted(k, s, q.log, v.peer);
    ElectionsFrame(v, k, d, s);
    CommitFrame(v.peer, k, d);
    hide Grows, Grounded;
    assert !v.peer.role.Leader?;
  }

  // ---------- Append ----------

  // AdvanceCommit in an orderly run: the leader's commit index lies inside the log.
  lemma AdvancedNode(v: Node, k: Core, s: nat, a: AppendArgs)
    requires NodeOk(v, k, s) && a.term == v.peer.currentTerm && a.term in k.reign
    requires Has(v.peer.log, k.reign[a.term].log, a.prevIndex + |a.entries|)
    requires a.leaderCommit <= a.prevIndex + |a.entries|
    requires a.leaderCommit > 0 ==> Durable(k, k.reign[a.term].log[..a.leaderCommit + 1], a.term)
    requires forall j :: 0 <= j < |v.peer.applyCh| ==> v.peer.applyCh[j].index == j + 1
    ensures NodeOk(v.(peer := AdvanceCommit(v.peer, a.leaderCommit)), k, s)
  {
    var p := v.peer;
    if a.leaderCommit > p.commitIndex {
      var q := p.(commitIndex := a.leaderCommit);
      assert AdvanceCommit(p, a.leaderCommit) == Deliver(q);
      DeliverSound(q);
      var r := Deliver(q);
      hide Deliver;
      assert CommitOk(r, k) by {
        assert r.log[..r.commitIndex + 1] == k.reign[a.term].log[..a.leaderCommit + 1];
      }
    }
  }

  // What NodeOk, AppReqOk and CoreInv say about one append, without the rest.
  lemma AppendFacts(v: Node, k: Core, m: Message)
    requires CoreInv(k) && NodeOk(v, k, m.to) && m.AppReq? && AppReqOk(m, k)
    ensures Reigns(k) && LogsOk(k) && Complete(k)
    ensures m.to < |k.m| && k.m[m.to].log == v.peer.log && k.m[m.to].term == v.peer.currentTerm
    ensures m.app.term in k.reign && k.reign[m.app.term].leader != m.to
    ensures Covers(m.app, k.reign[m.app.term].log)
  {
    LeaderCompleteness(k);
  }

  lemma AppendMatches(p: Peer, a: AppendArgs)
    requires a.term == p.currentTerm && a.prevIndex < |p.log| && p.log[a.prevIndex].term == a.prevTerm
    ensures HandleAppend(p, a) ==
      (AdvanceCommit(MergeFrom(p, a.prevIndex + 1, a.entries), a.leaderCommit), AppendReply(p.currentTerm, true, -1, -1))
  {
    hide MergeFrom, AdvanceCommit;
  }

  lemma AppendConflicts(p: Peer, a: AppendArgs)
    requires a.term == p.currentTerm && a.prevIndex < |p.log| && p.log[a.prevIndex].term != a.prevTerm
    ensures HandleAppend(p, a).0 == Persist(p.(log := p.log[..a.prevIndex])) && !HandleAppend(p, a).1.success
  {
  }

  lemma AppendMisses(p: Peer, a: AppendArgs)
    requires a.term < p.currentTerm || (a.term == p.currentTerm && a.prevIndex >= |p.log|)
    ensures HandleAppend(p, a).0 == p && !HandleAppend(p, a).1.success
  {
  }

  lemma AppendAfterBump(p: Peer, a: AppendArgs)
    requires a.term > p.currentTerm
    ensures HandleAppend(p, a) == HandleAppend(StepDown(p, a.term), a)
  {
  }

  lemma AdvanceFacts(m: Message, k: Core)
    requires m.AppReq? && AppReqOk(m, k)
    ensures m.app.leaderCommit <= m.app.prevIndex + |m.app.entries|
    ensures m.app.leaderCommit < |k.reign[m.app.term].log|
    ensures m.app.leaderCommit > 0 ==> Durable(k, k.reign[m.app.term].log[..m.app.leaderCommit + 1], m.app.term)
  {
  }

  // The request matches: take its entries, acknowledge them, apply what is committed.
  lemma Accepted(v: Node, k: Core, m: Message) returns (d: Core)
    requires CoreInv(k) && NodeOk(v, k, m.to) && m.AppReq? && AppReqOk(m, k)
    requires Sound(v.peer, |k.m|) && m.app.term == v.peer.currentTerm
    requires m.app.prevIndex < |v.peer.log| && v.peer.log[m.app.prevIndex].term == m.app.prevTerm
    ensures CoreInv(d) && Grows(k, d) && d.reign == k.reign
    ensures forall s :: 0 <= s < |k.m| && s != m.to ==> d.m[s] == k.m[s]
    ensures NodeOk(v.(peer := HandleAppend(v.peer, m.app).0), d, m.to)
    ensures AppRspOk(AppRsp(m.to, m.from, m.app, HandleAppend(v.peer, m.app).1), d)
  {
    hide CoreInv, NodeOk, AppReqOk, Grows, Reigns, LogsOk, Complete, Covers, Takes, Merge, MergeFrom, HandleAppend, Durable, Has;
    var p, a, s := v.peer, m.app, m.to;
    var last := a.prevIndex + |a.entries|;
    AppendFacts(v, k, m);
    MergeTakes(a, k, s);
    MergeFromLog(p, a.prevIndex + 1, a.entries);
    var q := MergeFrom(p, a.prevIndex + 1, a.entries);
    d := Accept(k, s, q.log, last);
    AcceptKeeps(k, s, q.log, last);
    AppReqFrame(m, k, d);
    AdvanceFacts(m, d);
    TookNode(v, k, d, s, q);
    AppendMatches(p, a);
    AdvancedNode(v.(peer := q), d, s, a);
  }

  // The request conflicts: cut the log there.
  lemma Refused(v: Node, k: Core, m: Message) returns (d: Core)
    requires CoreInv(k) && NodeOk(v, k, m.to) && m.AppReq? && AppReqOk(m, k) && SoundAppend(m.app)
    requires Sound(v.peer, |k.m|) && m.app.term == v.peer.currentTerm
    requires m.app.prevIndex < |v.peer.log| && v.peer.log[m.app.prevIndex].term != m.app.prevTerm
    ensures CoreInv(d) && Grows(k, d) && d.reign == k.reign
    ensures forall s :: 0 <= s < |k.m| && s != m.to ==> d.m[s] == k.m[s]
    ensures NodeOk(v.(peer := HandleAppend(v.peer, m.app).0), d, m.to)
  {
    hide CoreInv, NodeOk, AppReqOk, Grows, Reigns, LogsOk, Complete, Covers, Takes, HandleAppend, Durable, Has;
    var p, a, s := v.peer, m.app, m.to;
    AppendFacts(v, k, m);
    assert a.prevIndex > 0;
    CutTakes(a, k, s);
    d := Cut(k, s, p.log[..a.prevIndex]);
    CutKeeps(k, s, p.log[..a.prevIndex]);
    AppendConflicts(p, a);
    TookNode(v, k, d, s, HandleAppend(p, a).0);
  }

  lemma Appended(v: Node, k: Core, m: Message) returns (d: Core)
    requires CoreInv(k) && NodeOk(v, k, m.to) && m.AppReq? && AppReqOk(m, k) && SoundAppend(m.app)
    requires Sound(v.peer, |k.m|) && m.app.term <= v.peer.currentTerm
    ensures CoreInv(d) && Grows(k, d) && d.reign == k.reign
    ensures forall s :: 0 <= s < |k.m| && s != m.to ==> d.m[s] == k.m[s]
    ensures NodeOk(v.(peer := HandleAppend(v.peer, m.app).0), d, m.to)
    ensures AppRspOk(AppRsp(m.to, m.from, m.app, HandleAppend(v.peer, m.app).1), d)
  {
    hide CoreInv, NodeOk, AppReqOk, Grows, HandleAppend, Sound, SoundAppend;
    var p, a := v.peer, m.app;
    if a.term < p.currentTerm || a.prevIndex >= |p.log| {
      d := k;
      GrowsSelf(k);
      AppendMisses(p, a);
    } else if p.log[a.prevIndex].term == a.prevTerm {
      d := Accepted(v, k, m);
    } else {
      d := Refused(v, k, m);
      AppendConflicts(p, a);
    }
  }

  lemma AppendHandled(v: Node, k: Core, m: Message) returns (d: Core)
    requires CoreInv(k) && NodeOk(v, k, m.to) && m.AppReq? && MsgOk(m, k) && SoundAppend(m.app)
    requires Sound(v.peer, |k.m|) && m.to < |k.m|
    ensures CoreInv(d) && Grows(k, d) && d.reign == k.reign
    ensures forall s :: 0 <= s < |k.m| && s != m.to ==> d.m[s] == k.m[s]
    ensures NodeOk(v.(peer := HandleAppend(v.peer, m.app).0), d, m.to)
    ensures AppRspOk(AppRsp(m.to, m.from, m.app, HandleAppend(v.peer, m.app).1), d)
  {
    hide CoreInv, NodeOk, AppReqOk, Grows, HandleAppend, SoundAppend;
    if m.app.term > v.peer.currentTerm {
      var t := m.app.term;
      var k1, w := Bump(k, m.to, t), v.(peer := StepDown(v.peer, t));
      Retired(v, k, m.to, t);
      MsgFrame(m, k, k1);
      AppendAfterBump(v.peer, m.app);
      assert Sound(w.peer, |k1.m|);
      d := Appended(w, k1, m);
      GrowsTransitive(k, k1, d);
    } else {
      d := Appended(v, k, m);
    }
  }

  lemma AppendStep(c: Cluster, a: Action, k: Core) returns (d: Core)
    requires CoreInv(k) && Linked(c, k) && Enabled(c, a) && a.Append? && SoundCluster(c)
    ensures CoreInv(d) && Grows(k, d) && Linked(Next(c, a), d)
  {
    hide CoreInv, NodeOk, MsgOk, AppRspOk, Grows, HandleAppend, Sound, SoundAppend;
    d := AppendHandled(c.nodes[a.m.to], k, a.m);
    AppendReplyOk(c, a, d);
    Assemble(c, a, k, d);
  }

  lemma AppendReplyOk(c: Cluster, a: Action, d: Core)
    requires Enabled(c, a) && a.Append?
    requires AppRspOk(AppRsp(a.m.to, a.m.from, a.m.app, HandleAppend(c.nodes[a.m.to].peer, a.m.app).1), d)
    ensures forall m :: m in Sent(c, a) ==> MsgOk(m, d)
  {
    hide HandleAppend;
  }

  // A request cut short is one its leader could have sent.
  lemma PartlyOk(m: Message, k: Core, j: nat)
    requires m.AppReq? && MsgOk(m, k) && j <= |m.app.entries|
    ensures MsgOk(AppReq(m.from, m.to, Partly(m.app, j)), k)
  {
  }

  // Dying with some of a request's entries merged.
  lemma CrashMergingStep(c: Cluster, a: Action, k: Core) returns (d: Core)
    requires CoreInv(k) && Linked(c, k) && Enabled(c, a) && a.CrashMerging? && SoundCluster(c)
    ensures CoreInv(d) && Grows(k, d) && Linked(Next(c, a), d)
  {
    hide CoreInv, NodeOk, MsgOk, AppRspOk, Grows, HandleAppend, Sound, SoundAppend, Partly;
    var v, s, n := c.nodes[a.m.to], a.m.to, |c.nodes|;
    var app := Partly(a.m.app, a.k);
    PartlyOk(a.m, k, a.k);
    PartlySound(a.m.app, a.k);
    d := AppendHandled(v, k, AppReq(a.m.from, s, app));
    HandleAppendSound(v.peer, app, n);
    GrowsSize(k, d);
    CrashNode(v.(peer := HandleAppend(v.peer, app).0), d, s, n);
    Assemble(c, a, k, d);
  }

  // ---------- The leader counts replicas ----------

  // The index picked by UpdateCommitIndex is committed.
  lemma MedianCommitted(p: Peer, k: Core)
    requires MatchOk(p, k) && p.role.Leader? && |p.matchIndex| == |k.m| > 0 && Acks(k)
    requires Median(p.matchIndex) > 0
    ensures p.currentTerm in k.reign && Median(p.matchIndex) < |k.reign[p.currentTerm].log|
    ensures k.reign[p.currentTerm].log[Median(p.matchIndex)].term == p.currentTerm ==>
      Committed(k, p.currentTerm, Median(p.matchIndex))
  {
    var n, t := Median(p.matchIndex), p.currentTerm;
    var q := Reaching(p.matchIndex, n);
    MedianReached(p.matchIndex, n);
    ReachIsCount(p.matchIndex, n);
    assert |q| >= CommitQuorum(|k.m|);
    forall v | v in q ensures v < |k.m| && t in k.m[v].ack && n <= k.m[v].ack[t] && AckOk(k, k.m[v], t) {
      assert MatchAcked(p, k, v);
    }
    var v :| v in q;
    if k.reign[t].log[n].term == t {
      assert CommittedBy(k, t, n, q);
    }
  }

  lemma CountedNode(v: Node, k: Core, s: nat)
    requires Reigns(k) && Acks(k) && NodeOk(v, k, s) && v.peer.role.Leader? && |v.peer.matchIndex| == |k.m| > 0
    requires forall j :: 0 <= j < |v.peer.applyCh| ==> v.peer.applyCh[j].index == j + 1
    ensures UpdateCommit(v.peer).Done? && NodeOk(v.(peer := UpdateCommit(v.peer).peer), k, s)
  {
    hide Grounded;
    var p := v.peer;
    var n, t := Median(p.matchIndex), p.currentTerm;
    assert ReignOk(k, t);
    if n > p.commitIndex {
      MedianCommitted(p, k);
      if p.log[n].term == t {
        assert DurableAt(k, p.log[..n + 1], t, t, n);
        CommittedNode(v, k, s, n);
      }
    }
  }

  lemma CommittedNode(v: Node, k: Core, s: nat, n: nat)
    requires NodeOk(v, k, s) && v.peer.commitIndex < n < |v.peer.log|
    requires Durable(k, v.peer.log[..n + 1], v.peer.currentTerm)
    requires forall j :: 0 <= j < |v.peer.applyCh| ==> v.peer.applyCh[j].index == j + 1
    ensures NodeOk(v.(peer := Deliver(v.peer.(commitIndex := n))), k, s)
  {
    var q := v.peer.(commitIndex := n);
    DeliverSound(q);
    hide Deliver, ElectionOk;
    assert CommitOk(Deliver(q), k);
  }

  lemma MatchedNode(v: Node, k: Core, s: nat, from: nat, j: nat)
    requires NodeOk(v, k, s) && from < |v.peer.matchIndex| == |v.peer.nextIndex| && v.peer.role.Leader?
    requires from < |k.m| && v.peer.currentTerm in k.m[from].ack && j <= k.m[from].ack[v.peer.currentTerm]
    ensures NodeOk(v.(peer := v.peer.(nextIndex := v.peer.nextIndex[from := j + 1], matchIndex := v.peer.matchIndex[from := j])), k, s)
  {
    var p := v.peer.(nextIndex := v.peer.nextIndex[from := j + 1], matchIndex := v.peer.matchIndex[from := j]);
    forall q | 0 <= q < |p.matchIndex| && p.matchIndex[q] > 0 ensures MatchAcked(p, k, q) {
      assert q != from ==> MatchAcked(v.peer, k, q);
    }
  }

  lemma RetriesNode(v: Node, k: Core, s: nat, next: seq<nat>)
    requires NodeOk(v, k, s)
    ensures NodeOk(v.(peer := v.peer.(nextIndex := next)), k, s)
  {
    var w := v.(peer := v.peer.(nextIndex := next));
    assert forall q: nat :: MatchAcked(w.peer, k, q) <==> MatchAcked(v.peer, k, q);
  }

  lemma ReplySucceeds(p: Peer, from: nat, a: AppendArgs, r: AppendReply)
    requires from < |p.nextIndex| == |p.matchIndex| && r.success && r.term <= p.currentTerm
    ensures var j := a.prevIndex + |a.entries|;
      HandleAppendReply(p, from, a, r) ==
        UpdateCommit(p.(nextIndex := p.nextIndex[from := j + 1], matchIndex := p.matchIndex[from := j]))
  {
    hide UpdateCommit;
  }

  lemma ReplyFails(p: Peer, from: nat, a: AppendArgs, r: AppendReply)
    requires from < |p.nextIndex| == |p.matchIndex| && !r.success && r.term <= p.currentTerm
    ensures var o := HandleAppendReply(p, from, a, r);
      o.Done? && o.peer == p.(nextIndex := o.peer.nextIndex)
  {
  }

  // A successful reply to the leader that asked.
  lemma ReplicaCounted(v: Node, k: Core, s: nat, n: nat, m: Message)
    requires Reigns(k) && Acks(k) && NodeOk(v, k, s) && m.AppRsp? && AppRspOk(m, k) && Sound(v.peer, n)
    requires n == |k.m| && m.from < n && m.appReply.success && m.appReply.term <= v.peer.currentTerm
    requires v.peer.currentTerm == m.app.term && v.peer.role.Leader?
    ensures NodeOk(AppendAnswerNode(v, s, n, m.from, m.app, m.appReply), k, s)
    ensures HandleAppendReply(v.peer, m.from, m.app, m.appReply).Done?
  {
    hide Reigns, Acks, NodeOk, HandleAppendReply, UpdateCommit;
    var j := m.app.prevIndex + |m.app.entries|;
    MatchedNode(v, k, s, m.from, j);
    CountedNode(v.(peer := v.peer.(nextIndex := v.peer.nextIndex[m.from := j + 1],
                                   matchIndex := v.peer.matchIndex[m.from := j])), k, s);
    ReplySucceeds(v.peer, m.from, m.app, m.appReply);
  }

  lemma AppendAnswered(v: Node, k: Core, s: nat, n: nat, m: Message) returns (d: Core)
    requires CoreInv(k) && NodeOk(v, k, s) && m.AppRsp? && AppRspOk(m, k) && Sound(v.peer, n)
    requires n == |k.m| && m.from < n && s < n
    requires m.appReply.term > v.peer.currentTerm || !m.appReply.success
      || (v.peer.currentTerm == m.app.term && v.peer.role.Leader?)
    ensures CoreInv(d) && Grows(k, d) && d.reign == k.reign
    ensures forall r :: 0 <= r < |k.m| && r != s ==> d.m[r] == k.m[r]
    ensures NodeOk(AppendAnswerNode(v, s, n, m.from, m.app, m.appReply), d, s)
    ensures HandleAppendReply(v.peer, m.from, m.app, m.appReply).Done?
  {
    assert Reigns(k) && Acks(k);
    SoundIndices(v.peer, n);
    hide CoreInv, Reigns, Acks, NodeOk, UpdateCommit, Sound, AppRspOk;
    d := k;
    GrowsSelf(k);
    hide Grows;
    if m.appReply.term > v.peer.currentTerm {
      Retired(v, k, s, m.appReply.term);
      d := Bump(k, s, m.appReply.term);
    } else if m.appReply.success {
      ReplicaCounted(v, k, s, n, m);
    } else {
      ReplyFails(v.peer, m.from, m.app, m.appReply);
      RetriesNode(v, k, s, HandleAppendReply(v.peer, m.from, m.app, m.appReply).peer.nextIndex);
    }
  }

  lemma AppendAnswerStep(c: Cluster, a: Action, k: Core) returns (d: Core)
    requires CoreInv(k) && Linked(c, k) && Enabled(c, a) && a.AppendAnswer? && Orderly(c, a) && SoundCluster(c)
    ensures CoreInv(d) && Grows(k, d) && Linked(Next(c, a), d)
    ensures HandleAppendReply(c.nodes[a.m.to].peer, a.m.from, a.m.app, a.m.appReply).Done?
  {
    SoundIndices(c.nodes[a.m.to].peer, |c.nodes|);
    hide CoreInv, NodeOk, MsgOk, AppRspOk, Grows, Sound, SoundAppend;
    AppRspIsOk(a.m, k);
    d := AppendAnswered(c.nodes[a.m.to], k, a.m.to, |c.nodes|, a.m);
    Assemble(c, a, k, d);
  }

  lemma AppRspIsOk(m: Message, k: Core)
    requires m.AppRsp? && MsgOk(m, k)
    ensures AppRspOk(m, k)
  {
  }
}
