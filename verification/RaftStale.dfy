// The other halves of conditions (a) and (b), with five servers: a vote request
// built too late elects two leaders, and an append reply acted on too late loses a
// committed entry or crashes the server.
module RaftStale {
  import opened RaftTypes
  import opened RaftMedian
  import opened RaftPeer
  import opened RaftCluster
  import opened RaftUnorderly

  // Server s of five, with nothing committed, as far as the run needs to know it.
  ghost predicate Seated(v: Node, s: nat, t: nat, role: Role, log: Log) {
    && !v.launching && |log| > 0
    && var p := v.peer;
      && p.me == s && p.currentTerm == t && p.role == role && p.log == log
      && |p.nextIndex| == |p.matchIndex| == 5 && p.commitIndex == p.lastApplied == 0 && p.applyCh == []
      && p.stored.term == t && p.stored.log == log
  }

  ghost predicate Seat(c: Cluster, s: nat, t: nat, role: Role, log: Log) {
    |c.nodes| == 5 && s < 5 && Seated(c.nodes[s], s, t, role, log)
  }

  // Everyone but s and p is where they were, and no message is gone.
  ghost predicate Apart(c: Cluster, d: Cluster, s: nat, p: nat) {
    && |d.nodes| == |c.nodes| && c.net <= d.net
    && forall o: nat :: o < |c.nodes| && o != s && o != p ==> d.nodes[o] == c.nodes[o]
  }

  // s times out and runs for term t + 1.
  lemma Starts(w: Walk, odd: int, s: nat, t: nat, role: Role, log: Log) returns (x: Walk)
    requires OrderlyBut(w, odd) && Seat(Last(w), s, t, role, log) && !role.Leader?
    ensures OrderlyBut(x, odd) && Continues(w, x, 2) && Apart(Last(w), Last(x), s, s)
    ensures Seat(Last(x), s, t + 1, Candidate, log)
    ensures Last(x).nodes[s].elections == Last(w).nodes[s].elections[t + 1 := Election(Peers(5) - {s}, {}, 1, {s})]
  {
    hide OrderlyBut;
    var y := Step(w, odd, Tick(s));
    x := Step(y, odd, Run(s));
  }

  // Log l is at least as up to date as m.
  predicate Newer(l: Log, m: Log)
    requires |l| > 0 && |m| > 0
  {
    m[|m| - 1].term < l[|l| - 1].term || (m[|m| - 1].term == l[|l| - 1].term && |m| <= |l|)
  }

  function Request(s: nat, t: nat, log: Log): VoteArgs
    requires |log| > 0
  {
    VoteArgs(t, s, |log| - 1, log[|log| - 1].term)
  }

  // s, in term t, asks p on behalf of the election it launched in term e.
  lemma AsksFor(w: Walk, odd: int, s: nat, p: nat, e: nat, t: nat, log: Log) returns (x: Walk)
    requires OrderlyBut(w, odd) && Seat(Last(w), s, t, Candidate, log) && (e == t || odd == |w.acts|)
    requires e in Last(w).nodes[s].elections && p in Last(w).nodes[s].elections[e].todo
    ensures OrderlyBut(x, odd) && Continues(w, x, 1) && Apart(Last(w), Last(x), s, s) && x.acts[|w.acts|] == AskVote(s, e, p)
    ensures Seat(Last(x), s, t, Candidate, log) && VoteReq(s, p, e, Request(s, t, log)) in Last(x).net
    ensures Last(x).nodes[s] == AskNode(Last(w).nodes[s], e, p)
  {
    hide OrderlyBut;
    x := Step(w, odd, AskVote(s, e, p));
  }

  lemma GivesVote(w: Walk, odd: int, s: nat, p: nat, e: nat, t: nat, log: Log, q: nat, role: Role, plog: Log) returns (x: Walk)
    requires OrderlyBut(w, odd) && |log| > 0 && VoteReq(s, p, e, Request(s, t, log)) in Last(w).net
    requires Seat(Last(w), p, q, role, plog) && q < t && Newer(log, plog)
    ensures OrderlyBut(x, odd) && Continues(w, x, 1) && Apart(Last(w), Last(x), p, p)
    ensures Seat(Last(x), p, t, Follower, plog)
    ensures VoteRsp(p, s, e, Request(s, t, log), VoteReply(t, true)) in Last(x).net
  {
    hide OrderlyBut;
    x := Step(w, odd, Vote(VoteReq(s, p, e, Request(s, t, log))));
  }

  lemma CountsVote(w: Walk, odd: int, s: nat, p: nat, e: nat, t: nat, log: Log) returns (x: Walk)
    requires OrderlyBut(w, odd) && Seat(Last(w), s, t, Candidate, log)
    requires VoteRsp(p, s, e, Request(s, t, log), VoteReply(t, true)) in Last(w).net
    requires e in Last(w).nodes[s].elections && p in Last(w).nodes[s].elections[e].waiting
    requires Last(w).nodes[s].elections[e].nvotes <= 2
    ensures OrderlyBut(x, odd) && Continues(w, x, 1) && Apart(Last(w), Last(x), s, s)
    ensures var k := Last(w).nodes[s].elections[e].nvotes;
      && Seat(Last(x), s, t, if k == 2 then Leader else Candidate, log)
      && (k == 2 ==> Last(x).nodes[s].peer.nextIndex == [|log|, |log|, |log|, |log|, |log|])
      && (k == 2 ==> Last(x).nodes[s].peer.matchIndex == [0, 0, 0, 0, 0])
      && e in Last(x).nodes[s].elections && Last(x).nodes[s].elections[e].nvotes == k + 1
      && Last(x).nodes[s].elections[e].todo == Last(w).nodes[s].elections[e].todo
  {
    hide OrderlyBut;
    x := Step(w, odd, VoteAnswer(VoteRsp(p, s, e, Request(s, t, log), VoteReply(t, true))));
  }

  // s asks p, p grants, s counts the vote.
  lemma OneVote(w: Walk, odd: int, s: nat, p: nat, t: nat, log: Log, q: nat, role: Role, plog: Log) returns (x: Walk)
    requires OrderlyBut(w, odd) && Seat(Last(w), s, t, Candidate, log) && Seat(Last(w), p, q, role, plog) && s != p && q < t
    requires t in Last(w).nodes[s].elections && p in Last(w).nodes[s].elections[t].todo
    requires Last(w).nodes[s].elections[t].nvotes <= 2 && Newer(log, plog)
    ensures OrderlyBut(x, odd) && Continues(w, x, 3) && Apart(Last(w), Last(x), s, p)
    ensures Seat(Last(x), p, t, Follower, plog)
    ensures var k := Last(w).nodes[s].elections[t].nvotes;
      && Seat(Last(x), s, t, if k == 2 then Leader else Candidate, log)
      && (k == 2 ==> Last(x).nodes[s].peer.nextIndex == [|log|, |log|, |log|, |log|, |log|])
      && (k == 2 ==> Last(x).nodes[s].peer.matchIndex == [0, 0, 0, 0, 0])
      && t in Last(x).nodes[s].elections && Last(x).nodes[s].elections[t].nvotes == k + 1
      && Last(x).nodes[s].elections[t].todo == Last(w).nodes[s].elections[t].todo - {p}
  {
    hide OrderlyBut;
    var y := AsksFor(w, odd, s, p, t, t, log);
    var z := GivesVote(y, odd, s, p, t, t, log, q, role, plog);
    x := CountsVote(z, odd, s, p, t, t, log);
  }

  // s, in term t, wins term t + 1 with the votes of p and q.
  lemma Wins(w: Walk, odd: int, s: nat, t: nat, role: Role, log: Log, p: nat, tp: nat, rp: Role, lp: Log, q: nat, tq: nat, rq: Role, lq: Log)
    returns (x: Walk)
    requires OrderlyBut(w, odd) && Seat(Last(w), s, t, role, log) && !role.Leader?
    requires Seat(Last(w), p, tp, rp, lp) && Seat(Last(w), q, tq, rq, lq) && s != p && s != q && p != q && tp <= t && tq <= t
    requires Newer(log, lp) && Newer(log, lq)
    ensures OrderlyBut(x, odd) && Continues(w, x, 8)
    ensures |Last(x).nodes| == 5 && Last(w).net <= Last(x).net
    ensures forall o: nat :: o < 5 && o != s && o != p && o != q ==> Last(x).nodes[o] == Last(w).nodes[o]
    ensures Seat(Last(x), s, t + 1, Leader, log) && Seat(Last(x), p, t + 1, Follower, lp) && Seat(Last(x), q, t + 1, Follower, lq)
    ensures Last(x).nodes[s].peer.nextIndex == [|log|, |log|, |log|, |log|, |log|]
    ensures Last(x).nodes[s].peer.matchIndex == [0, 0, 0, 0, 0]
  {
    hide OrderlyBut;
    var y := Starts(w, odd, s, t, role, log);
    var z := OneVote(y, odd, s, p, t + 1, log, tp, rp, lp);
    x := OneVote(z, odd, s, q, t + 1, log, tq, rq, lq);
  }

  lemma Opens(odd: int) returns (w: Walk)
    ensures OrderlyBut(w, odd) && |w.states| == 1 && |w.acts| == 0
    ensures forall s: nat :: s < 5 ==> Seat(Last(w), s, 0, Follower, [SENTINEL])
  {
    w := Walk([Cluster(seq(5, s requires s >= 0 => Node(Boot(s, 5, BLANK), false, map[])), {})], []);
  }

  // Server 0 has server 1's vote of term 1 and runs again, for term 2.
  lemma RunsTwice(odd: int) returns (w: Walk)
    ensures OrderlyBut(w, odd) && |w.acts| == 7 && |w.states| == 8 && Seat(Last(w), 0, 2, Candidate, [SENTINEL])
    ensures 1 in Last(w).nodes[0].elections && 2 in Last(w).nodes[0].elections[1].todo && Last(w).nodes[0].elections[1].nvotes == 2
    ensures Seat(Last(w), 1, 1, Follower, [SENTINEL]) && Seat(Last(w), 2, 0, Follower, [SENTINEL])
    ensures Seat(Last(w), 3, 0, Follower, [SENTINEL]) && Seat(Last(w), 4, 0, Follower, [SENTINEL])
  {
    hide OrderlyBut, Seated;
    var l := [SENTINEL];
    w := Opens(odd);
    assert Seat(Last(w), 0, 0, Follower, l) && Seat(Last(w), 1, 0, Follower, l) && Seat(Last(w), 2, 0, Follower, l);
    assert Seat(Last(w), 3, 0, Follower, l) && Seat(Last(w), 4, 0, Follower, l);
    w := Starts(w, odd, 0, 0, Follower, l);
    w := OneVote(w, odd, 0, 1, 1, l, 0, Follower, l);
    w := Starts(w, odd, 0, 1, Candidate, l);
  }

  // (a) A vote request is built for an election of the term before: its vote is
  // counted with the votes of that term.
  lemma StaleRequestElectsTwo() returns (w: Walk, odd: nat, i: nat)
    ensures OrderlyBut(w, odd) && odd < |w.acts| && w.acts[odd].AskVote?
    ensures i < |w.states| && TwoLeaders(w, i, 0, |w.states| - 1, 3)
  {
    hide OrderlyBut, Seated;
    var l := [SENTINEL];
    odd := 7;
    w := RunsTwice(odd);
    var x := AsksFor(w, odd, 0, 2, 1, 2, l);
    w := GivesVote(x, odd, 0, 2, 1, 2, l, 0, Follower, l);
    var y := CountsVote(w, odd, 0, 2, 1, 2, l);
    i := |y.states| - 1;
    w := Starts(y, odd, 3, 0, Follower, l);
    w := Wins(w, odd, 3, 1, Candidate, l, 1, 1, Follower, l, 4, 0, Follower, l);
    assert w.acts[odd] == x.acts[odd] && w.states[i] == y.states[i];
    LogIs(Last(y).nodes[0], 0, 2, Leader, l);
    LogIs(Last(w).nodes[3], 3, 2, Leader, l);
  }

  // The leader s, with an empty log, takes a command.
  lemma Takes(w: Walk, odd: int, s: nat, t: nat, command: Command) returns (x: Walk)
    requires OrderlyBut(w, odd) && Seat(Last(w), s, t, Leader, [SENTINEL])
    ensures OrderlyBut(x, odd) && Continues(w, x, 1) && Apart(Last(w), Last(x), s, s)
    ensures Seat(Last(x), s, t, Leader, [SENTINEL, Entry(t, command)])
    ensures Last(x).nodes[s].peer.nextIndex == Last(w).nodes[s].peer.nextIndex[s := 2]
    ensures Last(x).nodes[s].peer.matchIndex == Last(w).nodes[s].peer.matchIndex[s := 1]
  {
    hide OrderlyBut;
    x := Step(w, odd, Submit(s, command));
  }

  function First(s: nat, t: nat, e: Entry): AppendArgs { AppendArgs(t, s, 0, 0, [e], 0) }

  // s sends its one entry to p, whose log is empty.
  lemma Ships(w: Walk, odd: int, s: nat, p: nat, t: nat, e: Entry) returns (x: Walk)
    requires OrderlyBut(w, odd) && |w.states| > 0 && Seat(Last(w), s, t, Leader, [SENTINEL, e]) && s != p && p < 5
    requires Last(w).nodes[s].peer.nextIndex[p] == 1
    ensures OrderlyBut(x, odd) && Continues(w, x, 1)
    ensures Last(x).nodes == Last(w).nodes && Last(w).net <= Last(x).net && AppReq(s, p, First(s, t, e)) in Last(x).net
  {
    hide OrderlyBut;
    var q := Last(w).nodes[s].peer;
    assert q.log[1..] == [e];
    assert ReplicateArgs(q, p) == First(s, t, e);
    x := Step(w, odd, Replicate(s, p));
    assert Last(x).nodes == Last(w).nodes;
  }

  // p takes the entry and answers.
  lemma Receives(w: Walk, odd: int, s: nat, p: nat, t: nat, e: Entry, tp: nat) returns (x: Walk)
    requires OrderlyBut(w, odd) && |w.states| > 0 && AppReq(s, p, First(s, t, e)) in Last(w).net
    requires Seat(Last(w), p, tp, Follower, [SENTINEL]) && tp <= t
    ensures OrderlyBut(x, odd) && Continues(w, x, 1) && Apart(Last(w), Last(x), p, p)
    ensures Seat(Last(x), p, t, Follower, [SENTINEL, e])
    ensures AppRsp(p, s, First(s, t, e), AppendReply(t, true, -1, -1)) in Last(x).net
  {
    hide OrderlyBut, MergeFrom;
    MergesOne(if t > tp then StepDown(Last(w).nodes[p].peer, t) else Last(w).nodes[p].peer, e);
    x := Step(w, odd, Append(AppReq(s, p, First(s, t, e))));
  }

  lemma Delivers(w: Walk, odd: int, s: nat, p: nat, t: nat, e: Entry, tp: nat) returns (x: Walk)
    requires OrderlyBut(w, odd) && |w.states| > 0 && Seat(Last(w), s, t, Leader, [SENTINEL, e]) && s != p && p < 5
    requires Last(w).nodes[s].peer.nextIndex[p] == 1 && Seat(Last(w), p, tp, Follower, [SENTINEL]) && tp <= t
    ensures OrderlyBut(x, odd) && Continues(w, x, 2) && Apart(Last(w), Last(x), p, p)
    ensures Seat(Last(x), p, t, Follower, [SENTINEL, e])
    ensures AppRsp(p, s, First(s, t, e), AppendReply(t, true, -1, -1)) in Last(x).net
  {
    hide OrderlyBut;
    var y := Ships(w, odd, s, p, t, e);
    x := Receives(y, odd, s, p, t, e, tp);
  }

  lemma MergesOne(p: Peer, e: Entry)
    requires p.log == [SENTINEL]
    ensures var q := MergeFrom(p, 1, [e]);
      q == p.(log := [SENTINEL, e], firstIndex := q.firstIndex, stored := Stored(p.currentTerm, p.votedFor, [SENTINEL, e]))
  {
    assert [e][1..] == [];
    assert p.log[..1] + [e] == [SENTINEL, e];
    var q := AppendAt(p, 1, e);
    assert MergeFrom(p, 1, [e]) == MergeFrom(q, 2, []);
  }

  // The leader s's heartbeat cuts p's log, which ends differently.
  lemma Cuts(w: Walk, odd: int, s: nat, p: nat, t: nat, e: Entry, tp: nat, role: Role, old': Entry) returns (x: Walk)
    requires OrderlyBut(w, odd) && |w.states| > 0 && Seat(Last(w), s, t, Leader, [SENTINEL, e]) && s != p
    requires Seat(Last(w), p, tp, role, [SENTINEL, old']) && tp < t && old'.term != e.term
    ensures OrderlyBut(x, odd) && Continues(w, x, 2) && Apart(Last(w), Last(x), p, p)
    ensures Seat(Last(x), p, t, Follower, [SENTINEL]) && Last(x).nodes[p].peer.matchIndex == Last(w).nodes[p].peer.matchIndex
  {
    hide OrderlyBut;
    var a := AppendArgs(t, s, 1, e.term, [], 0);
    assert HeartbeatArgs(Last(w).nodes[s].peer) == a;
    var y := Step(w, odd, Heartbeat(s, p));
    assert Last(y).nodes == Last(w).nodes;
    x := Step(y, odd, Append(AppReq(s, p, a)));
    assert [SENTINEL, old'][..1] == [SENTINEL];
  }

  // Two of five servers at index 1 do not make the median, three do.
  lemma Medians()
    ensures Median([1, 0, 0, 1, 0]) == 0 && Median([1, 1, 0, 1, 0]) == 1
  {
    Reaches(1, 0, 0, 1, 0, 1);
    Reaches(1, 1, 0, 1, 0, 1);
    Reaches(1, 1, 0, 1, 0, 2);
    MedianReached([1, 0, 0, 1, 0], 1);
    MedianReached([1, 1, 0, 1, 0], 1);
    MedianReached([1, 1, 0, 1, 0], 2);
  }

  lemma Reaches(a: nat, b: nat, c: nat, d: nat, e: nat, x: nat)
    ensures Reach([a, b, c, d, e], x)
      == (if a >= x then 1 else 0) + (if b >= x then 1 else 0) + (if c >= x then 1 else 0) + (if d >= x then 1 else 0) + (if e >= x then 1 else 0)
  {
    assert [a, b, c, d, e][1..] == [b, c, d, e];
    assert [b, c, d, e][1..] == [c, d, e];
    assert [c, d, e][1..] == [d, e];
    assert [d, e][1..] == [e];
    assert [e][1..] == [];
    assert Reach([e], x) == if e >= x then 1 else 0;
    assert Reach([d, e], x) == (if d >= x then 1 else 0) + Reach([e], x);
    assert Reach([c, d, e], x) == (if c >= x then 1 else 0) + Reach([d, e], x);
  }

  // s crashes and comes back as a follower.
  lemma Restarts(w: Walk, odd: int, s: nat, t: nat, role: Role, log: Log) returns (x: Walk)
    requires OrderlyBut(w, odd) && Seat(Last(w), s, t, role, log)
    ensures OrderlyBut(x, odd) && Continues(w, x, 1) && Apart(Last(w), Last(x), s, s)
    ensures Seat(Last(x), s, t, Follower, log)
  {
    hide OrderlyBut;
    x := Step(w, odd, Crash(s));
  }

  // Server 0 leads term t with one entry and hears that server 3 has it: two of five.
  lemma HearsOne(w: Walk, odd: int, t: nat, e: Entry) returns (x: Walk)
    requires OrderlyBut(w, odd) && |w.states| > 0 && Seat(Last(w), 0, t, Leader, [SENTINEL, e])
    requires Last(w).nodes[0].peer.matchIndex == [1, 0, 0, 0, 0]
    requires AppRsp(3, 0, First(0, t, e), AppendReply(t, true, -1, -1)) in Last(w).net
    ensures OrderlyBut(x, odd) && Continues(w, x, 1) && Apart(Last(w), Last(x), 0, 0)
    ensures Seat(Last(x), 0, t, Leader, [SENTINEL, e]) && Last(x).nodes[0].peer.matchIndex == [1, 0, 0, 1, 0]
  {
    hide OrderlyBut, Median;
    Medians();
    assert [1, 0, 0, 0, 0][3 := 1] == [1, 0, 0, 1, 0];
    x := Step(w, odd, AppendAnswer(AppRsp(3, 0, First(0, t, e), AppendReply(t, true, -1, -1))));
  }

  // It then acts on server 1's answer of term 1, about an entry it no longer has,
  // and takes its own for committed.
  lemma HearsStale(w: Walk, e: Entry, x1: Entry) returns (x: Walk)
    requires OrderlyBut(w, |w.acts|) && |w.states| > 0 && Seat(Last(w), 0, 3, Leader, [SENTINEL, e]) && e.term == 3
    requires Last(w).nodes[0].peer.matchIndex == [1, 0, 0, 1, 0]
    requires AppRsp(1, 0, First(0, 1, x1), AppendReply(1, true, -1, -1)) in Last(w).net
    ensures OrderlyBut(x, |w.acts|) && Continues(w, x, 1) && Apart(Last(w), Last(x), 0, 0)
    ensures x.acts[|w.acts|] == AppendAnswer(AppRsp(1, 0, First(0, 1, x1), AppendReply(1, true, -1, -1)))
    ensures Last(x).nodes[0].peer.currentTerm == 3 && Last(x).nodes[0].peer.commitIndex == 1
    ensures Last(x).nodes[0].peer.log == [SENTINEL, e]
  {
    hide OrderlyBut, Median;
    Medians();
    assert [1, 0, 0, 1, 0][1 := 1] == [1, 1, 0, 1, 0];
    x := Step(w, |w.acts|, AppendAnswer(AppRsp(1, 0, First(0, 1, x1), AppendReply(1, true, -1, -1))));
  }

  // Server 0 has its term-1 entry acknowledged by server 1, unheard; server 2 leads
  // term 2 with another entry and cuts server 0's log; server 0 leads term 3.
  lemma Prepares(odd: int, x1: Entry, z2: Entry) returns (w: Walk)
    requires x1.term == 1 && z2.term == 2
    ensures OrderlyBut(w, odd) && |w.states| > 0 && |w.acts| == 32
    ensures Seat(Last(w), 0, 3, Leader, [SENTINEL]) && Seat(Last(w), 1, 1, Follower, [SENTINEL, x1])
    ensures Seat(Last(w), 2, 2, Leader, [SENTINEL, z2])
    ensures Seat(Last(w), 3, 3, Follower, [SENTINEL]) && Seat(Last(w), 4, 3, Follower, [SENTINEL])
    ensures Last(w).nodes[0].peer.nextIndex == [1, 1, 1, 1, 1] && Last(w).nodes[0].peer.matchIndex == [0, 0, 0, 0, 0]
    ensures AppRsp(1, 0, First(0, 1, x1), AppendReply(1, true, -1, -1)) in Last(w).net
  {
    hide OrderlyBut, Seated;
    var l := [SENTINEL];
    w := Opens(odd);
    assert Seat(Last(w), 1, 0, Follower, l) && Seat(Last(w), 2, 0, Follower, l);
    w := Wins(w, odd, 0, 0, Follower, l, 3, 0, Follower, l, 4, 0, Follower, l);
    w := Takes(w, odd, 0, 1, x1.command);
    w := Delivers(w, odd, 0, 1, 1, x1, 0);
    w := Starts(w, odd, 2, 0, Follower, l);
    w := Wins(w, odd, 2, 1, Candidate, l, 3, 1, Follower, l, 4, 1, Follower, l);
    w := Takes(w, odd, 2, 2, z2.command);
    w := Cuts(w, odd, 2, 0, 2, z2, 1, Leader, x1);
    w := Wins(w, odd, 0, 2, Follower, l, 3, 2, Follower, l, 4, 2, Follower, l);
  }

  // (b) An append reply of an earlier term makes a leader commit an entry that too
  // few servers hold; a later leader does not have it.
  lemma StaleReplyLosesCommit() returns (w: Walk, odd: nat, i: nat)
    ensures OrderlyBut(w, odd) && odd < |w.acts| && w.acts[odd].AppendAnswer?
    ensures i < |w.states| && |w.states[i].nodes| == |Last(w).nodes| == 5
    ensures var p, q := w.states[i].nodes[0].peer, Last(w).nodes[2].peer;
      q.role.Leader? && p.currentTerm <= q.currentTerm && p.commitIndex < |p.log| && !(p.log[..p.commitIndex + 1] <= q.log)
  {
    hide OrderlyBut, Seated;
    var l, x1, z2, y3 := [SENTINEL], Entry(1, Command(0)), Entry(2, Command(1)), Entry(3, Command(2));
    odd := 36;
    w := Prepares(odd, x1, z2);
    w := Takes(w, odd, 0, 3, y3.command);
    assert [0, 0, 0, 0, 0][0 := 1] == [1, 0, 0, 0, 0];
    w := Delivers(w, odd, 0, 3, 3, y3, 3);
    w := HearsOne(w, odd, 3, y3);
    var y := HearsStale(w, y3, x1);
    i := |y.states| - 1;
    w := Restarts(y, odd, 2, 2, Leader, [SENTINEL, z2]);
    w := Starts(w, odd, 2, 2, Follower, [SENTINEL, z2]);
    w := Wins(w, odd, 2, 3, Candidate, [SENTINEL, z2], 1, 1, Follower, [SENTINEL, x1], 4, 3, Follower, l);
    assert w.acts[odd] == y.acts[odd] && w.states[i] == y.states[i];
    LogIs(Last(w).nodes[2], 2, 4, Leader, [SENTINEL, z2]);
    assert y3 != z2;
    assert [SENTINEL, y3][1] == y3 && [SENTINEL, z2][1] == z2;
  }

  // What the append reply m to a server of cluster c comes to.
  ghost predicate Panics(c: Cluster, m: Message) {
    && m.AppRsp? && m.to < |c.nodes|
    && var p := c.nodes[m.to].peer;
       m.from < |p.nextIndex| == |p.matchIndex| && HandleAppendReply(p, m.from, m.app, m.appReply).Panic?
  }

  // Server 0, its log cut by a later leader, acts on server 1's answer of term 1: the
  // index it takes for committed is past the end of its log.
  lemma HearsTooLate(w: Walk, x1: Entry) returns (x: Walk, m: Message)
    requires OrderlyBut(w, |w.acts|) && |w.states| > 0 && Seat(Last(w), 0, 4, Follower, [SENTINEL])
    requires Last(w).nodes[0].peer.matchIndex == [1, 0, 0, 1, 0]
    requires AppRsp(1, 0, First(0, 1, x1), AppendReply(1, true, -1, -1)) in Last(w).net
    ensures OrderlyBut(x, |w.acts|) && Continues(w, x, 1) && x.acts[|w.acts|] == AppendAnswer(m) && Panics(Last(w), m)
  {
    hide OrderlyBut, Median;
    Medians();
    assert [1, 0, 0, 1, 0][1 := 1] == [1, 1, 0, 1, 0];
    m := AppRsp(1, 0, First(0, 1, x1), AppendReply(1, true, -1, -1));
    x := Step(w, |w.acts|, AppendAnswer(m));
  }

  // Server 0 leads term 3 with an entry it knows server 3 to have, until server 2,
  // leading term 4, cuts it.
  lemma Unseats(odd: int, x1: Entry, z2: Entry, y3: Entry) returns (w: Walk)
    requires x1.term == 1 && z2.term == 2 && y3.term == 3
    ensures OrderlyBut(w, odd) && |w.states| > 0 && |w.acts| == 49 && Seat(Last(w), 0, 4, Follower, [SENTINEL])
    ensures Last(w).nodes[0].peer.matchIndex == [1, 0, 0, 1, 0]
    ensures AppRsp(1, 0, First(0, 1, x1), AppendReply(1, true, -1, -1)) in Last(w).net
  {
    hide OrderlyBut, Seated;
    w := Prepares(odd, x1, z2);
    w := Takes(w, odd, 0, 3, y3.command);
    assert [0, 0, 0, 0, 0][0 := 1] == [1, 0, 0, 0, 0];
    w := Delivers(w, odd, 0, 3, 3, y3, 3);
    w := HearsOne(w, odd, 3, y3);
    w := Restarts(w, odd, 2, 2, Leader, [SENTINEL, z2]);
    w := Starts(w, odd, 2, 2, Follower, [SENTINEL, z2]);
    w := Wins(w, odd, 2, 3, Candidate, [SENTINEL, z2], 1, 1, Follower, [SENTINEL, x1], 4, 3, Follower, [SENTINEL]);
    w := Cuts(w, odd, 2, 0, 4, z2, 3, Leader, y3);
  }

  // (b) An append reply of an earlier term makes the server index past its log.
  lemma StaleReplyPanics() returns (w: Walk, odd: nat)
    ensures OrderlyBut(w, odd) && odd + 1 == |w.acts| < |w.states| && w.acts[odd].AppendAnswer?
    ensures Panics(w.states[odd], w.acts[odd].m)
  {
    hide OrderlyBut, Seated, Panics;
    var x1 := Entry(1, Command(0));
    odd := 49;
    var y := Unseats(odd, x1, Entry(2, Command(1)), Entry(3, Command(2)));
    var m;
    w, m := HearsTooLate(y, x1);
    Lengths(y, odd);
  }

  // Then it hears that server 1 has it too: three of five, and it is committed and applied.
  lemma HearsTwo(w: Walk, odd: int, t: nat, e: Entry) returns (x: Walk)
    requires OrderlyBut(w, odd) && |w.states| > 0 && Seat(Last(w), 0, t, Leader, [SENTINEL, e]) && e.term == t
    requires Last(w).nodes[0].peer.matchIndex == [1, 0, 0, 1, 0]
    requires AppRsp(1, 0, First(0, t, e), AppendReply(t, true, -1, -1)) in Last(w).net
    ensures OrderlyBut(x, odd) && Continues(w, x, 1) && Apart(Last(w), Last(x), 0, 0)
    ensures var p := Last(x).nodes[0].peer;
      p.me == 0 && p.currentTerm == t && p.role.Leader? && p.log == [SENTINEL, e] && Applied(p, e)
  {
    hide OrderlyBut, Median;
    Medians();
    assert [1, 0, 0, 1, 0][1 := 1] == [1, 1, 0, 1, 0];
    var q := Last(w).nodes[0].peer;
    DeliversOne(q.(nextIndex := q.nextIndex[1 := 2], matchIndex := [1, 1, 0, 1, 0], commitIndex := 1));
    x := Step(w, odd, AppendAnswer(AppRsp(1, 0, First(0, t, e), AppendReply(t, true, -1, -1))));
  }

  // The one entry is committed and applied.
  ghost predicate Applied(p: Peer, e: Entry) {
    p.commitIndex == 1 && p.applyCh == [ApplyMsg(1, e.command)]
  }

  // Its next heartbeat tells server 1, which applies the entry.
  lemma TellsOne(w: Walk, odd: int, t: nat, e: Entry) returns (x: Walk)
    requires OrderlyBut(w, odd) && |w.states| > 0 && Seat(Last(w), 1, t, Follower, [SENTINEL, e]) && e.term == t
    requires var p := Last(w).nodes[0].peer;
      p.me == 0 && p.currentTerm == t && p.role.Leader? && p.log == [SENTINEL, e] && Applied(p, e)
    ensures OrderlyBut(x, odd) && Continues(w, x, 2) && |Last(x).nodes| == 5
    ensures Last(x).nodes[0] == Last(w).nodes[0] && Applied(Last(x).nodes[1].peer, e)
  {
    hide OrderlyBut;
    var a := AppendArgs(t, 0, 1, t, [], 1);
    assert HeartbeatArgs(Last(w).nodes[0].peer) == a;
    var y := Step(w, odd, Heartbeat(0, 1));
    assert Last(y).nodes == Last(w).nodes;
    DeliversOne(Last(w).nodes[1].peer.(commitIndex := 1));
    x := Step(y, odd, Append(AppReq(0, 1, a)));
  }

  lemma DeliversOne(p: Peer)
    requires p.lastApplied == 0 && p.commitIndex == 1 && p.applyCh == [] && |p.log| > 1
    ensures Deliver(p) == p.(lastApplied := 1, applyCh := [ApplyMsg(1, p.log[1].command)])
  {
    var q := p.(lastApplied := 1, applyCh := [ApplyMsg(1, p.log[1].command)]);
    assert Deliver(q) == q;
  }

  // What a cluster is for: an orderly run in which a leader takes a command and it and a
  // follower apply it.
  lemma FollowerApplies(command: Command) returns (w: Walk)
    ensures OrderlyBut(w, -1) && |w.states| > 0 && |Last(w).nodes| == 5
    ensures Applied(Last(w).nodes[0].peer, Entry(1, command)) && Applied(Last(w).nodes[1].peer, Entry(1, command))
  {
    hide OrderlyBut, Seated, Applied;
    var l, e := [SENTINEL], Entry(1, command);
    w := Opens(-1);
    assert Seat(Last(w), 1, 0, Follower, l);
    w := Wins(w, -1, 0, 0, Follower, l, 3, 0, Follower, l, 4, 0, Follower, l);
    w := Takes(w, -1, 0, 1, command);
    assert [0, 0, 0, 0, 0][0 := 1] == [1, 0, 0, 0, 0];
    w := Delivers(w, -1, 0, 1, 1, e, 0);
    w := Delivers(w, -1, 0, 3, 1, e, 1);
    w := HearsOne(w, -1, 1, e);
    w := HearsTwo(w, -1, 1, e);
    w := TellsOne(w, -1, 1, e);
  }

  lemma Lengths(w: Walk, odd: int)
    requires OrderlyBut(w, odd)
    ensures |w.states| == |w.acts| + 1
  {
  }

  lemma LogIs(v: Node, s: nat, t: nat, role: Role, log: Log)
    requires Seated(v, s, t, role, log)
    ensures v.peer.currentTerm == t && v.peer.role == role && v.peer.log == log
  {
  }
}
