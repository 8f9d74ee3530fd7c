// Why the orderliness conditions are needed: for each, a run of three servers
// that breaks it in one step, keeps it in all others, and has two leaders in one
// term.
module RaftUnorderly {
  import opened RaftTypes
  import opened RaftPeer
  import opened RaftCluster

  datatype Walk = Walk(states: seq<Cluster>, acts: seq<Action>)

  ghost function Last(w: Walk): Cluster
    requires |w.states| > 0
  {
    w.states[|w.states| - 1]
  }

  // A run in which every step but the one at index odd is orderly.
  ghost predicate OrderlyBut(w: Walk, odd: int) {
    && IsRun(w.states, w.acts)
    && forall i :: 0 <= i < |w.acts| && i != odd ==> Orderly(w.states[i], w.acts[i])
  }

  // x goes on from w by k steps.
  ghost predicate Continues(w: Walk, x: Walk, k: nat) {
    w.states <= x.states && w.acts <= x.acts && |x.acts| == |w.acts| + k && |x.states| == |w.states| + k > k
  }

  lemma Step(w: Walk, odd: int, a: Action) returns (x: Walk)
    requires OrderlyBut(w, odd) && Enabled(Last(w), a) && (Orderly(Last(w), a) || odd == |w.acts|)
    ensures OrderlyBut(x, odd) && Continues(w, x, 1) && Last(x) == Next(Last(w), a) && x.acts[|w.acts|] == a
  {
    hide Enabled, Orderly, Next, Init;
    x := Walk(w.states + [Next(Last(w), a)], w.acts + [a]);
    forall i | 0 <= i < |x.acts| ensures Enabled(x.states[i], x.acts[i]) && x.states[i + 1] == Next(x.states[i], x.acts[i]) {
      if i == |w.acts| { assert x.states[i] == Last(w); }
    }
  }

  // A server with an empty log, in term t, having voted for v.
  function Idle(me: nat, t: nat, v: int, role: Role): Peer {
    Boot(me, 3, Stored(t, v, [SENTINEL])).(role := role)
  }

  function Ballot(s: nat, t: nat): VoteArgs { VoteArgs(t, s, 0, 0) }

  function Ask(s: nat, p: nat, t: nat): Message { VoteReq(s, p, t, Ballot(s, t)) }

  function Yes(s: nat, p: nat, t: nat): Message { VoteRsp(p, s, t, Ballot(s, t), VoteReply(t, true)) }

  lemma Begin(odd: int) returns (w: Walk)
    ensures OrderlyBut(w, odd) && |w.states| == 1 && |w.acts| == 0 && |Last(w).nodes| == 3
    ensures forall s: nat :: s < 3 ==> Last(w).nodes[s] == Node(Idle(s, 0, NOBODY, Follower), false, map[])
  {
    w := Walk([Cluster(seq(3, s requires s >= 0 => Node(Boot(s, 3, BLANK), false, map[])), {})], []);
  }

  // s times out and runs for term t + 1.
  lemma Runs(w: Walk, odd: int, s: nat, t: nat, v: int, role: Role) returns (x: Walk)
    requires OrderlyBut(w, odd) && |Last(w).nodes| == 3 && s < 3 && !role.Leader?
    requires Last(w).nodes[s].peer == Idle(s, t, v, role) && !Last(w).nodes[s].launching
    ensures OrderlyBut(x, odd) && Continues(w, x, 2)
    ensures Last(x) == Cluster(Last(w).nodes[s := Node(Idle(s, t + 1, s, Candidate), false,
                                 Last(w).nodes[s].elections[t + 1 := Election(Peers(3) - {s}, {}, 1, {s})])],
                               Last(w).net)
  {
    var y := Step(w, odd, Tick(s));
    x := Step(y, odd, Run(s));
    assert Last(x).net == Last(w).net;
  }

  // s asks p for its vote.
  lemma Sends(w: Walk, odd: int, s: nat, p: nat, t: nat, todo: set<nat>) returns (x: Walk)
    requires OrderlyBut(w, odd) && |Last(w).nodes| == 3 && s < 3 && p in todo
    requires Last(w).nodes[s].peer == Idle(s, t, s, Candidate)
    requires t in Last(w).nodes[s].elections && Last(w).nodes[s].elections[t] == Election(todo, {}, 1, {s})
    ensures OrderlyBut(x, odd) && Continues(w, x, 1)
    ensures Last(x) == Cluster(Last(w).nodes[s := Last(w).nodes[s].(elections :=
                                 Last(w).nodes[s].elections[t := Election(todo - {p}, {p}, 1, {s})])],
                               Last(w).net + {Ask(s, p, t)})
  {
    x := Step(w, odd, AskVote(s, t, p));
    assert {} + {p} == {p};
    assert Ask(s, p, t) == VoteReq(s, p, t, VoteRequest(Idle(s, t, s, Candidate)));
  }

  // p, which has not voted in s's term, grants it.
  lemma Grants(w: Walk, odd: int, s: nat, p: nat, t: nat, q: nat, v: int, role: Role) returns (x: Walk)
    requires OrderlyBut(w, odd) && |Last(w).nodes| == 3 && p < 3 && Ask(s, p, t) in Last(w).net
    requires Last(w).nodes[p].peer == Idle(p, q, v, role) && (q < t || (q == t && v == NOBODY))
    ensures OrderlyBut(x, odd) && Continues(w, x, 1)
    ensures Last(x) == Cluster(Last(w).nodes[p := Last(w).nodes[p].(peer := Idle(p, t, s, Follower))],
                               Last(w).net + {Yes(s, p, t)})
  {
    assert HandleVote(Idle(p, q, v, role), Ballot(s, t)) == (Idle(p, t, s, Follower), VoteReply(t, true));
    x := Step(w, odd, Vote(Ask(s, p, t)));
  }

  // s asks p, and p grants the vote, but s has not heard yet.
  lemma Asks(w: Walk, odd: int, s: nat, p: nat, t: nat, q: nat, v: int, role: Role, todo: set<nat>) returns (x: Walk)
    requires OrderlyBut(w, odd) && |Last(w).nodes| == 3 && s < 3 && p < 3 && s != p && p in todo
    requires Last(w).nodes[s].peer == Idle(s, t, s, Candidate)
    requires t in Last(w).nodes[s].elections && Last(w).nodes[s].elections[t] == Election(todo, {}, 1, {s})
    requires Last(w).nodes[p].peer == Idle(p, q, v, role) && (q < t || (q == t && v == NOBODY))
    ensures OrderlyBut(x, odd) && Continues(w, x, 2)
    ensures |Last(x).nodes| == 3 && Yes(s, p, t) in Last(x).net
    ensures Last(x).nodes[s] == Last(w).nodes[s].(elections :=
              Last(w).nodes[s].elections[t := Election(todo - {p}, {p}, 1, {s})])
    ensures Last(x).nodes[p] == Last(w).nodes[p].(peer := Idle(p, t, s, Follower))
    ensures forall o: nat :: o < 3 && o != s && o != p ==> Last(x).nodes[o] == Last(w).nodes[o]
  {
    hide OrderlyBut;
    var y := Sends(w, odd, s, p, t, todo);
    x := Grants(y, odd, s, p, t, q, v, role);
  }

  // s hears p's vote of term e while in term t, and becomes the leader of t.
  lemma Hears(w: Walk, odd: int, s: nat, p: nat, e: nat, t: nat, todo: set<nat>) returns (x: Walk)
    requires OrderlyBut(w, odd) && |Last(w).nodes| == 3 && s < 3 && s != p && (e == t || (e < t && odd == |w.acts|))
    requires Last(w).nodes[s].peer == Idle(s, t, s, Candidate)
    requires e in Last(w).nodes[s].elections && Last(w).nodes[s].elections[e] == Election(todo, {p}, 1, {s})
    requires Yes(s, p, e) in Last(w).net
    ensures OrderlyBut(x, odd) && Continues(w, x, 1) && x.acts[|w.acts|] == VoteAnswer(Yes(s, p, e))
    ensures |Last(x).nodes| == 3 && Last(x).net == Last(w).net
    ensures Last(x).nodes[s].peer == Idle(s, t, s, Leader) && Last(x).nodes[s].launching == Last(w).nodes[s].launching
    ensures forall o: nat :: o < 3 && o != s ==> Last(x).nodes[o] == Last(w).nodes[o]
  {
    x := Step(w, odd, VoteAnswer(Yes(s, p, e)));
    assert BecomeLeader(Idle(s, t, s, Candidate)) == Idle(s, t, s, Leader);
  }

  ghost predicate TwoLeaders(w: Walk, i: nat, s: nat, j: nat, t: nat) {
    && i < |w.states| && j < |w.states| && s < |w.states[i].nodes| && t < |w.states[j].nodes| && s != t
    && w.states[i].nodes[s].peer.role.Leader?
    && w.states[j].nodes[t].peer.role.Leader?
    && w.states[i].nodes[s].peer.currentTerm == w.states[j].nodes[t].peer.currentTerm
  }

  // A third server, 2, runs twice and wins term 2 with the vote of server 1.
  lemma ThirdWins(w: Walk, odd: int) returns (x: Walk)
    requires OrderlyBut(w, odd) && |Last(w).nodes| == 3
    requires Last(w).nodes[1].peer == Idle(1, 1, 0, Follower)
    requires Last(w).nodes[2] == Node(Idle(2, 0, NOBODY, Follower), false, map[])
    ensures OrderlyBut(x, odd) && Continues(w, x, 7)
    ensures |Last(x).nodes| == 3 && Last(x).nodes[2].peer == Idle(2, 2, 2, Leader)
  {
    hide OrderlyBut;
    x := Runs(w, odd, 2, 0, NOBODY, Follower);
    x := Runs(x, odd, 2, 1, 2, Candidate);
    x := Asks(x, odd, 2, 1, 2, 1, 0, Follower, Peers(3) - {2});
    x := Hears(x, odd, 2, 1, 2, 2, Peers(3) - {2} - {1});
  }

  // Server 0 runs and has server 1's vote of term 1 on its way.
  lemma FirstVote(odd: int) returns (w: Walk)
    ensures OrderlyBut(w, odd) && |w.acts| == 4 && |w.states| == 5 && |Last(w).nodes| == 3 && Yes(0, 1, 1) in Last(w).net
    ensures Last(w).nodes[0] == Node(Idle(0, 1, 0, Candidate), false, map[1 := Election(Peers(3) - {0} - {1}, {1}, 1, {0})])
    ensures Last(w).nodes[1] == Node(Idle(1, 1, 0, Follower), false, map[])
    ensures Last(w).nodes[2] == Node(Idle(2, 0, NOBODY, Follower), false, map[])
  {
    w := Begin(odd);
    hide OrderlyBut;
    w := Runs(w, odd, 0, 0, NOBODY, Follower);
    w := Asks(w, odd, 0, 1, 1, 0, NOBODY, Follower, Peers(3) - {0});
  }

  // The steps that break (a) and (c).
  lemma EntersAsLeader(w: Walk, s: nat, t: nat) returns (x: Walk)
    requires OrderlyBut(w, |w.acts|) && |Last(w).nodes| == 3 && s < 3
    requires Last(w).nodes[s].peer == Idle(s, t, s, Leader) && Last(w).nodes[s].launching
    ensures OrderlyBut(x, |w.acts|) && Continues(w, x, 1) && x.acts[|w.acts|] == Run(s)
    ensures |Last(x).nodes| == 3 && Last(x).nodes[s].peer == Idle(s, t + 1, s, Leader)
    ensures forall o: nat :: o < 3 && o != s ==> Last(x).nodes[o] == Last(w).nodes[o]
  {
    x := Step(w, |w.acts|, Run(s));
  }

  lemma GivesUp(w: Walk, s: nat, t: nat) returns (x: Walk)
    requires OrderlyBut(w, |w.acts|) && |Last(w).nodes| == 3 && s < 3
    requires Last(w).nodes[s].peer == Idle(s, t, s, Leader)
    ensures OrderlyBut(x, |w.acts|) && Continues(w, x, 1) && x.acts[|w.acts|] == LoseQuorum(s)
    ensures |Last(x).nodes| == 3 && Last(x).nodes[s].peer == Idle(s, t, NOBODY, Follower)
    ensures forall o: nat :: o < 3 && o != s ==> Last(x).nodes[o] == Last(w).nodes[o]
  {
    x := Step(w, |w.acts|, LoseQuorum(s));
  }

  // s decides to run once more.
  lemma TimesOut(w: Walk, odd: int, s: nat) returns (x: Walk)
    requires OrderlyBut(w, odd) && |Last(w).nodes| == 3 && s < 3
    requires Last(w).nodes[s].peer.role.Candidate? && !Last(w).nodes[s].launching
    ensures OrderlyBut(x, odd) && Continues(w, x, 1)
    ensures Last(x) == Cluster(Last(w).nodes[s := Last(w).nodes[s].(launching := true)], Last(w).net)
  {
    x := Step(w, odd, Tick(s));
    assert TimeOut(Last(w).nodes[s].peer) == Last(w).nodes[s].peer;
    assert Last(x).net == Last(w).net;
  }

  // (a) A timeout's decision outlives the election that made the server leader:
  // it enters the next term still as leader, with no vote but its own.
  lemma StaleDecisionElectsTwo() returns (w: Walk, odd: nat, i: nat)
    ensures OrderlyBut(w, odd) && odd < |w.acts| && w.acts[odd].Run?
    ensures i < |w.states| && TwoLeaders(w, i, 0, |w.states| - 1, 2)
  {
    hide OrderlyBut;
    odd := 6;
    w := FirstVote(odd);
    w := TimesOut(w, odd, 0);
    w := Hears(w, odd, 0, 1, 1, 1, Peers(3) - {0} - {1});
    var y := EntersAsLeader(w, 0, 1);
    i := |y.states| - 1;
    w := ThirdWins(y, odd);
    assert w.acts[odd] == y.acts[odd] && w.states[i] == y.states[i];
  }

  // (b) A vote granted in one term is counted in the next.
  lemma StaleVoteElectsTwo() returns (w: Walk, odd: nat, i: nat)
    ensures OrderlyBut(w, odd) && odd < |w.acts| && w.acts[odd].VoteAnswer?
    ensures i < |w.states| && TwoLeaders(w, i, 0, |w.states| - 1, 2)
  {
    hide OrderlyBut;
    odd := 6;
    w := FirstVote(odd);
    w := Runs(w, odd, 0, 1, 0, Candidate);
    var y := Hears(w, odd, 0, 1, 1, 2, Peers(3) - {0} - {1});
    i := |y.states| - 1;
    w := ThirdWins(y, odd);
    assert w.acts[odd] == y.acts[odd] && w.states[i] == y.states[i];
  }

  // (c) A leader that gives up clears its vote and can vote again in its own term.
  lemma QuorumLossElectsTwo() returns (w: Walk, odd: nat, i: nat)
    ensures OrderlyBut(w, odd) && odd < |w.acts| && w.acts[odd].LoseQuorum?
    ensures i < |w.states| && TwoLeaders(w, i, 0, |w.states| - 1, 2)
  {
    hide OrderlyBut;
    odd := 5;
    w := FirstVote(odd);
    w := Hears(w, odd, 0, 1, 1, 1, Peers(3) - {0} - {1});
    i := |w.states| - 1;
    var y := GivesUp(w, 0, 1);
    assert y.states[i] == Last(w);
    w := Runs(y, odd, 2, 0, NOBODY, Follower);
    w := Asks(w, odd, 2, 0, 1, 1, NOBODY, Follower, Peers(3) - {2});
    w := Hears(w, odd, 2, 0, 1, 1, Peers(3) - {2} - {0});
    assert w.acts[odd] == y.acts[odd] && w.states[i] == y.states[i];
  }
}
