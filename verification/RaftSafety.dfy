// The Raft safety theorems over every orderly run, with any number of servers,
// crashes, and lost, repeated or reordered messages.
module RaftSafety {
  import opened RaftTypes
  import opened RaftPeer
  import opened RaftCore
  import opened RaftCluster
  import opened RaftLink
  import opened RaftSteps
  import opened RaftAppend
  import RaftStale

  lemma OrderlyStep(c: Cluster, a: Action, k: Core) returns (d: Core)
    requires CoreInv(k) && Linked(c, k) && SoundCluster(c) && Enabled(c, a) && Orderly(c, a)
    ensures CoreInv(d) && Grows(k, d) && Linked(Next(c, a), d)
  {
    hide CoreInv, Linked, SoundCluster, Grows, Next;
    d := k;
    GrowsSelf(k);
    match a {
      case Tick(_) => TickStep(c, a, k);
      case LoseQuorum(_) => assert false;
      case Run(_) => d := RunStep(c, a, k);
      case AskVote(_, _, _) => AskStep(c, a, k);
      case Vote(_) => d := VoteStep(c, a, k);
      case VoteAnswer(_) => d := VoteAnswerStep(c, a, k);
      case Submit(_, _) => d := SubmitStep(c, a, k);
      case Replicate(_, _) => ReplicateStep(c, a, k);
      case Heartbeat(_, _) => HeartbeatStep(c, a, k);
      case Append(_) => d := AppendStep(c, a, k);
      case AppendAnswer(_) => d := AppendAnswerStep(c, a, k);
      case HeartbeatAnswer(_) => d := HeartbeatAnswerStep(c, a, k);
      case Crash(_) => CrashStep(c, a, k);
      case CrashAdopting(_) => d := CrashAdoptingStep(c, a, k);
      case CrashMerging(_, _) => d := CrashMergingStep(c, a, k);
    }
  }

  ghost function Genesis(n: nat): Core {
    Core(seq(n, _ => Member(0, [SENTINEL], map[], map[], map[])), map[])
  }

  lemma GenesisLinked(c: Cluster)
    requires Init(c)
    ensures CoreInv(Genesis(|c.nodes|)) && Linked(c, Genesis(|c.nodes|))
  {
    var k := Genesis(|c.nodes|);
    forall s | 0 <= s < |c.nodes| ensures NodeOk(c.nodes[s], k, s) {
      assert c.nodes[s] == Node(Boot(s, |c.nodes|, BLANK), false, map[]);
    }
    assert CoreInv(k);
  }

  // The history along an orderly run.
  ghost predicate Explains(states: seq<Cluster>, ks: seq<Core>) {
    && |ks| <= |states|
    && (forall i :: 0 <= i < |ks| ==> CoreInv(ks[i]) && Linked(states[i], ks[i]))
    && (forall i, j :: 0 <= i <= j < |ks| ==> Grows(ks[i], ks[j]))
  }

  lemma Extend(states: seq<Cluster>, ks: seq<Core>, d: Core)
    requires Explains(states, ks) && 0 < |ks| < |states|
    requires CoreInv(d) && Linked(states[|ks|], d) && Grows(ks[|ks| - 1], d)
    ensures Explains(states, ks + [d])
  {
    hide CoreInv, Linked, Grows;
    var ls := ks + [d];
    GrowsSelf(d);
    forall a, b | 0 <= a <= b < |ls| ensures Grows(ls[a], ls[b]) {
      if a < b == |ks| { GrowsTransitive(ks[a], ks[|ks| - 1], d); }
    }
  }

  lemma {:induction false} History(states: seq<Cluster>, acts: seq<Action>, i: nat) returns (ks: seq<Core>)
    requires OrderlyRun(states, acts) && i < |states|
    ensures |ks| == i + 1 && Explains(states, ks)
  {
    hide CoreInv, Linked, SoundCluster, Grows, Next, Enabled, Orderly;
    if i == 0 {
      GenesisLinked(states[0]);
      ks := [Genesis(|states[0].nodes|)];
      GrowsSelf(ks[0]);
    } else {
      var prior := History(states, acts, i - 1);
      EveryRunSound(states, acts, i - 1);
      var d := OrderlyStep(states[i - 1], acts[i - 1], prior[i - 1]);
      Extend(states, prior, d);
      ks := prior + [d];
    }
  }

  // No orderly run reaches the panic of UpdateCommitIndex.
  lemma OrderlyNeverPanics(states: seq<Cluster>, acts: seq<Action>, i: nat)
    requires OrderlyRun(states, acts) && i < |acts| && acts[i].AppendAnswer?
    ensures var m, p := acts[i].m, states[i].nodes[acts[i].m.to].peer;
      HandleAppendReply(p, m.from, m.app, m.appReply).Done?
  {
    hide CoreInv, Linked, SoundCluster, Grows, Next, HandleAppendReply;
    var ks := History(states, acts, i);
    EveryRunSound(states, acts, i);
    var d := AppendAnswerStep(states[i], acts[i], ks[i]);
  }

  // A history long enough for two points of the run.
  lemma HistoryOf(states: seq<Cluster>, acts: seq<Action>, i: nat, j: nat) returns (a: Core, b: Core)
    requires OrderlyRun(states, acts) && i <= j < |states|
    ensures CoreInv(a) && Linked(states[i], a) && CoreInv(b) && Linked(states[j], b) && Grows(a, b)
  {
    var ks := History(states, acts, j);
    a, b := ks[i], ks[j];
  }

  // Election Safety: at most one server ever leads a term.
  lemma ElectionSafety(states: seq<Cluster>, acts: seq<Action>, i: nat, j: nat, s: nat, t: nat)
    requires OrderlyRun(states, acts) && i <= j < |states|
    requires s < |states[i].nodes| && t < |states[j].nodes|
    requires states[i].nodes[s].peer.role.Leader? && states[j].nodes[t].peer.role.Leader?
    requires states[i].nodes[s].peer.currentTerm == states[j].nodes[t].peer.currentTerm
    ensures s == t
  {
    var a, b := HistoryOf(states, acts, i, j);
    assert NodeOk(states[i].nodes[s], a, s) && NodeOk(states[j].nodes[t], b, t);
  }

  // Log Matching: logs that agree on the term at an index agree up to it, at any
  // two points of the run.
  lemma LogMatching(states: seq<Cluster>, acts: seq<Action>, i: nat, j: nat, s: nat, t: nat, x: nat)
    requires OrderlyRun(states, acts) && i <= j < |states|
    requires s < |states[i].nodes| && t < |states[j].nodes|
    requires x < |states[i].nodes[s].peer.log| && x < |states[j].nodes[t].peer.log|
    requires states[i].nodes[s].peer.log[x].term == states[j].nodes[t].peer.log[x].term
    ensures states[i].nodes[s].peer.log[..x + 1] == states[j].nodes[t].peer.log[..x + 1]
  {
    var a, b := HistoryOf(states, acts, i, j);
    assert NodeOk(states[i].nodes[s], a, s) && NodeOk(states[j].nodes[t], b, t);
    Grounds(a, s);
    Grounds(b, t);
    hide CoreInv, Linked, NodeOk, Grounded;
    var l, m := states[i].nodes[s].peer.log, states[j].nodes[t].peer.log;
    GroundedGrows(a.reign, b.reign, l);
    Matching(b.reign, l, m, x);
  }

  lemma Grounds(k: Core, s: nat)
    requires CoreInv(k) && s < |k.m|
    ensures Grounded(k.reign, k.m[s].log) && 0 !in k.reign
  {
    assert 0 !in k.reign;
  }

  // What a server has applied is durable, and stays so.
  lemma AppliedDurable(c: Cluster, k: Core, d: Core, s: nat)
    requires Linked(c, k) && Grows(k, d) && s < |c.nodes| && c.nodes[s].peer.commitIndex > 0
    ensures var p := c.nodes[s].peer;
      p.commitIndex < |p.log| && Durable(d, p.log[..p.commitIndex + 1], p.currentTerm)
  {
    var p := c.nodes[s].peer;
    assert NodeOk(c.nodes[s], k, s);
    DurableGrows(k, d, p.log[..p.commitIndex + 1], p.currentTerm, p.currentTerm);
  }

  // Leader Completeness: once any server knows a prefix of its log to be
  // committed, every leader of that term or a later one holds that prefix.
  lemma CommittedStays(states: seq<Cluster>, acts: seq<Action>, i: nat, j: nat, s: nat, t: nat)
    requires OrderlyRun(states, acts) && i <= j < |states|
    requires s < |states[i].nodes| && t < |states[j].nodes|
    requires states[j].nodes[t].peer.role.Leader?
    requires states[i].nodes[s].peer.currentTerm <= states[j].nodes[t].peer.currentTerm
    ensures var p := states[i].nodes[s].peer;
      p.commitIndex < |p.log| && p.log[..p.commitIndex + 1] <= states[j].nodes[t].peer.log
  {
    hide CoreInv, Linked, NodeOk, Grows, CommitOk, Complete;
    var a, b := HistoryOf(states, acts, i, j);
    NodeIn(states[i], a, s);
    NodeIn(states[j], b, t);
    LeaderHolds(states[j].nodes[t], b, t);
    IsComplete(b);
    SentinelFirst(a, s, b, states[j].nodes[t].peer.currentTerm);
    CommittedHeld(states[i].nodes[s].peer, a, b, states[j].nodes[t].peer.currentTerm);
  }

  lemma NodeIn(c: Cluster, k: Core, s: nat)
    requires Linked(c, k) && s < |c.nodes|
    ensures NodeOk(c.nodes[s], k, s) && s < |k.m|
    ensures k.m[s].log == c.nodes[s].peer.log && CommitOk(c.nodes[s].peer, k)
  {
  }

  lemma CommittedHeld(p: Peer, a: Core, b: Core, u: nat)
    requires CommitOk(p, a) && Complete(b) && Grows(a, b) && u in b.reign && p.currentTerm <= u
    requires |p.log| > 0 && |b.reign[u].log| > 0 && p.log[0] == b.reign[u].log[0]
    ensures p.commitIndex < |p.log| && p.log[..p.commitIndex + 1] <= b.reign[u].log
  {
    hide Grows, Complete;
    if p.commitIndex > 0 {
      var l := p.log[..p.commitIndex + 1];
      DurableGrows(a, b, l, p.currentTerm, p.currentTerm);
      DurableLed(b, l, p.currentTerm, u);
    }
  }

  lemma IsComplete(k: Core)
    requires CoreInv(k)
    ensures Complete(k)
  {
    LeaderCompleteness(k);
  }

  lemma SentinelFirst(a: Core, s: nat, b: Core, u: nat)
    requires CoreInv(a) && s < |a.m| && CoreInv(b) && u in b.reign
    ensures |a.m[s].log| > 0 && |b.reign[u].log| > 0 && a.m[s].log[0] == b.reign[u].log[0]
  {
    assert ReignOk(b, u);
  }

  lemma LeaderHolds(v: Node, k: Core, s: nat)
    requires CoreInv(k) && NodeOk(v, k, s) && v.peer.role.Leader?
    ensures v.peer.currentTerm in k.reign && k.reign[v.peer.currentTerm].log == v.peer.log
  {
    assert ReignOk(k, v.peer.currentTerm);
  }

  // State Machine Safety: no two servers ever apply different commands at the
  // same index, however often they crash in between.
  lemma StateMachineSafety(states: seq<Cluster>, acts: seq<Action>, i: nat, j: nat, s: nat, t: nat, x: nat)
    requires OrderlyRun(states, acts) && i <= j < |states|
    requires s < |states[i].nodes| && t < |states[j].nodes|
    requires x < |states[i].nodes[s].peer.applyCh| && x < |states[j].nodes[t].peer.applyCh|
    ensures states[i].nodes[s].peer.applyCh[x] == states[j].nodes[t].peer.applyCh[x]
  {
    EveryRunSound(states, acts, i);
    EveryRunSound(states, acts, j);
    var p, q := states[i].nodes[s].peer, states[j].nodes[t].peer;
    assert p.applyCh[x].index == x + 1 == q.applyCh[x].index;
    hide SoundCluster;
    var a, b := HistoryOf(states, acts, i, j);
    assert NodeOk(states[i].nodes[s], a, s) && NodeOk(states[j].nodes[t], b, t);
    AppliedDurable(states[i], a, b, s);
    GrowsSelf(b);
    AppliedDurable(states[j], b, b, t);
    LeaderCompleteness(b);
    assert p.applyCh[x].command == p.log[x + 1].command && q.applyCh[x].command == q.log[x + 1].command;
    hide CoreInv, Linked, NodeOk;
    DurableAgree(b, p.log[..p.commitIndex + 1], q.log[..q.commitIndex + 1], p.currentTerm, q.currentTerm, x + 1);
  }

  // The history invariant is about something: a run of five servers in which four terms
  // are led, entries are appended, acknowledged, counted and cut, and a server crashes.
  lemma RunExplained() returns (states: seq<Cluster>, acts: seq<Action>, ks: seq<Core>)
    ensures OrderlyRun(states, acts) && |acts| == 49 && |ks| == |states| == 50 && Explains(states, ks)
    ensures |states[49].nodes| == 5 && states[49].nodes[0].peer.currentTerm == 4 && states[49].nodes[0].peer.log == [SENTINEL]
  {
    hide Explains, Enabled, Orderly, Next, Init;
    var w := RaftStale.Unseats(-1, Entry(1, Command(0)), Entry(2, Command(1)), Entry(3, Command(2)));
    RaftStale.Lengths(w, -1);
    RaftStale.LogIs(w.states[49].nodes[0], 0, 4, Follower, [SENTINEL]);
    states, acts := w.states, w.acts;
    ks := History(states, acts, 49);
  }
}
