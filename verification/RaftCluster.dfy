// A cluster of Raft servers and its network, one step per lock region
// (raft/raft.go). Messages once sent stay available, so they may be lost,
// duplicated and reordered at will.
module RaftCluster {
  import opened RaftTypes
  import opened RaftPeer

  // One call of launch_election: which peers still have to be asked, which calls
  // are out, and the votes counted. voters records whose votes those were.
  datatype Election = Election(todo: set<nat>, waiting: set<nat>, nvotes: nat, voters: set<nat>)

  // A server with its goroutines: launching is the ticker between its decision
  // and launch_election; elections are keyed by the term each launched.
  datatype Node = Node(peer: Peer, launching: bool, elections: map<nat, Election>)

  datatype Message =
    | VoteReq(from: nat, to: nat, election: nat, vote: VoteArgs)
    | VoteRsp(from: nat, to: nat, election: nat, vote: VoteArgs, voteReply: VoteReply)
    | AppReq(from: nat, to: nat, app: AppendArgs)
    | AppRsp(from: nat, to: nat, app: AppendArgs, appReply: AppendReply)

  datatype Cluster = Cluster(nodes: seq<Node>, net: set<Message>)

  datatype Action =
    | Tick(s: nat)                                // an election timeout fires
    | LoseQuorum(s: nat)                          // a leader gives up (raft.go:799)
    | Run(s: nat)                                 // launch_election's first region
    | AskVote(s: nat, election: nat, peer: nat)   // build one vote request
    | Vote(m: Message)                            // handle a vote request
    | VoteAnswer(m: Message)                      // handle its reply
    | Submit(s: nat, command: Command)            // Start
    | Replicate(s: nat, peer: nat)                // build an append request
    | Heartbeat(s: nat, peer: nat)                // build a heartbeat
    | Append(m: Message)                          // handle either
    | AppendAnswer(m: Message)                    // handle a replication reply
    | HeartbeatAnswer(m: Message)                 // handle a heartbeat reply
    | Crash(s: nat)                               // die and restart from the persister
    | CrashAdopting(m: Message)                   // die once a message's term is persisted
    | CrashMerging(m: Message, k: nat)            // die with k entries of a request merged

  predicate Enabled(c: Cluster, a: Action) {
    var n := |c.nodes|;
    match a
    case Tick(s) => s < n && !c.nodes[s].peer.role.Leader? && !c.nodes[s].launching
    case LoseQuorum(s) => s < n && c.nodes[s].peer.role.Leader?
    case Run(s) => s < n && c.nodes[s].launching
    case AskVote(s, e, p) => s < n && e in c.nodes[s].elections && p in c.nodes[s].elections[e].todo
    case Vote(m) => m in c.net && m.VoteReq? && m.to < n && |c.nodes[m.to].peer.log| > 0
    case VoteAnswer(m) => m in c.net && m.VoteRsp? && m.to < n && m.election in c.nodes[m.to].elections
      && m.from in c.nodes[m.to].elections[m.election].waiting
    case Submit(s, _) => s < n && c.nodes[s].peer.me < |c.nodes[s].peer.nextIndex| == |c.nodes[s].peer.matchIndex|
    case Replicate(s, p) => s < n && p < n && p != s && HasNews(c.nodes[s].peer, p)
    case Heartbeat(s, p) => s < n && p < n && p != s && c.nodes[s].peer.role.Leader? && |c.nodes[s].peer.log| > 0
    case Append(m) => m in c.net && m.AppReq? && m.to < n
    case AppendAnswer(m) => m in c.net && m.AppRsp? && m.to < n
      && m.from < |c.nodes[m.to].peer.nextIndex| == |c.nodes[m.to].peer.matchIndex|
    case HeartbeatAnswer(m) => m in c.net && m.AppRsp? && m.to < n
    case Crash(s) => s < n
    case CrashAdopting(m) => m in c.net && m.to < n
    case CrashMerging(m, k) => m in c.net && m.AppReq? && m.to < n && k <= |m.app.entries|
  }

  // The term a server compares with its own on receiving m.
  function TermOf(m: Message): nat {
    match m
    case VoteReq(_, _, _, vote) => vote.term
    case VoteRsp(_, _, _, _, reply) => reply.term
    case AppReq(_, _, app) => app.term
    case AppRsp(_, _, _, reply) => reply.term
  }

  // A server that has adopted term t, if higher than its own, and done no more.
  function Adopt(p: Peer, t: nat): Peer {
    if t > p.currentTerm then StepDown(p, t) else p
  }

  function Reboot(v: Node, s: nat, n: nat): Node {
    Node(Boot(s, n, v.peer.stored), false, map[])
  }

  function Peers(n: nat): (r: set<nat>)
    ensures forall q: nat :: q in r <==> q < n
  {
    if n == 0 then {} else Peers(n - 1) + {n - 1}
  }

  // The server whose lock an action takes.
  function Actor(a: Action): nat {
    match a
    case Tick(s) => s
    case LoseQuorum(s) => s
    case Run(s) => s
    case AskVote(s, _, _) => s
    case Vote(m) => m.to
    case VoteAnswer(m) => m.to
    case Submit(s, _) => s
    case Replicate(s, _) => s
    case Heartbeat(s, _) => s
    case Append(m) => m.to
    case AppendAnswer(m) => m.to
    case HeartbeatAnswer(m) => m.to
    case Crash(s) => s
    case CrashAdopting(m) => m.to
    case CrashMerging(m, _) => m.to
  }

  // launch_election begins: ask everyone else, with one's own vote counted.
  function RunNode(v: Node, s: nat, n: nat): Node {
    var p := Launch(v.peer);
    Node(p, false, v.elections[p.currentTerm := Election(Peers(n) - {s}, {}, 1, {s})])
  }

  function AskNode(v: Node, e: nat, p: nat): Node
    requires e in v.elections
  {
    var x := v.elections[e];
    v.(elections := v.elections[e := x.(todo := x.todo - {p}, waiting := x.waiting + {p})])
  }

  function AnswerNode(v: Node, e: nat, from: nat, r: VoteReply): Node
    requires e in v.elections
  {
    var x := v.elections[e];
    var (p, k) := HandleVoteReply(v.peer, x.nvotes, r);
    var y := x.(waiting := x.waiting - {from}, nvotes := k,
                voters := if k > x.nvotes then x.voters + {from} else x.voters);
    v.(peer := p, elections := v.elections[e := y])
  }

  function AppendAnswerNode(v: Node, s: nat, n: nat, from: nat, a: AppendArgs, r: AppendReply): Node
    requires from < |v.peer.nextIndex| == |v.peer.matchIndex|
  {
    match HandleAppendReply(v.peer, from, a, r)
    case Done(p) => v.(peer := p)
    case Panic => Reboot(v, s, n)
  }

  // The acting server after the action.
  function NodeNext(c: Cluster, a: Action): Node
    requires Enabled(c, a)
  {
    var v := c.nodes[Actor(a)];
    match a
    case Tick(s) => v.(peer := TimeOut(v.peer), launching := true)
    case LoseQuorum(s) => v.(peer := QuorumLoss(v.peer))
    case Run(s) => RunNode(v, s, |c.nodes|)
    case AskVote(s, e, p) => AskNode(v, e, p)
    case Vote(m) => v.(peer := HandleVote(v.peer, m.vote).0)
    case VoteAnswer(m) => AnswerNode(v, m.election, m.from, m.voteReply)
    case Submit(s, command) => v.(peer := StartCommand(v.peer, command))
    case Replicate(s, p) => v
    case Heartbeat(s, p) => v
    case Append(m) => v.(peer := HandleAppend(v.peer, m.app).0)
    case AppendAnswer(m) => AppendAnswerNode(v, m.to, |c.nodes|, m.from, m.app, m.appReply)
    case HeartbeatAnswer(m) => v.(peer := HandleHeartbeatReply(v.peer, m.appReply))
    case Crash(s) => Reboot(v, s, |c.nodes|)
    case CrashAdopting(m) => Reboot(v.(peer := Adopt(v.peer, TermOf(m))), m.to, |c.nodes|)
    case CrashMerging(m, k) => Reboot(v.(peer := HandleAppend(v.peer, Partly(m.app, k)).0), m.to, |c.nodes|)
  }

  // The message it sends, if any.
  function Sent(c: Cluster, a: Action): set<Message>
    requires Enabled(c, a)
  {
    var p := c.nodes[Actor(a)].peer;
    match a
    case AskVote(s, e, q) => {VoteReq(s, q, e, VoteRequest(p))}
    case Vote(m) => {VoteRsp(m.to, m.from, m.election, m.vote, HandleVote(p, m.vote).1)}
    case Replicate(s, q) => {AppReq(s, q, ReplicateArgs(p, q))}
    case Heartbeat(s, q) => {AppReq(s, q, HeartbeatArgs(p))}
    case Append(m) => {AppRsp(m.to, m.from, m.app, HandleAppend(p, m.app).1)}
    case _ => {}
  }

  function Next(c: Cluster, a: Action): Cluster
    requires Enabled(c, a)
  {
    Cluster(c.nodes[Actor(a) := NodeNext(c, a)], c.net + Sent(c, a))
  }

  ghost predicate Init(c: Cluster) {
    && c.net == {}
    && forall s :: 0 <= s < |c.nodes| ==> c.nodes[s] == Node(Boot(s, |c.nodes|, BLANK), false, map[])
  }

  // A run: consecutive states joined by enabled actions.
  ghost predicate IsRun(states: seq<Cluster>, acts: seq<Action>) {
    && |states| == |acts| + 1
    && Init(states[0])
    && forall i :: 0 <= i < |acts| ==> Enabled(states[i], acts[i]) && states[i + 1] == Next(states[i], acts[i])
  }

  // ---------- Every run ----------

  ghost predicate SoundCluster(c: Cluster) {
    && (forall s :: 0 <= s < |c.nodes| ==> Sound(c.nodes[s].peer, |c.nodes|) && c.nodes[s].peer.me == s)
    && (forall m :: m in c.net && m.AppReq? ==> SoundAppend(m.app))
  }

  lemma SoundNode(c: Cluster, a: Action)
    requires SoundCluster(c) && Enabled(c, a)
    ensures var p, q := c.nodes[Actor(a)].peer, NodeNext(c, a).peer;
      Sound(q, |c.nodes|) && q.me == Actor(a) && p.currentTerm <= q.currentTerm
  {
    hide Sound, SoundAppend, HandleVote, HandleAppend, HandleVoteReply, HandleAppendReply, HandleHeartbeatReply;
    hide TimeOut, Launch, QuorumLoss, StartCommand, Adopt;
    var n, p := |c.nodes|, c.nodes[Actor(a)].peer;
    match a {
      case Tick(s) => ElectionSound(p, 0, VoteReply(0, false), n);
      case LoseQuorum(s) => ElectionSound(p, 0, VoteReply(0, false), n);
      case Run(s) => ElectionSound(p, 0, VoteReply(0, false), n);
      case AskVote(s, e, q) =>
      case Vote(m) => HandleVoteSound(p, m.vote, n);
      case VoteAnswer(m) => ElectionSound(p, c.nodes[m.to].elections[m.election].nvotes, m.voteReply, n);
      case Submit(s, command) => StartSound(p, command, n);
      case Replicate(s, q) =>
      case Heartbeat(s, q) =>
      case Append(m) => HandleAppendSound(p, m.app, n);
      case AppendAnswer(m) =>
        SoundIndices(p, n);
        HandleAppendReplySound(p, m.from, m.app, m.appReply, n);
        RebootSound(p, n);
      case HeartbeatAnswer(m) => StepDownSound(p, m.appReply, n);
      case Crash(s) => RebootSound(p, n);
      case CrashAdopting(m) =>
        AdoptSound(p, TermOf(m), n);
        RebootSound(Adopt(p, TermOf(m)), n);
      case CrashMerging(m, k) =>
        PartlySound(m.app, k);
        HandleAppendSound(p, Partly(m.app, k), n);
        RebootSound(HandleAppend(p, Partly(m.app, k)).0, n);
    }
  }

  lemma SoundStep(c: Cluster, a: Action)
    requires SoundCluster(c) && Enabled(c, a)
    ensures SoundCluster(Next(c, a))
    ensures forall s :: 0 <= s < |c.nodes| ==>
      c.nodes[s].peer.currentTerm <= Next(c, a).nodes[s].peer.currentTerm
  {
    hide Sound, SoundAppend, NodeNext;
    SoundNode(c, a);
    if a.Replicate? { RequestsSound(c.nodes[a.s].peer, a.peer, |c.nodes|); }
    if a.Heartbeat? { RequestsSound(c.nodes[a.s].peer, a.peer, |c.nodes|); }
  }

  lemma SoundIndices(p: Peer, n: nat)
    requires Sound(p, n)
    ensures |p.nextIndex| == n
  {
  }

  lemma StepDownSound(p: Peer, r: AppendReply, n: nat)
    requires Sound(p, n)
    ensures Sound(HandleHeartbeatReply(p, r), n) && p.currentTerm <= HandleHeartbeatReply(p, r).currentTerm
    ensures HandleHeartbeatReply(p, r).me == p.me
  {
  }

  lemma AdoptSound(p: Peer, t: nat, n: nat)
    requires Sound(p, n)
    ensures Sound(Adopt(p, t), n) && p.currentTerm <= Adopt(p, t).currentTerm && Adopt(p, t).me == p.me
  {
  }

  // A crash brings back exactly the persisted term, vote and log.
  lemma RebootSound(p: Peer, n: nat)
    requires Sound(p, n)
    ensures var q := Boot(p.me, n, p.stored);
      Sound(q, n) && q.currentTerm == p.currentTerm && q.votedFor == p.votedFor && q.log == p.log
  {
  }

  lemma InitSound(c: Cluster)
    requires Init(c)
    ensures SoundCluster(c)
  {
    forall s | 0 <= s < |c.nodes| ensures Sound(c.nodes[s].peer, |c.nodes|) {
      BootSound(s, |c.nodes|, BLANK);
    }
  }

  // In every run, orderly or not: each log starts with the sentinel and has
  // non-decreasing terms bounded by the server's term, what is persisted is what
  // the server holds, and delivered commands are numbered 1, 2, 3, ...
  lemma {:induction false} EveryRunSound(states: seq<Cluster>, acts: seq<Action>, i: nat)
    requires IsRun(states, acts) && i < |states|
    ensures SoundCluster(states[i]) && |states[i].nodes| == |states[0].nodes|
  {
    if i == 0 {
      InitSound(states[0]);
    } else {
      EveryRunSound(states, acts, i - 1);
      SoundStep(states[i - 1], acts[i - 1]);
    }
  }

  // In every run a server's term never decreases, across crashes too.
  lemma {:induction false} EveryRunTerms(states: seq<Cluster>, acts: seq<Action>, i: nat, j: nat, s: nat)
    requires IsRun(states, acts) && i <= j < |states| && s < |states[0].nodes|
    ensures |states[i].nodes| == |states[j].nodes| == |states[0].nodes|
    ensures states[i].nodes[s].peer.currentTerm <= states[j].nodes[s].peer.currentTerm
    decreases j - i
  {
    EveryRunSound(states, acts, i);
    if i < j {
      EveryRunTerms(states, acts, i, j - 1, s);
      EveryRunSound(states, acts, j - 1);
      SoundStep(states[j - 1], acts[j - 1]);
      EveryRunSound(states, acts, j);
    }
  }

  // ---------- Orderly runs ----------

  // What the code leaves unchecked: (a) a timeout's decision still stands when the
  // election is launched and its requests are built, (b) a granted vote or a
  // successful append is counted only while its sender is still in the term and
  // role it asked in, and (c) a leader does not abandon its vote inside a term.
  predicate Orderly(c: Cluster, a: Action)
    requires Enabled(c, a)
  {
    match a
    case LoseQuorum(s) => false
    case Run(s) => c.nodes[s].peer.role.Candidate?
    case AskVote(s, e, p) => c.nodes[s].peer.currentTerm == e && c.nodes[s].peer.role.Candidate?
    case VoteAnswer(m) =>
      var p := c.nodes[m.to].peer;
      m.voteReply.term > p.currentTerm || !m.voteReply.granted
      || (p.currentTerm == m.vote.term && !p.role.Follower?)
    case AppendAnswer(m) =>
      var p := c.nodes[m.to].peer;
      m.appReply.term > p.currentTerm || !m.appReply.success
      || (p.currentTerm == m.app.term && p.role.Leader?)
    case _ => true
  }

  ghost predicate OrderlyRun(states: seq<Cluster>, acts: seq<Action>) {
    IsRun(states, acts) && forall i :: 0 <= i < |acts| ==> Orderly(states[i], acts[i])
  }
}
