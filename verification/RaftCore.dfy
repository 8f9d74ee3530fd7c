// The history behind a Raft cluster: what every server's term and log are now,
// together with what the protocol must never forget -- each term's leader log,
// the votes cast, and how far each server acknowledged each leader's log.
// CoreInv is what every move of the protocol keeps.
module RaftCore {
  import opened RaftTypes

  // A vote, with the voter's log when it was cast.
  datatype Vote = Vote(candidate: nat, voterLog: Log)

  datatype Member = Member(
    term: nat,                // current term
    log: Log,                 // current log
    launch: map<nat, Log>,    // per term it ran in: its log when it ran
    vote: map<nat, Vote>,     // per term it voted in
    ack: map<nat, nat>)       // per term: last index acknowledged to its leader

  // A term that has a leader: who, its log, and whose votes elected it.
  datatype Reign = Reign(leader: nat, log: Log, electors: set<nat>)

  datatype Core = Core(m: seq<Member>, reign: map<nat, Reign>)

  // Every entry of l after the sentinel ends a prefix of its own term's leader log.
  ghost predicate Grounded(reign: map<nat, Reign>, l: Log) {
    && |l| >= 1
    && l[0] == SENTINEL
    && forall i :: 1 <= i < |l| ==> l[i].term in reign && Has(l, reign[l[i].term].log, i)
  }

  ghost predicate TermsBelow(l: Log, t: nat) {
    forall i :: 0 <= i < |l| ==> l[i].term < t
  }

  // Server v acknowledged index i of leader t's log, and t itself created that entry.
  ghost predicate Acked(c: Core, t: nat, v: nat, i: nat) {
    && t in c.reign
    && v < |c.m|
    && t in c.m[v].ack
    && i <= c.m[v].ack[t]
    && i < |c.reign[t].log|
    && c.reign[t].log[i].term == t
  }

  // Some leader after t and before bound lacks t's log up to i.
  ghost predicate Overridden(c: Core, t: nat, i: nat, bound: nat) {
    t in c.reign && exists u :: u in c.reign && t < u < bound && !Has(c.reign[u].log, c.reign[t].log, i)
  }

  // Log l holds t's log up to i, unless a leader before bound had already lost it.
  ghost predicate Keeps(c: Core, l: Log, t: nat, i: nat, bound: nat) {
    (t in c.reign && Has(l, c.reign[t].log, i)) || Overridden(c, t, i, bound)
  }

  ghost predicate ReignOk(c: Core, t: nat) {
    && t in c.reign
    && t >= 1
    && Grounded(c.reign, c.reign[t].log)
    && TermsBelow(c.reign[t].log, t + 1)
    && c.reign[t].leader < |c.m|
    && (var s := c.m[c.reign[t].leader]; t <= s.term && (s.term == t ==> s.log == c.reign[t].log))
  }

  ghost predicate Reigns(c: Core) {
    forall t :: t in c.reign ==> ReignOk(c, t)
  }

  ghost predicate LogsOk(c: Core) {
    forall s :: 0 <= s < |c.m| ==> Grounded(c.reign, c.m[s].log) && TermsBelow(c.m[s].log, c.m[s].term + 1)
  }

  ghost predicate LaunchOk(c: Core, s: Member, t: nat) {
    && t in s.launch
    && t <= s.term
    && Grounded(c.reign, s.launch[t])
    && TermsBelow(s.launch[t], t)
    && (t == s.term && t !in c.reign ==> s.log == s.launch[t])
  }

  ghost predicate Launches(c: Core) {
    forall s, t :: 0 <= s < |c.m| && t in c.m[s].launch ==> LaunchOk(c, c.m[s], t)
  }

  ghost predicate VoteOk(c: Core, v: Member, t: nat) {
    && t in v.vote
    && t <= v.term
    && v.vote[t].candidate < |c.m|
    && t in c.m[v.vote[t].candidate].launch
    && Grounded(c.reign, v.vote[t].voterLog)
  }

  ghost predicate Votes(c: Core) {
    forall v, t :: 0 <= v < |c.m| && t in c.m[v].vote ==> VoteOk(c, c.m[v], t)
  }

  ghost predicate VotedFor(c: Core, t: nat, v: nat, s: nat) {
    v < |c.m| && t in c.m[v].vote && c.m[v].vote[t].candidate == s
  }

  // q is an election quorum of votes for s in term t.
  ghost predicate Elects(c: Core, t: nat, s: nat, q: set<nat>) {
    |q| >= ElectionQuorum(|c.m|) && forall v :: v in q ==> VotedFor(c, t, v, s)
  }

  ghost predicate Quorums(c: Core) {
    forall t :: t in c.reign ==> Elects(c, t, c.reign[t].leader, c.reign[t].electors)
  }

  ghost predicate AckOk(c: Core, v: Member, t: nat) {
    t in v.ack && t in c.reign && t <= v.term && v.ack[t] < |c.reign[t].log|
  }

  ghost predicate Acks(c: Core) {
    forall v, t :: 0 <= v < |c.m| && t in c.m[v].ack ==> AckOk(c, c.m[v], t)
  }

  // A server still holds what it acknowledged, unless a later leader overrode it.
  ghost predicate AcksKept(c: Core) {
    forall t: nat, v: nat, i: nat :: Acked(c, t, v, i) ==> Keeps(c, c.m[v].log, t, i, c.m[v].term + 1)
  }

  // So did its log whenever it voted, and the candidate was at least as up to date.
  ghost predicate VoteInformed(c: Core, u: nat, v: nat) {
    && v < |c.m|
    && u in c.m[v].vote
    && Fresher(c, u, c.m[v].vote[u])
    && forall t: nat, i: nat :: Acked(c, t, v, i) && t < u ==> Keeps(c, c.m[v].vote[u].voterLog, t, i, u)
  }

  ghost predicate Fresher(c: Core, u: nat, b: Vote) {
    && b.candidate < |c.m|
    && u in c.m[b.candidate].launch
    && var l := c.m[b.candidate].launch[u];
       |l| > 0 && |b.voterLog| > 0 && UpToDate(|l| - 1, l[|l| - 1].term, b.voterLog)
  }

  ghost predicate VotesInformed(c: Core) {
    forall u, v :: 0 <= v < |c.m| && u in c.m[v].vote && u !in c.reign ==> VoteInformed(c, u, v)
  }

  // A leader holds what each of its electors acknowledged to earlier leaders,
  // unless a leader in between had already lost it.
  ghost predicate LeadersInformed(c: Core) {
    forall u: nat, v: nat, t: nat, i: nat :: u in c.reign && v in c.reign[u].electors && Acked(c, t, v, i) && t < u ==>
      Keeps(c, c.reign[u].log, t, i, u)
  }

  ghost predicate CoreInv(c: Core) {
    && Reigns(c)
    && LogsOk(c)
    && Launches(c)
    && Votes(c)
    && Quorums(c)
    && Acks(c)
    && AcksKept(c)
    && VotesInformed(c)
    && LeadersInformed(c)
  }

  // ---------- Consequences ----------

  // Any two grounded logs that agree on the term at i agree up to i.
  lemma Matching(reign: map<nat, Reign>, l: Log, m: Log, i: nat)
    requires Grounded(reign, l) && Grounded(reign, m)
    requires i < |l| && i < |m| && l[i].term == m[i].term
    requires 0 !in reign
    ensures Has(l, m, i)
  {
    if i > 0 {
      assert Has(l, reign[l[i].term].log, i);
      assert Has(m, reign[l[i].term].log, i);
    }
  }

  lemma GroundedSorted(c: Core, l: Log, i: nat, j: nat)
    requires Reigns(c) && Grounded(c.reign, l) && i <= j < |l|
    ensures l[i].term <= l[j].term
  {
    if j > 0 {
      assert Has(l, c.reign[l[j].term].log, j);
      assert ReignOk(c, l[j].term);
    }
  }

  // Committed: a commit quorum acknowledged an entry of the leader's own term.
  ghost predicate CommittedBy(c: Core, t: nat, i: nat, q: set<nat>) {
    |q| >= CommitQuorum(|c.m|) && forall v :: v in q ==> Acked(c, t, v, i)
  }

  ghost predicate Committed(c: Core, t: nat, i: nat) {
    t in c.reign && i < |c.reign[t].log| && exists q :: CommittedBy(c, t, i, q)
  }

  // Leader Completeness: every later leader's log contains every committed prefix.
  ghost predicate Complete(c: Core) {
    forall t: nat, i: nat, u: nat :: Committed(c, t, i) && u in c.reign && t <= u ==> Has(c.reign[u].log, c.reign[t].log, i)
  }

  lemma {:induction false} LeaderCompletenessAt(c: Core, t: nat, i: nat, q: set<nat>, u: nat)
    requires Quorums(c) && LeadersInformed(c)
    requires t in c.reign && i < |c.reign[t].log| && CommittedBy(c, t, i, q) && u in c.reign && t <= u
    ensures Has(c.reign[u].log, c.reign[t].log, i)
    decreases u
  {
    if t < u && !Has(c.reign[u].log, c.reign[t].log, i) {
      var v := QuorumsMeet(c.reign[u].electors, q, |c.m|);
      assert Acked(c, t, v, i);
      assert Keeps(c, c.reign[u].log, t, i, u);
      var w :| w in c.reign && t < w < u && !Has(c.reign[w].log, c.reign[t].log, i);
      LeaderCompletenessAt(c, t, i, q, w);
    }
  }

  lemma LeaderCompleteness(c: Core)
    requires Quorums(c) && LeadersInformed(c)
    ensures Complete(c)
  {
    forall t: nat, i: nat, u: nat | Committed(c, t, i) && u in c.reign && t <= u
      ensures Has(c.reign[u].log, c.reign[t].log, i)
    {
      var q :| CommittedBy(c, t, i, q);
      LeaderCompletenessAt(c, t, i, q, u);
    }
  }

  // A log prefix p that is part of a committed prefix of some leader up to term bound.
  ghost predicate Durable(c: Core, p: Log, bound: nat) {
    exists t: nat, i: nat :: DurableAt(c, p, bound, t, i)
  }

  ghost predicate DurableAt(c: Core, p: Log, bound: nat, t: nat, i: nat) {
    1 <= |p| <= i + 1 && t <= bound && Committed(c, t, i) && Has(p, c.reign[t].log, |p| - 1)
  }

  // Two durable prefixes agree wherever both are defined.
  lemma DurableAgree(c: Core, p: Log, q: Log, b1: nat, b2: nat, k: nat)
    requires Complete(c) && Durable(c, p, b1) && Durable(c, q, b2)
    requires k < |p| && k < |q|
    ensures p[k] == q[k]
  {
    var t: nat, i: nat :| DurableAt(c, p, b1, t, i);
    var u: nat, j: nat :| DurableAt(c, q, b2, u, j);
    assert Has(c.reign[u].log, c.reign[t].log, i) || Has(c.reign[t].log, c.reign[u].log, j);
  }

  // A durable prefix up to term bound is part of every leader log from bound on.
  lemma DurableLed(c: Core, p: Log, bound: nat, u: nat)
    requires Complete(c) && Durable(c, p, bound) && u in c.reign && bound <= u
    ensures Has(p, c.reign[u].log, |p| - 1)
  {
    var t: nat, i: nat :| DurableAt(c, p, bound, t, i);
    assert Has(c.reign[u].log, c.reign[t].log, i);
  }

  // Only the leader of a term can have gathered an election quorum in it.
  lemma OneLeader(c: Core, t: nat, s: nat, q: set<nat>)
    requires Quorums(c) && t in c.reign && Elects(c, t, s, q)
    ensures s == c.reign[t].leader
  {
    var v := Overlap(q, c.reign[t].electors, |c.m|);
    assert VotedFor(c, t, v, s) && VotedFor(c, t, v, c.reign[t].leader);
  }

  // ---------- Growth ----------

  ghost predicate Extends(l: Log, m: Log, t: nat) {
    && |l| <= |m|
    && (forall i :: 0 <= i < |l| ==> l[i] == m[i])
    && (forall i :: |l| <= i < |m| ==> m[i].term == t)
  }

  // Leader logs gain only entries of their own term; leaders and electors stay.
  ghost predicate ReignsGrow(r: map<nat, Reign>, q: map<nat, Reign>) {
    forall t :: t in r ==>
      t in q && Extends(r[t].log, q[t].log, t) && q[t].leader == r[t].leader && q[t].electors == r[t].electors
  }

  ghost predicate MemberGrows(s: Member, r: Member) {
    && s.term <= r.term
    && (forall t :: t in s.launch ==> t in r.launch && r.launch[t] == s.launch[t])
    && (forall t :: t in s.vote ==> t in r.vote && r.vote[t] == s.vote[t])
    && (forall t :: t in s.ack ==> t in r.ack && s.ack[t] <= r.ack[t])
  }

  ghost predicate Grows(c: Core, d: Core) {
    && |c.m| == |d.m|
    && (forall s :: 0 <= s < |c.m| ==> MemberGrows(c.m[s], d.m[s]))
    && ReignsGrow(c.reign, d.reign)
  }

  lemma GrowsTransitive(c: Core, d: Core, e: Core)
    requires Grows(c, d) && Grows(d, e)
    ensures Grows(c, e)
  {
    forall t | t in c.reign ensures t in e.reign && Extends(c.reign[t].log, e.reign[t].log, t) {
      assert Extends(c.reign[t].log, d.reign[t].log, t) && Extends(d.reign[t].log, e.reign[t].log, t);
    }
    forall s | 0 <= s < |c.m| ensures MemberGrows(c.m[s], e.m[s]) {
      assert MemberGrows(c.m[s], d.m[s]) && MemberGrows(d.m[s], e.m[s]);
    }
  }

  lemma HasGrows(r: map<nat, Reign>, q: map<nat, Reign>, l: Log, t: nat, i: nat)
    requires ReignsGrow(r, q) && t in r && Has(l, r[t].log, i)
    ensures Has(l, q[t].log, i)
  {
    assert Extends(r[t].log, q[t].log, t);
  }

  lemma GroundedGrows(r: map<nat, Reign>, q: map<nat, Reign>, l: Log)
    requires ReignsGrow(r, q) && Grounded(r, l)
    ensures Grounded(q, l)
  {
    forall i | 1 <= i < |l| ensures l[i].term in q && Has(l, q[l[i].term].log, i) {
      HasGrows(r, q, l, l[i].term, i);
    }
  }

  lemma KeepsGrows(c: Core, d: Core, l: Log, t: nat, i: nat, b1: nat, b2: nat)
    requires ReignsGrow(c.reign, d.reign) && t in c.reign && i < |c.reign[t].log| && c.reign[t].log[i].term == t
    requires Keeps(c, l, t, i, b1) && b1 <= b2
    ensures Keeps(d, l, t, i, b2)
  {
    if Has(l, c.reign[t].log, i) {
      HasGrows(c.reign, d.reign, l, t, i);
    } else {
      var u :| u in c.reign && t < u < b1 && !Has(c.reign[u].log, c.reign[t].log, i);
      assert Extends(c.reign[u].log, d.reign[u].log, u) && Extends(c.reign[t].log, d.reign[t].log, t);
      assert !Has(d.reign[u].log, d.reign[t].log, i);
    }
  }

  lemma DurableGrows(c: Core, d: Core, p: Log, b1: nat, b2: nat)
    requires Grows(c, d) && Durable(c, p, b1) && b1 <= b2
    ensures Durable(d, p, b2)
  {
    var t: nat, i: nat :| DurableAt(c, p, b1, t, i);
    var q :| CommittedBy(c, t, i, q);
    assert Extends(c.reign[t].log, d.reign[t].log, t);
    forall v | v in q ensures Acked(d, t, v, i) {
      assert Acked(c, t, v, i);
      assert MemberGrows(c.m[v], d.m[v]);
    }
    assert CommittedBy(d, t, i, q);
    assert DurableAt(d, p, b2, t, i);
  }
}
