// The moves that change a Core, and the proof that each keeps CoreInv.
module RaftMoves {
  import opened RaftTypes
  import opened RaftCore

  // ---------- Frames ----------

  // Every acknowledgement of d was there before, or its server is still in the
  // leader's term and holds the acknowledged prefix.
  ghost predicate AckStep(c: Core, d: Core) {
    forall t: nat, v: nat, i: nat :: Acked(d, t, v, i) ==>
      || Acked(c, t, v, i)
      || (t == d.m[v].term && Has(d.m[v].log, d.reign[t].log, i))
  }

  // Logs change only so that what was acknowledged is kept or overridden.
  ghost predicate LogStep(c: Core, d: Core) {
    forall t: nat, v: nat, i: nat :: Acked(c, t, v, i) && v < |d.m| && Has(c.m[v].log, c.reign[t].log, i) ==>
      Keeps(d, d.m[v].log, t, i, d.m[v].term + 1)
  }

  lemma AcksKeptFrame(c: Core, d: Core)
    requires AcksKept(c) && Grows(c, d) && AckStep(c, d) && LogStep(c, d)
    ensures AcksKept(d)
  {
    forall t: nat, v: nat, i: nat | Acked(d, t, v, i) ensures Keeps(d, d.m[v].log, t, i, d.m[v].term + 1) {
      if Acked(c, t, v, i) && !Has(c.m[v].log, c.reign[t].log, i) {
        assert MemberGrows(c.m[v], d.m[v]);
        KeepsGrows(c, d, [], t, i, c.m[v].term + 1, d.m[v].term + 1);
      }
    }
  }

  lemma VotesInformedFrame(c: Core, d: Core)
    requires Votes(c) && VotesInformed(c) && Grows(c, d) && AckStep(c, d)
    requires forall u, v :: 0 <= v < |d.m| && u in d.m[v].vote && u !in d.reign && u !in c.m[v].vote ==> VoteInformed(d, u, v)
    ensures VotesInformed(d)
  {
    forall u, v | 0 <= v < |d.m| && u in d.m[v].vote && u !in d.reign ensures VoteInformed(d, u, v) {
      if u in c.m[v].vote {
        VoteInformedFrame(c, d, u, v);
      }
    }
  }

  lemma VoteInformedFrame(c: Core, d: Core, u: nat, v: nat)
    requires Grows(c, d) && AckStep(c, d) && VoteInformed(c, u, v) && VoteOk(c, c.m[v], u)
    ensures VoteInformed(d, u, v)
  {
    assert MemberGrows(c.m[v], d.m[v]);
    assert MemberGrows(c.m[c.m[v].vote[u].candidate], d.m[c.m[v].vote[u].candidate]);
    forall t: nat, i: nat | Acked(d, t, v, i) && t < u ensures Keeps(d, d.m[v].vote[u].voterLog, t, i, u) {
      assert Acked(c, t, v, i);
      KeepsGrows(c, d, c.m[v].vote[u].voterLog, t, i, u, u);
    }
  }

  lemma LeaderInformedFrame(c: Core, d: Core, u: nat, v: nat, t: nat, i: nat)
    requires Votes(c) && Quorums(c) && LeadersInformed(c) && Grows(c, d) && AckStep(c, d)
    requires u in c.reign && v in c.reign[u].electors && Acked(d, t, v, i) && t < u
    ensures Keeps(d, d.reign[u].log, t, i, u)
  {
    assert VotedFor(c, u, v, c.reign[u].leader);
    assert VoteOk(c, c.m[v], u);
    assert MemberGrows(c.m[v], d.m[v]);
    assert Acked(c, t, v, i);
    assert Extends(c.reign[u].log, d.reign[u].log, u);
    KeepsGrows(c, d, c.reign[u].log, t, i, u, u);
  }

  lemma LeadersInformedFrame(c: Core, d: Core)
    requires Votes(c) && Quorums(c) && LeadersInformed(c) && Grows(c, d) && AckStep(c, d)
    requires d.reign.Keys == c.reign.Keys
    ensures LeadersInformed(d)
  {
    forall u: nat, v: nat, t: nat, i: nat | u in d.reign && v in d.reign[u].electors && Acked(d, t, v, i) && t < u
      ensures Keeps(d, d.reign[u].log, t, i, u)
    {
      LeaderInformedFrame(c, d, u, v, t, i);
    }
  }

  lemma QuorumsFrame(c: Core, d: Core)
    requires Quorums(c) && Grows(c, d)
    requires forall t :: t in d.reign && t !in c.reign ==> Elects(d, t, d.reign[t].leader, d.reign[t].electors)
    ensures Quorums(d)
  {
    forall t | t in d.reign ensures Elects(d, t, d.reign[t].leader, d.reign[t].electors) {
      if t in c.reign {
        forall v | v in d.reign[t].electors ensures VotedFor(d, t, v, d.reign[t].leader) {
          assert VotedFor(c, t, v, c.reign[t].leader);
          assert MemberGrows(c.m[v], d.m[v]);
        }
      }
    }
  }

  // A vote cast now, by a server whose acknowledgements are kept, is informed.
  lemma NewVote(d: Core, v: nat, u: nat)
    requires AcksKept(d) && v < |d.m| && u == d.m[v].term && u in d.m[v].vote && u !in d.reign
    requires d.m[v].vote[u].voterLog == d.m[v].log && Fresher(d, u, d.m[v].vote[u])
    ensures VoteInformed(d, u, v)
  {
    forall t: nat, i: nat | Acked(d, t, v, i) && t < u ensures Keeps(d, d.m[v].vote[u].voterLog, t, i, u) {
      assert Keeps(d, d.m[v].log, t, i, u + 1);
    }
  }

  // ---------- Moves of one server that leave logs and acknowledgements alone ----------

  ghost predicate Quiet(c: Core, d: Core, s: nat) {
    && s < |c.m| == |d.m|
    && d == c.(m := c.m[s := d.m[s]])
    && d.m[s].log == c.m[s].log
    && d.m[s].ack == c.m[s].ack
    && MemberGrows(c.m[s], d.m[s])
  }

  lemma QuietFrame(c: Core, d: Core, s: nat)
    requires CoreInv(c) && Quiet(c, d, s)
    ensures Grows(c, d) && AckStep(c, d) && AcksKept(d) && LeadersInformed(d) && Quorums(d)
  {
    hide Grounded, Reigns, LogsOk, Launches, Acks, VotesInformed;
    assert Grows(c, d);
    assert forall t: nat, v: nat, i: nat :: Acked(d, t, v, i) ==> Acked(c, t, v, i);
    assert AckStep(c, d);
    QuietLogStep(c, d, s);
    AcksKeptFrame(c, d);
    LeadersInformedFrame(c, d);
    QuorumsFrame(c, d);
  }

  lemma QuietLogStep(c: Core, d: Core, s: nat)
    requires Quiet(c, d, s)
    ensures LogStep(c, d)
  {
  }

  lemma QuietLogs(c: Core, d: Core, s: nat)
    requires Reigns(c) && LogsOk(c) && Acks(c) && Quiet(c, d, s)
    ensures Reigns(d) && LogsOk(d) && Acks(d)
  {
    hide Grounded, Has;
    forall t | t in d.reign ensures ReignOk(d, t) {
      assert ReignOk(c, t);
    }
    forall v, t | 0 <= v < |d.m| && t in d.m[v].ack ensures AckOk(d, d.m[v], t) {
      assert AckOk(c, c.m[v], t);
    }
  }

  // Launches and votes other than s's own are untouched.
  lemma OthersRecords(c: Core, d: Core, s: nat)
    requires Launches(c) && Votes(c) && Quiet(c, d, s)
    ensures forall v, t :: 0 <= v < |d.m| && t in c.m[v].launch && (t < d.m[v].term || d.m[v].term == c.m[v].term) ==> LaunchOk(d, d.m[v], t)
    ensures forall v, t :: 0 <= v < |d.m| && t in c.m[v].vote ==> VoteOk(d, d.m[v], t)
  {
    hide Grounded, TermsBelow;
    forall v, t | 0 <= v < |d.m| && t in c.m[v].launch && (t < d.m[v].term || d.m[v].term == c.m[v].term)
      ensures LaunchOk(d, d.m[v], t)
    {
      assert LaunchOk(c, c.m[v], t);
    }
    forall v, t | 0 <= v < |d.m| && t in c.m[v].vote ensures VoteOk(d, d.m[v], t) {
      assert VoteOk(c, c.m[v], t);
    }
  }

  // ---------- A server adopts a term at least its own ----------

  ghost function Bump(c: Core, s: nat, t: nat): Core
    requires s < |c.m|
  {
    c.(m := c.m[s := c.m[s].(term := t)])
  }

  lemma BumpKeeps(c: Core, s: nat, t: nat)
    requires CoreInv(c) && s < |c.m| && c.m[s].term <= t
    ensures CoreInv(Bump(c, s, t)) && Grows(c, Bump(c, s, t))
  {
    hide Grounded, Has, Reigns, LogsOk, Acks, AcksKept, Quorums, LeadersInformed;
    var d := Bump(c, s, t);
    QuietLogs(c, d, s);
    QuietFrame(c, d, s);
    OthersRecords(c, d, s);
    VotesInformedFrame(c, d);
    assert Launches(d) by {
      forall v, u | 0 <= v < |d.m| && u in d.m[v].launch ensures LaunchOk(d, d.m[v], u) {
        assert LaunchOk(c, c.m[v], u);
      }
    }
    assert Votes(d);
  }

  // ---------- A server runs for the next term ----------

  ghost function Run(c: Core, s: nat): Core
    requires s < |c.m|
  {
    var r := c.m[s];
    c.(m := c.m[s := r.(term := r.term + 1,
                        launch := r.launch[r.term + 1 := r.log],
                        vote := r.vote[r.term + 1 := Vote(s, r.log)])])
  }

  lemma RunFresher(c: Core, s: nat)
    requires LogsOk(c) && Launches(c) && Votes(c) && s < |c.m|
    ensures c.m[s].term + 1 !in c.m[s].launch && c.m[s].term + 1 !in c.m[s].vote
    ensures Fresher(Run(c, s), c.m[s].term + 1, Vote(s, c.m[s].log))
  {
    var t := c.m[s].term + 1;
    assert t !in c.m[s].launch && t !in c.m[s].vote;
  }

  lemma RunRecords(c: Core, s: nat)
    requires LogsOk(c) && Launches(c) && Votes(c) && s < |c.m|
    ensures Quiet(c, Run(c, s), s) && Launches(Run(c, s)) && Votes(Run(c, s))
    ensures c.m[s].term + 1 !in c.m[s].vote && Fresher(Run(c, s), c.m[s].term + 1, Vote(s, c.m[s].log))
  {
    hide Grounded, Has;
    var d, t := Run(c, s), c.m[s].term + 1;
    RunFresher(c, s);
    hide Fresher;
    assert Quiet(c, d, s);
    OthersRecords(c, d, s);
    assert LaunchOk(d, d.m[s], t);
    assert VoteOk(d, d.m[s], t);
  }

  lemma RunKeeps(c: Core, s: nat)
    requires CoreInv(c) && s < |c.m|
    ensures CoreInv(Run(c, s)) && Grows(c, Run(c, s))
  {
    hide Grounded, Has, Reigns, LogsOk, Acks, AcksKept, Quorums, LeadersInformed, Launches, Votes;
    var d := Run(c, s);
    RunRecords(c, s);
    QuietLogs(c, d, s);
    QuietFrame(c, d, s);
    if d.m[s].term !in d.reign {
      NewVote(d, s, d.m[s].term);
    }
    VotesInformedFrame(c, d);
  }

  // ---------- A server votes ----------

  ghost function Grant(c: Core, v: nat, s: nat): Core
    requires v < |c.m|
  {
    c.(m := c.m[v := c.m[v].(vote := c.m[v].vote[c.m[v].term := Vote(s, c.m[v].log)])])
  }

  // v may vote for s: it has not voted in its term, s runs in it, and s's log is
  // at least as up to date -- unless the term already has its leader.
  ghost predicate MayGrant(c: Core, v: nat, s: nat) {
    && v < |c.m| && s < |c.m|
    && c.m[v].term !in c.m[v].vote
    && c.m[v].term in c.m[s].launch
    && (c.m[v].term !in c.reign ==> Fresher(c, c.m[v].term, Vote(s, c.m[v].log)))
  }

  lemma GrantRecords(c: Core, v: nat, s: nat)
    requires LogsOk(c) && Launches(c) && Votes(c) && MayGrant(c, v, s)
    ensures Quiet(c, Grant(c, v, s), v) && Launches(Grant(c, v, s)) && Votes(Grant(c, v, s))
  {
    hide Grounded, Has;
    var d := Grant(c, v, s);
    OthersRecords(c, d, v);
    assert VoteOk(d, d.m[v], d.m[v].term);
  }

  lemma GrantKeeps(c: Core, v: nat, s: nat)
    requires CoreInv(c) && MayGrant(c, v, s)
    ensures CoreInv(Grant(c, v, s)) && Grows(c, Grant(c, v, s))
  {
    hide Grounded, Has, Reigns, LogsOk, Acks, AcksKept, Quorums, LeadersInformed, Launches, Votes;
    var d := Grant(c, v, s);
    GrantRecords(c, v, s);
    QuietLogs(c, d, v);
    QuietFrame(c, d, v);
    if d.m[v].term !in d.reign {
      NewVote(d, v, d.m[v].term);
    }
    VotesInformedFrame(c, d);
  }

  // ---------- A leader log is added or extended ----------

  // d's leader logs contain c's, and every log that changed is grounded in d.
  ghost predicate Regrounds(c: Core, d: Core) {
    && |d.m| == |c.m|
    && ReignsGrow(c.reign, d.reign)
    && forall v :: 0 <= v < |c.m| ==>
         && d.m[v].term == c.m[v].term
         && d.m[v].launch == c.m[v].launch
         && d.m[v].vote == c.m[v].vote
         && (d.m[v].log == c.m[v].log || d.m[v].term in c.reign)
  }

  lemma RegroundedRecords(c: Core, d: Core)
    requires Launches(c) && Votes(c) && Regrounds(c, d)
    ensures Launches(d) && Votes(d)
  {
    hide Grounded, TermsBelow;
    forall v, t | 0 <= v < |d.m| && t in d.m[v].launch ensures LaunchOk(d, d.m[v], t) {
      assert LaunchOk(c, c.m[v], t);
      GroundedGrows(c.reign, d.reign, c.m[v].launch[t]);
    }
    forall v, t | 0 <= v < |d.m| && t in d.m[v].vote ensures VoteOk(d, d.m[v], t) {
      assert VoteOk(c, c.m[v], t);
      GroundedGrows(c.reign, d.reign, c.m[v].vote[t].voterLog);
    }
  }

  // ---------- A candidate wins ----------

  ghost function Elect(c: Core, s: nat, q: set<nat>): Core
    requires s < |c.m|
  {
    c.(reign := c.reign[c.m[s].term := Reign(s, c.m[s].log, q)])
  }

  ghost predicate Wins(c: Core, s: nat, q: set<nat>) {
    && s < |c.m|
    && c.m[s].term !in c.reign
    && c.m[s].term in c.m[s].launch
    && c.m[s].term >= 1
    && Elects(c, c.m[s].term, s, q)
  }

  // A log at least as up to date as one holding t's entry i holds it too, or its
  // last entry comes from a later leader that lacks it.
  lemma FresherHas(c: Core, l: Log, vl: Log, t: nat, i: nat)
    requires Reigns(c) && Grounded(c.reign, l) && Grounded(c.reign, vl)
    requires t in c.reign && Has(vl, c.reign[t].log, i) && c.reign[t].log[i].term == t
    requires UpToDate(|l| - 1, l[|l| - 1].term, vl)
    ensures
      || Has(l, c.reign[t].log, i)
      || (var w := l[|l| - 1].term; w in c.reign && t < w && !Has(c.reign[w].log, c.reign[t].log, i))
  {
    var w := l[|l| - 1].term;
    GroundedSorted(c, vl, i, |vl| - 1);
    if w == vl[|vl| - 1].term {
      Matching(c.reign, l, vl, |vl| - 1);
    } else {
      assert Has(l, c.reign[w].log, |l| - 1);
      if |l| <= i < |c.reign[w].log| {
        assert ReignOk(c, w);
        GroundedSorted(c, c.reign[w].log, |l| - 1, i);
      }
    }
  }

  // The winner holds what its electors acknowledged, or a leader in between lost it.
  lemma WinnerInformed(c: Core, s: nat, v: nat, t: nat, i: nat)
    requires Reigns(c) && Launches(c) && Votes(c) && VotesInformed(c)
    requires s < |c.m| && c.m[s].term !in c.reign && VotedFor(c, c.m[s].term, v, s)
    requires Acked(c, t, v, i) && t < c.m[s].term
    ensures Keeps(c, c.m[s].log, t, i, c.m[s].term)
  {
    hide Grounded, Has;
    var u := c.m[s].term;
    assert VoteInformed(c, u, v) && VoteOk(c, c.m[v], u) && LaunchOk(c, c.m[s], u);
    var vl, l := c.m[v].vote[u].voterLog, c.m[s].log;
    if Has(vl, c.reign[t].log, i) {
      FresherHas(c, l, vl, t, i);
      assert l[|l| - 1].term < u;
    }
  }

  lemma ElectGrows(c: Core, s: nat, q: set<nat>)
    requires Wins(c, s, q)
    ensures Grows(c, Elect(c, s, q)) && Regrounds(c, Elect(c, s, q))
  {
  }

  lemma ElectLogs(c: Core, s: nat, q: set<nat>)
    requires Wins(c, s, q) && Reigns(c) && LogsOk(c)
    ensures Reigns(Elect(c, s, q)) && LogsOk(Elect(c, s, q))
  {
    hide Grounded, Has;
    var d := Elect(c, s, q);
    ElectGrows(c, s, q);
    forall v | 0 <= v < |d.m| ensures Grounded(d.reign, d.m[v].log) {
      GroundedGrows(c.reign, d.reign, d.m[v].log);
    }
    forall t | t in d.reign ensures ReignOk(d, t) {
      if t != c.m[s].term {
        assert ReignOk(c, t);
        GroundedGrows(c.reign, d.reign, d.reign[t].log);
      }
    }
  }

  lemma ElectAcks(c: Core, s: nat, q: set<nat>)
    requires Wins(c, s, q) && Acks(c) && AcksKept(c)
    ensures Acks(Elect(c, s, q)) && AcksKept(Elect(c, s, q)) && AckStep(c, Elect(c, s, q))
    ensures forall t: nat, v: nat, i: nat :: Acked(Elect(c, s, q), t, v, i) ==> Acked(c, t, v, i)
  {
    var d := Elect(c, s, q);
    ElectGrows(c, s, q);
    forall v, t | 0 <= v < |d.m| && t in d.m[v].ack ensures AckOk(d, d.m[v], t) && t != c.m[s].term {
      assert AckOk(c, c.m[v], t);
    }
    assert forall t: nat, v: nat, i: nat :: Acked(d, t, v, i) ==> Acked(c, t, v, i);
    assert LogStep(c, d);
    AcksKeptFrame(c, d);
  }

  lemma ElectInformed(c: Core, s: nat, q: set<nat>)
    requires CoreInv(c) && Wins(c, s, q) && AckStep(c, Elect(c, s, q))
    requires forall t: nat, v: nat, i: nat :: Acked(Elect(c, s, q), t, v, i) ==> Acked(c, t, v, i)
    ensures LeadersInformed(Elect(c, s, q))
  {
    hide Grounded, Has, Reigns, LogsOk, Launches, Votes, Quorums, Acks, AcksKept, VotesInformed, AckStep;
    var d := Elect(c, s, q);
    ElectGrows(c, s, q);
    forall u: nat, v: nat, t: nat, i: nat | u in d.reign && v in d.reign[u].electors && Acked(d, t, v, i) && t < u
      ensures Keeps(d, d.reign[u].log, t, i, u)
    {
      if u in c.reign {
        LeaderInformedFrame(c, d, u, v, t, i);
      } else {
        WinnerInformed(c, s, v, t, i);
        KeepsGrows(c, d, c.m[s].log, t, i, u, u);
      }
    }
  }

  lemma ElectKeeps(c: Core, s: nat, q: set<nat>)
    requires CoreInv(c) && Wins(c, s, q)
    ensures CoreInv(Elect(c, s, q)) && Grows(c, Elect(c, s, q))
  {
    hide Grounded, Has, Reigns, LogsOk, Launches, Votes, Quorums, Acks, AcksKept, LeadersInformed, VotesInformed, AckStep;
    var d := Elect(c, s, q);
    ElectGrows(c, s, q);
    ElectLogs(c, s, q);
    RegroundedRecords(c, d);
    ElectAcks(c, s, q);
    ElectInformed(c, s, q);
    QuorumsFrame(c, d);
    VotesInformedFrame(c, d);
  }

  // ---------- A leader appends an entry of its own term ----------

  ghost function Create(c: Core, s: nat, e: Entry): Core
    requires s < |c.m| && c.m[s].term in c.reign
  {
    var t, l := c.m[s].term, c.m[s].log + [e];
    Core(c.m[s := c.m[s].(log := l, ack := c.m[s].ack[t := |l| - 1])],
         c.reign[t := c.reign[t].(log := l)])
  }

  ghost predicate Leads(c: Core, s: nat) {
    s < |c.m| && c.m[s].term in c.reign && c.reign[c.m[s].term].leader == s
  }

  lemma CreateReigns(c: Core, s: nat, e: Entry)
    requires Leads(c, s) && ReignOk(c, c.m[s].term) && e.term == c.m[s].term
    ensures ReignsGrow(c.reign, Create(c, s, e).reign)
  {
    hide Grounded, Has, TermsBelow;
    var d, t := Create(c, s, e), c.m[s].term;
    assert Extends(c.reign[t].log, d.reign[t].log, t);
  }

  lemma CreateMember(c: Core, s: nat, e: Entry)
    requires Leads(c, s) && ReignOk(c, c.m[s].term)
    requires c.m[s].term in c.m[s].ack ==> AckOk(c, c.m[s], c.m[s].term)
    ensures MemberGrows(c.m[s], Create(c, s, e).m[s])
  {
    hide Grounded, Has, TermsBelow;
  }

  lemma CreateGrows(c: Core, s: nat, e: Entry)
    requires Reigns(c) && Acks(c) && Leads(c, s) && e.term == c.m[s].term
    ensures Grows(c, Create(c, s, e)) && Regrounds(c, Create(c, s, e))
  {
    hide ReignsGrow, MemberGrows, ReignOk, AckOk;
    CreateReigns(c, s, e);
    CreateMember(c, s, e);
    forall v | 0 <= v < |c.m| && v != s ensures MemberGrows(c.m[v], c.m[v]) { SameGrows(c.m[v]); }
  }

  lemma SameGrows(r: Member)
    ensures MemberGrows(r, r)
  {
  }

  lemma CreateAckOk(c: Core, s: nat, e: Entry)
    requires Reigns(c) && Acks(c) && Leads(c, s) && e.term == c.m[s].term
    ensures Acks(Create(c, s, e))
  {
    hide Grounded, Has, TermsBelow;
    var d, t := Create(c, s, e), c.m[s].term;
    assert ReignOk(c, t);
    forall v, u | 0 <= v < |d.m| && u in d.m[v].ack ensures AckOk(d, d.m[v], u) {
      assert v != s || u != t ==> AckOk(c, c.m[v], u);
    }
  }

  lemma CreateGrounded(c: Core, s: nat, e: Entry)
    requires Reigns(c) && Leads(c, s) && e.term == c.m[s].term && ReignsGrow(c.reign, Create(c, s, e).reign)
    ensures Grounded(Create(c, s, e).reign, c.m[s].log + [e])
  {
    assert ReignOk(c, c.m[s].term);
    GroundedGrows(c.reign, Create(c, s, e).reign, c.m[s].log);
  }

  lemma CreateLogs(c: Core, s: nat, e: Entry)
    requires Reigns(c) && LogsOk(c) && Acks(c) && Leads(c, s) && e.term == c.m[s].term
    ensures Reigns(Create(c, s, e)) && LogsOk(Create(c, s, e))
  {
    hide Grounded, Has, Acks;
    var d := Create(c, s, e);
    CreateGrows(c, s, e);
    CreateGrounded(c, s, e);
    forall v | 0 <= v < |d.m| ensures Grounded(d.reign, d.m[v].log) {
      if v != s { GroundedGrows(c.reign, d.reign, d.m[v].log); }
    }
    forall t | t in d.reign ensures ReignOk(d, t) {
      assert ReignOk(c, t);
      if t != c.m[s].term { GroundedGrows(c.reign, d.reign, d.reign[t].log); }
    }
  }

  lemma CreateAcks(c: Core, s: nat, e: Entry)
    requires Reigns(c) && Acks(c) && AcksKept(c) && Leads(c, s) && e.term == c.m[s].term
    ensures AckStep(c, Create(c, s, e)) && AcksKept(Create(c, s, e))
  {
    hide Grounded, Regrounds, MemberGrows;
    var d := Create(c, s, e);
    CreateGrows(c, s, e);
    forall t: nat, v: nat, i: nat | Acked(d, t, v, i) && !Acked(c, t, v, i)
      ensures t == d.m[v].term && Has(d.m[v].log, d.reign[t].log, i)
    {
      assert v != s ==> AckOk(c, c.m[v], t);
    }
    forall t: nat, v: nat, i: nat | Acked(c, t, v, i) && Has(c.m[v].log, c.reign[t].log, i)
      ensures Has(d.m[v].log, d.reign[t].log, i)
    {
      HasGrows(c.reign, d.reign, c.m[v].log, t, i);
    }
    AcksKeptFrame(c, d);
  }

  lemma CreateKeeps(c: Core, s: nat, e: Entry)
    requires CoreInv(c) && Leads(c, s) && e.term == c.m[s].term
    ensures CoreInv(Create(c, s, e)) && Grows(c, Create(c, s, e))
  {
    hide Grounded, Has, Reigns, LogsOk, Launches, Votes, Quorums, Acks, AcksKept, LeadersInformed, VotesInformed, AckStep;
    var d := Create(c, s, e);
    CreateGrows(c, s, e);
    CreateLogs(c, s, e);
    CreateAckOk(c, s, e);
    RegroundedRecords(c, d);
    CreateAcks(c, s, e);
    QuorumsFrame(c, d);
    VotesInformedFrame(c, d);
    LeadersInformedFrame(c, d);
  }

  // ---------- A follower takes entries from its term's leader ----------

  // l may replace s's log: what it drops, the leader of s's term does not have.
  ghost predicate Takes(c: Core, s: nat, l: Log) {
    && s < |c.m|
    && c.m[s].term in c.reign
    && c.reign[c.m[s].term].leader != s
    && Grounded(c.reign, l)
    && TermsBelow(l, c.m[s].term + 1)
    && forall j: nat :: j < |c.m[s].log| && !Has(l, c.m[s].log, j) ==> !Has(c.m[s].log, c.reign[c.m[s].term].log, j)
  }

  lemma OverrideByLeader(c: Core, s: nat, l: Log, t: nat, i: nat)
    requires Takes(c, s, l) && Acked(c, t, s, i) && t <= c.m[s].term && Has(c.m[s].log, c.reign[t].log, i)
    ensures Keeps(c, l, t, i, c.m[s].term + 1)
  {
    if !Has(l, c.reign[t].log, i) {
      assert !Has(l, c.m[s].log, i);
      assert !Has(c.reign[c.m[s].term].log, c.reign[t].log, i);
    }
  }

  // d is c after s replaced its log by l and acknowledged nothing it does not hold.
  ghost predicate Took(c: Core, d: Core, s: nat, l: Log) {
    && Takes(c, s, l)
    && |d.m| == |c.m|
    && d == c.(m := c.m[s := c.m[s].(log := l, ack := d.m[s].ack)])
    && Grows(c, d)
    && AckStep(c, d)
  }

  lemma TookLogs(c: Core, d: Core, s: nat, l: Log)
    requires Reigns(c) && LogsOk(c) && Took(c, d, s, l)
    ensures Reigns(d) && LogsOk(d) && Regrounds(c, d)
  {
    hide Grounded, Has, AckStep, Acked, MemberGrows;
    forall t | t in d.reign ensures ReignOk(d, t) {
      assert ReignOk(c, t);
    }
  }

  lemma TookAcksKept(c: Core, d: Core, s: nat, l: Log)
    requires Acks(c) && AcksKept(c) && Took(c, d, s, l)
    ensures AcksKept(d)
  {
    forall t: nat, v: nat, i: nat | Acked(c, t, v, i) && Has(c.m[v].log, c.reign[t].log, i)
      ensures Keeps(d, d.m[v].log, t, i, d.m[v].term + 1)
    {
      assert AckOk(c, c.m[v], t);
      if v == s {
        OverrideByLeader(c, s, l, t, i);
        KeepsGrows(c, d, l, t, i, c.m[s].term + 1, d.m[s].term + 1);
      }
    }
    AcksKeptFrame(c, d);
  }

  lemma TookKeeps(c: Core, d: Core, s: nat, l: Log)
    requires CoreInv(c) && Took(c, d, s, l) && Acks(d)
    ensures CoreInv(d)
  {
    hide Grounded, Has, Reigns, LogsOk, Launches, Votes, Quorums, Acks, AcksKept, LeadersInformed, VotesInformed, AckStep;
    TookLogs(c, d, s, l);
    RegroundedRecords(c, d);
    TookAcksKept(c, d, s, l);
    QuorumsFrame(c, d);
    VotesInformedFrame(c, d);
    LeadersInformedFrame(c, d);
  }

  // Cutting the log at a conflict with the leader.
  ghost function Cut(c: Core, s: nat, l: Log): Core
    requires s < |c.m|
  {
    c.(m := c.m[s := c.m[s].(log := l)])
  }

  lemma CutTook(c: Core, s: nat, l: Log)
    requires Acks(c) && Takes(c, s, l)
    ensures Took(c, Cut(c, s, l), s, l) && Acks(Cut(c, s, l))
  {
    var d := Cut(c, s, l);
    assert forall t: nat, v: nat, i: nat :: Acked(d, t, v, i) ==> Acked(c, t, v, i);
    forall v, u | 0 <= v < |d.m| && u in d.m[v].ack ensures AckOk(d, d.m[v], u) {
      assert AckOk(c, c.m[v], u);
    }
  }

  lemma CutKeeps(c: Core, s: nat, l: Log)
    requires CoreInv(c) && Takes(c, s, l)
    ensures CoreInv(Cut(c, s, l)) && Grows(c, Cut(c, s, l))
  {
    CutTook(c, s, l);
    TookKeeps(c, Cut(c, s, l), s, l);
  }

  // Taking the leader's entries and acknowledging index k.
  ghost function Accept(c: Core, s: nat, l: Log, k: nat): Core
    requires s < |c.m|
  {
    var r := c.m[s];
    var a := if r.term in r.ack && r.ack[r.term] > k then r.ack[r.term] else k;
    c.(m := c.m[s := r.(log := l, ack := r.ack[r.term := a])])
  }

  lemma AcceptTook(c: Core, s: nat, l: Log, k: nat)
    requires Acks(c) && Takes(c, s, l) && Has(l, c.reign[c.m[s].term].log, k)
    ensures Took(c, Accept(c, s, l, k), s, l) && Acks(Accept(c, s, l, k))
  {
    hide Grounded;
    var d, u := Accept(c, s, l, k), c.m[s].term;
    forall t: nat, v: nat, i: nat | Acked(d, t, v, i) && !Acked(c, t, v, i)
      ensures t == d.m[v].term && Has(d.m[v].log, d.reign[t].log, i)
    {
      assert v == s && t == u && i <= k;
    }
    assert u in c.m[s].ack ==> AckOk(c, c.m[s], u);
    forall v, t | 0 <= v < |d.m| && t in d.m[v].ack ensures AckOk(d, d.m[v], t) {
      assert v != s || t != u ==> AckOk(c, c.m[v], t);
    }
  }

  lemma AcceptKeeps(c: Core, s: nat, l: Log, k: nat)
    requires CoreInv(c) && Takes(c, s, l) && Has(l, c.reign[c.m[s].term].log, k)
    ensures CoreInv(Accept(c, s, l, k)) && Grows(c, Accept(c, s, l, k))
  {
    AcceptTook(c, s, l, k);
    TookKeeps(c, Accept(c, s, l, k), s, l);
  }
}
