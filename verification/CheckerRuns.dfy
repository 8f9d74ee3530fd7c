// Clients writing and reading one key of an atomic store whose values expire, with the
// checker watching: any interleaving of their steps
// (sharded_kv_cache/cmd/stress/tester.go over checker.go).
module CheckerRuns {
  import opened Checker

  // A write under way: begun at start, and in effect from at on.
  datatype Pending = Pending(value: Value, init: int, start: int, effected: bool, at: int)

  // Nothing was found either because nothing was ever stored, or because gone expired.
  datatype Seen = Waiting | Found(value: Value) | Missed(gone: Option<Value>)

  // honest: the answer came from the register.
  datatype Read = Read(init: int, pending: bool, start: int, seen: Seen, honest: bool)

  datatype Entry = Entry(value: Value, expiry: int)

  // store is the register; used are all values ever written or being written.
  datatype World = World(track: Track, store: Option<Entry>, pend: map<nat, Pending>, readers: map<nat, Read>, used: set<Value>,
                         now: int, ttl: int, buffer: nat)

  // Clients read the clock before they begin and after they are answered. A write takes
  // effect at most once in between, and exactly once if it succeeds; a read samples the
  // register once, or is given any other answer by a store that is wrong.
  datatype Step = Advance(d: nat) | BeginW(c: nat, value: Value, start: int) | Effect(c: nat) | EndW(c: nat, err: bool, end: int)
    | BeginR(r: nat, start: int) | Sample(r: nat, found: bool) | Lie(r: nat, answer: Option<Value>) | EndR(r: nat)

  // The store may keep a value up to buffer past its time, and drops it from then on.
  predicate Samples(w: World, found: bool) {
    if found then w.store.Some? && w.now <= w.store.get.expiry + w.buffer
    else w.store.None? || w.store.get.expiry < w.now
  }

  predicate Enabled(w: World, st: Step) {
    match st
    case Advance(_) => true
    case BeginW(c, v, start) => c !in w.pend && v !in w.used && start <= w.now
    case Effect(c) => c in w.pend && !w.pend[c].effected
    case EndW(c, err, end) =>
      c in w.pend && (err || w.pend[c].effected) && (w.pend[c].effected ==> w.pend[c].at <= end) && end <= w.now
    case BeginR(r, start) => r !in w.readers && start <= w.now
    case Sample(r, found) => r in w.readers && w.readers[r].seen.Waiting? && Samples(w, found)
    case Lie(r, _) => r in w.readers && w.readers[r].seen.Waiting?
    case EndR(r) => r in w.readers && !w.readers[r].seen.Waiting?
  }

  // What is recorded of c's write when it ends.
  function ValOf(w: World, c: nat, err: bool, end: int): Val
    requires c in w.pend
  {
    Val(err, w.pend[c].start + w.ttl, end + w.ttl + w.buffer)
  }

  function Next(w: World, st: Step): World
    requires Enabled(w, st)
  {
    match st
    case Advance(d) => w.(now := w.now + d)
    case BeginW(c, v, start) =>
      w.(track := Begin(w.track), pend := w.pend[c := Pending(v, w.track.version, start, false, start)], used := w.used + {v})
    case Effect(c) =>
      w.(store := Some(Entry(w.pend[c].value, w.now + w.ttl)), pend := w.pend[c := w.pend[c].(effected := true, at := w.now)])
    case EndW(c, err, end) =>
      w.(track := Complete(w.track, w.pend[c].value, ValOf(w, c, err, end), w.pend[c].init), pend := w.pend - {c})
    case BeginR(r, start) => w.(readers := w.readers[r := Read(w.track.version, w.track.rc != 0, start, Waiting, true)])
    case Sample(r, found) =>
      var seen := if found then Found(w.store.get.value)
                  else Missed(if w.store.None? then None else Some(w.store.get.value));
      w.(readers := w.readers[r := w.readers[r].(seen := seen)])
    case Lie(r, answer) =>
      var seen := match answer case None => Missed(None) case Some(v) => Found(v);
      w.(readers := w.readers[r := w.readers[r].(seen := seen, honest := false)])
    case EndR(r) => w.(readers := w.readers - {r})
  }

  function Answer(x: Seen): Option<Value> { if x.Found? then Some(x.value) else None }

  function Judge(w: World, r: nat): Verdict
    requires Enabled(w, EndR(r))
  {
    var x := w.readers[r];
    Check(w.track, Answer(x.seen), x.start, w.now, x.init, x.pending, true)
  }

  ghost predicate Init(w: World) {
    w.track == FRESH && w.store == None && w.pend == map[] && w.readers == map[] && w.used == {}
  }

  ghost predicate IsRun(ws: seq<World>, sts: seq<Step>) {
    && |ws| == |sts| + 1 && Init(ws[0])
    && forall i :: 0 <= i < |sts| ==> Enabled(ws[i], sts[i]) && ws[i + 1] == Next(ws[i], sts[i])
  }

  // v belongs to a write under way that has taken effect.
  ghost predicate InFlight(w: World, v: Value) {
    exists c :: c in w.pend && w.pend[c].effected && w.pend[c].value == v
  }

  ghost predicate Explained(w: World, v: Value) { v in w.track.values || InFlight(w, v) }

  // The bounds known for v's expiry admit e.
  ghost predicate Admits(w: World, v: Value, e: int) {
    && (v in w.track.values ==> w.track.values[v].maybe <= e && e + w.buffer <= w.track.values[v].definitely)
    && (forall c :: c in w.pend && w.pend[c].effected && w.pend[c].value == v ==> e == w.pend[c].at + w.ttl)
  }

  ghost predicate Counts(w: World) {
    && w.track.rc == |w.pend|
    && (forall c :: c in w.pend ==> w.pend[c].init <= w.track.version && w.pend[c].start <= w.pend[c].at <= w.now)
    && (forall r :: r in w.readers ==> w.readers[r].init <= w.track.version && w.readers[r].start <= w.now)
    && (forall r :: r in w.readers && w.readers[r].pending && w.readers[r].init == w.track.version ==> w.track.rc != 0)
  }

  // Values stay distinct, so none is ever completed twice.
  ghost predicate DistinctValues(w: World) {
    && (forall v :: Duplicate(w.track, v) ==> v in w.used)
    && (forall c :: c in w.pend ==> w.pend[c].value in w.used && !Duplicate(w.track, w.pend[c].value))
    && (forall c, d :: c in w.pend && d in w.pend && c != d ==> w.pend[c].value != w.pend[d].value)
  }

  // What a read saw is accounted for as long as no write has ended since it began.
  ghost predicate SeenOk(w: World, x: Read) {
    match x.seen
    case Waiting => true
    case Found(v) => Explained(w, v) && exists e :: Admits(w, v, e) && x.start <= e + w.buffer
    case Missed(None) => w.store.Some? ==> InFlight(w, w.store.get.value)
    case Missed(Some(v)) => Explained(w, v) && exists e :: Admits(w, v, e) && e < w.now
  }

  ghost predicate Tracked(w: World) {
    && (w.store.Some? ==> Explained(w, w.store.get.value) && Admits(w, w.store.get.value, w.store.get.expiry))
    && (forall c :: c in w.pend && w.pend[c].effected && w.pend[c].init == w.track.version ==>
      w.store.Some? && InFlight(w, w.store.get.value))
    && (forall r :: r in w.readers && w.readers[r].honest && w.readers[r].init == w.track.version ==> SeenOk(w, w.readers[r]))
  }

  // Until a write takes effect only failed ones are recorded.
  ghost predicate Blank(w: World) {
    w.store.None? ==>
      && (forall v :: v in w.track.values ==> w.track.values[v].err)
      && (forall c :: c in w.pend ==> !w.pend[c].effected)
  }

  ghost predicate Inv(w: World) { Counts(w) && DistinctValues(w) && Tracked(w) && Blank(w) }

  lemma CountsStep(w: World, st: Step)
    requires Counts(w) && Enabled(w, st)
    ensures Counts(Next(w, st))
  {
    hide Complete;
    match st {
      case EndW(c, err, end) => CountsEnd(w, c, err, end);
      case BeginW(_, _, _) => CountsPend(w, st);
      case Effect(_) => CountsPend(w, st);
      case _ =>
    }
  }

  lemma CountsPend(w: World, st: Step)
    requires Counts(w) && Enabled(w, st) && (st.BeginW? || st.Effect?)
    ensures Counts(Next(w, st))
  {
    var u := Next(w, st);
    PendMore(w.pend, st.c, u.pend[st.c]);
    assert u.pend == w.pend[st.c := u.pend[st.c]];
  }

  lemma PendMore(pend: map<nat, Pending>, c: nat, p: Pending)
    ensures |pend[c := p]| == |pend| + if c in pend then 0 else 1
  {
    assert pend[c := p].Keys == pend.Keys + {c};
  }

  lemma CountsEnd(w: World, c: nat, err: bool, end: int)
    requires Counts(w) && Enabled(w, EndW(c, err, end))
    ensures Counts(Next(w, EndW(c, err, end)))
  {
    hide Complete;
    CompleteCounts(w.track, w.pend[c].value, ValOf(w, c, err, end), w.pend[c].init);
    assert w.pend.Keys == (w.pend - {c}).Keys + {c};
  }

  lemma CompleteCounts(t: Track, v: Value, x: Val, init: int)
    ensures Complete(t, v, x, init).rc == t.rc - 1 && Complete(t, v, x, init).version == t.version + 1
  {
  }

  lemma DistinctStep(w: World, st: Step)
    requires DistinctValues(w) && Enabled(w, st)
    ensures DistinctValues(Next(w, st))
  {
  }

  lemma BlankStep(w: World, st: Step)
    requires Blank(w) && Enabled(w, st)
    ensures Blank(Next(w, st))
  {
  }

  // The only write under way is the only one in flight.
  lemma Sole(w: World, c: nat, v: Value)
    requires |w.pend| == 1 && c in w.pend && InFlight(w, v)
    ensures v == w.pend[c].value
  {
    var d :| d in w.pend && w.pend[d].effected && w.pend[d].value == v;
    if d != c {
      assert {c, d} <= w.pend.Keys;
      assert |{c, d}| == 2;
      SubsetCard({c, d}, w.pend.Keys);
    }
  }

  lemma {:induction false} SubsetCard(a: set<nat>, b: set<nat>)
    requires a <= b
    ensures |a| <= |b|
    decreases |a|
  {
    if a != {} {
      var x :| x in a;
      SubsetCard(a - {x}, b - {x});
    }
  }

  // A value stays explained, within the same bounds, while writes begin, take effect
  // and end, unless a lone write overwrites it.
  lemma EndExplained(w: World, c: nat, err: bool, end: int, v: Value, e: int)
    requires Counts(w) && DistinctValues(w) && Enabled(w, EndW(c, err, end)) && Explained(w, v) && Admits(w, v, e)
    requires !err && w.pend[c].init == w.track.version && w.track.rc == 1 ==> v == w.pend[c].value && InFlight(w, v)
    ensures Explained(Next(w, EndW(c, err, end)), v) && Admits(Next(w, EndW(c, err, end)), v, e)
  {
    var u, p := Next(w, EndW(c, err, end)), w.pend[c];
    if InFlight(w, v) && v != p.value {
      var d :| d in w.pend && w.pend[d].effected && w.pend[d].value == v;
      assert d in u.pend;
    }
    if v == p.value {
      assert v !in w.track.values;
      var d :| d in w.pend && w.pend[d].effected && w.pend[d].value == v;
      assert d == c;
      assert e == p.at + w.ttl && p.start <= p.at <= end;
    }
  }

  lemma EndTracked(w: World, c: nat, err: bool, end: int)
    requires Inv(w) && Enabled(w, EndW(c, err, end))
    ensures Tracked(Next(w, EndW(c, err, end)))
  {
    var u, p := Next(w, EndW(c, err, end)), w.pend[c];
    hide Admits, Explained;
    if w.store.Some? {
      var v := w.store.get.value;
      if !err && p.init == w.track.version && w.track.rc == 1 {
        Sole(w, c, v);
      }
      EndExplained(w, c, err, end, v, w.store.get.expiry);
    }
  }

  lemma StillInFlight(w: World, st: Step, v: Value)
    requires Enabled(w, st) && !st.EndW?
    ensures InFlight(w, v) ==> InFlight(Next(w, st), v)
    ensures Explained(w, v) ==> Explained(Next(w, st), v)
  {
    if InFlight(w, v) {
      var d :| d in w.pend && w.pend[d].effected && w.pend[d].value == v;
      assert d in Next(w, st).pend;
    }
  }

  // The bounds on an explained value's expiry do not move.
  lemma StillAdmits(w: World, st: Step, v: Value, e: int)
    requires DistinctValues(w) && Enabled(w, st) && !st.EndW? && Explained(w, v) && Admits(w, v, e)
    ensures Admits(Next(w, st), v, e)
  {
    var u := Next(w, st);
    forall c | c in u.pend && u.pend[c].effected && u.pend[c].value == v ensures e == u.pend[c].at + w.ttl {
    }
  }

  lemma StillSeen(w: World, st: Step, x: Read)
    requires DistinctValues(w) && Enabled(w, st) && !st.EndW? && SeenOk(w, x)
    ensures SeenOk(Next(w, st), x)
  {
    var u := Next(w, st);
    match x.seen {
      case Waiting =>
      case Found(v) =>
        var e :| Admits(w, v, e) && x.start <= e + w.buffer;
        StillInFlight(w, st, v);
        StillAdmits(w, st, v, e);
        assert Admits(u, v, e) && x.start <= e + u.buffer;
      case Missed(None) =>
        if st.Effect? {
          assert u.pend[st.c].effected;
        } else if w.store.Some? {
          StillInFlight(w, st, w.store.get.value);
        }
      case Missed(Some(v)) =>
        var e :| Admits(w, v, e) && e < w.now;
        StillInFlight(w, st, v);
        StillAdmits(w, st, v, e);
        assert Admits(u, v, e) && e < u.now;
    }
  }

  // What a read sees as it samples.
  lemma Sampled(w: World, r: nat, found: bool)
    requires Inv(w) && Enabled(w, Sample(r, found)) && w.readers[r].init == w.track.version
    ensures SeenOk(Next(w, Sample(r, found)), Next(w, Sample(r, found)).readers[r])
  {
    var u := Next(w, Sample(r, found));
    if w.store.Some? {
      var v, e := w.store.get.value, w.store.get.expiry;
      StillInFlight(w, Sample(r, found), v);
      StillAdmits(w, Sample(r, found), v, e);
      assert Admits(u, v, e);
    }
  }

  lemma StoreTracked(w: World, st: Step)
    requires Inv(w) && Enabled(w, st) && !st.EndW?
    ensures var u := Next(w, st);
      && (u.store.Some? ==> Explained(u, u.store.get.value) && Admits(u, u.store.get.value, u.store.get.expiry))
      && (forall c :: c in u.pend && u.pend[c].effected && u.pend[c].init == u.track.version ==>
        u.store.Some? && InFlight(u, u.store.get.value))
  {
    var u := Next(w, st);
    if st.Effect? {
      assert u.pend[st.c].effected;
      assert InFlight(u, u.store.get.value);
    } else if w.store.Some? {
      StillInFlight(w, st, w.store.get.value);
      StillAdmits(w, st, w.store.get.value, w.store.get.expiry);
    }
  }

  lemma TrackedStep(w: World, st: Step)
    requires Inv(w) && Enabled(w, st)
    ensures Tracked(Next(w, st))
  {
    if st.EndW? {
      EndTracked(w, st.c, st.err, st.end);
    } else {
      StoreTracked(w, st);
      var u := Next(w, st);
      forall r | r in u.readers && u.readers[r].honest && u.readers[r].init == u.track.version ensures SeenOk(u, u.readers[r]) {
        if st.Sample? && st.r == r {
          Sampled(w, r, st.found);
        } else if !((st.BeginR? || st.Lie?) && st.r == r) {
          StillSeen(w, st, w.readers[r]);
        }
      }
    }
  }

  lemma {:induction false} EveryRunInv(ws: seq<World>, sts: seq<Step>, i: nat)
    requires IsRun(ws, sts) && i <= |sts|
    ensures Inv(ws[i])
  {
    if i > 0 {
      EveryRunInv(ws, sts, i - 1);
      var w, st := ws[i - 1], sts[i - 1];
      CountsStep(w, st);
      DistinctStep(w, st);
      TrackedStep(w, st);
      BlankStep(w, st);
    }
  }

  lemma NothingInFlight(w: World)
    requires Counts(w)
    ensures w.track.rc == 0 ==> forall v :: !InFlight(w, v)
  {
  }

  // A store that never lies answers every read from the register.
  lemma {:induction false} NoLies(ws: seq<World>, sts: seq<Step>, i: nat)
    requires IsRun(ws, sts) && i <= |sts| && forall k :: 0 <= k < i ==> !sts[k].Lie?
    ensures forall r :: r in ws[i].readers ==> ws[i].readers[r].honest
  {
    if i > 0 {
      NoLies(ws, sts, i - 1);
      assert Enabled(ws[i - 1], sts[i - 1]) && ws[i] == Next(ws[i - 1], sts[i - 1]);
    }
  }

  // Checker soundness: in any run, a value found in the register by a read is never
  // called overwritten, never written or expired.
  lemma NoFalseAlarm(ws: seq<World>, sts: seq<Step>, i: nat, r: nat)
    requires IsRun(ws, sts) && i <= |sts| && Enabled(ws[i], EndR(r)) && ws[i].readers[r].seen.Found? && ws[i].readers[r].honest
    ensures Judge(ws[i], r) in {Skipped, Fine}
  {
    EveryRunInv(ws, sts, i);
    NothingInFlight(ws[i]);
  }

  // A read that found nothing is called wrong exactly when it is judged at all, no
  // write has ever taken effect, and failed ones are recorded that have not expired.
  lemma MissingWhen(ws: seq<World>, sts: seq<Step>, i: nat, r: nat)
    requires IsRun(ws, sts) && i <= |sts| && Enabled(ws[i], EndR(r)) && ws[i].readers[r].seen.Missed? && ws[i].readers[r].honest
    ensures Judge(ws[i], r) in {Skipped, Fine, Missing}
    ensures Judge(ws[i], r) == Missing <==>
      var w := ws[i];
      && w.readers[r].init == w.track.version && w.track.rc == 0 && w.store.None?
      && w.track.values != map[] && forall v :: v in w.track.values ==> w.track.values[v].err && w.now <= w.track.values[v].maybe
  {
    EveryRunInv(ws, sts, i);
    NothingInFlight(ws[i]);
    var w, x := ws[i], ws[i].readers[r];
    if x.init == w.track.version && w.track.rc == 0 {
      assert SeenOk(w, x);
      if x.seen.gone.Some? {
        var v := x.seen.gone.get;
        assert v in w.track.values && w.track.values[v].maybe < w.now;
      }
    }
  }

  const START := World(FRESH, None, map[], map[], {}, 0, 1, 0)

  // A write of "a" has failed without effect.
  const FAILED := World(Track(map["a" := Val(true, 1, 1)], map[], 1, 0), None, map[], map[], {"a"}, 0, 1, 0)

  lemma OneFails()
    ensures Enabled(START, BeginW(0, "a", 0)) && Enabled(Next(START, BeginW(0, "a", 0)), EndW(0, true, 0))
    ensures Next(Next(START, BeginW(0, "a", 0)), EndW(0, true, 0)) == FAILED
  {
    var w := Next(START, BeginW(0, "a", 0));
    assert w.pend == map[0 := Pending("a", 0, 0, false, 0)] && w.pend - {0} == map[];
    assert w.used == {"a"} && FRESH.values["a" := Val(true, 1, 1)] == map["a" := Val(true, 1, 1)];
  }

  lemma OneMisses()
    ensures Enabled(FAILED, BeginR(0, 0)) && Enabled(Next(FAILED, BeginR(0, 0)), Sample(0, false))
    ensures var w := Next(Next(FAILED, BeginR(0, 0)), Sample(0, false));
      Enabled(w, EndR(0)) && Judge(w, 0) == Missing
  {
    var w := Next(Next(FAILED, BeginR(0, 0)), Sample(0, false));
    assert w.readers[0] == Read(1, false, 0, Missed(None), true);
    assert "a" in w.track.values;
    assert !MayBeGone(w.track.values, 0);
  }

  // It happens: one write fails without effect, and a read that begins later finds
  // nothing, as it should.
  lemma FalseAlarm() returns (ws: seq<World>, sts: seq<Step>)
    ensures IsRun(ws, sts) && Enabled(ws[|sts|], EndR(0)) && Judge(ws[|sts|], 0) == Missing
    ensures sts == [BeginW(0, "a", 0), EndW(0, true, 0), BeginR(0, 0), Sample(0, false)]
  {
    hide Enabled, Next, Judge;
    OneFails();
    OneMisses();
    sts := [BeginW(0, "a", 0), EndW(0, true, 0), BeginR(0, 0), Sample(0, false)];
    var w := Next(FAILED, sts[2]);
    ws := [START, Next(START, sts[0]), FAILED, w, Next(w, sts[3])];
  }

  // The panic on duplicate values cannot fire when written values are distinct.
  lemma NoDuplicatePanic(ws: seq<World>, sts: seq<Step>, i: nat, c: nat, err: bool, end: int)
    requires IsRun(ws, sts) && i <= |sts| && Enabled(ws[i], EndW(c, err, end))
    ensures !Duplicate(ws[i].track, ws[i].pend[c].value)
  {
    EveryRunInv(ws, sts, i);
  }

  // The pending flag that BeginRead returns changes no verdict.
  lemma PendingFlagRedundant(ws: seq<World>, sts: seq<Step>, i: nat, r: nat)
    requires IsRun(ws, sts) && i <= |sts| && Enabled(ws[i], EndR(r))
    ensures var x := ws[i].readers[r];
      Judge(ws[i], r) == Check(ws[i].track, Answer(x.seen), x.start, ws[i].now, x.init, false, true)
  {
    EveryRunInv(ws, sts, i);
  }
}
