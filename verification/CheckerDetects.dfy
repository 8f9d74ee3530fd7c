// What the checker reports, in terms of the history of the run alone: which writes began
// and ended when. The store may answer reads as it likes.
module CheckerDetects {
  import opened Checker
  import opened CheckerRuns

  // No write ends at a step from a on, before b.
  ghost predicate NoEnds(sts: seq<Step>, a: nat, b: nat) {
    forall k :: a <= k < b && k < |sts| ==> !sts[k].EndW?
  }

  // Nor does one begin.
  ghost predicate Calm(sts: seq<Step>, a: nat, b: nat) {
    forall k :: a <= k < b && k < |sts| ==> !sts[k].EndW? && !sts[k].BeginW?
  }

  lemma {:induction false} VersionGrows(ws: seq<World>, sts: seq<Step>, a: nat, b: nat)
    requires IsRun(ws, sts) && a <= b <= |sts|
    ensures ws[a].track.version <= ws[b].track.version
    ensures ws[a].track.version == ws[b].track.version <==> NoEnds(sts, a, b)
    decreases b
  {
    if a < b { VersionGrows(ws, sts, a, b - 1); }
  }

  // While no write ends, those under way stay so, and new ones join.
  lemma {:induction false} PendingKept(ws: seq<World>, sts: seq<Step>, a: nat, b: nat, c: nat)
    requires IsRun(ws, sts) && a <= b <= |sts| && NoEnds(sts, a, b)
    ensures c in ws[a].pend ==> c in ws[b].pend && ws[b].pend[c].init == ws[a].pend[c].init
    ensures forall k :: a <= k < b && sts[k].BeginW? && sts[k].c == c ==> c in ws[b].pend
    decreases b
  {
    if a < b { PendingKept(ws, sts, a, b - 1, c); }
  }

  lemma {:induction false} CalmKeeps(ws: seq<World>, sts: seq<Step>, a: nat, b: nat)
    requires IsRun(ws, sts) && a <= b <= |sts| && Calm(sts, a, b)
    ensures ws[b].pend.Keys == ws[a].pend.Keys && ws[b].track == ws[a].track
    ensures forall c :: c in ws[a].pend ==> ws[b].pend[c].init == ws[a].pend[c].init
    decreases b
  {
    if a < b { CalmKeeps(ws, sts, a, b - 1); }
  }

  // Where a write under way began.
  lemma {:induction false} Began(ws: seq<World>, sts: seq<Step>, n: nat, c: nat) returns (b: nat)
    requires IsRun(ws, sts) && n <= |sts| && c in ws[n].pend
    ensures b < n && sts[b].BeginW? && sts[b].c == c && ws[n].pend[c].init == ws[b].track.version
    decreases n
  {
    assert n > 0;
    var st := sts[n - 1];
    assert ws[n] == Next(ws[n - 1], st);
    if st.BeginW? && st.c == c {
      b := n - 1;
    } else {
      b := Began(ws, sts, n - 1, c);
    }
  }

  // A successful write from b to e with no other under way at any time in between.
  ghost predicate Lone(ws: seq<World>, sts: seq<Step>, b: nat, e: nat) {
    && b < e < |sts| < |ws| && sts[b].BeginW? && sts[e].EndW? && sts[b].c == sts[e].c && !sts[e].err
    && ws[b].pend == map[] && Calm(sts, b + 1, e)
  }

  // The test by which CompleteWrite makes a value the only one.
  predicate Replaces(w: World, st: Step)
    requires Enabled(w, st) && st.EndW?
  {
    !st.err && w.pend[st.c].init == w.track.version && w.track.rc == 1
  }

  lemma LoneReplaces(ws: seq<World>, sts: seq<Step>, b: nat, e: nat)
    requires IsRun(ws, sts) && Lone(ws, sts, b, e)
    ensures Replaces(ws[e], sts[e])
  {
    var c := sts[b].c;
    assert ws[b + 1] == Next(ws[b], sts[b]);
    assert ws[b + 1].pend.Keys == {c};
    CalmKeeps(ws, sts, b + 1, e);
    EveryRunInv(ws, sts, e);
    assert |ws[e].pend| == |ws[e].pend.Keys|;
  }

  lemma ReplacesIsLone(ws: seq<World>, sts: seq<Step>, e: nat) returns (b: nat)
    requires IsRun(ws, sts) && e < |sts| && sts[e].EndW? && Enabled(ws[e], sts[e]) && Replaces(ws[e], sts[e])
    ensures Lone(ws, sts, b, e)
  {
    var c := sts[e].c;
    b := Began(ws, sts, e, c);
    VersionGrows(ws, sts, b, e);
    EveryRunInv(ws, sts, e);
    assert Enabled(ws[b], sts[b]) && ws[b + 1] == Next(ws[b], sts[b]);
    forall d | d in ws[e].pend ensures d == c {
      if d != c { TwoPending(ws[e].pend, c, d); }
    }
    forall d | d in ws[b].pend ensures false {
      PendingKept(ws, sts, b, e, d);
    }
    assert ws[b].pend == map[];
    forall k | b + 1 <= k < e ensures !sts[k].BeginW? {
      if sts[k].BeginW? {
        assert Enabled(ws[k], sts[k]);
        PendingKept(ws, sts, b + 1, e, sts[k].c);
        PendingKept(ws, sts, b + 1, k, c);
      }
    }
  }

  lemma TwoPending(pend: map<nat, Pending>, c: nat, d: nat)
    requires c in pend && d in pend && c != d
    ensures |pend| > 1
  {
    assert |{c, d}| == 2;
    SubsetCard({c, d}, pend.Keys);
  }

  // ---------- Which values are current ----------

  // The write of v ended at step e, before step n.
  ghost predicate Ended(ws: seq<World>, sts: seq<Step>, n: nat, e: nat, v: Value) {
    e < n && e < |sts| < |ws| && sts[e].EndW? && sts[e].c in ws[e].pend && ws[e].pend[sts[e].c].value == v
  }

  ghost predicate Written(ws: seq<World>, sts: seq<Step>, n: nat, v: Value) {
    exists e: nat :: Ended(ws, sts, n, e, v)
  }

  // v was written, and a lone successful write began after that and has ended.
  ghost predicate Gone(ws: seq<World>, sts: seq<Step>, n: nat, v: Value) {
    exists e: nat, b: nat, f: nat :: Ended(ws, sts, n, e, v) && e < b && f < n && Lone(ws, sts, b, f)
  }

  // What is kept of the write that ended at e.
  function Kept(ws: seq<World>, sts: seq<Step>, e: nat): Val
    requires e < |sts| < |ws| && sts[e].EndW? && sts[e].c in ws[e].pend
  {
    ValOf(ws[e], sts[e].c, sts[e].err, sts[e].end)
  }

  // The track after n steps says of v what the history does.
  ghost predicate RecordsOk(ws: seq<World>, sts: seq<Step>, n: nat, v: Value)
    requires n < |ws|
  {
    && (v in ws[n].track.over <==> Gone(ws, sts, n, v))
    && (v in ws[n].track.values <==> Written(ws, sts, n, v) && !Gone(ws, sts, n, v))
    && (forall e: nat :: Ended(ws, sts, n, e, v) && v in ws[n].track.values ==> ws[n].track.values[v] == Kept(ws, sts, e))
  }

  lemma EndedSame(ws: seq<World>, sts: seq<Step>, n: nat, e: nat, v: Value)
    requires !Ended(ws, sts, n + 1, n, v)
    ensures Ended(ws, sts, n + 1, e, v) <==> Ended(ws, sts, n, e, v)
  {
  }

  lemma GoneStays(ws: seq<World>, sts: seq<Step>, n: nat, v: Value)
    ensures Gone(ws, sts, n, v) ==> Gone(ws, sts, n + 1, v)
    ensures Gone(ws, sts, n, v) ==> Written(ws, sts, n, v)
  {
    if Gone(ws, sts, n, v) {
      var e: nat, b: nat, f: nat :| Ended(ws, sts, n, e, v) && e < b && f < n && Lone(ws, sts, b, f);
      assert Ended(ws, sts, n + 1, e, v);
    }
  }

  // Step n ends no write of v: v is newly overwritten only if the step ends a lone one.
  lemma GoneNext(ws: seq<World>, sts: seq<Step>, n: nat, v: Value)
    requires !Ended(ws, sts, n + 1, n, v) && forall b: nat :: !Lone(ws, sts, b, n)
    ensures Gone(ws, sts, n + 1, v) <==> Gone(ws, sts, n, v)
    ensures Written(ws, sts, n + 1, v) <==> Written(ws, sts, n, v)
  {
    hide Lone;
    GoneStays(ws, sts, n, v);
    if Gone(ws, sts, n + 1, v) {
      var e: nat, b: nat, f: nat :| Ended(ws, sts, n + 1, e, v) && e < b && f < n + 1 && Lone(ws, sts, b, f);
      assert f != n;
      EndedSame(ws, sts, n, e, v);
    }
    WrittenSame(ws, sts, n, v);
  }

  lemma WrittenSame(ws: seq<World>, sts: seq<Step>, n: nat, v: Value)
    requires !Ended(ws, sts, n + 1, n, v)
    ensures Written(ws, sts, n + 1, v) <==> Written(ws, sts, n, v)
  {
    if Written(ws, sts, n + 1, v) {
      var e: nat :| Ended(ws, sts, n + 1, e, v);
      EndedSame(ws, sts, n, e, v);
    }
    if Written(ws, sts, n, v) {
      var e: nat :| Ended(ws, sts, n, e, v);
      EndedSame(ws, sts, n, e, v);
    }
  }

  // It does end a lone one: everything written before is overwritten.
  lemma GoneAll(ws: seq<World>, sts: seq<Step>, n: nat, v: Value, b: nat)
    requires !Ended(ws, sts, n + 1, n, v) && Lone(ws, sts, b, n)
    ensures Gone(ws, sts, n + 1, v) <==> Written(ws, sts, n, v)
  {
    WrittenSame(ws, sts, n, v);
    GoneStays(ws, sts, n + 1, v);
    if Written(ws, sts, n, v) {
      var e: nat :| Ended(ws, sts, n, e, v);
      assert e < b && Ended(ws, sts, n + 1, e, v);
    }
  }

  // Step n ends the write of v, the first of that value.
  lemma JustWritten(ws: seq<World>, sts: seq<Step>, n: nat, m: nat, v: Value)
    requires m == n + 1 && Ended(ws, sts, m, n, v) && !Written(ws, sts, n, v)
    ensures Written(ws, sts, m, v) && !Gone(ws, sts, m, v)
    ensures forall e: nat :: Ended(ws, sts, m, e, v) ==> e == n
  {
    forall e: nat | Ended(ws, sts, m, e, v) ensures e == n {
      if e < n { assert Ended(ws, sts, n, e, v); }
    }
  }

  lemma NewlyEnded(ws: seq<World>, sts: seq<Step>, n: nat, v: Value)
    requires IsRun(ws, sts) && n < |sts| && Ended(ws, sts, n + 1, n, v) && RecordsOk(ws, sts, n, v)
    ensures RecordsOk(ws, sts, n + 1, v)
  {
    EveryRunInv(ws, sts, n);
    assert ws[n + 1] == Next(ws[n], sts[n]);
    assert !Duplicate(ws[n].track, v);
    hide IsRun, Gone, Inv, Written;
    JustWritten(ws, sts, n, n + 1, v);
  }

  lemma OtherEnded(ws: seq<World>, sts: seq<Step>, n: nat, v: Value)
    requires IsRun(ws, sts) && n < |sts| && sts[n].EndW? && !Ended(ws, sts, n + 1, n, v) && RecordsOk(ws, sts, n, v)
    ensures RecordsOk(ws, sts, n + 1, v)
  {
    var w, st := ws[n], sts[n];
    assert Enabled(w, st) && ws[n + 1] == Next(w, st);
    hide IsRun, Gone, Written, Lone;
    forall e: nat ensures Ended(ws, sts, n + 1, e, v) <==> Ended(ws, sts, n, e, v) { EndedSame(ws, sts, n, e, v); }
    WrittenSame(ws, sts, n, v);
    if Replaces(w, st) {
      var b := ReplacesIsLone(ws, sts, n);
      GoneAll(ws, sts, n, v, b);
      GoneStays(ws, sts, n, v);
    } else {
      forall b: nat ensures !Lone(ws, sts, b, n) {
        if Lone(ws, sts, b, n) { LoneReplaces(ws, sts, b, n); }
      }
      GoneNext(ws, sts, n, v);
    }
  }

  lemma NoneEnded(ws: seq<World>, sts: seq<Step>, n: nat, v: Value)
    requires IsRun(ws, sts) && n < |sts| && !sts[n].EndW? && RecordsOk(ws, sts, n, v)
    ensures RecordsOk(ws, sts, n + 1, v)
  {
    assert ws[n + 1] == Next(ws[n], sts[n]);
    forall b: nat ensures !Lone(ws, sts, b, n) { }
    hide IsRun, Gone, Written, Lone;
    forall e: nat ensures Ended(ws, sts, n + 1, e, v) <==> Ended(ws, sts, n, e, v) { EndedSame(ws, sts, n, e, v); }
    GoneNext(ws, sts, n, v);
  }

  // The current values are those written and not overwritten since; the others are the
  // overwritten ones.
  lemma {:induction false} Records(ws: seq<World>, sts: seq<Step>, n: nat, v: Value)
    requires IsRun(ws, sts) && n <= |sts|
    ensures RecordsOk(ws, sts, n, v)
    decreases n
  {
    if n > 0 {
      Records(ws, sts, n - 1, v);
      hide IsRun, RecordsOk;
      if Ended(ws, sts, n, n - 1, v) {
        NewlyEnded(ws, sts, n - 1, v);
      } else if sts[n - 1].EndW? {
        OtherEnded(ws, sts, n - 1, v);
      } else {
        NoneEnded(ws, sts, n - 1, v);
      }
    }
  }

  // ---------- Which reads are judged ----------

  // Read r, begun at b, is still going on at i.
  ghost predicate Reading(ws: seq<World>, sts: seq<Step>, b: nat, i: nat, r: nat) {
    && b < i <= |sts| && sts[b].BeginR? && sts[b].r == r
    && forall k :: b < k < i ==> !(sts[k].EndR? && sts[k].r == r)
  }

  lemma {:induction false} ReadKept(ws: seq<World>, sts: seq<Step>, b: nat, i: nat, r: nat)
    requires IsRun(ws, sts) && Reading(ws, sts, b, i, r)
    ensures r in ws[i].readers && ws[i].readers[r].start == sts[b].start
    ensures ws[i].readers[r].init == ws[b].track.version && ws[i].readers[r].pending == (ws[b].track.rc != 0)
    decreases i
  {
    assert Enabled(ws[i - 1], sts[i - 1]) && ws[i] == Next(ws[i - 1], sts[i - 1]);
    if b + 1 < i { ReadKept(ws, sts, b, i - 1, r); }
  }

  // No write was under way when the read began, and none began or ended since.
  ghost predicate Undisturbed(ws: seq<World>, sts: seq<Step>, b: nat, i: nat)
    requires b < |ws|
  {
    ws[b].pend == map[] && Calm(sts, b, i)
  }

  lemma JudgedWhen(ws: seq<World>, sts: seq<Step>, b: nat, i: nat, r: nat)
    requires IsRun(ws, sts) && Reading(ws, sts, b, i, r) && Enabled(ws[i], EndR(r))
    ensures Judge(ws[i], r) != Skipped <==> Undisturbed(ws, sts, b, i)
    ensures Undisturbed(ws, sts, b, i) ==>
      ws[i].track.version == ws[i].readers[r].init && ws[i].track.rc == 0 && !ws[i].readers[r].pending
  {
    ReadKept(ws, sts, b, i, r);
    EveryRunInv(ws, sts, b);
    EveryRunInv(ws, sts, i);
    VersionGrows(ws, sts, b, i);
    if Judge(ws[i], r) != Skipped {
      assert ws[b].pend == map[] && ws[i].pend == map[];
      forall k | b <= k < i ensures !sts[k].BeginW? {
        if sts[k].BeginW? { PendingKept(ws, sts, b, i, sts[k].c); }
      }
    }
    if Undisturbed(ws, sts, b, i) { CalmKeeps(ws, sts, b, i); }
  }

  // ---------- What is reported ----------

  // A write of v that succeeded ended so long ago that v has expired by start.
  ghost predicate Late(ws: seq<World>, sts: seq<Step>, n: nat, v: Value, start: int)
    requires n <= |sts| < |ws|
  {
    exists e: nat :: Ended(ws, sts, n, e, v) && !sts[e].err && sts[e].end + ws[e].ttl + ws[e].buffer < start
  }

  // The verdict on a read that was told v, whatever the register held: skipped exactly
  // if a write overlapped it; never written exactly if no write of v has ended;
  // overwritten exactly if a lone successful write came after v's; expired exactly if
  // v's write is the last word, succeeded, and its time was over when the read began.
  lemma FoundVerdict(ws: seq<World>, sts: seq<Step>, b: nat, i: nat, r: nat, v: Value)
    requires IsRun(ws, sts) && Reading(ws, sts, b, i, r) && Enabled(ws[i], EndR(r)) && ws[i].readers[r].seen == Found(v)
    ensures var judged, verdict := Undisturbed(ws, sts, b, i), Judge(ws[i], r);
      && (verdict == Skipped <==> !judged)
      && (verdict == NeverWritten <==> judged && !Written(ws, sts, i, v))
      && (verdict == Overwritten <==> judged && Gone(ws, sts, i, v))
      && (verdict == Expired <==> judged && !Gone(ws, sts, i, v) && Late(ws, sts, i, v, sts[b].start))
      && verdict != Missing
  {
    JudgedWhen(ws, sts, b, i, r);
    ReadKept(ws, sts, b, i, r);
    Records(ws, sts, i, v);
    hide IsRun, Reading, Undisturbed, Lone, Gone;
    if v in ws[i].track.values {
      LateIs(ws, sts, i, v, sts[b].start);
    }
  }

  lemma LateIs(ws: seq<World>, sts: seq<Step>, n: nat, v: Value, start: int)
    requires n <= |sts| < |ws| && RecordsOk(ws, sts, n, v) && v in ws[n].track.values
    ensures Late(ws, sts, n, v, start) <==> !ws[n].track.values[v].err && ws[n].track.values[v].definitely < start
  {
    hide Gone;
    var e: nat :| Ended(ws, sts, n, e, v);
    assert ws[n].track.values[v] == Kept(ws, sts, e);
  }

  // With the flag off, expiry of a found value is not looked at, and nothing else changes.
  lemma TtlFlag(t: Track, seen: Option<Value>, start: int, now: int, init: int, pending: bool)
    ensures var on, off := Check(t, seen, start, now, init, pending, true), Check(t, seen, start, now, init, pending, false);
      off == if on == Expired then Fine else on
  {
  }

  // In particular a value no write ever used is reported.
  lemma StrangerFound(ws: seq<World>, sts: seq<Step>, b: nat, i: nat, r: nat, v: Value)
    requires IsRun(ws, sts) && Reading(ws, sts, b, i, r) && Enabled(ws[i], EndR(r)) && ws[i].readers[r].seen == Found(v)
    requires Undisturbed(ws, sts, b, i) && forall k :: 0 <= k < i ==> !(sts[k].BeginW? && sts[k].value == v)
    ensures Judge(ws[i], r) == NeverWritten
  {
    FoundVerdict(ws, sts, b, i, r, v);
    if Written(ws, sts, i, v) {
      var e: nat :| Ended(ws, sts, i, e, v);
      NeverUsed(ws, sts, e, v);
    }
  }

  lemma {:induction false} NeverUsed(ws: seq<World>, sts: seq<Step>, n: nat, v: Value)
    requires IsRun(ws, sts) && n <= |sts| && forall k :: 0 <= k < n ==> !(sts[k].BeginW? && sts[k].value == v)
    ensures forall c :: c in ws[n].pend ==> ws[n].pend[c].value != v
    decreases n
  {
    if n > 0 {
      NeverUsed(ws, sts, n - 1, v);
      assert Enabled(ws[n - 1], sts[n - 1]) && ws[n] == Next(ws[n - 1], sts[n - 1]);
    }
  }

  // The write that ended at e is the last word on its value, and may still be there.
  ghost predicate Standing(ws: seq<World>, sts: seq<Step>, n: nat, e: nat, v: Value) {
    Ended(ws, sts, n, e, v) && !Gone(ws, sts, n, v)
  }

  // The verdict on a read that was told there is nothing: reported exactly if some value
  // stands, and none that stands may have expired.
  lemma MissedVerdict(ws: seq<World>, sts: seq<Step>, b: nat, i: nat, r: nat)
    requires IsRun(ws, sts) && Reading(ws, sts, b, i, r) && Enabled(ws[i], EndR(r)) && ws[i].readers[r].seen.Missed?
    ensures var judged, verdict := Undisturbed(ws, sts, b, i), Judge(ws[i], r);
      && (verdict == Skipped <==> !judged)
      && (verdict == Missing <==>
            && judged && (exists e: nat, v :: Standing(ws, sts, i, e, v))
            && forall e: nat, v :: Standing(ws, sts, i, e, v) ==> ws[i].now <= ws[e].pend[sts[e].c].start + ws[e].ttl)
      && verdict in {Skipped, Fine, Missing}
  {
    JudgedWhen(ws, sts, b, i, r);
    forall v ensures RecordsOk(ws, sts, i, v) { Records(ws, sts, i, v); }
    var vals := ws[i].track.values;
    hide IsRun, Reading, Undisturbed, Lone, Gone;
    if Undisturbed(ws, sts, b, i) {
      forall e: nat, v | Standing(ws, sts, i, e, v) ensures v in vals && vals[v].maybe == ws[e].pend[sts[e].c].start + ws[e].ttl {
        assert RecordsOk(ws, sts, i, v);
      }
      forall v | v in vals ensures exists e: nat :: Standing(ws, sts, i, e, v) {
        assert RecordsOk(ws, sts, i, v);
        var e: nat :| Ended(ws, sts, i, e, v);
        assert Standing(ws, sts, i, e, v);
      }
    }
  }
}
