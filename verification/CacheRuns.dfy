// What the buffer cache cannot give: how many buffers a transaction can pin, and the
// runs in which a buffer runs out or a failing disk loses data.
module CacheRuns {
  import opened Blocks
  import opened SectorCache

  const NBUF := 10

  // ---------- Counting pinned buffers ----------

  // How many buffers are busy or dirty.
  function Pins(ring: seq<Buf>): (n: nat)
    ensures n <= |ring|
    ensures n == |ring| <==> forall i :: 0 <= i < |ring| ==> !Idle(ring[i])
  {
    if ring == [] then 0 else Pins(ring[1..]) + if Idle(ring[0]) then 0 else 1
  }

  // The sectors those buffers cache.
  ghost function Pinned(ring: seq<Buf>): set<Addr> {
    set i | 0 <= i < |ring| && !Idle(ring[i]) && ring[i].key.At? :: ring[i].key.addr
  }

  // Busy and dirty buffers all cache a sector, no two the same.
  ghost predicate Distinct(ring: seq<Buf>) {
    && (forall i :: 0 <= i < |ring| && !Idle(ring[i]) ==> ring[i].key.At?)
    && (forall i, j :: 0 <= i < j < |ring| && ring[i].key == ring[j].key ==> ring[i].key.Nothing?)
  }

  lemma SoundDistinct(s: Sys)
    requires Sound(s)
    ensures Distinct(s.ring)
  {
    assert forall i :: 0 <= i < |s.ring| ==> BufOk(s, s.ring[i]);
  }

  lemma {:induction false} CountPinned(ring: seq<Buf>)
    requires Distinct(ring)
    ensures |Pinned(ring)| == Pins(ring)
  {
    hide Pinned;
    if ring == [] {
      NonePinned();
    } else {
      CountPinned(ring[1..]);
      PinnedTail(ring);
    }
  }

  lemma NonePinned()
    ensures Pinned([]) == {}
  {
  }

  lemma PinnedTail(ring: seq<Buf>)
    requires ring != [] && Distinct(ring)
    ensures Idle(ring[0]) ==> Pinned(ring) == Pinned(ring[1..])
    ensures !Idle(ring[0]) ==> Pinned(ring) == Pinned(ring[1..]) + {ring[0].key.addr}
    ensures !Idle(ring[0]) ==> ring[0].key.addr !in Pinned(ring[1..])
  {
    var rest := ring[1..];
    forall a ensures a in Pinned(ring) <==> a in Pinned(rest) || (!Idle(ring[0]) && ring[0].key == At(a)) {
      if a in Pinned(rest) {
        var j :| 0 <= j < |rest| && !Idle(rest[j]) && rest[j].key == At(a);
        assert ring[j + 1] == rest[j];
      }
      if a in Pinned(ring) {
        var i :| 0 <= i < |ring| && !Idle(ring[i]) && ring[i].key == At(a);
        assert i > 0 ==> rest[i - 1] == ring[i];
      }
    }
  }

  // bufcache_get panics exactly when as many sectors are pinned as there are buffers
  // and the one asked for is not among them.
  lemma PanicsWhenFull(s: Sys, a: Addr)
    requires Sound(s)
    ensures GetIndex(s.ring, a) == |s.ring| <==> |Pinned(s.ring)| == |s.ring| && a !in Pinned(s.ring)
    ensures a !in Pinned(s.ring) ==> (CanGet(s.ring, a) <==> |Pinned(s.ring)| < |s.ring|)
    ensures a in Pinned(s.ring) ==>
      Lookup(s.ring, a) < |s.ring| && (CanGet(s.ring, a) <==> !s.ring[Lookup(s.ring, a)].busy)
  {
    SoundDistinct(s);
    CountPinned(s.ring);
    var i := Lookup(s.ring, a);
    assert i < |s.ring| && a !in Pinned(s.ring) ==> Idle(s.ring[i]);
  }

  // log_write's situation: the sectors logged so far are pinned by dirty buffers, the
  // last one is held, and a buffer for its log block is wanted. k sectors get one
  // exactly when there are at least k + 1 buffers.
  lemma LogBlockBuffer(s: Sys, logged: set<Addr>, block: Addr)
    requires Sound(s) && Pinned(s.ring) == logged && block !in logged
    ensures CanGet(s.ring, block) <==> |logged| + 1 <= |s.ring|
  {
    PanicsWhenFull(s, block);
  }

  // ---------- Building runs ----------

  datatype Trace = Trace(states: seq<Sys>, steps: seq<Step>)

  ghost function Last(r: Trace): Sys
    requires |r.states| > 0
  {
    r.states[|r.states| - 1]
  }

  ghost predicate Extends(r: Trace, x: Trace) {
    |r.states| > 0 && r.states <= x.states && r.steps <= x.steps
  }

  lemma Go(r: Trace, st: Step) returns (x: Trace)
    requires IsRun(r.states, r.steps) && Enabled(Last(r), st)
    ensures IsRun(x.states, x.steps) && Extends(r, x) && x.steps == r.steps + [st] && Last(x) == Next(Last(r), st)
  {
    hide Enabled, Next, Init;
    x := Trace(r.states + [Next(Last(r), st)], r.steps + [st]);
    forall n | 0 <= n < |x.steps| ensures Enabled(x.states[n], x.steps[n]) && x.states[n + 1] == Next(x.states[n], x.steps[n]) {
      if n == |r.steps| { assert x.states[n] == Last(r); }
    }
  }

  // No request is queued, and b is the least recently released buffer.
  ghost predicate Ready(r: Trace, b: Buf) {
    && |r.states| > 0 && IsRun(r.states, r.steps)
    && var s := Last(r);
       |s.ring| > 0 && s.ring[|s.ring| - 1] == b && s.queue == []
  }

  // From r to x only the last buffer and the disk may have changed.
  ghost predicate OnlyLast(r: Trace, x: Trace)
    requires |r.states| > 0 && |x.states| > 0 && |Last(r).ring| > 0
  {
    && Extends(r, x) && |Last(x).ring| == |Last(r).ring|
    && Last(x).ring[..|Last(r).ring| - 1] == Last(r).ring[..|Last(r).ring| - 1]
  }

  lemma Holds(r: Trace, b: Buf)
    requires Ready(r, b)
    ensures Sound(Last(r)) && Find(Last(r).ring, b.id) == |Last(r).ring| - 1
  {
    hide Init, Find;
    EveryRunSound(r.states, r.steps, |r.steps|);
    FindsAt(Last(r).ring, Last(r).clock, |Last(r).ring| - 1);
  }

  // The last buffer is recycled for a.
  lemma Gets(r: Trace, b: Buf, a: Addr) returns (x: Trace)
    requires Ready(r, b) && Idle(b) && Lookup(Last(r).ring, a) == |Last(r).ring|
    ensures Ready(x, Recycle(b, a)) && OnlyLast(r, x) && Last(x).disk == Last(r).disk
    ensures x.steps == r.steps + [Get(a)]
  {
    x := Go(r, Get(a));
  }

  // ide_rw on the last buffer, and the interrupt that ends it.
  lemma Syncs(r: Trace, b: Buf, ok: bool, left: Block) returns (x: Trace)
    requires Ready(r, b) && b.busy && !(b.valid && !b.dirty) && b.key.At?
    ensures Ready(x, b.(valid := true, dirty := false, changed := false,
                        data := if !b.dirty && ok then Sector(Last(r).disk, b.key.addr) else b.data))
    ensures OnlyLast(r, x) && x.steps == r.steps + [Submit(b.id), Complete(ok, left)]
    ensures Last(x).disk == if b.dirty then Last(r).disk[b.key.addr := if ok then b.data else left] else Last(r).disk
  {
    hide Init, Find, IsRun;
    Holds(r, b);
    var y := Go(r, Submit(b.id));
    x := Go(y, Complete(ok, left));
  }

  // The holder writes the last buffer and hands it to the log or marks it for the disk.
  lemma Edits(r: Trace, b: Buf, data: Block) returns (x: Trace)
    requires Ready(r, b) && b.busy && b.valid && b.key.At?
    ensures Ready(x, b.(data := data, dirty := true, changed := false)) && Last(x).disk == Last(r).disk
    ensures OnlyLast(r, x) && x.steps == r.steps + [Modify(b.id, data), Mark(b.id)]
    ensures LastWritten(x.states, x.steps, b.key.addr, |x.steps|) == data && |Last(x).ring| == |Last(r).ring|
  {
    hide Init, Find, IsRun;
    Holds(r, b);
    var y := Go(r, Modify(b.id, data));
    Holds(y, b.(data := data, changed := true));
    x := Go(y, Mark(b.id));
    JustWritten(r, x, b, data);
  }

  lemma JustWritten(r: Trace, x: Trace, b: Buf, data: Block)
    requires Ready(r, b) && Held(Last(r), b.id) && Find(Last(r).ring, b.id) == |Last(r).ring| - 1 && b.key.At?
    requires IsRun(x.states, x.steps) && Extends(r, x) && x.steps == r.steps + [Modify(b.id, data), Mark(b.id)]
    ensures LastWritten(x.states, x.steps, b.key.addr, |x.steps|) == data
  {
    var m := |r.steps|;
    hide Find, Init, Next;
    assert x.states[m] == Last(r);
    assert Writes(x.states[m], x.steps[m], b.key.addr);
    assert LastWritten(x.states, x.steps, b.key.addr, m + 1) == data;
  }

  // The last buffer is released, and comes to the front.
  lemma Drops(r: Trace, b: Buf) returns (x: Trace)
    requires Ready(r, b) && b.busy && b.valid && !b.changed
    ensures IsRun(x.states, x.steps) && Extends(r, x) && x.steps == r.steps + [Release(b.id)]
    ensures var s := Last(r); Last(x) == s.(clock := s.clock + 1,
      ring := [b.(busy := false, stamp := s.clock)] + s.ring[..|s.ring| - 1])
  {
    hide Init, Find, IsRun;
    Holds(r, b);
    x := Go(r, Release(b.id));
    assert Last(r).ring[|Last(r).ring|..] == [];
  }

  // ---------- A cache one buffer short ----------

  function Home(k: nat): Addr { Addr(0, k) }

  // Sectors 0 to k - 1 are logged: in dirty buffers nobody holds. The rest are unused.
  ghost predicate Logged(r: Trace, n: nat, k: nat) {
    && |r.states| > 0 && IsRun(r.states, r.steps) && k <= n
    && var s := Last(r);
       && |s.ring| == n && s.queue == []
       && (forall i :: 0 <= i < k ==> s.ring[i].dirty && !s.ring[i].busy && s.ring[i].key == At(Home(k - 1 - i)))
       && (forall i :: k <= i < n ==> Idle(s.ring[i]) && s.ring[i].key.Nothing?)
  }

  // Sector k is got and read in.
  lemma Fetches(r: Trace, n: nat, k: nat) returns (x: Trace, b: Buf)
    requires Logged(r, n, k) && k < n
    ensures Ready(x, b) && OnlyLast(r, x) && b.busy && b.valid && !b.dirty && !b.changed && b.key == At(Home(k))
  {
    hide Init, IsRun, Lookup;
    var v := Last(r).ring[n - 1];
    var i := Lookup(Last(r).ring, Home(k));
    var y := Gets(r, v, Home(k));
    b := Recycle(v, Home(k));
    x := Syncs(y, b, true, ZERO);
    b := Last(x).ring[n - 1];
  }

  // Sector k is got, read in, written, logged and released.
  lemma Logs(r: Trace, n: nat, k: nat) returns (x: Trace)
    requires Logged(r, n, k) && k < n
    ensures Logged(x, n, k + 1) && Extends(r, x)
  {
    hide Init, IsRun;
    var y, b := Fetches(r, n, k);
    y := Edits(y, b, ZERO);
    b := b.(data := ZERO, dirty := true, changed := false);
    var s := Last(y);
    x := Drops(y, b);
    forall i | 0 < i < n ensures Last(x).ring[i] == Last(r).ring[i - 1] {
      assert s.ring[..n - 1][i - 1] == Last(r).ring[..n - 1][i - 1];
    }
  }

  lemma {:induction false} LogsUpTo(r: Trace, n: nat, k: nat) returns (x: Trace)
    requires Logged(r, n, 0) && k <= n
    ensures Logged(x, n, k) && Extends(r, x) && r.states[0] == x.states[0]
    decreases k
  {
    if k == 0 {
      x := r;
    } else {
      x := LogsUpTo(r, n, k - 1);
      x := Logs(x, n, k - 1);
    }
  }

  // The first n sectors of the disk.
  ghost function Homes(n: nat): set<Addr> { set i: nat | i < n :: Home(i) }

  // Whatever the number of buffers, logging that many sectors finds none left for the
  // last one's log block: n - 1 are logged, the n-th is held, and any other sector is
  // one too many.
  lemma NoBufferLeft(s: Sys, block: Addr) returns (x: Trace)
    requires Init(s) && |s.ring| > 0 && block !in Homes(|s.ring|)
    ensures IsRun(x.states, x.steps) && x.states[0] == s && |Last(x).ring| == |s.ring|
    ensures Pinned(Last(x).ring) == Homes(|s.ring|)
    ensures GetIndex(Last(x).ring, block) == |s.ring| && !CanGet(Last(x).ring, block)
  {
    hide *;
    var n := |s.ring|;
    var r := NothingLogged(s);
    r := LogsUpTo(r, n, n - 1);
    var b;
    x, b := Fetches(r, n, n - 1);
    AllPinned(r, x, b, n);
    EveryRunSound(x.states, x.steps, |x.steps|);
    CountHomes(n);
    PanicsWhenFull(Last(x), block);
  }

  lemma NothingLogged(s: Sys) returns (r: Trace)
    requires Init(s)
    ensures r == Trace([s], []) && Logged(r, |s.ring|, 0)
  {
    r := Trace([s], []);
  }

  lemma AllPinned(r: Trace, x: Trace, b: Buf, n: nat)
    requires n > 0 && Logged(r, n, n - 1) && Ready(x, b) && OnlyLast(r, x) && b.busy && b.key == At(Home(n - 1))
    ensures |Last(x).ring| == n && Pinned(Last(x).ring) == Homes(n)
    ensures IsRun(x.states, x.steps) && x.states[0] == r.states[0] && |x.states| == |x.steps| + 1 && x.states[|x.steps|] == Last(x)
  {
    var ring := Last(x).ring;
    forall i | 0 <= i < n ensures !Idle(ring[i]) && ring[i].key == At(Home(if i == n - 1 then n - 1 else n - 2 - i)) {
      if i < n - 1 { assert ring[..n - 1][i] == Last(r).ring[..n - 1][i]; }
    }
    forall a | a in Homes(n) ensures a in Pinned(ring) {
      var i := if a.sector == n - 1 then n - 1 else n - 2 - a.sector;
      assert ring[i].key == At(a);
    }
  }

  lemma {:induction false} CountHomes(n: nat)
    ensures |Homes(n)| == n
  {
    if n > 0 {
      CountHomes(n - 1);
      assert Homes(n) == Homes(n - 1) + {Home(n - 1)};
    }
  }

  function FirstBuf(id: nat, data: Block): Buf { Buf(id, Nothing, false, false, false, data, false, id) }

  // bufcache_init with n buffers whose memory holds data.
  function Fresh(n: nat, data: Block): Sys {
    Sys(seq(n, i requires 0 <= i < n => FirstBuf(n - 1 - i, data)), [], None, map[], n, [], [])
  }

  // With the NBUF = 10 buffers of params.h, the tenth sector of a transaction finds no
  // buffer for its log block, although the log has LOGSIZE = 10 blocks.
  lemma TenthSectorPanics(block: Addr) returns (states: seq<Sys>, steps: seq<Step>)
    requires block !in Homes(NBUF)
    ensures IsRun(states, steps) && |states[0].ring| == NBUF
    ensures Pinned(states[|steps|].ring) == Homes(NBUF)
    ensures !CanGet(states[|steps|].ring, block) && GetIndex(states[|steps|].ring, block) == NBUF
  {
    hide Lookup, Victim, Next, Enabled, Pinned;
    var x := NoBufferLeft(Fresh(NBUF, ZERO), block);
    states, steps := x.states, x.steps;
  }

  // ---------- A failing disk ----------

  const ONES: Block := ZERO[0 := 1]

  // A buffer caching sector 0 for a process that has read it in as data.
  function Cached(data: Block): Buf { Buf(0, At(Home(0)), true, true, false, data, false, 0) }

  lemma OneFresh(r: Trace, data: Block)
    requires r == Trace([Fresh(1, data)], [])
    ensures Ready(r, FirstBuf(0, data)) && LastWritten(r.states, r.steps, Home(0), 0) == ZERO
  {
  }

  // The one buffer is got for sector 0 and read in, or left as it was if the disk fails.
  lemma OneRead(data: Block, ok: bool) returns (x: Trace)
    ensures Ready(x, Cached(if ok then ZERO else data)) && |Last(x).ring| == 1
    ensures x.steps == [Get(Home(0)), Submit(0), Complete(ok, ZERO)]
    ensures Contents(Last(x), Home(0)) == if ok then ZERO else data
    ensures LastWritten(x.states, x.steps, Home(0), |x.steps|) == ZERO
  {
    hide Enabled, Next, Sound, Init, IsRun, LastWritten;
    var r, b := Trace([Fresh(1, data)], []), FirstBuf(0, data);
    OneFresh(r, data);
    x := Gets(r, b, Home(0));
    x := Syncs(x, Recycle(b, Home(0)), ok, ZERO);
    Unwritten(r, x, Home(0));
  }

  // The read of sector 0 fails; its holder sees what the buffer's memory held before.
  lemma StaleRead() returns (x: Trace)
    ensures IsRun(x.states, x.steps) && x.steps == [Get(Home(0)), Submit(0), Complete(false, ZERO)]
    ensures Contents(Last(x), Home(0)) == ONES
    ensures LastWritten(x.states, x.steps, Home(0), |x.steps|) == ZERO != ONES
  {
    hide IsRun, Contents, LastWritten;
    x := OneRead(ONES, false);
    assert ONES[0] != ZERO[0];
  }

  // Steps that modify no buffer write nothing.
  lemma {:induction false} Unwritten(r: Trace, x: Trace, a: Addr)
    requires IsRun(r.states, r.steps) && IsRun(x.states, x.steps) && Extends(r, x)
    requires forall k :: |r.steps| <= k < |x.steps| ==> !x.steps[k].Modify?
    ensures LastWritten(x.states, x.steps, a, |x.steps|) == LastWritten(r.states, r.steps, a, |r.steps|)
  {
    hide IsRun;
    SameWritten(r, x, a, |r.steps|);
    StillWritten(x, a, |r.steps|, |x.steps|);
  }

  lemma {:induction false} SameWritten(r: Trace, x: Trace, a: Addr, n: nat)
    requires IsRun(r.states, r.steps) && IsRun(x.states, x.steps) && Extends(r, x) && n <= |r.steps|
    ensures LastWritten(x.states, x.steps, a, n) == LastWritten(r.states, r.steps, a, n)
    decreases n
  {
    if n > 0 {
      SameWritten(r, x, a, n - 1);
      assert x.states[n - 1] == r.states[n - 1] && x.steps[n - 1] == r.steps[n - 1];
    }
  }

  lemma {:induction false} StillWritten(x: Trace, a: Addr, m: nat, n: nat)
    requires IsRun(x.states, x.steps) && m <= n <= |x.steps| && forall k :: m <= k < n ==> !x.steps[k].Modify?
    ensures LastWritten(x.states, x.steps, a, n) == LastWritten(x.states, x.steps, a, m)
    decreases n
  {
    if m < n { StillWritten(x, a, m, n - 1); }
  }

  // Sector 0 is written and the disk fails the write. The buffer counts as clean, is
  // recycled for sector 1, and sector 0 reads as before the write.
  lemma LostWrite() returns (x: Trace)
    ensures IsRun(x.states, x.steps)
    ensures x.steps == [Get(Home(0)), Submit(0), Complete(true, ZERO), Modify(0, ONES), Mark(0)] +
                       [Submit(0), Complete(false, ZERO), Release(0), Get(Home(1))]
    ensures LastWritten(x.states, x.steps, Home(0), |x.steps|) == ONES
    ensures Contents(Last(x), Home(0)) == ZERO != ONES
  {
    hide IsRun, Contents, LastWritten, OnlyLast;
    x := OneRead(ZERO, true);
    x := Edits(x, Cached(ZERO), ONES);
    x := Loses(x, Cached(ONES).(dirty := true));
    assert ONES[0] != ZERO[0];
  }

  lemma Loses(r: Trace, b: Buf) returns (x: Trace)
    requires Ready(r, b) && |Last(r).ring| == 1 && b.busy && b.valid && b.dirty && b.key == At(Home(0))
    ensures IsRun(x.states, x.steps) && Extends(r, x)
    ensures x.steps == r.steps + [Submit(b.id), Complete(false, ZERO), Release(b.id), Get(Home(1))]
    ensures LastWritten(x.states, x.steps, Home(0), |x.steps|) == LastWritten(r.states, r.steps, Home(0), |r.steps|)
    ensures Contents(Last(x), Home(0)) == ZERO
  {
    hide Init, IsRun, LastWritten;
    var y := Syncs(r, b, false, ZERO);
    var c := b.(dirty := false, changed := false);
    y := Drops(y, c);
    c := c.(busy := false, stamp := Last(y).clock - 1);
    x := Gets(y, c, Home(1));
    Unwritten(r, x, Home(0));
  }
}
