// The buffer cache and the IDE request queue as one state machine, at the
// granularity of their locks (mCertiKOS/kern/fs/bufcache.c, kern/dev/disk/ide.c).
module SectorCache {
  import opened Blocks

  datatype Addr = Addr(dev: nat, sector: nat)

  // What a buffer caches; Nothing before its first use.
  datatype Key = Nothing | At(addr: Addr)

  // changed: written to since it was last logged or handed to the disk.
  // stamp: when it was last released.
  datatype Buf = Buf(id: nat, key: Key, busy: bool, valid: bool, dirty: bool, data: Block, changed: bool, stamp: nat)

  datatype Option = None | Some(id: nat)

  // ring lists the buffers from head.next round to head.prev. started is the buffer
  // the disk is working on; asked and done record all requests in order.
  datatype Sys = Sys(ring: seq<Buf>, queue: seq<nat>, started: Option, disk: map<Addr, Block>,
                     clock: nat, asked: seq<nat>, done: seq<nat>)

  function Sector(disk: map<Addr, Block>, a: Addr): Block {
    if a in disk then disk[a] else ZERO
  }

  // ---------- bufcache_get ----------

  // The first buffer caching a, or |ring|.
  function Lookup(ring: seq<Buf>, a: Addr): (i: nat)
    ensures i <= |ring|
    ensures i < |ring| ==> ring[i].key == At(a)
    ensures forall j :: 0 <= j < i ==> ring[j].key != At(a)
  {
    if ring == [] || ring[0].key == At(a) then 0 else 1 + Lookup(ring[1..], a)
  }

  predicate Idle(b: Buf) { !b.busy && !b.dirty }

  // The last idle clean buffer, or |ring|.
  function Victim(ring: seq<Buf>): (i: nat)
    ensures i <= |ring|
    ensures i < |ring| ==> Idle(ring[i]) && forall j :: i < j < |ring| ==> !Idle(ring[j])
    ensures i == |ring| ==> forall j :: 0 <= j < |ring| ==> !Idle(ring[j])
  {
    if ring == [] then 0
    else
      var m := |ring| - 1;
      if Idle(ring[m]) then m
      else
        var v := Victim(ring[..m]);
        if v == m then |ring| else v
  }

  function Grab(b: Buf): Buf { b.(busy := true) }

  function Recycle(b: Buf, a: Addr): Buf {
    b.(key := At(a), busy := true, valid := false, dirty := false)
  }

  // The index bufcache_get returns; it waits on a busy hit and panics without a victim.
  function GetIndex(ring: seq<Buf>, a: Addr): (i: nat)
    ensures i <= |ring|
  {
    var i := Lookup(ring, a);
    if i < |ring| then i else Victim(ring)
  }

  predicate CanGet(ring: seq<Buf>, a: Addr) {
    var i := Lookup(ring, a);
    if i < |ring| then !ring[i].busy else Victim(ring) < |ring|
  }

  function GetBuf(ring: seq<Buf>, a: Addr): seq<Buf>
    requires CanGet(ring, a)
  {
    var i := Lookup(ring, a);
    if i < |ring| then ring[i := Grab(ring[i])] else ring[Victim(ring) := Recycle(ring[Victim(ring)], a)]
  }

  // ---------- Steps ----------

  function Find(ring: seq<Buf>, id: nat): (i: nat)
    ensures i <= |ring|
    ensures i < |ring| ==> ring[i].id == id
    ensures forall j :: 0 <= j < i ==> ring[j].id != id
  {
    if ring == [] || ring[0].id == id then 0 else 1 + Find(ring[1..], id)
  }

  // bufcache_release: to the front of the ring.
  function ToFront(ring: seq<Buf>, i: nat, b: Buf): (r: seq<Buf>)
    requires i < |ring|
    ensures |r| == |ring|
  {
    [b] + ring[..i] + ring[i + 1..]
  }

  datatype Step = Get(addr: Addr)
    | Submit(id: nat)             // ide_rw
    | Complete(ok: bool, left: Block) // ide_intr; ok is false when the disk failed, and a
                                      // failed write leaves the sector holding left
    | Modify(id: nat, data: Block)
    | Mark(id: nat)               // log_write and bufcache_write set B_DIRTY
    | Release(id: nat)

  predicate Held(s: Sys, id: nat) {
    Find(s.ring, id) < |s.ring| && s.ring[Find(s.ring, id)].busy && id !in s.queue
  }

  function TheBuf(s: Sys, id: nat): Buf
    requires Held(s, id)
  {
    s.ring[Find(s.ring, id)]
  }

  // A holder touches data only once it is read in, and hands a changed buffer to the
  // log or the disk before releasing it.
  predicate Enabled(s: Sys, st: Step) {
    match st
    case Get(a) => CanGet(s.ring, a)
    case Submit(id) => Held(s, id) && !(TheBuf(s, id).valid && !TheBuf(s, id).dirty)
    case Complete(_, _) => s.queue != [] && Find(s.ring, s.queue[0]) < |s.ring|
    case Modify(id, _) => Held(s, id) && TheBuf(s, id).valid
    case Mark(id) => Held(s, id) && TheBuf(s, id).valid
    case Release(id) => Held(s, id) && TheBuf(s, id).valid && !TheBuf(s, id).changed
  }

  function Put(s: Sys, id: nat, b: Buf): Sys
    requires Find(s.ring, id) < |s.ring|
  {
    s.(ring := s.ring[Find(s.ring, id) := b])
  }

  // The buffer the disk is working on.
  function Head(s: Sys): Buf
    requires s.queue != [] && Find(s.ring, s.queue[0]) < |s.ring|
  {
    s.ring[Find(s.ring, s.queue[0])]
  }

  // ide_intr: the flags change whether or not the disk failed, and only a read that
  // did not fail takes the sector's data.
  function Finish(s: Sys, ok: bool): Buf
    requires s.queue != [] && Find(s.ring, s.queue[0]) < |s.ring|
  {
    var b := Head(s);
    var data := if !b.dirty && ok && b.key.At? then Sector(s.disk, b.key.addr) else b.data;
    b.(valid := true, dirty := false, changed := false, data := data)
  }

  // The disk once the request at the head is done; a write lands unless it failed.
  function Landed(s: Sys, ok: bool, left: Block): map<Addr, Block>
    requires s.queue != [] && Find(s.ring, s.queue[0]) < |s.ring|
  {
    var b := Head(s);
    if b.dirty && b.key.At? then s.disk[b.key.addr := if ok then b.data else left] else s.disk
  }

  function Next(s: Sys, st: Step): Sys
    requires Enabled(s, st)
  {
    match st
    case Get(a) => s.(ring := GetBuf(s.ring, a))
    case Submit(id) =>
      var q := s.queue + [id];
      s.(queue := q, asked := s.asked + [id], started := Some(q[0]))
    case Complete(ok, left) =>
      var q := s.queue[1..];
      Put(s, s.queue[0], Finish(s, ok)).(queue := q, done := s.done + [s.queue[0]],
        started := if q == [] then None else Some(q[0]), disk := Landed(s, ok, left))
    case Modify(id, data) => Put(s, id, TheBuf(s, id).(data := data, changed := true))
    case Mark(id) => Put(s, id, TheBuf(s, id).(dirty := true, changed := false))
    case Release(id) =>
      var i := Find(s.ring, id);
      s.(ring := ToFront(s.ring, i, s.ring[i].(busy := false, stamp := s.clock)), clock := s.clock + 1)
  }

  // ---------- What every step keeps ----------

  ghost predicate BufOk(s: Sys, b: Buf) {
    && (b.valid || b.busy ==> b.key.At?)
    && (b.dirty ==> b.valid)
    && (b.changed ==> b.busy && b.valid)
    && (b.id in s.queue ==> b.busy && !(b.valid && !b.dirty))
  }

  // Buffer a stands before b in the ring.
  ghost predicate Before(a: Buf, b: Buf, clock: nat) {
    && a.id != b.id
    && (a.key == b.key ==> a.key.Nothing?)
    && b.stamp < a.stamp < clock
  }

  ghost predicate RingOk(ring: seq<Buf>, clock: nat) {
    forall i, j :: 0 <= i < j < |ring| ==> Before(ring[i], ring[j], clock)
  }

  ghost predicate QueueOk(s: Sys) {
    && (forall i, j :: 0 <= i < j < |s.queue| ==> s.queue[i] != s.queue[j])
    && (forall i :: 0 <= i < |s.queue| ==> Find(s.ring, s.queue[i]) < |s.ring|)
    && s.started == (if s.queue == [] then None else Some(s.queue[0]))
    && s.asked == s.done + s.queue
  }

  // At most one buffer per sector, the ring ordered by last release, the queue free
  // of duplicates with exactly its head started, and requests done in order.
  ghost predicate Sound(s: Sys) {
    && RingOk(s.ring, s.clock) && QueueOk(s)
    && (forall i :: 0 <= i < |s.ring| ==> BufOk(s, s.ring[i]) && s.ring[i].stamp < s.clock)
  }

  // A clean buffer nobody has changed agrees with its sector.
  ghost predicate Agrees(s: Sys, b: Buf) {
    b.key.At? && b.valid && !b.dirty && !b.changed ==> b.data == Sector(s.disk, b.key.addr)
  }

  ghost predicate Faithful(s: Sys) {
    forall i :: 0 <= i < |s.ring| ==> Agrees(s, s.ring[i])
  }

  lemma FindsAt(ring: seq<Buf>, clock: nat, i: nat)
    requires RingOk(ring, clock) && i < |ring|
    ensures Find(ring, ring[i].id) == i
  {
  }

  // One buffer replaced in place, keeping its name.
  lemma Replaced(s: Sys, i: nat, b: Buf, id: nat)
    requires i < |s.ring| && b.id == s.ring[i].id
    ensures Find(s.ring[i := b], id) == Find(s.ring, id)
  {
    var ring, k := s.ring[i := b], Find(s.ring, id);
    assert k < |ring| ==> ring[k].id == id;
    var m := Find(ring, id);
    assert m < |ring| ==> s.ring[m].id == id;
  }

  lemma ReplacedSound(s: Sys, i: nat, b: Buf)
    requires Sound(s) && i < |s.ring| && b.id == s.ring[i].id && b.stamp == s.ring[i].stamp && BufOk(s, b)
    requires b.key != s.ring[i].key ==> forall j :: 0 <= j < |s.ring| ==> s.ring[j].key != b.key
    ensures Sound(s.(ring := s.ring[i := b]))
  {
    var t := s.(ring := s.ring[i := b]);
    forall k | 0 <= k < |s.queue| ensures Find(t.ring, s.queue[k]) < |t.ring| {
      Replaced(s, i, b, s.queue[k]);
    }
    assert QueueOk(t);
    hide QueueOk, Find;
  }

  lemma GetSound(s: Sys, a: Addr)
    requires Sound(s) && CanGet(s.ring, a)
    ensures Sound(Next(s, Get(a)))
  {
    var i := GetIndex(s.ring, a);
    ReplacedSound(s, i, GetBuf(s.ring, a)[i]);
  }

  lemma HolderSound(s: Sys, id: nat, b: Buf)
    requires Sound(s) && Held(s, id) && b.id == id && b.key == TheBuf(s, id).key && b.stamp == TheBuf(s, id).stamp
    requires b.busy && b.valid
    ensures Sound(Put(s, id, b))
  {
    ReplacedSound(s, Find(s.ring, id), b);
  }

  lemma SubmitSound(s: Sys, id: nat)
    requires Sound(s) && Enabled(s, Submit(id))
    ensures Sound(Next(s, Submit(id)))
  {
    hide Find;
    var t := Next(s, Submit(id));
    forall i | 0 <= i < |s.ring| ensures BufOk(t, s.ring[i]) {
      FindsAt(s.ring, s.clock, i);
      assert BufOk(s, s.ring[i]);
    }
    assert QueueOk(t);
  }

  lemma CompleteQueue(s: Sys, st: Step)
    requires QueueOk(s) && Enabled(s, st) && st.Complete?
    ensures QueueOk(Next(s, st))
  {
    var t := Next(s, st);
    forall k | 0 <= k < |t.queue| ensures Find(t.ring, t.queue[k]) < |t.ring| {
      assert t.queue[k] == s.queue[k + 1];
      Replaced(s, Find(s.ring, s.queue[0]), Finish(s, st.ok), s.queue[k + 1]);
    }
    assert t.done + t.queue == s.done + s.queue;
    hide Find, Finish;
  }

  lemma CompleteBuf(s: Sys, st: Step, k: nat)
    requires Sound(s) && Enabled(s, st) && st.Complete? && k < |s.ring|
    ensures BufOk(Next(s, st), Next(s, st).ring[k])
  {
    FindsAt(s.ring, s.clock, k);
    assert BufOk(s, s.ring[k]);
    hide Find;
    assert s.queue[0] !in s.queue[1..];
    assert forall x :: x in s.queue[1..] ==> x in s.queue;
  }

  lemma CompleteSound(s: Sys, st: Step)
    requires Sound(s) && Enabled(s, st) && st.Complete?
    ensures Sound(Next(s, st))
  {
    var t := Next(s, st);
    CompleteQueue(s, st);
    forall k | 0 <= k < |t.ring| ensures BufOk(t, t.ring[k]) {
      CompleteBuf(s, st, k);
    }
    hide BufOk, QueueOk;
  }

  lemma FrontRing(s: Sys, i: nat, b: Buf)
    requires RingOk(s.ring, s.clock) && i < |s.ring| && b.id == s.ring[i].id && b.key == s.ring[i].key && b.stamp == s.clock
    requires forall k :: 0 <= k < |s.ring| ==> s.ring[k].stamp < s.clock
    ensures RingOk(ToFront(s.ring, i, b), s.clock + 1)
  {
    hide ToFront;
    var ring := ToFront(s.ring, i, b);
    forall j, k | 0 <= j < k < |ring| ensures Before(ring[j], ring[k], s.clock + 1) {
      FrontAt(s.ring, i, b, j);
      FrontAt(s.ring, i, b, k);
    }
  }

  lemma FrontQueue(s: Sys, i: nat, b: Buf)
    requires QueueOk(s) && i < |s.ring| && b.id == s.ring[i].id
    ensures QueueOk(s.(ring := ToFront(s.ring, i, b)))
  {
    var ring := ToFront(s.ring, i, b);
    forall k | 0 <= k < |s.queue| ensures Find(ring, s.queue[k]) < |ring| {
      var m := Find(s.ring, s.queue[k]);
      assert ring[if m == i then 0 else if m < i then m + 1 else m].id == s.queue[k];
    }
    hide Find;
  }

  lemma ReleaseSound(s: Sys, id: nat)
    requires Sound(s) && Enabled(s, Release(id))
    ensures Sound(Next(s, Release(id)))
  {
    hide Find, QueueOk, RingOk;
    var i := Find(s.ring, id);
    var b := s.ring[i].(busy := false, stamp := s.clock);
    FrontRing(s, i, b);
    FrontQueue(s, i, b);
    var t := Next(s, Release(id));
    ClockQueue(s.(ring := t.ring), t);
    forall k | 0 <= k < |t.ring| ensures BufOk(t, t.ring[k]) && t.ring[k].stamp < t.clock {
      FrontAt(s.ring, i, b, k);
      assert BufOk(s, s.ring[i]);
    }
  }

  lemma FrontAt(ring: seq<Buf>, i: nat, b: Buf, k: nat)
    requires i < |ring| && k < |ring|
    ensures ToFront(ring, i, b)[k] == if k == 0 then b else if k <= i then ring[k - 1] else ring[k]
  {
  }

  lemma ClockQueue(s: Sys, t: Sys)
    requires QueueOk(s) && t == s.(clock := t.clock)
    ensures QueueOk(t)
  {
  }

  // Every step keeps the structure, disk errors or not.
  lemma StepSound(s: Sys, st: Step)
    requires Sound(s) && Enabled(s, st)
    ensures Sound(Next(s, st))
  {
    match st {
      case Get(a) => GetSound(s, a);
      case Submit(id) => SubmitSound(s, id);
      case Complete(_, _) => CompleteSound(s, st);
      case Modify(id, data) => HolderSound(s, id, TheBuf(s, id).(data := data, changed := true));
      case Mark(id) => HolderSound(s, id, TheBuf(s, id).(dirty := true, changed := false));
      case Release(id) => ReleaseSound(s, id);
    }
  }

  // ---------- The cache is a plain sector map ----------

  // What the cache and the disk together hold for a sector.
  function Contents(s: Sys, a: Addr): Block {
    var i := Lookup(s.ring, a);
    if i < |s.ring| && s.ring[i].valid then s.ring[i].data else Sector(s.disk, a)
  }

  lemma LooksAt(ring: seq<Buf>, clock: nat, i: nat)
    requires RingOk(ring, clock) && i < |ring| && ring[i].key.At?
    ensures Lookup(ring, ring[i].key.addr) == i
  {
    var j := Lookup(ring, ring[i].key.addr);
    assert j <= i;
    assert ring[j].key == ring[i].key;
  }

  // Whoever holds a valid buffer sees the contents of its sector.
  lemma HolderSees(s: Sys, i: nat)
    requires Sound(s) && i < |s.ring| && s.ring[i].valid && s.ring[i].key.At?
    ensures s.ring[i].data == Contents(s, s.ring[i].key.addr)
  {
    LooksAt(s.ring, s.clock, i);
  }

  // A read request fails while the buffer holds something other than the sector.
  ghost predicate BadRead(s: Sys, st: Step)
    requires Enabled(s, st)
  {
    st.Complete? && !st.ok
    && var b := Head(s);
       !b.dirty && b.key.At? && b.data != Sector(s.disk, b.key.addr)
  }

  // A write request fails and leaves the sector with something other than the buffer.
  ghost predicate BadWrite(s: Sys, st: Step)
    requires Enabled(s, st)
  {
    st.Complete? && !st.ok && Head(s).dirty && Head(s).key.At? && Head(s).data != st.left
  }

  // The sector a step writes, if any.
  function Writes(s: Sys, st: Step, a: Addr): bool
    requires Enabled(s, st)
  {
    st.Modify? && TheBuf(s, st.id).key == At(a)
  }

  // What buffer b and the disk hold for a.
  function Shown(b: Buf, disk: map<Addr, Block>, a: Addr): Block {
    if b.key == At(a) && b.valid then b.data else Sector(disk, a)
  }

  // Contents through any buffer caching a, or through the disk if there is none.
  lemma ContentsAt(s: Sys, a: Addr, i: nat)
    requires RingOk(s.ring, s.clock) && i < |s.ring|
    requires s.ring[i].key == At(a) || forall j :: 0 <= j < |s.ring| ==> s.ring[j].key != At(a)
    ensures Contents(s, a) == Shown(s.ring[i], s.disk, a)
  {
    if s.ring[i].key == At(a) { LooksAt(s.ring, s.clock, i); }
  }

  // Buffer i becomes b and the disk becomes disk; a is kept if it shows the same
  // through the buffers that could cache it.
  lemma ChangedAt(s: Sys, t: Sys, i: nat, a: Addr)
    requires RingOk(s.ring, s.clock) && RingOk(t.ring, t.clock) && i < |s.ring| == |t.ring| && t.ring == s.ring[i := t.ring[i]]
    requires Shown(t.ring[i], t.disk, a) == Shown(s.ring[i], s.disk, a)
    requires s.ring[i].key == At(a) || t.ring[i].key == At(a) || Sector(t.disk, a) == Sector(s.disk, a)
    requires t.ring[i].key != s.ring[i].key ==> forall j :: 0 <= j < |s.ring| ==> s.ring[j].key != t.ring[i].key
    ensures Contents(t, a) == Contents(s, a)
  {
    var v := Lookup(s.ring, a);
    hide Lookup, Contents;
    if v < |s.ring| && v != i {
      ContentsAt(s, a, v);
      ContentsAt(t, a, v);
    } else {
      ContentsAt(s, a, i);
      ContentsAt(t, a, i);
    }
  }

  lemma GetContents(s: Sys, x: Addr, a: Addr)
    requires Sound(s) && Faithful(s) && CanGet(s.ring, x)
    ensures Contents(Next(s, Get(x)), a) == Contents(s, a)
  {
    hide Lookup, Victim, Contents, QueueOk, RingOk;
    var t, i := Next(s, Get(x)), GetIndex(s.ring, x);
    GetSound(s, x);
    assert Agrees(s, s.ring[i]) && BufOk(s, s.ring[i]);
    ChangedAt(s, t, i, a);
  }

  lemma GetFaithful(s: Sys, x: Addr)
    requires Sound(s) && Faithful(s) && CanGet(s.ring, x)
    ensures Faithful(Next(s, Get(x)))
  {
    var t := Next(s, Get(x));
    forall k | 0 <= k < |t.ring| ensures Agrees(t, t.ring[k]) {
      assert Agrees(s, s.ring[k]);
    }
  }

  // A holder changes or marks its buffer.
  lemma HolderKeeps(s: Sys, st: Step, a: Addr)
    requires Sound(s) && Faithful(s) && Enabled(s, st) && (st.Modify? || st.Mark?)
    ensures Faithful(Next(s, st))
    ensures Contents(Next(s, st), a) == if Writes(s, st, a) then st.data else Contents(s, a)
  {
    hide Lookup, Contents, QueueOk, RingOk, Find;
    var t, i := Next(s, st), Find(s.ring, st.id);
    StepSound(s, st);
    forall k | 0 <= k < |t.ring| ensures Agrees(t, t.ring[k]) {
      assert Agrees(s, s.ring[k]);
    }
    if Writes(s, st, a) {
      ContentsAt(t, a, i);
    } else {
      ChangedAt(s, t, i, a);
    }
  }

  lemma SubmitKeeps(s: Sys, id: nat, a: Addr)
    requires Sound(s) && Faithful(s) && Enabled(s, Submit(id))
    ensures Faithful(Next(s, Submit(id))) && Contents(Next(s, Submit(id)), a) == Contents(s, a)
  {
    hide Lookup;
    var t := Next(s, Submit(id));
    forall k | 0 <= k < |t.ring| ensures Agrees(t, t.ring[k]) {
      assert Agrees(s, s.ring[k]);
    }
  }

  lemma HeadQueued(s: Sys)
    requires Sound(s) && s.queue != [] && Find(s.ring, s.queue[0]) < |s.ring|
    ensures var b := Head(s);
      b.key.At? && b.busy && (b.dirty ==> b.valid) && (!b.dirty ==> !b.valid) && s.started == Some(b.id)
  {
    assert BufOk(s, Head(s));
  }

  // A completion leaves the clean buffers agreeing with their sectors exactly when the
  // disk did not fail in a way that matters.
  lemma CompleteFaithful(s: Sys, st: Step)
    requires Sound(s) && Faithful(s) && Enabled(s, st) && st.Complete?
    ensures Faithful(Next(s, st)) <==> !BadRead(s, st) && !BadWrite(s, st)
  {
    hide Find, QueueOk;
    var i, t := Find(s.ring, s.queue[0]), Next(s, st);
    HeadQueued(s);
    forall k | 0 <= k < |t.ring| && k != i ensures Agrees(t, t.ring[k]) {
      assert Agrees(s, s.ring[k]);
    }
    assert Agrees(t, t.ring[i]) <==> !BadRead(s, st) && !BadWrite(s, st);
  }

  lemma CompleteKeeps(s: Sys, st: Step, a: Addr)
    requires Sound(s) && Enabled(s, st) && st.Complete? && !BadRead(s, st)
    ensures Contents(Next(s, st), a) == Contents(s, a)
  {
    hide Lookup, Contents, Find, RingOk, QueueOk;
    var i, t := Find(s.ring, s.queue[0]), Next(s, st);
    HeadQueued(s);
    CompleteSound(s, st);
    ChangedAt(s, t, i, a);
  }

  lemma ReleaseKeeps(s: Sys, id: nat, a: Addr)
    requires Sound(s) && Faithful(s) && Enabled(s, Release(id))
    ensures Faithful(Next(s, Release(id))) && Contents(Next(s, Release(id)), a) == Contents(s, a)
  {
    hide Lookup, Contents, Find, RingOk, QueueOk, ToFront;
    var t, i, v := Next(s, Release(id)), Find(s.ring, id), Lookup(s.ring, a);
    ReleaseSound(s, id);
    var b := s.ring[i].(busy := false, stamp := s.clock);
    forall k | 0 <= k < |t.ring| ensures Agrees(t, t.ring[k]) {
      FrontAt(s.ring, i, b, k);
      assert forall j :: 0 <= j < |s.ring| ==> Agrees(s, s.ring[j]);
    }
    var w := if v == |s.ring| then 0 else if v == i then 0 else if v < i then v + 1 else v;
    FrontAt(s.ring, i, b, w);
    if v < |s.ring| {
      ContentsAt(s, a, v);
      ContentsAt(t, a, w);
    } else {
      forall k | 0 <= k < |t.ring| ensures t.ring[k].key != At(a) { FrontAt(s.ring, i, b, k); }
      ContentsAt(s, a, 0);
      ContentsAt(t, a, 0);
    }
  }

  // The cache is a plain sector map: a step that modifies a buffer writes its sector,
  // and every other step, short of a failing read, leaves all contents alone.
  lemma StepContents(s: Sys, st: Step, a: Addr)
    requires Sound(s) && Faithful(s) && Enabled(s, st) && !BadRead(s, st)
    ensures Contents(Next(s, st), a) == if Writes(s, st, a) then st.data else Contents(s, a)
    ensures Faithful(Next(s, st)) <==> !BadWrite(s, st)
  {
    match st {
      case Get(x) => GetContents(s, x, a); GetFaithful(s, x);
      case Submit(id) => SubmitKeeps(s, id, a);
      case Complete(_, _) => CompleteKeeps(s, st, a); CompleteFaithful(s, st);
      case Modify(_, _) => HolderKeeps(s, st, a);
      case Mark(_) => HolderKeeps(s, st, a);
      case Release(id) => ReleaseKeeps(s, id, a);
    }
  }

  // A failing read breaks this exactly when the stale buffer differs from the sector.
  lemma FailedRead(s: Sys, st: Step)
    requires Sound(s) && Enabled(s, st) && st.Complete?
    ensures BadRead(s, st) <==> exists a :: Contents(Next(s, st), a) != Contents(s, a)
  {
    var i, t := Find(s.ring, s.queue[0]), Next(s, st);
    if BadRead(s, st) {
      var a := s.ring[i].key.addr;
      assert BufOk(s, s.ring[i]);
      CompleteSound(s, st);
      assert t.ring[i] == Finish(s, st.ok);
      hide Lookup, Find, Contents, QueueOk;
      ContentsAt(s, a, i);
      ContentsAt(t, a, i);
    } else {
      forall a ensures Contents(t, a) == Contents(s, a) {
        CompleteKeeps(s, st, a);
      }
    }
  }

  // bufcache_get hands out one buffer for the sector, busy: the cached one with what it
  // held, or another that has yet to be read in. No other buffer changes.
  lemma GetGives(s: Sys, a: Addr)
    requires Sound(s) && Enabled(s, Get(a))
    ensures var t, i := Next(s, Get(a)), GetIndex(s.ring, a);
      && i < |s.ring| == |t.ring| && t == s.(ring := t.ring)
      && t.ring[i].key == At(a) && t.ring[i].busy && !s.ring[i].busy && t.ring[i].id == s.ring[i].id
      && (forall j :: 0 <= j < |s.ring| && j != i ==> t.ring[j] == s.ring[j] && t.ring[j].key != At(a))
      && (if s.ring[i].key == At(a) then t.ring[i] == s.ring[i].(busy := true)
          else !t.ring[i].valid && forall j :: 0 <= j < |s.ring| ==> s.ring[j].key != At(a))
  {
    var i := Lookup(s.ring, a);
    if i < |s.ring| { LooksAt(s.ring, s.clock, i); }
    forall j | 0 <= j < |s.ring| && s.ring[j].key == At(a) ensures j == GetIndex(s.ring, a) {
      LooksAt(s.ring, s.clock, j);
    }
  }

  // bufcache_release frees the buffer and makes it the one recycled last; marking it
  // keeps it from being recycled, with its data. Nothing else changes.
  lemma ReleaseGives(s: Sys, id: nat)
    requires Sound(s) && Enabled(s, Release(id))
    ensures var t, b := Next(s, Release(id)), TheBuf(s, id);
      && |t.ring| == |s.ring| && t.ring[0].id == id && !t.ring[0].busy && t.ring[0] == b.(busy := false, stamp := t.ring[0].stamp)
      && t.ring[1..] == s.ring[..Find(s.ring, id)] + s.ring[Find(s.ring, id) + 1..]
      && t == s.(ring := t.ring, clock := t.clock)
  {
  }

  lemma MarkGives(s: Sys, id: nat)
    requires Sound(s) && Enabled(s, Mark(id))
    ensures var t, i := Next(s, Mark(id)), Find(s.ring, id);
      t == s.(ring := s.ring[i := t.ring[i]]) && t.ring[i] == s.ring[i].(dirty := true, changed := false) && !Idle(t.ring[i])
  {
  }

  // The buffer recycled is the idle clean one released longest ago.
  lemma RecyclesOldest(s: Sys, a: Addr)
    requires Sound(s) && CanGet(s.ring, a) && Lookup(s.ring, a) == |s.ring|
    ensures var i := GetIndex(s.ring, a);
      Idle(s.ring[i]) && forall j :: 0 <= j < |s.ring| && j != i && Idle(s.ring[j]) ==> s.ring[i].stamp < s.ring[j].stamp
  {
    assert RingOk(s.ring, s.clock);
  }

  // No step adds, drops or duplicates a buffer.
  lemma RingPermuted(s: Sys, st: Step, id: nat)
    requires Sound(s) && Enabled(s, st)
    ensures |Next(s, st).ring| == |s.ring|
    ensures Find(Next(s, st).ring, id) < |s.ring| <==> Find(s.ring, id) < |s.ring|
  {
    hide Find, Lookup, Victim, Sound;
    match st {
      case Get(a) =>
        var i := GetIndex(s.ring, a);
        Replaced(s, i, GetBuf(s.ring, a)[i], id);
      case Submit(_) =>
      case Complete(ok, _) => Replaced(s, Find(s.ring, s.queue[0]), Finish(s, ok), id);
      case Modify(x, data) => Replaced(s, Find(s.ring, x), TheBuf(s, x).(data := data, changed := true), id);
      case Mark(x) => Replaced(s, Find(s.ring, x), TheBuf(s, x).(dirty := true, changed := false), id);
      case Release(x) =>
        var i := Find(s.ring, x);
        FrontPermuted(s.ring, i, s.ring[i].(busy := false, stamp := s.clock), id);
    }
  }

  lemma FrontPermuted(ring: seq<Buf>, i: nat, b: Buf, id: nat)
    requires i < |ring| && b.id == ring[i].id
    ensures Find(ToFront(ring, i, b), id) < |ring| <==> Find(ring, id) < |ring|
  {
    var t := ToFront(ring, i, b);
    var k, m := Find(ring, id), Find(t, id);
    hide ToFront;
    if k < |ring| { FrontAt(ring, i, b, if k == i then 0 else if k < i then k + 1 else k); }
    if m < |ring| { FrontAt(ring, i, b, m); }
  }

  // ---------- Whole runs ----------

  // bufcache_init: no buffer caches anything yet, and nothing is requested.
  ghost predicate Init(s: Sys) {
    && (forall i :: 0 <= i < |s.ring| ==>
      var b := s.ring[i]; b.key.Nothing? && !b.busy && !b.valid && !b.dirty && !b.changed && b.stamp < s.clock)
    && (forall i, j :: 0 <= i < j < |s.ring| ==> s.ring[i].id != s.ring[j].id && s.ring[j].stamp < s.ring[i].stamp)
    && s.queue == [] && s.started == None && s.asked == [] && s.done == []
  }

  ghost predicate IsRun(states: seq<Sys>, steps: seq<Step>) {
    && |states| == |steps| + 1 && Init(states[0])
    && forall n :: 0 <= n < |steps| ==> Enabled(states[n], steps[n]) && states[n + 1] == Next(states[n], steps[n])
  }

  // What was last written to a within the first n steps, or its first contents.
  ghost function LastWritten(states: seq<Sys>, steps: seq<Step>, a: Addr, n: nat): Block
    requires IsRun(states, steps) && n <= |steps|
  {
    if n == 0 then Sector(states[0].disk, a)
    else if Writes(states[n - 1], steps[n - 1], a) then steps[n - 1].data
    else LastWritten(states, steps, a, n - 1)
  }

  lemma {:induction false} EveryRunSound(states: seq<Sys>, steps: seq<Step>, n: nat)
    requires IsRun(states, steps) && n <= |steps|
    ensures Sound(states[n])
  {
    if n > 0 {
      EveryRunSound(states, steps, n - 1);
      StepSound(states[n - 1], steps[n - 1]);
    }
  }

  // Over any run whose failing requests did no harm, reading a sector gives what was
  // last written.
  lemma {:induction false} EveryRunContents(states: seq<Sys>, steps: seq<Step>, a: Addr, n: nat)
    requires IsRun(states, steps) && n <= |steps|
    requires forall k :: 0 <= k < n ==> !BadRead(states[k], steps[k]) && !BadWrite(states[k], steps[k])
    ensures Faithful(states[n]) && Contents(states[n], a) == LastWritten(states, steps, a, n)
  {
    if n > 0 {
      EveryRunContents(states, steps, a, n - 1);
      EveryRunSound(states, steps, n - 1);
      hide Contents, Sound, Faithful;
      StepContents(states[n - 1], steps[n - 1], a);
    }
  }

  // In particular over any run in which the disk reports no error.
  lemma HealthyDisk(states: seq<Sys>, steps: seq<Step>, a: Addr, n: nat)
    requires IsRun(states, steps) && n <= |steps|
    requires forall k :: 0 <= k < n && steps[k].Complete? ==> steps[k].ok
    ensures Contents(states[n], a) == LastWritten(states, steps, a, n)
  {
    EveryRunContents(states, steps, a, n);
  }

  // A completed request leaves its buffer valid and clean, and equal to its sector
  // exactly when the disk did not fail in a way that matters.
  lemma CompletedBuffer(s: Sys, st: Step)
    requires Sound(s) && Enabled(s, st) && st.Complete?
    ensures var i, t := Find(s.ring, s.queue[0]), Next(s, st);
      && t.done == s.done + [s.queue[0]] && |t.ring| == |s.ring| && t.ring[i].id == s.queue[0]
      && t.ring[i].valid && !t.ring[i].dirty && t.ring[i].data == Contents(t, s.ring[i].key.addr)
      && (t.ring[i].data == Sector(t.disk, s.ring[i].key.addr) <==> !BadRead(s, st) && !BadWrite(s, st))
  {
    hide Find, Lookup, Contents, QueueOk, RingOk;
    HeadQueued(s);
    CompleteSound(s, st);
    HolderSees(Next(s, st), Find(s.ring, s.queue[0]));
  }
}
