// bufcache.c and ide.c as they run: buffers on a doubly linked ring around a head
// node, and a singly linked request queue, both edited in place.
module BufferCache {
  import opened Blocks
  import opened SectorCache

  class Node {
    const id: nat
    var dev: int
    var sector: nat
    var busy: bool
    var valid: bool
    var dirty: bool
    var data: Block
    var prev: Node?
    var next: Node?
    var qnext: Node?
    ghost var changed: bool
    ghost var stamp: nat

    constructor (id: nat)
      ensures this.id == id && dev == -1 && !busy && !valid && !dirty && !changed && stamp == id
    {
      this.id, dev, sector, busy, valid, dirty := id, -1, 0, false, false, false;
      data, prev, next, qnext, changed, stamp := ZERO, null, null, null, false, id;
    }

    ghost function Value(): Buf
      reads `dev, `sector, `busy, `valid, `dirty, `data, `changed, `stamp
    {
      Buf(id, if dev < 0 then Nothing else At(Addr(dev, sector)), busy, valid, dirty, data, changed, stamp)
    }
  }

  ghost function Values(r: seq<Node>): (v: seq<Buf>)
    reads r`dev, r`sector, r`busy, r`valid, r`dirty, r`data, r`changed, r`stamp
    ensures |v| == |r| && forall i :: 0 <= i < |r| ==> v[i] == r[i].Value()
  {
    if r == [] then [] else [r[0].Value()] + Values(r[1..])
  }

  // The nodes of r follow one another from head round to head.
  ghost predicate Linked(head: Node, r: seq<Node>)
    reads head`prev, head`next, r`prev, r`next
  {
    && head !in r
    && (forall i, j :: 0 <= i < j < |r| ==> r[i] != r[j])
    && (r == [] ==> head.next == head && head.prev == head)
    && (r != [] ==> head.next == r[0] && r[0].prev == head && head.prev == r[|r| - 1] && r[|r| - 1].next == head)
    && (forall i, j :: 0 <= i && j == i + 1 && j < |r| ==> r[i].next == r[j] && r[j].prev == r[i])
  }

  lemma InRing(head: Node, r: seq<Node>, i: nat)
    requires Linked(head, r) && i < |r|
    ensures r[i] != head && r[i] !in r[..i] + r[i + 1..] && forall k :: 0 <= k < |r| && k != i ==> r[k] != r[i]
  {
  }

  // As bufcache_init leaves a buffer.
  ghost predicate Fresh(b: Node, k: nat)
    reads b
  {
    b.id == k && b.dev == -1 && !b.busy && !b.valid && !b.dirty && !b.changed && b.stamp == k
  }

  // Waits is the sleep on a busy hit.
  datatype Got = Got | Waits | Panics

  // bufcache_get for a on buffers vs leaves vs' and returns the one at k; it waits
  // exactly on a busy hit and panics exactly when nothing can be recycled.
  ghost predicate Served(vs: seq<Buf>, vs': seq<Buf>, a: Addr, res: Got, k: nat) {
    && (res.Got? <==> CanGet(vs, a))
    && (res.Panics? <==> GetIndex(vs, a) == |vs|)
    && (res.Got? ==> k == GetIndex(vs, a) && vs' == GetBuf(vs, a))
    && (!res.Got? ==> vs' == vs)
  }

  class Cache {
    const head: Node
    ghost var ring: seq<Node>
    ghost var clock: nat

    ghost predicate Valid()
      reads this, head`prev, head`next, ring`prev, ring`next
    {
      Linked(head, ring)
    }

    constructor (n: nat)
      ensures Valid() && |ring| == n && clock == n && fresh(head) && fresh(set b | b in ring)
      ensures forall i :: 0 <= i < n ==> Fresh(ring[i], n - 1 - i)
    {
      head := new Node(n);
      ring := [];
      clock := n;
      new;
      head.prev := head;
      head.next := head;
      for k := 0 to n
        invariant Valid() && |ring| == k && clock == n && fresh(head) && fresh(set b | b in ring)
        invariant forall i :: 0 <= i < k ==> Fresh(ring[i], k - 1 - i)
      {
        var b := new Node(k);
        PushFront(b);
      }
    }

    // Link b in after the head.
    method PushFront(b: Node)
      requires Valid() && b != head && b !in ring
      modifies this`ring, head`prev, head`next, ring`prev, b`prev, b`next
      ensures Valid() && ring == [b] + old(ring)
    {
      var first := head.next;
      b.next := first;
      b.prev := head;
      first.prev := b;
      head.next := b;
      ring := [b] + ring;
    }

    // Take the node at position i out.
    method Unlink(b: Node, ghost i: nat)
      requires Valid() && i < |ring| && b == ring[i]
      modifies this`ring, head`prev, head`next, ring`prev, ring`next
      ensures Valid() && ring == old(ring)[..i] + old(ring)[i + 1..]
    {
      ghost var r := ring;
      assert i > 0 ==> r[i - 1].next == b;
      assert i + 1 < |r| ==> r[i + 1].prev == b;
      var before, after := b.prev, b.next;
      after.prev := before;
      before.next := after;
      ring := r[..i] + r[i + 1..];
    }

    // bufcache_release: b, the node at position i, moves to the front; it panics on a
    // buffer nobody holds.
    method Release(b: Node, ghost i: nat) returns (ok: bool)
      requires Valid() && i < |ring| && b == ring[i]
      modifies this`ring, this`clock, head`prev, head`next, ring`prev, ring`next, b`busy, b`stamp
      ensures Valid() && (ok <==> old(b.busy))
      ensures ok ==> clock == old(clock) + 1 && ring == [b] + old(ring)[..i] + old(ring)[i + 1..]
      ensures ok ==> var vs := old(Values(ring));
        Values(ring) == ToFront(vs, i, vs[i].(busy := false, stamp := old(clock)))
      ensures !ok ==> clock == old(clock) && ring == old(ring) && Values(ring) == old(Values(ring))
    {
      hide Values, Linked;
      if !b.busy {
        return false;
      }
      ghost var vs, r := Values(ring), ring;
      InRing(head, ring, i);
      Unlink(b, i);
      PushFront(b);
      assert ring == [b] + r[..i] + r[i + 1..];
      b.busy := false;
      b.stamp := clock;
      clock := clock + 1;
      Moved(vs, r, ring, b, i);
      return true;
    }

    // The first buffer caching the sector, from the most recently released on.
    method FindCached(dev: nat, sector: nat) returns (b: Node, ghost k: nat)
      requires Valid()
      ensures k == Lookup(Values(ring), Addr(dev, sector)) && b == (if k < |ring| then ring[k] else head)
      ensures b == head <==> k == |ring|
      ensures k < |ring| ==> Values(ring)[k].busy == b.busy
    {
      hide Lookup, Values;
      ghost var vs, a := Values(ring), Addr(dev, sector);
      b := head.next;
      k := 0;
      while b != head && !(b.dev == dev && b.sector == sector)
        invariant k <= |ring| && b == (if k < |ring| then ring[k] else head)
        invariant forall j :: 0 <= j < k ==> vs[j].key != At(a)
        decreases |ring| - k
      {
        assert vs[k] == ring[k].Value();
        assert k + 1 < |ring| ==> ring[k].next == ring[k + 1];
        b := b.next;
        k := k + 1;
      }
      assert k < |ring| ==> vs[k] == ring[k].Value() && vs[k].key == At(a);
      LookupIs(vs, a, k);
    }

    // The last idle clean buffer, from the least recently released back.
    method FindVictim() returns (b: Node, ghost k: nat)
      requires Valid()
      ensures k == Victim(Values(ring)) && b == (if k < |ring| then ring[k] else head)
      ensures b == head <==> k == |ring|
    {
      hide Victim, Values;
      ghost var vs := Values(ring);
      b := head.prev;
      ghost var n := |ring|;
      while b != head && !(!b.busy && !b.dirty)
        invariant 0 <= n <= |ring| && b == (if n > 0 then ring[n - 1] else head)
        invariant forall j :: n <= j < |ring| ==> !Idle(vs[j])
        decreases n
      {
        assert vs[n - 1] == ring[n - 1].Value();
        assert n > 1 ==> ring[n - 1].prev == ring[n - 2];
        b := b.prev;
        n := n - 1;
      }
      k := if n > 0 then n - 1 else |ring|;
      assert n > 0 ==> vs[n - 1] == ring[n - 1].Value() && Idle(vs[n - 1]);
    }

    // Take over the idle buffer at position k for another sector.
    method Reuse(b: Node, ghost k: nat, dev: nat, sector: nat)
      requires Valid() && k < |ring| && b == ring[k]
      modifies b`dev, b`sector, b`busy, b`valid, b`dirty
      ensures Valid() && Values(ring) == old(Values(ring))[k := Recycle(old(Values(ring))[k], Addr(dev, sector))]
    {
      hide Values, Linked;
      ghost var vs := Values(ring);
      InRing(head, ring, k);
      assert vs[k] == b.Value();
      b.dev, b.sector := dev, sector;
      b.busy, b.valid, b.dirty := true, false, false;
      OneChanged(vs, ring, k);
    }

    method Claim(b: Node, ghost k: nat)
      requires Valid() && k < |ring| && b == ring[k]
      modifies b`busy
      ensures Valid() && Values(ring) == old(Values(ring))[k := Grab(old(Values(ring))[k])]
    {
      hide Values, Linked;
      ghost var vs := Values(ring);
      InRing(head, ring, k);
      assert vs[k] == b.Value();
      b.busy := true;
      OneChanged(vs, ring, k);
    }

    // A buffer for the sector, marked busy: the one at position k.
    method Get(dev: nat, sector: nat) returns (res: Got, b: Node, ghost k: nat)
      requires Valid()
      modifies ring`dev, ring`sector, ring`busy, ring`valid, ring`dirty
      ensures Valid() && ring == old(ring) && clock == old(clock)
      ensures Served(old(Values(ring)), Values(ring), Addr(dev, sector), res, k)
      ensures res.Got? ==> k < |ring| && b == ring[k]
    {
      hide *;
      ghost var vs := Values(ring);
      GetCases(vs, Addr(dev, sector));
      b, k := FindCached(dev, sector);
      if b != head {
        if !b.busy {
          Claim(b, k);
          return Got, b, k;
        }
        return Waits, b, k;
      }
      b, k := FindVictim();
      if b != head {
        Reuse(b, k, dev, sector);
        return Got, b, k;
      }
      return Panics, b, k;
    }
  }

  // The chain from first through qnext is exactly q.
  ghost predicate Chained(first: Node?, q: seq<Node>)
    reads q`qnext
  {
    && (forall i, j :: 0 <= i < j < |q| ==> q[i] != q[j])
    && first == (if q == [] then null else q[0])
    && (q != [] ==> q[|q| - 1].qnext == null)
    && (forall i, j :: 0 <= i && j == i + 1 && j < |q| ==> q[i].qnext == q[j])
  }

  // What ide_rw did: queued the request, started it too, or panicked.
  datatype Asked = Started | Queued | NotBusy | NothingToDo | NoDisk

  // The IDE driver's request queue.
  class Ide {
    const haveDisk1: bool
    var idequeue: Node?
    ghost var queue: seq<Node>

    constructor (haveDisk1: bool)
      ensures Valid() && queue == [] && this.haveDisk1 == haveDisk1
    {
      this.haveDisk1 := haveDisk1;
      idequeue, queue := null, [];
    }

    ghost predicate Valid()
      reads this, queue`qnext
    {
      Chained(idequeue, queue)
    }

    // ide_rw, up to the wait: b goes to the end; it is started if nothing was queued.
    method Rw(b: Node) returns (res: Asked)
      requires Valid() && b !in queue
      modifies `idequeue, `queue, b`qnext, queue`qnext
      ensures Valid()
      ensures res == (if !b.busy then NotBusy else if b.valid && !b.dirty then NothingToDo
                      else if b.dev != 0 && !haveDisk1 then NoDisk
                      else if old(queue) == [] then Started else Queued)
      ensures queue == if res in {Started, Queued} then old(queue) + [b] else old(queue)
    {
      if !b.busy {
        return NotBusy;
      }
      if b.valid && !b.dirty {
        return NothingToDo;
      }
      if b.dev != 0 && !haveDisk1 {
        return NoDisk;
      }
      b.qnext := null;
      ghost var q := queue;
      if idequeue == null {
        idequeue := b;
      } else {
        var last := idequeue;
        ghost var k := 0;
        assert |q| > 1 ==> q[0].qnext == q[1];
        while last.qnext != null
          invariant 0 <= k < |q| && last == q[k] && Chained(idequeue, q) && queue == q && idequeue == old(idequeue)
          invariant k + 1 < |q| ==> last.qnext == q[k + 1]
          decreases |q| - k
        {
          last := last.qnext;
          k := k + 1;
          assert k + 1 < |q| ==> q[k].qnext == q[k + 1];
        }
        assert k == |q| - 1;
        last.qnext := b;
      }
      queue := q + [b];
      res := if idequeue == b then Started else Queued;
    }

    // ide_intr: the first request is done, and the next one is started. sector is
    // what the disk returns for a read, ok that it returned it.
    method Intr(sector: Block, ok: bool) returns (b: Node?, started: Node?)
      requires Valid()
      modifies `idequeue, `queue, queue`data, queue`valid, queue`dirty, queue`changed
      ensures Valid()
      ensures old(queue) == [] ==> b == null && started == null && queue == []
      ensures old(queue) != [] ==>
        && b == old(queue)[0] && queue == old(queue)[1..] && started == (if queue == [] then null else queue[0])
        && b.Value() == old(b.Value()).(valid := true, dirty := false, changed := false,
             data := if !old(b.dirty) && ok then sector else old(b.data))
      ensures forall x :: x in old(queue) && x != b ==> x.Value() == old(x.Value())
    {
      if idequeue == null {
        return null, null;
      }
      b := idequeue;
      assert |queue| > 1 ==> queue[0].qnext == queue[1];
      idequeue := b.qnext;
      if !b.dirty && ok {
        b.data := sector;
      }
      b.valid := true;
      b.dirty := false;
      b.changed := false;
      queue := queue[1..];
      started := idequeue;
    }
  }

  lemma GetCases(vs: seq<Buf>, a: Addr)
    ensures var i, v := Lookup(vs, a), Victim(vs);
      && (i < |vs| && !vs[i].busy ==> Served(vs, vs[i := Grab(vs[i])], a, Got, i))
      && (i < |vs| && vs[i].busy ==> forall k :: Served(vs, vs, a, Waits, k))
      && (i == |vs| && v < |vs| ==> Served(vs, vs[v := Recycle(vs[v], a)], a, Got, v))
      && (i == |vs| && v == |vs| ==> forall k :: Served(vs, vs, a, Panics, k))
  {
  }

  lemma LookupIs(vs: seq<Buf>, a: Addr, k: nat)
    requires k <= |vs| && (forall j :: 0 <= j < k ==> vs[j].key != At(a)) && (k < |vs| ==> vs[k].key == At(a))
    ensures k == Lookup(vs, a)
  {
  }

  lemma Moved(vs: seq<Buf>, r: seq<Node>, ring: seq<Node>, b: Node, i: nat)
    requires |vs| == |r| && i < |r| && b == r[i] && ring == [b] + r[..i] + r[i + 1..]
    requires forall k :: 0 <= k < |r| && k != i ==> r[k].Value() == vs[k]
    ensures Values(ring) == ToFront(vs, i, b.Value())
  {
    forall k | 0 <= k < |ring| ensures Values(ring)[k] == ToFront(vs, i, b.Value())[k] {
      assert k > 0 ==> ring[k] == r[if k <= i then k - 1 else k];
    }
  }

  lemma OneChanged(vs: seq<Buf>, r: seq<Node>, k: nat)
    requires |vs| == |r| && k < |r| && forall i :: 0 <= i < |r| && i != k ==> r[i].Value() == vs[i]
    ensures Values(r) == vs[k := r[k].Value()]
  {
  }
}
