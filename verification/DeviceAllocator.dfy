// The GPU coordinator's device allocation
// (distributed_machine_learning/code/lab-dsml/dsml/gpu_coordinator.go).
module DeviceAllocator {

  class Device {
    var taken: bool
    var comm: nat

    constructor ()
      ensures !taken && comm == 0
    {
      taken, comm := false, 0;
    }
  }

  datatype Status = InProgress | Success | Failed

  datatype Communicator = Communicator(devices: seq<Device>, ranks: map<nat, Device>)

  datatype InitResult = Created(id: nat) | NotEnough | Panic

  // ---------- Which devices are taken ----------

  ghost function Flags(ds: seq<Device>): (fl: seq<bool>)
    reads ds`taken
    ensures |fl| == |ds| && forall i :: 0 <= i < |ds| ==> fl[i] == ds[i].taken
  {
    if ds == [] then [] else Flags(ds[..|ds| - 1]) + [ds[|ds| - 1].taken]
  }

  ghost function Marks(ds: seq<Device>): (cs: seq<nat>)
    reads ds`comm
    ensures |cs| == |ds| && forall i :: 0 <= i < |ds| ==> cs[i] == ds[i].comm
  {
    if ds == [] then [] else Marks(ds[..|ds| - 1]) + [ds[|ds| - 1].comm]
  }

  // How many are not.
  ghost function Spare(fl: seq<bool>): nat {
    if fl == [] then 0 else Spare(fl[..|fl| - 1]) + if fl[|fl| - 1] then 0 else 1
  }

  // The devices not taken, in order.
  ghost function Pick(ds: seq<Device>, fl: seq<bool>): (r: seq<Device>)
    requires |ds| == |fl|
    ensures |r| == Spare(fl)
  {
    if ds == [] then []
    else
      var m := |ds| - 1;
      Pick(ds[..m], fl[..m]) + if fl[m] then [] else [ds[m]]
  }

  lemma {:induction false} SpareUpdate(fl: seq<bool>, i: nat, b: bool)
    requires i < |fl|
    ensures Spare(fl[i := b]) == Spare(fl) + (if fl[i] && !b then 1 else 0) - (if !fl[i] && b then 1 else 0)
    decreases |fl|
  {
    var m := |fl| - 1;
    if i == m {
      assert fl[i := b][..m] == fl[..m];
    } else {
      assert fl[i := b][..m] == fl[..m][i := b];
      SpareUpdate(fl[..m], i, b);
    }
  }

  lemma {:induction false} AllSpare(fl: seq<bool>)
    requires forall i :: 0 <= i < |fl| ==> !fl[i]
    ensures Spare(fl) == |fl|
    decreases |fl|
  {
    if fl != [] {
      AllSpare(fl[..|fl| - 1]);
    }
  }

  lemma {:induction false} PickMember(ds: seq<Device>, fl: seq<bool>, d: Device)
    requires |ds| == |fl|
    ensures d in Pick(ds, fl) <==> exists i :: 0 <= i < |ds| && ds[i] == d && !fl[i]
    decreases |ds|
  {
    if ds != [] {
      var m := |ds| - 1;
      PickMember(ds[..m], fl[..m], d);
      assert Pick(ds, fl) == Pick(ds[..m], fl[..m]) + if fl[m] then [] else [ds[m]];
      hide Pick;
      forall i | 0 <= i < |ds| && ds[i] == d && !fl[i] ensures d in Pick(ds, fl) {
        assert i < m ==> ds[..m][i] == d && !fl[..m][i];
      }
    }
  }

  lemma {:induction false} PickPrefix(ds: seq<Device>, fl: seq<bool>, k: nat)
    requires |ds| == |fl| && k <= |ds|
    ensures Pick(ds[..k], fl[..k]) <= Pick(ds, fl)
    decreases |ds|
  {
    if k == |ds| {
      assert ds[..k] == ds && fl[..k] == fl;
    } else {
      var m := |ds| - 1;
      assert ds[..m][..k] == ds[..k] && fl[..m][..k] == fl[..k];
      PickPrefix(ds[..m], fl[..m], k);
    }
  }

  ghost predicate Distinct(ds: seq<Device>) {
    forall i, j :: 0 <= i < j < |ds| ==> ds[i] != ds[j]
  }

  lemma {:induction false} PickDistinct(ds: seq<Device>, fl: seq<bool>)
    requires |ds| == |fl| && Distinct(ds)
    ensures Distinct(Pick(ds, fl))
    decreases |ds|
  {
    if ds != [] {
      var m := |ds| - 1;
      PickDistinct(ds[..m], fl[..m]);
      PickMember(ds[..m], fl[..m], ds[m]);
    }
  }

  // ---------- Which devices are held ----------

  // Devices held by the communicators with ids below k.
  ghost function Held(comms: map<nat, Communicator>, k: nat): nat {
    if k == 0 then 0
    else Held(comms, k - 1) + if k - 1 in comms then |comms[k - 1].devices| else 0
  }

  lemma {:induction false} HeldSame(a: map<nat, Communicator>, b: map<nat, Communicator>, k: nat)
    requires forall i :: 0 <= i < k ==> (i in a <==> i in b) && (i in a ==> a[i] == b[i])
    ensures Held(a, k) == Held(b, k)
  {
    if k > 0 { HeldSame(a, b, k - 1); }
  }

  lemma {:induction false} HeldLess(comms: map<nat, Communicator>, id: nat, k: nat)
    requires id in comms && id < k
    ensures Held(comms - {id}, k) + |comms[id].devices| == Held(comms, k)
  {
    if k - 1 == id {
      HeldSame(comms, comms - {id}, k - 1);
    } else {
      HeldLess(comms, id, k - 1);
    }
  }

  // Ranks 0..n-1 are the communicator's devices, each once.
  ghost predicate RanksOk(c: Communicator) {
    && Distinct(c.devices)
    && (forall k :: k in c.ranks <==> 0 <= k < |c.devices|)
    && (forall k :: 0 <= k < |c.devices| ==> c.ranks[k] == c.devices[k])
  }

  // A device is taken exactly when it is in the live communicator it names, and in
  // no other.
  ghost predicate OwnedBy(ds: seq<Device>, fl: seq<bool>, cs: seq<nat>, comms: map<nat, Communicator>) {
    && |fl| == |cs| == |ds|
    && (forall i :: 0 <= i < |ds| ==> if fl[i] then cs[i] in comms && ds[i] in comms[cs[i]].devices else cs[i] == 0)
    && (forall id, d :: id in comms && d in comms[id].devices ==> exists i :: 0 <= i < |ds| && ds[i] == d && fl[i] && cs[i] == id)
  }

  // Free devices below end now belong to id; the others are as they were.
  ghost predicate TakenTo(fl: seq<bool>, cs: seq<nat>, fl': seq<bool>, cs': seq<nat>, end: nat, id: nat) {
    && |fl| == |cs| == |fl'| == |cs'|
    && forall i :: 0 <= i < |fl| ==>
      if i < end && !fl[i] then fl'[i] && cs'[i] == id else fl'[i] == fl[i] && cs'[i] == cs[i]
  }

  // The new communicator owns exactly what was selected for it.
  lemma InitOwned(ds: seq<Device>, fl: seq<bool>, cs: seq<nat>, fl': seq<bool>, cs': seq<nat>,
                  comms: map<nat, Communicator>, id: nat, c: Communicator, end: nat)
    requires OwnedBy(ds, fl, cs, comms) && TakenTo(fl, cs, fl', cs', end, id) && end <= |ds|
    requires id !in comms && c.devices == Pick(ds[..end], fl[..end])
    ensures OwnedBy(ds, fl', cs', comms[id := c])
  {
    hide Pick;
    var comms' := comms[id := c];
    forall i | 0 <= i < |ds|
      ensures if fl'[i] then cs'[i] in comms' && ds[i] in comms'[cs'[i]].devices else cs'[i] == 0
    {
      if i < end && !fl[i] {
        assert ds[..end][i] == ds[i] && !fl[..end][i];
        PickMember(ds[..end], fl[..end], ds[i]);
      }
    }
    forall x, d | x in comms' && d in comms'[x].devices
      ensures exists i :: 0 <= i < |ds| && ds[i] == d && fl'[i] && cs'[i] == x
    {
      if x == id {
        PickMember(ds[..end], fl[..end], d);
        var i :| 0 <= i < end && ds[..end][i] == d && !fl[..end][i];
        assert ds[i] == d;
      } else {
        var i :| 0 <= i < |ds| && ds[i] == d && fl[i] && cs[i] == x;
        assert fl'[i];
      }
    }
  }

  // The devices of part are free; the others are as they were.
  ghost predicate GivenBack(ds: seq<Device>, fl: seq<bool>, cs: seq<nat>, fl': seq<bool>, cs': seq<nat>, part: seq<Device>) {
    && |ds| == |fl| == |cs| == |fl'| == |cs'|
    && forall i :: 0 <= i < |ds| ==>
      if ds[i] in part then !fl'[i] && cs'[i] == 0 else fl'[i] == fl[i] && cs'[i] == cs[i]
  }

  lemma ReleaseOwned(ds: seq<Device>, fl: seq<bool>, cs: seq<nat>, fl': seq<bool>, cs': seq<nat>,
                     comms: map<nat, Communicator>, id: nat)
    requires Distinct(ds) && OwnedBy(ds, fl, cs, comms) && id in comms
    requires GivenBack(ds, fl, cs, fl', cs', comms[id].devices)
    ensures OwnedBy(ds, fl', cs', comms - {id})
  {
    var comms' := comms - {id};
    forall i | 0 <= i < |ds|
      ensures if fl'[i] then cs'[i] in comms' && ds[i] in comms'[cs'[i]].devices else cs'[i] == 0
    {
    }
    forall x, d | x in comms' && d in comms'[x].devices
      ensures exists i :: 0 <= i < |ds| && ds[i] == d && fl'[i] && cs'[i] == x
    {
      var i :| 0 <= i < |ds| && ds[i] == d && fl[i] && cs[i] == x;
      assert fl'[i];
    }
  }

  lemma AllTaken(fl: seq<bool>, cs: seq<nat>, fl': seq<bool>, cs': seq<nat>, id: nat)
    requires TakenTo(fl, cs, fl', cs', |fl|, id)
    ensures |fl'| == |fl| && forall i :: 0 <= i < |fl| ==> fl'[i]
  {
  }

  lemma Flagged(ds: seq<Device>)
    ensures |Flags(ds)| == |ds| && forall i :: 0 <= i < |ds| ==> Flags(ds)[i] == ds[i].taken
  {
  }

  // Finalizing, destroying or failing a communicator undoes its CommInit.
  lemma InitUndone(ds: seq<Device>, fl: seq<bool>, cs: seq<nat>, fl': seq<bool>, cs': seq<nat>, fl'': seq<bool>, cs'': seq<nat>,
                   comms: map<nat, Communicator>, end: nat, id: nat)
    requires Distinct(ds) && OwnedBy(ds, fl, cs, comms) && end <= |ds|
    requires TakenTo(fl, cs, fl', cs', end, id) && GivenBack(ds, fl', cs', fl'', cs'', Pick(ds[..end], fl[..end]))
    ensures fl'' == fl && cs'' == cs
  {
    forall i | 0 <= i < |ds| ensures fl''[i] == fl[i] && cs''[i] == cs[i] {
      PickMember(ds[..end], fl[..end], ds[i]);
      hide Pick;
      if i < end && !fl[i] {
        assert ds[..end][i] == ds[i] && !fl[..end][i];
      }
    }
  }

  class Coordinator {
    const devices: seq<Device>
    var comms: map<nat, Communicator>
    var commStatus: map<nat, Status>
    var nextId: nat

    ghost predicate Owned()
      reads `comms, devices
    {
      OwnedBy(devices, Flags(devices), Marks(devices), comms)
    }

    ghost predicate Valid()
      reads `comms, `nextId, devices
    {
      && Distinct(devices) && nextId > 0
      && Owned()
      && (forall id :: id in comms ==> 0 < id < nextId && RanksOk(comms[id]))
      && Spare(Flags(devices)) + Held(comms, nextId) == |devices|
    }

    constructor (n: nat)
      ensures Valid() && |devices| == n && comms == map[] && nextId == 1
      ensures forall d :: d in devices ==> fresh(d)
    {
      hide Flags, Marks, Spare;
      var ds: seq<Device> := [];
      for i := 0 to n
        invariant |ds| == i && Distinct(ds)
        invariant forall d :: d in ds ==> fresh(d) && !d.taken && d.comm == 0
      {
        var d := new Device();
        ds := ds + [d];
      }
      devices, comms, commStatus, nextId := ds, map[], map[], 1;
      new;
      AllSpare(Flags(devices));
      assert forall i :: 0 <= i < |devices| ==> !devices[i].taken && devices[i].comm == 0;
    }

    method CountFree() returns (n: nat)
      ensures n == Spare(Flags(devices))
    {
      ghost var fl := Flags(devices);
      n := 0;
      for i := 0 to |devices|
        invariant n == Spare(fl[..i])
      {
        assert fl[..i + 1][..i] == fl[..i];
        if !devices[i].taken {
          n := n + 1;
        }
      }
      assert fl[..|devices|] == fl;
    }

    // Assign device i to the communicator being made.
    method Take(i: nat)
      requires Distinct(devices) && i < |devices| && !devices[i].taken
      modifies devices[i]
      ensures Flags(devices) == old(Flags(devices))[i := true] && Marks(devices) == old(Marks(devices))[i := nextId]
      ensures Spare(Flags(devices)) + 1 == old(Spare(Flags(devices)))
    {
      hide Flags, Marks, Spare;
      ghost var fl, cs := Flags(devices), Marks(devices);
      SpareUpdate(fl, i, true);
      devices[i].taken := true;
      devices[i].comm := nextId;
      assert Flags(devices) == fl[i := true];
      assert Marks(devices) == cs[i := nextId];
    }

    // CommInit's selection: free devices in order, until n are found. With n == 0 it
    // never stops early.
    method Select(n: nat) returns (sel: seq<Device>, ghost end: nat)
      requires Distinct(devices)
      modifies devices
      ensures end <= |devices| && sel == Pick(devices[..end], old(Flags(devices))[..end])
      ensures (n > 0 ==> |sel| <= n) && ((n > 0 && |sel| == n) || end == |devices|)
      ensures TakenTo(old(Flags(devices)), old(Marks(devices)), Flags(devices), Marks(devices), end, nextId)
      ensures Spare(Flags(devices)) + |sel| == old(Spare(Flags(devices)))
    {
      hide Flags, Marks, Spare, Pick, TakenTo, Distinct;
      ghost var fl, cs := Flags(devices), Marks(devices);
      sel, end := [], 0;
      var i := 0;
      PickNone(devices, fl);
      TakenNone(fl, cs, nextId);
      while i < |devices|
        invariant 0 <= i <= |devices| && sel == Pick(devices[..i], fl[..i]) && (n > 0 ==> |sel| < n)
        invariant TakenTo(fl, cs, Flags(devices), Marks(devices), i, nextId)
        invariant Spare(Flags(devices)) + |sel| == Spare(fl)
      {
        PickNext(devices, fl, i);
        TakenNext(fl, cs, Flags(devices), Marks(devices), i, nextId);
        if !devices[i].taken {
          sel := sel + [devices[i]];
          Take(i);
          if |sel| == n {
            return sel, i + 1;
          }
        }
        i := i + 1;
      }
      end := |devices|;
    }

    // Rank k is the k-th selected device. False is the panic on indexing past the n
    // metadata entries.
    method Rank(sel: seq<Device>, n: nat) returns (ok: bool, ranks: map<nat, Device>)
      requires Distinct(sel)
      ensures ok <==> |sel| <= n
      ensures ok ==> RanksOk(Communicator(sel, ranks))
    {
      ranks := map[];
      for i := 0 to |sel|
        invariant i <= n || i == 0
        invariant (forall k :: k in ranks <==> 0 <= k < i) && forall k :: 0 <= k < i ==> ranks[k] == sel[k]
      {
        if i >= n {
          return false, ranks;
        }
        ranks := ranks[i := sel[i]];
      }
      return true, ranks;
    }

    // The first n free devices become a communicator with a new id. Asking for none
    // while some are free is a panic, after all of them were marked taken.
    method CommInit(n: nat) returns (r: InitResult)
      requires Valid()
      modifies this, devices
      ensures r.NotEnough? <==> old(Spare(Flags(devices))) < n
      ensures r.Panic? <==> n == 0 && old(Spare(Flags(devices))) > 0
      ensures !r.Created? ==> commStatus == old(commStatus)
      ensures r.Panic? ==> comms == old(comms) && nextId == old(nextId) && forall i :: 0 <= i < |devices| ==> devices[i].taken
      ensures r.NotEnough? ==> Valid() && comms == old(comms) && nextId == old(nextId) && unchanged(devices)
      ensures r.Created? ==> Valid() && r.id == old(nextId) && nextId == old(nextId) + 1
      ensures r.Created? ==> r.id in comms && comms - {r.id} == old(comms) && r.id !in old(comms)
      ensures r.Created? ==> n <= |old(Pick(devices, Flags(devices)))| && comms[r.id].devices == old(Pick(devices, Flags(devices)))[..n]
      ensures r.Created? ==> commStatus == old(commStatus)[r.id := InProgress]
    {
      hide Flags, Marks, Spare, Pick, Held, RanksOk, OwnedBy, TakenTo, Distinct;
      var available := CountFree();
      if available < n {
        return NotEnough;
      }
      ghost var fl, cs := Flags(devices), Marks(devices);
      var sel;
      ghost var end;
      sel, end := Select(n);
      Selected(devices, fl, sel, end, n);
      var ok, ranks := Rank(sel, n);
      if !ok {
        AllTaken(fl, cs, Flags(devices), Marks(devices), nextId);
        Flagged(devices);
        return Panic;
      }
      var id := Register(sel, ranks, fl, cs, end);
      return Created(id);
    }

    // Record the communicator under the next id.
    method Register(sel: seq<Device>, ranks: map<nat, Device>, ghost fl: seq<bool>, ghost cs: seq<nat>, ghost end: nat)
      returns (id: nat)
      requires Distinct(devices) && nextId > 0 && OwnedBy(devices, fl, cs, comms)
      requires forall x :: x in comms ==> 0 < x < nextId && RanksOk(comms[x])
      requires end <= |devices| && |fl| == |devices| && sel == Pick(devices[..end], fl[..end])
      requires TakenTo(fl, cs, Flags(devices), Marks(devices), end, nextId) && RanksOk(Communicator(sel, ranks))
      requires Spare(Flags(devices)) + |sel| + Held(comms, nextId) == |devices|
      modifies this`comms, this`commStatus, this`nextId
      ensures Valid() && id == old(nextId) && nextId == id + 1
      ensures id !in old(comms) && comms == old(comms)[id := Communicator(sel, ranks)]
      ensures commStatus == old(commStatus)[id := InProgress]
    {
      hide Flags, Marks, Spare, Pick, Held, RanksOk, OwnedBy, TakenTo, Distinct;
      id := nextId;
      nextId := nextId + 1;
      comms := comms[id := Communicator(sel, ranks)];
      commStatus := commStatus[id := InProgress];
      InitOwned(devices, fl, cs, Flags(devices), Marks(devices), old(comms), id, comms[id], end);
      HeldMore(old(comms), comms, id);
    }

    // Free one device of a communicator.
    method Give(d: Device, ghost i: nat)
      requires Distinct(devices) && i < |devices| && d == devices[i] && d.taken
      modifies d
      ensures Flags(devices) == old(Flags(devices))[i := false] && Marks(devices) == old(Marks(devices))[i := 0]
      ensures Spare(Flags(devices)) == old(Spare(Flags(devices))) + 1
    {
      hide Flags, Marks, Spare;
      ghost var fl, cs := Flags(devices), Marks(devices);
      SpareUpdate(fl, i, false);
      d.taken := false;
      d.comm := 0;
      assert Flags(devices) == fl[i := false];
      assert Marks(devices) == cs[i := 0];
    }

    // The loop that releases a communicator's devices.
    method GiveAll(ds: seq<Device>)
      requires Distinct(devices) && Distinct(ds) && forall d :: d in ds ==> d in devices && d.taken
      modifies devices
      ensures GivenBack(devices, old(Flags(devices)), old(Marks(devices)), Flags(devices), Marks(devices), ds)
      ensures Spare(Flags(devices)) == old(Spare(Flags(devices))) + |ds|
    {
      hide Flags, Marks, Spare;
      ghost var fl, cs := Flags(devices), Marks(devices);
      for k := 0 to |ds|
        invariant GivenBack(devices, fl, cs, Flags(devices), Marks(devices), ds[..k])
        invariant forall j :: k <= j < |ds| ==> ds[j].taken
        invariant Spare(Flags(devices)) == Spare(fl) + k
      {
        ghost var i :| 0 <= i < |devices| && devices[i] == ds[k];
        GivenMore(devices, fl, cs, Flags(devices), Marks(devices), ds, k, i);
        Give(ds[k], i);
      }
      assert ds[..|ds|] == ds;
    }

    // Release the devices of a live communicator and delete it.
    method Retire(id: nat)
      requires Valid() && id in comms
      modifies this`comms, devices
      ensures Valid() && comms == old(comms) - {id}
      ensures GivenBack(devices, old(Flags(devices)), old(Marks(devices)), Flags(devices), Marks(devices), old(comms)[id].devices)
    {
      hide Flags, Marks, Spare, Held, GivenBack, OwnedBy;
      MembersTaken(devices, comms, id);
      GiveAll(comms[id].devices);
      ReleaseOwned(devices, old(Flags(devices)), old(Marks(devices)), Flags(devices), Marks(devices), comms, id);
      HeldLess(comms, id, nextId);
      comms := comms - {id};
    }

    // False is the error for a communicator that does not exist. The recorded status
    // stays as it was.
    method CommFinalize(id: nat) returns (ok: bool)
      requires Valid()
      modifies this`comms, devices
      ensures Valid() && (ok <==> id in old(comms)) && comms == old(comms) - {id}
      ensures ok ==> GivenBack(devices, old(Flags(devices)), old(Marks(devices)), Flags(devices), Marks(devices), old(comms)[id].devices)
      ensures !ok ==> unchanged(devices)
    {
      hide Valid, GivenBack, Flags, Marks;
      if id !in comms {
        assert comms - {id} == comms;
        return false;
      }
      Retire(id);
      return true;
    }

    method CommDestroy(id: nat) returns (ok: bool)
      requires Valid()
      modifies this`comms, this`commStatus, devices
      ensures Valid() && (ok <==> id in old(comms)) && comms == old(comms) - {id}
      ensures commStatus == if ok then old(commStatus)[id := Failed] else old(commStatus)
      ensures ok ==> GivenBack(devices, old(Flags(devices)), old(Marks(devices)), Flags(devices), Marks(devices), old(comms)[id].devices)
      ensures !ok ==> unchanged(devices)
    {
      hide Valid, GivenBack, Flags, Marks;
      if id !in comms {
        assert comms - {id} == comms;
        return false;
      }
      Retire(id);
      commStatus := commStatus[id := Failed];
      return true;
    }

    method MarkFailed(id: nat)
      requires Valid()
      modifies this`comms, this`commStatus, devices
      ensures Valid() && comms == old(comms) - {id}
      ensures commStatus == if id in old(comms) then old(commStatus)[id := Failed] else old(commStatus)
      ensures id in old(comms) ==>
        GivenBack(devices, old(Flags(devices)), old(Marks(devices)), Flags(devices), Marks(devices), old(comms)[id].devices)
      ensures id !in old(comms) ==> unchanged(devices)
    {
      hide Valid, GivenBack, Flags, Marks;
      if id in comms {
        commStatus := commStatus[id := Failed];
        Retire(id);
      } else {
        assert comms - {id} == comms;
      }
    }
  }

  lemma GivenMore(devs: seq<Device>, fl: seq<bool>, cs: seq<nat>, fl': seq<bool>, cs': seq<nat>, ds: seq<Device>, k: nat, i: nat)
    requires Distinct(devs) && k < |ds| && i < |devs| && devs[i] == ds[k] && GivenBack(devs, fl, cs, fl', cs', ds[..k])
    ensures GivenBack(devs, fl, cs, fl'[i := false], cs'[i := 0], ds[..k + 1])
  {
    assert ds[..k + 1] == ds[..k] + [ds[k]];
  }

  lemma MembersTaken(ds: seq<Device>, comms: map<nat, Communicator>, id: nat)
    requires OwnedBy(ds, Flags(ds), Marks(ds), comms) && id in comms
    ensures forall d :: d in comms[id].devices ==> d in ds && d.taken
  {
    forall d | d in comms[id].devices ensures d in ds && d.taken {
      var i :| 0 <= i < |ds| && ds[i] == d && Flags(ds)[i] && Marks(ds)[i] == id;
    }
  }

  lemma HeldMore(a: map<nat, Communicator>, b: map<nat, Communicator>, id: nat)
    requires id in b && b == a[id := b[id]]
    ensures Held(b, id + 1) == Held(a, id) + |b[id].devices|
  {
    HeldSame(a, b, id);
  }

  // The selection is the first n free devices, or every free one when n == 0.
  lemma Selected(ds: seq<Device>, fl: seq<bool>, sel: seq<Device>, end: nat, n: nat)
    requires |ds| == |fl| && Distinct(ds) && end <= |ds| && sel == Pick(ds[..end], fl[..end]) && n <= Spare(fl)
    requires (n > 0 ==> |sel| <= n) && ((n > 0 && |sel| == n) || end == |ds|)
    ensures |sel| == (if n == 0 then Spare(fl) else n) && Distinct(sel)
    ensures |sel| <= n ==> n <= |Pick(ds, fl)| && sel == Pick(ds, fl)[..n]
  {
    PickPrefix(ds, fl, end);
    WholePick(ds, fl, end);
    PickDistinct(ds[..end], fl[..end]);
  }

  lemma WholePick(ds: seq<Device>, fl: seq<bool>, k: nat)
    requires |ds| == |fl| && k <= |ds|
    ensures k == |ds| ==> Pick(ds[..k], fl[..k]) == Pick(ds, fl)
  {
    if k == |ds| {
      assert ds[..k] == ds && fl[..k] == fl;
    }
  }

  lemma PickNone(ds: seq<Device>, fl: seq<bool>)
    requires |ds| == |fl|
    ensures Pick(ds[..0], fl[..0]) == []
  {
  }

  lemma TakenNone(fl: seq<bool>, cs: seq<nat>, id: nat)
    requires |fl| == |cs|
    ensures TakenTo(fl, cs, fl, cs, 0, id)
  {
  }

  lemma TakenNext(fl: seq<bool>, cs: seq<nat>, fl': seq<bool>, cs': seq<nat>, i: nat, id: nat)
    requires TakenTo(fl, cs, fl', cs', i, id) && i < |fl'|
    ensures |fl| == |cs| == |fl'| == |cs'| && fl'[i] == fl[i]
    ensures fl[i] ==> TakenTo(fl, cs, fl', cs', i + 1, id)
    ensures !fl[i] ==> TakenTo(fl, cs, fl'[i := true], cs'[i := id], i + 1, id)
  {
  }

  lemma PickNext(ds: seq<Device>, fl: seq<bool>, i: nat)
    requires |ds| == |fl| && i < |ds|
    ensures Pick(ds[..i + 1], fl[..i + 1]) == Pick(ds[..i], fl[..i]) + if fl[i] then [] else [ds[i]]
  {
    assert ds[..i + 1][..i] == ds[..i] && fl[..i + 1][..i] == fl[..i];
  }
}
