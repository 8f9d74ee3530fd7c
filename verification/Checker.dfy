// The stress tester's consistency checker (sharded_kv_cache/checker/checker.go).
// Times are instants on one clock.
module Checker {

  type Key = string
  type Value = string

  datatype Option<T> = None | Some(get: T)

  // What is kept of a write: whether it failed, and between when its value expires.
  datatype Val = Val(err: bool, maybe: int, definitely: int)

  // What the checker keeps for one key.
  datatype Track = Track(values: map<Value, Val>, over: map<Value, Val>, version: int, rc: int)

  const FRESH := Track(map[], map[], 0, 0)

  datatype Verdict = Skipped | Fine | Overwritten | NeverWritten | Expired | Missing

  function Begin(t: Track): Track { t.(rc := t.rc + 1) }

  predicate Duplicate(t: Track, v: Value) { v in t.values || v in t.over }

  function Complete(t: Track, v: Value, x: Val, init: int): Track {
    var u :=
      if !x.err && init == t.version && t.rc == 1 then t.(over := t.over + t.values, values := map[v := x])
      else t.(values := t.values[v := x]);
    u.(rc := t.rc - 1, version := t.version + 1)
  }

  // A value may have expired by now, or there is none.
  predicate MayBeGone(vals: map<Value, Val>, now: int) {
    vals == map[] || exists v :: v in vals && vals[v].maybe < now
  }

  // The verdict on a read that began at start and found v, or nothing.
  function Check(t: Track, seen: Option<Value>, start: int, now: int, init: int, pending: bool, checkTtl: bool): Verdict {
    if t.version != init || pending || t.rc != 0 then Skipped
    else
      match seen
      case None => if MayBeGone(t.values, now) then Fine else Missing
      case Some(v) =>
        if v !in t.values then if v in t.over then Overwritten else NeverWritten
        else if checkTtl && !t.values[v].err && t.values[v].definitely < start then Expired
        else Fine
  }

  // over is t.over with the values outside rest moved in.
  ghost predicate Moving(t: Track, rest: set<Value>, over: map<Value, Val>) {
    && rest <= t.values.Keys
    && over.Keys == t.over.Keys + (t.values.Keys - rest)
    && forall y :: y in over ==> over[y] == if y in t.values && y !in rest then t.values[y] else t.over[y]
  }

  lemma MovingStart(t: Track)
    ensures Moving(t, t.values.Keys, t.over)
  {
  }

  lemma MovingStep(t: Track, rest: set<Value>, over: map<Value, Val>, y: Value)
    requires Moving(t, rest, over) && y in rest
    ensures y in t.values && Moving(t, rest - {y}, over[y := t.values[y]])
  {
  }

  lemma MovingDone(t: Track, over: map<Value, Val>)
    requires Moving(t, {}, over)
    ensures over == t.over + t.values
  {
  }

  class ConsistencyChecker {
    const ttlCheckBuffer: int
    const checkTtl: bool
    var values: map<Key, map<Value, Val>>
    var overwrittenValues: map<Key, map<Value, Val>>
    var version: map<Key, int>
    var rc: map<Key, int>

    constructor (ttlCheckBuffer: int, checkTtl: bool)
      ensures this.ttlCheckBuffer == ttlCheckBuffer && this.checkTtl == checkTtl && forall k :: At(k) == FRESH
    {
      this.ttlCheckBuffer, this.checkTtl := ttlCheckBuffer, checkTtl;
      values, overwrittenValues, version, rc := map[], map[], map[], map[];
    }

    // A missing entry reads as Go's zero value.
    function At(k: Key): Track
      reads this
    {
      Track(if k in values then values[k] else map[], if k in overwrittenValues then overwrittenValues[k] else map[],
            if k in version then version[k] else 0, if k in rc then rc[k] else 0)
    }

    method BeginWrite(k: Key) returns (init: int)
      modifies this
      ensures init == old(At(k)).version && At(k) == Begin(old(At(k)))
      ensures forall x :: x != k ==> At(x) == old(At(x))
    {
      rc := rc[k := At(k).rc + 1];
      return At(k).version;
    }

    // Every current value of k joins the overwritten ones.
    method Retire(k: Key)
      modifies this`overwrittenValues
      ensures At(k) == old(At(k)).(over := old(At(k)).over + old(At(k)).values)
      ensures forall x :: x != k ==> At(x) == old(At(x))
    {
      hide Moving;
      var t := At(k);
      var rest, over := t.values.Keys, t.over;
      MovingStart(t);
      while rest != {}
        invariant Moving(t, rest, over) && At(k) == t.(over := over)
        invariant forall x :: x != k ==> At(x) == old(At(x))
        decreases |rest|
      {
        var y :| y in rest;
        MovingStep(t, rest, over, y);
        over := over[y := t.values[y]];
        overwrittenValues := overwrittenValues[k := over];
        rest := rest - {y};
      }
      MovingDone(t, over);
    }

    // The write is over and vals are the current values of k.
    method Settle(k: Key, vals: map<Value, Val>)
      modifies this`values, this`rc, this`version
      ensures At(k) == old(At(k)).(values := vals, rc := old(At(k)).rc - 1, version := old(At(k)).version + 1)
      ensures forall x :: x != k ==> At(x) == old(At(x))
    {
      var t := At(k);
      values := values[k := vals];
      rc := rc[k := t.rc - 1];
      version := version[k := t.version + 1];
    }

    // False is the panic on a duplicate value.
    method CompleteWrite(k: Key, v: Value, err: bool, init: int, maybe: int, definitely: int) returns (ok: bool)
      modifies this
      ensures ok == !Duplicate(old(At(k)), v)
      ensures At(k) == if ok then Complete(old(At(k)), v, Val(err, maybe, definitely + ttlCheckBuffer), init) else old(At(k))
      ensures forall x :: x != k ==> At(x) == old(At(x))
    {
      var t, x := At(k), Val(err, maybe, definitely + ttlCheckBuffer);
      if v in t.values {
        return false;
      }
      if v in t.over {
        return false;
      }
      if !err && init == t.version && t.rc == 1 {
        Retire(k);
        Settle(k, map[v := x]);
      } else {
        Settle(k, t.values[v := x]);
      }
      return true;
    }

    method BeginRead(k: Key) returns (init: int, pending: bool)
      ensures init == At(k).version && pending == (At(k).rc != 0)
    {
      return At(k).version, At(k).rc != 0;
    }

    // The loop over the values when nothing was found.
    method SomeExpired(k: Key, now: int) returns (some: bool)
      ensures some == MayBeGone(At(k).values, now)
    {
      var vals := At(k).values;
      some := vals == map[];
      var rest := vals.Keys;
      while rest != {}
        invariant rest <= vals.Keys
        invariant some <==> vals == map[] || exists v :: v in vals && v !in rest && vals[v].maybe < now
        decreases |rest|
      {
        var v :| v in rest;
        if vals[v].maybe < now {
          some := true;
        }
        rest := rest - {v};
      }
    }

    method CheckReadCorrect(k: Key, v: Value, wasFound: bool, start: int, now: int, init: int, pending: bool) returns (r: Verdict)
      ensures r == Check(At(k), if wasFound then Some(v) else None, start, now, init, pending, checkTtl)
    {
      var t := At(k);
      if t.version != init || pending || t.rc != 0 {
        return Skipped;
      }
      if !wasFound {
        var some := SomeExpired(k, now);
        return if some then Fine else Missing;
      }
      if v !in t.values {
        if v in t.over {
          return Overwritten;
        }
        return NeverWritten;
      }
      if checkTtl && !t.values[v].err && t.values[v].definitely < start {
        return Expired;
      }
      return Fine;
    }
  }
}
