// log.c as it runs: the in-memory header and the disk, updated in place. Every
// operation is proved to issue exactly the sector writes RedoLog reasons about.
module LogDevice {
  import opened Blocks
  import opened RedoLog

  lemma {:induction false} PutWordsLast(b: Block, j: nat, ws: seq<nat>, x: nat)
    requires j + |ws| < WORDS && x < MAXWORD && forall i :: 0 <= i < |ws| ==> ws[i] < MAXWORD
    ensures PutWords(b, j, ws + [x]) == PutWord(PutWords(b, j, ws), j + |ws|, x)
    decreases |ws|
  {
    if ws == [] {
      assert (ws + [x])[1..] == [];
    } else {
      assert (ws + [x])[1..] == ws[1..] + [x];
      PutWordsLast(PutWord(b, j, ws[0]), j + 1, ws[1..], x);
    }
  }

  class Log {
    const start: nat
    const size: nat
    var disk: Disk
    var busy: bool
    var lh: seq<nat>
    ghost var trace: seq<Write>      // every sector write so far

    ghost predicate Valid()
      reads this
    {
      && start + size == |disk|
      && size >= 1
      && start <= MAXWORD
      && Fits(lh)
      && |lh| <= size - 1
      && forall i :: 0 <= i < |lh| ==> lh[i] < start
    }

    // log_init on a disk whose superblock puts the log at the end
    constructor (disk: Disk, nlog: nat)
      requires 1 <= nlog <= |disk| && |disk| - nlog <= MAXWORD && Recoverable(disk, |disk| - nlog)
      ensures Valid() && start == |disk| - nlog && size == nlog && !busy && lh == []
      ensures this.disk == Apply(disk, RecoverWrites(disk, start)) && Clean(this.disk, start)
      ensures this.disk[..start] == Outcome(disk, start)
    {
      start := |disk| - nlog;
      size := nlog;
      this.disk := disk;
      busy := false;
      lh := [];
      trace := [];
      new;
      RecoverFromLog();
      RecoveryCut(disk, start, |RecoverWrites(disk, start)|);
      var ws := RecoverWrites(disk, start);
      assert ws[..|ws|] == ws;
    }

    // bufcache_write of one sector
    method WriteSector(w: Write)
      requires w.sector < |disk|
      modifies this
      ensures disk == Apply(old(disk), [w]) && trace == old(trace) + [w]
      ensures lh == old(lh) && busy == old(busy)
    {
      disk := disk[w.sector := w.data];
      trace := trace + [w];
    }

    method WriteHead()
      requires start < |disk| && Fits(lh)
      modifies this
      ensures lh == old(lh) && busy == old(busy)
      ensures disk == Apply(old(disk), [Write(start, WriteHeader(old(disk[start]), lh))])
      ensures trace == old(trace) + [Write(start, WriteHeader(old(disk[start]), lh))]
    {
      var b := PutWord(disk[start], 0, |lh|);
      ghost var ws := [|lh|] + lh;
      assert ws[..1] == [|lh|];
      for i := 0 to |lh|
        invariant disk == old(disk) && trace == old(trace) && lh == old(lh) && busy == old(busy)
        invariant b == PutWords(disk[start], 0, ws[..i + 1])
      {
        assert ws[..i + 2] == ws[..i + 1] + [lh[i]];
        PutWordsLast(disk[start], 0, ws[..i + 1], lh[i]);
        b := PutWord(b, 1 + i, lh[i]);
      }
      assert ws[..|lh| + 1] == ws;
      WriteSector(Write(start, b));
    }

    method ReadHead()
      requires Recoverable(disk, start)
      modifies this`lh
      ensures lh == ReadHeader(disk[start])
    {
      var b := disk[start];
      var n := GetWord(b, 0);
      lh := [];
      for i := 0 to n
        invariant |lh| == i && lh == ReadHeader(b)[..i]
      {
        lh := lh + [GetWord(b, 1 + i)];
      }
    }

    method InstallTrans()
      requires InLog(disk, start, lh) && forall i :: 0 <= i < |lh| ==> lh[i] < start
      modifies this
      ensures var ws := InstallWrites(old(disk), start, old(lh));
        disk == Apply(old(disk), ws) && trace == old(trace) + ws
      ensures lh == old(lh) && busy == old(busy) && disk[start..] == old(disk)[start..]
    {
      ghost var ws := InstallWrites(disk, start, lh);
      assert ws[..0] == [];
      for tail := 0 to |lh|
        invariant lh == old(lh) && busy == old(busy) && |disk| == old(|disk|)
        invariant disk == Apply(old(disk), ws[..tail]) && trace == old(trace) + ws[..tail]
        invariant disk[start..] == old(disk)[start..]
      {
        SameTail(disk, old(disk), start);
        assert ws[..tail + 1] == ws[..tail] + [ws[tail]];
        ApplyConcat(old(disk), ws[..tail], [ws[tail]]);
        WriteSector(Write(lh[tail], disk[start + 1 + tail]));
      }
      assert ws[..|lh|] == ws;
    }

    method RecoverFromLog()
      requires Recoverable(disk, start) && lh == []
      modifies this
      ensures disk == Apply(old(disk), RecoverWrites(old(disk), start))
      ensures trace == old(trace) + RecoverWrites(old(disk), start)
      ensures lh == [] && busy == old(busy)
    {
      ReadHead();
      ghost var iw := InstallWrites(disk, start, lh);
      InstallTrans();
      SameTail(disk, old(disk), start);
      lh := [];
      ApplyConcat(old(disk), iw, [Write(start, WriteHeader(disk[start], []))]);
      WriteHead();
    }

    method BeginTrans()
      requires Valid() && !busy
      modifies this`busy
      ensures Valid() && busy
    {
      busy := true;
    }

    // It panics, and logs nothing, on a full log or outside a transaction.
    method LogWrite(w: Write) returns (ok: bool)
      requires Valid() && w.sector < start
      modifies this
      ensures Valid() && busy == old(busy) && (ok <==> HasRoom(old(lh), size) && busy)
      ensures !ok ==> lh == old(lh) && disk == old(disk) && trace == old(trace)
      ensures ok ==>
        && lh == Absorb(old(lh), w.sector)
        && disk == Apply(old(disk), LogWrites(start, old(lh), [w]))
        && trace == old(trace) + LogWrites(start, old(lh), [w])
    {
      if !(HasRoom(lh, size) && busy) {
        return false;
      }
      var i := 0;
      while i < |lh| && lh[i] != w.sector
        invariant 0 <= i <= |lh| && i + Slot(lh[i..], w.sector) == Slot(lh, w.sector)
      {
        assert lh[i..][1..] == lh[i + 1..];
        i := i + 1;
      }
      assert i == Slot(lh, w.sector);
      if i == |lh| {
        lh := lh + [w.sector];
      }
      assert LogWrites(start, old(lh), [w]) == [Write(start + 1 + i, w.data)] by {
        assert [w][1..] == [];
      }
      WriteSector(Write(start + 1 + i, w.data));
      return true;
    }

    method CommitTrans()
      requires Valid() && busy
      modifies this
      ensures Valid() && !busy && lh == []
      ensures disk == Apply(old(disk), CommitWrites(old(disk), start, old(lh)))
      ensures trace == old(trace) + CommitWrites(old(disk), start, old(lh))
    {
      if |lh| > 0 {
        ghost var d, m := disk, lh;
        ghost var hw := Write(start, WriteHeader(disk[start], lh));
        WriteHead();
        ghost var iw := InstallWrites(disk, start, lh);
        assert iw == InstallWrites(d, start, lh);
        ghost var f := disk;
        InstallTrans();
        SameTail(disk, f, start);
        lh := [];
        ghost var cw := Write(start, WriteHeader(disk[start], []));
        ghost var g := disk;
        WriteHead();
        ApplyConcat(f, iw, [cw]);
        ApplyConcat(d, [hw], iw + [cw]);
        assert CommitWrites(d, start, m) == [hw] + (iw + [cw]);
        assert trace == old(trace) + [hw] + iw + [cw];
      }
      busy := false;
    }

    // The log_write calls of a transaction; n of them succeed before one panics.
    method LogAll(ops: seq<Write>) returns (n: nat)
      requires Valid() && busy && lh == [] && forall i :: 0 <= i < |ops| ==> ops[i].sector < start
      modifies this
      ensures Valid() && busy && n <= |ops| && lh == AbsorbAll([], ops[..n])
      ensures Admitted(ops[..n], size) && (n < |ops| ==> !HasRoom(lh, size))
      ensures disk == Apply(old(disk), LogWrites(start, [], ops[..n]))
      ensures trace == old(trace) + LogWrites(start, [], ops[..n])
    {
      assert ops[..0] == [];
      for i := 0 to |ops|
        invariant Valid() && busy && lh == AbsorbAll([], ops[..i]) && Admitted(ops[..i], size)
        invariant disk == Apply(old(disk), LogWrites(start, [], ops[..i]))
        invariant trace == old(trace) + LogWrites(start, [], ops[..i])
      {
        assert ops[..i + 1] == ops[..i] + [ops[i]];
        OneMore(start, [], ops[..i], ops[i]);
        ApplyConcat(old(disk), LogWrites(start, [], ops[..i]), LogWrites(start, lh, [ops[i]]));
        AdmitOne(ops[..i], ops[i], size);
        hide LogWrites, AbsorbAll, Absorb, Admitted;
        var ok := LogWrite(ops[i]);
        if !ok {
          return i;
        }
      }
      return |ops|;
    }

    // One whole transaction, as a system call brackets it. It completes exactly when
    // there is room for each of its writes, and then the homes end up with all of
    // them. If not, it panics, and recovery leaves the homes as they were.
    method Transaction(ops: seq<Write>) returns (ok: bool)
      requires Valid() && !busy && lh == [] && Clean(disk, start) && forall i :: 0 <= i < |ops| ==> ops[i].sector < start
      modifies this
      ensures Valid() && (ok <==> Admitted(ops, size))
      ensures ok ==>
        && !busy && lh == [] && Clean(disk, start)
        && trace == old(trace) + TransWrites(old(disk), start, ops)
        && disk[..start] == Apply(old(disk)[..start], ops)
      ensures !ok ==> Recoverable(disk, start) && Outcome(disk, start) == old(disk)[..start]
    {
      hide Admissible, Clean, Fits, LogWrites, CommitWrites, AbsorbAll, TransWrites, Apply, Admitted, Recoverable, Outcome;
      ghost var d := disk;
      BeginTrans();
      var n := LogAll(ops);
      if n < |ops| {
        NotAdmitted(ops, n, size);
        Abandoned(d, start, ops[..n]);
        return false;
      }
      assert ops[..n] == ops;
      ghost var e, m, tr := disk, lh, trace;
      AdmittedFits(d, start, ops, size);
      TransIs(d, start, ops, e, m);
      CommitTrans();
      assert trace == old(trace) + (LogWrites(start, [], ops) + CommitWrites(e, start, m));
      EventAtomic(d, start, Finished(ops));
      return true;
    }
  }

  // log_write's size check.
  predicate HasRoom(lh: seq<nat>, size: nat) {
    |lh| < LOGSIZE && |lh| < size - 1
  }

  // Each of ops finds room in a log of size blocks that starts empty.
  ghost predicate Admitted(ops: seq<Write>, size: nat) {
    forall i :: 0 <= i < |ops| ==> HasRoom(AbsorbAll([], ops[..i]), size)
  }

  lemma {:induction false} AdmitOne(ops: seq<Write>, w: Write, size: nat)
    requires Admitted(ops, size)
    ensures HasRoom(AbsorbAll([], ops), size) ==> Admitted(ops + [w], size)
  {
    forall i | 0 <= i <= |ops| ensures (ops + [w])[..i] == ops[..i] {
    }
    assert ops[..|ops|] == ops;
  }

  lemma {:induction false} NotAdmitted(ops: seq<Write>, n: nat, size: nat)
    requires n < |ops| && !HasRoom(AbsorbAll([], ops[..n]), size)
    ensures !Admitted(ops, size)
  {
    assert !HasRoom(AbsorbAll([], ops[..n]), size);
  }

  lemma {:induction false} AdmittedFits(d: Disk, start: nat, ops: seq<Write>, size: nat)
    requires Admitted(ops, size) && start + size == |d| && size >= 1 && start <= MAXWORD
    requires forall i :: 0 <= i < |ops| ==> ops[i].sector < start
    ensures Admissible(d, start, ops)
  {
    if ops != [] {
      var t, w := ops[..|ops| - 1], ops[|ops| - 1];
      assert ops == t + [w];
      OneMore(start, [], t, w);
      assert HasRoom(AbsorbAll([], ops[..|ops| - 1]), size);
    }
  }

  // A transaction that panics has written log blocks only.
  lemma {:induction false} Abandoned(d: Disk, start: nat, ops: seq<Write>)
    requires Clean(d, start)
    ensures var e := Apply(d, LogWrites(start, [], ops)); Recoverable(e, start) && Outcome(e, start) == d[..start]
  {
    LogWritesInLog(start, [], ops);
    LoggingQuiet(d, start, LogWrites(start, [], ops));
    CleanOutcome(Apply(d, LogWrites(start, [], ops)), start);
  }

  lemma TransIs(d: Disk, start: nat, ops: seq<Write>, e: Disk, lh: seq<nat>)
    requires e == Apply(d, LogWrites(start, [], ops)) && lh == AbsorbAll([], ops) && InLog(e, start, lh) && Fits(lh)
    ensures TransWrites(d, start, ops) == LogWrites(start, [], ops) + CommitWrites(e, start, lh)
    ensures Apply(d, TransWrites(d, start, ops)) == Apply(e, CommitWrites(e, start, lh))
  {
    ApplyConcat(d, LogWrites(start, [], ops), CommitWrites(e, start, lh));
  }

  lemma {:induction false} OneMore(start: nat, lh: seq<nat>, ops: seq<Write>, w: Write)
    ensures AbsorbAll(lh, ops + [w]) == Absorb(AbsorbAll(lh, ops), w.sector)
    ensures LogWrites(start, lh, ops + [w]) == LogWrites(start, lh, ops) + LogWrites(start, AbsorbAll(lh, ops), [w])
    decreases |ops|
  {
    hide Absorb, Slot;
    if ops == [] {
      assert ops + [w] == [w];
      assert [w][1..] == [];
    } else {
      var m, t := Absorb(lh, ops[0].sector), ops[1..];
      assert (ops + [w])[1..] == t + [w];
      OneMore(start, m, t, w);
      var head := [Write(start + 1 + Slot(lh, ops[0].sector), ops[0].data)];
      assert LogWrites(start, lh, ops + [w]) == head + LogWrites(start, m, t + [w]);
      assert LogWrites(start, lh, ops) == head + LogWrites(start, m, t);
    }
  }
}
