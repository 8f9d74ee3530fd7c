// The redo log (mCertiKOS/kern/fs/log.c) as a sequence of sector writes, any of
// which may be the last one before a crash.
module RedoLog {
  import opened Blocks

  const LOGSIZE := 10

  // A disk of whole sectors. Sectors below start are home; sector start is the log
  // header and the ones above it hold logged blocks.
  type Disk = seq<Block>

  datatype Write = Write(sector: nat, data: Block)

  // The sector writes ws, in order.
  function Apply(d: Disk, ws: seq<Write>): (r: Disk)
    ensures |r| == |d|
    decreases |ws|
  {
    if ws == [] then d
    else Apply(if ws[0].sector < |d| then d[ws[0].sector := ws[0].data] else d, ws[1..])
  }

  // struct logheader: n, then sector[0..n).
  predicate HeaderOk(b: Block) { GetWord(b, 0) <= LOGSIZE }

  function ReadHeader(b: Block): seq<nat>
    requires HeaderOk(b)
  {
    GetWords(b, 1, GetWord(b, 0))
  }

  predicate Fits(lh: seq<nat>) {
    |lh| <= LOGSIZE && forall i :: 0 <= i < |lh| ==> lh[i] < MAXWORD
  }

  function WriteHeader(b: Block, lh: seq<nat>): Block
    requires Fits(lh)
  {
    PutWords(b, 0, [|lh|] + lh)
  }

  lemma HeaderRoundTrip(b: Block, lh: seq<nat>)
    requires Fits(lh)
    ensures HeaderOk(WriteHeader(b, lh)) && ReadHeader(WriteHeader(b, lh)) == lh
  {
    var h := WriteHeader(b, lh);
    assert GetWord(h, 0) == |lh|;
    forall i | 0 <= i < |lh| ensures ReadHeader(h)[i] == lh[i] {
      assert GetWord(h, 1 + i) == ([|lh|] + lh)[1 + i];
    }
  }

  // The header on disk: the count, then the sectors, four bytes each.
  lemma HeaderBytes(b: Block, lh: seq<nat>)
    requires Fits(lh)
    ensures Word(WriteHeader(b, lh), 0) == |lh|
    ensures forall i :: 0 <= i < |lh| ==> Word(WriteHeader(b, lh), 4 + 4 * i) == lh[i]
  {
    hide Word;
    var h := WriteHeader(b, lh);
    WordBytes(h, 0);
    forall i | 0 <= i < |lh| ensures Word(h, 4 + 4 * i) == lh[i] {
      WordBytes(h, 1 + i);
      assert GetWord(h, 1 + i) == ([|lh|] + lh)[1 + i];
    }
  }

  // ---------- The code's writes ----------

  // The slot log_write uses for sector: its old one (absorption) or the next.
  function Slot(lh: seq<nat>, sector: nat): (i: nat)
    ensures i <= |lh|
    ensures i < |lh| ==> lh[i] == sector
    ensures sector !in lh[..i]
  {
    if lh == [] || lh[0] == sector then 0 else 1 + Slot(lh[1..], sector)
  }

  function Absorb(lh: seq<nat>, sector: nat): seq<nat> {
    if Slot(lh, sector) == |lh| then lh + [sector] else lh
  }

  // The header in memory after logging every op in order.
  function AbsorbAll(lh: seq<nat>, ops: seq<Write>): seq<nat>
    decreases |ops|
  {
    if ops == [] then lh else AbsorbAll(Absorb(lh, ops[0].sector), ops[1..])
  }

  // The log blocks written for them.
  function LogWrites(start: nat, lh: seq<nat>, ops: seq<Write>): (ws: seq<Write>)
    ensures |ws| == |ops|
    decreases |ops|
  {
    if ops == [] then []
    else [Write(start + 1 + Slot(lh, ops[0].sector), ops[0].data)]
         + LogWrites(start, Absorb(lh, ops[0].sector), ops[1..])
  }

  predicate InLog(d: Disk, start: nat, lh: seq<nat>) {
    start + 1 + |lh| <= |d|
  }

  // install_trans
  function InstallWrites(d: Disk, start: nat, lh: seq<nat>): (ws: seq<Write>)
    requires InLog(d, start, lh)
    ensures |ws| == |lh|
    ensures forall i :: 0 <= i < |ws| ==> ws[i] == Write(lh[i], d[start + 1 + i])
  {
    seq(|lh|, i requires 0 <= i < |lh| => Write(lh[i], d[start + 1 + i]))
  }

  // commit_trans
  function CommitWrites(d: Disk, start: nat, lh: seq<nat>): seq<Write>
    requires InLog(d, start, lh) && Fits(lh)
  {
    if lh == [] then []
    else
      var head := WriteHeader(d[start], lh);
      [Write(start, head)] + InstallWrites(d, start, lh) + [Write(start, WriteHeader(head, []))]
  }

  // recover_from_log
  function RecoverWrites(d: Disk, start: nat): seq<Write>
  {
    if Recoverable(d, start) then
      InstallWrites(d, start, ReadHeader(d[start])) + [Write(start, WriteHeader(d[start], []))]
    else []
  }

  // ---------- What recovery would leave ----------

  // The header is readable and names home sectors only.
  predicate Recoverable(d: Disk, start: nat) {
    && start < |d|
    && HeaderOk(d[start])
    && InLog(d, start, ReadHeader(d[start]))
    && forall i :: 0 <= i < |ReadHeader(d[start])| ==> ReadHeader(d[start])[i] < start
  }

  // The home sectors once everything the header names is installed.
  function Outcome(d: Disk, start: nat): Disk
    requires Recoverable(d, start)
  {
    Apply(d[..start], InstallWrites(d, start, ReadHeader(d[start])))
  }

  predicate Clean(d: Disk, start: nat) {
    start < |d| && HeaderOk(d[start]) && ReadHeader(d[start]) == []
  }

  lemma CleanOutcome(d: Disk, start: nat)
    requires Clean(d, start)
    ensures Recoverable(d, start) && Outcome(d, start) == d[..start]
  {
  }

  // ---------- Applying writes ----------

  lemma {:induction false} ApplyConcat(d: Disk, a: seq<Write>, b: seq<Write>)
    ensures Apply(d, a + b) == Apply(Apply(d, a), b)
    decreases |a|
  {
    if a == [] {
      assert a + b == b;
    } else {
      assert (a + b)[1..] == a[1..] + b;
      ApplyConcat(if a[0].sector < |d| then d[a[0].sector := a[0].data] else d, a[1..], b);
    }
  }

  lemma {:induction false} ApplyElsewhere(d: Disk, ws: seq<Write>, s: nat)
    requires s < |d| && forall i :: 0 <= i < |ws| ==> ws[i].sector != s
    ensures Apply(d, ws)[s] == d[s]
    decreases |ws|
  {
    if ws != [] {
      ApplyElsewhere(if ws[0].sector < |d| then d[ws[0].sector := ws[0].data] else d, ws[1..], s);
    }
  }

  // Writes to home sectors act on the home part alone.
  lemma {:induction false} ApplyHome(d: Disk, ws: seq<Write>, start: nat)
    requires start <= |d| && forall i :: 0 <= i < |ws| ==> ws[i].sector < start
    ensures Apply(d, ws)[..start] == Apply(d[..start], ws)
    ensures Apply(d, ws)[start..] == d[start..]
    decreases |ws|
  {
    if ws != [] {
      var e := d[ws[0].sector := ws[0].data];
      ApplyHome(e, ws[1..], start);
      assert e[..start] == d[..start][ws[0].sector := ws[0].data];
      assert e[start..] == d[start..];
    }
  }

  // A sector that is written at all ends up the same from any starting disk.
  lemma {:induction false} LastWins(d: Disk, e: Disk, ws: seq<Write>, s: nat)
    requires |d| == |e| && s < |d| && exists i :: 0 <= i < |ws| && ws[i].sector == s
    ensures Apply(d, ws)[s] == Apply(e, ws)[s]
    decreases |ws|
  {
    var d1 := if ws[0].sector < |d| then d[ws[0].sector := ws[0].data] else d;
    var e1 := if ws[0].sector < |e| then e[ws[0].sector := ws[0].data] else e;
    var t := ws[1..];
    if i :| 1 <= i < |ws| && ws[i].sector == s {
      assert t[i - 1].sector == s;
      LastWins(d1, e1, t, s);
    } else {
      ApplyElsewhere(d1, t, s);
      ApplyElsewhere(e1, t, s);
    }
  }

  // Replaying a write list over a disk where a prefix of it is already in place
  // gives the same disk.
  lemma Replay(d: Disk, ws: seq<Write>, j: nat)
    requires j <= |ws|
    ensures Apply(Apply(d, ws[..j]), ws) == Apply(d, ws)
  {
    var e := Apply(d, ws[..j]);
    forall s | 0 <= s < |d| ensures Apply(e, ws)[s] == Apply(d, ws)[s] {
      if exists i :: 0 <= i < |ws| && ws[i].sector == s {
        LastWins(d, e, ws, s);
      } else {
        ApplyElsewhere(e, ws, s);
        ApplyElsewhere(d, ws, s);
        ApplyElsewhere(d, ws[..j], s);
      }
    }
  }

  // ---------- Recovery, cut anywhere ----------

  // Cut after any of its writes, recovery leaves a disk that recovers to the same
  // homes; completed, it leaves exactly those homes and a clean log.
  lemma RecoveryCut(d: Disk, start: nat, j: nat)
    requires Recoverable(d, start) && j <= |RecoverWrites(d, start)|
    ensures var e := Apply(d, RecoverWrites(d, start)[..j]);
      && Recoverable(e, start)
      && |e| == |d|
      && Outcome(e, start) == Outcome(d, start)
      && (j == |RecoverWrites(d, start)| ==> Clean(e, start) && e[..start] == Outcome(d, start))
  {
    if j < |RecoverWrites(d, start)| {
      InstallCut(d, start, j);
    } else {
      assert RecoverWrites(d, start)[..j] == RecoverWrites(d, start);
      RecoveryDone(d, start);
    }
  }

  lemma {:induction false} InstallCut(d: Disk, start: nat, j: nat)
    requires Recoverable(d, start) && j < |RecoverWrites(d, start)|
    ensures var e := Apply(d, RecoverWrites(d, start)[..j]);
      Recoverable(e, start) && |e| == |d| && Outcome(e, start) == Outcome(d, start)
  {
    hide Apply, InstallWrites, Recoverable, Outcome, RecoverWrites;
    var iw := InstallHomes(d, start);
    assert RecoverWrites(d, start)[..j] == iw[..j];
    var e := Apply(d, iw[..j]);
    ApplyHome(d, iw[..j], start);
    SameInstall(d, e, start, iw);
    Replay(d[..start], iw, j);
  }

  // What recovery installs.
  lemma InstallHomes(d: Disk, start: nat) returns (iw: seq<Write>)
    requires Recoverable(d, start)
    ensures start < |d| && |RecoverWrites(d, start)| == |iw| + 1 && RecoverWrites(d, start)[..|iw|] == iw
    ensures forall i :: 0 <= i < |iw| ==> iw[i].sector < start
    ensures Outcome(d, start) == Apply(d[..start], iw)
    ensures InLog(d, start, ReadHeader(d[start])) && iw == InstallWrites(d, start, ReadHeader(d[start]))
  {
    iw := InstallWrites(d, start, ReadHeader(d[start]));
  }

  // Recovery reads the header and the log blocks only.
  lemma SameInstall(d: Disk, e: Disk, start: nat, iw: seq<Write>)
    requires Recoverable(d, start) && |e| == |d| && e[start..] == d[start..] && iw == InstallWrites(d, start, ReadHeader(d[start]))
    ensures Recoverable(e, start) && Outcome(e, start) == Apply(e[..start], iw)
  {
    hide Apply;
    SameTail(d, e, start);
    assert InstallWrites(e, start, ReadHeader(d[start])) == iw;
  }

  lemma RecoveryDone(d: Disk, start: nat)
    requires Recoverable(d, start)
    ensures var e := Apply(d, RecoverWrites(d, start));
      && Recoverable(e, start) && |e| == |d|
      && Outcome(e, start) == Outcome(d, start) && Clean(e, start) && e[..start] == Outcome(d, start)
  {
    var lh := ReadHeader(d[start]);
    var iw := InstallWrites(d, start, lh);
    var hw := Write(start, WriteHeader(d[start], []));
    ApplyConcat(d, iw, [hw]);
    ApplyHome(d, iw, start);
    var f := Apply(d, iw);
    SameTail(d, f, start);
    var e := f[start := hw.data];
    assert Apply(f, [hw]) == e by { assert [hw][1..] == []; }
    HeaderRoundTrip(d[start], []);
    CleanOutcome(e, start);
    assert e[..start] == f[..start];
  }

  // Equal tails mean an equal header and equal log blocks.
  lemma SameTail(d: Disk, e: Disk, start: nat)
    requires |d| == |e| && start < |d| && d[start..] == e[start..]
    ensures forall s :: start <= s < |d| ==> d[s] == e[s]
  {
    forall s | start <= s < |d| ensures d[s] == e[s] {
      assert d[s] == d[start..][s - start] && e[s] == e[start..][s - start];
    }
  }

  // Any number of cut recoveries, and then one that completes.
  function Reboots(d: Disk, start: nat, cuts: seq<nat>): (e: Disk)
    ensures |e| == |d|
    decreases |cuts|
  {
    var ws := RecoverWrites(d, start);
    if cuts == [] then Apply(d, ws)
    else Reboots(Apply(d, if cuts[0] <= |ws| then ws[..cuts[0]] else ws), start, cuts[1..])
  }

  lemma {:induction false} RebootsRecover(d: Disk, start: nat, cuts: seq<nat>)
    requires Recoverable(d, start)
    ensures var e := Reboots(d, start, cuts); Clean(e, start) && e[..start] == Outcome(d, start)
    decreases |cuts|
  {
    var ws := RecoverWrites(d, start);
    var j := if cuts == [] || cuts[0] > |ws| then |ws| else cuts[0];
    RecoveryCut(d, start, j);
    assert ws[..|ws|] == ws;
    if cuts != [] {
      RebootsRecover(Apply(d, ws[..j]), start, cuts[1..]);
    }
  }

  // ---------- A transaction, cut anywhere ----------

  ghost predicate Distinct(lh: seq<nat>) {
    forall i, j :: 0 <= i < j < |lh| ==> lh[i] != lh[j]
  }

  // A transaction the log has room for: its ops name home sectors, and the
  // distinct ones fit the header and the log area.
  ghost predicate Admissible(d: Disk, start: nat, ops: seq<Write>) {
    && start <= MAXWORD
    && (forall i :: 0 <= i < |ops| ==> ops[i].sector < start)
    && |AbsorbAll([], ops)| <= LOGSIZE
    && InLog(d, start, AbsorbAll([], ops))
  }

  // All sector writes of begin_trans, log_write*, commit_trans.
  function TransWrites(d: Disk, start: nat, ops: seq<Write>): seq<Write> {
    var ws := LogWrites(start, [], ops);
    var lh := AbsorbAll([], ops);
    var e := Apply(d, ws);
    ws + if InLog(e, start, lh) && Fits(lh) then CommitWrites(e, start, lh) else []
  }

  lemma {:induction false} AbsorbAllFacts(lh: seq<nat>, ops: seq<Write>, start: nat)
    requires Distinct(lh) && (forall i :: 0 <= i < |lh| ==> lh[i] < start)
    requires forall i :: 0 <= i < |ops| ==> ops[i].sector < start
    ensures var r := AbsorbAll(lh, ops);
      Distinct(r) && lh <= r && (forall i :: 0 <= i < |r| ==> r[i] < start) && (ops != [] ==> r != [])
    decreases |ops|
  {
    if ops != [] {
      AbsorbAllFacts(Absorb(lh, ops[0].sector), ops[1..], start);
    }
  }

  // Log writes stay inside the log blocks that the final header uses.
  lemma {:induction false} LogWritesInLog(start: nat, lh: seq<nat>, ops: seq<Write>)
    ensures |lh| <= |AbsorbAll(lh, ops)|
    ensures forall i :: 0 <= i < |ops| ==>
      start + 1 <= LogWrites(start, lh, ops)[i].sector < start + 1 + |AbsorbAll(lh, ops)|
    decreases |ops|
  {
    if ops != [] {
      LogWritesInLog(start, Absorb(lh, ops[0].sector), ops[1..]);
    }
  }

  // What installing a header's blocks does to one home sector.
  lemma {:induction false} InstallAt(e: Disk, start: nat, lh: seq<nat>, h: Disk, x: nat)
    requires InLog(e, start, lh) && Distinct(lh) && x < |h|
    ensures var r := Apply(h, InstallWrites(e, start, lh));
      && (x !in lh ==> r[x] == h[x])
      && (forall i :: 0 <= i < |lh| && lh[i] == x ==> r[x] == e[start + 1 + i])
  {
    var iw := InstallWrites(e, start, lh);
    if i :| 0 <= i < |lh| && lh[i] == x {
      assert iw == iw[..i] + iw[i..];
      ApplyConcat(h, iw[..i], iw[i..]);
      var g := Apply(h, iw[..i]);
      assert iw[i..][1..] == iw[i + 1..];
      ApplyElsewhere(g[x := e[start + 1 + i]], iw[i + 1..], x);
    } else {
      ApplyElsewhere(h, iw, x);
    }
  }

  // m is lh with sector x in slot i, new or absorbed.
  ghost predicate Absorbed(lh: seq<nat>, m: seq<nat>, x: nat, i: nat) {
    (i < |lh| && lh[i] == x && m == lh) || (i == |lh| && m == lh + [x] && x !in lh)
  }

  lemma AbsorbSlot(lh: seq<nat>, x: nat)
    ensures Absorbed(lh, Absorb(lh, x), x, Slot(lh, x))
  {
    assert lh[..|lh|] == lh;
  }

  lemma AbsorbDistinct(lh: seq<nat>, m: seq<nat>, x: nat, i: nat)
    requires Distinct(lh) && Absorbed(lh, m, x, i)
    ensures Distinct(m) && |lh| <= |m| && i < |m| && m[i] == x
    ensures forall y :: y != x ==> (y in m <==> y in lh)
    ensures forall k :: 0 <= k < |lh| && lh[k] != x ==> k != i && m[k] == lh[k]
  {
  }

  // Logging one op adds exactly that write to what installing would do.
  lemma StageAt(e: Disk, start: nat, lh: seq<nat>, m: seq<nat>, h: Disk, w: Write, i: nat, x: nat)
    requires Distinct(lh) && Absorbed(lh, m, w.sector, i) && InLog(e, start, m) && InLog(e, start, lh)
    requires w.sector < |h| && x < |h| && i < |m|
    ensures Apply(h, InstallWrites(e[start + 1 + i := w.data], start, m))[x]
         == if x == w.sector then w.data else Apply(h, InstallWrites(e, start, lh))[x]
  {
    AbsorbDistinct(lh, m, w.sector, i);
    hide Absorbed;
    InstallAt(e, start, lh, h, x);
    InstallAt(e[start + 1 + i := w.data], start, m, h, x);
    hide Apply, InstallWrites, Distinct;
    if x != w.sector && x in lh {
      var k :| 0 <= k < |lh| && lh[k] == x;
      assert m[k] == x;
    }
  }

  lemma StageOne(e: Disk, start: nat, lh: seq<nat>, m: seq<nat>, h: Disk, w: Write, i: nat)
    requires Distinct(lh) && Absorbed(lh, m, w.sector, i) && InLog(e, start, m) && InLog(e, start, lh)
    requires w.sector < |h| && i < |m|
    ensures Apply(h, InstallWrites(e[start + 1 + i := w.data], start, m))
         == Apply(h, InstallWrites(e, start, lh))[w.sector := w.data]
  {
    var r, r' := Apply(h, InstallWrites(e, start, lh)), Apply(h, InstallWrites(e[start + 1 + i := w.data], start, m));
    hide Apply, InstallWrites, Distinct, Absorbed;
    forall x | 0 <= x < |h| ensures r'[x] == r[w.sector := w.data][x] {
      StageAt(e, start, lh, m, h, w, i, x);
    }
  }

  // Staging the first of ops.
  lemma {:induction false} StageHead(e: Disk, start: nat, lh: seq<nat>, h: Disk, ops: seq<Write>, m: seq<nat>, i: nat, e': Disk)
    requires ops != [] && m == Absorb(lh, ops[0].sector) && i == Slot(lh, ops[0].sector)
    requires Distinct(lh) && InLog(e, start, AbsorbAll(lh, ops)) && ops[0].sector < |h|
    requires start + 1 + i < |e| ==> e' == e[start + 1 + i := ops[0].data]
    ensures start + 1 + i < |e| == |e'| && InLog(e, start, lh) && InLog(e', start, m) && Distinct(m)
    ensures Apply(e, LogWrites(start, lh, ops)) == Apply(e', LogWrites(start, m, ops[1..]))
    ensures Apply(h, InstallWrites(e', start, m)) == Apply(h, InstallWrites(e, start, lh))[ops[0].sector := ops[0].data]
  {
    hide InstallWrites, Apply, LogWrites, AbsorbAll, Absorb, Slot, Absorbed, Distinct;
    FirstLogged(e, start, lh, ops);
    var w := ops[0];
    AbsorbDistinct(lh, m, w.sector, i);
    StageOne(e, start, lh, m, h, w, i);
  }

  // The first log write, and the room it leaves.
  lemma {:induction false} FirstLogged(e: Disk, start: nat, lh: seq<nat>, ops: seq<Write>)
    requires ops != [] && InLog(e, start, AbsorbAll(lh, ops))
    ensures var m, i := Absorb(lh, ops[0].sector), Slot(lh, ops[0].sector);
      && Absorbed(lh, m, ops[0].sector, i) && i < |m| && InLog(e, start, m) && InLog(e, start, lh)
      && Apply(e, LogWrites(start, lh, ops)) == Apply(e[start + 1 + i := ops[0].data], LogWrites(start, m, ops[1..]))
  {
    var w, t := ops[0], ops[1..];
    var m, i := Absorb(lh, w.sector), Slot(lh, w.sector);
    assert AbsorbAll(lh, ops) == AbsorbAll(m, t);
    assert LogWrites(start, lh, ops) == [Write(start + 1 + i, w.data)] + LogWrites(start, m, t);
    hide AbsorbAll, LogWrites, Absorb, Slot;
    LogWritesInLog(start, m, t);
    AbsorbSlot(lh, w.sector);
    ApplyFirst(e, Write(start + 1 + i, w.data), LogWrites(start, m, t));
  }

  lemma ApplyFirst(d: Disk, w: Write, ws: seq<Write>)
    requires w.sector < |d|
    ensures Apply(d, [w] + ws) == Apply(d[w.sector := w.data], ws)
  {
    assert ([w] + ws)[1..] == ws;
  }

  lemma {:induction false} StageAll(e: Disk, start: nat, lh: seq<nat>, h: Disk, ops: seq<Write>)
    requires Distinct(lh) && InLog(e, start, AbsorbAll(lh, ops))
    requires forall i :: 0 <= i < |ops| ==> ops[i].sector < |h|
    ensures InLog(e, start, lh)
    ensures Apply(h, InstallWrites(Apply(e, LogWrites(start, lh, ops)), start, AbsorbAll(lh, ops)))
      == Apply(Apply(h, InstallWrites(e, start, lh)), ops)
    decreases |ops|
  {
    if ops != [] {
      hide LogWrites, InstallWrites, Distinct, Absorb, Slot;
      var w, t := ops[0], ops[1..];
      var m, i := Absorb(lh, w.sector), Slot(lh, w.sector);
      var e' := if start + 1 + i < |e| then e[start + 1 + i := w.data] else e;
      StageHead(e, start, lh, h, ops, m, i, e');
      StageAll(e', start, m, h, t);
    }
  }

  // While only log blocks are written, homes and header do not move.
  lemma LoggingQuiet(d: Disk, start: nat, ws: seq<Write>)
    requires start < |d| && forall i :: 0 <= i < |ws| ==> start + 1 <= ws[i].sector
    ensures Apply(d, ws)[..start] == d[..start] && Apply(d, ws)[start] == d[start]
  {
    forall s | 0 <= s <= start ensures Apply(d, ws)[s] == d[s] {
      ApplyElsewhere(d, ws, s);
    }
  }

  // The header write commits: from then on the disk recovers to the transaction's
  // result, and the rest of commit_trans is that very recovery.
  lemma HeaderCommits(e: Disk, start: nat, lh: seq<nat>)
    requires Clean(e, start) && InLog(e, start, lh) && lh != [] && Fits(lh)
    requires forall i :: 0 <= i < |lh| ==> lh[i] < start
    ensures var f := e[start := WriteHeader(e[start], lh)];
      && Recoverable(f, start)
      && Outcome(f, start) == Apply(e[..start], InstallWrites(e, start, lh))
      && CommitWrites(e, start, lh) == [Write(start, f[start])] + RecoverWrites(f, start)
  {
    HeaderRoundTrip(e[start], lh);
    var f := e[start := WriteHeader(e[start], lh)];
    assert f[..start] == e[..start];
    assert InstallWrites(f, start, lh) == InstallWrites(e, start, lh);
  }

  // Crash atomicity: cut the transaction's sector writes anywhere and cut
  // recovery any number of times; what remains is the homes as they were, if the
  // cut came before the header write, and with all logged writes in place if not.
  lemma CrashAtomic(d: Disk, start: nat, ops: seq<Write>, cut: nat, cuts: seq<nat>)
    requires Clean(d, start) && Admissible(d, start, ops) && cut <= |TransWrites(d, start, ops)|
    ensures var e := Reboots(Apply(d, TransWrites(d, start, ops)[..cut]), start, cuts);
      && Clean(e, start)
      && e[..start] == if cut <= |ops| then d[..start] else Apply(d[..start], ops)
  {
    CutRecoverable(d, start, ops, cut);
    RebootsRecover(Apply(d, TransWrites(d, start, ops)[..cut]), start, cuts);
  }

  lemma CutRecoverable(d: Disk, start: nat, ops: seq<Write>, cut: nat)
    requires Clean(d, start) && Admissible(d, start, ops) && cut <= |TransWrites(d, start, ops)|
    ensures var e := Apply(d, TransWrites(d, start, ops)[..cut]);
      && Recoverable(e, start)
      && Outcome(e, start) == (if cut <= |ops| then d[..start] else Apply(d[..start], ops))
      && (cut == |TransWrites(d, start, ops)| && ops != [] ==> Clean(e, start) && e[..start] == Outcome(e, start))
  {
    var ws, lh := LogWrites(start, [], ops), AbsorbAll([], ops);
    var tw := TransWrites(d, start, ops);
    LogWritesInLog(start, [], ops);
    AbsorbAllFacts([], ops, start);
    assert ops != [] ==> |CommitWrites(Apply(d, ws), start, lh)| > 0;
    if cut <= |ops| {
      assert tw[..cut] == ws[..cut];
      LoggingQuiet(d, start, ws[..cut]);
      CleanOutcome(Apply(d, ws[..cut]), start);
    } else {
      CommitCut(d, start, ops, cut);
    }
  }

  // The disk just before the header write: homes as before, the transaction staged.
  lemma Staged(d: Disk, start: nat, ops: seq<Write>)
    requires Clean(d, start) && Admissible(d, start, ops)
    ensures var e, lh := Apply(d, LogWrites(start, [], ops)), AbsorbAll([], ops);
      && Clean(e, start) && InLog(e, start, lh) && Fits(lh)
      && (forall i :: 0 <= i < |lh| ==> lh[i] < start) && (ops != [] ==> lh != [])
      && e[..start] == d[..start]
      && Apply(e[..start], InstallWrites(e, start, lh)) == Apply(d[..start], ops)
  {
    LogWritesInLog(start, [], ops);
    AbsorbAllFacts([], ops, start);
    LoggingQuiet(d, start, LogWrites(start, [], ops));
    StageAll(d, start, [], d[..start], ops);
    assert Apply(d[..start], InstallWrites(d, start, [])) == d[..start];
  }

  lemma CommitCut(d: Disk, start: nat, ops: seq<Write>, cut: nat)
    requires Clean(d, start) && Admissible(d, start, ops) && |ops| < cut <= |TransWrites(d, start, ops)|
    ensures var e := Apply(d, TransWrites(d, start, ops)[..cut]);
      && Recoverable(e, start)
      && Outcome(e, start) == Apply(d[..start], ops)
      && (cut == |TransWrites(d, start, ops)| ==> Clean(e, start) && e[..start] == Outcome(e, start))
  {
    hide Admissible, Clean, LogWrites, Recoverable, Outcome, RecoverWrites;
    var e, f := CommitShape(d, start, ops);
    hide TransWrites;
    var ws, hw, rw, k := LogWrites(start, [], ops), Write(start, f[start]), RecoverWrites(f, start), cut - |ops| - 1;
    assert (ws + ([hw] + rw))[..cut] == ws + ([hw] + rw[..k]);
    ApplyConcat(d, ws, [hw] + rw[..k]);
    assert ([hw] + rw[..k])[1..] == rw[..k];
    assert Apply(e, [hw] + rw[..k]) == Apply(f, rw[..k]);
    RecoveryCut(f, start, k);
  }

  // e is the disk with everything staged, f the same with the header written.
  lemma CommitShape(d: Disk, start: nat, ops: seq<Write>) returns (e: Disk, f: Disk)
    requires Clean(d, start) && Admissible(d, start, ops) && |ops| < |TransWrites(d, start, ops)|
    ensures e == Apply(d, LogWrites(start, [], ops)) && start < |e| == |f| && f == e[start := f[start]]
    ensures Recoverable(f, start) && Outcome(f, start) == Apply(d[..start], ops)
    ensures TransWrites(d, start, ops) == LogWrites(start, [], ops) + ([Write(start, f[start])] + RecoverWrites(f, start))
  {
    var lh := AbsorbAll([], ops);
    e := Apply(d, LogWrites(start, [], ops));
    Staged(d, start, ops);
    assert lh != [];
    HeaderCommits(e, start, lh);
    f := e[start := WriteHeader(e[start], lh)];
  }

  // ---------- Whole runs ----------

  // A transaction that completes, or one cut by a crash and followed by recoveries.
  datatype Event = Finished(ops: seq<Write>) | Crashed(ops: seq<Write>, cut: nat, cuts: seq<nat>)

  function Exec(d: Disk, start: nat, e: Event): (r: Disk)
    ensures |r| == |d|
  {
    var tw := TransWrites(d, start, e.ops);
    match e
    case Finished(_) => Apply(d, tw)
    case Crashed(_, cut, cuts) => Reboots(Apply(d, if cut <= |tw| then tw[..cut] else tw), start, cuts)
  }

  // What a transaction means: all of its writes, or none.
  function Effect(h: Disk, e: Event): Disk {
    match e
    case Finished(ops) => Apply(h, ops)
    case Crashed(ops, cut, _) => if cut <= |ops| then h else Apply(h, ops)
  }

  function ExecAll(d: Disk, start: nat, es: seq<Event>): (r: Disk)
    ensures |r| == |d|
    decreases |es|
  {
    if es == [] then d else ExecAll(Exec(d, start, es[0]), start, es[1..])
  }

  function EffectAll(h: Disk, es: seq<Event>): Disk
    decreases |es|
  {
    if es == [] then h else EffectAll(Effect(h, es[0]), es[1..])
  }

  lemma EventAtomic(d: Disk, start: nat, e: Event)
    requires Clean(d, start) && Admissible(d, start, e.ops)
    ensures Clean(Exec(d, start, e), start) && Exec(d, start, e)[..start] == Effect(d[..start], e)
  {
    var tw := TransWrites(d, start, e.ops);
    match e {
      case Finished(ops) =>
        CutRecoverable(d, start, ops, |tw|);
        assert tw[..|tw|] == tw;
        if ops != [] {
          Staged(d, start, ops);
          assert |tw| > |ops|;
        }
      case Crashed(ops, cut, cuts) =>
        if cut <= |tw| {
          CrashAtomic(d, start, ops, cut, cuts);
        } else {
          CrashAtomic(d, start, ops, |tw|, cuts);
          assert tw[..|tw|] == tw;
          if ops != [] {
            Staged(d, start, ops);
            assert |tw| > |ops|;
          }
        }
    }
  }

  // Over any run of transactions, crashes and recoveries, the home sectors hold
  // exactly the transactions whose header write was reached, in order.
  lemma {:induction false} RunAtomic(d: Disk, start: nat, es: seq<Event>)
    requires Clean(d, start) && forall i :: 0 <= i < |es| ==> Admissible(d, start, es[i].ops)
    ensures Clean(ExecAll(d, start, es), start)
    ensures ExecAll(d, start, es)[..start] == EffectAll(d[..start], es)
    decreases |es|
  {
    if es != [] {
      EventAtomic(d, start, es[0]);
      RunAtomic(Exec(d, start, es[0]), start, es[1..]);
    }
  }

  // ---------- A series of transactions, cut anywhere ----------

  function AllWrites(d: Disk, start: nat, ts: seq<seq<Write>>): seq<Write>
    decreases |ts|
  {
    if ts == [] then []
    else
      var tw := TransWrites(d, start, ts[0]);
      tw + AllWrites(Apply(d, tw), start, ts[1..])
  }

  function HomesAfter(h: Disk, ts: seq<seq<Write>>): Disk
    decreases |ts|
  {
    if ts == [] then h else HomesAfter(Apply(h, ts[0]), ts[1..])
  }

  // How many of the transactions have written their header within the first cut
  // sector writes.
  function Reached(d: Disk, start: nat, ts: seq<seq<Write>>, cut: nat): (k: nat)
    ensures k <= |ts|
    decreases |ts|
  {
    if ts == [] then 0
    else
      var tw := TransWrites(d, start, ts[0]);
      if cut <= |ts[0]| then 0
      else if cut <= |tw| then 1
      else 1 + Reached(Apply(d, tw), start, ts[1..], cut - |tw|)
  }

  // A crash anywhere in the series leaves the homes as some whole number of its
  // transactions made them.
  lemma {:induction false} CrashBetween(d: Disk, start: nat, ts: seq<seq<Write>>, cut: nat, cuts: seq<nat>)
    requires Clean(d, start) && forall i :: 0 <= i < |ts| ==> Admissible(d, start, ts[i])
    requires cut <= |AllWrites(d, start, ts)|
    ensures var e := Reboots(Apply(d, AllWrites(d, start, ts)[..cut]), start, cuts);
      Clean(e, start) && e[..start] == HomesAfter(d[..start], ts[..Reached(d, start, ts, cut)])
    decreases |ts|
  {
    hide Admissible, Clean, TransWrites, Reboots;
    var ws := AllWrites(d, start, ts);
    if ts == [] {
      assert ws[..cut] == [];
      CleanOutcome(d, start);
      RebootsRecover(d, start, cuts);
    } else {
      var tw, rest := TransWrites(d, start, ts[0]), ts[1..];
      EventAtomic(d, start, Finished(ts[0]));
      var d' := Apply(d, tw);
      if cut <= |tw| {
        assert ws[..cut] == tw[..cut];
        CrashAtomic(d, start, ts[0], cut, cuts);
        var k := if cut <= |ts[0]| then 0 else 1;
        if k == 1 {
          assert ts[..1] == [ts[0]];
          assert [ts[0]][1..] == [];
        }
      } else {
        assert ws[..cut] == tw + AllWrites(d', start, rest)[..cut - |tw|];
        ApplyConcat(d, tw, AllWrites(d', start, rest)[..cut - |tw|]);
        forall i | 0 <= i < |rest| ensures Admissible(d', start, rest[i]) {
          SameRoom(d, d', start, ts[i + 1]);
        }
        CrashBetween(d', start, rest, cut - |tw|, cuts);
        assert |ts[0]| <= |tw| by { LongEnough(d, start, ts[0]); }
        var k := Reached(d', start, rest, cut - |tw|);
        assert ts[..1 + k][1..] == rest[..k];
      }
    }
  }

  lemma SameRoom(d: Disk, e: Disk, start: nat, ops: seq<Write>)
    requires Admissible(d, start, ops) && |e| == |d|
    ensures Admissible(e, start, ops)
  {
  }

  lemma LongEnough(d: Disk, start: nat, ops: seq<Write>)
    ensures |ops| <= |TransWrites(d, start, ops)|
  {
  }

  lemma {:induction false} OneMoreWrites(d: Disk, start: nat, ts: seq<seq<Write>>, ops: seq<Write>)
    ensures AllWrites(d, start, ts + [ops])
         == AllWrites(d, start, ts) + TransWrites(Apply(d, AllWrites(d, start, ts)), start, ops)
    decreases |ts|
  {
    hide TransWrites;
    if ts == [] {
      assert (ts + [ops])[1..] == [];
    } else {
      var tw := TransWrites(d, start, ts[0]);
      assert (ts + [ops])[1..] == ts[1..] + [ops];
      OneMoreWrites(Apply(d, tw), start, ts[1..], ops);
      ApplyConcat(d, tw, AllWrites(Apply(d, tw), start, ts[1..]));
    }
  }

  lemma {:induction false} OneMoreHomes(h: Disk, ts: seq<seq<Write>>, ops: seq<Write>)
    ensures HomesAfter(h, ts + [ops]) == Apply(HomesAfter(h, ts), ops)
    decreases |ts|
  {
    if ts == [] {
      assert (ts + [ops])[1..] == [];
    } else {
      assert (ts + [ops])[1..] == ts[1..] + [ops];
      OneMoreHomes(Apply(h, ts[0]), ts[1..], ops);
    }
  }
}
