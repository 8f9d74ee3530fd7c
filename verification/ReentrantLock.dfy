// The kernel's reentrant lock (mCertiKOS/kern/lib/reentrant_lock.c) as interleaved
// single steps: each compare-and-swap, load, store and exchange on its own.
module ReentrantLock {

  const UNLOCKED := 0xFFFF_FFFF
  const WORD := 0x1_0000_0000

  // Where a CPU is: outside, about to swap in acquire or try_acquire, about to load
  // and then store the incremented count, the same for the decrement, about to test
  // the count, about to unlock.
  datatype Pc = Out | Spin | Try | Inc | Inc1(v: nat) | Dec | Dec1(v: nat) | Test | Unlock

  // depth: acquires completed less decrements stored.
  datatype Cpu = Cpu(pc: Pc, depth: nat)

  datatype Lock = Lock(word: nat, count: nat, cpus: seq<Cpu>)

  datatype Step = Acquire(c: nat) | TryAcquire(c: nat) | Release(c: nat) | Go(c: nat)

  // A CPU releases only what it has acquired.
  predicate Enabled(s: Lock, st: Step) {
    && st.c < |s.cpus|
    && match st
       case Acquire(c) => s.cpus[c].pc.Out?
       case TryAcquire(c) => s.cpus[c].pc.Out?
       case Release(c) => s.cpus[c].pc.Out? && s.cpus[c].depth > 0
       case Go(c) => !s.cpus[c].pc.Out?
  }

  function At(s: Lock, c: nat, pc: Pc): Lock
    requires c < |s.cpus|
  {
    s.(cpus := s.cpus[c := s.cpus[c].(pc := pc)])
  }

  function Move(s: Lock, c: nat): Lock
    requires c < |s.cpus| && !s.cpus[c].pc.Out?
  {
    var me := s.cpus[c];
    match me.pc
    case Out => s
    case Spin =>
      if s.word == UNLOCKED then At(s, c, Inc).(word := c) else if s.word == c then At(s, c, Inc) else s
    case Try =>
      if s.word == UNLOCKED then At(s, c, Inc).(word := c) else if s.word == c then At(s, c, Inc) else At(s, c, Out)
    case Inc => At(s, c, Inc1(s.count))
    case Inc1(v) => s.(count := (v + 1) % WORD, cpus := s.cpus[c := Cpu(Out, me.depth + 1)])
    case Dec => At(s, c, Dec1(s.count))
    case Dec1(v) =>
      s.(count := (v + WORD - 1) % WORD, cpus := s.cpus[c := Cpu(Test, if me.depth > 0 then me.depth - 1 else 0)])
    case Test => At(s, c, if s.count == 0 then Unlock else Out)
    case Unlock => At(s, c, Out).(word := UNLOCKED)
  }

  function Next(s: Lock, st: Step): Lock
    requires Enabled(s, st)
  {
    match st
    case Acquire(c) => At(s, c, Spin)
    case TryAcquire(c) => At(s, c, Try)
    case Release(c) => At(s, c, Dec)
    case Go(c) => Move(s, c)
  }

  // c has the lock: it has nested acquires, or is inside one that won or a release.
  predicate Holds(cpu: Cpu) {
    cpu.depth > 0 || (!cpu.pc.Out? && !cpu.pc.Spin? && !cpu.pc.Try?)
  }

  ghost predicate CpuOk(s: Lock, c: nat)
    requires c < |s.cpus|
  {
    var me := s.cpus[c];
    && (Holds(me) <==> s.word == c)
    && (Holds(me) ==> s.count == me.depth % WORD)
    && (me.pc.Inc1? ==> me.pc.v == s.count)
    && (me.pc.Dec1? ==> me.pc.v == s.count)
    && (me.pc.Dec? || me.pc.Dec1? ==> me.depth > 0)
    && (me.pc.Unlock? ==> s.count == 0)
  }

  // The word names the one CPU that holds the lock, and the count is its depth.
  ghost predicate Inv(s: Lock) {
    && |s.cpus| <= UNLOCKED
    && (s.word == UNLOCKED || s.word < |s.cpus|)
    && (s.word == UNLOCKED ==> s.count == 0)
    && forall c :: 0 <= c < |s.cpus| ==> CpuOk(s, c)
  }

  // A release that reaches the unlock while nested acquires remain.
  predicate Early(s: Lock) {
    exists c :: 0 <= c < |s.cpus| && s.cpus[c].pc.Unlock? && s.cpus[c].depth > 0
  }

  lemma StepInv(s: Lock, st: Step)
    requires Inv(s) && Enabled(s, st) && !Early(s)
    ensures Inv(Next(s, st))
  {
    var t, c := Next(s, st), st.c;
    assert CpuOk(s, c);
    forall d | 0 <= d < |t.cpus| ensures CpuOk(t, d) {
      assert CpuOk(s, d);
    }
  }

  // The test sends a release to the unlock exactly when the depth left is a multiple
  // of 2^32; only a depth of 2^32 or more can make that too early.
  lemma TestOutcome(s: Lock, c: nat)
    requires Inv(s) && c < |s.cpus| && s.cpus[c].pc.Test?
    ensures Move(s, c).cpus[c].pc.Unlock? <==> s.cpus[c].depth % WORD == 0
    ensures s.cpus[c].depth < WORD ==> (Move(s, c).cpus[c].pc.Unlock? <==> s.cpus[c].depth == 0)
  {
    assert CpuOk(s, c);
  }

  // ---------- Whole runs ----------

  ghost predicate Init(s: Lock) {
    && s.word == UNLOCKED && s.count == 0 && |s.cpus| <= UNLOCKED
    && forall c :: 0 <= c < |s.cpus| ==> s.cpus[c] == Cpu(Out, 0)
  }

  ghost predicate IsPath(ss: seq<Lock>, sts: seq<Step>) {
    && |ss| == |sts| + 1
    && forall i :: 0 <= i < |sts| ==> Enabled(ss[i], sts[i]) && ss[i + 1] == Next(ss[i], sts[i])
  }

  // No CPU nests deeper than 2^32.
  ghost predicate Shallow(s: Lock) {
    forall c :: 0 <= c < |s.cpus| ==> s.cpus[c].depth <= WORD
  }

  ghost predicate Good(s: Lock) {
    && Inv(s)
    && forall c :: 0 <= c < |s.cpus| && (s.cpus[c].pc.Test? || s.cpus[c].pc.Unlock?) ==> s.cpus[c].depth < WORD
  }

  lemma NotEarly(s: Lock)
    requires Good(s)
    ensures !Early(s)
  {
    forall c | 0 <= c < |s.cpus| && s.cpus[c].pc.Unlock? ensures s.cpus[c].depth == 0 {
      assert CpuOk(s, c);
    }
  }

  lemma StepGood(s: Lock, st: Step)
    requires Good(s) && Enabled(s, st) && Shallow(s)
    ensures Good(Next(s, st))
  {
    NotEarly(s);
    StepInv(s, st);
    var t := Next(s, st);
    hide Inv;
    forall c | 0 <= c < |t.cpus| && (t.cpus[c].pc.Test? || t.cpus[c].pc.Unlock?) ensures t.cpus[c].depth < WORD {
      assert s.cpus[c].depth <= WORD;
    }
  }

  lemma {:induction false} EveryRunGood(ss: seq<Lock>, sts: seq<Step>, i: nat)
    requires IsPath(ss, sts) && Init(ss[0]) && i <= |sts| && forall k :: 0 <= k < |ss| ==> Shallow(ss[k])
    ensures Good(ss[i])
  {
    if i > 0 {
      EveryRunGood(ss, sts, i - 1);
      StepGood(ss[i - 1], sts[i - 1]);
    }
  }

  // At most one CPU holds the lock; outside its own acquire and release steps the
  // count is its nesting depth.
  lemma MutualExclusion(ss: seq<Lock>, sts: seq<Step>, i: nat, c: nat, d: nat)
    requires IsPath(ss, sts) && Init(ss[0]) && i <= |sts| && forall k :: 0 <= k < |ss| ==> Shallow(ss[k])
    requires c < |ss[i].cpus| && d < |ss[i].cpus| && Holds(ss[i].cpus[c])
    ensures Holds(ss[i].cpus[d]) ==> c == d
    ensures ss[i].word == c && ss[i].count == ss[i].cpus[c].depth % WORD
  {
    EveryRunGood(ss, sts, i);
    assert CpuOk(ss[i], c) && CpuOk(ss[i], d);
  }

  // The word becomes UNLOCKED only when no acquire is left.
  lemma UnlocksAtZero(ss: seq<Lock>, sts: seq<Step>, i: nat, c: nat)
    requires IsPath(ss, sts) && Init(ss[0]) && i < |sts| && forall k :: 0 <= k < |ss| ==> Shallow(ss[k])
    requires ss[i].word != UNLOCKED && ss[i + 1].word == UNLOCKED && c < |ss[i + 1].cpus|
    ensures ss[i + 1].cpus[c].depth == 0
  {
    EveryRunGood(ss, sts, i + 1);
    assert CpuOk(ss[i + 1], c);
  }

  // ---------- What an acquire and a release achieve ----------

  ghost predicate NoOther(s: Lock, c: nat) {
    forall d :: 0 <= d < |s.cpus| && d != c ==> !Holds(s.cpus[d])
  }

  // An attempt succeeds exactly when no other CPU holds the lock. If one does, a try
  // gives up and a spin stays, and the lock is as it was.
  lemma AttemptWins(s: Lock, c: nat)
    requires Good(s) && c < |s.cpus| && (s.cpus[c].pc.Spin? || s.cpus[c].pc.Try?)
    ensures var t := Next(s, Go(c));
      && (NoOther(s, c) <==> t.cpus[c].pc.Inc?) && (NoOther(s, c) <==> Holds(t.cpus[c]))
      && t.count == s.count && t.word == (if NoOther(s, c) then c else s.word)
      && t.cpus[c].depth == s.cpus[c].depth
      && (!NoOther(s, c) ==> t.cpus[c].pc == if s.cpus[c].pc.Try? then Out else Spin)
      && forall d :: 0 <= d < |s.cpus| && d != c ==> t.cpus[d] == s.cpus[d]
  {
    assert CpuOk(s, c);
    if s.word < |s.cpus| { assert CpuOk(s, s.word); }
    forall d | 0 <= d < |s.cpus| ensures Holds(s.cpus[d]) <==> s.word == d { assert CpuOk(s, d); }
  }

  // Only others act strictly between a and b.
  ghost predicate Alone(sts: seq<Step>, c: nat, a: nat, b: nat) {
    a <= b <= |sts| && forall k :: a < k < b ==> sts[k].c != c
  }

  // A run in which no CPU ever nests deeper than 2^32.
  ghost predicate IsRun(ss: seq<Lock>, sts: seq<Step>) {
    IsPath(ss, sts) && Init(ss[0]) && forall k :: 0 <= k < |ss| ==> Shallow(ss[k])
  }

  // What others do leaves a CPU where it is, and a holder its lock.
  lemma {:induction false} Undisturbed(ss: seq<Lock>, sts: seq<Step>, c: nat, a: nat, b: nat)
    requires IsRun(ss, sts) && a < b && Alone(sts, c, a, b) && c < |ss[a + 1].cpus|
    ensures |ss[b].cpus| == |ss[a + 1].cpus| && ss[b].cpus[c] == ss[a + 1].cpus[c]
    ensures Holds(ss[b].cpus[c]) ==> ss[b].word == ss[a + 1].word == c && ss[b].count == ss[a + 1].count
    decreases b
  {
    EveryRunGood(ss, sts, b);
    assert Good(ss[b]) && (c < |ss[b].cpus| ==> CpuOk(ss[b], c));
    EveryRunGood(ss, sts, a + 1);
    assert CpuOk(ss[a + 1], c);
    if b > a + 1 {
      Undisturbed(ss, sts, c, a, b - 1);
      assert sts[b - 1].c != c && Enabled(ss[b - 1], sts[b - 1]);
    }
  }

  // A CPU's next step of its own, at b, after the one at a.
  lemma OwnStep(ss: seq<Lock>, sts: seq<Step>, c: nat, a: nat, b: nat)
    requires IsRun(ss, sts) && a < b < |sts| && Alone(sts, c, a, b) && c < |ss[a + 1].cpus| && sts[b].c == c
    requires !ss[a + 1].cpus[c].pc.Out?
    ensures c < |ss[b].cpus| == |ss[b + 1].cpus| && sts[b] == Go(c) && ss[b].cpus[c] == ss[a + 1].cpus[c] && Good(ss[b]) && Good(ss[b + 1])
    ensures ss[b + 1] == Move(ss[b], c) && CpuOk(ss[b], c) && CpuOk(ss[b + 1], c)
  {
    Undisturbed(ss, sts, c, a, b);
    EveryRunGood(ss, sts, b);
    EveryRunGood(ss, sts, b + 1);
    hide Holds, CpuOk, Shallow, Init;
    assert Enabled(ss[b], sts[b]) && ss[b + 1] == Next(ss[b], sts[b]);
  }

  // An attempt that nobody stands against, at i, with the CPU's next two steps at j and
  // k: whatever the others do meanwhile, the CPU then holds the lock once more than
  // before.
  lemma AcquireCompletes(ss: seq<Lock>, sts: seq<Step>, c: nat, i: nat, j: nat, k: nat)
    requires IsRun(ss, sts) && i < j < k < |sts| && Alone(sts, c, i, j) && Alone(sts, c, j, k)
    requires sts[i] == Go(c) && sts[j].c == sts[k].c == c && c < |ss[i].cpus|
    requires (ss[i].cpus[c].pc.Spin? || ss[i].cpus[c].pc.Try?) && NoOther(ss[i], c)
    ensures c < |ss[k + 1].cpus| && ss[k + 1].cpus[c] == Cpu(Out, ss[i].cpus[c].depth + 1)
    ensures ss[k + 1].word == c && ss[k + 1].count == (ss[i].cpus[c].depth + 1) % WORD
  {
    EveryRunGood(ss, sts, i);
    AttemptWins(ss[i], c);
    assert ss[i + 1] == Next(ss[i], sts[i]);
    hide NoOther, Holds;
    OwnStep(ss, sts, c, i, j);
    OwnStep(ss, sts, c, j, k);
    HoldsWhen(ss[k + 1], c);
  }

  lemma HoldsWhen(s: Lock, c: nat)
    requires c < |s.cpus| && CpuOk(s, c)
    ensures s.cpus[c].depth > 0 ==> s.word == c && s.count == s.cpus[c].depth % WORD
    ensures !Holds(s.cpus[c]) ==> s.word != c
  {
  }

  // try_acquire called at h, its next own step at i: it is inside the lock if no other CPU
  // holds it, and back outside with nothing changed if one does.
  lemma TryOutcome(ss: seq<Lock>, sts: seq<Step>, c: nat, h: nat, i: nat)
    requires IsRun(ss, sts) && h < i < |sts| && Alone(sts, c, h, i) && sts[h] == TryAcquire(c) && sts[i].c == c
    ensures c < |ss[h].cpus| && c < |ss[i].cpus| == |ss[i + 1].cpus| && ss[i].cpus[c].pc.Try?
    ensures ss[i + 1].cpus[c] == Cpu(if NoOther(ss[i], c) then Inc else Out, ss[h].cpus[c].depth)
    ensures !NoOther(ss[i], c) ==> ss[i + 1].word == ss[i].word && ss[i + 1].count == ss[i].count
  {
    assert Enabled(ss[h], sts[h]) && ss[h + 1] == Next(ss[h], sts[h]);
    OwnStep(ss, sts, c, h, i);
    AttemptWins(ss[i], c);
  }

  // acquire called at h, its next own step at i: the same, but it goes on trying.
  lemma AcquireOutcome(ss: seq<Lock>, sts: seq<Step>, c: nat, h: nat, i: nat)
    requires IsRun(ss, sts) && h < i < |sts| && Alone(sts, c, h, i) && sts[h] == Acquire(c) && sts[i].c == c
    ensures c < |ss[h].cpus| && c < |ss[i].cpus| == |ss[i + 1].cpus| && ss[i].cpus[c].pc.Spin?
    ensures ss[i + 1].cpus[c] == Cpu(if NoOther(ss[i], c) then Inc else Spin, ss[h].cpus[c].depth)
    ensures !NoOther(ss[i], c) ==> ss[i + 1] == ss[i]
  {
    assert Enabled(ss[h], sts[h]) && ss[h + 1] == Next(ss[h], sts[h]);
    OwnStep(ss, sts, c, h, i);
    AttemptWins(ss[i], c);
    assert ss[i].cpus[c := ss[i].cpus[c]] == ss[i].cpus;
  }

  // A release begun at i, with the CPU's next steps at j, k and l: it holds the lock once
  // less. At depth zero it is about to free it.
  lemma ReleaseCompletes(ss: seq<Lock>, sts: seq<Step>, c: nat, i: nat, j: nat, k: nat, l: nat)
    requires IsRun(ss, sts) && i < j < k < l < |sts| && Alone(sts, c, i, j) && Alone(sts, c, j, k) && Alone(sts, c, k, l)
    requires sts[i] == Release(c) && sts[j].c == sts[k].c == sts[l].c == c && c < |ss[i].cpus|
    ensures ss[i].cpus[c].depth > 0 && c < |ss[l + 1].cpus|
    ensures ss[l + 1].cpus[c] == Cpu(if ss[i].cpus[c].depth == 1 then Unlock else Out, ss[i].cpus[c].depth - 1)
    ensures ss[l + 1].word == c
  {
    assert Enabled(ss[i], sts[i]) && ss[i + 1] == Next(ss[i], sts[i]);
    OwnStep(ss, sts, c, i, j);
    OwnStep(ss, sts, c, j, k);
    OwnStep(ss, sts, c, k, l);
    Tested(ss[l], c);
  }

  lemma Tested(s: Lock, c: nat)
    requires Good(s) && c < |s.cpus| && s.cpus[c].pc.Test?
    ensures s.word == c && Move(s, c).word == c
    ensures Move(s, c).cpus[c] == Cpu(if s.cpus[c].depth == 0 then Unlock else Out, s.cpus[c].depth)
  {
    assert CpuOk(s, c);
  }

  ghost predicate NobodyHolds(s: Lock) {
    forall d :: 0 <= d < |s.cpus| ==> !Holds(s.cpus[d])
  }

  lemma UnlockFrees(ss: seq<Lock>, sts: seq<Step>, c: nat, l: nat, m: nat)
    requires IsRun(ss, sts) && l < m < |sts| && Alone(sts, c, l, m) && sts[m].c == c
    requires c < |ss[l + 1].cpus| && ss[l + 1].cpus[c].pc.Unlock?
    ensures c < |ss[m + 1].cpus| && ss[m + 1].cpus[c] == Cpu(Out, 0) && ss[m + 1].word == UNLOCKED && ss[m + 1].count == 0
    ensures NobodyHolds(ss[m + 1])
  {
    OwnStep(ss, sts, c, l, m);
    NotEarly(ss[m]);
    var t := ss[m + 1];
    forall d | 0 <= d < |t.cpus| ensures !Holds(t.cpus[d]) { assert CpuOk(t, d); }
  }

  // ---------- Nesting too deep ----------

  function Nested(s: Lock, c: nat, n: nat): Lock
    requires c < |s.cpus|
  {
    s.(count := (s.count + n) % WORD, cpus := s.cpus[c := s.cpus[c].(depth := s.cpus[c].depth + n)])
  }

  lemma NestOnce(a: Lock, c: nat) returns (ss: seq<Lock>, sts: seq<Step>)
    requires c < |a.cpus| && (a.word == c || a.word == UNLOCKED) && a.cpus[c].pc.Out?
    ensures IsPath(ss, sts) && ss[0] == a && ss[|sts|] == Nested(a, c, 1).(word := c)
  {
    var b := Next(a, Acquire(c));
    var d := Next(b, Go(c));
    var e := Next(d, Go(c));
    var f := Next(e, Go(c));
    assert f.cpus == Nested(a, c, 1).cpus;
    ss, sts := [a, b, d, e, f], [Acquire(c), Go(c), Go(c), Go(c)];
  }

  lemma Join(ss: seq<Lock>, sts: seq<Step>, tt: seq<Lock>, tts: seq<Step>)
    requires IsPath(ss, sts) && IsPath(tt, tts) && tt[0] == ss[|sts|]
    ensures IsPath(ss + tt[1..], sts + tts) && (ss + tt[1..])[|sts + tts|] == tt[|tts|]
  {
    var uu, us := ss + tt[1..], sts + tts;
    forall i | 0 <= i < |us| ensures Enabled(uu[i], us[i]) && uu[i + 1] == Next(uu[i], us[i]) {
      if i >= |sts| {
        assert uu[i] == tt[i - |sts|] && uu[i + 1] == tt[i + 1 - |sts|];
      }
    }
  }

  // The holder can nest n acquires more.
  lemma {:induction false} Climb(s: Lock, c: nat, n: nat) returns (ss: seq<Lock>, sts: seq<Step>)
    requires c < |s.cpus| && s.word == c && s.cpus[c].pc.Out? && s.count < WORD
    ensures IsPath(ss, sts) && ss[0] == s && ss[|sts|] == Nested(s, c, n)
    decreases n
  {
    hide Enabled, Next, Nested;
    if n == 0 {
      NestedNone(s, c);
      return [s], [];
    }
    var ss0, sts0 := Climb(s, c, n - 1);
    NestedMore(s, c, n - 1);
    var tt, tts := NestOnce(Nested(s, c, n - 1), c);
    Join(ss0, sts0, tt, tts);
    return ss0 + tt[1..], sts0 + tts;
  }

  lemma NestedNone(s: Lock, c: nat)
    requires c < |s.cpus| && s.count < WORD
    ensures Nested(s, c, 0) == s
  {
    assert s.cpus[c := s.cpus[c]] == s.cpus;
  }

  lemma NestedMore(s: Lock, c: nat, n: nat)
    requires c < |s.cpus| && s.count < WORD && s.cpus[c].pc.Out?
    ensures var t := Nested(s, c, n);
      && t.word == s.word && |t.cpus| == |s.cpus| && t.cpus[c].pc.Out? && t.(word := s.word) == t
      && Nested(t, c, 1) == Nested(s, c, n + 1) && Nested(t, c, 1).(word := s.word) == Nested(t, c, 1)
  {
    assert Nested(Nested(s, c, n), c, 1).cpus == Nested(s, c, n + 1).cpus;
  }

  // The last release step of a holder whose count has wrapped frees the lock, and
  // another CPU takes it.
  lemma Steals(a: Lock) returns (ss: seq<Lock>, sts: seq<Step>)
    requires |a.cpus| == 2 && a.word == 0 && a.cpus == [Cpu(Out, WORD + 1), Cpu(Out, 0)] && a.count == 1
    ensures IsPath(ss, sts) && ss[0] == a
    ensures var z := ss[|sts|]; |z.cpus| == 2 && Holds(z.cpus[0]) && Holds(z.cpus[1])
  {
    var b := Next(a, Release(0));
    var d := Next(b, Go(0));
    var e := Next(d, Go(0));
    var f := Next(e, Go(0));
    var g := Next(f, Go(0));
    var h := Next(g, Acquire(1));
    var z := Next(h, Go(1));
    ss, sts := [a, b, d, e, f, g, h, z], [Release(0), Go(0), Go(0), Go(0), Go(0), Acquire(1), Go(1)];
  }

  // One acquire past 2^32 is enough to break mutual exclusion.
  lemma TooDeep() returns (ss: seq<Lock>, sts: seq<Step>)
    ensures IsPath(ss, sts) && Init(ss[0]) && |ss[|sts|].cpus| == 2
    ensures Holds(ss[|sts|].cpus[0]) && Holds(ss[|sts|].cpus[1])
  {
    var s := Lock(UNLOCKED, 0, [Cpu(Out, 0), Cpu(Out, 0)]);
    var ss0, sts0 := NestOnce(s, 0);
    var ss1, sts1 := Climb(ss0[|sts0|], 0, WORD);
    Join(ss0, sts0, ss1, sts1);
    var ss2, sts2 := Steals(ss1[|sts1|]);
    Join(ss0 + ss1[1..], sts0 + sts1, ss2, sts2);
    ss, sts := ss0 + ss1[1..] + ss2[1..], sts0 + sts1 + sts2;
  }
}
