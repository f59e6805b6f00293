/** The crash and restart protocol around one shard (service/engine/core/consumer.go, snapshot.go,
    consumer_nats.go, consumer_kafka.go) as a machine over an ordered log: any schedule of deliveries,
    background snapshots, crashes and restarts ends up where the uninterrupted run is. */
module Recovery {
  import opened Basics
  import opened Events
  import opened Patterns
  import opened Shards
  import opened Invariants

  /** A log record: its stream sequence or offset, and its event unless the payload is malformed. */
  datatype Rec = Rec(seqno: nat, event: Option<Event>)

  /** What a snapshot stores. */
  datatype Image = Image(members: map<string, Member>, watermark: int, lastSeq: nat)

  datatype Process =
    | Down
    | Up(shard: Shard, lastSeq: nat, pos: nat, inFlight: Option<Image>, written: bool)

  datatype System = System(process: Process, disk: Option<Image>)

  /** `WriteDone(ok)` is the background goroutine finishing; the file is replaced as a whole or not at all. */
  datatype Action = Deliver | Begin | WriteDone(ok: bool) | Finish | Crash | Restart | Shutdown

  const NATS: nat := 1
  const KAFKA: nat := 0

  // ---------- The log ----------

  /** Records are numbered from `first` on, in increasing order. */
  ghost predicate Numbered(log: seq<Rec>, first: nat) {
    && (forall i :: 0 <= i < |log| ==> log[i].seqno >= first)
    && (forall i, j :: 0 <= i < j < |log| ==> log[i].seqno < log[j].seqno)
  }

  /** The events of the first n records; malformed ones are skipped. */
  function Applied(log: seq<Rec>, n: nat): seq<Event>
    requires n <= |log|
  {
    if n == 0 then []
    else Applied(log, n - 1) + if log[n - 1].event.Some? then [log[n - 1].event.value] else []
  }

  /** The number of the last record applied among the first n, 0 if there is none. */
  function LastOf(log: seq<Rec>, n: nat): nat
    requires n <= |log|
  {
    if n == 0 then 0
    else if log[n - 1].event.Some? then log[n - 1].seqno
    else LastOf(log, n - 1)
  }

  /** The position of the first record numbered at least s. */
  function First(log: seq<Rec>, s: nat): (n: nat)
    ensures n <= |log|
  {
    if log == [] then 0
    else if log[0].seqno >= s then 0
    else 1 + First(log[1..], s)
  }

  lemma {:induction false} FirstMeans(log: seq<Rec>, s: nat)
    ensures forall i :: 0 <= i < First(log, s) ==> log[i].seqno < s
    ensures First(log, s) < |log| ==> log[First(log, s)].seqno >= s
  {
    if log != [] && log[0].seqno < s {
      FirstMeans(log[1..], s);
      assert forall i :: 0 < i < |log| ==> log[i] == log[1..][i - 1];
    }
  }

  // ---------- The machine ----------

  ghost predicate Enabled(log: seq<Rec>, st: System, a: Action) {
    match a
    case Deliver => st.process.Up? && st.process.pos < |log|
    case Begin => st.process.Up? && st.process.inFlight.None?
    case WriteDone(_) => st.process.Up? && st.process.inFlight.Some? && !st.process.written
    case Finish => st.process.Up? && st.process.inFlight.Some? && st.process.written
    case Crash => st.process.Up?
    case Restart => st.process.Down?
    case Shutdown => st.process.Up? && st.process.inFlight.None?
  }

  ghost function ImageOf(p: Process): Image
    requires p.Up?
  {
    Image(p.shard.members, p.shard.watermark, p.lastSeq)
  }

  /** Restore, or a fresh core; the source resumes after the last record the state reflects. */
  ghost function Resumed(log: seq<Rec>, first: nat, disk: Option<Image>): Process {
    match disk
    case None => Up(FRESH, 0, First(log, first), None, false)
    case Some(i) =>
      Up(Shard(i.members, i.watermark, Rebuilt(i.members)), i.lastSeq, First(log, i.lastSeq + 1), None, false)
  }

  ghost function Delivered(cfg: Config, r: Rec, p: Process): Process
    requires p.Up?
  {
    match r.event
    case None => p.(pos := p.pos + 1)
    case Some(e) => p.(shard := Next(cfg, p.shard, e), lastSeq := r.seqno, pos := p.pos + 1)
  }

  /** One action; an action that is not enabled does nothing. */
  ghost function Step(cfg: Config, log: seq<Rec>, first: nat, st: System, a: Action): System {
    if !Enabled(log, st, a) then st
    else
      var p := st.process;
      match a
      case Deliver => st.(process := Delivered(cfg, log[p.pos], p))
      case Begin => st.(process := p.(inFlight := Some(ImageOf(p)), written := false))
      case WriteDone(ok) => System(p.(written := true), if ok then p.inFlight else st.disk)
      case Finish => st.(process := p.(inFlight := None, written := false))
      case Crash => st.(process := Down)
      case Restart => st.(process := Resumed(log, first, st.disk))
      case Shutdown => System(Down, Some(ImageOf(p)))
  }

  ghost function From(cfg: Config, log: seq<Rec>, first: nat, st: System, acts: seq<Action>): System {
    if acts == [] then st
    else Step(cfg, log, first, From(cfg, log, first, st, acts[..|acts| - 1]), acts[|acts| - 1])
  }

  /** Where a schedule leads from a stopped process and an empty disk. */
  ghost function After(cfg: Config, log: seq<Rec>, first: nat, acts: seq<Action>): System {
    From(cfg, log, first, System(Down, None), acts)
  }

  /** How many records a schedule delivers. */
  ghost function Deliveries(acts: seq<Action>): nat { multiset(acts)[Deliver] }

  lemma DeliveriesAdd(a: seq<Action>, b: seq<Action>)
    ensures Deliveries(a + b) == Deliveries(a) + Deliveries(b)
  {
  }

  lemma FromSnoc(cfg: Config, log: seq<Rec>, first: nat, st: System, acts: seq<Action>, a: Action)
    ensures From(cfg, log, first, st, acts + [a]) == Step(cfg, log, first, From(cfg, log, first, st, acts), a)
  {
    assert (acts + [a])[..|acts|] == acts;
  }

  /** Schedules compose: one life of the process after another. */
  lemma {:induction false} FromConcat(cfg: Config, log: seq<Rec>, first: nat, st: System, a: seq<Action>,
                                      b: seq<Action>)
    ensures From(cfg, log, first, st, a + b) == From(cfg, log, first, From(cfg, log, first, st, a), b)
    decreases |b|
  {
    if b == [] {
      assert a + b == a;
    } else {
      var k := |b| - 1;
      FromConcat(cfg, log, first, st, a, b[..k]);
      assert a + b == (a + b[..k]) + [b[k]];
      FromSnoc(cfg, log, first, st, a + b[..k], b[k]);
    }
  }

  // ---------- What recovery keeps ----------

  ghost function Reference(cfg: Config, log: seq<Rec>, n: nat): Shard
    requires n <= |log|
  {
    Run(cfg, Applied(log, n))
  }

  /** The process is where the uninterrupted run is after the first `pos` records. */
  ghost predicate InStep(cfg: Config, log: seq<Rec>, p: Process)
    requires p.Up?
  {
    && p.pos <= |log|
    && SameButQueue(p.shard, Reference(cfg, log, p.pos)) && Inv(cfg, p.shard)
    && p.lastSeq == LastOf(log, p.pos)
  }

  /** A snapshot is the state, watermark and last number of one log prefix, and the source resumes
      where that prefix ends. */
  ghost predicate ImageOK(cfg: Config, log: seq<Rec>, i: Image) {
    var n := First(log, i.lastSeq + 1);
    && i.members == Reference(cfg, log, n).members && i.watermark == Reference(cfg, log, n).watermark
    && i.lastSeq == LastOf(log, n)
  }

  ghost predicate Consistent(cfg: Config, log: seq<Rec>, st: System) {
    && (st.disk.Some? ==> ImageOK(cfg, log, st.disk.value))
    && (st.process.Up? ==> InStep(cfg, log, st.process))
    && (st.process.Up? && st.process.inFlight.Some? ==> ImageOK(cfg, log, st.process.inFlight.value))
  }

  /** Number 0 is not taken for "nothing applied": the log starts at 1, or its record 0 is malformed
      or missing, or some record has been applied. */
  ghost predicate Unmistakable(log: seq<Rec>, n: nat)
    requires n <= |log|
  {
    Applied(log, n) != [] || log == [] || log[0].seqno != 0 || log[0].event.None?
  }

  lemma {:induction false} AppliedUpTo(log: seq<Rec>, m: nat, n: nat)
    requires m <= n <= |log| && forall i :: m <= i < n ==> log[i].event.None?
    ensures Applied(log, m) == Applied(log, n) && LastOf(log, m) == LastOf(log, n)
    decreases n
  {
    if m < n { AppliedUpTo(log, m, n - 1); }
  }

  /** The last applied record stands right before the resume point. */
  lemma {:induction false} LastIsApplied(log: seq<Rec>, n: nat) returns (k: nat)
    requires n <= |log| && Applied(log, n) != []
    ensures k < n && log[k].event.Some? && log[k].seqno == LastOf(log, n)
    ensures forall i :: k < i < n ==> log[i].event.None?
    decreases n
  {
    if log[n - 1].event.Some? { k := n - 1; } else { k := LastIsApplied(log, n - 1); }
  }

  lemma {:induction false} NoneApplied(log: seq<Rec>, n: nat)
    requires n <= |log| && Applied(log, n) == []
    ensures LastOf(log, n) == 0 && forall i :: 0 <= i < n ==> log[i].event.None?
    decreases n
  {
    if n > 0 { NoneApplied(log, n - 1); }
  }

  lemma FirstIs(log: seq<Rec>, first: nat, s: nat, n: nat)
    requires Numbered(log, first) && n <= |log|
    requires n > 0 ==> log[n - 1].seqno < s
    requires n < |log| ==> log[n].seqno >= s
    ensures First(log, s) == n
  {
    FirstMeans(log, s);
  }

  /** Resuming after the last applied record misses nothing and repeats nothing. */
  lemma ResumesInStep(log: seq<Rec>, first: nat, n: nat)
    requires Numbered(log, first) && n <= |log| && Unmistakable(log, n)
    ensures var m := First(log, LastOf(log, n) + 1);
            Applied(log, m) == Applied(log, n) && LastOf(log, m) == LastOf(log, n)
  {
    if Applied(log, n) != [] {
      var k := LastIsApplied(log, n);
      FirstIs(log, first, log[k].seqno + 1, k + 1);
      AppliedUpTo(log, k + 1, n);
    } else {
      NoneApplied(log, n);
      AppliedUpTo(log, 0, n);
      var m := if log != [] && log[0].seqno == 0 then 1 else 0;
      FirstIs(log, first, 1, m);
      AppliedUpTo(log, 0, m);
    }
  }

  // ---------- The theorems ----------

  lemma ReferenceIsOK(cfg: Config, log: seq<Rec>, n: nat)
    requires Proper(cfg.patterns) && n <= |log|
    ensures Inv(cfg, Reference(cfg, log, n))
    ensures var s := Reference(cfg, log, n);
            var t := Shard(s.members, s.watermark, Rebuilt(s.members));
            Inv(cfg, t) && SameButQueue(t, s)
  {
    RunsKeepInv(cfg, true, Applied(log, n));
    RebuiltCovers(cfg, Reference(cfg, log, n));
  }

  /** A delivery keeps step with the uninterrupted run and reports what that run reports. */
  lemma DeliveryKeepsStep(cfg: Config, log: seq<Rec>, p: Process)
    requires Proper(cfg.patterns) && p.Up? && InStep(cfg, log, p) && p.pos < |log|
    ensures InStep(cfg, log, Delivered(cfg, log[p.pos], p))
    ensures log[p.pos].event.Some? ==>
              Out(cfg, p.shard, log[p.pos].event.value) == Out(cfg, Reference(cfg, log, p.pos), log[p.pos].event.value)
  {
    hide Next, Out, Inv, Run, Proper;
    match log[p.pos].event
    case None =>
      AppliedUpTo(log, p.pos, p.pos + 1);
    case Some(e) =>
      ApplyKeepsStep(cfg, log, p.pos, p.shard, e);
  }

  lemma ApplyKeepsStep(cfg: Config, log: seq<Rec>, n: nat, s: Shard, e: Event)
    requires Proper(cfg.patterns) && n < |log| && log[n].event == Some(e)
    requires Inv(cfg, s) && SameButQueue(s, Reference(cfg, log, n))
    ensures Inv(cfg, Next(cfg, s, e)) && SameButQueue(Next(cfg, s, e), Reference(cfg, log, n + 1))
    ensures Out(cfg, s, e) == Out(cfg, Reference(cfg, log, n), e)
  {
    ReferenceIsOK(cfg, log, n);
    hide Next, Out, Inv, Run, Proper;
    RunSnoc(cfg, Applied(log, n), e);
    QueueIsRedundant(cfg, s, Reference(cfg, log, n), e);
  }

  /** A snapshot of a process in step is one from which recovery is right. */
  lemma SnapshotIsOK(cfg: Config, log: seq<Rec>, first: nat, p: Process)
    requires Numbered(log, first) && p.Up? && InStep(cfg, log, p) && Unmistakable(log, p.pos)
    ensures ImageOK(cfg, log, ImageOf(p))
  {
    hide Inv, Run, Unmistakable, Numbered, First, LastOf, Applied, Rebuilt;
    ResumesInStep(log, first, p.pos);
  }

  lemma RestartIsInStep(cfg: Config, log: seq<Rec>, first: nat, disk: Option<Image>)
    requires Proper(cfg.patterns) && Numbered(log, first)
    requires disk.Some? ==> ImageOK(cfg, log, disk.value)
    ensures InStep(cfg, log, Resumed(log, first, disk))
  {
    hide InStep, ImageOK, Proper;
    match disk
    case None => FreshIsInStep(cfg, log, first);
    case Some(i) => ImageIsInStep(cfg, log, first, i);
  }

  lemma FreshIsInStep(cfg: Config, log: seq<Rec>, first: nat)
    requires Proper(cfg.patterns) && Numbered(log, first)
    ensures InStep(cfg, log, Resumed(log, first, None))
  {
    hide Inv, Proper, Rebuilt, NextWith, First;
    FirstIs(log, first, first, 0);
    ReferenceIsOK(cfg, log, 0);
  }

  lemma ImageIsInStep(cfg: Config, log: seq<Rec>, first: nat, i: Image)
    requires Proper(cfg.patterns) && ImageOK(cfg, log, i)
    ensures InStep(cfg, log, Resumed(log, first, Some(i)))
  {
    hide Inv, Proper, Rebuilt, NextWith, First, LastOf, Reference;
    ReferenceIsOK(cfg, log, First(log, i.lastSeq + 1));
  }

  /** The actions that take a snapshot. */
  predicate Snapshots(a: Action) { a.Begin? || a.Shutdown? }

  lemma StepKeepsConsistent(cfg: Config, log: seq<Rec>, first: nat, st: System, a: Action)
    requires Proper(cfg.patterns) && Numbered(log, first) && Consistent(cfg, log, st)
    requires Enabled(log, st, a) && Snapshots(a) ==> Unmistakable(log, st.process.pos)
    ensures Consistent(cfg, log, Step(cfg, log, first, st, a))
  {
    if Enabled(log, st, a) {
      match a
      case Deliver => DeliveryKeepsStep(cfg, log, st.process);
      case Begin => SnapshotIsOK(cfg, log, first, st.process);
      case Shutdown => SnapshotIsOK(cfg, log, first, st.process);
      case Restart => RestartIsInStep(cfg, log, first, st.disk);
      case _ =>
    }
  }

  /** Snapshots are taken only where number 0 cannot be mistaken. */
  ghost predicate Careful(cfg: Config, log: seq<Rec>, first: nat, acts: seq<Action>) {
    forall k :: 0 <= k < |acts| && Snapshots(acts[k]) ==> CarefulAt(cfg, log, first, acts, k)
  }

  ghost predicate CarefulAt(cfg: Config, log: seq<Rec>, first: nat, acts: seq<Action>, k: nat)
    requires k < |acts|
  {
    var st := After(cfg, log, first, acts[..k]);
    st.process.Up? && Enabled(log, st, acts[k]) ==> st.process.pos <= |log| && Unmistakable(log, st.process.pos)
  }

  /** Under every careful schedule the process, the snapshot in flight and the file stay consistent. */
  lemma {:induction false} CarefulSchedulesRecover(cfg: Config, log: seq<Rec>, first: nat, acts: seq<Action>)
    requires Proper(cfg.patterns) && Numbered(log, first) && Careful(cfg, log, first, acts)
    ensures Consistent(cfg, log, After(cfg, log, first, acts))
    decreases |acts|
  {
    if acts != [] {
      var k := |acts| - 1;
      forall j | 0 <= j < k && Snapshots(acts[..k][j]) ensures CarefulAt(cfg, log, first, acts[..k], j) {
        assert acts[..k][..j] == acts[..j];
        assert CarefulAt(cfg, log, first, acts, j);
      }
      CarefulSchedulesRecover(cfg, log, first, acts[..k]);
      assert Snapshots(acts[k]) ==> CarefulAt(cfg, log, first, acts, k);
      StepKeepsConsistent(cfg, log, first, After(cfg, log, first, acts[..k]), acts[k]);
    }
  }

  /** Crash recovery equals an uninterrupted run: whatever the schedule, a process that is up has the
      members, watermark and last number of the run over the records before its position, and reports
      for the next record what that run reports. */
  lemma RecoveryIsTransparent(cfg: Config, log: seq<Rec>, acts: seq<Action>)
    requires Proper(cfg.patterns) && Numbered(log, NATS)
    ensures var st := After(cfg, log, NATS, acts);
            && Consistent(cfg, log, st)
            && (st.process.Up? && st.process.pos < |log| && log[st.process.pos].event.Some? ==>
                  var e := log[st.process.pos].event.value;
                  Out(cfg, st.process.shard, e) == Out(cfg, Reference(cfg, log, st.process.pos), e))
  {
    NatsIsUnmistakable(cfg, log, acts);
    CarefulSchedulesRecover(cfg, log, NATS, acts);
    var st := After(cfg, log, NATS, acts);
    if st.process.Up? && st.process.pos < |log| {
      DeliveryKeepsStep(cfg, log, st.process);
    }
  }

  /** Number 0 is never taken for "nothing applied". */
  ghost predicate NeverMistaken(log: seq<Rec>) { log == [] || log[0].seqno != 0 || log[0].event.None? }

  /** Any schedule from a consistent state leaves one. */
  lemma {:induction false} LifeKeepsConsistent(cfg: Config, log: seq<Rec>, first: nat, st: System, acts: seq<Action>)
    requires Proper(cfg.patterns) && Numbered(log, first) && NeverMistaken(log) && Consistent(cfg, log, st)
    ensures Consistent(cfg, log, From(cfg, log, first, st, acts))
    decreases |acts|
  {
    hide Step, InStep, ImageOK;
    if acts != [] {
      var k := |acts| - 1;
      LifeKeepsConsistent(cfg, log, first, st, acts[..k]);
      PositionIsInLog(cfg, log, From(cfg, log, first, st, acts[..k]));
      StepKeepsConsistent(cfg, log, first, From(cfg, log, first, st, acts[..k]), acts[k]);
    }
  }

  // ---------- Logs that begin with record 0 ----------

  /** An image lies behind a decodable record 0: number 0 stands for that record having been applied. */
  lemma ImageIsBehindZero(cfg: Config, log: seq<Rec>, first: nat, i: Image)
    requires Numbered(log, first) && !NeverMistaken(log) && ImageOK(cfg, log, i)
    ensures First(log, i.lastSeq + 1) >= 1
  {
    FirstMeans(log, i.lastSeq + 1);
  }

  /** Behind record 0 number 0 is not mistaken. */
  lemma BehindZeroIsUnmistakable(log: seq<Rec>, n: nat)
    requires n <= |log| && (NeverMistaken(log) || n >= 1)
    ensures Unmistakable(log, n)
  {
    if !NeverMistaken(log) { SomeApplied(log, n); }
  }

  lemma {:induction false} SomeApplied(log: seq<Rec>, n: nat)
    requires 1 <= n <= |log| && log[0].event.Some?
    ensures Applied(log, n) != []
    decreases n
  {
    if n > 1 { SomeApplied(log, n - 1); }
  }

  /** There is a file, and whoever is up has passed record 0. */
  ghost predicate PastZero(log: seq<Rec>, st: System) {
    st.disk.Some? && (st.process.Up? ==> NeverMistaken(log) || st.process.pos >= 1)
  }

  lemma StepKeepsPastZero(cfg: Config, log: seq<Rec>, first: nat, st: System, a: Action)
    requires Numbered(log, first) && Consistent(cfg, log, st) && PastZero(log, st)
    ensures PastZero(log, Step(cfg, log, first, st, a))
  {
    hide Next, InStep, NeverMistaken, Rebuilt;
    if a.Restart? && Enabled(log, st, a) && !NeverMistaken(log) {
      ImageIsBehindZero(cfg, log, first, st.disk.value);
    }
  }

  /** Once there is a consistent file, no schedule spoils it, whatever record 0 is. */
  lemma {:induction false} ConsistentFileIsSafe(cfg: Config, log: seq<Rec>, first: nat, st: System, acts: seq<Action>)
    requires Proper(cfg.patterns) && Numbered(log, first) && Consistent(cfg, log, st) && PastZero(log, st)
    ensures var t := From(cfg, log, first, st, acts); Consistent(cfg, log, t) && PastZero(log, t)
    decreases |acts|
  {
    hide Step, InStep, ImageOK, Unmistakable, NeverMistaken;
    if acts != [] {
      var k := |acts| - 1;
      ConsistentFileIsSafe(cfg, log, first, st, acts[..k]);
      var t := From(cfg, log, first, st, acts[..k]);
      PositionIsInLog(cfg, log, t);
      if t.process.Up? { BehindZeroIsUnmistakable(log, t.process.pos); }
      StepKeepsConsistent(cfg, log, first, t, acts[k]);
      StepKeepsPastZero(cfg, log, first, t, acts[k]);
    }
  }

  // ---------- One life that starts without a file ----------

  /** Deliveries and what the snapshotter does beside them. */
  predicate Lively(a: Action) { a.Deliver? || a.Begin? || a.WriteDone? || a.Finish? }

  /** The schedule of one life: a restart, then lively actions, then the end. */
  ghost predicate OneLife(acts: seq<Action>) {
    |acts| >= 2 && acts[0].Restart? && forall k :: 1 <= k < |acts| - 1 ==> Lively(acts[k])
  }

  /** No snapshot is taken before a record has been delivered. */
  ghost predicate DeliversFirst(acts: seq<Action>) {
    forall k :: 0 <= k < |acts| && Snapshots(acts[k]) ==> Deliver in acts[..k]
  }

  /** The process is up, and behind the first record once one was delivered. */
  ghost predicate Passing(log: seq<Rec>, acts: seq<Action>, st: System) {
    st.process.Up? && (Deliver in acts && log != [] ==> st.process.pos >= 1)
  }

  /** So it is at every moment between the restart and the end of a life. */
  lemma {:induction false} LifeIsPastZero(cfg: Config, log: seq<Rec>, first: nat, st: System, acts: seq<Action>, n: nat)
    requires OneLife(acts) && st.process.Down? && 1 <= n < |acts|
    ensures Passing(log, acts[..n], From(cfg, log, first, st, acts[..n]))
    decreases n
  {
    hide Passing, From, Step, Lively;
    if n == 1 {
      assert acts[..1] == [Restart];
      RestartPasses(cfg, log, first, st);
    } else {
      LifeIsPastZero(cfg, log, first, st, acts, n - 1);
      assert Lively(acts[n - 1]);
      LivelyPasses(cfg, log, first, st, acts[..n - 1], acts[n - 1]);
      assert acts[..n] == acts[..n - 1] + [acts[n - 1]];
    }
  }

  lemma RestartPasses(cfg: Config, log: seq<Rec>, first: nat, st: System)
    requires st.process.Down?
    ensures Passing(log, [Restart], From(cfg, log, first, st, [Restart]))
  {
    hide Resumed;
    FromSnoc(cfg, log, first, st, [], Restart);
    assert [] + [Restart] == [Restart];
    ResumedIsUp(log, first, st.disk);
  }

  lemma LivelyPasses(cfg: Config, log: seq<Rec>, first: nat, st: System, acts: seq<Action>, a: Action)
    requires Lively(a) && Passing(log, acts, From(cfg, log, first, st, acts))
    ensures Passing(log, acts + [a], From(cfg, log, first, st, acts + [a]))
  {
    hide Step, From, Lively;
    FromSnoc(cfg, log, first, st, acts, a);
    LivelyStep(cfg, log, first, From(cfg, log, first, st, acts), a);
  }

  lemma ResumedIsUp(log: seq<Rec>, first: nat, disk: Option<Image>)
    ensures Resumed(log, first, disk).Up?
  {
  }

  lemma LivelyStep(cfg: Config, log: seq<Rec>, first: nat, st: System, a: Action)
    requires Lively(a) && st.process.Up?
    ensures var t := Step(cfg, log, first, st, a);
            && t.process.Up? && t.process.pos >= st.process.pos
            && (a.Deliver? && st.process.pos == 0 && log != [] ==> t.process.pos == 1)
  {
    hide Next;
  }

  /** A life that delivers before it snapshots leaves a consistent state, whatever record 0 is. */
  lemma {:induction false} LifeIsSafe(cfg: Config, log: seq<Rec>, first: nat, st: System, acts: seq<Action>, n: nat)
    requires Proper(cfg.patterns) && Numbered(log, first) && Consistent(cfg, log, st) && st.process.Down?
    requires OneLife(acts) && DeliversFirst(acts) && n <= |acts|
    ensures Consistent(cfg, log, From(cfg, log, first, st, acts[..n]))
    decreases n
  {
    hide Step, InStep, ImageOK, NeverMistaken;
    if n > 0 {
      LifeIsSafe(cfg, log, first, st, acts, n - 1);
      var t, a := From(cfg, log, first, st, acts[..n - 1]), acts[n - 1];
      assert acts[..n] == acts[..n - 1] + [a];
      FromSnoc(cfg, log, first, st, acts[..n - 1], a);
      PositionIsInLog(cfg, log, t);
      if n == 1 {
        assert acts[..0] == [];
      } else {
        LifeIsPastZero(cfg, log, first, st, acts, n - 1);
        if Snapshots(a) { DeliveredIsUnmistakable(log, t.process.pos); }
      }
      StepKeepsConsistent(cfg, log, first, t, a);
    }
  }

  lemma DeliveredIsUnmistakable(log: seq<Rec>, n: nat)
    requires n <= |log| && (log != [] ==> n >= 1)
    ensures Unmistakable(log, n)
  {
    if log != [] { BehindZeroIsUnmistakable(log, n); }
  }

  // ---------- The exact condition on schedules ----------

  /** A snapshot taken where number 0 is mistaken is not the image of a prefix. */
  lemma CarelessSnapshotIsWrong(cfg: Config, log: seq<Rec>, first: nat, p: Process)
    requires Numbered(log, first) && p.Up? && InStep(cfg, log, p) && !Unmistakable(log, p.pos)
    ensures !ImageOK(cfg, log, ImageOf(p))
  {
    NoneApplied(log, p.pos);
    ReferenceStartsEmpty(cfg, log, p.pos);
    FirstIs(log, first, 1, 1);
    FirstIsRemembered(cfg, log);
  }

  lemma ReferenceStartsEmpty(cfg: Config, log: seq<Rec>, n: nat)
    requires n <= |log| && Applied(log, n) == []
    ensures Reference(cfg, log, n) == FRESH
  {
  }

  lemma CarelessStepIsWrong(cfg: Config, log: seq<Rec>, first: nat, st: System, a: Action)
    requires Numbered(log, first) && Consistent(cfg, log, st) && st.process.Up? && Snapshots(a) && Enabled(log, st, a)
    requires !Unmistakable(log, st.process.pos)
    ensures !Consistent(cfg, log, Step(cfg, log, first, st, a))
  {
    CarelessSnapshotIsWrong(cfg, log, first, st.process);
    hide ImageOK, InStep, ImageOf;
  }

  /** A schedule keeps everything consistent at every moment exactly when it is careful. */
  lemma ConsistentIffCareful(cfg: Config, log: seq<Rec>, first: nat, acts: seq<Action>)
    requires Proper(cfg.patterns) && Numbered(log, first)
    ensures (forall k :: 0 <= k <= |acts| ==> Consistent(cfg, log, After(cfg, log, first, acts[..k])))
       <==> Careful(cfg, log, first, acts)
  {
    hide Consistent, After, Unmistakable;
    if Careful(cfg, log, first, acts) {
      forall k | 0 <= k <= |acts| ensures Consistent(cfg, log, After(cfg, log, first, acts[..k])) {
        PrefixIsCareful(cfg, log, first, acts, k);
        CarefulSchedulesRecover(cfg, log, first, acts[..k]);
      }
    }
    if forall k :: 0 <= k <= |acts| ==> Consistent(cfg, log, After(cfg, log, first, acts[..k])) {
      forall k | 0 <= k < |acts| && Snapshots(acts[k]) ensures CarefulAt(cfg, log, first, acts, k) {
        assert Consistent(cfg, log, After(cfg, log, first, acts[..k]));
        assert Consistent(cfg, log, After(cfg, log, first, acts[..k + 1]));
        ConsistentIsCarefulAt(cfg, log, first, acts, k);
      }
    }
  }

  lemma PrefixIsCareful(cfg: Config, log: seq<Rec>, first: nat, acts: seq<Action>, k: nat)
    requires Careful(cfg, log, first, acts) && k <= |acts|
    ensures Careful(cfg, log, first, acts[..k])
  {
    hide After;
    forall j | 0 <= j < k && Snapshots(acts[..k][j]) ensures CarefulAt(cfg, log, first, acts[..k], j) {
      assert acts[..k][..j] == acts[..j];
      assert CarefulAt(cfg, log, first, acts, j);
    }
  }

  lemma ConsistentIsCarefulAt(cfg: Config, log: seq<Rec>, first: nat, acts: seq<Action>, k: nat)
    requires Numbered(log, first) && k < |acts| && Snapshots(acts[k])
    requires Consistent(cfg, log, After(cfg, log, first, acts[..k]))
    requires Consistent(cfg, log, After(cfg, log, first, acts[..k + 1]))
    ensures CarefulAt(cfg, log, first, acts, k)
  {
    hide Consistent, From, Step, Unmistakable;
    var st := After(cfg, log, first, acts[..k]);
    PositionIsInLog(cfg, log, st);
    assert acts[..k + 1] == acts[..k] + [acts[k]];
    FromSnoc(cfg, log, first, System(Down, None), acts[..k], acts[k]);
    if st.process.Up? && Enabled(log, st, acts[k]) && !Unmistakable(log, st.process.pos) {
      CarelessStepIsWrong(cfg, log, first, st, acts[k]);
    }
  }

  lemma PositionIsInLog(cfg: Config, log: seq<Rec>, st: System)
    requires Consistent(cfg, log, st)
    ensures st.process.Up? ==> st.process.pos <= |log|
  {
  }

  lemma NatsIsUnmistakable(cfg: Config, log: seq<Rec>, acts: seq<Action>)
    requires Numbered(log, NATS)
    ensures Careful(cfg, log, NATS, acts)
  {
    forall k | 0 <= k < |acts| && Snapshots(acts[k]) ensures CarefulAt(cfg, log, NATS, acts, k) {
      PositionsAreInLog(cfg, log, NATS, acts[..k]);
    }
  }

  lemma {:induction false} PositionsAreInLog(cfg: Config, log: seq<Rec>, first: nat, acts: seq<Action>)
    ensures var st := After(cfg, log, first, acts); st.process.Up? ==> st.process.pos <= |log|
    decreases |acts|
  {
    if acts != [] { PositionsAreInLog(cfg, log, first, acts[..|acts| - 1]); }
  }

  /** Numbered from 0, recovery is right under every schedule exactly when the log does not begin with
      a decodable record 0. */
  lemma KafkaRecoversIff(cfg: Config, log: seq<Rec>)
    requires Proper(cfg.patterns) && Numbered(log, KAFKA)
    ensures (forall acts :: Consistent(cfg, log, After(cfg, log, KAFKA, acts)))
       <==> NeverMistaken(log)
  {
    if NeverMistaken(log) {
      forall acts ensures Consistent(cfg, log, After(cfg, log, KAFKA, acts)) {
        forall k | 0 <= k < |acts| && Snapshots(acts[k]) ensures CarefulAt(cfg, log, KAFKA, acts, k) {
          PositionsAreInLog(cfg, log, KAFKA, acts[..k]);
        }
        CarefulSchedulesRecover(cfg, log, KAFKA, acts);
      }
    } else {
      EarlySnapshotLosesRecordZero(cfg, log);
    }
  }

  const EARLY: seq<Action> := [Restart, Begin, WriteDone(true), Crash, Restart]

  /** A snapshot before the first record is taken for one after offset 0: the restarted process has
      passed that record without applying it. */
  lemma EarlySnapshotLosesRecordZero(cfg: Config, log: seq<Rec>)
    requires Numbered(log, KAFKA) && log != [] && log[0].seqno == 0 && log[0].event.Some?
    ensures var st := After(cfg, log, KAFKA, EARLY);
            && st.process.Up? && st.process.pos == 1 && st.process.shard.members == map[]
            && log[0].event.value.memberID in Reference(cfg, log, 1).members
            && !Consistent(cfg, log, st)
  {
    var s0 := System(Down, None);
    var s1 := Step(cfg, log, KAFKA, s0, Restart);
    FirstIs(log, KAFKA, 0, 0);
    assert s1 == System(Up(FRESH, 0, 0, None, false), None);
    var s3 := Step(cfg, log, KAFKA, Step(cfg, log, KAFKA, s1, Begin), WriteDone(true));
    assert s3.disk == Some(Image(map[], 0, 0));
    var s5 := Step(cfg, log, KAFKA, Step(cfg, log, KAFKA, s3, Crash), Restart);
    FirstIs(log, KAFKA, 1, 1);
    assert Rebuilt(map[]) == {};
    assert s5.process.Up? && s5.process.pos == 1 && s5.process.shard.members == map[];
    hide Step, Reference, ImageOK, InStep;
    FromFive(cfg, log, KAFKA, s0, Restart, Begin, WriteDone(true), Crash, Restart);
    FirstIsRemembered(cfg, log);
  }

  lemma FromFive(cfg: Config, log: seq<Rec>, first: nat, st: System, a: Action, b: Action, c: Action, d: Action,
                 e: Action)
    ensures From(cfg, log, first, st, [a, b, c, d, e]) ==
              Step(cfg, log, first, Step(cfg, log, first, Step(cfg, log, first, Step(cfg, log, first,
                Step(cfg, log, first, st, a), b), c), d), e)
  {
    hide Step;
    assert [a] == [] + [a] && [a, b] == [a] + [b] && [a, b, c] == [a, b] + [c];
    assert [a, b, c, d] == [a, b, c] + [d] && [a, b, c, d, e] == [a, b, c, d] + [e];
    FromSnoc(cfg, log, first, st, [], a);
    FromSnoc(cfg, log, first, st, [a], b);
    FromSnoc(cfg, log, first, st, [a, b], c);
    FromSnoc(cfg, log, first, st, [a, b, c], d);
    FromSnoc(cfg, log, first, st, [a, b, c, d], e);
  }

  lemma FirstIsRemembered(cfg: Config, log: seq<Rec>)
    requires log != [] && log[0].event.Some?
    ensures log[0].event.value.memberID in Reference(cfg, log, 1).members
    ensures forall p: Process :: p.Up? && p.pos == 1 && p.shard.members == map[] ==> !InStep(cfg, log, p)
  {
    var e := log[0].event.value;
    assert Applied(log, 0) == [] && Applied(log, 1) == [] + [e];
    RunSnoc(cfg, [], e);
    assert e.memberID in Next(cfg, FRESH, e).members;
  }
}
