/** The consumers (service/engine/core/consumer.go, consumer_nats.go, consumer_kafka.go): a core, its
    snapshot file and the loop that drives them, proved to follow the machine in `Recovery`. */
module Consumers {
  import opened Basics
  import opened Events
  import opened KeyGroups
  import opened Patterns
  import opened Shards
  import opened Invariants
  import opened ShardStates
  import opened Engine
  import opened Recovery
  import opened Schedules

  /** The `done` channel: nil, open, or holding the result of the background write. */
  datatype Background = Idle | Running(f: FrozenSnapshot) | Finished(ok: bool)

  function PhaseOf(done: Background): Phase {
    match done
    case Idle => AtRest
    case Running(_) => Writing
    case Finished(_) => Schedules.Written
  }

  /** Every member of the file sits in the key group of its name. */
  ghost predicate Readable(hash: string -> nat, snap: Snapshot) {
    Placed(hash, snap.keyGroups) && forall i :: i in snap.keyGroups ==> 0 <= i < NUM_KEY_GROUPS
  }

  ghost function FileImage(hash: string -> nat, file: Option<Snapshot>): Option<Image> {
    match file
    case None => None
    case Some(snap) => Some(Image(Flatten(hash, snap.keyGroups), snap.watermark, snap.lastSeq))
  }

  class AsyncSnapshotter {
    const core: Core
    const enabled: bool // whether a snapshot path is configured
    const interval: int
    var last: int
    var done: Background
    var file: Option<Snapshot> // replaced as a whole
    ghost var image: Image // what the snapshot in flight stores

    constructor (core: Core, enabled: bool, interval: int, now: int, file: Option<Snapshot>)
      ensures this.core == core && this.enabled == enabled && this.interval == interval
      ensures done == Idle && this.file == file && last == now
    {
      this.core, this.enabled, this.interval := core, enabled, interval;
      last, done, this.file, image := now, Idle, file, Image(map[], 0, 0);
    }

    /** At most one snapshot is in flight, exactly while the core is frozen; it stores what the frozen
        view holds. */
    ghost predicate Valid()
      reads this, core, core.state, core.state.groups, core.state.owned, core.state.AggsOf(core.state.owned)
      reads core.state.GroupsOf(core.state.frozenView), core.state.GroupsOf(core.state.keyGroups)
      reads core.state.MembersOf(core.state.frozenView), core.state.AggsOf(core.state.MembersOf(core.state.frozenView))
      reads core.state.PartsOf(core.state.MembersOf(core.state.frozenView))
    {
      && core.Valid()
      && (done.Idle? <==> core.state.frozenEpoch == 0)
      && (done.Running? ==>
            done.f.view == core.state.frozenView
            && image == Image(core.state.Frozen(), done.f.watermark, done.f.lastSeq))
      && (file.Some? ==> Readable(core.state.hash, file.value))
    }

    /** This life of the process, as the protocol sees it. */
    ghost function Sys(pos: nat): System
      reads this, core, core.state, core.state.GroupsOf(core.state.keyGroups)
      reads core.state.MembersOf(core.state.keyGroups)
      reads core.state.AggsOf(core.state.MembersOf(core.state.keyGroups))
      reads core.state.PartsOf(core.state.MembersOf(core.state.keyGroups))
    {
      System(
        Up(core.Abstract(), core.lastSeq, pos, if done.Idle? then None else Some(image), done.Finished?),
        FileImage(core.state.hash, file))
    }

    ghost function Habits(): Habit { Habit(enabled, interval) }

    /** Where the snapshotter is between its ticks. */
    ghost function Beat(): Pace
      reads this
    {
      Pace(last, PhaseOf(done))
    }

    lemma BeatMeans()
      ensures Habits() == Habit(enabled, interval) && Beat().last == last
      ensures Beat().phase == if done.Idle? then AtRest else if done.Running? then Writing else Schedules.Written
    {
    }

    lemma SysMeans(pos: nat)
      ensures Sys(pos) == System(
                Up(core.Abstract(), core.lastSeq, pos, if done.Idle? then None else Some(image), done.Finished?),
                FileImage(core.state.hash, file))
      ensures Valid() <==>
                && core.Valid()
                && (done.Idle? <==> core.state.frozenEpoch == 0)
                && (done.Running? ==>
                      done.f.view == core.state.frozenView
                      && image == Image(core.state.Frozen(), done.f.watermark, done.f.lastSeq))
                && (file.Some? ==> Readable(core.state.hash, file.value))
    {
    }

    /** The snapshotter is no part of the state. */
    lemma Apart()
      ensures this !in core.state.PartsOf(core.state.owned) && core !in core.state.PartsOf(core.state.owned)
      ensures core.state !in core.state.PartsOf(core.state.owned)
      ensures forall o :: o in core.state.PartsOf(core.state.owned) ==> allocated(o)
    {
    }

    /** A core that took one step takes one step of the protocol. */
    twostate lemma AfterRecord(new e: Event, new n: nat, new log: seq<Rec>, new first: nat, new pos: nat)
      requires old(Valid()) && pos < |log| && log[pos] == Rec(n, Some(e)) && unchanged(this)
      requires core.state.frozenEpoch == old(core.state.frozenEpoch)
               && core.state.frozenView == old(core.state.frozenView)
      requires core.Valid() && (core.state.frozenEpoch != 0 ==> core.state.Frozen() == old(core.state.Frozen()))
      requires core.Cfg() == old(core.Cfg()) && core.Abstract() == Next(core.Cfg(), old(core.Abstract()), e)
      requires core.lastSeq == n
      ensures Valid() && Sys(pos + 1) == Step(core.Cfg(), log, first, old(Sys(pos)), Deliver)
    {
      hide Core.Valid, Core.Abstract, Core.Cfg, ShardState.Frozen, Step, Readable, Next;
      DeliverMeans(core.Cfg(), log, first, old(Sys(pos)));
    }

    /** The background goroutine: encode the frozen view, replace the file, report. */
    method Write(ok: bool, ghost cfg: Config, ghost log: seq<Rec>, ghost first: nat, ghost pos: nat)
      requires Valid() && done.Running?
      modifies this`done, this`file
      ensures Valid() && done == Finished(ok)
              && core.state.PartsOf(core.state.owned) == old(core.state.PartsOf(core.state.owned))
      ensures Sys(pos) == Step(cfg, log, first, old(Sys(pos)), WriteDone(ok))
      ensures !ok ==> file == old(file)
    {
      Apart();
      hide Core.Valid, Core.Abstract, ShardState.Valid, ShardState.Frozen, ShardState.PartsOf, Flatten, Placed;
      var snap := core.EncodeSnapshot(done.f);
      if ok {
        file := Some(snap);
      }
      done := Finished(ok);
      core.Undisturbed();
    }

    /** finish: release the frozen view. */
    method Finish(ghost cfg: Config, ghost log: seq<Rec>, ghost first: nat, ghost pos: nat)
      requires Valid() && done.Finished?
      modifies this`done, core.state`frozenEpoch
      ensures Valid() && done == Idle
              && core.state.PartsOf(core.state.owned) == old(core.state.PartsOf(core.state.owned))
      ensures Sys(pos) == Step(cfg, log, first, old(Sys(pos)), Action.Finish)
    {
      Apart();
      hide Core.Valid, Core.Abstract, ShardState.Valid, ShardState.Frozen, ShardState.PartsOf, Flatten, Placed;
      core.EndSnapshot();
      label L:
      done := Idle;
      core.Undisturbed@L();
    }

    /** Start a snapshot: freeze here; encode and write happen in the background. */
    method Start(now: int, ghost cfg: Config, ghost log: seq<Rec>, ghost first: nat, ghost pos: nat)
      requires Valid() && done.Idle?
      modifies this`last, this`done, this`image
      modifies core.state`epoch, core.state`frozenEpoch, core.state`frozenView, core.state`copied
      modifies core.state`copiedGroups
      ensures Valid() && done.Running? && last == now
              && core.state.PartsOf(core.state.owned) == old(core.state.PartsOf(core.state.owned))
      ensures Sys(pos) == Step(cfg, log, first, old(Sys(pos)), Begin)
    {
      Apart();
      hide *;
      SysMeans(pos);
      core.AbstractMeans();
      BeginMeans(cfg, log, first, Sys(pos));
      var f := core.BeginSnapshot();
      ghost var members := core.state.Frozen();
      label L:
      last := now;
      done := Running(f);
      image := Image(members, f.watermark, f.lastSeq);
      core.Undisturbed@L();
      SysMeans(pos);
    }

    /** tick: collect a finished background write, then start a snapshot when one is due. While a write
        is still running the interval is skipped. */
    method Tick(now: int, ghost cfg: Config, ghost log: seq<Rec>, ghost first: nat, ghost pos: nat)
      returns (ghost acts: seq<Action>)
      requires Valid()
      modifies this`last, this`done, this`image
      modifies core.state`epoch, core.state`frozenEpoch, core.state`frozenView, core.state`copied
      modifies core.state`copiedGroups
      ensures Valid() && core.state.PartsOf(core.state.owned) == old(core.state.PartsOf(core.state.owned))
      ensures Sys(pos) == From(cfg, log, first, old(Sys(pos)), acts) && Quiet(acts)
      ensures file == old(file) && Plan(acts, Beat()) == TickPlan(Habits(), old(Beat()), now)
      ensures !enabled || interval <= 0 || old(done.Running?) ==> acts == [] && done == old(done)
      ensures enabled && interval > 0 && !old(done.Running?) ==>
                (done.Running? <==> now - old(last) >= interval) && (done.Running? ==> last == now)
    {
      hide Valid, Sys, Core.Valid, Core.Abstract, ShardState.PartsOf, Step;
      acts := [];
      if !enabled || interval <= 0 {
        return;
      }
      if done.Running? {
        return;
      }
      if done.Finished? {
        Finish(cfg, log, first, pos);
        acts := [Action.Finish];
        FromSnoc(cfg, log, first, old(Sys(pos)), [], Action.Finish);
      }
      if now - last < interval {
        return;
      }
      Start(now, cfg, log, first, pos);
      FromSnoc(cfg, log, first, old(Sys(pos)), acts, Begin);
      acts := acts + [Begin];
    }

    /** The final snapshot: freeze, encode, release, write. */
    method SnapshotToFile(ok: bool, ghost pos: nat)
      requires Valid() && done.Idle?
      modifies this`file
      modifies core.state`epoch, core.state`frozenEpoch, core.state`frozenView, core.state`copied
      modifies core.state`copiedGroups
      ensures Valid() && done.Idle? && core.state.PartsOf(core.state.owned) == old(core.state.PartsOf(core.state.owned))
      ensures Sys(pos).process == old(Sys(pos)).process
      ensures Sys(pos).disk == if ok then Some(ImageOf(old(Sys(pos)).process)) else old(Sys(pos)).disk
    {
      hide *;
      SysMeans(pos);
      core.AbstractMeans();
      ImageMeans(Sys(pos).process);
      var snap := core.TakeSnapshot();
      Apart();
      label L:
      if ok {
        file := Some(snap);
      }
      core.Undisturbed@L();
      SysMeans(pos);
      Stored(core.state.hash, snap);
    }

    /** drain: wait for the write in flight, if any, then write the final snapshot. */
    method Drain(waited: bool, ok: bool, ghost cfg: Config, ghost log: seq<Rec>, ghost first: nat, ghost pos: nat)
      returns (ghost acts: seq<Action>)
      requires Valid()
      modifies this`done, this`file
      modifies core.state`epoch, core.state`frozenEpoch, core.state`frozenView, core.state`copied
      modifies core.state`copiedGroups
      ensures Valid() && core.state.PartsOf(core.state.owned) == old(core.state.PartsOf(core.state.owned))
      ensures !enabled ==> acts == [] && file == old(file)
      ensures enabled ==> done.Idle?
      ensures var st := From(cfg, log, first, old(Sys(pos)), acts);
              && Quiet(acts) && Sys(pos).process == st.process
              && acts == DrainPlan(Habits(), old(Beat()).phase, waited)
              && Sys(pos).disk == if enabled && ok then Some(ImageOf(st.process)) else st.disk
    {
      hide *;
      acts := [];
      FromNone(cfg, log, first, Sys(pos));
      BeatMeans();
      DrainMeans(Habits(), Beat().phase, waited);
      if !enabled {
        return;
      }
      if done.Running? {
        Write(waited, cfg, log, first, pos);
        FromSnoc(cfg, log, first, old(Sys(pos)), acts, WriteDone(waited));
        QuietSnoc(acts, WriteDone(waited));
        acts := acts + [WriteDone(waited)];
      }
      if done.Finished? {
        Finish(cfg, log, first, pos);
        FromSnoc(cfg, log, first, old(Sys(pos)), acts, Action.Finish);
        QuietSnoc(acts, Action.Finish);
        acts := acts + [Action.Finish];
      }
      SnapshotToFile(ok, pos);
    }
  }

  lemma FromNone(cfg: Config, log: seq<Rec>, first: nat, st: System)
    ensures From(cfg, log, first, st, []) == st && Quiet([]) && Deliveries([]) == 0
  {
  }

  lemma Stored(hash: string -> nat, snap: Snapshot)
    ensures FileImage(hash, Some(snap)) == Some(Image(Flatten(hash, snap.keyGroups), snap.watermark, snap.lastSeq))
    ensures forall members, watermark, lastSeq :: Stores(hash, snap, members, watermark, lastSeq) ==>
              && Readable(hash, snap) && Flatten(hash, snap.keyGroups) == members
              && snap.watermark == watermark && snap.lastSeq == lastSeq
  {
  }

  lemma ImageMeans(p: Process)
    requires p.Up?
    ensures ImageOf(p) == Image(p.shard.members, p.shard.watermark, p.lastSeq)
  {
  }

  lemma BeginMeans(cfg: Config, log: seq<Rec>, first: nat, st: System)
    requires st.process.Up? && st.process.inFlight.None?
    ensures var p := st.process;
            Step(cfg, log, first, st, Begin) ==
              st.(process :=
                p.(inFlight := Some(Image(p.shard.members, p.shard.watermark, p.lastSeq)), written := false))
  {
  }

  lemma DeliverMeans(cfg: Config, log: seq<Rec>, first: nat, st: System)
    requires st.process.Up? && st.process.pos < |log|
    ensures var p, r := st.process, log[st.process.pos];
            Step(cfg, log, first, st, Deliver) ==
              st.(process := match r.event
                             case None => p.(pos := p.pos + 1)
                             case Some(e) => p.(shard := Next(cfg, p.shard, e), lastSeq := r.seqno, pos := p.pos + 1))
  {
  }

  /** Only the snapshotter acts. */
  ghost predicate Quiet(acts: seq<Action>) {
    forall a :: a in acts ==> a.WriteDone? || a.Finish? || a.Begin?
  }

  lemma QuietMore(a: seq<Action>, b: seq<Action>)
    requires Quiet(a) && Quiet(b)
    ensures Quiet(a + b)
  {
  }

  /** The snapshotter changes no state and delivers nothing. */
  lemma {:induction false} QuietKeeps(cfg: Config, log: seq<Rec>, first: nat, st: System, acts: seq<Action>)
    requires Quiet(acts) && st.process.Up?
    ensures var p := From(cfg, log, first, st, acts).process;
            p.Up? && p.shard == st.process.shard && p.lastSeq == st.process.lastSeq
    ensures Deliveries(acts) == 0
    decreases |acts|
  {
    if acts != [] {
      var k := |acts| - 1;
      QuietKeeps(cfg, log, first, st, acts[..k]);
      assert acts[k] in acts && acts == acts[..k] + [acts[k]];
      DeliveriesAdd(acts[..k], [acts[k]]);
    }
  }

  // ---------- What a run applies and what reaches the late sink ----------

  /** What a run starts from: the state and the position it resumes with, the end of its replay, and
      whether it replays and has a late sink. */
  datatype Base = Base(shard: Shard, from: nat, target: int, began: bool, lateSink: bool)

  /** What one record adds to the late sink. */
  ghost function Sunk(s: Shard, r: Rec, lateSink: bool, replaying: bool): seq<Event> {
    if r.event.Some? && lateSink && !replaying && Late(s, r.event.value) then [r.event.value] else []
  }

  /** The state once the decodable records from the resume position up to `n` are applied. */
  ghost function ShardAt(cfg: Config, log: seq<Rec>, b: Base, n: nat): Shard
    requires b.from <= n <= |log|
  {
    if n == b.from then b.shard
    else
      var s := ShardAt(cfg, log, b, n - 1);
      match log[n - 1].event
      case None => s
      case Some(e) => Next(cfg, s, e)
  }

  /** Replay lasts until a record at or past the target has been applied. */
  ghost predicate Replays(log: seq<Rec>, b: Base, n: nat)
    requires b.from <= n <= |log|
  {
    b.began && forall i :: b.from <= i < n && log[i].event.Some? ==> log[i].seqno < b.target
  }

  /** Everything the run hands to the late sink before position `n`. */
  ghost function Diverted(cfg: Config, log: seq<Rec>, b: Base, n: nat): seq<Event>
    requires b.from <= n <= |log|
  {
    if n == b.from then []
    else
      Diverted(cfg, log, b, n - 1) + Sunk(ShardAt(cfg, log, b, n - 1), log[n - 1], b.lateSink, Replays(log, b, n - 1))
  }

  /** What a run knows of itself at a position. */
  ghost predicate Tracked(cfg: Config, log: seq<Rec>, b: Base, n: nat, replaying: bool, s: Shard, out: seq<Event>) {
    && b.from <= n <= |log|
    && s == ShardAt(cfg, log, b, n)
    && replaying == Replays(log, b, n)
    && out == Diverted(cfg, log, b, n)
  }

  lemma TrackNone(cfg: Config, log: seq<Rec>, b: Base)
    requires b.from <= |log|
    ensures Tracked(cfg, log, b, b.from, b.began, b.shard, [])
  {
  }

  lemma TrackMore(cfg: Config, log: seq<Rec>, b: Base, n: nat, replaying: bool, s: Shard, out: seq<Event>,
                  still: bool, t: Shard, more: seq<Event>)
    requires Tracked(cfg, log, b, n, replaying, s, out) && n < |log|
    requires still == (replaying && (log[n].event.None? || log[n].seqno < b.target))
    requires t == match log[n].event case None => s case Some(e) => Next(cfg, s, e)
    requires more == out + Sunk(s, log[n], b.lateSink, replaying)
    ensures Tracked(cfg, log, b, n + 1, still, t, more)
  {
    hide Next, Sunk;
    assert Replays(log, b, n + 1) <==> Replays(log, b, n) && (log[n].event.None? || log[n].seqno < b.target);
  }

  /** The record at position `i` reaches the late sink. */
  ghost predicate Diverts(cfg: Config, log: seq<Rec>, b: Base, i: nat)
    requires b.from <= i < |log|
  {
    && log[i].event.Some? && b.lateSink
    && Late(ShardAt(cfg, log, b, i), log[i].event.value) && !Replays(log, b, i)
  }

  /** The late sink receives exactly the late records applied outside replay. */
  lemma {:induction false} DivertedIff(cfg: Config, log: seq<Rec>, b: Base, n: nat, e: Event)
    requires b.from <= n <= |log|
    ensures e in Diverted(cfg, log, b, n) <==>
              exists i :: b.from <= i < n && Diverts(cfg, log, b, i) && log[i].event == Some(e)
    decreases n
  {
    hide ShardAt, Replays, Late;
    if b.from < n {
      DivertedIff(cfg, log, b, n - 1, e);
      if e in Sunk(ShardAt(cfg, log, b, n - 1), log[n - 1], b.lateSink, Replays(log, b, n - 1)) {
        assert Diverts(cfg, log, b, n - 1);
      }
    }
  }

  /** Every record up to the target is applied with the late sink silenced, the target with it, and of
      the decodable records beyond the target at most one is: the first, when the target itself was not
      applied. */
  lemma ReplayIsSilent(log: seq<Rec>, first: nat, b: Base)
    requires Numbered(log, first) && b.began
    ensures forall i :: b.from <= i < |log| && log[i].seqno <= b.target ==> Replays(log, b, i)
    ensures forall i, j :: b.from <= i < j < |log| && log[i].event.Some? && log[i].seqno >= b.target ==>
              !Replays(log, b, j)
  {
    forall i, j | b.from <= i < j < |log| && log[i].event.Some? && log[i].seqno >= b.target
      ensures !Replays(log, b, j)
    {
    }
  }

  /** A run that resumes in step diverts what the uninterrupted run would find late. */
  lemma {:induction false} ShardAtIsReference(cfg: Config, log: seq<Rec>, b: Base, n: nat)
    requires Proper(cfg.patterns) && b.from <= n <= |log|
    requires SameButQueue(b.shard, Reference(cfg, log, b.from)) && Inv(cfg, b.shard)
    ensures SameButQueue(ShardAt(cfg, log, b, n), Reference(cfg, log, n)) && Inv(cfg, ShardAt(cfg, log, b, n))
    decreases n
  {
    hide Next, Inv, Run, Proper;
    if b.from < n {
      ShardAtIsReference(cfg, log, b, n - 1);
      var s := ShardAt(cfg, log, b, n - 1);
      match log[n - 1].event {
        case None => AppliedUpTo(log, n - 1, n);
        case Some(e) => ApplyKeepsStep(cfg, log, n - 1, s, e);
      }
    }
  }

  lemma DivertsIsReference(cfg: Config, log: seq<Rec>, b: Base, i: nat)
    requires Proper(cfg.patterns) && b.from <= i < |log|
    requires SameButQueue(b.shard, Reference(cfg, log, b.from)) && Inv(cfg, b.shard)
    ensures Diverts(cfg, log, b, i) <==>
              log[i].event.Some? && b.lateSink && Late(Reference(cfg, log, i), log[i].event.value)
                  && !Replays(log, b, i)
  {
    hide Inv, Proper, Run;
    ShardAtIsReference(cfg, log, b, i);
  }

  // ---------- One record ----------

  /** A decodable record: process its event, then remember its number. */
  method Process(s: AsyncSnapshotter, e: Event, n: nat, ghost log: seq<Rec>, ghost first: nat, ghost pos: nat)
    requires s.Valid() && pos < |log| && log[pos] == Rec(n, Some(e))
    modifies s.core`watermark, s.core`negDeadlines, s.core`sideOutput, s.core`lastSeq
    modifies s.core.state`keyGroups, s.core.state`groups, s.core.state`copiedGroups, s.core.state`owned
    modifies s.core.state`copied, s.core.state.groups, s.core.state.PartsOf(s.core.state.owned)
    ensures s.Valid() && unchanged(s) && unchanged(s.core`patterns, s.core`replaying)
    ensures s.Sys(pos + 1) == Step(s.core.Cfg(), log, first, old(s.Sys(pos)), Deliver)
    ensures s.core.Abstract() == Next(s.core.Cfg(), old(s.core.Abstract()), e)
    ensures s.core.sideOutput ==
              old(s.core.sideOutput) + Sunk(old(s.core.Abstract()), log[pos], s.core.lateSink, s.core.replaying)
    ensures forall g :: g in s.core.state.groups ==> g in old(s.core.state.groups) || fresh(g)
    ensures forall o :: o in s.core.state.PartsOf(s.core.state.owned) ==>
              o in old(s.core.state.PartsOf(s.core.state.owned)) || fresh(o)
  {
    hide *;
    s.Apart();
    s.core.AbstractMeans();
    s.SysMeans(pos);
    SunkMeans(s.core.Abstract(), log[pos], s.core.lateSink, s.core.replaying);
    s.core.ApplyRecord(e, n);
    s.core.AbstractMeans();
    s.AfterRecord(e, n, log, first, pos);
  }

  lemma SunkMeans(s: Shard, r: Rec, lateSink: bool, replaying: bool)
    ensures Sunk(s, r, lateSink, replaying) ==
              if r.event.Some? && Late(s, r.event.value) && lateSink && !replaying then [r.event.value] else []
  {
  }

  /** Set the replay flag; nothing else moves. */
  method Replaying(s: AsyncSnapshotter, on: bool, ghost pos: nat)
    requires s.Valid()
    modifies s.core`replaying
    ensures s.Valid() && s.Sys(pos) == old(s.Sys(pos)) && s.core.replaying == on
    ensures s.core.Abstract() == old(s.core.Abstract())
    ensures s.core.state.PartsOf(s.core.state.owned) == old(s.core.state.PartsOf(s.core.state.owned))
  {
    hide *;
    s.SysMeans(pos);
    s.core.AbstractMeans();
    s.core.SetReplaying(on);
    s.core.AbstractMeans();
    s.SysMeans(pos);
  }

  /** A record that does not decode is dropped. */
  lemma SkipMeans(s: AsyncSnapshotter, cfg: Config, log: seq<Rec>, first: nat, pos: nat)
    requires pos < |log| && log[pos].event.None?
    ensures s.Sys(pos + 1) == Step(cfg, log, first, s.Sys(pos), Deliver)
  {
    s.SysMeans(pos);
    s.SysMeans(pos + 1);
    DeliverMeans(cfg, log, first, s.Sys(pos));
  }

  /** One delivered record: decode, process, remember its number, end the replay at the target. */
  method Receive(s: AsyncSnapshotter, r: Rec, replaying: bool, target: int,
                 ghost log: seq<Rec>, ghost first: nat, ghost pos: nat)
    returns (still: bool)
    requires s.Valid() && pos < |log| && log[pos] == r && s.core.replaying == replaying
    modifies s.core, s.core.state, s.core.state.groups, s.core.state.PartsOf(s.core.state.owned)
    ensures s.Valid() && unchanged(s) && unchanged(s.core`patterns)
    ensures s.Sys(pos + 1) == Step(s.core.Cfg(), log, first, old(s.Sys(pos)), Deliver)
    ensures still == s.core.replaying == (replaying && (r.event.None? || r.seqno < target))
    ensures s.core.Abstract() ==
              match r.event
              case None => old(s.core.Abstract())
              case Some(e) => Next(s.core.Cfg(), old(s.core.Abstract()), e)
    ensures s.core.sideOutput ==
              old(s.core.sideOutput) + Sunk(old(s.core.Abstract()), r, s.core.lateSink, replaying)
    ensures forall g :: g in s.core.state.groups ==> g in old(s.core.state.groups) || fresh(g)
    ensures forall o :: o in s.core.state.PartsOf(s.core.state.owned) ==>
              o in old(s.core.state.PartsOf(s.core.state.owned)) || fresh(o)
  {
    hide *;
    still := replaying;
    match r.event {
      case None =>
        SkipMeans(s, s.core.Cfg(), log, first, pos);
        SunkMeans(s.core.Abstract(), r, s.core.lateSink, replaying);
      case Some(e) =>
        Process(s, e, r.seqno, log, first, pos);
        s.core.AbstractMeans();
        if replaying && r.seqno >= target {
          Replaying(s, false, pos + 1);
          s.core.AbstractMeans();
          still := false;
        }
    }
  }

  /** The end of a turn: the background goroutine runs when it runs, then the loop ticks. */
  method Settle(s: AsyncSnapshotter, wake: Wake, ghost cfg: Config, ghost log: seq<Rec>, ghost first: nat,
                ghost pos: nat)
    returns (ghost acts: seq<Action>)
    requires s.Valid()
    modifies s, s.core.state`epoch, s.core.state`frozenEpoch, s.core.state`frozenView
    modifies s.core.state`copied, s.core.state`copiedGroups
    ensures s.Valid() && s.Sys(pos) == From(cfg, log, first, old(s.Sys(pos)), acts) && Deliveries(acts) == 0
    ensures s.core.Abstract() == old(s.core.Abstract())
    ensures Plan(acts, s.Beat()) == TurnPlan(s.Habits(), old(s.Beat()), wake)
    ensures s.core.state.PartsOf(s.core.state.owned) == old(s.core.state.PartsOf(s.core.state.owned))
  {
    hide *;
    acts := [];
    FromNone(cfg, log, first, s.Sys(pos));
    s.SysMeans(pos);
    s.BeatMeans();
    TurnMeans(s.Habits(), s.Beat(), wake);
    ghost var st := s.Sys(pos);
    if wake.write.Some? && s.done.Running? {
      s.Write(wake.write.value, cfg, log, first, pos);
      FromSnoc(cfg, log, first, st, acts, WriteDone(wake.write.value));
      QuietSnoc(acts, WriteDone(wake.write.value));
      acts := acts + [WriteDone(wake.write.value)];
      s.BeatMeans();
    }
    ghost var more := s.Tick(wake.now, cfg, log, first, pos);
    FromConcat(cfg, log, first, st, acts, more);
    QuietMore(acts, more);
    acts := acts + more;
    QuietKeeps(cfg, log, first, st, acts);
    s.SysMeans(pos);
  }

  lemma QuietSnoc(acts: seq<Action>, a: Action)
    requires Quiet(acts) && (a.WriteDone? || a.Finish? || a.Begin?)
    ensures Quiet(acts + [a])
  {
  }

  /** The start of both runs: restore the file if there is one, and resume after its last record. */
  method Boot(s: AsyncSnapshotter, ghost log: seq<Rec>, first: nat) returns (start: nat)
    requires s.Valid() && s.done.Idle? && s.core.Abstract() == FRESH && s.core.lastSeq == 0
    requires s.file.Some? ==> s.enabled
    modifies s.core`watermark, s.core`lastSeq, s.core`negDeadlines
    modifies s.core.state`keyGroups, s.core.state`groups, s.core.state`owned
    ensures s.Valid()
    ensures start == if s.file.None? then first else s.file.value.lastSeq + 1
    ensures s.Sys(First(log, start)) ==
              Step(s.core.Cfg(), log, first, System(Down, FileImage(s.core.state.hash, s.file)), Restart)
    ensures forall g :: g in s.core.state.groups ==> g in old(s.core.state.groups) || fresh(g)
    ensures forall o :: o in s.core.state.PartsOf(s.core.state.owned) ==>
              o in old(s.core.state.PartsOf(s.core.state.owned)) || fresh(o)
  {
    RestartMeans(s.core.Cfg(), log, first, s.core.state.hash, s.file);
    FileMeans(s.core.state.hash, s.file);
    hide *;
    s.SysMeans(First(log, first));
    start := first;
    if s.enabled {
      if s.file.Some? {
        var r := s.core.Restore(s.file.value);
        start := r.lastSeq + 1;
      }
    }
    s.SysMeans(First(log, start));
  }

  lemma FileMeans(hash: string -> nat, file: Option<Snapshot>)
    ensures file.Some? && Readable(hash, file.value) ==>
      Placed(hash, file.value.keyGroups) && forall i :: i in file.value.keyGroups ==> 0 <= i < NUM_KEY_GROUPS
  {
  }

  lemma RestartMeans(cfg: Config, log: seq<Rec>, first: nat, hash: string -> nat, file: Option<Snapshot>)
    ensures var disk := FileImage(hash, file);
            Step(cfg, log, first, System(Down, disk), Restart) == System(
              if file.None? then Up(FRESH, 0, First(log, first), None, false)
              else var members := Flatten(hash, file.value.keyGroups);
                   Up(Shard(members, file.value.watermark, Rebuilt(members)), file.value.lastSeq,
                      First(log, file.value.lastSeq + 1), None, false),
              disk)
  {
  }

  lemma FromOne(cfg: Config, log: seq<Rec>, first: nat, st: System, a: Action)
    ensures From(cfg, log, first, st, [a]) == Step(cfg, log, first, st, a)
    ensures Deliveries([a]) == if a.Deliver? then 1 else 0
  {
    hide Step;
    assert [a] == [] + [a];
    FromSnoc(cfg, log, first, st, [], a);
  }

  /** The protocol's view of a life that is over. */
  ghost function Over(s: AsyncSnapshotter): System
    reads s, s.core, s.core.state
  {
    System(Down, FileImage(s.core.state.hash, s.file))
  }

  /** The end of both runs. */
  method End(s: AsyncSnapshotter, stop: Stop, ghost log: seq<Rec>, ghost first: nat, ghost pos: nat)
    returns (ghost acts: seq<Action>)
    requires s.Valid()
    modifies s, s.core.state`epoch, s.core.state`frozenEpoch, s.core.state`frozenView
    modifies s.core.state`copied, s.core.state`copiedGroups
    ensures s.Valid() && Over(s) == From(s.core.Cfg(), log, first, old(s.Sys(pos)), acts)
    ensures s.core.Abstract() == old(s.core.Abstract()) && Deliveries(acts) == 0
    ensures acts == EndPlan(s.Habits(), old(s.Beat()).phase, stop)
  {
    ghost var cfg, st := s.core.Cfg(), s.Sys(pos);
    hide *;
    s.core.AbstractMeans();
    s.SysMeans(pos);
    acts := [];
    FromNone(cfg, log, first, st);
    s.BeatMeans();
    EndMeans(s.Habits(), s.Beat().phase, stop);
    ghost var mid := st;
    if stop.Clean? {
      acts := Checkpoint(s, stop.waited, stop.ok, cfg, log, first, pos);
      mid := From(cfg, log, first, st, acts);
    }
    acts := Stopped(s, stop, cfg, log, first, st, mid, acts);
  }

  /** The final snapshot of a clean stop, seen from the protocol. */
  method Checkpoint(s: AsyncSnapshotter, waited: bool, ok: bool,
                    ghost cfg: Config, ghost log: seq<Rec>, ghost first: nat, ghost pos: nat)
    returns (ghost acts: seq<Action>)
    requires s.Valid()
    modifies s`done, s`file, s.core.state`epoch, s.core.state`frozenEpoch, s.core.state`frozenView
    modifies s.core.state`copied, s.core.state`copiedGroups
    ensures s.Valid() && s.core.Abstract() == old(s.core.Abstract()) && s.core.Cfg() == old(s.core.Cfg())
    ensures acts == DrainPlan(s.Habits(), old(s.Beat()).phase, waited)
    ensures var mid := From(cfg, log, first, old(s.Sys(pos)), acts);
            && mid.process.Up? && Deliveries(acts) == 0 && (s.enabled ==> mid.process.inFlight.None?)
            && FileImage(s.core.state.hash, s.file) == if s.enabled && ok then Some(ImageOf(mid.process)) else mid.disk
  {
    hide *;
    s.SysMeans(pos);
    s.core.AbstractMeans();
    ghost var st := s.Sys(pos);
    acts := s.Drain(waited, ok, cfg, log, first, pos);
    s.SysMeans(pos);
    s.core.AbstractMeans();
    QuietKeeps(cfg, log, first, st, acts);
  }

  /** The last action of a life. */
  lemma Stopped(s: AsyncSnapshotter, stop: Stop, cfg: Config, log: seq<Rec>, first: nat, st: System, mid: System,
                quiet: seq<Action>)
    returns (acts: seq<Action>)
    requires mid == From(cfg, log, first, st, quiet) && mid.process.Up? && Deliveries(quiet) == 0
    requires stop.Clean? && s.enabled ==> mid.process.inFlight.None?
    requires FileImage(s.core.state.hash, s.file) ==
               if stop.Clean? && s.enabled && stop.ok then Some(ImageOf(mid.process)) else mid.disk
    ensures Over(s) == From(cfg, log, first, st, acts) && Deliveries(acts) == 0
    ensures acts == quiet + [if stop.Clean? && stop.ok && s.enabled then Shutdown else Crash]
  {
    hide *;
    var a := if stop.Clean? && stop.ok && s.enabled then Shutdown else Crash;
    LastMeans(cfg, log, first, mid, a);
    FromSnoc(cfg, log, first, st, quiet, a);
    DeliveriesSnoc(quiet, a);
    acts := quiet + [a];
    OverMeans(s);
  }

  lemma DeliveriesSnoc(acts: seq<Action>, a: Action)
    ensures Deliveries(acts + [a]) == Deliveries(acts) + if a.Deliver? then 1 else 0
  {
    DeliveriesAdd(acts, [a]);
  }

  lemma OverMeans(s: AsyncSnapshotter)
    ensures Over(s) == System(Down, FileImage(s.core.state.hash, s.file))
  {
  }

  lemma LastMeans(cfg: Config, log: seq<Rec>, first: nat, st: System, a: Action)
    requires st.process.Up?
    ensures a.Crash? ==> Step(cfg, log, first, st, a) == System(Down, st.disk)
    ensures a.Shutdown? && st.process.inFlight.None? ==>
              Step(cfg, log, first, st, a) == System(Down, Some(ImageOf(st.process)))
  {
  }

  // ---------- What a run promises ----------

  function Min(a: nat, b: nat): nat { if a < b then a else b }

  /** The number the source is asked to resume with. */
  ghost function StartNumber(disk: Option<Image>, first: nat): nat {
    match disk case None => first case Some(i) => i.lastSeq + 1
  }

  /** What a run over this file starts from. */
  ghost function BaseOf(log: seq<Rec>, first: nat, disk: Option<Image>, target: int, lateSink: bool): Base {
    var p := Resumed(log, first, disk);
    Base(p.shard, p.pos, target, target >= first && StartNumber(disk, first) <= target, lateSink)
  }

  lemma BaseMeans(cfg: Config, log: seq<Rec>, first: nat, disk: Option<Image>, target: int, lateSink: bool)
    ensures var b, st := BaseOf(log, first, disk, target, lateSink), Step(cfg, log, first, System(Down, disk), Restart);
            && b.from == First(log, StartNumber(disk, first)) <= |log|
            && b.target == target && b.lateSink == lateSink
            && b.began == (target >= first && StartNumber(disk, first) <= target)
            && st.process.Up? && st.process.shard == b.shard && st.process.pos == b.from && st.disk == disk
  {
  }

  /** The promise of both runs. Whatever happens beside the loop and however it ends, a run is one life
      of the protocol: it restarts from the file, follows its plan, and ends. It has applied every record
      up to `pos` once and in order, the core is where these records lead, and the late sink has received
      exactly the late ones applied outside replay. */
  ghost predicate Lived(s: AsyncSnapshotter, log: seq<Rec>, first: nat, before: System, b: Base, pos: nat, stop: Stop,
                        plan: Plan)
    reads s, s.core, s.core.state, s.core.state.GroupsOf(s.core.state.keyGroups)
    reads s.core.state.MembersOf(s.core.state.keyGroups)
    reads s.core.state.AggsOf(s.core.state.MembersOf(s.core.state.keyGroups))
    reads s.core.state.PartsOf(s.core.state.MembersOf(s.core.state.keyGroups))
  {
    && Over(s) == From(s.core.Cfg(), log, first, before, LifePlan(s.Habits(), plan, stop))
    && b.from <= pos <= |log| && Deliveries(LifePlan(s.Habits(), plan, stop)) == pos - b.from
    && s.core.Abstract() == ShardAt(s.core.Cfg(), log, b, pos)
    && s.core.replaying == Replays(log, b, pos)
    && s.core.sideOutput == Diverted(s.core.Cfg(), log, b, pos)
  }

  /** Resuming from a consistent file puts the run in step with the uninterrupted one. */
  lemma BaseIsReference(cfg: Config, log: seq<Rec>, first: nat, before: System, target: int, lateSink: bool)
    requires Proper(cfg.patterns) && Numbered(log, first) && Consistent(cfg, log, before)
    ensures var b := BaseOf(log, first, before.disk, target, lateSink);
            b.from <= |log| && SameButQueue(b.shard, Reference(cfg, log, b.from)) && Inv(cfg, b.shard)
  {
    hide Inv, Run, Proper, Numbered, ImageOK;
    RestartIsInStep(cfg, log, first, before.disk);
  }

  /** A run begins in replay exactly when a record up to the target is still ahead of it. The target is
      the number of some record, or lies before all numbers when the log was empty. */
  lemma BeginsInReplayIff(log: seq<Rec>, first: nat, disk: Option<Image>, target: int, lateSink: bool)
    requires Numbered(log, first) && (target < first || exists k :: 0 <= k < |log| && log[k].seqno == target)
    ensures var b := BaseOf(log, first, disk, target, lateSink);
            b.began <==> exists i :: b.from <= i < |log| && log[i].seqno <= target
  {
    hide Rebuilt;
    FirstMeans(log, StartNumber(disk, first));
  }

  /** So nothing up to the target is diverted, whatever file the run starts from. */
  lemma NothingOldIsDiverted(cfg: Config, log: seq<Rec>, first: nat, disk: Option<Image>, target: int, lateSink: bool,
                             i: nat)
    requires Numbered(log, first) && (target < first || exists k :: 0 <= k < |log| && log[k].seqno == target)
    requires BaseOf(log, first, disk, target, lateSink).from <= i < |log| && log[i].seqno <= target
    ensures !Diverts(cfg, log, BaseOf(log, first, disk, target, lateSink), i)
  {
    var b := BaseOf(log, first, disk, target, lateSink);
    BeginsInReplayIff(log, first, disk, target, lateSink);
    hide BaseOf, ShardAt, Late;
    BaseHasTarget(log, first, disk, target, lateSink);
    ReplayIsSilent(log, first, b);
  }

  lemma BaseHasTarget(log: seq<Rec>, first: nat, disk: Option<Image>, target: int, lateSink: bool)
    ensures target >= 0 ==> BaseOf(log, first, disk, target, lateSink).target == target
  {
  }

  // ---------- The loops ----------

  /** The state of a loop at a position: it has followed the plan from `st`, and knows its run. */
  ghost predicate Underway(s: AsyncSnapshotter, cfg: Config, log: seq<Rec>, first: nat, b: Base, st: System,
                           plan: Plan, at: nat, replaying: bool)
    reads s, s.core, s.core.state, s.core.state.groups, s.core.state.owned
    reads s.core.state.AggsOf(s.core.state.owned)
    reads s.core.state.GroupsOf(s.core.state.frozenView), s.core.state.GroupsOf(s.core.state.keyGroups)
    reads s.core.state.MembersOf(s.core.state.frozenView)
    reads s.core.state.AggsOf(s.core.state.MembersOf(s.core.state.frozenView))
    reads s.core.state.PartsOf(s.core.state.MembersOf(s.core.state.frozenView))
    reads s.core.state.MembersOf(s.core.state.keyGroups)
    reads s.core.state.AggsOf(s.core.state.MembersOf(s.core.state.keyGroups))
    reads s.core.state.PartsOf(s.core.state.MembersOf(s.core.state.keyGroups))
  {
    && s.Valid() && s.core.Cfg() == cfg && s.core.replaying == replaying && b.lateSink == s.core.lateSink
    && s.Sys(at) == From(cfg, log, first, st, plan.acts) && Deliveries(plan.acts) == at - b.from
    && s.Beat() == plan.pace
    && Tracked(cfg, log, b, at, replaying, s.core.Abstract(), s.core.sideOutput)
  }

  lemma UnderwayMeans(s: AsyncSnapshotter, cfg: Config, log: seq<Rec>, first: nat, b: Base, st: System,
                      plan: Plan, at: nat, replaying: bool)
    ensures Underway(s, cfg, log, first, b, st, plan, at, replaying) <==>
              && s.Valid() && s.core.Cfg() == cfg && s.core.replaying == replaying && b.lateSink == s.core.lateSink
              && s.Sys(at) == From(cfg, log, first, st, plan.acts) && Deliveries(plan.acts) == at - b.from
              && s.Beat() == plan.pace
              && Tracked(cfg, log, b, at, replaying, s.core.Abstract(), s.core.sideOutput)
  {
    hide AsyncSnapshotter.Valid, AsyncSnapshotter.Sys, AsyncSnapshotter.Beat, Core.Cfg, Core.Abstract, From;
    hide Deliveries, Tracked;
  }

  // ---------- NATS ----------

  /** One message of the NATS loop: receive it, and unless it was malformed let the turn end. */
  method NatsTurn(s: AsyncSnapshotter, r: Rec, wake: Wake, replaying: bool, target: int,
                  ghost log: seq<Rec>, ghost pos: nat)
    returns (still: bool, ghost acts: seq<Action>)
    requires s.Valid() && pos < |log| && log[pos] == r && s.core.replaying == replaying
    modifies s, s.core, s.core.state, s.core.state.groups, s.core.state.PartsOf(s.core.state.owned)
    ensures s.Valid() && s.core.Cfg() == old(s.core.Cfg())
    ensures s.Sys(pos + 1) == From(s.core.Cfg(), log, NATS, old(s.Sys(pos)), acts) && Deliveries(acts) == 1
    ensures Plan(acts, s.Beat()) == MessagePlan(s.Habits(), old(s.Beat()), r, wake)
    ensures still == s.core.replaying == (replaying && (r.event.None? || r.seqno < target))
    ensures s.core.Abstract() ==
              match r.event
              case None => old(s.core.Abstract())
              case Some(e) => Next(s.core.Cfg(), old(s.core.Abstract()), e)
    ensures s.core.sideOutput ==
              old(s.core.sideOutput) + Sunk(old(s.core.Abstract()), r, s.core.lateSink, replaying)
    ensures forall g :: g in s.core.state.groups ==> g in old(s.core.state.groups) || fresh(g)
    ensures forall o :: o in s.core.state.PartsOf(s.core.state.owned) ==>
              o in old(s.core.state.PartsOf(s.core.state.owned)) || fresh(o)
  {
    hide *;
    s.core.AbstractMeans();
    ghost var cfg, st := s.core.Cfg(), s.Sys(pos);
    FromOne(cfg, log, NATS, st, Deliver);
    MessageMeans(s.Habits(), s.Beat(), r, wake);
    s.BeatMeans();
    still := Receive(s, r, replaying, target, log, NATS, pos);
    s.core.AbstractMeans();
    s.BeatMeans();
    acts := [Deliver];
    if r.event.Some? {
      ghost var more := Settle(s, wake, cfg, log, NATS, pos + 1);
      s.core.AbstractMeans();
      FromConcat(cfg, log, NATS, st, [Deliver], more);
      DeliveriesAdd([Deliver], more);
      acts := acts + more;
    }
  }

  /** One turn of the NATS loop, with what the run knows of itself. */
  method NatsMessage(s: AsyncSnapshotter, log: seq<Rec>, at: nat, wake: Wake, replaying: bool, target: int,
                     ghost cfg: Config, ghost b: Base, ghost st: System, ghost plan: Plan)
    returns (still: bool, ghost plan': Plan)
    requires Underway(s, cfg, log, NATS, b, st, plan, at, replaying) && b.target == target && at < |log|
    modifies s, s.core, s.core.state, s.core.state.groups, s.core.state.PartsOf(s.core.state.owned)
    ensures Underway(s, cfg, log, NATS, b, st, plan', at + 1, still)
    ensures plan' == Extend(plan, MessagePlan(s.Habits(), plan.pace, log[at], wake))
    ensures forall g :: g in s.core.state.groups ==> g in old(s.core.state.groups) || fresh(g)
    ensures forall o :: o in s.core.state.PartsOf(s.core.state.owned) ==>
              o in old(s.core.state.PartsOf(s.core.state.owned)) || fresh(o)
  {
    hide *;
    UnderwayMeans(s, cfg, log, NATS, b, st, plan, at, replaying);
    ghost var shard, out, more := s.core.Abstract(), s.core.sideOutput, [];
    still, more := NatsTurn(s, log[at], wake, replaying, target, log, at);
    TrackMore(cfg, log, b, at, replaying, shard, out, still, s.core.Abstract(), s.core.sideOutput);
    FromConcat(cfg, log, NATS, st, plan.acts, more);
    DeliveriesAdd(plan.acts, more);
    ExtendMeans(plan, Plan(more, s.Beat()));
    plan' := Plan(plan.acts + more, s.Beat());
    UnderwayMeans(s, cfg, log, NATS, b, st, plan', at + 1, still);
  }

  lemma ExtendMeans(p: Plan, q: Plan)
    ensures Extend(p, q) == Plan(p.acts + q.acts, q.pace)
  {
  }

  /** The main loop of the NATS consumer, for as many messages as there are wakes. */
  method NatsLoop(s: AsyncSnapshotter, log: seq<Rec>, target: int, wakes: seq<Wake>, from: nat, silent: bool,
                  ghost cfg: Config, ghost b: Base, ghost st: System, ghost start: Pace)
    returns (ghost plan: Plan, pos: nat, replaying: bool)
    requires Underway(s, cfg, log, NATS, b, st, Plan([], start), from, silent) && b.target == target && from <= |log|
    modifies s, s.core, s.core.state, s.core.state.groups, s.core.state.PartsOf(s.core.state.owned)
    ensures Underway(s, cfg, log, NATS, b, st, plan, pos, replaying) && pos == Min(|log|, from + |wakes|)
    ensures from <= pos <= |log| && pos - from <= |wakes|
    ensures plan == NatsPlan(s.Habits(), log, from, wakes, start, pos - from)
    ensures forall g :: g in s.core.state.groups ==> g in old(s.core.state.groups) || fresh(g)
    ensures forall o :: o in s.core.state.PartsOf(s.core.state.owned) ==>
              o in old(s.core.state.PartsOf(s.core.state.owned)) || fresh(o)
  {
    hide *;
    pos, plan, replaying := from, Plan([], start), silent;
    MinMeans(|log|, from + |wakes|);
    NatsNone(s.Habits(), log, from, wakes, start);
    while pos < |log| && pos - from < |wakes|
      invariant Underway(s, cfg, log, NATS, b, st, plan, pos, replaying)
      invariant from <= pos <= |log| && pos - from <= |wakes|
      invariant plan == NatsPlan(s.Habits(), log, from, wakes, start, pos - from)
      invariant forall g :: g in s.core.state.groups ==> g in old(s.core.state.groups) || fresh(g)
      invariant forall o :: o in s.core.state.PartsOf(s.core.state.owned) ==>
                  o in old(s.core.state.PartsOf(s.core.state.owned)) || fresh(o)
      decreases |log| - pos
    {
      NatsMore(s.Habits(), log, from, wakes, start, pos - from);
      replaying, plan := NatsMessage(s, log, pos, wakes[pos - from], replaying, target, cfg, b, st, plan);
      pos := pos + 1;
    }
  }

  lemma NatsNone(h: Habit, log: seq<Rec>, from: nat, wakes: seq<Wake>, start: Pace)
    requires from <= |log|
    ensures NatsPlan(h, log, from, wakes, start, 0) == Plan([], start)
  {
  }

  lemma NatsMore(h: Habit, log: seq<Rec>, from: nat, wakes: seq<Wake>, start: Pace, n: nat)
    requires from + n < |log| && n < |wakes|
    ensures var p := NatsPlan(h, log, from, wakes, start, n);
            NatsPlan(h, log, from, wakes, start, n + 1) == Extend(p, MessagePlan(h, p.pace, log[from + n], wakes[n]))
  {
    hide MessagePlan, Extend;
  }

  lemma MinMeans(a: nat, b: nat)
    ensures Min(a, b) == if a < b then a else b
  {
  }

  /** Restore, compare with the end of the log, and silence the late sink if there is a replay ahead. */
  method StartUp(s: AsyncSnapshotter, ghost log: seq<Rec>, first: nat, target: int)
    returns (start: nat, replaying: bool, ghost b: Base)
    requires s.Valid() && s.done.Idle? && s.core.Abstract() == FRESH && s.core.lastSeq == 0
    requires (s.file.Some? ==> s.enabled) && !s.core.replaying && s.core.sideOutput == []
    modifies s.core`watermark, s.core`lastSeq, s.core`negDeadlines, s.core`replaying
    modifies s.core.state`keyGroups, s.core.state`groups, s.core.state`owned
    ensures b == BaseOf(log, first, FileImage(s.core.state.hash, s.file), target, s.core.lateSink)
    ensures b.from == First(log, start) <= |log| && b.target == target && s.core.Cfg() == old(s.core.Cfg())
    ensures var st := Step(s.core.Cfg(), log, first, System(Down, FileImage(s.core.state.hash, s.file)), Restart);
            Underway(s, s.core.Cfg(), log, first, b, st, Plan([], Pace(s.last, AtRest)), b.from, replaying)
    ensures forall g :: g in s.core.state.groups ==> g in old(s.core.state.groups) || fresh(g)
    ensures forall o :: o in s.core.state.PartsOf(s.core.state.owned) ==>
              o in old(s.core.state.PartsOf(s.core.state.owned)) || fresh(o)
  {
    hide *;
    StartMeans(s.core.state.hash, s.file, first);
    BaseMeans(s.core.Cfg(), log, first, FileImage(s.core.state.hash, s.file), target, s.core.lateSink);
    b := BaseOf(log, first, FileImage(s.core.state.hash, s.file), target, s.core.lateSink);
    s.core.AbstractMeans();
    ghost var cfg := s.core.Cfg();
    ghost var st := Step(cfg, log, first, System(Down, FileImage(s.core.state.hash, s.file)), Restart);
    start := Boot(s, log, first);
    s.core.AbstractMeans();
    s.SysMeans(First(log, start));
    replaying := target >= first && start <= target;
    if replaying {
      Replaying(s, true, First(log, start));
      s.core.AbstractMeans();
    }
    TrackNone(cfg, log, b);
    FromNone(cfg, log, first, st);
    s.BeatMeans();
    UnderwayMeans(s, cfg, log, first, b, st, Plan([], Pace(s.last, AtRest)), b.from, replaying);
  }

  lemma StartMeans(hash: string -> nat, file: Option<Snapshot>, first: nat)
    ensures StartNumber(FileImage(hash, file), first) == if file.None? then first else file.value.lastSeq + 1
  {
  }

  /** The last step of a run: the whole of it is one life of the protocol. */
  method Finale(s: AsyncSnapshotter, stop: Stop, ghost cfg: Config, ghost log: seq<Rec>, ghost first: nat,
                ghost before: System, ghost b: Base, ghost plan: Plan, ghost pos: nat)
    requires Underway(s, cfg, log, first, b, Step(cfg, log, first, before, Restart), plan, pos, s.core.replaying)
    modifies s, s.core.state`epoch, s.core.state`frozenEpoch, s.core.state`frozenView
    modifies s.core.state`copied, s.core.state`copiedGroups
    ensures s.Valid() && s.core.Cfg() == cfg && Lived(s, log, first, before, b, pos, stop, plan)
  {
    hide *;
    UnderwayMeans(s, cfg, log, first, b, Step(cfg, log, first, before, Restart), plan, pos, s.core.replaying);
    s.core.AbstractMeans();
    LifeMeans(s.Habits(), plan, stop);
    ghost var last := End(s, stop, log, first, pos);
    s.core.AbstractMeans();
    FromOne(cfg, log, first, before, Restart);
    FromConcat(cfg, log, first, before, [Restart], plan.acts);
    FromConcat(cfg, log, first, before, [Restart] + plan.acts, last);
    DeliveriesAdd([Restart], plan.acts);
    DeliveriesAdd([Restart] + plan.acts, last);
    LivedMeans(s, cfg, log, first, before, b, pos, stop, plan);
  }

  lemma LifeMeans(h: Habit, p: Plan, stop: Stop)
    ensures LifePlan(h, p, stop) == [Restart] + p.acts + EndPlan(h, p.pace.phase, stop)
  {
  }

  lemma LivedMeans(s: AsyncSnapshotter, cfg: Config, log: seq<Rec>, first: nat, before: System, b: Base, pos: nat,
                   stop: Stop, plan: Plan)
    requires var acts := LifePlan(s.Habits(), plan, stop);
             cfg == s.core.Cfg() && Over(s) == From(cfg, log, first, before, acts) && Deliveries(acts) == pos - b.from
    requires Tracked(cfg, log, b, pos, s.core.replaying, s.core.Abstract(), s.core.sideOutput)
    ensures Lived(s, log, first, before, b, pos, stop, plan)
  {
    hide Core.Abstract, Core.Cfg, From, Over, ShardAt, Diverted, Replays, Deliveries, LifePlan;
  }

  /** Run, the NATS consumer: restore, replay up to the target, process one message per wake, checkpoint.
      Every message the log holds is applied, until the wakes run out, and every due tick begins a
      snapshot (`NatsPlan`). Whatever came before, if the file was the image of one prefix of the log it
      still is, so it is after any number of runs. */
  method NatsRun(s: AsyncSnapshotter, log: seq<Rec>, target: nat, wakes: seq<Wake>, stop: Stop)
    returns (ghost plan: Plan, ghost b: Base, pos: nat)
    requires Numbered(log, NATS) && s.Valid() && s.done.Idle? && (s.file.Some? ==> s.enabled)
    requires s.core.Abstract() == FRESH && s.core.lastSeq == 0 && !s.core.replaying && s.core.sideOutput == []
    modifies s, s.core, s.core.state, s.core.state.groups, s.core.state.PartsOf(s.core.state.owned)
    ensures s.Valid() && s.core.Cfg() == old(s.core.Cfg())
    ensures b == BaseOf(log, NATS, old(Over(s)).disk, target, s.core.lateSink)
    ensures pos == Min(|log|, b.from + |wakes|) && Lived(s, log, NATS, old(Over(s)), b, pos, stop, plan)
    ensures b.from <= pos <= |log| && pos - b.from <= |wakes|
    ensures plan == NatsPlan(s.Habits(), log, b.from, wakes, Pace(old(s.last), AtRest), pos - b.from)
    ensures Proper(s.core.Cfg().patterns) && Consistent(s.core.Cfg(), log, old(Over(s))) ==>
              Consistent(s.core.Cfg(), log, Over(s))
  {
    hide *;
    OverMeans(s);
    ghost var cfg, before := s.core.Cfg(), Over(s);
    s.core.AbstractMeans();
    var start, replaying;
    start, replaying, b := StartUp(s, log, NATS, target);
    ghost var rhythm := Pace(s.last, AtRest);
    plan, pos, replaying := NatsLoop(s, log, target, wakes, First(log, start), replaying, cfg, b,
                                     Step(cfg, log, NATS, before, Restart), rhythm);
    UnderwayMeans(s, cfg, log, NATS, b, Step(cfg, log, NATS, before, Restart), plan, pos, replaying);
    Finale(s, stop, cfg, log, NATS, before, b, plan, pos);
    s.core.AbstractMeans();
    LifeIsConsistent(s, cfg, log, NATS, before, b, pos, stop, plan);
    NatsIsNeverMistaken(log);
  }

  lemma NatsIsNeverMistaken(log: seq<Rec>)
    requires Numbered(log, NATS)
    ensures NeverMistaken(log)
  {
  }

  lemma LifeIsConsistent(s: AsyncSnapshotter, cfg: Config, log: seq<Rec>, first: nat, before: System, b: Base, pos: nat,
                         stop: Stop, plan: Plan)
    requires Numbered(log, first) && s.core.Cfg() == cfg && Lived(s, log, first, before, b, pos, stop, plan)
    ensures Proper(cfg.patterns) && Consistent(cfg, log, before) && NeverMistaken(log) ==>
              Consistent(cfg, log, Over(s))
  {
    hide Core.Abstract, Core.Cfg, From, Over, ShardAt, Diverted, Replays, Deliveries, Proper, Consistent, Numbered;
    hide NeverMistaken, LifePlan;
    if Proper(cfg.patterns) && Consistent(cfg, log, before) && NeverMistaken(log) {
      LifeKeepsConsistent(cfg, log, first, before, LifePlan(s.Habits(), plan, stop));
    }
  }

  // ---------- Kafka ----------

  /** How many records the polls ask for. */
  function Asked(polls: seq<Poll>): nat {
    if polls == [] then 0 else Asked(polls[..|polls| - 1]) + polls[|polls| - 1].count
  }

  lemma {:induction false} TakenIsAsked(room: nat, polls: seq<Poll>, n: nat)
    requires n <= |polls|
    ensures Taken(room, polls, n) == Min(room, Asked(polls[..n]))
    decreases n
  {
    if n > 0 {
      TakenIsAsked(room, polls, n - 1);
      assert polls[..n][..n - 1] == polls[..n - 1];
    }
  }

  /** One record of a batch: received as by the NATS loop, but the loop does not tick after it. */
  method KafkaRecord(s: AsyncSnapshotter, log: seq<Rec>, at: nat, replaying: bool, target: int,
                     ghost cfg: Config, ghost b: Base, ghost st: System, ghost plan: Plan)
    returns (still: bool, ghost plan': Plan)
    requires Underway(s, cfg, log, KAFKA, b, st, plan, at, replaying) && b.target == target && at < |log|
    modifies s.core, s.core.state, s.core.state.groups, s.core.state.PartsOf(s.core.state.owned)
    ensures Underway(s, cfg, log, KAFKA, b, st, plan', at + 1, still)
    ensures plan' == Plan(plan.acts + [Deliver], plan.pace)
    ensures forall g :: g in s.core.state.groups ==> g in old(s.core.state.groups) || fresh(g)
    ensures forall o :: o in s.core.state.PartsOf(s.core.state.owned) ==>
              o in old(s.core.state.PartsOf(s.core.state.owned)) || fresh(o)
  {
    hide *;
    UnderwayMeans(s, cfg, log, KAFKA, b, st, plan, at, replaying);
    ghost var shard, out := s.core.Abstract(), s.core.sideOutput;
    s.core.AbstractMeans();
    s.BeatMeans();
    still := Receive(s, log[at], replaying, target, log, KAFKA, at);
    s.core.AbstractMeans();
    s.BeatMeans();
    TrackMore(cfg, log, b, at, replaying, shard, out, still, s.core.Abstract(), s.core.sideOutput);
    FromSnoc(cfg, log, KAFKA, st, plan.acts, Deliver);
    DeliveriesSnoc(plan.acts, Deliver);
    plan' := Plan(plan.acts + [Deliver], plan.pace);
    UnderwayMeans(s, cfg, log, KAFKA, b, st, plan', at + 1, still);
  }

  /** A batch of records, each received in turn. */
  method KafkaBatch(s: AsyncSnapshotter, log: seq<Rec>, from: nat, upto: nat, silent: bool, target: int,
                    ghost cfg: Config, ghost b: Base, ghost st: System, ghost before: Plan)
    returns (replaying: bool, ghost plan: Plan)
    requires Underway(s, cfg, log, KAFKA, b, st, before, from, silent) && b.target == target && from <= upto <= |log|
    modifies s, s.core, s.core.state, s.core.state.groups, s.core.state.PartsOf(s.core.state.owned)
    ensures Underway(s, cfg, log, KAFKA, b, st, plan, upto, replaying)
    ensures plan == Plan(before.acts + Times(upto - from), before.pace)
    ensures forall g :: g in s.core.state.groups ==> g in old(s.core.state.groups) || fresh(g)
    ensures forall o :: o in s.core.state.PartsOf(s.core.state.owned) ==>
              o in old(s.core.state.PartsOf(s.core.state.owned)) || fresh(o)
  {
    hide *;
    replaying, plan := silent, before;
    TimesNone(before);
    for at := from to upto
      invariant Underway(s, cfg, log, KAFKA, b, st, plan, at, replaying)
      invariant plan == Plan(before.acts + Times(at - from), before.pace)
      invariant forall g :: g in s.core.state.groups ==> g in old(s.core.state.groups) || fresh(g)
      invariant forall o :: o in s.core.state.PartsOf(s.core.state.owned) ==>
                  o in old(s.core.state.PartsOf(s.core.state.owned)) || fresh(o)
    {
      TimesMore(before, at - from);
      replaying, plan := KafkaRecord(s, log, at, replaying, target, cfg, b, st, plan);
    }
  }

  lemma TimesNone(p: Plan)
    ensures Plan(p.acts + Times(0), p.pace) == p
  {
    assert Times(0) == [] && p.acts + [] == p.acts;
  }

  lemma TimesMore(p: Plan, n: nat)
    ensures p.acts + Times(n) + [Deliver] == p.acts + Times(n + 1)
  {
  }

  /** One turn of the Kafka loop: the whole batch, then one tick, even when the batch was empty. */
  method KafkaTurn(s: AsyncSnapshotter, log: seq<Rec>, from: nat, poll: Poll, silent: bool, target: int,
                   ghost cfg: Config, ghost b: Base, ghost st: System, ghost before: Plan)
    returns (at: nat, replaying: bool, ghost plan: Plan)
    requires Underway(s, cfg, log, KAFKA, b, st, before, from, silent) && b.target == target && from <= |log|
    modifies s, s.core, s.core.state, s.core.state.groups, s.core.state.PartsOf(s.core.state.owned)
    ensures at == if |log| - from < poll.count then |log| else from + poll.count
    ensures Underway(s, cfg, log, KAFKA, b, st, plan, at, replaying)
    ensures plan == Extend(Plan(before.acts + Times(at - from), before.pace),
                           TurnPlan(s.Habits(), before.pace, poll.wake))
    ensures forall g :: g in s.core.state.groups ==> g in old(s.core.state.groups) || fresh(g)
    ensures forall o :: o in s.core.state.PartsOf(s.core.state.owned) ==>
              o in old(s.core.state.PartsOf(s.core.state.owned)) || fresh(o)
  {
    hide *;
    at := if |log| - from < poll.count then |log| else from + poll.count;
    replaying, plan := KafkaBatch(s, log, from, at, silent, target, cfg, b, st, before);
    plan := KafkaTick(s, log, at, poll.wake, replaying, cfg, b, st, plan);
  }

  method KafkaTick(s: AsyncSnapshotter, ghost log: seq<Rec>, ghost at: nat, wake: Wake, ghost replaying: bool,
                   ghost cfg: Config, ghost b: Base, ghost st: System, ghost before: Plan)
    returns (ghost plan: Plan)
    requires Underway(s, cfg, log, KAFKA, b, st, before, at, replaying)
    modifies s, s.core.state`epoch, s.core.state`frozenEpoch, s.core.state`frozenView
    modifies s.core.state`copied, s.core.state`copiedGroups
    ensures Underway(s, cfg, log, KAFKA, b, st, plan, at, replaying)
    ensures plan == Extend(before, TurnPlan(s.Habits(), before.pace, wake))
    ensures s.core.state.PartsOf(s.core.state.owned) == old(s.core.state.PartsOf(s.core.state.owned))
  {
    hide *;
    UnderwayMeans(s, cfg, log, KAFKA, b, st, before, at, replaying);
    s.core.AbstractMeans();
    ghost var more := Settle(s, wake, cfg, log, KAFKA, at);
    s.core.AbstractMeans();
    FromConcat(cfg, log, KAFKA, st, before.acts, more);
    DeliveriesAdd(before.acts, more);
    ExtendMeans(before, Plan(more, s.Beat()));
    plan := Plan(before.acts + more, s.Beat());
    UnderwayMeans(s, cfg, log, KAFKA, b, st, plan, at, replaying);
  }

  /** The main loop of the Kafka consumer. */
  method KafkaLoop(s: AsyncSnapshotter, log: seq<Rec>, target: int, polls: seq<Poll>, from: nat, silent: bool,
                   ghost cfg: Config, ghost b: Base, ghost st: System, ghost start: Pace)
    returns (ghost plan: Plan, pos: nat, replaying: bool)
    requires Underway(s, cfg, log, KAFKA, b, st, Plan([], start), from, silent) && b.target == target && from <= |log|
    modifies s, s.core, s.core.state, s.core.state.groups, s.core.state.PartsOf(s.core.state.owned)
    ensures Underway(s, cfg, log, KAFKA, b, st, plan, pos, replaying)
    ensures pos == from + Taken(|log| - from, polls, |polls|)
    ensures plan == KafkaPlan(s.Habits(), |log| - from, polls, start, |polls|)
    ensures forall g :: g in s.core.state.groups ==> g in old(s.core.state.groups) || fresh(g)
    ensures forall o :: o in s.core.state.PartsOf(s.core.state.owned) ==>
              o in old(s.core.state.PartsOf(s.core.state.owned)) || fresh(o)
  {
    hide *;
    pos, plan, replaying := from, Plan([], start), silent;
    ghost var room := |log| - from;
    KafkaNone(s.Habits(), room, polls, start);
    for i := 0 to |polls|
      invariant Underway(s, cfg, log, KAFKA, b, st, plan, pos, replaying)
      invariant pos == from + Taken(room, polls, i) <= |log|
      invariant plan == KafkaPlan(s.Habits(), room, polls, start, i)
      invariant forall g :: g in s.core.state.groups ==> g in old(s.core.state.groups) || fresh(g)
      invariant forall o :: o in s.core.state.PartsOf(s.core.state.owned) ==>
                  o in old(s.core.state.PartsOf(s.core.state.owned)) || fresh(o)
    {
      KafkaMore(s.Habits(), room, polls, start, i);
      pos, replaying, plan := KafkaTurn(s, log, pos, polls[i], replaying, target, cfg, b, st, plan);
    }
  }

  lemma KafkaNone(h: Habit, room: nat, polls: seq<Poll>, start: Pace)
    ensures KafkaPlan(h, room, polls, start, 0) == Plan([], start) && Taken(room, polls, 0) == 0
  {
  }

  lemma KafkaMore(h: Habit, room: nat, polls: seq<Poll>, start: Pace, i: nat)
    requires i < |polls|
    ensures var p, t := KafkaPlan(h, room, polls, start, i), Taken(room, polls, i);
            var u := if room - t < polls[i].count then room else t + polls[i].count;
            && t <= Taken(room, polls, i + 1) == u <= room
            && KafkaPlan(h, room, polls, start, i + 1)
               == Extend(Plan(p.acts + Times(u - t), p.pace), TurnPlan(h, p.pace, polls[i].wake))
  {
    hide TurnPlan, Extend;
  }

  /** Run, the Kafka consumer: the same life, with offsets from 0 and a tick per poll. The target is the
      last offset at startup, -1 for an empty log. The file stays the image of one prefix of the log when
      there was one before, or record 0 cannot be mistaken, or the polls bring a record before the first
      snapshot; `ConsistentIffCareful` has the exact condition on schedules. */
  method KafkaRun(s: AsyncSnapshotter, log: seq<Rec>, target: int, polls: seq<Poll>, stop: Stop)
    returns (ghost plan: Plan, ghost b: Base, pos: nat)
    requires Numbered(log, KAFKA) && target >= -1 && s.Valid() && s.done.Idle? && (s.file.Some? ==> s.enabled)
    requires s.core.Abstract() == FRESH && s.core.lastSeq == 0 && !s.core.replaying && s.core.sideOutput == []
    modifies s, s.core, s.core.state, s.core.state.groups, s.core.state.PartsOf(s.core.state.owned)
    ensures s.Valid() && s.core.Cfg() == old(s.core.Cfg())
    ensures b == BaseOf(log, KAFKA, old(Over(s)).disk, target, s.core.lateSink)
    ensures pos == Min(|log|, b.from + Asked(polls)) && Lived(s, log, KAFKA, old(Over(s)), b, pos, stop, plan)
    ensures b.from <= |log|
         && plan == KafkaPlan(s.Habits(), |log| - b.from, polls, Pace(old(s.last), AtRest), |polls|)
    ensures Proper(s.core.Cfg().patterns) && Consistent(s.core.Cfg(), log, old(Over(s))) ==>
              NeverMistaken(log) || old(s.file).Some? || RecordsFirst(s.Habits(), old(s.last), polls, stop) ==>
                Consistent(s.core.Cfg(), log, Over(s))
  {
    hide *;
    OverMeans(s);
    ghost var cfg, before := s.core.Cfg(), Over(s);
    s.core.AbstractMeans();
    FileIsDisk(s.core.state.hash, s.file);
    var start, replaying;
    start, replaying, b := StartUp(s, log, KAFKA, target);
    ghost var rhythm := Pace(s.last, AtRest);
    plan, pos, replaying := KafkaLoop(s, log, target, polls, First(log, start), replaying, cfg, b,
                                      Step(cfg, log, KAFKA, before, Restart), rhythm);
    UnderwayMeans(s, cfg, log, KAFKA, b, Step(cfg, log, KAFKA, before, Restart), plan, pos, replaying);
    Finale(s, stop, cfg, log, KAFKA, before, b, plan, pos);
    s.core.AbstractMeans();
    TakenMeans(|log|, b.from, polls);
    RoomIs(log, before.disk, target, s.core.lateSink);
    KafkaIsConsistent(s, cfg, log, before, b, pos, polls, rhythm, stop, plan);
  }

  lemma FileIsDisk(hash: string -> nat, file: Option<Snapshot>)
    ensures FileImage(hash, file).Some? <==> file.Some?
  {
  }

  lemma TakenMeans(n: nat, from: nat, polls: seq<Poll>)
    requires from <= n
    ensures from + Taken(n - from, polls, |polls|) == Min(n, from + Asked(polls))
  {
    TakenIsAsked(n - from, polls, |polls|);
    assert polls[..|polls|] == polls;
  }

  lemma RoomIs(log: seq<Rec>, disk: Option<Image>, target: int, lateSink: bool)
    ensures disk.None? ==> BaseOf(log, KAFKA, disk, target, lateSink).from == 0
  {
    FirstMeans(log, 0);
  }

  lemma KafkaIsConsistent(s: AsyncSnapshotter, cfg: Config, log: seq<Rec>, before: System, b: Base, pos: nat,
                          polls: seq<Poll>, start: Pace, stop: Stop, plan: Plan)
    requires Numbered(log, KAFKA) && s.core.Cfg() == cfg && Lived(s, log, KAFKA, before, b, pos, stop, plan)
    requires before.process.Down? && start.phase.AtRest? && b.from <= |log| && (before.disk.None? ==> b.from == 0)
    requires plan == KafkaPlan(s.Habits(), |log| - b.from, polls, start, |polls|)
    ensures Proper(cfg.patterns) && Consistent(cfg, log, before) ==>
              NeverMistaken(log) || before.disk.Some? || RecordsFirst(s.Habits(), start.last, polls, stop) ==>
                Consistent(cfg, log, Over(s))
  {
    hide Core.Abstract, Core.Cfg, From, Over, ShardAt, Diverted, Replays, Deliveries, Proper, Consistent, Numbered;
    hide NeverMistaken, LifePlan, KafkaPlan, RecordsFirst;
    if Proper(cfg.patterns) && Consistent(cfg, log, before)
       && (NeverMistaken(log) || before.disk.Some? || RecordsFirst(s.Habits(), start.last, polls, stop)) {
      KafkaLifeIsSafe(cfg, log, before, s.Habits(), polls, start, stop, |log| - b.from);
    }
  }
}
