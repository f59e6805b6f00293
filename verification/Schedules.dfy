/** The schedule of one run of a consumer, as a function of what happens beside its loop: which records
    it is given, when the background write finishes, and what time it is at each tick
    (service/engine/core/consumer.go, consumer_nats.go, consumer_kafka.go). */
module Schedules {
  import opened Basics
  import opened Shards
  import opened Patterns
  import opened Invariants
  import opened Recovery

  /** What happens beside the loop before it ticks: the background write may finish, and time passes. */
  datatype Wake = Wake(write: Option<bool>, now: int)

  /** One poll: how many records it may return, and what happens before the tick that follows. */
  datatype Poll = Poll(count: nat, wake: Wake)

  /** How a life of the process ends: killed, or stopped cleanly, with the outcomes of the last writes. */
  datatype Stop = Killed | Clean(waited: bool, ok: bool)

  /** Whether snapshots are taken, and how far apart. */
  datatype Habit = Habit(enabled: bool, interval: int)

  datatype Phase = AtRest | Writing | Written

  /** When the last snapshot was started, and how far it is. */
  datatype Pace = Pace(last: int, phase: Phase)

  datatype Plan = Plan(acts: seq<Action>, pace: Pace)

  /** A tick is due when snapshots are on and the interval has passed. */
  predicate DueAt(h: Habit, last: int, now: int) { h.enabled && h.interval > 0 && now - last >= h.interval }

  /** tick: nothing while a write is running; else collect a finished one, then begin a snapshot iff one
      is due. */
  function TickPlan(h: Habit, p: Pace, now: int): Plan {
    if !h.enabled || h.interval <= 0 || p.phase.Writing? then Plan([], p)
    else
      var done := if p.phase.Written? then [Finish] else [];
      if DueAt(h, p.last, now) then Plan(done + [Begin], Pace(now, Writing)) else Plan(done, Pace(p.last, AtRest))
  }

  function Extend(p: Plan, q: Plan): Plan { Plan(p.acts + q.acts, q.pace) }

  function WritePlan(p: Pace, write: Option<bool>): Plan {
    if write.Some? && p.phase.Writing? then Plan([WriteDone(write.value)], p.(phase := Written)) else Plan([], p)
  }

  /** The end of a turn: the background write, then the tick. */
  function TurnPlan(h: Habit, p: Pace, wake: Wake): Plan {
    var w := WritePlan(p, wake.write);
    Extend(w, TickPlan(h, w.pace, wake.now))
  }

  /** One NATS message: the turn ends with a tick unless the message was malformed. */
  function MessagePlan(h: Habit, p: Pace, r: Rec, wake: Wake): Plan {
    if r.event.None? then Plan([Deliver], p) else Extend(Plan([Deliver], p), TurnPlan(h, p, wake))
  }

  /** The first n messages of a NATS run that resumes at `from`. */
  function NatsPlan(h: Habit, log: seq<Rec>, from: nat, wakes: seq<Wake>, start: Pace, n: nat): Plan
    requires from + n <= |log| && n <= |wakes|
  {
    if n == 0 then Plan([], start)
    else
      var p := NatsPlan(h, log, from, wakes, start, n - 1);
      Extend(p, MessagePlan(h, p.pace, log[from + n - 1], wakes[n - 1]))
  }

  /** How many of `room` records the first n polls take. */
  function Taken(room: nat, polls: seq<Poll>, n: nat): (t: nat)
    requires n <= |polls|
    ensures t <= room
  {
    if n == 0 then 0
    else
      var t := Taken(room, polls, n - 1);
      if room - t < polls[n - 1].count then room else t + polls[n - 1].count
  }

  function Times(n: nat): (acts: seq<Action>)
    ensures |acts| == n && forall i :: 0 <= i < n ==> acts[i] == Deliver
  {
    seq(n, i => Deliver)
  }

  /** The first n polls of a Kafka run with `room` records ahead. */
  function KafkaPlan(h: Habit, room: nat, polls: seq<Poll>, start: Pace, n: nat): Plan
    requires n <= |polls|
  {
    if n == 0 then Plan([], start)
    else
      var p := KafkaPlan(h, room, polls, start, n - 1);
      var more := Taken(room, polls, n) - Taken(room, polls, n - 1);
      Extend(Plan(p.acts + Times(more), p.pace), TurnPlan(h, p.pace, polls[n - 1].wake))
  }

  /** What a clean stop does about a snapshot in flight before its final one. */
  function DrainPlan(h: Habit, phase: Phase, waited: bool): seq<Action> {
    if !h.enabled then []
    else match phase
      case AtRest => []
      case Writing => [WriteDone(waited), Finish]
      case Written => [Finish]
  }

  function EndPlan(h: Habit, phase: Phase, stop: Stop): seq<Action> {
    match stop
    case Killed => [Crash]
    case Clean(waited, ok) => DrainPlan(h, phase, waited) + [if h.enabled && ok then Shutdown else Crash]
  }

  /** The whole run. */
  function LifePlan(h: Habit, p: Plan, stop: Stop): seq<Action> {
    [Restart] + p.acts + EndPlan(h, p.pace.phase, stop)
  }

  lemma TurnMeans(h: Habit, p: Pace, wake: Wake)
    ensures var w := WritePlan(p, wake.write);
            && TurnPlan(h, p, wake) ==
                 Plan(w.acts + TickPlan(h, w.pace, wake.now).acts, TickPlan(h, w.pace, wake.now).pace)
            && w == if wake.write.Some? && p.phase.Writing?
                    then Plan([WriteDone(wake.write.value)], Pace(p.last, Written)) else Plan([], p)
  {
    hide TickPlan;
  }

  lemma MessageMeans(h: Habit, p: Pace, r: Rec, wake: Wake)
    ensures r.event.None? ==> MessagePlan(h, p, r, wake) == Plan([Deliver], p)
    ensures r.event.Some? ==>
              MessagePlan(h, p, r, wake) == Plan([Deliver] + TurnPlan(h, p, wake).acts, TurnPlan(h, p, wake).pace)
  {
    hide TurnPlan;
  }

  lemma DrainMeans(h: Habit, phase: Phase, waited: bool)
    ensures DrainPlan(h, phase, waited) ==
              if !h.enabled || phase.AtRest? then []
              else if phase.Writing? then [WriteDone(waited)] + [Finish] else [Finish]
  {
  }

  lemma EndMeans(h: Habit, phase: Phase, stop: Stop)
    ensures EndPlan(h, phase, stop) ==
              (if stop.Clean? then DrainPlan(h, phase, stop.waited) else [])
              + [if stop.Clean? && stop.ok && h.enabled then Shutdown else Crash]
  {
    hide DrainPlan;
    if stop.Killed? { assert [] + [Crash] == [Crash]; }
  }

  // ---------- The shape of a run's schedule ----------

  ghost predicate AllLively(acts: seq<Action>) { forall k :: 0 <= k < |acts| ==> Lively(acts[k]) }

  lemma TurnIsLively(h: Habit, p: Pace, wake: Wake)
    ensures AllLively(TurnPlan(h, p, wake).acts) && Deliver !in TurnPlan(h, p, wake).acts
  {
  }

  lemma {:induction false} NatsIsLively(h: Habit, log: seq<Rec>, from: nat, wakes: seq<Wake>, start: Pace, n: nat)
    requires from + n <= |log| && n <= |wakes|
    ensures AllLively(NatsPlan(h, log, from, wakes, start, n).acts)
    decreases n
  {
    hide TurnPlan;
    if n > 0 {
      NatsIsLively(h, log, from, wakes, start, n - 1);
      TurnIsLively(h, NatsPlan(h, log, from, wakes, start, n - 1).pace, wakes[n - 1]);
    }
  }

  lemma {:induction false} KafkaIsLively(h: Habit, room: nat, polls: seq<Poll>, start: Pace, n: nat)
    requires n <= |polls|
    ensures AllLively(KafkaPlan(h, room, polls, start, n).acts)
    decreases n
  {
    hide TurnPlan;
    if n > 0 {
      KafkaIsLively(h, room, polls, start, n - 1);
      TurnIsLively(h, KafkaPlan(h, room, polls, start, n - 1).pace, polls[n - 1].wake);
    }
  }

  /** A run is one life: restart, lively actions, end. */
  lemma LifeIsOne(h: Habit, p: Plan, stop: Stop)
    requires AllLively(p.acts)
    ensures OneLife(LifePlan(h, p, stop))
  {
    var acts := LifePlan(h, p, stop);
    var end := EndPlan(h, p.pace.phase, stop);
    forall k | 1 <= k < |acts| - 1 ensures Lively(acts[k]) {
      if k <= |p.acts| {
        assert acts[k] == p.acts[k - 1];
      } else {
        assert acts[k] == end[k - 1 - |p.acts|];
      }
    }
  }

  /** When a snapshot may begin: exactly at a tick that is due with no write in flight. */
  lemma BeginsWhenDue(h: Habit, p: Pace, wake: Wake)
    ensures var idle := !p.phase.Writing? || wake.write.Some?;
            Begin in TurnPlan(h, p, wake).acts <==>
              h.enabled && h.interval > 0 && wake.now - p.last >= h.interval && idle
  {
  }

  // ---------- Records before snapshots ----------

  /** Readable from the polls: no tick is due before a record has been taken, and a clean stop with a final
      snapshot comes after one. */
  ghost predicate RecordsFirst(h: Habit, last: int, polls: seq<Poll>, stop: Stop) {
    && (forall i :: 0 <= i < |polls| && DueAt(h, last, polls[i].wake.now) ==> SomeAsked(polls, i + 1))
    && (h.enabled && stop.Clean? && stop.ok ==> SomeAsked(polls, |polls|))
  }

  /** One of the first n polls asks for a record. */
  ghost predicate SomeAsked(polls: seq<Poll>, n: nat)
    requires n <= |polls|
  {
    exists i :: 0 <= i < n && polls[i].count > 0
  }

  /** Until a record is asked for nothing happens; from then on every snapshot has a delivery before it. */
  lemma {:induction false} KafkaDeliversFirst(h: Habit, room: nat, polls: seq<Poll>, start: Pace, stop: Stop, n: nat)
    requires room >= 1 && start.phase.AtRest? && RecordsFirst(h, start.last, polls, stop) && n <= |polls|
    ensures var p := KafkaPlan(h, room, polls, start, n);
            if SomeAsked(polls, n) then Deliver in p.acts && DeliversFirst(p.acts) && Taken(room, polls, n) >= 1
            else p == Plan([], start) && Taken(room, polls, n) == 0
    decreases n
  {
    hide TurnPlan;
    if n > 0 {
      KafkaDeliversFirst(h, room, polls, start, stop, n - 1);
      var p := KafkaPlan(h, room, polls, start, n - 1);
      var turn := TurnPlan(h, p.pace, polls[n - 1].wake);
      var d := Times(Taken(room, polls, n) - Taken(room, polls, n - 1));
      TurnIsLively(h, p.pace, polls[n - 1].wake);
      if SomeAsked(polls, n - 1) {
        MoreDeliversFirst(p.acts, d, turn.acts);
      } else if polls[n - 1].count > 0 {
        assert SomeAsked(polls, n) && d[0] == Deliver;
        StartDeliversFirst(d, turn.acts);
        assert p.acts + d == d;
      } else {
        assert !SomeAsked(polls, n) && !DueAt(h, start.last, polls[n - 1].wake.now);
        IdleTurn(h, start, polls[n - 1].wake);
        assert d == [];
      }
    }
  }

  lemma IdleTurn(h: Habit, p: Pace, wake: Wake)
    requires p.phase.AtRest? && !DueAt(h, p.last, wake.now)
    ensures TurnPlan(h, p, wake) == Plan([], p)
  {
  }

  lemma MoreDeliversFirst(a: seq<Action>, d: seq<Action>, b: seq<Action>)
    requires DeliversFirst(a) && Deliver in a
    ensures DeliversFirst(a + d + b) && Deliver in a + d + b
  {
    var all := a + d + b;
    var i :| 0 <= i < |a| && a[i] == Deliver;
    assert all[i] == Deliver;
    forall k | 0 <= k < |all| && Snapshots(all[k]) ensures Deliver in all[..k] {
      if k < |a| {
        assert all[k] == a[k] && all[..k] == a[..k];
      } else {
        assert all[..k][i] == Deliver;
      }
    }
  }

  lemma StartDeliversFirst(d: seq<Action>, b: seq<Action>)
    requires d != [] && d[0] == Deliver
    ensures DeliversFirst(d + b) && Deliver in d + b
  {
    var all := d + b;
    assert all[0] == Deliver;
    forall k | 0 <= k < |all| && Snapshots(all[k]) ensures Deliver in all[..k] {
      assert k > 0 && all[..k][0] == Deliver;
    }
  }

  /** So the whole run delivers before it snapshots. */
  lemma KafkaLifeDeliversFirst(h: Habit, room: nat, polls: seq<Poll>, start: Pace, stop: Stop)
    requires room >= 1 && start.phase.AtRest? && RecordsFirst(h, start.last, polls, stop)
    ensures DeliversFirst(LifePlan(h, KafkaPlan(h, room, polls, start, |polls|), stop))
  {
    hide KafkaPlan, TurnPlan;
    KafkaDeliversFirst(h, room, polls, start, stop, |polls|);
    var p := KafkaPlan(h, room, polls, start, |polls|);
    var acts, end := LifePlan(h, p, stop), EndPlan(h, p.pace.phase, stop);
    forall k | 0 <= k < |acts| && Snapshots(acts[k]) ensures Deliver in acts[..k] {
      if 1 <= k <= |p.acts| {
        assert acts[k] == p.acts[k - 1] && acts[..k] == [Restart] + p.acts[..k - 1];
      } else if k > 0 {
        assert acts[k] == end[k - 1 - |p.acts|];
        assert acts[..k] == [Restart] + p.acts + end[..k - 1 - |p.acts|];
      }
    }
  }

  /** A run from no file, or from a consistent one, that delivers before it snapshots leaves a consistent
      file, whatever record 0 is. */
  lemma KafkaLifeIsSafe(cfg: Config, log: seq<Rec>, st: System, h: Habit, polls: seq<Poll>, start: Pace, stop: Stop,
                        room: nat)
    requires Proper(cfg.patterns) && Numbered(log, KAFKA) && Consistent(cfg, log, st) && st.process.Down?
    requires start.phase.AtRest? && (log != [] && st.disk.None? ==> room == |log|)
    requires NeverMistaken(log) || st.disk.Some? || RecordsFirst(h, start.last, polls, stop)
    ensures var acts := LifePlan(h, KafkaPlan(h, room, polls, start, |polls|), stop);
            Consistent(cfg, log, From(cfg, log, KAFKA, st, acts))
  {
    hide Consistent, From, KafkaPlan, LifePlan, Proper, Numbered, RecordsFirst;
    var p := KafkaPlan(h, room, polls, start, |polls|);
    var acts := LifePlan(h, p, stop);
    if NeverMistaken(log) {
      LifeKeepsConsistent(cfg, log, KAFKA, st, acts);
    } else if st.disk.Some? {
      ConsistentFileIsSafe(cfg, log, KAFKA, st, acts);
    } else {
      KafkaIsLively(h, room, polls, start, |polls|);
      LifeIsOne(h, p, stop);
      KafkaLifeDeliversFirst(h, room, polls, start, stop);
      LifeIsSafe(cfg, log, KAFKA, st, acts, |acts|);
      assert acts[..|acts|] == acts;
    }
  }
}
