/** One shard as a state machine: what ProcessEvent (service/engine/core/core.go) does to the state
    and what it reports, independent of the order in which maps are ranged over. */
module Shards {
  import opened Basics
  import opened Rules
  import opened Events
  import opened Buckets
  import opened Patterns

  datatype Config = Config(patterns: seq<Pattern>, maxWindow: int, lateness: int)

  datatype Member = Member(
    memberID: string,
    aggs: map<string, Agg>,
    progresses: map<string, Progress>,
    lastSeen: int)

  datatype Shard = Shard(members: map<string, Member>, watermark: int, heap: set<Entry>)

  /** The pattern matches of one event: by progress, by single-state pattern, by passed deadline. */
  datatype Output = Output(completed: map<string, Match>, instants: seq<Match>, expired: map<Entry, Match>)

  const NOTHING := Output(map[], [], map[])
  const FRESH := Shard(map[], 0, {})

  function NewMember(memberID: string): Member { Member(memberID, map[], map[], ZERO_TIME) }

  function MemberOf(members: map<string, Member>, id: string): Member {
    if id in members then members[id] else NewMember(id)
  }

  function Later(a: int, b: int): int { if b > a then b else a }

  /** The unconditional part: buckets and last-seen time. */
  function WithEvent(m: Member, e: Event, maxWindow: int): Member {
    var agg := if e.behavior in m.aggs then m.aggs[e.behavior] else map[];
    m.(aggs := m.aggs[e.behavior := Fold(agg, e, maxWindow)], lastSeen := Later(m.lastSeen, e.occurredAt))
  }

  function Aggregated(cfg: Config, m: Member, e: Event): Member { WithEvent(m, e, cfg.maxWindow) }

  predicate Late(s: Shard, e: Event) { e.occurredAt < s.watermark }

  /** advanceWatermark */
  function Reached(cfg: Config, s: Shard, e: Event): int { Later(s.watermark, e.occurredAt - cfg.lateness) }

  // ---------- The deadline queue ----------

  function Due(heap: set<Entry>, watermark: int): set<Entry> {
    set x | x in heap && x.deadline < watermark
  }

  /** The entry still describes a progress parked on its negative state. */
  predicate IsLive(members: map<string, Member>, x: Entry) {
    && x.memberID in members
    && x.progressID in members[x.memberID].progresses
    && IsParked(members[x.memberID].progresses[x.progressID])
    && members[x.memberID].progresses[x.progressID].negativeDeadline == x.deadline
  }

  /** What draining the entries `due` leaves of the progresses of member `id`. */
  function Undue(progs: map<string, Progress>, id: string, due: set<Entry>): map<string, Progress> {
    map p | p in progs && !(IsParked(progs[p]) && Entry(progs[p].negativeDeadline, id, p) in due) :: progs[p]
  }

  function Drained(members: map<string, Member>, due: set<Entry>): map<string, Member> {
    map id | id in members :: members[id].(progresses := Undue(members[id].progresses, id, due))
  }

  function Expiry(pat: Pattern, p: Progress): Match {
    Match(pat.id, pat.name, p.memberID, p.variables, p.negativeDeadline)
  }

  function Parked(members: map<string, Member>, x: Entry): Progress
    requires IsLive(members, x)
  {
    members[x.memberID].progresses[x.progressID]
  }

  function Expired(ps: seq<Pattern>, members: map<string, Member>, due: set<Entry>): map<Entry, Match> {
    map x | x in due && IsLive(members, x) && FindPattern(ps, Parked(members, x).patternID).Some? ::
      Expiry(FindPattern(ps, Parked(members, x).patternID).value, Parked(members, x))
  }

  // ---------- One event ----------

  /** The shard once an event is in its member's buckets. */
  function Counted(cfg: Config, s: Shard, e: Event): Shard {
    s.(members := s.members[e.memberID := Aggregated(cfg, MemberOf(s.members, e.memberID), e)])
  }

  /** The progresses the event's member has once the sweep is over; `sweep` false is the engine
      without its sweep. */
  function KeptBy(cfg: Config, sweep: bool, s: Shard, e: Event): map<string, Progress> {
    var progs := MemberOf(s.members, e.memberID).progresses;
    if sweep then Swept(cfg.patterns, progs, Reached(cfg, s, e)) else progs
  }

  /** processCEP on the event's member. */
  function CepOf(cfg: Config, sweep: bool, s: Shard, e: Event): CepResult {
    Cep(cfg.patterns, e, KeptBy(cfg, sweep, s, e))
  }

  /** The members once the event has been aggregated and matched, before the drain. */
  function Matched(cfg: Config, sweep: bool, s: Shard, e: Event): map<string, Member> {
    var m := Aggregated(cfg, MemberOf(s.members, e.memberID), e);
    s.members[e.memberID := m.(progresses := CepOf(cfg, sweep, s, e).progs)]
  }

  function NextWith(cfg: Config, sweep: bool, s: Shard, e: Event): Shard {
    if Late(s, e) then Counted(cfg, s, e)
    else
      var wm := Reached(cfg, s, e);
      var heap := s.heap + CepOf(cfg, sweep, s, e).parked;
      Shard(Drained(Matched(cfg, sweep, s, e), Due(heap, wm)), wm, heap - Due(heap, wm))
  }

  function OutWith(cfg: Config, sweep: bool, s: Shard, e: Event): Output {
    if Late(s, e) then NOTHING
    else
      var r := CepOf(cfg, sweep, s, e);
      Output(r.completed, r.instants,
             Expired(cfg.patterns, Matched(cfg, sweep, s, e), Due(s.heap + r.parked, Reached(cfg, s, e))))
  }

  function Next(cfg: Config, s: Shard, e: Event): Shard { NextWith(cfg, true, s, e) }
  function Out(cfg: Config, s: Shard, e: Event): Output { OutWith(cfg, true, s, e) }

  /** The state after a whole run from a fresh core. */
  function RunWith(cfg: Config, sweep: bool, es: seq<Event>): Shard {
    if es == [] then FRESH else NextWith(cfg, sweep, RunWith(cfg, sweep, es[..|es| - 1]), es[|es| - 1])
  }

  function Run(cfg: Config, es: seq<Event>): Shard { RunWith(cfg, true, es) }

  lemma WatermarkOf(cfg: Config, sweep: bool, s: Shard, e: Event)
    ensures NextWith(cfg, sweep, s, e).watermark == if Late(s, e) then s.watermark else Reached(cfg, s, e)
  {
  }

  lemma RunWithSnoc(cfg: Config, sweep: bool, es: seq<Event>, e: Event)
    ensures RunWith(cfg, sweep, es + [e]) == NextWith(cfg, sweep, RunWith(cfg, sweep, es), e)
  {
    assert (es + [e])[..|es|] == es;
  }

  lemma RunSnoc(cfg: Config, es: seq<Event>, e: Event)
    ensures Run(cfg, es + [e]) == Next(cfg, Run(cfg, es), e)
  {
    assert (es + [e])[..|es|] == es;
  }

  // ---------- Watermark ----------

  /** max(0, newest event time - lateness), late events included. */
  function ClosedForm(cfg: Config, es: seq<Event>): int {
    if es == [] then 0 else Later(ClosedForm(cfg, es[..|es| - 1]), es[|es| - 1].occurredAt - cfg.lateness)
  }

  lemma {:induction false} WatermarkClosedForm(cfg: Config, sweep: bool, es: seq<Event>)
    requires cfg.lateness >= 0
    ensures RunWith(cfg, sweep, es).watermark == ClosedForm(cfg, es)
    decreases |es|
  {
    if es != [] { WatermarkClosedForm(cfg, sweep, es[..|es| - 1]); }
  }

  /** The closed form is an upper bound that is reached, so it depends on the set of events only. */
  lemma {:induction false} ClosedFormIsMax(cfg: Config, es: seq<Event>)
    ensures ClosedForm(cfg, es) >= 0
    ensures forall i :: 0 <= i < |es| ==> es[i].occurredAt - cfg.lateness <= ClosedForm(cfg, es)
    ensures ClosedForm(cfg, es) == 0
         || exists i :: 0 <= i < |es| && es[i].occurredAt - cfg.lateness == ClosedForm(cfg, es)
    decreases |es|
  {
    if es != [] {
      var init := es[..|es| - 1];
      ClosedFormIsMax(cfg, init);
      assert forall i :: 0 <= i < |init| ==> es[i] == init[i];
      if ClosedForm(cfg, es) == ClosedForm(cfg, init) && ClosedForm(cfg, init) != 0 {
        var i :| 0 <= i < |init| && init[i].occurredAt - cfg.lateness == ClosedForm(cfg, init);
        assert es[i] == init[i];
      }
    }
  }

  /** An event is on time exactly when it is not before the epoch and no event so far, late or not, is
      more than the allowed lateness ahead of it. */
  lemma OnTimeIff(cfg: Config, es: seq<Event>, e: Event)
    requires cfg.lateness >= 0
    ensures !Late(Run(cfg, es), e) <==>
              e.occurredAt >= 0 && forall i :: 0 <= i < |es| ==> es[i].occurredAt - e.occurredAt <= cfg.lateness
  {
    WatermarkClosedForm(cfg, true, es);
    ClosedFormIsMax(cfg, es);
    hide RunWith, ClosedForm;
  }

  lemma WatermarkIgnoresOrder(cfg: Config, es: seq<Event>, fs: seq<Event>)
    requires cfg.lateness >= 0 && EventSet(es) == EventSet(fs)
    ensures Run(cfg, es).watermark == Run(cfg, fs).watermark
  {
    WatermarkClosedForm(cfg, true, es);
    WatermarkClosedForm(cfg, true, fs);
    ClosedFormMono(cfg, es, fs);
    ClosedFormMono(cfg, fs, es);
  }

  lemma ClosedFormMono(cfg: Config, es: seq<Event>, fs: seq<Event>)
    requires EventSet(es) <= EventSet(fs)
    ensures ClosedForm(cfg, es) <= ClosedForm(cfg, fs)
  {
    ClosedFormIsMax(cfg, es);
    ClosedFormIsMax(cfg, fs);
    if ClosedForm(cfg, es) != 0 {
      var i :| 0 <= i < |es| && es[i].occurredAt - cfg.lateness == ClosedForm(cfg, es);
      assert es[i] in EventSet(es);
      var j :| 0 <= j < |fs| && fs[j] == es[i];
    }
  }

  /** An event accepted on time lies at or after the watermark it leaves behind. */
  lemma OnTimeIsAhead(cfg: Config, s: Shard, e: Event)
    requires cfg.lateness >= 0 && !Late(s, e)
    ensures e.occurredAt >= Reached(cfg, s, e) >= s.watermark
  {
  }
}
