/** The matching of a whole run, one progress at a time: whatever else the shard does, a progress is
    what its own member's on-time events and the clock make of it. */
module Following {
  import opened Basics
  import opened Events
  import opened Patterns
  import opened Shards
  import opened Invariants
  import opened Witnesses
  import opened NegativeExits
  import opened Reopenings

  /** The stored progress, if there is one. */
  ghost function Looked(s: Shard, m: string, pid: string): Option<Progress> {
    if Stored(s, m, pid) then Some(StoredAt(s, m, pid)) else None
  }

  /** The progress the event starts under this ID, if it starts one. */
  ghost function Begun(ps: seq<Pattern>, e: Event, pid: string): Option<Progress> {
    if exists pat :: pat in ps && Opening(pat, e, pid)
    then var pat :| pat in ps && Opening(pat, e, pid); Some(NewProgress(pat, e))
    else None
  }

  /** What the sweep leaves. */
  ghost function Spared(ps: seq<Pattern>, sweep: bool, p: Option<Progress>, wm: int): Option<Progress> {
    if p.Some? && sweep && Sweeps(ps, p.value, wm) then None else p
  }

  /** What the member's own event makes of it: swept, advanced, and started anew if that left nothing. */
  ghost function Handled(ps: seq<Pattern>, sweep: bool, e: Event, pid: string, p: Option<Progress>, wm: int)
    : Option<Progress>
  {
    var q := Spared(ps, sweep, p, wm);
    if q.Some? && Stays(Advance(ps, e, q.value)) then Some(Advance(ps, e, q.value).progress) else Begun(ps, e, pid)
  }

  /** A parked progress whose deadline has passed is over. */
  predicate Overdue(p: Option<Progress>, wm: int) { p.Some? && IsParked(p.value) && p.value.negativeDeadline < wm }

  /** One event, for one progress, given the clock before it. */
  ghost function Follow(cfg: Config, sweep: bool, clock: int, e: Event, m: string, pid: string, p: Option<Progress>)
    : Option<Progress>
  {
    if e.occurredAt < clock then p
    else
      var wm := Later(clock, e.occurredAt - cfg.lateness);
      var q := if e.memberID == m then Handled(cfg.patterns, sweep, e, pid, p, wm) else p;
      if Overdue(q, wm) then None else q
  }

  /** The progress after a whole run, from the events and the closed form of the clock alone. */
  ghost function Followed(cfg: Config, sweep: bool, es: seq<Event>, m: string, pid: string): Option<Progress> {
    if es == [] then None
    else
      var init := es[..|es| - 1];
      Follow(cfg, sweep, ClosedForm(cfg, init), es[|es| - 1], m, pid, Followed(cfg, sweep, init, m, pid))
  }

  // ---------- One step ----------

  lemma KeptIsSpared(cfg: Config, sweep: bool, s: Shard, e: Event, pid: string)
    ensures var kept := KeptBy(cfg, sweep, s, e);
            var q := Spared(cfg.patterns, sweep, Looked(s, e.memberID, pid), Reached(cfg, s, e));
            (pid in kept <==> q.Some?) && (pid in kept ==> kept[pid] == q.value)
  {
    hide Sweeps;
  }

  lemma CepIsHandled(cfg: Config, sweep: bool, s: Shard, e: Event, pid: string)
    requires Proper(cfg.patterns)
    ensures var progs := CepOf(cfg, sweep, s, e).progs;
            var q := Handled(cfg.patterns, sweep, e, pid, Looked(s, e.memberID, pid), Reached(cfg, s, e));
            (pid in progs <==> q.Some?) && (pid in progs ==> progs[pid] == q.value)
  {
    hide Satisfies, Advance, KeptBy, Looked, Spared, Proper;
    var ps, kept := cfg.patterns, KeptBy(cfg, sweep, s, e);
    KeptIsSpared(cfg, sweep, s, e, pid);
    if pid in Advanced(ps, e, kept) {
      StartsAdds(ps, e, Started(Advanced(ps, e, kept), [], {}), pid);
    } else {
      CepBegins(ps, e, kept, pid);
    }
  }

  /** Where the advance loop left nothing, the start loop leaves what the event starts. */
  lemma CepBegins(ps: seq<Pattern>, e: Event, kept: map<string, Progress>, pid: string)
    requires Proper(ps) && pid !in Advanced(ps, e, kept)
    ensures var progs, q := Cep(ps, e, kept).progs, Begun(ps, e, pid);
            (pid in progs <==> q.Some?) && (pid in progs ==> progs[pid] == q.value)
  {
    hide Satisfies, Advance;
    var started := Started(Advanced(ps, e, kept), [], {});
    StartsAdds(ps, e, started, pid);
    if exists pat :: pat in ps && Opening(pat, e, pid) {
      var pat :| pat in ps && Opening(pat, e, pid) && Begun(ps, e, pid) == Some(NewProgress(pat, e));
      StartsOpens(ps, e, started, pat, pid);
      var q :| q in ps && Opened(q, e, pid, Starts(ps, e, started));
      SamePattern(ps, pat, q, e, pid);
    }
  }

  lemma MatchedIsFollowed(cfg: Config, sweep: bool, s: Shard, e: Event, m: string, pid: string)
    requires Proper(cfg.patterns)
    ensures var members, p := Matched(cfg, sweep, s, e), Looked(s, m, pid);
            var q := if e.memberID == m then Handled(cfg.patterns, sweep, e, pid, p, Reached(cfg, s, e)) else p;
            && (m in members && pid in members[m].progresses <==> q.Some?)
            && (q.Some? ==> members[m].progresses[pid] == q.value)
  {
    hide CepOf, Handled, Reached;
    if e.memberID == m { CepIsHandled(cfg, sweep, s, e, pid); }
  }

  /** The progress before the drain. */
  ghost function Before(cfg: Config, sweep: bool, s: Shard, e: Event, m: string, pid: string): Option<Progress> {
    var members := Matched(cfg, sweep, s, e);
    if m in members && pid in members[m].progresses then Some(members[m].progresses[pid]) else None
  }

  /** A parked progress has its deadline in the queue the drain works on, and a pattern. */
  ghost predicate IsQueued(cfg: Config, sweep: bool, s: Shard, e: Event, m: string, pid: string, p: Progress) {
    && FindPattern(cfg.patterns, p.patternID).Some?
    && (IsParked(p) ==> Entry(p.negativeDeadline, m, pid) in s.heap + CepOf(cfg, sweep, s, e).parked)
  }

  lemma MatchedIsQueued(cfg: Config, sweep: bool, s: Shard, e: Event, m: string, pid: string)
    requires Proper(cfg.patterns) && Inv(cfg, s) && !Late(s, e)
    ensures var p := Before(cfg, sweep, s, e, m, pid); p.Some? ==> IsQueued(cfg, sweep, s, e, m, pid, p.value)
  {
    hide Matched, CepOf, Inv, Proper;
    var p := Before(cfg, sweep, s, e, m, pid);
    if p.Some? {
      MatchedIsOK(cfg, sweep, s, e, m);
      assert ProgressOK(cfg.patterns, s.heap + CepOf(cfg, sweep, s, e).parked, m, pid, p.value);
    }
  }

  /** The drain takes the overdue. */
  lemma DrainIsFollowed(cfg: Config, sweep: bool, s: Shard, e: Event, m: string, pid: string)
    requires !Late(s, e)
    requires var p := Before(cfg, sweep, s, e, m, pid); p.Some? ==> IsQueued(cfg, sweep, s, e, m, pid, p.value)
    ensures var q := Before(cfg, sweep, s, e, m, pid);
            Looked(NextWith(cfg, sweep, s, e), m, pid) == if Overdue(q, Reached(cfg, s, e)) then None else q
  {
    hide Matched, CepOf, Reached;
  }

  /** One event changes each progress as `Follow` says, independently of all others. */
  lemma StepIsFollowed(cfg: Config, sweep: bool, s: Shard, e: Event, m: string, pid: string)
    requires Proper(cfg.patterns) && Inv(cfg, s)
    ensures Looked(NextWith(cfg, sweep, s, e), m, pid) == Follow(cfg, sweep, s.watermark, e, m, pid, Looked(s, m, pid))
  {
    if Late(s, e) {
      LateKeeps(cfg, sweep, s, e, m, pid);
    } else {
      hide Matched, Handled, NextWith, Inv, Proper;
      MatchedIsFollowed(cfg, sweep, s, e, m, pid);
      MatchedIsQueued(cfg, sweep, s, e, m, pid);
      DrainIsFollowed(cfg, sweep, s, e, m, pid);
    }
  }

  lemma LateKeeps(cfg: Config, sweep: bool, s: Shard, e: Event, m: string, pid: string)
    requires Late(s, e)
    ensures Looked(NextWith(cfg, sweep, s, e), m, pid) == Looked(s, m, pid)
  {
  }

  // ---------- Whole runs ----------

  /** After any run, at any time and in any order, every progress is the fold of its member's own events
      and the clock; nothing else is stored. */
  lemma {:induction false} RunsAreFollowed(cfg: Config, sweep: bool, es: seq<Event>, m: string, pid: string)
    requires Proper(cfg.patterns) && cfg.lateness >= 0
    ensures Looked(RunWith(cfg, sweep, es), m, pid) == Followed(cfg, sweep, es, m, pid)
    decreases |es|
  {
    hide Follow, Inv, NextWith, Proper, ClosedForm;
    if es == [] {
    } else {
      var init, e := es[..|es| - 1], es[|es| - 1];
      RunsAreFollowed(cfg, sweep, init, m, pid);
      RunsKeepInv(cfg, sweep, init);
      WatermarkClosedForm(cfg, sweep, init);
      StepIsFollowed(cfg, sweep, RunWith(cfg, sweep, init), e, m, pid);
    }
  }

  /** What the event completes for this progress, from its followed state. */
  ghost function Completed(cfg: Config, sweep: bool, clock: int, e: Event, m: string, p: Option<Progress>)
    : Option<Match>
  {
    var q := Spared(cfg.patterns, sweep, p, Later(clock, e.occurredAt - cfg.lateness));
    if e.occurredAt >= clock && e.memberID == m && q.Some? && Advance(cfg.patterns, e, q.value).Complete?
    then Some(Advance(cfg.patterns, e, q.value).result)
    else None
  }

  /** What passes its deadline at the event. */
  ghost function PassedAt(cfg: Config, sweep: bool, clock: int, e: Event, m: string, pid: string, p: Option<Progress>)
    : Option<Progress>
  {
    var wm := Later(clock, e.occurredAt - cfg.lateness);
    var q := if e.memberID == m then Handled(cfg.patterns, sweep, e, pid, p, wm) else p;
    if e.occurredAt >= clock && Overdue(q, wm) then q else None
  }

  /** The reports of a run are those of its progresses: each is completed, or passes its deadline, exactly
      when its followed state says so. */
  lemma ReportsAreFollowed(cfg: Config, sweep: bool, es: seq<Event>, e: Event, m: string, pid: string)
    requires Proper(cfg.patterns) && cfg.lateness >= 0
    ensures var out, p := OutWith(cfg, sweep, RunWith(cfg, sweep, es), e), Followed(cfg, sweep, es, m, pid);
            var c, q := Completed(cfg, sweep, ClosedForm(cfg, es), e, m, p),
                        PassedAt(cfg, sweep, ClosedForm(cfg, es), e, m, pid, p);
            && (e.memberID == m ==> (pid in out.completed <==> c.Some?) && (c.Some? ==> out.completed[pid] == c.value))
            && (forall d :: Entry(d, m, pid) in out.expired <==> q.Some? && d == q.value.negativeDeadline)
  {
    hide Inv, NextWith, OutWith, Proper, ClosedForm, RunWith, Followed, Completed, PassedAt;
    RunsAreFollowed(cfg, sweep, es, m, pid);
    RunsKeepInv(cfg, sweep, es);
    WatermarkClosedForm(cfg, sweep, es);
    if e.memberID == m { CompletedIsFollowed(cfg, sweep, RunWith(cfg, sweep, es), e, pid); }
    PassedIsFollowed(cfg, sweep, RunWith(cfg, sweep, es), e, m, pid);
  }

  lemma CompletedIsFollowed(cfg: Config, sweep: bool, s: Shard, e: Event, pid: string)
    ensures var completed := OutWith(cfg, sweep, s, e).completed;
            var c := Completed(cfg, sweep, s.watermark, e, e.memberID, Looked(s, e.memberID, pid));
            (pid in completed <==> c.Some?) && (c.Some? ==> completed[pid] == c.value)
  {
    hide Advance, KeptBy, Looked, Spared;
    KeptIsSpared(cfg, sweep, s, e, pid);
  }

  lemma PassedIsFollowed(cfg: Config, sweep: bool, s: Shard, e: Event, m: string, pid: string)
    requires Proper(cfg.patterns) && Inv(cfg, s)
    ensures var expired := OutWith(cfg, sweep, s, e).expired;
            var q := PassedAt(cfg, sweep, s.watermark, e, m, pid, Looked(s, m, pid));
            forall d :: Entry(d, m, pid) in expired <==> q.Some? && d == q.value.negativeDeadline
  {
    if !Late(s, e) {
      hide Matched, CepOf, Inv, Proper, Handled, IsQueued, OutWith;
      MatchedIsFollowed(cfg, sweep, s, e, m, pid);
      MatchedIsQueued(cfg, sweep, s, e, m, pid);
      ExpiredMeans(cfg, sweep, s, e, m, pid);
    }
  }

  /** The expired entries of a progress: its own deadline, if it has passed. */
  lemma ExpiredMeans(cfg: Config, sweep: bool, s: Shard, e: Event, m: string, pid: string)
    requires !Late(s, e)
    requires var p := Before(cfg, sweep, s, e, m, pid); p.Some? ==> IsQueued(cfg, sweep, s, e, m, pid, p.value)
    ensures var q, expired := Before(cfg, sweep, s, e, m, pid), OutWith(cfg, sweep, s, e).expired;
            forall d :: Entry(d, m, pid) in expired <==>
              Overdue(q, Reached(cfg, s, e)) && d == q.value.negativeDeadline
  {
    hide Matched, CepOf, Reached;
  }
}
