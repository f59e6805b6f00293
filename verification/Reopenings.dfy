/** How a progress that is gone comes back, and what that means for the number of reports. */
module Reopenings {
  import opened Basics
  import opened Events
  import opened Patterns
  import opened Shards
  import opened Invariants
  import opened Witnesses
  import opened NegativeExits

  /** The event satisfies the first state of a pattern whose progress would carry this ID. */
  predicate Opening(pat: Pattern, e: Event, pid: string) {
    && |pat.states| >= 2
    && pid == ProgressID(pat.id, e.memberID, e.eventID)
    && Satisfies(e, pat.states[0].condition, map[])
  }

  /** The event is an on-time start of progress `pid` of member `m`. */
  ghost predicate Restarts(cfg: Config, s: Shard, e: Event, m: string, pid: string) {
    !Late(s, e) && e.memberID == m && exists pat :: pat in cfg.patterns && Opening(pat, e, pid)
  }

  /** The start loop leaves a progress for every pattern the event opens. */
  lemma {:induction false} StartsOpens(ps: seq<Pattern>, e: Event, s: Started, pat: Pattern, pid: string)
    requires pat in ps && Opening(pat, e, pid)
    ensures pid in Starts(ps, e, s).progs
  {
    hide Satisfies;
    var init, last := ps[..|ps| - 1], ps[|ps| - 1];
    if pat != last {
      assert pat in init;
      StartsOpens(init, e, s, pat, pid);
    }
    StartAdds(last, e, Starts(init, e, s), pid);
  }

  lemma SamePattern(ps: seq<Pattern>, p: Pattern, q: Pattern, e: Event, pid: string)
    requires Proper(ps) && p in ps && q in ps && Opening(p, e, pid) && Opening(q, e, pid)
    ensures p == q
  {
    hide Satisfies;
    ProgressIDInjective(p.id, q.id, e.memberID, e.eventID, e.eventID);
    FindsItself(ps, p);
    FindsItself(ps, q);
  }

  /** What matching the event leaves at a place where nothing was stored. */
  lemma CepOpensIff(ps: seq<Pattern>, e: Event, kept: map<string, Progress>, pid: string)
    requires Proper(ps) && pid !in kept
    ensures pid in Cep(ps, e, kept).progs <==> exists pat :: pat in ps && Opening(pat, e, pid)
    ensures forall pat :: pat in ps && Opening(pat, e, pid) ==> Cep(ps, e, kept).progs[pid] == NewProgress(pat, e)
  {
    hide Satisfies;
    var started := Started(Advanced(ps, e, kept), [], {});
    StartsAdds(ps, e, started, pid);
    forall pat | pat in ps && Opening(pat, e, pid)
      ensures pid in Cep(ps, e, kept).progs && Cep(ps, e, kept).progs[pid] == NewProgress(pat, e)
    {
      StartsOpens(ps, e, started, pat, pid);
      var q :| q in ps && Opened(q, e, pid, Starts(ps, e, started));
      SamePattern(ps, pat, q, e, pid);
    }
    if pid in Cep(ps, e, kept).progs {
      var q :| q in ps && Opened(q, e, pid, Starts(ps, e, started));
      assert Opening(q, e, pid);
    }
  }

  /** The drain keeps what is not parked and what is not overdue. */
  lemma DrainSpares(cfg: Config, sweep: bool, s: Shard, e: Event, pid: string, q: Progress)
    requires !Late(s, e) && pid in CepOf(cfg, sweep, s, e).progs && CepOf(cfg, sweep, s, e).progs[pid] == q
    requires IsParked(q) ==> q.negativeDeadline >= Reached(cfg, s, e)
    ensures Stored(NextWith(cfg, sweep, s, e), e.memberID, pid)
    ensures StoredAt(NextWith(cfg, sweep, s, e), e.memberID, pid) == q
  {
    hide CepOf, Aggregated;
  }

  lemma KeptWasStored(cfg: Config, sweep: bool, s: Shard, e: Event, pid: string)
    ensures pid in KeptBy(cfg, sweep, s, e) ==>
              Stored(s, e.memberID, pid) && KeptBy(cfg, sweep, s, e)[pid] == StoredAt(s, e.memberID, pid)
  {
  }

  lemma OnlyOwnEventsAdd(cfg: Config, sweep: bool, s: Shard, e: Event, m: string, pid: string)
    requires Stored(NextWith(cfg, sweep, s, e), m, pid) && !Stored(s, m, pid)
    ensures !Late(s, e) && m == e.memberID && pid in CepOf(cfg, sweep, s, e).progs
  {
    hide CepOf;
  }

  /** A progress that is not stored comes back exactly when its start event comes again, on time; it
      then starts from nothing, whatever became of it before. */
  lemma ReopensIff(cfg: Config, sweep: bool, s: Shard, e: Event, m: string, pid: string)
    requires Proper(cfg.patterns) && cfg.lateness >= 0 && !Stored(s, m, pid)
    ensures Stored(NextWith(cfg, sweep, s, e), m, pid) <==> Restarts(cfg, s, e, m, pid)
    ensures forall pat :: pat in cfg.patterns && Opening(pat, e, pid) && Restarts(cfg, s, e, m, pid) ==>
              StoredAt(NextWith(cfg, sweep, s, e), m, pid) == NewProgress(pat, e)
  {
    hide NextWith, Satisfies, NewProgress, Cep, Swept;
    if !Late(s, e) && e.memberID == m {
      KeptWasStored(cfg, sweep, s, e, pid);
      CepOpensIff(cfg.patterns, e, KeptBy(cfg, sweep, s, e), pid);
      forall pat | pat in cfg.patterns && Opening(pat, e, pid)
        ensures Stored(NextWith(cfg, sweep, s, e), m, pid)
        ensures StoredAt(NextWith(cfg, sweep, s, e), m, pid) == NewProgress(pat, e)
      {
        OpeningIsAhead(cfg, s, pat, e, pid);
        DrainSpares(cfg, sweep, s, e, pid, NewProgress(pat, e));
      }
    }
    if Stored(NextWith(cfg, sweep, s, e), m, pid) {
      OnlyOwnEventsAdd(cfg, sweep, s, e, m, pid);
    }
  }

  lemma OpeningIsAhead(cfg: Config, s: Shard, pat: Pattern, e: Event, pid: string)
    requires Proper(cfg.patterns) && cfg.lateness >= 0 && pat in cfg.patterns && Opening(pat, e, pid) && !Late(s, e)
    ensures |pat.states| >= 2
    ensures IsParked(NewProgress(pat, e)) ==> NewProgress(pat, e).negativeDeadline >= Reached(cfg, s, e)
  {
    hide Satisfies;
    NewIsAhead(cfg.patterns, pat, e);
    OnTimeIsAhead(cfg, s, e);
  }

  /** Over a run: what is gone after `n` events is gone until its start event comes again on time. */
  lemma {:induction false} GoneUntilRestart(cfg: Config, es: seq<Event>, n: nat, j: nat, m: string, pid: string)
    requires Proper(cfg.patterns) && cfg.lateness >= 0 && n <= j <= |es|
    requires !Stored(Run(cfg, es[..n]), m, pid)
    requires forall k :: n <= k < j ==> !Restarts(cfg, Run(cfg, es[..k]), es[k], m, pid)
    ensures !Stored(Run(cfg, es[..j]), m, pid)
    decreases j
  {
    hide Run, Restarts;
    if n < j {
      GoneUntilRestart(cfg, es, n, j - 1, m, pid);
      assert es[..j] == es[..j - 1] + [es[j - 1]];
      RunSnoc(cfg, es[..j - 1], es[j - 1]);
      ReopensIff(cfg, true, Run(cfg, es[..j - 1]), es[j - 1], m, pid);
    }
  }

  // ---------- How often a progress reports ----------

  /** A progress reports again only after its start event came again on time. Without such a
      redelivery it yields at most one match in a whole run. */
  lemma SecondReportNeedsRestart(cfg: Config, es: seq<Event>, i: nat, j: nat, m: string, pid: string)
    requires cfg.lateness >= 0 && Proper(cfg.patterns) && i < j < |es|
    requires Reports(cfg, Run(cfg, es[..i]), es[i], m, pid) && Reports(cfg, Run(cfg, es[..j]), es[j], m, pid)
    ensures exists k :: i < k < j && Restarts(cfg, Run(cfg, es[..k]), es[k], m, pid)
  {
    hide Next, Reports, Run, Restarts, Inv, Proper, Stored;
    RunsKeepInv(cfg, true, es[..i]);
    RunsKeepInv(cfg, true, es[..j]);
    ReportRemoves(cfg, Run(cfg, es[..i]), es[i], m, pid);
    ReportRemoves(cfg, Run(cfg, es[..j]), es[j], m, pid);
    assert es[..i + 1] == es[..i] + [es[i]];
    RunSnoc(cfg, es[..i], es[i]);
    if forall k :: i < k < j ==> !Restarts(cfg, Run(cfg, es[..k]), es[k], m, pid) {
      GoneUntilRestart(cfg, es, i + 1, j, m, pid);
    }
  }

  /** One event reports a progress once: as completed or for one deadline. */
  lemma OneReportPerEvent(cfg: Config, s: Shard, e: Event, m: string, pid: string, d: int)
    requires Proper(cfg.patterns) && Inv(cfg, s) && Entry(d, m, pid) in Out(cfg, s, e).expired
    ensures e.memberID == m ==> pid !in Out(cfg, s, e).completed
    ensures forall x :: x in Out(cfg, s, e).expired && x.memberID == m && x.progressID == pid ==> x.deadline == d
  {
    if e.memberID == m && pid in Out(cfg, s, e).completed {
      CompletedIsDropped(cfg, s, e, pid);
      ExpiredIsMatched(cfg, s, e, Entry(d, m, pid));
    }
  }

  lemma ExpiredIsMatched(cfg: Config, s: Shard, e: Event, x: Entry)
    requires x in Out(cfg, s, e).expired
    ensures x.memberID == e.memberID ==> x.progressID in CepOf(cfg, true, s, e).progs
  {
    hide CepOf;
  }
}
