/** How a progress parked on a negative state leaves it, and how often a progress can report. */
module NegativeExits {
  import opened Basics
  import opened Rules
  import opened Events
  import opened Patterns
  import opened Shards
  import opened Invariants
  import opened Witnesses

  datatype Exit = Remains | SweptAway | Fires | Aborts

  ghost predicate Stored(s: Shard, m: string, pid: string) {
    m in s.members && pid in s.members[m].progresses
  }

  ghost function StoredAt(s: Shard, m: string, pid: string): Progress
    requires Stored(s, m, pid)
  {
    s.members[m].progresses[pid]
  }

  /** The exit an on-time event causes, decided from the state before it. The sweep comes first: it
      runs before the drain, and only on the member's own events. */
  ghost function ExitOf(cfg: Config, s: Shard, e: Event, m: string, p: Progress): Exit
    requires FindPattern(cfg.patterns, p.patternID).Some?
    requires p.currentStep < |FindPattern(cfg.patterns, p.patternID).value.states|
  {
    var states := FindPattern(cfg.patterns, p.patternID).value.states;
    if e.memberID == m && MaxWait(states) > 0 && Reached(cfg, s, e) - p.startedAt > MaxWait(states) then SweptAway
    else if p.negativeDeadline < Reached(cfg, s, e) then Fires
    else if e.memberID == m && e.occurredAt <= p.negativeDeadline && e.eventID !in p.processedEvents
         && Satisfies(e, states[p.currentStep].condition, p.variables) then Aborts
    else Remains
  }

  /** A progress ID can be opened only by the event it names. */
  lemma OpenedByItsStart(ps: seq<Pattern>, m: string, pid: string, p: Progress, e: Event, pat: Pattern, s: Started)
    requires Proper(ps) && Sound(ps, m, pid, p) && e.memberID == m && pat in ps && Opened(pat, e, pid, s)
    ensures e.eventID == p.processedEvents[0]
  {
    var q := FindPattern(ps, p.patternID).value;
    ProgressIDInjective(pat.id, p.patternID, m, e.eventID, p.processedEvents[0]);
  }

  /** An event that did not start the progress cannot put it back once it is gone. */
  lemma NotReopened(ps: seq<Pattern>, m: string, pid: string, p: Progress, e: Event, kept: map<string, Progress>)
    requires Proper(ps) && Sound(ps, m, pid, p) && e.memberID == m && e.eventID != p.processedEvents[0]
    requires pid !in Advanced(ps, e, kept)
    ensures pid !in Cep(ps, e, kept).progs
  {
    hide Satisfies, Sound, Advance;
    var started := Started(Advanced(ps, e, kept), [], {});
    StartsAdds(ps, e, started, pid);
    if pid in Cep(ps, e, kept).progs {
      var pat :| pat in ps && Opened(pat, e, pid, Starts(ps, e, started));
      OpenedByItsStart(ps, m, pid, p, e, pat, Starts(ps, e, started));
    }
  }

  /** A parked progress is left alone or aborted, never moved. */
  lemma ParkedAdvance(ps: seq<Pattern>, m: string, pid: string, p: Progress, e: Event)
    requires Proper(ps) && Sound(ps, m, pid, p) && IsParked(p)
    ensures p.negativeDeadline >= p.startedAt
    ensures Advance(ps, e, p) ==
      if e.occurredAt <= p.negativeDeadline && e.eventID !in p.processedEvents
        && Satisfies(e, FindPattern(ps, p.patternID).value.states[p.currentStep].condition, p.variables)
      then Remove else Keep(p)
  {
    hide Satisfies;
    ParkedIffNegative(ps, m, pid, p);
  }

  /** What the event's own member keeps of a parked progress before the drain. */
  lemma OwnEvent(cfg: Config, s: Shard, e: Event, pid: string)
    requires cfg.lateness >= 0 && Proper(cfg.patterns) && Inv(cfg, s) && !Late(s, e)
    requires Stored(s, e.memberID, pid) && IsParked(StoredAt(s, e.memberID, pid))
    requires var p := StoredAt(s, e.memberID, pid);
             Sound(cfg.patterns, e.memberID, pid, p)
             && (e.eventID == p.processedEvents[0] ==> e.occurredAt == p.startedAt)
    ensures var p := StoredAt(s, e.memberID, pid);
            var progs := CepOf(cfg, true, s, e).progs;
            if ExitOf(cfg, s, e, e.memberID, p).Remains? || ExitOf(cfg, s, e, e.memberID, p).Fires?
            then pid in progs && progs[pid] == p
            else pid !in progs
    ensures pid !in CepOf(cfg, true, s, e).completed
  {
    hide Satisfies, Advance, Cep, Inv, Proper, Swept;
    var p, ps, kept := StoredAt(s, e.memberID, pid), cfg.patterns, KeptBy(cfg, true, s, e);
    ParkedAdvance(ps, e.memberID, pid, p, e);
    OnTimeIsAhead(cfg, s, e);
    KeptUnlessSwept(cfg, s, e, pid);
    if pid in kept && Advance(ps, e, p) == Keep(p) {
      KeptIsUntouched(ps, e, kept, pid);
    } else {
      GoneInCep(ps, e, kept, pid, p);
    }
  }

  lemma KeptUnlessSwept(cfg: Config, s: Shard, e: Event, pid: string)
    requires Stored(s, e.memberID, pid) && FindPattern(cfg.patterns, StoredAt(s, e.memberID, pid).patternID).Some?
    ensures var p := StoredAt(s, e.memberID, pid);
            var max, kept := MaxWait(FindPattern(cfg.patterns, p.patternID).value.states), KeptBy(cfg, true, s, e);
            if max > 0 && Reached(cfg, s, e) - p.startedAt > max then pid !in kept else pid in kept && kept[pid] == p
  {
    hide Reached, MaxWait;
  }

  lemma KeptIsUntouched(ps: seq<Pattern>, e: Event, kept: map<string, Progress>, pid: string)
    requires pid in kept && Advance(ps, e, kept[pid]) == Keep(kept[pid])
    ensures var r := Cep(ps, e, kept); pid in r.progs && r.progs[pid] == kept[pid] && pid !in r.completed
  {
    hide Satisfies, Advance, Starts;
    StartsAdds(ps, e, Started(Advanced(ps, e, kept), [], {}), pid);
  }

  lemma GoneInCep(ps: seq<Pattern>, e: Event, kept: map<string, Progress>, pid: string, p: Progress)
    requires Proper(ps) && Sound(ps, e.memberID, pid, p) && e.eventID != p.processedEvents[0]
    requires pid in kept ==> Advance(ps, e, kept[pid]) == Remove
    ensures pid !in Cep(ps, e, kept).progs && pid !in Cep(ps, e, kept).completed
  {
    hide Satisfies, Advance, Starts, Sound, Proper;
    NotReopened(ps, e.memberID, pid, p, e, kept);
  }

  /** Exactly one of: it stays as it is, the sweep drops it, it fires, the event aborts it. */
  ghost predicate Leaves(cfg: Config, s: Shard, e: Event, m: string, pid: string)
    requires Stored(s, m, pid) && Sound(cfg.patterns, m, pid, StoredAt(s, m, pid))
  {
    var p, s', expired := StoredAt(s, m, pid), Next(cfg, s, e), Out(cfg, s, e).expired;
    var x := Entry(p.negativeDeadline, m, pid);
    match ExitOf(cfg, s, e, m, p)
    case Remains => Stored(s', m, pid) && StoredAt(s', m, pid) == p && x !in expired
    case SweptAway => !Stored(s', m, pid) && x !in expired
    case Aborts => !Stored(s', m, pid) && x !in expired
    case Fires =>
      && !Stored(s', m, pid) && x in expired
      && expired[x] == Expiry(FindPattern(cfg.patterns, p.patternID).value, p)
  }

  /** It fires whenever the watermark passes its deadline, unless its own member's event sweeps it. */
  lemma NegativeExitIsExact(cfg: Config, s: Shard, e: Event, m: string, pid: string)
    requires cfg.lateness >= 0 && Proper(cfg.patterns) && Inv(cfg, s) && !Late(s, e)
    requires Stored(s, m, pid) && IsParked(StoredAt(s, m, pid))
    requires var p := StoredAt(s, m, pid);
             Sound(cfg.patterns, m, pid, p)
             && (e.memberID == m && e.eventID == p.processedEvents[0] ==> e.occurredAt == p.startedAt)
    ensures Leaves(cfg, s, e, m, pid)
  {
    hide *;
    QueuedDeadline(cfg, s, m, pid);
    MatchingSpares(cfg, s, e, m, pid);
    DrainDecides(cfg, true, s, e, m, pid, StoredAt(s, m, pid));
    LeavesByDrain(cfg, s, e, m, pid);
  }

  /** When its own member's event finds a deadline passed, the match is reported exactly if the sweep
      could spare it: no state of the pattern waits at all, or one waits until after the new watermark. */
  lemma OwnEventReportsIff(cfg: Config, s: Shard, e: Event, pid: string)
    requires cfg.lateness >= 0 && Proper(cfg.patterns) && Inv(cfg, s) && !Late(s, e)
    requires Stored(s, e.memberID, pid) && IsParked(StoredAt(s, e.memberID, pid))
    requires var p := StoredAt(s, e.memberID, pid);
             && Sound(cfg.patterns, e.memberID, pid, p) && p.negativeDeadline < Reached(cfg, s, e)
             && (e.eventID == p.processedEvents[0] ==> e.occurredAt == p.startedAt)
    ensures var p := StoredAt(s, e.memberID, pid);
            var states := FindPattern(cfg.patterns, p.patternID).value.states;
            Entry(p.negativeDeadline, e.memberID, pid) in Out(cfg, s, e).expired <==>
              || (forall i :: 0 <= i < |states| ==> Duration(states[i].maxWait) <= 0)
              || (exists i :: 0 <= i < |states| && Reached(cfg, s, e) <= p.startedAt + Duration(states[i].maxWait))
  {
    hide *;
    NegativeExitIsExact(cfg, s, e, e.memberID, pid);
    SoundHasPattern(cfg.patterns, e.memberID, pid, StoredAt(s, e.memberID, pid));
    ReportedIsFired(cfg, s, e, e.memberID, pid);
    FiresUnlessSwept(cfg, s, e, StoredAt(s, e.memberID, pid));
  }

  lemma SoundHasPattern(ps: seq<Pattern>, m: string, pid: string, p: Progress)
    requires Sound(ps, m, pid, p)
    ensures FindPattern(ps, p.patternID).Some? && p.currentStep < |FindPattern(ps, p.patternID).value.states|
  {
  }

  lemma ReportedIsFired(cfg: Config, s: Shard, e: Event, m: string, pid: string)
    requires Stored(s, m, pid) && Sound(cfg.patterns, m, pid, StoredAt(s, m, pid)) && Leaves(cfg, s, e, m, pid)
    ensures var p := StoredAt(s, m, pid);
            Entry(p.negativeDeadline, m, pid) in Out(cfg, s, e).expired <==> ExitOf(cfg, s, e, m, p).Fires?
  {
    hide Out, Next, Sound, ExitOf, StoredAt, Stored;
    SoundHasPattern(cfg.patterns, m, pid, StoredAt(s, m, pid));
  }

  lemma FiresUnlessSwept(cfg: Config, s: Shard, e: Event, p: Progress)
    requires FindPattern(cfg.patterns, p.patternID).Some?
    requires p.currentStep < |FindPattern(cfg.patterns, p.patternID).value.states|
    requires p.negativeDeadline < Reached(cfg, s, e)
    ensures var states := FindPattern(cfg.patterns, p.patternID).value.states;
            ExitOf(cfg, s, e, e.memberID, p).Fires? <==>
              || (forall i :: 0 <= i < |states| ==> Duration(states[i].maxWait) <= 0)
              || (exists i :: 0 <= i < |states| && Reached(cfg, s, e) <= p.startedAt + Duration(states[i].maxWait))
  {
    hide Reached, MaxWait, Duration, Satisfies;
    WaitsDecide(FindPattern(cfg.patterns, p.patternID).value.states, p.startedAt, Reached(cfg, s, e));
  }

  /** The matching takes the progress away exactly when it is swept or aborted. */
  lemma MatchingSpares(cfg: Config, s: Shard, e: Event, m: string, pid: string)
    requires cfg.lateness >= 0 && Proper(cfg.patterns) && Inv(cfg, s) && !Late(s, e)
    requires Stored(s, m, pid) && IsParked(StoredAt(s, m, pid))
    requires var p := StoredAt(s, m, pid);
             Sound(cfg.patterns, m, pid, p)
             && (e.memberID == m && e.eventID == p.processedEvents[0] ==> e.occurredAt == p.startedAt)
    ensures m in s.members && FindPattern(cfg.patterns, StoredAt(s, m, pid).patternID).Some?
    ensures m in Matched(cfg, true, s, e)
    ensures var progs, exit := Matched(cfg, true, s, e)[m].progresses, ExitOf(cfg, s, e, m, StoredAt(s, m, pid));
            && (pid in progs <==> exit.Remains? || exit.Fires?)
            && (pid in progs ==> progs[pid] == StoredAt(s, m, pid))
  {
    hide Inv, Proper, Satisfies, Matched, CepOf, Late, Reached;
    MatchedMeans(cfg, true, s, e, m);
    if e.memberID == m {
      OwnEvent(cfg, s, e, pid);
    }
  }

  lemma LeavesByDrain(cfg: Config, s: Shard, e: Event, m: string, pid: string)
    requires Stored(s, m, pid) && Sound(cfg.patterns, m, pid, StoredAt(s, m, pid)) && m in Matched(cfg, true, s, e)
    requires var progs, exit := Matched(cfg, true, s, e)[m].progresses, ExitOf(cfg, s, e, m, StoredAt(s, m, pid));
             pid in progs <==> exit.Remains? || exit.Fires?
    requires DrainTakes(cfg, true, s, e, m, pid, StoredAt(s, m, pid))
    ensures Leaves(cfg, s, e, m, pid)
  {
    hide Satisfies, Matched, NextWith, OutWith, Sound, Reached;
  }

  lemma QueuedDeadline(cfg: Config, s: Shard, m: string, pid: string)
    requires Inv(cfg, s) && Stored(s, m, pid) && IsParked(StoredAt(s, m, pid))
    ensures Entry(StoredAt(s, m, pid).negativeDeadline, m, pid) in s.heap
  {
    assert ProgressOK(cfg.patterns, s.heap, m, pid, StoredAt(s, m, pid));
  }

  lemma MatchedMeans(cfg: Config, sweep: bool, s: Shard, e: Event, m: string)
    requires m in s.members
    ensures m in Matched(cfg, sweep, s, e)
    ensures Matched(cfg, sweep, s, e)[m].progresses ==
              if m == e.memberID then CepOf(cfg, sweep, s, e).progs else s.members[m].progresses
  {
    hide CepOf;
  }

  /** After the matching, the drain alone decides: it takes a parked progress exactly when the
      watermark is past its deadline. */
  ghost predicate DrainTakes(cfg: Config, sweep: bool, s: Shard, e: Event, m: string, pid: string, p: Progress)
    requires m in Matched(cfg, sweep, s, e) && FindPattern(cfg.patterns, p.patternID).Some?
  {
    var s', expired := NextWith(cfg, sweep, s, e), OutWith(cfg, sweep, s, e).expired;
    var x := Entry(p.negativeDeadline, m, pid);
    if pid !in Matched(cfg, sweep, s, e)[m].progresses then !Stored(s', m, pid) && x !in expired
    else if p.negativeDeadline < Reached(cfg, s, e) then
      && !Stored(s', m, pid) && x in expired
      && expired[x] == Expiry(FindPattern(cfg.patterns, p.patternID).value, p)
    else Stored(s', m, pid) && StoredAt(s', m, pid) == p && x !in expired
  }

  lemma DrainDecides(cfg: Config, sweep: bool, s: Shard, e: Event, m: string, pid: string, p: Progress)
    requires !Late(s, e) && IsParked(p) && Entry(p.negativeDeadline, m, pid) in s.heap
    requires FindPattern(cfg.patterns, p.patternID).Some? && m in Matched(cfg, sweep, s, e)
    requires var progs := Matched(cfg, sweep, s, e)[m].progresses; pid in progs ==> progs[pid] == p
    ensures DrainTakes(cfg, sweep, s, e, m, pid, p)
  {
    hide CepOf, Matched, Reached;
    var members, x := Matched(cfg, sweep, s, e), Entry(p.negativeDeadline, m, pid);
    assert IsLive(members, x) <==> pid in members[m].progresses;
  }

  /** A parked progress leaves a run in exactly one way, decided before the event. */
  lemma NegativeExitInRuns(cfg: Config, es: seq<Event>, e: Event, m: string, pid: string)
    requires cfg.lateness >= 0 && Proper(cfg.patterns) && Identified(es + [e]) && !Late(Run(cfg, es), e)
    requires Stored(Run(cfg, es), m, pid) && IsParked(StoredAt(Run(cfg, es), m, pid))
    ensures Sound(cfg.patterns, m, pid, StoredAt(Run(cfg, es), m, pid))
    ensures Leaves(cfg, Run(cfg, es), e, m, pid)
  {
    hide Run, Leaves, Late;
    RunsKeepInv(cfg, true, es);
    var k := StartIsInHistory(cfg, es, m, pid);
    assert (es + [e])[k] == es[k] && (es + [e])[|es|] == e;
    NegativeExitIsExact(cfg, Run(cfg, es), e, m, pid);
  }

  /** The event that started a stored progress is in the history, at the progress's start time. */
  lemma StartIsInHistory(cfg: Config, es: seq<Event>, m: string, pid: string) returns (k: nat)
    requires Proper(cfg.patterns) && Stored(Run(cfg, es), m, pid)
    ensures Inv(cfg, Run(cfg, es)) && Sound(cfg.patterns, m, pid, StoredAt(Run(cfg, es), m, pid))
    ensures k < |es| && es[k].memberID == m && es[k].eventID == StoredAt(Run(cfg, es), m, pid).processedEvents[0]
    ensures es[k].occurredAt == StoredAt(Run(cfg, es), m, pid).startedAt
  {
    var p := StoredAt(Run(cfg, es), m, pid);
    RunsKeepInv(cfg, true, es);
    RunsAreJustified(cfg, es);
    assert ProgressOK(cfg.patterns, Run(cfg, es).heap, m, pid, p);
    assert Justified(cfg, es, m, p);
    var idx: seq<nat> :| JustifiedBy(cfg, es, m, p, idx);
    k := idx[0];
  }

  // ---------- Reports ----------

  /** The event reports progress `pid` of member `m`: completed, or its deadline passed. */
  ghost predicate Reports(cfg: Config, s: Shard, e: Event, m: string, pid: string) {
    || (e.memberID == m && pid in Out(cfg, s, e).completed)
    || (exists d :: Entry(d, m, pid) in Out(cfg, s, e).expired)
  }

  /** A deadline that passes belongs to a progress stored before the event. */
  lemma ExpiredWasStored(cfg: Config, s: Shard, e: Event, x: Entry)
    requires cfg.lateness >= 0 && Proper(cfg.patterns) && Inv(cfg, s) && x in Out(cfg, s, e).expired
    ensures Stored(s, x.memberID, x.progressID) && !Stored(Next(cfg, s, e), x.memberID, x.progressID)
  {
    hide Satisfies, Advance;
    if x.memberID == e.memberID {
      var ps, kept := cfg.patterns, KeptBy(cfg, true, s, e);
      var started := Started(Advanced(ps, e, kept), [], {});
      StartsAdds(ps, e, started, x.progressID);
      if x.progressID !in Advanced(ps, e, kept) {
        var pat :| pat in ps && Opened(pat, e, x.progressID, Starts(ps, e, started));
        NewIsAhead(ps, pat, e);
        OnTimeIsAhead(cfg, s, e);
        assert false;
      }
    }
  }

  lemma NewIsAhead(ps: seq<Pattern>, pat: Pattern, e: Event)
    requires Proper(ps) && pat in ps && |pat.states| >= 2
    ensures IsParked(NewProgress(pat, e)) ==> NewProgress(pat, e).negativeDeadline >= e.occurredAt
  {
    var i :| 0 <= i < |ps| && ps[i] == pat;
    assert Duration(ps[i].states[1].maxWait) >= 0;
  }

  lemma CompletedIsDropped(cfg: Config, s: Shard, e: Event, pid: string)
    requires Proper(cfg.patterns) && Inv(cfg, s) && pid in Out(cfg, s, e).completed
    ensures !Late(s, e) && Stored(s, e.memberID, pid) && pid !in CepOf(cfg, true, s, e).progs
  {
    hide Satisfies;
    var p := CompletedComesFrom(cfg, s, e, pid);
    MoveNeedsState(cfg.patterns, e.memberID, pid, p, e);
    NotReopened(cfg.patterns, e.memberID, pid, p, e, KeptBy(cfg, true, s, e));
  }

  lemma CompletedIsRemoved(cfg: Config, s: Shard, e: Event, pid: string)
    requires Proper(cfg.patterns) && Inv(cfg, s) && pid in Out(cfg, s, e).completed
    ensures Stored(s, e.memberID, pid) && !Stored(Next(cfg, s, e), e.memberID, pid)
  {
    CompletedIsDropped(cfg, s, e, pid);
    hide CepOf, Out, Inv, Proper;
  }

  lemma ReportRemoves(cfg: Config, s: Shard, e: Event, m: string, pid: string)
    requires cfg.lateness >= 0 && Proper(cfg.patterns) && Inv(cfg, s) && Reports(cfg, s, e, m, pid)
    ensures Stored(s, m, pid) && !Stored(Next(cfg, s, e), m, pid)
  {
    hide Out, Next;
    if e.memberID == m && pid in Out(cfg, s, e).completed {
      CompletedIsRemoved(cfg, s, e, pid);
    } else {
      var d :| Entry(d, m, pid) in Out(cfg, s, e).expired;
      ExpiredWasStored(cfg, s, e, Entry(d, m, pid));
    }
  }
}
