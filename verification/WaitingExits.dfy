/** How a progress that waits for its next event leaves a step (service/engine/core/cep.go): what each
    on-time event makes of it, decided by guards on the state before the event. */
module WaitingExits {
  import opened Basics
  import opened Rules
  import opened Events
  import opened Patterns
  import opened Shards
  import opened Invariants
  import opened Witnesses
  import opened NegativeExits
  import opened Reopenings
  import opened Following

  datatype Way = Unmoved | TimedOut | Climbs | Finishes

  /** Which way an on-time event takes the waiting progress, from the states and times alone. */
  ghost function WayOf(cfg: Config, s: Shard, e: Event, m: string, p: Progress, states: seq<PatternState>): Way
    requires p.currentStep < |states|
  {
    var st := states[p.currentStep];
    if e.memberID != m then Unmoved
    else if PastAllWaits(states, p.startedAt, Reached(cfg, s, e)) then TimedOut
    else if e.eventID in p.processedEvents then Unmoved
    else if st.maxWait.Some? && e.occurredAt > p.startedAt + Duration(st.maxWait) then TimedOut
    else if !Satisfies(e, st.condition, p.variables) then Unmoved
    else if p.currentStep + 1 == |states| then Finishes
    else Climbs
  }

  /** What is stored one state up; the next state is given its deadline if it is negative. */
  ghost function OneUp(p: Progress, e: Event, states: seq<PatternState>): Progress
    requires p.currentStep + 1 < |states|
  {
    var next := states[p.currentStep + 1];
    Progress(p.id, p.patternID, p.memberID, p.currentStep + 1,
             p.variables + Bindings(e, states[p.currentStep].contextBinding), p.startedAt,
             p.processedEvents + [e.eventID],
             if next.isNegative then p.startedAt + Duration(next.maxWait) else p.negativeDeadline)
  }

  /** What is left of the progress, where a deadline that is passed at once is reported and not kept. */
  ghost function LeftBy(cfg: Config, s: Shard, e: Event, m: string, p: Progress, states: seq<PatternState>)
    : Option<Progress>
    requires p.currentStep < |states|
  {
    match WayOf(cfg, s, e, m, p, states)
    case Unmoved => Some(p)
    case TimedOut => None
    case Finishes => None
    case Climbs =>
      var q := OneUp(p, e, states);
      if states[q.currentStep].isNegative && q.negativeDeadline < Reached(cfg, s, e) then None else Some(q)
  }

  /** A waiting progress takes exactly that way: it is stored as told, completed exactly when the event
      finishes its pattern, and the match is stamped with that event. */
  lemma WaitingExitIsExact(cfg: Config, s: Shard, e: Event, m: string, pid: string, p: Progress, pat: Pattern)
    requires cfg.lateness >= 0 && Proper(cfg.patterns) && Inv(cfg, s) && !Late(s, e)
    requires Looked(s, m, pid) == Some(p) && !IsParked(p) && FindPattern(cfg.patterns, p.patternID) == Some(pat)
    requires Sound(cfg.patterns, m, pid, p) && StartIs(e, m, p)
    ensures Looked(Next(cfg, s, e), m, pid) == LeftBy(cfg, s, e, m, p, pat.states)
    ensures e.memberID == m ==>
              (pid in Out(cfg, s, e).completed <==> WayOf(cfg, s, e, m, p, pat.states).Finishes?)
    ensures WayOf(cfg, s, e, m, p, pat.states).Finishes? ==>
              Out(cfg, s, e).completed[pid]
              == Match(pat.id, pat.name, m,
                       p.variables + Bindings(e, pat.states[p.currentStep].contextBinding), e.occurredAt)
  {
    hide *;
    NextIsSwept(cfg, s, e);
    HasStep(cfg.patterns, m, pid, p, pat);
    StepIsFollowed(cfg, true, s, e, m, pid);
    WaitingFollows(cfg, s, e, m, pid, p, pat);
    if e.memberID == m {
      CompletedIsFollowed(cfg, true, s, e, pid);
      WaitingCompletes(cfg, s, e, m, pid, p, pat);
    } else {
      OthersLeaveIt(cfg, s, e, m, p, pat.states);
    }
  }

  /** So it is over every run whose events are identified by their IDs. */
  lemma WaitingExitInRuns(cfg: Config, es: seq<Event>, e: Event, m: string, pid: string)
    returns (p: Progress, pat: Pattern)
    requires cfg.lateness >= 0 && Proper(cfg.patterns) && Identified(es + [e]) && !Late(Run(cfg, es), e)
    requires Stored(Run(cfg, es), m, pid) && !IsParked(StoredAt(Run(cfg, es), m, pid))
    ensures p == StoredAt(Run(cfg, es), m, pid) && p.currentStep < |pat.states|
    ensures FindPattern(cfg.patterns, p.patternID) == Some(pat)
    ensures Looked(Next(cfg, Run(cfg, es), e), m, pid) == LeftBy(cfg, Run(cfg, es), e, m, p, pat.states)
    ensures e.memberID == m ==>
              (pid in Out(cfg, Run(cfg, es), e).completed
               <==> WayOf(cfg, Run(cfg, es), e, m, p, pat.states).Finishes?)
    ensures WayOf(cfg, Run(cfg, es), e, m, p, pat.states).Finishes? ==>
              Out(cfg, Run(cfg, es), e).completed[pid]
              == Match(pat.id, pat.name, m,
                       p.variables + Bindings(e, pat.states[p.currentStep].contextBinding), e.occurredAt)
  {
    p := StoredAt(Run(cfg, es), m, pid);
    var k := StartIsInHistory(cfg, es, m, pid);
    SoundHasPattern(cfg.patterns, m, pid, p);
    pat := FindPattern(cfg.patterns, p.patternID).value;
    assert (es + [e])[k] == es[k] && (es + [e])[|es|] == e;
    StartIsTold(e, m, pid, p, cfg.patterns, es[k]);
    hide Run, Late, Inv, Proper, Sound, WayOf, LeftBy, Next, Out, StartIs;
    WaitingExitIsExact(cfg, Run(cfg, es), e, m, pid, p, pat);
  }

  lemma StartIsTold(e: Event, m: string, pid: string, p: Progress, ps: seq<Pattern>, start: Event)
    requires Sound(ps, m, pid, p) && start.eventID == p.processedEvents[0] && start.occurredAt == p.startedAt
    requires e.eventID == start.eventID ==> e == start
    ensures StartIs(e, m, p)
  {
  }

  lemma NextIsSwept(cfg: Config, s: Shard, e: Event)
    ensures Next(cfg, s, e) == NextWith(cfg, true, s, e) && Out(cfg, s, e) == OutWith(cfg, true, s, e)
  {
  }

  lemma HasStep(ps: seq<Pattern>, m: string, pid: string, p: Progress, pat: Pattern)
    requires Sound(ps, m, pid, p) && FindPattern(ps, p.patternID) == Some(pat)
    ensures p.currentStep < |pat.states|
  {
  }

  /** A deadline of a waiting progress is reported exactly when the event moves it onto its negative state
      and the watermark is already past that state's wait. */
  lemma PassedAtOnceIff(cfg: Config, s: Shard, e: Event, m: string, pid: string, p: Progress, pat: Pattern, d: int)
    requires cfg.lateness >= 0 && Proper(cfg.patterns) && Inv(cfg, s) && !Late(s, e)
    requires Looked(s, m, pid) == Some(p) && !IsParked(p) && FindPattern(cfg.patterns, p.patternID) == Some(pat)
    requires Sound(cfg.patterns, m, pid, p) && StartIs(e, m, p)
    ensures Entry(d, m, pid) in Out(cfg, s, e).expired <==> PassesAtOnce(cfg, s, e, m, p, pat.states, d)
  {
    hide *;
    NextIsSwept(cfg, s, e);
    PassedIsFollowed(cfg, true, s, e, m, pid);
    HasStep(cfg.patterns, m, pid, p, pat);
    WaitingPasses(cfg, s, e, m, pid, p, pat, d);
  }

  /** The event moves the progress onto its negative state, whose deadline `d` is behind the new watermark. */
  ghost predicate PassesAtOnce(cfg: Config, s: Shard, e: Event, m: string, p: Progress, states: seq<PatternState>,
                               d: int)
  {
    && p.currentStep + 1 < |states| && WayOf(cfg, s, e, m, p, states).Climbs?
    && var next := states[p.currentStep + 1];
       next.isNegative && d == p.startedAt + Duration(next.maxWait) && d < Reached(cfg, s, e)
  }

  /** The event is the one that started the progress only if it happened when the progress started. */
  ghost predicate StartIs(e: Event, m: string, p: Progress) {
    p.processedEvents != []
    && (e.memberID == m && e.eventID == p.processedEvents[0] ==> e.occurredAt == p.startedAt)
  }

  lemma OthersLeaveIt(cfg: Config, s: Shard, e: Event, m: string, p: Progress, states: seq<PatternState>)
    requires p.currentStep < |states| && e.memberID != m
    ensures WayOf(cfg, s, e, m, p, states).Unmoved?
  {
  }

  /** What the advance does to a waiting progress. */
  lemma WaitingAdvances(ps: seq<Pattern>, e: Event, m: string, pid: string, p: Progress, pat: Pattern)
    requires Proper(ps) && !IsParked(p) && FindPattern(ps, p.patternID) == Some(pat) && Sound(ps, m, pid, p)
    ensures var st, o := pat.states[p.currentStep], Advance(ps, e, p);
            if e.eventID in p.processedEvents then o == Keep(p)
            else if st.maxWait.Some? && e.occurredAt > p.startedAt + Duration(st.maxWait) then o == Remove
            else if !Satisfies(e, st.condition, p.variables) then o == Keep(p)
            else if p.currentStep + 1 == |pat.states| then
              o == Complete(Match(pat.id, pat.name, e.memberID, p.variables + Bindings(e, st.contextBinding),
                                  e.occurredAt))
            else if pat.states[p.currentStep + 1].isNegative then o == Park(OneUp(p, e, pat.states))
            else o == Keep(OneUp(p, e, pat.states))
  {
    hide Satisfies, Bindings, Duration;
    ParkedIffNegative(ps, m, pid, p);
  }

  /** Another event than its start cannot begin the progress anew. */
  lemma NotBegunAgain(ps: seq<Pattern>, e: Event, m: string, pid: string, p: Progress)
    requires Proper(ps) && Sound(ps, m, pid, p) && e.memberID == m && e.eventID != p.processedEvents[0]
    ensures Begun(ps, e, pid) == None
  {
    hide Satisfies;
    if pat :| pat in ps && Opening(pat, e, pid) {
      ProgressIDInjective(pat.id, FindPattern(ps, p.patternID).value.id, m, e.eventID, p.processedEvents[0]);
    }
  }

  /** The start event of a progress is never past its waits while it is on time. */
  lemma StartIsInTime(cfg: Config, s: Shard, e: Event, m: string, p: Progress, states: seq<PatternState>)
    requires cfg.lateness >= 0 && !Late(s, e) && e.occurredAt == p.startedAt
    ensures !PastAllWaits(states, p.startedAt, Reached(cfg, s, e))
  {
    OnTimeIsAhead(cfg, s, e);
    hide Duration, Reached;
  }

  lemma WaitingFollows(cfg: Config, s: Shard, e: Event, m: string, pid: string, p: Progress, pat: Pattern)
    requires cfg.lateness >= 0 && Proper(cfg.patterns) && !Late(s, e) && p.currentStep < |pat.states|
    requires !IsParked(p) && FindPattern(cfg.patterns, p.patternID) == Some(pat)
    requires Sound(cfg.patterns, m, pid, p) && StartIs(e, m, p)
    ensures Follow(cfg, true, s.watermark, e, m, pid, Some(p)) == LeftBy(cfg, s, e, m, p, pat.states)
  {
    hide Satisfies, Bindings, Duration, Proper, PastAllWaits, Advance, Sweeps, Begun, Sound, OneUp;
    if e.memberID == m {
      SweepMeans(cfg.patterns, p, Reached(cfg, s, e));
      WaitingAdvances(cfg.patterns, e, m, pid, p, pat);
      if e.eventID == p.processedEvents[0] {
        StartIsInTime(cfg, s, e, m, p, pat.states);
      } else {
        NotBegunAgain(cfg.patterns, e, m, pid, p);
      }
      OneUpIsParkedIff(cfg.patterns, e, m, pid, p, pat);
    }
  }

  lemma WaitingPasses(cfg: Config, s: Shard, e: Event, m: string, pid: string, p: Progress, pat: Pattern, d: int)
    requires cfg.lateness >= 0 && Proper(cfg.patterns) && !Late(s, e) && p.currentStep < |pat.states|
    requires !IsParked(p) && FindPattern(cfg.patterns, p.patternID) == Some(pat)
    requires Sound(cfg.patterns, m, pid, p) && StartIs(e, m, p)
    ensures var q := PassedAt(cfg, true, s.watermark, e, m, pid, Some(p));
            q.Some? && d == q.value.negativeDeadline <==> PassesAtOnce(cfg, s, e, m, p, pat.states, d)
  {
    hide Satisfies, Bindings, Duration, Proper, PastAllWaits, Advance, Sweeps, Begun, Sound;
    if e.memberID == m {
      SweepMeans(cfg.patterns, p, Reached(cfg, s, e));
      WaitingAdvances(cfg.patterns, e, m, pid, p, pat);
      if e.eventID == p.processedEvents[0] {
        StartIsInTime(cfg, s, e, m, p, pat.states);
      } else {
        NotBegunAgain(cfg.patterns, e, m, pid, p);
      }
      OneUpIsParkedIff(cfg.patterns, e, m, pid, p, pat);
    }
  }

  /** One state up it is parked exactly when that state is negative. */
  lemma OneUpIsParkedIff(ps: seq<Pattern>, e: Event, m: string, pid: string, p: Progress, pat: Pattern)
    requires Proper(ps) && !IsParked(p) && FindPattern(ps, p.patternID) == Some(pat) && Sound(ps, m, pid, p)
    ensures p.currentStep + 1 < |pat.states| ==>
              var q := OneUp(p, e, pat.states);
              && q.currentStep == p.currentStep + 1
              && (IsParked(q) <==> pat.states[q.currentStep].isNegative)
  {
    hide Bindings;
    var i :| 0 <= i < |ps| && ps[i] == pat;
    if p.currentStep + 1 < |pat.states| {
      assert Duration(ps[i].states[p.currentStep + 1].maxWait) >= 0;
    }
  }

  lemma WaitingCompletes(cfg: Config, s: Shard, e: Event, m: string, pid: string, p: Progress, pat: Pattern)
    requires Proper(cfg.patterns) && !Late(s, e) && e.memberID == m && p.currentStep < |pat.states|
    requires !IsParked(p) && FindPattern(cfg.patterns, p.patternID) == Some(pat)
    requires Sound(cfg.patterns, m, pid, p)
    ensures var c := Completed(cfg, true, s.watermark, e, m, Some(p));
            && (c.Some? <==> WayOf(cfg, s, e, m, p, pat.states).Finishes?)
            && (c.Some? ==> c.value == Match(pat.id, pat.name, m,
                  p.variables + Bindings(e, pat.states[p.currentStep].contextBinding), e.occurredAt))
  {
    hide Satisfies, Bindings, Duration, Proper, PastAllWaits, Advance, Sweeps, Sound, OneUp;
    SweepMeans(cfg.patterns, p, Reached(cfg, s, e));
    WaitingAdvances(cfg.patterns, e, m, pid, p, pat);
  }
}
