/** Event patterns and the progress of one attempt at one of them
    (service/base/cep/model/entity.go, service/engine/core/cep.go), as values. */
module Patterns {
  import opened Basics
  import opened Rules
  import opened Events

  datatype PatternState = PatternState(
    name: string,
    condition: RuleNode,
    maxWait: Option<TimeWindow>,
    isNegative: bool,
    contextBinding: map<string, string>)

  datatype Pattern = Pattern(id: string, name: string, states: seq<PatternState>)

  datatype Progress = Progress(
    id: string,
    patternID: string,
    memberID: string,
    currentStep: nat,
    variables: map<string, Value>,
    startedAt: int,
    processedEvents: seq<string>,
    negativeDeadline: int)

  datatype Match = Match(
    patternID: string,
    patternName: string,
    memberID: string,
    variables: map<string, Value>,
    matchedAt: int)

  /** A pending deadline of a negative state. */
  datatype Entry = Entry(deadline: int, memberID: string, progressID: string)

  /** patternByID */
  function FindPattern(ps: seq<Pattern>, id: string): (r: Option<Pattern>)
    ensures r.Some? ==> r.value in ps && r.value.id == id
    ensures r.None? ==> forall p :: p in ps ==> p.id != id
  {
    if ps == [] then None
    else if ps[0].id == id then Some(ps[0])
    else
      assert ps == [ps[0]] + ps[1..];
      FindPattern(ps[1..], id)
  }

  /** The longest wait of any state, 0 when no state waits. */
  function MaxWait(states: seq<PatternState>): (d: int)
    ensures d >= 0
    ensures forall i :: 0 <= i < |states| && states[i].maxWait.Some? ==> Duration(states[i].maxWait) <= d
  {
    if states == [] then 0
    else
      var last := |states| - 1;
      var d := MaxWait(states[..last]);
      assert forall i :: 0 <= i < last ==> states[i] == states[..last][i];
      if states[last].maxWait.Some? && Duration(states[last].maxWait) > d then Duration(states[last].maxWait) else d
  }

  /** What AddPattern asks of a pattern, apart from its conditions compiling. */
  predicate WellShaped(p: Pattern) {
    && p.states != []
    && !p.states[0].isNegative
    && forall i :: 0 <= i < |p.states| && p.states[i].isNegative ==>
         i == |p.states| - 1 && p.states[i].maxWait.Some?
  }

  /** In other words: only the last state may be negative, and then another comes before it and it waits. */
  lemma ShapeMeans(p: Pattern)
    ensures WellShaped(p) <==>
              && p.states != [] && (forall st :: st in p.states[..|p.states| - 1] ==> !st.isNegative)
              && var last := p.states[|p.states| - 1];
                 last.isNegative ==> |p.states| > 1 && last.maxWait.Some?
  {
    if p.states != [] {
      var init := p.states[..|p.states| - 1];
      if WellShaped(p) {
        forall st | st in init ensures !st.isNegative {
          var i :| 0 <= i < |init| && init[i] == st;
          assert p.states[i] == st;
        }
      } else if forall st :: st in init ==> !st.isNegative {
        assert forall i :: 0 <= i < |init| ==> p.states[i] == init[i] && init[i] in init;
      }
    }
  }

  /** The pattern sets the engine is meant to run: accepted by AddPattern, no negative waits, and IDs
      that are distinct and contain no bar. */
  ghost predicate Proper(ps: seq<Pattern>) {
    && (forall i :: 0 <= i < |ps| ==> WellShaped(ps[i]) && '|' !in ps[i].id)
    && (forall i, j :: 0 <= i < |ps| && 0 <= j < |ps[i].states| ==> Duration(ps[i].states[j].maxWait) >= 0)
    && (forall i, j :: 0 <= i < j < |ps| ==> ps[i].id != ps[j].id)
  }

  /** deterministicProgressID */
  function ProgressID(patternID: string, memberID: string, startEventID: string): string {
    patternID + "|" + memberID + "|" + startEventID
  }

  function TrimEvent(source: string): string { if "$event." <= source then source[7..] else source }

  /** extractBindings */
  function Bindings(e: Event, binding: map<string, string>): map<string, Value> {
    map x | x in binding && TrimEvent(binding[x]) in e.fields :: e.fields[TrimEvent(binding[x])]
  }

  /** The event gives variable `x` the value `v`: the source of `x` is a field of the event, written with
      or without "$event." before it. */
  ghost predicate Binds(e: Event, binding: map<string, string>, x: string, v: Value) {
    x in binding
    && exists f :: f in e.fields && e.fields[f] == v
                   && (binding[x] == "$event." + f || (binding[x] == f && !("$event." <= f)))
  }

  /** A variable is bound exactly when the event has the field its source names, and then to its value. */
  lemma BindingsMean(e: Event, binding: map<string, string>, x: string, v: Value)
    ensures x in Bindings(e, binding) && Bindings(e, binding)[x] == v <==> Binds(e, binding, x, v)
  {
    if x in binding {
      var source := binding[x];
      if "$event." <= source { assert source == "$event." + source[|"$event."|..]; }
      assert forall f: string :: ("$event." + f)[7..] == f;
      if x in Bindings(e, binding) && Bindings(e, binding)[x] == v {
        assert TrimEvent(source) in e.fields && e.fields[TrimEvent(source)] == v;
      }
    }
  }

  /** cepMatchState: an error counts as no match. */
  function Satisfies(e: Event, condition: RuleNode, vars: map<string, Value>): bool {
    Evaluate(condition, MapContext(EvalFields(e), vars)) == YES
  }

  // ---------- Sweep ----------

  function Sweeps(ps: seq<Pattern>, p: Progress, watermark: int): bool {
    match FindPattern(ps, p.patternID)
    case None => true
    case Some(pat) => MaxWait(pat.states) > 0 && watermark - p.startedAt > MaxWait(pat.states)
  }

  /** sweepExpiredProgresses */
  function Swept(ps: seq<Pattern>, progs: map<string, Progress>, watermark: int): map<string, Progress> {
    map id | id in progs && !Sweeps(ps, progs[id], watermark) :: progs[id]
  }

  /** MaxWait is 0 or the own wait of some state. */
  lemma {:induction false} MaxWaitIsReached(states: seq<PatternState>)
    ensures MaxWait(states) == 0
         || exists i :: 0 <= i < |states| && states[i].maxWait.Some? && Duration(states[i].maxWait) == MaxWait(states)
    decreases |states|
  {
    hide Duration;
    if states != [] {
      var last := |states| - 1;
      MaxWaitIsReached(states[..last]);
      if MaxWait(states) == MaxWait(states[..last]) && MaxWait(states) != 0 {
        var i :| 0 <= i < last && states[..last][i].maxWait.Some?
              && Duration(states[..last][i].maxWait) == MaxWait(states);
        assert states[i] == states[..last][i];
      }
    }
  }

  /** Some state waits, and the clock is past the wait of every single state. */
  ghost predicate PastAllWaits(states: seq<PatternState>, startedAt: int, clock: int) {
    && (exists i :: 0 <= i < |states| && Duration(states[i].maxWait) > 0)
    && (forall i :: 0 <= i < |states| ==> clock > startedAt + Duration(states[i].maxWait))
  }

  /** A progress is swept exactly when the clock is past the wait of every state, or its pattern is gone. */
  lemma SweepMeans(ps: seq<Pattern>, p: Progress, clock: int)
    ensures Sweeps(ps, p, clock) <==>
              match FindPattern(ps, p.patternID)
              case None => true
              case Some(pat) => PastAllWaits(pat.states, p.startedAt, clock)
  {
    hide Duration;
    match FindPattern(ps, p.patternID)
    case None =>
    case Some(pat) => WaitsDecide(pat.states, p.startedAt, clock);
  }

  lemma WaitsDecide(states: seq<PatternState>, startedAt: int, clock: int)
    ensures MaxWait(states) > 0 && clock - startedAt > MaxWait(states) <==> PastAllWaits(states, startedAt, clock)
  {
    MaxWaitIsReached(states);
    NoWaitIsZero();
    hide Duration, MaxWait;
    if PastAllWaits(states, startedAt, clock) {
      var i :| 0 <= i < |states| && Duration(states[i].maxWait) > 0;
      assert states[i].maxWait.Some?;
    }
  }

  lemma NoWaitIsZero()
    ensures Duration(None) == 0
  {
  }

  // ---------- Advance ----------

  /** What an event does to a progress: leave or move it, move it onto the negative state, drop it,
      or complete the pattern. */
  datatype Outcome = Keep(progress: Progress) | Park(progress: Progress) | Remove | Complete(result: Match)

  function Moved(p: Progress, e: Event, state: PatternState): Progress {
    p.(variables := p.variables + Bindings(e, state.contextBinding),
       currentStep := p.currentStep + 1,
       processedEvents := p.processedEvents + [e.eventID])
  }

  /** The last part of advanceProgress: the event satisfied the state the progress was waiting on. */
  function MovedOn(pat: Pattern, e: Event, p: Progress): Outcome
    requires p.currentStep < |pat.states|
  {
    var p' := Moved(p, e, pat.states[p.currentStep]);
    if p'.currentStep >= |pat.states| then
      Complete(Match(pat.id, pat.name, e.memberID, p'.variables, e.occurredAt))
    else if pat.states[p'.currentStep].isNegative then
      Park(p'.(negativeDeadline := p'.startedAt + Duration(pat.states[p'.currentStep].maxWait)))
    else Keep(p')
  }

  /** advanceProgress */
  function Advance(ps: seq<Pattern>, e: Event, p: Progress): Outcome {
    match FindPattern(ps, p.patternID)
    case None => Remove
    case Some(pat) =>
      if p.currentStep >= |pat.states| then Remove
      else if e.eventID in p.processedEvents then Keep(p)
      else
        var state := pat.states[p.currentStep];
        if state.isNegative then
          if e.occurredAt > p.negativeDeadline then Keep(p)
          else if Satisfies(e, state.condition, p.variables) then Remove
          else Keep(p)
        else if state.maxWait.Some? && e.occurredAt > p.startedAt + Duration(state.maxWait) then Remove
        else if !Satisfies(e, state.condition, p.variables) then Keep(p)
        else MovedOn(pat, e, p)
  }

  function Stays(o: Outcome): bool { o.Keep? || o.Park? }

  /** What the loop over the progresses leaves behind, in whatever order it visits them. */
  function Advanced(ps: seq<Pattern>, e: Event, progs: map<string, Progress>): map<string, Progress> {
    map id | id in progs && Stays(Advance(ps, e, progs[id])) :: Advance(ps, e, progs[id]).progress
  }

  function Completions(ps: seq<Pattern>, e: Event, progs: map<string, Progress>): map<string, Match> {
    map id | id in progs && Advance(ps, e, progs[id]).Complete? :: Advance(ps, e, progs[id]).result
  }

  function EntryOf(e: Event, p: Progress): Entry { Entry(p.negativeDeadline, e.memberID, p.id) }

  function Parkings(ps: seq<Pattern>, e: Event, progs: map<string, Progress>): set<Entry> {
    set id | id in progs && Advance(ps, e, progs[id]).Park? :: EntryOf(e, Advance(ps, e, progs[id]).progress)
  }

  // ---------- Start ----------

  datatype Started = Started(progs: map<string, Progress>, instants: seq<Match>, parked: set<Entry>)

  function NewProgress(pat: Pattern, e: Event): Progress
    requires |pat.states| >= 2
  {
    Progress(
      ProgressID(pat.id, e.memberID, e.eventID), pat.id, e.memberID, 1,
      Bindings(e, pat.states[0].contextBinding), e.occurredAt, [e.eventID],
      if pat.states[1].isNegative then e.occurredAt + Duration(pat.states[1].maxWait) else ZERO_TIME)
  }

  function Start(pat: Pattern, e: Event, s: Started): Started {
    if pat.states == [] || !Satisfies(e, pat.states[0].condition, map[]) then s
    else if ProgressID(pat.id, e.memberID, e.eventID) in s.progs then s
    else if |pat.states| == 1 then
      s.(instants := s.instants
           + [Match(pat.id, pat.name, e.memberID, Bindings(e, pat.states[0].contextBinding), e.occurredAt)])
    else
      var p := NewProgress(pat, e);
      s.(progs := s.progs[p.id := p],
         parked := if pat.states[1].isNegative then s.parked + {EntryOf(e, p)} else s.parked)
  }

  function Starts(ps: seq<Pattern>, e: Event, s: Started): Started {
    if ps == [] then s
    else Start(ps[|ps| - 1], e, Starts(ps[..|ps| - 1], e, s))
  }

  // ---------- One event against one member ----------

  datatype CepResult = CepResult(
    progs: map<string, Progress>,
    completed: map<string, Match>,
    instants: seq<Match>,
    parked: set<Entry>)

  /** processCEP, after the sweep. */
  function Cep(ps: seq<Pattern>, e: Event, kept: map<string, Progress>): CepResult {
    var started := Starts(ps, e, Started(Advanced(ps, e, kept), [], {}));
    CepResult(started.progs, Completions(ps, e, kept), started.instants, Parkings(ps, e, kept) + started.parked)
  }

  // ---------- Facts about single progresses ----------

  lemma FindsItself(ps: seq<Pattern>, pat: Pattern)
    requires Proper(ps) && pat in ps
    ensures FindPattern(ps, pat.id) == Some(pat)
  {
    var i :| 0 <= i < |ps| && ps[i] == pat;
    var r := FindPattern(ps, pat.id);
    var j :| 0 <= j < |ps| && ps[j] == r.value;
  }

  /** With bar-free pattern IDs a progress ID tells its pattern and its start event. */
  lemma ProgressIDInjective(p: string, q: string, m: string, e: string, f: string)
    requires '|' !in p && '|' !in q && ProgressID(p, m, e) == ProgressID(q, m, f)
    ensures p == q && e == f
  {
    var s := ProgressID(p, m, e);
    assert s[|p|] == '|' && s[|q|] == '|';
    assert forall i :: 0 <= i < |p| ==> s[i] == p[i];
    assert forall i :: 0 <= i < |q| ==> s[i] == q[i];
    assert |p| == |q|;
    assert p == s[..|p|] == q;
    assert e == s[|p| + 1 + |m| + 1..] == f;
  }

  /** With bar-free member IDs too it tells the member. */
  lemma ProgressIDTellsMember(p: string, q: string, m: string, n: string, e: string, f: string)
    requires '|' !in p && '|' !in q && '|' !in m && '|' !in n && ProgressID(p, m, e) == ProgressID(q, n, f)
    ensures p == q && m == n && e == f
  {
    assert ProgressID(p, m, e) == p + "|" + (m + "|" + e) && ProgressID(q, n, f) == q + "|" + (n + "|" + f);
    BarSplits(p, m + "|" + e, q, n + "|" + f);
    BarSplits(m, e, n, f);
  }

  lemma BarSplits(a: string, b: string, c: string, d: string)
    requires '|' !in a && '|' !in c && a + "|" + b == c + "|" + d
    ensures a == c && b == d
  {
    var s := a + "|" + b;
    assert s[|a|] == '|' && s[|c|] == '|';
    assert forall i :: 0 <= i < |a| ==> s[i] == a[i];
    assert forall i :: 0 <= i < |c| ==> s[i] == c[i];
    assert |a| == |c|;
    assert a == s[..|a|] == c;
    assert b == s[|a| + 1..] == d;
  }

  /** The shape every stored progress keeps. */
  ghost predicate Sound(ps: seq<Pattern>, m: string, id: string, p: Progress) {
    FindPattern(ps, p.patternID).Some? &&
    var states := FindPattern(ps, p.patternID).value.states;
    && p.id == id && p.memberID == m
    && 1 <= p.currentStep < |states|
    && |p.processedEvents| == p.currentStep && NoDuplicates(p.processedEvents)
    && id == ProgressID(p.patternID, m, p.processedEvents[0])
    && p.startedAt >= 0
    && p.negativeDeadline ==
         (if states[p.currentStep].isNegative then p.startedAt + Duration(states[p.currentStep].maxWait) else ZERO_TIME)
  }

  predicate IsParked(p: Progress) { p.negativeDeadline != ZERO_TIME }

  /** The marker field says exactly whether the progress sits on the terminal negative state. */
  lemma ParkedIffNegative(ps: seq<Pattern>, m: string, id: string, p: Progress)
    requires Proper(ps) && Sound(ps, m, id, p)
    ensures var states := FindPattern(ps, p.patternID).value.states;
            IsParked(p) <==> states[p.currentStep].isNegative
    ensures var states := FindPattern(ps, p.patternID).value.states;
            IsParked(p) ==> p.currentStep == |states| - 1 && p.negativeDeadline >= p.startedAt
  {
    var pat := FindPattern(ps, p.patternID).value;
    var i :| 0 <= i < |ps| && ps[i] == pat;
    assert Duration(ps[i].states[p.currentStep].maxWait) >= 0;
  }

  lemma AdvanceKeepsSound(ps: seq<Pattern>, m: string, id: string, p: Progress, e: Event)
    requires Proper(ps) && Sound(ps, m, id, p) && e.memberID == m && Stays(Advance(ps, e, p))
    ensures Sound(ps, m, id, Advance(ps, e, p).progress)
    ensures Advance(ps, e, p).Keep? && IsParked(Advance(ps, e, p).progress) ==> Advance(ps, e, p).progress == p
    ensures Advance(ps, e, p).progress != p ==> !IsParked(p)
  {
    ParkedIffNegative(ps, m, id, p);
    var p' := Advance(ps, e, p).progress;
    assert p'.processedEvents[0] == p.processedEvents[0];
  }

  /** A new progress is sound and carries the event's own ID. */
  lemma NewIsSound(ps: seq<Pattern>, pat: Pattern, e: Event)
    requires Proper(ps) && pat in ps && |pat.states| >= 2 && e.occurredAt >= 0
    ensures Sound(ps, e.memberID, NewProgress(pat, e).id, NewProgress(pat, e))
  {
    FindsItself(ps, pat);
  }

  /** `pat` opened progress `id` on event `e`, with its deadline registered if it starts out parked. */
  ghost predicate Opened(pat: Pattern, e: Event, id: string, s: Started) {
    && |pat.states| >= 2
    && Satisfies(e, pat.states[0].condition, map[])
    && id in s.progs && s.progs[id] == NewProgress(pat, e) && NewProgress(pat, e).id == id
    && (pat.states[1].isNegative ==> EntryOf(e, NewProgress(pat, e)) in s.parked)
  }

  lemma StartAdds(pat: Pattern, e: Event, s: Started, id: string)
    ensures var s' := Start(pat, e, s);
            && s.parked <= s'.parked
            && (id in s.progs ==> id in s'.progs && s'.progs[id] == s.progs[id])
            && (id in s'.progs && id !in s.progs ==> Opened(pat, e, id, s'))
            && (forall q :: Opened(q, e, id, s) ==> Opened(q, e, id, s'))
  {
  }

  /** The start loop only adds progresses this event opens, each under its own ID. */
  lemma {:induction false} StartsAdds(ps: seq<Pattern>, e: Event, s: Started, id: string)
    ensures var s' := Starts(ps, e, s);
            && s.parked <= s'.parked
            && (id in s.progs ==> id in s'.progs && s'.progs[id] == s.progs[id])
            && (id in s'.progs && id !in s.progs ==> exists pat :: pat in ps && Opened(pat, e, id, s'))
  {
    if ps != [] {
      var init, last := ps[..|ps| - 1], ps[|ps| - 1];
      StartsAdds(init, e, s, id);
      var mid := Starts(init, e, s);
      StartAdds(last, e, mid, id);
      if id in mid.progs && id !in s.progs {
        var pat :| pat in init && Opened(pat, e, id, mid);
        assert pat in ps;
      } else {
        assert last in ps;
      }
    }
  }
}
