/** Core: one shard's event processor (service/engine/core/core.go, cep.go, negative_queue.go, eval.go,
    watermark.go, snapshot.go), proved against the state machine in `Shards`. */
module Engine {
  import opened Basics
  import opened Rules
  import opened Events
  import opened Compiler
  import opened AggregateKeys
  import opened Buckets
  import opened Patterns
  import opened RuleFiring
  import opened KeyGroups
  import opened Shards
  import opened Histories
  import opened Invariants
  import opened Objects
  import opened ShardStates
  import DeadlineHeap

  /** A pattern with each state's condition compiled once. */
  datatype CompiledPattern = CompiledPattern(pattern: Pattern, compiled: seq<CompiledRule>)

  function PatternsOf(cps: seq<CompiledPattern>): (ps: seq<Pattern>)
    ensures |ps| == |cps| && forall i :: 0 <= i < |ps| ==> ps[i] == cps[i].pattern
  {
    seq(|cps|, i requires 0 <= i < |cps| => cps[i].pattern)
  }

  ghost predicate PatternOK(cp: CompiledPattern) {
    && WellShaped(cp.pattern)
    && |cp.compiled| == |cp.pattern.states|
    && forall i :: 0 <= i < |cp.compiled| ==> MeansSame(cp.compiled[i], cp.pattern.states[i].condition)
  }

  /** cepMatchState */
  function MatchState(e: Event, rule: CompiledRule, vars: map<string, Value>): bool {
    rule(MapContext(EvalFields(e), vars)) == YES
  }

  lemma MatchStateMeans(e: Event, rule: CompiledRule, vars: map<string, Value>, condition: RuleNode)
    requires MeansSame(rule, condition)
    ensures MatchState(e, rule, vars) == Satisfies(e, condition, vars)
  {
    assert WindowBlind(MapContext(EvalFields(e), vars));
  }

  /** The loop of AddPattern over the conditions. */
  method CompileStates(states: seq<PatternState>) returns (r: Option<seq<CompiledRule>>)
    ensures r.Some? <==> forall st :: st in states ==> Accepted(st.condition)
    ensures r.Some? ==> |r.value| == |states|
    ensures r.Some? ==> forall i :: 0 <= i < |states| ==> MeansSame(r.value[i], states[i].condition)
  {
    var compiled: seq<CompiledRule> := [];
    for i := 0 to |states|
      invariant |compiled| == i
      invariant forall j :: 0 <= j < i ==> Accepted(states[j].condition) && MeansSame(compiled[j], states[j].condition)
    {
      var c := Compile(states[i].condition);
      if c.Rejected? {
        return None;
      }
      compiled := compiled + [c.rule];
    }
    r := Some(compiled);
  }

  /** The queued entries, however often each is queued. */
  ghost function Queue(h: seq<Entry>): set<Entry> { set x | x in h }

  lemma QueueGrows(h: seq<Entry>, r: seq<Entry>, x: Entry)
    requires multiset(r) == multiset(h) + multiset{x}
    ensures Queue(r) == Queue(h) + {x}
  {
    forall y ensures y in r <==> y in h || y == x {
      assert y in r <==> y in multiset(r);
      assert y in h <==> y in multiset(h);
    }
  }

  /** Of the progresses `before`, those not in `todo` have been kept or swept. */
  ghost predicate SomeKept(ps: seq<Pattern>, before: map<string, Progress>, todo: set<string>, watermark: int,
                           now: map<string, Progress>)
  {
    && todo <= now.Keys <= before.Keys
    && (forall id :: id in now ==> now[id] == before[id])
    && (forall id :: id in before && id !in todo ==> (id in now <==> !Sweeps(ps, before[id], watermark)))
  }

  lemma NoneKept(ps: seq<Pattern>, before: map<string, Progress>, watermark: int)
    ensures SomeKept(ps, before, before.Keys, watermark, before)
  {
  }

  lemma KeptMore(ps: seq<Pattern>, before: map<string, Progress>, todo: set<string>, id: string, watermark: int,
                 now: map<string, Progress>)
    requires SomeKept(ps, before, todo, watermark, now) && id in todo
    ensures id in before && id in now && now[id] == before[id]
    ensures SomeKept(ps, before, todo - {id}, watermark, if Sweeps(ps, before[id], watermark) then now - {id} else now)
  {
    hide Sweeps;
  }

  lemma AllKept(ps: seq<Pattern>, before: map<string, Progress>, watermark: int, now: map<string, Progress>)
    requires SomeKept(ps, before, {}, watermark, now)
    ensures now == Swept(ps, before, watermark)
  {
    hide Sweeps;
  }

  /** What a progress looks like after the loop over the progresses visited it. */
  ghost predicate Visited(o: Outcome, here: bool, value: Progress) {
    here == Stays(o) && (here ==> value == o.progress)
  }

  lemma VisitOne(ps: seq<Pattern>, e: Event, progs: map<string, Progress>, todo: set<string>, id: string)
    requires id in todo && todo <= progs.Keys
    ensures Parkings(ps, e, progs - (todo - {id})) ==
              Parkings(ps, e, progs - todo)
              + (if Advance(ps, e, progs[id]).Park? then {EntryOf(e, Advance(ps, e, progs[id]).progress)} else {})
    ensures Completions(ps, e, progs - (todo - {id})) ==
              if Advance(ps, e, progs[id]).Complete?
              then Completions(ps, e, progs - todo)[id := Advance(ps, e, progs[id]).result]
              else Completions(ps, e, progs - todo)
  {
    hide Advance;
    var less := progs - (todo - {id});
    assert forall x :: x in less <==> x in progs - todo || x == id;
  }

  /** The out-of-order slack unless configured. */
  const DEFAULT_LATENESS: int := 5 * SECOND

  /** Five seconds of slack and a day of retention; the zero time is 1969 years with 477 leap days before
      the epoch. */
  lemma DefaultsAre()
    ensures ZERO_TIME == -(1969 * 365 + 477) * Duration(Some(TimeWindow(1, "days")))
    ensures DEFAULT_LATENESS == 5_000_000_000
    ensures DEFAULT_MAX_WINDOW == Duration(Some(TimeWindow(24, "hours"))) == Duration(Some(TimeWindow(1, "days")))
  {
    assert ToLower("hours") == "hours" && ToLower("days") == "days";
    assert |"hours"| == 5 && |"minutes"| == 7 && |"days"| == 4;
  }

  class Core {
    const state: ShardState
    const ruleSet: CompiledRuleSet
    ghost const rules: seq<Rule>
    const show: Printer
    const maxWindow: int
    const allowedLateness: int
    const lateSink: bool // whether a late sink is registered
    var patterns: seq<CompiledPattern>
    var watermark: int
    var negDeadlines: seq<Entry>
    var lastSeq: nat
    var replaying: bool
    var sideOutput: seq<Event> // what the late sink has received

    ghost predicate PatternsOK()
      reads this`patterns
    {
      forall i :: 0 <= i < |patterns| ==> PatternOK(patterns[i])
    }

    ghost function Cfg(): Config
      reads this`patterns
    {
      Config(PatternsOf(patterns), maxWindow, allowedLateness)
    }

    /** NewCore */
    constructor (hash: string -> nat, ruleSet: CompiledRuleSet, ghost rules: seq<Rule>, show: Printer,
                 lateness: Option<int>, lateSink: bool)
      requires ImplementsAll(ruleSet.strategies, rules)
      ensures fresh(state) && state.hash == hash && state.Valid() && state.groups == {} && state.owned == {}
      ensures this.ruleSet == ruleSet && this.rules == rules && this.show == show && this.lateSink == lateSink
      ensures Cfg() == Config([], Retention(ruleSet),
                              if lateness.Some? then lateness.value else DEFAULT_LATENESS)
      ensures state.Live() == map[] && watermark == 0 && negDeadlines == [] && lastSeq == 0
      ensures !replaying && sideOutput == [] && state.frozenEpoch == 0
    {
      this.ruleSet, this.rules, this.show, this.lateSink := ruleSet, rules, show, lateSink;
      maxWindow := if ruleSet.maxWindow == 0 then DEFAULT_MAX_WINDOW else ruleSet.maxWindow;
      allowedLateness := if lateness.Some? then lateness.value else DEFAULT_LATENESS;
      state := new ShardState(hash);
      patterns, watermark, negDeadlines, lastSeq, replaying, sideOutput := [], 0, [], 0, false, [];
    }

    // ---------- Patterns ----------

    /** AddPattern */
    method AddPattern(pattern: Pattern) returns (ok: bool)
      requires PatternsOK()
      modifies this`patterns
      ensures PatternsOK()
      ensures ok <==> WellShaped(pattern) && forall st :: st in pattern.states ==> Accepted(st.condition)
      ensures PatternsOf(patterns) == PatternsOf(old(patterns)) + if ok then [pattern] else []
    {
      if |pattern.states| == 0 {
        return false;
      }
      if pattern.states[0].isNegative {
        return false;
      }
      for i := 0 to |pattern.states|
        invariant patterns == old(patterns)
        invariant forall j :: 0 <= j < i && pattern.states[j].isNegative ==>
                    j == |pattern.states| - 1 && pattern.states[j].maxWait.Some?
      {
        var st := pattern.states[i];
        if st.isNegative && i != |pattern.states| - 1 {
          return false;
        }
        if st.isNegative && st.maxWait.None? {
          return false;
        }
      }
      var compiled := CompileStates(pattern.states);
      if compiled.None? {
        return false;
      }
      patterns := patterns + [CompiledPattern(pattern, compiled.value)];
      ok := true;
    }

    /** patternByID */
    method PatternByID(id: string) returns (r: Option<CompiledPattern>)
      requires PatternsOK()
      ensures r.Some? ==> PatternOK(r.value)
      ensures FindPattern(PatternsOf(patterns), id) == if r.Some? then Some(r.value.pattern) else None
    {
      for i := 0 to |patterns|
        invariant forall j :: 0 <= j < i ==> patterns[j].pattern.id != id
      {
        if patterns[i].pattern.id == id {
          FirstIsFound(PatternsOf(patterns), id, i);
          return Some(patterns[i]);
        }
      }
      r := None;
    }

    // ---------- Deadlines ----------

    /** pushNegativeDeadline */
    method PushNegativeDeadline(deadline: int, memberID: string, progressID: string)
      requires DeadlineHeap.IsHeap(negDeadlines)
      modifies this`negDeadlines
      ensures DeadlineHeap.IsHeap(negDeadlines)
      ensures Queue(negDeadlines) == old(Queue(negDeadlines)) + {Entry(deadline, memberID, progressID)}
    {
      var h := DeadlineHeap.Push(negDeadlines, Entry(deadline, memberID, progressID));
      QueueGrows(negDeadlines, h, Entry(deadline, memberID, progressID));
      negDeadlines := h;
    }

    // ---------- One event against one member ----------

    /** sweepExpiredProgresses, visiting the progresses in any order. */
    method SweepExpiredProgresses(ms: MemberState, watermark: int)
      requires PatternsOK() && ms.Valid()
      modifies ms`progresses
      ensures ms.Valid() && ms.Progs() <= old(ms.Progs())
      ensures ms.ProgressValues() == Swept(PatternsOf(patterns), old(ms.ProgressValues()), watermark)
    {
      hide Sweeps, SomeKept, MemberState.Valid, MemberState.Progs, MemberState.ProgressValues;
      ghost var ps, before := PatternsOf(patterns), ms.ProgressValues();
      NoneKept(ps, before, watermark);
      var todo := ms.progresses.Keys;
      while todo != {}
        invariant todo <= before.Keys && ms.Valid() && ms.Progs() <= old(ms.Progs())
        invariant SomeKept(ps, before, todo, watermark, ms.ProgressValues())
        decreases todo
      {
        var id :| id in todo;
        KeptMore(ps, before, todo, id, watermark, ms.ProgressValues());
        ms.ProgressAt(id);
        if Sweeps(PatternsOf(patterns), ms.progresses[id].Value(), watermark) {
          DropProgress(ms, id);
        }
        todo := todo - {id};
      }
      AllKept(ps, before, watermark, ms.ProgressValues());
    }

    /** advanceProgress: the completed match, if any, and whether to drop the progress. */
    method AdvanceProgress(e: Event, p: PatternProgress) returns (result: Option<Match>, remove: bool)
      requires PatternsOK() && DeadlineHeap.IsHeap(negDeadlines)
      modifies this`negDeadlines, p
      ensures DeadlineHeap.IsHeap(negDeadlines)
      ensures var o := Advance(PatternsOf(patterns), e, old(p.Value()));
              && Visited(o, !remove, p.Value())
              && result == (if o.Complete? then Some(o.result) else None)
              && Queue(negDeadlines) == old(Queue(negDeadlines)) + if o.Park? then {EntryOf(e, o.progress)} else {}
    {
      hide FindPattern, Satisfies, MatchState, Queue, Duration;
      var found := PatternByID(p.patternID);
      if found.None? {
        return None, true;
      }
      var cp := found.value;
      if p.currentStep >= |cp.pattern.states| {
        return None, true;
      }
      if e.eventID in p.processedEvents {
        return None, false;
      }
      var st := cp.pattern.states[p.currentStep];
      MatchStateMeans(e, cp.compiled[p.currentStep], p.variables, st.condition);
      if st.isNegative {
        if e.occurredAt > p.negativeDeadline {
          return None, false;
        }
        if !MatchState(e, cp.compiled[p.currentStep], p.variables) {
          return None, false;
        }
        return None, true;
      }
      if st.maxWait.Some? {
        var deadline := p.startedAt + Duration(st.maxWait);
        if e.occurredAt > deadline {
          return None, true;
        }
      }
      if !MatchState(e, cp.compiled[p.currentStep], p.variables) {
        return None, false;
      }
      result, remove := MoveOn(e, p, cp);
    }

    /** The event matched: bind, step, and complete the pattern or wait for the next state. */
    method MoveOn(e: Event, p: PatternProgress, cp: CompiledPattern) returns (result: Option<Match>, remove: bool)
      requires DeadlineHeap.IsHeap(negDeadlines) && p.currentStep < |cp.pattern.states|
      modifies this`negDeadlines, p
      ensures DeadlineHeap.IsHeap(negDeadlines)
      ensures var o := MovedOn(cp.pattern, e, old(p.Value()));
              && Visited(o, !remove, p.Value())
              && result == (if o.Complete? then Some(o.result) else None)
              && Queue(negDeadlines) == old(Queue(negDeadlines)) + if o.Park? then {EntryOf(e, o.progress)} else {}
    {
      hide Queue;
      p.variables := p.variables + Bindings(e, cp.pattern.states[p.currentStep].contextBinding);
      p.currentStep := p.currentStep + 1;
      p.processedEvents := p.processedEvents + [e.eventID];
      if p.currentStep >= |cp.pattern.states| {
        return Some(Match(cp.pattern.id, cp.pattern.name, e.memberID, p.variables, e.occurredAt)), true;
      }
      var next := cp.pattern.states[p.currentStep];
      if next.isNegative {
        var deadline := p.startedAt + Duration(next.maxWait);
        p.negativeDeadline := deadline;
        PushNegativeDeadline(deadline, e.memberID, p.id);
      }
      return None, false;
    }

    /** One turn of the loop over the progresses. */
    method VisitProgress(ms: MemberState, id: string, e: Event) returns (result: Option<Match>)
      requires PatternsOK() && DeadlineHeap.IsHeap(negDeadlines) && ms.Valid() && id in ms.progresses
      modifies this`negDeadlines, ms`progresses, ms.progresses[id]
      ensures DeadlineHeap.IsHeap(negDeadlines) && ms.Valid() && ms.Progs() <= old(ms.Progs())
      ensures var o := Advance(PatternsOf(patterns), e, old(ms.ProgressValues())[id]);
              && ms.ProgressValues() == (if Stays(o) then old(ms.ProgressValues())[id := o.progress]
                                         else old(ms.ProgressValues()) - {id})
              && result == (if o.Complete? then Some(o.result) else None)
              && Queue(negDeadlines) == old(Queue(negDeadlines)) + if o.Park? then {EntryOf(e, o.progress)} else {}
    {
      hide Advance, Queue, MemberState.Valid;
      ghost var before := ms.ProgressValues();
      var remove;
      result, remove := AdvanceProgress(e, ms.progresses[id]);
      ms.OneProgress(id);
      if remove {
        DropProgress(ms, id);
      }
    }

    /** delete(ms.Progresses, id) */
    method DropProgress(ms: MemberState, id: string)
      requires ms.Valid()
      modifies ms`progresses
      ensures ms.Valid() && ms.Progs() <= old(ms.Progs())
      ensures ms.ProgressValues() == old(ms.ProgressValues()) - {id}
    {
      ms.progresses := ms.progresses - {id};
    }

    /** The first loop of processCEP: advance every progress, visiting them in any order. */
    method AdvanceAll(ms: MemberState, e: Event) returns (results: seq<Match>, ghost order: seq<string>)
      requires PatternsOK() && DeadlineHeap.IsHeap(negDeadlines) && ms.Valid()
      modifies this`negDeadlines, ms`progresses, ms.Progs()
      ensures DeadlineHeap.IsHeap(negDeadlines) && ms.Valid() && ms.Progs() <= old(ms.Progs())
      ensures ms.ProgressValues() == Advanced(PatternsOf(patterns), e, old(ms.ProgressValues()))
      ensures Enumerates(results, order, Completions(PatternsOf(patterns), e, old(ms.ProgressValues())))
      ensures Queue(negDeadlines) ==
                old(Queue(negDeadlines)) + Parkings(PatternsOf(patterns), e, old(ms.ProgressValues()))
    {
      hide Advance, Queue, MemberState.Valid, MemberState.Progs, MemberState.ProgressValues, Enumerates, SomeVisited;
      ghost var ps, before := PatternsOf(patterns), ms.ProgressValues();
      NoneVisited(ps, e, before);
      var todo := ms.progresses.Keys;
      results, order := [], [];
      while todo != {}
        invariant todo <= before.Keys && DeadlineHeap.IsHeap(negDeadlines)
        invariant ms.Valid() && ms.Progs() <= old(ms.Progs())
        invariant SomeVisited(ps, e, before, todo, ms.ProgressValues())
        invariant Enumerates(results, order, Completions(ps, e, before - todo))
        invariant Queue(negDeadlines) == old(Queue(negDeadlines)) + Parkings(ps, e, before - todo)
        decreases todo
      {
        var id :| id in todo;
        VisitOne(ps, e, before, todo, id);
        VisitedMore(ps, e, before, todo, id, ms.ProgressValues());
        var result := VisitProgress(ms, id, e);
        if result.Some? {
          EnumeratesMore(results, order, Completions(ps, e, before - todo), id, result.value);
          results, order := results + [result.value], order + [id];
        }
        todo := todo - {id};
      }
      AllVisited(ps, e, before, ms.ProgressValues());
    }

    /** One turn of the second loop of processCEP: an instant match, a new progress, or nothing. */
    method StartOne(ms: MemberState, e: Event, cp: CompiledPattern, ghost s: Started, ghost q: set<Entry>)
      returns (result: Option<Match>)
      requires PatternOK(cp) && DeadlineHeap.IsHeap(negDeadlines) && ms.Valid()
      requires s.progs == ms.ProgressValues() && Queue(negDeadlines) == q + s.parked
      modifies this`negDeadlines, ms`progresses
      ensures DeadlineHeap.IsHeap(negDeadlines) && ms.Valid()
      ensures forall o :: o in ms.Progs() ==> o in old(ms.Progs()) || fresh(o)
      ensures var t := Start(cp.pattern, e, s);
              && ms.ProgressValues() == t.progs && Queue(negDeadlines) == q + t.parked
              && t.instants == s.instants + if result.Some? then [result.value] else []
    {
      hide Satisfies, MatchState, Queue;
      var pat := cp.pattern;
      MatchStateMeans(e, cp.compiled[0], map[], pat.states[0].condition);
      if !MatchState(e, cp.compiled[0], map[]) {
        return None;
      }
      var id := ProgressID(pat.id, e.memberID, e.eventID);
      if id in ms.progresses {
        return None;
      }
      var vars := Bindings(e, pat.states[0].contextBinding);
      if |pat.states| == 1 {
        return Some(Match(pat.id, pat.name, e.memberID, vars, e.occurredAt));
      }
      Open(ms, e, pat, vars, q + s.parked);
      result := None;
    }

    /** Create the progress of a start event, with its deadline if the next state is negative. */
    method Open(ms: MemberState, e: Event, pat: Pattern, vars: map<string, Value>, ghost q: set<Entry>)
      requires DeadlineHeap.IsHeap(negDeadlines) && ms.Valid() && Queue(negDeadlines) == q
      requires |pat.states| >= 2 && vars == Bindings(e, pat.states[0].contextBinding)
      modifies this`negDeadlines, ms`progresses
      ensures DeadlineHeap.IsHeap(negDeadlines) && ms.Valid()
      ensures forall o :: o in ms.Progs() ==> o in old(ms.Progs()) || fresh(o)
      ensures var p := NewProgress(pat, e);
              && ms.ProgressValues() == old(ms.ProgressValues())[p.id := p]
              && Queue(negDeadlines) == if pat.states[1].isNegative then q + {EntryOf(e, p)} else q
    {
      hide Queue, DeadlineHeap.IsHeap, ProgressID, Bindings, Duration, MemberState.ProgressValues;
      hide PatternProgress.Value;
      assert forall o :: o in ms.Progs() ==> allocated(o);
      var id := ProgressID(pat.id, e.memberID, e.eventID);
      var deadline := Register(pat.states[1], e, id, q);
      PutProgress(ms, id, Progress(id, pat.id, e.memberID, 1, vars, e.occurredAt, [e.eventID], deadline));
    }

    /** The deadline of a second state that is negative. */
    method Register(state: PatternState, e: Event, id: string, ghost q: set<Entry>) returns (deadline: int)
      requires DeadlineHeap.IsHeap(negDeadlines) && Queue(negDeadlines) == q
      modifies this`negDeadlines
      ensures DeadlineHeap.IsHeap(negDeadlines)
      ensures deadline == if state.isNegative then e.occurredAt + Duration(state.maxWait) else ZERO_TIME
      ensures Queue(negDeadlines) == if state.isNegative then q + {Entry(deadline, e.memberID, id)} else q
    {
      hide Queue, DeadlineHeap.IsHeap;
      deadline := ZERO_TIME;
      if state.isNegative {
        deadline := e.occurredAt + Duration(state.maxWait);
        PushNegativeDeadline(deadline, e.memberID, id);
      }
    }

    /** ms.Progresses[id] = &PatternProgress{...} */
    method PutProgress(ms: MemberState, id: string, p: Progress)
      requires ms.Valid()
      modifies ms`progresses
      ensures ms.Valid() && ms.ProgressValues() == old(ms.ProgressValues())[id := p]
      ensures forall o :: o in ms.Progs() ==> o in old(ms.Progs()) || fresh(o)
    {
      var o := new PatternProgress.Of(p, ms, id);
      ms.progresses := ms.progresses[id := o];
    }

    /** The second loop of processCEP: try to start every pattern, in registration order. */
    method StartAll(ms: MemberState, e: Event) returns (instants: seq<Match>)
      requires PatternsOK() && DeadlineHeap.IsHeap(negDeadlines) && ms.Valid()
      modifies this`negDeadlines, ms`progresses
      ensures DeadlineHeap.IsHeap(negDeadlines) && ms.Valid()
      ensures forall o :: o in ms.Progs() ==> o in old(ms.Progs()) || fresh(o)
      ensures var t := Starts(PatternsOf(patterns), e, Started(old(ms.ProgressValues()), [], {}));
              && ms.ProgressValues() == t.progs && instants == t.instants
              && Queue(negDeadlines) == old(Queue(negDeadlines)) + t.parked
    {
      hide Start, Queue, PatternOK, MemberState.Valid, MemberState.ProgressValues, MemberState.Progs;
      ghost var ps, q := PatternsOf(patterns), Queue(negDeadlines);
      ghost var s := Started(ms.ProgressValues(), [], {});
      instants := [];
      for i := 0 to |patterns|
        invariant DeadlineHeap.IsHeap(negDeadlines) && ms.Valid()
        invariant forall o :: o in ms.Progs() ==> o in old(ms.Progs()) || fresh(o)
        invariant s == Starts(ps[..i], e, Started(old(ms.ProgressValues()), [], {}))
        invariant ms.ProgressValues() == s.progs && instants == s.instants && Queue(negDeadlines) == q + s.parked
      {
        assert ps[..i + 1][..i] == ps[..i];
        var result := StartOne(ms, e, patterns[i], s, q);
        s := Start(ps[i], e, s);
        if result.Some? {
          instants := instants + [result.value];
        }
      }
      assert ps[..|patterns|] == ps;
    }

    /** processCEP: sweep, advance, start. The matches come as the completed progresses, in some
        order, and then the single-state patterns. */
    method ProcessCEP(ms: MemberState, e: Event, watermark: int)
      returns (completed: seq<Match>, ghost order: seq<string>, instants: seq<Match>)
      requires PatternsOK() && DeadlineHeap.IsHeap(negDeadlines) && ms.Valid()
      modifies this`negDeadlines, ms`progresses, ms.Progs()
      ensures DeadlineHeap.IsHeap(negDeadlines) && ms.Valid()
      ensures forall o :: o in ms.Progs() ==> o in old(ms.Progs()) || fresh(o)
      ensures var ps := PatternsOf(patterns);
              var r := Cep(ps, e, Swept(ps, old(ms.ProgressValues()), watermark));
              && ms.ProgressValues() == r.progs && Queue(negDeadlines) == old(Queue(negDeadlines)) + r.parked
              && Enumerates(completed, order, r.completed) && instants == r.instants
    {
      hide Queue, Swept, Advanced, Completions, Parkings, Starts, Enumerates;
      hide MemberState.Valid, MemberState.ProgressValues, MemberState.Progs;
      SweepExpiredProgresses(ms, watermark);
      completed, order := AdvanceAll(ms, e);
      instants := StartAll(ms, e);
    }

    // ---------- Rules ----------

    /** evaluateRules: fill the aggregate cache once, run every compiled rule on it. */
    method EvaluateRules(ms: MemberState, fields: map<string, Value>, now: int) returns (matched: seq<MatchedRule>)
      requires ImplementsAll(ruleSet.strategies, rules)
      ensures matched == Holding(rules, AsCached(fields, ms.AggValues(), Collected(rules), now, show))
    {
      hide *;
      ghost var aggs := ms.AggValues();
      var cache := Preload(ms, now);
      ms.AggsAreAlive();
      matched := RunRules(fields, cache, Collected(rules), aggs, now);
    }

    /** The aggregates of the rule set, computed once per cache key. */
    method Preload(ms: MemberState, now: int) returns (cache: map<string, Value>)
      requires ImplementsAll(ruleSet.strategies, rules)
      ensures ms.AggValues() == old(ms.AggValues())
      ensures Caches(cache, Collected(rules), old(ms.AggValues()), now, show)
    {
      ms.AggsAreAlive();
      hide *;
      CollectedAtOnce(ruleSet.strategies, rules);
      var keys, seen := CollectUniqueAggregateKeys(KeyLists(ruleSet.strategies));
      ms.AggsAreAlive();
      cache := FillCache(ms, keys, now, seen, AllOf(KeyLists(ruleSet.strategies)));
    }

    /** The cache loop of evaluateRules: one value per aggregate key. */
    method FillCache(ms: MemberState, keys: seq<AggregateKey>, now: int, ghost seen: set<string>,
                     ghost all: set<AggregateKey>)
      returns (cache: map<string, Value>)
      requires Represents(seen, keys, all)
      ensures ms.AggValues() == old(ms.AggValues()) && Caches(cache, keys, old(ms.AggValues()), now, show)
    {
      ms.AggsAreAlive();
      hide AggregateValue, MemberState.AggValues, MemberState.Aggs, MemberState.Buckets, Represents;
      ghost var aggs := ms.AggValues();
      cache := map[];
      for i := 0 to |keys|
        invariant aggs == ms.AggValues() && Caches(cache, keys[..i], aggs, now, show)
      {
        var x := ms.Aggregate(keys[i], now);
        CachesMore(cache, keys, i, aggs, now, show, seen, all);
        cache := cache[CacheKey(keys[i]) := Boxed(x, show)];
      }
      assert keys[..|keys|] == keys;
    }

    method RunRules(fields: map<string, Value>, cache: map<string, Value>, ghost keys: seq<AggregateKey>,
                    ghost aggs: map<string, Agg>, ghost now: int)
      returns (matched: seq<MatchedRule>)
      requires ImplementsAll(ruleSet.strategies, rules) && Caches(cache, keys, aggs, now, show)
      requires keys == Collected(rules)
      ensures matched == Holding(rules, AsCached(fields, aggs, keys, now, show))
    {
      hide Caches, Implements, Preloaded, AsCached, Collected;
      matched := [];
      for i := 0 to |ruleSet.strategies|
        invariant matched == Holding(rules[..i], AsCached(fields, aggs, keys, now, show))
      {
        var cs := ruleSet.strategies[i];
        RuleFires(ruleSet.strategies, rules, i, cache, fields, aggs, now, show);
        assert rules[..i + 1][..i] == rules[..i];
        if cs.eval(Preloaded(fields, cache)) == YES {
          matched := matched + [MatchedRule(cs.id, cs.name)];
        }
      }
      assert rules[..|rules|] == rules;
    }

    // ---------- The drain ----------

    /** The body of the drain loop for one popped entry: nothing if it is stale; otherwise the progress
        is deleted, through a clone where a snapshot still reads it, and its match emitted. */
    method DrainOne(x: Entry) returns (result: Option<Match>)
      requires state.Valid() && PatternsOK()
      modifies state`keyGroups, state`groups, state`copiedGroups, state`owned, state`copied
      modifies state.groups, state.PartsOf(state.owned)
      ensures state.frozenEpoch == old(state.frozenEpoch)
      ensures state.Valid() && (state.frozenEpoch != 0 ==> state.Frozen() == old(state.Frozen()))
      ensures state.Live() == Popped(old(state.Live()), x)
      ensures result == Ending(PatternsOf(patterns), old(state.Live()), x)
      ensures forall g :: g in state.groups ==> g in old(state.groups) || fresh(g)
      ensures forall o :: o in state.PartsOf(state.owned) ==> o in old(state.PartsOf(state.owned)) || fresh(o)
    {
      state.LiveMeans(x.memberID);
      var ro := state.Find(state.keyGroups, x.memberID);
      hide ShardState.Valid, ShardState.Live, ShardState.Frozen, ShardState.PartsOf, MemberState.Valid;
      if ro == null {
        return None;
      }
      if x.progressID !in ro.progresses {
        return None;
      }
      var p := ro.progresses[x.progressID];
      if p.negativeDeadline == ZERO_TIME || p.negativeDeadline != x.deadline {
        return None;
      }
      assert IsLive(state.Live(), x);
      result := EmitOne(x);
    }

    /** The write half of the drain body. */
    method EmitOne(x: Entry) returns (result: Option<Match>)
      requires state.Valid() && PatternsOK() && IsLive(state.Live(), x)
      modifies state`keyGroups, state`groups, state`copiedGroups, state`owned, state`copied
      modifies state.groups, state.PartsOf(state.owned)
      ensures state.frozenEpoch == old(state.frozenEpoch)
      ensures state.Valid() && (state.frozenEpoch != 0 ==> state.Frozen() == old(state.Frozen()))
      ensures state.Live() == Popped(old(state.Live()), x)
      ensures result == Ending(PatternsOf(patterns), old(state.Live()), x)
      ensures forall g :: g in state.groups ==> g in old(state.groups) || fresh(g)
      ensures forall o :: o in state.PartsOf(state.owned) ==> o in old(state.PartsOf(state.owned)) || fresh(o)
    {
      hide ShardState.Valid, ShardState.Live, ShardState.Frozen, ShardState.PartsOf, MemberState.Valid, Popped, Ending;
      var ms := ForWrite(x.memberID);
      ExpiryMeans(ms, x);
      result := ExpiryOf(ms.progresses[x.progressID]);
      DropLive(ms, x);
    }

    /** memberForWrite, as the state sees it: for a known member only the objects change. */
    method ForWrite(id: string) returns (ms: MemberState)
      requires state.Valid()
      modifies state`keyGroups, state`groups, state`copiedGroups, state`owned, state`copied, state.groups
      ensures state.frozenEpoch == old(state.frozenEpoch)
      ensures state.Valid() && (state.frozenEpoch != 0 ==> state.Frozen() == old(state.Frozen()))
      ensures state.Live() == old(state.Live())[id := MemberOf(old(state.Live()), id)]
      ensures id in old(state.Live()) ==> state.Live() == old(state.Live())
      ensures ms in state.owned && state.Writable(ms.version) && ms.memberID == id
      ensures state.Find(state.keyGroups, id) == ms
      ensures ms in state.PartsOf(state.owned) && ms.Footprint() <= state.PartsOf(state.owned)
      ensures forall g :: g in state.groups ==> g in old(state.groups) || fresh(g)
      ensures forall o :: o in state.PartsOf(state.owned) ==> o in old(state.PartsOf(state.owned)) || fresh(o)
    {
      hide ShardState.Valid, ShardState.Live, ShardState.Frozen, ShardState.PartsOf, MemberState.Valid;
      hide MemberState.Footprint;
      ms := state.MemberForWrite(id);
      state.PartsAreOwned(ms);
    }

    /** The match of a parked progress whose deadline has passed. */
    function ExpiryOf(p: PatternProgress): Option<Match>
      reads this`patterns, p
    {
      match FindPattern(PatternsOf(patterns), p.patternID)
      case None => None
      case Some(pat) => Some(Match(pat.id, pat.name, p.memberID, p.variables, p.negativeDeadline))
    }

    lemma ExpiryMeans(ms: MemberState, x: Entry)
      requires state.Valid() && IsLive(state.Live(), x) && state.Find(state.keyGroups, x.memberID) == ms
      ensures x.progressID in ms.progresses
      ensures ExpiryOf(ms.progresses[x.progressID]) == Ending(PatternsOf(patterns), state.Live(), x)
    {
      state.LiveMeans(x.memberID);
      hide ShardState.Valid, ShardState.Live, MemberState.Valid, FindPattern;
    }

    method DropLive(ms: MemberState, x: Entry)
      requires state.Valid() && IsLive(state.Live(), x) && state.Find(state.keyGroups, x.memberID) == ms
      requires ms in state.owned && state.Writable(ms.version) && ms.memberID == x.memberID
      modifies ms`progresses
      ensures state.Valid() && (state.frozenEpoch != 0 ==> state.Frozen() == old(state.Frozen()))
      ensures state.Live() == Popped(old(state.Live()), x)
      ensures forall o :: o in state.PartsOf(state.owned) ==> o in old(state.PartsOf(state.owned))
    {
      state.LiveMeans(x.memberID);
      state.PartsAreOwned(ms);
      hide ShardState.Valid, ShardState.Live, ShardState.Frozen, ShardState.PartsOf, MemberState.Valid;
      hide MemberState.Value;
      DropFrom(ms, x.progressID);
      state.Settled(ms);
    }

    method DropFrom(ms: MemberState, id: string)
      requires ms.Valid()
      modifies ms`progresses
      ensures ms.Valid() && forall o :: o in ms.Footprint() ==> o in old(ms.Footprint())
      ensures var v := old(ms.Value()); ms.Value() == v.(progresses := v.progresses - {id})
    {
      ms.AggsAreAlive();
      hide *;
      DropProgress(ms, id);
      ms.ProgressesOnly(ms.ProgressValues());
    }

    /** drainNegativeMatches: pop every passed deadline, earliest first. */
    method DrainNegativeMatches(watermark: int) returns (emitted: seq<Match>, ghost order: seq<Entry>)
      requires state.Valid() && PatternsOK() && DeadlineHeap.IsHeap(negDeadlines)
      modifies this`negDeadlines, state`keyGroups, state`groups, state`copiedGroups, state`owned, state`copied
      modifies state.groups, state.PartsOf(state.owned)
      ensures state.frozenEpoch == old(state.frozenEpoch)
      ensures state.Valid() && (state.frozenEpoch != 0 ==> state.Frozen() == old(state.Frozen()))
      ensures DeadlineHeap.IsHeap(negDeadlines)
      ensures var due := Due(old(Queue(negDeadlines)), watermark);
              && state.Live() == Drained(old(state.Live()), due)
              && Queue(negDeadlines) == old(Queue(negDeadlines)) - due
              && Enumerates(emitted, order, Expired(PatternsOf(patterns), old(state.Live()), due))
      ensures ByDeadline(order)
      ensures forall g :: g in state.groups ==> g in old(state.groups) || fresh(g)
      ensures forall o :: o in state.PartsOf(state.owned) ==> o in old(state.PartsOf(state.owned)) || fresh(o)
    {
      CoreIsApart();
      hide ShardState.Valid, ShardState.Live, ShardState.Frozen, ShardState.PartsOf;
      hide Draining, Queue, DeadlineHeap.IsHeap, Popped, Ending, Drained, Expired, Enumerates, ByDeadline;
      ghost var ps, live, queue := PatternsOf(patterns), state.Live(), Queue(negDeadlines);
      ghost var done: set<Entry> := {};
      emitted, order := [], [];
      DrainStarts(ps, live, queue, watermark);
      while negDeadlines != [] && negDeadlines[0].deadline < watermark
        invariant state.Valid() && (state.frozenEpoch != 0 ==> state.Frozen() == old(state.Frozen()))
        invariant DeadlineHeap.IsHeap(negDeadlines)
        invariant Draining(ps, live, queue, watermark, done, state.Live(), Queue(negDeadlines), emitted, order)
        invariant forall g :: g in state.groups ==> g in old(state.groups) || fresh(g)
        invariant forall o :: o in state.PartsOf(state.owned) ==> o in old(state.PartsOf(state.owned)) || fresh(o)
        decreases |negDeadlines|
      {
        assert this !in state.PartsOf(state.owned) && state !in state.PartsOf(state.owned);
        var x := PopDeadline();
        DrainMore(ps, live, queue, watermark, done, state.Live(), Queue(negDeadlines), emitted, order, x);
        var result := DrainOne(x);
        if result.Some? {
          emitted, order := emitted + [result.value], order + [x];
        }
        done := done + {x};
      }
      NoneDue(negDeadlines, watermark);
      DrainEnds(ps, live, queue, watermark, done, state.Live(), Queue(negDeadlines), emitted, order);
    }

    method PopDeadline() returns (x: Entry)
      requires state.Valid() && DeadlineHeap.IsHeap(negDeadlines) && negDeadlines != []
      modifies this`negDeadlines
      ensures state.frozenEpoch == old(state.frozenEpoch)
      ensures DeadlineHeap.IsHeap(negDeadlines) && |negDeadlines| < |old(negDeadlines)|
      ensures x == old(negDeadlines)[0] && old(Queue(negDeadlines)) == Queue(negDeadlines) + {x}
      ensures forall y :: y in Queue(negDeadlines) ==> x.deadline <= y.deadline
      ensures state.Valid() && state.Live() == old(state.Live())
      ensures state.frozenEpoch != 0 ==> state.Frozen() == old(state.Frozen())
      ensures state.PartsOf(state.owned) == old(state.PartsOf(state.owned))
    {
      CoreIsApart();
      hide ShardState.Valid, ShardState.Live, ShardState.Frozen, ShardState.PartsOf;
      var h;
      h, x := DeadlineHeap.Pop(negDeadlines);
      QueueGrows(h, negDeadlines, x);
      assert |multiset(negDeadlines)| == |multiset(h)| + 1;
      assert forall y :: y in Queue(h) ==> y in negDeadlines;
      negDeadlines := h;
      state.Untouched();
    }

    /** The core itself is no part of its members. */
    lemma CoreIsApart()
      ensures this !in state.PartsOf(state.owned) && state !in state.PartsOf(state.owned)
      ensures forall o :: o in state.PartsOf(state.owned) ==> allocated(o)
    {
    }

    // ---------- One event ----------

    ghost predicate Valid()
      reads this, state, state.groups, state.owned, state.AggsOf(state.owned)
      reads state.GroupsOf(state.frozenView), state.GroupsOf(state.keyGroups)
    {
      state.Valid() && PatternsOK() && DeadlineHeap.IsHeap(negDeadlines) && ImplementsAll(ruleSet.strategies, rules)
    }

    /** The shard this core is, as a value. */
    ghost function Abstract(): Shard
      reads this, state, state.GroupsOf(state.keyGroups), state.MembersOf(state.keyGroups)
      reads state.AggsOf(state.MembersOf(state.keyGroups)), state.PartsOf(state.MembersOf(state.keyGroups))
    {
      Shard(state.Live(), watermark, Queue(negDeadlines))
    }

    lemma AbstractMeans()
      ensures Abstract() == Shard(state.Live(), watermark, Queue(negDeadlines))
      ensures Cfg() == Config(PatternsOf(patterns), maxWindow, allowedLateness)
      ensures Valid() <==>
                && state.Valid() && PatternsOK() && DeadlineHeap.IsHeap(negDeadlines)
                && ImplementsAll(ruleSet.strategies, rules)
    {
    }

    /** The unconditional part: the member for writing, its buckets and last-seen time. */
    method Apply(e: Event) returns (ms: MemberState)
      requires state.Valid()
      modifies state`keyGroups, state`groups, state`copiedGroups, state`owned, state`copied
      modifies state.groups, state.PartsOf(state.owned)
      ensures state.frozenEpoch == old(state.frozenEpoch)
      ensures state.Valid() && (state.frozenEpoch != 0 ==> state.Frozen() == old(state.Frozen()))
      ensures state.Live() ==
                old(state.Live())[e.memberID := WithEvent(MemberOf(old(state.Live()), e.memberID), e, maxWindow)]
      ensures ms in state.owned && ms.memberID == e.memberID && state.Find(state.keyGroups, e.memberID) == ms
      ensures state.Writable(ms.version)
      ensures forall g :: g in state.groups ==> g in old(state.groups) || fresh(g)
      ensures forall o :: o in state.PartsOf(state.owned) ==> o in old(state.PartsOf(state.owned)) || fresh(o)
    {
      hide *;
      ms := ForWrite(e.memberID);
      ghost var live := state.Live();
      Touch(ms, e);
      assert live[e.memberID] == MemberOf(old(state.Live()), e.memberID);
    }

    method Touch(ms: MemberState, e: Event)
      requires state.Valid() && ms in state.owned && state.Writable(ms.version)
      requires state.Find(state.keyGroups, ms.memberID) == ms
      modifies ms.Footprint()
      ensures state.Valid() && (state.frozenEpoch != 0 ==> state.Frozen() == old(state.Frozen()))
      ensures ms in state.owned && state.Writable(ms.version) && state.Find(state.keyGroups, ms.memberID) == ms
      ensures unchanged(state)
      ensures ms.memberID in old(state.Live())
      ensures state.Live() == old(state.Live())[ms.memberID := WithEvent(old(state.Live())[ms.memberID], e, maxWindow)]
      ensures forall o :: o in state.PartsOf(state.owned) ==> o in old(state.PartsOf(state.owned)) || fresh(o)
    {
      state.LiveMeans(ms.memberID);
      state.PartsAreOwned(ms);
      hide ShardState.Valid, ShardState.Live, ShardState.Frozen, ShardState.PartsOf;
      hide MemberState.Valid, MemberState.Value, MemberState.Footprint, WithEvent;
      TouchOnly(ms, e);
      state.Settled(ms);
    }

    method TouchOnly(ms: MemberState, e: Event)
      requires ms.Valid() && ms in state.owned && forall o :: o in state.PartsOf(state.owned) ==> allocated(o)
      modifies ms`aggregations, ms`lastSeenAt, ms.Aggs(), ms.Buckets()
      ensures ms.Valid() && ms.Value() == WithEvent(old(ms.Value()), e, maxWindow)
      ensures forall o :: o in ms.Footprint() ==> o in old(ms.Footprint()) || fresh(o)
      ensures forall o :: o in old(state.PartsOf(state.owned)) && o !in old(ms.Footprint()) ==> unchanged(o)
      ensures unchanged(state) && forall g :: g in state.groups ==> unchanged(g)
      ensures state.Find(state.keyGroups, ms.memberID) == old(state.Find(state.keyGroups, ms.memberID))
    {
      hide ShardState.PartsOf, MemberState.Valid, MemberState.Value, WithEvent;
      ms.Accumulate(e, maxWindow);
    }

    /** processCEP on the event's member, as the state sees it. */
    method MatchOn(ms: MemberState, e: Event, watermark: int)
      returns (completed: seq<Match>, ghost order: seq<string>, instants: seq<Match>)
      requires state.Valid() && PatternsOK() && DeadlineHeap.IsHeap(negDeadlines)
      requires ms in state.owned && state.Writable(ms.version) && state.Find(state.keyGroups, ms.memberID) == ms
      modifies this`negDeadlines, ms`progresses, ms.Progs()
      ensures unchanged(state)
      ensures state.Valid() && (state.frozenEpoch != 0 ==> state.Frozen() == old(state.Frozen()))
      ensures DeadlineHeap.IsHeap(negDeadlines) && ms.memberID in old(state.Live())
      ensures var ps, m := PatternsOf(patterns), old(state.Live())[ms.memberID];
              var r := Cep(ps, e, Swept(ps, m.progresses, watermark));
              && state.Live() == old(state.Live())[ms.memberID := m.(progresses := r.progs)]
              && Queue(negDeadlines) == old(Queue(negDeadlines)) + r.parked
              && Enumerates(completed, order, r.completed) && instants == r.instants
      ensures forall o :: o in state.PartsOf(state.owned) ==> o in old(state.PartsOf(state.owned)) || fresh(o)
    {
      CoreIsApart();
      state.LiveMeans(ms.memberID);
      state.PartsAreOwned(ms);
      hide ShardState.Valid, ShardState.Live, ShardState.Frozen, ShardState.PartsOf;
      hide MemberState.Valid, MemberState.Value, MemberState.Footprint, MemberState.Progs, Queue, Cep, Swept;
      hide Enumerates;
      completed, order, instants := CepOnly(ms, e, watermark);
      state.Settled(ms);
    }

    method CepOnly(ms: MemberState, e: Event, watermark: int)
      returns (completed: seq<Match>, ghost order: seq<string>, instants: seq<Match>)
      requires PatternsOK() && DeadlineHeap.IsHeap(negDeadlines)
      requires ms.Valid() && ms in state.owned && forall o :: o in state.PartsOf(state.owned) ==>
               allocated(o) && o != this
      modifies this`negDeadlines, ms`progresses, ms.Progs()
      ensures ms.Valid() && DeadlineHeap.IsHeap(negDeadlines)
      ensures var ps, m := PatternsOf(patterns), old(ms.Value());
              var r := Cep(ps, e, Swept(ps, m.progresses, watermark));
              && ms.Value() == m.(progresses := r.progs)
              && Queue(negDeadlines) == old(Queue(negDeadlines)) + r.parked
              && Enumerates(completed, order, r.completed) && instants == r.instants
      ensures forall o :: o in ms.Footprint() ==> o in old(ms.Footprint()) || fresh(o)
      ensures forall o :: o in old(state.PartsOf(state.owned)) && o !in old(ms.Footprint()) ==> unchanged(o)
      ensures unchanged(state) && forall g :: g in state.groups ==> unchanged(g)
      ensures state.Find(state.keyGroups, ms.memberID) == old(state.Find(state.keyGroups, ms.memberID))
    {
      hide ShardState.PartsOf, MemberState.Valid, MemberState.Value, MemberState.AggValues, MemberState.ProgressValues;
      hide Queue, Cep, Swept, Enumerates;
      completed, order, instants := ProcessCEP(ms, e, watermark);
      ms.ProgressesOnly(ms.ProgressValues());
    }

    /** advanceWatermark: forward only. */
    method AdvanceWatermark(t: int)
      requires state.Valid()
      modifies this`watermark
      ensures unchanged(state)
      ensures watermark == Later(old(watermark), t - allowedLateness)
      ensures state.Valid() && state.Live() == old(state.Live())
      ensures state.frozenEpoch != 0 ==> state.Frozen() == old(state.Frozen())
      ensures state.PartsOf(state.owned) == old(state.PartsOf(state.owned))
      ensures forall id :: state.Find(state.keyGroups, id) == old(state.Find(state.keyGroups, id))
    {
      CoreIsApart();
      hide ShardState.Valid, ShardState.Live, ShardState.Frozen, ShardState.PartsOf;
      var candidate := t - allowedLateness;
      if candidate > watermark {
        watermark := candidate;
      }
      state.Untouched();
    }

    /** evaluateRules on the member as the state holds it. */
    method RulesOn(ms: MemberState, e: Event) returns (matched: seq<MatchedRule>)
      requires state.Valid() && ImplementsAll(ruleSet.strategies, rules)
      requires state.Find(state.keyGroups, e.memberID) == ms
      ensures unchanged(state)
      ensures state.Valid() && state.Live() == old(state.Live())
      ensures state.frozenEpoch != 0 ==> state.Frozen() == old(state.Frozen())
      ensures state.PartsOf(state.owned) == old(state.PartsOf(state.owned))
      ensures state.Find(state.keyGroups, e.memberID) == ms
      ensures matched == Holding(rules, AsCached(EvalFields(e), MemberOf(state.Live(), e.memberID).aggs,
                                                 Collected(rules), e.occurredAt, show))
    {
      CoreIsApart();
      state.LiveMeans(e.memberID);
      assert MemberOf(state.Live(), e.memberID).aggs == ms.AggValues();
      hide ShardState.Valid, ShardState.Live, ShardState.Frozen, ShardState.PartsOf, MemberState.AggValues;
      hide Holding, AsCached, Collected, ImplementsAll, EvalFields;
      matched := EvaluateRules(ms, EvalFields(e), e.occurredAt);
      state.Untouched();
    }

    /** Advance the watermark and evaluate the rules: the members stay as they are. */
    method Judge(ms: MemberState, e: Event) returns (matched: seq<MatchedRule>)
      requires state.Valid() && ImplementsAll(ruleSet.strategies, rules)
      requires state.Find(state.keyGroups, e.memberID) == ms
      modifies this`watermark
      ensures unchanged(state) && state.PartsOf(state.owned) == old(state.PartsOf(state.owned))
      ensures state.Valid() && state.Live() == old(state.Live())
      ensures state.frozenEpoch != 0 ==> state.Frozen() == old(state.Frozen())
      ensures watermark == Later(old(watermark), e.occurredAt - allowedLateness)
      ensures state.Find(state.keyGroups, e.memberID) == ms
      ensures matched == Holding(rules, AsCached(EvalFields(e), MemberOf(old(state.Live()), e.memberID).aggs,
                                                 Collected(rules), e.occurredAt, show))
    {
      hide *;
      AdvanceWatermark(e.occurredAt);
      matched := RulesOn(ms, e);
    }

    /** Advance the watermark, evaluate the rules, match the patterns. */
    method Decide(ms: MemberState, e: Event)
      returns (matched: seq<MatchedRule>, completed: seq<Match>, ghost order: seq<string>, instants: seq<Match>)
      requires Valid() && ms in state.owned && ms.memberID == e.memberID && state.Writable(ms.version)
      requires state.Find(state.keyGroups, e.memberID) == ms
      modifies this`watermark, this`negDeadlines, ms`progresses, ms.Progs()
      ensures Valid() && (state.frozenEpoch != 0 ==> state.Frozen() == old(state.Frozen()))
      ensures state.Live() == MatchMembers(Cfg(), old(Abstract()), e)
      ensures watermark == Reached(Cfg(), old(Abstract()), e)
      ensures var r := CepOf(Cfg(), true, old(Abstract()), e);
              && Queue(negDeadlines) == old(Queue(negDeadlines)) + r.parked
              && Enumerates(completed, order, r.completed) && instants == r.instants
      ensures matched == Holding(rules, AsCached(EvalFields(e), MemberOf(old(state.Live()), e.memberID).aggs,
                                                 Collected(rules), e.occurredAt, show))
      ensures Cfg() == old(Cfg()) && state.groups == old(state.groups) && state.frozenEpoch == old(state.frozenEpoch)
      ensures forall o :: o in state.PartsOf(state.owned) ==> o in old(state.PartsOf(state.owned)) || fresh(o)
    {
      ghost var cfg, s := Cfg(), Abstract();
      hide *;
      AbstractMeans();
      matched := Judge(ms, e);
      completed, order, instants := MatchOn(ms, e, watermark);
      AbstractMeans();
      MatchMeans(cfg, s, e);
    }

    /** The drain at the current watermark, as the whole core sees it. */
    method DrainAll() returns (expired: seq<Match>, ghost order: seq<Entry>)
      requires Valid()
      modifies this`negDeadlines
      modifies state`keyGroups, state`groups, state`copiedGroups, state`owned, state`copied
      modifies state.groups, state.PartsOf(state.owned)
      ensures Valid() && (state.frozenEpoch != 0 ==> state.Frozen() == old(state.Frozen()))
      ensures var s := old(Abstract());
              var due := Due(s.heap, s.watermark);
              && Abstract() == Shard(Drained(s.members, due), s.watermark, s.heap - due)
              && Enumerates(expired, order, Expired(Cfg().patterns, s.members, due)) && ByDeadline(order)
      ensures Cfg() == old(Cfg()) && state.frozenEpoch == old(state.frozenEpoch)
      ensures forall g :: g in state.groups ==> g in old(state.groups) || fresh(g)
      ensures forall o :: o in state.PartsOf(state.owned) ==> o in old(state.PartsOf(state.owned)) || fresh(o)
    {
      CoreIsApart();
      hide ShardState.Valid, ShardState.Live, ShardState.Frozen, ShardState.PartsOf;
      hide ImplementsAll, Enumerates, Expired, Drained, Due, Queue, ByDeadline;
      expired, order := DrainNegativeMatches(watermark);
    }

    /** The rest of ProcessEvent for an event that is on time. */
    method OnTime(ms: MemberState, e: Event)
      returns (r: ProcessResult, ghost byProgress: seq<string>, ghost byDeadline: seq<Entry>)
      requires Valid() && ms in state.owned && ms.memberID == e.memberID && state.Writable(ms.version)
      requires state.Find(state.keyGroups, e.memberID) == ms
      modifies this`watermark, this`negDeadlines
      modifies state`keyGroups, state`groups, state`copiedGroups, state`owned, state`copied
      modifies state.groups, state.PartsOf(state.owned)
      ensures Valid() && (state.frozenEpoch != 0 ==> state.Frozen() == old(state.Frozen()))
      ensures Abstract() == AfterMatch(Cfg(), old(Abstract()), e)
      ensures ReportedAs(r.matches, MatchOutput(Cfg(), old(Abstract()), e), byProgress, byDeadline)
      ensures r.rules == Holding(rules, AsCached(EvalFields(e), MemberOf(old(state.Live()), e.memberID).aggs,
                                                 Collected(rules), e.occurredAt, show))
      ensures forall g :: g in state.groups ==> g in old(state.groups) || fresh(g)
      ensures forall o :: o in state.PartsOf(state.owned) ==> o in old(state.PartsOf(state.owned)) || fresh(o)
    {
      CoreIsApart();
      state.PartsAreOwned(ms);
      ms.ProgressesArePart();
      ghost var cfg, s := Cfg(), Abstract();
      AbstractMeans();
      hide *;
      var matched, completed, order, instants := Decide(ms, e);
      AbstractMeans();
      ghost var mid := Abstract();
      var expired, dues := DrainAll();
      r := ProcessResult(matched, completed + instants + expired);
      byProgress, byDeadline := order, dues;
      MatchThenDrain(cfg, s, e, mid, Abstract(), completed, order, instants, expired, dues);
    }

    /** The unconditional part, as the whole core sees it. */
    method Accept(e: Event) returns (ms: MemberState)
      requires Valid()
      modifies state`keyGroups, state`groups, state`copiedGroups, state`owned, state`copied
      modifies state.groups, state.PartsOf(state.owned)
      ensures state.frozenEpoch == old(state.frozenEpoch) && unchanged(this)
      ensures Valid() && (state.frozenEpoch != 0 ==> state.Frozen() == old(state.Frozen()))
      ensures Abstract() == Counted(Cfg(), old(Abstract()), e)
      ensures ms in state.owned && ms.memberID == e.memberID && state.Find(state.keyGroups, e.memberID) == ms
      ensures state.Writable(ms.version)
      ensures forall g :: g in state.groups ==> g in old(state.groups) || fresh(g)
      ensures forall o :: o in state.PartsOf(state.owned) ==> o in old(state.PartsOf(state.owned)) || fresh(o)
    {
      CoreIsApart();
      hide ShardState.Valid, ShardState.Live, ShardState.Frozen, ShardState.PartsOf, ShardState.Find;
      hide ShardState.Writable;
      hide ImplementsAll, Queue, WithEvent, MemberOf, DeadlineHeap.IsHeap;
      ms := Apply(e);
    }

    /** The late sink: a side output, silent during replay. */
    method Divert(e: Event)
      requires Valid()
      modifies this`sideOutput
      ensures state.frozenEpoch == old(state.frozenEpoch)
              && state.PartsOf(state.owned) == old(state.PartsOf(state.owned))
      ensures Valid() && Abstract() == old(Abstract())
      ensures state.frozenEpoch != 0 ==> state.Frozen() == old(state.Frozen())
      ensures sideOutput == old(sideOutput) + if lateSink && !replaying then [e] else []
    {
      CoreIsApart();
      hide ShardState.Valid, ShardState.Live, ShardState.Frozen, ShardState.PartsOf, Queue, ImplementsAll;
      hide DeadlineHeap.IsHeap;
      if lateSink && !replaying {
        sideOutput := sideOutput + [e];
      }
      state.Untouched();
    }

    /** ProcessEvent. The core takes one step of `Shards.Next`, reports its output, leaves the snapshot
        in flight alone, and writes to the side output only for a late event outside replay. */
    method ProcessEvent(e: Event) returns (r: ProcessResult)
      requires Valid()
      modifies this`watermark, this`negDeadlines, this`sideOutput
      modifies state`keyGroups, state`groups, state`copiedGroups, state`owned, state`copied
      modifies state.groups, state.PartsOf(state.owned)
      ensures state.frozenEpoch == old(state.frozenEpoch) && state.frozenView == old(state.frozenView)
      ensures unchanged(`patterns, `lastSeq, `replaying)
      ensures Valid() && (state.frozenEpoch != 0 ==> state.Frozen() == old(state.Frozen()))
      ensures Abstract() == Next(Cfg(), old(Abstract()), e)
      ensures Reported(r.matches, Out(Cfg(), old(Abstract()), e))
      ensures Late(old(Abstract()), e) ==> r == ProcessResult([], [])
      ensures !Late(old(Abstract()), e) ==>
                var aggs := Counted(Cfg(), old(Abstract()), e).members[e.memberID].aggs;
                && r.rules == Holding(rules, AsCached(EvalFields(e), aggs, Collected(rules), e.occurredAt, show))
                && (SafeKeys(rules) ==> r.rules == Fired(rules, EvalFields(e), aggs, e.occurredAt, show))
      ensures sideOutput ==
                old(sideOutput) + if Late(old(Abstract()), e) && lateSink && !replaying then [e] else []
      ensures forall g :: g in state.groups ==> g in old(state.groups) || fresh(g)
      ensures forall o :: o in state.PartsOf(state.owned) ==> o in old(state.PartsOf(state.owned)) || fresh(o)
    {
      hide *;
      CoreIsApart();
      AbstractMeans();
      ghost var cfg, s := Cfg(), Abstract();
      var ms := Accept(e);
      AbstractMeans();
      LateStep(cfg, s, e);
      if e.occurredAt < watermark {
        Divert(e);
        return ProcessResult([], []);
      }
      StepIsTwo(cfg, s, e);
      ghost var byProgress, byDeadline;
      r, byProgress, byDeadline := OnTime(ms, e);
      SafeAnswers(rules, EvalFields(e), Counted(cfg, s, e).members[e.memberID].aggs, e.occurredAt, show);
      ReportedSomehow(r.matches, Out(cfg, s, e), byProgress, byDeadline);
    }

    // ---------- Snapshots ----------

    /** beginSnapshot: from here on the frozen view is the state as it is now. */
    method BeginSnapshot() returns (f: FrozenSnapshot)
      requires Valid() && state.frozenEpoch == 0
      modifies state`epoch, state`frozenEpoch, state`frozenView, state`copied, state`copiedGroups
      ensures Valid() && Abstract() == old(Abstract())
      ensures state.frozenEpoch != 0 && state.Frozen() == old(state.Live())
      ensures f == FrozenSnapshot(state.frozenView, watermark, lastSeq)
      ensures state.PartsOf(state.owned) == old(state.PartsOf(state.owned))
    {
      CoreIsApart();
      hide ShardState.Valid, ShardState.Live, ShardState.Frozen, ShardState.PartsOf, ImplementsAll, Queue;
      var view := state.FreezeState();
      f := FrozenSnapshot(view, watermark, lastSeq);
    }

    /** endSnapshot */
    method EndSnapshot()
      requires Valid()
      modifies state`frozenEpoch
      ensures Valid() && Abstract() == old(Abstract()) && state.frozenEpoch == 0
      ensures state.PartsOf(state.owned) == old(state.PartsOf(state.owned))
    {
      CoreIsApart();
      hide ShardState.Valid, ShardState.Live, ShardState.Frozen, ShardState.PartsOf, ImplementsAll, Queue;
      state.UnfreezeState();
    }

    /** encode: the snapshot in flight, as a value. It may run at any point before endSnapshot. */
    method EncodeSnapshot(f: FrozenSnapshot) returns (snap: Snapshot)
      requires Valid() && state.frozenEpoch != 0 && f.view == state.frozenView
      ensures Stores(state.hash, snap, old(state.Frozen()), f.watermark, f.lastSeq)
      ensures Valid() && Abstract() == old(Abstract()) && state.Frozen() == old(state.Frozen())
      ensures state.PartsOf(state.owned) == old(state.PartsOf(state.owned))
    {
      CoreIsApart();
      ViewIsEncodable();
      hide Valid, Abstract, ShardState.Valid, ShardState.Frozen, ShardState.Live, ShardState.PartsOf, Flatten, Placed;
      var kgs := EncodeView(f.view);
      snap := Snapshot(kgs, f.watermark, f.lastSeq);
      Undisturbed();
    }

    lemma ViewIsEncodable()
      requires Valid()
      ensures state.Valid()
    {
    }

    /** Snapshot: freeze, encode, release. */
    method TakeSnapshot() returns (snap: Snapshot)
      requires Valid() && state.frozenEpoch == 0
      modifies state`epoch, state`frozenEpoch, state`frozenView, state`copied, state`copiedGroups
      ensures Valid() && Abstract() == old(Abstract()) && state.frozenEpoch == 0
      ensures Stores(state.hash, snap, old(Abstract()).members, watermark, lastSeq)
      ensures state.PartsOf(state.owned) == old(state.PartsOf(state.owned))
    {
      AbstractMeans();
      hide *;
      var f := BeginSnapshot();
      snap := EncodeSnapshot(f);
      EndSnapshot();
    }

    method EncodeView(view: View) returns (kgs: GroupValues)
      requires state.Valid() && state.frozenEpoch != 0 && view == state.frozenView
      ensures Placed(state.hash, kgs) && (forall i :: i in kgs ==> 0 <= i < NUM_KEY_GROUPS)
      ensures Flatten(state.hash, kgs) == state.Frozen()
    {
      hide Flatten, Placed;
      kgs := state.Encode(view);
    }

    /** rebuildNegativeDeadlines: collect the parked progresses, then heapify. */
    method RebuildNegativeDeadlines()
      requires state.Valid()
      modifies this`negDeadlines
      ensures DeadlineHeap.IsHeap(negDeadlines)
      ensures Queue(negDeadlines) == Rebuilt(old(state.Live()))
    {
      hide ShardState.Valid, ShardState.Live, ShardState.ViewOf, ShardState.PartsOf, ShardState.StoredIn;
      hide Flatten, Upto, Placed, Rebuilt, Queue, ValuesIn;
      ghost var kgs, live := state.StoredIn(state.keyGroups), state.Live();
      state.LiveIsStored();
      var h: seq<Entry> := [];
      RebuiltNone(state.hash, kgs);
      for i := 0 to NUM_KEY_GROUPS
        invariant state.Valid() && kgs == state.StoredIn(state.keyGroups)
        invariant Queue(h) == Rebuilt(Flatten(state.hash, Upto(kgs, i)))
      {
        h := CollectStep(i, h, kgs);
      }
      UptoAll(kgs);
      var r := DeadlineHeap.Init(h);
      SameQueue(h, r);
      negDeadlines := r;
    }

    method CollectStep(i: nat, h: seq<Entry>, ghost kgs: GroupValues) returns (r: seq<Entry>)
      requires state.Valid() && i < NUM_KEY_GROUPS && kgs == state.StoredIn(state.keyGroups) && Placed(state.hash, kgs)
      requires Queue(h) == Rebuilt(Flatten(state.hash, Upto(kgs, i)))
      ensures Queue(r) == Rebuilt(Flatten(state.hash, Upto(kgs, i + 1)))
      ensures state.Valid() && state.StoredIn(state.keyGroups) == old(state.StoredIn(state.keyGroups))
    {
      hide ShardState.Valid, ShardState.Live, ShardState.Frozen, ShardState.PartsOf, ShardState.StoredIn;
      hide Flatten, Upto, Placed, Rebuilt, Queue, ValuesIn;
      CoreIsApart();
      state.StoredAt(state.keyGroups, i);
      RebuiltMore(state.hash, kgs, i);
      r := h;
      if state.keyGroups[i] != null {
        r := CollectGroup(state.keyGroups[i], h, kgs[i]);
      }
      state.UntouchedStore();
    }

    /** The rest of Restore, once the state is in place: clock, source position, queue. */
    method Resume(watermark: int, lastSeq: nat)
      requires state.Valid()
      modifies this`watermark, this`lastSeq, this`negDeadlines
      ensures state.Valid() && state.Live() == old(state.Live()) && unchanged(state)
      ensures state.PartsOf(state.owned) == old(state.PartsOf(state.owned))
      ensures this.watermark == watermark && this.lastSeq == lastSeq
      ensures DeadlineHeap.IsHeap(negDeadlines) && Queue(negDeadlines) == Rebuilt(state.Live())
    {
      CoreIsApart();
      hide ShardState.Valid, ShardState.Live, ShardState.Frozen, ShardState.PartsOf, Queue, Rebuilt;
      hide DeadlineHeap.IsHeap;
      this.watermark := watermark;
      this.lastSeq := lastSeq;
      state.Untouched();
      RebuildNegativeDeadlines();
      state.Untouched();
    }

    /** Restore. A key group out of range is an error that leaves the core as it was; otherwise members,
        watermark and source position are the snapshot's, and the queue is the one its progresses need. */
    method Restore(snap: Snapshot) returns (r: RestoreResult)
      requires Valid() && state.frozenEpoch == 0
      requires (forall i :: i in snap.keyGroups ==> 0 <= i < NUM_KEY_GROUPS) ==> Placed(state.hash, snap.keyGroups)
      modifies this`watermark, this`lastSeq, this`negDeadlines, state`keyGroups, state`groups, state`owned
      ensures Valid() && state.frozenEpoch == 0
      ensures r.Restored? <==> forall i :: i in snap.keyGroups ==> 0 <= i < NUM_KEY_GROUPS
      ensures r.Restored? ==>
                var members := Flatten(state.hash, snap.keyGroups);
                Abstract() == Shard(members, snap.watermark, Rebuilt(members)) && r.lastSeq == lastSeq == snap.lastSeq
      ensures r.OutOfRange? ==> Abstract() == old(Abstract()) && lastSeq == old(lastSeq)
      ensures forall g :: g in state.groups ==> g in old(state.groups) || fresh(g)
      ensures forall o :: o in state.PartsOf(state.owned) ==> o in old(state.PartsOf(state.owned)) || fresh(o)
    {
      hide ShardState.Valid, ShardState.Live, ShardState.Frozen, ShardState.PartsOf, Queue, Rebuilt, ImplementsAll;
      hide Flatten, Placed;
      if exists i :: i in snap.keyGroups && !(0 <= i < NUM_KEY_GROUPS) {
        return OutOfRange;
      }
      state.Load(snap.keyGroups);
      Resume(snap.watermark, snap.lastSeq);
      r := Restored(snap.lastSeq);
    }

    /** Where neither the shard nor its objects were written, the core is as it was. */
    twostate lemma Undisturbed()
      requires old(Valid()) && unchanged(`watermark, `negDeadlines, `patterns) && unchanged(state)
      requires (forall g :: g in state.groups ==> unchanged(g))
      requires forall o :: o in old(state.PartsOf(state.owned)) ==> unchanged(o)
      ensures Valid() && Abstract() == old(Abstract()) && state.PartsOf(state.owned) == old(state.PartsOf(state.owned))
      ensures state.frozenEpoch != 0 ==> state.Frozen() == old(state.Frozen())
    {
      hide ShardState.Valid, ShardState.Live, ShardState.Frozen, ShardState.PartsOf, ImplementsAll, Queue;
      hide DeadlineHeap.IsHeap;
      state.Untouched();
    }

    /** BeginReplay and EndReplay: the flag that silences the late sink. */
    method SetReplaying(on: bool)
      requires Valid()
      modifies this`replaying
      ensures replaying == on && Valid() && Abstract() == old(Abstract())
      ensures state.PartsOf(state.owned) == old(state.PartsOf(state.owned))
      ensures state.frozenEpoch != 0 ==> state.Frozen() == old(state.Frozen())
    {
      CoreIsApart();
      hide Valid, Abstract, ShardState.PartsOf, ShardState.Frozen;
      replaying := on;
      Undisturbed();
    }

    /** Store the number of the record just applied. */
    method SetLastSeq(n: nat)
      requires Valid()
      modifies this`lastSeq
      ensures lastSeq == n && Valid() && Abstract() == old(Abstract())
      ensures state.PartsOf(state.owned) == old(state.PartsOf(state.owned))
      ensures state.frozenEpoch != 0 ==> state.Frozen() == old(state.Frozen())
    {
      CoreIsApart();
      hide Valid, Abstract, ShardState.PartsOf, ShardState.Frozen;
      lastSeq := n;
      Undisturbed();
    }

    /** What both consumers do with a decoded record: process the event, then store its number. */
    method ApplyRecord(e: Event, n: nat)
      requires Valid()
      modifies this`watermark, this`negDeadlines, this`sideOutput, this`lastSeq
      modifies state`keyGroups, state`groups, state`copiedGroups, state`owned, state`copied
      modifies state.groups, state.PartsOf(state.owned)
      ensures state.frozenEpoch == old(state.frozenEpoch) && state.frozenView == old(state.frozenView)
      ensures unchanged(`patterns, `replaying) && lastSeq == n
      ensures Valid() && (state.frozenEpoch != 0 ==> state.Frozen() == old(state.Frozen()))
      ensures Abstract() == Next(Cfg(), old(Abstract()), e)
      ensures sideOutput ==
                old(sideOutput) + if Late(old(Abstract()), e) && lateSink && !replaying then [e] else []
      ensures forall g :: g in state.groups ==> g in old(state.groups) || fresh(g)
      ensures forall o :: o in state.PartsOf(state.owned) ==> o in old(state.PartsOf(state.owned)) || fresh(o)
    {
      CoreIsApart();
      AbstractMeans();
      hide *;
      var r := ProcessEvent(e);
      AbstractMeans();
      SetLastSeq(n);
      AbstractMeans();
    }
  }

  datatype RestoreResult = Restored(lastSeq: nat) | OutOfRange

  /** Append the deadlines of one key group, ranging over its members and their progresses in any order. */
  method CollectGroup(g: KeyGroupState, h: seq<Entry>, ghost vals: map<string, Member>) returns (r: seq<Entry>)
    requires vals == ValuesIn(g)
    ensures Queue(r) == Queue(h) + Rebuilt(vals)
  {
    hide Queue, DeadlinesOf, Rebuilt, Holds, MemberState.Footprint, MemberState.Aggs, ValuesIn;
    r := h;
    NothingRebuilt(vals);
    GroupHolds(g);
    var todo := g.members.Keys;
    while todo != {}
      invariant todo <= vals.Keys && Queue(r) == Queue(h) + Rebuilt(vals - todo)
      invariant forall id :: id in g.members ==>
                  (forall o :: o in g.members[id].Aggs() ==> allocated(o))
                  && forall o :: o in g.members[id].Footprint() ==> allocated(o)
      invariant forall id :: id in g.members ==> Holds(g.members[id], vals[id])
      decreases todo
    {
      var id :| id in todo;
      r := CollectMember(g.members[id], r, vals[id]);
      RebuiltMember(vals, todo, id);
      todo := todo - {id};
    }
    assert vals - todo == vals;
  }

  lemma GroupHolds(g: KeyGroupState)
    ensures g.members.Keys == ValuesIn(g).Keys
    ensures forall id :: id in g.members ==>
      && Holds(g.members[id], ValuesIn(g)[id])
      && (forall o :: o in g.members[id].Aggs() ==> allocated(o))
      && forall o :: o in g.members[id].Footprint() ==> allocated(o)
  {
  }

  ghost predicate Holds(m: MemberState, v: Member)
    reads m, m.Aggs(), m.Footprint()
  {
    m.Value() == v
  }

  method CollectMember(ms: MemberState, h: seq<Entry>, ghost v: Member) returns (r: seq<Entry>)
    requires Holds(ms, v)
    ensures Queue(r) == Queue(h) + DeadlinesOf(v.progresses)
  {
    hide Queue, DeadlinesOf;
    ghost var progs := v.progresses;
    NothingDue(progs);
    r := h;
    var left := ms.progresses.Keys;
    while left != {}
      invariant left <= progs.Keys && Queue(r) == Queue(h) + DeadlinesOf(progs - left)
      invariant forall pid :: pid in ms.progresses ==> ms.progresses[pid].Value() == progs[pid]
      decreases left
    {
      var pid :| pid in left;
      var p := ms.progresses[pid];
      DeadlinesMore(progs, left, pid);
      if p.negativeDeadline != ZERO_TIME {
        var x := Entry(p.negativeDeadline, p.memberID, p.id);
        QueueAppend(r, x);
        r := r + [x];
      }
      left := left - {pid};
    }
    assert progs - left == progs;
  }

  lemma NothingDue(progs: map<string, Progress>)
    ensures DeadlinesOf(progs - progs.Keys) == {}
  {
  }

  lemma QueueAppend(h: seq<Entry>, x: Entry)
    ensures Queue(h + [x]) == Queue(h) + {x}
  {
  }

  lemma NothingRebuilt(vals: map<string, Member>)
    ensures Rebuilt(vals - vals.Keys) == {}
  {
  }

  lemma DeadlinesMore(progs: map<string, Progress>, left: set<string>, pid: string)
    requires pid in left && left <= progs.Keys
    ensures DeadlinesOf(progs - (left - {pid})) ==
              DeadlinesOf(progs - left)
              + (if IsParked(progs[pid])
                 then {Entry(progs[pid].negativeDeadline, progs[pid].memberID, progs[pid].id)}
                 else {})
  {
    assert forall x :: x in progs - (left - {pid}) <==> x in progs - left || x == pid;
  }

  lemma RebuiltMember(vals: map<string, Member>, todo: set<string>, id: string)
    requires id in todo && todo <= vals.Keys
    ensures Rebuilt(vals - (todo - {id})) == Rebuilt(vals - todo) + DeadlinesOf(vals[id].progresses)
  {
    assert vals - (todo - {id}) == (vals - todo) + map[id := vals[id]];
    RebuiltUnion(vals - todo, map[id := vals[id]]);
    RebuiltOne(id, vals[id]);
  }

  lemma RebuiltNone(hash: string -> nat, kgs: GroupValues)
    requires forall i :: i in kgs ==> i >= 0
    ensures Queue([]) == Rebuilt(Flatten(hash, Upto(kgs, 0))) == {}
  {
    FlattenNone(hash, kgs);
  }

  lemma RebuiltMore(hash: string -> nat, kgs: GroupValues, n: int)
    requires Placed(hash, kgs)
    ensures Rebuilt(Flatten(hash, Upto(kgs, n + 1))) ==
              Rebuilt(Flatten(hash, Upto(kgs, n))) + if n in kgs then Rebuilt(kgs[n]) else {}
  {
    hide Flatten, Upto, Placed, KeyGroupOf;
    FlattenMore(hash, kgs, n);
    PlacedAt(hash, kgs, n);
    forall id | id in Flatten(hash, Upto(kgs, n)) ensures n in kgs ==> id !in kgs[n] {
      FlattenAt(hash, kgs, n, id);
    }
    RebuiltUnion(Flatten(hash, Upto(kgs, n)), if n in kgs then kgs[n] else map[]);
  }

  lemma RebuiltUnion(a: map<string, Member>, b: map<string, Member>)
    requires a.Keys !! b.Keys
    ensures Rebuilt(a + b) == Rebuilt(a) + Rebuilt(b)
  {
    hide DeadlinesOf, Rebuilt;
    forall x | x in Rebuilt(a + b) ensures x in Rebuilt(a) || x in Rebuilt(b) {
      var id := RebuiltFrom(a + b, x);
      if id in b { InRebuilt(b, id, x); } else { InRebuilt(a, id, x); }
    }
    forall x | x in Rebuilt(a) || x in Rebuilt(b) ensures x in Rebuilt(a + b) {
      var id := if x in Rebuilt(a) then RebuiltIn(a, x) else RebuiltIn(b, x);
      InRebuilt(a + b, id, x);
    }
  }

  ghost function RebuiltIn(m: map<string, Member>, x: Entry): (id: string)
    requires x in Rebuilt(m)
    ensures id in m && x in DeadlinesOf(m[id].progresses)
  {
    var id :| id in m && x in DeadlinesOf(m[id].progresses); id
  }

  lemma RebuiltOne(id: string, m: Member)
    ensures Rebuilt(map[id := m]) == DeadlinesOf(m.progresses)
  {
    hide DeadlinesOf;
    forall x | x in DeadlinesOf(m.progresses) ensures x in Rebuilt(map[id := m]) {
      InRebuilt(map[id := m], id, x);
    }
  }

  lemma SameQueue(h: seq<Entry>, r: seq<Entry>)
    requires multiset(h) == multiset(r)
    ensures Queue(h) == Queue(r)
  {
    forall y ensures y in h <==> y in r {
      assert y in h <==> y in multiset(h);
      assert y in r <==> y in multiset(r);
    }
  }

  datatype FrozenSnapshot = FrozenSnapshot(view: View, watermark: int, lastSeq: nat)

  datatype Snapshot = Snapshot(keyGroups: GroupValues, watermark: int, lastSeq: nat)

  /** The snapshot holds exactly these members, this watermark and this source position. */
  ghost predicate Stores(hash: string -> nat, snap: Snapshot, members: map<string, Member>, watermark: int,
                         lastSeq: nat)
  {
    && Placed(hash, snap.keyGroups) && (forall i :: i in snap.keyGroups ==> 0 <= i < NUM_KEY_GROUPS)
    && Flatten(hash, snap.keyGroups) == members
    && snap.watermark == watermark && snap.lastSeq == lastSeq
  }

  /** A late event is counted and nothing else. */
  lemma LateStep(cfg: Config, s: Shard, e: Event)
    ensures e.memberID in Counted(cfg, s, e).members && (Late(s, e) <==> e.occurredAt < s.watermark)
    ensures MemberOf(Counted(cfg, s, e).members, e.memberID) == Counted(cfg, s, e).members[e.memberID]
    ensures Late(s, e) ==> Next(cfg, s, e) == Counted(cfg, s, e) && Reported([], Out(cfg, s, e))
  {
    hide Aggregated;
    if Late(s, e) {
      var none: seq<string>, never: seq<Entry> := [], [];
      assert Enumerates([], none, NOTHING.completed) && Enumerates([], never, NOTHING.expired);
      assert [] + NOTHING.instants + [] == [];
      assert ReportedAs([], Out(cfg, s, e), none, never);
    }
  }

  lemma ReportedSomehow(ms: seq<Match>, out: Output, byProgress: seq<string>, byDeadline: seq<Entry>)
    requires ReportedAs(ms, out, byProgress, byDeadline)
    ensures Reported(ms, out)
  {
  }

  /** What one call reports: the rules and the pattern matches that fired. */
  datatype ProcessResult = ProcessResult(rules: seq<MatchedRule>, matches: seq<Match>)

  /** The matches of one step, as listed: the completed progresses in the order `byProgress`, the
      single-state patterns in registration order, the passed deadlines in the order `byDeadline`. */
  ghost predicate ReportedAs(ms: seq<Match>, out: Output, byProgress: seq<string>, byDeadline: seq<Entry>) {
    exists completed, expired ::
      && ms == completed + out.instants + expired
      && Enumerates(completed, byProgress, out.completed)
      && Enumerates(expired, byDeadline, out.expired)
      && ByDeadline(byDeadline)
  }

  ghost predicate Reported(ms: seq<Match>, out: Output) {
    exists byProgress, byDeadline :: ReportedAs(ms, out, byProgress, byDeadline)
  }

  /** Matching one on-time event whose member is already counted: the members before the drain. */
  ghost function MatchMembers(cfg: Config, s: Shard, e: Event): map<string, Member> {
    s.members[e.memberID := MemberOf(s.members, e.memberID).(progresses := CepOf(cfg, true, s, e).progs)]
  }

  ghost function MatchDue(cfg: Config, s: Shard, e: Event): set<Entry> {
    Due(s.heap + CepOf(cfg, true, s, e).parked, Reached(cfg, s, e))
  }

  ghost function AfterMatch(cfg: Config, s: Shard, e: Event): Shard {
    var due := MatchDue(cfg, s, e);
    Shard(Drained(MatchMembers(cfg, s, e), due), Reached(cfg, s, e), s.heap + CepOf(cfg, true, s, e).parked - due)
  }

  ghost function MatchOutput(cfg: Config, s: Shard, e: Event): Output {
    var r := CepOf(cfg, true, s, e);
    Output(r.completed, r.instants, Expired(cfg.patterns, MatchMembers(cfg, s, e), MatchDue(cfg, s, e)))
  }

  lemma MatchMeans(cfg: Config, s: Shard, e: Event)
    ensures Reached(cfg, s, e) == Later(s.watermark, e.occurredAt - cfg.lateness)
    ensures e.memberID in s.members ==>
              var m := s.members[e.memberID];
              var r := Cep(cfg.patterns, e, Swept(cfg.patterns, m.progresses, Reached(cfg, s, e)));
              CepOf(cfg, true, s, e) == r && MatchMembers(cfg, s, e) ==
                  s.members[e.memberID := m.(progresses := r.progs)]
  {
  }

  lemma MatchThenDrain(cfg: Config, s: Shard, e: Event, mid: Shard, t: Shard, completed: seq<Match>, order: seq<string>,
                       instants: seq<Match>, expired: seq<Match>, dues: seq<Entry>)
    requires var r := CepOf(cfg, true, s, e);
             && mid == Shard(MatchMembers(cfg, s, e), Reached(cfg, s, e), s.heap + r.parked)
             && Enumerates(completed, order, r.completed) && instants == r.instants
    requires var due := Due(mid.heap, mid.watermark);
             && t == Shard(Drained(mid.members, due), mid.watermark, mid.heap - due)
             && Enumerates(expired, dues, Expired(cfg.patterns, mid.members, due)) && ByDeadline(dues)
    ensures t == AfterMatch(cfg, s, e)
    ensures ReportedAs(completed + instants + expired, MatchOutput(cfg, s, e), order, dues)
  {
    hide CepOf, MatchMembers, Drained, Due, Expired, Enumerates, ByDeadline;
  }

  /** Aggregating and then matching is one step of the shard. */
  lemma StepIsTwo(cfg: Config, s: Shard, e: Event)
    requires !Late(s, e)
    ensures Next(cfg, s, e) == AfterMatch(cfg, Counted(cfg, s, e), e)
    ensures Out(cfg, s, e) == MatchOutput(cfg, Counted(cfg, s, e), e)
  {
    hide Cep, Swept, Drained, Expired, Due, Fold;
    var m := Aggregated(cfg, MemberOf(s.members, e.memberID), e);
    var t := Counted(cfg, s, e);
    assert CepOf(cfg, true, t, e) == CepOf(cfg, true, s, e);
    assert MatchMembers(cfg, t, e) == Matched(cfg, true, s, e);
  }

  ghost predicate ByDeadline(order: seq<Entry>) {
    forall i, j :: 0 <= i < j < |order| ==> order[i].deadline <= order[j].deadline
  }

  /** Half way through the drain: `done` has been popped, earliest first, `queue` is still there. */
  ghost predicate Draining(ps: seq<Pattern>, live0: map<string, Member>, queue0: set<Entry>, wm: int, done: set<Entry>,
                           live: map<string, Member>, queue: set<Entry>, emitted: seq<Match>, order: seq<Entry>)
  {
    && done + queue == queue0 && (forall x :: x in done ==> x.deadline < wm)
    && (forall x, y :: x in done && y in queue ==> x.deadline <= y.deadline)
    && live == Drained(live0, done)
    && Enumerates(emitted, order, Expired(ps, live0, done))
    && ByDeadline(order)
  }

  lemma DrainStarts(ps: seq<Pattern>, live: map<string, Member>, queue: set<Entry>, wm: int)
    ensures Draining(ps, live, queue, wm, {}, live, queue, [], [])
  {
    assert Drained(live, {}) == live by {
      forall id | id in live ensures Undue(live[id].progresses, id, {}) == live[id].progresses {
      }
    }
    assert Expired(ps, live, {}) == map[];
  }

  /** Popping one more entry acts on what is left as the whole drain would. */
  lemma PoppedIsDrained(ps: seq<Pattern>, live0: map<string, Member>, done: set<Entry>, x: Entry)
    ensures Drained(live0, done + {x}) == Popped(Drained(live0, done), x)
  {
    var live := Drained(live0, done);
    forall id | id in live0
      ensures Undue(live0[id].progresses, id, done + {x}) ==
                if IsLive(live, x) && id == x.memberID then Undue(live0[id].progresses, id, done) - {x.progressID}
                else Undue(live0[id].progresses, id, done)
    {
    }
  }

  lemma EndingIsExpired(ps: seq<Pattern>, live0: map<string, Member>, done: set<Entry>, x: Entry)
    ensures var o := Ending(ps, Drained(live0, done), x);
            Expired(ps, live0, done + {x}) ==
              if o.Some? then Expired(ps, live0, done)[x := o.value] else Expired(ps, live0, done)
    ensures Ending(ps, Drained(live0, done), x).Some? ==> x !in done
  {
    hide FindPattern;
  }

  lemma OrderGrows(ps: seq<Pattern>, live0: map<string, Member>, done: set<Entry>, emitted: seq<Match>,
                   order: seq<Entry>,
                   x: Entry, m: Match)
    requires Enumerates(emitted, order, Expired(ps, live0, done)) && ByDeadline(order) && x !in done
    requires forall y :: y in done ==> y.deadline <= x.deadline
    ensures Enumerates(emitted + [m], order + [x], Expired(ps, live0, done)[x := m]) && ByDeadline(order + [x])
  {
    assert forall y :: y in Expired(ps, live0, done) ==> y in done;
    hide Expired;
    assert forall i :: 0 <= i < |order| ==> order[i].deadline <= x.deadline;
  }

  lemma DrainMore(ps: seq<Pattern>, live0: map<string, Member>, queue0: set<Entry>, wm: int, done: set<Entry>,
                  live: map<string, Member>, queue: set<Entry>, emitted: seq<Match>, order: seq<Entry>, x: Entry)
    requires Draining(ps, live0, queue0, wm, done, live, queue + {x}, emitted, order)
    requires x.deadline < wm && forall y :: y in queue ==> x.deadline <= y.deadline
    ensures var o := Ending(ps, live, x);
            Draining(ps, live0, queue0, wm, done + {x}, Popped(live, x), queue,
                     if o.Some? then emitted + [o.value] else emitted,
                     if o.Some? then order + [x] else order)
  {
    PoppedIsDrained(ps, live0, done, x);
    EndingIsExpired(ps, live0, done, x);
    var o := Ending(ps, live, x);
    if o.Some? {
      OrderGrows(ps, live0, done, emitted, order, x, o.value);
    }
    hide Drained, Expired, Ending, Popped, Enumerates, ByDeadline;
    assert done + {x} + queue == queue0;
  }

  lemma DrainEnds(ps: seq<Pattern>, live0: map<string, Member>, queue0: set<Entry>, wm: int, done: set<Entry>,
                  live: map<string, Member>, queue: set<Entry>, emitted: seq<Match>, order: seq<Entry>)
    requires Draining(ps, live0, queue0, wm, done, live, queue, emitted, order)
    requires forall y :: y in queue ==> y.deadline >= wm
    ensures var due := Due(queue0, wm);
            && live == Drained(live0, due) && queue == queue0 - due
            && Enumerates(emitted, order, Expired(ps, live0, due)) && ByDeadline(order)
  {
    assert done == Due(queue0, wm);
  }

  lemma NoneDue(h: seq<Entry>, wm: int)
    requires DeadlineHeap.IsHeap(h) && (h == [] || h[0].deadline >= wm)
    ensures forall y :: y in Queue(h) ==> y.deadline >= wm
  {
    forall i | 0 <= i < |h| ensures h[i].deadline >= wm {
      DeadlineHeap.RootIsLeast(h, i);
    }
  }

  /** The members once entry `x` has been popped: without the progress it points at, if it is live. */
  ghost function Popped(members: map<string, Member>, x: Entry): map<string, Member> {
    if IsLive(members, x) then
      var m := members[x.memberID];
      members[x.memberID := m.(progresses := m.progresses - {x.progressID})]
    else members
  }

  /** The match a passed deadline emits, if it is live and its pattern still exists. */
  ghost function Ending(ps: seq<Pattern>, members: map<string, Member>, x: Entry): Option<Match> {
    if !IsLive(members, x) then None
    else
      match FindPattern(ps, Parked(members, x).patternID)
      case None => None
      case Some(pat) => Some(Expiry(pat, Parked(members, x)))
  }

  lemma CachesMore(cache: map<string, Value>, keys: seq<AggregateKey>, i: nat, aggs: map<string, Agg>, now: int,
                   show: Printer, seen: set<string>, all: set<AggregateKey>)
    requires i < |keys| && Caches(cache, keys[..i], aggs, now, show) && Represents(seen, keys, all)
    ensures Caches(cache[CacheKey(keys[i]) := Boxed(AggregateValue(aggs, keys[i], now), show)],
                   keys[..i + 1], aggs, now, show)
  {
    hide AggregateValue, CacheKey;
    assert keys[..i + 1] == keys[..i] + [keys[i]];
    forall k | k in keys[..i] ensures CacheKey(k) != CacheKey(keys[i]) {
      var j :| 0 <= j < i && keys[j] == k;
    }
  }

  lemma RuleFires(strategies: seq<CompiledStrategy>, rules: seq<Rule>, i: nat, cache: map<string, Value>,
                  fields: map<string, Value>, aggs: map<string, Agg>, now: int, show: Printer)
    requires ImplementsAll(strategies, rules) && i < |rules| && Caches(cache, Collected(rules), aggs, now, show)
    ensures strategies[i].id == rules[i].id && strategies[i].name == rules[i].name
    ensures strategies[i].eval(Preloaded(fields, cache)) == YES
       <==> Evaluate(rules[i].node, AsCached(fields, aggs, Collected(rules), now, show)) == YES
  {
    hide AsCached, Caches, Preloaded, Collected, Held;
    assert Implements(strategies[i], rules[i]);
    CollectedCoversRules(rules);
    forall k | k in TreeKeys(rules[i].node) ensures Held(Collected(rules), k) {
      assert rules[i] in rules && k in RuleKeys(rules);
    }
    CachedRuleFires(strategies[i], rules[i], cache, Collected(rules), fields, aggs, now, show);
  }

  lemma NoneVisited(ps: seq<Pattern>, e: Event, before: map<string, Progress>)
    ensures SomeVisited(ps, e, before, before.Keys, before)
    ensures Enumerates([], [], Completions(ps, e, before - before.Keys)) && Parkings(ps, e, before - before.Keys) == {}
  {
    assert before - before.Keys == map[];
  }

  lemma VisitedMore(ps: seq<Pattern>, e: Event, before: map<string, Progress>, todo: set<string>, id: string,
                    now: map<string, Progress>)
    requires SomeVisited(ps, e, before, todo, now) && id in todo
    ensures id in before && id in now && now[id] == before[id]
    ensures var o := Advance(ps, e, before[id]);
            SomeVisited(ps, e, before, todo - {id}, if Stays(o) then now[id := o.progress] else now - {id})
  {
    hide Advance;
  }

  lemma AllVisited(ps: seq<Pattern>, e: Event, before: map<string, Progress>, now: map<string, Progress>)
    requires SomeVisited(ps, e, before, {}, now)
    ensures now == Advanced(ps, e, before) && before - {} == before
  {
    hide Advance;
  }

  /** Of the progresses `before`, those not in `todo` have been advanced. */
  ghost predicate SomeVisited(ps: seq<Pattern>, e: Event, before: map<string, Progress>, todo: set<string>,
                              now: map<string, Progress>)
  {
    && todo <= now.Keys <= before.Keys
    && (forall id :: id in todo ==> now[id] == before[id])
    && (forall id :: id in before && id !in todo ==>
          (id in now <==> Stays(Advance(ps, e, before[id]))) &&
          (id in now ==> now[id] == Advance(ps, e, before[id]).progress))
  }

  lemma EnumeratesMore<V>(list: seq<V>, keys: seq<string>, m: map<string, V>, k: string, v: V)
    requires Enumerates(list, keys, m) && k !in m
    ensures Enumerates(list + [v], keys + [k], m[k := v])
  {
  }

  lemma {:induction false} FirstIsFound(ps: seq<Pattern>, id: string, i: nat)
    requires i < |ps| && ps[i].id == id && forall j :: 0 <= j < i ==> ps[j].id != id
    ensures FindPattern(ps, id) == Some(ps[i])
    decreases i
  {
    if i > 0 { FirstIsFound(ps[1..], id, i - 1); }
  }
}
