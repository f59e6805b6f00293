/** The aggregates of a whole run: the buckets a member holds are the fold of its own events, so what
    a rule reads is a plain scan of them, and the rules that fire are those true of the scans. */
module Histories {
  import opened Basics
  import opened Rules
  import opened Events
  import opened AggregateKeys
  import opened Buckets
  import opened RuleFiring
  import opened Shards

  /** The events of one member and behaviour, in processing order, late ones included. */
  ghost function Own(es: seq<Event>, m: string, b: string): seq<Event> {
    if es == [] then []
    else
      var last := es[|es| - 1];
      Own(es[..|es| - 1], m, b) + if last.memberID == m && last.behavior == b then [last] else []
  }

  /** The same as a set. */
  ghost function Mine(es: seq<Event>, m: string, b: string): set<Event> {
    set e | e in EventSet(es) && e.memberID == m && e.behavior == b
  }

  /** Unfolding `Own` at its end. */
  lemma OwnSnoc(es: seq<Event>, e: Event, m: string, b: string)
    ensures Own(es + [e], m, b) == if e.memberID == m && e.behavior == b then Own(es, m, b) + [e] else Own(es, m, b)
  {
    assert (es + [e])[..|es|] == es;
    assert Own(es, m, b) + [] == Own(es, m, b);
  }

  lemma {:induction false} OwnAreMine(es: seq<Event>, m: string, b: string)
    ensures EventSet(Own(es, m, b)) == Mine(es, m, b)
    decreases |es|
  {
    if es != [] {
      var init, last := es[..|es| - 1], es[|es| - 1];
      OwnAreMine(init, m, b);
      assert es == init + [last];
      OwnSnoc(init, last, m, b);
      SetSnoc(es);
      var own := Own(init, m, b) + [last];
      assert own[..|own| - 1] == Own(init, m, b);
      SetSnoc(own);
    }
  }

  lemma OwnAreIdentified(es: seq<Event>, m: string, b: string)
    requires Identified(es)
    ensures Identified(Own(es, m, b))
  {
    var own := Own(es, m, b);
    OwnAreMine(es, m, b);
    forall i, j | 0 <= i < |own| && 0 <= j < |own| && own[i].eventID == own[j].eventID ensures own[i] == own[j] {
      assert own[i] in EventSet(own) && own[j] in EventSet(own);
    }
  }

  ghost function AggIn(aggs: map<string, Agg>, b: string): Agg { if b in aggs then aggs[b] else map[] }

  /** The buckets a shard holds for a member's behaviour. */
  ghost function AggAt(s: Shard, m: string, b: string): Agg { AggIn(MemberOf(s.members, m).aggs, b) }

  /** One step folds the event into its own member's behaviour and touches no other aggregate. */
  lemma StepFolds(cfg: Config, sweep: bool, s: Shard, e: Event, m: string, b: string)
    ensures AggAt(NextWith(cfg, sweep, s, e), m, b) ==
              if e.memberID == m && e.behavior == b then Fold(AggAt(s, m, b), e, cfg.maxWindow) else AggAt(s, m, b)
    ensures AggAt(Counted(cfg, s, e), m, b) == AggAt(NextWith(cfg, sweep, s, e), m, b)
  {
    hide Fold, CepOf, Undue, Reached, Due;
  }

  lemma FoldSnoc(es: seq<Event>, e: Event, maxWindow: int)
    ensures FoldAll(es + [e], maxWindow) == Fold(FoldAll(es, maxWindow), e, maxWindow)
  {
    hide Fold;
    assert (es + [e])[..|es|] == es;
  }

  /** After any run a member's buckets are the fold of its own events of that behaviour. */
  lemma {:induction false} RunFolds(cfg: Config, sweep: bool, es: seq<Event>, m: string, b: string)
    ensures AggAt(RunWith(cfg, sweep, es), m, b) == FoldAll(Own(es, m, b), cfg.maxWindow)
    decreases |es|
  {
    if es == [] {
    } else {
      hide *;
      var init, last := es[..|es| - 1], es[|es| - 1];
      assert es == init + [last];
      RunFolds(cfg, sweep, init, m, b);
      RunWithSnoc(cfg, sweep, init, last);
      StepFolds(cfg, sweep, RunWith(cfg, sweep, init), last, m, b);
      OwnSnoc(init, last, m, b);
      FoldSnoc(Own(init, m, b), last, cfg.maxWindow);
    }
  }

  lemma StepSees(cfg: Config, sweep: bool, s: Shard, e: Event, m: string)
    ensures MemberOf(NextWith(cfg, sweep, s, e).members, m).lastSeen ==
              var t := MemberOf(s.members, m).lastSeen;
              if e.memberID == m && e.occurredAt > t then e.occurredAt else t
  {
    hide Fold, CepOf, Undue, Reached, Due;
  }

  /** After any run a member was last seen at its newest event, late ones and redeliveries included, and
      at Go's zero time if it has none after it. */
  lemma {:induction false} LastSeenIsNewest(cfg: Config, sweep: bool, es: seq<Event>, m: string)
    ensures var t := MemberOf(RunWith(cfg, sweep, es).members, m).lastSeen;
            && t >= ZERO_TIME && (forall i :: 0 <= i < |es| && es[i].memberID == m ==> es[i].occurredAt <= t)
            && (t == ZERO_TIME || exists i :: 0 <= i < |es| && es[i].memberID == m && es[i].occurredAt == t)
    decreases |es|
  {
    hide NextWith;
    if es != [] {
      var k := |es| - 1;
      LastSeenIsNewest(cfg, sweep, es[..k], m);
      StepSees(cfg, sweep, RunWith(cfg, sweep, es[..k]), es[k], m);
      assert forall i :: 0 <= i < k ==> es[i] == es[..k][i];
    }
  }

  /** Whatever the order and the redeliveries, every retained bucket of a run is exact. */
  lemma RunBucketsAreExact(cfg: Config, es: seq<Event>, m: string, b: string, ts: int)
    requires Identified(es) && Own(es, m, b) != [] && ts >= Horizon(Own(es, m, b), cfg.maxWindow)
    ensures Exact(At(AggAt(Run(cfg, es), m, b), ts), EventsAt(Mine(es, m, b), ts))
  {
    RunFolds(cfg, true, es, m, b);
    OwnAreIdentified(es, m, b);
    OwnAreMine(es, m, b);
    BucketsAreExact(Own(es, m, b), cfg.maxWindow, ts);
  }

  /** Two runs over the same events, in any order, agree on every retained bucket of every member. */
  lemma RunsAgreeOnBuckets(cfg: Config, es: seq<Event>, fs: seq<Event>, m: string, b: string, ts: int)
    requires Identified(es) && Identified(fs) && EventSet(es) == EventSet(fs)
    requires Own(es, m, b) != [] && ts >= Horizon(Own(es, m, b), cfg.maxWindow)
    ensures At(AggAt(Run(cfg, es), m, b), ts) == At(AggAt(Run(cfg, fs), m, b), ts)
  {
    RunFolds(cfg, true, es, m, b);
    RunFolds(cfg, true, fs, m, b);
    OwnAreIdentified(es, m, b);
    OwnAreIdentified(fs, m, b);
    OwnAreMine(es, m, b);
    OwnAreMine(fs, m, b);
    assert Own(es, m, b)[0] in EventSet(Own(es, m, b));
    OrderDoesNotMatter(Own(es, m, b), Own(fs, m, b), cfg.maxWindow, ts);
  }

  // ---------- What a rule reads ----------

  /** The reference answer to an aggregate key: scan the member's events. */
  ghost function Scanned(es: seq<Event>, m: string, key: AggregateKey, now: int): real {
    var (b, kind, f) := ParseAggregateField(key.field);
    Scan(Mine(es, m, b), kind, f, Since(key.window, now), Align(now))
  }

  /** The window lies inside what the buckets still hold of the behaviour. */
  ghost predicate HeldFor(cfg: Config, es: seq<Event>, m: string, b: string, w: Option<TimeWindow>, now: int) {
    var own := Own(es, m, b);
    own == [] || Since(w, now) >= Horizon(own, cfg.maxWindow)
  }

  ghost predicate Retained(cfg: Config, es: seq<Event>, m: string, key: AggregateKey, now: int) {
    HeldFor(cfg, es, m, ParseAggregateField(key.field).0, key.window, now)
  }

  lemma NothingScanned(kind: string, f: string, since: int, upper: int)
    ensures Scan({}, kind, f, since, upper) == 0.0
    ensures Query(map[], kind, f, since, upper) == 0.0
  {
    assert (set e: Event | e in {} && since <= Align(e.occurredAt) <= upper) == {};
    assert Readings({}, f) == {} && BucketMaxs(map[], {}, f) == {} && BucketMins(map[], {}, f) == {};
    assert InWindow(map[], since, upper) == {};
  }

  /** An aggregate of a run is the query over the fold of the member's own events. */
  lemma AggregateIsQuery(cfg: Config, es: seq<Event>, m: string, key: AggregateKey, now: int)
    ensures var (b, kind, f) := ParseAggregateField(key.field);
            var own, since, upper := Own(es, m, b), Since(key.window, now), Align(now);
            && AggregateValue(MemberOf(Run(cfg, es).members, m).aggs, key, now)
               == Query(FoldAll(own, cfg.maxWindow), kind, f, since, upper)
            && Scanned(es, m, key, now) == Scan(EventSet(own), kind, f, since, upper)
  {
    hide Scan, Query, RunWith;
    var (b, kind, f) := ParseAggregateField(key.field);
    RunFolds(cfg, true, es, m, b);
    OwnAreMine(es, m, b);
    NothingScanned(kind, f, Since(key.window, now), Align(now));
    assert AggregateValue(MemberOf(Run(cfg, es).members, m).aggs, key, now)
        == Query(AggAt(Run(cfg, es), m, b), kind, f, Since(key.window, now), Align(now));
  }

  /** An aggregate computed from the buckets of a run is the scan of the member's distinct events. */
  lemma AggregateIsScan(cfg: Config, es: seq<Event>, m: string, key: AggregateKey, now: int)
    requires Identified(es) && Retained(cfg, es, m, key, now)
    ensures AggregateValue(MemberOf(Run(cfg, es).members, m).aggs, key, now) == Scanned(es, m, key, now)
  {
    hide Scan, Query, Scanned, AggregateValue, Run;
    var (b, kind, f) := ParseAggregateField(key.field);
    var own := Own(es, m, b);
    AggregateIsQuery(cfg, es, m, key, now);
    OwnAreIdentified(es, m, b);
    if own == [] {
      assert EventSet(own) == {};
      NothingScanned(kind, f, Since(key.window, now), Align(now));
    } else {
      QueryIsScan(own, cfg.maxWindow, kind, f, Since(key.window, now), Align(now));
    }
  }

  /** A windowed key is retained when its window fits the retention and no event of its behaviour is
      newer than `now`. */
  lemma FittingWindowIsRetained(cfg: Config, es: seq<Event>, m: string, key: AggregateKey, now: int)
    requires key.window.Some? && Duration(key.window) <= cfg.maxWindow
    requires forall e :: e in Mine(es, m, ParseAggregateField(key.field).0) ==> e.occurredAt <= now
    ensures Retained(cfg, es, m, key, now)
  {
    var b := ParseAggregateField(key.field).0;
    var own := Own(es, m, b);
    if own != [] {
      OwnAreMine(es, m, b);
      NewestIsReached(own);
      AlignMono(Newest(own) - cfg.maxWindow, now - Duration(key.window));
    }
  }

  lemma {:induction false} NewestIsReached(es: seq<Event>)
    requires es != []
    ensures exists e :: e in EventSet(es) && e.occurredAt == Newest(es)
    decreases |es|
  {
    var init, last := es[..|es| - 1], es[|es| - 1];
    assert last in EventSet(es);
    if |es| > 1 && Newest(es) != last.occurredAt {
      NewestIsReached(init);
      var e :| e in EventSet(init) && e.occurredAt == Newest(init);
      SetSnoc(es);
      assert e in EventSet(es);
    }
  }

  // ---------- Which rules fire ----------

  /** The context that answers every aggregate by scanning the member's events. */
  ghost function ScanContext(fields: map<string, Value>, es: seq<Event>, m: string, now: int, show: Printer)
    : EvalContext
  {
    EvalContext(
      (f: string, w: Option<TimeWindow>) =>
        if ':' !in f then Found(if f in fields then fields[f] else Nil)
        else Found(Boxed(Scanned(es, m, AggregateKey(f, w), now), show)),
      (x: string) => None)
  }

  /** The rules true of the scans, in rule order. */
  ghost function TrueOfScans(rules: seq<Rule>, fields: map<string, Value>, es: seq<Event>, m: string, now: int,
                             show: Printer)
    : seq<MatchedRule>
  {
    Holding(rules, ScanContext(fields, es, m, now, show))
  }

  lemma RuleIsTrueOfScans(cfg: Config, rule: Rule, fields: map<string, Value>, es: seq<Event>, m: string, now: int,
                          show: Printer)
    requires Identified(es) && forall k :: k in TreeKeys(rule.node) ==> Retained(cfg, es, m, k, now)
    ensures Evaluate(rule.node, OnDemand(fields, MemberOf(Run(cfg, es).members, m).aggs, now, show))
         == Evaluate(rule.node, ScanContext(fields, es, m, now, show))
  {
    hide Run, AggregateValue, Scanned, Retained;
    var c := OnDemand(fields, MemberOf(Run(cfg, es).members, m).aggs, now, show);
    var d := ScanContext(fields, es, m, now, show);
    forall k | k in TreeKeys(rule.node) ensures c.resolve(k.field, k.window) == d.resolve(k.field, k.window) {
      AggregateIsScan(cfg, es, m, k, now);
    }
    AgreeingContexts(rule.node, c, d);
  }

  lemma {:induction false} FiredAreTrueOfScans(cfg: Config, rules: seq<Rule>, fields: map<string, Value>,
                                               es: seq<Event>, m: string, now: int, show: Printer)
    requires Identified(es) && forall k :: k in RuleKeys(rules) ==> Retained(cfg, es, m, k, now)
    ensures Fired(rules, fields, MemberOf(Run(cfg, es).members, m).aggs, now, show)
         == TrueOfScans(rules, fields, es, m, now, show)
    decreases |rules|
  {
    hide OnDemand, ScanContext, Retained, Run;
    if rules != [] {
      var init, last := rules[..|rules| - 1], rules[|rules| - 1];
      assert last in rules && forall r :: r in init ==> r in rules;
      assert forall k :: k in RuleKeys(init) || k in TreeKeys(last.node) ==> k in RuleKeys(rules);
      FiredAreTrueOfScans(cfg, init, fields, es, m, now, show);
      RuleIsTrueOfScans(cfg, last, fields, es, m, now, show);
    }
  }

  /** 24 hours of retention when no rule declares a window. */
  const DEFAULT_MAX_WINDOW: int := 24 * 60 * MINUTE

  /** What NewCore makes of a rule set's longest window. */
  function Retention(rs: CompiledRuleSet): int {
    if rs.maxWindow == 0 then DEFAULT_MAX_WINDOW else rs.maxWindow
  }

  /** It is the longest window of the collected aggregates, and a day when none of them has one. */
  lemma RetentionIsLongest(rs: CompiledRuleSet, rules: seq<Rule>)
    requires LongestWindow(Collected(rules), rs.maxWindow)
    ensures forall k :: k in Collected(rules) && Duration(k.window) > 0 ==> Duration(k.window) <= Retention(rs)
    ensures if exists k :: k in Collected(rules) && Duration(k.window) > 0
            then exists k :: k in Collected(rules) && Duration(k.window) == Retention(rs)
            else Retention(rs) == Duration(Some(TimeWindow(24, "hours")))
  {
    assert ToLower("hours") == "hours" && |"hours"| == 5 && |"minutes"| == 7;
    hide Collected, ToLower;
  }

  /** Whenever the windows the rules read are retained, the rules that fire on an on-time event
      (Engine.Core.ProcessEvent) are exactly those true of the plain scans of its member's events. */
  lemma MatchedRulesAreTrueOfScans(cfg: Config, rules: seq<Rule>, es: seq<Event>, e: Event, show: Printer)
    requires Identified(es + [e])
    requires forall k :: k in RuleKeys(rules) ==> Retained(cfg, es + [e], e.memberID, k, e.occurredAt)
    ensures Fired(rules, EvalFields(e), Counted(cfg, Run(cfg, es), e).members[e.memberID].aggs, e.occurredAt, show)
         == TrueOfScans(rules, EvalFields(e), es + [e], e.memberID, e.occurredAt, show)
  {
    hide RuleKeys, Retained, Run, Next, Fired, TrueOfScans, Identified, EvalFields, MemberOf;
    RunSnoc(cfg, es, e);
    CountedKeepsAggs(cfg, Run(cfg, es), e);
    FiredAreTrueOfScans(cfg, rules, EvalFields(e), es + [e], e.memberID, e.occurredAt, show);
  }

  /** The windows of a compiled rule set are retained on an event that is the newest of the behaviours
      the rules read. The span is what CompileRules promises of `rs`, the retention what NewCore makes
      of it. */
  lemma WindowsAreRetained(cfg: Config, rs: CompiledRuleSet, rules: seq<Rule>, es: seq<Event>, m: string, now: int)
    requires cfg.maxWindow == Retention(rs) && Spans(rs, rules)
    requires forall k :: k in RuleKeys(rules) ==> k.window.Some?
    requires forall k, x :: k in RuleKeys(rules) && x in Mine(es, m, ParseAggregateField(k.field).0) ==>
             x.occurredAt <= now
    ensures forall k :: k in RuleKeys(rules) ==> Retained(cfg, es, m, k, now)
  {
    hide RuleKeys, Retained, Mine, ParseAggregateField, Duration;
    forall k | k in RuleKeys(rules) ensures Retained(cfg, es, m, k, now) {
      FittingWindowIsRetained(cfg, es, m, k, now);
    }
  }

  lemma CountedKeepsAggs(cfg: Config, s: Shard, e: Event)
    ensures Counted(cfg, s, e).members[e.memberID].aggs == MemberOf(Next(cfg, s, e).members, e.memberID).aggs
  {
    hide Fold, CepOf, Undue, Reached, Due;
  }
}
