/** Short runs on which a rule that is true of the member's events does not fire. */
module RuleLimits {
  import opened Basics
  import opened Rules
  import opened Events
  import opened AggregateKeys
  import opened Buckets
  import opened RuleFiring
  import opened Shards
  import opened Histories
  import opened Pruning
  import opened RuleLaws
  import opened Answers

  const TRADES := "Trade:COUNT"
  const FIVE := TimeWindow(5, "minutes")

  /** "At least two trades in the window." */
  function AtLeastTwo(id: nat, w: Option<TimeWindow>): Rule {
    Rule(id, "two trades", RuleNode("CONDITION", [], TRADES, ">=", Num(2.0, "2"), w))
  }

  function Trade(id: string, t: int): Event { Event(id, "alice", "Trade", map[], t) }

  lemma TradesAreCounted()
    ensures ParseAggregateField(TRADES) == ("Trade", "COUNT", "")
    ensures ':' in TRADES && !IsVariable(TRADES) && ValidField(TRADES)
  {
    PlainKinds();
    assert TRADES == "Trade" + ":" + "COUNT" && TRADES[0] == 'T' && TRADES[5] == ':';
    hide ParseAggregateField, ValidField, ToUpper;
    FieldParses("Trade", "COUNT", "");
    FieldIsValidIff("Trade", "COUNT", "");
  }

  lemma AtLeastTwoHolds(id: nat, w: Option<TimeWindow>, ctx: EvalContext, x: real, shown: string)
    requires ctx.resolve(TRADES, w) == Found(Num(x, shown))
    ensures Evaluate(AtLeastTwo(id, w).node, ctx) == YES <==> x >= 2.0
  {
    TradesAreCounted();
    AtLeastIsOrdered();
    hide ParseAggregateField, ValidField, ToUpper, Evaluate;
    OrderMeans(AtLeastTwo(id, w).node, ctx, Num(x, shown), Num(2.0, "2"));
  }

  /** What the engine matches on the event, and what the scans say. */
  ghost function MatchedOn(cfg: Config, rules: seq<Rule>, es: seq<Event>, e: Event, show: Printer): seq<MatchedRule> {
    var aggs := MemberOf(Counted(cfg, Run(cfg, es), e).members, e.memberID).aggs;
    Holding(rules, AsCached(EvalFields(e), aggs, Collected(rules), e.occurredAt, show))
  }

  ghost function TrueOn(rules: seq<Rule>, es: seq<Event>, e: Event, show: Printer): seq<MatchedRule> {
    TrueOfScans(rules, EvalFields(e), es + [e], e.memberID, e.occurredAt, show)
  }

  /** One rule is judged by the value of the key that answers for its own. */
  lemma JudgedBy(cfg: Config, rule: Rule, id: nat, w: Option<TimeWindow>, keys: seq<AggregateKey>, es: seq<Event>,
                 e: Event, show: Printer)
    requires rule == AtLeastTwo(id, w)
    ensures var aggs := MemberOf(Counted(cfg, Run(cfg, es), e).members, e.memberID).aggs;
            var ctx := AsCached(EvalFields(e), aggs, keys, e.occurredAt, show);
            Evaluate(rule.node, ctx) == YES <==>
              AggregateValue(MemberOf(Run(cfg, es + [e]).members, e.memberID).aggs,
                             Stand(keys, AggregateKey(TRADES, w)), e.occurredAt) >= 2.0
    ensures var ctx := ScanContext(EvalFields(e), es + [e], e.memberID, e.occurredAt, show);
            Evaluate(rule.node, ctx) == YES <==>
              Scanned(es + [e], e.memberID, AggregateKey(TRADES, w), e.occurredAt) >= 2.0
  {
    hide Run, AggregateValue, Scanned, Stand, Next, Counted, MemberOf, Evaluate;
    TradesAreCounted();
    RunSnoc(cfg, es, e);
    CountedIsStored(cfg, Run(cfg, es), e);
    var aggs := MemberOf(Counted(cfg, Run(cfg, es), e).members, e.memberID).aggs;
    var v := AggregateValue(aggs, Stand(keys, AggregateKey(TRADES, w)), e.occurredAt);
    AtLeastTwoHolds(id, w, AsCached(EvalFields(e), aggs, keys, e.occurredAt, show), v, show(v));
    var u := Scanned(es + [e], e.memberID, AggregateKey(TRADES, w), e.occurredAt);
    AtLeastTwoHolds(id, w, ScanContext(EvalFields(e), es + [e], e.memberID, e.occurredAt, show), u, show(u));
  }

  lemma CountedIsStored(cfg: Config, s: Shard, e: Event)
    ensures MemberOf(Counted(cfg, s, e).members, e.memberID).aggs == MemberOf(Next(cfg, s, e).members, e.memberID).aggs
  {
    CountedKeepsAggs(cfg, s, e);
    hide Next, Aggregated;
  }

  lemma HoldingMore(rules: seq<Rule>, rule: Rule, ctx: EvalContext)
    ensures Holding(rules + [rule], ctx)
         == Holding(rules, ctx) + if Evaluate(rule.node, ctx) == YES then [MatchedRule(rule.id, rule.name)] else []
    ensures Holding([], ctx) == []
  {
    hide Evaluate;
    assert (rules + [rule])[..|rules|] == rules;
  }

  lemma HoldingOne(rule: Rule, ctx: EvalContext)
    ensures Holding([rule], ctx) == if Evaluate(rule.node, ctx) == YES then [MatchedRule(rule.id, rule.name)] else []
  {
    hide *;
    HoldingMore([], rule, ctx);
    assert [] + [rule] == [rule];
  }

  lemma ListMore(rules: seq<Rule>, rule: Rule)
    ensures ListOf(rules + [rule]) == ListOf(rules) + TreeList(rule.node) && ListOf([]) == []
  {
    hide TreeList;
    assert (rules + [rule])[..|rules|] == rules;
  }

  lemma ReadsTrades(id: nat, w: Option<TimeWindow>)
    ensures TreeList(AtLeastTwo(id, w).node) == [AggregateKey(TRADES, w)]
  {
    TradesAreCounted();
    hide ParseAggregateField, ValidField, IsVariable;
  }

  lemma OneKey(rule: Rule, k: AggregateKey)
    requires TreeList(rule.node) == [k]
    ensures Collected([rule]) == [k] && Stand([k], k) == k
  {
    hide CacheKey, TreeList, KeepAll, ListOf;
    ListMore([], rule);
    assert [rule] == [] + [rule] && [k] == [] + [k];
    KeepSnoc([], [], k);
    KeepNone([]);
    assert [k][0] == k && Held([k], k);
  }

  /** Of two keys that print alike the first answers for both. */
  lemma TwoKeys(r: Rule, q: Rule, j: AggregateKey, k: AggregateKey)
    requires TreeList(r.node) == [j] && TreeList(q.node) == [k] && CacheKey(j) == CacheKey(k)
    ensures Collected([r, q]) == [j] && Stand([j], j) == j && Stand([j], k) == j
  {
    hide CacheKey, TreeList, KeepAll, ListOf;
    OneKey(r, j);
    ListMore([], r);
    ListMore([r], q);
    assert [r] == [] + [r] && [r, q] == [r] + [q] && [j] == [] + [j];
    KeepSnoc([], [j], k);
    assert [j][0] == j && Held([j], k) && Held([j], j);
  }

  lemma KeepNone(keys: seq<AggregateKey>)
    ensures KeepAll(keys, []) == keys
  {
  }

  // ---------- An on-time event that is not the newest ----------

  const FIRST := Trade("e0", 30 * SECOND)
  const AHEAD := Trade("e1", 361 * SECOND)
  const BEHIND := Trade("e2", 358 * SECOND)

  lemma TradesAlign()
    ensures Align(30 * SECOND) == 0 && Align(361 * SECOND) == 360 && Align(358 * SECOND) == 300
    ensures Align(361 * SECOND - 5 * MINUTE) == 60 && Align(358 * SECOND - 5 * MINUTE) == 0
  {
  }

  /** What is left of the three trades once the second has pruned the first. */
  lemma ThreeTradesCount()
    ensures Query(FoldAll([FIRST, AHEAD, BEHIND], 5 * MINUTE), "COUNT", "", 0, 300) == 1.0
    ensures Scan(EventSet([FIRST, AHEAD, BEHIND]), "COUNT", "", 0, 300) == 2.0
  {
    hide Query, Fold, Align;
    TradesAlign();
    PairIsLast(FIRST, AHEAD, 5 * MINUTE);
    assert [FIRST, AHEAD, BEHIND] == [FIRST, AHEAD] + [BEHIND] && [AHEAD, BEHIND] == [AHEAD] + [BEHIND];
    FoldSnoc([FIRST, AHEAD], BEHIND, 5 * MINUTE);
    FoldSnoc([AHEAD], BEHIND, 5 * MINUTE);
    LaterTwo();
    ThreeScanned();
  }

  lemma LaterTwo()
    ensures Query(FoldAll([AHEAD, BEHIND], 5 * MINUTE), "COUNT", "", 0, 300) == 1.0
  {
    TradesAlign();
    LaterKeys();
    LaterNewest();
    hide Query, FoldAll, Align, EventSet, Newest, Identified;
    var es := [AHEAD, BEHIND];
    QuerySkips(FoldAll(es, 5 * MINUTE), "COUNT", "", 0, 60, 300);
    QueryIsScan(es, 5 * MINUTE, "COUNT", "", 60, 300);
    CountIs({AHEAD, BEHIND}, 60, 300, {BEHIND});
  }

  lemma LaterNewest()
    ensures var es := [AHEAD, BEHIND];
            Identified(es) && Newest(es) == 361 * SECOND && EventSet(es) == {AHEAD, BEHIND}
  {
    var es := [AHEAD, BEHIND];
    assert es[..1] == [AHEAD] && es[0] == AHEAD && es[1] == BEHIND;
    assert AHEAD.eventID[1] != BEHIND.eventID[1];
  }

  lemma CountIs(es: set<Event>, since: int, upper: int, hit: set<Event>)
    requires hit == set e | e in es && since <= Align(e.occurredAt) <= upper
    ensures Scan(es, "COUNT", "", since, upper) == |hit| as real
  {
    hide Align;
  }

  lemma LaterKeys()
    ensures forall ts :: ts in FoldAll([AHEAD, BEHIND], 5 * MINUTE) ==> ts >= 60
  {
    TradesAlign();
    OnlyBucket(AHEAD, 5 * MINUTE);
    hide Add, Align, FoldAll;
    assert [AHEAD, BEHIND] == [AHEAD] + [BEHIND];
    FoldSnoc([AHEAD], BEHIND, 5 * MINUTE);
  }

  lemma ThreeScanned()
    ensures Scan(EventSet([FIRST, AHEAD, BEHIND]), "COUNT", "", 0, 300) == 2.0
  {
    var es := [FIRST, AHEAD, BEHIND];
    TradesAlign();
    assert EventSet(es) == {FIRST, AHEAD, BEHIND} by { assert es[0] == FIRST && es[1] == AHEAD && es[2] == BEHIND; }
    hide Align, EventSet;
    CountIs({FIRST, AHEAD, BEHIND}, 0, 300, {FIRST, BEHIND});
    assert FIRST != BEHIND && |{FIRST, BEHIND}| == 2;
  }

  lemma FiveMinutes()
    ensures Duration(Some(FIVE)) == 5 * MINUTE
  {
    assert ToLower("minutes") == "minutes";
  }

  /** With the default lateness and a retention of exactly the window: an on-time event three seconds
      behind the newest one asks for a bucket that the newest one has pruned. */
  lemma OlderEventMissesARule(show: Printer)
    ensures var cfg, rules, es := Config([], 5 * MINUTE, 5 * SECOND), [AtLeastTwo(1, Some(FIVE))], [FIRST, AHEAD];
            && Identified(es + [BEHIND]) && !Late(Run(cfg, es), BEHIND)
            && MatchedOn(cfg, rules, es, BEHIND, show) == []
            && TrueOn(rules, es, BEHIND, show) == [MatchedRule(1, "two trades")]
  {
    hide *;
    var cfg, es, w := Config([], 5 * MINUTE, 5 * SECOND), [FIRST, AHEAD], Some(FIVE);
    TradeTimes();
    PairOnTime(cfg, FIRST, AHEAD, BEHIND);
    assert es + [BEHIND] == [FIRST, AHEAD, BEHIND];
    TradesQueried(cfg, es, BEHIND, w);
    ThreeTradesCount();
    MissesOne(cfg, 1, w, es, BEHIND, show);
  }

  lemma TradeTimes()
    ensures FIRST.occurredAt == 30 * SECOND && AHEAD.occurredAt == 361 * SECOND && BEHIND.occurredAt == 358 * SECOND
    ensures Since(Some(FIVE), BEHIND.occurredAt) == 0 && Align(BEHIND.occurredAt) == 300
    ensures OnlyTrades([FIRST, AHEAD]) && OnlyTrades([BEHIND]) && Identified([FIRST, AHEAD] + [BEHIND])
    ensures SECOND == 1_000_000_000 && MINUTE == 60 * SECOND
    ensures BEHIND.memberID == "alice" && FIRST.occurredAt <= BEHIND.occurredAt
  {
    FiveMinutes();
    var all := [FIRST, AHEAD] + [BEHIND];
    assert all == [FIRST, AHEAD, BEHIND];
    assert forall i :: 0 <= i < 3 ==> all[i].eventID == ["e0", "e1", "e2"][i];
    assert "e0"[1] == '0' && "e1"[1] == '1' && "e2"[1] == '2';
  }

  ghost predicate OnlyTrades(es: seq<Event>) {
    forall i :: 0 <= i < |es| ==> es[i].memberID == "alice" && es[i].behavior == "Trade"
  }

  /** A count of the member's trades, as the run keeps it and as a scan would. */
  lemma TradesQueried(cfg: Config, es: seq<Event>, e: Event, w: Option<TimeWindow>)
    requires OnlyTrades(es) && OnlyTrades([e])
    ensures var k, since, upper := AggregateKey(TRADES, w), Since(w, e.occurredAt), Align(e.occurredAt);
            && AggregateValue(MemberOf(Run(cfg, es + [e]).members, "alice").aggs, k, e.occurredAt)
               == Query(FoldAll(es + [e], cfg.maxWindow), "COUNT", "", since, upper)
            && Scanned(es + [e], "alice", k, e.occurredAt) == Scan(EventSet(es + [e]), "COUNT", "", since, upper)
  {
    assert [e][0] == e;
    OwnTrades(es, e);
    hide *;
    TradesAreCounted();
    AggregateIsQuery(cfg, es + [e], "alice", AggregateKey(TRADES, w), e.occurredAt);
  }

  /** The rule is true of the scan and does not fire. */
  lemma MissesOne(cfg: Config, id: nat, w: Option<TimeWindow>, es: seq<Event>, e: Event, show: Printer)
    requires var k := AggregateKey(TRADES, w);
             && AggregateValue(MemberOf(Run(cfg, es + [e]).members, e.memberID).aggs, k, e.occurredAt) < 2.0
             && Scanned(es + [e], e.memberID, k, e.occurredAt) >= 2.0
    ensures MatchedOn(cfg, [AtLeastTwo(id, w)], es, e, show) == []
    ensures TrueOn([AtLeastTwo(id, w)], es, e, show) == [MatchedRule(id, "two trades")]
  {
    hide Run, AggregateValue, Scanned, Evaluate, Collected, Stand, Counted, MemberOf, Holding, AsCached, ScanContext;
    hide TreeList;
    var rule, k := AtLeastTwo(id, w), AggregateKey(TRADES, w);
    ReadsTrades(id, w);
    OneKey(rule, k);
    JudgedBy(cfg, rule, id, w, [k], es, e, show);
    var aggs := MemberOf(Counted(cfg, Run(cfg, es), e).members, e.memberID).aggs;
    HoldingOne(rule, AsCached(EvalFields(e), aggs, [k], e.occurredAt, show));
    HoldingOne(rule, ScanContext(EvalFields(e), es + [e], e.memberID, e.occurredAt, show));
  }

  lemma {:induction false} OwnTrades(es: seq<Event>, e: Event)
    requires OnlyTrades(es)
    requires e.memberID == "alice" && e.behavior == "Trade"
    ensures Own(es + [e], "alice", "Trade") == es + [e]
    decreases |es|
  {
    OwnSnoc(es, e, "alice", "Trade");
    if es != [] {
      var n := |es| - 1;
      OwnTrades(es[..n], es[n]);
      assert es == es[..n] + [es[n]];
    }
  }

  // ---------- A key without a window ----------

  const DAY_LATER := Trade("e1", 25 * 60 * MINUTE)

  /** The default retention prunes what a key without a window still asks for, on the newest event. */
  lemma WindowlessKeyMissesARule(show: Printer)
    ensures var cfg, rules := Config([], DEFAULT_MAX_WINDOW, 5 * SECOND), [AtLeastTwo(1, None)];
            && (forall max :: LongestWindow(Collected(rules), max) ==> max == 0)
            && Identified([FIRST] + [DAY_LATER]) && !Late(Run(cfg, [FIRST]), DAY_LATER)
            && MatchedOn(cfg, rules, [FIRST], DAY_LATER, show) == []
            && TrueOn(rules, [FIRST], DAY_LATER, show) == [MatchedRule(1, "two trades")]
  {
    hide *;
    var cfg := Config([], DEFAULT_MAX_WINDOW, 5 * SECOND);
    DayTimes();
    OneOnTime(cfg, FIRST, DAY_LATER);
    TradesQueried(cfg, [FIRST], DAY_LATER, None);
    TwoDaysCount();
    MissesOne(cfg, 1, None, [FIRST], DAY_LATER, show);
    ReadsTrades(1, None);
    OneKey(AtLeastTwo(1, None), AggregateKey(TRADES, None));
    NoLongest();
  }

  lemma DayTimes()
    ensures 0 <= FIRST.occurredAt <= DAY_LATER.occurredAt && Since(None, DAY_LATER.occurredAt) == 0
    ensures OnlyTrades([FIRST]) && OnlyTrades([DAY_LATER]) && Identified([FIRST] + [DAY_LATER])
    ensures DAY_LATER.memberID == "alice" && SECOND == 1_000_000_000
  {
    var all := [FIRST] + [DAY_LATER];
    assert all[0] == FIRST && all[1] == DAY_LATER && FIRST.eventID[1] != DAY_LATER.eventID[1];
  }

  lemma NoLongest()
    ensures forall max :: LongestWindow([AggregateKey(TRADES, None)], max) ==> max == 0
  {
    hide CacheKey;
  }

  lemma OneOnTime(cfg: Config, e0: Event, e1: Event)
    requires cfg.lateness >= 0 && 0 <= e0.occurredAt <= e1.occurredAt
    ensures !Late(Run(cfg, [e0]), e1)
  {
    WatermarkClosedForm(cfg, true, [e0]);
    hide RunWith;
    assert [e0][..0] == [] && ClosedForm(cfg, []) == 0;
  }

  lemma TwoDaysCount()
    ensures var upper := Align(DAY_LATER.occurredAt);
            && Query(FoldAll([FIRST] + [DAY_LATER], DEFAULT_MAX_WINDOW), "COUNT", "", 0, upper) == 1.0
            && Scan(EventSet([FIRST] + [DAY_LATER]), "COUNT", "", 0, upper) == 2.0
  {
    var upper := Align(DAY_LATER.occurredAt);
    assert Align(FIRST.occurredAt) == 0 && upper == 90000 && Align(DAY_LATER.occurredAt - DEFAULT_MAX_WINDOW) == 3600;
    PairCounts(FIRST, DAY_LATER, DEFAULT_MAX_WINDOW, 0, 0, upper);
    assert [FIRST] + [DAY_LATER] == [FIRST, DAY_LATER];
  }

  /** Of a pair whose first is pruned a count sees one, also where a scan from `reach` on sees both. */
  lemma PairCounts(e0: Event, e1: Event, w: int, since: int, reach: int, upper: int)
    requires w >= 0 && e0.eventID != e1.eventID && Align(e0.occurredAt) < Align(e1.occurredAt - w)
    requires since <= Align(e1.occurredAt) <= upper && reach <= Align(e0.occurredAt)
    ensures Query(FoldAll([e0, e1], w), "COUNT", "", since, upper) == 1.0
    ensures Scan(EventSet([e0, e1]), "COUNT", "", reach, upper) == 2.0
  {
    hide Query, FoldAll, EventSet;
    AlignMono(e1.occurredAt - w, e1.occurredAt);
    if e0.occurredAt > e1.occurredAt { AlignMono(e1.occurredAt, e0.occurredAt); }
    PairIsLast(e0, e1, w);
    PairIsNewest(e0, e1);
    OnlyBucket(e1, w);
    hide Align;
    var here := Align(e1.occurredAt);
    QuerySkips(FoldAll([e1], w), "COUNT", "", since, here, upper);
    QueryIsScan([e1], w, "COUNT", "", here, upper);
    CountIs({e1}, here, upper, {e1});
    CountIs({e0, e1}, reach, upper, {e0, e1});
    assert e0 != e1 && |{e0, e1}| == 2;
  }

  // ---------- Two windows that print alike ----------

  const ODD := TimeWindow(1, "5minutes")
  const FIFTEEN := TimeWindow(15, "minutes")

  /** Units are not validated: a window of "1" "5minutes" lasts one minute and shares its cache entry with
      one of fifteen minutes. */
  lemma ValidatedKeysCollide()
    ensures var j, k := AggregateKey(TRADES, Some(ODD)), AggregateKey(TRADES, Some(FIFTEEN));
            && ValidField(TRADES) && j != k && CacheKey(j) == CacheKey(k)
            && Duration(j.window) == MINUTE && Duration(k.window) == 15 * MINUTE
  {
    TradesAreCounted();
    hide ValidField, ParseAggregateField, IsVariable;
    OddLasts();
    OddPrints();
    hide Duration, Decimal;
    assert AggregateKey(TRADES, Some(ODD)).window.value.value == 1;
    assert TRADES + "|" + Decimal(1) + "5minutes" == TRADES + "|" + (Decimal(1) + "5minutes");
    assert TRADES + "|" + Decimal(15) + "minutes" == TRADES + "|" + (Decimal(15) + "minutes");
  }

  lemma OddLasts()
    ensures Duration(Some(ODD)) == MINUTE && Duration(Some(FIFTEEN)) == 15 * MINUTE
  {
    assert ToLower("minutes") == "minutes" && ToLower("5minutes") == "5minutes";
    assert |"5minutes"| == 8 && |"minutes"| == 7 && |"hours"| == 5 && |"days"| == 4;
  }

  lemma OddPrints()
    ensures Decimal(1) + "5minutes" == Decimal(15) + "minutes"
  {
    assert Digits(15) == Digits(1) + [Digit(5)];
    assert Decimal(1) == "1" && Decimal(15) == "15";
  }

  const CLASH: seq<Rule> := [AtLeastTwo(1, Some(ODD)), AtLeastTwo(2, Some(FIFTEEN))]

  /** The second rule is answered by the key of the first, and the retention is one minute. */
  lemma ClashKeepsTheFirst()
    ensures var j, k := AggregateKey(TRADES, Some(ODD)), AggregateKey(TRADES, Some(FIFTEEN));
            && Collected(CLASH) == [j] && Stand(Collected(CLASH), j) == j && Stand(Collected(CLASH), k) == j
    ensures forall max :: LongestWindow(Collected(CLASH), max) <==> max == MINUTE
  {
    hide *;
    ValidatedKeysCollide();
    ReadsTrades(1, Some(ODD));
    ReadsTrades(2, Some(FIFTEEN));
    var j, k := AggregateKey(TRADES, Some(ODD)), AggregateKey(TRADES, Some(FIFTEEN));
    TwoKeys(AtLeastTwo(1, Some(ODD)), AtLeastTwo(2, Some(FIFTEEN)), j, k);
    ClashIs();
    forall max ensures LongestWindow([j], max) <==> max == MINUTE { LongestOfOne(j, max); }
  }

  lemma ClashIs()
    ensures CLASH == [AtLeastTwo(1, Some(ODD)), AtLeastTwo(2, Some(FIFTEEN))] && MINUTE > 0
  {
  }

  lemma LongestOfOne(k: AggregateKey, max: int)
    requires Duration(k.window) > 0
    ensures LongestWindow([k], max) <==> max == Duration(k.window)
  {
    hide Duration;
    assert [k][0] == k;
  }

  const LATER := Trade("e1", 600 * SECOND)

  /** Two trades in ten minutes: the fifteen-minute rule is true and does not fire, because it reads the
      one-minute window of the other rule. */
  lemma CollidingUnitsMissARule(show: Printer)
    ensures var cfg := Config([], MINUTE, 5 * SECOND);
            && Identified([FIRST] + [LATER]) && !Late(Run(cfg, [FIRST]), LATER)
            && MatchedOn(cfg, CLASH, [FIRST], LATER, show) == []
            && TrueOn(CLASH, [FIRST], LATER, show) == [MatchedRule(2, "two trades")]
  {
    hide *;
    var cfg := Config([], MINUTE, 5 * SECOND);
    var j, k := AggregateKey(TRADES, Some(ODD)), AggregateKey(TRADES, Some(FIFTEEN));
    ClashKeepsTheFirst();
    LaterTimes();
    OneOnTime(cfg, FIRST, LATER);
    JudgedBy(cfg, AtLeastTwo(1, Some(ODD)), 1, Some(ODD), [j], [FIRST], LATER, show);
    JudgedBy(cfg, AtLeastTwo(2, Some(FIFTEEN)), 2, Some(FIFTEEN), [j], [FIRST], LATER, show);
    TradesQueried(cfg, [FIRST], LATER, Some(ODD));
    TradesQueried(cfg, [FIRST], LATER, Some(FIFTEEN));
    TenMinutesCount();
    JudgeTwo(cfg, [FIRST], LATER, show);
  }

  lemma LaterTimes()
    ensures 0 <= FIRST.occurredAt <= LATER.occurredAt && Align(LATER.occurredAt) == 600
    ensures Since(Some(ODD), LATER.occurredAt) == 540 && Since(Some(FIFTEEN), LATER.occurredAt) == -300
    ensures OnlyTrades([FIRST]) && OnlyTrades([LATER]) && Identified([FIRST] + [LATER])
    ensures LATER.memberID == "alice" && SECOND == 1_000_000_000
  {
    OddLasts();
    var all := [FIRST] + [LATER];
    assert all[0] == FIRST && all[1] == LATER && FIRST.eventID[1] != LATER.eventID[1];
  }

  lemma TenMinutesCount()
    ensures Align(600 * SECOND) == 600
    ensures Align(600 * SECOND - MINUTE) == 540 && Align(600 * SECOND - 15 * MINUTE) == -300
    ensures Query(FoldAll([FIRST] + [LATER], MINUTE), "COUNT", "", 540, 600) == 1.0
    ensures Scan(EventSet([FIRST] + [LATER]), "COUNT", "", 540, 600) == 1.0
    ensures Scan(EventSet([FIRST] + [LATER]), "COUNT", "", -300, 600) == 2.0
  {
    assert Align(FIRST.occurredAt) == 0 && Align(600 * SECOND) == 600 && Align(600 * SECOND - MINUTE) == 540;
    assert [FIRST] + [LATER] == [FIRST, LATER];
    PairCounts(FIRST, LATER, MINUTE, 540, -300, 600);
    PairIsNewest(FIRST, LATER);
    hide Query, FoldAll, EventSet;
    QueryIsScan([FIRST, LATER], MINUTE, "COUNT", "", 540, 600);
  }

  lemma JudgeTwo(cfg: Config, es: seq<Event>, e: Event, show: Printer)
    ensures var r, q := AtLeastTwo(1, Some(ODD)), AtLeastTwo(2, Some(FIFTEEN));
            var aggs := MemberOf(Counted(cfg, Run(cfg, es), e).members, e.memberID).aggs;
            var c := AsCached(EvalFields(e), aggs, Collected(CLASH), e.occurredAt, show);
            MatchedOn(cfg, CLASH, es, e, show)
            == (if Evaluate(r.node, c) == YES then [MatchedRule(1, "two trades")] else [])
               + if Evaluate(q.node, c) == YES then [MatchedRule(2, "two trades")] else []
    ensures var r, q := AtLeastTwo(1, Some(ODD)), AtLeastTwo(2, Some(FIFTEEN));
            var d := ScanContext(EvalFields(e), es + [e], e.memberID, e.occurredAt, show);
            TrueOn(CLASH, es, e, show)
            == (if Evaluate(r.node, d) == YES then [MatchedRule(1, "two trades")] else [])
               + if Evaluate(q.node, d) == YES then [MatchedRule(2, "two trades")] else []
  {
    hide Evaluate, AsCached, ScanContext, Collected, Counted, Run, MemberOf, Holding, EvalFields;
    var r, q := AtLeastTwo(1, Some(ODD)), AtLeastTwo(2, Some(FIFTEEN));
    assert CLASH == [r] + [q];
    var aggs := MemberOf(Counted(cfg, Run(cfg, es), e).members, e.memberID).aggs;
    var c := AsCached(EvalFields(e), aggs, Collected(CLASH), e.occurredAt, show);
    var d := ScanContext(EvalFields(e), es + [e], e.memberID, e.occurredAt, show);
    HoldingOne(r, c);
    HoldingOne(r, d);
    HoldingMore([r], q, c);
    HoldingMore([r], q, d);
  }
}
