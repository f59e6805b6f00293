/** What an aggregate answers, said of the member's events alone: how its field is read, which events its
    window holds, and what each aggregation makes of them (service/engine/core/aggregation.go,
    service/engine/core/eval.go). */
module Answers {
  import opened Basics
  import opened Rules
  import opened RuleLaws
  import opened Events
  import opened AggregateKeys
  import opened Buckets
  import opened RuleFiring
  import opened Shards
  import opened Histories
  import opened Carried

  // ---------- Fields ----------

  /** A field is a behaviour, an aggregation in any letter case, and perhaps the name of a number, which
      may itself contain colons. */
  lemma FieldParses(b: string, kind: string, f: string)
    requires ':' !in b && ':' !in kind
    ensures ParseAggregateField(b + ":" + kind) == (b, ToUpper(kind), "")
    ensures ParseAggregateField(b + ":" + kind + ":" + f) == (b, ToUpper(kind), f)
    ensures ParseAggregateField(b) == ("", "", "")
  {
    hide ToUpper;
    SplitsAt(b, kind, ':');
    assert b + ":" + kind + ":" + f == b + ":" + (kind + ":" + f);
    SplitsAt(b, kind + ":" + f, ':');
    SplitsAt(kind, f, ':');
    NotFound(b, ':');
    NotFound(kind, ':');
    hide IndexOf;
    assert kind[..|kind|] == kind;
  }

  /** Validation asks for one of the five aggregations and, where there is a second colon, for nothing or
      an identifier behind it. */
  lemma FieldIsValidIff(b: string, kind: string, f: string)
    requires ':' !in b && ':' !in kind
    ensures ValidField(b + ":" + kind) <==> ToUpper(kind) in {"COUNT", "SUM", "AVG", "MAX", "MIN"}
    ensures ValidField(b + ":" + kind + ":" + f) <==>
              ToUpper(kind) in {"COUNT", "SUM", "AVG", "MAX", "MIN"} && (f == "" || IsIdentifier(f))
    ensures !ValidField(b)
  {
    hide ValidRest, IsIdentifier, ToUpper;
    SplitsAt(b, kind, ':');
    assert b + ":" + kind + ":" + f == b + ":" + (kind + ":" + f);
    SplitsAt(b, kind + ":" + f, ':');
    NotFound(b, ':');
    RestIsValidIff(kind, f);
    hide IndexOf;
  }

  lemma RestIsValidIff(kind: string, f: string)
    requires ':' !in kind
    ensures ValidRest(kind) <==> ToUpper(kind) in {"COUNT", "SUM", "AVG", "MAX", "MIN"}
    ensures ValidRest(kind + ":" + f) <==>
              ToUpper(kind) in {"COUNT", "SUM", "AVG", "MAX", "MIN"} && (f == "" || IsIdentifier(f))
  {
    hide IsIdentifier, ToUpper;
    SplitsAt(kind, f, ':');
    NotFound(kind, ':');
    assert kind[..|kind|] == kind;
    hide IndexOf;
  }

  lemma SplitsAt(a: string, b: string, c: char)
    requires c !in a
    ensures IndexOf(a + [c] + b, c) == |a| && (a + [c] + b)[..|a|] == a && (a + [c] + b)[|a| + 1..] == b
  {
    hide IndexOf;
    var s := a + [c] + b;
    assert s[|a|] == c && forall j :: 0 <= j < |a| ==> s[j] == a[j];
    var i := IndexOf(s, c);
  }

  lemma NotFound(s: string, c: char)
    requires c !in s
    ensures IndexOf(s, c) == |s|
  {
  }

  // ---------- Windows ----------

  /** A bucket is a minute, named by its first second. */
  lemma BucketIsAMinute(t: int)
    ensures Align(t) % 60 == 0 && Align(t) * 1_000_000_000 <= t < (Align(t) + 60) * 1_000_000_000
  {
  }

  /** The member's events of a behaviour from the minute the window begins in, or from the epoch on, to
      the minute of `now`. */
  ghost function Inside(es: seq<Event>, m: string, b: string, w: Option<TimeWindow>, now: int): set<Event> {
    set e | e in EventSet(es) && e.memberID == m && e.behavior == b
            && (if w.Some? then Align(now - Duration(w)) <= Align(e.occurredAt) else e.occurredAt >= 0)
            && Align(e.occurredAt) <= Align(now)
  }

  /** The event has the number `x` in field `f`. */
  ghost predicate Reads(e: Event, f: string, x: real) {
    f in e.fields && e.fields[f].Num? && e.fields[f].n == x
  }

  /** `top` is the greatest number of the events in the field, 0 when they have none. */
  ghost predicate IsGreatest(es: set<Event>, f: string, top: real) {
    if exists e, x :: e in es && Reads(e, f, x)
    then (exists e :: e in es && Reads(e, f, top)) && forall e, x :: e in es && Reads(e, f, x) ==> x <= top
    else top == 0.0
  }

  ghost predicate IsLeast(es: set<Event>, f: string, low: real) {
    if exists e, x :: e in es && Reads(e, f, x)
    then (exists e :: e in es && Reads(e, f, low)) && forall e, x :: e in es && Reads(e, f, x) ==> low <= x
    else low == 0.0
  }

  /** A sum of numbers: 0 of nothing, and one more event adds the number it has, if it has one. */
  lemma SumsAdd(es: set<Event>, e: Event, f: string, x: real)
    requires e !in es
    ensures SumOver({}, f) == 0.0
    ensures Reads(e, f, x) ==> SumOver(es + {e}, f) == SumOver(es, f) + x
    ensures (forall y :: !Reads(e, f, y)) ==> SumOver(es + {e}, f) == SumOver(es, f)
  {
    SumInsert(es, e, f);
    hide SumOver;
    if f in Numbers(e) { assert Reads(e, f, Numbers(e)[f]); }
  }

  // ---------- Answers ----------

  /** What the scan of a window makes of the events in it. */
  lemma ScansMean(es: set<Event>, f: string, since: int, upper: int, hit: set<Event>)
    requires hit == set e | e in es && since <= Align(e.occurredAt) <= upper
    ensures Scan(es, "COUNT", f, since, upper) == |hit| as real
    ensures Scan(es, "SUM", f, since, upper) == SumOver(hit, f)
    ensures Scan(es, "AVG", f, since, upper) * |hit| as real == SumOver(hit, f)
    ensures hit == {} ==> Scan(es, "AVG", f, since, upper) == 0.0
    ensures IsGreatest(hit, f, Scan(es, "MAX", f, since, upper))
    ensures IsLeast(hit, f, Scan(es, "MIN", f, since, upper))
  {
    hide Align, SumOver, Readings, IsGreatest, IsLeast, Finish;
    var max, min := MaxOf(Readings(hit, f)), MinOf(Readings(hit, f));
    GreatestIsMax(hit, f);
    LeastIsMin(hit, f);
    hide MaxOf, MinOf;
    FinishMeans(|hit|, SumOver(hit, f), max, min);
    if hit == {} { NothingSums(f); }
  }

  lemma NothingSums(f: string)
    ensures SumOver({}, f) == 0.0
  {
  }

  lemma FinishMeans(n: nat, sum: real, max: Option<real>, min: Option<real>)
    ensures Finish("COUNT", n, sum, max, min) == n as real && Finish("SUM", n, sum, max, min) == sum
    ensures if n > 0 then Finish("AVG", n, sum, max, min) * n as real == sum else Finish("AVG", n, sum, max, min) == 0.0
    ensures Finish("MAX", n, sum, max, min) == if max.Some? then max.value else 0.0
    ensures Finish("MIN", n, sum, max, min) == if min.Some? then min.value else 0.0
  {
  }

  /** The readings of a set of events are the numbers they have. */
  lemma ReadingsMean(es: set<Event>, f: string)
    ensures forall e, x :: e in es && Reads(e, f, x) ==> x in Readings(es, f)
    ensures forall x :: x in Readings(es, f) ==> exists e :: e in es && Reads(e, f, x)
  {
    forall e, x | e in es && Reads(e, f, x) ensures x in Readings(es, f) {
      assert f in Numbers(e) && Numbers(e)[f] == x;
    }
    forall x | x in Readings(es, f) ensures exists e :: e in es && Reads(e, f, x) {
      var e :| e in es && f in Numbers(e) && Numbers(e)[f] == x;
      assert Reads(e, f, x);
    }
  }

  lemma GreatestIsMax(es: set<Event>, f: string)
    ensures var max := MaxOf(Readings(es, f)); IsGreatest(es, f, if max.Some? then max.value else 0.0)
  {
    ReadingsMean(es, f);
    hide Readings, Reads;
  }

  lemma LeastIsMin(es: set<Event>, f: string)
    ensures var min := MinOf(Readings(es, f)); IsLeast(es, f, if min.Some? then min.value else 0.0)
  {
    ReadingsMean(es, f);
    hide Readings, Reads;
  }

  /** The engine's answer to `b:kind:f` over the window. */
  ghost function Answer(cfg: Config, es: seq<Event>, m: string, b: string, kind: string, f: string,
                        w: Option<TimeWindow>, now: int): real
  {
    AggregateValue(MemberOf(Run(cfg, es).members, m).aggs, AggregateKey(b + ":" + kind + ":" + f, w), now)
  }

  lemma InsideIsHit(es: seq<Event>, m: string, b: string, w: Option<TimeWindow>, now: int)
    ensures Inside(es, m, b, w, now)
         == set e | e in Mine(es, m, b) && Since(w, now) <= Align(e.occurredAt) <= Align(now)
  {
    hide Duration, EventSet;
  }

  lemma AnswerIsScan(cfg: Config, es: seq<Event>, m: string, b: string, kind: string, f: string,
                     w: Option<TimeWindow>, now: int)
    requires Identified(es) && ':' !in b && ':' !in kind && HeldFor(cfg, es, m, b, w, now)
    ensures Answer(cfg, es, m, b, kind, f, w, now)
         == Scan(Mine(es, m, b), ToUpper(kind), f, Since(w, now), Align(now))
  {
    hide Run, AggregateValue, Scan, Mine, Own, Since, Align, Horizon, ToUpper, ParseAggregateField;
    FieldParses(b, kind, f);
    AggregateIsScan(cfg, es, m, AggregateKey(b + ":" + kind + ":" + f, w), now);
  }

  lemma PlainKinds()
    ensures forall kind :: kind in {"COUNT", "SUM", "AVG", "MAX", "MIN"} ==> ToUpper(kind) == kind && ':' !in kind
  {
    assert ToUpper("COUNT") == "COUNT" && ToUpper("SUM") == "SUM" && ToUpper("AVG") == "AVG";
    assert ToUpper("MAX") == "MAX" && ToUpper("MIN") == "MIN";
  }

  /** The five aggregations of a member's events, however its buckets are filled: COUNT counts the
      distinct events of the window, SUM adds their numbers, AVG times COUNT is SUM, MAX and MIN are the
      extreme numbers. */
  lemma AnswersMean(cfg: Config, es: seq<Event>, m: string, b: string, f: string, w: Option<TimeWindow>, now: int)
    requires Identified(es) && ':' !in b && HeldFor(cfg, es, m, b, w, now)
    ensures var hit := Inside(es, m, b, w, now);
            && Answer(cfg, es, m, b, "COUNT", f, w, now) == |hit| as real
            && Answer(cfg, es, m, b, "SUM", f, w, now) == SumOver(hit, f)
            && Answer(cfg, es, m, b, "AVG", f, w, now) * |hit| as real == SumOver(hit, f)
            && (hit == {} ==> Answer(cfg, es, m, b, "AVG", f, w, now) == 0.0)
            && IsGreatest(hit, f, Answer(cfg, es, m, b, "MAX", f, w, now))
            && IsLeast(hit, f, Answer(cfg, es, m, b, "MIN", f, w, now))
  {
    hide *;
    PlainKinds();
    InsideIsHit(es, m, b, w, now);
    ScansMean(Mine(es, m, b), f, Since(w, now), Align(now), Inside(es, m, b, w, now));
    AnswerIsScan(cfg, es, m, b, "COUNT", f, w, now);
    AnswerIsScan(cfg, es, m, b, "SUM", f, w, now);
    AnswerIsScan(cfg, es, m, b, "AVG", f, w, now);
    AnswerIsScan(cfg, es, m, b, "MAX", f, w, now);
    AnswerIsScan(cfg, es, m, b, "MIN", f, w, now);
  }

  /** The aggregation may be written in any letter case; any other word answers 0. */
  lemma KindIsRead(cfg: Config, es: seq<Event>, m: string, b: string, kind: string, f: string,
                   w: Option<TimeWindow>, now: int)
    requires ':' !in b && ':' !in kind
    ensures ToUpper(kind) in {"COUNT", "SUM", "AVG", "MAX", "MIN"} ==>
              Answer(cfg, es, m, b, kind, f, w, now) == Answer(cfg, es, m, b, ToUpper(kind), f, w, now)
    ensures ToUpper(kind) !in {"COUNT", "SUM", "AVG", "MAX", "MIN"} ==> Answer(cfg, es, m, b, kind, f, w, now) == 0.0
  {
    FieldParses(b, kind, f);
    PlainKinds();
    if ToUpper(kind) in {"COUNT", "SUM", "AVG", "MAX", "MIN"} { FieldParses(b, ToUpper(kind), f); }
    hide Run, ToUpper, ParseAggregateField, Since, Align;
  }

  // ---------- Rules ----------

  /** What a rule reads on an event: a plain field is the event's, an aggregate is computed, and no
      variable is bound. */
  lemma RuleReads(e: Event, aggs: map<string, Agg>, now: int, show: Printer, node: RuleNode, x: string, v: Value)
    ensures !("$" <= node.field) && ':' !in node.field ==>
              (LeftIs(node, OnDemand(EvalFields(e), aggs, now, show), v) <==> v == SeenOf(e, node.field))
    ensures !("$" <= node.field) && ':' in node.field ==>
              (LeftIs(node, OnDemand(EvalFields(e), aggs, now, show), v) <==>
                 var a := AggregateValue(aggs, AggregateKey(node.field, node.window), now); v == Num(a, show(a)))
    ensures node.field == "$" + x ==> (LeftIs(node, OnDemand(EvalFields(e), aggs, now, show), v) <==> v == Nil)
    ensures RightIs(node, OnDemand(EvalFields(e), aggs, now, show), v) <==> v == node.value
  {
    hide AggregateValue;
    assert |"behavior"| == 8 && |"member_id"| == 9;
  }

  /** The rules that hold are those whose tree is true without an error, each under its own ID and name,
      in their order. */
  lemma {:induction false} HoldingMeans(rules: seq<Rule>, ctx: EvalContext, x: MatchedRule)
    ensures x in Holding(rules, ctx) <==>
              exists i :: 0 <= i < |rules| && x == MatchedRule(rules[i].id, rules[i].name)
                       && Evaluate(rules[i].node, ctx).ok && !Evaluate(rules[i].node, ctx).err
    decreases |rules|
  {
    hide Evaluate;
    if rules != [] {
      var k := |rules| - 1;
      HoldingMeans(rules[..k], ctx, x);
      forall i | 0 <= i < k ensures rules[..k][i] == rules[i] {
      }
      if x in Holding(rules[..k], ctx) {
        var i :| 0 <= i < k && x == MatchedRule(rules[..k][i].id, rules[..k][i].name)
              && Evaluate(rules[..k][i].node, ctx).ok && !Evaluate(rules[..k][i].node, ctx).err;
        assert rules[i] == rules[..k][i];
      }
    }
  }

  lemma {:induction false} HoldingInOrder(a: seq<Rule>, b: seq<Rule>, ctx: EvalContext)
    ensures Holding(a + b, ctx) == Holding(a, ctx) + Holding(b, ctx)
    decreases |b|
  {
    hide Evaluate;
    if b == [] {
      assert a + b == a && Holding(a, ctx) + [] == Holding(a, ctx);
    } else {
      var k := |b| - 1;
      HoldingInOrder(a, b[..k], ctx);
      assert (a + b)[..|a + b| - 1] == a + b[..k];
    }
  }

  /** The fifth failure fires the rule: "at least n of a behaviour" is true on an event exactly when the
      window then holds n distinct events, the triggering one among them. */
  lemma CountRuleIsTrueIff(cfg: Config, es: seq<Event>, e: Event, b: string, w: Option<TimeWindow>, n: real,
                           text: string, show: Printer)
    requires Identified(es + [e]) && b != "" && b[0] != '$' && ':' !in b
    requires HeldFor(cfg, es + [e], e.memberID, b, w, e.occurredAt)
    ensures var node := RuleNode("CONDITION", [], b + ":COUNT:", ">=", Num(n, text), w);
            var aggs := MemberOf(Run(cfg, es + [e]).members, e.memberID).aggs;
            Evaluate(node, OnDemand(EvalFields(e), aggs, e.occurredAt, show)) == YES <==>
              |Inside(es + [e], e.memberID, b, w, e.occurredAt)| as real >= n
  {
    hide Run, AggregateValue, HeldFor, Inside, Evaluate, LeftIs, RightIs, OnDemand, EvalFields;
    var node := RuleNode("CONDITION", [], b + ":COUNT:", ">=", Num(n, text), w);
    var aggs := MemberOf(Run(cfg, es + [e]).members, e.memberID).aggs;
    assert b + ":COUNT:" == b + ":" + "COUNT" + ":" + "" && node.field[|b|] == ':' && node.field[0] == b[0];
    var a := AggregateValue(aggs, AggregateKey(node.field, w), e.occurredAt);
    RuleReads(e, aggs, e.occurredAt, show, node, "", Num(a, show(a)));
    RuleReads(e, aggs, e.occurredAt, show, node, "", Num(n, text));
    AnswersMean(cfg, es + [e], e.memberID, b, "", w, e.occurredAt);
    AtLeastIsOrdered();
    OrderMeans(node, OnDemand(EvalFields(e), aggs, e.occurredAt, show), Num(a, show(a)), Num(n, text));
  }

  lemma AtLeastIsOrdered()
    ensures ToUpper(">=") == ">=" && ">=" !in {">", "<", "<="}
  {
    assert ToUpper(">=") == ">=" && |">="| == 2 && ">="[0] == '>';
  }
}
