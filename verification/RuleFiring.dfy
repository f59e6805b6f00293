/** Which rules fire on an event, and why answering aggregates from a preloaded cache
    (service/engine/core/eval.go, service/base/rule/usecase/preloaded_context.go) changes nothing. */
module RuleFiring {
  import opened Basics
  import opened Rules
  import opened Compiler
  import opened AggregateKeys
  import opened Buckets

  datatype Rule = Rule(id: nat, name: string, node: RuleNode)

  datatype CompiledStrategy = CompiledStrategy(id: nat, name: string, eval: CompiledRule, keys: seq<AggregateKey>)

  datatype CompiledRuleSet = CompiledRuleSet(strategies: seq<CompiledStrategy>, maxWindow: int)

  datatype MatchedRule = MatchedRule(id: nat, name: string)

  /** How `%v` prints a float64. */
  type Printer = real -> string

  function Boxed(x: real, show: Printer): Value { Num(x, show(x)) }

  /** The reference context: every aggregate computed when it is asked for. */
  ghost function OnDemand(fields: map<string, Value>, aggs: map<string, Agg>, now: int, show: Printer): EvalContext {
    EvalContext(
      (f: string, w: Option<TimeWindow>) =>
        if ':' !in f then Found(if f in fields then fields[f] else Nil)
        else Found(Boxed(AggregateValue(aggs, AggregateKey(f, w), now), show)),
      (x: string) => None)
  }

  /** PreloadedEvalContext */
  function Preloaded(fields: map<string, Value>, cache: map<string, Value>): EvalContext {
    EvalContext(
      (f: string, w: Option<TimeWindow>) =>
        if ':' !in f then Found(if f in fields then fields[f] else Nil)
        else var ck := CacheKey(AggregateKey(f, w)); Found(if ck in cache then cache[ck] else Nil),
      (x: string) => None)
  }

  lemma PreloadedIsWindowBlind(fields: map<string, Value>, cache: map<string, Value>)
    ensures WindowBlind(Preloaded(fields, cache))
  {
  }

  /** The rules that are true in a context, in rule order; an error is not true. */
  ghost function Holding(rules: seq<Rule>, ctx: EvalContext): seq<MatchedRule> {
    if rules == [] then []
    else
      var last := rules[|rules| - 1];
      Holding(rules[..|rules| - 1], ctx)
      + (if Evaluate(last.node, ctx) == YES then [MatchedRule(last.id, last.name)] else [])
  }

  /** The rules true of the reference aggregates. */
  ghost function Fired(rules: seq<Rule>, fields: map<string, Value>, aggs: map<string, Agg>, now: int, show: Printer)
    : seq<MatchedRule>
  {
    Holding(rules, OnDemand(fields, aggs, now, show))
  }

  // ---------- One value per cache key ----------

  /** The key that answers for `k`: the one in the list with its cache key. */
  ghost function Stand(keys: seq<AggregateKey>, k: AggregateKey): (j: AggregateKey)
    ensures Held(keys, k) ==> j in keys && CacheKey(j) == CacheKey(k)
  {
    if Held(keys, k) then var i :| 0 <= i < |keys| && CacheKey(keys[i]) == CacheKey(k); keys[i] else k
  }

  /** What the preloaded cache amounts to: every aggregate is that of the key which answers for it. */
  ghost function AsCached(fields: map<string, Value>, aggs: map<string, Agg>, keys: seq<AggregateKey>, now: int,
                          show: Printer): EvalContext
  {
    EvalContext(
      (f: string, w: Option<TimeWindow>) =>
        if ':' !in f then Found(if f in fields then fields[f] else Nil)
        else Found(Boxed(AggregateValue(aggs, Stand(keys, AggregateKey(f, w)), now), show)),
      (x: string) => None)
  }

  // ---------- Rule sets ----------

  ghost function RuleKeys(rules: seq<Rule>): set<AggregateKey> {
    set r, k | r in rules && k in TreeKeys(r.node) :: k
  }

  /** No two aggregates of the rule set share a cache entry. */
  ghost predicate SafeKeys(rules: seq<Rule>) {
    forall j, k :: j in RuleKeys(rules) && k in RuleKeys(rules) && CacheKey(j) == CacheKey(k) ==> j == k
  }

  /** Fields the rule store validates, with units of which none is another behind digits, are safe. */
  lemma ValidatedRulesAreSafe(rules: seq<Rule>, units: iset<string>)
    requires Unambiguous(units)
    requires forall k :: k in RuleKeys(rules) ==>
             ValidField(k.field) && (k.window.Some? ==> k.window.value.unit in units)
    ensures SafeKeys(rules)
  {
    var fields := iset f | ValidField(f);
    ValidFieldsAreSeparated();
    forall j, k | j in RuleKeys(rules) && k in RuleKeys(rules) && CacheKey(j) == CacheKey(k) ensures j == k {
      assert Over(j, fields, units) && Over(k, fields, units);
      if |j.field| <= |k.field| { KeysAgree(j, k, fields, units); } else { KeysAgree(k, j, fields, units); }
    }
  }

  ghost predicate Implements(cs: CompiledStrategy, rule: Rule) {
    && cs.id == rule.id && cs.name == rule.name
    && MeansSame(cs.eval, rule.node)
    && cs.keys == KeepAll([], TreeList(rule.node))
    && exists seen :: Represents(seen, cs.keys, TreeKeys(rule.node))
  }

  ghost predicate ImplementsAll(strategies: seq<CompiledStrategy>, rules: seq<Rule>) {
    |strategies| == |rules| && forall i :: 0 <= i < |rules| ==> Implements(strategies[i], rules[i])
  }

  function KeyLists(strategies: seq<CompiledStrategy>): (ls: seq<seq<AggregateKey>>)
    ensures |ls| == |strategies| && forall i :: 0 <= i < |ls| ==> ls[i] == strategies[i].keys
  {
    seq(|strategies|, i requires 0 <= i < |strategies| => strategies[i].keys)
  }

  /** The aggregates of a rule set, one per cache key, the first met kept. */
  ghost function Collected(rules: seq<Rule>): seq<AggregateKey> { KeepAll([], ListOf(rules)) }

  ghost function ListOf(rules: seq<Rule>): seq<AggregateKey> {
    if rules == [] then [] else ListOf(rules[..|rules| - 1]) + TreeList(rules[|rules| - 1].node)
  }

  /** Collecting per strategy and then over all of them is collecting from the rules at once. */
  lemma {:induction false} CollectedAtOnce(strategies: seq<CompiledStrategy>, rules: seq<Rule>)
    requires ImplementsAll(strategies, rules)
    ensures KeepAll([], Concat(KeyLists(strategies))) == Collected(rules)
    decreases |rules|
  {
    hide Keep, MeansSame, Represents;
    if rules != [] {
      var n := |rules| - 1;
      CollectedAtOnce(strategies[..n], rules[..n]);
      assert KeyLists(strategies)[..n] == KeyLists(strategies[..n]);
      assert Implements(strategies[n], rules[n]);
      KeepConcat([], Concat(KeyLists(strategies[..n])), strategies[n].keys);
      KeepTwice(KeepAll([], ListOf(rules[..n])), TreeList(rules[n].node));
      KeepConcat([], ListOf(rules[..n]), TreeList(rules[n].node));
    }
  }

  lemma {:induction false} ListIsRuleKeys(rules: seq<Rule>, k: AggregateKey)
    ensures k in ListOf(rules) <==> k in RuleKeys(rules)
    decreases |rules|
  {
    if rules != [] {
      var init, last := rules[..|rules| - 1], rules[|rules| - 1];
      ListIsRuleKeys(init, k);
      ListIsKeys(last.node, k);
      assert forall r :: r in rules <==> r in init || r == last;
    }
  }

  /** The collected keys are keys of the rules, and one of them answers for every key of the rules. */
  lemma CollectedCoversRules(rules: seq<Rule>)
    ensures forall k :: k in RuleKeys(rules) ==> Held(Collected(rules), k)
    ensures forall j :: j in Collected(rules) ==> j in RuleKeys(rules)
  {
    hide RuleKeys, CacheKey, KeepAll, ListOf;
    forall k | k in RuleKeys(rules) ensures Held(Collected(rules), k) {
      ListIsRuleKeys(rules, k);
      var i :| 0 <= i < |ListOf(rules)| && ListOf(rules)[i] == k;
      KeptIsHeld([], ListOf(rules), k);
    }
    forall j | j in Collected(rules) ensures j in RuleKeys(rules) {
      KeptIsListed([], ListOf(rules), j);
      ListIsRuleKeys(rules, j);
    }
  }

  /** With safe keys every key answers for itself. */
  lemma SafeKeysStand(rules: seq<Rule>, keys: seq<AggregateKey>, k: AggregateKey)
    requires SafeKeys(rules) && k in RuleKeys(rules) && Held(keys, k) && forall j :: j in keys ==> j in RuleKeys(rules)
    ensures Stand(keys, k) == k && k in keys
  {
  }

  /** No aggregate of the rules looks back further than the longest window of the rule set. */
  ghost predicate Spans(rs: CompiledRuleSet, rules: seq<Rule>) {
    rs.maxWindow >= 0 && forall k :: k in RuleKeys(rules) ==> Duration(k.window) <= rs.maxWindow
  }

  /** `max` is the longest window of the keys, 0 when none is positive. */
  ghost predicate LongestWindow(keys: seq<AggregateKey>, max: int) {
    && max >= 0 && (forall k :: k in keys ==> Duration(k.window) <= max)
    && (max == 0 || exists k :: k in keys && Duration(k.window) == max)
  }

  /** compileAndCache of strategy.go: compile every rule, collect its keys, bound the window. */
  method CompileRules(rules: seq<Rule>) returns (r: Option<CompiledRuleSet>)
    ensures r.Some? <==> forall i :: 0 <= i < |rules| ==> Accepted(rules[i].node)
    ensures r.Some? ==> ImplementsAll(r.value.strategies, rules) && LongestWindow(Collected(rules), r.value.maxWindow)
    ensures r.Some? ==> forall k :: k in Collected(rules) ==> k in RuleKeys(rules)
    ensures r.Some? && SafeKeys(rules) ==> Spans(r.value, rules)
  {
    hide OnePerCacheKey, Represents, MeansSame, Duration, CacheKey, TreeKeys, TreeList, KeepAll, Concat;
    var strategies: seq<CompiledStrategy> := [];
    for i := 0 to |rules|
      invariant |strategies| == i
      invariant forall j :: 0 <= j < i ==> Accepted(rules[j].node) && Implements(strategies[j], rules[j])
    {
      var c := Compile(rules[i].node);
      if c.Rejected? {
        return None;
      }
      var keys, seen := CollectAggregateKeys(rules[i].node);
      strategies := strategies + [CompiledStrategy(rules[i].id, rules[i].name, c.rule, keys)];
      assert Implements(strategies[i], rules[i]);
    }
    var all, seen := CollectUniqueAggregateKeys(KeyLists(strategies));
    var max := MaxWindowFromKeys(all);
    CollectedAtOnce(strategies, rules);
    CollectedCoversRules(rules);
    if SafeKeys(rules) {
      SafeSpan(rules, max);
    }
    r := Some(CompiledRuleSet(strategies, max));
  }

  lemma SafeSpan(rules: seq<Rule>, max: int)
    requires SafeKeys(rules) && LongestWindow(Collected(rules), max)
    ensures forall k :: k in RuleKeys(rules) ==> Duration(k.window) <= max
  {
    hide CacheKey, RuleKeys, SafeKeys, Duration, Held, Collected;
    CollectedCoversRules(rules);
    forall k | k in RuleKeys(rules) ensures Duration(k.window) <= max {
      SafeKeysStand(rules, Collected(rules), k);
    }
  }

  // ---------- Cached equals on demand ----------

  lemma ChildKeys(nodes: seq<RuleNode>, i: nat)
    requires i < |nodes|
    ensures TreeKeys(nodes[i]) <= ForestKeys(nodes)
    decreases |nodes|
  {
    if i < |nodes| - 1 { ChildKeys(nodes[..|nodes| - 1], i); }
  }

  /** Two contexts give the same answer to everything a tree may ask. */
  ghost predicate AgreeOn(c: EvalContext, d: EvalContext, keys: set<AggregateKey>) {
    && (forall f, w :: ':' !in f ==> c.resolve(f, w) == d.resolve(f, w))
    && (forall x :: c.variable(x) == d.variable(x))
    && (forall k :: k in keys ==> c.resolve(k.field, k.window) == d.resolve(k.field, k.window))
  }

  lemma {:induction false} AgreeingContexts(node: RuleNode, c: EvalContext, d: EvalContext)
    requires AgreeOn(c, d, TreeKeys(node))
    ensures Evaluate(node, c) == Evaluate(node, d)
    decreases node, 1
  {
    if node.nodeType == "CONDITION" {
      assert node.nodeType != "AND" && node.nodeType != "OR" && node.nodeType != "NOT";
      if ':' in node.field {
        assert AggregateKey(node.field, node.window) in TreeKeys(node);
      }
      assert c.resolve(node.field, node.window) == d.resolve(node.field, node.window);
    } else {
      forall i | 0 <= i < |node.children| ensures Evaluate(node.children[i], c) == Evaluate(node.children[i], d) {
        ChildKeys(node.children, i);
        AgreeingContexts(node.children[i], c, d);
      }
      SameAnd(node.children, c, d);
      SameOr(node.children, c, d);
    }
  }

  lemma {:induction false} SameAnd(nodes: seq<RuleNode>, c: EvalContext, d: EvalContext)
    requires forall i :: 0 <= i < |nodes| ==> Evaluate(nodes[i], c) == Evaluate(nodes[i], d)
    ensures EvalAnd(nodes, c) == EvalAnd(nodes, d)
    decreases nodes, 0
  {
    if nodes != [] { SameAnd(nodes[1..], c, d); }
  }

  lemma {:induction false} SameOr(nodes: seq<RuleNode>, c: EvalContext, d: EvalContext)
    requires forall i :: 0 <= i < |nodes| ==> Evaluate(nodes[i], c) == Evaluate(nodes[i], d)
    ensures EvalOr(nodes, c) == EvalOr(nodes, d)
    decreases nodes, 0
  {
    if nodes != [] { SameOr(nodes[1..], c, d); }
  }

  /** The cache holds the value of every collected key. */
  ghost predicate Caches(cache: map<string, Value>, keys: seq<AggregateKey>, aggs: map<string, Agg>, now: int,
                         show: Printer)
  {
    forall k :: k in keys ==>
      CacheKey(k) in cache && cache[CacheKey(k)] == Boxed(AggregateValue(aggs, k, now), show)
  }

  /** A compiled rule run on the cache fires exactly when the rule is true of the aggregates of the keys
      that answer for its own. */
  lemma CachedRuleFires(cs: CompiledStrategy, rule: Rule, cache: map<string, Value>, keys: seq<AggregateKey>,
                        fields: map<string, Value>, aggs: map<string, Agg>, now: int, show: Printer)
    requires Implements(cs, rule) && Caches(cache, keys, aggs, now, show)
    requires forall k :: k in TreeKeys(rule.node) ==> Held(keys, k)
    ensures cs.eval(Preloaded(fields, cache)) == YES
       <==> Evaluate(rule.node, AsCached(fields, aggs, keys, now, show)) == YES
  {
    var c, d := Preloaded(fields, cache), AsCached(fields, aggs, keys, now, show);
    PreloadedIsWindowBlind(fields, cache);
    forall k | k in TreeKeys(rule.node) ensures c.resolve(k.field, k.window) == d.resolve(k.field, k.window) {
      KeysAreAggregates(rule.node, k);
      assert AggregateKey(k.field, k.window) == k && CacheKey(Stand(keys, k)) == CacheKey(k);
    }
    AgreeingContexts(rule.node, c, d);
  }

  /** With safe keys the cached answers are the reference answers, so the same rules hold. */
  lemma SafeAnswers(rules: seq<Rule>, fields: map<string, Value>, aggs: map<string, Agg>, now: int, show: Printer)
    ensures SafeKeys(rules) ==>
              Holding(rules, AsCached(fields, aggs, Collected(rules), now, show))
              == Fired(rules, fields, aggs, now, show)
  {
    hide *;
    CollectedCoversRules(rules);
    if SafeKeys(rules) { SafeHolding(rules, rules, Collected(rules), fields, aggs, now, show); }
  }

  lemma {:induction false} SafeHolding(rules: seq<Rule>, some: seq<Rule>, keys: seq<AggregateKey>,
                                       fields: map<string, Value>, aggs: map<string, Agg>, now: int, show: Printer)
    requires SafeKeys(rules) && some <= rules && forall k :: k in RuleKeys(rules) ==> Held(keys, k)
    requires forall j :: j in keys ==> j in RuleKeys(rules)
    ensures Holding(some, AsCached(fields, aggs, keys, now, show)) == Fired(some, fields, aggs, now, show)
    decreases |some|
  {
    hide AsCached, OnDemand, SafeKeys, RuleKeys, Held;
    if some != [] {
      var n := |some| - 1;
      SafeHolding(rules, some[..n], keys, fields, aggs, now, show);
      assert some[n] == rules[n];
      SafeRuleHolds(rules, some[n], keys, fields, aggs, now, show);
    }
  }

  lemma SafeRuleHolds(rules: seq<Rule>, rule: Rule, keys: seq<AggregateKey>, fields: map<string, Value>,
                      aggs: map<string, Agg>, now: int, show: Printer)
    requires SafeKeys(rules) && rule in rules && forall k :: k in RuleKeys(rules) ==> Held(keys, k)
    requires forall j :: j in keys ==> j in RuleKeys(rules)
    ensures Evaluate(rule.node, AsCached(fields, aggs, keys, now, show))
         == Evaluate(rule.node, OnDemand(fields, aggs, now, show))
  {
    hide AggregateValue, CacheKey, SafeKeys, Held, Stand;
    var c, d := AsCached(fields, aggs, keys, now, show), OnDemand(fields, aggs, now, show);
    forall k | k in TreeKeys(rule.node) ensures c.resolve(k.field, k.window) == d.resolve(k.field, k.window) {
      KeysAreAggregates(rule.node, k);
      assert k in RuleKeys(rules);
      SafeKeysStand(rules, keys, k);
    }
    AgreeingContexts(rule.node, c, d);
  }

  lemma {:induction false} KeysAreAggregates(node: RuleNode, k: AggregateKey)
    requires k in TreeKeys(node)
    ensures ':' in k.field
    decreases node, 1
  {
    if node.nodeType != "CONDITION" { ForestIsAggregates(node.children, k); }
  }

  lemma {:induction false} ForestIsAggregates(nodes: seq<RuleNode>, k: AggregateKey)
    requires k in ForestKeys(nodes)
    ensures ':' in k.field
    decreases nodes, 0
  {
    var last := |nodes| - 1;
    if k in TreeKeys(nodes[last]) { KeysAreAggregates(nodes[last], k); } else { ForestIsAggregates(nodes[..last], k); }
  }
}
