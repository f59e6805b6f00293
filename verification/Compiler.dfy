/** The rule compiler of service/base/rule/usecase/compile.go. It turns a tree into a closure once;
    each method here is proved directly against the interpreter in `Rules`. */
module Compiler {
  import opened Basics
  import opened Rules

  type CompiledRule = EvalContext -> EvalResult
  type Comparator = (Value, Value) -> EvalResult
  type Resolver = EvalContext -> Lookup

  datatype CompileResult = Compiled(rule: CompiledRule) | Rejected

  /** The trees the compiler accepts. */
  predicate Accepted(node: RuleNode)
    decreases node
  {
    if node.nodeType == "AND" || node.nodeType == "OR" then
      forall c :: c in node.children ==> Accepted(c)
    else if node.nodeType == "NOT" then |node.children| == 1 && Accepted(node.children[0])
    else node.nodeType == "CONDITION" && ToUpper(node.operator) in OPERATORS
  }

  const OPERATORS: set<string> := {"IN", "NOT_IN", ">", "<", ">=", "<=", "=", "==", "!="}

  /** `rule` and the interpreter agree on `node`: same boolean and same error, in every context
      that ignores the window of a plain field. */
  ghost predicate MeansSame(rule: CompiledRule, node: RuleNode) {
    forall ctx: EvalContext :: WindowBlind(ctx) ==> rule(ctx) == Evaluate(node, ctx)
  }

  ghost predicate AllMeanSame(rules: seq<CompiledRule>, nodes: seq<RuleNode>) {
    |rules| == |nodes| && forall i :: 0 <= i < |rules| ==> MeansSame(rules[i], nodes[i])
  }

  method Compile(node: RuleNode) returns (r: CompileResult)
    ensures r.Compiled? <==> Accepted(node)
    ensures r.Compiled? ==> MeansSame(r.rule, node)
    decreases node, 1
  {
    if node.nodeType == "AND" {
      r := CompileAnd(node);
    } else if node.nodeType == "OR" {
      r := CompileOr(node);
    } else if node.nodeType == "NOT" {
      r := CompileNot(node);
    } else if node.nodeType == "CONDITION" {
      r := CompileCondition(node);
    } else {
      r := Rejected;
    }
  }

  /** The loop compileAnd and compileOr share: compile each child, give up at the first error. */
  method CompileChildren(children: seq<RuleNode>) returns (ok: bool, rules: seq<CompiledRule>)
    ensures ok <==> forall c :: c in children ==> Accepted(c)
    ensures ok ==> AllMeanSame(rules, children)
    decreases children, 0
  {
    rules := [];
    for i := 0 to |children|
      invariant |rules| == i
      invariant forall j :: 0 <= j < i ==> Accepted(children[j]) && MeansSame(rules[j], children[j])
    {
      var c := Compile(children[i]);
      if c.Rejected? {
        return false, [];
      }
      rules := rules + [c.rule];
    }
    ok := true;
  }

  method CompileAnd(node: RuleNode) returns (r: CompileResult)
    requires node.nodeType == "AND"
    ensures r.Compiled? <==> Accepted(node)
    ensures r.Compiled? ==> MeansSame(r.rule, node)
    decreases node, 0
  {
    var ok, rules := CompileChildren(node.children);
    if !ok {
      return Rejected;
    }
    var rule := (ctx: EvalContext) => RunAnd(rules, ctx);
    forall ctx: EvalContext | WindowBlind(ctx) ensures rule(ctx) == Evaluate(node, ctx) {
      RunAndIsEvalAnd(rules, node.children, ctx);
    }
    r := Compiled(rule);
  }

  method CompileOr(node: RuleNode) returns (r: CompileResult)
    requires node.nodeType == "OR"
    ensures r.Compiled? <==> Accepted(node)
    ensures r.Compiled? ==> MeansSame(r.rule, node)
    decreases node, 0
  {
    var ok, rules := CompileChildren(node.children);
    if !ok {
      return Rejected;
    }
    var rule := (ctx: EvalContext) => RunOr(rules, ctx);
    forall ctx: EvalContext | WindowBlind(ctx) ensures rule(ctx) == Evaluate(node, ctx) {
      RunOrIsEvalOr(rules, node.children, ctx);
    }
    r := Compiled(rule);
  }

  method CompileNot(node: RuleNode) returns (r: CompileResult)
    requires node.nodeType == "NOT"
    ensures r.Compiled? <==> Accepted(node)
    ensures r.Compiled? ==> MeansSame(r.rule, node)
    decreases node, 0
  {
    if |node.children| != 1 {
      return Rejected;
    }
    var inner := Compile(node.children[0]);
    if inner.Rejected? {
      return Rejected;
    }
    var run := inner.rule;
    r := Compiled((ctx: EvalContext) => var a := run(ctx); if a.err then FAILED else Plain(!a.ok));
  }

  method CompileCondition(node: RuleNode) returns (r: CompileResult)
    requires node.nodeType == "CONDITION"
    ensures r.Compiled? <==> Accepted(node)
    ensures r.Compiled? ==> MeansSame(r.rule, node)
    decreases node, 0
  {
    var lhs := BuildLhsResolver(node.field, node.window);
    var rhs := BuildRhsResolver(node.value);
    var cmp := BuildComparator(ToUpper(node.operator));
    if cmp.None? {
      return Rejected;
    }
    var compare := cmp.value;
    var rule := (ctx: EvalContext) =>
      match lhs(ctx)
      case LookupFailed => FAILED
      case Found(l) =>
        match rhs(ctx)
        case LookupFailed => FAILED
        case Found(x) => compare(l, x);
    forall ctx: EvalContext | WindowBlind(ctx) ensures rule(ctx) == Evaluate(node, ctx) {
      LhsResolves(node.field, node.window, ctx);
      ComparatorCompares(node, ctx);
    }
    r := Compiled(rule);
  }

  function RunAnd(rules: seq<CompiledRule>, ctx: EvalContext): EvalResult {
    if rules == [] then YES
    else
      var first := rules[0](ctx);
      if first.err then FAILED else if !first.ok then NO else RunAnd(rules[1..], ctx)
  }

  function RunOr(rules: seq<CompiledRule>, ctx: EvalContext): EvalResult {
    if rules == [] then NO
    else
      var first := rules[0](ctx);
      if first.err then FAILED else if first.ok then YES else RunOr(rules[1..], ctx)
  }

  lemma {:induction false} RunAndIsEvalAnd(rules: seq<CompiledRule>, nodes: seq<RuleNode>, ctx: EvalContext)
    requires AllMeanSame(rules, nodes) && WindowBlind(ctx)
    ensures RunAnd(rules, ctx) == EvalAnd(nodes, ctx)
  {
    if rules != [] {
      assert MeansSame(rules[0], nodes[0]);
      RunAndIsEvalAnd(rules[1..], nodes[1..], ctx);
    }
  }

  lemma {:induction false} RunOrIsEvalOr(rules: seq<CompiledRule>, nodes: seq<RuleNode>, ctx: EvalContext)
    requires AllMeanSame(rules, nodes) && WindowBlind(ctx)
    ensures RunOr(rules, ctx) == EvalOr(nodes, ctx)
  {
    if rules != [] {
      assert MeansSame(rules[0], nodes[0]);
      RunOrIsEvalOr(rules[1..], nodes[1..], ctx);
    }
  }

  /** The left side is classified once, here, instead of on every evaluation. */
  function BuildLhsResolver(field: string, window: Option<TimeWindow>): Resolver {
    if IsVariable(field) then
      (ctx: EvalContext) => var v := ctx.variable(field[1..]); if v.None? then Found(Nil) else Found(v.value)
    else if ':' in field then
      (ctx: EvalContext) => ctx.resolve(field, window)
    else
      (ctx: EvalContext) => ctx.resolve(field, None)
  }

  function BuildRhsResolver(value: Value): Resolver {
    if value.Str? && IsVariable(value.s) then
      (ctx: EvalContext) => var v := ctx.variable(value.s[1..]); Found(if v.None? then value else v.value)
    else
      (ctx: EvalContext) => Found(value)
  }

  function BuildComparator(op: string): Option<Comparator> {
    if op == "IN" then Some((l: Value, r: Value) => EvalIn(l, r))
    else if op == "NOT_IN" then Some((l: Value, r: Value) => var a := EvalIn(l, r); EvalResult(!a.ok, a.err))
    else if op == ">" then Some((l: Value, r: Value) => NumericOrString((a: real, b: real) => a > b, None, l, r))
    else if op == "<" then Some((l: Value, r: Value) => NumericOrString((a: real, b: real) => a < b, None, l, r))
    else if op == ">=" then Some((l: Value, r: Value) => NumericOrString((a: real, b: real) => a >= b, None, l, r))
    else if op == "<=" then Some((l: Value, r: Value) => NumericOrString((a: real, b: real) => a <= b, None, l, r))
    else if op == "=" || op == "==" then
      Some((l: Value, r: Value) =>
        NumericOrString((a: real, b: real) => a == b, Some((a: string, b: string) => a == b), l, r))
    else if op == "!=" then
      Some((l: Value, r: Value) =>
        NumericOrString((a: real, b: real) => a != b, Some((a: string, b: string) => a != b), l, r))
    else None
  }

  /** Numbers first; strings only for the operators that have a string form. */
  function NumericOrString(num: (real, real) -> bool, str: Option<(string, string) -> bool>, l: Value, r: Value)
    : EvalResult
  {
    if l.Num? && r.Num? then Plain(num(l.n, r.n))
    else if str.Some? then Plain(str.value(Show(l), Show(r)))
    else FAILED
  }

  lemma LhsResolves(field: string, window: Option<TimeWindow>, ctx: EvalContext)
    requires WindowBlind(ctx)
    ensures BuildLhsResolver(field, window)(ctx) == ResolveValue(field, window, ctx)
  {
    if !IsVariable(field) && ':' !in field {
      assert ctx.resolve(field, window) == ctx.resolve(field, None);
    }
  }

  lemma ComparatorCompares(node: RuleNode, ctx: EvalContext)
    requires node.nodeType == "CONDITION" && BuildComparator(ToUpper(node.operator)).Some?
    ensures BuildRhsResolver(node.value)(ctx) == Found(ResolveExpected(node.value, ctx))
    ensures ResolveValue(node.field, node.window, ctx).Found? ==>
      EvalCondition(node, ctx)
      == BuildComparator(ToUpper(node.operator)).value(
           ResolveValue(node.field, node.window, ctx).value, ResolveExpected(node.value, ctx))
  {
  }
}
