/** The rule language and its reference interpreter, the tree walk of
    service/base/rule/usecase/rule.go. */
module Rules {
  import opened Basics

  /** A Go `any`. A number carries the text `%v` prints for it, which depends on its Go type and
      not only on its value; `Other` is any value the rules can only print. */
  datatype Value =
    | Nil
    | Str(s: string)
    | Num(n: real, shown: string)
    | List(items: seq<Value>)
    | Other(shown: string)

  /** fmt.Sprintf("%v", v) */
  function Show(v: Value): string
    decreases v, 1
  {
    match v
    case Nil => "<nil>"
    case Str(s) => s
    case Num(_, shown) => shown
    case Other(shown) => shown
    case List(items) => "[" + ShowItems(items) + "]"
  }

  function ShowItems(items: seq<Value>): string
    decreases items, 0
  {
    if items == [] then ""
    else if |items| == 1 then Show(items[0])
    else Show(items[0]) + " " + ShowItems(items[1..])
  }

  datatype TimeWindow = TimeWindow(value: int, unit: string)

  const SECOND: int := 1_000_000_000
  const MINUTE: int := 60 * SECOND

  /** TimeWindow.Duration in nanoseconds; a missing window lasts 0. */
  function Duration(w: Option<TimeWindow>): int {
    match w
    case None => 0
    case Some(w) =>
      var unit := ToLower(w.unit);
      if unit == "minutes" then w.value * MINUTE
      else if unit == "hours" then w.value * 60 * MINUTE
      else if unit == "days" then w.value * 24 * 60 * MINUTE
      else w.value * MINUTE
  }

  datatype RuleNode = RuleNode(
    nodeType: string,
    children: seq<RuleNode>,
    field: string,
    operator: string,
    value: Value,
    window: Option<TimeWindow>)

  /** What a Go `(any, error)` lookup gives. */
  datatype Lookup = Found(value: Value) | LookupFailed

  datatype EvalContext = EvalContext(
    resolve: (string, Option<TimeWindow>) -> Lookup,
    variable: string -> Option<Value>)

  /** A Go `(bool, error)` pair. Both halves are kept: NOT_IN reports true together with an error. */
  datatype EvalResult = EvalResult(ok: bool, err: bool)

  const YES := EvalResult(true, false)
  const NO := EvalResult(false, false)
  const FAILED := EvalResult(false, true)

  function Plain(b: bool): EvalResult { EvalResult(b, false) }

  function Evaluate(node: RuleNode, ctx: EvalContext): EvalResult
    decreases node, 1
  {
    if node.nodeType == "AND" then EvalAnd(node.children, ctx)
    else if node.nodeType == "OR" then EvalOr(node.children, ctx)
    else if node.nodeType == "NOT" then
      if |node.children| != 1 then FAILED
      else
        var inner := Evaluate(node.children[0], ctx);
        if inner.err then FAILED else Plain(!inner.ok)
    else if node.nodeType == "CONDITION" then EvalCondition(node, ctx)
    else FAILED
  }

  function EvalAnd(children: seq<RuleNode>, ctx: EvalContext): EvalResult
    decreases children, 0
  {
    if children == [] then YES
    else
      var first := Evaluate(children[0], ctx);
      if first.err then FAILED
      else if !first.ok then NO
      else EvalAnd(children[1..], ctx)
  }

  function EvalOr(children: seq<RuleNode>, ctx: EvalContext): EvalResult
    decreases children, 0
  {
    if children == [] then NO
    else
      var first := Evaluate(children[0], ctx);
      if first.err then FAILED
      else if first.ok then YES
      else EvalOr(children[1..], ctx)
  }

  function EvalCondition(node: RuleNode, ctx: EvalContext): EvalResult {
    match ResolveValue(node.field, node.window, ctx)
    case LookupFailed => FAILED
    case Found(actual) =>
      var expected := ResolveExpected(node.value, ctx);
      var op := ToUpper(node.operator);
      if op == "IN" then EvalIn(actual, expected)
      else if op == "NOT_IN" then
        var inner := EvalIn(actual, expected);
        EvalResult(!inner.ok, inner.err)
      else if actual.Num? && expected.Num? then CompareNumbers(op, actual.n, expected.n)
      else CompareStrings(op, Show(actual), Show(expected))
  }

  predicate IsVariable(s: string) { "$" <= s }

  function ResolveExpected(value: Value, ctx: EvalContext): Value {
    if value.Str? && IsVariable(value.s) then
      match ctx.variable(value.s[1..])
      case None => value
      case Some(v) => v
    else value
  }

  function ResolveValue(field: string, window: Option<TimeWindow>, ctx: EvalContext): Lookup {
    if IsVariable(field) then
      match ctx.variable(field[1..])
      case None => Found(Nil)
      case Some(v) => Found(v)
    else ctx.resolve(field, window)
  }

  function CompareNumbers(op: string, l: real, r: real): EvalResult {
    if op == ">" then Plain(l > r)
    else if op == "<" then Plain(l < r)
    else if op == ">=" then Plain(l >= r)
    else if op == "<=" then Plain(l <= r)
    else if op == "=" || op == "==" then Plain(l == r)
    else if op == "!=" then Plain(l != r)
    else FAILED
  }

  function CompareStrings(op: string, l: string, r: string): EvalResult {
    if op == "=" || op == "==" then Plain(l == r)
    else if op == "!=" then Plain(l != r)
    else FAILED
  }

  function EvalIn(actual: Value, list: Value): EvalResult {
    if !list.List? then FAILED
    else Plain(exists i :: 0 <= i < |list.items| && Show(actual) == Show(list.items[i]))
  }

  /** MapContext of service/base/rule/model/context.go: flat fields, no aggregates. */
  function MapContext(fields: map<string, Value>, vars: map<string, Value>): EvalContext {
    EvalContext(
      (f: string, w: Option<TimeWindow>) => if f in fields then Found(fields[f]) else Found(Nil),
      (x: string) => if x in vars then Some(vars[x]) else None)
  }

  /** A context whose plain fields do not depend on the window they are asked with. */
  ghost predicate WindowBlind(ctx: EvalContext) {
    forall f: string, w: Option<TimeWindow> :: ':' !in f ==> ctx.resolve(f, w) == ctx.resolve(f, None)
  }
}
