/** What the rule language means to its authors: truth tables of the connectives and comparators, and
    the lengths of windows, stated without the evaluation order of the interpreter
    (service/base/rule/usecase/rule.go, service/base/rule/model/entity.go). */
module RuleLaws {
  import opened Basics
  import opened Rules
  import opened Compiler

  // ---------- Connectives ----------

  /** Child `i` is the first whose result is not `pass`. */
  ghost predicate FirstUnlike(children: seq<RuleNode>, ctx: EvalContext, pass: EvalResult, i: nat) {
    && i < |children| && Evaluate(children[i], ctx) != pass
    && forall j :: 0 <= j < i ==> Evaluate(children[j], ctx) == pass
  }

  ghost predicate AllGive(children: seq<RuleNode>, ctx: EvalContext, r: EvalResult) {
    forall i :: 0 <= i < |children| ==> Evaluate(children[i], ctx) == r
  }

  ghost predicate NoneErrs(children: seq<RuleNode>, ctx: EvalContext) {
    forall i :: 0 <= i < |children| ==> !Evaluate(children[i], ctx).err
  }

  /** AND is true exactly when every child is; else the first child that is not decides between false
      and an error. */
  lemma AndMeans(node: RuleNode, ctx: EvalContext)
    requires node.nodeType == "AND"
    ensures Evaluate(node, ctx) == EvalResult(true, false) <==> AllGive(node.children, ctx, EvalResult(true, false))
    ensures forall i: nat :: FirstUnlike(node.children, ctx, EvalResult(true, false), i) ==>
              Evaluate(node, ctx) == EvalResult(false, Evaluate(node.children[i], ctx).err)
    ensures NoneErrs(node.children, ctx) ==>
              Evaluate(node, ctx)
              == EvalResult(forall i :: 0 <= i < |node.children| ==> Evaluate(node.children[i], ctx).ok, false)
  {
    forall i: nat | FirstUnlike(node.children, ctx, EvalResult(true, false), i)
      ensures Evaluate(node, ctx) == EvalResult(false, Evaluate(node.children[i], ctx).err)
    {
      AndStopsAt(node.children, ctx, i);
    }
    AndOrFirst(node.children, ctx);
  }

  lemma {:induction false} AndStopsAt(children: seq<RuleNode>, ctx: EvalContext, i: nat)
    requires FirstUnlike(children, ctx, EvalResult(true, false), i)
    ensures EvalAnd(children, ctx) == EvalResult(false, Evaluate(children[i], ctx).err)
    decreases i
  {
    if i > 0 {
      assert Evaluate(children[0], ctx) == EvalResult(true, false);
      assert forall j :: 0 <= j < i - 1 ==> children[1..][j] == children[j + 1];
      AndStopsAt(children[1..], ctx, i - 1);
    }
  }

  /** Either every child is true, or there is a first that is not. */
  lemma {:induction false} AndOrFirst(children: seq<RuleNode>, ctx: EvalContext)
    ensures AllGive(children, ctx, EvalResult(true, false)) ==> EvalAnd(children, ctx) == EvalResult(true, false)
    ensures EvalAnd(children, ctx) == EvalResult(true, false) ==> AllGive(children, ctx, EvalResult(true, false))
    ensures NoneErrs(children, ctx) ==> !EvalAnd(children, ctx).err
    decreases |children|
  {
    if children != [] {
      assert children == [children[0]] + children[1..];
      AndOrFirst(children[1..], ctx);
    }
  }

  /** OR is true exactly when some child is and every earlier one is false; the first child that is not
      false decides between true and an error. */
  lemma OrMeans(node: RuleNode, ctx: EvalContext)
    requires node.nodeType == "OR"
    ensures Evaluate(node, ctx) == EvalResult(false, false) <==> AllGive(node.children, ctx, EvalResult(false, false))
    ensures forall i: nat :: FirstUnlike(node.children, ctx, EvalResult(false, false), i) ==>
              Evaluate(node, ctx)
              == EvalResult(!Evaluate(node.children[i], ctx).err, Evaluate(node.children[i], ctx).err)
    ensures NoneErrs(node.children, ctx) ==>
              Evaluate(node, ctx)
              == EvalResult(exists i :: 0 <= i < |node.children| && Evaluate(node.children[i], ctx).ok, false)
  {
    forall i: nat | FirstUnlike(node.children, ctx, EvalResult(false, false), i)
      ensures Evaluate(node, ctx)
           == EvalResult(!Evaluate(node.children[i], ctx).err, Evaluate(node.children[i], ctx).err)
    {
      OrStopsAt(node.children, ctx, i);
    }
    OrOrFirst(node.children, ctx);
  }

  lemma {:induction false} OrStopsAt(children: seq<RuleNode>, ctx: EvalContext, i: nat)
    requires FirstUnlike(children, ctx, EvalResult(false, false), i)
    ensures EvalOr(children, ctx)
         == EvalResult(!Evaluate(children[i], ctx).err, Evaluate(children[i], ctx).err)
    decreases i
  {
    if i > 0 {
      assert Evaluate(children[0], ctx) == EvalResult(false, false);
      assert forall j :: 0 <= j < i - 1 ==> children[1..][j] == children[j + 1];
      OrStopsAt(children[1..], ctx, i - 1);
    }
  }

  lemma {:induction false} OrOrFirst(children: seq<RuleNode>, ctx: EvalContext)
    ensures AllGive(children, ctx, EvalResult(false, false)) ==> EvalOr(children, ctx) == EvalResult(false, false)
    ensures EvalOr(children, ctx) == EvalResult(false, false) ==> AllGive(children, ctx, EvalResult(false, false))
    ensures NoneErrs(children, ctx) ==> !EvalOr(children, ctx).err
    decreases |children|
  {
    if children != [] {
      assert children == [children[0]] + children[1..];
      OrOrFirst(children[1..], ctx);
    }
  }

  /** NOT inverts its one child and passes an error on; without exactly one child, and for a node of any
      other type, evaluation fails. */
  lemma NotMeans(node: RuleNode, ctx: EvalContext)
    ensures node.nodeType == "NOT" && |node.children| == 1 ==>
              var c := Evaluate(node.children[0], ctx);
              Evaluate(node, ctx) == EvalResult(!c.ok && !c.err, c.err)
    ensures node.nodeType == "NOT" && |node.children| != 1 ==> Evaluate(node, ctx) == EvalResult(false, true)
    ensures node.nodeType !in {"AND", "OR", "NOT", "CONDITION"} ==> Evaluate(node, ctx) == EvalResult(false, true)
  {
  }

  function Connected(nodeType: string, children: seq<RuleNode>): RuleNode {
    RuleNode(nodeType, children, "", "", Nil, None)
  }

  function Inverted(children: seq<RuleNode>): (nots: seq<RuleNode>)
    ensures |nots| == |children|
    ensures forall i :: 0 <= i < |nots| ==> nots[i] == Connected("NOT", [children[i]])
  {
    seq(|children|, i requires 0 <= i < |children| => Connected("NOT", [children[i]]))
  }

  /** De Morgan, errors included: the first child that decides is the same one. */
  lemma DeMorgan(children: seq<RuleNode>, ctx: EvalContext)
    ensures Evaluate(Connected("NOT", [Connected("AND", children)]), ctx)
         == Evaluate(Connected("OR", Inverted(children)), ctx)
    ensures Evaluate(Connected("NOT", [Connected("OR", children)]), ctx)
         == Evaluate(Connected("AND", Inverted(children)), ctx)
  {
    NotMeans(Connected("NOT", [Connected("AND", children)]), ctx);
    NotMeans(Connected("NOT", [Connected("OR", children)]), ctx);
    InvertedDecide(children, ctx);
    assert Evaluate(Connected("AND", children), ctx) == EvalAnd(children, ctx);
    assert Evaluate(Connected("OR", children), ctx) == EvalOr(children, ctx);
  }

  lemma {:induction false} InvertedDecide(children: seq<RuleNode>, ctx: EvalContext)
    ensures var a := EvalAnd(children, ctx);
            EvalOr(Inverted(children), ctx) == EvalResult(!a.ok && !a.err, a.err)
    ensures var o := EvalOr(children, ctx);
            EvalAnd(Inverted(children), ctx) == EvalResult(!o.ok && !o.err, o.err)
    decreases |children|
  {
    if children != [] {
      InvertedDecide(children[1..], ctx);
      NotMeans(Connected("NOT", [children[0]]), ctx);
      assert Inverted(children)[1..] == Inverted(children[1..]);
    }
  }

  // ---------- Conditions ----------

  /** The left side has value `v`: that of the variable behind "$", Nil when unbound, or else what the
      context gives for the field and window. */
  ghost predicate LeftIs(node: RuleNode, ctx: EvalContext, v: Value) {
    || (exists x :: node.field == "$" + x && v == if ctx.variable(x).Some? then ctx.variable(x).value else Nil)
    || (!("$" <= node.field) && ctx.resolve(node.field, node.window) == Found(v))
  }

  /** The right side has value `v`: that of a bound variable behind "$", or else itself. */
  ghost predicate RightIs(node: RuleNode, ctx: EvalContext, v: Value) {
    || (exists x :: node.value == Str("$" + x) && ctx.variable(x) == Some(v))
    || (v == node.value && forall x :: node.value == Str("$" + x) ==> ctx.variable(x).None?)
  }

  lemma SidesResolve(node: RuleNode, ctx: EvalContext, l: Value, r: Value)
    requires LeftIs(node, ctx, l) && RightIs(node, ctx, r)
    ensures ResolveValue(node.field, node.window, ctx) == Found(l) && ResolveExpected(node.value, ctx) == r
  {
    if "$" <= node.field {
      var x :| node.field == "$" + x && l == if ctx.variable(x).Some? then ctx.variable(x).value else Nil;
      assert node.field[1..] == x;
    }
    if node.value.Str? && "$" <= node.value.s {
      assert node.value.s == "$" + node.value.s[1..];
      assert node.value == Str("$" + node.value.s[1..]);
      if y :| node.value == Str("$" + y) && ctx.variable(y) == Some(r) { assert node.value.s[1..] == y; }
    }
  }

  /** Numbers by value, everything else by its text. */
  predicate Equal(l: Value, r: Value) {
    if l.Num? && r.Num? then l.n == r.n else Show(l) == Show(r)
  }

  /** An item of the list prints as `v` does. */
  predicate Among(v: Value, list: Value) {
    list.List? && exists i :: 0 <= i < |list.items| && Show(list.items[i]) == Show(v)
  }

  /** The ordered comparisons hold of two numbers in that order, and fail on anything else. */
  lemma OrderMeans(node: RuleNode, ctx: EvalContext, l: Value, r: Value)
    requires node.nodeType == "CONDITION" && LeftIs(node, ctx, l) && RightIs(node, ctx, r)
    requires ToUpper(node.operator) in {">", "<", ">=", "<="}
    ensures Evaluate(node, ctx).err <==> !(l.Num? && r.Num?)
    ensures Evaluate(node, ctx) == EvalResult(true, false) <==>
              l.Num? && r.Num? && match ToUpper(node.operator)
                                  case ">" => l.n > r.n
                                  case "<" => l.n < r.n
                                  case ">=" => l.n >= r.n
                                  case _ => l.n <= r.n
  {
    SidesResolve(node, ctx, l, r);
  }

  /** Equality compares numbers by value and all else by text, and never fails. */
  lemma EqualityMeans(node: RuleNode, ctx: EvalContext, l: Value, r: Value)
    requires node.nodeType == "CONDITION" && LeftIs(node, ctx, l) && RightIs(node, ctx, r)
    ensures ToUpper(node.operator) in {"=", "=="} ==> Evaluate(node, ctx) == EvalResult(Equal(l, r), false)
    ensures ToUpper(node.operator) == "!=" ==> Evaluate(node, ctx) == EvalResult(!Equal(l, r), false)
  {
    SidesResolve(node, ctx, l, r);
  }

  /** Membership is by text; against anything but a list it is an error, which NOT_IN reports beside true. */
  lemma MembershipMeans(node: RuleNode, ctx: EvalContext, l: Value, r: Value)
    requires node.nodeType == "CONDITION" && LeftIs(node, ctx, l) && RightIs(node, ctx, r)
    requires ToUpper(node.operator) in {"IN", "NOT_IN"}
    ensures r.List? ==> Evaluate(node, ctx) == EvalResult(Among(l, r) <==> ToUpper(node.operator) == "IN", false)
    ensures !r.List? ==> Evaluate(node, ctx) == EvalResult(ToUpper(node.operator) == "NOT_IN", true)
  {
    SidesResolve(node, ctx, l, r);
  }

  /** Any other operator, and a field the context cannot give, is an error. */
  lemma OtherConditionsFail(node: RuleNode, ctx: EvalContext)
    requires node.nodeType == "CONDITION"
    requires ToUpper(node.operator) !in {"IN", "NOT_IN", ">", "<", ">=", "<=", "=", "==", "!="}
          || (!("$" <= node.field) && ctx.resolve(node.field, node.window).LookupFailed?)
    ensures Evaluate(node, ctx) == EvalResult(false, true)
  {
  }

  /** The compiler rejects a condition exactly when no value to compare with and no context could keep its
      operator from failing. */
  lemma AcceptedIffEvaluable(node: RuleNode)
    requires node.nodeType == "CONDITION"
    ensures Accepted(node) <==> exists value, ctx :: !Evaluate(node.(value := value), ctx).err
  {
    if Accepted(node) {
      var value := if ToUpper(node.operator) in {"IN", "NOT_IN"} then List([]) else ONE;
      var ctx := EvalContext((f: string, w: Option<TimeWindow>) => Found(ONE), (x: string) => Some(ONE));
      var asked := node.(value := value);
      OnesAreRead(asked, ctx);
      if ToUpper(node.operator) in {"IN", "NOT_IN"} {
        MembershipMeans(asked, ctx, ONE, value);
      } else if ToUpper(node.operator) in {">", "<", ">=", "<="} {
        OrderMeans(asked, ctx, ONE, value);
      } else {
        EqualityMeans(asked, ctx, ONE, value);
      }
      assert !Evaluate(node.(value := value), ctx).err;
    } else {
      forall value, ctx ensures Evaluate(node.(value := value), ctx).err {
        var asked := node.(value := value);
        assert Evaluate(asked, ctx) == EvalCondition(asked, ctx);
      }
    }
  }

  lemma OnesAreRead(node: RuleNode, ctx: EvalContext)
    requires !node.value.Str? && forall f, w, x :: ctx.resolve(f, w) == Found(ONE) && ctx.variable(x) == Some(ONE)
    ensures LeftIs(node, ctx, ONE) && RightIs(node, ctx, node.value)
  {
    if "$" <= node.field { assert node.field == "$" + node.field[1..]; }
    assert ctx.resolve(node.field, node.window) == Found(ONE) && ctx.variable(node.field) == Some(ONE);
  }

  const ONE := Num(1.0, "1")

  // ---------- Text ----------

  const LOWER := "abcdefghijklmnopqrstuvwxyz"
  const UPPER := "ABCDEFGHIJKLMNOPQRSTUVWXYZ"

  /** Letters are paired, and every other character is left alone. */
  lemma LettersPair(c: char)
    ensures |LOWER| == |UPPER|
    ensures forall i :: 0 <= i < |LOWER| ==> UpperChar(LOWER[i]) == UPPER[i] && LowerChar(UPPER[i]) == LOWER[i]
    ensures (c !in LOWER ==> UpperChar(c) == c) && (c !in UPPER ==> LowerChar(c) == c)
  {
    assert |LOWER| == 26 && |UPPER| == 26;
    forall i | 0 <= i < 26 ensures LOWER[i] as int == 'a' as int + i && UPPER[i] as int == 'A' as int + i {
    }
    if 'a' <= c <= 'z' { assert LOWER[c as int - 'a' as int] == c; }
    if 'A' <= c <= 'Z' { assert UPPER[c as int - 'A' as int] == c; }
  }

  /** Operators, aggregations and units ignore letter case. */
  lemma CaseIsForgotten(s: string)
    ensures ToUpper(ToLower(s)) == ToUpper(s) == ToUpper(ToUpper(s))
    ensures ToLower(ToUpper(s)) == ToLower(s) == ToLower(ToLower(s))
  {
  }

  /** How values print: text as itself, a missing value as "<nil>", a list with blanks in brackets. */
  lemma ValuesPrint(s: string, a: seq<Value>, b: seq<Value>)
    ensures Show(Str(s)) == s && Show(Nil) == "<nil>" && Show(List([])) == "[]"
    ensures a != [] && b != [] ==> "[" + ShowItems(a) + " " + ShowItems(b) + "]" == Show(List(a + b))
    ensures a != [] ==> Show(List([a[0]])) == "[" + Show(a[0]) + "]"
  {
    if a != [] && b != [] { ItemsJoin(a, b); }
  }

  lemma {:induction false} ItemsJoin(a: seq<Value>, b: seq<Value>)
    requires a != [] && b != []
    ensures ShowItems(a) + " " + ShowItems(b) == ShowItems(a + b)
    decreases |a|
  {
    if |a| == 1 {
      assert (a + b)[1..] == b;
    } else {
      ItemsJoin(a[1..], b);
      assert (a + b)[1..] == a[1..] + b;
    }
  }

  // ---------- Windows ----------

  /** An hour is sixty minutes and a day twenty-four hours, in any letter case; any other unit counts
      minutes, and a minute is 60 000 000 000 ns. */
  lemma UnitsAgree(n: int, days: string, hours: string, minutes: string, other: string)
    requires ToLower(days) == "days" && ToLower(hours) == "hours" && ToLower(minutes) == "minutes"
    requires ToLower(other) !in {"days", "hours"}
    ensures Duration(Some(TimeWindow(n, days))) == Duration(Some(TimeWindow(24 * n, hours)))
    ensures Duration(Some(TimeWindow(n, hours))) == Duration(Some(TimeWindow(60 * n, minutes)))
    ensures Duration(Some(TimeWindow(n, other))) == Duration(Some(TimeWindow(n, minutes)))
    ensures Duration(Some(TimeWindow(1, minutes))) == 60_000_000_000 && Duration(None) == 0
  {
    assert |"days"| == 4 && |"hours"| == 5 && |"minutes"| == 7;
  }

  /** A window of several parts lasts as long as the parts together. */
  lemma WindowsAdd(a: int, b: int, unit: string)
    ensures Duration(Some(TimeWindow(a + b, unit)))
         == Duration(Some(TimeWindow(a, unit))) + Duration(Some(TimeWindow(b, unit)))
  {
  }
}
