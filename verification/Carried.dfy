/** What a match carries (service/engine/core/cep.go): for every variable, the field of the last event
    of its chain that bound it, and what the states of a pattern read of events and variables. */
module Carried {
  import opened Basics
  import opened Rules
  import opened RuleLaws
  import opened Events
  import opened Patterns
  import opened Shards
  import opened Invariants
  import opened Witnesses
  import opened NegativeExits
  import opened Scenarios
  import opened SweepVisibility
  import opened WaitingExits

  // ---------- Variables ----------

  /** The event of state `j` binds `x` to `v`. */
  ghost predicate BindsAt(pat: Pattern, ws: seq<Event>, j: nat, x: string, v: Value)
    requires j < |ws| <= |pat.states|
  {
    Binds(ws[j], pat.states[j].contextBinding, x, v)
  }

  /** State `j` is the last of the chain whose event binds `x`, and it binds it to `v`. */
  ghost predicate LastAt(pat: Pattern, ws: seq<Event>, x: string, v: Value, j: nat)
    requires |ws| <= |pat.states|
  {
    j < |ws| && BindsAt(pat, ws, j, x, v) && forall i: nat, u :: j < i < |ws| ==> !BindsAt(pat, ws, i, x, u)
  }

  ghost predicate LastBound(pat: Pattern, ws: seq<Event>, x: string, v: Value)
    requires |ws| <= |pat.states|
  {
    exists j: nat :: LastAt(pat, ws, x, v, j)
  }

  ghost predicate Holds(vars: map<string, Value>, x: string, v: Value) { x in vars && vars[x] == v }

  /** Each variable has the value the last binding event gave it, and is unbound when none did. */
  ghost predicate CarriesTheLast(vars: map<string, Value>, pat: Pattern, ws: seq<Event>)
    requires |ws| <= |pat.states|
  {
    forall x, v :: Holds(vars, x, v) <==> LastBound(pat, ws, x, v)
  }

  lemma {:induction false} VariablesAreTheLast(pat: Pattern, ws: seq<Event>)
    requires |ws| <= |pat.states|
    ensures CarriesTheLast(VarsAfter(pat, ws), pat, ws)
    decreases |ws|
  {
    hide Bindings, Binds;
    if ws == [] {
      assert forall x, v :: !LastBound(pat, ws, x, v);
    } else {
      var k := |ws| - 1;
      VariablesAreTheLast(pat, ws[..k]);
      forall x, v ensures Holds(VarsAfter(pat, ws), x, v) <==> LastBound(pat, ws, x, v) {
        assert Holds(VarsAfter(pat, ws[..k]), x, v) <==> LastBound(pat, ws[..k], x, v);
        forall u ensures Holds(Bindings(ws[k], pat.states[k].contextBinding), x, u) <==> BindsAt(pat, ws, k, x, u) {
          BindingsMean(ws[k], pat.states[k].contextBinding, x, u);
        }
        BoundSoFar(pat, ws, x, v);
        hide BindsAt, LastBound;
        if x in Bindings(ws[k], pat.states[k].contextBinding) {
          var u := Bindings(ws[k], pat.states[k].contextBinding)[x];
          assert Holds(Bindings(ws[k], pat.states[k].contextBinding), x, u);
          assert BindsAt(pat, ws, k, x, u);
        } else {
          assert forall u :: !Holds(Bindings(ws[k], pat.states[k].contextBinding), x, u);
          assert forall u :: !BindsAt(pat, ws, k, x, u);
        }
      }
    }
  }

  /** The last event binds `x`, or else what the earlier ones bound stays. */
  lemma BoundSoFar(pat: Pattern, ws: seq<Event>, x: string, v: Value)
    requires 0 < |ws| <= |pat.states|
    ensures var k := |ws| - 1;
            LastBound(pat, ws, x, v) <==>
              BindsAt(pat, ws, k, x, v)
              || (LastBound(pat, ws[..k], x, v) && forall u :: !BindsAt(pat, ws, k, x, u))
  {
    var k := |ws| - 1;
    forall j: nat, u | j < k ensures BindsAt(pat, ws[..k], j, x, u) <==> BindsAt(pat, ws, j, x, u) {
    }
    hide BindsAt;
    if BindsAt(pat, ws, k, x, v) { assert LastAt(pat, ws, x, v, k); }
    if LastBound(pat, ws, x, v) && !BindsAt(pat, ws, k, x, v) {
      var j: nat :| LastAt(pat, ws, x, v, j);
      assert LastAt(pat, ws[..k], x, v, j);
    }
    if LastBound(pat, ws[..k], x, v) && forall u :: !BindsAt(pat, ws, k, x, u) {
      var j: nat :| LastAt(pat, ws[..k], x, v, j);
      forall i: nat, u | j < i < |ws| ensures !BindsAt(pat, ws, i, x, u) {
        if i < k { assert !BindsAt(pat, ws[..k], i, x, u); }
      }
      assert LastAt(pat, ws, x, v, j);
    }
  }

  /** A completed match carries, for each variable, the field of the last chain event that bound it. */
  lemma CompletedCarries(cfg: Config, es: seq<Event>, e: Event, pid: string)
    returns (pat: Pattern, idx: seq<nat>)
    requires Proper(cfg.patterns) && pid in Out(cfg, Run(cfg, es), e).completed
    ensures pat in cfg.patterns && |idx| == |pat.states| && Witness(cfg, es + [e], e.memberID, pat, idx)
    ensures CarriesTheLast(Out(cfg, Run(cfg, es), e).completed[pid].variables, pat, Picks(es + [e], idx))
  {
    hide *;
    pat, idx := PositiveMatchHasWitness(cfg, es, e, pid);
    WitnessIsChain(cfg, es + [e], e.memberID, pat, idx);
    VariablesAreTheLast(pat, Picks(es + [e], idx));
  }

  /** So does the match of a deadline that passed, over the events before the negative state. */
  lemma ExpiredCarries(cfg: Config, es: seq<Event>, e: Event, x: Entry) returns (pat: Pattern, idx: seq<nat>)
    requires Proper(cfg.patterns) && x in Out(cfg, Run(cfg, es), e).expired
    ensures pat in cfg.patterns && |idx| + 1 == |pat.states| && Witness(cfg, es + [e], x.memberID, pat, idx)
    ensures CarriesTheLast(Out(cfg, Run(cfg, es), e).expired[x].variables, pat, Picks(es + [e], idx))
  {
    hide *;
    var p;
    pat, idx, p := NegativeMatchHasWitness(cfg, es, e, x);
    WitnessIsChain(cfg, es + [e], x.memberID, pat, idx);
    VariablesAreTheLast(pat, Picks(es + [e], idx));
  }

  lemma WitnessIsChain(cfg: Config, es: seq<Event>, m: string, pat: Pattern, idx: seq<nat>)
    requires Witness(cfg, es, m, pat, idx)
    ensures forall j :: 0 <= j < |idx| ==> idx[j] < |es|
    ensures |Picks(es, idx)| == |idx| <= |pat.states|
  {
  }

  // ---------- What a state reads ----------

  /** What a pattern condition sees of an event: its behaviour and member under their own names, whatever
      fields it has, and else its fields, a missing one being Nil. */
  ghost function SeenOf(e: Event, field: string): Value {
    if field == "behavior" then Str(e.behavior)
    else if field == "member_id" then Str(e.memberID)
    else if field in e.fields then e.fields[field]
    else Nil
  }

  /** A field of the condition is read from the event, a variable from the earlier bindings. */
  lemma StateReads(e: Event, vars: map<string, Value>, node: RuleNode, x: string, v: Value)
    ensures !("$" <= node.field) ==> (LeftIs(node, MapContext(EvalFields(e), vars), v) <==> v == SeenOf(e, node.field))
    ensures node.field == "$" + x ==>
              (LeftIs(node, MapContext(EvalFields(e), vars), v) <==> v == if x in vars then vars[x] else Nil)
    ensures node.value == Str("$" + x) ==>
              (RightIs(node, MapContext(EvalFields(e), vars), v) <==> v == if x in vars then vars[x] else node.value)
    ensures (forall y :: node.value != Str("$" + y)) ==>
              (RightIs(node, MapContext(EvalFields(e), vars), v) <==> v == node.value)
  {
    assert |"behavior"| == 8 && |"member_id"| == 9;
    assert forall y: string :: ("$" + y)[1..] == y;
  }

  /** An equality in a state: the event meets it exactly when its field equals what is asked for. */
  lemma EqualityIsMet(e: Event, vars: map<string, Value>, node: RuleNode, r: Value)
    requires node.nodeType == "CONDITION" && node.operator == "=" && !("$" <= node.field)
    requires RightIs(node, MapContext(EvalFields(e), vars), r)
    ensures Satisfies(e, node, vars) <==> Equal(SeenOf(e, node.field), r)
  {
    assert ToUpper("=") == "=";
    StateReads(e, vars, node, "", SeenOf(e, node.field));
    EqualityMeans(node, MapContext(EvalFields(e), vars), SeenOf(e, node.field), r);
    hide LeftIs, RightIs, SeenOf, Equal, MapContext, EvalFields, Evaluate;
  }

  /** An error meets no state: no condition that fails is satisfied. */
  lemma ErrorsMeetNothing(e: Event, node: RuleNode, vars: map<string, Value>)
    ensures Satisfies(e, node, vars) <==>
              var r := Evaluate(node, MapContext(EvalFields(e), vars)); r.ok && !r.err
  {
  }

  // ---------- A pattern that carries something ----------

  /** The condition `field = value`. */
  function Same(field: string, value: Value): RuleNode { RuleNode("CONDITION", [], field, "=", value, None) }

  /** A login, then another event of the account that logged in. */
  const SAME_ACCOUNT := Pattern("same", "Same account", [
    PatternState("login", Same("behavior", Str("login")), None, false, map["acct" := "$event.account"]),
    PatternState("again", Same("account", Str("$acct")), None, false, map[])])

  function Of(id: string, account: string): Event {
    Event(id, "alice", "login", map["account" := Str(account)], 0)
  }

  const WATCH := Config([SAME_ACCOUNT], 0, 0)

  lemma WatchIsProper()
    ensures Proper([SAME_ACCOUNT]) && MaxWait(SAME_ACCOUNT.states) == 0
    ensures forall clock, t :: !PastAllWaits(SAME_ACCOUNT.states, t, clock)
  {
    var states := SAME_ACCOUNT.states;
    assert states[..1][..0] == [] && MaxWait(states[..1]) == 0;
    assert forall i :: 0 <= i < |states| ==> states[i].maxWait == None;
  }

  lemma LoginBinds(a: string)
    ensures Bindings(Of("e0", a), SAME_ACCOUNT.states[0].contextBinding) == map["acct" := Str(a)]
  {
    var binding := SAME_ACCOUNT.states[0].contextBinding;
    assert "$event.account" == "$event." + "account" && Of("e0", a).fields["account"] == Str(a);
    assert Binds(Of("e0", a), binding, "acct", Str(a));
    BindingsMean(Of("e0", a), binding, "acct", Str(a));
  }

  lemma LoginStands(a: string)
    ensures Ladder(SAME_ACCOUNT, [Of("e0", a)], "alice", 0)
    ensures Standing(SAME_ACCOUNT, [Of("e0", a)])
         == Progress(ProgressID("same", "alice", "e0"), "same", "alice", 1, map["acct" := Str(a)], 0, ["e0"], ZERO_TIME)
  {
    var e, node := Of("e0", a), SAME_ACCOUNT.states[0].condition;
    assert "behavior"[0] == 'b' && "login"[0] == 'l';
    EqualityIsMet(e, map[], node, Str("login"));
    LoginBinds(a);
    hide Satisfies, Bindings, ProgressID;
    assert [e][..0] == [] && VarsAfter(SAME_ACCOUNT, []) == map[];
    assert ChainAt(SAME_ACCOUNT, [e], 0);
    StandingStarts(SAME_ACCOUNT, e);
  }

  /** The second event completes the pattern exactly when it is of the same account, and the match
      carries that account. */
  lemma AccountIsCarried(a: string, b: string)
    ensures var pid, s := ProgressID("same", "alice", "e0"), Run(WATCH, [Of("e0", a)]);
            && (pid in Out(WATCH, s, Of("e1", b)).completed <==> a == b)
            && (a == b ==>
                  Out(WATCH, s, Of("e1", b)).completed[pid]
                  == Match("same", "Same account", "alice", map["acct" := Str(a)], 0))
  {
    hide Satisfies, RunWith, OutWith, NextWith, Bindings, ProgressID, Standing;
    var e0, e1, pid := Of("e0", a), Of("e1", b), ProgressID("same", "alice", "e0");
    WatchIsProper();
    LoginStands(a);
    Attempt(WATCH, true, SAME_ACCOUNT, [e0], "alice");
    TwoAreIdentified(e0, e1);
    var p, pat := WaitingExitInRuns(WATCH, [e0], e1, "alice", pid);
    AgainIsMet(a, b);
    assert Bindings(e1, map[]) == map[] by { NothingBound(e1); }
    assert map["acct" := Str(a)] + map[] == map["acct" := Str(a)];
  }

  lemma TwoAreIdentified(d: Event, e: Event)
    requires d.eventID == "e0" && e.eventID == "e1"
    ensures Identified([d] + [e])
  {
    assert ([d] + [e])[0] == d && ([d] + [e])[1] == e && "e0"[1] != "e1"[1];
  }

  lemma NothingBound(e: Event)
    ensures Bindings(e, map[]) == map[]
  {
  }

  lemma AgainIsMet(a: string, b: string)
    ensures Satisfies(Of("e1", b), SAME_ACCOUNT.states[1].condition, map["acct" := Str(a)]) <==> a == b
  {
    var node, vars := SAME_ACCOUNT.states[1].condition, map["acct" := Str(a)];
    assert "$acct" == "$" + "acct" && "account"[0] == 'a';
    StateReads(Of("e1", b), vars, node, "acct", Str(a));
    assert |"account"| == 7 && |"behavior"| == 8 && |"member_id"| == 9;
    EqualityIsMet(Of("e1", b), vars, node, Str(a));
  }
}
