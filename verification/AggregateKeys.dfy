/** Aggregate keys and the string they are cached under
    (service/base/rule/model/entity.go, service/base/rule/usecase/aggregate.go). */
module AggregateKeys {
  import opened Basics
  import opened Rules

  datatype AggregateKey = AggregateKey(field: string, window: Option<TimeWindow>)

  // ---------- "%d" ----------

  predicate IsDigit(c: char) { '0' <= c <= '9' }

  predicate AllDigits(s: string) { forall i :: 0 <= i < |s| ==> IsDigit(s[i]) }

  function Digit(d: nat): (c: char)
    requires d < 10
    ensures IsDigit(c) && c as int - '0' as int == d
  {
    ('0' as int + d) as char
  }

  function Digits(n: nat): string {
    if n < 10 then [Digit(n)] else Digits(n / 10) + [Digit(n % 10)]
  }

  /** fmt.Sprintf("%d", i) */
  function Decimal(i: int): string {
    if i < 0 then "-" + Digits(-i) else Digits(i)
  }

  function Parse(s: string): nat
    requires AllDigits(s)
  {
    if s == [] then 0
    else Parse(s[..|s| - 1]) * 10 + (s[|s| - 1] as int - '0' as int)
  }

  lemma {:induction false} ParseOfDigits(n: nat)
    ensures Digits(n) != [] && AllDigits(Digits(n)) && Parse(Digits(n)) == n
  {
    if n < 10 {
      assert Digits(n)[..0] == [];
    } else {
      ParseOfDigits(n / 10);
      assert Digits(n)[..|Digits(n)| - 1] == Digits(n / 10);
    }
  }

  lemma {:induction false} DigitsOfParse(s: string)
    requires s != [] && AllDigits(s) && s[0] != '0'
    ensures Parse(s) > 0 && Digits(Parse(s)) == s
  {
    var init, d := s[..|s| - 1], s[|s| - 1] as int - '0' as int;
    assert s == init + [s[|s| - 1]];
    if init != [] {
      DigitsOfParse(init);
      assert Parse(s) / 10 == Parse(init) && Parse(s) % 10 == d;
    }
  }

  lemma NoBarInDecimal(i: int)
    ensures '|' !in Decimal(i)
  {
    ParseOfDigits(if i < 0 then -i else i);
  }

  /** Two readings of the same digits-then-unit text differ by digits moved from number to unit. */
  lemma DecimalSplit(a: int, u: string, b: int, v: string)
    requires Decimal(a) + u == Decimal(b) + v
    requires |Decimal(a)| <= |Decimal(b)|
    ensures |u| >= |v| && AllDigits(u[..|u| - |v|]) && u[|u| - |v|..] == v
    ensures |u| == |v| ==> a == b && u == v
  {
    var x, y := Decimal(a), Decimal(b);
    ParseOfDigits(if a < 0 then -a else a);
    ParseOfDigits(if b < 0 then -b else b);
    assert (x + u)[0] == x[0] && (y + v)[0] == y[0];
    assert u == (x + u)[|x|..] && v == (y + v)[|y|..];
    assert y[|x|..] == (y + v)[|x|..|y|] == u[..|y| - |x|];
    assert u[|y| - |x|..] == (x + u)[|y|..] == v;
    if |u| == |v| {
      assert x == (x + u)[..|x|] == (y + v)[..|y|] == y;
      if a < 0 {
        assert Digits(-a) == x[1..] == Digits(-b);
      }
    }
  }

  // ---------- CacheKey ----------

  function CacheKey(k: AggregateKey): string {
    match k.window
    case None => k.field
    case Some(w) => k.field + "|" + Decimal(w.value) + w.unit
  }

  /** The text the cache is filled and read under. */
  lemma CacheKeyOfADay()
    ensures CacheKey(AggregateKey("CryptoWithdraw:SUM:amount", Some(TimeWindow(24, "hours"))))
         == "CryptoWithdraw:SUM:amount|24hours"
    ensures CacheKey(AggregateKey("Login:COUNT", None)) == "Login:COUNT"
  {
    assert Digits(24) == Digits(2) + [Digit(4)] && Decimal(24) == "24";
    assert "CryptoWithdraw:SUM:amount" + "|" + "24" + "hours" == "CryptoWithdraw:SUM:amount|24hours";
  }

  /** `u` is `v` behind at least one digit. */
  predicate DigitPrefixed(u: string, v: string) {
    |v| < |u| && AllDigits(u[..|u| - |v|]) && u[|u| - |v|..] == v
  }

  /** No unit is another one behind some digits. */
  ghost predicate Unambiguous(units: iset<string>) {
    forall u, v :: u in units && v in units ==> !DigitPrefixed(u, v)
  }

  /** No field continues another one with a bar. */
  ghost predicate Separated(fields: iset<string>) {
    forall f, g :: f in fields && g in fields ==> !(f + "|" <= g)
  }

  ghost predicate Over(k: AggregateKey, fields: iset<string>, units: iset<string>) {
    k.field in fields && (k.window.Some? ==> k.window.value.unit in units)
  }

  ghost predicate InjectiveOn(fields: iset<string>, units: iset<string>) {
    forall j, k :: Over(j, fields, units) && Over(k, fields, units) && CacheKey(j) == CacheKey(k) ==> j == k
  }

  lemma KeysAgree(j: AggregateKey, k: AggregateKey, fields: iset<string>, units: iset<string>)
    requires Separated(fields) && Unambiguous(units)
    requires Over(j, fields, units) && Over(k, fields, units) && |j.field| <= |k.field|
    requires CacheKey(j) == CacheKey(k)
    ensures j == k
  {
    if |j.field| < |k.field| {
      LongerFieldContinues(j, k);
      assert false;
    }
    SameFieldAgrees(j, k, units);
  }

  lemma SameFieldAgrees(j: AggregateKey, k: AggregateKey, units: iset<string>)
    requires Unambiguous(units) && |j.field| == |k.field| && CacheKey(j) == CacheKey(k)
    requires (j.window.Some? ==> j.window.value.unit in units) && (k.window.Some? ==> k.window.value.unit in units)
    ensures j == k
  {
    KeyParts(j);
    KeyParts(k);
    assert j.field == CacheKey(j)[..|j.field|] == k.field;
    hide CacheKey;
    if j.window.Some? && k.window.Some? {
      SameWindow(j.window.value, k.window.value, units);
    }
  }

  /** A cache key is the field, then a bar and the window if there is one. */
  lemma KeyParts(k: AggregateKey)
    ensures |CacheKey(k)| >= |k.field| && CacheKey(k)[..|k.field|] == k.field
    ensures k.window.None? ==> CacheKey(k) == k.field
    ensures k.window.Some? ==>
      && |CacheKey(k)| > |k.field| && CacheKey(k)[|k.field|] == '|'
      && CacheKey(k)[|k.field| + 1..] == Decimal(k.window.value.value) + k.window.value.unit
  {
  }

  lemma SameWindow(a: TimeWindow, b: TimeWindow, units: iset<string>)
    requires Unambiguous(units) && a.unit in units && b.unit in units
    requires Decimal(a.value) + a.unit == Decimal(b.value) + b.unit
    ensures a == b
  {
    assert !DigitPrefixed(a.unit, b.unit) && !DigitPrefixed(b.unit, a.unit);
    if |Decimal(a.value)| <= |Decimal(b.value)| {
      DecimalSplit(a.value, a.unit, b.value, b.unit);
    } else {
      DecimalSplit(b.value, b.unit, a.value, a.unit);
    }
  }

  lemma LongerFieldContinues(j: AggregateKey, k: AggregateKey)
    requires CacheKey(j) == CacheKey(k) && |j.field| < |k.field|
    ensures j.field + "|" <= k.field
  {
    var c, n := CacheKey(j), |j.field|;
    assert j.field == c[..n] && k.field == c[..|k.field|];
    assert j.window.Some? && c[n] == '|';
    assert j.field + "|" == c[..n + 1];
  }

  /** Over separated fields, CacheKey identifies a key exactly when the units are unambiguous. */
  lemma CacheKeyInjectiveIff(fields: iset<string>, units: iset<string>, f: string)
    requires Separated(fields) && f in fields
    ensures InjectiveOn(fields, units) <==> Unambiguous(units)
  {
    if Unambiguous(units) {
      forall j, k | Over(j, fields, units) && Over(k, fields, units) && CacheKey(j) == CacheKey(k)
        ensures j == k
      {
        if |j.field| <= |k.field| { KeysAgree(j, k, fields, units); } else { KeysAgree(k, j, fields, units); }
      }
    }
    if InjectiveOn(fields, units) { InjectiveNeedsUnits(fields, units, f); }
  }

  lemma InjectiveNeedsUnits(fields: iset<string>, units: iset<string>, f: string)
    requires f in fields && InjectiveOn(fields, units)
    ensures Unambiguous(units)
  {
    forall u, v | u in units && v in units ensures !DigitPrefixed(u, v) {
      if DigitPrefixed(u, v) {
        CollidingWindows(f, u, v);
        var n := Parse("1" + u[..|u| - |v|]);
        var j := AggregateKey(f, Some(TimeWindow(1, u)));
        var k := AggregateKey(f, Some(TimeWindow(n, v)));
        assert Over(j, fields, units) && Over(k, fields, units);
        assert false;
      }
    }
  }

  /** No field reads as another field with a window. */
  ghost predicate NoneReads(fields: iset<string>, units: iset<string>) {
    forall f, w: TimeWindow :: f in fields && w.unit in units ==> CacheKey(AggregateKey(f, Some(w))) !in fields
  }

  /** Being separated is more than is needed: with units free of bars, the exact condition on the
      fields is that none reads as another one with a window. */
  lemma CacheKeyInjectiveExactly(fields: iset<string>, units: iset<string>, f: string)
    requires f in fields && forall u :: u in units ==> '|' !in u
    ensures InjectiveOn(fields, units) <==> Unambiguous(units) && NoneReads(fields, units)
  {
    if Unambiguous(units) && NoneReads(fields, units) {
      forall j, k | Over(j, fields, units) && Over(k, fields, units) && CacheKey(j) == CacheKey(k)
        ensures j == k
      {
        if |j.field| < |k.field| {
          LongerFieldReads(j, k);
        } else if |k.field| < |j.field| {
          LongerFieldReads(k, j);
        } else {
          SameFieldAgrees(j, k, units);
        }
      }
    }
    if InjectiveOn(fields, units) {
      InjectiveNeedsUnits(fields, units, f);
      forall g, w: TimeWindow | g in fields && w.unit in units ensures CacheKey(AggregateKey(g, Some(w))) !in fields {
        var j := AggregateKey(g, Some(w));
        if CacheKey(j) in fields {
          var k := AggregateKey(CacheKey(j), None);
          assert !(Over(j, fields, units) && Over(k, fields, units));
        }
      }
    }
  }

  /** Of two colliding keys the one with the longer field has no window. */
  lemma LongerFieldReads(j: AggregateKey, k: AggregateKey)
    requires CacheKey(j) == CacheKey(k) && |j.field| < |k.field|
    requires j.window.Some? ==> '|' !in j.window.value.unit
    ensures j.window.Some? && k.window.None? && CacheKey(j) == k.field
  {
    LongerFieldContinues(j, k);
    KeyParts(j);
    KeyParts(k);
    var w := j.window.value;
    NoBarInDecimal(w.value);
    assert CacheKey(j) == j.field + "|" + (Decimal(w.value) + w.unit);
    assert forall i :: |j.field| < i < |CacheKey(j)| ==> CacheKey(j)[i] != '|';
    if k.window.Some? {
      assert false;
    }
  }

  /** A digit-prefixed unit lets two different windows print alike. */
  lemma CollidingWindows(f: string, u: string, v: string)
    requires DigitPrefixed(u, v)
    ensures AllDigits("1" + u[..|u| - |v|])
    ensures CacheKey(AggregateKey(f, Some(TimeWindow(1, u))))
         == CacheKey(AggregateKey(f, Some(TimeWindow(Parse("1" + u[..|u| - |v|]), v))))
  {
    var d := u[..|u| - |v|];
    DigitsOfParse("1" + d);
    assert u == d + v;
    assert Decimal(1) == "1";
    assert f + "|" + Decimal(1) + u == f + "|" + ("1" + d) + v;
  }

  // ---------- The fields the rule store lets in ----------

  const AGGREGATIONS: set<string> := {"COUNT", "SUM", "AVG", "MAX", "MIN"}

  predicate IsIdentifier(s: string) {
    s != [] && forall i :: 0 <= i < |s| ==>
      'a' <= s[i] <= 'z' || 'A' <= s[i] <= 'Z' || s[i] == '_' || (i > 0 && IsDigit(s[i]))
  }

  /** What ValidateRuleNode asks of an aggregate field "Behavior:AGG" or "Behavior:AGG:path". */
  predicate ValidField(field: string) {
    var i := IndexOf(field, ':');
    i < |field| && ValidRest(field[i + 1..])
  }

  predicate ValidRest(rest: string) {
    var j := IndexOf(rest, ':');
    && ToUpper(rest[..j]) in AGGREGATIONS
    && (j < |rest| ==> rest[j + 1..] == "" || IsIdentifier(rest[j + 1..]))
  }

  lemma UpperKeepsBar(s: string)
    requires '|' in s
    ensures ToUpper(s) !in AGGREGATIONS
  {
    var i :| 0 <= i < |s| && s[i] == '|';
    assert ToUpper(s)[i] == '|';
  }

  lemma SameFirstIndex(s: string, t: string, c: char)
    requires s <= t && c in s
    ensures IndexOf(s, c) == IndexOf(t, c)
  {
    var i, j := IndexOf(s, c), IndexOf(t, c);
    assert t[i] == c;
    assert forall k :: 0 <= k < i ==> t[k] == s[k];
  }

  lemma ValidFieldsAreSeparated()
    ensures Separated(iset f | ValidField(f))
  {
    forall f, g | ValidField(f) && ValidField(g) ensures !(f + "|" <= g) {
      if f + "|" <= g { NoBarredContinuation(f, g); }
    }
  }

  lemma NoBarredContinuation(f: string, g: string)
    requires ValidField(f) && f + "|" <= g
    ensures !ValidField(g)
  {
    hide ValidRest;
    var i := IndexOf(f, ':');
    assert f <= g;
    SameFirstIndex(f, g, ':');
    assert g[..|f| + 1] == f + "|";
    assert g[i + 1..][..|f| - i] == f[i + 1..] + "|";
    BarredRest(f[i + 1..], g[i + 1..]);
  }

  lemma BarredRest(f: string, g: string)
    requires f + "|" <= g
    ensures !ValidRest(g)
  {
    assert g[|f|] == (f + "|")[|f|] == '|';
    var j := IndexOf(g, ':');
    if ':' in f {
      assert f <= g;
      SameFirstIndex(f, g, ':');
      var path := g[j + 1..];
      assert path[|f| - j - 1] == '|';
      assert !IsIdentifier(path);
    } else {
      assert forall k :: 0 <= k <= |f| ==> g[k] != ':';
      assert j > |f|;
      assert g[..j][|f|] == '|';
      UpperKeepsBar(g[..j]);
    }
  }

  /** Without that validation two aggregate fields can share a cache entry. */
  lemma UnvalidatedFieldsCollide()
    ensures var j := AggregateKey("A:COUNT|5m", None);
            var k := AggregateKey("A:COUNT", Some(TimeWindow(5, "m")));
            j != k && CacheKey(j) == CacheKey(k)
  {
    assert Decimal(5) == "5";
  }

  // ---------- Collecting keys ----------

  /** The aggregates the conditions of a tree read. */
  ghost function TreeKeys(node: RuleNode): set<AggregateKey>
    decreases node, 1
  {
    if node.nodeType == "CONDITION" then
      if ':' in node.field then {AggregateKey(node.field, node.window)} else {}
    else ForestKeys(node.children)
  }

  ghost function ForestKeys(nodes: seq<RuleNode>): set<AggregateKey>
    decreases nodes, 0
  {
    if nodes == [] then {} else ForestKeys(nodes[..|nodes| - 1]) + TreeKeys(nodes[|nodes| - 1])
  }

  /** The same in the order the walk meets them. */
  ghost function TreeList(node: RuleNode): seq<AggregateKey>
    decreases node, 1
  {
    if node.nodeType == "CONDITION" then
      if ':' in node.field then [AggregateKey(node.field, node.window)] else []
    else ForestList(node.children)
  }

  ghost function ForestList(nodes: seq<RuleNode>): seq<AggregateKey>
    decreases nodes, 0
  {
    if nodes == [] then [] else ForestList(nodes[..|nodes| - 1]) + TreeList(nodes[|nodes| - 1])
  }

  ghost predicate Held(keys: seq<AggregateKey>, k: AggregateKey) {
    exists i :: 0 <= i < |keys| && CacheKey(keys[i]) == CacheKey(k)
  }

  /** A key joins the list unless its cache key is taken. */
  ghost function Keep(keys: seq<AggregateKey>, k: AggregateKey): seq<AggregateKey> {
    if Held(keys, k) then keys else keys + [k]
  }

  ghost function KeepAll(keys: seq<AggregateKey>, list: seq<AggregateKey>): seq<AggregateKey> {
    if list == [] then keys else Keep(KeepAll(keys, list[..|list| - 1]), list[|list| - 1])
  }

  lemma KeepSnoc(keys: seq<AggregateKey>, list: seq<AggregateKey>, k: AggregateKey)
    ensures KeepAll(keys, list + [k]) == Keep(KeepAll(keys, list), k)
  {
    hide Keep;
    assert (list + [k])[..|list|] == list;
  }

  lemma {:induction false} KeepConcat(keys: seq<AggregateKey>, a: seq<AggregateKey>, b: seq<AggregateKey>)
    ensures KeepAll(keys, a + b) == KeepAll(KeepAll(keys, a), b)
    decreases |b|
  {
    hide Keep;
    if b == [] {
      assert a + b == a;
    } else {
      var n := |b| - 1;
      KeepConcat(keys, a, b[..n]);
      assert a + b == (a + b[..n]) + [b[n]];
      KeepSnoc(keys, a + b[..n], b[n]);
    }
  }

  /** Keeping loses no cache key. */
  lemma {:induction false} KeptIsHeld(keys: seq<AggregateKey>, list: seq<AggregateKey>, k: AggregateKey)
    requires Held(keys, k) || Held(list, k)
    ensures Held(KeepAll(keys, list), k)
    decreases |list|
  {
    hide CacheKey;
    if list != [] {
      var init, last := list[..|list| - 1], list[|list| - 1];
      assert forall i :: 0 <= i < |init| ==> init[i] == list[i];
      if Held(keys, k) || Held(init, k) {
        KeptIsHeld(keys, init, k);
        HeldStays(KeepAll(keys, init), last, k);
      } else {
        HoldsItself(KeepAll(keys, init), last, k);
      }
    }
  }

  lemma HeldStays(keys: seq<AggregateKey>, x: AggregateKey, k: AggregateKey)
    requires Held(keys, k)
    ensures Held(Keep(keys, x), k)
  {
    hide CacheKey;
    var i :| 0 <= i < |keys| && CacheKey(keys[i]) == CacheKey(k);
    assert Keep(keys, x)[i] == keys[i];
  }

  lemma HoldsItself(keys: seq<AggregateKey>, x: AggregateKey, k: AggregateKey)
    requires CacheKey(x) == CacheKey(k)
    ensures Held(Keep(keys, x), k)
  {
    hide CacheKey;
    if !Held(keys, x) { assert Keep(keys, x)[|keys|] == x; }
  }

  lemma {:induction false} KeptIsListed(keys: seq<AggregateKey>, list: seq<AggregateKey>, k: AggregateKey)
    requires k in KeepAll(keys, list)
    ensures k in keys || k in list
    decreases |list|
  {
    hide Held;
    if list != [] && k in KeepAll(keys, list[..|list| - 1]) { KeptIsListed(keys, list[..|list| - 1], k); }
  }

  lemma {:induction false} ListIsKeys(node: RuleNode, k: AggregateKey)
    ensures k in TreeList(node) <==> k in TreeKeys(node)
    decreases node, 1
  {
    if node.nodeType != "CONDITION" { ForestIsKeys(node.children, k); }
  }

  lemma {:induction false} ForestIsKeys(nodes: seq<RuleNode>, k: AggregateKey)
    ensures k in ForestList(nodes) <==> k in ForestKeys(nodes)
    decreases nodes, 0
  {
    if nodes != [] {
      ForestIsKeys(nodes[..|nodes| - 1], k);
      ListIsKeys(nodes[|nodes| - 1], k);
    }
  }

  /** Deduplicating a list before adding it changes nothing. */
  lemma {:induction false} KeepTwice(keys: seq<AggregateKey>, list: seq<AggregateKey>)
    ensures KeepAll(keys, KeepAll([], list)) == KeepAll(keys, list)
    decreases |list|
  {
    if list != [] {
      var init, last := list[..|list| - 1], list[|list| - 1];
      KeepTwice(keys, init);
      var kept := KeepAll([], init);
      if Held(kept, last) {
        KeptIsHeld(keys, kept, last);
      } else {
        KeepSnoc(keys, kept, last);
      }
    }
  }

  /** `keys` holds one representative per cache key of `all`, and `seen` their cache keys. */
  ghost predicate Represents(seen: set<string>, keys: seq<AggregateKey>, all: set<AggregateKey>) {
    && (forall k :: k in keys ==> k in all)
    && (forall k :: k in all ==> CacheKey(k) in seen)
    && (forall s :: s in seen ==> exists i :: 0 <= i < |keys| && CacheKey(keys[i]) == s)
    && (forall i :: 0 <= i < |keys| ==> CacheKey(keys[i]) in seen)
    && (forall i, j :: 0 <= i < j < |keys| ==> CacheKey(keys[i]) != CacheKey(keys[j]))
  }

  /** Each cache key of `all` has exactly one key in the list, and that key is one of `all`. */
  ghost predicate OnePerCacheKey(keys: seq<AggregateKey>, all: set<AggregateKey>) {
    && (forall k :: k in keys ==> k in all)
    && (forall k :: k in all ==> exists i :: 0 <= i < |keys| && CacheKey(keys[i]) == CacheKey(k))
    && (forall i, j :: 0 <= i < j < |keys| ==> CacheKey(keys[i]) != CacheKey(keys[j]))
  }

  lemma RepresentsMeans(seen: set<string>, keys: seq<AggregateKey>, all: set<AggregateKey>)
    requires Represents(seen, keys, all)
    ensures OnePerCacheKey(keys, all)
  {
    hide CacheKey;
  }

  /** The step all collectors share: keep a key unless its cache key was seen. */
  method AddKey(k: AggregateKey, seen: set<string>, keys: seq<AggregateKey>, ghost all: set<AggregateKey>)
    returns (seen': set<string>, keys': seq<AggregateKey>)
    requires Represents(seen, keys, all)
    ensures Represents(seen', keys', all + {k}) && keys' == Keep(keys, k)
  {
    if CacheKey(k) in seen {
      return seen, keys;
    }
    seen', keys' := seen + {CacheKey(k)}, keys + [k];
    assert keys'[|keys|] == k;
    forall s | s in seen' ensures exists i :: 0 <= i < |keys'| && CacheKey(keys'[i]) == s {
      if s in seen {
        var i :| 0 <= i < |keys| && CacheKey(keys[i]) == s;
        assert keys'[i] == keys[i];
      }
    }
  }

  method CollectKeys(node: RuleNode, seen: set<string>, keys: seq<AggregateKey>, ghost all: set<AggregateKey>)
    returns (seen': set<string>, keys': seq<AggregateKey>)
    requires Represents(seen, keys, all)
    ensures Represents(seen', keys', all + TreeKeys(node)) && keys' == KeepAll(keys, TreeList(node))
    decreases node
  {
    hide Represents, Keep;
    seen', keys' := seen, keys;
    if node.nodeType == "CONDITION" {
      if ':' in node.field {
        seen', keys' := AddKey(AggregateKey(node.field, node.window), seen, keys, all);
        KeepSnoc(keys, [], AggregateKey(node.field, node.window));
      } else {
        assert all + TreeKeys(node) == all;
      }
      return;
    }
    assert all + ForestKeys([]) == all;
    for i := 0 to |node.children|
      invariant Represents(seen', keys', all + ForestKeys(node.children[..i]))
      invariant keys' == KeepAll(keys, ForestList(node.children[..i]))
    {
      ghost var before := all + ForestKeys(node.children[..i]);
      seen', keys' := CollectKeys(node.children[i], seen', keys', before);
      assert node.children[..i + 1][..i] == node.children[..i];
      KeepConcat(keys, ForestList(node.children[..i]), TreeList(node.children[i]));
      assert before + TreeKeys(node.children[i]) == all + ForestKeys(node.children[..i + 1]);
    }
    assert node.children[..|node.children|] == node.children;
  }

  method CollectAggregateKeys(node: RuleNode) returns (keys: seq<AggregateKey>, ghost seen: set<string>)
    ensures OnePerCacheKey(keys, TreeKeys(node)) && Represents(seen, keys, TreeKeys(node))
    ensures keys == KeepAll([], TreeList(node))
  {
    var none: set<string> := {};
    var s, ks := CollectKeys(node, none, [], {});
    assert {} + TreeKeys(node) == TreeKeys(node);
    seen, keys := s, ks;
    RepresentsMeans(seen, keys, TreeKeys(node));
  }

  ghost function Concat(lists: seq<seq<AggregateKey>>): seq<AggregateKey> {
    if lists == [] then [] else Concat(lists[..|lists| - 1]) + lists[|lists| - 1]
  }

  ghost function AllOf(lists: seq<seq<AggregateKey>>): set<AggregateKey> {
    set l, k | l in lists && k in l :: k
  }

  method AddKeys(list: seq<AggregateKey>, seen: set<string>, keys: seq<AggregateKey>, ghost all: set<AggregateKey>)
    returns (seen': set<string>, keys': seq<AggregateKey>)
    requires Represents(seen, keys, all)
    ensures Represents(seen', keys', all + set k | k in list) && keys' == KeepAll(keys, list)
  {
    hide Represents, CacheKey, Keep;
    seen', keys' := seen, keys;
    ghost var done := all;
    for j := 0 to |list|
      invariant done == all + set k | k in list[..j]
      invariant Represents(seen', keys', done) && keys' == KeepAll(keys, list[..j])
    {
      seen', keys' := AddKey(list[j], seen', keys', done);
      assert list[..j + 1] == list[..j] + [list[j]];
      KeepSnoc(keys, list[..j], list[j]);
      done := done + {list[j]};
    }
    assert list[..|list|] == list;
  }

  /** CollectUniqueAggregateKeys, over the key lists of the strategies. */
  method CollectUniqueAggregateKeys(lists: seq<seq<AggregateKey>>)
    returns (keys: seq<AggregateKey>, ghost seen: set<string>)
    ensures OnePerCacheKey(keys, AllOf(lists)) && Represents(seen, keys, AllOf(lists))
    ensures keys == KeepAll([], Concat(lists))
  {
    var s: set<string> := {};
    keys := [];
    NoLists(lists);
    hide *;
    for i := 0 to |lists|
      invariant Represents(s, keys, AllOf(lists[..i])) && keys == KeepAll([], Concat(lists[..i]))
    {
      s, keys := AddKeys(lists[i], s, keys, AllOf(lists[..i]));
      OneMoreList(lists, i);
      KeepConcat([], Concat(lists[..i]), lists[i]);
    }
    assert lists[..|lists|] == lists;
    seen := s;
    RepresentsMeans(seen, keys, AllOf(lists));
  }

  lemma NoLists(lists: seq<seq<AggregateKey>>)
    ensures Represents({}, [], AllOf(lists[..0])) && KeepAll([], Concat(lists[..0])) == []
  {
  }

  lemma OneMoreList(lists: seq<seq<AggregateKey>>, i: nat)
    requires i < |lists|
    ensures AllOf(lists[..i + 1]) == AllOf(lists[..i]) + set k | k in lists[i]
    ensures Concat(lists[..i + 1]) == Concat(lists[..i]) + lists[i]
  {
    assert lists[..i + 1] == lists[..i] + [lists[i]] && lists[..i + 1][..i] == lists[..i];
  }

  /** The longest window, never below 0. */
  method MaxWindowFromKeys(keys: seq<AggregateKey>) returns (max: int)
    ensures max >= 0 && forall k :: k in keys ==> Duration(k.window) <= max
    ensures max == 0 || exists k :: k in keys && Duration(k.window) == max
  {
    max := 0;
    for i := 0 to |keys|
      invariant max >= 0 && forall k :: k in keys[..i] ==> Duration(k.window) <= max
      invariant max == 0 || exists k :: k in keys[..i] && Duration(k.window) == max
    {
      assert keys[..i + 1] == keys[..i] + [keys[i]];
      var d := Duration(keys[i].window);
      if d > max {
        max := d;
        assert keys[i] in keys[..i + 1];
      }
    }
    assert keys[..|keys|] == keys;
  }
}
