/** Small vocabulary shared by every other module: optional values, the string operations the
    rule code uses, and folds over finite sets. */
module Basics {

  datatype Option<+T> = None | Some(value: T)

  function UpperChar(c: char): char {
    if 'a' <= c <= 'z' then (c as int - 'a' as int + 'A' as int) as char else c
  }

  function LowerChar(c: char): char {
    if 'A' <= c <= 'Z' then (c as int - 'A' as int + 'a' as int) as char else c
  }

  /** strings.ToUpper, for ASCII letters. */
  function ToUpper(s: string): (r: string)
    ensures |r| == |s|
    ensures forall i :: 0 <= i < |s| ==> r[i] == UpperChar(s[i])
  {
    seq(|s|, i requires 0 <= i < |s| => UpperChar(s[i]))
  }

  /** strings.ToLower, for ASCII letters. */
  function ToLower(s: string): (r: string)
    ensures |r| == |s|
    ensures forall i :: 0 <= i < |s| ==> r[i] == LowerChar(s[i])
  {
    seq(|s|, i requires 0 <= i < |s| => LowerChar(s[i]))
  }

  /** The position of the first `c` in `s`, or |s| when there is none. */
  function IndexOf(s: string, c: char): (i: nat)
    ensures i <= |s|
    ensures forall j :: 0 <= j < i ==> s[j] != c
    ensures i < |s| ==> s[i] == c
    ensures i == |s| <==> c !in s
  {
    if s == [] then 0
    else if s[0] == c then 0
    else
      assert s == [s[0]] + s[1..];
      1 + IndexOf(s[1..], c)
  }

  predicate NoDuplicates<T(==)>(s: seq<T>) {
    forall i, j :: 0 <= i < j < |s| ==> s[i] != s[j]
  }

  /** `list` names every entry of `m` exactly once; `keys` says in which order. */
  ghost predicate Enumerates<K(!new), V>(list: seq<V>, keys: seq<K>, m: map<K, V>) {
    && |list| == |keys|
    && NoDuplicates(keys)
    && (forall k :: k in keys <==> k in m)
    && (forall i :: 0 <= i < |keys| ==> keys[i] in m && list[i] == m[keys[i]])
  }

  /** Any element of a non-empty set. */
  ghost function Pick<T>(s: set<T>): (x: T)
    requires s != {}
    ensures x in s
  {
    var x :| x in s; x
  }

  /** Any element of a non-empty set: one step of ranging over a Go map. */
  method AnyOf<T(==)>(s: set<T>) returns (x: T)
    requires s != {}
    ensures x in s
  {
    x :| x in s;
  }

  /** The greatest element of a finite set of numbers. */
  ghost function MaxOf(s: set<real>): (r: Option<real>)
    ensures s == {} <==> r.None?
    ensures r.Some? ==> r.value in s && forall x :: x in s ==> x <= r.value
  {
    if s == {} then None
    else
      HasMaximum(s);
      var m :| m in s && forall x :: x in s ==> x <= m;
      Some(m)
  }

  lemma HasMaximum(s: set<real>)
    requires s != {}
    ensures exists m :: m in s && forall x :: x in s ==> x <= m
  {
    var a := Pick(s);
    if s == {a} {
      assert a in s && forall x :: x in s ==> x <= a;
    } else {
      var rest := s - {a};
      HasMaximum(rest);
      var m :| m in rest && forall x :: x in rest ==> x <= m;
      var top := if a <= m then m else a;
      assert forall x :: x in s ==> x == a || x in rest;
      assert top in s && forall x :: x in s ==> x <= top;
    }
  }

  /** The least element of a finite set of numbers. */
  ghost function MinOf(s: set<real>): (r: Option<real>)
    ensures s == {} <==> r.None?
    ensures r.Some? ==> r.value in s && forall x :: x in s ==> r.value <= x
  {
    if s == {} then None
    else
      HasMinimum(s);
      var m :| m in s && forall x :: x in s ==> m <= x;
      Some(m)
  }

  lemma HasMinimum(s: set<real>)
    requires s != {}
    ensures exists m :: m in s && forall x :: x in s ==> m <= x
  {
    var a := Pick(s);
    if s == {a} {
      assert a in s && forall x :: x in s ==> a <= x;
    } else {
      var rest := s - {a};
      HasMinimum(rest);
      var m :| m in rest && forall x :: x in rest ==> m <= x;
      var low := if m <= a then m else a;
      assert forall x :: x in s ==> x == a || x in rest;
      assert low in s && forall x :: x in s ==> low <= x;
    }
  }
}
