/** Time-bucketed aggregation (service/engine/core/aggregation.go) as values, and its agreement with
    a plain scan of the distinct events. */
module Buckets {
  import opened Basics
  import opened Rules
  import opened Events
  import opened AggregateKeys

  datatype Bucket = Bucket(
    count: nat,
    sums: map<string, real>,
    maxs: map<string, real>,
    mins: map<string, real>,
    ids: set<string>)

  /** The buckets of one behaviour, by aligned start second. */
  type Agg = map<int, Bucket>

  const EMPTY := Bucket(0, map[], map[], map[], {})

  /** alignBucket: the start of the minute, in seconds. */
  function Align(t: int): int { t / MINUTE * 60 }

  function At(agg: Agg, ts: int): Bucket { if ts in agg then agg[ts] else EMPTY }

  function Plus(m: map<string, real>, f: string, x: real): real { if f in m then m[f] + x else x }

  function AddSums(m: map<string, real>, nums: map<string, real>): map<string, real> {
    map f | f in m.Keys + nums.Keys :: if f in nums then Plus(m, f, nums[f]) else m[f]
  }

  function AddMaxs(m: map<string, real>, nums: map<string, real>): map<string, real> {
    map f | f in m.Keys + nums.Keys :: if f in nums && (f !in m || nums[f] > m[f]) then nums[f] else m[f]
  }

  function AddMins(m: map<string, real>, nums: map<string, real>): map<string, real> {
    map f | f in m.Keys + nums.Keys :: if f in nums && (f !in m || nums[f] < m[f]) then nums[f] else m[f]
  }

  function Add(b: Bucket, id: string, nums: map<string, real>): Bucket {
    Bucket(b.count + 1, AddSums(b.sums, nums), AddMaxs(b.maxs, nums), AddMins(b.mins, nums), b.ids + {id})
  }

  /** pruneExpiredBuckets */
  function Prune(agg: Agg, occurredAt: int, maxWindow: int): Agg {
    map ts | ts in agg && ts >= Align(occurredAt - maxWindow) :: agg[ts]
  }

  /** updateAggregations, on the buckets of the event's behaviour. */
  function Fold(agg: Agg, e: Event, maxWindow: int): Agg {
    var ts := Align(e.occurredAt);
    if e.eventID in At(agg, ts).ids then agg
    else Prune(agg[ts := Add(At(agg, ts), e.eventID, Numbers(e))], e.occurredAt, maxWindow)
  }

  ghost function FoldAll(es: seq<Event>, maxWindow: int): Agg {
    if es == [] then map[] else Fold(FoldAll(es[..|es| - 1], maxWindow), es[|es| - 1], maxWindow)
  }

  // ---------- The plain scan ----------

  ghost function Amount(e: Event, f: string): real { if f in Numbers(e) then Numbers(e)[f] else 0.0 }

  ghost function SumOver(es: set<Event>, f: string): real {
    if es == {} then 0.0
    else var e := Pick(es); SumOver(es - {e}, f) + Amount(e, f)
  }

  ghost function Readings(es: set<Event>, f: string): set<real> {
    set e | e in es && f in Numbers(e) :: Numbers(e)[f]
  }

  /** The bucket's sum, maximum and minimum of field `f` are those of `es`. */
  ghost predicate ExactField(b: Bucket, es: set<Event>, f: string) {
    && (f in b.sums <==> Readings(es, f) != {})
    && (f in b.maxs <==> Readings(es, f) != {})
    && (f in b.mins <==> Readings(es, f) != {})
    && (f in b.sums ==> b.sums[f] == SumOver(es, f))
    && (f in b.maxs ==> Some(b.maxs[f]) == MaxOf(Readings(es, f)))
    && (f in b.mins ==> Some(b.mins[f]) == MinOf(Readings(es, f)))
  }

  /** The bucket holds exactly the count, sums, maxima, minima and IDs of `es`. */
  ghost predicate Exact(b: Bucket, es: set<Event>) {
    && b.count == |es|
    && b.ids == (set e | e in es :: e.eventID)
    && forall f :: ExactField(b, es, f)
  }

  ghost function EventsAt(es: set<Event>, ts: int): set<Event> {
    set e | e in es && Align(e.occurredAt) == ts
  }

  lemma {:induction false} SumInsert(es: set<Event>, e: Event, f: string)
    requires e !in es
    ensures SumOver(es + {e}, f) == SumOver(es, f) + Amount(e, f)
    decreases |es|
  {
    var x := Pick(es + {e});
    if x == e {
      assert es + {e} - {e} == es;
    } else {
      assert es + {e} - {x} == es - {x} + {e};
      SumInsert(es - {x}, e, f);
      SumInsert(es - {x}, x, f);
      assert es - {x} + {x} == es;
    }
  }

  lemma {:induction false} SumUnion(a: set<Event>, b: set<Event>, f: string)
    requires a !! b
    ensures SumOver(a + b, f) == SumOver(a, f) + SumOver(b, f)
    decreases |b|
  {
    if b == {} {
      assert a + b == a;
    } else {
      var e := Pick(b);
      SumUnion(a, b - {e}, f);
      SumInsert(a + (b - {e}), e, f);
      SumInsert(b - {e}, e, f);
      assert a + (b - {e}) + {e} == a + b && b - {e} + {e} == b;
    }
  }

  lemma NoReadingsNoSum(es: set<Event>, f: string)
    requires Readings(es, f) == {}
    ensures SumOver(es, f) == 0.0
    decreases |es|
  {
    if es != {} {
      var e := Pick(es);
      assert es - {e} + {e} == es;
      ReadingsInsert(es - {e}, e, f);
      NoReadingsNoSum(es - {e}, f);
    }
  }

  lemma ReadingsInsert(es: set<Event>, e: Event, f: string)
    ensures Readings(es + {e}, f) ==
            if f in Numbers(e) then Readings(es, f) + {Numbers(e)[f]} else Readings(es, f)
  {
  }

  lemma AddKeepsExact(b: Bucket, es: set<Event>, e: Event)
    requires Exact(b, es) && e.eventID !in b.ids
    ensures Exact(Add(b, e.eventID, Numbers(e)), es + {e})
  {
    assert e !in es;
    forall f ensures ExactField(Add(b, e.eventID, Numbers(e)), es + {e}, f) {
      assert ExactField(b, es, f);
      AddKeepsField(b, es, e, f);
    }
    IdsInsert(b.ids, es, e);
  }

  lemma AddKeepsField(b: Bucket, es: set<Event>, e: Event, f: string)
    requires ExactField(b, es, f) && e !in es
    ensures ExactField(Add(b, e.eventID, Numbers(e)), es + {e}, f)
  {
    var b', rs := Add(b, e.eventID, Numbers(e)), Readings(es + {e}, f);
    ReadingsInsert(es, e, f);
    SumInsert(es, e, f);
    if f !in b.sums { NoReadingsNoSum(es, f); }
    if f in b'.maxs { MaxUnique(rs, b'.maxs[f]); }
    if f in b'.mins { MinUnique(rs, b'.mins[f]); }
  }

  lemma IdsInsert(ids: set<string>, es: set<Event>, e: Event)
    requires ids == set x | x in es :: x.eventID
    ensures ids + {e.eventID} == set x | x in es + {e} :: x.eventID
  {
  }

  lemma MaxUnique(s: set<real>, m: real)
    requires m in s && forall x :: x in s ==> x <= m
    ensures MaxOf(s) == Some(m)
  {
  }

  lemma MinUnique(s: set<real>, m: real)
    requires m in s && forall x :: x in s ==> m <= x
    ensures MinOf(s) == Some(m)
  {
  }

  // ---------- Refinement over whole event sequences ----------

  ghost function Newest(es: seq<Event>): int
    requires es != []
  {
    if |es| == 1 then es[0].occurredAt
    else
      var n := Newest(es[..|es| - 1]);
      if es[|es| - 1].occurredAt > n then es[|es| - 1].occurredAt else n
  }

  /** Buckets from here on have never been pruned. */
  ghost function Horizon(es: seq<Event>, maxWindow: int): int
    requires es != []
  {
    Align(Newest(es) - maxWindow)
  }

  lemma NewestIsMax(es: seq<Event>, i: nat)
    requires i < |es|
    ensures es[i].occurredAt <= Newest(es)
    decreases |es|
  {
    if i < |es| - 1 { NewestIsMax(es[..|es| - 1], i); }
  }

  lemma AlignMono(s: int, t: int)
    requires s <= t
    ensures Align(s) <= Align(t)
  {
  }

  /** For every sequence, in any order and with any redelivery, each bucket at or after the horizon
      is exactly the bucket of the distinct events that fall in it. */
  lemma {:induction false} BucketsAreExact(es: seq<Event>, maxWindow: int, ts: int)
    requires es != [] && Identified(es) && ts >= Horizon(es, maxWindow)
    ensures Exact(At(FoldAll(es, maxWindow), ts), EventsAt(EventSet(es), ts))
    ensures ts in FoldAll(es, maxWindow) <==> EventsAt(EventSet(es), ts) != {}
    decreases |es|
  {
    var init, e := es[..|es| - 1], es[|es| - 1];
    var agg := FoldAll(init, maxWindow);
    SetSnoc(es);
    AlignMono(e.occurredAt - maxWindow, Newest(es) - maxWindow);
    FoldAt(agg, e, maxWindow, ts);
    if init == [] {
      assert EventSet(init) == {} && EventsAt({}, ts) == {};
      TakenIsExact(At(agg, ts), {}, e, ts);
    } else {
      AlignMono(Newest(init) - maxWindow, Newest(es) - maxWindow);
      BucketsAreExact(init, maxWindow, ts);
      forall x | x in EventSet(init) && x.eventID == e.eventID ensures x == e {
        var i :| 0 <= i < |init| && init[i] == x;
        assert es[i] == x && es[|es| - 1] == e;
      }
      TakenIsExact(At(agg, ts), EventSet(init), e, ts);
    }
  }

  lemma SetSnoc(es: seq<Event>)
    requires es != []
    ensures EventSet(es) == EventSet(es[..|es| - 1]) + {es[|es| - 1]}
  {
    var init := es[..|es| - 1];
    forall x | x in EventSet(es) ensures x in EventSet(init) + {es[|es| - 1]} {
      var i :| 0 <= i < |es| && es[i] == x;
      if i < |es| - 1 { assert init[i] == x; }
    }
    forall x | x in EventSet(init) ensures x in EventSet(es) {
      var i :| 0 <= i < |init| && init[i] == x;
      assert es[i] == x;
    }
  }

  /** The bucket after `e`, when it is not pruned. */
  function Taken(b: Bucket, e: Event, ts: int): Bucket {
    if Align(e.occurredAt) == ts && e.eventID !in b.ids then Add(b, e.eventID, Numbers(e)) else b
  }

  lemma TakenIsExact(b: Bucket, s: set<Event>, e: Event, ts: int)
    requires Exact(b, EventsAt(s, ts))
    requires forall x :: x in s && x.eventID == e.eventID ==> x == e
    ensures Exact(Taken(b, e, ts), EventsAt(s + {e}, ts))
    ensures EventsAt(s + {e}, ts) != {} <==> EventsAt(s, ts) != {} || Taken(b, e, ts) != b
  {
    if Align(e.occurredAt) == ts && e.eventID !in b.ids {
      AddKeepsExact(b, EventsAt(s, ts), e);
      assert EventsAt(s + {e}, ts) == EventsAt(s, ts) + {e};
      assert e in EventsAt(s + {e}, ts);
    } else {
      SameBucket(b, s, e, ts);
    }
  }

  lemma SameBucket(b: Bucket, s: set<Event>, e: Event, ts: int)
    requires b.ids == set x | x in EventsAt(s, ts) :: x.eventID
    requires forall x :: x in s && x.eventID == e.eventID ==> x == e
    requires Align(e.occurredAt) == ts ==> e.eventID in b.ids
    ensures EventsAt(s + {e}, ts) == EventsAt(s, ts)
  {
    if Align(e.occurredAt) == ts {
      var x :| x in EventsAt(s, ts) && x.eventID == e.eventID;
      assert x == e;
    }
  }

  /** A fold changes no bucket it does not prune, except the event's own. */
  lemma FoldAt(agg: Agg, e: Event, maxWindow: int, ts: int)
    requires ts >= Align(e.occurredAt - maxWindow)
    ensures var agg' := Fold(agg, e, maxWindow);
            && At(agg', ts) == Taken(At(agg, ts), e, ts)
            && (ts in agg' <==> ts in agg || Taken(At(agg, ts), e, ts) != At(agg, ts))
  {
  }

  lemma ExactIsUnique(a: Bucket, b: Bucket, es: set<Event>)
    requires Exact(a, es) && Exact(b, es)
    ensures a == b
  {
    forall f
      ensures f in a.sums <==> f in b.sums
      ensures f in a.maxs <==> f in b.maxs
      ensures f in a.mins <==> f in b.mins
      ensures f in a.sums ==> a.sums[f] == b.sums[f]
      ensures f in a.maxs ==> a.maxs[f] == b.maxs[f]
      ensures f in a.mins ==> a.mins[f] == b.mins[f]
    {
      assert ExactField(a, es, f) && ExactField(b, es, f);
    }
    assert a.sums == b.sums && a.maxs == b.maxs && a.mins == b.mins;
  }

  /** Arrival order and redelivery do not matter: the same events give the same buckets. */
  lemma OrderDoesNotMatter(es: seq<Event>, fs: seq<Event>, maxWindow: int, ts: int)
    requires es != [] && fs != [] && Identified(es) && Identified(fs)
    requires EventSet(es) == EventSet(fs)
    requires ts >= Horizon(es, maxWindow)
    ensures Horizon(es, maxWindow) == Horizon(fs, maxWindow)
    ensures ts in FoldAll(es, maxWindow) <==> ts in FoldAll(fs, maxWindow)
    ensures At(FoldAll(es, maxWindow), ts) == At(FoldAll(fs, maxWindow), ts)
  {
    NewestBySet(es, fs);
    NewestBySet(fs, es);
    var a, b, s := FoldAll(es, maxWindow), FoldAll(fs, maxWindow), EventSet(es);
    assert Exact(At(a, ts), EventsAt(s, ts)) by { BucketsAreExact(es, maxWindow, ts); }
    assert Exact(At(b, ts), EventsAt(s, ts)) by { BucketsAreExact(fs, maxWindow, ts); }
    assert ts in a <==> ts in b by { BucketsAreExact(es, maxWindow, ts); BucketsAreExact(fs, maxWindow, ts); }
    ExactIsUnique(At(a, ts), At(b, ts), EventsAt(s, ts));
  }

  lemma NewestBySet(es: seq<Event>, fs: seq<Event>)
    requires es != [] && fs != [] && EventSet(es) <= EventSet(fs)
    ensures Newest(es) <= Newest(fs)
    decreases |es|
  {
    var last := es[|es| - 1];
    assert last in EventSet(es);
    var j :| 0 <= j < |fs| && fs[j] == last;
    NewestIsMax(fs, j);
    if |es| > 1 {
      SetSnoc(es);
      NewestBySet(es[..|es| - 1], fs);
    }
  }

  // ---------- Window queries ----------

  /** parseAggregateField: "Behavior:AGG" or "Behavior:AGG:field". */
  function ParseAggregateField(field: string): (string, string, string) {
    var i := IndexOf(field, ':');
    if i == |field| then ("", "", "")
    else
      var rest := field[i + 1..];
      var j := IndexOf(rest, ':');
      (field[..i], ToUpper(rest[..j]), if j == |rest| then "" else rest[j + 1..])
  }

  /** The first bucket a window reaches; with no window the query starts at the epoch. */
  function Since(w: Option<TimeWindow>, now: int): int {
    if w.None? then 0 else Align(now - Duration(w))
  }

  ghost function InWindow(agg: Agg, since: int, upper: int): set<int> {
    set ts | ts in agg && since <= ts <= upper
  }

  ghost function CountBuckets(agg: Agg, ks: set<int>): nat
    requires ks <= agg.Keys
  {
    if ks == {} then 0 else var k := Pick(ks); CountBuckets(agg, ks - {k}) + agg[k].count
  }

  ghost function SumBuckets(agg: Agg, ks: set<int>, f: string): real
    requires ks <= agg.Keys
  {
    if ks == {} then 0.0
    else var k := Pick(ks); SumBuckets(agg, ks - {k}, f) + (if f in agg[k].sums then agg[k].sums[f] else 0.0)
  }

  ghost function BucketMaxs(agg: Agg, ks: set<int>, f: string): set<real>
    requires ks <= agg.Keys
  {
    set k | k in ks && f in agg[k].maxs :: agg[k].maxs[f]
  }

  ghost function BucketMins(agg: Agg, ks: set<int>, f: string): set<real>
    requires ks <= agg.Keys
  {
    set k | k in ks && f in agg[k].mins :: agg[k].mins[f]
  }

  /** The last switch of computeBucketAggregation. AVG divides by every event of the window, also
      those without the field; MAX and MIN of nothing are 0. */
  function Finish(kind: string, count: nat, sum: real, max: Option<real>, min: Option<real>): real {
    if kind == "COUNT" then count as real
    else if kind == "SUM" then sum
    else if kind == "AVG" then if count == 0 then 0.0 else sum / count as real
    else if kind == "MAX" then if max.None? then 0.0 else max.value
    else if kind == "MIN" then if min.None? then 0.0 else min.value
    else 0.0
  }

  /** What a query over the buckets answers, whatever order they are visited in. */
  ghost function Query(agg: Agg, kind: string, f: string, since: int, upper: int): real {
    var ks := InWindow(agg, since, upper);
    Finish(kind, CountBuckets(agg, ks), SumBuckets(agg, ks, f),
           MaxOf(BucketMaxs(agg, ks, f)), MinOf(BucketMins(agg, ks, f)))
  }

  /** The same question asked of the events themselves. */
  ghost function Scan(es: set<Event>, kind: string, f: string, since: int, upper: int): real {
    var hit := set e | e in es && since <= Align(e.occurredAt) <= upper;
    Finish(kind, |hit|, SumOver(hit, f), MaxOf(Readings(hit, f)), MinOf(Readings(hit, f)))
  }

  ghost function EventsIn(es: set<Event>, ks: set<int>): set<Event> {
    set e | e in es && Align(e.occurredAt) in ks
  }

  ghost predicate AllExact(agg: Agg, es: set<Event>, ks: set<int>) {
    ks <= agg.Keys && forall k :: k in ks ==> Exact(agg[k], EventsAt(es, k))
  }

  lemma {:induction false} TotalsAgree(agg: Agg, es: set<Event>, ks: set<int>, f: string)
    requires AllExact(agg, es, ks)
    ensures CountBuckets(agg, ks) == |EventsIn(es, ks)|
    ensures SumBuckets(agg, ks, f) == SumOver(EventsIn(es, ks), f)
    decreases |ks|
  {
    if ks == {} {
      assert EventsIn(es, ks) == {};
    } else {
      hide Exact, ExactField;
      var k := Pick(ks);
      TotalsAgree(agg, es, ks - {k}, f);
      var rest, here := EventsIn(es, ks - {k}), EventsAt(es, k);
      assert EventsIn(es, ks) == rest + here && rest !! here;
      SumUnion(rest, here, f);
      ExactSum(agg[k], here, f);
    }
  }

  lemma ExactSum(b: Bucket, es: set<Event>, f: string)
    requires Exact(b, es)
    ensures b.count == |es| && SumOver(es, f) == if f in b.sums then b.sums[f] else 0.0
  {
    assert ExactField(b, es, f);
    if f !in b.sums { NoReadingsNoSum(es, f); }
  }

  lemma MaxAgrees(agg: Agg, es: set<Event>, ks: set<int>, f: string)
    requires AllExact(agg, es, ks)
    ensures MaxOf(BucketMaxs(agg, ks, f)) == MaxOf(Readings(EventsIn(es, ks), f))
  {
    var tops, all := BucketMaxs(agg, ks, f), Readings(EventsIn(es, ks), f);
    forall x | x in all ensures exists t :: t in tops && x <= t {
      var e :| e in EventsIn(es, ks) && f in Numbers(e) && Numbers(e)[f] == x;
      var k := Align(e.occurredAt);
      assert ExactField(agg[k], EventsAt(es, k), f);
      assert x in Readings(EventsAt(es, k), f);
      assert agg[k].maxs[f] in tops;
    }
    forall t | t in tops ensures t in all {
      var k :| k in ks && f in agg[k].maxs && agg[k].maxs[f] == t;
      assert ExactField(agg[k], EventsAt(es, k), f);
      assert t in Readings(EventsAt(es, k), f);
    }
    if tops != {} { MaxUnique(all, MaxOf(tops).value); }
  }

  lemma MinAgrees(agg: Agg, es: set<Event>, ks: set<int>, f: string)
    requires AllExact(agg, es, ks)
    ensures MinOf(BucketMins(agg, ks, f)) == MinOf(Readings(EventsIn(es, ks), f))
  {
    var lows, all := BucketMins(agg, ks, f), Readings(EventsIn(es, ks), f);
    forall x | x in all ensures exists t :: t in lows && t <= x {
      var e :| e in EventsIn(es, ks) && f in Numbers(e) && Numbers(e)[f] == x;
      var k := Align(e.occurredAt);
      assert ExactField(agg[k], EventsAt(es, k), f);
      assert x in Readings(EventsAt(es, k), f);
      assert agg[k].mins[f] in lows;
    }
    forall t | t in lows ensures t in all {
      var k :| k in ks && f in agg[k].mins && agg[k].mins[f] == t;
      assert ExactField(agg[k], EventsAt(es, k), f);
      assert t in Readings(EventsAt(es, k), f);
    }
    if lows != {} { MinUnique(all, MinOf(lows).value); }
  }

  /** A window that starts at or after the horizon is answered as a scan of the events would. */
  lemma QueryIsScan(es: seq<Event>, maxWindow: int, kind: string, f: string, since: int, upper: int)
    requires es != [] && Identified(es) && since >= Horizon(es, maxWindow)
    ensures Query(FoldAll(es, maxWindow), kind, f, since, upper) == Scan(EventSet(es), kind, f, since, upper)
  {
    var agg, s := FoldAll(es, maxWindow), EventSet(es);
    var ks := InWindow(agg, since, upper);
    forall k | since <= k ensures k in agg <==> EventsAt(s, k) != {}
                          ensures k in ks ==> Exact(agg[k], EventsAt(s, k))
    {
      BucketsAreExact(es, maxWindow, k);
    }
    TotalsAgree(agg, s, ks, f);
    MaxAgrees(agg, s, ks, f);
    MinAgrees(agg, s, ks, f);
    var hit := set e | e in s && since <= Align(e.occurredAt) <= upper;
    forall e | e in hit ensures e in EventsIn(s, ks) {
      assert e in EventsAt(s, Align(e.occurredAt));
    }
    assert EventsIn(s, ks) == hit;
  }

  /** When `now` is the newest event time, every window no longer than the retention is exact. */
  lemma NewestWindowIsRetained(es: seq<Event>, maxWindow: int, w: TimeWindow)
    requires es != [] && Duration(Some(w)) <= maxWindow
    ensures Since(Some(w), Newest(es)) >= Horizon(es, maxWindow)
  {
    AlignMono(Newest(es) - maxWindow, Newest(es) - Duration(Some(w)));
  }

  /** computeBucketAggregation */
  ghost function AggregateValue(aggs: map<string, Agg>, key: AggregateKey, now: int): real {
    var (behavior, kind, f) := ParseAggregateField(key.field);
    if behavior !in aggs then 0.0
    else Query(aggs[behavior], kind, f, Since(key.window, now), Align(now))
  }
}
