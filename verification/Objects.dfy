/** The heap objects one member is made of (service/engine/core/state.go) and the operations that
    update them in place. Each method is proved against the value it leaves behind. */
module Objects {
  import opened Basics
  import opened Rules
  import opened Events
  import opened AggregateKeys
  import opened Buckets
  import opened Patterns
  import opened Shards

  class BucketData {
    ghost const owner: object // the aggregate that holds this bucket, and where
    ghost const slot: int
    var count: nat
    var sums: map<string, real>
    var maxs: map<string, real>
    var mins: map<string, real>
    var ids: set<string>

    constructor Of(b: Bucket, ghost owner: object, ghost slot: int)
      ensures Value() == b && this.owner == owner && this.slot == slot
    {
      this.owner, this.slot := owner, slot;
      count, sums, maxs, mins, ids := b.count, b.sums, b.maxs, b.mins, b.ids;
    }

    function Value(): Bucket
      reads this
    {
      Bucket(count, sums, maxs, mins, ids)
    }

    /** The field loop of updateAggregations, in whatever order the fields come. */
    method Record(eventID: string, nums: map<string, real>)
      modifies this
      ensures Value() == Add(old(Value()), eventID, nums)
    {
      hide AddSums, AddMaxs, AddMins;
      ids := ids + {eventID};
      count := count + 1;
      var todo := nums.Keys;
      ghost var done: map<string, real> := map[];
      NoFields(sums);
      NoFields(maxs);
      NoFields(mins);
      while todo != {}
        invariant todo <= nums.Keys && done.Keys == nums.Keys - todo && forall f :: f in done ==> done[f] == nums[f]
        invariant count == old(count) + 1 && ids == old(ids) + {eventID}
        invariant sums == AddSums(old(sums), done)
        invariant maxs == AddMaxs(old(maxs), done)
        invariant mins == AddMins(old(mins), done)
        decreases todo
      {
        var f := AnyOf(todo);
        var value := nums[f];
        OneMoreField(old(sums), done, f, value);
        OneMoreField(old(maxs), done, f, value);
        OneMoreField(old(mins), done, f, value);
        sums := sums[f := Plus(sums, f, value)];
        if f !in maxs || value > maxs[f] {
          maxs := maxs[f := value];
        }
        if f !in mins || value < mins[f] {
          mins := mins[f := value];
        }
        todo, done := todo - {f}, done[f := value];
      }
      assert done == nums;
    }
  }

  lemma NoFields(m: map<string, real>)
    ensures AddSums(m, map[]) == m && AddMaxs(m, map[]) == m && AddMins(m, map[]) == m
  {
  }

  /** One more field changes just that field's sum, maximum and minimum. */
  lemma OneMoreField(m: map<string, real>, nums: map<string, real>, f: string, v: real)
    requires f !in nums
    ensures AddSums(m, nums[f := v]) == AddSums(m, nums)[f := Plus(AddSums(m, nums), f, v)]
    ensures var x := AddMaxs(m, nums);
            AddMaxs(m, nums[f := v]) == if f !in x || v > x[f] then x[f := v] else x
    ensures var x := AddMins(m, nums);
            AddMins(m, nums[f := v]) == if f !in x || v < x[f] then x[f := v] else x
  {
    OneMoreSum(m, nums, f, v);
    OneMoreMax(m, nums, f, v);
    OneMoreMin(m, nums, f, v);
  }

  lemma OneMoreSum(m: map<string, real>, nums: map<string, real>, f: string, v: real)
    requires f !in nums
    ensures AddSums(m, nums[f := v]) == AddSums(m, nums)[f := Plus(AddSums(m, nums), f, v)]
  {
  }

  lemma OneMoreMax(m: map<string, real>, nums: map<string, real>, f: string, v: real)
    requires f !in nums
    ensures var x := AddMaxs(m, nums);
            AddMaxs(m, nums[f := v]) == if f !in x || v > x[f] then x[f := v] else x
  {
  }

  lemma OneMoreMin(m: map<string, real>, nums: map<string, real>, f: string, v: real)
    requires f !in nums
    ensures var x := AddMins(m, nums);
            AddMins(m, nums[f := v]) == if f !in x || v < x[f] then x[f := v] else x
  {
  }

  lemma CountInsert(agg: Agg, ks: set<int>, k: int)
    requires ks <= agg.Keys && k in agg && k !in ks
    ensures CountBuckets(agg, ks + {k}) == CountBuckets(agg, ks) + agg[k].count
    decreases |ks|
  {
    var x := Pick(ks + {k});
    if x == k {
      assert ks + {k} - {k} == ks;
    } else {
      assert ks + {k} - {x} == ks - {x} + {k};
      CountInsert(agg, ks - {x}, k);
      CountInsert(agg, ks - {x}, x);
      assert ks - {x} + {x} == ks;
    }
  }

  lemma SumBucketsInsert(agg: Agg, ks: set<int>, k: int, f: string)
    requires ks <= agg.Keys && k in agg && k !in ks
    ensures SumBuckets(agg, ks + {k}, f) == SumBuckets(agg, ks, f) + (if f in agg[k].sums then agg[k].sums[f] else 0.0)
    decreases |ks|
  {
    var x := Pick(ks + {k});
    if x == k {
      assert ks + {k} - {k} == ks;
    } else {
      assert ks + {k} - {x} == ks - {x} + {k};
      SumBucketsInsert(agg, ks - {x}, k, f);
      SumBucketsInsert(agg, ks - {x}, x, f);
      assert ks - {x} + {x} == ks;
    }
  }

  /** The running answer of a window query: what it is after the buckets `ks`. */
  datatype Totals = Totals(count: nat, sum: real, max: Option<real>, min: Option<real>)

  ghost predicate TotalsOf(t: Totals, agg: Agg, ks: set<int>, f: string)
    requires ks <= agg.Keys
  {
    && t.count == CountBuckets(agg, ks)
    && t.sum == SumBuckets(agg, ks, f)
    && t.max == MaxOf(BucketMaxs(agg, ks, f))
    && t.min == MinOf(BucketMins(agg, ks, f))
  }

  lemma TotalsMean(t: Totals, agg: Agg, ks: set<int>, f: string)
    requires ks <= agg.Keys && TotalsOf(t, agg, ks, f)
    ensures t == Totals(CountBuckets(agg, ks), SumBuckets(agg, ks, f),
                        MaxOf(BucketMaxs(agg, ks, f)), MinOf(BucketMins(agg, ks, f)))
  {
  }

  function Absorb(t: Totals, b: Bucket, f: string): Totals {
    Totals(
      t.count + b.count,
      if f in b.sums then t.sum + b.sums[f] else t.sum,
      if f in b.maxs && (t.max.None? || b.maxs[f] > t.max.value) then Some(b.maxs[f]) else t.max,
      if f in b.mins && (t.min.None? || b.mins[f] < t.min.value) then Some(b.mins[f]) else t.min)
  }

  lemma AbsorbMax(max: Option<real>, hi: set<real>, x: real)
    requires max == MaxOf(hi)
    ensures MaxOf(hi + {x}) == if max.None? || x > max.value then Some(x) else max
  {
    MaxUnique(hi + {x}, if max.None? || x > max.value then x else max.value);
  }

  lemma AbsorbMin(min: Option<real>, lo: set<real>, x: real)
    requires min == MinOf(lo)
    ensures MinOf(lo + {x}) == if min.None? || x < min.value then Some(x) else min
  {
    MinUnique(lo + {x}, if min.None? || x < min.value then x else min.value);
  }

  lemma AbsorbKeepsTotals(t: Totals, agg: Agg, ks: set<int>, k: int, f: string)
    requires ks <= agg.Keys && k in agg && k !in ks && TotalsOf(t, agg, ks, f)
    ensures TotalsOf(Absorb(t, agg[k], f), agg, ks + {k}, f)
  {
    CountInsert(agg, ks, k);
    SumBucketsInsert(agg, ks, k, f);
    var hi, lo := BucketMaxs(agg, ks, f), BucketMins(agg, ks, f);
    assert BucketMaxs(agg, ks + {k}, f) == if f in agg[k].maxs then hi + {agg[k].maxs[f]} else hi;
    assert BucketMins(agg, ks + {k}, f) == if f in agg[k].mins then lo + {agg[k].mins[f]} else lo;
    if f in agg[k].maxs { AbsorbMax(t.max, hi, agg[k].maxs[f]); }
    if f in agg[k].mins { AbsorbMin(t.min, lo, agg[k].mins[f]); }
  }

  class BehaviorAgg {
    ghost const owner: object // the member that holds this aggregate, and where
    ghost const slot: string
    var buckets: map<int, BucketData>

    constructor (ghost owner: object, ghost slot: string)
      ensures buckets == map[] && this.owner == owner && this.slot == slot
    {
      this.owner, this.slot := owner, slot;
      buckets := map[];
    }

    /** A deep copy: fresh buckets with the contents of `v`. */
    constructor Of(v: Agg, ghost owner: object, ghost slot: string)
      ensures Valid() && Value() == v && fresh(Parts()) && this.owner == owner && this.slot == slot
    {
      this.owner, this.slot := owner, slot;
      buckets := map[];
      new;
      var todo := v.Keys;
      while todo != {}
        invariant todo <= v.Keys && buckets.Keys <= v.Keys && forall ts :: ts in v ==> ts in todo || ts in buckets
        invariant Valid() && forall ts :: ts in buckets ==> fresh(buckets[ts]) && buckets[ts].Value() == v[ts]
        decreases todo
      {
        var ts := AnyOf(todo);
        var b := new BucketData.Of(v[ts], this, ts);
        buckets := buckets[ts := b];
        todo := todo - {ts};
      }
      assert forall ts :: ts in v ==> ts in buckets;
      assert forall ts :: ts in buckets ==> ts in v && buckets[ts].Value() == v[ts];
      assert Value() == v;
    }

    ghost function Parts(): set<BucketData>
      reads this
    {
      set ts | ts in buckets :: buckets[ts]
    }

    /** Each bucket belongs to this aggregate, under its own key: no bucket is shared. */
    ghost predicate Valid()
      reads this
    {
      forall ts :: ts in buckets ==> buckets[ts].owner == this && buckets[ts].slot == ts
    }

    function Value(): Agg
      reads this, Parts()
    {
      map ts | ts in buckets :: buckets[ts].Value()
    }

    /** updateAggregations below the behaviour: find or make the bucket, skip a duplicate, record, prune. */
    method Update(e: Event, maxWindow: int)
      requires Valid()
      modifies this, Parts()
      ensures Valid() && Value() == Fold(old(Value()), e, maxWindow)
      ensures fresh(Parts() - old(Parts()))
    {
      hide Prune;
      var ts := Align(e.occurredAt);
      if ts in buckets && e.eventID in buckets[ts].ids {
        return;
      }
      EnsureBucket(ts);
      RecordIn(ts, e);
      assert Value() == old(Value())[ts := Add(At(old(Value()), ts), e.eventID, Numbers(e))];
      PruneExpired(e.occurredAt, maxWindow);
    }

    method EnsureBucket(ts: int)
      requires Valid()
      modifies this
      ensures Valid() && fresh(Parts() - old(Parts())) && ts in buckets
      ensures Value() == old(Value())[ts := At(old(Value()), ts)]
    {
      if ts !in buckets {
        var b := new BucketData.Of(EMPTY, this, ts);
        buckets := buckets[ts := b];
      }
    }

    method RecordIn(ts: int, e: Event)
      requires Valid() && ts in buckets
      modifies buckets[ts]
      ensures Value() == old(Value())[ts := Add(old(Value())[ts], e.eventID, Numbers(e))]
    {
      hide Add;
      buckets[ts].Record(e.eventID, Numbers(e));
      assert forall t :: t in buckets && t != ts ==> buckets[t].Value() == old(Value())[t];
    }

    method PruneExpired(occurredAt: int, maxWindow: int)
      requires Valid()
      modifies this
      ensures Valid() && Value() == Prune(old(Value()), occurredAt, maxWindow)
      ensures Parts() <= old(Parts())
    {
      var cutoff := Align(occurredAt - maxWindow);
      var todo := buckets.Keys;
      while todo != {}
        invariant todo <= buckets.Keys <= old(buckets).Keys
        invariant forall ts :: ts in buckets ==> buckets[ts] == old(buckets)[ts]
        invariant forall ts :: ts in old(buckets) && ts !in buckets ==> ts < cutoff
        invariant forall ts :: ts in buckets && ts !in todo ==> ts >= cutoff
        decreases todo
      {
        var ts := AnyOf(todo);
        todo := todo - {ts};
        if ts < cutoff {
          buckets := buckets - {ts};
        }
      }
      assert forall ts :: ts in buckets ==> buckets[ts].Value() == old(buckets[ts].Value());
    }

    /** computeBucketAggregation below the behaviour, folding the buckets in any order. */
    method Answer(kind: string, f: string, since: int, upper: int) returns (r: real)
      ensures r == Query(Value(), kind, f, since, upper)
    {
      ghost var agg := Value();
      var t := Totals(0, 0.0, None, None);
      var todo := buckets.Keys;
      ghost var done: set<int> := {};
      assert BucketMaxs(agg, {}, f) == {} && BucketMins(agg, {}, f) == {};
      while todo != {}
        invariant todo <= buckets.Keys == agg.Keys && done <= agg.Keys && done == InWindow(agg, since, upper) - todo
        invariant agg == Value() && TotalsOf(t, agg, done, f)
        decreases todo
      {
        hide TotalsOf, Absorb;
        var ts := AnyOf(todo);
        todo := todo - {ts};
        if since <= ts <= upper {
          AbsorbKeepsTotals(t, agg, done, ts, f);
          t := Absorb(t, buckets[ts].Value(), f);
          done := done + {ts};
        }
      }
      assert done == InWindow(agg, since, upper);
      TotalsMean(t, agg, done, f);
      r := Finish(kind, t.count, t.sum, t.max, t.min);
    }
  }

  class PatternProgress {
    ghost const owner: object // the member that holds this progress, and where
    ghost const slot: string
    var id: string
    var patternID: string
    var memberID: string
    var currentStep: nat
    var variables: map<string, Value>
    var startedAt: int
    var processedEvents: seq<string>
    var negativeDeadline: int

    constructor Of(p: Progress, ghost owner: object, ghost slot: string)
      ensures Value() == p && this.owner == owner && this.slot == slot
    {
      this.owner, this.slot := owner, slot;
      id, patternID, memberID, currentStep := p.id, p.patternID, p.memberID, p.currentStep;
      variables, startedAt, processedEvents := p.variables, p.startedAt, p.processedEvents;
      negativeDeadline := p.negativeDeadline;
    }

    function Value(): Progress
      reads this
    {
      Progress(id, patternID, memberID, currentStep, variables, startedAt, processedEvents, negativeDeadline)
    }
  }

  class MemberState {
    const memberID: string
    const version: nat // the epoch this object was created or cloned in
    var aggregations: map<string, BehaviorAgg>
    var progresses: map<string, PatternProgress>
    var lastSeenAt: int

    ghost function Aggs(): set<BehaviorAgg>
      reads this`aggregations
    {
      set b | b in aggregations :: aggregations[b]
    }

    ghost function Buckets(): set<BucketData>
      reads this`aggregations, Aggs()
    {
      set b, ts | b in aggregations && ts in aggregations[b].buckets :: aggregations[b].buckets[ts]
    }

    ghost function Progs(): (s: set<PatternProgress>)
      reads this`progresses
      ensures forall p :: p in progresses ==> progresses[p] in s
    {
      set p | p in progresses :: progresses[p]
    }

    /** Everything the member is made of. */
    ghost function Footprint(): set<object>
      reads this`aggregations, this`progresses, Aggs()
    {
      {this} + Aggs() + Buckets() + Progs()
    }

    /** Each part belongs to this member, under its own key: no part is shared. */
    ghost predicate Valid()
      reads this, Aggs()
    {
      && (forall b :: b in aggregations ==>
            aggregations[b].owner == this && aggregations[b].slot == b && aggregations[b].Valid())
      && (forall p :: p in progresses ==> progresses[p].owner == this && progresses[p].slot == p)
    }

    function Value(): Member
      reads this, Footprint()
    {
      Member(memberID, AggValues(), ProgressValues(), lastSeenAt)
    }

    function AggValues(): map<string, Agg>
      reads this`aggregations, Aggs(), Buckets()
    {
      map b | b in aggregations :: aggregations[b].Value()
    }

    function ProgressValues(): (m: map<string, Progress>)
      reads this`progresses, Progs()
      ensures m.Keys == progresses.Keys
    {
      map p | p in progresses :: progresses[p].Value()
    }

    constructor New(memberID: string, version: nat)
      ensures Valid() && Footprint() == {this} && this.memberID == memberID && this.version == version
      ensures Value() == NewMember(memberID)
    {
      this.memberID := memberID;
      this.version := version;
      aggregations, progresses, lastSeenAt := map[], map[], ZERO_TIME;
    }

    /** clone: a deep copy, so that writing the copy leaves the original alone. Also how a decoded
        snapshot becomes objects again. */
    constructor Of(v: Member, version: nat)
      ensures Valid() && Value() == v && fresh(Footprint()) && this.memberID == v.memberID && this.version == version
    {
      this.memberID := v.memberID;
      this.version := version;
      aggregations, progresses, lastSeenAt := map[], map[], v.lastSeen;
      new;
      CopyParts(v);
      BucketsAreParts();
    }

    method CopyParts(v: Member)
      requires Valid() && aggregations == map[] && progresses == map[]
      modifies this`aggregations, this`progresses
      ensures Valid() && AggValues() == v.aggs && ProgressValues() == v.progresses && fresh(Progs())
      ensures forall b :: b in aggregations ==> fresh(aggregations[b]) && fresh(aggregations[b].Parts())
    {
      hide BehaviorAgg.Valid, BehaviorAgg.Value;
      CopyAggregations(v.aggs);
      CopyProgresses(v.progresses);
    }

    lemma BucketsAreParts()
      ensures forall o :: o in Buckets() ==> exists b :: b in aggregations && o in aggregations[b].Parts()
    {
    }

    method CopyAggregations(aggs: map<string, Agg>)
      requires Valid() && aggregations == map[]
      modifies this`aggregations
      ensures Valid() && AggValues() == aggs
      ensures forall b :: b in aggregations ==> fresh(aggregations[b]) && fresh(aggregations[b].Parts())
    {
      var todo := aggs.Keys;
      while todo != {}
        invariant todo <= aggs.Keys && aggregations.Keys == aggs.Keys - todo
        invariant Valid() && forall b :: b in aggregations ==> IsCopy(aggregations[b], aggs[b])
        invariant forall b :: b in aggregations ==> fresh(aggregations[b]) && fresh(aggregations[b].Parts())
        decreases todo
      {
        var b := AnyOf(todo);
        PutCopy(b, aggs[b]);
        todo := todo - {b};
      }
      assert forall b :: b in aggregations ==> IsCopy(aggregations[b], aggs[b]);
    }

    method PutCopy(b: string, v: Agg)
      requires Valid() && b !in aggregations
      modifies this`aggregations
      ensures Valid() && b in aggregations && aggregations == old(aggregations)[b := aggregations[b]]
      ensures fresh(aggregations[b]) && fresh(aggregations[b].Parts()) && IsCopy(aggregations[b], v)
    {
      var a := new BehaviorAgg.Of(v, this, b);
      aggregations := aggregations[b := a];
    }

    ghost predicate IsCopy(a: BehaviorAgg, v: Agg)
      reads a, a.Parts()
    {
      a.Value() == v
    }

    method CopyProgresses(progs: map<string, Progress>)
      requires Valid() && progresses == map[]
      modifies this`progresses
      ensures Valid() && fresh(Progs()) && ProgressValues() == progs
    {
      var todo := progs.Keys;
      while todo != {}
        invariant todo <= progs.Keys && progresses.Keys == progs.Keys - todo
        invariant Valid() && forall p :: p in progresses ==> fresh(progresses[p]) && progresses[p].Value() == progs[p]
        decreases todo
      {
        var p := AnyOf(todo);
        var o := new PatternProgress.Of(progs[p], this, p);
        progresses := progresses[p := o];
        todo := todo - {p};
      }
    }

    /** updateAggregations */
    method UpdateAggregations(e: Event, maxWindow: int)
      requires Valid()
      modifies this`aggregations, Aggs(), Buckets()
      ensures Valid() && fresh(Aggs() - old(Aggs())) && fresh(Buckets() - old(Buckets()))
      ensures AggValues() == old(AggValues())[e.behavior :=
                Fold(if e.behavior in old(AggValues()) then old(AggValues())[e.behavior] else map[], e, maxWindow)]
    {
      hide Fold, AggValues;
      EnsureBehavior(e.behavior);
      UpdateBehavior(e, maxWindow);
    }

    method EnsureBehavior(b: string)
      requires Valid()
      modifies this`aggregations
      ensures Valid() && fresh(Aggs() - old(Aggs())) && Buckets() == old(Buckets())
      ensures b in aggregations
      ensures AggValues() == if b in old(AggValues()) then old(AggValues()) else old(AggValues())[b := map[]]
    {
      if b !in aggregations {
        var a := new BehaviorAgg(this, b);
        aggregations := aggregations[b := a];
        assert a.Value() == map[];
        assert forall c :: c in old(aggregations) ==>
          aggregations[c] == old(aggregations)[c] && aggregations[c].Value() == old(aggregations[c].Value());
      }
    }

    method UpdateBehavior(e: Event, maxWindow: int)
      requires Valid() && e.behavior in aggregations
      modifies aggregations[e.behavior], aggregations[e.behavior].Parts()
      ensures Valid() && fresh(Buckets() - old(Buckets()))
      ensures AggValues() == old(AggValues())[e.behavior := Fold(old(AggValues())[e.behavior], e, maxWindow)]
    {
      hide Fold;
      var agg := aggregations[e.behavior];
      agg.Update(e, maxWindow);
      assert forall c :: c in aggregations && c != e.behavior ==> aggregations[c].slot == c;
      OthersUntouched(e.behavior);
    }

    /** Work on the aggregate of behaviour `b` leaves the others as they were. */
    twostate lemma OthersUntouched(b: string)
      requires old(Valid()) && b in aggregations && aggregations == old(aggregations)
      requires forall c :: c in aggregations && c != b ==> unchanged(aggregations[c])
      requires forall o :: o in old(Buckets()) && o !in old(aggregations[b].Parts()) ==> unchanged(o)
      ensures forall c :: c in aggregations && c != b ==>
        aggregations[c].Valid() && aggregations[c].Value() == old(aggregations[c].Value())
    {
      forall c | c in aggregations && c != b
        ensures aggregations[c].Valid() && aggregations[c].Value() == old(aggregations[c].Value())
      {
        var agg, other := aggregations[b], aggregations[c];
        assert agg.slot == b && other.slot == c;
        assert forall t :: t in other.buckets ==>
          other.buckets[t] in old(Buckets()) && other.buckets[t] !in old(agg.Parts());
      }
    }

    /** The unconditional part of ProcessEvent. */
    method Accumulate(e: Event, maxWindow: int)
      requires Valid()
      modifies this`aggregations, this`lastSeenAt, Aggs(), Buckets()
      ensures Valid() && Value() == WithEvent(old(Value()), e, maxWindow)
      ensures forall o :: o in Footprint() ==> o in old(Footprint()) || fresh(o)
    {
      hide Fold, Valid, Footprint, AggValues, ProgressValues;
      UpdateAlone(e, maxWindow);
      SeenAt(e.occurredAt);
    }

    method UpdateAlone(e: Event, maxWindow: int)
      requires Valid()
      modifies this`aggregations, Aggs(), Buckets()
      ensures Valid() && forall o :: o in Footprint() ==> o in old(Footprint()) || fresh(o)
      ensures ProgressValues() == old(ProgressValues())
      ensures AggValues() == old(AggValues())[e.behavior :=
                Fold(if e.behavior in old(AggValues()) then old(AggValues())[e.behavior] else map[], e, maxWindow)]
    {
      hide Fold, AggValues, ProgressValues, Valid;
      UpdateAggregations(e, maxWindow);
      ProgressesKept();
    }

    method SeenAt(t: int)
      requires Valid()
      modifies this`lastSeenAt
      ensures Valid() && Footprint() == old(Footprint())
      ensures AggValues() == old(AggValues()) && ProgressValues() == old(ProgressValues())
      ensures lastSeenAt == Later(old(lastSeenAt), t)
    {
      lastSeenAt := Later(lastSeenAt, t);
      AggsKept();
      ProgressesKept();
      hide AggValues, ProgressValues;
    }

    /** Work on the aggregations leaves the progresses as they were. */
    twostate lemma ProgressesKept()
      requires progresses == old(progresses) && forall o :: o in old(Progs()) ==> unchanged(o)
      ensures ProgressValues() == old(ProgressValues()) && Progs() == old(Progs())
    {
      hide ProgressValues;
    }

    /** Work on the progresses leaves the aggregations as they were. */
    twostate lemma AggsKept()
      requires aggregations == old(aggregations)
      requires (forall o :: o in old(Aggs()) ==> unchanged(o)) && forall o :: o in old(Buckets()) ==> unchanged(o)
      ensures Aggs() == old(Aggs()) && Buckets() == old(Buckets()) && AggValues() == old(AggValues())
    {
      hide AggValues;
    }

    /** What is left to say once only the progresses were worked on. */
    twostate lemma ProgressesOnly(new v: map<string, Progress>)
      requires aggregations == old(aggregations) && lastSeenAt == old(lastSeenAt) && ProgressValues() == v
      requires (forall o :: o in old(Aggs()) ==> unchanged(o)) && forall o :: o in old(Buckets()) ==> unchanged(o)
      ensures old(Value()).progresses == old(ProgressValues()) && Value() == old(Value()).(progresses := v)
      ensures forall o :: o in Footprint() ==> o in old(Footprint()) || o in Progs()
    {
      AggsKept();
      hide AggValues, ProgressValues, Aggs, Buckets, Progs;
    }

    lemma AggsAreAlive()
      ensures (forall o :: o in Aggs() ==> allocated(o)) && forall o :: o in Buckets() ==> allocated(o)
    {
    }

    lemma ProgressesArePart()
      ensures this in Footprint() && forall o :: o in Progs() ==> o in Footprint()
    {
    }

    lemma ProgressAt(id: string)
      requires id in progresses
      ensures ProgressValues()[id] == progresses[id].Value()
    {
    }

    /** Work on one progress leaves the others as they were. */
    twostate lemma OneProgress(id: string)
      requires old(Valid()) && id in progresses && progresses == old(progresses) && aggregations == old(aggregations)
      requires forall o :: o in old(Aggs()) ==> unchanged(o)
      requires forall o :: o in old(Progs()) && o != old(progresses[id]) ==> unchanged(o)
      ensures Valid() && ProgressValues() == old(ProgressValues())[id := progresses[id].Value()]
    {
      forall x | x in progresses ensures x == id || unchanged(progresses[x]) {
        assert progresses[x] in old(Progs()) && progresses[x].slot == x && progresses[id].slot == id;
      }
      assert forall b :: b in aggregations ==> aggregations[b] in old(Aggs()) && old(aggregations[b].Valid());
    }

    /** computeBucketAggregation */
    method Aggregate(key: AggregateKey, now: int) returns (r: real)
      ensures r == AggregateValue(AggValues(), key, now)
    {
      var (behavior, kind, f) := ParseAggregateField(key.field);
      if behavior !in aggregations {
        return 0.0;
      }
      r := aggregations[behavior].Answer(kind, f, Since(key.window, now), Align(now));
    }
  }
}
