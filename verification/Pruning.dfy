/** What pruning costs: the exact conditions under which a bucket, a window query and an aggregate of a
    run agree with the events whatever their order (service/engine/core/aggregation.go). */
module Pruning {
  import opened Basics
  import opened Rules
  import opened Events
  import opened AggregateKeys
  import opened Buckets
  import opened Shards
  import opened Histories

  // ---------- Two events, the second of which prunes the bucket of the first ----------

  /** The second event leaves nothing of the first. */
  lemma PairIsLast(e0: Event, e1: Event, w: int)
    requires w >= 0 && e0.eventID != e1.eventID && Align(e0.occurredAt) < Align(e1.occurredAt - w)
    ensures FoldAll([e0, e1], w) == FoldAll([e1], w)
  {
    hide AddSums, AddMaxs, AddMins, Numbers;
    var t0, t1 := Align(e0.occurredAt), Align(e1.occurredAt);
    AlignMono(e0.occurredAt - w, e0.occurredAt);
    AlignMono(e1.occurredAt - w, e1.occurredAt);
    assert [e0, e1][..1] == [e0] && [e0][..0] == [] && [e1][..0] == [];
    assert FoldAll([e0], w) == map[t0 := Add(EMPTY, e0.eventID, Numbers(e0))];
    assert FoldAll([e1], w) == map[t1 := Add(EMPTY, e1.eventID, Numbers(e1))];
  }

  lemma PairIsNewest(e0: Event, e1: Event)
    requires e0.eventID != e1.eventID && e0.occurredAt <= e1.occurredAt
    ensures Identified([e0, e1]) && Newest([e0, e1]) == e1.occurredAt && EventSet([e0, e1]) == {e0, e1}
    ensures Identified([e1]) && Newest([e1]) == e1.occurredAt && EventSet([e1]) == {e1}
  {
    assert [e0, e1][..1] == [e0];
    assert [e0, e1][0] == e0 && [e0, e1][1] == e1 && [e1][0] == e1;
  }

  /** An event with one number, the first for what is lost, the second for what is kept. */
  function Reading(id: string, m: string, b: string, f: string, x: real, t: int): Event {
    Event(id, m, b, map[f := Num(x, "")], t)
  }

  function LostAmount(kind: string): real { if kind == "MIN" then -1.0 else 1.0 }

  function Lost(kind: string, m: string, b: string, f: string, since: int): Event {
    Reading("e0", m, b, f, LostAmount(kind), since * SECOND)
  }

  function Kept(m: string, b: string, f: string, n: int): Event { Reading("e1", m, b, f, 0.0, n) }

  lemma AlignOfStart(since: int)
    requires since % 60 == 0
    ensures Align(since * SECOND) == since
  {
  }

  lemma AlignIsAligned(t: int)
    ensures Align(t) % 60 == 0
  {
  }

  /** A bucket start below another one lies below it in time. */
  lemma BelowInTime(since: int, n: int, w: int)
    requires w >= 0 && since % 60 == 0 && since < Align(n - w)
    ensures since * SECOND < n && Align(since * SECOND) == since < Align(n)
  {
    AlignOfStart(since);
    AlignMono(n - w, n);
    if since * SECOND >= n { AlignMono(n, since * SECOND); }
  }

  // ---------- Buckets ----------

  /** Whatever the events up to `n` and their order, the bucket holds exactly its distinct events. */
  ghost predicate AlwaysExact(w: int, n: int, ts: int) {
    forall es :: es != [] && Identified(es) && Newest(es) == n ==>
      Exact(At(FoldAll(es, w), ts), EventsAt(EventSet(es), ts))
  }

  /** A bucket can be relied on exactly from the horizon on. */
  lemma BucketIsExactIff(w: int, n: int, ts: int)
    requires w >= 0
    ensures AlwaysExact(w, n, ts) <==> ts >= Align(n - w) || ts % 60 != 0
  {
    if ts >= Align(n - w) {
      forall es | es != [] && Identified(es) && Newest(es) == n
        ensures Exact(At(FoldAll(es, w), ts), EventsAt(EventSet(es), ts))
      {
        BucketsAreExact(es, w, ts);
      }
    } else if ts % 60 != 0 {
      forall es | es != [] && Identified(es) && Newest(es) == n
        ensures Exact(At(FoldAll(es, w), ts), EventsAt(EventSet(es), ts))
      {
        NoUnaligned(es, w, ts);
      }
    } else {
      LostBucket(w, n, ts);
    }
  }

  lemma NoUnaligned(es: seq<Event>, w: int, ts: int)
    requires ts % 60 != 0
    ensures Exact(At(FoldAll(es, w), ts), EventsAt(EventSet(es), ts))
  {
    hide Exact, FoldAll, EventSet;
    UnalignedIsAbsent(es, w, ts);
    assert EventsAt(EventSet(es), ts) == {};
    NothingIsExact();
  }

  lemma NothingIsExact()
    ensures Exact(EMPTY, {})
  {
    forall f ensures ExactField(EMPTY, {}, f) { assert Readings({}, f) == {}; }
    assert (set e: Event | e in {} :: e.eventID) == {};
  }

  lemma {:induction false} UnalignedIsAbsent(es: seq<Event>, w: int, ts: int)
    requires ts % 60 != 0
    ensures ts !in FoldAll(es, w)
    decreases |es|
  {
    hide Add;
    if es != [] { UnalignedIsAbsent(es[..|es| - 1], w, ts); }
  }

  lemma LostBucket(w: int, n: int, ts: int)
    requires w >= 0 && ts % 60 == 0 && ts < Align(n - w)
    ensures !AlwaysExact(w, n, ts)
  {
    var e0, e1 := Lost("COUNT", "m", "b", "f", ts), Kept("m", "b", "f", n);
    BelowInTime(ts, n, w);
    PairIsLast(e0, e1, w);
    PairIsNewest(e0, e1);
    OnlyBucket(e1, w);
    assert e0 in EventsAt(EventSet([e0, e1]), ts);
    assert !Exact(At(FoldAll([e0, e1], w), ts), EventsAt(EventSet([e0, e1]), ts));
  }

  lemma OnlyBucket(e: Event, w: int)
    requires w >= 0
    ensures FoldAll([e], w).Keys == {Align(e.occurredAt)}
  {
    hide Add;
    AlignMono(e.occurredAt - w, e.occurredAt);
    assert [e][..0] == [];
  }

  // ---------- Window queries ----------

  /** Whatever the events up to `n` and their order, the query answers as a scan of them would. */
  ghost predicate AlwaysScans(w: int, n: int, kind: string, f: string, since: int, upper: int) {
    forall es :: es != [] && Identified(es) && Newest(es) == n ==>
      Query(FoldAll(es, w), kind, f, since, upper) == Scan(EventSet(es), kind, f, since, upper)
  }

  /** Each aggregation over a window that is not empty can be relied on exactly when the window starts at
      or after the horizon. */
  lemma QueryIsScanIff(w: int, n: int, kind: string, f: string, since: int, upper: int)
    requires w >= 0 && since % 60 == 0 && kind in AGGREGATIONS
    ensures AlwaysScans(w, n, kind, f, since, upper) <==> since >= Align(n - w) || since > upper
  {
    hide Query, Scan;
    if since >= Align(n - w) {
      forall es | es != [] && Identified(es) && Newest(es) == n
        ensures Query(FoldAll(es, w), kind, f, since, upper) == Scan(EventSet(es), kind, f, since, upper)
      {
        QueryIsScan(es, w, kind, f, since, upper);
      }
    } else if since > upper {
      forall es | es != [] && Identified(es) && Newest(es) == n
        ensures Query(FoldAll(es, w), kind, f, since, upper) == Scan(EventSet(es), kind, f, since, upper)
      {
        EmptyWindow(FoldAll(es, w), EventSet(es), kind, f, since, upper);
      }
    } else {
      var e0, e1 := Lost(kind, "m", "b", f, since), Kept("m", "b", f, n);
      BelowInTime(since, n, w);
      PairIsNewest(e0, e1);
      PairLosesTheFirst(e0, e1, w, kind, f, since, upper);
    }
  }

  lemma EmptyWindow(agg: Agg, es: set<Event>, kind: string, f: string, since: int, upper: int)
    requires since > upper
    ensures Query(agg, kind, f, since, upper) == Scan(es, kind, f, since, upper)
  {
    assert InWindow(agg, since, upper) == {};
    assert (set e | e in es && since <= Align(e.occurredAt) <= upper) == {};
    assert BucketMaxs(agg, {}, f) == {} && BucketMins(agg, {}, f) == {} && Readings({}, f) == {};
  }

  /** The query answers for the second event only. */
  lemma PairLosesTheFirst(e0: Event, e1: Event, w: int, kind: string, f: string, since: int, upper: int)
    requires w >= 0 && since % 60 == 0 && kind in AGGREGATIONS && since < Align(e1.occurredAt - w) && since <= upper
    requires e0 == Lost(kind, e0.memberID, e0.behavior, f, since)
    requires e1 == Kept(e1.memberID, e1.behavior, f, e1.occurredAt)
    ensures Query(FoldAll([e0, e1], w), kind, f, since, upper) != Scan({e0, e1}, kind, f, since, upper)
  {
    hide Query, Scan, FoldAll;
    BelowInTime(since, e1.occurredAt, w);
    PairIsLast(e0, e1, w);
    PairIsNewest(e0, e1);
    OnlyBucket(e1, w);
    AlignMono(e1.occurredAt - w, e1.occurredAt);
    var from := Align(e1.occurredAt - w);
    QuerySkips(FoldAll([e1], w), kind, f, since, from, upper);
    QueryIsScan([e1], w, kind, f, from, upper);
    ScanSkips({e1}, kind, f, since, from, upper);
    ScansDiffer(e0, e1, kind, f, since, upper);
  }

  lemma QuerySkips(agg: Agg, kind: string, f: string, since: int, from: int, upper: int)
    requires since <= from && forall ts :: ts in agg ==> ts >= from
    ensures Query(agg, kind, f, since, upper) == Query(agg, kind, f, from, upper)
  {
    assert InWindow(agg, since, upper) == InWindow(agg, from, upper);
  }

  lemma ScanSkips(es: set<Event>, kind: string, f: string, since: int, from: int, upper: int)
    requires since <= from && forall e :: e in es ==> Align(e.occurredAt) >= from
    ensures Scan(es, kind, f, since, upper) == Scan(es, kind, f, from, upper)
  {
    assert (set e | e in es && since <= Align(e.occurredAt) <= upper)
        == (set e | e in es && from <= Align(e.occurredAt) <= upper);
  }

  /** One event more or less makes a difference to every aggregation. */
  lemma ScansDiffer(e0: Event, e1: Event, kind: string, f: string, since: int, upper: int)
    requires kind in AGGREGATIONS && since <= upper && since < Align(e1.occurredAt) && Align(e0.occurredAt) == since
    requires e0 == Lost(kind, e0.memberID, e0.behavior, f, since)
    requires e1 == Kept(e1.memberID, e1.behavior, f, e1.occurredAt)
    ensures Scan({e0, e1}, kind, f, since, upper) != Scan({e1}, kind, f, since, upper)
  {
    hide *;
    var both, one := PairHits(e0, e1, since, upper);
    ScanOver({e0, e1}, kind, f, since, upper, both);
    ScanOver({e1}, kind, f, since, upper, one);
    KeptTotals(one, e1, f);
    LostFields(e0, kind, f, since);
    LostTotals(one, e0, kind, f);
    FinishDiffers(kind, |one|, LostAmount(kind), MaxOf(Readings(one, f)), MinOf(Readings(one, f)),
                  MaxOf(Readings(both, f)), MinOf(Readings(both, f)));
  }

  lemma LostFields(e0: Event, kind: string, f: string, since: int)
    requires e0 == Lost(kind, e0.memberID, e0.behavior, f, since)
    ensures e0.fields == map[f := Num(LostAmount(kind), "")]
  {
  }

  lemma PairHits(e0: Event, e1: Event, since: int, upper: int) returns (both: set<Event>, one: set<Event>)
    requires since <= upper && since < Align(e1.occurredAt) && Align(e0.occurredAt) == since
    ensures both == set e | e in {e0, e1} && since <= Align(e.occurredAt) <= upper
    ensures one == set e | e in {e1} && since <= Align(e.occurredAt) <= upper
    ensures both == one + {e0} && e0 !in one && one <= {e1}
  {
    hide Align;
    both := set e | e in {e0, e1} && since <= Align(e.occurredAt) <= upper;
    one := set e | e in {e1} && since <= Align(e.occurredAt) <= upper;
  }

  lemma ScanOver(es: set<Event>, kind: string, f: string, since: int, upper: int, hit: set<Event>)
    requires hit == set e | e in es && since <= Align(e.occurredAt) <= upper
    ensures Scan(es, kind, f, since, upper)
         == Finish(kind, |hit|, SumOver(hit, f), MaxOf(Readings(hit, f)), MinOf(Readings(hit, f)))
  {
    hide Align, Finish, SumOver, Readings, MaxOf, MinOf;
  }

  /** What is left adds nothing but to the count. */
  lemma KeptTotals(one: set<Event>, e1: Event, f: string)
    requires one <= {e1} && e1 == Kept(e1.memberID, e1.behavior, f, e1.occurredAt)
    ensures |one| <= 1 && SumOver(one, f) == 0.0 && Readings(one, f) <= {0.0}
  {
    assert Numbers(e1) == map[f := 0.0];
    if one != {} {
      assert one == {} + {e1};
      SumInsert({}, e1, f);
    }
  }

  lemma LostTotals(one: set<Event>, e0: Event, kind: string, f: string)
    requires e0 !in one && Readings(one, f) <= {0.0} && e0.fields == map[f := Num(LostAmount(kind), "")]
    ensures |one + {e0}| == |one| + 1 && SumOver(one + {e0}, f) == SumOver(one, f) + LostAmount(kind)
    ensures kind == "MAX" ==> MaxOf(Readings(one + {e0}, f)) == Some(1.0)
    ensures kind == "MIN" ==> MinOf(Readings(one + {e0}, f)) == Some(-1.0)
    ensures MaxOf(Readings(one, f)) in {None, Some(0.0)} && MinOf(Readings(one, f)) in {None, Some(0.0)}
  {
    assert Numbers(e0) == map[f := LostAmount(kind)];
    SumInsert(one, e0, f);
    ReadingsInsert(one, e0, f);
    hide SumOver, Readings, Numbers;
    if kind == "MAX" { MaxUnique(Readings(one + {e0}, f), 1.0); }
    if kind == "MIN" { MinUnique(Readings(one + {e0}, f), -1.0); }
  }

  lemma FinishDiffers(kind: string, count: nat, x: real, max: Option<real>, min: Option<real>, more: Option<real>,
                      less: Option<real>)
    requires kind in AGGREGATIONS && count <= 1 && x == LostAmount(kind)
    requires max in {None, Some(0.0)} && min in {None, Some(0.0)}
    requires (kind == "MAX" ==> more == Some(1.0)) && (kind == "MIN" ==> less == Some(-1.0))
    ensures Finish(kind, count + 1, 0.0 + x, more, less) != Finish(kind, count, 0.0, max, min)
  {
    if count == 0 { assert (0.0 + x) / 1.0 == x; } else { assert (0.0 + x) / 2.0 != 0.0; }
  }

  // ---------- Aggregates of a run ----------

  /** An on-time event asks for the key at `now` when `n` is the newest event of the key's behaviour. */
  ghost predicate Asks(cfg: Config, es: seq<Event>, e: Event, m: string, key: AggregateKey, n: int, now: int) {
    && Identified(es + [e]) && e.memberID == m && e.occurredAt == now && !Late(Run(cfg, es), e)
    && var own := Own(es + [e], m, ParseAggregateField(key.field).0);
       own != [] && Newest(own) == n
  }

  ghost predicate Answered(cfg: Config, es: seq<Event>, m: string, key: AggregateKey, now: int) {
    AggregateValue(MemberOf(Run(cfg, es).members, m).aggs, key, now) == Scanned(es, m, key, now)
  }

  /** Every run that asks so is answered as a scan of the member's events would. */
  ghost predicate AlwaysAnswered(cfg: Config, m: string, key: AggregateKey, n: int, now: int) {
    forall es, e :: Asks(cfg, es, e, m, key, n, now) ==> Answered(cfg, es + [e], m, key, now)
  }

  /** An aggregate a rule reads on an on-time event can be relied on exactly when its window, if not
      empty, starts at or after the horizon of its behaviour. */
  lemma KeyIsAnsweredIff(cfg: Config, m: string, key: AggregateKey, n: int, now: int)
    requires cfg.maxWindow >= 0 && cfg.lateness >= 0 && now >= 0 && n - cfg.lateness <= now
    requires ParseAggregateField(key.field).1 in AGGREGATIONS
    ensures AlwaysAnswered(cfg, m, key, n, now)
       <==> Since(key.window, now) >= Align(n - cfg.maxWindow) || Since(key.window, now) > Align(now)
  {
    hide *;
    var since, upper := Since(key.window, now), Align(now);
    if since >= Align(n - cfg.maxWindow) || since > upper {
      AnswersInside(cfg, m, key, n, now);
    } else {
      var es, e := LosingRun(cfg, m, key, n, now);
      NotAlways(cfg, es, e, m, key, n, now);
    }
  }

  lemma NotAlways(cfg: Config, es: seq<Event>, e: Event, m: string, key: AggregateKey, n: int, now: int)
    requires Asks(cfg, es, e, m, key, n, now) && !Answered(cfg, es + [e], m, key, now)
    ensures !AlwaysAnswered(cfg, m, key, n, now)
  {
    hide Asks, Answered;
  }

  lemma AnswersInside(cfg: Config, m: string, key: AggregateKey, n: int, now: int)
    requires Since(key.window, now) >= Align(n - cfg.maxWindow) || Since(key.window, now) > Align(now)
    ensures AlwaysAnswered(cfg, m, key, n, now)
  {
    hide Since, Align, Scan, Query, Run, Scanned, AggregateValue, Identified, Own;
    forall es, e | Asks(cfg, es, e, m, key, n, now) ensures Answered(cfg, es + [e], m, key, now) {
      if Since(key.window, now) >= Align(n - cfg.maxWindow) {
        AggregateIsScan(cfg, es + [e], m, key, now);
      } else {
        var (b, kind, f) := ParseAggregateField(key.field);
        AggregateIsQuery(cfg, es + [e], m, key, now);
        EmptyWindow(FoldAll(Own(es + [e], m, b), cfg.maxWindow), EventSet(Own(es + [e], m, b)), kind, f,
                    Since(key.window, now), Align(now));
      }
    }
  }

  /** The event that asks: of the member, but of another behaviour. */
  function Asker(m: string, b: string, now: int): Event { Event("e2", m, b + "x", map[], now) }

  lemma LosingRun(cfg: Config, m: string, key: AggregateKey, n: int, now: int) returns (es: seq<Event>, e: Event)
    requires cfg.maxWindow >= 0 && cfg.lateness >= 0 && now >= 0 && n - cfg.lateness <= now
    requires ParseAggregateField(key.field).1 in AGGREGATIONS
    requires Since(key.window, now) < Align(n - cfg.maxWindow) && Since(key.window, now) <= Align(now)
    ensures Asks(cfg, es, e, m, key, n, now) && !Answered(cfg, es + [e], m, key, now)
  {
    hide Scan, Query, Run, FoldAll, Align, AggregateValue, Scanned, ParseAggregateField, Newest;
    hide Own, EventSet, Since, Late;
    var (b, kind, f) := ParseAggregateField(key.field);
    var since := Since(key.window, now);
    var e0, e1 := Lost(kind, m, b, f, since), Kept(m, b, f, n);
    es, e := [e0, e1], Asker(m, b, now);
    SinceIsAligned(key.window, now);
    BelowInTime(since, n, cfg.maxWindow);
    StartIsPast(since, now);
    PairOnTime(cfg, e0, e1, e);
    OwnPair(e0, e1, e, m, b);
    PairIsNewest(e0, e1);
    AggregateIsQuery(cfg, es + [e], m, key, now);
    PairLosesTheFirst(e0, e1, cfg.maxWindow, kind, f, since, Align(now));
    assert forall i :: 0 <= i < 3 ==> (es + [e])[i] == [e0, e1, e][i];
  }

  lemma SinceIsAligned(w: Option<TimeWindow>, now: int)
    ensures Since(w, now) % 60 == 0
  {
    if w.Some? { AlignIsAligned(now - Duration(w)); }
  }

  lemma StartIsPast(since: int, now: int)
    requires since <= Align(now)
    ensures since * SECOND <= now
  {
  }

  lemma OwnPair(e0: Event, e1: Event, e2: Event, m: string, b: string)
    requires e0.memberID == m && e1.memberID == m && e0.behavior == b && e1.behavior == b && e2.behavior != b
    ensures Own([e0, e1] + [e2], m, b) == [e0, e1]
  {
    assert [e0] == [] + [e0] && [e0, e1] == [e0] + [e1];
    OwnSnoc([], e0, m, b);
    OwnSnoc([e0], e1, m, b);
    OwnSnoc([e0, e1], e2, m, b);
  }

  lemma PairOnTime(cfg: Config, e0: Event, e1: Event, e2: Event)
    requires cfg.lateness >= 0 && e2.occurredAt >= 0
    requires e0.occurredAt <= e2.occurredAt && e1.occurredAt - cfg.lateness <= e2.occurredAt
    ensures !Late(Run(cfg, [e0, e1]), e2)
  {
    WatermarkClosedForm(cfg, true, [e0, e1]);
    hide RunWith;
    assert [e0, e1][..1] == [e0] && [e0][..0] == [];
    assert ClosedForm(cfg, []) == 0;
  }

  /** A key without a window loses whatever has been pruned: it can be relied on only while nothing
      older than the first minute after the epoch has been. */
  lemma WindowlessIsAnsweredIff(cfg: Config, m: string, key: AggregateKey, n: int, now: int)
    requires cfg.maxWindow >= 0 && cfg.lateness >= 0 && now >= 0 && n - cfg.lateness <= now
    requires ParseAggregateField(key.field).1 in AGGREGATIONS && key.window.None?
    ensures AlwaysAnswered(cfg, m, key, n, now) <==> n - cfg.maxWindow < MINUTE
  {
    hide AlwaysAnswered;
    KeyIsAnsweredIff(cfg, m, key, n, now);
  }
}
