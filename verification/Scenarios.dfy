/** Runs built to bring a pattern to a chosen state: events of one member that satisfy its states one
    after the other, at any times that leave it alive, or all at one time. */
module Scenarios {
  import opened Basics
  import opened Rules
  import opened Events
  import opened Patterns
  import opened Shards
  import opened Invariants
  import opened Witnesses
  import opened NegativeExits
  import opened Reopenings

  /** Events of one member that climb the first states of the pattern. */
  ghost predicate Rungs(pat: Pattern, c: seq<Event>, m: string) {
    Chain(pat, c) && forall j :: 0 <= j < |c| ==> c[j].memberID == m
  }

  /** The same, all at time `t`. */
  ghost predicate Ladder(pat: Pattern, c: seq<Event>, m: string, t: int) {
    Rungs(pat, c, m) && forall j :: 0 <= j < |c| ==> c[j].occurredAt == t
  }

  function IDs(c: seq<Event>): (ids: seq<string>)
    ensures |ids| == |c| && forall j :: 0 <= j < |c| ==> ids[j] == c[j].eventID
  {
    seq(|c|, j requires 0 <= j < |c| => c[j].eventID)
  }

  /** The progress of `pat` when `c` are the events that built it. */
  ghost function Standing(pat: Pattern, c: seq<Event>): Progress
    requires 0 < |c| < |pat.states|
  {
    Progress(
      ProgressID(pat.id, c[0].memberID, c[0].eventID), pat.id, c[0].memberID, |c|, VarsAfter(pat, c), c[0].occurredAt,
      IDs(c),
      if pat.states[|c|].isNegative then c[0].occurredAt + Duration(pat.states[|c|].maxWait) else ZERO_TIME)
  }

  lemma StandingStarts(pat: Pattern, e: Event)
    requires |pat.states| >= 2
    ensures Standing(pat, [e]) == NewProgress(pat, e)
  {
    assert [e][..0] == [] && VarsAfter(pat, [e]) == map[] + Bindings(e, pat.states[0].contextBinding);
    assert map[] + Bindings(e, pat.states[0].contextBinding) == Bindings(e, pat.states[0].contextBinding);
    assert IDs([e]) == [e.eventID];
  }

  /** The next rung moves the progress one state up. */
  lemma RungMoves(ps: seq<Pattern>, pat: Pattern, c: seq<Event>, m: string)
    requires Proper(ps) && pat in ps && Rungs(pat, c, m) && 1 < |c| < |pat.states|
    ensures var e, o := c[|c| - 1], Advance(ps, c[|c| - 1], Standing(pat, c[..|c| - 1]));
            Stays(o) && o.progress == Standing(pat, c)
  {
    hide Satisfies;
    var k := |c| - 1;
    var p, e := Standing(pat, c[..k]), c[k];
    FindsItself(ps, pat);
    assert ChainAt(pat, c, k);
    NoNegativeWaits(ps, pat, k);
    assert e.eventID !in IDs(c[..k]);
    assert IDs(c) == IDs(c[..k]) + [e.eventID];
  }

  lemma NoNegativeWaits(ps: seq<Pattern>, pat: Pattern, k: nat)
    requires Proper(ps) && pat in ps && k < |pat.states|
    ensures Duration(pat.states[k].maxWait) >= 0
  {
    var i :| 0 <= i < |ps| && ps[i] == pat;
    assert Duration(ps[i].states[k].maxWait) >= 0;
  }

  /** The last rung of a pattern without a negative state completes it. */
  lemma LastRungCompletes(ps: seq<Pattern>, pat: Pattern, c: seq<Event>, e: Event)
    requires Proper(ps) && pat in ps && 0 < |c| && |c| + 1 == |pat.states| && e.eventID !in IDs(c)
    requires var st := pat.states[|c|];
             && !st.isNegative && Satisfies(e, st.condition, VarsAfter(pat, c))
             && (st.maxWait.Some? ==> e.occurredAt <= c[0].occurredAt + Duration(st.maxWait))
    ensures Advance(ps, e, Standing(pat, c)).Complete?
  {
    hide Satisfies;
    FindsItself(ps, pat);
  }

  /** When rung `j` is processed it is on time, the attempt is not swept, and a deadline it parks on is
      not passed at once. */
  ghost predicate RungInTime(cfg: Config, s: Shard, pat: Pattern, c: seq<Event>, j: nat)
    requires j < |c|
  {
    && !Late(s, c[j])
    && (j > 0 && MaxWait(pat.states) > 0 ==> Reached(cfg, s, c[j]) - c[0].occurredAt <= MaxWait(pat.states))
    && (j + 1 < |pat.states| && pat.states[j + 1].isNegative ==>
          Reached(cfg, s, c[j]) <= c[0].occurredAt + Duration(pat.states[j + 1].maxWait))
  }

  ghost predicate InTime(cfg: Config, sweep: bool, es: seq<Event>, pat: Pattern, c: seq<Event>) {
    forall j :: 0 <= j < |c| ==> RungInTime(cfg, RunWith(cfg, sweep, es + c[..j]), pat, c, j)
  }

  /** Completeness of the matching: after any history that left no such progress, events satisfying the
      states of a pattern in turn, at any times that leave it alive, build exactly its progress. */
  lemma {:induction false} Climb(cfg: Config, sweep: bool, es: seq<Event>, pat: Pattern, c: seq<Event>, m: string)
    requires Proper(cfg.patterns) && cfg.lateness >= 0 && pat in cfg.patterns
    requires Rungs(pat, c, m) && |c| < |pat.states| && InTime(cfg, sweep, es, pat, c)
    requires !Stored(RunWith(cfg, sweep, es), m, ProgressID(pat.id, m, c[0].eventID))
    ensures var s, pid := RunWith(cfg, sweep, es + c), ProgressID(pat.id, m, c[0].eventID);
            Stored(s, m, pid) && StoredAt(s, m, pid) == Standing(pat, c)
    decreases |c|
  {
    hide RunWith, NextWith, Satisfies, ProgressID, Standing, Chain, Proper, RungInTime;
    RungsShrink(pat, c, m);
    var k := |c| - 1;
    var e, pid := c[k], ProgressID(pat.id, m, c[0].eventID);
    RunWithSnoc(cfg, sweep, es + c[..k], e);
    assert es + c[..k] + [e] == es + c;
    assert RungInTime(cfg, RunWith(cfg, sweep, es + c[..k]), pat, c, k);
    if k == 0 {
      assert es + c[..0] == es && c == [e];
      FirstRung(cfg, sweep, RunWith(cfg, sweep, es), pat, c);
    } else {
      InTimeShrinks(cfg, sweep, es, pat, c);
      Climb(cfg, sweep, es, pat, c[..k], m);
      NextRung(cfg, sweep, RunWith(cfg, sweep, es + c[..k]), pat, c, m);
    }
  }

  lemma InTimeShrinks(cfg: Config, sweep: bool, es: seq<Event>, pat: Pattern, c: seq<Event>)
    requires |c| > 1 && InTime(cfg, sweep, es, pat, c)
    ensures InTime(cfg, sweep, es, pat, c[..|c| - 1])
  {
    hide RunWith, Late, Reached;
    var d := c[..|c| - 1];
    forall j | 0 <= j < |d| ensures RungInTime(cfg, RunWith(cfg, sweep, es + d[..j]), pat, d, j) {
      assert d[..j] == c[..j] && RungInTime(cfg, RunWith(cfg, sweep, es + c[..j]), pat, c, j);
    }
  }

  /** And the last event of a pattern without a negative state completes it. */
  lemma ChainCompletes(cfg: Config, sweep: bool, es: seq<Event>, pat: Pattern, c: seq<Event>, m: string)
    requires Proper(cfg.patterns) && cfg.lateness >= 0 && pat in cfg.patterns && |pat.states| >= 2
    requires Rungs(pat, c, m) && |c| == |pat.states| && InTime(cfg, sweep, es, pat, c)
    requires !Stored(RunWith(cfg, sweep, es), m, ProgressID(pat.id, m, c[0].eventID))
    ensures var k, pid := |c| - 1, ProgressID(pat.id, m, c[0].eventID);
            pid in OutWith(cfg, sweep, RunWith(cfg, sweep, es + c[..k]), c[k]).completed
  {
    hide RunWith, OutWith, Satisfies, ProgressID, Standing, Proper, RungInTime, Advance;
    var k := |c| - 1;
    RungsShrink(pat, c, m);
    InTimeShrinks(cfg, sweep, es, pat, c);
    Climb(cfg, sweep, es, pat, c[..k], m);
    LastRung(cfg.patterns, pat, c, m);
    var s := RunWith(cfg, sweep, es + c[..k]);
    assert RungInTime(cfg, s, pat, c, k);
    LastStaysKept(cfg, sweep, s, pat, c, m);
    KeptCompletes(cfg, sweep, s, c[k], ProgressID(pat.id, m, c[0].eventID));
  }

  lemma LastRung(ps: seq<Pattern>, pat: Pattern, c: seq<Event>, m: string)
    requires Proper(ps) && pat in ps && |pat.states| >= 2 && Rungs(pat, c, m) && |c| == |pat.states|
    ensures Advance(ps, c[|c| - 1], Standing(pat, c[..|c| - 1])).Complete?
  {
    hide Satisfies, VarsAfter;
    var k := |c| - 1;
    assert ChainAt(pat, c, k);
    LastRungCompletes(ps, pat, c[..k], c[k]);
  }

  lemma LastStaysKept(cfg: Config, sweep: bool, s: Shard, pat: Pattern, c: seq<Event>, m: string)
    requires Proper(cfg.patterns) && pat in cfg.patterns && 1 < |c| <= |pat.states|
    requires RungInTime(cfg, s, pat, c, |c| - 1) && c[|c| - 1].memberID == m
    requires var pid := ProgressID(pat.id, m, c[0].eventID);
             Stored(s, m, pid) && StoredAt(s, m, pid) == Standing(pat, c[..|c| - 1])
    ensures var kept, pid := KeptBy(cfg, sweep, s, c[|c| - 1]), ProgressID(pat.id, m, c[0].eventID);
            !Late(s, c[|c| - 1]) && pid in kept && kept[pid] == Standing(pat, c[..|c| - 1])
  {
    hide VarsAfter, ProgressID;
    FindsItself(cfg.patterns, pat);
    NotSwept(cfg, sweep, s, c[|c| - 1], ProgressID(pat.id, m, c[0].eventID), Standing(pat, c[..|c| - 1]));
  }

  lemma KeptCompletes(cfg: Config, sweep: bool, s: Shard, e: Event, pid: string)
    requires !Late(s, e) && pid in KeptBy(cfg, sweep, s, e)
    requires Advance(cfg.patterns, e, KeptBy(cfg, sweep, s, e)[pid]).Complete?
    ensures pid in OutWith(cfg, sweep, s, e).completed
  {
    hide Advance;
  }

  lemma RungsShrink(pat: Pattern, c: seq<Event>, m: string)
    requires Rungs(pat, c, m)
    ensures 0 < |c| <= |pat.states| && forall j :: 0 <= j < |c| ==> c[j].memberID == m
    ensures Satisfies(c[0], pat.states[0].condition, map[])
    ensures |c| > 1 ==> Rungs(pat, c[..|c| - 1], m)
  {
    hide Satisfies;
    assert ChainAt(pat, c, 0) && c[..0] == [];
    var d := c[..|c| - 1];
    forall j | 0 <= j < |d| ensures ChainAt(pat, d, j) {
      assert ChainAt(pat, c, j) && d[..j] == c[..j];
    }
  }

  lemma FirstRung(cfg: Config, sweep: bool, s: Shard, pat: Pattern, c: seq<Event>)
    requires Proper(cfg.patterns) && cfg.lateness >= 0 && pat in cfg.patterns && |pat.states| >= 2 && |c| == 1
    requires Satisfies(c[0], pat.states[0].condition, map[]) && RungInTime(cfg, s, pat, c, 0)
    requires !Stored(s, c[0].memberID, ProgressID(pat.id, c[0].memberID, c[0].eventID))
    ensures var s', m, pid := NextWith(cfg, sweep, s, c[0]), c[0].memberID,
                              ProgressID(pat.id, c[0].memberID, c[0].eventID);
            Stored(s', m, pid) && StoredAt(s', m, pid) == Standing(pat, c)
  {
    hide NextWith, Satisfies, Standing, NewProgress, Stored;
    var e := c[0];
    var pid := ProgressID(pat.id, e.memberID, e.eventID);
    assert c == [e] && Opening(pat, e, pid);
    ReopensIff(cfg, sweep, s, e, e.memberID, pid);
    StandingStarts(pat, e);
  }

  lemma NextRung(cfg: Config, sweep: bool, s: Shard, pat: Pattern, c: seq<Event>, m: string)
    requires Proper(cfg.patterns) && pat in cfg.patterns
    requires Rungs(pat, c, m) && 1 < |c| < |pat.states| && RungInTime(cfg, s, pat, c, |c| - 1)
    requires var pid := ProgressID(pat.id, m, c[0].eventID);
             Stored(s, m, pid) && StoredAt(s, m, pid) == Standing(pat, c[..|c| - 1])
    ensures var s', pid := NextWith(cfg, sweep, s, c[|c| - 1]), ProgressID(pat.id, m, c[0].eventID);
            Stored(s', m, pid) && StoredAt(s', m, pid) == Standing(pat, c)
  {
    hide NextWith, Satisfies, Advance, Chain, ProgressID;
    var e, pid := c[|c| - 1], ProgressID(pat.id, m, c[0].eventID);
    RungMoves(cfg.patterns, pat, c, m);
    LastStaysKept(cfg, sweep, s, pat, c, m);
    MovedStays(cfg, sweep, s, e, pid, Standing(pat, c));
  }

  /** A progress whose longest wait is not over is not swept. */
  lemma NotSwept(cfg: Config, sweep: bool, s: Shard, e: Event, pid: string, p: Progress)
    requires Stored(s, e.memberID, pid) && StoredAt(s, e.memberID, pid) == p
    requires FindPattern(cfg.patterns, p.patternID).Some?
    requires var max := MaxWait(FindPattern(cfg.patterns, p.patternID).value.states);
             max > 0 ==> Reached(cfg, s, e) - p.startedAt <= max
    ensures pid in KeptBy(cfg, sweep, s, e) && KeptBy(cfg, sweep, s, e)[pid] == p
  {
  }

  /** What the advance loop makes of a kept progress is still there after the whole step. */
  lemma MovedStays(cfg: Config, sweep: bool, s: Shard, e: Event, pid: string, q: Progress)
    requires !Late(s, e) && pid in KeptBy(cfg, sweep, s, e)
    requires var o := Advance(cfg.patterns, e, KeptBy(cfg, sweep, s, e)[pid]); Stays(o) && o.progress == q
    requires IsParked(q) ==> q.negativeDeadline >= Reached(cfg, s, e)
    ensures Stored(NextWith(cfg, sweep, s, e), e.memberID, pid)
    ensures StoredAt(NextWith(cfg, sweep, s, e), e.memberID, pid) == q
  {
    hide Satisfies, Advance, NextWith, KeptBy, Stored, StoredAt;
    var kept := KeptBy(cfg, sweep, s, e);
    StartsAdds(cfg.patterns, e, Started(Advanced(cfg.patterns, e, kept), [], {}), pid);
    DrainSpares(cfg, sweep, s, e, pid, q);
  }

  // ---------- All at one time ----------

  /** Events at a time the watermark has not passed are in time: nothing moves past them. */
  lemma {:induction false} LadderInTime(cfg: Config, sweep: bool, es: seq<Event>, pat: Pattern, c: seq<Event>, t: int,
                                        n: nat)
    requires Proper(cfg.patterns) && cfg.lateness >= 0 && pat in cfg.patterns && n <= |c| <= |pat.states|
    requires forall j :: 0 <= j < |c| ==> c[j].occurredAt == t
    requires RunWith(cfg, sweep, es).watermark <= t
    ensures RunWith(cfg, sweep, es + c[..n]).watermark <= t
    ensures forall j :: 0 <= j < n ==> RungInTime(cfg, RunWith(cfg, sweep, es + c[..j]), pat, c, j)
    decreases n
  {
    hide RunWith, NextWith;
    if n == 0 {
      assert es + c[..0] == es;
    } else {
      LadderInTime(cfg, sweep, es, pat, c, t, n - 1);
      var s := RunWith(cfg, sweep, es + c[..n - 1]);
      assert es + c[..n] == es + c[..n - 1] + [c[n - 1]];
      RunWithSnoc(cfg, sweep, es + c[..n - 1], c[n - 1]);
      WatermarkOf(cfg, sweep, s, c[n - 1]);
      if n < |pat.states| { NoNegativeWaits(cfg.patterns, pat, n); }
      assert RungInTime(cfg, s, pat, c, n - 1);
    }
  }

  lemma ClimbAtOnce(cfg: Config, sweep: bool, es: seq<Event>, pat: Pattern, c: seq<Event>, m: string, t: int)
    requires Proper(cfg.patterns) && cfg.lateness >= 0 && pat in cfg.patterns
    requires Ladder(pat, c, m, t) && |c| < |pat.states|
    requires !Stored(RunWith(cfg, sweep, es), m, ProgressID(pat.id, m, c[0].eventID))
    requires RunWith(cfg, sweep, es).watermark <= t
    ensures var s, pid := RunWith(cfg, sweep, es + c), ProgressID(pat.id, m, c[0].eventID);
            s.watermark <= t && Stored(s, m, pid) && StoredAt(s, m, pid) == Standing(pat, c)
  {
    hide RunWith, Satisfies, ProgressID, Standing, Proper, RungInTime;
    LadderInTime(cfg, sweep, es, pat, c, t, |c|);
    assert c[..|c|] == c;
    Climb(cfg, sweep, es, pat, c, m);
  }

  // ---------- Making up events ----------

  /** A name no shorter than `n`, different for each `n`. */
  function Name(n: nat): (s: string)
    ensures |s| == n
  {
    seq(n, i => 'x')
  }

  /** The same happening under another ID and at another time. */
  function Copy(e: Event, id: string, t: int): Event { e.(eventID := id, occurredAt := t) }

  lemma CopyActsAlike(e: Event, id: string, t: int, condition: RuleNode, vars: map<string, Value>,
                      binding: map<string, string>)
    ensures Satisfies(Copy(e, id, t), condition, vars) == Satisfies(e, condition, vars)
    ensures Bindings(Copy(e, id, t), binding) == Bindings(e, binding)
  {
    assert EvalFields(Copy(e, id, t)) == EvalFields(e);
  }

  /** `ws` at time `t`, with fresh names of lengths n, n + 1, … */
  function Copies(ws: seq<Event>, n: nat, t: int): (c: seq<Event>)
    ensures |c| == |ws| && forall j :: 0 <= j < |ws| ==> c[j] == Copy(ws[j], Name(n + j), t)
  {
    seq(|ws|, j requires 0 <= j < |ws| => Copy(ws[j], Name(n + j), t))
  }

  /** Events of one member that satisfy the first states of the pattern one after the other. */
  ghost predicate Matches(pat: Pattern, ws: seq<Event>, m: string) {
    && 0 < |ws| <= |pat.states|
    && forall j :: 0 <= j < |ws| ==> MatchesAt(pat, ws, m, j)
  }

  ghost predicate MatchesAt(pat: Pattern, ws: seq<Event>, m: string, j: nat)
    requires j < |ws| <= |pat.states|
  {
    && ws[j].memberID == m && !pat.states[j].isNegative
    && Satisfies(ws[j], pat.states[j].condition, VarsAfter(pat, ws[..j]))
  }

  /** `c` tells the same story as `ws`. */
  ghost predicate Retells(ws: seq<Event>, c: seq<Event>) {
    |c| == |ws| && forall j :: 0 <= j < |ws| ==> c[j] == Copy(ws[j], c[j].eventID, c[j].occurredAt)
  }

  lemma {:induction false} RetoldVars(pat: Pattern, ws: seq<Event>, c: seq<Event>)
    requires Retells(ws, c) && |ws| <= |pat.states|
    ensures VarsAfter(pat, c) == VarsAfter(pat, ws)
    decreases |ws|
  {
    if ws != [] {
      var k := |ws| - 1;
      RetoldVars(pat, ws[..k], c[..k]);
      CopyActsAlike(ws[k], c[k].eventID, c[k].occurredAt, pat.states[k].condition, map[], pat.states[k].contextBinding);
    }
  }

  /** Matching events retold at one time under distinct IDs are a ladder. */
  lemma RetoldLadder(ps: seq<Pattern>, pat: Pattern, ws: seq<Event>, c: seq<Event>, m: string, t: int)
    requires Proper(ps) && pat in ps && Matches(pat, ws, m) && Retells(ws, c)
    requires forall j :: 0 <= j < |c| ==> c[j].occurredAt == t
    requires forall i, j :: 0 <= i < j < |c| ==> c[i].eventID != c[j].eventID
    ensures Ladder(pat, c, m, t)
  {
    hide Satisfies;
    forall j | 0 <= j < |c| ensures c[j].memberID == m && ChainAt(pat, c, j) {
      assert MatchesAt(pat, ws, m, j);
      RetoldVars(pat, ws[..j], c[..j]);
      CopyActsAlike(ws[j], c[j].eventID, t, pat.states[j].condition, VarsAfter(pat, ws[..j]), map[]);
      NoNegativeWaits(ps, pat, j);
    }
  }
}
