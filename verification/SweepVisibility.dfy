/** The converse of `SweepTransparency`: a pattern that is not closed and whose states can be satisfied
    has a run on which the sweep is seen. */
module SweepVisibility {
  import opened Basics
  import opened Rules
  import opened Events
  import opened Patterns
  import opened Shards
  import opened Invariants
  import opened Witnesses
  import opened NegativeExits
  import opened Scenarios
  import opened SweepTransparency

  /** The number of states before a terminal negative one. */
  function Positives(pat: Pattern): nat
    requires pat.states != []
  {
    if pat.states[|pat.states| - 1].isNegative then |pat.states| - 1 else |pat.states|
  }

  /** Some events of one member satisfy the positive states one after the other. */
  ghost predicate CanBeMet(pat: Pattern) {
    exists ws, m :: pat.states != [] && |ws| == Positives(pat) && Matches(pat, ws, m)
  }

  lemma CopiesClimb(ps: seq<Pattern>, pat: Pattern, ws: seq<Event>, m: string, n: nat)
    requires Proper(ps) && pat in ps && Matches(pat, ws, m) && 0 < n <= |ws|
    ensures Ladder(pat, Copies(ws[..n], 1, 0), m, 0)
  {
    hide Satisfies;
    var some := ws[..n];
    forall j | 0 <= j < n ensures MatchesAt(pat, some, m, j) {
      assert MatchesAt(pat, ws, m, j) && some[..j] == ws[..j];
    }
    var c := Copies(some, 1, 0);
    forall i, j | 0 <= i < j < |c| ensures c[i].eventID != c[j].eventID {
      assert |c[i].eventID| == 1 + i && |c[j].eventID| == 1 + j;
    }
    RetoldLadder(ps, pat, some, c, m, 0);
  }

  lemma CopiesAreIdentified(ws: seq<Event>, e: Event)
    requires e.eventID == Name(|ws| + 1)
    ensures Identified(Copies(ws, 1, 0) + [e])
  {
    var all := Copies(ws, 1, 0) + [e];
    assert forall i :: 0 <= i < |all| ==> |all[i].eventID| == i + 1;
  }

  /** The attempt, at time 0, and when it is spent. */
  lemma Attempt(cfg: Config, sweep: bool, pat: Pattern, c: seq<Event>, m: string)
    requires Proper(cfg.patterns) && cfg.lateness >= 0 && pat in cfg.patterns && |c| < |pat.states|
    requires Ladder(pat, c, m, 0)
    ensures var s, pid := RunWith(cfg, sweep, c), ProgressID(pat.id, m, c[0].eventID);
            s.watermark == 0 && Inv(cfg, s) && Stored(s, m, pid) && StoredAt(s, m, pid) == Standing(pat, c)
  {
    hide Chain, Satisfies, Standing;
    assert RunWith(cfg, sweep, []) == FRESH && [] + c == c;
    ClimbAtOnce(cfg, sweep, [], pat, c, m, 0);
    RunsKeepInv(cfg, sweep, c);
  }

  function TooLate(cfg: Config, pat: Pattern): int { MaxWait(pat.states) + cfg.lateness + 1 }

  /** The progress at its last state when `e` comes too late for the sweep. */
  ghost predicate Spending(cfg: Config, s: Shard, e: Event, pat: Pattern, c: seq<Event>, pid: string) {
    && 0 < |c| && |c| + 1 == |pat.states| && c[0].memberID == e.memberID && c[0].occurredAt == 0
    && s.watermark == 0 && Inv(cfg, s)
    && Stored(s, e.memberID, pid) && StoredAt(s, e.memberID, pid) == Standing(pat, c)
    && e.occurredAt == TooLate(cfg, pat) && e.eventID !in IDs(c)
  }

  /** Without a wait on its last state the pattern completes only when nothing is swept. */
  lemma CompletionIsLost(cfg: Config, s: Shard, r: Shard, e: Event, pat: Pattern, c: seq<Event>, pid: string)
    requires Proper(cfg.patterns) && cfg.lateness >= 0 && pat in cfg.patterns && MaxWait(pat.states) > 0
    requires Spending(cfg, s, e, pat, c, pid) && Spending(cfg, r, e, pat, c, pid)
    requires var st := pat.states[|c|];
             !st.isNegative && st.maxWait.None? && Satisfies(e, st.condition, VarsAfter(pat, c))
    ensures OutWith(cfg, true, s, e) != OutWith(cfg, false, r, e)
  {
    hide Satisfies, Advance, OutWith, MaxWait, VarsAfter;
    LastRungCompletes(cfg.patterns, pat, c, e);
    FindsItself(cfg.patterns, pat);
    SweptCannotComplete(cfg, s, e, pid);
    UnsweptCompletes(cfg, r, e, pid);
  }

  lemma SweptCannotComplete(cfg: Config, s: Shard, e: Event, pid: string)
    requires Stored(s, e.memberID, pid) && Sweeps(cfg.patterns, StoredAt(s, e.memberID, pid), Reached(cfg, s, e))
    ensures pid !in OutWith(cfg, true, s, e).completed
  {
  }

  lemma UnsweptCompletes(cfg: Config, s: Shard, e: Event, pid: string)
    requires Stored(s, e.memberID, pid) && !Late(s, e)
    requires Advance(cfg.patterns, e, StoredAt(s, e.memberID, pid)).Complete?
    ensures pid in OutWith(cfg, false, s, e).completed
  {
  }

  /** A negative match whose deadline passes on the member's own event is made only without the sweep. */
  lemma ExpiryIsLost(cfg: Config, s: Shard, r: Shard, e: Event, pat: Pattern, c: seq<Event>, pid: string)
    requires Proper(cfg.patterns) && cfg.lateness >= 0 && pat in cfg.patterns && MaxWait(pat.states) > 0
    requires Spending(cfg, s, e, pat, c, pid) && Spending(cfg, r, e, pat, c, pid)
    requires pat.states[|c|].isNegative
    ensures OutWith(cfg, true, s, e) != OutWith(cfg, false, r, e)
  {
    hide *;
    StandingAtDeadline(cfg, s, e, pat, c, pid);
    StandingAtDeadline(cfg, r, e, pat, c, pid);
    NegativeExitIsExact(cfg, s, e, e.memberID, pid);
    ExpiresUnswept(cfg, r, e, e.memberID, pid);
    SweptIsNot(cfg, s, e, e.memberID, pid);
  }

  lemma StandingAtDeadline(cfg: Config, s: Shard, e: Event, pat: Pattern, c: seq<Event>, pid: string)
    requires Proper(cfg.patterns) && cfg.lateness >= 0 && pat in cfg.patterns && MaxWait(pat.states) > 0
    requires Spending(cfg, s, e, pat, c, pid) && pat.states[|c|].isNegative
    ensures Inv(cfg, s) && !Late(s, e) && Stored(s, e.memberID, pid)
    ensures var p := StoredAt(s, e.memberID, pid);
            && IsParked(p) && Sound(cfg.patterns, e.memberID, pid, p) && e.eventID != p.processedEvents[0]
            && p == Standing(pat, c) && e.occurredAt > p.negativeDeadline && p.negativeDeadline < Reached(cfg, s, e)
            && ExitOf(cfg, s, e, e.memberID, p).SweptAway?
  {
    hide Satisfies, VarsAfter;
    assert ProgressOK(cfg.patterns, s.heap, e.memberID, pid, StoredAt(s, e.memberID, pid));
    FindsItself(cfg.patterns, pat);
    NoNegativeWaits(cfg.patterns, pat, |c|);
    OnlyLastIsNegative(cfg.patterns, pat);
    LastHasWait(cfg.patterns, pat, |c|);
  }

  lemma LastHasWait(ps: seq<Pattern>, pat: Pattern, k: nat)
    requires Proper(ps) && pat in ps && k < |pat.states| && pat.states[k].isNegative
    ensures pat.states[k].maxWait.Some?
  {
    var i :| 0 <= i < |ps| && ps[i] == pat;
    assert WellShaped(ps[i]);
  }

  lemma SweptIsNot(cfg: Config, s: Shard, e: Event, m: string, pid: string)
    requires Stored(s, m, pid) && Sound(cfg.patterns, m, pid, StoredAt(s, m, pid))
    requires Leaves(cfg, s, e, m, pid) && ExitOf(cfg, s, e, m, StoredAt(s, m, pid)).SweptAway?
    ensures Entry(StoredAt(s, m, pid).negativeDeadline, m, pid) !in OutWith(cfg, true, s, e).expired
  {
    hide ExitOf, Sound, OutWith, Next, Satisfies;
  }

  /** Without the sweep the drain makes the match. */
  lemma ExpiresUnswept(cfg: Config, s: Shard, e: Event, m: string, pid: string)
    requires Proper(cfg.patterns) && Inv(cfg, s) && !Late(s, e) && e.memberID == m && Stored(s, m, pid)
    requires var p := StoredAt(s, m, pid);
             && IsParked(p) && Sound(cfg.patterns, m, pid, p)
             && e.occurredAt > p.negativeDeadline && p.negativeDeadline < Reached(cfg, s, e)
    ensures Entry(StoredAt(s, m, pid).negativeDeadline, m, pid) in OutWith(cfg, false, s, e).expired
  {
    hide Satisfies, Inv, Proper, OutWith, NextWith;
    var p, kept := StoredAt(s, m, pid), KeptBy(cfg, false, s, e);
    QueuedDeadline(cfg, s, m, pid);
    ParkedAdvance(cfg.patterns, m, pid, p, e);
    StartsAdds(cfg.patterns, e, Started(Advanced(cfg.patterns, e, kept), [], {}), pid);
    MatchedMeans(cfg, false, s, e, m);
    DrainDecides(cfg, false, s, e, m, pid, p);
  }

  /** A satisfiable pattern that is not closed: some run shows the sweep. */
  lemma SweepIsSeen(cfg: Config, pat: Pattern) returns (es: seq<Event>, e: Event)
    requires Proper(cfg.patterns) && cfg.lateness >= 0 && pat in cfg.patterns && !Closed(pat) && CanBeMet(pat)
    ensures Identified(es + [e]) && !SweepUnseen(cfg, es, e)
  {
    hide Satisfies, MaxWait, RunWith, OutWith, Proper, Matches, Inv, Standing, VarsAfter;
    var ws, m :| pat.states != [] && |ws| == Positives(pat) && Matches(pat, ws, m);
    var k := |pat.states| - 1;
    es := Copies(ws[..k], 1, 0);
    var pid := ProgressID(pat.id, m, es[0].eventID);
    CopiesClimb(cfg.patterns, pat, ws, m, k);
    Attempt(cfg, true, pat, es, m);
    Attempt(cfg, false, pat, es, m);
    e := if pat.states[k].isNegative then Event(Name(k + 1), m, "", map[], TooLate(cfg, pat))
         else Copy(ws[k], Name(k + 1), TooLate(cfg, pat));
    CopiesAreIdentified(ws[..k], e);
    assert forall j :: 0 <= j < k ==> |es[j].eventID| == 1 + j;
    if pat.states[k].isNegative {
      ExpiryIsLost(cfg, RunWith(cfg, true, es), RunWith(cfg, false, es), e, pat, es, pid);
    } else {
      LastIsMet(pat, ws, es, m, e);
      CompletionIsLost(cfg, RunWith(cfg, true, es), RunWith(cfg, false, es), e, pat, es, pid);
    }
  }

  lemma LastIsMet(pat: Pattern, ws: seq<Event>, c: seq<Event>, m: string, e: Event)
    requires Matches(pat, ws, m) && |ws| == |pat.states| == |c| + 1 && Retells(ws[..|c|], c)
    requires e == Copy(ws[|c|], e.eventID, e.occurredAt)
    ensures e.memberID == m && Satisfies(e, pat.states[|c|].condition, VarsAfter(pat, c))
  {
    hide Satisfies;
    assert MatchesAt(pat, ws, m, |c|);
    RetoldVars(pat, ws[..|c|], c);
    CopyActsAlike(ws[|c|], e.eventID, e.occurredAt, pat.states[|c|].condition, VarsAfter(pat, c), map[]);
  }

  /** The sweep is an invisible optimisation exactly when every pattern is closed. */
  lemma SweepIsInvisibleIff(cfg: Config)
    requires Proper(cfg.patterns) && cfg.lateness >= 0
    requires forall pat :: pat in cfg.patterns && !Closed(pat) ==> CanBeMet(pat)
    ensures (forall es, e :: Identified(es + [e]) ==> SweepUnseen(cfg, es, e)) <==> AllClosed(cfg.patterns)
  {
    hide SweepUnseen, Closed, Proper, CanBeMet;
    if AllClosed(cfg.patterns) {
      forall es, e | Identified(es + [e]) ensures SweepUnseen(cfg, es, e) {
        SweepIsInvisible(cfg, es, e);
      }
    } else {
      var pat :| pat in cfg.patterns && !Closed(pat);
      var es, e := SweepIsSeen(cfg, pat);
    }
  }
}
