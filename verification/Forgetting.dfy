/** When the engine can report that a forbidden event did not come although it did: an abort is
    forgotten with its progress, and the start event can bring the progress back. */
module Forgetting {
  import opened Basics
  import opened Rules
  import opened Events
  import opened Patterns
  import opened Shards
  import opened Invariants
  import opened Witnesses
  import opened NegativeExits
  import opened Reopenings
  import opened Scenarios

  /** Some continuation of the history makes the engine report the deadline. */
  ghost predicate MayStillFire(cfg: Config, h: seq<Event>, x: Entry) {
    exists fs, z :: Identified(h + fs + [z]) && FiresAfter(cfg, h + fs, z, x)
  }

  ghost predicate FiresAfter(cfg: Config, es: seq<Event>, z: Event, x: Entry) {
    x in Out(cfg, Run(cfg, es), z).expired
  }

  /** Event `e` aborts the negative progress: it is the forbidden event, on time and in the window. */
  ghost predicate AbortedBy(cfg: Config, es: seq<Event>, e: Event, m: string, pid: string)
    requires Stored(Run(cfg, es), m, pid) && Sound(cfg.patterns, m, pid, StoredAt(Run(cfg, es), m, pid))
  {
    var s, p := Run(cfg, es), StoredAt(Run(cfg, es), m, pid);
    !Late(s, e) && IsParked(p) && ExitOf(cfg, s, e, m, p).Aborts?
  }

  /** What is gone stays gone once the watermark is past its start event. */
  lemma BehindIsForGood(cfg: Config, h: seq<Event>, start: Event, fs: seq<Event>, m: string, pid: string,
                        patternID: string)
    requires Proper(cfg.patterns) && cfg.lateness >= 0 && Identified(h + fs)
    requires start in h && start.memberID == m && pid == ProgressID(patternID, m, start.eventID) && '|' !in patternID
    requires !Stored(Run(cfg, h), m, pid) && start.occurredAt < Run(cfg, h).watermark
    ensures !Stored(Run(cfg, h + fs), m, pid)
  {
    hide Run, Satisfies, Stored;
    var es := h + fs;
    assert es[..|h|] == h && es[..|es|] == es;
    forall k | |h| <= k < |es| ensures !Restarts(cfg, Run(cfg, es[..k]), es[k], m, pid) {
      WatermarkNeverFalls(cfg, es, |h|, k);
      var i :| 0 <= i < |h| && h[i] == start;
      assert es[i] == start;
      if Restarts(cfg, Run(cfg, es[..k]), es[k], m, pid) {
        var pat :| pat in cfg.patterns && Opening(pat, es[k], pid);
        var j :| 0 <= j < |cfg.patterns| && cfg.patterns[j] == pat;
        ProgressIDInjective(pat.id, patternID, m, es[k].eventID, start.eventID);
        assert false;
      }
    }
    GoneUntilRestart(cfg, es, |h|, |es|, m, pid);
  }

  /** The event of another member, in the far future, that lets a deadline pass. */
  function Outsider(x: Entry, id: string, lateness: int): Event {
    Event(id, x.memberID + "x", "", map[], x.deadline + lateness + 1)
  }

  lemma DeadlinePasses(cfg: Config, es: seq<Event>, x: Entry, id: string)
    requires Proper(cfg.patterns) && cfg.lateness >= 0 && Stored(Run(cfg, es), x.memberID, x.progressID)
    requires var p := StoredAt(Run(cfg, es), x.memberID, x.progressID); IsParked(p) && p.negativeDeadline == x.deadline
    ensures FiresAfter(cfg, es, Outsider(x, id, cfg.lateness), x)
  {
    hide *;
    RunsKeepInv(cfg, true, es);
    var s, z := Run(cfg, es), Outsider(x, id, cfg.lateness);
    OutsiderFires(cfg, s, x, id);
    NegativeExitIsExact(cfg, s, z, x.memberID, x.progressID);
    LeavesFired(cfg, es, z, x);
  }

  lemma OutsiderFires(cfg: Config, s: Shard, x: Entry, id: string)
    requires Proper(cfg.patterns) && Inv(cfg, s) && cfg.lateness >= 0 && Stored(s, x.memberID, x.progressID)
    requires var p := StoredAt(s, x.memberID, x.progressID); IsParked(p) && p.negativeDeadline == x.deadline
    ensures var p, z := StoredAt(s, x.memberID, x.progressID), Outsider(x, id, cfg.lateness);
            && Sound(cfg.patterns, x.memberID, x.progressID, p)
            && !Late(s, z) && z.memberID != x.memberID && ExitOf(cfg, s, z, x.memberID, p).Fires?
  {
    hide Satisfies, MaxWait;
    var p, z := StoredAt(s, x.memberID, x.progressID), Outsider(x, id, cfg.lateness);
    assert ProgressOK(cfg.patterns, s.heap, x.memberID, x.progressID, p);
    assert |z.memberID| != |x.memberID|;
    assert p.negativeDeadline >= s.watermark;
  }

  lemma LeavesFired(cfg: Config, es: seq<Event>, z: Event, x: Entry)
    requires Stored(Run(cfg, es), x.memberID, x.progressID)
    requires var p := StoredAt(Run(cfg, es), x.memberID, x.progressID);
             && Sound(cfg.patterns, x.memberID, x.progressID, p) && p.negativeDeadline == x.deadline
             && ExitOf(cfg, Run(cfg, es), z, x.memberID, p).Fires?
    requires Leaves(cfg, Run(cfg, es), z, x.memberID, x.progressID)
    ensures FiresAfter(cfg, es, z, x)
  {
    hide ExitOf, Run, Out, Next, Sound;
  }

  /** A bound on the length of the IDs used so far. */
  function Unused(es: seq<Event>): (n: nat)
    ensures forall i :: 0 <= i < |es| ==> |es[i].eventID| < n
  {
    if es == [] then 0
    else
      var n := Unused(es[..|es| - 1]);
      assert forall i :: 0 <= i < |es| - 1 ==> es[i] == es[..|es| - 1][i];
      if |es[|es| - 1].eventID| >= n then |es[|es| - 1].eventID| + 1 else n
  }

  /** The start event again, then fresh copies of the events that had built the progress. */
  function Again(ws: seq<Event>, n: nat): (c: seq<Event>)
    requires ws != []
    ensures |c| == |ws| && c[0] == ws[0]
    ensures forall j :: 1 <= j < |ws| ==> c[j] == Copy(ws[j], Name(n + j), ws[0].occurredAt)
  {
    [ws[0]] + seq(|ws| - 1, j requires 0 <= j < |ws| - 1 => Copy(ws[j + 1], Name(n + j + 1), ws[0].occurredAt))
  }

  lemma AgainLengths(h: seq<Event>, ws: seq<Event>, n: nat)
    requires ws != [] && ws[0] in h && n >= Unused(h)
    ensures |ws[0].eventID| < n
    ensures forall j :: 1 <= j < |ws| ==> |Again(ws, n)[j].eventID| == n + j
    ensures forall i :: 0 <= i < |h| ==> |h[i].eventID| < n
  {
    var k :| 0 <= k < |h| && h[k] == ws[0];
  }

  lemma AgainIsIdentified(h: seq<Event>, ws: seq<Event>, n: nat, z: Event)
    requires Identified(h) && ws != [] && ws[0] in h && n >= Unused(h) && z.eventID == Name(n + |ws|)
    ensures Identified(h + Again(ws, n) + [z])
  {
    AgainLengths(h, ws, n);
    var c := Again(ws, n);
    hide Again, Unused, Name;
    IdentifiedPlus(h, c, n, z);
  }

  lemma IdentifiedPlus(h: seq<Event>, c: seq<Event>, n: nat, z: Event)
    requires Identified(h) && c != [] && c[0] in h && |z.eventID| == n + |c|
    requires forall j :: 1 <= j < |c| ==> |c[j].eventID| == n + j
    requires forall i :: 0 <= i < |h| ==> |h[i].eventID| < n
    ensures Identified(h + c + [z])
  {
    var all := h + c + [z];
    var k :| 0 <= k < |h| && h[k] == c[0];
    assert forall l :: |h| < l < |h| + |c| ==> all[l] == c[l - |h|];
    assert all[|h| + |c|] == z && all[|h|] == h[k];
    assert forall l :: |h| < l < |all| ==> |all[l].eventID| == n + l - |h|;
    assert forall l :: 0 <= l < |h| ==> all[l] == h[l] && |all[l].eventID| < n;
    hide Identified;
    ByLength(h, all, k, n);
  }

  lemma ByLength(h: seq<Event>, all: seq<Event>, k: nat, n: nat)
    requires Identified(h) && k < |h| < |all| && all[|h|] == h[k]
    requires forall l :: 0 <= l < |h| ==> all[l] == h[l] && |all[l].eventID| < n
    requires forall l :: |h| < l < |all| ==> |all[l].eventID| == n + l - |h|
    ensures Identified(all)
  {
  }

  lemma AgainClimbs(ps: seq<Pattern>, pat: Pattern, h: seq<Event>, ws: seq<Event>, n: nat, m: string)
    requires Proper(ps) && pat in ps && Chain(pat, ws) && forall j :: 0 <= j < |ws| ==> ws[j].memberID == m
    requires ws[0] in h && n >= Unused(h)
    ensures Ladder(pat, Again(ws, n), m, ws[0].occurredAt)
  {
    hide Satisfies, Proper;
    forall j | 0 <= j < |ws| ensures MatchesAt(pat, ws, m, j) {
      assert ChainAt(pat, ws, j);
    }
    AgainIsDistinct(h, ws, n);
    hide Chain, MatchesAt;
    RetoldLadder(ps, pat, ws, Again(ws, n), m, ws[0].occurredAt);
  }

  lemma AgainIsDistinct(h: seq<Event>, ws: seq<Event>, n: nat)
    requires ws != [] && ws[0] in h && n >= Unused(h)
    ensures var c := Again(ws, n); forall i, j :: 0 <= i < j < |c| ==> c[i].eventID != c[j].eventID
  {
    hide *;
    AgainLengths(h, ws, n);
    DistinctByLength(Again(ws, n), n);
  }

  lemma DistinctByLength(c: seq<Event>, n: nat)
    requires c != [] && |c[0].eventID| < n
    requires forall j :: 1 <= j < |c| ==> |c[j].eventID| == n + j
    ensures forall i, j :: 0 <= i < j < |c| ==> c[i].eventID != c[j].eventID
  {
    forall i, j | 0 <= i < j < |c| ensures |c[i].eventID| < |c[j].eventID| {}
  }

  /** The events that built a stored progress, the first of them being its start event. */
  lemma BuildersOf(cfg: Config, es: seq<Event>, m: string, pid: string, start: Event)
    returns (pat: Pattern, ws: seq<Event>)
    requires Proper(cfg.patterns) && Stored(Run(cfg, es), m, pid) && Identified(es)
    requires start in es && start.eventID == Head(StoredAt(Run(cfg, es), m, pid))
    ensures pat in cfg.patterns && Chain(pat, ws) && (forall j :: 0 <= j < |ws| ==> ws[j].memberID == m)
    ensures var p := StoredAt(Run(cfg, es), m, pid);
            && ws[0] == start && |ws| == p.currentStep < |pat.states| && p.startedAt == start.occurredAt
            && pid == ProgressID(pat.id, m, start.eventID) && p.patternID == pat.id
            && Sound(cfg.patterns, m, pid, p) && FindPattern(cfg.patterns, p.patternID) == Some(pat)
  {
    hide *;
    var s := Run(cfg, es);
    RunsKeepInv(cfg, true, es);
    RunsAreJustified(cfg, es);
    StoredIsSound(cfg, s, m, pid);
    StoredIsJustified(cfg, es, s.members, m, pid);
    var idx: seq<nat> :| JustifiedBy(cfg, es, m, StoredAt(s, m, pid), idx);
    pat := BuildersAt(cfg, es, m, pid, StoredAt(s, m, pid), start, idx);
    ws := Picks(es, idx);
  }

  lemma StoredIsSound(cfg: Config, s: Shard, m: string, pid: string)
    requires Inv(cfg, s) && Stored(s, m, pid)
    ensures Sound(cfg.patterns, m, pid, StoredAt(s, m, pid))
  {
    hide Sound;
    assert ProgressOK(cfg.patterns, s.heap, m, pid, StoredAt(s, m, pid));
  }

  lemma StoredIsJustified(cfg: Config, es: seq<Event>, members: map<string, Member>, m: string, pid: string)
    requires AllJustified(cfg, es, members) && Stored(Run(cfg, es), m, pid) && members == Run(cfg, es).members
    ensures exists idx: seq<nat> :: JustifiedBy(cfg, es, m, StoredAt(Run(cfg, es), m, pid), idx)
  {
    hide Run, BuiltBy, Quiet;
    var p := members[m].progresses[pid];
    assert Justified(cfg, es, m, p);
    var idx: seq<nat> :| JustifiedBy(cfg, es, m, p, idx);
    assert JustifiedBy(cfg, es, m, StoredAt(Run(cfg, es), m, pid), idx);
  }

  lemma BuildersAt(cfg: Config, es: seq<Event>, m: string, pid: string, p: Progress, start: Event, idx: seq<nat>)
    returns (pat: Pattern)
    requires JustifiedBy(cfg, es, m, p, idx) && Sound(cfg.patterns, m, pid, p) && Identified(es)
    requires start in es && start.eventID == Head(p)
    ensures forall j :: 0 <= j < |idx| ==> idx[j] < |es|
    ensures FindPattern(cfg.patterns, p.patternID) == Some(pat) && pat in cfg.patterns
    ensures var ws := Picks(es, idx);
            && Chain(pat, ws) && (forall j :: 0 <= j < |ws| ==> ws[j].memberID == m)
            && ws[0] == start && |ws| == p.currentStep < |pat.states| && p.startedAt == start.occurredAt
            && pid == ProgressID(pat.id, m, start.eventID) && p.patternID == pat.id
  {
    hide Satisfies, Chain, OnTimeAt;
    pat := FindPattern(cfg.patterns, p.patternID).value;
    var i :| 0 <= i < |es| && es[i] == start;
  }

  function Head(p: Progress): string { if p.processedEvents == [] then "" else p.processedEvents[0] }

  /** After an abort the very same negative match can still be made, by some continuation, exactly when
      the watermark is not past the progress's start event. */
  lemma AbortIsForgottenIff(cfg: Config, es: seq<Event>, e: Event, m: string, pid: string, start: Event)
    requires Proper(cfg.patterns) && cfg.lateness >= 0 && Identified(es + [e])
    requires Stored(Run(cfg, es), m, pid) && Sound(cfg.patterns, m, pid, StoredAt(Run(cfg, es), m, pid))
    requires AbortedBy(cfg, es, e, m, pid)
    requires start in es && start.eventID == StoredAt(Run(cfg, es), m, pid).processedEvents[0]
    ensures MayStillFire(cfg, es + [e], Entry(StoredAt(Run(cfg, es), m, pid).negativeDeadline, m, pid))
       <==> start.occurredAt >= Run(cfg, es + [e]).watermark
  {
    hide Run, Next, Out, Satisfies, Chain;
    var h, p := es + [e], StoredAt(Run(cfg, es), m, pid);
    var x := Entry(p.negativeDeadline, m, pid);
    PrefixIsIdentified(es, [e]);
    var pat, ws := BuildersOf(cfg, es, m, pid, start);
    NegativeExitInRuns(cfg, es, e, m, pid);
    RunSnoc(cfg, es, e);
    assert !Stored(Run(cfg, h), m, pid);
    hide Leaves, AbortedBy, Identified, Sound, Proper;
    if start.occurredAt >= Run(cfg, h).watermark {
      FiresAgain(cfg, es, e, x, pat, ws);
    } else if MayStillFire(cfg, h, x) {
      var fs, z :| Identified(h + fs + [z]) && FiresAfter(cfg, h + fs, z, x);
      PrefixIsIdentified(h + fs, [z]);
      PatternIDsHaveNoBar(cfg.patterns, pat);
      BehindIsForGood(cfg, h, start, fs, m, pid, pat.id);
      RunsKeepInv(cfg, true, h + fs);
      ExpiredWasStored(cfg, Run(cfg, h + fs), z, x);
      assert false;
    }
  }

  lemma PatternIDsHaveNoBar(ps: seq<Pattern>, pat: Pattern)
    requires Proper(ps) && pat in ps
    ensures '|' !in pat.id
  {
  }

  /** The start event comes again and the attempt is repeated; then time passes. */
  lemma FiresAgain(cfg: Config, es: seq<Event>, e: Event, x: Entry, pat: Pattern, ws: seq<Event>)
    requires Proper(cfg.patterns) && cfg.lateness >= 0 && Identified(es + [e]) && pat in cfg.patterns
    requires Chain(pat, ws) && (forall j :: 0 <= j < |ws| ==> ws[j].memberID == x.memberID) && ws[0] in es
    requires |ws| < |pat.states| && pat.states[|ws|].isNegative
    requires x.progressID == ProgressID(pat.id, x.memberID, ws[0].eventID)
    requires x.deadline == ws[0].occurredAt + Duration(pat.states[|ws|].maxWait)
    requires !Stored(Run(cfg, es + [e]), x.memberID, x.progressID)
    requires ws[0].occurredAt >= Run(cfg, es + [e]).watermark
    ensures MayStillFire(cfg, es + [e], x)
  {
    hide Satisfies, Chain, FiresAfter, Identified, ProgressID;
    var h, m, t := es + [e], x.memberID, ws[0].occurredAt;
    var n := Unused(h);
    var c, z := Again(ws, n), Outsider(x, Name(n + |ws|), cfg.lateness);
    AgainClimbs(cfg.patterns, pat, h, ws, n, m);
    RunsKeepInv(cfg, true, h);
    ClimbAtOnce(cfg, true, h, pat, c, m, t);
    NoNegativeWaits(cfg.patterns, pat, |ws|);
    DeadlinePasses(cfg, h + c, x, z.eventID);
    AgainIsIdentified(h, ws, n, z);
    assert Identified(h + c + [z]) && FiresAfter(cfg, h + c, z, x);
  }

  /** So a match preceded by an abort of the same progress needs the start event again, on time, in
      between; where that cannot happen no forbidden event precedes a negative match. */
  lemma MatchAfterAbortNeedsRestart(cfg: Config, es: seq<Event>, i: nat, n: nat, x: Entry)
    requires Proper(cfg.patterns) && cfg.lateness >= 0 && Identified(es) && i < n < |es|
    requires Stored(Run(cfg, es[..i]), x.memberID, x.progressID)
    requires Sound(cfg.patterns, x.memberID, x.progressID, StoredAt(Run(cfg, es[..i]), x.memberID, x.progressID))
    requires AbortedBy(cfg, es[..i], es[i], x.memberID, x.progressID)
    requires FiresAfter(cfg, es[..n], es[n], x)
    ensures exists k :: i < k < n && Restarts(cfg, Run(cfg, es[..k]), es[k], x.memberID, x.progressID)
  {
    hide Run, Next, Out, Restarts;
    assert es[..i + 1] == es[..i] + [es[i]] && es == es[..i + 1] + es[i + 1..];
    PrefixIsIdentified(es[..i + 1], es[i + 1..]);
    NegativeExitInRuns(cfg, es[..i], es[i], x.memberID, x.progressID);
    RunSnoc(cfg, es[..i], es[i]);
    hide AbortedBy, Leaves, Identified, Sound, Stored;
    RunsKeepInv(cfg, true, es[..n]);
    ExpiredWasStored(cfg, Run(cfg, es[..n]), es[n], x);
    if forall k :: i < k < n ==> !Restarts(cfg, Run(cfg, es[..k]), es[k], x.memberID, x.progressID) {
      GoneUntilRestart(cfg, es, i + 1, n, x.memberID, x.progressID);
    }
  }
}
