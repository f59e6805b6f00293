/** Every match the shard reports is backed by events it accepted. The history of a run is the
    sequence of events processed so far; positions in it are the evidence. */
module Witnesses {
  import opened Basics
  import opened Rules
  import opened Events
  import opened Patterns
  import opened Shards
  import opened Invariants

  /** The i-th event of the history was accepted on time. */
  ghost predicate OnTimeAt(cfg: Config, es: seq<Event>, i: nat)
    requires i < |es|
  {
    !Late(Run(cfg, es[..i]), es[i])
  }

  /** The variables bound by the first |ws| states when `ws` are the events that matched them. */
  ghost function VarsAfter(pat: Pattern, ws: seq<Event>): map<string, Value>
    requires |ws| <= |pat.states|
  {
    if ws == [] then map[]
    else VarsAfter(pat, ws[..|ws| - 1]) + Bindings(ws[|ws| - 1], pat.states[|ws| - 1].contextBinding)
  }

  /** `ws` match the first states of the pattern in order: each under the bindings of the earlier
      ones, inside its own wait from the start, and no event twice. */
  ghost predicate Chain(pat: Pattern, ws: seq<Event>) {
    && 0 < |ws| <= |pat.states|
    && (forall j :: 0 <= j < |ws| ==> ChainAt(pat, ws, j))
    && (forall i, j :: 0 <= i < j < |ws| ==> ws[i].eventID != ws[j].eventID)
  }

  ghost predicate ChainAt(pat: Pattern, ws: seq<Event>, j: nat)
    requires j < |ws| <= |pat.states|
  {
    && !pat.states[j].isNegative
    && Satisfies(ws[j], pat.states[j].condition, VarsAfter(pat, ws[..j]))
    && (j > 0 && pat.states[j].maxWait.Some? ==>
          ws[j].occurredAt <= ws[0].occurredAt + Duration(pat.states[j].maxWait))
  }

  ghost predicate Positions(cfg: Config, es: seq<Event>, m: string, idx: seq<nat>) {
    && (forall j :: 0 <= j < |idx| ==> idx[j] < |es| && es[idx[j]].memberID == m && OnTimeAt(cfg, es, idx[j]))
    && (forall i, j :: 0 <= i < j < |idx| ==> idx[i] < idx[j])
  }

  ghost function Picks(es: seq<Event>, idx: seq<nat>): (ws: seq<Event>)
    requires forall j :: 0 <= j < |idx| ==> idx[j] < |es|
    ensures |ws| == |idx|
    ensures forall j :: 0 <= j < |idx| ==> ws[j] == es[idx[j]]
  {
    seq(|idx|, j requires 0 <= j < |idx| => es[idx[j]])
  }

  /** On-time events of member `m`, in processing order, that match the first |idx| states of `pat`. */
  ghost predicate Witness(cfg: Config, es: seq<Event>, m: string, pat: Pattern, idx: seq<nat>) {
    Positions(cfg, es, m, idx) && Chain(pat, Picks(es, idx))
  }

  /** After position `from`, no on-time event of the member inside the window, other than the ones
      that built the progress, satisfied the forbidden condition. */
  ghost predicate Quiet(cfg: Config, es: seq<Event>, m: string, p: Progress, forbidden: RuleNode, from: nat) {
    forall i: nat :: from < i < |es| && es[i].memberID == m && OnTimeAt(cfg, es, i)
      && es[i].occurredAt <= p.negativeDeadline && es[i].eventID !in p.processedEvents
      ==> !Satisfies(es[i], forbidden, p.variables)
  }

  /** The progress of `pat` is exactly what its evidence says. */
  ghost predicate BuiltBy(cfg: Config, es: seq<Event>, m: string, p: Progress, pat: Pattern, idx: seq<nat>) {
    && |idx| == p.currentStep < |pat.states|
    && Witness(cfg, es, m, pat, idx)
    && |p.processedEvents| == |idx|
    && (forall j :: 0 <= j < |idx| ==> p.processedEvents[j] == es[idx[j]].eventID)
    && p.variables == VarsAfter(pat, Picks(es, idx))
    && p.startedAt == es[idx[0]].occurredAt
  }

  ghost predicate JustifiedBy(cfg: Config, es: seq<Event>, m: string, p: Progress, idx: seq<nat>) {
    FindPattern(cfg.patterns, p.patternID).Some? &&
    var pat := FindPattern(cfg.patterns, p.patternID).value;
    && BuiltBy(cfg, es, m, p, pat, idx)
    && (IsParked(p) ==> Quiet(cfg, es, m, p, pat.states[p.currentStep].condition, idx[|idx| - 1]))
  }

  ghost predicate Justified(cfg: Config, es: seq<Event>, m: string, p: Progress) {
    exists idx :: JustifiedBy(cfg, es, m, p, idx)
  }

  ghost predicate AllJustified(cfg: Config, es: seq<Event>, members: map<string, Member>) {
    forall m, pid :: m in members && pid in members[m].progresses ==>
      Justified(cfg, es, m, members[m].progresses[pid])
  }

  // ---------- Growing the history ----------

  lemma OnTimeInPrefix(cfg: Config, es: seq<Event>, e: Event, i: nat)
    requires i < |es|
    ensures OnTimeAt(cfg, es + [e], i) == OnTimeAt(cfg, es, i)
  {
    assert (es + [e])[..i] == es[..i];
  }

  lemma OnTimeAtEnd(cfg: Config, es: seq<Event>, e: Event)
    ensures OnTimeAt(cfg, es + [e], |es|) == !Late(Run(cfg, es), e)
  {
    assert (es + [e])[..|es|] == es;
  }

  lemma WitnessGrows(cfg: Config, es: seq<Event>, e: Event, m: string, pat: Pattern, idx: seq<nat>)
    requires Witness(cfg, es, m, pat, idx)
    ensures Witness(cfg, es + [e], m, pat, idx)
    ensures Picks(es + [e], idx) == Picks(es, idx)
  {
    assert Picks(es + [e], idx) == Picks(es, idx);
    forall j | 0 <= j < |idx| ensures OnTimeAt(cfg, es + [e], idx[j]) { OnTimeInPrefix(cfg, es, e, idx[j]); }
  }

  /** The last event extends the evidence by one state. */
  lemma WitnessExtends(cfg: Config, es: seq<Event>, e: Event, pat: Pattern, idx: seq<nat>)
    requires Witness(cfg, es, e.memberID, pat, idx) && |idx| < |pat.states| && !Late(Run(cfg, es), e)
    requires !pat.states[|idx|].isNegative
    requires Satisfies(e, pat.states[|idx|].condition, VarsAfter(pat, Picks(es, idx)))
    requires pat.states[|idx|].maxWait.Some? ==>
               e.occurredAt <= es[idx[0]].occurredAt + Duration(pat.states[|idx|].maxWait)
    requires forall j :: 0 <= j < |idx| ==> es[idx[j]].eventID != e.eventID
    ensures Witness(cfg, es + [e], e.memberID, pat, idx + [|es|])
    ensures Picks(es + [e], idx + [|es|]) == Picks(es, idx) + [e]
  {
    hide Satisfies, Run, VarsAfter;
    var ws := Picks(es, idx);
    assert Picks(es + [e], idx + [|es|]) == ws + [e];
    WitnessGrows(cfg, es, e, e.memberID, pat, idx);
    OnTimeAtEnd(cfg, es, e);
    forall j | 0 <= j < |ws| + 1 ensures ChainAt(pat, ws + [e], j) {
      if j < |ws| {
        assert (ws + [e])[..j] == ws[..j] && ChainAt(pat, ws, j);
      } else {
        assert (ws + [e])[..j] == ws;
      }
    }
  }

  lemma WitnessStarts(cfg: Config, es: seq<Event>, e: Event, pat: Pattern)
    requires pat.states != [] && !pat.states[0].isNegative && !Late(Run(cfg, es), e)
    requires Satisfies(e, pat.states[0].condition, map[])
    ensures Witness(cfg, es + [e], e.memberID, pat, [|es|])
    ensures Picks(es + [e], [|es|]) == [e]
    ensures VarsAfter(pat, [e]) == Bindings(e, pat.states[0].contextBinding)
  {
    hide Satisfies, Run;
    assert Picks(es + [e], [|es|]) == [e];
    OnTimeAtEnd(cfg, es, e);
    assert [e][..0] == [];
    assert ChainAt(pat, [e], 0);
  }

  lemma QuietGrows(cfg: Config, es: seq<Event>, e: Event, m: string, p: Progress, forbidden: RuleNode, from: nat)
    requires Quiet(cfg, es, m, p, forbidden, from)
    requires (e.memberID == m && !Late(Run(cfg, es), e) && e.occurredAt <= p.negativeDeadline
              && e.eventID !in p.processedEvents) ==> !Satisfies(e, forbidden, p.variables)
    ensures Quiet(cfg, es + [e], m, p, forbidden, from)
  {
    forall i: nat | from < i < |es + [e]| && (es + [e])[i].memberID == m && OnTimeAt(cfg, es + [e], i)
      && (es + [e])[i].occurredAt <= p.negativeDeadline && (es + [e])[i].eventID !in p.processedEvents
      ensures !Satisfies((es + [e])[i], forbidden, p.variables)
    {
      if i < |es| { OnTimeInPrefix(cfg, es, e, i); } else { OnTimeAtEnd(cfg, es, e); }
    }
  }

  /** A parked progress that an event leaves alone was not hit by the forbidden condition. */
  lemma KeptIsUnharmed(ps: seq<Pattern>, m: string, pid: string, p: Progress, e: Event)
    requires Proper(ps) && Sound(ps, m, pid, p) && IsParked(p) && Advance(ps, e, p) == Keep(p)
    requires e.occurredAt <= p.negativeDeadline && e.eventID !in p.processedEvents
    ensures !Satisfies(e, FindPattern(ps, p.patternID).value.states[p.currentStep].condition, p.variables)
  {
    ParkedIffNegative(ps, m, pid, p);
  }

  lemma BuiltGrows(cfg: Config, es: seq<Event>, e: Event, m: string, p: Progress, pat: Pattern, idx: seq<nat>)
    requires BuiltBy(cfg, es, m, p, pat, idx)
    ensures BuiltBy(cfg, es + [e], m, p, pat, idx)
  {
    WitnessGrows(cfg, es, e, m, pat, idx);
  }

  /** Evidence survives an event that is late, of another member, or without effect on the progress. */
  lemma JustifiedSurvives(cfg: Config, es: seq<Event>, e: Event, m: string, pid: string, p: Progress)
    requires Proper(cfg.patterns) && Justified(cfg, es, m, p) && Sound(cfg.patterns, m, pid, p)
    requires e.memberID == m && !Late(Run(cfg, es), e) ==> Advance(cfg.patterns, e, p) == Keep(p)
    ensures Justified(cfg, es + [e], m, p)
  {
    var idx: seq<nat> :| JustifiedBy(cfg, es, m, p, idx);
    var pat := FindPattern(cfg.patterns, p.patternID).value;
    BuiltGrows(cfg, es, e, m, p, pat, idx);
    if IsParked(p) {
      var forbidden := pat.states[p.currentStep].condition;
      if e.memberID == m && !Late(Run(cfg, es), e) && e.occurredAt <= p.negativeDeadline
        && e.eventID !in p.processedEvents
      {
        KeptIsUnharmed(cfg.patterns, m, pid, p, e);
      }
      QuietGrows(cfg, es, e, m, p, forbidden, idx[|idx| - 1]);
    }
    assert JustifiedBy(cfg, es + [e], m, p, idx);
  }

  /** What it takes for an event to move a progress, and what the move makes of it. */
  lemma MoveNeedsState(ps: seq<Pattern>, m: string, pid: string, p: Progress, e: Event)
    requires Proper(ps) && Sound(ps, m, pid, p)
    requires var o := Advance(ps, e, p); o != Keep(p) && o != Remove
    ensures var pat := FindPattern(ps, p.patternID).value;
            var st := pat.states[p.currentStep];
            && e.eventID !in p.processedEvents && !st.isNegative && Satisfies(e, st.condition, p.variables)
            && (st.maxWait.Some? ==> e.occurredAt <= p.startedAt + Duration(st.maxWait))
            && (match Advance(ps, e, p)
                case Complete(r) =>
                  && p.currentStep + 1 == |pat.states|
                  && r == Match(pat.id, pat.name, e.memberID, Moved(p, e, st).variables, e.occurredAt)
                case Keep(q) => p.currentStep + 1 < |pat.states| && q == Moved(p, e, st)
                case Park(q) =>
                  p.currentStep + 1 < |pat.states| && q == Moved(p, e, st).(negativeDeadline := q.negativeDeadline)
                case Remove => false)
  {
  }

  /** Evidence grows with the progress. */
  lemma BuiltMoves(cfg: Config, es: seq<Event>, e: Event, p: Progress, pat: Pattern, idx: seq<nat>)
    returns (ws: seq<Event>)
    requires BuiltBy(cfg, es, e.memberID, p, pat, idx) && !Late(Run(cfg, es), e)
    requires var st := pat.states[p.currentStep];
             && !st.isNegative && Satisfies(e, st.condition, p.variables)
             && (st.maxWait.Some? ==> e.occurredAt <= p.startedAt + Duration(st.maxWait))
    requires e.eventID !in p.processedEvents
    ensures Witness(cfg, es + [e], e.memberID, pat, idx + [|es|])
    ensures ws == Picks(es + [e], idx + [|es|])
    ensures VarsAfter(pat, ws) == Moved(p, e, pat.states[p.currentStep]).variables
    ensures forall j :: 0 <= j < |idx| + 1 ==>
              (p.processedEvents + [e.eventID])[j] == (es + [e])[(idx + [|es|])[j]].eventID
  {
    IDsAreNew(cfg, es, e, p, pat, idx);
    WitnessExtends(cfg, es, e, pat, idx);
    ws := Picks(es, idx) + [e];
    VarsMore(pat, Picks(es, idx), e);
    hide Witness, VarsAfter, Satisfies, Run, Late;
  }

  lemma VarsMore(pat: Pattern, ws: seq<Event>, e: Event)
    requires |ws| < |pat.states|
    ensures VarsAfter(pat, ws + [e]) == VarsAfter(pat, ws) + Bindings(e, pat.states[|ws|].contextBinding)
  {
    assert (ws + [e])[..|ws|] == ws;
  }

  /** The processed IDs of a progress are those of its evidence, so a new ID is not among them. */
  lemma IDsAreNew(cfg: Config, es: seq<Event>, e: Event, p: Progress, pat: Pattern, idx: seq<nat>)
    requires BuiltBy(cfg, es, e.memberID, p, pat, idx) && e.eventID !in p.processedEvents
    ensures forall j :: 0 <= j < |idx| ==> idx[j] < |es| && es[idx[j]].eventID != e.eventID
    ensures forall j :: 0 <= j < |idx| + 1 ==>
              (p.processedEvents + [e.eventID])[j] == (es + [e])[(idx + [|es|])[j]].eventID
  {
    hide Chain, OnTimeAt, VarsAfter;
    forall j | 0 <= j < |idx| ensures es[idx[j]].eventID != e.eventID {
      assert p.processedEvents[j] == es[idx[j]].eventID;
    }
  }

  lemma JustifiedMoves(cfg: Config, es: seq<Event>, e: Event, pid: string, p: Progress)
    requires Proper(cfg.patterns) && Justified(cfg, es, e.memberID, p) && Sound(cfg.patterns, e.memberID, pid, p)
    requires !Late(Run(cfg, es), e)
    requires Stays(Advance(cfg.patterns, e, p)) && Advance(cfg.patterns, e, p) != Keep(p)
    ensures Justified(cfg, es + [e], e.memberID, Advance(cfg.patterns, e, p).progress)
  {
    hide Advance, Satisfies, Witness;
    var p' := Advance(cfg.patterns, e, p).progress;
    MoveNeedsState(cfg.patterns, e.memberID, pid, p, e);
    var idx: seq<nat> :| JustifiedBy(cfg, es, e.memberID, p, idx);
    BuiltGains(cfg, es, e, p, p', FindPattern(cfg.patterns, p.patternID).value, idx);
    assert JustifiedBy(cfg, es + [e], e.memberID, p', idx + [|es|]);
  }

  lemma BuiltGains(cfg: Config, es: seq<Event>, e: Event, p: Progress, p': Progress, pat: Pattern, idx: seq<nat>)
    requires BuiltBy(cfg, es, e.memberID, p, pat, idx) && !Late(Run(cfg, es), e) && e.eventID !in p.processedEvents
    requires p.currentStep + 1 < |pat.states|
    requires var st := pat.states[p.currentStep];
             && !st.isNegative && Satisfies(e, st.condition, p.variables)
             && (st.maxWait.Some? ==> e.occurredAt <= p.startedAt + Duration(st.maxWait))
             && p' == Moved(p, e, st).(negativeDeadline := p'.negativeDeadline)
    ensures BuiltBy(cfg, es + [e], e.memberID, p', pat, idx + [|es|])
  {
    var ws := BuiltMoves(cfg, es, e, p, pat, idx);
    assert (es + [e])[(idx + [|es|])[0]] == es[idx[0]];
  }

  lemma JustifiedOpens(cfg: Config, es: seq<Event>, e: Event, pat: Pattern)
    requires Proper(cfg.patterns) && pat in cfg.patterns && |pat.states| >= 2 && !Late(Run(cfg, es), e)
    requires Satisfies(e, pat.states[0].condition, map[])
    ensures Justified(cfg, es + [e], e.memberID, NewProgress(pat, e))
  {
    FindsItself(cfg.patterns, pat);
    WitnessStarts(cfg, es, e, pat);
    assert JustifiedBy(cfg, es + [e], e.memberID, NewProgress(pat, e), [|es|]);
  }

  // ---------- The invariant ----------

  lemma MatchedIsJustified(cfg: Config, es: seq<Event>, e: Event)
    requires Proper(cfg.patterns) && AllJustified(cfg, es, Run(cfg, es).members) && !Late(Run(cfg, es), e)
    ensures AllJustified(cfg, es + [e], Matched(cfg, true, Run(cfg, es), e))
  {
    var s := Run(cfg, es);
    RunsKeepInv(cfg, true, es);
    var members := Matched(cfg, true, s, e);
    forall m, pid | m in members && pid in members[m].progresses
      ensures Justified(cfg, es + [e], m, members[m].progresses[pid])
    {
      if m != e.memberID {
        assert ProgressOK(cfg.patterns, s.heap, m, pid, s.members[m].progresses[pid]);
        JustifiedSurvives(cfg, es, e, m, pid, s.members[m].progresses[pid]);
      } else {
        CepIsJustified(cfg, es, e, pid);
      }
    }
  }

  lemma CepIsJustified(cfg: Config, es: seq<Event>, e: Event, pid: string)
    requires Proper(cfg.patterns) && AllJustified(cfg, es, Run(cfg, es).members) && !Late(Run(cfg, es), e)
    requires pid in CepOf(cfg, true, Run(cfg, es), e).progs
    ensures Justified(cfg, es + [e], e.memberID, CepOf(cfg, true, Run(cfg, es), e).progs[pid])
  {
    var s, ps := Run(cfg, es), cfg.patterns;
    var kept := KeptBy(cfg, true, s, e);
    var started := Started(Advanced(ps, e, kept), [], {});
    StartsAdds(ps, e, started, pid);
    if pid in Advanced(ps, e, kept) {
      RunsKeepInv(cfg, true, es);
      assert ProgressOK(ps, s.heap, e.memberID, pid, kept[pid]);
      if Advance(ps, e, kept[pid]) == Keep(kept[pid]) {
        JustifiedSurvives(cfg, es, e, e.memberID, pid, kept[pid]);
      } else {
        JustifiedMoves(cfg, es, e, pid, kept[pid]);
      }
    } else {
      var pat :| pat in ps && Opened(pat, e, pid, Starts(ps, e, started));
      JustifiedOpens(cfg, es, e, pat);
    }
  }

  lemma {:induction false} RunsAreJustified(cfg: Config, es: seq<Event>)
    requires Proper(cfg.patterns)
    ensures AllJustified(cfg, es, Run(cfg, es).members)
    decreases |es|
  {
    if es != [] {
      var init, e := es[..|es| - 1], es[|es| - 1];
      assert es == init + [e];
      RunsAreJustified(cfg, init);
      var s := Run(cfg, init);
      RunsKeepInv(cfg, true, init);
      if Late(s, e) {
        forall m, pid | m in Run(cfg, es).members && pid in Run(cfg, es).members[m].progresses
          ensures Justified(cfg, es, m, Run(cfg, es).members[m].progresses[pid])
        {
          assert m in s.members && pid in s.members[m].progresses;
          assert ProgressOK(cfg.patterns, s.heap, m, pid, s.members[m].progresses[pid]);
          JustifiedSurvives(cfg, init, e, m, pid, s.members[m].progresses[pid]);
        }
      } else {
        MatchedIsJustified(cfg, init, e);
      }
    }
  }

  // ---------- The theorems ----------

  /** A completed pattern has a witness for all its states, the last being the event that
      completed it, and the match carries exactly the bindings of the witness. */
  lemma PositiveMatchHasWitness(cfg: Config, es: seq<Event>, e: Event, pid: string)
    returns (pat: Pattern, idx: seq<nat>)
    requires Proper(cfg.patterns) && pid in Out(cfg, Run(cfg, es), e).completed
    ensures pat in cfg.patterns && |idx| == |pat.states| && idx[|idx| - 1] == |es|
    ensures Witness(cfg, es + [e], e.memberID, pat, idx)
    ensures pid == ProgressID(pat.id, e.memberID, (es + [e])[idx[0]].eventID)
    ensures Out(cfg, Run(cfg, es), e).completed[pid]
         == Match(pat.id, pat.name, e.memberID, VarsAfter(pat, Picks(es + [e], idx)), e.occurredAt)
  {
    hide Advance, Satisfies, Witness, Out, Next;
    var s := Run(cfg, es);
    RunsKeepInv(cfg, true, es);
    RunsAreJustified(cfg, es);
    var p := CompletedComesFrom(cfg, s, e, pid);
    MoveNeedsState(cfg.patterns, e.memberID, pid, p, e);
    pat := FindPattern(cfg.patterns, p.patternID).value;
    assert Justified(cfg, es, e.memberID, s.members[e.memberID].progresses[pid]);
    var idx0, ws := CompletionGains(cfg, es, e, p);
    idx := idx0 + [|es|];
  }

  lemma CompletedComesFrom(cfg: Config, s: Shard, e: Event, pid: string) returns (p: Progress)
    requires Inv(cfg, s) && pid in Out(cfg, s, e).completed
    ensures !Late(s, e) && e.memberID in s.members && pid in s.members[e.memberID].progresses
    ensures p == s.members[e.memberID].progresses[pid] && Sound(cfg.patterns, e.memberID, pid, p)
    ensures Advance(cfg.patterns, e, p) == Complete(Out(cfg, s, e).completed[pid])
  {
    p := KeptBy(cfg, true, s, e)[pid];
    assert ProgressOK(cfg.patterns, s.heap, e.memberID, pid, p);
  }

  lemma CompletionGains(cfg: Config, es: seq<Event>, e: Event, p: Progress)
    returns (idx: seq<nat>, ws: seq<Event>)
    requires Justified(cfg, es, e.memberID, p) && !Late(Run(cfg, es), e) && e.eventID !in p.processedEvents
    requires FindPattern(cfg.patterns, p.patternID).Some?
    requires var pat := FindPattern(cfg.patterns, p.patternID).value;
             && p.currentStep + 1 == |pat.states|
             && var st := pat.states[p.currentStep];
             && !st.isNegative && Satisfies(e, st.condition, p.variables)
             && (st.maxWait.Some? ==> e.occurredAt <= p.startedAt + Duration(st.maxWait))
    ensures var pat := FindPattern(cfg.patterns, p.patternID).value;
            && |idx| == p.currentStep > 0 && |p.processedEvents| > 0
            && Witness(cfg, es + [e], e.memberID, pat, idx + [|es|])
            && p.processedEvents[0] == (es + [e])[(idx + [|es|])[0]].eventID
            && VarsAfter(pat, Picks(es + [e], idx + [|es|])) == Moved(p, e, pat.states[p.currentStep]).variables
  {
    idx :| JustifiedBy(cfg, es, e.memberID, p, idx);
    ws := BuiltMoves(cfg, es, e, p, FindPattern(cfg.patterns, p.patternID).value, idx);
  }

  /** A passed deadline has a witness for all states but the negative one; the match is stamped with
      start + MaxWait, the watermark is past it, and nothing forbidden came in the meantime. */
  lemma NegativeMatchHasWitness(cfg: Config, es: seq<Event>, e: Event, x: Entry)
    returns (pat: Pattern, idx: seq<nat>, p: Progress)
    requires Proper(cfg.patterns) && x in Out(cfg, Run(cfg, es), e).expired
    ensures pat in cfg.patterns && 0 < |idx| == |pat.states| - 1 && pat.states[|idx|].isNegative
    ensures Witness(cfg, es + [e], x.memberID, pat, idx)
    ensures x.deadline == (es + [e])[idx[0]].occurredAt + Duration(pat.states[|idx|].maxWait)
    ensures x.deadline < Run(cfg, es + [e]).watermark
    ensures Out(cfg, Run(cfg, es), e).expired[x]
         == Match(pat.id, pat.name, x.memberID, VarsAfter(pat, Picks(es + [e], idx)), x.deadline)
    ensures p.negativeDeadline == x.deadline && p.variables == VarsAfter(pat, Picks(es + [e], idx))
    ensures |p.processedEvents| == |idx|
         && forall j :: 0 <= j < |idx| ==> p.processedEvents[j] == (es + [e])[idx[j]].eventID
    ensures Quiet(cfg, es + [e], x.memberID, p, pat.states[|idx|].condition, idx[|idx| - 1])
  {
    var s := Run(cfg, es);
    var members := Matched(cfg, true, s, e);
    p := Parked(members, x);
    RunsKeepInv(cfg, true, es);
    RunsAreJustified(cfg, es);
    MatchedIsJustified(cfg, es, e);
    MatchedIsOK(cfg, true, s, e, x.memberID);
    assert ProgressOK(cfg.patterns, s.heap + CepOf(cfg, true, s, e).parked, x.memberID, x.progressID, p);
    ParkedIffNegative(cfg.patterns, x.memberID, x.progressID, p);
    idx :| JustifiedBy(cfg, es + [e], x.memberID, p, idx);
    pat := FindPattern(cfg.patterns, p.patternID).value;
    RunSnoc(cfg, es, e);
  }

  lemma WatermarkNeverFalls(cfg: Config, es: seq<Event>, i: nat, j: nat)
    requires i <= j <= |es|
    ensures Run(cfg, es[..i]).watermark <= Run(cfg, es[..j]).watermark
    decreases j
  {
    hide Run;
    if i < j {
      WatermarkNeverFalls(cfg, es, i, j - 1);
      WatermarkStep(cfg, es, j);
    }
  }

  lemma WatermarkStep(cfg: Config, es: seq<Event>, j: nat)
    requires 0 < j <= |es|
    ensures Run(cfg, es[..j - 1]).watermark <= Run(cfg, es[..j]).watermark
  {
    hide NextWith, Run;
    assert es[..j] == es[..j - 1] + [es[j - 1]];
    RunSnoc(cfg, es[..j - 1], es[j - 1]);
    WatermarkOf(cfg, true, Run(cfg, es[..j - 1]), es[j - 1]);
  }

  /** A negative match is never contradicted: whatever is accepted on time after it happened later
      than its deadline. */
  lemma NegativeMatchIsFinal(cfg: Config, es: seq<Event>, n: nat, x: Entry, i: nat)
    requires Proper(cfg.patterns)
    requires n < i < |es| && x in Out(cfg, Run(cfg, es[..n]), es[n]).expired
    requires OnTimeAt(cfg, es, i)
    ensures es[i].occurredAt > x.deadline
  {
    hide Next, Out, Run;
    assert es[..n + 1] == es[..n] + [es[n]];
    RunSnoc(cfg, es[..n], es[n]);
    ExpiredIsDue(cfg, Run(cfg, es[..n]), es[n], x);
    WatermarkNeverFalls(cfg, es, n + 1, i);
  }

  lemma ExpiredIsDue(cfg: Config, s: Shard, e: Event, x: Entry)
    requires x in Out(cfg, s, e).expired
    ensures x.deadline < Next(cfg, s, e).watermark
  {
  }

  /** The matches of single-state patterns: one per pattern the event satisfies, in pattern order. */
  function Instants(ps: seq<Pattern>, e: Event): seq<Match> {
    if ps == [] then []
    else
      var pat := ps[|ps| - 1];
      Instants(ps[..|ps| - 1], e) +
      (if |pat.states| == 1 && Satisfies(e, pat.states[0].condition, map[])
       then [Match(pat.id, pat.name, e.memberID, Bindings(e, pat.states[0].contextBinding), e.occurredAt)]
       else [])
  }

  /** No stored progress hides a single-state match. */
  lemma SingleIsNeverStored(ps: seq<Pattern>, m: string, id: string, p: Progress, pat: Pattern, eventID: string)
    requires Proper(ps) && Sound(ps, m, id, p) && pat in ps && |pat.states| == 1
    ensures id != ProgressID(pat.id, m, eventID)
  {
    if id == ProgressID(pat.id, m, eventID) {
      var q := FindPattern(ps, p.patternID).value;
      ProgressIDInjective(p.patternID, pat.id, m, p.processedEvents[0], eventID);
      FindsItself(ps, pat);
      assert false;
    }
  }

  lemma {:induction false} StartsInstants(ps: seq<Pattern>, all: seq<Pattern>, e: Event, s: Started)
    requires Proper(all) && ps <= all && e.occurredAt >= 0
    requires forall id :: id in s.progs ==> Sound(all, e.memberID, id, s.progs[id])
    ensures Starts(ps, e, s).instants == s.instants + Instants(ps, e)
    ensures forall id :: id in Starts(ps, e, s).progs ==> Sound(all, e.memberID, id, Starts(ps, e, s).progs[id])
  {
    hide Satisfies, Sound, Proper, ProgressID, Bindings;
    if ps != [] {
      var init, pat := ps[..|ps| - 1], ps[|ps| - 1];
      StartsInstants(init, all, e, s);
      assert pat in all;
      var mid := Starts(init, e, s);
      if |pat.states| == 1 {
        forall id | id in mid.progs ensures id != ProgressID(pat.id, e.memberID, e.eventID) {
          SingleIsNeverStored(all, e.memberID, id, mid.progs[id], pat, e.eventID);
        }
      } else if |pat.states| >= 2 {
        NewIsSound(all, pat, e);
      }
    }
  }

  /** An on-time event reports exactly the single-state patterns it satisfies. */
  lemma InstantMatchesExact(cfg: Config, s: Shard, e: Event)
    requires Proper(cfg.patterns) && Inv(cfg, s) && !Late(s, e)
    ensures Out(cfg, s, e).instants == Instants(cfg.patterns, e)
  {
    var ps, kept := cfg.patterns, KeptBy(cfg, true, s, e);
    var adv := Advanced(ps, e, kept);
    forall id | id in adv ensures Sound(ps, e.memberID, id, adv[id]) {
      assert ProgressOK(ps, s.heap, e.memberID, id, kept[id]);
      AdvanceKeepsSound(ps, e.memberID, id, kept[id], e);
    }
    StartsInstants(ps, ps, e, Started(adv, [], {}));
  }
}
