/** When the sweep of expired progresses (service/engine/core/cep.go) cannot be noticed: exactly when
    no pattern has a wait that its last state does not bound. */
module SweepTransparency {
  import opened Basics
  import opened Rules
  import opened Events
  import opened Patterns
  import opened Shards
  import opened Invariants
  import opened Witnesses
  import opened NegativeExits
  import opened Reopenings
  import opened Scenarios

  /** No state has a wait, or the last one is positive and has one. A pattern of one state is never
      stored. */
  predicate Closed(pat: Pattern) {
    || |pat.states| <= 1
    || MaxWait(pat.states) == 0
    || (!pat.states[|pat.states| - 1].isNegative && pat.states[|pat.states| - 1].maxWait.Some?)
  }

  ghost predicate AllClosed(ps: seq<Pattern>) { forall pat :: pat in ps ==> Closed(pat) }

  /** A progress of a pattern that can be swept, and past all its waits at `t`. */
  ghost predicate Spent(ps: seq<Pattern>, p: Progress, t: int) {
    FindPattern(ps, p.patternID).Some? &&
    var pat := FindPattern(ps, p.patternID).value;
    0 < MaxWait(pat.states) < t - p.startedAt
  }

  lemma SweepsTheSpent(ps: seq<Pattern>, m: string, pid: string, p: Progress, wm: int)
    requires Sound(ps, m, pid, p)
    ensures Sweeps(ps, p, wm) <==> Spent(ps, p, wm)
  {
  }

  /** A spent progress of a closed pattern can only linger or be dropped: it cannot complete, and has no
      negative state to be parked on. */
  lemma SpentLingers(ps: seq<Pattern>, m: string, pid: string, p: Progress, e: Event, t: int)
    requires Proper(ps) && AllClosed(ps) && Sound(ps, m, pid, p) && Spent(ps, p, t) && t <= e.occurredAt
    ensures !IsParked(p)
    ensures var o := Advance(ps, e, p); o.Remove? || (o.Keep? && Spent(ps, o.progress, t))
  {
    hide Satisfies;
    ParkedIffNegative(ps, m, pid, p);
    var pat := FindPattern(ps, p.patternID).value;
    assert Closed(pat);
    OnlyLastIsNegative(ps, pat);
  }

  lemma OnlyLastIsNegative(ps: seq<Pattern>, pat: Pattern)
    requires Proper(ps) && pat in ps
    ensures forall j :: 0 <= j < |pat.states| && pat.states[j].isNegative ==> j == |pat.states| - 1
  {
    var i :| 0 <= i < |ps| && ps[i] == pat;
    assert WellShaped(ps[i]);
  }

  /** The event that opened the progress is in the history. */
  ghost predicate Rooted(es: seq<Event>, p: Progress) {
    exists i :: 0 <= i < |es| && RootAt(es[i], p)
  }

  predicate RootAt(e: Event, p: Progress) {
    p.processedEvents != [] && e.eventID == p.processedEvents[0] && e.occurredAt == p.startedAt
  }

  ghost predicate AllRooted(es: seq<Event>, s: Shard) {
    forall m, pid :: m in s.members && pid in s.members[m].progresses ==> Rooted(es, s.members[m].progresses[pid])
  }

  lemma RootedGrows(es: seq<Event>, e: Event, p: Progress, q: Progress)
    requires Rooted(es, p) && p.processedEvents != [] && q.processedEvents != []
    requires q.processedEvents[0] == p.processedEvents[0] && q.startedAt == p.startedAt
    ensures Rooted(es + [e], q)
  {
    var i :| 0 <= i < |es| && RootAt(es[i], p);
    assert RootAt((es + [e])[i], q);
  }

  // ---------- The two runs ----------

  /** Two progress maps that differ only in spent progresses the first has already dropped. */
  ghost predicate Trails(ps: seq<Pattern>, a: map<string, Progress>, b: map<string, Progress>, t: int) {
    && (forall id :: id in a ==> id in b && a[id] == b[id])
    && (forall id :: id in b && id !in a ==> Spent(ps, b[id], t))
  }

  ghost predicate RelatedMember(ps: seq<Pattern>, a: Member, b: Member, t: int) {
    && a.memberID == b.memberID && a.aggs == b.aggs && a.lastSeen == b.lastSeen
    && Trails(ps, a.progresses, b.progresses, t)
  }

  ghost predicate RelatedMembers(ps: seq<Pattern>, a: map<string, Member>, b: map<string, Member>, t: int) {
    a.Keys == b.Keys && forall m :: m in a ==> RelatedMember(ps, a[m], b[m], t)
  }

  /** Swept and unswept runs after the same history. */
  ghost predicate Related(cfg: Config, es: seq<Event>, a: Shard, b: Shard) {
    && a.watermark == b.watermark && a.heap == b.heap
    && RelatedMembers(cfg.patterns, a.members, b.members, a.watermark)
    && AllRooted(es, b)
  }

  ghost predicate AllSound(ps: seq<Pattern>, m: string, progs: map<string, Progress>) {
    forall pid :: pid in progs ==> Sound(ps, m, pid, progs[pid])
  }

  lemma OKIsSound(ps: seq<Pattern>, heap: set<Entry>, m: string, progs: map<string, Progress>)
    requires AllOK(ps, heap, m, progs)
    ensures AllSound(ps, m, progs)
  {
    forall pid | pid in progs ensures Sound(ps, m, pid, progs[pid]) {
      assert ProgressOK(ps, heap, m, pid, progs[pid]);
    }
  }

  /** Sweeping one side keeps them related: it drops spent progresses only. */
  lemma SweepTrails(ps: seq<Pattern>, m: string, a: map<string, Progress>, b: map<string, Progress>, t: int, wm: int)
    requires Trails(ps, a, b, t) && AllSound(ps, m, b) && t <= wm
    ensures Trails(ps, Swept(ps, a, wm), b, wm)
  {
    hide Sound;
    forall pid | pid in b && pid !in Swept(ps, a, wm) ensures Spent(ps, b[pid], wm) {
      SweepsTheSpent(ps, m, pid, b[pid], wm);
    }
  }

  /** Whatever only `b` holds is spent at `t`, and the event moves it on or drops it. */
  ghost predicate ExtrasLinger(ps: seq<Pattern>, e: Event, a: map<string, Progress>, b: map<string, Progress>, t: int) {
    forall pid :: pid in b && pid !in a ==> Spent(ps, b[pid], t) && Lingers(ps, e, b[pid], t)
  }

  ghost predicate Lingers(ps: seq<Pattern>, e: Event, p: Progress, t: int) {
    var o := Advance(ps, e, p);
    o.Remove? || (o.Keep? && Spent(ps, o.progress, t))
  }

  lemma TrailersLinger(ps: seq<Pattern>, e: Event, a: map<string, Progress>, b: map<string, Progress>, wm: int)
    requires Proper(ps) && AllClosed(ps) && Trails(ps, a, b, wm) && AllSound(ps, e.memberID, b) && wm <= e.occurredAt
    ensures ExtrasLinger(ps, e, a, b, wm)
  {
    hide Advance, Spent, Proper, AllClosed, Sound;
    forall pid | pid in b && pid !in a ensures Spent(ps, b[pid], wm) && Lingers(ps, e, b[pid], wm) {
      SpentLingers(ps, e.memberID, pid, b[pid], e, wm);
    }
  }

  lemma AdvanceTrails(ps: seq<Pattern>, e: Event, a: map<string, Progress>, b: map<string, Progress>, wm: int)
    requires Trails(ps, a, b, wm) && ExtrasLinger(ps, e, a, b, wm)
    ensures Trails(ps, Advanced(ps, e, a), Advanced(ps, e, b), wm)
    ensures forall pid :: pid in Advanced(ps, e, b) && pid !in Advanced(ps, e, a) ==> pid in b && Spent(ps, b[pid], wm)
  {
    hide Advance, Spent;
  }

  lemma SameCompletions(ps: seq<Pattern>, e: Event, a: map<string, Progress>, b: map<string, Progress>, wm: int)
    requires Trails(ps, a, b, wm) && ExtrasLinger(ps, e, a, b, wm)
    ensures Completions(ps, e, a) == Completions(ps, e, b)
    ensures Parkings(ps, e, a) == Parkings(ps, e, b)
  {
    hide Advance, Spent;
    assert Completions(ps, e, a).Keys == Completions(ps, e, b).Keys;
  }

  /** No pattern would give a progress only one side has to this event. */
  ghost predicate Apart(ps: seq<Pattern>, e: Event, a: map<string, Progress>, b: map<string, Progress>) {
    forall id, pat :: id in b && id !in a && pat in ps ==> id != ProgressID(pat.id, e.memberID, e.eventID)
  }

  /** The start event of a spent progress would be late, so this on-time event is not it. */
  lemma SpentIsNotNamed(ps: seq<Pattern>, es: seq<Event>, e: Event, pid: string, p: Progress, wm: int, pat: Pattern)
    requires Proper(ps) && Sound(ps, e.memberID, pid, p) && Spent(ps, p, wm) && wm <= e.occurredAt && pat in ps
    requires Rooted(es, p) && Identified(es + [e])
    ensures pid != ProgressID(pat.id, e.memberID, e.eventID)
  {
    var i :| 0 <= i < |es| && RootAt(es[i], p);
    assert (es + [e])[i] == es[i] && (es + [e])[|es|] == e;
    if pid == ProgressID(pat.id, e.memberID, e.eventID) {
      BarFree(ps, p, pat);
      ProgressIDInjective(pat.id, p.patternID, e.memberID, e.eventID, p.processedEvents[0]);
      assert false;
    }
  }

  lemma BarFree(ps: seq<Pattern>, p: Progress, pat: Pattern)
    requires Proper(ps) && pat in ps && FindPattern(ps, p.patternID).Some?
    ensures '|' !in pat.id && '|' !in p.patternID
  {
    assert FindPattern(ps, p.patternID).value in ps;
  }

  lemma StartTrails(ps: seq<Pattern>, all: seq<Pattern>, pat: Pattern, e: Event, s: Started, r: Started, t: int)
    requires pat in ps && s.instants == r.instants && s.parked == r.parked
    requires Trails(all, s.progs, r.progs, t) && Apart(ps, e, s.progs, r.progs)
    ensures var s', r' := Start(pat, e, s), Start(pat, e, r);
            && s'.instants == r'.instants && s'.parked == r'.parked
            && Trails(all, s'.progs, r'.progs, t) && Apart(ps, e, s'.progs, r'.progs)
  {
    hide Satisfies, Spent, ProgressID, EntryOf;
    var id := ProgressID(pat.id, e.memberID, e.eventID);
    assert id in s.progs <==> id in r.progs;
  }

  lemma {:induction false} StartsTrail(ps: seq<Pattern>, all: seq<Pattern>, e: Event, s: Started, r: Started, t: int)
    requires ps <= all && s.instants == r.instants && s.parked == r.parked
    requires Trails(all, s.progs, r.progs, t) && Apart(all, e, s.progs, r.progs)
    ensures var s', r' := Starts(ps, e, s), Starts(ps, e, r);
            && s'.instants == r'.instants && s'.parked == r'.parked
            && Trails(all, s'.progs, r'.progs, t) && Apart(all, e, s'.progs, r'.progs)
  {
    hide Start, Trails, Apart;
    if ps != [] {
      var init, last := ps[..|ps| - 1], ps[|ps| - 1];
      StartsTrail(init, all, e, s, r, t);
      assert last in all;
      StartTrails(all, all, last, e, Starts(init, e, s), Starts(init, e, r), t);
    }
  }

  /** Matching an event reports the same on both sides and keeps them related. */
  lemma CepTrails(ps: seq<Pattern>, es: seq<Event>, e: Event, a: map<string, Progress>, b: map<string, Progress>,
                  wm: int)
    requires Proper(ps) && AllClosed(ps) && Trails(ps, a, b, wm) && AllSound(ps, e.memberID, b) && wm <= e.occurredAt
    requires Identified(es + [e]) && forall pid :: pid in b ==> Rooted(es, b[pid])
    ensures var r, s := Cep(ps, e, a), Cep(ps, e, b);
            && r.completed == s.completed && r.instants == s.instants && r.parked == s.parked
            && Trails(ps, r.progs, s.progs, wm)
  {
    hide Advance, Spent, Proper, AllClosed, Rooted, Identified, Starts, Trails, ExtrasLinger, Advanced, Completions;
    hide Parkings;
    TrailersLinger(ps, e, a, b, wm);
    AdvanceTrails(ps, e, a, b, wm);
    SameCompletions(ps, e, a, b, wm);
    var x, y := Advanced(ps, e, a), Advanced(ps, e, b);
    forall pid, pat | pid in y && pid !in x && pat in ps ensures pid != ProgressID(pat.id, e.memberID, e.eventID) {
      SpentIsNotNamed(ps, es, e, pid, b[pid], wm, pat);
    }
    StartsTrail(ps, ps, e, Started(x, [], {}), Started(y, [], {}), wm);
  }

  lemma CepOfTrails(cfg: Config, es: seq<Event>, e: Event, a: Shard, b: Shard)
    requires Proper(cfg.patterns) && AllClosed(cfg.patterns) && cfg.lateness >= 0 && Identified(es + [e])
    requires Related(cfg, es, a, b) && Inv(cfg, b) && !Late(a, e)
    ensures var r, s := CepOf(cfg, true, a, e), CepOf(cfg, false, b, e);
            && r.completed == s.completed && r.instants == s.instants && r.parked == s.parked
            && Trails(cfg.patterns, r.progs, s.progs, Reached(cfg, a, e))
  {
    hide Cep, Spent, Proper, AllClosed, Rooted, Identified, Sound, AllOK;
    var ps, wm := cfg.patterns, Reached(cfg, a, e);
    var pa, pb := MemberOf(a.members, e.memberID).progresses, MemberOf(b.members, e.memberID).progresses;
    if e.memberID in a.members {
      assert RelatedMember(ps, a.members[e.memberID], b.members[e.memberID], a.watermark);
      OKIsSound(ps, b.heap, e.memberID, pb);
    }
    SweepTrails(ps, e.memberID, pa, pb, a.watermark, wm);
    CepTrails(ps, es, e, Swept(ps, pa, wm), pb, wm);
  }

  lemma LaterTrails(ps: seq<Pattern>, a: Member, b: Member, t: int, t': int)
    requires RelatedMember(ps, a, b, t) && t <= t'
    ensures RelatedMember(ps, a, b, t')
  {
  }

  lemma MatchedTrails(cfg: Config, es: seq<Event>, e: Event, a: Shard, b: Shard)
    requires Related(cfg, es, a, b)
    requires Trails(cfg.patterns, CepOf(cfg, true, a, e).progs, CepOf(cfg, false, b, e).progs, Reached(cfg, a, e))
    ensures RelatedMembers(cfg.patterns, Matched(cfg, true, a, e), Matched(cfg, false, b, e), Reached(cfg, a, e))
  {
    hide AllRooted, CepOf, Trails;
    if e.memberID in a.members {
      assert RelatedMember(cfg.patterns, a.members[e.memberID], b.members[e.memberID], a.watermark);
    }
    forall m | m in a.members && m != e.memberID
      ensures RelatedMember(cfg.patterns, a.members[m], b.members[m], Reached(cfg, a, e))
    {
      LaterTrails(cfg.patterns, a.members[m], b.members[m], a.watermark, Reached(cfg, a, e));
    }
  }

  // ---------- The drain ----------

  ghost predicate AllMembersSound(ps: seq<Pattern>, members: map<string, Member>) {
    forall m :: m in members ==> AllSound(ps, m, members[m].progresses)
  }

  lemma SpentIsUnparked(ps: seq<Pattern>, m: string, pid: string, p: Progress, t: int)
    requires Proper(ps) && AllClosed(ps) && Sound(ps, m, pid, p) && Spent(ps, p, t)
    ensures !IsParked(p)
  {
    SpentLingers(ps, m, pid, p, Event("", m, "", map[], t), t);
  }

  lemma DrainTrails(ps: seq<Pattern>, a: map<string, Member>, b: map<string, Member>, due: set<Entry>, t: int)
    requires Proper(ps) && AllClosed(ps) && RelatedMembers(ps, a, b, t) && AllMembersSound(ps, b)
    ensures RelatedMembers(ps, Drained(a, due), Drained(b, due), t)
  {
    hide Undue, Trails, Proper, AllClosed, AllSound;
    forall m | m in a
      ensures Trails(ps, Undue(a[m].progresses, m, due), Undue(b[m].progresses, m, due), t)
    {
      assert RelatedMember(ps, a[m], b[m], t) && AllSound(ps, m, b[m].progresses);
      UndueTrails(ps, m, a[m].progresses, b[m].progresses, due, t);
    }
  }

  lemma UndueTrails(ps: seq<Pattern>, m: string, a: map<string, Progress>, b: map<string, Progress>, due: set<Entry>,
                    t: int)
    requires Proper(ps) && AllClosed(ps) && Trails(ps, a, b, t) && AllSound(ps, m, b)
    ensures Trails(ps, Undue(a, m, due), Undue(b, m, due), t)
  {
    hide Spent, Proper, AllClosed, Sound;
    forall pid | pid in b && pid !in a ensures !IsParked(b[pid]) {
      SpentIsUnparked(ps, m, pid, b[pid], t);
    }
  }

  lemma SameExpired(ps: seq<Pattern>, a: map<string, Member>, b: map<string, Member>, due: set<Entry>, t: int)
    requires Proper(ps) && AllClosed(ps) && RelatedMembers(ps, a, b, t) && AllMembersSound(ps, b)
    ensures Expired(ps, a, due) == Expired(ps, b, due)
  {
    hide Spent, Proper, AllClosed, Sound;
    forall x | x in due ensures IsLive(a, x) <==> IsLive(b, x)
                        ensures IsLive(a, x) ==> Parked(a, x) == Parked(b, x)
    {
      if x.memberID in a {
        assert RelatedMember(ps, a[x.memberID], b[x.memberID], t) && AllSound(ps, x.memberID, b[x.memberID].progresses);
        var progs := b[x.memberID].progresses;
        if x.progressID in progs && x.progressID !in a[x.memberID].progresses {
          SpentIsUnparked(ps, x.memberID, x.progressID, progs[x.progressID], t);
        }
      }
    }
    assert Expired(ps, a, due).Keys == Expired(ps, b, due).Keys;
  }

  lemma MatchedIsSound(cfg: Config, s: Shard, e: Event)
    requires Proper(cfg.patterns) && Inv(cfg, s) && !Late(s, e)
    ensures AllMembersSound(cfg.patterns, Matched(cfg, false, s, e))
  {
    hide Inv, Proper, Matched;
    forall m | m in Matched(cfg, false, s, e)
      ensures AllSound(cfg.patterns, m, Matched(cfg, false, s, e)[m].progresses)
    {
      MatchedIsOK(cfg, false, s, e, m);
      OKIsSound(cfg.patterns, s.heap + CepOf(cfg, false, s, e).parked, m, Matched(cfg, false, s, e)[m].progresses);
    }
  }

  // ---------- One step, and whole runs ----------

  lemma LateStaysRelated(cfg: Config, es: seq<Event>, e: Event, a: Shard, b: Shard)
    requires Related(cfg, es, a, b) && Late(a, e)
    ensures var a', b' := NextWith(cfg, true, a, e), NextWith(cfg, false, b, e);
            && a'.watermark == b'.watermark && a'.heap == b'.heap
            && RelatedMembers(cfg.patterns, a'.members, b'.members, a'.watermark)
    ensures OutWith(cfg, true, a, e) == OutWith(cfg, false, b, e)
  {
    hide AllRooted, Trails;
    if e.memberID in a.members {
      assert RelatedMember(cfg.patterns, a.members[e.memberID], b.members[e.memberID], a.watermark);
    } else {
      assert Trails(cfg.patterns, map[], map[], a.watermark) by { NothingTrails(cfg.patterns, a.watermark); }
    }
  }

  lemma NothingTrails(ps: seq<Pattern>, t: int)
    ensures Trails(ps, map[], map[], t)
  {
  }

  lemma StepMeans(cfg: Config, sweep: bool, s: Shard, e: Event)
    requires !Late(s, e)
    ensures var r, members, wm := CepOf(cfg, sweep, s, e), Matched(cfg, sweep, s, e), Reached(cfg, s, e);
            var heap := s.heap + r.parked;
            && NextWith(cfg, sweep, s, e) == Shard(Drained(members, Due(heap, wm)), wm, heap - Due(heap, wm))
            && OutWith(cfg, sweep, s, e)
               == Output(r.completed, r.instants, Expired(cfg.patterns, members, Due(heap, wm)))
  {
    hide CepOf, Matched, Reached, Due, Drained, Expired;
  }

  lemma RelatedMeans(cfg: Config, es: seq<Event>, a: Shard, b: Shard, e: Event)
    requires Related(cfg, es, a, b)
    ensures a.heap == b.heap && Reached(cfg, a, e) == Reached(cfg, b, e) && Late(a, e) == Late(b, e)
  {
    hide RelatedMembers, AllRooted;
  }

  lemma OnTimeStaysRelated(cfg: Config, es: seq<Event>, e: Event, a: Shard, b: Shard)
    requires Proper(cfg.patterns) && AllClosed(cfg.patterns) && cfg.lateness >= 0 && Identified(es + [e])
    requires Related(cfg, es, a, b) && Inv(cfg, b) && !Late(a, e)
    ensures var a', b' := NextWith(cfg, true, a, e), NextWith(cfg, false, b, e);
            && a'.watermark == b'.watermark && a'.heap == b'.heap
            && RelatedMembers(cfg.patterns, a'.members, b'.members, a'.watermark)
    ensures OutWith(cfg, true, a, e) == OutWith(cfg, false, b, e)
  {
    CepOfTrails(cfg, es, e, a, b);
    MatchedTrails(cfg, es, e, a, b);
    MatchedIsSound(cfg, b, e);
    hide *;
    StepMeans(cfg, true, a, e);
    StepMeans(cfg, false, b, e);
    RelatedMeans(cfg, es, a, b, e);
    var due := Due(a.heap + CepOf(cfg, true, a, e).parked, Reached(cfg, a, e));
    DrainTrails(cfg.patterns, Matched(cfg, true, a, e), Matched(cfg, false, b, e), due, Reached(cfg, a, e));
    SameExpired(cfg.patterns, Matched(cfg, true, a, e), Matched(cfg, false, b, e), due, Reached(cfg, a, e));
  }

  lemma StepStaysRelated(cfg: Config, es: seq<Event>, e: Event, a: Shard, b: Shard)
    requires Proper(cfg.patterns) && AllClosed(cfg.patterns) && cfg.lateness >= 0 && Identified(es + [e])
    requires Related(cfg, es, a, b) && Inv(cfg, b)
    ensures OutWith(cfg, true, a, e) == OutWith(cfg, false, b, e)
    ensures Related(cfg, es + [e], NextWith(cfg, true, a, e), NextWith(cfg, false, b, e))
  {
    StepStaysRooted(cfg, es, e, b);
    hide NextWith, OutWith, Proper, AllClosed, Identified, AllRooted, RelatedMembers, Inv;
    if Late(a, e) {
      LateStaysRelated(cfg, es, e, a, b);
    } else {
      OnTimeStaysRelated(cfg, es, e, a, b);
    }
  }

  lemma StepStaysRooted(cfg: Config, es: seq<Event>, e: Event, s: Shard)
    requires Proper(cfg.patterns) && Inv(cfg, s) && AllRooted(es, s)
    ensures AllRooted(es + [e], NextWith(cfg, false, s, e))
  {
    hide Satisfies, Advance, Sound, Proper, Rooted;
    var s' := NextWith(cfg, false, s, e);
    forall m, pid | m in s'.members && pid in s'.members[m].progresses
      ensures Rooted(es + [e], s'.members[m].progresses[pid])
    {
      if Late(s, e) || m != e.memberID {
        assert ProgressOK(cfg.patterns, s.heap, m, pid, s.members[m].progresses[pid]);
        SoundIsStarted(cfg.patterns, m, pid, s.members[m].progresses[pid]);
        RootedGrows(es, e, s.members[m].progresses[pid], s.members[m].progresses[pid]);
      } else {
        CepStaysRooted(cfg, es, e, s, pid);
      }
    }
  }

  lemma SoundIsStarted(ps: seq<Pattern>, m: string, pid: string, p: Progress)
    requires Sound(ps, m, pid, p)
    ensures p.processedEvents != []
  {
  }

  lemma CepStaysRooted(cfg: Config, es: seq<Event>, e: Event, s: Shard, pid: string)
    requires Proper(cfg.patterns) && Inv(cfg, s) && AllRooted(es, s)
    requires pid in CepOf(cfg, false, s, e).progs
    ensures Rooted(es + [e], CepOf(cfg, false, s, e).progs[pid])
  {
    hide Satisfies, Advance, Sound, Proper, Rooted;
    var ps, kept := cfg.patterns, MemberOf(s.members, e.memberID).progresses;
    var started := Started(Advanced(ps, e, kept), [], {});
    StartsAdds(ps, e, started, pid);
    if pid in Advanced(ps, e, kept) {
      assert ProgressOK(ps, s.heap, e.memberID, pid, kept[pid]);
      MovesKeepRoot(ps, e, pid, kept[pid]);
      RootedGrows(es, e, kept[pid], Advance(ps, e, kept[pid]).progress);
    } else {
      var pat :| pat in ps && Opened(pat, e, pid, Starts(ps, e, started));
      OpensRooted(es, e, pat);
    }
  }

  lemma MovesKeepRoot(ps: seq<Pattern>, e: Event, pid: string, p: Progress)
    requires Sound(ps, e.memberID, pid, p) && Stays(Advance(ps, e, p))
    ensures var q := Advance(ps, e, p).progress;
            && p.processedEvents != [] && q.processedEvents != []
            && q.processedEvents[0] == p.processedEvents[0] && q.startedAt == p.startedAt
  {
    hide Satisfies;
  }

  lemma OpensRooted(es: seq<Event>, e: Event, pat: Pattern)
    requires |pat.states| >= 2
    ensures Rooted(es + [e], NewProgress(pat, e))
  {
    assert RootAt((es + [e])[|es|], NewProgress(pat, e));
  }

  lemma {:induction false} RunsStayRelated(cfg: Config, es: seq<Event>)
    requires Proper(cfg.patterns) && AllClosed(cfg.patterns) && cfg.lateness >= 0 && Identified(es)
    ensures Related(cfg, es, RunWith(cfg, true, es), RunWith(cfg, false, es))
    decreases |es|
  {
    hide NextWith, OutWith, Proper, AllClosed;
    if es != [] {
      var init, e := es[..|es| - 1], es[|es| - 1];
      assert es == init + [e];
      PrefixIsIdentified(init, [e]);
      RunsStayRelated(cfg, init);
      RunsKeepInv(cfg, false, init);
      StepStaysRelated(cfg, init, e, RunWith(cfg, true, init), RunWith(cfg, false, init));
    }
  }

  /** The engine answers `e` after `es` as it would without its sweep. */
  ghost predicate SweepUnseen(cfg: Config, es: seq<Event>, e: Event) {
    OutWith(cfg, true, RunWith(cfg, true, es), e) == OutWith(cfg, false, RunWith(cfg, false, es), e)
  }

  /** With closed patterns the engine reports, event by event, exactly what it would without its
      sweep, and aggregates, clock and deadline queue coincide. */
  lemma SweepIsInvisible(cfg: Config, es: seq<Event>, e: Event)
    requires Proper(cfg.patterns) && AllClosed(cfg.patterns) && cfg.lateness >= 0 && Identified(es + [e])
    ensures SweepUnseen(cfg, es, e)
    ensures var a, b := RunWith(cfg, true, es), RunWith(cfg, false, es);
            && a.watermark == b.watermark && a.heap == b.heap && a.members.Keys == b.members.Keys
            && forall m :: m in a.members ==> a.members[m].aggs == b.members[m].aggs
  {
    hide NextWith, OutWith, Proper, AllClosed;
    PrefixIsIdentified(es, [e]);
    RunsStayRelated(cfg, es);
    RunsKeepInv(cfg, false, es);
    StepStaysRelated(cfg, es, e, RunWith(cfg, true, es), RunWith(cfg, false, es));
    forall m | m in RunWith(cfg, true, es).members
      ensures RunWith(cfg, true, es).members[m].aggs == RunWith(cfg, false, es).members[m].aggs
    {
      assert RelatedMember(cfg.patterns, RunWith(cfg, true, es).members[m], RunWith(cfg, false, es).members[m],
                           RunWith(cfg, true, es).watermark);
    }
  }
}
