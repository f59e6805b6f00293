/** What every event keeps true of a shard, and what follows for the deadline queue: nothing stays
    parked past the watermark, and the queue may be thrown away and rebuilt. */
module Invariants {
  import opened Basics
  import opened Events
  import opened Patterns
  import opened Shards

  ghost predicate ProgressOK(ps: seq<Pattern>, heap: set<Entry>, id: string, pid: string, p: Progress) {
    && Sound(ps, id, pid, p)
    && (IsParked(p) ==> Entry(p.negativeDeadline, id, pid) in heap)
  }

  ghost predicate AllOK(ps: seq<Pattern>, heap: set<Entry>, id: string, progs: map<string, Progress>) {
    forall pid :: pid in progs ==> ProgressOK(ps, heap, id, pid, progs[pid])
  }

  ghost predicate NoneOverdue(watermark: int, progs: map<string, Progress>) {
    forall pid :: pid in progs && IsParked(progs[pid]) ==> progs[pid].negativeDeadline >= watermark
  }

  /** Every stored progress is sound; a parked one has its deadline queued and not yet passed. */
  ghost predicate Inv(cfg: Config, s: Shard) {
    && s.watermark >= 0
    && (forall id :: id in s.members ==> s.members[id].memberID == id)
    && (forall id :: id in s.members ==> AllOK(cfg.patterns, s.heap, id, s.members[id].progresses))
    && (forall id :: id in s.members ==> NoneOverdue(s.watermark, s.members[id].progresses))
  }

  lemma CepKeepsOK(ps: seq<Pattern>, e: Event, kept: map<string, Progress>, heap: set<Entry>)
    requires Proper(ps) && AllOK(ps, heap, e.memberID, kept) && e.occurredAt >= 0
    ensures AllOK(ps, heap + Cep(ps, e, kept).parked, e.memberID, Cep(ps, e, kept).progs)
  {
    var r := Cep(ps, e, kept);
    forall pid | pid in r.progs
      ensures ProgressOK(ps, heap + r.parked, e.memberID, pid, r.progs[pid])
    {
      StartsAdds(ps, e, Started(Advanced(ps, e, kept), [], {}), pid);
      if pid in Advanced(ps, e, kept) {
        assert ProgressOK(ps, heap, e.memberID, pid, kept[pid]);
        AdvanceKeepsSound(ps, e.memberID, pid, kept[pid], e);
        if Advance(ps, e, kept[pid]).Park? {
          assert EntryOf(e, Advance(ps, e, kept[pid]).progress) in Parkings(ps, e, kept);
        }
      } else {
        var pat :| pat in ps && Opened(pat, e, pid, Starts(ps, e, Started(Advanced(ps, e, kept), [], {})));
        NewIsSound(ps, pat, e);
      }
    }
  }

  lemma DrainKeepsOK(ps: seq<Pattern>, heap: set<Entry>, id: string, progs: map<string, Progress>, wm: int)
    requires AllOK(ps, heap, id, progs)
    ensures AllOK(ps, heap - Due(heap, wm), id, Undue(progs, id, Due(heap, wm)))
    ensures NoneOverdue(wm, Undue(progs, id, Due(heap, wm)))
  {
    forall pid | pid in Undue(progs, id, Due(heap, wm))
      ensures ProgressOK(ps, heap - Due(heap, wm), id, pid, progs[pid])
      ensures IsParked(progs[pid]) ==> progs[pid].negativeDeadline >= wm
    {
      assert ProgressOK(ps, heap, id, pid, progs[pid]);
    }
  }

  lemma OKIsMonotone(ps: seq<Pattern>, heap: set<Entry>, more: set<Entry>, id: string, progs: map<string, Progress>)
    requires AllOK(ps, heap, id, progs) && heap <= more
    ensures AllOK(ps, more, id, progs)
  {
    forall pid | pid in progs ensures ProgressOK(ps, more, id, pid, progs[pid]) {
      assert ProgressOK(ps, heap, id, pid, progs[pid]);
    }
  }

  lemma KeptIsOK(cfg: Config, sweep: bool, s: Shard, e: Event)
    requires Inv(cfg, s)
    ensures var progs := MemberOf(s.members, e.memberID).progresses;
            AllOK(cfg.patterns, s.heap, e.memberID,
                  if sweep then Swept(cfg.patterns, progs, Reached(cfg, s, e)) else progs)
  {
    if e.memberID in s.members {
      assert AllOK(cfg.patterns, s.heap, e.memberID, s.members[e.memberID].progresses);
    }
  }

  /** Before the drain, every member is in order with the grown queue. */
  lemma MatchedIsOK(cfg: Config, sweep: bool, s: Shard, e: Event, id: string)
    requires Proper(cfg.patterns) && Inv(cfg, s) && !Late(s, e) && id in Matched(cfg, sweep, s, e)
    ensures AllOK(cfg.patterns, s.heap + CepOf(cfg, sweep, s, e).parked, id, Matched(cfg, sweep, s, e)[id].progresses)
  {
    var parked := CepOf(cfg, sweep, s, e).parked;
    if id == e.memberID {
      KeptIsOK(cfg, sweep, s, e);
      var progs := MemberOf(s.members, e.memberID).progresses;
      CepKeepsOK(cfg.patterns, e, if sweep then Swept(cfg.patterns, progs, Reached(cfg, s, e)) else progs, s.heap);
    } else {
      OKIsMonotone(cfg.patterns, s.heap, s.heap + parked, id, s.members[id].progresses);
    }
  }

  lemma LateKeepsInv(cfg: Config, sweep: bool, s: Shard, e: Event)
    requires Inv(cfg, s) && Late(s, e)
    ensures Inv(cfg, NextWith(cfg, sweep, s, e))
  {
    var s' := NextWith(cfg, sweep, s, e);
    forall id | id in s'.members
      ensures AllOK(cfg.patterns, s'.heap, id, s'.members[id].progresses)
      ensures NoneOverdue(s'.watermark, s'.members[id].progresses)
    {
      if id in s.members { assert s'.members[id].progresses == s.members[id].progresses; }
    }
  }

  lemma StepKeepsInv(cfg: Config, sweep: bool, s: Shard, e: Event)
    requires Proper(cfg.patterns) && Inv(cfg, s)
    ensures Inv(cfg, NextWith(cfg, sweep, s, e))
  {
    if Late(s, e) {
      LateKeepsInv(cfg, sweep, s, e);
    } else {
      hide Swept, Cep, Aggregated;
      var s' := NextWith(cfg, sweep, s, e);
      var wm := Reached(cfg, s, e);
      var heap := s.heap + CepOf(cfg, sweep, s, e).parked;
      forall id | id in s'.members
        ensures AllOK(cfg.patterns, s'.heap, id, s'.members[id].progresses)
        ensures NoneOverdue(wm, s'.members[id].progresses)
      {
        MatchedIsOK(cfg, sweep, s, e, id);
        DrainKeepsOK(cfg.patterns, heap, id, Matched(cfg, sweep, s, e)[id].progresses, wm);
      }
    }
  }

  /** In every reachable state no parked progress is overdue, and each has its queue entry. */
  lemma {:induction false} RunsKeepInv(cfg: Config, sweep: bool, es: seq<Event>)
    requires Proper(cfg.patterns)
    ensures Inv(cfg, RunWith(cfg, sweep, es)) && (sweep ==> Inv(cfg, Run(cfg, es)))
    decreases |es|
  {
    if es != [] {
      RunsKeepInv(cfg, sweep, es[..|es| - 1]);
      StepKeepsInv(cfg, sweep, RunWith(cfg, sweep, es[..|es| - 1]), es[|es| - 1]);
    }
  }

  // ---------- The queue is redundant ----------

  /** Same members and clock; the queues may differ in stale entries. */
  ghost predicate SameButQueue(s: Shard, t: Shard) {
    s.members == t.members && s.watermark == t.watermark
  }

  lemma SameUndue(ps: seq<Pattern>, g: set<Entry>, h: set<Entry>, id: string, progs: map<string, Progress>, wm: int)
    requires AllOK(ps, g, id, progs) && AllOK(ps, h, id, progs)
    ensures Undue(progs, id, Due(g, wm)) == Undue(progs, id, Due(h, wm))
  {
    forall pid | pid in progs && IsParked(progs[pid])
      ensures Entry(progs[pid].negativeDeadline, id, pid) in g && Entry(progs[pid].negativeDeadline, id, pid) in h
    {
      assert ProgressOK(ps, g, id, pid, progs[pid]) && ProgressOK(ps, h, id, pid, progs[pid]);
    }
  }

  /** A live entry is in every queue that covers the members. */
  lemma LiveIsQueued(ps: seq<Pattern>, heap: set<Entry>, members: map<string, Member>, x: Entry)
    requires forall id :: id in members ==> AllOK(ps, heap, id, members[id].progresses)
    requires IsLive(members, x)
    ensures x in heap
  {
    assert ProgressOK(ps, heap, x.memberID, x.progressID, Parked(members, x));
  }

  lemma SameDrain(ps: seq<Pattern>, members: map<string, Member>, g: set<Entry>, h: set<Entry>, wm: int)
    requires forall id :: id in members ==> AllOK(ps, g, id, members[id].progresses)
    requires forall id :: id in members ==> AllOK(ps, h, id, members[id].progresses)
    ensures Drained(members, Due(g, wm)) == Drained(members, Due(h, wm))
    ensures Expired(ps, members, Due(g, wm)) == Expired(ps, members, Due(h, wm))
  {
    forall id | id in members
      ensures Undue(members[id].progresses, id, Due(g, wm)) == Undue(members[id].progresses, id, Due(h, wm))
    {
      SameUndue(ps, g, h, id, members[id].progresses, wm);
    }
    forall x | IsLive(members, x) ensures x in g && x in h {
      LiveIsQueued(ps, g, members, x);
      LiveIsQueued(ps, h, members, x);
    }
    assert Expired(ps, members, Due(g, wm)).Keys == Expired(ps, members, Due(h, wm)).Keys;
  }

  /** Two cores that differ only in stale queue entries report the same and stay so related. */
  lemma QueueIsRedundant(cfg: Config, s: Shard, t: Shard, e: Event)
    requires Proper(cfg.patterns) && Inv(cfg, s) && Inv(cfg, t) && SameButQueue(s, t)
    ensures Out(cfg, s, e) == Out(cfg, t, e)
    ensures SameButQueue(Next(cfg, s, e), Next(cfg, t, e))
    ensures Inv(cfg, Next(cfg, s, e)) && Inv(cfg, Next(cfg, t, e))
  {
    StepKeepsInv(cfg, true, s, e);
    StepKeepsInv(cfg, true, t, e);
    assert CepOf(cfg, true, s, e) == CepOf(cfg, true, t, e);
    if !Late(s, e) {
      var r, members := CepOf(cfg, true, s, e), Matched(cfg, true, s, e);
      forall id | id in members
        ensures AllOK(cfg.patterns, s.heap + r.parked, id, members[id].progresses)
        ensures AllOK(cfg.patterns, t.heap + r.parked, id, members[id].progresses)
      {
        MatchedIsOK(cfg, true, s, e, id);
        MatchedIsOK(cfg, true, t, e, id);
      }
      SameDrain(cfg.patterns, members, s.heap + r.parked, t.heap + r.parked, Reached(cfg, s, e));
    }
  }

  /** The queue entries of one member's progresses. */
  function DeadlinesOf(progs: map<string, Progress>): set<Entry> {
    set pid | pid in progs && IsParked(progs[pid]) ::
      Entry(progs[pid].negativeDeadline, progs[pid].memberID, progs[pid].id)
  }

  /** rebuildNegativeDeadlines: the queue a restored core derives from its progresses. */
  function Rebuilt(members: map<string, Member>): set<Entry> {
    set id, x | id in members && x in DeadlinesOf(members[id].progresses) :: x
  }

  lemma InRebuilt(members: map<string, Member>, id: string, x: Entry)
    requires id in members && x in DeadlinesOf(members[id].progresses)
    ensures x in Rebuilt(members)
  {
  }

  lemma RebuiltFrom(members: map<string, Member>, x: Entry) returns (id: string)
    requires x in Rebuilt(members)
    ensures id in members && x in DeadlinesOf(members[id].progresses)
  {
    id :| id in members && x in DeadlinesOf(members[id].progresses);
  }

  lemma RebuiltCovers(cfg: Config, s: Shard)
    requires Inv(cfg, s)
    ensures Inv(cfg, s.(heap := Rebuilt(s.members)))
  {
    forall id | id in s.members ensures AllOK(cfg.patterns, Rebuilt(s.members), id, s.members[id].progresses) {
      forall pid | pid in s.members[id].progresses
        ensures ProgressOK(cfg.patterns, Rebuilt(s.members), id, pid, s.members[id].progresses[pid])
      {
        var p := s.members[id].progresses[pid];
        assert ProgressOK(cfg.patterns, s.heap, id, pid, p);
        if IsParked(p) {
          InRebuilt(s.members, id, Entry(p.negativeDeadline, p.memberID, p.id));
        }
      }
    }
  }

  ghost function RunFrom(cfg: Config, s: Shard, es: seq<Event>): Shard {
    if es == [] then s else Next(cfg, RunFrom(cfg, s, es[..|es| - 1]), es[|es| - 1])
  }

  /** Rebuilding the queue anywhere in a run is never noticed afterwards. */
  lemma {:induction false} RebuildIsInvisible(cfg: Config, s: Shard, es: seq<Event>, e: Event)
    requires Proper(cfg.patterns) && Inv(cfg, s)
    ensures var t := s.(heap := Rebuilt(s.members));
            && Inv(cfg, RunFrom(cfg, s, es)) && Inv(cfg, RunFrom(cfg, t, es))
            && SameButQueue(RunFrom(cfg, s, es), RunFrom(cfg, t, es))
            && Out(cfg, RunFrom(cfg, s, es), e) == Out(cfg, RunFrom(cfg, t, es), e)
    decreases |es|
  {
    var t := s.(heap := Rebuilt(s.members));
    RebuiltCovers(cfg, s);
    if es != [] {
      var init, last := es[..|es| - 1], es[|es| - 1];
      RebuildIsInvisible(cfg, s, init, last);
      QueueIsRedundant(cfg, RunFrom(cfg, s, init), RunFrom(cfg, t, init), last);
    }
    QueueIsRedundant(cfg, RunFrom(cfg, s, es), RunFrom(cfg, t, es), e);
  }
}
