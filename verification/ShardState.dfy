/** The copy-on-write state of one shard (service/engine/core/state.go): key groups of members, and
    the epochs that tell which objects a snapshot in flight can still reach. */
module ShardStates {
  import opened Basics
  import opened KeyGroups
  import opened Shards
  import opened Objects

  class KeyGroupState {
    ghost const index: nat
    const version: nat // the epoch this map was created or cloned in
    var members: map<string, MemberState>

    constructor (ghost index: nat, members: map<string, MemberState>, version: nat)
      ensures this.index == index && this.members == members && this.version == version
    {
      this.index, this.members, this.version := index, members, version;
    }
  }

  /** The members of one key group, as values. */
  function ValuesIn(g: KeyGroupState): map<string, Member>
    reads g, set id | id in g.members :: g.members[id]
    reads set id, o: object | id in g.members && o in g.members[id].Footprint() :: o
    reads set id, a: BehaviorAgg | id in g.members && a in g.members[id].Aggs() :: a
  {
    map id | id in g.members :: g.members[id].Value()
  }

  /** The key group array; a frozen view is a copy of it. */
  type View = view: seq<KeyGroupState?> | |view| == NUM_KEY_GROUPS witness seq(NUM_KEY_GROUPS, i => null)

  /** Members as a snapshot stores them, by key group. */
  type GroupValues = map<int, map<string, Member>>

  /** Each member is stored under its own name, in the key group its name hashes to. */
  ghost predicate Placed(hash: string -> nat, kgs: GroupValues) {
    forall i, id :: i in kgs && id in kgs[i] ==> i == KeyGroupOf(hash, id) && kgs[i][id].memberID == id
  }

  /** The members of all key groups together. */
  ghost function Flatten(hash: string -> nat, kgs: GroupValues): map<string, Member> {
    map id | id in StoredIds(kgs) && KeyGroupOf(hash, id) in kgs && id in kgs[KeyGroupOf(hash, id)] ::
      kgs[KeyGroupOf(hash, id)][id]
  }

  ghost function StoredIds(kgs: GroupValues): set<string> {
    set i, id | i in kgs && id in kgs[i] :: id
  }

  class ShardState {
    const hash: string -> nat
    var keyGroups: View
    var epoch: nat
    var frozenEpoch: nat // 0 when no snapshot is in flight
    ghost var frozenView: View // what the snapshot in flight reads
    ghost var groups: set<KeyGroupState> // every key group the live state or a view has held
    ghost var owned: set<MemberState> // and every member
    ghost var copied: multiset<string> // the members cloned since the freeze
    ghost var copiedGroups: multiset<nat> // and the key groups

    // ---------- What a view reaches ----------

    ghost function GroupsOf(view: View): set<KeyGroupState> {
      set g: KeyGroupState | g in view
    }

    ghost function MembersOf(view: View): set<MemberState>
      reads GroupsOf(view)
    {
      set g, id | g in GroupsOf(view) && id in g.members :: g.members[id]
    }

    ghost function AggsOf(ms: set<MemberState>): set<BehaviorAgg>
      reads ms
    {
      set m, a | m in ms && a in m.Aggs() :: a
    }

    ghost function PartsOf(ms: set<MemberState>): set<object>
      reads ms, AggsOf(ms)
    {
      set m, o | m in ms && o in m.Footprint() :: o
    }

    /** member */
    function Find(view: View, id: string): (m: MemberState?)
      reads GroupsOf(view)
      ensures m != null ==> id in IdsOf(view) && m in MembersOf(view)
    {
      var g := view[KeyGroupOf(hash, id)];
      assert g != null ==> g in GroupsOf(view);
      if g != null && id in g.members then g.members[id] else null
    }

    /** The members a view holds, as values. */
    ghost function ViewOf(view: View): map<string, Member>
      reads GroupsOf(view), MembersOf(view), AggsOf(MembersOf(view)), PartsOf(MembersOf(view))
    {
      map id | id in IdsOf(view) && Find(view, id) != null :: Find(view, id).Value()
    }

    ghost function IdsOf(view: View): set<string>
      reads GroupsOf(view)
    {
      set g, id | g in GroupsOf(view) && id in g.members :: id
    }

    // ---------- Well-formed states ----------

    ghost function Repr(): set<object>
      reads this`owned, this`groups, owned, AggsOf(owned)
    {
      groups + PartsOf(owned)
    }

    /** A key group holds owned members under their own names, in the group their name hashes to. */
    ghost predicate GroupOK(g: KeyGroupState)
      reads this`epoch, this`owned, g
    {
      && g.version <= epoch && g.index < NUM_KEY_GROUPS
      && forall id :: id in g.members ==>
           g.members[id] in owned && g.members[id].memberID == id && KeyGroupOf(hash, id) == g.index
    }

    ghost predicate ViewOK(view: View)
      reads this`groups
    {
      forall i :: 0 <= i < |view| && view[i] != null ==> view[i] in groups && view[i].index == i
    }

    /** Nothing the snapshot in flight can reach was created or cloned since the freeze. */
    ghost predicate FrozenIsOld()
      reads this`frozenView, this`frozenEpoch, GroupsOf(frozenView)
    {
      forall g :: g in GroupsOf(frozenView) ==>
        g.version < frozenEpoch && forall id :: id in g.members ==> g.members[id].version < frozenEpoch
    }

    ghost predicate MembersOK()
      reads this`epoch, this`owned, owned, AggsOf(owned)
    {
      forall m :: m in owned ==> m.Valid() && m.version <= epoch
    }

    ghost predicate GroupsOK()
      reads this`epoch, this`owned, this`groups, groups
    {
      forall g :: g in groups ==> GroupOK(g)
    }

    /** No member and no key group is cloned twice for one freeze: its clone is writable from then on. */
    ghost predicate CopiedOnce()
      reads this`copied, this`copiedGroups, this`keyGroups, this`frozenEpoch, GroupsOf(keyGroups)
    {
      && (forall id :: id in copied ==>
            copied[id] == 1 && Find(keyGroups, id) != null && Find(keyGroups, id).version >= frozenEpoch)
      && (forall i :: i in copiedGroups ==>
            copiedGroups[i] == 1 && i < NUM_KEY_GROUPS && keyGroups[i] != null && keyGroups[i].version >= frozenEpoch)
    }

    ghost predicate Valid()
      reads this, groups, owned, AggsOf(owned), GroupsOf(frozenView), GroupsOf(keyGroups)
    {
      && frozenEpoch <= epoch
      && MembersOK() && GroupsOK() && ViewOK(keyGroups)
      && (frozenEpoch != 0 ==> ViewOK(frozenView) && FrozenIsOld() && CopiedOnce())
    }

    ghost function Live(): map<string, Member>
      reads this`keyGroups, GroupsOf(keyGroups)
      reads MembersOf(keyGroups), AggsOf(MembersOf(keyGroups)), PartsOf(MembersOf(keyGroups))
    {
      ViewOf(keyGroups)
    }

    ghost function Frozen(): map<string, Member>
      reads this`frozenView, GroupsOf(frozenView)
      reads MembersOf(frozenView), AggsOf(MembersOf(frozenView)), PartsOf(MembersOf(frozenView))
    {
      ViewOf(frozenView)
    }

    /** A version the snapshot in flight cannot reach. */
    ghost predicate Writable(version: nat)
      reads this`frozenEpoch
    {
      frozenEpoch != 0 ==> version >= frozenEpoch
    }

    /** In a well-formed view a member is found exactly under its own name. */
    lemma ViewMeans(view: View, id: string)
      requires GroupsOK() && ViewOK(view)
      ensures id in ViewOf(view) <==> Find(view, id) != null
      ensures Find(view, id) != null ==>
        && Find(view, id) in owned && Find(view, id).memberID == id
        && Find(view, id) in MembersOf(view) && ViewOf(view)[id] == Find(view, id).Value()
    {
      var g := view[KeyGroupOf(hash, id)];
      if g != null && id in g.members {
        assert g in GroupsOf(view) && GroupOK(g);
      }
    }

    lemma LiveMeans(id: string)
      requires Valid()
      ensures id in Live() <==> Find(keyGroups, id) != null
      ensures Find(keyGroups, id) != null ==>
        var m := Find(keyGroups, id);
        m in owned && m.memberID == id && m.Valid() && Live()[id] == m.Value()
    {
      ViewMeans(keyGroups, id);
    }

    lemma PartsAreOwned(m: MemberState)
      requires m in owned
      ensures m.Footprint() <= PartsOf(owned) && m in PartsOf(owned)
      ensures forall o :: o in PartsOf(owned) ==> allocated(o)
    {
      assert m in m.Footprint();
      PartsAreAlive(owned);
      hide MemberState.Footprint;
    }

    lemma PartsAreAlive(ms: set<MemberState>)
      ensures forall o :: o in PartsOf(ms) ==> allocated(o)
    {
    }

    /** Work on `ms` alone leaves every other member as it was. */
    twostate lemma OthersKept(new ms: MemberState)
      requires old(MembersOK()) && ms in old(owned)
      requires forall o :: o in old(PartsOf(owned)) && o !in old(ms.Footprint()) ==> unchanged(o)
      ensures forall m :: m in old(owned) && m != ms ==>
        m.Valid() && m.Footprint() == old(m.Footprint()) && m.Value() == old(m.Value())
    {
      forall m | m in old(owned) && m != ms
        ensures m.Valid() && m.Footprint() == old(m.Footprint()) && m.Value() == old(m.Value())
      {
        assert old(m.Footprint()) !! old(ms.Footprint());
        assert forall o :: o in old(m.Footprint()) ==> unchanged(o);
      }
    }

    /** So the frozen view, when it does not hold `ms`, stays as it was. */
    twostate lemma FrozenKept(new ms: MemberState)
      requires old(GroupsOK()) && old(ViewOK(frozenView)) && old(MembersOK()) && ms in old(owned)
      requires frozenView == old(frozenView) && forall g :: g in GroupsOf(frozenView) ==> unchanged(g)
      requires forall o :: o in old(PartsOf(owned)) && o !in old(ms.Footprint()) ==> unchanged(o)
      requires ms !in old(MembersOf(frozenView))
      ensures Frozen() == old(Frozen())
    {
      hide MemberState.Value, MemberState.Footprint, MemberState.Valid;
      OthersKept(ms);
      forall id ensures Find(frozenView, id) == old(Find(frozenView, id))
                ensures Find(frozenView, id) != null ==>
                        Find(frozenView, id).Value() == old(Find(frozenView, id).Value())
      {
        var g := frozenView[KeyGroupOf(hash, id)];
        if g != null && id in g.members {
          assert g in GroupsOf(frozenView) && old(GroupOK(g));
          assert g.members[id] in old(MembersOf(frozenView));
        }
      }
    }

    /** ... and shows in the live state under its own name only. */
    twostate lemma LiveSettled(new ms: MemberState)
      requires old(Valid()) && ms in old(owned) && old(Find(keyGroups, ms.memberID)) == ms
      requires keyGroups == old(keyGroups) && forall g :: g in GroupsOf(keyGroups) ==> unchanged(g)
      requires forall o :: o in old(PartsOf(owned)) && o !in old(ms.Footprint()) ==> unchanged(o)
      ensures Live() == old(Live())[ms.memberID := ms.Value()]
    {
      hide MemberState.Value, MemberState.Footprint, MemberState.Valid;
      OthersKept(ms);
      forall id ensures Find(keyGroups, id) == old(Find(keyGroups, id))
                ensures Find(keyGroups, id) != null && id != ms.memberID ==>
                          Find(keyGroups, id).Value() == old(Find(keyGroups, id).Value())
      {
        var g := keyGroups[KeyGroupOf(hash, id)];
        if g != null && id in g.members {
          assert g in GroupsOf(keyGroups) && old(GroupOK(g));
        }
      }
      assert IdsOf(keyGroups) == old(IdsOf(keyGroups));
      var g := keyGroups[KeyGroupOf(hash, ms.memberID)];
      assert g in GroupsOf(keyGroups) && ms.memberID in IdsOf(keyGroups);
    }

    /** A writable member is out of the snapshot's reach. */
    twostate lemma WritableIsHidden(new ms: MemberState)
      requires old(Valid()) && frozenView == old(frozenView) && frozenEpoch == old(frozenEpoch) != 0
      requires Writable(ms.version)
      ensures ms !in old(MembersOf(frozenView))
    {
    }

    twostate lemma ValidSettled(new ms: MemberState)
      requires old(Valid()) && ms in old(owned) && ms.Valid()
      requires unchanged(this) && forall g :: g in groups ==> unchanged(g)
      requires forall o :: o in old(PartsOf(owned)) && o !in old(ms.Footprint()) ==> unchanged(o)
      ensures Valid() && forall o :: o in PartsOf(owned) ==> o in old(PartsOf(owned)) || o in ms.Footprint()
    {
      PartsSettled(ms);
      hide PartsOf, MemberState.Value, MemberState.Footprint, MemberState.Valid, Find;
      assert forall g :: g in groups ==> old(GroupOK(g)) && GroupOK(g);
    }

    twostate lemma PartsSettled(new ms: MemberState)
      requires old(MembersOK()) && ms in old(owned) && ms.Valid() && unchanged(`owned, `epoch)
      requires forall o :: o in old(PartsOf(owned)) && o !in old(ms.Footprint()) ==> unchanged(o)
      ensures MembersOK() && forall o :: o in PartsOf(owned) ==> o in old(PartsOf(owned)) || o in ms.Footprint()
    {
      OthersKept(ms);
      hide MemberState.Value, MemberState.Footprint, MemberState.Valid;
    }

    /** Work on one writable member shows in the live state under its own name, and nowhere else. */
    twostate lemma Settled(new ms: MemberState)
      requires old(Valid()) && ms in old(owned) && ms.Valid()
      requires unchanged(this) && forall g :: g in groups ==> unchanged(g)
      requires forall o :: o in old(PartsOf(owned)) && o !in old(ms.Footprint()) ==> unchanged(o)
      requires Find(keyGroups, ms.memberID) == ms && Writable(ms.version)
      ensures Valid() && Live() == old(Live())[ms.memberID := ms.Value()]
      ensures frozenEpoch != 0 ==> Frozen() == old(Frozen())
      ensures forall o :: o in PartsOf(owned) ==> o in old(PartsOf(owned)) || o in ms.Footprint()
    {
      ValidSettled(ms);
      LiveSettled(ms);
      if frozenEpoch != 0 {
        WritableIsHidden(ms);
        assert forall g :: g in GroupsOf(frozenView) ==> g in groups;
        FrozenKept(ms);
      }
    }

    /** The shard, its key groups and the parts of its members are different objects. */
    lemma Apart(ms: set<MemberState>)
      ensures var os: set<object> := ms; this !in os && forall g :: g in groups ==> g !in os
      ensures var os: set<object> := AggsOf(ms); this !in os && forall g :: g in groups ==> g !in os
      ensures this !in PartsOf(ms) && forall g :: g in groups ==> g !in PartsOf(ms)
      ensures (forall o :: o in ms ==> allocated(o)) && (forall o :: o in AggsOf(ms) ==> allocated(o))
              && forall o :: o in PartsOf(ms) ==> allocated(o)
    {
    }

    // ---------- Operations ----------

    constructor (hash: string -> nat)
      ensures Valid() && Live() == map[] && frozenEpoch == 0 && this.hash == hash
      ensures groups == {} && owned == {}
    {
      this.hash := hash;
      keyGroups := seq(NUM_KEY_GROUPS, i => null);
      epoch, frozenEpoch, frozenView := 0, 0, seq(NUM_KEY_GROUPS, i => null);
      groups, owned, copied, copiedGroups := {}, {}, multiset{}, multiset{};
    }

    /** The first half of memberForWrite: a key group map the snapshot in flight cannot reach. */
    method GroupForWrite(i: nat) returns (kg: KeyGroupState)
      requires Valid() && i < NUM_KEY_GROUPS
      modifies this`keyGroups, this`groups, this`copiedGroups
      ensures Valid() && keyGroups[i] == kg && Writable(kg.version)
      ensures Live() == old(Live())
      ensures forall id :: Find(keyGroups, id) == old(Find(keyGroups, id))
      ensures groups == old(groups) + {kg} && (kg in old(groups) || fresh(kg))
      ensures old(keyGroups[i]) != null && old(Writable(keyGroups[i].version)) ==> kg == old(keyGroups[i])
      ensures PartsOf(owned) == old(PartsOf(owned)) && (frozenEpoch != 0 ==> Frozen() == old(Frozen()))
    {
      Apart(owned);
      hide FrozenIsOld, GroupOK, CopiedOnce, PartsOf, AggsOf, MembersOK, Live, Frozen;
      var g := keyGroups[i];
      if g == null {
        kg := new KeyGroupState(i, map[], epoch);
      } else if frozenEpoch != 0 && g.version < frozenEpoch {
        kg := new KeyGroupState(i, g.members, epoch);
        copiedGroups := copiedGroups + multiset{i};
      } else {
        return g;
      }
      keyGroups := keyGroups[i := kg];
      groups := groups + {kg};
      Regrouped(i, kg);
    }

    /** A key group map replaced by one with the same members changes nothing. */
    twostate lemma Regrouped(i: nat, new kg: KeyGroupState)
      requires old(Valid()) && i < NUM_KEY_GROUPS && kg.index == i && kg.version == epoch
      requires keyGroups == old(keyGroups)[i := kg] && groups == old(groups) + {kg}
      requires unchanged(`epoch, `frozenEpoch, `frozenView, `owned, `copied)
      requires forall o :: o in old(Repr()) ==> unchanged(o)
      requires kg.members == if old(keyGroups[i]) != null then old(keyGroups[i].members) else map[]
      requires copiedGroups == old(copiedGroups) + if old(keyGroups[i]) != null then multiset{i} else multiset{}
      requires old(keyGroups[i]) != null ==> frozenEpoch != 0 && old(keyGroups[i]).version < frozenEpoch
      ensures Valid() && Live() == old(Live())
      ensures forall id :: Find(keyGroups, id) == old(Find(keyGroups, id))
      ensures PartsOf(owned) == old(PartsOf(owned)) && (frozenEpoch != 0 ==> Frozen() == old(Frozen()))
    {
      assert forall o :: o in old(PartsOf(owned)) ==> o in old(Repr());
      assert forall g :: g in old(GroupsOf(keyGroups)) ==> g in old(groups) && g in old(Repr());
      RegroupedFinds(i, kg);
      RegroupedMembers();
      RegroupedGroups(i, kg);
      RegroupedCopies(i, kg);
      RegroupedParts();
      hide Repr, PartsOf, Find, FrozenIsOld, CopiedOnce, MembersOK, GroupsOK, GroupOK;
      SameFinds();
      if frozenEpoch != 0 {
        SameFrozen();
      }
    }

    twostate lemma RegroupedParts()
      requires old(MembersOK()) && unchanged(`owned) && forall o :: o in old(PartsOf(owned)) ==> unchanged(o)
      ensures PartsOf(owned) == old(PartsOf(owned))
    {
      AllKept();
      hide MemberState.Value, MemberState.Valid, MemberState.Footprint;
    }

    twostate lemma RegroupedMembers()
      requires old(MembersOK()) && unchanged(`epoch, `owned) && forall o :: o in old(PartsOf(owned)) ==> unchanged(o)
      ensures MembersOK()
    {
      AllKept();
    }

    twostate lemma RegroupedGroups(i: nat, new kg: KeyGroupState)
      requires old(GroupsOK()) && old(ViewOK(keyGroups)) && i < NUM_KEY_GROUPS && kg.index == i && kg.version == epoch
      requires keyGroups == old(keyGroups)[i := kg] && groups == old(groups) + {kg} && unchanged(`epoch, `owned)
      requires forall g :: g in old(groups) ==> unchanged(g)
      requires kg.members == if old(keyGroups[i]) != null then old(keyGroups[i].members) else map[]
      ensures GroupsOK() && ViewOK(keyGroups)
    {
      assert forall g :: g in old(groups) ==> old(GroupOK(g));
    }

    twostate lemma RegroupedCopies(i: nat, new kg: KeyGroupState)
      requires old(frozenEpoch != 0 ==> CopiedOnce()) && frozenEpoch <= epoch == kg.version
      requires i < NUM_KEY_GROUPS && keyGroups == old(keyGroups)[i := kg]
      requires unchanged(`frozenEpoch, `copied) && forall id :: Find(keyGroups, id) == old(Find(keyGroups, id))
      requires copiedGroups == old(copiedGroups) + if old(keyGroups[i]) != null then multiset{i} else multiset{}
      requires old(keyGroups[i]) != null ==> frozenEpoch != 0 && old(keyGroups[i]).version < frozenEpoch
      ensures frozenEpoch != 0 ==> CopiedOnce()
    {
    }

    twostate lemma RegroupedFinds(i: nat, new kg: KeyGroupState)
      requires i < NUM_KEY_GROUPS
      requires keyGroups == old(keyGroups)[i := kg]
      requires forall g :: g in old(GroupsOf(keyGroups)) ==> unchanged(g)
      requires kg.members == if old(keyGroups[i]) != null then old(keyGroups[i].members) else map[]
      ensures forall id :: Find(keyGroups, id) == old(Find(keyGroups, id))
    {
      forall id ensures Find(keyGroups, id) == old(Find(keyGroups, id)) {
        var k := KeyGroupOf(hash, id);
        var g := old(keyGroups)[k];
        if g != null {
          assert g in old(GroupsOf(keyGroups));
        }
      }
    }

    /** memberForWrite: the member for mutation, created on first sight, cloned if still shared. */
    method MemberForWrite(memberID: string) returns (ms: MemberState)
      requires Valid()
      modifies this`keyGroups, this`groups, this`copiedGroups, this`owned, this`copied, groups
      ensures Valid() && ms in owned && ms.memberID == memberID && Find(keyGroups, memberID) == ms
      ensures Writable(ms.version)
      ensures Live() == old(Live())[memberID := MemberOf(old(Live()), memberID)]
      ensures frozenEpoch != 0 ==> Frozen() == old(Frozen())
      ensures var m := old(Find(keyGroups, memberID));
              m != null && Writable(m.version) ==> ms == m
      ensures forall g :: g in groups ==> g in old(groups) || fresh(g)
      ensures forall o :: o in PartsOf(owned) ==> o in old(PartsOf(owned)) || fresh(o)
    {
      hide FrozenIsOld, GroupOK, CopiedOnce, PartsOf, MemberState.Footprint, MembersOK, GroupsOK, ViewOf, Find;
      hide MemberOf;
      var kg := GroupForWrite(KeyGroupOf(hash, memberID));
      ms := ForWriteIn(kg, memberID);
    }

    /** The second half of memberForWrite, in a key group map that may be written. */
    method ForWriteIn(kg: KeyGroupState, memberID: string) returns (ms: MemberState)
      requires Valid() && keyGroups[KeyGroupOf(hash, memberID)] == kg && Writable(kg.version)
      modifies this`owned, this`copied, kg`members
      ensures Valid() && ms in owned && ms.memberID == memberID && Find(keyGroups, memberID) == ms
      ensures Writable(ms.version)
      ensures Live() == old(Live())[memberID := MemberOf(old(Live()), memberID)]
      ensures frozenEpoch != 0 ==> Frozen() == old(Frozen())
      ensures var m := old(Find(keyGroups, memberID));
              m != null && Writable(m.version) ==> ms == m
      ensures forall o :: o in PartsOf(owned) ==> o in old(PartsOf(owned)) || fresh(o)
    {
      ViewMeans(keyGroups, memberID);
      var before := Find(keyGroups, memberID);
      hide FrozenIsOld, GroupOK, CopiedOnce, PartsOf, MemberState.Footprint, MembersOK, GroupsOK, ViewOf, Find, Valid;
      if before != null && (frozenEpoch != 0 ==> before.version >= frozenEpoch) {
        return before;
      }
      ms := Renew(kg, before, memberID);
    }

    method Renew(kg: KeyGroupState, before: MemberState?, memberID: string) returns (ms: MemberState)
      requires Valid() && keyGroups[KeyGroupOf(hash, memberID)] == kg && Writable(kg.version)
      requires before == Find(keyGroups, memberID)
      requires before != null ==> before.memberID == memberID && !Writable(before.version)
      modifies this`owned, this`copied, kg`members
      ensures Valid() && ms in owned && ms.memberID == memberID && Find(keyGroups, memberID) == ms
      ensures Writable(ms.version)
      ensures Live() ==
                old(Live())[memberID := if before == null then NewMember(memberID) else old(before.Value())]
      ensures frozenEpoch != 0 ==> Frozen() == old(Frozen())
      ensures forall o :: o in PartsOf(owned) ==> o in old(PartsOf(owned)) || fresh(o)
    {
      hide FrozenIsOld, GroupOK, CopiedOnce, PartsOf, MemberState.Footprint, MembersOK, GroupsOK, ViewOf, Find, Valid;
      ms := NewObject(before, memberID);
      PutMember(kg, ms);
    }

    /** newMemberState, or a clone of the shared object. */
    method NewObject(before: MemberState?, memberID: string) returns (ms: MemberState)
      requires Valid() && (before != null ==> before.memberID == memberID)
      ensures Valid() && Live() == old(Live()) && (frozenEpoch != 0 ==> Frozen() == old(Frozen()))
      ensures PartsOf(owned) == old(PartsOf(owned))
      ensures ms.Valid() && ms.memberID == memberID && ms.version == epoch && ms !in owned && fresh(ms.Footprint())
      ensures ms.Value() == if before == null then NewMember(memberID) else old(before.Value())
    {
      assert before != null ==> before.Value().memberID == memberID;
      Apart(owned);
      hide Live, Frozen, FrozenIsOld, GroupOK, CopiedOnce, AggsOf, PartsOf, MembersOK, GroupsOK, ViewOf, Find, Valid;
      hide MemberState.Footprint, MemberState.Valid, MemberState.Value;
      if before == null {
        ms := new MemberState.New(memberID, epoch);
      } else {
        ms := new MemberState.Of(before.Value(), epoch);
      }
      Untouched();
    }

    twostate lemma PartsGrow(new ms: MemberState)
      requires old(MembersOK()) && owned == old(owned) + {ms}
      requires forall o :: o in old(PartsOf(owned)) ==> unchanged(o)
      ensures PartsOf(owned) == old(PartsOf(owned)) + ms.Footprint()
    {
      AllKept();
      hide MemberState.Value, MemberState.Valid, MemberState.Footprint, GroupsOf, MembersOf, AggsOf;
      forall o | o in PartsOf(owned) ensures o in old(PartsOf(owned)) + ms.Footprint() {
        var m :| m in owned && o in m.Footprint();
      }
      forall o | o in old(PartsOf(owned)) ensures o in PartsOf(owned) {
        var m :| m in old(owned) && o in old(m.Footprint());
        assert m in owned && o in m.Footprint();
      }
    }

    /** Where nothing was written, nothing changed. */
    twostate lemma Untouched()
      requires old(Valid()) && unchanged(this) && forall g :: g in groups ==> unchanged(g)
      requires forall o :: o in old(PartsOf(owned)) ==> unchanged(o)
      ensures Valid() && Live() == old(Live()) && (frozenEpoch != 0 ==> Frozen() == old(Frozen()))
      ensures PartsOf(owned) == old(PartsOf(owned))
    {
      UntouchedViews();
      RegroupedMembers();
      RegroupedParts();
      assert forall g :: g in groups ==> old(GroupOK(g)) && GroupOK(g);
      hide PartsOf, ViewOf;
    }

    twostate lemma UntouchedViews()
      requires old(Valid()) && unchanged(this) && forall g :: g in groups ==> unchanged(g)
      requires forall o :: o in old(PartsOf(owned)) ==> unchanged(o)
      ensures Live() == old(Live()) && (frozenEpoch != 0 ==> Frozen() == old(Frozen()))
    {
      assert forall g :: g in GroupsOf(keyGroups) ==> g in groups && unchanged(g);
      assert frozenEpoch != 0 ==> forall g :: g in GroupsOf(frozenView) ==> g in groups && unchanged(g);
      hide PartsOf, ViewOf, MembersOK, GroupsOK, FrozenIsOld, CopiedOnce;
      SameFinds();
      if frozenEpoch != 0 {
        SameFrozen();
      }
    }

    /** Put a new object for a member into its key group. */
    method PutMember(kg: KeyGroupState, ms: MemberState)
      requires Valid() && keyGroups[KeyGroupOf(hash, ms.memberID)] == kg && Writable(kg.version)
      requires ms !in owned && ms.Valid() && ms.version == epoch
      requires Find(keyGroups, ms.memberID) != null ==> !Writable(Find(keyGroups, ms.memberID).version)
      modifies this`owned, this`copied, kg`members
      ensures Valid() && owned == old(owned) + {ms} && Find(keyGroups, ms.memberID) == ms && Writable(ms.version)
      ensures Live() == old(Live())[ms.memberID := ms.Value()] && ms.Value() == old(ms.Value())
      ensures ms.Footprint() == old(ms.Footprint())
      ensures PartsOf(owned) == old(PartsOf(owned)) + ms.Footprint()
      ensures frozenEpoch != 0 ==> Frozen() == old(Frozen())
    {
      hide FrozenIsOld, GroupOK, CopiedOnce, PartsOf, MemberState.Value, MemberState.Footprint;
      assert kg in groups;
      Apart(owned);
      Place(kg, ms);
      Put(kg, ms, ms.memberID);
      PartsGrow(ms);
    }

    method Place(kg: KeyGroupState, ms: MemberState)
      requires ms.Valid()
      modifies this`owned, this`copied, kg`members
      ensures kg.members == old(kg.members)[ms.memberID := ms] && owned == old(owned) + {ms}
      ensures copied == old(copied) + if ms.memberID in old(kg.members) then multiset{ms.memberID} else multiset{}
      ensures ms.Valid() && ms.Value() == old(ms.Value()) && ms.Footprint() == old(ms.Footprint())
    {
      if ms.memberID in kg.members {
        copied := copied + multiset{ms.memberID};
      }
      owned := owned + {ms};
      kg.members := kg.members[ms.memberID := ms];
      PlaceKeeps(kg, ms);
    }

    /** Filing a member elsewhere does not touch it. */
    twostate lemma PlaceKeeps(kg: KeyGroupState, new ms: MemberState)
      requires old(allocated(ms)) && old(ms.Valid())
      requires unchanged(ms) && forall o: object :: o in old(ms.Footprint()) ==> o == ms || unchanged(o)
      ensures ms.Valid() && ms.Value() == old(ms.Value()) && ms.Footprint() == old(ms.Footprint())
    {
    }

    /** `ms` went into `kg` under `id`, and nothing else happened. */
    twostate predicate OnlyPut(new kg: KeyGroupState, new ms: MemberState, id: string)
      reads *
    {
      && kg in old(groups) && kg.members == old(kg.members)[id := ms] && ms.memberID == id
      && keyGroups == old(keyGroups) && keyGroups[KeyGroupOf(hash, id)] == kg
      && groups == old(groups) && (forall g :: g in old(groups) && g != kg ==> unchanged(g))
      && owned == old(owned) + {ms} && forall o :: o in old(PartsOf(owned)) ==> unchanged(o)
    }

    twostate lemma Put(new kg: KeyGroupState, new ms: MemberState, id: string)
      requires old(Valid()) && OnlyPut(kg, ms, id) && ms.Valid() && ms.version == epoch && Writable(kg.version)
      requires unchanged(`epoch, `frozenEpoch, `frozenView, `copiedGroups)
      requires copied == old(copied) + if id in old(kg.members) then multiset{id} else multiset{}
      requires old(Find(keyGroups, id)) != null ==> !Writable(old(Find(keyGroups, id)).version)
      ensures Valid() && Find(keyGroups, id) == ms && Live() == old(Live())[id := ms.Value()]
      ensures frozenEpoch != 0 ==> Frozen() == old(Frozen())
    {
      PutLive(kg, ms, id);
      PutFrozen(kg);
      PutValid(kg, ms, id);
    }

    twostate lemma PutLive(new kg: KeyGroupState, new ms: MemberState, id: string)
      requires old(Valid()) && OnlyPut(kg, ms, id)
      ensures Find(keyGroups, id) == ms
      ensures Live() == old(Live())[id := ms.Value()]
    {
      PutFinds(kg, ms, id);
      SameValues();
      PutMap(ms, id);
    }

    /** One more name in the live state, and the other members' values as before. */
    twostate lemma PutMap(new ms: MemberState, id: string)
      requires forall x :: Find(keyGroups, x) == if x == id then ms else old(Find(keyGroups, x))
      requires forall x :: old(Find(keyGroups, x)) != null ==>
                 old(Find(keyGroups, x)).Value() == old(Find(keyGroups, x).Value())
      ensures Live() == old(Live())[id := ms.Value()]
    {
      hide MemberState.Value, Find, GroupsOf, MembersOf, AggsOf, IdsOf;
      forall x ensures x in Live() <==> Find(keyGroups, x) != null
               ensures x in old(Live()) <==> old(Find(keyGroups, x)) != null {
      }
    }

    twostate lemma SameValues()
      requires old(Valid()) && forall o :: o in old(PartsOf(owned)) ==> unchanged(o)
      ensures forall x :: old(Find(keyGroups, x)) != null ==>
                 old(Find(keyGroups, x)).Value() == old(Find(keyGroups, x).Value())
    {
      FoundAreOwned();
      AllKept();
      hide MemberState.Value, MemberState.Valid, MemberState.Footprint, Find, PartsOf;
    }

    twostate lemma FoundAreOwned()
      requires old(GroupsOK()) && old(ViewOK(keyGroups))
      ensures forall x :: old(Find(keyGroups, x)) != null ==> old(Find(keyGroups, x)) in old(owned)
    {
      forall x | old(Find(keyGroups, x)) != null ensures old(Find(keyGroups, x)) in old(owned) {
        var g := old(keyGroups)[KeyGroupOf(hash, x)];
        assert g in old(GroupsOf(keyGroups)) && old(GroupOK(g));
      }
    }

    twostate lemma PutFinds(new kg: KeyGroupState, new ms: MemberState, id: string)
      requires old(ViewOK(keyGroups)) && OnlyPut(kg, ms, id)
      ensures forall x :: Find(keyGroups, x) == if x == id then ms else old(Find(keyGroups, x))
    {
      forall x ensures Find(keyGroups, x) == if x == id then ms else old(Find(keyGroups, x)) {
        var g := old(keyGroups)[KeyGroupOf(hash, x)];
        if g != null {
          assert g in old(GroupsOf(keyGroups)) && g in old(groups);
        }
      }
    }

    twostate lemma PutFrozen(new kg: KeyGroupState)
      requires old(Valid()) && Writable(kg.version) && unchanged(`frozenView, `frozenEpoch)
      requires forall g :: g in old(groups) && g != kg ==> unchanged(g)
      requires forall o :: o in old(PartsOf(owned)) ==> unchanged(o)
      ensures frozenEpoch != 0 ==> Frozen() == old(Frozen()) && FrozenIsOld()
    {
      if frozenEpoch != 0 {
        assert forall g :: g in GroupsOf(frozenView) ==> g in old(groups) && g != kg;
        hide PartsOf, MembersOK, GroupsOK;
        SameFrozen();
      }
    }

    /** With its objects untouched, the frozen view is the same. */
    twostate lemma SameFrozen()
      requires old(GroupsOK()) && old(MembersOK()) && old(ViewOK(frozenView)) && frozenView == old(frozenView)
      requires forall g :: g in GroupsOf(frozenView) ==> unchanged(g)
      requires forall o :: o in old(PartsOf(owned)) ==> unchanged(o)
      ensures Frozen() == old(Frozen())
    {
      AllKept();
      SameFrozenFinds();
      hide GroupOK, PartsOf, MemberState.Value, MemberState.Valid, MemberState.Footprint, Find;
    }

    twostate lemma SameFrozenFinds()
      requires old(GroupsOK()) && old(ViewOK(frozenView)) && frozenView == old(frozenView)
      requires forall g :: g in GroupsOf(frozenView) ==> unchanged(g)
      ensures forall id :: Find(frozenView, id) == old(Find(frozenView, id))
      ensures forall id :: Find(frozenView, id) != null ==> old(Find(frozenView, id)) in old(owned)
    {
      forall id ensures Find(frozenView, id) == old(Find(frozenView, id))
                ensures Find(frozenView, id) != null ==> old(Find(frozenView, id)) in old(owned) {
        var g := frozenView[KeyGroupOf(hash, id)];
        assert g != null ==> g in GroupsOf(frozenView) && old(GroupOK(g));
      }
    }

    twostate lemma PutValid(new kg: KeyGroupState, new ms: MemberState, id: string)
      requires old(Valid()) && OnlyPut(kg, ms, id) && ms.Valid() && ms.version == epoch
      requires unchanged(`epoch, `frozenEpoch, `frozenView, `copiedGroups)
      requires copied == old(copied) + if id in old(kg.members) then multiset{id} else multiset{}
      requires old(Find(keyGroups, id)) != null ==> !Writable(old(Find(keyGroups, id)).version)
      requires frozenEpoch != 0 ==> FrozenIsOld()
      ensures Valid()
    {
      PutGroups(kg, ms, id);
      PutMembers(kg, ms, id);
      PutCopies(kg, ms, id);
      hide FrozenIsOld, GroupOK, GroupsOK, MembersOK, CopiedOnce, PartsOf, Find;
    }

    twostate lemma PutGroups(new kg: KeyGroupState, new ms: MemberState, id: string)
      requires old(GroupsOK()) && old(ViewOK(keyGroups)) && OnlyPut(kg, ms, id) && unchanged(`epoch)
      ensures GroupsOK()
    {
      assert forall g :: g in old(groups) ==> old(GroupOK(g)) && GroupOK(g);
    }

    twostate lemma PutMembers(new kg: KeyGroupState, new ms: MemberState, id: string)
      requires old(MembersOK()) && OnlyPut(kg, ms, id) && unchanged(`epoch) && ms.Valid() && ms.version == epoch
      ensures MembersOK()
    {
      AllKept();
      hide PartsOf, MemberState.Value, MemberState.Valid, MemberState.Footprint, AggsOf;
      assert forall m :: m in owned ==> m in old(owned) || m == ms;
    }

    twostate lemma PutCopies(new kg: KeyGroupState, new ms: MemberState, id: string)
      requires old(ViewOK(keyGroups)) && OnlyPut(kg, ms, id) && ms.version == epoch
      requires unchanged(`epoch, `frozenEpoch, `copiedGroups) && frozenEpoch <= epoch
      requires old(frozenEpoch != 0 ==> CopiedOnce())
      requires copied == old(copied) + if id in old(kg.members) then multiset{id} else multiset{}
      requires old(Find(keyGroups, id)) != null ==> !Writable(old(Find(keyGroups, id)).version)
      ensures frozenEpoch != 0 ==> CopiedOnce()
    {
      PutFinds(kg, ms, id);
      hide PartsOf;
    }

    /** Untouched objects keep their values. */
    twostate lemma AllKept()
      requires old(MembersOK())
      requires forall o :: o in old(PartsOf(owned)) ==> unchanged(o)
      ensures forall m :: m in old(owned) ==>
        m.Valid() && m.Footprint() == old(m.Footprint()) && m.Value() == old(m.Value())
    {
      forall m | m in old(owned)
        ensures m.Valid() && m.Footprint() == old(m.Footprint()) && m.Value() == old(m.Value())
      {
        forall o | o in old(m.Footprint()) ensures unchanged(o) {
          assert o in old(PartsOf(owned));
        }
        assert m in old(m.Footprint()) && old(m.Valid());
      }
    }

    /** With the objects untouched and every name leading where it did, the live state is the same. */
    twostate lemma SameFinds()
      requires old(Valid())
      requires forall o :: o in old(PartsOf(owned)) ==> unchanged(o)
      requires forall id :: Find(keyGroups, id) == old(Find(keyGroups, id))
      ensures Live() == old(Live())
    {
      AllKept();
      FoundAreOwned();
      hide MemberState.Value, MemberState.Footprint, MemberState.Valid, PartsOf, Find, GroupOK;
    }

    /** freezeState: bump the epoch and hand out a copy of the key group array. */
    method FreezeState() returns (view: View)
      requires Valid() && frozenEpoch == 0
      modifies this`epoch, this`frozenEpoch, this`frozenView, this`copied, this`copiedGroups
      ensures Valid() && frozenEpoch != 0 && view == frozenView == keyGroups
      ensures Live() == old(Live()) && Frozen() == old(Live()) && PartsOf(owned) == old(PartsOf(owned))
    {
      hide PartsOf, Find, ViewOf, MemberState.Footprint, MemberState.Value, MemberState.Valid, GroupOK, ViewOK;
      Apart(owned);
      Apart(MembersOf(keyGroups));
      epoch := epoch + 1;
      frozenEpoch := epoch;
      view := keyGroups;
      frozenView, copied, copiedGroups := keyGroups, multiset{}, multiset{};
      NewEpoch();
    }

    /** Everything there is belongs to an earlier epoch. */
    twostate lemma NewEpoch()
      requires old(MembersOK()) && old(GroupsOK()) && old(ViewOK(keyGroups)) && unchanged(`owned, `groups, `keyGroups)
      requires epoch == frozenEpoch == old(epoch) + 1 && frozenView == keyGroups
      requires (forall g :: g in groups ==> unchanged(g)) && forall o :: o in old(PartsOf(owned)) ==> unchanged(o)
      ensures MembersOK() && GroupsOK() && FrozenIsOld()
    {
      AllKept();
      hide PartsOf, Find, MemberState.Footprint, MemberState.Value, MemberState.Valid;
      assert forall g :: g in groups ==> old(GroupOK(g)) && GroupOK(g);
    }

    /** unfreezeState */
    method UnfreezeState()
      requires Valid()
      modifies this`frozenEpoch
      ensures Valid() && frozenEpoch == 0 && Live() == old(Live()) && PartsOf(owned) == old(PartsOf(owned))
    {
      Apart(owned);
      Apart(MembersOf(keyGroups));
      hide MembersOK, GroupsOK, ViewOK, ViewOf, FrozenIsOld, CopiedOnce, PartsOf, Find;
      frozenEpoch := 0;
    }

    // ---------- Snapshots ----------

    /** What encode makes of a view. */
    ghost function StoredIn(view: View): GroupValues
      reads GroupsOf(view), MembersOf(view), AggsOf(MembersOf(view)), PartsOf(MembersOf(view))
    {
      map i: int | 0 <= i < NUM_KEY_GROUPS && view[i] != null :: ValuesIn(view[i])
    }

    lemma StoredAt(view: View, i: nat)
      requires i < NUM_KEY_GROUPS
      ensures i in StoredIn(view) <==> view[i] != null
      ensures view[i] != null ==> StoredIn(view)[i] == ValuesIn(view[i])
    {
    }

    lemma StoredIsView(view: View)
      requires GroupsOK() && ViewOK(view)
      ensures Placed(hash, StoredIn(view)) && Flatten(hash, StoredIn(view)) == ViewOf(view)
    {
      EncodedIsView(view, StoredIn(view));
    }

    twostate lemma StillStored()
      requires old(Valid()) && unchanged(this) && forall g :: g in groups ==> unchanged(g)
      requires forall o :: o in old(PartsOf(owned)) ==> unchanged(o)
      ensures StoredIn(keyGroups) == old(StoredIn(keyGroups))
    {
      AllKept();
      hide MemberState.Value, MemberState.Footprint, MemberState.Valid, PartsOf;
      forall i | 0 <= i < NUM_KEY_GROUPS && keyGroups[i] != null
        ensures ValuesIn(keyGroups[i]) == old(ValuesIn(keyGroups[i]))
      {
        var g: KeyGroupState := keyGroups[i];
        assert g in groups && old(GroupOK(g));
        assert forall id :: id in g.members ==> g.members[id] in old(owned);
      }
    }

    lemma LiveIsStored()
      requires Valid()
      ensures Placed(hash, StoredIn(keyGroups)) && Flatten(hash, StoredIn(keyGroups)) == Live()
      ensures forall i :: i in StoredIn(keyGroups) ==> 0 <= i < NUM_KEY_GROUPS
    {
      hide Placed, Flatten;
      StoredIsView(keyGroups);
    }

    twostate lemma UntouchedStore()
      requires old(Valid()) && unchanged(this) && forall g :: g in groups ==> unchanged(g)
      requires forall o :: o in old(PartsOf(owned)) ==> unchanged(o)
      ensures Valid() && StoredIn(keyGroups) == old(StoredIn(keyGroups))
    {
      Untouched();
      StillStored();
    }

    /** encode: the key groups of a view that were ever written, as values. */
    method Encode(view: View) returns (kgs: GroupValues)
      requires GroupsOK() && ViewOK(view)
      ensures Placed(hash, kgs) && forall i :: i in kgs ==> 0 <= i < NUM_KEY_GROUPS
      ensures Flatten(hash, kgs) == ViewOf(view)
    {
      kgs := map[];
      for i := 0 to NUM_KEY_GROUPS
        invariant kgs.Keys == set j: int | 0 <= j < i && view[j] != null
        invariant forall j :: j in kgs ==> kgs[j] == ValuesIn(view[j])
      {
        if view[i] != null {
          kgs := kgs[i := ValuesIn(view[i])];
        }
      }
      EncodedIsView(view, kgs);
    }

    lemma EncodedIsView(view: View, kgs: GroupValues)
      requires GroupsOK() && ViewOK(view)
      requires kgs.Keys == set j: int | 0 <= j < NUM_KEY_GROUPS && view[j] != null
      requires forall j :: j in kgs ==> kgs[j] == ValuesIn(view[j])
      ensures Placed(hash, kgs) && Flatten(hash, kgs) == ViewOf(view)
    {
      forall j, id | j in kgs && id in kgs[j] ensures j == KeyGroupOf(hash, id) && kgs[j][id].memberID == id {
        assert view[j] in GroupsOf(view) && GroupOK(view[j]);
      }
      forall id ensures id in Flatten(hash, kgs) <==> Find(view, id) != null {
        var k := KeyGroupOf(hash, id);
        if k in kgs && id in kgs[k] {
          assert id in StoredIds(kgs);
        }
      }
    }

    /** `m` is a well-formed object of epoch 0 with the value `v`. */
    ghost predicate Decoded(m: MemberState, v: Member)
      reads m, m.Aggs(), m.Footprint()
    {
      m.Valid() && m.version == 0 && m.memberID == v.memberID && m.Value() == v
    }

    ghost predicate AllDecoded(members: map<string, MemberState>, vals: map<string, Member>)
      requires members.Keys <= vals.Keys
      reads set id | id in members :: members[id]
      reads set id, o: object | id in members && o in members[id].Footprint() :: o
      reads set id, a: BehaviorAgg | id in members && a in members[id].Aggs() :: a
    {
      forall id :: id in members ==> Decoded(members[id], vals[id])
    }

    method LoadMember(v: Member) returns (m: MemberState)
      ensures fresh(m.Footprint()) && Decoded(m, v)
      ensures (forall o :: o in m.Aggs() ==> allocated(o)) && forall o :: o in m.Footprint() ==> allocated(o)
    {
      m := new MemberState.Of(v, 0);
    }

    method LoadGroup(i: nat, vals: map<string, Member>) returns (g: KeyGroupState)
      ensures fresh(g) && g.index == i && g.version == 0 && g.members.Keys == vals.Keys
      ensures AllDecoded(g.members, vals)
      ensures forall id :: id in g.members ==> fresh(g.members[id].Footprint())
    {
      hide Decoded, MemberState.Footprint, MemberState.Aggs;
      var members: map<string, MemberState> := map[];
      var todo := vals.Keys;
      while todo != {}
        invariant todo <= vals.Keys && members.Keys == vals.Keys - todo
        invariant forall id :: id in members ==> fresh(members[id].Footprint())
        invariant forall id :: id in members ==>
                    allocated(members[id]) && (forall o :: o in members[id].Aggs() ==> allocated(o))
                    && forall o :: o in members[id].Footprint() ==> allocated(o)
        invariant AllDecoded(members, vals)
        decreases todo
      {
        var id :| id in todo;
        var m := LoadMember(vals[id]);
        members := members[id := m];
        todo := todo - {id};
      }
      g := new KeyGroupState(i, members, 0);
    }

    /** One decoded key group goes into its empty slot. */
    method LoadInto(i: nat, vals: map<string, Member>)
      requires Valid() && frozenEpoch == 0 && i < NUM_KEY_GROUPS && keyGroups[i] == null
      requires forall id :: id in vals ==> KeyGroupOf(hash, id) == i && vals[id].memberID == id
      modifies this`keyGroups, this`groups, this`owned
      ensures Valid() && keyGroups[i] != null && keyGroups == old(keyGroups)[i := keyGroups[i]]
      ensures Live() == old(Live()) + vals
      ensures forall g :: g in groups ==> g in old(groups) || fresh(g)
      ensures forall o :: o in PartsOf(owned) ==> o in old(PartsOf(owned)) || fresh(o)
    {
      hide MembersOK, GroupsOK, ViewOK, ViewOf, PartsOf, Live, AllDecoded, Find, FrozenIsOld, CopiedOnce;
      var kg := LoadAside(i, vals);
      Install(i, kg, vals);
    }

    /** Decode a key group; the state stays as it is. */
    method LoadAside(i: nat, vals: map<string, Member>) returns (kg: KeyGroupState)
      requires Valid()
      ensures Valid() && Live() == old(Live()) && PartsOf(owned) == old(PartsOf(owned))
      ensures fresh(kg) && kg.index == i && kg.version == 0 && kg.members.Keys == vals.Keys
              && AllDecoded(kg.members, vals)
      ensures forall o :: o in PartsOf(MembersIn(kg)) ==> fresh(o)
    {
      Apart(owned);
      hide Valid, Live, PartsOf, AllDecoded;
      kg := LoadGroup(i, vals);
      PartsIn(kg);
      Untouched();
    }

    ghost function MembersIn(kg: KeyGroupState): set<MemberState>
      reads kg
    {
      set id | id in kg.members :: kg.members[id]
    }

    lemma PartsIn(kg: KeyGroupState)
      ensures forall o :: o in PartsOf(MembersIn(kg)) ==>
              exists id :: id in kg.members && o in kg.members[id].Footprint()
    {
    }

    method Install(i: nat, kg: KeyGroupState, vals: map<string, Member>)
      requires Valid() && frozenEpoch == 0 && i < NUM_KEY_GROUPS && keyGroups[i] == null
      requires kg.index == i && kg.version == 0 && kg.members.Keys == vals.Keys && AllDecoded(kg.members, vals)
      requires forall id :: id in vals ==> KeyGroupOf(hash, id) == i && vals[id].memberID == id
      modifies this`keyGroups, this`groups, this`owned
      ensures Valid() && keyGroups == old(keyGroups)[i := kg] && groups == old(groups) + {kg}
      ensures Live() == old(Live()) + vals
      ensures PartsOf(owned) == old(PartsOf(owned)) + old(PartsOf(MembersIn(kg)))
    {
      Apart(owned);
      Apart(MembersIn(kg));
      hide Valid, MembersOK, GroupsOK, ViewOK, Live, PartsOf, AllDecoded;
      keyGroups := keyGroups[i := kg];
      groups := groups + {kg};
      owned := owned + MembersIn(kg);
      Installed(i, kg, vals);
    }

    twostate lemma Installed(i: nat, new kg: KeyGroupState, new vals: map<string, Member>)
      requires old(allocated(kg)) && old(Valid()) && InstallOf(i, kg) && frozenEpoch == 0
      requires kg.index == i && kg.version == 0 && kg.members.Keys == vals.Keys && old(AllDecoded(kg.members, vals))
      requires forall id :: id in vals ==> KeyGroupOf(hash, id) == i && vals[id].memberID == id
      ensures Valid() && Live() == old(Live()) + vals
      ensures PartsOf(owned) == old(PartsOf(owned)) + old(PartsOf(MembersIn(kg)))
    {
      InstalledMembers(i, kg, vals);
      InstalledFinds(i, kg, vals);
      InstalledValues(i, kg, vals);
      InstalledGroups(i, kg, vals);
      hide InstallOf, AllDecoded, MembersOK, GroupsOK, ViewOK, PartsOf, Live;
    }

    twostate lemma InstalledGroups(i: nat, new kg: KeyGroupState, new vals: map<string, Member>)
      requires old(allocated(kg)) && old(GroupsOK()) && old(ViewOK(keyGroups)) && InstallOf(i, kg)
      requires kg.index == i && kg.version == 0 && kg.members.Keys == vals.Keys && old(AllDecoded(kg.members, vals))
      requires forall id :: id in vals ==> KeyGroupOf(hash, id) == i && vals[id].memberID == id
      ensures GroupsOK() && ViewOK(keyGroups)
    {
      hide MemberState.Value, MemberState.Valid, MemberState.Footprint, PartsOf;
      assert forall g :: g in old(groups) ==> old(GroupOK(g)) && GroupOK(g);
      forall id | id in kg.members ensures kg.members[id] in owned && kg.members[id].memberID == id {
        assert old(Decoded(kg.members[id], vals[id]));
      }
    }

    twostate predicate InstallOf(i: nat, new kg: KeyGroupState)
      requires old(allocated(kg))
      reads *
    {
      && i < NUM_KEY_GROUPS && old(keyGroups[i]) == null && keyGroups == old(keyGroups)[i := kg]
      && unchanged(kg) && groups == old(groups) + {kg} && owned == old(owned) + MembersIn(kg)
      && unchanged(`epoch, `frozenEpoch)
      && (forall g :: g in old(groups) ==> unchanged(g))
      && (forall o :: o in old(PartsOf(owned)) ==> unchanged(o))
      && (forall o :: o in old(PartsOf(MembersIn(kg))) ==> unchanged(o))
    }

    twostate lemma InstalledMembers(i: nat, new kg: KeyGroupState, new vals: map<string, Member>)
      requires old(allocated(kg)) && old(MembersOK()) && InstallOf(i, kg)
      requires kg.members.Keys == vals.Keys && old(AllDecoded(kg.members, vals))
      ensures MembersOK() && PartsOf(owned) == old(PartsOf(owned)) + old(PartsOf(MembersIn(kg)))
    {
      AllKept();
      DecodedKept(i, kg, vals);
      InstalledOwners(i, kg, vals);
      InstalledParts(i, kg);
    }

    twostate lemma InstalledOwners(i: nat, new kg: KeyGroupState, new vals: map<string, Member>)
      requires old(allocated(kg)) && old(MembersOK()) && InstallOf(i, kg) && kg.members.Keys == vals.Keys
      requires forall m :: m in old(owned) ==> m.Valid()
      requires forall id :: id in kg.members ==> Decoded(kg.members[id], vals[id])
      ensures MembersOK()
    {
      hide MemberState.Value, MemberState.Footprint, MemberState.Valid, PartsOf;
    }

    twostate lemma DecodedKept(i: nat, new kg: KeyGroupState, new vals: map<string, Member>)
      requires old(allocated(kg)) && InstallOf(i, kg)
      requires kg.members.Keys == vals.Keys && old(AllDecoded(kg.members, vals))
      ensures forall id :: id in kg.members ==>
        Decoded(kg.members[id], vals[id]) && kg.members[id].Footprint() == old(kg.members[id].Footprint())
    {
      forall id | id in kg.members
        ensures Decoded(kg.members[id], vals[id]) && kg.members[id].Footprint() == old(kg.members[id].Footprint())
      {
        var m := kg.members[id];
        assert m in old(MembersIn(kg)) && m in old(m.Footprint());
        forall o | o in old(m.Footprint()) ensures unchanged(o) {
          assert o in old(PartsOf(MembersIn(kg)));
        }
        assert old(Decoded(m, vals[id]));
      }
    }

    twostate lemma InstalledParts(i: nat, new kg: KeyGroupState)
      requires old(allocated(kg)) && InstallOf(i, kg)
      requires forall m :: m in old(owned) ==> m.Footprint() == old(m.Footprint())
      requires forall id :: id in kg.members ==> kg.members[id].Footprint() == old(kg.members[id].Footprint())
      ensures PartsOf(owned) == old(PartsOf(owned)) + old(PartsOf(MembersIn(kg)))
    {
      hide MemberState.Footprint;
      forall o | o in PartsOf(owned) ensures o in old(PartsOf(owned)) || o in old(PartsOf(MembersIn(kg))) {
        var m :| m in owned && o in m.Footprint();
      }
      forall o | o in old(PartsOf(owned)) ensures o in PartsOf(owned) {
        var m :| m in old(owned) && o in old(m.Footprint());
        assert m in owned && o in m.Footprint();
      }
      forall o | o in old(PartsOf(MembersIn(kg))) ensures o in PartsOf(owned) {
        var m :| m in old(MembersIn(kg)) && o in old(m.Footprint());
        assert m in owned && o in m.Footprint();
      }
    }

    twostate lemma InstalledFinds(i: nat, new kg: KeyGroupState, new vals: map<string, Member>)
      requires old(allocated(kg)) && old(ViewOK(keyGroups)) && InstallOf(i, kg)
      requires kg.members.Keys == vals.Keys && forall id :: id in vals ==> KeyGroupOf(hash, id) == i
      ensures forall x :: Find(keyGroups, x) == if x in vals then kg.members[x] else old(Find(keyGroups, x))
      ensures forall x :: x in vals ==> old(Find(keyGroups, x)) == null
    {
      forall x ensures Find(keyGroups, x) == if x in vals then kg.members[x] else old(Find(keyGroups, x)) {
        var g := old(keyGroups)[KeyGroupOf(hash, x)];
        if g != null {
          assert g in old(GroupsOf(keyGroups)) && g in old(groups);
        }
      }
    }

    twostate lemma InstalledValues(i: nat, new kg: KeyGroupState, new vals: map<string, Member>)
      requires old(Valid()) && old(allocated(kg)) && InstallOf(i, kg)
      requires kg.members.Keys == vals.Keys && old(AllDecoded(kg.members, vals))
      requires forall x :: Find(keyGroups, x) == if x in vals then kg.members[x] else old(Find(keyGroups, x))
      ensures Live() == old(Live()) + vals
    {
      SameValues();
      DecodedKept(i, kg, vals);
      LiveIsUnion(kg, vals);
    }

    twostate lemma LiveIsUnion(new kg: KeyGroupState, new vals: map<string, Member>)
      requires kg.members.Keys == vals.Keys
      requires forall x :: Find(keyGroups, x) == if x in vals then kg.members[x] else old(Find(keyGroups, x))
      requires forall x :: old(Find(keyGroups, x)) != null ==>
                 old(Find(keyGroups, x)).Value() == old(Find(keyGroups, x).Value())
      requires forall id :: id in kg.members ==> Decoded(kg.members[id], vals[id])
      ensures Live() == old(Live()) + vals
    {
      hide MemberState.Value, MemberState.Valid, MemberState.Footprint, Find, GroupsOf, MembersOf, AggsOf, IdsOf;
      forall x ensures x in Live() <==> Find(keyGroups, x) != null
               ensures x in old(Live()) <==> old(Find(keyGroups, x)) != null {
      }
    }

    /** The state part of Restore: the decoded key groups take the place of whatever was there. */
    method Load(kgs: GroupValues)
      requires Valid() && frozenEpoch == 0 && Placed(hash, kgs)
      requires forall i :: i in kgs ==> 0 <= i < NUM_KEY_GROUPS
      modifies this`keyGroups, this`groups, this`owned
      ensures Valid() && Live() == Flatten(hash, kgs)
      ensures (forall g :: g in groups ==> fresh(g)) && forall o :: o in PartsOf(owned) ==> fresh(o)
    {
      hide Valid, Live, PartsOf, Flatten, Placed, Upto, ViewOf, Find, KeyGroupOf;
      Clear();
      FlattenNone(hash, kgs);
      for i := 0 to NUM_KEY_GROUPS
        invariant Valid() && Live() == Flatten(hash, Upto(kgs, i))
        invariant forall j :: i <= j < NUM_KEY_GROUPS ==> keyGroups[j] == null
        invariant (forall g :: g in groups ==> fresh(g)) && forall o :: o in PartsOf(owned) ==> fresh(o)
      {
        LoadStep(kgs, i);
      }
      UptoAll(kgs);
    }

    method LoadStep(kgs: GroupValues, i: nat)
      requires Valid() && frozenEpoch == 0 && Placed(hash, kgs) && i < NUM_KEY_GROUPS && keyGroups[i] == null
      requires Live() == Flatten(hash, Upto(kgs, i))
      modifies this`keyGroups, this`groups, this`owned
      ensures Valid() && Live() == Flatten(hash, Upto(kgs, i + 1))
      ensures forall j :: 0 <= j < NUM_KEY_GROUPS && j != i ==> keyGroups[j] == old(keyGroups[j])
      ensures forall g :: g in groups ==> g in old(groups) || fresh(g)
      ensures forall o :: o in PartsOf(owned) ==> o in old(PartsOf(owned)) || fresh(o)
    {
      hide Valid, Live, PartsOf, Flatten, Placed, Upto, ViewOf, Find, KeyGroupOf;
      PlacedAt(hash, kgs, i);
      FlattenMore(hash, kgs, i);
      if i in kgs {
        LoadInto(i, kgs[i]);
      }
    }

    method Clear()
      requires Valid() && frozenEpoch == 0
      modifies this`keyGroups, this`groups, this`owned
      ensures Valid() && Live() == map[] && groups == {} && PartsOf(owned) == {}
      ensures forall i :: 0 <= i < NUM_KEY_GROUPS ==> keyGroups[i] == null
    {
      keyGroups := seq(NUM_KEY_GROUPS, i => null);
      groups, owned := {}, {};
    }
  }

  ghost function Upto(kgs: GroupValues, n: int): GroupValues { map i | i in kgs && i < n :: kgs[i] }

  lemma UptoAll(kgs: GroupValues)
    requires forall i :: i in kgs ==> i < NUM_KEY_GROUPS
    ensures Upto(kgs, NUM_KEY_GROUPS) == kgs
  {
  }

  lemma FlattenNone(hash: string -> nat, kgs: GroupValues)
    requires forall i :: i in kgs ==> i >= 0
    ensures Flatten(hash, Upto(kgs, 0)) == map[]
  {
  }

  lemma PlacedAt(hash: string -> nat, kgs: GroupValues, i: int)
    requires Placed(hash, kgs)
    ensures i in kgs ==> forall id :: id in kgs[i] ==> KeyGroupOf(hash, id) == i && kgs[i][id].memberID == id
  {
    if i in kgs {
      forall id | id in kgs[i] ensures KeyGroupOf(hash, id) == i && kgs[i][id].memberID == id {
        assert i in kgs && id in kgs[i];
      }
    }
  }

  lemma FlattenMore(hash: string -> nat, kgs: GroupValues, n: int)
    requires Placed(hash, kgs)
    ensures Flatten(hash, Upto(kgs, n + 1)) == Flatten(hash, Upto(kgs, n)) + if n in kgs then kgs[n] else map[]
  {
    hide Flatten, Upto, Placed, KeyGroupOf;
    var some: map<string, Member> := if n in kgs then kgs[n] else map[];
    var more, less := Flatten(hash, Upto(kgs, n + 1)), Flatten(hash, Upto(kgs, n));
    forall id ensures id in more <==> id in less || id in some
              ensures id in more ==> more[id] == if id in some then some[id] else less[id]
    {
      FlattenStep(hash, kgs, n, id);
    }
  }

  lemma FlattenStep(hash: string -> nat, kgs: GroupValues, n: int, id: string)
    requires Placed(hash, kgs)
    ensures var some: map<string, Member> := if n in kgs then kgs[n] else map[];
            var more, less := Flatten(hash, Upto(kgs, n + 1)), Flatten(hash, Upto(kgs, n));
            && (id in more <==> id in less || id in some)
            && (id in more ==> more[id] == if id in some then some[id] else less[id])
  {
    FlattenAt(hash, kgs, n, id);
    FlattenAt(hash, kgs, n + 1, id);
    hide Flatten, Upto, KeyGroupOf;
  }

  lemma FlattenAt(hash: string -> nat, kgs: GroupValues, n: int, id: string)
    ensures var k := KeyGroupOf(hash, id);
            id in Flatten(hash, Upto(kgs, n)) <==> k in kgs && k < n && id in kgs[k]
    ensures var k := KeyGroupOf(hash, id);
            id in Flatten(hash, Upto(kgs, n)) ==> Flatten(hash, Upto(kgs, n))[id] == kgs[k][id]
  {
    hide KeyGroupOf;
    var k := KeyGroupOf(hash, id);
    if k in kgs && k < n && id in kgs[k] {
      assert k in Upto(kgs, n) && Upto(kgs, n)[k] == kgs[k];
      assert id in StoredIds(Upto(kgs, n));
    }
  }
}
