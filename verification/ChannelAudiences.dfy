/** Onboarding's staff-only decisions: what a pass records, and what its dry run predicts. */
module ChannelAudiences {
  import opened Options

  type Id = nat

  datatype Overwrite = Overwrite(allowsView: bool, deniesView: bool)

  datatype Channel = Channel(
    id: Id, category: bool, parent: Option<Id>, overwrites: seq<Overwrite>,
    everyoneVisible: bool, memberVisible: bool, guestVisible: bool)

  datatype Snapshot = Snapshot(channels: seq<Channel>, excluded: set<Id>)

  datatype Audience = Lobby | Members | Officers

  /** The two rooms a pass is given; a dry run may have neither yet. */
  datatype Rooms = Rooms(lobby: Option<Id>, officers: Option<Id>)

  type Policies = map<Id, bool>

  /** `initiallyStaffOnly`: the first observation's privacy evidence. */
  predicate InitiallyStaffOnly(c: Channel, alreadyEnabled: bool, staffParent: bool) {
    || staffParent
    || (!(c.memberVisible || c.guestVisible || c.everyoneVisible)
        && (!alreadyEnabled
            || exists k :: 0 <= k < |c.overwrites| && (c.overwrites[k].allowsView || c.overwrites[k].deniesView)))
  }

  function Managed(s: Snapshot, channels: seq<Channel>, category: bool): (r: seq<Channel>)
    ensures forall c :: c in r <==> c in channels && c.id !in s.excluded && c.category == category
  {
    if channels == [] then []
    else (if channels[0].id !in s.excluded && channels[0].category == category then [channels[0]] else [])
         + Managed(s, channels[1..], category)
  }

  /** The managed channels, categories first, otherwise in the snapshot's order. */
  function Ordered(s: Snapshot): seq<Channel> { Managed(s, s.channels, true) + Managed(s, s.channels, false) }

  predicate StaffParent(known: Policies,
                        c: Channel) { c.parent.Some? && c.parent.value in known && known[c.parent.value] }

  /** What a pass decides for one channel, given what is known before it. */
  predicate Decision(known: Policies, c: Channel, rooms: Rooms, enabled: bool) {
    if rooms.lobby == Some(c.id) then false
    else if rooms.officers == Some(c.id) then true
    else if c.id in known then known[c.id]
    else InitiallyStaffOnly(c, enabled, StaffParent(known, c))
  }

  /** A whole pass over the ordered channels. */
  function Remembered(known: Policies, channels: seq<Channel>, rooms: Rooms, enabled: bool): Policies
    decreases |channels|
  {
    if channels == [] then known
    else
      var next := known[channels[0].id := Decision(known, channels[0], rooms, enabled)];
      Remembered(next, channels[1..], rooms, enabled)
  }

  function AudienceOf(known: Policies, id: Id, rooms: Rooms): Audience {
    if rooms.lobby == Some(id) then Lobby
    else if rooms.officers == Some(id) || (id in known && known[id]) then Officers
    else Members
  }

  lemma {:induction false} PassKeepsOthers(known: Policies, channels: seq<Channel>, rooms: Rooms, enabled: bool, id: Id)
    ensures var after := Remembered(known, channels, rooms, enabled);
      && (id in known ==> id in after)
      && (id in known && Some(id) != rooms.lobby && Some(id) != rooms.officers ==> after[id] == known[id])
    decreases |channels|
  {
    if channels != [] {
      var next := known[channels[0].id := Decision(known, channels[0], rooms, enabled)];
      PassKeepsOthers(next, channels[1..], rooms, enabled, id);
    }
  }

  /** A chosen room keeps its room's decision through the rest of the pass. */
  lemma {:induction false} RoomsAreSettled(known: Policies, channels: seq<Channel>, rooms: Rooms, enabled: bool,
                                           c: Channel)
    requires c in channels
    ensures var after := Remembered(known, channels, rooms, enabled);
      && c.id in after
      && (rooms.lobby == Some(c.id) ==> !after[c.id])
      && (rooms.officers == Some(c.id) && rooms.lobby != Some(c.id) ==> after[c.id])
    decreases |channels|
  {
    var next := known[channels[0].id := Decision(known, channels[0], rooms, enabled)];
    if c in channels[1..] {
      RoomsAreSettled(next, channels[1..], rooms, enabled, c);
    } else {
      SettledStays(next, channels[1..], rooms, enabled, c.id);
    }
  }

  lemma {:induction false} SettledStays(known: Policies, channels: seq<Channel>, rooms: Rooms, enabled: bool, id: Id)
    requires id in known
    requires rooms.lobby == Some(id) ==> !known[id]
    requires rooms.officers == Some(id) && rooms.lobby != Some(id) ==> known[id]
    ensures var after := Remembered(known, channels, rooms, enabled); id in after && after[id] == known[id]
    decreases |channels|
  {
    if channels != [] {
      var next := known[channels[0].id := Decision(known, channels[0], rooms, enabled)];
      SettledStays(next, channels[1..], rooms, enabled, id);
    }
  }

  /** Every managed channel is decided, and the decisions agree with the rooms. */
  ghost predicate Settled(known: Policies, channels: seq<Channel>, rooms: Rooms) {
    forall c :: c in channels ==> c.id in known && SettledFor(known, c.id, rooms)
  }

  ghost predicate SettledFor(known: Policies, id: Id, rooms: Rooms)
    requires id in known
  {
    (rooms.lobby == Some(id) ==> !known[id]) && (rooms.officers == Some(id) && rooms.lobby != Some(id) ==> known[id])
  }

  lemma PassSettles(known: Policies, channels: seq<Channel>, rooms: Rooms, enabled: bool)
    ensures Settled(Remembered(known, channels, rooms, enabled), channels, rooms)
  {
    forall c | c in channels
      ensures var after := Remembered(known, channels, rooms, enabled); c.id in after && SettledFor(after, c.id, rooms)
    {
      RoomsAreSettled(known, channels, rooms, enabled, c);
    }
  }

  /** A pass over settled channels changes nothing, onboarding on or off. */
  lemma {:induction false} SettledPassIsIdle(known: Policies, channels: seq<Channel>, rooms: Rooms, enabled: bool)
    requires Settled(known, channels, rooms)
    ensures Remembered(known, channels, rooms, enabled) == known
    decreases |channels|
  {
    if channels != [] {
      var c := channels[0];
      assert c in channels && SettledFor(known, c.id, rooms);
      assert known[c.id := Decision(known, c, rooms, enabled)] == known;
      forall d | d in channels[1..] ensures d.id in known && SettledFor(known, d.id, rooms) { assert d in channels; }
      SettledPassIsIdle(known, channels[1..], rooms, enabled);
    }
  }

  /** Setup's pass and then the channel pass with onboarding on decide what the first alone decided. */
  lemma SecondPassChangesNothing(known: Policies, s: Snapshot, rooms: Rooms, enabled: bool)
    ensures var once := Remembered(known, Ordered(s), rooms, enabled);
      Remembered(once, Ordered(s), rooms, true) == once
  {
    PassSettles(known, Ordered(s), rooms, enabled);
    SettledPassIsIdle(Remembered(known, Ordered(s), rooms, enabled), Ordered(s), rooms, true);
  }

  datatype Pass = Pass(snapshot: Snapshot, rooms: Rooms, enabled: bool)

  function AfterPasses(known: Policies, passes: seq<Pass>): Policies
    decreases |passes|
  {
    if passes == [] then known
    else AfterPasses(Remembered(known, Ordered(passes[0].snapshot), passes[0].rooms, passes[0].enabled), passes[1..])
  }

  ghost predicate NeverARoom(passes: seq<Pass>, id: Id) {
    forall k :: 0 <= k < |passes| ==> passes[k].rooms.lobby != Some(id) && passes[k].rooms.officers != Some(id)
  }

  /** Through any passes, over any snapshots, a channel never chosen as a room keeps its first decision. */
  lemma {:induction false} FirstDecisionStays(known: Policies, passes: seq<Pass>, id: Id)
    requires id in known && NeverARoom(passes, id)
    ensures var after := AfterPasses(known, passes); id in after && after[id] == known[id]
    decreases |passes|
  {
    if passes != [] {
      var p := passes[0];
      PassKeepsOthers(known, Ordered(p.snapshot), p.rooms, p.enabled, id);
      assert NeverARoom(passes[1..], id);
      FirstDecisionStays(Remembered(known, Ordered(p.snapshot), p.rooms, p.enabled), passes[1..], id);
    }
  }

  lemma {:induction false} PassJoins(known: Policies, a: seq<Channel>, b: seq<Channel>, rooms: Rooms, enabled: bool)
    ensures Remembered(known, a + b, rooms, enabled)
      == Remembered(Remembered(known, a, rooms, enabled), b, rooms, enabled)
    decreases |a|
  {
    if a == [] {
      assert a + b == b;
    } else {
      var next := known[a[0].id := Decision(known, a[0], rooms, enabled)];
      assert (a + b)[1..] == a[1..] + b;
      PassJoins(next, a[1..], b, rooms, enabled);
    }
  }

  lemma {:induction false} NewChildIsStaff(known: Policies, channels: seq<Channel>, rooms: Rooms, enabled: bool,
                                           c: Channel)
    requires c in channels && StaffParent(known, c) && c.id !in known
    requires forall d :: d in channels && d.id == c.id ==> d == c
    requires c.parent != rooms.lobby && c.parent != rooms.officers && c.parent != Some(c.id)
    requires rooms.lobby != Some(c.id)
    ensures var after := Remembered(known, channels, rooms, enabled); c.id in after && after[c.id]
    decreases |channels|
  {
    var next := known[channels[0].id := Decision(known, channels[0], rooms, enabled)];
    if channels[0].id == c.id {
      assert channels[0] in channels;
      SettledStays(next, channels[1..], rooms, enabled, c.id);
    } else {
      NewChildIsStaff(next, channels[1..], rooms, enabled, c);
    }
  }

  /**
   * Wherever it stands in the snapshot, a channel first seen inside a staff-only category is
   * staff-only too, even when that category was first seen in the same pass.
   */
  lemma ChildrenFollowTheirCategory(known: Policies, s: Snapshot, rooms: Rooms, enabled: bool, parent: Channel,
                                    c: Channel)
    requires parent in Ordered(s) && c in Ordered(s) && parent.category && !c.category && c.parent == Some(parent.id)
    requires forall a, b :: a in s.channels && b in s.channels && a.id == b.id ==> a == b
    requires c.id !in known && rooms.lobby != Some(c.id)
    requires rooms.lobby != Some(parent.id) && rooms.officers != Some(parent.id)
    ensures var after := Remembered(known, Ordered(s), rooms, enabled);
      parent.id in after && (after[parent.id] ==> c.id in after && after[c.id])
  {
    var first, rest := Managed(s, s.channels, true), Managed(s, s.channels, false);
    PassJoins(known, first, rest, rooms, enabled);
    var middle := Remembered(known, first, rooms, enabled);
    assert parent in first && c in rest;
    RoomsAreSettled(known, first, rooms, enabled, parent);
    PassKeepsOthers(middle, rest, rooms, enabled, parent.id);
    OnlyNamed(known, first, rooms, enabled, c.id);
    if middle[parent.id] { NewChildIsStaff(middle, rest, rooms, enabled, c); }
  }

  lemma {:induction false} OnlyNamed(known: Policies, channels: seq<Channel>, rooms: Rooms, enabled: bool, id: Id)
    requires id !in known && forall c :: c in channels ==> c.id != id
    ensures id !in Remembered(known, channels, rooms, enabled)
    decreases |channels|
  {
    if channels != [] {
      assert channels[0] in channels;
      var next := known[channels[0].id := Decision(known, channels[0], rooms, enabled)];
      OnlyNamed(next, channels[1..], rooms, enabled, id);
    }
  }

  /** The channels that aren't among these IDs. */
  function Without(channels: seq<Channel>, made: set<Id>): (r: seq<Channel>)
    ensures forall c :: c in r <==> c in channels && c.id !in made
  {
    if channels == [] then []
    else (if channels[0].id in made then [] else [channels[0]]) + Without(channels[1..], made)
  }

  lemma {:induction false} WithoutManaged(s: Snapshot, channels: seq<Channel>, category: bool, made: set<Id>)
    ensures Without(Managed(s, channels, category), made) == Managed(s, Without(channels, made), category)
  {
    if channels != [] {
      var rest := Managed(s, channels[1..], category);
      WithoutManaged(s, channels[1..], category, made);
      if channels[0].id !in s.excluded && channels[0].category == category {
        WithoutJoins([channels[0]], rest, made);
        assert Without([channels[0]], made) == if channels[0].id in made then [] else [channels[0]];
      } else {
        assert [] + rest == rest;
      }
      if channels[0].id !in made {
        var kept := Without(channels[1..], made);
        assert ([channels[0]] + kept)[1..] == kept;
      } else {
        assert [] + Without(channels[1..], made) == Without(channels[1..], made);
      }
    }
  }

  lemma {:induction false} WithoutJoins(a: seq<Channel>, b: seq<Channel>, made: set<Id>)
    ensures Without(a + b, made) == Without(a, made) + Without(b, made)
  {
    if a == [] {
      assert a + b == b;
    } else {
      assert (a + b)[1..] == a[1..] + b;
      WithoutJoins(a[1..], b, made);
    }
  }

  /** The same decisions about every channel but those. */
  ghost predicate AgreeBut(a: Policies, b: Policies, made: set<Id>) {
    forall id :: id !in made ==> (id in a <==> id in b) && (id in a ==> a[id] == b[id])
  }

  /**
   * What setup makes of a plan: rooms the plan already had stay the rooms, and each missing one is a
   * channel made for it, which nothing knew and in which nothing stands.
   */
  ghost predicate MadeRooms(planned: Snapshot, rooms: Rooms, known: Policies, actual: Snapshot, lobby: Id, officers: Id,
                            made: set<Id>)
  {
    && actual.excluded == planned.excluded && Without(actual.channels, made) == planned.channels
    && (if rooms.lobby.Some? then lobby == rooms.lobby.value && lobby !in made else lobby in made)
    && (if rooms.officers.Some? then officers == rooms.officers.value && officers !in made else officers in made)
    && (forall id :: id in made ==> id !in known)
    && (forall c :: c in actual.channels && c.parent.Some? ==> c.parent.value !in made)
  }

  lemma {:induction false} PassesAgree(a: Policies, b: Policies, channels: seq<Channel>, planned: Rooms, actual: Rooms,
                                       enabled: bool, made: set<Id>)
    requires AgreeBut(a, b, made)
    requires forall c :: c in channels && c.parent.Some? ==> c.parent.value !in made
    requires forall id :: id !in made ==>
      && (planned.lobby == Some(id) <==> actual.lobby == Some(id))
      && (planned.officers == Some(id) <==> actual.officers == Some(id))
    ensures AgreeBut(Remembered(a, Without(channels, made), planned, enabled),
                     Remembered(b, channels, actual, enabled), made)
    decreases |channels|
  {
    if channels != [] {
      var c := channels[0];
      var later := b[c.id := Decision(b, c, actual, enabled)];
      assert c in channels;
      if c.id in made {
        assert Without(channels, made) == Without(channels[1..], made);
        PassesAgree(a, later, channels[1..], planned, actual, enabled, made);
      } else {
        var next := a[c.id := Decision(a, c, planned, enabled)];
        var rest := Without(channels[1..], made);
        assert Without(channels, made) == [c] + rest && ([c] + rest)[1..] == rest;
        assert Decision(a, c, planned, enabled) == Decision(b, c, actual, enabled);
        PassesAgree(next, later, channels[1..], planned, actual, enabled, made);
      }
    }
  }

  /** A channel the plan saw gets the audience the plan said, whether its rooms existed or were made since. */
  lemma PlanStandsWithMadeRooms(planned: Snapshot, rooms: Rooms, known: Policies, actual: Snapshot, lobby: Id,
                                officers: Id, made: set<Id>, enabled: bool, id: Id)
    requires MadeRooms(planned, rooms, known, actual, lobby, officers, made) && id !in made
    ensures AudienceOf(Remembered(known, Ordered(planned), rooms, enabled), id, rooms)
         == AudienceOf(Remembered(known, Ordered(actual), Rooms(Some(lobby), Some(officers)), enabled), id,
                       Rooms(Some(lobby), Some(officers)))
  {
    var given := Rooms(Some(lobby), Some(officers));
    var first, rest := Managed(actual, actual.channels, true), Managed(actual, actual.channels, false);
    WithoutJoins(first, rest, made);
    WithoutManaged(actual, actual.channels, true, made);
    WithoutManaged(actual, actual.channels, false, made);
    ManagedAlike(actual, planned, planned.channels, true);
    ManagedAlike(actual, planned, planned.channels, false);
    assert Without(Ordered(actual), made) == Ordered(planned);
    PassesAgree(known, known, Ordered(actual), rooms, given, enabled, made);
  }

  lemma {:induction false} ManagedAlike(a: Snapshot, b: Snapshot, channels: seq<Channel>, category: bool)
    requires a.excluded == b.excluded
    ensures Managed(a, channels, category) == Managed(b, channels, category)
  {
    if channels != [] { ManagedAlike(a, b, channels[1..], category); }
  }

  /** A pass leaves channels it doesn't go over as they were. */
  lemma {:induction false} NotGoneOver(known: Policies, channels: seq<Channel>, rooms: Rooms, enabled: bool, id: Id)
    requires forall c :: c in channels ==> c.id != id
    ensures var after := Remembered(known, channels, rooms, enabled);
      (id in after <==> id in known) && (id in known ==> after[id] == known[id])
    decreases |channels|
  {
    if channels != [] {
      assert channels[0] in channels;
      var next := known[channels[0].id := Decision(known, channels[0], rooms, enabled)];
      NotGoneOver(next, channels[1..], rooms, enabled, id);
    }
  }

  /** Nobody but staff sees the channel, and before onboarding that is enough: later somebody chose it. */
  predicate LooksStaffOnly(c: Channel, enabled: bool) {
    && !c.memberVisible && !c.guestVisible && !c.everyoneVisible
    && (enabled ==> exists k :: 0 <= k < |c.overwrites| && (c.overwrites[k].allowsView || c.overwrites[k].deniesView))
  }

  /** A channel neither known nor a room, with no parent in the list, is decided by its parent and its own looks. */
  lemma {:induction false} FirstSeen(known: Policies, channels: seq<Channel>, rooms: Rooms, enabled: bool, c: Channel)
    requires c in channels && c.id !in known && rooms.lobby != Some(c.id) && rooms.officers != Some(c.id)
    requires forall d :: d in channels && d.id == c.id ==> d == c
    requires forall d :: d in channels ==> c.parent != Some(d.id)
    ensures var after := Remembered(known, channels, rooms, enabled);
      c.id in after && (after[c.id] <==> StaffParent(known, c) || LooksStaffOnly(c, enabled))
    decreases |channels|
  {
    var first, rest := channels[0], channels[1..];
    var next := known[first.id := Decision(known, first, rooms, enabled)];
    assert first in channels;
    if first.id == c.id {
      SettledStays(next, rest, rooms, enabled, c.id);
    } else {
      assert StaffParent(next, c) == StaffParent(known, c);
      FirstSeen(next, rest, rooms, enabled, c);
    }
  }

  /**
   * What a pass records of a channel it sees first: staff only if its category is, as recorded by the same
   * pass, or if nobody else sees it and, with onboarding already on, somebody set a view permission on it.
   */
  lemma FirstDecisionIs(known: Policies, s: Snapshot, rooms: Rooms, enabled: bool, c: Channel)
    requires forall a, b :: a in s.channels && b in s.channels && a.id == b.id ==> a == b
    requires c in Ordered(s) && c.id !in known && rooms.lobby != Some(c.id) && rooms.officers != Some(c.id)
    requires if c.category then c.parent.None?
             else forall d :: d in s.channels && c.parent == Some(d.id) ==> d.category
    ensures var after := Remembered(known, Ordered(s), rooms, enabled);
      && c.id in after
      && (after[c.id] <==>
           (c.parent.Some? && c.parent.value in after && after[c.parent.value]) || LooksStaffOnly(c, enabled))
  {
    var first, rest := Managed(s, s.channels, true), Managed(s, s.channels, false);
    PassJoins(known, first, rest, rooms, enabled);
    var middle := Remembered(known, first, rooms, enabled);
    assert c in first + rest;
    if c.category {
      FirstSeen(known, first, rooms, enabled, c);
      NotGoneOver(middle, rest, rooms, enabled, c.id);
    } else {
      OnlyNamed(known, first, rooms, enabled, c.id);
      FirstSeen(middle, rest, rooms, enabled, c);
      if c.parent.Some? { NotGoneOver(middle, rest, rooms, enabled, c.parent.value); }
    }
  }

  /** The lobby is everyone's, the officers' room and what is recorded staff only are theirs, and the rest Members'. */
  lemma AudienceTells(known: Policies, id: Id, rooms: Rooms)
    ensures var a := AudienceOf(known, id, rooms);
      && (a == Lobby <==> rooms.lobby == Some(id))
      && (a == Officers <==> rooms.lobby != Some(id) && (rooms.officers == Some(id) || (id in known && known[id])))
      && (a == Members <==> rooms.lobby != Some(id) && rooms.officers != Some(id) && !(id in known && known[id]))
  {
  }
}
