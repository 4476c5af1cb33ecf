/** Onboarding's recorded decisions and its dry run, as their two loops compute them. */
module Onboarding {
  import opened Options
  import opened ChannelAudiences

  class GuildAccess {
    /** The stored staff-only decisions. */
    var stored: Policies

    constructor (stored: Policies)
      ensures this.stored == stored
    {
      this.stored := stored;
    }

    /** `remember`: an upsert per channel that keeps the first decision, except for the two rooms. */
    method Remember(s: Snapshot, lobby: Id, officers: Id, alreadyEnabled: bool) returns (known: Policies)
      modifies this
      ensures known == Remembered(old(stored), Ordered(s), Rooms(Some(lobby), Some(officers)), alreadyEnabled)
      ensures stored == known
    {
      var rooms := Rooms(Some(lobby), Some(officers));
      known := stored;
      var channels := Ordered(s);
      var k := 0;
      while k < |channels|
        invariant k <= |channels| && stored == known
        invariant Remembered(known, channels[k..], rooms, alreadyEnabled)
          == Remembered(old(stored), channels, rooms, alreadyEnabled)
      {
        var channel := channels[k];
        var staff :=
          if channel.id == lobby then false
          else if channel.id == officers then true
          else if channel.id in known then known[channel.id]
          else InitiallyStaffOnly(channel, alreadyEnabled, StaffParent(known, channel));
        var kept :=
          if channel.id in stored && channel.id != lobby && channel.id != officers then stored[channel.id] else staff;
        stored := stored[channel.id := kept];
        known := known[channel.id := staff];
        k := k + 1;
      }
    }
  }

  /** The first loop of `plannedAudiences`: the same decisions, in memory. */
  method PlannedStaff(channels: seq<Channel>, rooms: Rooms, known: Policies, alreadyEnabled: bool)
    returns (staff: Policies)
    ensures staff == Remembered(known, channels, rooms, alreadyEnabled)
  {
    hide InitiallyStaffOnly;
    staff := known;
    var k := 0;
    while k < |channels|
      invariant k <= |channels|
      invariant Remembered(staff, channels[k..], rooms, alreadyEnabled)
             == Remembered(known, channels, rooms, alreadyEnabled)
    {
      var channel := channels[k];
      ghost var before: Policies := staff;
      if rooms.lobby == Some(channel.id) {
        staff := staff[channel.id := false];
      } else if rooms.officers == Some(channel.id) {
        staff := staff[channel.id := true];
      } else if channel.id !in staff {
        staff := staff[channel.id := InitiallyStaffOnly(channel, alreadyEnabled, StaffParent(staff, channel))];
      }
      assert staff == before[channel.id := Decision(before, channel, rooms, alreadyEnabled)];
      k := k + 1;
    }
  }

  /** `plannedAudiences`: every managed channel's audience, as a pass would leave it. */
  method PlannedAudiences(s: Snapshot, rooms: Rooms, known: Policies, alreadyEnabled: bool)
    returns (audiences: map<Id, Audience>)
    ensures audiences.Keys == set c | c in Ordered(s) :: c.id
    ensures var after := Remembered(known, Ordered(s), rooms, alreadyEnabled);
      forall id :: id in audiences ==> audiences[id] == AudienceOf(after, id, rooms)
  {
    hide Remembered;
    var channels := Ordered(s);
    var staff := PlannedStaff(channels, rooms, known, alreadyEnabled);
    audiences := map[];
    var k := 0;
    while k < |channels|
      invariant k <= |channels|
      invariant forall id :: id in audiences <==> exists j :: 0 <= j < k && channels[j].id == id
      invariant forall id :: id in audiences ==> audiences[id] == AudienceOf(staff, id, rooms)
    {
      var id := channels[k].id;
      audiences := audiences[id := if rooms.lobby == Some(id) then Lobby
                                   else if rooms.officers == Some(id) || (id in staff && staff[id]) then Officers
                                   else Members];
      k := k + 1;
    }
  }

  /**
   * The dry run is exact: for any snapshot, stored decisions and rooms, existing or still to be made, the
   * audience it plans for each channel is the one read after setup makes the missing rooms and records its
   * decisions, and after the channel pass records them again.
   */
  method CompareWithDryRun(access: GuildAccess, planned: Snapshot, rooms: Rooms, alreadyEnabled: bool,
                           actual: Snapshot, lobby: Id, officers: Id, ghost made: set<Id>)
    returns (audiences: map<Id, Audience>, once: Policies, twice: Policies)
    requires MadeRooms(planned, rooms, access.stored, actual, lobby, officers, made)
    modifies access
    ensures audiences.Keys == set c | c in Ordered(planned) :: c.id
    ensures forall id :: id in audiences ==>
      audiences[id] == AudienceOf(once, id, Rooms(Some(lobby), Some(officers)))
      && audiences[id] == AudienceOf(twice, id, Rooms(Some(lobby), Some(officers)))
    ensures once == twice == access.stored
  {
    ghost var known := access.stored;
    audiences := PlannedAudiences(planned, rooms, access.stored, alreadyEnabled);
    SecondPassChangesNothing(access.stored, actual, Rooms(Some(lobby), Some(officers)), alreadyEnabled);
    once := access.Remember(actual, lobby, officers, alreadyEnabled);
    twice := access.Remember(actual, lobby, officers, true);
    forall id | id in audiences
      ensures audiences[id] == AudienceOf(once, id, Rooms(Some(lobby), Some(officers)))
    {
      PlannedIsKept(planned, made, actual, id);
      PlanStandsWithMadeRooms(planned, rooms, known, actual, lobby, officers, made, alreadyEnabled, id);
    }
  }

  lemma PlannedIsKept(planned: Snapshot, made: set<Id>, actual: Snapshot, id: Id)
    requires Without(actual.channels, made) == planned.channels && id in set c | c in Ordered(planned) :: c.id
    ensures id !in made
  {
    var c :| c in Ordered(planned) && c.id == id;
    assert c in planned.channels;
  }
}
