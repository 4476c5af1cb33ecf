/** Linking, unlinking and preferences: the member's transactions that share the nickname's row. */
module NicknameService {
  import opened Options
  import opened NicknameWorld

  datatype Outcome = Saved | Unchanged | Refused

  class Service {
    var world: World

    constructor (w: World)
      ensures world == w
    {
      world := w;
    }

    /** `trust`, once the character is stored: `taken` when another member holds its active link. */
    method Trust(character: Character, taken: bool) returns (outcome: Outcome)
      modifies this
      ensures world == Linked(old(world), character, taken)
      ensures Inv(old(world)) ==> Inv(world)
      ensures outcome.Saved? <==>
        !taken && character in old(world).names && character !in old(world).links
    {
      ghost var was := world;
      outcome := Refused;
      if taken || character !in world.names { return; }
      if character in world.links { return Unchanged; }
      var state := world.row;
      var firstLink := !state.imported && !world.everLinked;
      var becameMain := firstLink || (!state.imported && state.primary.None? && world.links == {});
      world := world.(links := world.links + {character}, everLinked := true);
      if becameMain {
        var row := world.row.(primary := Some(character));
        if firstLink {
          row := row.(enabled := true, suspended := false);
        } else if state.enabled {
          row := row.(restore := false);
        }
        world := world.(row := row);
      }
      outcome := Saved;
      if Inv(was) { ActKeepsInv(was, Link(character, taken)); }
    }

    /** `endLink`, for a link the caller has locked. */
    method EndLink(character: Character) returns (primaryCleared: bool)
      requires character in world.links
      modifies this
      ensures world == Unlinked(old(world), character)
      ensures Inv(old(world)) ==> Inv(world)
      ensures primaryCleared == (old(world).row.primary == Some(character))
    {
      ghost var was := world;
      world := world.(links := world.links - {character});
      primaryCleared := world.row.primary == Some(character);
      if primaryCleared {
        world := world.(row := world.row.(primary := None, restore := true));
      }
      if Inv(was) { ActKeepsInv(was, Unlink(character)); }
    }

    /** `preferences`: a request that would change nothing saves nothing. */
    method Preferences(character: Option<Character>, enabled: Option<bool>) returns (outcome: Outcome)
      modifies this
      ensures world == Preferred(old(world), character, enabled)
      ensures Inv(old(world)) ==> Inv(world)
      ensures outcome != Saved ==> world == old(world)
      ensures outcome.Refused? <==>
        (character.Some? && character.value !in old(world).links)
        || (enabled == Some(true) && old(world).row.primary.None? && character.None?)
    {
      hide Inv;
      if Inv(world) { PreferKeeps(world, character, enabled); }
      var current := world.row;
      if character.Some? && character.value !in world.links { return Refused; }
      if enabled == Some(true) && current.primary.None? && character.None? { return Refused; }
      var mainChanges := character.Some? && current.primary != character;
      var syncChanges :=
        enabled.Some? && if enabled.value then !current.enabled || current.suspended else current.enabled;
      if mainChanges {
        world := world.(row := current.(primary := character, restore := current.restore && !current.enabled));
      }
      if syncChanges {
        world := world.(row := world.row.(enabled := enabled.value, suspended := false, restore := !enabled.value,
                                          baselineSet := !enabled.value && world.row.baselineSet));
      }
      outcome := if mainChanges || syncChanges then Saved else Unchanged;
    }
  }
}
