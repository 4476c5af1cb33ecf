/**
 * One member's nickname state: the columns the worker keeps on `guild_users`, the nickname Discord
 * shows, and everyone besides the worker who may change either of them at any moment.
 */
module NicknameWorld {
  import opened Options

  /** Discord's nickname: None is no nickname. */
  type Nick = Option<string>
  type Character = nat
  /** A stored character name as its grapheme segments: every profile, roster and import has one. */
  type Name = segments: seq<string> | segments != [] witness ["-"]

  const NICKNAME_UNITS := 32

  /** The longest run of whole segments that fits after `taken` units. */
  function Fitted(name: seq<string>, taken: nat): (r: string)
    requires taken <= NICKNAME_UNITS
    ensures taken + |r| <= NICKNAME_UNITS
  {
    if name == [] || taken + |name[0]| > NICKNAME_UNITS then ""
    else name[0] + Fitted(name[1..], taken + |name[0]|)
  }

  function Nickname(name: Name): string { Fitted(name, 0) }

  datatype Row = Row(
    primary: Option<Character>,
    imported: bool,
    enabled: bool,
    suspended: bool,
    restore: bool,
    pending: bool,
    written: bool,
    baselineSet: bool,
    before: Nick,
    last: Nick,
    expected: Nick)
  {
    /** The nickname is the value of a write that was announced but never confirmed. */
    predicate OwnPending(current: Nick) { pending && current == expected }

    function Expected(): Nick { if written then last else before }

    /** Somebody else chose this nickname since the baseline was captured. */
    predicate Independent(current: Nick) {
      baselineSet && current != Expected() && !OwnPending(current)
    }

    /** The worker may put the baseline back over `current`. */
    predicate Restorable(current: Nick) {
      baselineSet && (written || OwnPending(current)) && !Independent(current)
    }

    predicate Projecting() { enabled && !suspended && primary.Some? }
  }

  /** What Discord answers when asked for the member. */
  datatype Member = Absent | Bot | Present(owner: bool)

  /** One nickname the worker replaced, with what it knew at that instant. */
  datatype Write = Write(replaced: Nick, put: Nick, baseline: Nick, attempted: set<Nick>)
  {
    /** It replaced the baseline or a value of its own, by a value it had announced. */
    predicate Legitimate() {
      (replaced == baseline || replaced in attempted) && put in attempted
    }
  }

  /**
   * `links` are the member's active links and `everLinked` whether any link, ended or not, exists.
   * `attempted` (every value announced in the row before it was sent) and `writes` are history.
   */
  datatype World = World(
    row: Row,
    nick: Nick,
    member: Member,
    names: map<Character, Name>,
    links: set<Character>,
    everLinked: bool,
    attempted: set<Nick>,
    writes: seq<Write>)

  /** What anybody but the worker may do between two of its awaits. */
  datatype Action =
    | Edit(nick: Nick)
    | Rejoin(nick: Nick)
    | Observe(member: Member)
    | Rename(character: Character, name: Name)
    | Link(character: Character, taken: bool)
    | Unlink(character: Character)
    | Prefer(main: Option<Character>, enabled: Option<bool>)

  /** `trust`: the first link turns sync on; a link after losing every other only becomes the main. */
  function Linked(w: World, character: Character, taken: bool): World {
    if taken || character !in w.names || character in w.links then w else
      var first := !w.row.imported && !w.everLinked;
      var becameMain := first || (!w.row.imported && w.row.primary.None? && w.links == {});
      var row :=
        if !becameMain then w.row
        else if first then
          w.row.(primary := Some(character), enabled := true, suspended := false)
        else
          w.row.(primary := Some(character), restore := w.row.restore && !w.row.enabled);
      w.(links := w.links + {character}, everLinked := true, row := row)
  }

  /** `endLink`: losing the main character clears it and queues the restore. */
  function Unlinked(w: World, character: Character): World {
    if character !in w.links then w else
      w.(links := w.links - {character},
         row := if w.row.primary == Some(character)
                then w.row.(primary := None, restore := true) else w.row)
  }

  /** `preferences`: /main and /nickname. A refused or empty request changes nothing. */
  function Preferred(w: World, character: Option<Character>, enabled: Option<bool>): World {
    var row := w.row;
    if character.Some? && character.value !in w.links then w
    else if enabled == Some(true) && row.primary.None? && character.None? then w
    else
      var mainChanges := character.Some? && row.primary != character;
      var syncChanges :=
        enabled.Some? && if enabled.value then !row.enabled || row.suspended else row.enabled;
      var chosen :=
        if mainChanges then row.(primary := character, restore := row.restore && !row.enabled)
        else row;
      var saved :=
        if syncChanges then
          chosen.(enabled := enabled.value, suspended := false, restore := !enabled.value,
                  baselineSet := !enabled.value && chosen.baselineSet)
        else chosen;
      w.(row := saved)
  }

  function Act(w: World, action: Action): World {
    match action
    case Edit(nick) => w.(nick := nick)
    case Rejoin(nick) =>
      w.(nick := nick, row := w.row.(baselineSet := false, pending := false))
    case Observe(member) => w.(member := member)
    case Rename(character, name) => w.(names := w.names[character := name])
    case Link(character, taken) => Linked(w, character, taken)
    case Unlink(character) => Unlinked(w, character)
    case Prefer(main, enabled) => Preferred(w, main, enabled)
  }

  function ActAll(w: World, actions: seq<Action>): World
    decreases |actions|
  {
    if actions == [] then w else ActAll(Act(w, actions[0]), actions[1..])
  }

  /** A new row, or an imported one with the nickname the import captured. */
  ghost predicate Init(w: World) {
    && w.row.primary.None? && !w.row.enabled && !w.row.suspended && !w.row.restore
    && !w.row.pending && !w.row.written && !w.row.baselineSet
    && w.links <= w.names.Keys && (w.links != {} ==> w.everLinked)
    && w.attempted == {} && w.writes == []
  }

  /** A main character has an active link of this member, and linked characters are stored. */
  ghost predicate MainLinked(w: World) {
    && w.links <= w.names.Keys
    && (w.row.primary.Some? ==> w.row.primary.value in w.links)
  }

  /** A queued restore and a live projection exclude one another. */
  ghost predicate RestoreExcludesProjection(row: Row) {
    row.restore ==> !(row.enabled && row.primary.Some?)
  }

  ghost predicate AllLegitimate(writes: seq<Write>) {
    forall k :: 0 <= k < |writes| ==> writes[k].Legitimate()
  }

  ghost predicate Inv(w: World) {
    && MainLinked(w)
    && RestoreExcludesProjection(w.row)
    && (w.links != {} || w.row.enabled || w.row.restore ==> w.everLinked)
    && (w.row.written ==> w.row.last in w.attempted)
    && (w.row.pending ==> w.row.expected in w.attempted)
    && AllLegitimate(w.writes)
  }

  /** An action leaves the invariant, the captured baseline and the worker's history as they were. */
  ghost predicate Keeps(w: World, after: World) {
    Inv(after) && after.row.before == w.row.before && after.attempted == w.attempted && after.writes == w.writes
  }

  lemma LinkKeeps(w: World, character: Character, taken: bool)
    requires Inv(w)
    ensures Keeps(w, Linked(w, character, taken))
  {
    hide AllLegitimate;
  }

  lemma UnlinkKeeps(w: World, character: Character)
    requires Inv(w)
    ensures Keeps(w, Unlinked(w, character))
  {
    hide AllLegitimate;
  }

  lemma PreferKeeps(w: World, character: Option<Character>, enabled: Option<bool>)
    requires Inv(w)
    ensures Keeps(w, Preferred(w, character, enabled))
  {
    hide AllLegitimate;
  }

  lemma RenameKeeps(w: World, character: Character, name: Name)
    requires Inv(w)
    ensures Keeps(w, w.(names := w.names[character := name]))
  {
    hide AllLegitimate;
  }

  /** Linking, unlinking, /main, /nickname, edits and rejoins keep the invariant. */
  lemma ActKeepsInv(w: World, action: Action)
    requires Inv(w)
    ensures var after := Act(w, action);
      && Inv(after) && after.row.before == w.row.before
      && after.attempted == w.attempted && after.writes == w.writes
  {
    hide AllLegitimate, Linked, Unlinked, Preferred;
    match action
    case Link(character, taken) => LinkKeeps(w, character, taken);
    case Unlink(character) => UnlinkKeeps(w, character);
    case Prefer(main, enabled) => PreferKeeps(w, main, enabled);
    case Rename(character, name) => RenameKeeps(w, character, name);
    case Edit(_) =>
    case Rejoin(_) =>
    case Observe(_) =>
  }

  /** Nobody else touches the captured baseline, or what the worker attempted and wrote. */
  lemma {:induction false} ActAllKeepsInv(w: World, actions: seq<Action>)
    requires Inv(w)
    ensures var after := ActAll(w, actions);
      && Inv(after) && after.row.before == w.row.before
      && after.attempted == w.attempted && after.writes == w.writes
    decreases |actions|
  {
    if actions != [] {
      ActKeepsInv(w, actions[0]);
      ActAllKeepsInv(Act(w, actions[0]), actions[1..]);
    }
  }
}
