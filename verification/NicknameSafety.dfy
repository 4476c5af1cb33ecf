/** What the nickname protocol keeps over every run, crash and edit. */
module NicknameSafety {
  import opened NicknameWorld
  import opened NicknameWorker

  /** What a value read at the start of the pass may still be relied on for. */
  ghost predicate Own(w: World, current: Nick) {
    current in w.attempted
  }

  /** The facts the locals carry from one await to the next, whatever others do meanwhile. */
  ghost predicate PcInv(w: World, pc: Pc) {
    match pc
    case RestoreClaim(user, current) => Own(w, current) && user.before == w.row.before
    case RestoreGuard(user, current) => Own(w, current) && Own(w, user.before)
    case RestoreSend(user, current) => Own(w, current) && Own(w, user.before)
    case Adopt(user, current) => Own(w, current)
    case FindCharacter(user, current) =>
      user.baselineSet ==> Own(w, current) || current == w.row.before
    case Claim(current, target) => Own(w, current) || current == w.row.before
    case Guard(current, target) =>
      Own(w, target) && (Own(w, current) || current == w.row.before)
    case Send(current, target) =>
      Own(w, target) && (Own(w, current) || current == w.row.before)
    case Confirm(target) => Own(w, target)
    case _ => true
  }

  lemma StepKeepsInv(w: World, pc: Pc)
    requires Inv(w) && PcInv(w, pc)
    ensures var (after, next) := Step(w, pc); Inv(after) && PcInv(after, next)
  {
    var (after, next) := Step(w, pc);
    match pc
    case ReadRow(current, owner) =>
    case Send(current, target) =>
      if w.nick == current { assert Write(current, target, w.row.before, w.attempted).Legitimate(); }
    case RestoreSend(user, current) =>
      if w.nick == current { assert Write(current, user.before, w.row.before, w.attempted).Legitimate(); }
    case _ =>
  }

  lemma {:induction false} DriveKeepsInv(w: World, pc: Pc, turns: seq<Turn>, k: nat)
    requires Inv(w) && PcInv(w, pc)
    ensures Inv(Drive(w, pc, turns, k))
    decreases |turns| - k
  {
    if !pc.Idle? && k < |turns| {
      ActAllKeepsInv(w, turns[k].meanwhile);
      var now := ActAll(w, turns[k].meanwhile);
      if turns[k].survives {
        StepKeepsInv(now, pc);
        var (after, next) := Step(now, pc);
        DriveKeepsInv(after, next, turns, k + 1);
      }
    }
  }

  /** Pass after pass, each cut off anywhere and interleaved with anything. */
  function Run(w: World, passes: seq<seq<Turn>>): World
    decreases |passes|
  {
    if passes == [] then w else Run(Drive(w, ReadMember, passes[0], 0), passes[1..])
  }

  lemma {:induction false} RunKeepsInv(w: World, passes: seq<seq<Turn>>)
    requires Inv(w)
    ensures Inv(Run(w, passes))
    decreases |passes|
  {
    if passes != [] {
      DriveKeepsInv(w, ReadMember, passes[0], 0);
      RunKeepsInv(Drive(w, ReadMember, passes[0], 0), passes[1..]);
    }
  }

  /**
   * Whatever humans, preferences, links and crashes do, every nickname the worker ever replaced was
   * the captured baseline or a value it had itself announced, and it only ever put announced values.
   */
  lemma NeverOverwritesOthers(w: World, passes: seq<seq<Turn>>, k: nat)
    requires Init(w)
    requires k < |Run(w, passes).writes|
    ensures var write := Run(w, passes).writes[k];
      && (write.replaced == write.baseline || write.replaced in write.attempted)
      && write.put in write.attempted
  {
    RunKeepsInv(w, passes);
    assert Run(w, passes).writes[k].Legitimate();
  }

  /** In every run a main character keeps an active link of this same member. */
  lemma MainStaysLinked(w: World, passes: seq<seq<Turn>>)
    requires Init(w)
    ensures MainLinked(Run(w, passes))
  {
    RunKeepsInv(w, passes);
  }
}
