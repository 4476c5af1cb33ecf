/** Every exit of the override loop accounts for the channels it dealt with, and writes only where it may. */
module OverridesAccount {
  import opened Options
  import opened Overrides

  ghost predicate Distinct(plan: seq<Target>) {
    forall i, j :: 0 <= i < j < |plan| ==> plan[i].id != plan[j].id
  }

  function Ids(plan: seq<Target>): (r: seq<Id>)
    ensures |r| == |plan| && forall i :: 0 <= i < |r| ==> r[i] == plan[i].id
  {
    seq(|plan|, i requires 0 <= i < |plan| => plan[i].id)
  }

  function WriteIds(written: seq<Write>): (r: seq<Id>)
    ensures |r| == |written| && forall i :: 0 <= i < |r| ==> r[i] == written[i].id
  {
    seq(|written|, i requires 0 <= i < |written| => written[i].id)
  }

  predicate IsCategoryWrite(p: Put, id: Id) { p.id == id && p.category && p.outcome == Wrote }

  /** This category was written before the PUT at `n`. */
  ghost predicate CategoryWritten(puts: seq<Put>, n: nat, id: Id) {
    exists j :: 0 <= j < n && j < |puts| && IsCategoryWrite(puts[j], id)
  }

  /** No PUT goes to or inside a private category, and none to a child before its planned category. */
  ghost predicate PutsAllowed(s: Setup, puts: seq<Put>) {
    forall i :: 0 <= i < |puts| ==> PutAllowed(s, puts, i)
  }

  ghost predicate PutAllowed(s: Setup, puts: seq<Put>, i: nat)
    requires i < |puts|
  {
    && puts[i].id !in s.privateIds
    && (puts[i].parent.Some? ==> puts[i].parent.value !in s.privateIds)
    && (puts[i].parent.Some? && puts[i].parent.value in Planned(s.plan) ==>
         CategoryWritten(puts, i, puts[i].parent.value))
  }

  /** Written, accepted and propagated, are what the PUTs and Discord's copies did; nothing else is claimed. */
  ghost predicate Accounted(puts: seq<Put>, written: seq<Write>, unconfirmed: seq<Id>) {
    && (forall p :: p in puts && p.outcome == Wrote ==> Write(p.id, None) in written)
    && (forall p :: p in puts && p.outcome == WriteThrows ==> p.id in unconfirmed)
    && (forall w :: w in written ==> Backed(puts, w))
    && (forall id :: id in unconfirmed ==> exists p :: p in puts && p.id == id && p.outcome == WriteThrows)
  }

  ghost predicate Backed(puts: seq<Put>, w: Write) {
    if w.category.Some? then CategoryWritten(puts, |puts|, w.category.value)
    else exists p :: p in puts && p.id == w.id && p.outcome == Wrote
  }

  /** Adding one PUT keeps what was accounted for, with its own outcome added. */
  lemma AddPut(s: Setup, puts: seq<Put>, written: seq<Write>, unconfirmed: seq<Id>, p: Put)
    requires PutsAllowed(s, puts) && Accounted(puts, written, unconfirmed)
    requires p.id !in s.privateIds && (p.parent.Some? ==> p.parent.value !in s.privateIds)
    requires p.parent.Some? && p.parent.value in Planned(s.plan) ==> CategoryWritten(puts, |puts|, p.parent.value)
    ensures PutsAllowed(s, puts + [p])
    ensures Accounted(puts + [p], if p.outcome == Wrote then written + [Write(p.id, None)] else written,
                      if p.outcome == WriteThrows then unconfirmed + [p.id] else unconfirmed)
  {
    var more := puts + [p];
    forall i | 0 <= i < |more| ensures PutAllowed(s, more, i) {
      assert i < |puts| ==> PutAllowed(s, puts, i);
      CategoryStays(puts, p, i);
    }
    CategoryStays(puts, p, |puts|);
    forall w | w in written ensures Backed(more, w) {
      assert Backed(puts, w);
      if w.category.None? {
        var q :| q in puts && q.id == w.id && q.outcome == Wrote;
        assert q in more;
      }
    }
    assert p in more;
    forall id | id in unconfirmed ensures exists q :: q in more && q.id == id && q.outcome == WriteThrows {
      var q :| q in puts && q.id == id && q.outcome == WriteThrows;
      assert q in more;
    }
  }

  lemma CategoryStays(puts: seq<Put>, p: Put, n: nat)
    requires n <= |puts|
    ensures forall id :: CategoryWritten(puts, n, id) ==> CategoryWritten(puts + [p], n, id)
    ensures forall id :: CategoryWritten(puts, n, id) ==> CategoryWritten(puts + [p], |puts| + 1, id)
  {
    forall id | CategoryWritten(puts, n, id)
      ensures CategoryWritten(puts + [p], n, id) && CategoryWritten(puts + [p], |puts| + 1, id)
    {
      var j :| 0 <= j < n && j < |puts| && IsCategoryWrite(puts[j], id);
      assert (puts + [p])[j] == puts[j];
    }
  }

  lemma AddCopy(puts: seq<Put>, written: seq<Write>, unconfirmed: seq<Id>, w: Write)
    requires Accounted(puts, written, unconfirmed) && Backed(puts, w)
    ensures Accounted(puts, written + [w], unconfirmed)
  {
  }

  ghost predicate CategoriesHeld(puts: seq<Put>, categories: map<Id, Inherit>) {
    forall id :: id in categories ==> CategoryWritten(puts, |puts|, id)
  }

  lemma HeldAfterPut(puts: seq<Put>, categories: map<Id, Inherit>, p: Put, inherit: Inherit)
    requires CategoriesHeld(puts, categories)
    ensures CategoriesHeld(puts + [p], categories)
    ensures p.category && p.outcome == Wrote ==> CategoriesHeld(puts + [p], categories[p.id := inherit])
  {
    CategoryStays(puts, p, |puts|);
    assert (puts + [p])[|puts|] == p;
    if p.category && p.outcome == Wrote { assert CategoryWritten(puts + [p], |puts| + 1, p.id); }
  }

  lemma WriteIdsAppend(written: seq<Write>, w: Write)
    ensures WriteIds(written + [w]) == WriteIds(written) + [w.id]
  {
  }

  function IdSet(ids: seq<Id>): (r: set<Id>)
    ensures forall id :: id in r <==> id in ids
  {
    set id | id in ids
  }

  lemma {:induction false} DistinctIds(ids: seq<Id>)
    requires forall i, j :: 0 <= i < j < |ids| ==> ids[i] != ids[j]
    ensures |IdSet(ids)| == |ids|
  {
    if ids != [] {
      DistinctIds(ids[1..]);
      assert ids[0] !in ids[1..];
      assert IdSet(ids) == IdSet(ids[1..]) + {ids[0]};
    }
  }

  /** What the audit counts as reached. */
  function Reached(written: seq<Write>, skipped: seq<Id>, unconfirmed: seq<Id>): set<Id> {
    (set w | w in written :: w.id) + IdSet(skipped) + IdSet(unconfirmed)
  }

  /** Each of the plan's first `n` channels is in exactly one of the three lists, once, and no other is. */
  ghost predicate Partitions(plan: seq<Target>, n: nat, written: seq<Write>, skipped: seq<Id>, unconfirmed: seq<Id>) {
    && n <= |plan|
    && multiset(WriteIds(written)) + multiset(skipped) + multiset(unconfirmed) == multiset(Ids(plan[..n]))
  }

  lemma WriteIdSet(written: seq<Write>, id: Id)
    ensures id in WriteIds(written) <==> id in set w | w in written :: w.id
  {
    if id in WriteIds(written) {
      var i :| 0 <= i < |written| && WriteIds(written)[i] == id;
      assert written[i] in written;
    }
    if w: Write :| w in written && w.id == id {
      var i :| 0 <= i < |written| && written[i] == w;
      assert WriteIds(written)[i] == id;
    }
  }

  lemma TargetIdSet(plan: seq<Target>, id: Id)
    ensures id in Ids(plan) <==> id in set t | t in plan :: t.id
  {
    if id in Ids(plan) {
      var i :| 0 <= i < |plan| && Ids(plan)[i] == id;
      assert plan[i] in plan;
    }
    if t: Target :| t in plan && t.id == id {
      var i :| 0 <= i < |plan| && plan[i] == t;
      assert Ids(plan)[i] == id;
    }
  }

  lemma InLists(a: seq<Id>, b: seq<Id>, c: seq<Id>, all: seq<Id>, id: Id)
    requires multiset(a) + multiset(b) + multiset(c) == multiset(all)
    ensures id in all <==> id in a || id in b || id in c
  {
    assert id in all <==> multiset(all)[id] > 0;
    assert id in a <==> multiset(a)[id] > 0;
    assert id in b <==> multiset(b)[id] > 0;
    assert id in c <==> multiset(c)[id] > 0;
  }

  /** So the audit, counting from the lists, finds what the loop's own index says. */
  lemma AuditCountsTheSame(plan: seq<Target>, n: nat, written: seq<Write>, skipped: seq<Id>, unconfirmed: seq<Id>)
    requires Distinct(plan) && Partitions(plan, n, written, skipped, unconfirmed)
    ensures |plan| - |Reached(written, skipped, unconfirmed)| == |plan| - n
    ensures Reached(written, skipped, unconfirmed) == set t | t in plan[..n] :: t.id
  {
    var ids := Ids(plan[..n]);
    DistinctIds(ids);
    hide Ids, WriteIds;
    forall id ensures id in Reached(written, skipped, unconfirmed) <==> id in ids {
      InLists(WriteIds(written), skipped, unconfirmed, ids, id);
      WriteIdSet(written, id);
    }
    assert Reached(written, skipped, unconfirmed) == IdSet(ids);
    forall id ensures id in ids <==> id in set t | t in plan[..n] :: t.id {
      TargetIdSet(plan[..n], id);
    }
  }

  ghost predicate Valid(s: Setup, a: Account) {
    PutsAllowed(s, a.puts) && Accounted(a.puts, a.written, a.unconfirmed) && CategoriesHeld(a.puts, a.categories)
  }

  ghost function Tally(a: Account): multiset<Id> {
    multiset(WriteIds(a.written)) + multiset(a.skipped) + multiset(a.unconfirmed)
  }

  /** The channel is dealt with exactly once, or left exactly as it was. */
  ghost predicate DealsOnce(a: Account, id: Id, h: Handled) {
    Tally(h.account) == if DealtWith(h.turned) then Tally(a) + multiset{id} else Tally(a)
  }

  lemma SkipKeeps(s: Setup, a: Account, id: Id)
    requires Valid(s, a)
    ensures Valid(s, SkippedBy(a, id)) && Tally(SkippedBy(a, id)) == Tally(a) + multiset{id}
  {
    hide PutsAllowed, Accounted, CategoriesHeld;
  }

  lemma LeftKeeps(s: Setup, a: Account, target: Target, channel: Fresh, inherit: Option<Inherit>)
    requires Valid(s, a)
    ensures Valid(s, Left(s, a, target, channel, inherit))
    ensures Tally(Left(s, a, target, channel, inherit)) == Tally(a) + multiset{target.id}
  {
    hide PutsAllowed, Accounted, Propagated;
    if channel.parent.Some? && channel.parent.value in a.categories {
      var copy := Write(target.id, channel.parent);
      AddCopy(a.puts, a.written, a.unconfirmed, copy);
      WriteIdsAppend(a.written, copy);
    }
    hide CategoriesHeld;
    SkipKeeps(s, a, target.id);
  }

  lemma CheckedBackKeeps(s: Setup, a: Account, id: Id, after: Own, turn: Turn)
    ensures var h := CheckedBack(s, a, id, after, turn);
      && DealtWith(h.turned) && Tally(h.account) == Tally(a) && (Valid(s, a) ==> Valid(s, h.account))
  {
    hide ReadBack, OwnEntry, PutsAllowed, Accounted, CategoriesHeld;
  }

  lemma PutKeeps(s: Setup, a: Account, id: Id, channel: Fresh, after: Own, turn: Turn)
    requires Valid(s, a) && !Private(s, id, channel)
    requires channel.parent.Some? && channel.parent.value in Planned(s.plan) ==> channel.parent.value in a.categories
    ensures Valid(s, Put4(s, a, id, channel, after, turn).account)
    ensures DealsOnce(a, id, Put4(s, a, id, channel, after, turn))
  {
    hide PutsAllowed, Accounted, CategoryWritten, CheckedBack, Planned;
    var put := Put(id, channel.parent, channel.category, after, turn.write);
    var lends := Inherit(id, channel.overwrites, after);
    AddPut(s, a.puts, a.written, a.unconfirmed, put);
    HeldAfterPut(a.puts, a.categories, put, lends);
    WriteIdsAppend(a.written, Write(id, None));
    hide CategoriesHeld;
    var sent := a.(puts := a.puts + [put]);
    match turn.write
    case Wrote =>
      var held := if channel.category then a.categories[id := lends] else a.categories;
      CheckedBackKeeps(s, sent.(written := a.written + [Write(id, None)], categories := held), id, after, turn);
    case _ =>
  }

  lemma KeptKeeps(s: Setup, a: Account, parent: Option<Id>, turn: Turn)
    requires Valid(s, a)
    ensures var lent := Lends(s, a, parent, turn);
      var kept := Kept(s, a, parent, lent);
      && Valid(s, kept) && Tally(kept) == Tally(a)
      && (lent.Use? && parent.Some? && parent.value in Planned(s.plan) ==> parent.value in kept.categories)
  {
    hide PutsAllowed, Accounted, CategoriesHeld, WriteIds;
  }

  lemma OnReadKeeps(s: Setup, a: Account, target: Target, channel: Fresh, turn: Turn)
    requires Valid(s, a)
    ensures Valid(s, OnRead(s, a, target, channel, turn).account)
    ensures DealsOnce(a, target.id, OnRead(s, a, target, channel, turn))
  {
    hide Valid, Tally, Left, Put4, Lends, Kept;
    SkipKeeps(s, a, target.id);
    KeptKeeps(s, a, channel.parent, turn);
    if !Private(s, target.id, channel) {
      var lent := Lends(s, a, channel.parent, turn);
      if lent.Use? {
        var kept := Kept(s, a, channel.parent, lent);
        var entry := s.entry(target.id, channel, lent.inherit);
        if entry.None? { LeftKeeps(s, kept, target, channel, lent.inherit); }
        else { PutKeeps(s, kept, target.id, channel, entry.value, turn); }
      }
    }
  }

  /** One iteration deals with its channel exactly once or not at all, on each of its exits. */
  lemma HandleKeeps(s: Setup, a: Account, target: Target, turn: Turn)
    requires Valid(s, a)
    ensures Valid(s, Handle(s, a, target, turn).account)
    ensures DealsOnce(a, target.id, Handle(s, a, target, turn))
  {
    hide Valid, OnRead, Tally;
    SkipKeeps(s, a, target.id);
    if turn.read.Readable? { OnReadKeeps(s, a, target, turn.read.channel, turn); }
  }

  lemma HandleAdvances(s: Setup, a: Account, index: nat, turn: Turn)
    requires index < |s.plan| && Valid(s, a) && Tally(a) == multiset(Ids(s.plan[..index]))
    ensures var h := Handle(s, a, s.plan[index], turn);
      && Valid(s, h.account)
      && Tally(h.account) == multiset(Ids(s.plan[..if DealtWith(h.turned) then index + 1 else index]))
  {
    hide Valid, Handle, Tally;
    HandleKeeps(s, a, s.plan[index], turn);
    assert Ids(s.plan[..index + 1]) == Ids(s.plan[..index]) + [s.plan[index].id];
  }

  lemma TallyPartitions(plan: seq<Target>, n: nat, a: Account)
    requires n <= |plan| && Tally(a) == multiset(Ids(plan[..n]))
    ensures Partitions(plan, n, a.written, a.skipped, a.unconfirmed)
  {
  }

  /**
   * However the loop ends, the channels it dealt with are the plan's first, each in exactly one list
   * once, and a stop counts exactly the others; no write went where it may not.
   */
  lemma {:induction false} LoopAccounts(s: Setup, a: Account, world: nat -> Turn, index: nat)
    requires index <= |s.plan| && Valid(s, a) && Tally(a) == multiset(Ids(s.plan[..index]))
    ensures var l := Loop(s, a, world, index);
      && Valid(s, l.account)
      && Partitions(s.plan, l.reached, l.account.written, l.account.skipped, l.account.unconfirmed)
      && (l.end == Complete ==> l.reached == |s.plan|)
      && (l.end.Halted? ==> l.end.remaining == |s.plan| - l.reached)
    decreases |s.plan| - index
  {
    hide Valid, Handle, Tally, Partitions, Ids;
    TallyPartitions(s.plan, index, a);
    if index < |s.plan| {
      HandleAdvances(s, a, index, world(index));
      var h := Handle(s, a, s.plan[index], world(index));
      if h.turned.Go? {
        LoopAccounts(s, h.account, world, index + 1);
      } else if DealtWith(h.turned) {
        TallyPartitions(s.plan, index + 1, h.account);
      } else {
        TallyPartitions(s.plan, index, h.account);
      }
    }
  }

  lemma NothingIsValid(s: Setup)
    ensures Valid(s, NOTHING) && Tally(NOTHING) == multiset(Ids(s.plan[..0]))
  {
    assert Ids(s.plan[..0]) == [];
  }

  lemma EmptyPlan(s: Setup, world: nat -> Turn)
    requires s.plan == []
    ensures Loop(s, NOTHING, world, 0) == Looped(NOTHING, Complete, 0)
  {
  }

  /**
   * In every run no PUT goes to a private category or a channel freshly read inside one, and a child
   * of a planned category gets its PUT only after Discord took that category's in this run.
   */
  lemma WritesGoWhereTheyMay(s: Setup, world: nat -> Turn, i: nat)
    requires i < |Loop(s, NOTHING, world, 0).account.puts|
    ensures var puts := Loop(s, NOTHING, world, 0).account.puts;
      && !(puts[i].id in s.privateIds || (puts[i].parent.Some? && puts[i].parent.value in s.privateIds))
      && (puts[i].parent.Some? && puts[i].parent.value in Planned(s.plan) ==>
           exists j :: 0 <= j < i && IsCategoryWrite(puts[j], puts[i].parent.value))
  {
    NothingIsValid(s);
    LoopAccounts(s, NOTHING, world, 0);
    var puts := Loop(s, NOTHING, world, 0).account.puts;
    assert PutAllowed(s, puts, i);
  }

  /**
   * What the run reports is what happened: each accepted PUT is written, each that threw unconfirmed,
   * and each written channel had its PUT accepted, or is Discord's copy of a category written here.
   */
  lemma ReportsWhatHappened(s: Setup, world: nat -> Turn)
    ensures var a := Loop(s, NOTHING, world, 0).account;
      && (forall p :: p in a.puts && p.outcome == Wrote ==> Write(p.id, None) in a.written)
      && (forall p :: p in a.puts && p.outcome == WriteThrows ==> p.id in a.unconfirmed)
      && (forall w :: w in a.written ==> Backed(a.puts, w))
      && (forall id :: id in a.unconfirmed ==> exists p :: p in a.puts && p.id == id && p.outcome == WriteThrows)
  {
    NothingIsValid(s);
    LoopAccounts(s, NOTHING, world, 0);
  }

  /**
   * The exit where the two counts part most easily: a drain that cuts a PUT in flight leaves the channel
   * unconfirmed, and the stopped run counts it as dealt with.
   */
  lemma DrainedPutIsUnconfirmed(s: Setup, a: Account, world: nat -> Turn, index: nat)
    requires index < |s.plan|
    requires var turn, target := world(index), s.plan[index];
      && turn.drained && turn.write == WriteThrows
      && Recheck(target, turn).Proceed? && turn.read.Readable? && !Private(s, target.id, turn.read.channel)
      && Lends(s, a, turn.read.channel.parent, turn).Use?
      && s.entry(target.id, turn.read.channel, Lends(s, a, turn.read.channel.parent, turn).inherit).Some?
    ensures var l := Loop(s, a, world, index);
      && l.end == Halted(Stopping, |s.plan| - index - 1) && l.reached == index + 1
      && l.account.unconfirmed == a.unconfirmed + [s.plan[index].id]
  {
  }
}
