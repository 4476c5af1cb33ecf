/** The gil ledger: accounts, their append-only entries, and the one operation that records them. */
module LedgerBook {
  import opened Options
  import opened Searching

  const MAX_GIL := 9223372036854775807
  const MAX_CHANGE := 999999999

  datatype Operation = Initialize | Deposit | Withdraw | Adjust

  /** An entry a correction names: its number in the account, or its ID. */
  datatype Ref = Numbered(sequence: nat) | Identified(id: nat)

  datatype Entry = Entry(
    id: nat, account: nat, sequence: nat, operation: Operation, delta: int, balance: int, key: string,
    correction: Option<nat>)

  datatype Account = Account(balance: Option<int>, sequence: nat)

  datatype Ledger = Ledger(accounts: map<nat, Account>, entries: seq<Entry>)

  datatype Outcome =
    | Recorded(entry: Entry)
    | AlreadyRecorded(entry: Entry)
    | Unmoved(balance: int)
    | BadInput
    | MissingAccount
    | KeyOfAnother
    | AlreadyInitialized
    | Uninitialized
    | NoSuchEntry
    | InsufficientFunds

  /** What the form may carry: a change of 1 to MAX_CHANGE, or a balance the ledger can store. */
  predicate ValidAmount(operation: Operation, amount: int) {
    if operation == Deposit || operation == Withdraw then 1 <= amount <= MAX_CHANGE else 0 <= amount <= MAX_GIL
  }

  function Keyed(entries: seq<Entry>, key: string): nat { First(entries, (e: Entry) => e.key == key) }

  predicate Names(e: Entry, account: nat, ref: Ref) {
    e.account == account && match ref case Numbered(n) => e.sequence == n case Identified(id) => e.id == id
  }

  /** `correction`: the named entry of the same account. */
  function Corrected(entries: seq<Entry>, account: nat, ref: Ref): Option<nat> {
    var k := First(entries, (e: Entry) => Names(e, account, ref));
    if k < |entries| then Some(entries[k].id) else None
  }

  function Target(operation: Operation, before: int, amount: int): int {
    match operation
    case Deposit => before + amount
    case Withdraw => before - amount
    case _ => amount
  }

  datatype Stepped = Stepped(ledger: Ledger, outcome: Outcome)

  /** One `ledger` call, as its transaction decides it. */
  function Record(l: Ledger, account: nat, operation: Operation, amount: int, key: string, ref: Option<Ref>, id: nat)
    : Stepped
  {
    if !ValidAmount(operation, amount) then Stepped(l, BadInput)
    else if account !in l.accounts then Stepped(l, MissingAccount)
    else
      var a := l.accounts[account];
      var k := Keyed(l.entries, key);
      if k < |l.entries| then
        Stepped(l, if l.entries[k].account == account then AlreadyRecorded(l.entries[k]) else KeyOfAnother)
      else if operation == Initialize && a.balance.Some? then Stepped(l, AlreadyInitialized)
      else if operation != Initialize && a.balance.None? then Stepped(l, Uninitialized)
      else if ref.Some? && Corrected(l.entries, account, ref.value).None? then Stepped(l, NoSuchEntry)
      else
        var before := if a.balance.Some? then a.balance.value else 0;
        var balance := Target(operation, before, amount);
        if balance < 0 then Stepped(l, InsufficientFunds)
        else if balance > MAX_GIL then Stepped(l, BadInput)
        else if operation == Adjust && balance == before then Stepped(l, Unmoved(balance))
        else
          var entry := Entry(id, account, a.sequence + 1, operation, balance - before, balance, key,
                             if ref.Some? then Corrected(l.entries, account, ref.value) else None);
          var accounts := l.accounts[account := Account(Some(balance), entry.sequence)];
          Stepped(Ledger(accounts, l.entries + [entry]), Recorded(entry))
  }

  datatype Call = Call(account: nat, operation: Operation, amount: int, key: string, ref: Option<Ref>, id: nat)

  function Step(l: Ledger, c: Call): Stepped { Record(l, c.account, c.operation, c.amount, c.key, c.ref, c.id) }

  function Run(l: Ledger, calls: seq<Call>): Ledger
    decreases |calls|
  {
    if calls == [] then l else Run(Step(l, calls[0]).ledger, calls[1..])
  }

  /** An account's own entries, oldest first. */
  function Book(entries: seq<Entry>, account: nat): seq<Entry> {
    if entries == [] then []
    else
      var e := entries[|entries| - 1];
      Book(entries[..|entries| - 1], account) + if e.account == account then [e] else []
  }

  function Sum(book: seq<Entry>): int {
    if book == [] then 0 else Sum(book[..|book| - 1]) + book[|book| - 1].delta
  }

  /** An account's entries read on from each other: numbers by one, balances by their deltas. */
  ghost predicate Balanced(book: seq<Entry>, a: Account) {
    && |book| == a.sequence
    && a.balance == (if book == [] then None else Some(book[|book| - 1].balance))
    && forall i :: 0 <= i < |book| ==> FollowsOn(book, i)
  }

  ghost predicate FollowsOn(book: seq<Entry>, i: nat)
    requires i < |book|
  {
    && book[i].sequence == i + 1
    && book[i].balance == (if i == 0 then 0 else book[i - 1].balance) + book[i].delta
    && 0 <= book[i].balance <= MAX_GIL
    && (book[i].operation == Initialize <==> i == 0)
    && (book[i].operation == Withdraw ==> -MAX_CHANGE <= book[i].delta < 0)
    && (book[i].operation == Deposit ==> 0 < book[i].delta <= MAX_CHANGE)
    && (book[i].operation == Adjust ==> book[i].delta != 0)
  }

  ghost predicate Inv(l: Ledger) {
    && (forall a :: a in l.accounts ==> Balanced(Book(l.entries, a), l.accounts[a]))
    && (forall i, j :: 0 <= i < j < |l.entries| ==> l.entries[i].key != l.entries[j].key)
  }

  lemma BookAppend(entries: seq<Entry>, e: Entry, account: nat)
    ensures Book(entries + [e], account) == Book(entries, account) + if e.account == account then [e] else []
  {
    assert (entries + [e])[..|entries|] == entries;
  }

  lemma BalancedAppend(book: seq<Entry>, a: Account, e: Entry)
    requires Balanced(book, a) && FollowsOn(book + [e], |book|)
    ensures Balanced(book + [e], Account(Some(e.balance), e.sequence))
  {
    forall i | 0 <= i < |book| + 1 ensures FollowsOn(book + [e], i) {
      if i < |book| { assert FollowsOn(book, i); }
    }
  }

  /** What a recorded call adds: one entry that reads on from its account's book. */
  lemma RecordsOneEntry(l: Ledger, c: Call)
    requires Inv(l) && Step(l, c).outcome.Recorded?
    ensures var e := Step(l, c).outcome.entry;
      var book := Book(l.entries, c.account);
      && c.account in l.accounts && e.account == c.account && e.key == c.key
      && Keyed(l.entries, c.key) == |l.entries|
      && Step(l, c).ledger == Ledger(l.accounts[c.account := Account(Some(e.balance), e.sequence)], l.entries + [e])
      && FollowsOn(book + [e], |book|)
  {
    hide Corrected;
    var book := Book(l.entries, c.account);
    assert Balanced(book, l.accounts[c.account]);
    if book != [] { assert FollowsOn(book, |book| - 1); }
  }

  lemma StepKeepsInv(l: Ledger, c: Call)
    requires Inv(l)
    ensures Inv(Step(l, c).ledger)
  {
    if Step(l, c).outcome.Recorded? {
      hide Step, Balanced, FollowsOn;
      RecordsOneEntry(l, c);
      var after := Step(l, c).ledger;
      var e := Step(l, c).outcome.entry;
      forall a | a in after.accounts ensures Balanced(Book(after.entries, a), after.accounts[a]) {
        BookAppend(l.entries, e, a);
        assert Balanced(Book(l.entries, a), l.accounts[a]);
        assert Book(l.entries, a) + [] == Book(l.entries, a);
        if a == e.account { BalancedAppend(Book(l.entries, a), l.accounts[a], e); }
      }
    }
  }

  lemma StepAppends(l: Ledger, c: Call)
    ensures l.entries <= Step(l, c).ledger.entries && l.accounts.Keys == Step(l, c).ledger.accounts.Keys
    ensures !Step(l, c).outcome.Recorded? ==> Step(l, c).ledger == l
  {
  }

  lemma {:induction false} RunKeepsInv(l: Ledger, calls: seq<Call>)
    requires Inv(l)
    ensures Inv(Run(l, calls))
    ensures l.entries <= Run(l, calls).entries && l.accounts.Keys == Run(l, calls).accounts.Keys
    decreases |calls|
  {
    if calls != [] {
      hide Inv;
      StepKeepsInv(l, calls[0]);
      StepAppends(l, calls[0]);
      hide Step;
      RunKeepsInv(Step(l, calls[0]).ledger, calls[1..]);
    }
  }

  lemma {:induction false} SumIsLast(book: seq<Entry>, a: Account)
    requires Balanced(book, a)
    ensures Sum(book) == if book == [] then 0 else book[|book| - 1].balance
    decreases |book|
  {
    if book != [] {
      var rest := book[..|book| - 1];
      var last := book[|book| - 1];
      assert FollowsOn(book, |book| - 1);
      forall i | 0 <= i < |rest| ensures FollowsOn(rest, i) { assert FollowsOn(book, i); }
      SumIsLast(rest, Account(if rest == [] then None else Some(rest[|rest| - 1].balance), |rest|));
    }
  }

  /** Accounts as linking an FC creates them. */
  function Empty(accounts: set<nat>): Ledger { Ledger(map a | a in accounts :: Account(None, 0), []) }

  lemma BookReads(book: seq<Entry>, a: Account)
    requires Balanced(book, a)
    ensures a.balance == (if book == [] then None else Some(Sum(book)))
    ensures book != [] ==> book[|book| - 1].balance == Sum(book)
    ensures 0 <= Sum(book) <= MAX_GIL
    ensures forall i :: 0 <= i < |book| ==> book[i].sequence == i + 1 && (book[i].operation == Initialize <==> i == 0)
  {
    SumIsLast(book, a);
    hide Sum;
    forall i | 0 <= i < |book| ensures book[i].sequence == i + 1 && (book[i].operation == Initialize <==> i == 0) {
      assert FollowsOn(book, i);
    }
    assert book != [] ==> FollowsOn(book, |book| - 1);
  }

  /**
   * After any calls an account's balance is the sum of all it recorded and its last entry's balance,
   * within 0 and MAX_GIL; its entries are numbered 1 up by one, and only the first is an opening.
   */
  lemma BalanceIsTheSum(accounts: set<nat>, calls: seq<Call>, account: nat)
    requires account in accounts
    ensures var after := Run(Empty(accounts), calls);
      var book := Book(after.entries, account);
      && account in after.accounts
      && after.accounts[account].balance == (if book == [] then None else Some(Sum(book)))
      && (book != [] ==> book[|book| - 1].balance == Sum(book))
      && 0 <= Sum(book) <= MAX_GIL
      && (forall i :: 0 <= i < |book| ==> book[i].sequence == i + 1 && (book[i].operation == Initialize <==> i == 0))
  {
    RunKeepsInv(Empty(accounts), calls);
    var after := Run(Empty(accounts), calls);
    hide Run, Book, Sum, Balanced;
    assert Balanced(Book(after.entries, account), after.accounts[account]);
    BookReads(Book(after.entries, account), after.accounts[account]);
  }

  /** A key that recorded an entry, sent again at any later point, changes nothing and reports that entry. */
  lemma ReplayChangesNothing(l: Ledger, c: Call, calls: seq<Call>, again: Call)
    requires Inv(l) && Step(l, c).outcome.Recorded? && again.key == c.key
    ensures var later := Run(Step(l, c).ledger, calls);
      && Step(later, again).ledger == later
      && (again.account == c.account && ValidAmount(again.operation, again.amount) ==>
           Step(later, again).outcome == AlreadyRecorded(Step(l, c).outcome.entry))
  {
    var sent := Step(l, c).ledger;
    StepKeepsInv(l, c);
    RunKeepsInv(sent, calls);
    var later := Run(sent, calls);
    RecordsOneEntry(l, c);
    var k := Keyed(later.entries, c.key);
    hide FollowsOn, Balanced, Corrected;
    assert later.entries[|l.entries|] == sent.entries[|l.entries|];
    assert k == |l.entries|;
  }

  /** An entry that could be corrected can be corrected ever after. */
  lemma CorrectedStays(entries: seq<Entry>, more: seq<Entry>, account: nat, ref: Ref)
    requires entries <= more && Corrected(entries, account, ref).Some?
    ensures Corrected(more, account, ref).Some?
  {
    var k := First(entries, (e: Entry) => Names(e, account, ref));
    assert Names(more[k], account, ref);
  }

  lemma {:induction false} KeyStaysNew(l: Ledger, calls: seq<Call>, key: string, account: nat)
    requires Keyed(l.entries, key) == |l.entries| && account in l.accounts && l.accounts[account].balance.Some?
    requires forall i :: 0 <= i < |calls| ==> calls[i].key != key
    ensures var after := Run(l, calls);
      && Keyed(after.entries, key) == |after.entries| && l.entries <= after.entries
      && account in after.accounts && after.accounts[account].balance.Some?
    decreases |calls|
  {
    if calls != [] {
      StepIsNew(l, calls[0], key, account);
      hide Step;
      KeyStaysNew(Step(l, calls[0]).ledger, calls[1..], key, account);
    }
  }

  lemma StepIsNew(l: Ledger, c: Call, key: string, account: nat)
    requires Keyed(l.entries, key) == |l.entries| && account in l.accounts && l.accounts[account].balance.Some?
    requires c.key != key
    ensures var after := Step(l, c).ledger;
      && Keyed(after.entries, key) == |after.entries| && l.entries <= after.entries
      && account in after.accounts && after.accounts[account].balance.Some?
  {
    hide Corrected;
    var after := Step(l, c).ledger;
    forall j | 0 <= j < |after.entries| ensures after.entries[j].key != key {
      if j < |l.entries| { assert after.entries[j] == l.entries[j]; }
    }
  }

  /**
   * A key whose adjustment left the balance alone is not remembered: sent again after any other calls it
   * changes nothing if and only if the balance then is again the one it names, and records otherwise.
   */
  lemma UnmovedKeyIsNotRemembered(l: Ledger, c: Call, calls: seq<Call>)
    requires Step(l, c).outcome.Unmoved?
    requires forall i :: 0 <= i < |calls| ==> calls[i].key != c.key
    ensures var later := Run(Step(l, c).ledger, calls);
      && c.account in later.accounts
      && (Step(later, c).ledger == later <==> later.accounts[c.account].balance == Some(c.amount))
      && (later.accounts[c.account].balance != Some(c.amount) ==> Step(later, c).outcome.Recorded?)
  {
    hide Corrected;
    assert Step(l, c).ledger == l && Keyed(l.entries, c.key) == |l.entries|;
    KeyStaysNew(l, calls, c.key, c.account);
    if c.ref.Some? { CorrectedStays(l.entries, Run(l, calls).entries, c.account, c.ref.value); }
  }

  /** A deposit in between is enough. */
  lemma DepositMovesIt(l: Ledger, c: Call, deposit: Call)
    requires Step(l, c).outcome.Unmoved?
    requires deposit.account == c.account && deposit.operation == Deposit && deposit.key != c.key
    requires Step(l, deposit).outcome.Recorded?
    ensures Step(Run(Step(l, c).ledger, [deposit]), c).outcome.Recorded?
  {
    UnmovedKeyIsNotRemembered(l, c, [deposit]);
    assert [deposit][1..] == [];
    assert Run(Step(l, deposit).ledger, []) == Step(l, deposit).ledger;
    DepositRaises(l, c, deposit);
  }

  lemma DepositRaises(l: Ledger, c: Call, deposit: Call)
    requires Step(l, c).outcome.Unmoved? && deposit.account == c.account && deposit.operation == Deposit
    requires Step(l, deposit).outcome.Recorded?
    ensures Step(l, c).ledger == l
    ensures Step(l, deposit).ledger.accounts[c.account].balance == Some(c.amount + deposit.amount)
    ensures deposit.amount > 0
  {
    hide Corrected;
  }
}
