/** What each ledger call is answered, and what its amount does to the balance, read off the call and the account. */
module LedgerAnswers {
  import opened Options
  import opened Searching
  import opened LedgerBook

  /** An account's stored balance, nothing before its opening. */
  function Before(l: Ledger, account: nat): int
    requires account in l.accounts
  {
    if l.accounts[account].balance.Some? then l.accounts[account].balance.value else 0
  }

  /** A recorded deposit adds its amount, a withdrawal takes it, and an opening or adjustment sets it. */
  lemma RecordedAmounts(l: Ledger, c: Call)
    requires Step(l, c).outcome.Recorded?
    ensures c.account in l.accounts
    ensures var e, before := Step(l, c).outcome.entry, Before(l, c.account);
      && e.operation == c.operation && e.account == c.account && e.id == c.id && e.key == c.key
      && e.sequence == l.accounts[c.account].sequence + 1
      && e.balance == before + e.delta
      && (c.operation == Deposit ==> e.delta == c.amount)
      && (c.operation == Withdraw ==> e.delta == -c.amount)
      && (c.operation == Initialize || c.operation == Adjust ==> e.balance == c.amount)
      && Step(l, c).ledger
         == Ledger(l.accounts[c.account := Account(Some(e.balance), e.sequence)], l.entries + [e])
  {
    hide Corrected;
  }

  /** What the form may carry. */
  predicate Allowed(c: Call) {
    match c.operation
    case Deposit => 1 <= c.amount <= 999999999
    case Withdraw => 1 <= c.amount <= 999999999
    case Initialize => 0 <= c.amount <= 9223372036854775807
    case Adjust => 0 <= c.amount <= 9223372036854775807
  }

  ghost predicate KeyUsed(l: Ledger, key: string) { exists i :: 0 <= i < |l.entries| && l.entries[i].key == key }

  /** A call that reaches the account's state: well formed, of a known account, with a key not used before. */
  ghost predicate Reaches(l: Ledger, c: Call) {
    Allowed(c) && c.account in l.accounts && !KeyUsed(l, c.key)
  }

  /** The entry a correction names, by number or ID, is one of this account's. */
  ghost predicate CorrectionFound(l: Ledger, c: Call) {
    c.ref.Some? ==> exists i :: 0 <= i < |l.entries| && Refers(c.ref.value, c.account, l.entries[i])
  }

  predicate Refers(ref: Ref, account: nat, e: Entry) {
    e.account == account && (if ref.Numbered? then e.sequence == ref.sequence else e.id == ref.id)
  }

  /** And one that the account's state allows: only an opening opens, and a correction names an entry. */
  ghost predicate Proceeds(l: Ledger, c: Call) {
    && Reaches(l, c) && CorrectionFound(l, c)
    && (c.operation == Initialize <==> l.accounts[c.account].balance.None?)
  }

  lemma KeyIsFound(l: Ledger, c: Call)
    ensures Keyed(l.entries, c.key) < |l.entries| <==> KeyUsed(l, c.key)
  {
    var k := Keyed(l.entries, c.key);
    assert k < |l.entries| ==> l.entries[k].key == c.key;
    if i :| 0 <= i < |l.entries| && l.entries[i].key == c.key { assert k <= i; }
  }

  lemma CorrectionIsFound(l: Ledger, c: Call)
    requires c.ref.Some?
    ensures Corrected(l.entries, c.account, c.ref.value).Some? <==> CorrectionFound(l, c)
    ensures Corrected(l.entries, c.account, c.ref.value).Some? ==>
      exists i :: 0 <= i < |l.entries| && Refers(c.ref.value, c.account, l.entries[i])
        && Corrected(l.entries, c.account, c.ref.value) == Some(l.entries[i].id)
  {
    var k := First(l.entries, (e: Entry) => Names(e, c.account, c.ref.value));
    assert k < |l.entries| ==> Refers(c.ref.value, c.account, l.entries[k]);
    if i :| 0 <= i < |l.entries| && Refers(c.ref.value, c.account, l.entries[i]) {
      assert Names(l.entries[i], c.account, c.ref.value);
    }
  }

  lemma StoredBalance(l: Ledger, account: nat)
    requires Inv(l) && account in l.accounts
    ensures 0 <= Before(l, account) <= MAX_GIL
  {
    BookReads(Book(l.entries, account), l.accounts[account]);
  }

  /** Every answer, exactly: which calls are refused and why, and which are recorded. */
  lemma Answers(l: Ledger, c: Call)
    requires Inv(l)
    ensures var r := Step(l, c).outcome;
      && (r == MissingAccount <==> Allowed(c) && c.account !in l.accounts)
      && (r == AlreadyInitialized <==>
           Reaches(l, c) && c.operation == Initialize && l.accounts[c.account].balance.Some?)
      && (r == Uninitialized <==> Reaches(l, c) && c.operation != Initialize && l.accounts[c.account].balance.None?)
      && (r == NoSuchEntry <==>
           Reaches(l, c) && !CorrectionFound(l, c)
           && (c.operation == Initialize <==> l.accounts[c.account].balance.None?))
      && (r == InsufficientFunds <==> Proceeds(l, c) && c.operation == Withdraw && c.amount > Before(l, c.account))
      && (r == BadInput <==>
           !Allowed(c) || (Proceeds(l, c) && c.operation == Deposit && Before(l, c.account) + c.amount > MAX_GIL))
      && (r.Unmoved? <==> Proceeds(l, c) && c.operation == Adjust && c.amount == Before(l, c.account))
      && (r.Unmoved? ==> r.balance == c.amount)
      && (r.Recorded? <==>
           && Proceeds(l, c)
           && (c.operation == Deposit ==> Before(l, c.account) + c.amount <= MAX_GIL)
           && (c.operation == Withdraw ==> c.amount <= Before(l, c.account))
           && (c.operation == Adjust ==> c.amount != Before(l, c.account)))
      && (!r.Recorded? ==> Step(l, c).ledger == l)
  {
    KeyIsFound(l, c);
    if c.ref.Some? { CorrectionIsFound(l, c); }
    if c.account in l.accounts { StoredBalance(l, c.account); }
    hide Inv, Corrected, Keyed, KeyUsed, CorrectionFound;
  }

  /** A key used before is answered with its entry, or refused as another account's; a correction is linked. */
  lemma AnswersFromTheBook(l: Ledger, c: Call)
    requires Inv(l)
    ensures Allowed(c) && c.account in l.accounts ==>
      forall i :: 0 <= i < |l.entries| && l.entries[i].key == c.key ==>
        Step(l, c).outcome == if l.entries[i].account == c.account then AlreadyRecorded(l.entries[i]) else KeyOfAnother
    ensures Step(l, c).outcome.Recorded? ==>
      match c.ref
      case None => Step(l, c).outcome.entry.correction == None
      case Some(ref) =>
        exists i :: 0 <= i < |l.entries| && Refers(ref, c.account, l.entries[i])
          && Step(l, c).outcome.entry.correction == Some(l.entries[i].id)
  {
    if c.ref.Some? { CorrectionIsFound(l, c); }
    forall i | 0 <= i < |l.entries| && l.entries[i].key == c.key ensures Keyed(l.entries, c.key) == i {
      var k := Keyed(l.entries, c.key);
      assert k <= i && l.entries[k].key == c.key;
    }
    hide Corrected, Keyed, Refers;
  }

  /** An account's balance after a call of its own amount. */
  function Moved(balance: Option<int>, c: Call): Option<int> {
    match c.operation
    case Deposit => if balance.Some? then Some(balance.value + c.amount) else balance
    case Withdraw => if balance.Some? then Some(balance.value - c.amount) else balance
    case Initialize => Some(c.amount)
    case Adjust => Some(c.amount)
  }

  /** The calls of a run that were recorded on an account. */
  function RecordedCalls(l: Ledger, calls: seq<Call>, account: nat): seq<Call>
    decreases |calls|
  {
    if calls == [] then []
    else
      var rest := RecordedCalls(Step(l, calls[0]).ledger, calls[1..], account);
      if calls[0].account == account && Step(l, calls[0]).outcome.Recorded? then [calls[0]] + rest else rest
  }

  function MovedByAll(balance: Option<int>, calls: seq<Call>): Option<int>
    decreases |calls|
  {
    if calls == [] then balance else MovedByAll(Moved(balance, calls[0]), calls[1..])
  }

  lemma StepMoves(l: Ledger, c: Call, account: nat)
    requires Inv(l) && account in l.accounts
    ensures account in Step(l, c).ledger.accounts
    ensures Step(l, c).ledger.accounts[account].balance ==
      if c.account == account && Step(l, c).outcome.Recorded? then Moved(l.accounts[account].balance, c)
      else l.accounts[account].balance
  {
    StepAppends(l, c);
    Answers(l, c);
    if Step(l, c).outcome.Recorded? { RecordedAmounts(l, c); }
    hide Inv, Step, CorrectionFound, KeyUsed;
  }

  /** After any run an account's balance is what the amounts of its recorded calls made of it, one after the other. */
  lemma {:induction false} BalanceFollowsTheCalls(l: Ledger, calls: seq<Call>, account: nat)
    requires Inv(l) && account in l.accounts
    ensures account in Run(l, calls).accounts
    ensures Run(l, calls).accounts[account].balance
         == MovedByAll(l.accounts[account].balance, RecordedCalls(l, calls, account))
    decreases |calls|
  {
    if calls != [] {
      StepKeepsInv(l, calls[0]);
      StepAppends(l, calls[0]);
      StepMoves(l, calls[0], account);
      hide Inv, Step, Moved;
      BalanceFollowsTheCalls(Step(l, calls[0]).ledger, calls[1..], account);
      var rest := RecordedCalls(Step(l, calls[0]).ledger, calls[1..], account);
      assert ([calls[0]] + rest)[1..] == rest;
    }
  }
}
