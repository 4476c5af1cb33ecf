/** The ledger's transaction as the service runs it, step by step under the account's row lock. */
module Ledgers {
  import opened Options
  import opened LedgerBook

  class GilLedger {
    var accounts: map<nat, Account>
    var entries: seq<Entry>

    constructor (linked: set<nat>)
      ensures Contents() == Empty(linked) && Inv(Contents())
    {
      accounts, entries := map a | a in linked :: Account(None, 0), [];
    }

    function Contents(): Ledger
      reads this
    {
      Ledger(accounts, entries)
    }

    /** `ledger`: record one operation, or say why not; a key seen before is answered, never recorded again. */
    method RecordOperation(account: nat, operation: Operation, amount: int, key: string, ref: Option<Ref>, id: nat)
      returns (r: Outcome)
      requires Inv(Contents())
      modifies this
      ensures Inv(Contents())
      ensures Stepped(Contents(), r) == Step(old(Contents()), Call(account, operation, amount, key, ref, id))
    {
      hide Inv, Corrected;
      StepKeepsInv(Contents(), Call(account, operation, amount, key, ref, id));
      if operation == Deposit || operation == Withdraw {
        if amount < 1 || amount > MAX_CHANGE { return BadInput; }
      } else if amount < 0 || amount > MAX_GIL {
        return BadInput;
      }
      if account !in accounts { return MissingAccount; }
      var row := accounts[account];
      var k := 0;
      while k < |entries| && entries[k].key != key
        invariant k <= |entries| && forall j :: 0 <= j < k ==> entries[j].key != key
      {
        k := k + 1;
      }
      assert k == Keyed(entries, key);
      if k < |entries| {
        if entries[k].account != account { return KeyOfAnother; }
        return AlreadyRecorded(entries[k]);
      }
      if operation == Initialize && row.balance.Some? { return AlreadyInitialized; }
      if operation != Initialize && row.balance.None? { return Uninitialized; }
      var corrected: Option<nat> := None;
      if ref.Some? {
        corrected := Corrected(entries, account, ref.value);
        if corrected.None? { return NoSuchEntry; }
      }
      var before := if row.balance.Some? then row.balance.value else 0;
      var balance := amount;
      if operation == Deposit {
        balance := before + amount;
      } else if operation == Withdraw {
        balance := before - amount;
      }
      if balance < 0 { return InsufficientFunds; }
      if balance > MAX_GIL { return BadInput; }
      if operation == Adjust && balance == before { return Unmoved(balance); }
      var entry := Entry(id, account, row.sequence + 1, operation, balance - before, balance, key, corrected);
      entries := entries + [entry];
      accounts := accounts[account := Account(Some(balance), entry.sequence)];
      r := Recorded(entry);
    }
  }
}
