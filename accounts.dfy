/** Accounts as objects: the class-wide id counter and the Account
    class whose deposit and withdraw update its balance and log in
    place. */
module Accounts {
  import opened Outcomes
  import opened Ledger
  import Statement

  /** The last id handed out; every account creation bumps it by one and
      it is never reset, not even when an account is closed. */
  class IdCounter {
    var lastId: nat

    constructor ()
      ensures lastId == 0
    {
      lastId := 0;
    }
  }

  class Account {
    const id: nat
    const name: string
    var balance: int
    var transactions: seq<Tx>

    /** The account takes the next id from the shared counter, the
        balance it is given (unchecked) and an empty log. */
    constructor (name: string, initialBalance: int, counter: IdCounter)
      modifies counter
      ensures counter.lastId == old(counter.lastId) + 1
      ensures id == counter.lastId
      ensures this.name == name
      ensures balance == initialBalance && transactions == []
    {
      counter.lastId := counter.lastId + 1;
      id := counter.lastId;
      this.name := name;
      balance := initialBalance;
      transactions := [];
    }

    /** The balance and log as a value. */
    function State(): Books
      reads this
    {
      Books(balance, transactions)
    }

    method Deposit(amount: int) returns (r: Outcome)
      modifies this
      ensures Step(r, State()) == Deposited(old(State()), amount)
    {
      if amount <= 0 {
        return Fail(InvalidAmount);
      }
      balance := balance + amount;
      transactions := transactions + [Tx(Ledger.Deposit, amount)];
      r := Ok;
    }

    method Withdraw(amount: int) returns (r: Outcome)
      modifies this
      ensures Step(r, State()) == Withdrawn(old(State()), amount)
    {
      if amount > balance {
        return Fail(InsufficientFunds);
      }
      balance := balance - amount;
      transactions := transactions + [Tx(Ledger.Withdrawal, amount)];
      r := Ok;
    }

    /** getStatement: the log rendered line by line; it is empty exactly
        when there are no records and reads back as the log. */
    function GetStatement(): (s: string)
      reads this
      ensures s == "" <==> transactions == []
      ensures Statement.ParseStatement(s) == Some(transactions)
    {
      Statement.Render(transactions)
    }
  }
}
