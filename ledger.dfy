/** The value view of one account: its balance and its append-only
    transaction log, and the two guarded steps that change them
    (deposit and withdraw). */
module Ledger {
  import opened Outcomes

  datatype Kind = Deposit | Withdrawal

  /** One immutable transaction record: its type and its amount. */
  datatype Tx = Tx(kind: Kind, amount: int)

  /** The balance and the log of an account at one moment. */
  datatype Books = Books(balance: int, log: seq<Tx>)

  /** What a guarded step reports, and the books after it. */
  datatype Step = Step(outcome: Outcome, after: Books)

  /** The signed effect a record describes on the balance. */
  function Effect(t: Tx): int {
    match t.kind
    case Deposit => t.amount
    case Withdrawal => -t.amount
  }

  /** The net effect of a whole log. */
  function Net(log: seq<Tx>): int {
    if log == [] then 0 else Net(log[..|log| - 1]) + Effect(log[|log| - 1])
  }

  lemma {:induction false} NetConcat(a: seq<Tx>, b: seq<Tx>)
    ensures Net(a + b) == Net(a) + Net(b)
    decreases |b|
  {
    if b == [] {
      assert a + b == a;
    } else {
      var b' := b[..|b| - 1];
      assert (a + b)[..|a + b| - 1] == a + b';
      NetConcat(a, b');
    }
  }

  /** deposit: refuses a non-positive amount; otherwise raises the
      balance by the amount and appends one Deposit record. */
  function Deposited(books: Books, amount: int): (r: Step)
    ensures r.outcome.Fail? <==> amount <= 0
    ensures r.outcome.Fail? ==> r.outcome.error == InvalidAmount && r.after == books
    ensures r.outcome.Ok? ==> r.after.balance == books.balance + amount
    ensures r.outcome.Ok? ==> r.after.log == books.log + [Tx(Deposit, amount)]
  {
    if amount <= 0 then Step(Fail(InvalidAmount), books)
    else Step(Ok, Books(books.balance + amount, books.log + [Tx(Deposit, amount)]))
  }

  /** withdraw: refuses an amount above the balance and nothing else (the
      sign of the amount is not checked: a zero or negative amount succeeds
      whenever it is not above the balance); otherwise lowers the balance
      by the amount and appends one Withdrawal record. */
  function Withdrawn(books: Books, amount: int): (r: Step)
    ensures r.outcome.Fail? <==> amount > books.balance
    ensures r.outcome.Fail? ==> r.outcome.error == InsufficientFunds && r.after == books
    ensures r.outcome.Ok? ==> r.after.balance == books.balance - amount >= 0
    ensures r.outcome.Ok? ==> r.after.log == books.log + [Tx(Withdrawal, amount)]
  {
    if amount > books.balance then Step(Fail(InsufficientFunds), books)
    else Step(Ok, Books(books.balance - amount, books.log + [Tx(Withdrawal, amount)]))
  }

  /** The difference between the balance and what the log accounts for;
      deposit and withdraw never change it. */
  function Unlogged(books: Books): int {
    books.balance - Net(books.log)
  }

  lemma {:induction false} StepKeepsLedgerBalanced(books: Books, amount: int)
    ensures Unlogged(Deposited(books, amount).after) == Unlogged(books)
    ensures Unlogged(Withdrawn(books, amount).after) == Unlogged(books)
  {
  }

  /** A caller's call on an account's own operations. */
  datatype Op = DepositOp(amount: int) | WithdrawOp(amount: int)

  function Apply(books: Books, op: Op): Step {
    match op
    case DepositOp(a) => Deposited(books, a)
    case WithdrawOp(a) => Withdrawn(books, a)
  }

  /** The books after a series of calls, each applied to the books the
      previous one left, failures included. */
  function Run(books: Books, ops: seq<Op>): Books
    decreases |ops|
  {
    if ops == [] then books else Run(Apply(books, ops[0]).after, ops[1..])
  }

  /** How many of the calls succeed. */
  function Succeeded(books: Books, ops: seq<Op>): nat
    decreases |ops|
  {
    if ops == [] then 0
    else (if Apply(books, ops[0]).outcome.Ok? then 1 else 0) + Succeeded(Apply(books, ops[0]).after, ops[1..])
  }

  /** The log is append-only: after any series of calls the old log is a
      prefix of the new one, and one record was added per successful call. */
  lemma {:induction false} RunAppendsOnly(books: Books, ops: seq<Op>)
    ensures books.log <= Run(books, ops).log
    ensures |Run(books, ops).log| == |books.log| + Succeeded(books, ops)
    decreases |ops|
  {
    if ops != [] {
      RunAppendsOnly(Apply(books, ops[0]).after, ops[1..]);
    }
  }

  /** Deposit and withdraw keep the balance and the log in step: what
      the log does not account for stays what it was. */
  lemma {:induction false} RunKeepsLedgerBalanced(books: Books, ops: seq<Op>)
    ensures Unlogged(Run(books, ops)) == Unlogged(books)
    decreases |ops|
  {
    if ops != [] {
      StepKeepsLedgerBalanced(books, ops[0].amount);
      RunKeepsLedgerBalanced(Apply(books, ops[0]).after, ops[1..]);
    }
  }

  /** Hence the balance moved by exactly the net of the records added. */
  lemma {:induction false} RunMovesBalanceByAddedRecords(books: Books, ops: seq<Op>)
    ensures |books.log| <= |Run(books, ops).log| &&
            Run(books, ops).balance == books.balance + Net(Run(books, ops).log[|books.log|..])
  {
    var fin := Run(books, ops).log;
    RunAppendsOnly(books, ops);
    RunKeepsLedgerBalanced(books, ops);
    assert books.log + fin[|books.log|..] == fin;
    NetConcat(books.log, fin[|books.log|..]);
  }

  /** An account that starts with a non-negative balance never goes
      negative through its own operations. */
  lemma {:induction false} RunKeepsNonNegative(books: Books, ops: seq<Op>)
    requires books.balance >= 0
    ensures Run(books, ops).balance >= 0
    decreases |ops|
  {
    if ops != [] {
      RunKeepsNonNegative(Apply(books, ops[0]).after, ops[1..]);
    }
  }

  /** Every Deposit record carries a positive amount. */
  predicate DepositsPositive(log: seq<Tx>) {
    forall k :: 0 <= k < |log| && log[k].kind == Deposit ==> log[k].amount > 0
  }

  /** deposit's guard keeps non-positive deposits out of the log, while
      withdraw records whatever amount it accepted. */
  lemma {:induction false} RunKeepsDepositsPositive(books: Books, ops: seq<Op>)
    requires DepositsPositive(books.log)
    ensures DepositsPositive(Run(books, ops).log)
    decreases |ops|
  {
    if ops != [] {
      var next := Apply(books, ops[0]).after;
      assert DepositsPositive(next.log) by {
        forall k | 0 <= k < |next.log| && next.log[k].kind == Deposit ensures next.log[k].amount > 0 {
          if k < |books.log| {
            assert next.log[k] == books.log[k];
          }
        }
      }
      RunKeepsDepositsPositive(next, ops[1..]);
    }
  }
}
