/** The bank: an ordered collection of accounts, the searches by id over
    it, and the operations that add an account, close one and move funds
    between two. */
module Banking {
  import opened Outcomes
  import opened Accounts

  /** findIndex by id: the position of the first account with that id,
      or -1 when there is none. */
  function FindIndex(accounts: seq<Account>, id: int): (i: int)
    ensures -1 <= i < |accounts|
    ensures i == -1 <==> forall k :: 0 <= k < |accounts| ==> accounts[k].id != id
    ensures 0 <= i ==> accounts[i].id == id
    ensures 0 <= i ==> forall k :: 0 <= k < i ==> accounts[k].id != id
    decreases |accounts|
  {
    if accounts == [] then -1
    else if accounts[0].id == id then 0
    else
      var j := FindIndex(accounts[1..], id);
      if j == -1 then -1 else j + 1
  }

  /** find by id: the first account with that id, if any. */
  function Find(accounts: seq<Account>, id: int): (r: Option<Account>)
    ensures r.None? <==> forall k :: 0 <= k < |accounts| ==> accounts[k].id != id
    // Follows from the two clauses below and FindIndex's contract; stated
    // for callers that only need membership and the matching id.
    ensures r.Some? ==> r.value in accounts && r.value.id == id
    ensures r.Some? <==> FindIndex(accounts, id) >= 0
    ensures r.Some? ==> r.value == accounts[FindIndex(accounts, id)]
  {
    var i := FindIndex(accounts, id);
    if i == -1 then None else Some(accounts[i])
  }

  /** Ids in the bank's order are strictly increasing, hence unique. */
  predicate IdsIncreasing(accounts: seq<Account>) {
    forall i, j :: 0 <= i < j < |accounts| ==> accounts[i].id < accounts[j].id
  }

  /** The sequence with the account at position i taken out and the
      later ones moved down (splice(i, 1)). */
  function RemoveAt(accounts: seq<Account>, i: nat): (r: seq<Account>)
    requires i < |accounts|
    ensures |r| == |accounts| - 1
    ensures forall k :: 0 <= k < i ==> r[k] == accounts[k]
    ensures forall k :: i <= k < |r| ==> r[k] == accounts[k + 1]
  {
    accounts[..i] + accounts[i + 1..]
  }

  /** With unique ids, an account's id leads findIndex to that account. */
  lemma {:induction false} FindIndexOfMember(accounts: seq<Account>, k: nat)
    requires IdsIncreasing(accounts)
    requires k < |accounts|
    ensures FindIndex(accounts, accounts[k].id) == k
  {
  }

  /** With unique ids, two positions hold two different objects. */
  lemma {:induction false} DistinctPositionsDistinctAccounts(accounts: seq<Account>, k: nat, m: nat)
    requires IdsIncreasing(accounts)
    requires k < |accounts| && m < |accounts| && k != m
    ensures accounts[k] != accounts[m]
  {
  }

  /** An account whose id is above every id in the bank can be appended
      without breaking the order. */
  lemma {:induction false} AppendKeepsIdsIncreasing(accounts: seq<Account>, a: Account)
    requires IdsIncreasing(accounts)
    requires forall k :: 0 <= k < |accounts| ==> accounts[k].id < a.id
    ensures IdsIncreasing(accounts + [a])
    ensures FindIndex(accounts + [a], a.id) == |accounts|
  {
    var s := accounts + [a];
    forall i, j | 0 <= i < j < |s| ensures s[i].id < s[j].id {
      if j == |accounts| {
        assert s[i] == accounts[i];
      } else {
        assert s[i] == accounts[i] && s[j] == accounts[j];
      }
    }
    FindIndexOfMember(s, |accounts|);
  }

  /** Closing an account that is present takes out exactly that account:
      the order stays increasing, the id is gone, and every account with
      another id is still there. */
  lemma {:induction false} RemoveFirstMatch(accounts: seq<Account>, id: int)
    requires IdsIncreasing(accounts)
    requires FindIndex(accounts, id) >= 0
    ensures IdsIncreasing(RemoveAt(accounts, FindIndex(accounts, id)))
    ensures FindIndex(RemoveAt(accounts, FindIndex(accounts, id)), id) == -1
    ensures forall k :: 0 <= k < |accounts| && accounts[k].id != id ==>
              accounts[k] in RemoveAt(accounts, FindIndex(accounts, id))
  {
  }

  /** The balances of the accounts, in the bank's order. */
  function Balances(accounts: seq<Account>): (b: seq<int>)
    reads set a | a in accounts
    ensures |b| == |accounts|
    ensures forall k :: 0 <= k < |accounts| ==> b[k] == accounts[k].balance
  {
    seq(|accounts|, k requires 0 <= k < |accounts| reads accounts => accounts[k].balance)
  }

  function Sum(b: seq<int>): int {
    if b == [] then 0 else b[0] + Sum(b[1..])
  }

  lemma {:induction false} SumUpdate(b: seq<int>, k: nat, v: int)
    requires k < |b|
    ensures Sum(b[k := v]) == Sum(b) - b[k] + v
  {
    if k > 0 {
      assert b[k := v][1..] == b[1..][k - 1 := v];
      SumUpdate(b[1..], k - 1, v);
    } else {
      assert b[k := v][1..] == b[1..];
    }
  }

  /** What transferFunds reports, and the balances after it. */
  datatype Moved = Moved(outcome: Outcome, balances: seq<int>)

  /** transferFunds on the balances, given where the two lookups landed
      (-1 when the id is absent): both accounts must exist and the source
      must hold at least the amount; then the source is debited and the
      target, read after the debit, credited. The total is conserved. */
  function Transferred(b: seq<int>, i: int, j: int, amount: int): (r: Moved)
    requires -1 <= i < |b| && -1 <= j < |b|
    ensures r.outcome == Fail(AccountNotFound) <==> i == -1 || j == -1
    ensures r.outcome == Fail(InsufficientFunds) <==> i >= 0 && j >= 0 && b[i] < amount
    ensures r.outcome == Ok <==> i >= 0 && j >= 0 && b[i] >= amount
    ensures r.outcome.Fail? ==> r.balances == b
    ensures r.outcome == Ok ==> r.balances == DebitThenCredit(b, i, j, amount)
    ensures |r.balances| == |b|
  {
    if i == -1 || j == -1 then Moved(Fail(AccountNotFound), b)
    else if b[i] < amount then Moved(Fail(InsufficientFunds), b)
    else Moved(Ok, DebitThenCredit(b, i, j, amount))
  }

  /** The balances after the debit of position i and the credit of
      position j, in that order (the credit reads the debited value):
      between two positions the amount moves from i to j, and from a
      position to itself nothing changes. */
  function DebitThenCredit(b: seq<int>, i: nat, j: nat, amount: int): (r: seq<int>)
    requires i < |b| && j < |b|
    ensures |r| == |b|
    ensures i != j ==> r[i] == b[i] - amount && r[j] == b[j] + amount
    ensures i == j ==> r == b
    ensures forall k :: 0 <= k < |b| && k != i && k != j ==> r[k] == b[k]
  {
    var debited := b[i := b[i] - amount];
    debited[j := debited[j] + amount]
  }

  /** Debit then credit by the same amount keeps the total. */
  lemma {:induction false} DebitThenCreditConserves(b: seq<int>, i: nat, j: nat, amount: int)
    requires i < |b| && j < |b|
    ensures Sum(DebitThenCredit(b, i, j, amount)) == Sum(b)
  {
    var debited := b[i := b[i] - amount];
    var credited := debited[j := debited[j] + amount];
    assert DebitThenCredit(b, i, j, amount) == credited;
    SumUpdate(b, i, b[i] - amount);
    assert Sum(debited) == Sum(b) - amount;
    SumUpdate(debited, j, debited[j] + amount);
    assert Sum(credited) == Sum(debited) + amount;
  }

  /** A transfer conserves the total of the balances, whatever its
      outcome. */
  lemma {:induction false} TransferConserves(b: seq<int>, i: int, j: int, amount: int)
    requires -1 <= i < |b| && -1 <= j < |b|
    ensures Sum(Transferred(b, i, j, amount).balances) == Sum(b)
  {
    if i >= 0 && j >= 0 && b[i] >= amount {
      DebitThenCreditConserves(b, i, j, amount);
    }
  }

  /** A successful transfer between two different accounts moves exactly
      the amount from one to the other and touches no other balance. */
  lemma {:induction false} TransferBetweenTwo(b: seq<int>, i: int, j: int, amount: int)
    requires -1 <= i < |b| && -1 <= j < |b|
    requires Transferred(b, i, j, amount).outcome.Ok? && i != j
    ensures Transferred(b, i, j, amount).balances[i] == b[i] - amount
    ensures Transferred(b, i, j, amount).balances[j] == b[j] + amount
    ensures forall k :: 0 <= k < |b| && k != i && k != j ==> Transferred(b, i, j, amount).balances[k] == b[k]
  {
  }

  /** A successful transfer from an account to itself changes nothing. */
  lemma {:induction false} TransferToSelf(b: seq<int>, i: int, amount: int)
    requires -1 <= i < |b|
    requires Transferred(b, i, i, amount).outcome.Ok?
    ensures Transferred(b, i, i, amount).balances == b
  {
  }

  /** The only guard on the amount is the source balance, so a negative
      amount between two accounts goes through whenever the source balance
      is not below it: the source gains, the target loses, and the target
      may end up below zero. */
  lemma {:induction false} TransferNegativeAmount(b: seq<int>, i: nat, j: nat, amount: int)
    requires i < |b| && j < |b| && i != j
    requires amount < 0 && b[i] >= amount
    ensures Transferred(b, i, j, amount).outcome == Ok
    ensures Transferred(b, i, j, amount).balances[i] > b[i]
    ensures Transferred(b, i, j, amount).balances[j] < b[j]
    ensures b[j] < -amount ==> Transferred(b, i, j, amount).balances[j] < 0
  {
  }

  class Bank {
    const name: string
    /** The shared counter that stands for Account.lastId. */
    const counter: IdCounter
    var accounts: seq<Account>

    /** Accounts are held in creation order, so their ids increase, and
        none is above the last id handed out. */
    ghost predicate Valid()
      reads this, counter
    {
      && IdsIncreasing(accounts)
      && forall k :: 0 <= k < |accounts| ==> accounts[k].id <= counter.lastId
    }

    constructor (name: string, counter: IdCounter)
      ensures this.name == name && this.counter == counter
      ensures accounts == []
      ensures Valid()
    {
      this.name := name;
      this.counter := counter;
      accounts := [];
    }

    /** createAccount: a new account with the next id is appended. */
    method CreateAccount(accountName: string, initialBalance: int) returns (acct: Account)
      requires Valid()
      modifies this, counter
      ensures Valid()
      ensures fresh(acct)
      ensures counter.lastId == old(counter.lastId) + 1 && acct.id == counter.lastId
      ensures acct.name == accountName && acct.balance == initialBalance && acct.transactions == []
      ensures accounts == old(accounts) + [acct]
    {
      acct := new Account(accountName, initialBalance, counter);
      AppendKeepsIdsIncreasing(accounts, acct);
      accounts := accounts + [acct];
    }

    /** closeAccount: the first account with the id is spliced out, or
        nothing happens when there is none. */
    method CloseAccount(accountId: int)
      requires Valid()
      modifies this
      ensures Valid()
      ensures old(FindIndex(accounts, accountId)) == -1 ==> accounts == old(accounts)
      ensures old(FindIndex(accounts, accountId)) >= 0 ==>
                accounts == RemoveAt(old(accounts), old(FindIndex(accounts, accountId)))
      ensures FindIndex(accounts, accountId) == -1
    {
      var accountIndex := FindIndex(accounts, accountId);
      if accountIndex > -1 {
        RemoveFirstMatch(accounts, accountId);
        accounts := accounts[..accountIndex] + accounts[accountIndex + 1..];
      }
    }

    /** The two balance updates of transferFunds: the account at i is
        debited, then the account at j credited. */
    method MoveFunds(from: Account, to: Account, amount: int, ghost i: nat, ghost j: nat)
      requires Valid()
      requires i < |accounts| && j < |accounts|
      requires from == accounts[i] && to == accounts[j]
      modifies from, to
      ensures Valid()
      ensures Balances(accounts) == DebitThenCredit(old(Balances(accounts)), i, j, amount)
      ensures forall k :: 0 <= k < |accounts| ==> accounts[k].transactions == old(accounts[k].transactions)
    {
      ghost var b := Balances(accounts);
      if i != j {
        DistinctPositionsDistinctAccounts(accounts, i, j);
      }
      from.balance := from.balance - amount;
      to.balance := to.balance + amount;
      ghost var expected := DebitThenCredit(b, i, j, amount);
      forall k | 0 <= k < |accounts| ensures accounts[k].balance == expected[k] {
        if k != i {
          DistinctPositionsDistinctAccounts(accounts, k, i);
        }
        if k != j {
          DistinctPositionsDistinctAccounts(accounts, k, j);
        }
      }
      assert Balances(accounts) == expected;
    }

    /** transferFunds: both lookups and both guards come before any
        change; no transaction record is written. */
    method TransferFunds(fromId: int, toId: int, amount: int) returns (r: Outcome)
      requires Valid()
      modifies set a | a in accounts
      ensures Valid()
      ensures accounts == old(accounts)
      ensures forall k :: 0 <= k < |accounts| ==> accounts[k].transactions == old(accounts[k].transactions)
      ensures Moved(r, Balances(accounts)) ==
              Transferred(old(Balances(accounts)), FindIndex(accounts, fromId), FindIndex(accounts, toId), amount)
      ensures Sum(Balances(accounts)) == old(Sum(Balances(accounts)))
    {
      var fromAccount := Find(accounts, fromId);
      var toAccount := Find(accounts, toId);
      if fromAccount.None? || toAccount.None? {
        return Fail(AccountNotFound);
      }
      if fromAccount.value.balance < amount {
        return Fail(InsufficientFunds);
      }
      ghost var b := Balances(accounts);
      ghost var i, j := FindIndex(accounts, fromId), FindIndex(accounts, toId);
      assert fromAccount.value == accounts[i] && toAccount.value == accounts[j];
      MoveFunds(fromAccount.value, toAccount.value, amount, i, j);
      r := Ok;
      TransferConserves(b, i, j, amount);
    }
  }
}
