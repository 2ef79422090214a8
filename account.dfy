/**
 * The account entity: a balance and an append-only history, changed only by
 * `Deposit` and `Withdraw`, each of which validates before it mutates.
 */
module Accounts {
  import opened Wrappers
  import opened Domain

  /** The amount check shared by both mutators: present and strictly positive. */
  function ValidateAmount(amount: Option<real>): (r: Outcome<Error>)
    ensures r == Pass <==> IsPositive(amount)
    ensures r != Pass ==> r == Fail(InvalidAmount)
  {
    if amount.None? || amount.value <= 0.0 then Fail(InvalidAmount) else Pass
  }

  /** How a withdrawal of `amount` from `balance` ends. */
  function DebitOutcome(balance: real, amount: Option<real>): (r: Outcome<Error>)
    ensures r == Pass <==> IsPositive(amount) && amount.value <= balance
    ensures !IsPositive(amount) ==> r == Fail(InvalidAmount)
    ensures IsPositive(amount) && balance < amount.value ==>
              r == Fail(InsufficientFunds(balance, amount.value))
    ensures r == Pass ==> 0.0 <= balance - amount.value < balance
  {
    match ValidateAmount(amount)
    case Fail(e) => Fail(e)
    case Pass => if balance < amount.value then Fail(InsufficientFunds(balance, amount.value)) else Pass
  }

  class Account {
    const accountNumber: string
    const customerId: string
    const accountType: AccountType
    const openedAt: Instant

    var balance: real
    var transactions: seq<Transaction>
    /** The role of the mutator call that appended each transaction:
        `Deposit` appends with `Credit`, `Withdraw` with `Debit`. */
    ghost var roles: seq<Role>

    /** The account invariant: every recorded amount is positive, the balance
        is the role-signed sum of the history, and it is not negative. */
    ghost predicate Valid()
      reads this
    {
      && |roles| == |transactions|
      && (forall i :: 0 <= i < |transactions| ==> IsPositive(transactions[i].amount))
      && balance == RoleSum(roles, transactions)
      && balance >= 0.0
    }

    /** A new account has balance zero and an empty history. */
    constructor (accountNumber: string, customerId: string, accountType: AccountType, openedAt: Instant)
      ensures Valid()
      ensures this.accountNumber == accountNumber && this.customerId == customerId
      ensures this.accountType == accountType && this.openedAt == openedAt
      ensures balance == 0.0 && transactions == [] && roles == []
    {
      this.accountNumber := accountNumber;
      this.customerId := customerId;
      this.accountType := accountType;
      this.openedAt := openedAt;
      balance := 0.0;
      transactions := [];
      roles := [];
    }

    /** The current balance; it is never negative. */
    function Balance(): (b: real)
      reads this
      requires Valid()
      ensures b >= 0.0
      ensures b == RoleSum(roles, transactions)
    {
      balance
    }

    /** The recorded transactions in insertion order, as a value the caller
        cannot change the account through. It reconciles with the balance. */
    function History(): (h: seq<Transaction>)
      reads this
      requires Valid()
      ensures h == transactions
      ensures |h| == |roles| && Balance() == RoleSum(roles, h)
      ensures forall i :: 0 <= i < |h| ==> IsPositive(h[i].amount)
    {
      transactions
    }

    /** Credit `tx.amount`: on a valid amount add it and append `tx`;
        otherwise fail with InvalidAmount and change nothing. */
    method Deposit(tx: Transaction) returns (r: Outcome<Error>)
      requires Valid()
      modifies this
      ensures Valid()
      ensures r == ValidateAmount(tx.amount)
      ensures r == Pass ==>
                && balance == old(balance) + tx.amount.value
                && transactions == old(transactions) + [tx]
                && roles == old(roles) + [Credit]
      ensures r != Pass ==> unchanged(this)
    {
      r := ValidateAmount(tx.amount);
      if r.Fail? {
        return;
      }
      AppendRecord(roles, transactions, Credit, tx);
      balance := balance + tx.amount.value;
      transactions := transactions + [tx];
      roles := roles + [Credit];
    }

    /** Debit `tx.amount`: fail with InvalidAmount on an invalid amount, with
        InsufficientFunds when it exceeds the balance, changing nothing in
        either case; otherwise subtract it and append `tx`. */
    method Withdraw(tx: Transaction) returns (r: Outcome<Error>)
      requires Valid()
      modifies this
      ensures Valid()
      ensures r == DebitOutcome(old(balance), tx.amount)
      ensures r == Pass ==>
                && balance == old(balance) - tx.amount.value
                && transactions == old(transactions) + [tx]
                && roles == old(roles) + [Debit]
      ensures r != Pass ==> unchanged(this)
    {
      r := ValidateAmount(tx.amount);
      if r.Fail? {
        return;
      }
      if balance < tx.amount.value {
        r := Fail(InsufficientFunds(balance, tx.amount.value));
        return;
      }
      AppendRecord(roles, transactions, Debit, tx);
      balance := balance - tx.amount.value;
      transactions := transactions + [tx];
      roles := roles + [Debit];
    }
  }
}
