/**
 * Value types of the ledger (customers, transactions, the two enumerations),
 * the error kinds that replace the source's exceptions, and the signed sums
 * over a transaction history that the reconciliation invariant is stated with.
 */
module Domain {
  import opened Wrappers

  /** An opaque clock reading; the source takes it from `Instant.now()`. */
  type Instant = int

  datatype AccountType = Current | Savings

  datatype TransactionType = Deposit | Withdrawal | TransferOut | TransferIn

  /** An immutable customer record. */
  datatype Customer = Customer(id: string, name: string, email: string, createdAt: Instant)

  /**
   * An immutable transaction record. `amount` is a nullable decimal in the
   * source; it is always stored positive, its sign is implied by `kind`.
   */
  datatype Transaction = Transaction(
    id: string,
    kind: TransactionType,
    amount: Option<real>,
    description: string,
    timestamp: Instant)

  datatype EntityKind = CustomerEntity | AccountEntity

  /** The closed set of failures of the ledger engine. */
  datatype Error =
    | NotFound(entity: EntityKind, id: string)
    | InvalidAmount
    | InsufficientFunds(balance: real, requested: real)
    | InvalidArgument

  /** An amount passes validation when it is present and strictly positive. */
  predicate IsPositive(amount: Option<real>) {
    amount.Some? && amount.value > 0.0
  }

  /** The value of a transaction's amount, taking an absent amount as zero. */
  function AmountOf(tx: Transaction): real {
    if tx.amount.Some? then tx.amount.value else 0.0
  }

  // ---------------------------------------------------------------------------
  // Reconciliation by the role of each call (what an account itself knows)

  /** Whether an account call added to the balance or took from it. */
  datatype Role = Credit | Debit

  function Signed(role: Role, x: real): real {
    match role
    case Credit => x
    case Debit => -x
  }

  /** The sum of the history's amounts, each signed by the role of the call that appended it. */
  function RoleSum(roles: seq<Role>, txs: seq<Transaction>): real
    requires |roles| == |txs|
    decreases |txs|
  {
    if txs == [] then 0.0
    else RoleSum(roles[..|roles| - 1], txs[..|txs| - 1]) + Signed(roles[|roles| - 1], AmountOf(txs[|txs| - 1]))
  }

  /** Appending one call's record extends the sum by its signed amount. */
  lemma AppendRecord(roles: seq<Role>, txs: seq<Transaction>, role: Role, tx: Transaction)
    requires |roles| == |txs|
    ensures RoleSum(roles + [role], txs + [tx]) == RoleSum(roles, txs) + Signed(role, AmountOf(tx))
  {
    assert (roles + [role])[..|roles|] == roles && (txs + [tx])[..|txs|] == txs;
  }

  // ---------------------------------------------------------------------------
  // Reconciliation by transaction type (what the service guarantees)

  /** The role the service pairs with each transaction type. */
  function RoleOf(kind: TransactionType): Role {
    match kind
    case Deposit => Credit
    case TransferIn => Credit
    case Withdrawal => Debit
    case TransferOut => Debit
  }

  /** The total amount of the transactions of `txs` whose type is in `kinds`. */
  function TotalOfKinds(txs: seq<Transaction>, kinds: set<TransactionType>): real
    decreases |txs|
  {
    if txs == [] then 0.0
    else TotalOfKinds(txs[1..], kinds) + (if txs[0].kind in kinds then AmountOf(txs[0]) else 0.0)
  }

  const CreditKinds: set<TransactionType> := {Deposit, TransferIn}
  const DebitKinds: set<TransactionType> := {Withdrawal, TransferOut}

  /** What a history says the balance is: all deposits and incoming transfers
      minus all withdrawals and outgoing transfers. */
  function NetOfHistory(txs: seq<Transaction>): real {
    TotalOfKinds(txs, CreditKinds) - TotalOfKinds(txs, DebitKinds)
  }

  /** Totals by type distribute over concatenation. */
  lemma {:induction false} TotalOfKindsAppend(a: seq<Transaction>, b: seq<Transaction>, kinds: set<TransactionType>)
    ensures TotalOfKinds(a + b, kinds) == TotalOfKinds(a, kinds) + TotalOfKinds(b, kinds)
    decreases |a|
  {
    if a == [] {
      assert a + b == b;
    } else {
      assert (a + b)[1..] == a[1..] + b;
      TotalOfKindsAppend(a[1..], b, kinds);
    }
  }

  /** When every role agrees with its transaction's type, the role-signed sum
      is the by-type net of the history. */
  lemma {:induction false} RoleSumByType(roles: seq<Role>, txs: seq<Transaction>)
    requires |roles| == |txs|
    requires forall i :: 0 <= i < |txs| ==> roles[i] == RoleOf(txs[i].kind)
    ensures RoleSum(roles, txs) == NetOfHistory(txs)
    decreases |txs|
  {
    if txs != [] {
      var n := |txs| - 1;
      var init, last := txs[..n], txs[n];
      RoleSumByType(roles[..n], init);
      assert txs == init + [last];
      TotalOfKindsAppend(init, [last], CreditKinds);
      TotalOfKindsAppend(init, [last], DebitKinds);
      assert [last][1..] == [];
    }
  }
}
