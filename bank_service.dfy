/**
 * The bank service: the customer directory and the account store, and the
 * operations that look entities up, build typed transactions and apply them
 * to the stored accounts.
 */
module Services {
  import opened Wrappers
  import opened Ids
  import opened Domain
  import opened Accounts

  /** Every role an account recorded agrees with the type of its transaction:
      the service pairs DEPOSIT and TRANSFER_IN with `Deposit`, WITHDRAWAL and
      TRANSFER_OUT with `Withdraw`. */
  ghost predicate RolesMatchTypes(a: Account)
    reads a
  {
    forall i :: 0 <= i < |a.roles| && i < |a.transactions| ==> a.roles[i] == RoleOf(a.transactions[i].kind)
  }

  /** The transaction a service deposit builds. */
  function DepositRecord(accountNumber: string, amount: Option<real>, txSuffix: string, now: Instant): Transaction
    requires IsGeneratedSuffix(txSuffix)
  {
    Transaction(NewId(TransactionPrefix, txSuffix), TransactionType.Deposit, amount, "Deposit into " + accountNumber, now)
  }

  /** The transaction a service withdrawal builds. */
  function WithdrawalRecord(accountNumber: string, amount: Option<real>, txSuffix: string, now: Instant): Transaction
    requires IsGeneratedSuffix(txSuffix)
  {
    Transaction(NewId(TransactionPrefix, txSuffix), Withdrawal, amount, "Withdraw from " + accountNumber, now)
  }

  /** The outgoing half of a transfer, recorded on the source account. */
  function TransferOutRecord(to: string, amount: Option<real>, txSuffix: string, now: Instant): Transaction
    requires IsGeneratedSuffix(txSuffix)
  {
    Transaction(NewId(TransactionPrefix, txSuffix), TransferOut, amount, "Transfer to " + to, now)
  }

  /** The incoming half of a transfer, recorded on the destination account. */
  function TransferInRecord(from: string, amount: Option<real>, txSuffix: string, now: Instant): Transaction
    requires IsGeneratedSuffix(txSuffix)
  {
    Transaction(NewId(TransactionPrefix, txSuffix), TransferIn, amount, "Transfer from " + from, now)
  }

  /** The effect of a successful transfer on its two accounts: the amount of
      the two records leaves `src` and arrives at `dst`, so the sum of the two
      balances is unchanged, and each account gains its one record. */
  twostate predicate Moved(src: Account, dst: Account, outgoing: Transaction, incoming: Transaction)
    reads src, dst
  {
    && outgoing.amount.Some?
    && src.balance == old(src.balance) - outgoing.amount.value
    && dst.balance == old(dst.balance) + outgoing.amount.value
    && src.balance + dst.balance == old(src.balance) + old(dst.balance)
    && src.transactions == old(src.transactions) + [outgoing]
    && dst.transactions == old(dst.transactions) + [incoming]
  }

  /** The two account mutations of a transfer, in the source's order: debit
      the source and, only if that succeeded, credit the destination with the
      same amount. The credit cannot fail once the debit has validated it. */
  method DebitThenCredit(src: Account, dst: Account, outgoing: Transaction, incoming: Transaction)
    returns (r: Outcome<Error>)
    requires src != dst
    requires src.Valid() && dst.Valid() && RolesMatchTypes(src) && RolesMatchTypes(dst)
    requires outgoing.kind == TransferOut && incoming.kind == TransferIn
    requires incoming.amount == outgoing.amount
    modifies src, dst
    ensures src.Valid() && dst.Valid() && RolesMatchTypes(src) && RolesMatchTypes(dst)
    ensures r == DebitOutcome(old(src.balance), outgoing.amount)
    ensures r == Pass ==> Moved(src, dst, outgoing, incoming)
    ensures r != Pass ==> unchanged(src, dst)
  {
    r := src.Withdraw(outgoing);
    if r.Fail? {
      return;
    }
    r := dst.Deposit(incoming);
  }

  class BankService {
    var customers: map<string, Customer>
    var accounts: map<string, Account>
    /** The account objects the service may change (every stored one). */
    ghost var Repr: set<Account>

    /** Every customer is stored under its own id. */
    ghost predicate DirectoryValid()
      reads this
    {
      forall id :: id in customers ==> customers[id].id == id
    }

    /** The service invariant: every stored account is stored under its own
        number, belongs to a known customer, keeps its own invariant and
        recorded each transaction with the role its type implies; distinct
        numbers hold distinct account objects. */
    ghost predicate Valid()
      reads this, Repr
    {
      && DirectoryValid()
      && (forall n :: n in accounts ==>
            && accounts[n] in Repr
            && accounts[n].accountNumber == n
            && accounts[n].customerId in customers
            && accounts[n].Valid()
            && RolesMatchTypes(accounts[n]))
      && (forall n, m :: n in accounts && m in accounts && n != m ==> accounts[n] != accounts[m])
    }

    constructor ()
      ensures Valid()
      ensures customers == map[] && accounts == map[] && Repr == {}
    {
      customers := map[];
      accounts := map[];
      Repr := {};
    }

    /** Look a customer up; an unknown id fails with NotFound. */
    function RequireCustomer(customerId: string): (r: Result<Customer, Error>)
      reads this
      requires DirectoryValid()
      ensures r.Success? <==> customerId in customers
      ensures r.Success? ==> r.value == customers[customerId] && r.value.id == customerId
      ensures r.Failure? ==> r.error == NotFound(CustomerEntity, customerId)
    {
      if customerId in customers then Success(customers[customerId])
      else Failure(NotFound(CustomerEntity, customerId))
    }

    /** Look an account up; an unknown number fails with NotFound. */
    function RequireAccount(accountNumber: string): (r: Result<Account, Error>)
      reads this, Repr
      requires Valid()
      ensures r.Success? <==> accountNumber in accounts
      ensures r.Success? ==> r.value == accounts[accountNumber] && r.value.accountNumber == accountNumber
      ensures r.Success? ==> r.value.Valid()
      ensures r.Failure? ==> r.error == NotFound(AccountEntity, accountNumber)
    {
      if accountNumber in accounts then Success(accounts[accountNumber])
      else Failure(NotFound(AccountEntity, accountNumber))
    }

    /** The public customer lookup: the stored customer itself. */
    function GetCustomer(customerId: string): (r: Result<Customer, Error>)
      reads this
      requires DirectoryValid()
      ensures r.Success? <==> customerId in customers
      ensures r.Success? ==> r.value == customers[customerId] && r.value.id == customerId
      ensures r.Failure? ==> r.error == NotFound(CustomerEntity, customerId)
    {
      RequireCustomer(customerId)
    }

    /** The public account lookup: the stored, live account object. */
    function GetAccount(accountNumber: string): (r: Result<Account, Error>)
      reads this, Repr
      requires Valid()
      ensures r.Success? <==> accountNumber in accounts
      ensures r.Success? ==> r.value == accounts[accountNumber]
      ensures r.Success? ==> r.value.accountNumber == accountNumber && r.value.Valid()
      ensures r.Failure? ==> r.error == NotFound(AccountEntity, accountNumber)
    {
      RequireAccount(accountNumber)
    }

    /** The history of a stored account, as an immutable value in insertion
        order; it reconciles by type with the account's balance. */
    function GetTransactions(accountNumber: string): (r: Result<seq<Transaction>, Error>)
      reads this, Repr
      requires Valid()
      ensures r.Success? <==> accountNumber in accounts
      ensures r.Success? ==> r.value == accounts[accountNumber].transactions
      ensures r.Success? ==> accounts[accountNumber].balance == NetOfHistory(r.value)
      ensures r.Success? ==> forall i :: 0 <= i < |r.value| ==> IsPositive(r.value[i].amount)
      ensures r.Failure? ==> r.error == NotFound(AccountEntity, accountNumber)
    {
      match RequireAccount(accountNumber)
      case Failure(e) => Failure(e)
      case Success(a) =>
        RoleSumByType(a.roles, a.transactions);
        Success(a.History())
    }

    /** Service-level reconciliation: the balance of every stored account is
        its deposits and incoming transfers minus its withdrawals and outgoing
        transfers, and is not negative. */
    lemma Reconciliation(accountNumber: string)
      requires Valid()
      requires accountNumber in accounts
      ensures accounts[accountNumber].balance == NetOfHistory(accounts[accountNumber].transactions)
      ensures NetOfHistory(accounts[accountNumber].transactions) >= 0.0
    {
      var a := accounts[accountNumber];
      RoleSumByType(a.roles, a.transactions);
    }

    /** The store invariant survives a call that changed only the accounts
        numbered in `changed`, each of which still keeps its own invariant. */
    twostate lemma StoreInvariantKept(changed: set<string>)
      requires old(Valid())
      requires accounts == old(accounts) && customers == old(customers) && Repr == old(Repr)
      requires forall n :: n in accounts && n !in changed ==> unchanged(accounts[n])
      requires forall n :: n in accounts && n in changed ==> accounts[n].Valid() && RolesMatchTypes(accounts[n])
      ensures Valid()
    {
      forall n | n in accounts && n !in changed
        ensures accounts[n].Valid() && RolesMatchTypes(accounts[n])
      {
        assert old(accounts[n].Valid() && RolesMatchTypes(accounts[n]));
      }
    }

    /** Store a new customer under a generated "CUS-" id. Always succeeds; a
        colliding id replaces the stored customer, as `HashMap.put` does. */
    method CreateCustomer(name: string, email: string, idSuffix: string, now: Instant) returns (c: Customer)
      requires Valid()
      requires IsGeneratedSuffix(idSuffix)
      modifies this
      ensures Valid()
      ensures c == Customer(NewId(CustomerPrefix, idSuffix), name, email, now)
      ensures customers == old(customers)[c.id := c]
      ensures accounts == old(accounts) && Repr == old(Repr)
    {
      var id := NewId(CustomerPrefix, idSuffix);
      c := Customer(id, name, email, now);
      customers := customers[id := c];
    }

    /** Open a zero-balance account for a known customer under a generated
        "ACC-" number; an unknown customer fails with NotFound and adds nothing. */
    method OpenAccount(customerId: string, accountType: AccountType, idSuffix: string, now: Instant)
      returns (r: Result<string, Error>)
      requires Valid()
      requires IsGeneratedSuffix(idSuffix)
      modifies this
      ensures Valid()
      ensures customers == old(customers) && fresh(Repr - old(Repr))
      ensures customerId !in customers ==>
                r == Failure(NotFound(CustomerEntity, customerId)) && accounts == old(accounts)
      ensures customerId in customers ==>
                && r == Success(NewId(AccountPrefix, idSuffix))
                && r.value in accounts
                && fresh(accounts[r.value])
                && accounts == old(accounts)[r.value := accounts[r.value]]
                && accounts[r.value].customerId == customerId
                && accounts[r.value].accountType == accountType
                && accounts[r.value].openedAt == now
                && accounts[r.value].balance == 0.0
                && accounts[r.value].transactions == []
    {
      var owner := RequireCustomer(customerId);
      if owner.Failure? {
        return Failure(owner.error);
      }
      var accountNumber := NewId(AccountPrefix, idSuffix);
      var account := new Account(accountNumber, customerId, accountType, now);
      accounts := accounts[accountNumber := account];
      Repr := Repr + {account};
      r := Success(accountNumber);
    }

    /** Deposit into a stored account: NotFound for an unknown number,
        otherwise the account's own outcome for a DEPOSIT record. Every
        other account, and the failing one, is left unchanged. */
    method Deposit(accountNumber: string, amount: Option<real>, txSuffix: string, now: Instant)
      returns (r: Outcome<Error>)
      requires Valid()
      requires IsGeneratedSuffix(txSuffix)
      modifies accounts.Values
      ensures Valid()
      ensures customers == old(customers) && accounts == old(accounts) && Repr == old(Repr)
      ensures accountNumber !in accounts ==> r == Fail(NotFound(AccountEntity, accountNumber))
      ensures accountNumber in accounts ==> r == ValidateAmount(amount)
      ensures r == Pass ==>
                && accountNumber in accounts
                && accounts[accountNumber].balance == old(accounts[accountNumber].balance) + amount.value
                && accounts[accountNumber].transactions ==
                   old(accounts[accountNumber].transactions) + [DepositRecord(accountNumber, amount, txSuffix, now)]
      ensures forall n :: n in accounts && (n != accountNumber || r != Pass) ==> unchanged(accounts[n])
    {
      var found := RequireAccount(accountNumber);
      if found.Failure? {
        return Fail(found.error);
      }
      var account := found.value;
      r := account.Deposit(DepositRecord(accountNumber, amount, txSuffix, now));
      StoreInvariantKept({accountNumber});
    }

    /** Withdraw from a stored account: NotFound for an unknown number,
        otherwise the account's own outcome for a WITHDRAWAL record. Every
        other account, and the failing one, is left unchanged. */
    method Withdraw(accountNumber: string, amount: Option<real>, txSuffix: string, now: Instant)
      returns (r: Outcome<Error>)
      requires Valid()
      requires IsGeneratedSuffix(txSuffix)
      modifies accounts.Values
      ensures Valid()
      ensures customers == old(customers) && accounts == old(accounts) && Repr == old(Repr)
      ensures accountNumber !in accounts ==> r == Fail(NotFound(AccountEntity, accountNumber))
      ensures accountNumber in accounts ==> r == DebitOutcome(old(accounts[accountNumber].balance), amount)
      ensures r == Pass ==>
                && accountNumber in accounts
                && accounts[accountNumber].balance == old(accounts[accountNumber].balance) - amount.value
                && accounts[accountNumber].transactions ==
                   old(accounts[accountNumber].transactions) + [WithdrawalRecord(accountNumber, amount, txSuffix, now)]
      ensures forall n :: n in accounts && (n != accountNumber || r != Pass) ==> unchanged(accounts[n])
    {
      var found := RequireAccount(accountNumber);
      if found.Failure? {
        return Fail(found.error);
      }
      var account := found.value;
      r := account.Withdraw(WithdrawalRecord(accountNumber, amount, txSuffix, now));
      StoreInvariantKept({accountNumber});
    }

    /** Move `amount` from one stored account to another: InvalidArgument when
        the two numbers are equal (before any lookup), NotFound for an unknown
        source and then for an unknown destination, otherwise the source's
        debit outcome. The destination is credited only after a successful
        debit; on any failure no account changes. */
    method Transfer(from: string, to: string, amount: Option<real>,
                    outSuffix: string, inSuffix: string, outAt: Instant, inAt: Instant)
      returns (r: Outcome<Error>)
      requires Valid()
      requires IsGeneratedSuffix(outSuffix) && IsGeneratedSuffix(inSuffix)
      modifies accounts.Values
      ensures Valid()
      ensures customers == old(customers) && accounts == old(accounts) && Repr == old(Repr)
      ensures from == to ==> r == Fail(InvalidArgument)
      ensures from != to && from !in accounts ==> r == Fail(NotFound(AccountEntity, from))
      ensures from != to && from in accounts && to !in accounts ==> r == Fail(NotFound(AccountEntity, to))
      ensures from != to && from in accounts && to in accounts ==>
                r == DebitOutcome(old(accounts[from].balance), amount)
      ensures r == Pass ==>
                && from != to && from in accounts && to in accounts
                && Moved(accounts[from], accounts[to],
                         TransferOutRecord(to, amount, outSuffix, outAt),
                         TransferInRecord(from, amount, inSuffix, inAt))
      ensures forall n :: n in accounts && (r != Pass || (n != from && n != to)) ==> unchanged(accounts[n])
    {
      if from == to {
        return Fail(InvalidArgument);
      }
      var source := RequireAccount(from);
      if source.Failure? {
        return Fail(source.error);
      }
      var target := RequireAccount(to);
      if target.Failure? {
        return Fail(target.error);
      }
      var outgoing := TransferOutRecord(to, amount, outSuffix, outAt);
      var incoming := TransferInRecord(from, amount, inSuffix, inAt);
      r := DebitThenCredit(source.value, target.value, outgoing, incoming);
      StoreInvariantKept({from, to});
    }
  }
}
