/**
 * Clients of the service that replay the console demo and the unit-test
 * flows as verified code, each long flow split into stages whose ensures
 * carry the state forward.
 */
module Scenario {
  import opened Wrappers
  import opened Ids
  import opened Domain
  import opened Accounts
  import opened Services

  /** A new service with one customer and one empty account for them. */
  method OneAccount(accountType: AccountType) returns (bank: BankService, c: Customer, acc: string)
    ensures fresh(bank) && fresh(bank.Repr) && bank.Valid()
    ensures bank.customers == map[c.id := c] && |c.id| == 14
    ensures bank.accounts.Keys == {acc} && acc == NewId(AccountPrefix, "0000000A01")
    ensures bank.accounts[acc].balance == 0.0 && bank.accounts[acc].transactions == []
  {
    bank := new BankService();
    c := bank.CreateCustomer("Test User", "test@example.com", "0000000C01", 0);
    var outcome := bank.OpenAccount(c.id, accountType, "0000000A01", 0);
    acc := outcome.value;
  }

  /** A created customer carries a "CUS-" id and is found again under it
      with the same name and email. */
  method CreateCustomerFlow() {
    var bank := new BankService();
    var c := bank.CreateCustomer("Francis Prah", "francis@example.com", "0000000C01", 0);
    assert c.id[..4] == "CUS-";
    assert bank.GetCustomer(c.id) == Success(c);
    assert c.name == "Francis Prah" && c.email == "francis@example.com";
  }

  /** One customer with a current and a savings account, both empty. */
  method TwoAccounts() returns (bank: BankService, from: string, to: string)
    ensures fresh(bank) && fresh(bank.Repr) && bank.Valid()
    ensures from != to && from in bank.accounts && to in bank.accounts
    ensures bank.accounts[from].balance == 0.0 && bank.accounts[to].balance == 0.0
    ensures bank.accounts[from].transactions == [] && bank.accounts[to].transactions == []
  {
    bank := new BankService();
    var c := bank.CreateCustomer("Test User", "test@example.com", "00000000C1", 0);
    var outcome := bank.OpenAccount(c.id, Current, "00000000A1", 1);
    from := outcome.value;
    outcome := bank.OpenAccount(c.id, Savings, "00000000A2", 1);
    to := outcome.value;
    NewIdInjective(AccountPrefix, "00000000A1", "00000000A2");
  }

  /** The two accounts after a deposit of 300.00 into the first. */
  method FundedPair() returns (bank: BankService, from: string, to: string)
    ensures fresh(bank) && fresh(bank.Repr) && bank.Valid()
    ensures from != to && from in bank.accounts && to in bank.accounts
    ensures bank.accounts[from].balance == 300.0 && |bank.accounts[from].transactions| == 1
    ensures bank.accounts[to].balance == 0.0 && bank.accounts[to].transactions == []
  {
    bank, from, to := TwoAccounts();
    var r := bank.Deposit(from, Some(300.0), "00000000D1", 2);
  }

  /** Transfer 125.50 out of 300.00: the source keeps 174.50 over two
      records, the destination receives 125.50 in one TRANSFER_IN record. */
  method TransferFlow() {
    var bank, from, to := FundedPair();
    var a, b := bank.accounts[from], bank.accounts[to];
    var r := bank.Transfer(from, to, Some(125.5), "00000000D2", "00000000D3", 3, 3);
    assert r == Pass;
    assert a.balance == 174.5 && |a.transactions| == 2;
    assert b.balance == 125.5 && |b.transactions| == 1 && b.transactions[0].kind == TransferIn;
  }

  /** One account after a single deposit of `amount`. */
  method OneFunded(amount: real) returns (bank: BankService, acc: string)
    requires amount > 0.0
    ensures fresh(bank) && fresh(bank.Repr) && bank.Valid()
    ensures acc in bank.accounts
    ensures bank.accounts[acc].balance == amount && |bank.accounts[acc].transactions| == 1
  {
    var c;
    bank, c, acc := OneAccount(Current);
    var r := bank.Deposit(acc, Some(amount), "00000000D1", 1);
  }

  /** Deposit 200.00 and withdraw 50.00, leaving 150.00 over two records. */
  method WithdrawFlow() returns (bank: BankService, acc: string)
    ensures fresh(bank) && fresh(bank.Repr) && bank.Valid()
    ensures acc in bank.accounts
    ensures bank.accounts[acc].balance == 150.0 && |bank.accounts[acc].transactions| == 2
  {
    bank, acc := OneFunded(200.0);
    var r := bank.Withdraw(acc, Some(50.0), "00000000D2", 2);
  }

  /** A withdrawal of 1000.00 from 150.00 fails with the balance and the
      request, and leaves the account as it was. */
  method OverdraftFlow() {
    var bank, acc := WithdrawFlow();
    var a := bank.accounts[acc];
    var r := bank.Withdraw(acc, Some(1000.0), "00000000D3", 3);
    assert r == Fail(InsufficientFunds(150.0, 1000.0));
    assert a.balance == 150.0 && |a.transactions| == 2;
  }

  /** A second account drawn with a colliding number displaces the first
      from the map, as `HashMap.put` does; a deposit under that number then
      reaches only the new account and leaves the displaced one as it was. */
  method CollidingNumberFlow() {
    var bank, c, acc := OneAccount(Current);
    var first := bank.accounts[acc];
    var outcome := bank.OpenAccount(c.id, Savings, "0000000A01", 1);
    assert outcome == Success(acc) && bank.accounts[acc] != first;
    var r := bank.Deposit(acc, Some(10.0), "0000000D08", 2);
    assert r == Pass && bank.accounts[acc].balance == 10.0;
    assert first.balance == 0.0 && first.transactions == [];
  }

  /** Zero, negative and absent amounts are rejected and change nothing. */
  method InvalidAmountFlow() {
    var bank, c, acc := OneAccount(Savings);
    var a := bank.accounts[acc];
    var r := bank.Deposit(acc, Some(0.0), "0000000D01", 1);
    assert r == Fail(InvalidAmount);
    r := bank.Deposit(acc, Some(-1.0), "0000000D02", 1);
    assert r == Fail(InvalidAmount);
    r := bank.Withdraw(acc, None, "0000000D03", 1);
    assert r == Fail(InvalidAmount);
    assert a.balance == 0.0 && a.transactions == [];
  }

  /** A transfer from an account to itself is rejected whatever the funds. */
  method SameAccountFlow() {
    var bank, acc := OneFunded(100.0);
    var r := bank.Transfer(acc, acc, Some(10.0), "0000000D05", "0000000D06", 3, 3);
    assert r == Fail(InvalidArgument);
    assert bank.accounts[acc].balance == 100.0;
  }

  /** Identifiers that were never issued are reported as NotFound. */
  method UnknownIdsFlow() {
    var bank, c, acc := OneAccount(Current);
    var unknownAccount, unknownCustomer := "ACC-DOESNOTEXIST", "CUS-DOESNOTEXIST";
    assert unknownAccount !in bank.accounts && unknownCustomer !in bank.customers;
    assert bank.GetCustomer(unknownCustomer) == Failure(NotFound(CustomerEntity, unknownCustomer));
    assert bank.GetAccount(unknownAccount) == Failure(NotFound(AccountEntity, unknownAccount));
    var r := bank.Deposit(unknownAccount, Some(10.0), "0000000D07", 4);
    assert r == Fail(NotFound(AccountEntity, unknownAccount));
    var none := bank.OpenAccount(unknownCustomer, Current, "0000000A02", 5);
    assert none == Failure(NotFound(CustomerEntity, unknownCustomer));
  }

  // The flow of the console demo: two customers with a current account
  // each, 500.00 in, 150.00 out, 200.00 across, then a refused overdraft.

  /** A new service with the customers Alice and Bob and no accounts. */
  method DemoCustomers() returns (bank: BankService, a: Customer, b: Customer)
    ensures fresh(bank) && bank.Repr == {} && bank.Valid()
    ensures a.id in bank.customers && b.id in bank.customers && bank.accounts == map[]
  {
    bank := new BankService();
    a := bank.CreateCustomer("Alice", "alice@example.com", "00000000C1", 0);
    b := bank.CreateCustomer("Bob", "bob@example.com", "00000000C2", 0);
  }

  /** Alice and Bob, each with an empty current account. */
  method DemoAccounts() returns (bank: BankService, alice: string, bob: string)
    ensures fresh(bank) && fresh(bank.Repr) && bank.Valid()
    ensures alice != bob && alice in bank.accounts && bob in bank.accounts
    ensures bank.accounts[alice].balance == 0.0 && bank.accounts[bob].balance == 0.0
    ensures bank.accounts[alice].transactions == [] && bank.accounts[bob].transactions == []
  {
    var a, b;
    bank, a, b := DemoCustomers();
    var outcome := bank.OpenAccount(a.id, Current, "00000000A1", 1);
    alice := outcome.value;
    outcome := bank.OpenAccount(b.id, Current, "00000000A2", 1);
    bob := outcome.value;
    NewIdInjective(AccountPrefix, "00000000A1", "00000000A2");
  }

  /** After depositing 500.00 into Alice's account. */
  method DemoDeposit() returns (bank: BankService, alice: string, bob: string)
    ensures fresh(bank) && fresh(bank.Repr) && bank.Valid()
    ensures alice != bob && alice in bank.accounts && bob in bank.accounts
    ensures bank.accounts[alice].balance == 500.0 && |bank.accounts[alice].transactions| == 1
    ensures bank.accounts[bob].balance == 0.0 && bank.accounts[bob].transactions == []
  {
    bank, alice, bob := DemoAccounts();
    var r := bank.Deposit(alice, Some(500.0), "00000000D1", 2);
  }

  /** After withdrawing 150.00 from Alice's account. */
  method DemoWithdraw() returns (bank: BankService, alice: string, bob: string)
    ensures fresh(bank) && fresh(bank.Repr) && bank.Valid()
    ensures alice != bob && alice in bank.accounts && bob in bank.accounts
    ensures bank.accounts[alice].balance == 350.0 && |bank.accounts[alice].transactions| == 2
    ensures bank.accounts[bob].balance == 0.0 && bank.accounts[bob].transactions == []
  {
    bank, alice, bob := DemoDeposit();
    var r := bank.Withdraw(alice, Some(150.0), "00000000D2", 3);
  }

  /** After transferring 200.00 from Alice to Bob: 150.00 and 200.00. */
  method DemoTransfer() returns (bank: BankService, alice: string, bob: string)
    ensures fresh(bank) && fresh(bank.Repr) && bank.Valid()
    ensures alice in bank.accounts && bob in bank.accounts
    ensures bank.accounts[alice].balance == 150.0 && bank.accounts[bob].balance == 200.0
  {
    bank, alice, bob := DemoWithdraw();
    var r := bank.Transfer(alice, bob, Some(200.0), "00000000D3", "00000000D4", 4, 4);
  }

  /** The final balances read through the public lookup, and the refused
      withdrawal of 1000.00 that reports the balance and the request. */
  method DemoFlow() {
    var bank, alice, bob := DemoTransfer();
    assert bank.GetAccount(alice).value.balance == 150.0;
    assert bank.GetAccount(bob).value.balance == 200.0;
    var r := bank.Withdraw(alice, Some(1000.0), "00000000D5", 5);
    assert r == Fail(InsufficientFunds(150.0, 1000.0));
    assert bank.GetAccount(alice).value.balance == 150.0;
  }
}
