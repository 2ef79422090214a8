# Ledger engine of the Java banking system, modelled in Dafny

The model covers the two classes that hold all of the system's behaviour:

- `Account`: a balance and an append-only transaction history. Its two mutators, `deposit` and `withdraw`, validate before they mutate.
- `BankService`: keeps customers and accounts in two in-memory maps. It looks entities up, builds typed transactions and applies them to the stored accounts. `transfer` debits one account and only then credits the other.

Files and modules:

- `wrappers.dfy` (`Wrappers`): `Option`, `Result` and `Outcome`. These replace Java `null` and the exceptions the source throws.
- `ids.dfy` (`Ids`): the identifier format `PREFIX-XXXXXXXXXX`, with ten upper-case hex digits after the dash. It includes lemmas that identifiers from different namespaces never collide.
- `domain.dfy` (`Domain`): the value types, which are `Customer`, `Transaction`, `AccountType`, `TransactionType` and the error kinds `NotFound`, `InvalidAmount`, `InsufficientFunds` and `InvalidArgument`. It also holds the signed sums over a history that the reconciliation invariant is stated with, and the lemmas about them.
- `account.dfy` (`Accounts`): class `Account`. It has a ghost `roles` sequence that records whether each successful call was a credit or a debit. `Valid()` says four things:
  - every recorded amount is positive;
  - the history has one role per transaction;
  - the balance equals the role-signed sum of the history;
  - the balance is not negative.
- `bank_service.dfy` (`Services`): class `BankService`. `Valid()` says four things:
  - every customer is stored under its own id;
  - every stored account is stored under its own number and belongs to a known customer;
  - every stored account keeps its own invariant and recorded each transaction with the role its type implies (DEPOSIT and TRANSFER_IN as credits, WITHDRAWAL and TRANSFER_OUT as debits);
  - distinct numbers hold distinct account objects.

  From this, `Reconciliation` derives the by-type reconciliation: balance = Σ DEPOSIT + Σ TRANSFER_IN − Σ WITHDRAWAL − Σ TRANSFER_OUT.

  `Deposit`, `Withdraw` and `Transfer` may modify only the accounts currently in the map (`accounts.Values`). An account object that a colliding number displaced from the map is never touched again, as in the Java code (`Scenario.CollidingNumberFlow`).
- `scenario.dfy` (`Scenario`): client methods, in stages, that replay two kinds of flow.
  - The console demo of `App.java`: Alice and Bob, 500.00 deposited, 150.00 withdrawn, 200.00 transferred, then a refused withdrawal of 1000.00.
  - The unit-test flows:
    - creating a customer;
    - deposit then withdraw, and an overdraft that is refused;
    - a transfer of 125.50 out of 300.00;
    - rejected amounts;
    - a transfer to the same account;
    - unknown identifiers.

Modelling choices:

- Amounts are `real`. `BigDecimal` addition, subtraction and comparison are exact, and so is `real` arithmetic. A `null` amount is `None`.
- The random part of each generated identifier is a parameter (`idSuffix`, `txSuffix`, `outSuffix`, `inSuffix`), constrained to what the generator can produce. The same holds for every clock reading (`now`, `outAt`, `inAt`).
- The code does not check that a generated identifier is fresh. `HashMap.put` silently replaces an entry whose key collides, and the model does the same: `CreateCustomer` and `OpenAccount` state the new map as `old(map)[id := value]`.
- A thrown exception becomes a returned `Fail`/`Failure` value. Every method states that nothing changed on each failure path.
- `InvalidAmount` carries no value. The exception's message has none (src/main/java/com/francis/banking/domain/Account.java:73).
- `NotFound` carries the entity kind and the identifier, as the messages at src/main/java/com/francis/banking/services/BankService.java:100 and :106 do.
- Identifier uniqueness is not assumed. `IdGenerator.newId` does not check it, and `HashMap.put` overwrites.

## Model

| member | source | states |
|---|---|---|
| `Ids.NewId` | src/main/java/com/francis/banking/util/IdGenerator.java:9-13 | an identifier is the prefix, a dash and the ten-character random part, and is 11 characters longer than the prefix |
| `Ids.NewIdInjective` | src/main/java/com/francis/banking/util/IdGenerator.java:9-13 | within one prefix, two identifiers are equal exactly when their random parts are equal |
| `Ids.PrefixesSeparateNamespaces` | src/main/java/com/francis/banking/util/IdGenerator.java:9-13 | two different dash-free prefixes never yield the same identifier, whatever the random parts |
| `Ids.NamespacesDisjoint` | src/main/java/com/francis/banking/services/BankService.java:18-36 | customer ("CUS"), account ("ACC") and transaction ("TX") identifiers never coincide |
| `Domain.AppendRecord` | src/main/java/com/francis/banking/domain/Account.java:54-69 | appending one record with its role extends the role-signed sum of the history by exactly that signed amount |
| `Domain.TotalOfKindsAppend` | src/main/java/com/francis/banking/domain/Account.java:57-68 | per-type totals of a history distribute over concatenation (append-only history) |
| `Domain.RoleSumByType` | src/main/java/com/francis/banking/services/BankService.java:33-84 | when each call's credit/debit role matches the type the service gave its transaction, the role-signed sum equals deposits + incoming transfers − withdrawals − outgoing transfers |
| `Accounts.ValidateAmount` | src/main/java/com/francis/banking/domain/Account.java:71-75 | validation passes exactly when the amount is present and strictly positive, and otherwise fails with InvalidAmount |
| `Accounts.DebitOutcome` | src/main/java/com/francis/banking/domain/Account.java:60-66 | a debit passes exactly when the amount is valid and at most the balance; otherwise it fails with InvalidAmount, or with InsufficientFunds(balance, requested); a passing debit leaves a balance that is non-negative and strictly smaller |
| `Accounts.Account.constructor` | src/main/java/com/francis/banking/domain/Account.java:22-28 | a new account keeps its number, customer, type and opening time, has balance 0 and an empty history, and satisfies the account invariant |
| `Accounts.Account.Balance` | src/main/java/com/francis/banking/domain/Account.java:46-48 | the balance is never negative and equals the signed sum of the history |
| `Accounts.Account.History` | src/main/java/com/francis/banking/domain/Account.java:50-52 | the history returned is exactly the recorded transactions, in insertion order; it reconciles with the balance and every amount in it is positive |
| `Accounts.Account.Deposit` | src/main/java/com/francis/banking/domain/Account.java:54-58 | a valid amount adds exactly the amount and appends exactly the given transaction as a credit; an invalid or absent one fails with InvalidAmount and leaves the account unchanged; the invariant is kept |
| `Accounts.Account.Withdraw` | src/main/java/com/francis/banking/domain/Account.java:60-69 | the outcome is the debit decision on the old balance; on success it subtracts exactly the amount and appends exactly the given transaction as a debit; on InvalidAmount or InsufficientFunds the account is unchanged; the invariant, including balance ≥ 0, is kept |
| `Services.BankService.constructor` | src/main/java/com/francis/banking/services/BankService.java:14-15 | a new service has empty customer and account maps and satisfies the service invariant |
| `Services.BankService.RequireCustomer` | src/main/java/com/francis/banking/services/BankService.java:98-102 | succeeds exactly for a stored customer id and returns the customer stored under it; otherwise fails with NotFound(customer, id) |
| `Services.BankService.RequireAccount` | src/main/java/com/francis/banking/services/BankService.java:104-108 | succeeds exactly for a stored account number and returns that account, which carries the same number and is valid; otherwise fails with NotFound(account, number) |
| `Services.BankService.GetCustomer` | src/main/java/com/francis/banking/services/BankService.java:94-96 | succeeds exactly for a known id and returns the customer stored under it (so the name, email and time given at creation), which carries that id; otherwise fails with NotFound |
| `Services.BankService.GetAccount` | src/main/java/com/francis/banking/services/BankService.java:86-88 | succeeds exactly for a known number and returns the stored account object itself, which carries that number and is valid; otherwise fails with NotFound |
| `Services.BankService.GetTransactions` | src/main/java/com/francis/banking/services/BankService.java:90-92 | for a known number, returns that account's history, which reconciles by type with its balance and has only positive amounts; otherwise fails with NotFound |
| `Services.BankService.Reconciliation` | src/main/java/com/francis/banking/services/BankService.java:33-84 | for every stored account, balance = Σ DEPOSIT + Σ TRANSFER_IN − Σ WITHDRAWAL − Σ TRANSFER_OUT over its history, and that net is not negative |
| `Services.BankService.StoreInvariantKept` | src/main/java/com/francis/banking/services/BankService.java:42-83 | a call that changes only the named stored accounts, each still valid and typed correctly, keeps the service invariant |
| `Services.BankService.CreateCustomer` | src/main/java/com/francis/banking/services/BankService.java:17-22 | always succeeds; returns the customer with id "CUS-" + random part and the given name, email and time; stores it under that id; changes no account |
| `Services.BankService.OpenAccount` | src/main/java/com/francis/banking/services/BankService.java:24-31 | with an unknown customer: fails with NotFound and adds no account; otherwise returns "ACC-" + random part and stores under it a fresh zero-balance, empty account with the given customer, type and time, leaving every other entry of the map as it was |
| `Services.BankService.Deposit` | src/main/java/com/francis/banking/services/BankService.java:33-43 | with an unknown number: fails with NotFound and changes nothing; otherwise the outcome is the amount check, and on success the account gains exactly the amount and one DEPOSIT record "Deposit into " + number; every other account is unchanged |
| `Services.BankService.Withdraw` | src/main/java/com/francis/banking/services/BankService.java:45-55 | with an unknown number: fails with NotFound and changes nothing; otherwise the outcome is the debit decision on the old balance, and on success the account loses exactly the amount and gains one WITHDRAWAL record "Withdraw from " + number; every other account is unchanged |
| `Services.DebitThenCredit` | src/main/java/com/francis/banking/services/BankService.java:81-83 | the outcome is the source's debit decision; the destination is credited only after a successful debit, and that credit cannot fail; on failure neither account changes |
| `Services.BankService.Transfer` | src/main/java/com/francis/banking/services/BankService.java:57-84 | the checks run in this order: (1) equal numbers fail with InvalidArgument even when unknown; (2) an unknown source, then an unknown destination, fail with NotFound; (3) otherwise the outcome is the source's debit decision. On success the source loses and the destination gains exactly the amount, their sum is unchanged, and they gain one TRANSFER_OUT "Transfer to " + destination and one TRANSFER_IN "Transfer from " + source. On any failure, and for every other account, nothing changes |

## Left out

- The printing of `App.java` (the console demo) is not modelled. Its sequence of service calls is replayed in `Scenario.Demo*`.
- The randomness of identifier generation (a random UUID, upper-cased and cut to ten characters) is not modelled. The random part is an input of each operation that draws an identifier.
- `Instant.now()` is not modelled. Each clock reading is an input of type `Instant`, an opaque integer.
- `toString` and the texts of exception messages are not modelled. Errors are reduced to their kind plus the data the messages mention: the identifier for NotFound, the balance and requested amount for InsufficientFunds.
- The exception class hierarchy is not modelled. It becomes the `Error` datatype.
- `BigDecimal` scale (so `0` versus `0.00`) is not modelled. Amounts are exact real numbers.
- Concurrency and locking are not modelled. The source is single-threaded over plain `HashMap`s and has no locking discipline.
- The accessors `getAccountNumber`, `getCustomerId`, `getType` and `getOpenedAt` are not separate members. They are the immutable `const` fields of `Account`.
- `Services.BankService.GetAccount`, `Services.BankService.RequireAccount`: Java hands callers the live `Account` object, and the model returns the same object reference. The model does not track what callers outside the service do with it. Within the model the service is the only caller of its mutators, so its invariant is stated on that basis.
- Null `String` and `AccountType` arguments are not modelled. Dafny strings and datatypes cannot be null, and only a null amount is represented (`None`). In Java, `transfer(null, …)` throws a `NullPointerException` at the equality test before any error kind arises. `deposit(null, …)`, `withdraw(null, …)` and `getAccount(null)` report NotFound. `createCustomer` and `openAccount` store null names, emails and types.
- `Accounts.Account.History`: Java's `getTransactions` returns a read-only live view of the account's list, which shows transactions appended later. The model returns the sequence as it is at the call, a snapshot. `Services.BankService.GetTransactions` has the same difference.
