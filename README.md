# Verified model of the SOLID bank-account and shopping-cart demonstrations

The repository teaches the SOLID design principles with small Java
programs. Two of them hold state that changes: the bank accounts of the
Liskov-substitution demonstration and the shopping carts of the open/closed
and single-responsibility demonstrations. This project models both in Dafny
and proves what the code does with that state.

**Bank accounts.** Every account that keeps a balance follows the same two
guarded updates. `deposit(a)` adds `a` only when `a > 0`. `withdraw(a)`
subtracts `a` only when `0 < a <= balance`. Every other call leaves the
balance alone. These rules are defined once in module `Balance`
(`balance.dfy`). The module also proves that no sequence of calls can take a
non-negative balance below zero, and that deposits alone never lower a
balance.

The demonstration has two designs:

- **The design that follows Liskov substitution** (`lsp_followed.dfy`,
  module `LspFollowed`). It has a deposit-only capability, a withdrawable
  capability, and three account classes. Dafny has no interfaces here, so
  one class `Account` carries its kind. A call of `withdraw` on a
  fixed-deposit account does not compile in Java. In the model it does not
  verify: `Withdraw` requires a withdrawable kind. The `Client` takes two
  lists. `PerformFDTransactions` deposits 500 into each deposit-only
  account. `PerformDrawableTransactions` deposits 500 and then withdraws 200
  on each withdrawable account.
- **The design that violates it** (`lsp_violated.dfy`, module
  `LspViolated`). It has one `Account` interface with both operations. Its
  `FixedDepositAccount` keeps no balance, and its `withdraw` always throws
  UnsupportedOperationException. The interface is a datatype:
  `Holding(BalanceAccount)` for SavingsAccount and CurrentAccount, and
  `FixedDeposit(FixedDepositAccount)`. The exception is the result value
  `Unsupported`. Its clients are in `lsp_clients.dfy`, module `LspClients`:
  - `BanksClient` tests `instanceof` and skips the withdrawal of a fixed
    deposit.
  - `BankClient` withdraws from every account and catches the exception.
    Its loop is the loop of `LSPViolated.main`. That loop is modelled once,
    as `LspViolated.UseAccounts`.

**How a client loop is specified.** Each loop is proved against a ghost
function `Run`. `Run` gives the balances after the loop, keyed by account
object, and takes the accounts in list order. An object listed twice takes
two turns. Each loop also returns the sequence of per-account reports that
the source prints. The logs in the model are:

- `Receipt` and `Verdict` sequences in the followed design;
- `Log(handling, …)` for the two clients of the violated design.

Lemmas then give the promised properties:

- With distinct accounts, each account ends at the script's effect on its
  own starting balance. An account starting at `b >= 0` ends at `b + 300`.
- The try/catch loop attempts a withdrawal on every account. The attempt
  fails exactly on the fixed deposits, and every account still gets its
  turn.
- The guarded loop skips exactly the fixed deposits, and none of its
  attempts fails.
- The two clients end with the same balances. Their reports agree on every
  account that is not a fixed deposit.

**Shopping carts.** `Product` (`products.dfy`) is a name and a price, and
`Total` is the sum of the prices in list order. Each cart class keeps its
products in a sequence field:

- `OcpViolated.ShoppingCart` (`ocp_violated.dfy`);
- `SrpViolated.ShoppingCart` (`srp_violated.dfy`);
- `SrpFollowed.ShopCart` (`srp_followed.dfy`).

`AddProduct` appends in place and keeps the earlier products in order.
`CalculateTotal` is the source's accumulator loop, proved equal to `Total`.
The invoice printers and the savers return the products they would have
written, in order. They have no `modifies` clause, so Dafny guarantees that
they do not change the cart.

Balances and prices are Java `double` in the source. Here they are exact
`real` values. Every value the drivers use is an integer.

Two facts about the code shape what is proved:

- No account constructor checks its argument
  (src/design/principles/LSP/LSPFollowed.java:16-18,
  src/design/principles/LSP/LSPViolated.java:15-17), so an account can start
  with a negative balance. Non-negativity is therefore proved only from a
  non-negative start.
- `FixedDepositAccount` (src/design/principles/LSP/LSPViolated.java:68-71)
  has no field. Its constructor drops its argument, so the account keeps no
  balance at all.

Some classes exist twice in the source:

- `BanksClient` in src/design/principles/LSP/LSPWronglyHandled.java and the
  record in src/design/principles/LSP/BanksClient.java have the same loop.
  Both are modelled as `LspClients.BanksClient`.
- `Client` in src/design/principles/LSP/LSPFollowed.java and the record in
  src/design/principles/LSP/Client.java have the same two loops. The
  record's methods are named `processFDTransactions` and
  `processWithDrawableTransactions`. Both are modelled as
  `LspFollowed.Client`.

## Model

| member | source | states |
|---|---|---|
| `Balance.AfterDeposit` | src/design/principles/LSP/LSPFollowed.java:21-27 | a deposit never lowers the balance; it changes the balance iff the amount is positive, and then by exactly the amount; a non-negative balance stays non-negative |
| `Balance.AfterWithdrawal` | src/design/principles/LSP/LSPFollowed.java:31-37 | a withdrawal never raises the balance; it changes the balance iff `0 < amount <= balance`, and then lowers it by exactly the amount; a withdrawal that goes through never leaves a negative balance |
| `Balance.VerdictsReportChange` | src/design/principles/LSP/LSPFollowed.java:21-37 | a deposit or a withdrawal is answered "accepted" exactly when it changed the balance, and with the refusal message exactly when it left the balance alone |
| `Balance.Transact` | src/design/principles/LSP/Client.java:13-14 | deposit(500) then withdraw(200) adds 300 to every balance from -300 up (every non-negative balance included), and adds 500 below that, where the withdrawal is refused |
| `Balance.ReplayKeepsNonNegative` | src/design/principles/LSP/LSPFollowed.java:20-38 | from a non-negative balance, any sequence of deposit and withdraw calls ends non-negative |
| `Balance.DepositsNeverDecrease` | src/design/principles/LSP/LSPFollowed.java:69-85 | an account that offers only `deposit` (FDAccount) cannot lose money: any sequence of deposits ends at or above its start |
| `Balance.ScriptIsReplay` | src/design/principles/LSP/LSPFollowed.java:101-104 | the clients' script is the call sequence deposit(500), withdraw(200) |
| `LspFollowed.Account.constructor` | src/design/principles/LSP/LSPFollowed.java:16-18 | a new account holds exactly `initialBalance` |
| `LspFollowed.Account.Deposit` | src/design/principles/LSP/LSPFollowed.java:20-28 | the new balance is the old one plus a positive amount, and the old one unchanged otherwise; the deposit is answered "accepted" exactly when the balance changed, and "must be positive" otherwise; the same for SavingAccount, SalaryAccount and FDAccount (lines 48-56 and 76-84) |
| `LspFollowed.Account.Withdraw` | src/design/principles/LSP/LSPFollowed.java:30-38 | callable only on a withdrawable kind; the balance drops by exactly the amount iff `0 < amount <= balance`, and is unchanged otherwise; the withdrawal is answered "accepted" exactly when the balance changed, and "insufficient funds" otherwise |
| `LspFollowed.Account.TakeTurn` | src/design/principles/LSP/LSPFollowed.java:101-104 | one turn of the withdrawable loop, deposit(500) then withdraw(200): the balance ends at the script's effect on its start (+300 from -300 up), and the receipt is the one that start decides |
| `LspFollowed.RunElsewhere` | src/design/principles/LSP/LSPFollowed.java:96-105 | a client's loop changes no account that is not on its list |
| `LspFollowed.RunDistinct` | src/design/principles/LSP/LSPFollowed.java:100-105 | when each account is listed once, each ends at the script's effect on its own starting balance |
| `LspFollowed.TurnBalanceDistinct` | src/design/principles/LSP/LSPFollowed.java:100-105 | when each account is listed once, the balance an account holds when its turn comes is its starting balance: what happened to the others does not affect it |
| `LspFollowed.ReceiptsAt` | src/design/principles/LSP/LSPFollowed.java:100-105 | the `k`-th receipt of the withdrawable loop is decided by the balance account `k` held when its turn came |
| `LspFollowed.WithdrawableGainsThreeHundred` | src/design/principles/LSP/Client.java:11-16 | a withdrawable account listed once that starts at `b >= 0` ends at `b + 300` |
| `LspFollowed.DepositOnlyNeverLowers` | src/design/principles/LSP/Client.java:7-9 | the deposit-only loop never lowers any balance, however the list is made up |
| `LspFollowed.Client.constructor` | src/design/principles/LSP/LSPFollowed.java:91-94 | the client keeps the two lists it is given; the second holds only withdrawable accounts |
| `LspFollowed.Client.PerformFDTransactions` | src/design/principles/LSP/LSPFollowed.java:96-98 | deposit(500) on each deposit-only account in list order, all accepted; the balances are those of `Run` with the deposit-only script; no withdrawal is made |
| `LspFollowed.Client.PerformDrawableTransactions` | src/design/principles/LSP/LSPFollowed.java:100-105 | deposit(500) then withdraw(200) on each withdrawable account in list order; the balances are those of `Run`, the receipts are those of `Receipts`, and the `k`-th receipt is decided by the balance account `k` held when its turn came |
| `LspFollowed.FollowedScenario` | src/design/principles/LSP/LSPFollowed.java:109-126 | SavingAccount(1000) ends at 1300, SalaryAccount(2000) at 2300, FDAccount(1000) at 1500 |
| `LspViolated.BalanceAccount.constructor` | src/design/principles/LSP/LSPViolated.java:15-17 | a new SavingsAccount or CurrentAccount holds exactly `initialBalance` |
| `LspViolated.BalanceAccount.Deposit` | src/design/principles/LSP/LSPViolated.java:19-27 | a positive amount is added exactly; a non-positive amount changes nothing; the deposit is answered "accepted" exactly when the balance changed (CurrentAccount at lines 47-55 is identical) |
| `LspViolated.BalanceAccount.Withdraw` | src/design/principles/LSP/LSPViolated.java:29-37 | the balance changes iff `0 < amount <= balance`, and then by exactly `-amount`; the withdrawal is answered "accepted" exactly when the balance changed (CurrentAccount at lines 57-65 is identical) |
| `LspViolated.FixedDepositAccount.Deposit` | src/design/principles/LSP/LSPViolated.java:73-80 | answers "accepted" exactly for a positive amount, and changes no state |
| `LspViolated.FixedDepositAccount.Withdraw` | src/design/principles/LSP/LSPViolated.java:83-86 | fails with the unsupported-operation error for every amount |
| `LspViolated.Account.Deposit` | src/design/principles/LSP/LSPViolated.java:7-8 | a deposit through the interface updates a balance-keeping account by the deposit rule, and changes nothing for a fixed deposit |
| `LspViolated.Account.Withdraw` | src/design/principles/LSP/LSPViolated.java:7-10 | a withdrawal through the interface completes with the withdraw rule on a balance-keeping account, and fails as unsupported exactly on a fixed deposit |
| `LspViolated.CatchingTurn` | src/design/principles/LSP/LSPViolated.java:98-106 | one turn of the loop of `main`: a balance-keeping account ends at the script's effect on its start; the deposit is accepted and the withdrawal is attempted, failing as unsupported exactly on a fixed deposit, whose failure is caught |
| `LspViolated.ReportOf` | src/design/principles/LSP/LSPViolated.java:98-106 | each account's deposit of 500 is accepted; its withdrawal is skipped (guarded client) or fails as unsupported (catching client) exactly when it is a fixed deposit |
| `LspViolated.LogAt` | src/design/principles/LSP/LSPViolated.java:98-106 | the `k`-th report of a client loop depends only on the `k`-th account and the balance it held when its turn came |
| `LspViolated.CatchingLogFailsOnlyOnFixedDeposits` | src/design/principles/LSP/BankClient.java:8-16 | the try/catch loop gives a report for every account, attempts a withdrawal on every one, and the attempt fails exactly on fixed deposits |
| `LspViolated.GuardedLogNeverFails` | src/design/principles/LSP/LSPWronglyHandled.java:14-23 | the guarded loop skips the withdrawal exactly on fixed deposits, and none of its withdrawals fails as unsupported |
| `LspViolated.LogsAgreeOnHolders` | src/design/principles/LSP/BanksClient.java:7-16 | the guarded and the catching loop report the same for every account that is not a fixed deposit |
| `LspViolated.RunElsewhere` | src/design/principles/LSP/LSPViolated.java:98-106 | the loop changes no balance-keeping account that is not on its list |
| `LspViolated.RunDistinct` | src/design/principles/LSP/LSPViolated.java:98-106 | when each account is listed once, a balance-keeping account takes its turn from its own starting balance and ends at the script's effect on it |
| `LspViolated.HolderGainsThreeHundred` | src/design/principles/LSP/BankClient.java:10-12 | a withdrawable account listed once that starts at `b >= 0` ends at `b + 300` |
| `LspViolated.UseAccounts` | src/design/principles/LSP/LSPViolated.java:98-106 | the loop of `main`: the balances are those of `Run`, and the reports are the catching log (deposit, then a withdrawal attempt whose failure is caught and the loop goes on) |
| `LspViolated.ViolatedScenario` | src/design/principles/LSP/LSPViolated.java:90-107 | SavingsAccount(1000) ends at 1300 and CurrentAccount(2000) at 2300; the fixed deposit's withdrawal fails and is caught |
| `LspClients.GuardedTurn` | src/design/principles/LSP/LSPWronglyHandled.java:14-23 | one turn of the guarded loop: a fixed deposit gets only the deposit and its withdrawal is skipped; any other account ends at the script's effect on its start and its withdrawal completes |
| `LspClients.BanksClient.constructor` | src/design/principles/LSP/LSPWronglyHandled.java:8-10 | the client keeps the list it is given |
| `LspClients.BanksClient.PerformTransactions` | src/design/principles/LSP/LSPWronglyHandled.java:13-24 | deposit(500) on every account in list order, withdraw(200) only on accounts that are not fixed deposits; the balances are those of `Run`, and the reports are the guarded log |
| `LspClients.BankClient.constructor` | src/design/principles/LSP/BankClient.java:5 | the client keeps the list it is given |
| `LspClients.BankClient.PerformTransactions` | src/design/principles/LSP/BankClient.java:7-17 | deposit(500) then a withdraw(200) attempt inside try/catch on every account in list order; the balances are those of `Run`, the same as under BanksClient, and the reports are the catching log |
| `LspClients.WronglyHandledScenario` | src/design/principles/LSP/LSPWronglyHandled.java:28-41 | SavingsAccount(1000) ends at 1300 and CurrentAccount(2000) at 2300; the fixed deposit's withdrawal is skipped and nothing fails |
| `Products.TotalConcat` | src/design/principles/ocp/OCPViolated.java:29-35 | the total of two lists joined is the sum of their totals |
| `Products.TotalAppend` | src/design/principles/ocp/OCPViolated.java:20-22 | appending a product raises the total by exactly its price |
| `OcpViolated.ShoppingCart.constructor` | src/design/principles/ocp/OCPViolated.java:18 | a new cart is empty |
| `OcpViolated.ShoppingCart.AddProduct` | src/design/principles/ocp/OCPViolated.java:20-22 | the product is appended at the end; earlier products keep their places and order; the total rises by its price |
| `OcpViolated.ShoppingCart.GetProducts` | src/design/principles/ocp/OCPViolated.java:24-26 | returns the cart's products in order |
| `OcpViolated.ShoppingCart.CalculateTotal` | src/design/principles/ocp/OCPViolated.java:29-35 | the result is the sum of the prices of the products, 0 for an empty cart; the cart is not changed |
| `OcpViolated.ShoppingCartPrinter.constructor` | src/design/principles/ocp/OCPViolated.java:41-43 | the printer refers to the cart it is given |
| `OcpViolated.ShoppingCartPrinter.PrintInvoice` | src/design/principles/ocp/OCPViolated.java:45-50 | one invoice line per product, in the cart's order; the cart is not changed |
| `OcpViolated.OcpScenario` | src/design/principles/ocp/OCPViolated.java:82-90 | the Laptop and Mouse cart is invoiced in that order and totals 52000 |
| `SrpViolated.ShoppingCart.constructor` | src/design/principles/srp/SRPViolated.java:12 | a new cart is empty |
| `SrpViolated.ShoppingCart.AddProduct` | src/design/principles/srp/SRPViolated.java:14-16 | the product is appended at the end; earlier products keep their places and order; the total rises by its price |
| `SrpViolated.ShoppingCart.GetProducts` | src/design/principles/srp/SRPViolated.java:18-20 | returns the cart's products in order |
| `SrpViolated.ShoppingCart.CalculateTotal` | src/design/principles/srp/SRPViolated.java:23-29 | the result is the sum of the prices of the products, 0 for an empty cart |
| `SrpViolated.ShoppingCart.PrintInvoice` | src/design/principles/srp/SRPViolated.java:32-38 | one line per product in insertion order, then the total; the cart is not changed |
| `SrpViolated.ShoppingCart.SaveToDatabase` | src/design/principles/srp/SRPViolated.java:41-44 | each product saved once, in order; the cart is not changed |
| `SrpViolated.SrpViolatedScenario` | src/design/principles/srp/SRPViolated.java:48-56 | the Laptop and Mouse cart is invoiced and saved in that order and totals 52000 |
| `SrpFollowed.ShopCart.constructor` | src/design/principles/srp/SRPFollowed.java:7 | a new cart is empty |
| `SrpFollowed.ShopCart.AddProduct` | src/design/principles/srp/SRPFollowed.java:9-11 | the product is appended at the end; existing entries are unchanged; the total rises by its price |
| `SrpFollowed.ShopCart.GetProducts` | src/design/principles/srp/SRPFollowed.java:13-15 | returns the cart's products in order |
| `SrpFollowed.ShopCart.CalculateTotal` | src/design/principles/srp/SRPFollowed.java:18-24 | the result is the sum of the prices of the products, 0 for an empty cart |
| `SrpFollowed.ShoppingCartPrinter.constructor` | src/design/principles/srp/SRPFollowed.java:27 | the printer refers to the cart it is given |
| `SrpFollowed.ShoppingCartPrinter.PrintInvoice` | src/design/principles/srp/SRPFollowed.java:28-33 | one line per product of the cart, in insertion order; the cart is not changed |
| `SrpFollowed.SaveProduct.constructor` | src/design/principles/srp/SRPFollowed.java:36 | the saver refers to the cart it is given |
| `SrpFollowed.SaveProduct.SaveToDb` | src/design/principles/srp/SRPFollowed.java:37-39 | every product of the cart saved once, in order; the cart is not changed |
| `SrpFollowed.SrpFollowedScenario` | src/design/principles/srp/SRPFollowed.java:43-56 | the Laptop and Mouse cart is invoiced and saved in that order and totals 52000 |

## Left out

- Console output. Every `System.out.println` is left out. The branch a
  message reports is returned as a value instead: a `Verdict`, an
  `Attempt`, a report, or the products an invoice or save lists. The
  message texts and number formatting are not modelled.
- Floating point. Balances and prices are exact reals, so `double`
  rounding is not modelled.
- Reflection. `getClass().getSimpleName()` only labels the printed output.
  It is not modelled.
- Java interface subtyping. Dafny traits are not used. In the followed
  design, the class kind stands in for the two interfaces, and `Withdraw`
  requires a withdrawable kind. Java's `List<DepositOnlyAccount>` may hold
  any account, and so may the model's deposit-only list.
- `LspFollowed.Client.constructor`: its precondition that the second list
  holds only withdrawable accounts is what `List<WithDrawableAccount>`
  enforces at compile time. Java has no run-time check for it.
- `LspViolated.FixedDepositAccount.constructor`: it has no fields to set,
  so its contract is empty. "It keeps no balance" is the shape of the class
  itself.
- `LspFollowed.Client`, `LspClients.BanksClient` and `LspClients.BankClient`
  hold their account lists as values (`const seq`). Java keeps a reference to
  the caller's `List`, so accounts the caller adds later would be processed
  by a later call. That aliasing is not modelled. The drivers build their
  lists with `List.of`, which cannot change afterwards.
- `GetProducts` returns the product sequence as a value. Java returns the
  live `ArrayList`, through which a caller could change the cart. No caller
  in the modelled files does.
- `Product` of the ocp package has public, non-final fields. It is
  modelled as an immutable value, because nothing assigns those fields
  after construction.
- `SaveProductToDB` in src/design/principles/ocp/OCPViolated.java:53-79 is
  not modelled. Its three methods only print each product, in the same
  read-only way as the modelled savers.
- The savers of src/design/principles/ocp/OCPFollowed.java only print.
  They implement an interface that is not defined in their package. The
  driver of that file supplies only the 52000 total checked by
  `OcpViolated.OcpScenario`.
- The shape demonstrations (ISP) are not modelled. `area` and `volume`
  only print a product of doubles, or throw.
- The persistence demonstrations (DIP) are not modelled. `save` only
  prints.
- The `main` drivers are kept only as the concrete scenario methods above.
