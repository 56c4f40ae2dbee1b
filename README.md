# quickbooks-clone core, modelled in Dafny

This project models the computational core of the quickbooks-clone
microservices and proves properties of that model. The core covers:

- the progressive income-tax calculator;
- the banking service: bank accounts, posting of bank transactions and
  reconciliation of a stored balance against the transaction history;
- the accounting service (balance sheet and income statement), the ledger
  service (accounts), the inventory service (items) and the transaction
  service (transactions);
- the payroll service (employees and monthly payroll records);
- the reporting service (report requests and their generation lifecycle);
- the data-quality service (field validation and the issue report);
- the user service (registration, lookup and the authentication decision).

It is laid out as one module per service component:

| file | module | models |
|---|---|---|
| `common.dfy` | `Common` | `Option`, `Result`, the database and Python errors the services can raise, timestamps and dates |
| `sqlupdate.dfy` | `SqlUpdate` | the hand-built partial `UPDATE ... SET ... WHERE id = %s;` statement shared by four services |
| `tax.dfy` | `TaxCalculator` | `tax_calculator.py` and the tax `utils.py` |
| `ledger.dfy` | `Ledger` | the ledger `utils.py` and `crud.py` (the `accounts` table) |
| `transactions.dfy` | `Transactions` | the transaction `utils.py` and `crud.py` (the `transactions` table) |
| `statements.dfy` | `Statements` | the accounting `utils.py` and `crud.py` (balance sheet, income statement) |
| `inventory.dfy` | `Inventory` | the inventory `utils.py` and `crud.py` (the `inventory_items` table) |
| `banking.dfy` | `Banking` | the banking `crud.py` and `utils.py` |
| `payroll.dfy` | `Payroll` | the payroll `utils.py` and `crud.py` |
| `reporting.dfy` | `Reporting` | the reporting `crud.py` and `utils.py` |
| `dataquality.dfy` | `DataQuality` | the data-quality `validators.py` and `utils.py` |
| `users.dfy` | `Users` | the user `crud.py` |

Modelling choices:

- **Tables are classes.** Each table the services change is a field of a
  class. The field is a `map` from id to row. A `nextId` counter stands
  for the `SERIAL` sequence. Banking keeps its transactions as a `seq`,
  because reconciliation reads them back in posting order.
- **Constraints become errors.** A `UNIQUE` constraint of the schema is
  enforced as a `UniqueViolation` failure that leaves the table unchanged;
  so is a `REFERENCES` constraint, as a `ForeignKeyViolation` failure. These
  constraints are also what make the by-name and by-email lookups
  well-defined.
- **Queries are functions.** A SQL query is a function over the rows.
- **Money is exact.** Amounts are `real`, with exact arithmetic.
- **Outside inputs are parameters.** The clock is a `now` parameter. Python's
  `float(str)` is a parameter returning `Option<real>`. The password check is a
  parameter. So is whether report generation fails.

Where the code falls short of what it evidently means to do, the model
follows the code and says so:

- **Posting a bank transaction always fails.** `create_bank_transaction`
  (banking-service `crud.py:70-97`) is written to insert the entry and then
  adjust the account's balance, but the module never imports `datetime`
  (see Findings). The corrected member models the intended posting.
- **The income statement raises when exactly one of its two sums is zero.**
  `generate_income_statement` (account-service `crud.py:42-74`) subtracts a
  `Decimal` sum from the float `0.0` that `or 0.0` substitutes for an empty
  or zero sum, or the reverse (see Findings). The corrected member models
  the intended statement.
- **The data-quality report raises for any stored issue.**
  `generate_data_quality_report` (data-quality-service `utils.py:38-74`)
  passes each row's `detected_at`, a `TIMESTAMP` column (`models.py:12`), to
  a schema field typed `str` (`schemas.py:32`), which rejects a `datetime`
  (see Findings). The corrected member reports the issues with their
  timestamps in text form.
- **Reconciliation and posting disagree after a non-zero opening balance.**
  Posting keeps the stored balance up to date by adding or subtracting each
  amount; reconciliation (banking-service `utils.py:11-44`) recounts it from
  zero over the account's transactions. An account can be opened with a
  balance, and reconciliation then discards it. The model tracks this
  opening offset, and `Banking.StoredBalance` proves the two agree exactly
  when the offset is zero.
- **Directions are not validated.** The schemas mark `transaction_type` as
  `'Debit' or 'Credit'` (banking-service `models.py:23`, account-service
  `models.py:23`, transaction-service `models.py:15`), and the transaction
  service has `validate_transaction_type`, but no create or update calls it.
  Banking treats every type other than `'Credit'` as a debit. No amount is
  checked for sign either.

## Model

| member | source | states |
|---|---|---|
| `TaxCalculator.TaxableIncome` | backend/services/tax-service/app/tax_calculator.py:18 | taxable income is never negative, is at least income minus deductions, is exactly one of 0 and income minus deductions, and is 0 when deductions cover income |
| `TaxCalculator.Cap` | backend/services/tax-service/app/tax_calculator.py:35 | `min(taxable_income, limit)`: never above the income, never above a finite limit, equal to one of them (the infinite limit never caps) |
| `TaxCalculator.BracketsWellFormed` | backend/services/tax-service/app/tax_calculator.py:22-30 | the fixed table can be walked: its finite limits are positive and strictly increasing, its last bracket is unbounded, and no rate is negative |
| `TaxCalculator.FloorFinite` | backend/services/tax-service/app/tax_calculator.py:32-37 | the lower limit of every bracket is finite and non-negative, and each bracket's upper limit lies above its lower one |
| `TaxCalculator.Slice` | backend/services/tax-service/app/tax_calculator.py:34-35 | the amount taxed in one bracket is never negative, and is 0 when the income does not exceed the bracket's lower limit |
| `TaxCalculator.SliceOf` | backend/services/tax-service/app/tax_calculator.py:34-35 | the slice of one bracket of a well-formed table is never negative |
| `TaxCalculator.SliceTaxMonotone` | backend/services/tax-service/app/tax_calculator.py:34-36 | the tax of one bracket never decreases as income grows |
| `TaxCalculator.NothingAboveIncome` | backend/services/tax-service/app/tax_calculator.py:34-39 | the brackets past the first one the income does not exceed add no tax, so the `break` changes nothing |
| `TaxCalculator.CoveredUpToFloor` | backend/services/tax-service/app/tax_calculator.py:32-37 | the slices of the first k brackets add up to the income capped at the k-th lower limit |
| `TaxCalculator.FullyCovered` | backend/services/tax-service/app/tax_calculator.py:22-37 | the slices of all brackets add up to exactly the taxable income: every unit of income is taxed once |
| `TaxCalculator.SliceTaxBetweenRates` | backend/services/tax-service/app/tax_calculator.py:36 | one bracket's tax lies between 10% and 37% of its slice |
| `TaxCalculator.PartialTaxBetweenRates` | backend/services/tax-service/app/tax_calculator.py:33-37 | the tax of the first k brackets lies between 10% and 37% of the income they cover |
| `TaxCalculator.MarginalTaxBounds` | backend/services/tax-service/app/tax_calculator.py:32-41 | over any well-formed table with rates in [0.10, 0.37], the marginal tax lies between 10% and 37% of the income |
| `TaxCalculator.IncomeTaxBounds` | backend/services/tax-service/app/tax_calculator.py:18-41 | the income tax lies between 10% and 37% of the taxable income, and is 0 for no taxable income |
| `TaxCalculator.PartialTaxMonotone` | backend/services/tax-service/app/tax_calculator.py:33-37 | the tax of the first k brackets never decreases as income grows |
| `TaxCalculator.IncomeTaxMonotone` | backend/services/tax-service/app/tax_calculator.py:32-41 | more taxable income never means less tax |
| `TaxCalculator.TaxMonotoneInIncomeAndDeductions` | backend/services/tax-service/app/tax_calculator.py:18-41 | tax is non-decreasing in income and non-increasing in deductions |
| `TaxCalculator.NoTaxWithoutTaxableIncome` | backend/services/tax-service/app/tax_calculator.py:18-41 | when deductions cover income, no tax is due |
| `TaxCalculator.IncomeTaxOf10000` | backend/services/tax-service/app/tax_calculator.py:22-41 | a taxable income of 10000 owes 1002.5 (987.5 at 10% plus 15 at 12%) |
| `TaxCalculator.IncomeTaxOf50000` | backend/services/tax-service/app/tax_calculator.py:22-41 | a taxable income of 50000 owes 6790.0 |
| `TaxCalculator.TaxByBrackets` | backend/services/tax-service/app/tax_calculator.py:32-41 | the bracket loop, with its early `break`, computes the marginal tax of the table |
| `TaxCalculator.CalculateIncomeTax` | backend/services/tax-service/app/tax_calculator.py:7-41 | `calculate_income_tax` returns the marginal tax of the clamped taxable income over the fixed table |
| `TaxCalculator.CalculateTax` | backend/services/tax-service/app/utils.py:13-28 | the result carries the clamped taxable income and its income tax, which lies between 10% and 37% of it |
| `TaxCalculator.CalculateTaxExample` | backend/services/tax-service/app/utils.py:23-28 | an income of 60000 with 10000 of deductions gives a taxable income of 50000 and 6790.0 of tax |
| `TaxCalculator.FileTaxReturn` | backend/services/tax-service/app/utils.py:42-53 | filing returns the simulated id 12345, status "Filed" and the filing time |
| `TaxCalculator.FileTaxReturnIgnoresFiling` | backend/services/tax-service/app/utils.py:42-53 | the filing result does not depend on the filing's contents |
| `SqlUpdate.Fields` | backend/services/ledger-service/app/crud.py:73-81 | one `column = %s` clause per assignment, in order |
| `SqlUpdate.Params` | backend/services/ledger-service/app/crud.py:73-82 | the parameters are the assigned values in order, followed by the row id |
| `SqlUpdate.UpdatePlaceholders` | backend/services/ledger-service/app/crud.py:82-83 | with placeholder-free names, the statement has exactly as many `%s` placeholders as it has parameters |
| `SqlUpdate.EmptySetList` | backend/services/ledger-service/app/crud.py:83 | with no assignment the statement reads `UPDATE <table> SET  WHERE id = %s;`, which is not valid SQL |
| `SqlUpdate.Emit` | backend/services/ledger-service/app/crud.py:73-81 | the request's non-None fields become assignments, never more of them than there are columns |
| `SqlUpdate.EmitEmpty` | backend/services/ledger-service/app/crud.py:73-81 | no assignment is emitted exactly when every field is None |
| `SqlUpdate.EmitInOrder` | backend/services/ledger-service/app/crud.py:73-81 | the emitted columns keep the order of the request's fields |
| `SqlUpdate.EmitPresent` | backend/services/ledger-service/app/crud.py:73-81 | a column is assigned exactly when its field is not None |
| `SqlUpdate.EmitOnlyColumns` | backend/services/ledger-service/app/crud.py:73-81 | only the request's own columns are ever assigned |
| `SqlUpdate.EmitPlaceholders` | backend/services/ledger-service/app/crud.py:73-83 | an emitted update has as many placeholders as parameters |
| `SqlUpdate.ApplyAllAppend` | backend/services/ledger-service/app/crud.py:83-84 | running two lists of assignments one after the other equals running their concatenation |
| `Ledger.CalculateBalance` | backend/services/ledger-service/app/utils.py:5-16 | the balance plus the credits equals the debits; it is zero exactly when they are equal, and positive exactly when the debits exceed the credits |
| `Ledger.BalanceAntisymmetric` | backend/services/ledger-service/app/utils.py:16 | swapping debits and credits negates the balance |
| `Ledger.AccountUpdateColumns` | backend/services/ledger-service/app/crud.py:73-81 | the SET list names `name`, `type` and `balance` in that order, each exactly when given, and is empty exactly when nothing is given |
| `Ledger.AccountUpdateEffect` | backend/services/ledger-service/app/crud.py:73-84 | running the assembled assignments on a row sets exactly the given fields and keeps the rest |
| `Ledger.AccountUpdateWellFormed` | backend/services/ledger-service/app/crud.py:82-83 | the statement's placeholders match its parameters, and the last parameter is the account id |
| `Ledger.BuildAccountUpdate` | backend/services/ledger-service/app/crud.py:71-82 | the loop-free builder produces exactly the clause and parameter lists of the assignments |
| `Ledger.AccountTable.GetAccount` | backend/services/ledger-service/app/crud.py:11-27 | the row with that id, or None exactly when there is none |
| `Ledger.AccountTable.GetAccountByName` | backend/services/ledger-service/app/crud.py:30-46 | the row with that name, or None exactly when no row has it |
| `Ledger.AccountTable.CreateAccount` | backend/services/ledger-service/app/crud.py:49-63 | a taken name fails with a unique violation and changes nothing; otherwise the fields are stored under the next id and returned |
| `Ledger.AccountTable.UpdateAccount` | backend/services/ledger-service/app/crud.py:66-87 | an empty SET list fails and changes nothing; a missing id changes nothing and reads back None; a name held by another row fails; otherwise the row is patched and read back |
| `Ledger.AccountTable.DeleteAccount` | backend/services/ledger-service/app/crud.py:90-99 | removes the row and reports whether it existed |
| `Transactions.ValidateTransactionType` | backend/services/transaction-service/app/utils.py:5-15 | valid exactly for "Debit" and "Credit" |
| `Transactions.ValidateTransactionTypeExamples` | backend/services/transaction-service/app/utils.py:15 | the check is case-sensitive and rejects the empty string |
| `Transactions.TransactionUpdateColumns` | backend/services/transaction-service/app/crud.py:66-77 | the SET list names `description`, `amount`, `account_id` and `transaction_type` in that order, each exactly when given, and is empty exactly when nothing is given |
| `Transactions.TransactionUpdateEffect` | backend/services/transaction-service/app/crud.py:66-80 | running the assembled assignments sets exactly the given fields |
| `Transactions.TransactionUpdateWellFormed` | backend/services/transaction-service/app/crud.py:78-79 | placeholders match parameters, and the last parameter is the transaction id |
| `Transactions.BuildTransactionUpdate` | backend/services/transaction-service/app/crud.py:64-78 | the builder produces exactly the clause and parameter lists of the assignments |
| `Transactions.TransactionTable.GetTransaction` | backend/services/transaction-service/app/crud.py:35-56 | the row with that id, or None exactly when there is none |
| `Transactions.TransactionTable.CreateTransaction` | backend/services/transaction-service/app/crud.py:12-32 | stores the fields, stamped with the current time, under a fresh id |
| `Transactions.TransactionTable.UpdateTransaction` | backend/services/transaction-service/app/crud.py:59-83 | an empty SET list fails; a missing id changes nothing and reads back None; otherwise the row is patched and read back |
| `Transactions.TransactionTable.DeleteTransaction` | backend/services/transaction-service/app/crud.py:86-95 | removes the row and reports whether it existed |
| `Statements.CalculateNetIncome` | backend/services/account-service/app/utils.py:6-17 | net income plus expenses equals revenues; it is negative exactly when expenses exceed revenues |
| `Statements.SumBalancesAppend` | backend/services/account-service/app/crud.py:21-30 | a filtered balance sum splits over a union of row sets |
| `Statements.SumBalancesOtherTypes` | backend/services/account-service/app/crud.py:21-30 | rows of other types contribute nothing, and an empty match sums to 0.0 |
| `Statements.SumBalancesNonNegative` | backend/services/account-service/app/crud.py:21-30 | a filtered balance sum over accounts with no negative balance is non-negative |
| `Statements.GenerateBalanceSheet` | backend/services/account-service/app/crud.py:11-36 | assets, liabilities and equity are the summed balances of their own accounts, none negative when no balance is; the lemmas beside it give the empty, one-more-account and other-type cases |
| `Statements.BalanceSheetOfNothing` | backend/services/account-service/app/crud.py:21-36 | with no accounts, assets, liabilities and equity are all 0.0 |
| `Statements.BalanceSheetAddAccount` | backend/services/account-service/app/crud.py:21-36 | one more account raises the figure of its own type by its balance and leaves the others; an account of another type changes nothing |
| `Statements.BalanceSheetIgnoresOtherTypes` | backend/services/account-service/app/crud.py:21-36 | accounts of types other than Asset, Liability and Equity never affect the balance sheet |
| `Statements.JoinedAmountOfUnique` | backend/services/account-service/app/crud.py:52-57 | with unique account ids, a transaction counts its amount once when its own account has the type and it has the direction, and otherwise not at all |
| `Statements.JoinedSumAppend` | backend/services/account-service/app/crud.py:52-57 | the joined sum splits over a union of transaction sets |
| `Statements.GenerateIncomeStatement` | backend/services/account-service/app/crud.py:42-74 | intended behaviour (the code can raise instead, see Findings): net income is revenues minus expenses, negative exactly when expenses exceed revenues |
| `Statements.FetchSum` | backend/services/account-service/app/crud.py:57-65 | `fetchone()[0] or 0.0` keeps a sum's value; it is a float exactly when the sum is zero, and a `Decimal` otherwise |
| `Statements.Subtract` | backend/services/account-service/app/crud.py:67 | Python's `-` raises TypeError exactly when one operand is a `Decimal` and the other a float; otherwise the difference |
| `Statements.GenerateIncomeStatementAsWritten` | backend/services/account-service/app/crud.py:42-74 | as written: TypeError exactly when one of the revenue and expense sums is zero and the other is not; otherwise the intended statement |
| `Statements.IncomeStatementTypeError` | backend/services/account-service/app/crud.py:52-67 | one 100.00 Credit to a Revenue account and no expenses raises TypeError, where the intended statement is 100, 0 and 100 |
| `Statements.IncomeStatementOfNothing` | backend/services/account-service/app/crud.py:52-67 | with no transactions every figure is 0.0 |
| `Statements.IncomeStatementAddTransaction` | backend/services/account-service/app/crud.py:52-67 | one more transaction raises revenues exactly when it is a Credit on a Revenue account, and raises expenses exactly when it is a Debit on an Expense account |
| `Statements.OrphanIgnored` | backend/services/account-service/app/crud.py:52-65 | a transaction whose account does not exist is dropped by the inner join |
| `Inventory.CalculateStockValue` | backend/services/inventory-service/app/utils.py:6-17 | the value is 0 for no items or no price, non-negative for non-negative inputs, and the price for one item |
| `Inventory.StockValueLinear` | backend/services/inventory-service/app/utils.py:17 | the value of two lots together is the sum of their values |
| `Inventory.StockValueMonotone` | backend/services/inventory-service/app/utils.py:17 | at a non-negative price, more items are never worth less |
| `Inventory.ItemUpdateColumns` | backend/services/inventory-service/app/crud.py:75-86 | the SET list names `name`, `description`, `price` and `quantity` in that order, each exactly when given, and is empty exactly when nothing is given |
| `Inventory.ZeroQuantityEmitted` | backend/services/inventory-service/app/crud.py:81-86 | a quantity or price of zero is still written, because the test is `is not None` |
| `Inventory.ItemUpdateEffect` | backend/services/inventory-service/app/crud.py:75-89 | running the assembled assignments sets exactly the given fields |
| `Inventory.ItemUpdateWellFormed` | backend/services/inventory-service/app/crud.py:87-88 | placeholders match parameters, and the last parameter is the item id |
| `Inventory.BuildItemUpdate` | backend/services/inventory-service/app/crud.py:73-87 | the builder produces exactly the clause and parameter lists of the assignments |
| `Inventory.ItemTable.GetItem` | backend/services/inventory-service/app/crud.py:11-28 | the row with that id, or None exactly when there is none |
| `Inventory.ItemTable.GetItemByName` | backend/services/inventory-service/app/crud.py:31-48 | the row with that name, or None exactly when no row has it |
| `Inventory.ItemTable.CreateItem` | backend/services/inventory-service/app/crud.py:51-65 | a taken name fails and changes nothing; otherwise the fields are stored under the next id |
| `Inventory.ItemTable.UpdateItem` | backend/services/inventory-service/app/crud.py:68-92 | an empty SET list fails; a missing id reads back None; a name held by another row fails; otherwise the row is patched and read back |
| `Inventory.ItemTable.DeleteItem` | backend/services/inventory-service/app/crud.py:95-104 | removes the row and reports whether it existed |
| `Banking.Posted` | backend/services/banking-service/app/utils.py:25-30 | the transactions fetched for an account all belong to it, and are no more than the whole table |
| `Banking.PostedMembers` | backend/services/banking-service/app/utils.py:25-30 | a transaction is fetched exactly when it is in the table and belongs to the account |
| `Banking.PostedSnoc` | backend/services/banking-service/app/utils.py:25-30 | a new transaction is fetched after the old ones exactly when it belongs to the account |
| `Banking.PostedNone` | backend/services/banking-service/app/utils.py:25-30 | an account with no transactions fetches nothing |
| `Banking.NetSnoc` | backend/services/banking-service/app/utils.py:33-37 | one more transaction moves the recomputed balance by its signed amount |
| `Banking.NetAppend` | backend/services/banking-service/app/utils.py:32-37 | the recomputed balance of two histories together is the sum of theirs |
| `Banking.NetSplit` | backend/services/banking-service/app/utils.py:32-37 | the recomputed balance is the credits minus the debits |
| `Banking.NetIsNegatedLedgerBalance` | backend/services/banking-service/app/utils.py:32-37 | the bank's credit-positive balance is the ledger's debit-positive balance negated |
| `Banking.NetRemove` | backend/services/banking-service/app/utils.py:32-37 | taking one transaction out of a history removes exactly its signed amount |
| `Banking.NetPermutation` | backend/services/banking-service/app/utils.py:26-37 | the recomputed balance does not depend on the order in which the rows are fetched |
| `Banking.ReplayIsNet` | backend/services/banking-service/app/crud.py:90-94 | posting a history one transaction at a time onto a balance adds exactly its credits minus its debits |
| `Banking.PostingAgreesWithReconcile` | backend/services/banking-service/app/utils.py:32-41 | incremental posting and reconciliation agree exactly when the account opened at 0.0 |
| `Banking.FindTransaction` | backend/services/banking-service/app/crud.py:100-121 | the transaction with that id, or None exactly when none has it |
| `Banking.SerialSnoc` | backend/services/banking-service/app/crud.py:87-88 | a transaction stored under the next id keeps the ids increasing |
| `Banking.OpenTables` | backend/services/banking-service/app/crud.py:51-65 | opening an account with a fresh number keeps every table invariant, the account's opening balance becoming its offset |
| `Banking.PostConsistent` | backend/services/banking-service/app/crud.py:87-94 | adjusting the balance by the posted amount keeps every account's balance equal to its offset plus its recomputed history |
| `Banking.ReferencedSnoc` | backend/services/banking-service/app/crud.py:77-87 | a transaction on an existing account keeps every transaction pointing at an account |
| `Banking.PostTables` | backend/services/banking-service/app/crud.py:76-94 | storing a transaction and adjusting its account's balance keeps every table invariant |
| `Banking.ReconcileTables` | backend/services/banking-service/app/utils.py:39-41 | overwriting one balance with its recomputed value keeps every table invariant with that account's offset at 0.0 |
| `Banking.Bank.GetBankAccount` | backend/services/banking-service/app/crud.py:13-29 | the account with that id, or None exactly when there is none |
| `Banking.Bank.GetBankAccountByNumber` | backend/services/banking-service/app/crud.py:32-48 | the account with that number, or None exactly when no account has it |
| `Banking.Bank.GetBankTransaction` | backend/services/banking-service/app/crud.py:100-121 | the transaction with that id, or None exactly when none has it |
| `Banking.Bank.CreateBankAccount` | backend/services/banking-service/app/crud.py:51-65 | a taken account number fails and changes nothing; otherwise the account is stored under the next id |
| `Banking.Bank.CreateBankTransaction` | backend/services/banking-service/app/crud.py:70-97 | intended behaviour: a post to a missing account fails with a foreign-key violation and changes nothing; otherwise the transaction is appended and its account's balance rises by a Credit's amount and falls by any other's |
| `Banking.Bank.CreateBankTransactionAsWritten` | backend/services/banking-service/app/crud.py:80-86 | as written, every post fails with a NameError for `datetime` and changes nothing |
| `Banking.Bank.Reconcile` | backend/services/banking-service/app/utils.py:11-44 | false and nothing changes for a missing account; otherwise the balance is overwritten with the credits minus the debits of its transactions and its offset becomes 0.0; reconciling again with no post in between changes nothing |
| `Banking.StoredBalance` | backend/services/banking-service/app/crud.py:51-97 | every stored balance is its offset plus its credits minus its debits, and equals the reconciled value exactly when the offset is 0.0 |
| `Banking.OpenAndPost` | backend/services/banking-service/app/crud.py:51-97 | opening an account and posting a 1000.0 credit and a 300.0 debit leaves the opening balance plus 700.0 |
| `Banking.OpeningBalanceExample` | backend/services/banking-service/app/utils.py:32-41 | after a 1000.0 credit and a 300.0 debit, reconciliation yields 700.0, which matches the posted balance exactly when the opening balance was 0.0 |
| `Payroll.CalculateTaxes` | backend/services/payroll-service/app/utils.py:6-18 | 20% of gross pay: 0 for no pay, between 0 and the gross for a non-negative gross |
| `Payroll.CalculateDeductions` | backend/services/payroll-service/app/utils.py:21-33 | 5% of gross pay: 0 for no pay, between 0 and the gross for a non-negative gross |
| `Payroll.TaxesAndDeductions` | backend/services/payroll-service/app/utils.py:18-33 | taxes are four times the deductions, and together they take a quarter of gross pay |
| `Payroll.MonthlyPay` | backend/services/payroll-service/app/crud.py:74-77 | twelve gross payments make the salary; gross is net plus taxes plus deductions; net is 75% of gross |
| `Payroll.MonthlyPayOf60000` | backend/services/payroll-service/app/crud.py:74-77 | a salary of 60000 pays 5000 gross: 1000 in taxes, 250 in deductions, 3750 net |
| `Payroll.PayrollStore.GetEmployee` | backend/services/payroll-service/app/crud.py:36-57 | the employee with that id, or None exactly when there is none |
| `Payroll.PayrollStore.GetPayrollRecord` | backend/services/payroll-service/app/crud.py:98-120 | the record with that id, or None exactly when there is none |
| `Payroll.PayrollStore.CreateEmployee` | backend/services/payroll-service/app/crud.py:13-33 | a taken email fails and changes nothing; otherwise the employee is stored under the next id |
| `Payroll.PayrollStore.CreatePayrollRecord` | backend/services/payroll-service/app/crud.py:62-95 | a missing employee fails with "Employee not found" and stores nothing; otherwise one record with the monthly amounts of the employee's salary is stored |
| `Reporting.ReportUpdateColumns` | backend/services/reporting-service/app/crud.py:86-96 | the SET list names `status` exactly when it is non-empty, and `file_path` and `completed_at` exactly when the path is non-empty, in that order; it is empty when neither is given |
| `Reporting.ReportUpdateEffect` | backend/services/reporting-service/app/crud.py:86-97 | running the assignments sets the status when given, and the path and completion time when a path is given |
| `Reporting.ReportUpdateWellFormed` | backend/services/reporting-service/app/crud.py:95-96 | placeholders match parameters, and the last parameter is the report id |
| `Reporting.BuildReportUpdate` | backend/services/reporting-service/app/crud.py:86-95 | the builder produces exactly the clause and parameter lists of the assignments |
| `Reporting.NatToString` | backend/services/reporting-service/app/utils.py:24 | a natural number prints as at least one digit, and as exactly one digit below 10 |
| `Reporting.NatToStringInjective` | backend/services/reporting-service/app/utils.py:24 | different numbers print differently |
| `Reporting.IntToString` | backend/services/reporting-service/app/utils.py:24 | an integer prints as at least one character, starting with '-' exactly when it is negative |
| `Reporting.IntToStringInjective` | backend/services/reporting-service/app/utils.py:24 | different integers print differently |
| `Reporting.ReportPath` | backend/services/reporting-service/app/utils.py:24 | the report path is never empty, so the completion branch of the update always fires |
| `Reporting.ReportPathInjective` | backend/services/reporting-service/app/utils.py:24 | different reports get different files |
| `Reporting.GeneratedIsUpdate` | backend/services/reporting-service/app/utils.py:24-30 | generation is the status update with "Completed" and the report's path, or with "Failed" and no path |
| `Reporting.GenerateFromPending` | backend/services/reporting-service/app/utils.py:24-30 | a pending report becomes Completed with its path and completion time, or Failed with neither, keeping its type and creation time |
| `Reporting.ReportStore.GetReport` | backend/services/reporting-service/app/crud.py:40-68 | the report with that id, or None exactly when there is none |
| `Reporting.ReportStore.CreateReport` | backend/services/reporting-service/app/crud.py:12-37 | a new report is Pending, stamped with the current time, with no file and no completion time |
| `Reporting.ReportStore.UpdateReportStatus` | backend/services/reporting-service/app/crud.py:71-99 | an empty SET list fails and changes nothing; a missing id changes nothing; otherwise the row is patched |
| `Reporting.ReportStore.GenerateReport` | backend/services/reporting-service/app/utils.py:12-32 | the report's row becomes its generated form, and nothing else changes |
| `DataQuality.IsPositiveNumber` | backend/services/data-quality-service/app/validators.py:8-18 | true exactly for an int or float above zero, with `True` as 1 |
| `DataQuality.IsPositiveNumberExamples` | backend/services/data-quality-service/app/validators.py:18 | zero, negatives, `False` and non-numbers are rejected |
| `DataQuality.ScanDomainCorrect` | backend/services/data-quality-service/app/validators.py:32-33 | the domain scan finds exactly an '@'-free text, a dot and a character other than '@' |
| `DataQuality.IsValidEmailCorrect` | backend/services/data-quality-service/app/validators.py:21-33 | the computed check accepts exactly the strings that `[^@]+@[^@]+\.[^@]+` matches at their start |
| `DataQuality.NoLocalPartRejected` | backend/services/data-quality-service/app/validators.py:32-33 | a string with no '@', or starting with '@', is rejected |
| `DataQuality.InvalidEmailExamples` | backend/services/data-quality-service/tests/test_main.py:12-20 | "invalid_email" and "@b.c" are rejected |
| `DataQuality.ConventionalEmailValid` | backend/services/data-quality-service/app/validators.py:32-33 | "john@example.com" is accepted |
| `DataQuality.TrailingTextIgnored` | backend/services/data-quality-service/app/validators.py:33 | text after a match does not matter: "a@b.c@@" is accepted |
| `DataQuality.ValidateData` | backend/services/data-quality-service/app/utils.py:12-35 | at most one error, valid exactly when there is none; the email rule, the positive-amount rule and the no-rule message per field; an unparsable amount raises ValueError |
| `DataQuality.CountUnresolvedAppend` | backend/services/data-quality-service/app/utils.py:66 | the unresolved count splits over a union of row sets |
| `DataQuality.CountUnresolvedBounds` | backend/services/data-quality-service/app/utils.py:66 | no issue is unresolved exactly when all are resolved, and all are unresolved exactly when none is resolved |
| `DataQuality.GenerateDataQualityReport` | backend/services/data-quality-service/app/utils.py:54-74 | intended behaviour (the code raises instead, see Findings): the report lists the fetched issues in order, totals them, and counts the unresolved ones, which are never more than the total and none exactly when all are resolved |
| `DataQuality.ReportExample` | backend/services/data-quality-service/tests/test_main.py:30-52 | two issues, one unresolved, give a total of 2 and 1 unresolved |
| `DataQuality.IssuesOf` | backend/services/data-quality-service/app/utils.py:54-63 | one `DataQualityIssue` per fetched row, in order, exactly when the schema accepts every row (text `description` and `detected_at`, a `resolved` value); otherwise ValidationError |
| `DataQuality.GenerateDataQualityReportAsWritten` | backend/services/data-quality-service/app/utils.py:48-74 | as written: rows the table itself produces (a timestamp or NULL in `detected_at`) make it raise ValidationError exactly when there is at least one; accepted rows give the intended report of their issues, in order |
| `DataQuality.DetectedAtValidationError` | backend/services/data-quality-service/app/utils.py:59 | one stored issue with a timestamp raises, where the intended report counts 1 issue, 1 unresolved |
| `DataQuality.MockedRowsAccepted` | backend/services/data-quality-service/tests/test_main.py:30-52 | the tests' rows, whose timestamps are text, pass the schema and give 2 and 1 |
| `Users.UserStore.GetUser` | backend/services/user-service/app/crud.py:54-71 | the schema of the user with that id, without the password hash, or None exactly when there is none |
| `Users.UserStore.GetUserByEmail` | backend/services/user-service/app/crud.py:11-28 | the user and their hash together, or (None, None) exactly when no user has the email; the user is the one `get_user` returns for that id |
| `Users.UserStore.AuthenticateUser` | backend/services/user-service/app/crud.py:74-83 | None when no user has the email or the password does not verify; otherwise that user; a user is returned exactly when one with that email verifies |
| `Users.UserStore.CreateUser` | backend/services/user-service/app/crud.py:31-51 | a taken email fails; otherwise the row is stored active and not a superuser, and both lookups find it |
| `Users.RegisterThenAuthenticate` | backend/services/user-service/app/crud.py:31-83 | a newly created user authenticates exactly with the passwords that verify against the stored hash |

## Left out

- The HTTP layer (every `main.py`): routing, connection factories and the mapping of exceptions to status codes.
- `register_user` in the user service's `main.py` (lines 44-46) tests the tuple `(None, None)` for truthiness, so it rejects every registration. That layer is not modelled; `Users.UserStore.CreateUser` models `create_user` itself.
- Database plumbing (`database.py`, the `lambda_function.py` adapters). Each table's state is a map in a class; the DDL supplies field types and constraints, and the Python types the driver returns for them matter only where a schema or operator rejects them (see Findings).
- `NUMERIC(12,2)` rounding and IEEE floating point: amounts are exact `real`s.
- Clocks: `datetime.utcnow()` is a `now` parameter; `time.sleep` in report generation is left out.
- Report generation runs as a background task in the service; the model runs it synchronously.
- `Reporting.ReportStore.GenerateReport`: whether generation raises is the `fails` parameter, because the only code that could raise is a clock, a sleep and a database call.
- Unparsable amounts: `float(str)` is a parameter returning None where Python raises ValueError.
- Password hashing and checking (passlib bcrypt) and JWT handling (`auth.py`): `verify_password` is a parameter.
- `create_user` stores whatever `password` holds; the service's caller hashes it first, and hashing is not modelled.
- Column widths: `VARCHAR(n)` limits are not enforced, so a name, account number, email or `transaction_type` longer than its column (for example `account_number VARCHAR(50)` and `transaction_type VARCHAR(10)` at banking-service `models.py:11,23`) is stored where Postgres raises; the create and update members of every table accept any length.
- Integer ranges: ids and inventory `quantity` are unbounded `int`s, where Postgres `SERIAL` and `INTEGER` columns are 32-bit and raise when out of range.
- `NUMERIC(12,2)` overflow: an amount, balance, salary or payroll figure of 10^10 or more makes Postgres raise; the model stores any `real`.
- Logging: the `logger.info` and `logger.exception` calls (reporting-service `utils.py:22-29`, tax-service `utils.py:47`) have no effect on the modelled state.
- Concurrency and transaction isolation: each operation is one atomic step.
- Postgres sequences skip values when an insert fails; the model's counters do not move on failure.
- `Statements.GenerateBalanceSheet`: the rows are a sequence, not a bag; `SumBalancesAppend` shows the order does not matter for the grouping.
- The audit, integration, export and visualization services: formatting, network calls and SQL-side ordering only.

## Findings

| source | as written | input that shows it | evidently intended | confidence | as-written member | corrected member |
|---|---|---|---|---|---|---|
| backend/services/banking-service/app/crud.py:84 | the parameter tuple calls `datetime.datetime.utcnow()`, but the module imports only `schemas` and `logging` (lines 5-6), so every call raises NameError before any SQL runs | any `BankTransactionCreate`, e.g. a 1000.0 Credit to an existing account | insert the transaction with the current time and adjust the account's balance | not executed | `Banking.Bank.CreateBankTransactionAsWritten` | `Banking.Bank.CreateBankTransaction` |
| backend/services/account-service/app/crud.py:67 | `revenues - expenses`, where each sum is the driver's `Decimal` when non-zero and the float `0.0` from `or 0.0` (lines 57, 65) when NULL or zero; `Decimal` minus float raises TypeError | one Credit of 100.00 to a Revenue account and no Expense debits | revenues 100, expenses 0, net income 100 | not executed | `Statements.GenerateIncomeStatementAsWritten` | `Statements.GenerateIncomeStatement` |
| backend/services/data-quality-service/app/utils.py:59 | `detected_at=row[3]` passes the fetched value of the `TIMESTAMP` column (models.py:12), a `datetime` or None, to the `str` field of `DataQualityIssue` (schemas.py:32); pydantic rejects both, so the report raises ValidationError whenever the table has a row | one stored issue `(1, 'Missing Data', 'Email is missing', <timestamp>, false)` | total 1, unresolved 1, the issue listed with its timestamp as text | not executed | `DataQuality.GenerateDataQualityReportAsWritten` | `DataQuality.GenerateDataQualityReport` |
