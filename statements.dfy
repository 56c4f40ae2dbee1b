/** The accounting service: the balance sheet and income statement
    aggregates (account-service/app/crud.py) and the net-income rule
    (account-service/app/utils.py). The SQL `SUM ... WHERE ...` queries are
    filtered sums over the rows of the shared `accounts` and `transactions`
    tables; a sum over no rows is NULL, which `or 0.0` turns into 0.0. */
module Statements {
  import opened Common
  import opened Ledger
  import opened Transactions

  /** `calculate_net_income`: revenues less expenses. */
  function CalculateNetIncome(revenues: real, expenses: real): (netIncome: real)
    ensures netIncome + expenses == revenues
    ensures expenses == 0.0 ==> netIncome == revenues
    ensures netIncome < 0.0 <==> expenses > revenues
  {
    revenues - expenses
  }

  /** `SELECT SUM(balance) FROM accounts WHERE type = <accountType>`, with
      the empty sum read as 0.0. */
  function SumBalances(accounts: seq<Account>, accountType: string): real {
    if accounts == [] then 0.0
    else
      var here := if accounts[0].accountType == accountType then accounts[0].balance else 0.0;
      here + SumBalances(accounts[1..], accountType)
  }

  /** A filtered sum splits over a concatenation of row sets. */
  lemma {:induction false} SumBalancesAppend(a: seq<Account>, b: seq<Account>, accountType: string)
    ensures SumBalances(a + b, accountType) == SumBalances(a, accountType) + SumBalances(b, accountType)
  {
    if a == [] {
      assert a + b == b;
    } else {
      assert (a + b)[1..] == a[1..] + b;
      SumBalancesAppend(a[1..], b, accountType);
    }
  }

  /** Rows of another type contribute nothing; no row of the type gives 0.0. */
  lemma {:induction false} SumBalancesOtherTypes(accounts: seq<Account>, accountType: string)
    requires forall k :: 0 <= k < |accounts| ==> accounts[k].accountType != accountType
    ensures SumBalances(accounts, accountType) == 0.0
  {
    if accounts != [] {
      SumBalancesOtherTypes(accounts[1..], accountType);
    }
  }

  /** The `BalanceSheet` schema. */
  datatype BalanceSheet = BalanceSheet(assets: real, liabilities: real, equity: real)

  /** Accounts none of whose balances is negative. */
  predicate NoNegativeBalance(accounts: seq<Account>) {
    forall k :: 0 <= k < |accounts| ==> accounts[k].balance >= 0.0
  }

  /** A filtered sum of non-negative balances is non-negative. */
  lemma {:induction false} SumBalancesNonNegative(accounts: seq<Account>, accountType: string)
    ensures NoNegativeBalance(accounts) ==> SumBalances(accounts, accountType) >= 0.0
  {
    if accounts != [] {
      SumBalancesNonNegative(accounts[1..], accountType);
      assert NoNegativeBalance(accounts) ==> NoNegativeBalance(accounts[1..]) by {
        forall k | 0 <= k < |accounts| - 1 ensures accounts[1..][k] == accounts[k + 1] { }
      }
    }
  }

  /** `generate_balance_sheet`: the balances of the 'Asset', 'Liability'
      and 'Equity' accounts, each summed; no figure is negative unless some
      balance is. */
  function GenerateBalanceSheet(accounts: seq<Account>): (b: BalanceSheet)
    ensures NoNegativeBalance(accounts) ==> b.assets >= 0.0 && b.liabilities >= 0.0 && b.equity >= 0.0
  {
    SumBalancesNonNegative(accounts, "Asset");
    SumBalancesNonNegative(accounts, "Liability");
    SumBalancesNonNegative(accounts, "Equity");
    BalanceSheet(SumBalances(accounts, "Asset"), SumBalances(accounts, "Liability"), SumBalances(accounts, "Equity"))
  }

  /** With no accounts every figure is 0.0. */
  lemma BalanceSheetOfNothing()
    ensures GenerateBalanceSheet([]) == BalanceSheet(0.0, 0.0, 0.0)
  {
  }

  /** One more account moves exactly the figure of its own type by its
      balance, and an account of any other type (say 'Revenue') moves none. */
  lemma BalanceSheetAddAccount(accounts: seq<Account>, a: Account)
    ensures GenerateBalanceSheet(accounts + [a]).assets
         == GenerateBalanceSheet(accounts).assets + (if a.accountType == "Asset" then a.balance else 0.0)
    ensures GenerateBalanceSheet(accounts + [a]).liabilities
         == GenerateBalanceSheet(accounts).liabilities + (if a.accountType == "Liability" then a.balance else 0.0)
    ensures GenerateBalanceSheet(accounts + [a]).equity
         == GenerateBalanceSheet(accounts).equity + (if a.accountType == "Equity" then a.balance else 0.0)
    ensures a.accountType !in {"Asset", "Liability", "Equity"} ==>
      GenerateBalanceSheet(accounts + [a]) == GenerateBalanceSheet(accounts)
  {
    SumBalancesAppend(accounts, [a], "Asset");
    SumBalancesAppend(accounts, [a], "Liability");
    SumBalancesAppend(accounts, [a], "Equity");
  }

  /** Accounts of other types never affect the balance sheet. */
  lemma BalanceSheetIgnoresOtherTypes(accounts: seq<Account>, others: seq<Account>)
    requires forall k :: 0 <= k < |others| ==> others[k].accountType !in {"Asset", "Liability", "Equity"}
    ensures GenerateBalanceSheet(accounts + others) == GenerateBalanceSheet(accounts)
  {
    SumBalancesAppend(accounts, others, "Asset");
    SumBalancesAppend(accounts, others, "Liability");
    SumBalancesAppend(accounts, others, "Equity");
    SumBalancesOtherTypes(others, "Asset");
    SumBalancesOtherTypes(others, "Liability");
    SumBalancesOtherTypes(others, "Equity");
  }

  /** What one transaction contributes to
      `SELECT SUM(amount) FROM transactions t JOIN accounts a ON t.account_id = a.id
       WHERE a.type = <accountType> AND t.transaction_type = <transactionType>`:
      its amount once for every joined account row that passes the filter. */
  function JoinedAmount(t: Transaction, accounts: seq<Account>, accountType: string, transactionType: string): real {
    if accounts == [] then 0.0
    else
      var joined := accounts[0].id == t.accountId && accounts[0].accountType == accountType;
      var here := if joined && t.transactionType == transactionType then t.amount else 0.0;
      here + JoinedAmount(t, accounts[1..], accountType, transactionType)
  }

  /** The joined, filtered sum over all transactions. */
  function JoinedSum(txs: seq<Transaction>, accounts: seq<Account>, accountType: string, transactionType: string): real {
    if txs == [] then 0.0
    else JoinedAmount(txs[0], accounts, accountType, transactionType) + JoinedSum(txs[1..], accounts, accountType, transactionType)
  }

  /** Account ids are the primary key. */
  ghost predicate UniqueIds(accounts: seq<Account>) {
    forall i, j :: 0 <= i < |accounts| && 0 <= j < |accounts| && accounts[i].id == accounts[j].id ==> i == j
  }

  /** With unique ids a transaction joins at most one account: it counts
      once when its own account has the type and it has the transaction
      type, and not at all otherwise, in particular when no account has its
      id (the inner join drops it). */
  lemma {:induction false} JoinedAmountOfUnique(t: Transaction, accounts: seq<Account>, accountType: string, transactionType: string)
    requires UniqueIds(accounts)
    ensures JoinedAmount(t, accounts, accountType, transactionType) ==
      if t.transactionType == transactionType
         && exists k :: 0 <= k < |accounts| && accounts[k].id == t.accountId && accounts[k].accountType == accountType
      then t.amount else 0.0
  {
    if accounts != [] {
      var rest := accounts[1..];
      assert UniqueIds(rest) by {
        forall i, j | 0 <= i < |rest| && 0 <= j < |rest| && rest[i].id == rest[j].id ensures i == j {
          assert accounts[i + 1].id == accounts[j + 1].id;
        }
      }
      JoinedAmountOfUnique(t, rest, accountType, transactionType);
      if accounts[0].id == t.accountId {
        forall k | 0 <= k < |rest| ensures rest[k].id != t.accountId {
          assert accounts[k + 1].id == rest[k].id;
        }
      }
      if exists k :: 0 <= k < |accounts| && accounts[k].id == t.accountId && accounts[k].accountType == accountType {
        var k :| 0 <= k < |accounts| && accounts[k].id == t.accountId && accounts[k].accountType == accountType;
        if k > 0 {
          assert rest[k - 1] == accounts[k];
        }
      } else {
        forall k | 0 <= k < |rest| ensures !(rest[k].id == t.accountId && rest[k].accountType == accountType) {
          assert rest[k] == accounts[k + 1];
        }
      }
    }
  }

  lemma {:induction false} JoinedSumAppend(a: seq<Transaction>, b: seq<Transaction>, accounts: seq<Account>,
                                           accountType: string, transactionType: string)
    ensures JoinedSum(a + b, accounts, accountType, transactionType)
         == JoinedSum(a, accounts, accountType, transactionType) + JoinedSum(b, accounts, accountType, transactionType)
  {
    if a == [] {
      assert a + b == b;
    } else {
      assert (a + b)[1..] == a[1..] + b;
      JoinedSumAppend(a[1..], b, accounts, accountType, transactionType);
    }
  }

  /** The `IncomeStatement` schema. */
  datatype IncomeStatement = IncomeStatement(revenues: real, expenses: real, netIncome: real)

  /** `generate_income_statement`: credits to 'Revenue' accounts, debits to
      'Expense' accounts, and their difference, computed inline. */
  function GenerateIncomeStatement(accounts: seq<Account>, txs: seq<Transaction>): (s: IncomeStatement)
    ensures s.netIncome == CalculateNetIncome(s.revenues, s.expenses)
    ensures s.netIncome < 0.0 <==> s.expenses > s.revenues
  {
    var revenues := JoinedSum(txs, accounts, "Revenue", "Credit");
    var expenses := JoinedSum(txs, accounts, "Expense", "Debit");
    IncomeStatement(revenues, expenses, revenues - expenses)
  }

  /** With no transactions every figure is 0.0. */
  lemma IncomeStatementOfNothing(accounts: seq<Account>)
    ensures GenerateIncomeStatement(accounts, []) == IncomeStatement(0.0, 0.0, 0.0)
  {
  }

  /** One more transaction raises revenues by its amount iff it is a
      'Credit' on a 'Revenue' account, raises expenses by its amount iff it
      is a 'Debit' on an 'Expense' account, and otherwise (a debit on a
      revenue account, a credit on an expense account, an unknown account
      id) changes nothing. */
  lemma IncomeStatementAddTransaction(accounts: seq<Account>, txs: seq<Transaction>, t: Transaction)
    requires UniqueIds(accounts)
    ensures GenerateIncomeStatement(accounts, txs + [t]).revenues == GenerateIncomeStatement(accounts, txs).revenues
      + (if t.transactionType == "Credit"
            && exists k :: 0 <= k < |accounts| && accounts[k].id == t.accountId && accounts[k].accountType == "Revenue"
         then t.amount else 0.0)
    ensures GenerateIncomeStatement(accounts, txs + [t]).expenses == GenerateIncomeStatement(accounts, txs).expenses
      + (if t.transactionType == "Debit"
            && exists k :: 0 <= k < |accounts| && accounts[k].id == t.accountId && accounts[k].accountType == "Expense"
         then t.amount else 0.0)
  {
    JoinedSumAppend(txs, [t], accounts, "Revenue", "Credit");
    JoinedSumAppend(txs, [t], accounts, "Expense", "Debit");
    JoinedAmountOfUnique(t, accounts, "Revenue", "Credit");
    JoinedAmountOfUnique(t, accounts, "Expense", "Debit");
  }

  /** A transaction whose account id matches no account is dropped by the
      inner join. */
  lemma OrphanIgnored(accounts: seq<Account>, txs: seq<Transaction>, t: Transaction)
    requires UniqueIds(accounts)
    requires forall k :: 0 <= k < |accounts| ==> accounts[k].id != t.accountId
    ensures GenerateIncomeStatement(accounts, txs + [t]) == GenerateIncomeStatement(accounts, txs)
  {
    IncomeStatementAddTransaction(accounts, txs, t);
  }

  /** A sum as the service holds it after `cursor.fetchone()[0] or 0.0`. The
      driver returns a non-empty NUMERIC sum as a `Decimal`; a NULL sum (no
      rows) and a zero `Decimal`, which is falsy, both become the float 0.0. */
  datatype FetchedNumber = Decimal(d: real) | Float(f: real) {
    /** The number, whatever its Python type. */
    function Value(): real {
      match this
      case Decimal(d) => d
      case Float(f) => f
    }
  }

  /** `fetchone()[0] or 0.0` applied to a sum. */
  function FetchSum(sum: real): (v: FetchedNumber)
    ensures v.Value() == sum
    ensures v.Float? <==> sum == 0.0
  {
    if sum == 0.0 then Float(0.0) else Decimal(sum)
  }

  /** Python's `-`: `Decimal` minus `Decimal` and float minus float are
      defined, a `Decimal` and a float together raise TypeError. */
  function Subtract(a: FetchedNumber, b: FetchedNumber): (r: Result<real>)
    ensures r.Failure? <==> a.Decimal? != b.Decimal?
    ensures r.Failure? ==> r.error == TypeError("-")
    ensures r.Success? ==> r.value + b.Value() == a.Value()
  {
    if a.Decimal? == b.Decimal? then Success(a.Value() - b.Value()) else Failure(TypeError("-"))
  }

  /** `generate_income_statement` as written: the subtraction at line 67
      raises exactly when one of the two sums is zero and the other is not;
      otherwise the statement is the one `GenerateIncomeStatement` gives. */
  function GenerateIncomeStatementAsWritten(accounts: seq<Account>, txs: seq<Transaction>): (r: Result<IncomeStatement>)
    ensures r.Failure? <==>
      (JoinedSum(txs, accounts, "Revenue", "Credit") == 0.0) != (JoinedSum(txs, accounts, "Expense", "Debit") == 0.0)
    ensures r.Failure? ==> r.error == TypeError("-")
    ensures r.Success? ==> r.value == GenerateIncomeStatement(accounts, txs)
  {
    var revenues := FetchSum(JoinedSum(txs, accounts, "Revenue", "Credit"));
    var expenses := FetchSum(JoinedSum(txs, accounts, "Expense", "Debit"));
    match Subtract(revenues, expenses)
    case Failure(e) => Failure(e)
    case Success(netIncome) => Success(IncomeStatement(revenues.Value(), expenses.Value(), netIncome))
  }

  /** One 100.00 credit to a revenue account and no expenses: the code
      raises TypeError, where the intended statement is 100, 0 and 100. */
  lemma IncomeStatementTypeError(date: Timestamp)
    ensures var accounts := [Account(1, "Sales", "Revenue", 0.0)];
            var txs := [Transaction(1, "invoice", 100.0, date, 1, "Credit")];
            && GenerateIncomeStatementAsWritten(accounts, txs) == Failure(TypeError("-"))
            && GenerateIncomeStatement(accounts, txs) == IncomeStatement(100.0, 0.0, 100.0)
  {
    var accounts := [Account(1, "Sales", "Revenue", 0.0)];
    var txs := [Transaction(1, "invoice", 100.0, date, 1, "Credit")];
    assert JoinedSum(txs, accounts, "Revenue", "Credit") == 100.0 by {
      assert JoinedAmount(txs[0], accounts, "Revenue", "Credit") == 100.0;
    }
    assert JoinedSum(txs, accounts, "Expense", "Debit") == 0.0 by {
      assert JoinedAmount(txs[0], accounts, "Expense", "Debit") == 0.0;
    }
  }
}
