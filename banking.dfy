/** The banking service: the `bank_accounts` and `bank_transactions` tables,
    account creation and lookup, transaction posting with its incremental
    balance adjustment (banking-service/app/crud.py), and the reconciliation
    that recomputes a balance from the posted transactions
    (banking-service/app/utils.py). */
module Banking {
  import opened Common
  import Ledger

  /** A row of `bank_accounts`. */
  datatype BankAccount = BankAccount(id: int, accountName: string, accountNumber: string, balance: real)

  /** `BankAccountCreate`: the opening balance defaults to 0.0 in the schema. */
  datatype BankAccountCreate = BankAccountCreate(accountName: string, accountNumber: string, balance: real)

  /** A row of `bank_transactions`. */
  datatype BankTransaction = BankTransaction(id: int, bankAccountId: int, description: string, amount: real,
                                             date: Timestamp, transactionType: string)

  /** `BankTransactionCreate`. */
  datatype BankTransactionCreate = BankTransactionCreate(bankAccountId: int, description: string, amount: real,
                                                         transactionType: string)

  /** What one transaction does to its account's balance: a type of exactly
      'Credit' adds the amount, any other type subtracts it. */
  function Effect(t: BankTransaction): real {
    if t.transactionType == "Credit" then t.amount else -t.amount
  }

  /** The sum of the effects of a sequence of transactions, taken in order. */
  function Net(ts: seq<BankTransaction>): real {
    if ts == [] then 0.0 else Net(ts[..|ts| - 1]) + Effect(ts[|ts| - 1])
  }

  /** The total of the 'Credit' amounts. */
  function CreditTotal(ts: seq<BankTransaction>): real {
    if ts == [] then 0.0
    else
      var last := ts[|ts| - 1];
      var here := if last.transactionType == "Credit" then last.amount else 0.0;
      CreditTotal(ts[..|ts| - 1]) + here
  }

  /** The total of the amounts of every other type. */
  function DebitTotal(ts: seq<BankTransaction>): real {
    if ts == [] then 0.0
    else
      var last := ts[|ts| - 1];
      var here := if last.transactionType == "Credit" then 0.0 else last.amount;
      DebitTotal(ts[..|ts| - 1]) + here
  }

  /** `SELECT ... FROM bank_transactions WHERE bank_account_id = <accountId>`:
      the rows of that account, in table order. */
  function Posted(ts: seq<BankTransaction>, accountId: int): (posted: seq<BankTransaction>)
    ensures |posted| <= |ts|
    ensures forall k :: 0 <= k < |posted| ==> posted[k].bankAccountId == accountId
  {
    if ts == [] then []
    else
      var last := ts[|ts| - 1];
      var here := if last.bankAccountId == accountId then [last] else [];
      Posted(ts[..|ts| - 1], accountId) + here
  }

  /** Exactly the transactions of the account are fetched. */
  lemma {:induction false} PostedMembers(ts: seq<BankTransaction>, accountId: int, t: BankTransaction)
    ensures t in Posted(ts, accountId) <==> t in ts && t.bankAccountId == accountId
  {
    if ts != [] {
      var init, last := ts[..|ts| - 1], ts[|ts| - 1];
      assert ts == init + [last];
      PostedMembers(init, accountId, t);
    }
  }

  /** Appending one row extends the fetch of its own account only. */
  lemma PostedSnoc(ts: seq<BankTransaction>, t: BankTransaction, accountId: int)
    ensures Posted(ts + [t], accountId) == Posted(ts, accountId) + (if t.bankAccountId == accountId then [t] else [])
  {
    assert (ts + [t])[..|ts + [t]| - 1] == ts;
  }

  /** An account no transaction references fetches nothing. */
  lemma {:induction false} PostedNone(ts: seq<BankTransaction>, accountId: int)
    requires forall k :: 0 <= k < |ts| ==> ts[k].bankAccountId != accountId
    ensures Posted(ts, accountId) == []
  {
    if ts != [] {
      PostedNone(ts[..|ts| - 1], accountId);
    }
  }

  lemma NetSnoc(ts: seq<BankTransaction>, t: BankTransaction)
    ensures Net(ts + [t]) == Net(ts) + Effect(t)
  {
    assert (ts + [t])[..|ts + [t]| - 1] == ts;
  }

  /** The net effect splits over a concatenation. */
  lemma {:induction false} NetAppend(a: seq<BankTransaction>, b: seq<BankTransaction>)
    ensures Net(a + b) == Net(a) + Net(b)
  {
    if b == [] {
      assert a + b == a;
    } else {
      var init, last := b[..|b| - 1], b[|b| - 1];
      assert b == init + [last];
      assert a + b == (a + init) + [last];
      NetSnoc(a + init, last);
      NetSnoc(init, last);
      NetAppend(a, init);
    }
  }

  /** Credits in, everything else out. */
  lemma {:induction false} NetSplit(ts: seq<BankTransaction>)
    ensures Net(ts) == CreditTotal(ts) - DebitTotal(ts)
  {
    if ts != [] {
      NetSplit(ts[..|ts| - 1]);
    }
  }

  /** Reconciliation's sign is the opposite of the ledger's
      `calculate_balance`, which counts debits up and credits down. */
  lemma NetIsNegatedLedgerBalance(ts: seq<BankTransaction>)
    ensures Net(ts) == -Ledger.CalculateBalance(DebitTotal(ts), CreditTotal(ts))
    ensures Net(ts) == Ledger.CalculateBalance(CreditTotal(ts), DebitTotal(ts))
  {
    NetSplit(ts);
  }

  /** Taking out one row takes out its effect. */
  lemma NetRemove(b: seq<BankTransaction>, j: int)
    requires 0 <= j < |b|
    ensures Net(b) == Net(b[..j] + b[j + 1..]) + Effect(b[j])
  {
    var before, x, after := b[..j], b[j], b[j + 1..];
    assert b[..j + 1] == before + [x];
    assert b == b[..j + 1] + after;
    NetAppend(b[..j + 1], after);
    NetSnoc(before, x);
    NetAppend(before, after);
  }

  /** Taking out one row takes out one copy of it. */
  lemma MultisetRemove(b: seq<BankTransaction>, j: int)
    requires 0 <= j < |b|
    ensures multiset(b[..j] + b[j + 1..]) == multiset(b) - multiset{b[j]}
  {
    var before, x, after := b[..j], b[j], b[j + 1..];
    assert b == (before + [x]) + after;
    assert multiset(b) == multiset(before) + multiset{x} + multiset(after);
  }

  /** The net effect does not depend on the order of the rows. */
  lemma {:induction false} NetPermutation(a: seq<BankTransaction>, b: seq<BankTransaction>)
    requires multiset(a) == multiset(b)
    ensures Net(a) == Net(b)
    decreases |a|
  {
    if a == [] {
      assert |multiset(b)| == 0;
    } else {
      var init, x := a[..|a| - 1], a[|a| - 1];
      assert a == init + [x];
      assert multiset(init) == multiset(a) - multiset{x};
      assert x in multiset(b);
      var j :| 0 <= j < |b| && b[j] == x;
      NetRemove(b, j);
      MultisetRemove(b, j);
      NetPermutation(init, b[..j] + b[j + 1..]);
      NetSnoc(init, x);
    }
  }

  /** Posting one transaction after another, each adjusting the stored
      balance by `balance = balance ± amount`. */
  function Replay(balance: real, ts: seq<BankTransaction>): real
    decreases ts
  {
    if ts == [] then balance else Replay(balance + Effect(ts[0]), ts[1..])
  }

  /** After an opening balance and any sequence of posts the stored balance
      is the opening balance plus the credits less everything else. */
  lemma {:induction false} ReplayIsNet(balance: real, ts: seq<BankTransaction>)
    ensures Replay(balance, ts) == balance + Net(ts)
    ensures Replay(balance, ts) == balance + CreditTotal(ts) - DebitTotal(ts)
    decreases ts
  {
    NetSplit(ts);
    if ts != [] {
      ReplayIsNet(balance + Effect(ts[0]), ts[1..]);
      assert ts == [ts[0]] + ts[1..];
      NetAppend([ts[0]], ts[1..]);
      NetSnoc([], ts[0]);
    }
  }

  /** The incrementally kept balance and the reconciled one agree exactly
      when the opening balance was zero. */
  lemma PostingAgreesWithReconcile(opening: real, ts: seq<BankTransaction>)
    ensures Replay(opening, ts) == Net(ts) <==> opening == 0.0
  {
    ReplayIsNet(opening, ts);
  }

  /** The first row with that id, scanning in table order. */
  function FindTransaction(ts: seq<BankTransaction>, transactionId: int): (r: Option<BankTransaction>)
    ensures r.None? <==> forall k :: 0 <= k < |ts| ==> ts[k].id != transactionId
    ensures r.Some? ==> r.value in ts && r.value.id == transactionId
  {
    if ts == [] then None
    else if ts[0].id == transactionId then Some(ts[0])
    else
      var r := FindTransaction(ts[1..], transactionId);
      assert forall k :: 1 <= k < |ts| ==> ts[k] == ts[1..][k - 1];
      r
  }

  /** Every row is stored under its own id, below the next SERIAL value. */
  ghost predicate Keyed(accounts: map<int, BankAccount>, nextId: int) {
    forall id :: id in accounts ==> accounts[id].id == id && 0 < id < nextId
  }

  /** `account_number` is UNIQUE. */
  ghost predicate UniqueNumbers(accounts: map<int, BankAccount>) {
    forall i, j :: i in accounts && j in accounts && accounts[i].accountNumber == accounts[j].accountNumber ==> i == j
  }

  /** `bank_account_id` REFERENCES bank_accounts(id). */
  ghost predicate Referenced(ts: seq<BankTransaction>, accounts: map<int, BankAccount>) {
    forall k :: 0 <= k < |ts| ==> ts[k].bankAccountId in accounts
  }

  /** SERIAL transaction ids: positive, increasing in insertion order, and
      below the next value. */
  ghost predicate Serial(ts: seq<BankTransaction>, nextId: int) {
    ts == [] || (0 < ts[|ts| - 1].id < nextId && Serial(ts[..|ts| - 1], ts[|ts| - 1].id))
  }

  /** A row with the next SERIAL value extends a serial table. */
  lemma SerialSnoc(ts: seq<BankTransaction>, nextId: int, t: BankTransaction)
    requires Serial(ts, nextId) && 0 < t.id == nextId
    ensures Serial(ts + [t], nextId + 1)
  {
    assert (ts + [t])[..|ts|] == ts;
  }

  /** Every stored balance is its offset plus the net effect of the
      transactions posted to it. */
  ghost predicate Consistent(accounts: map<int, BankAccount>, offset: map<int, real>, ts: seq<BankTransaction>) {
    && offset.Keys == accounts.Keys
    && forall id {:trigger Posted(ts, id)} :: id in accounts ==> accounts[id].balance == offset[id] + Net(Posted(ts, id))
  }

  /** The constraints of the two tables and the consistency of the stored
      balances. */
  ghost predicate Tables(accounts: map<int, BankAccount>, offset: map<int, real>, ts: seq<BankTransaction>,
                         nextAccountId: int, nextTransactionId: int) {
    && nextAccountId > 0 && nextTransactionId > 0
    && Keyed(accounts, nextAccountId)
    && UniqueNumbers(accounts)
    && Referenced(ts, accounts)
    && Serial(ts, nextTransactionId)
    && Consistent(accounts, offset, ts)
  }

  /** Opening an account under the next id with an unused number, with its
      opening balance as offset, keeps the tables consistent: no
      transaction refers to it yet. */
  lemma OpenTables(accounts: map<int, BankAccount>, offset: map<int, real>, ts: seq<BankTransaction>,
                   nextAccountId: int, nextTransactionId: int, row: BankAccount)
    requires Tables(accounts, offset, ts, nextAccountId, nextTransactionId)
    requires row.id == nextAccountId
    requires forall id :: id in accounts ==> accounts[id].accountNumber != row.accountNumber
    ensures Tables(accounts[row.id := row], offset[row.id := row.balance], ts, nextAccountId + 1, nextTransactionId)
  {
    PostedNone(ts, row.id);
  }

  /** Appending a transaction and moving its account's balance by its
      effect keeps every balance consistent. */
  lemma PostConsistent(accounts: map<int, BankAccount>, offset: map<int, real>, ts: seq<BankTransaction>,
                       t: BankTransaction, balance: real)
    requires Consistent(accounts, offset, ts) && t.bankAccountId in accounts
    requires balance == accounts[t.bankAccountId].balance + Effect(t)
    ensures Consistent(accounts[t.bankAccountId := accounts[t.bankAccountId].(balance := balance)], offset, ts + [t])
  {
    var after := accounts[t.bankAccountId := accounts[t.bankAccountId].(balance := balance)];
    forall id | id in after
      ensures after[id].balance == offset[id] + Net(Posted(ts + [t], id))
    {
      PostedSnoc(ts, t, id);
      assert id in accounts;
      if id == t.bankAccountId {
        assert Posted(ts + [t], id) == Posted(ts, id) + [t];
        NetSnoc(Posted(ts, id), t);
        assert after[id].balance == balance;
        assert accounts[id].balance == offset[id] + Net(Posted(ts, id));
      } else {
        assert Posted(ts + [t], id) == Posted(ts, id);
        assert after[id] == accounts[id];
        assert accounts[id].balance == offset[id] + Net(Posted(ts, id));
      }
    }
  }

  /** A transaction of an existing account keeps the foreign key. */
  lemma ReferencedSnoc(ts: seq<BankTransaction>, accounts: map<int, BankAccount>, t: BankTransaction, after: map<int, BankAccount>)
    requires Referenced(ts, accounts) && t.bankAccountId in accounts && after.Keys == accounts.Keys
    ensures Referenced(ts + [t], after)
  {
    forall k | 0 <= k < |ts + [t]| ensures (ts + [t])[k].bankAccountId in after {
      if k < |ts| {
        assert (ts + [t])[k] == ts[k];
      }
    }
  }

  /** Appending a transaction with the next id to an existing account and
      moving that account's balance by its effect keeps the tables
      consistent. */
  lemma PostTables(accounts: map<int, BankAccount>, offset: map<int, real>, ts: seq<BankTransaction>,
                   nextAccountId: int, nextTransactionId: int, t: BankTransaction, balance: real)
    requires Tables(accounts, offset, ts, nextAccountId, nextTransactionId)
    requires t.bankAccountId in accounts && t.id == nextTransactionId
    requires balance == accounts[t.bankAccountId].balance + Effect(t)
    ensures Tables(accounts[t.bankAccountId := accounts[t.bankAccountId].(balance := balance)], offset,
                   ts + [t], nextAccountId, nextTransactionId + 1)
  {
    var after := accounts[t.bankAccountId := accounts[t.bankAccountId].(balance := balance)];
    PostConsistent(accounts, offset, ts, t, balance);
    SerialSnoc(ts, nextTransactionId, t);
    ReferencedSnoc(ts, accounts, t, after);
  }

  /** Overwriting a balance with the net effect of its transactions, with a
      zero offset, keeps the tables consistent. */
  lemma ReconcileTables(accounts: map<int, BankAccount>, offset: map<int, real>, ts: seq<BankTransaction>,
                        nextAccountId: int, nextTransactionId: int, id: int)
    requires Tables(accounts, offset, ts, nextAccountId, nextTransactionId) && id in accounts
    ensures Tables(accounts[id := accounts[id].(balance := Net(Posted(ts, id)))], offset[id := 0.0], ts,
                   nextAccountId, nextTransactionId)
  {
  }

  /** The two tables, their SERIAL counters, and the ghost `offset` of each
      account: the part of its stored balance that no posted transaction
      explains (its opening balance until it is first reconciled, 0.0
      after). */
  class Bank {
    var accounts: map<int, BankAccount>
    var transactions: seq<BankTransaction>
    var nextAccountId: int
    var nextTransactionId: int
    ghost var offset: map<int, real>

    ghost predicate Valid()
      reads this
    {
      Tables(accounts, offset, transactions, nextAccountId, nextTransactionId)
    }

    constructor ()
      ensures Valid() && accounts == map[] && transactions == [] && nextAccountId == 1 && nextTransactionId == 1
    {
      accounts, transactions := map[], [];
      nextAccountId, nextTransactionId := 1, 1;
      offset := map[];
    }

    /** `get_bank_account`: the row with that id, if any. */
    function GetBankAccount(accountId: int): (r: Option<BankAccount>)
      reads this
      ensures r.None? <==> accountId !in accounts
      ensures r.Some? ==> r.value == accounts[accountId]
    {
      if accountId in accounts then Some(accounts[accountId]) else None
    }

    /** Some row has this account number. */
    predicate NumberTaken(accountNumber: string)
      reads this
    {
      exists id :: id in accounts && accounts[id].accountNumber == accountNumber
    }

    /** `get_bank_account_by_number`: the row with that number, if any; the
        UNIQUE constraint makes it the only one. */
    function GetBankAccountByNumber(accountNumber: string): (r: Option<BankAccount>)
      reads this
      requires Valid()
      ensures r.None? <==> !NumberTaken(accountNumber)
      ensures r.Some? ==> r.value.id in accounts && accounts[r.value.id] == r.value && r.value.accountNumber == accountNumber
    {
      if NumberTaken(accountNumber) then
        var id :| id in accounts && accounts[id].accountNumber == accountNumber;
        Some(accounts[id])
      else None
    }

    /** `get_bank_transaction`: the row with that id, if any. */
    function GetBankTransaction(transactionId: int): (r: Option<BankTransaction>)
      reads this
      ensures r.None? <==> forall k :: 0 <= k < |transactions| ==> transactions[k].id != transactionId
      ensures r.Some? ==> r.value in transactions && r.value.id == transactionId
    {
      FindTransaction(transactions, transactionId)
    }

    /** `create_bank_account`: inserts the account with the caller's opening
        balance, unless the account number is taken. */
    method CreateBankAccount(a: BankAccountCreate) returns (r: Result<BankAccount>)
      requires Valid()
      modifies this
      ensures Valid() && transactions == old(transactions) && nextTransactionId == old(nextTransactionId)
      ensures old(NumberTaken(a.accountNumber)) ==>
        r == Failure(UniqueViolation("account_number")) && accounts == old(accounts) && nextAccountId == old(nextAccountId)
      ensures !old(NumberTaken(a.accountNumber)) ==>
        && r == Success(BankAccount(old(nextAccountId), a.accountName, a.accountNumber, a.balance))
        && accounts == old(accounts)[old(nextAccountId) := r.value]
        && nextAccountId == old(nextAccountId) + 1
        && offset == old(offset)[r.value.id := a.balance]
    {
      if NumberTaken(a.accountNumber) {
        return Failure(UniqueViolation("account_number"));
      }
      var row := BankAccount(nextAccountId, a.accountName, a.accountNumber, a.balance);
      OpenTables(accounts, offset, transactions, nextAccountId, nextTransactionId, row);
      accounts := accounts[nextAccountId := row];
      offset := offset[nextAccountId := a.balance];
      nextAccountId := nextAccountId + 1;
      r := Success(row);
    }

    /** `create_bank_transaction` as intended: inserts the row dated `now`,
        then moves the balance of its account, and of no other, by
        `balance + amount` for 'Credit' and `balance - amount` otherwise. A
        missing account violates the foreign key before anything changes. */
    method CreateBankTransaction(c: BankTransactionCreate, now: Timestamp) returns (r: Result<BankTransaction>)
      requires Valid()
      modifies this
      ensures Valid() && nextAccountId == old(nextAccountId) && offset == old(offset)
      ensures c.bankAccountId !in old(accounts) ==>
        && r == Failure(ForeignKeyViolation("bank_account_id"))
        && accounts == old(accounts) && transactions == old(transactions) && nextTransactionId == old(nextTransactionId)
      ensures c.bankAccountId in old(accounts) ==>
        && r == Success(BankTransaction(old(nextTransactionId), c.bankAccountId, c.description, c.amount, now, c.transactionType))
        && transactions == old(transactions) + [r.value]
        && nextTransactionId == old(nextTransactionId) + 1
        && var acct := old(accounts)[c.bankAccountId];
           accounts == old(accounts)[c.bankAccountId :=
             acct.(balance := if c.transactionType == "Credit" then acct.balance + c.amount else acct.balance - c.amount)]
    {
      if c.bankAccountId !in accounts {
        return Failure(ForeignKeyViolation("bank_account_id"));
      }
      var t := BankTransaction(nextTransactionId, c.bankAccountId, c.description, c.amount, now, c.transactionType);
      var acct := accounts[c.bankAccountId];
      var balance := if c.transactionType == "Credit" then acct.balance + c.amount else acct.balance - c.amount;
      PostTables(accounts, offset, transactions, nextAccountId, nextTransactionId, t, balance);
      transactions := transactions + [t];
      nextTransactionId := nextTransactionId + 1;
      accounts := accounts[c.bankAccountId := acct.(balance := balance)];
      r := Success(t);
    }

    /** `create_bank_transaction` as written: the module never imports
        `datetime`, so building the parameter tuple raises NameError before
        either statement runs, and nothing is stored. */
    method CreateBankTransactionAsWritten(c: BankTransactionCreate) returns (r: Result<BankTransaction>)
      requires Valid()
      ensures r == Failure(NameError("datetime"))
    {
      r := Failure(NameError("datetime"));
    }

    /** `reconcile_bank_account`: false and no change for a missing account;
        otherwise the balance is recomputed from 0.0 over the account's
        transactions, credits up and everything else down, and stored in
        place of the old one, which plays no part. */
    method Reconcile(accountId: int) returns (ok: bool)
      requires Valid()
      modifies this
      ensures Valid()
      ensures transactions == old(transactions) && nextAccountId == old(nextAccountId)
      ensures nextTransactionId == old(nextTransactionId)
      ensures ok <==> accountId in old(accounts)
      ensures !ok ==> accounts == old(accounts) && offset == old(offset)
      ensures ok ==>
        && accounts == old(accounts)[accountId := old(accounts)[accountId].(balance := Net(Posted(transactions, accountId)))]
        && offset == old(offset)[accountId := 0.0]
      ensures ok && old(offset)[accountId] == 0.0 ==> accounts == old(accounts)
    {
      if accountId !in accounts {
        return false;
      }
      var fetched := Posted(transactions, accountId);
      var calculated := 0.0;
      for i := 0 to |fetched|
        invariant calculated == Net(fetched[..i])
      {
        var t := fetched[i];
        assert fetched[..i + 1][..i] == fetched[..i];
        if t.transactionType == "Credit" {
          calculated := calculated + t.amount;
        } else {
          calculated := calculated - t.amount;
        }
      }
      assert fetched[..|fetched|] == fetched;
      ReconcileTables(accounts, offset, transactions, nextAccountId, nextTransactionId, accountId);
      accounts := accounts[accountId := accounts[accountId].(balance := calculated)];
      offset := offset[accountId := 0.0];
      ok := true;
    }
  }

  /** In a consistent state every stored balance is its offset plus the
      credits less everything else posted to it, and it is what
      reconciliation would compute iff the offset is zero. */
  lemma StoredBalance(bank: Bank, accountId: int)
    requires bank.Valid() && accountId in bank.accounts
    ensures bank.accounts[accountId].balance ==
      bank.offset[accountId] + CreditTotal(Posted(bank.transactions, accountId)) - DebitTotal(Posted(bank.transactions, accountId))
    ensures bank.accounts[accountId].balance == Net(Posted(bank.transactions, accountId)) <==> bank.offset[accountId] == 0.0
  {
    NetSplit(Posted(bank.transactions, accountId));
  }

  /** Opens an account with `opening`, then credits it 1000.0 and debits it
      300.0. */
  method OpenAndPost(opening: real) returns (bank: Bank, id: int, t1: BankTransaction, t2: BankTransaction)
    ensures fresh(bank) && bank.Valid() && id in bank.accounts
    ensures bank.accounts[id].balance == opening + 700.0
    ensures bank.transactions == [t1, t2] && t1.bankAccountId == id && t2.bankAccountId == id
    ensures Effect(t1) == 1000.0 && Effect(t2) == -300.0
  {
    bank := new Bank();
    assert !bank.NumberTaken("0001");
    var a := bank.CreateBankAccount(BankAccountCreate("Checking", "0001", opening));
    id := a.value.id;
    assert bank.accounts[id].balance == opening && bank.transactions == [];
    var r1 := bank.CreateBankTransaction(BankTransactionCreate(id, "Deposit", 1000.0, "Credit"), Timestamp(0));
    t1 := r1.value;
    assert bank.accounts[id].balance == opening + 1000.0 && bank.transactions == [t1];
    var r2 := bank.CreateBankTransaction(BankTransactionCreate(id, "Rent", 300.0, "Debit"), Timestamp(1));
    t2 := r2.value;
  }

  /** An account opened with `opening`, credited 1000.0 and debited 300.0
      holds `opening` + 700.0; reconciling it drops the opening balance and
      leaves 700.0, so the two agree exactly when the account opened at
      zero. */
  method OpeningBalanceExample(opening: real) returns (posted: real, reconciled: real)
    ensures posted == opening + 700.0 && reconciled == 700.0
    ensures posted == reconciled <==> opening == 0.0
  {
    var bank, id, t1, t2 := OpenAndPost(opening);
    posted := bank.accounts[id].balance;
    PostedSnoc([t1], t2, id);
    PostedSnoc([], t1, id);
    assert [t1] + [t2] == [t1, t2];
    NetSnoc([t1], t2);
    NetSnoc([], t1);
    assert Net(Posted(bank.transactions, id)) == 700.0;
    var ok := bank.Reconcile(id);
    reconciled := bank.accounts[id].balance;
  }
}
