/** The ledger service: the `accounts` table with its create, lookup,
    partial-update and delete operations (ledger-service/app/crud.py) and
    the balance rule (ledger-service/app/utils.py). */
module Ledger {
  import opened Common
  import opened SqlUpdate

  /** `calculate_balance`: debits count up, credits count down. */
  function CalculateBalance(debits: real, credits: real): (balance: real)
    ensures balance + credits == debits
    ensures balance == 0.0 <==> debits == credits
    ensures balance > 0.0 <==> debits > credits
  {
    debits - credits
  }

  /** Swapping the two totals flips the sign. */
  lemma BalanceAntisymmetric(debits: real, credits: real)
    ensures CalculateBalance(debits, credits) == -CalculateBalance(credits, debits)
  {
  }

  /** A row of `accounts`. */
  datatype Account = Account(id: int, name: string, accountType: string, balance: real)

  /** `AccountCreate`: the balance defaults to 0.0 in the request schema. */
  datatype AccountCreate = AccountCreate(name: string, accountType: string, balance: real)

  /** `AccountUpdate`: every field is optional. */
  datatype AccountUpdate = AccountUpdate(name: Option<string>, accountType: Option<string>, balance: Option<real>)

  /** The column order of `update_account`. */
  const AccountColumns: seq<string> := ["name", "type", "balance"]

  /** The optional new values, in the column order of `update_account`. */
  function AccountValues(u: AccountUpdate): seq<Option<SqlValue>> {
    [TextValue(u.name), TextValue(u.accountType), NumberValue(u.balance)]
  }

  /** The assignments `update_account` emits: one per field that is not
      None, in the order name, type, balance. */
  function AccountAssignments(u: AccountUpdate): seq<Assignment> {
    Emit(AccountColumns, AccountValues(u))
  }

  /** The same list, one optional clause per field. */
  lemma AccountAssignmentsUnfold(u: AccountUpdate)
    ensures AccountAssignments(u) ==
      Optional("name", TextValue(u.name)) + Optional("type", TextValue(u.accountType))
      + Optional("balance", NumberValue(u.balance))
  {
    var cs, vs := AccountColumns, AccountValues(u);
    assert cs[3..] == [] && vs[3..] == [];
    assert Emit(cs[2..], vs[2..]) == Optional(cs[2], vs[2]) + Emit(cs[3..], vs[3..]);
    assert Emit(cs[1..], vs[1..]) == Optional(cs[1], vs[1]) + Emit(cs[2..], vs[2..]);
  }

  /** The effect of one `column = value` on an `accounts` row. */
  function AssignAccount(row: Account, a: Assignment): Account {
    match (a.column, a.value)
    case ("name", Text(s)) => row.(name := s)
    case ("type", Text(s)) => row.(accountType := s)
    case ("balance", Number(x)) => row.(balance := x)
    case _ => row
  }

  /** The row an update should leave: each present field replaced, the rest
      (and the id) kept. */
  function Patched(row: Account, u: AccountUpdate): Account {
    row.(name := u.name.GetOr(row.name),
         accountType := u.accountType.GetOr(row.accountType),
         balance := u.balance.GetOr(row.balance))
  }

  /** A clause is emitted for a field iff it is not None, in the fixed order
      name, type, balance, and there are no other clauses. */
  lemma AccountUpdateColumns(u: AccountUpdate)
    ensures InOrder(Columns(AccountAssignments(u)), AccountColumns)
    ensures "name" in Columns(AccountAssignments(u)) <==> u.name.Some?
    ensures "type" in Columns(AccountAssignments(u)) <==> u.accountType.Some?
    ensures "balance" in Columns(AccountAssignments(u)) <==> u.balance.Some?
    ensures forall c :: c in Columns(AccountAssignments(u)) ==> c in AccountColumns
    ensures AccountAssignments(u) == [] <==> u.name.None? && u.accountType.None? && u.balance.None?
  {
    var cs, vs := AccountColumns, AccountValues(u);
    EmitInOrder(cs, vs);
    EmitOnlyColumns(cs, vs);
    EmitEmpty(cs, vs);
    EmitPresent(cs, vs, 0);
    EmitPresent(cs, vs, 1);
    EmitPresent(cs, vs, 2);
  }

  /** Executing the emitted SET list changes exactly the present fields;
      `balance` is overwritten as given, with no check against any entries. */
  lemma AccountUpdateEffect(row: Account, u: AccountUpdate)
    ensures ApplyAll(row, AccountAssignments(u), AssignAccount) == Patched(row, u)
  {
    var n, t := Optional("name", TextValue(u.name)), Optional("type", TextValue(u.accountType));
    var b := Optional("balance", NumberValue(u.balance));
    AccountAssignmentsUnfold(u);
    ApplyAllAppend(row, n + t, b, AssignAccount);
    ApplyAllAppend(row, n, t, AssignAccount);
  }

  /** The statement holds one `%s` per bound parameter, the id last. */
  lemma AccountUpdateWellFormed(accountId: int, u: AccountUpdate)
    ensures Placeholders(UpdateSql("accounts", Fields(AccountAssignments(u)))) == |Params(AccountAssignments(u), accountId)|
    ensures Params(AccountAssignments(u), accountId)[|AccountAssignments(u)|] == Integer(accountId)
  {
    EmitPlaceholders("accounts", AccountColumns, AccountValues(u), accountId);
  }

  /** The `fields` and `params` lists of `update_account`, built by appends. */
  method BuildAccountUpdate(accountId: int, u: AccountUpdate) returns (fields: seq<string>, params: seq<SqlValue>)
    ensures fields == Fields(AccountAssignments(u))
    ensures params == Params(AccountAssignments(u), accountId)
  {
    AccountAssignmentsUnfold(u);
    ghost var n, t := Optional("name", TextValue(u.name)), Optional("type", TextValue(u.accountType));
    ghost var b := Optional("balance", NumberValue(u.balance));
    fields, params := [], [];
    ghost var asg: seq<Assignment> := [];
    if u.name.Some? {
      Snoc(asg, Assignment("name", Text(u.name.value)));
      fields := fields + [Clause("name")];
      params := params + [Text(u.name.value)];
      asg := asg + [Assignment("name", Text(u.name.value))];
    }
    assert asg == n && fields == Fields(asg) && params == Values(asg);
    if u.accountType.Some? {
      Snoc(asg, Assignment("type", Text(u.accountType.value)));
      fields := fields + [Clause("type")];
      params := params + [Text(u.accountType.value)];
      asg := asg + [Assignment("type", Text(u.accountType.value))];
    }
    assert asg == n + t && fields == Fields(asg) && params == Values(asg);
    if u.balance.Some? {
      Snoc(asg, Assignment("balance", Number(u.balance.value)));
      fields := fields + [Clause("balance")];
      params := params + [Number(u.balance.value)];
      asg := asg + [Assignment("balance", Number(u.balance.value))];
    }
    assert asg == n + t + b;
    params := params + [Integer(accountId)];
  }

  /** The `accounts` table: rows by id, the next SERIAL value, and the
      UNIQUE constraint on `name`. */
  class AccountTable {
    var rows: map<int, Account>
    var nextId: int

    ghost predicate Valid()
      reads this
    {
      && nextId > 0
      && (forall id :: id in rows ==> rows[id].id == id && 0 < id < nextId)
      && (forall i, j :: i in rows && j in rows && rows[i].name == rows[j].name ==> i == j)
    }

    constructor ()
      ensures Valid() && rows == map[] && nextId == 1
    {
      rows := map[];
      nextId := 1;
    }

    /** `get_account`: the row with that id, if any. */
    function GetAccount(accountId: int): (r: Option<Account>)
      reads this
      ensures r.None? <==> accountId !in rows
      ensures r.Some? ==> r.value == rows[accountId]
    {
      if accountId in rows then Some(rows[accountId]) else None
    }

    /** Some row has this name. */
    predicate NameTaken(name: string)
      reads this
    {
      exists id :: id in rows && rows[id].name == name
    }

    /** `get_account_by_name`: the row with that name, if any; the UNIQUE
        constraint makes it the only one. */
    function GetAccountByName(name: string): (r: Option<Account>)
      reads this
      requires Valid()
      ensures r.None? <==> !NameTaken(name)
      ensures r.Some? ==> r.value.id in rows && rows[r.value.id] == r.value && r.value.name == name
    {
      if NameTaken(name) then
        var id :| id in rows && rows[id].name == name;
        Some(rows[id])
      else None
    }

    /** `create_account`: inserts a fresh row, unless the name is taken. */
    method CreateAccount(a: AccountCreate) returns (r: Result<Account>)
      requires Valid()
      modifies this
      ensures Valid()
      ensures old(NameTaken(a.name)) ==> r == Failure(UniqueViolation("name")) && rows == old(rows) && nextId == old(nextId)
      ensures !old(NameTaken(a.name)) ==>
        && r == Success(Account(old(nextId), a.name, a.accountType, a.balance))
        && rows == old(rows)[old(nextId) := r.value]
        && nextId == old(nextId) + 1
    {
      if NameTaken(a.name) {
        return Failure(UniqueViolation("name"));
      }
      var row := Account(nextId, a.name, a.accountType, a.balance);
      rows := rows[nextId := row];
      nextId := nextId + 1;
      r := Success(row);
    }

    /** `update_account`: runs the assembled partial UPDATE and reads the row
        back. An empty SET list is a syntax error; a name held by another row
        violates the UNIQUE constraint; a missing id updates nothing. */
    method UpdateAccount(accountId: int, u: AccountUpdate) returns (r: Result<Option<Account>>)
      requires Valid()
      modifies this
      ensures Valid() && nextId == old(nextId)
      ensures AccountAssignments(u) == [] ==> r == Failure(EmptySetClause) && rows == old(rows)
      ensures AccountAssignments(u) != [] && accountId !in old(rows) ==> r == Success(None) && rows == old(rows)
      ensures AccountAssignments(u) != [] && accountId in old(rows) ==>
        if u.name.Some? && exists id :: id in old(rows) && id != accountId && old(rows)[id].name == u.name.value
        then r == Failure(UniqueViolation("name")) && rows == old(rows)
        else rows == old(rows)[accountId := Patched(old(rows)[accountId], u)] && r == Success(Some(rows[accountId]))
    {
      var fields, params := BuildAccountUpdate(accountId, u);
      var asg := AccountAssignments(u);
      if |fields| == 0 {
        return Failure(EmptySetClause);
      }
      if accountId !in rows {
        return Success(None);
      }
      if u.name.Some? && exists id :: id in rows && id != accountId && rows[id].name == u.name.value {
        return Failure(UniqueViolation("name"));
      }
      AccountUpdateEffect(rows[accountId], u);
      rows := rows[accountId := ApplyAll(rows[accountId], asg, AssignAccount)];
      r := Success(GetAccount(accountId));
    }

    /** `delete_account`: true iff a row with that id existed and is gone. */
    method DeleteAccount(accountId: int) returns (deleted: bool)
      requires Valid()
      modifies this
      ensures Valid() && nextId == old(nextId)
      ensures deleted <==> accountId in old(rows)
      ensures rows == old(rows) - {accountId}
    {
      deleted := accountId in rows;
      rows := rows - {accountId};
    }
  }
}
