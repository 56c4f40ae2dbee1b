/** The transaction service: the `transactions` table with its create,
    lookup, partial-update and delete operations
    (transaction-service/app/crud.py) and the type check
    (transaction-service/app/utils.py). */
module Transactions {
  import opened Common
  import opened SqlUpdate

  /** `validate_transaction_type`: membership in `["Debit", "Credit"]`,
      case-sensitive and total over strings. */
  function ValidateTransactionType(transactionType: string): (valid: bool)
    ensures valid <==> transactionType == "Debit" || transactionType == "Credit"
  {
    transactionType in ["Debit", "Credit"]
  }

  /** Case variants and the empty string are rejected. */
  lemma ValidateTransactionTypeExamples()
    ensures ValidateTransactionType("Debit") && ValidateTransactionType("Credit")
    ensures !ValidateTransactionType("credit") && !ValidateTransactionType("DEBIT")
    ensures !ValidateTransactionType("")
  {
  }

  /** A row of `transactions`; `account_id` carries no foreign key. */
  datatype Transaction = Transaction(id: int, description: string, amount: real, date: Timestamp,
                                     accountId: int, transactionType: string)

  /** `TransactionCreate`. */
  datatype TransactionCreate = TransactionCreate(description: string, amount: real, accountId: int, transactionType: string)

  /** `TransactionUpdate`: every field is optional. */
  datatype TransactionUpdate = TransactionUpdate(description: Option<string>, amount: Option<real>,
                                                 accountId: Option<int>, transactionType: Option<string>)

  /** The column order of `update_transaction`. */
  const TransactionColumns: seq<string> := ["description", "amount", "account_id", "transaction_type"]

  /** The optional new values, in the column order of `update_transaction`. */
  function TransactionValues(u: TransactionUpdate): seq<Option<SqlValue>> {
    [TextValue(u.description), NumberValue(u.amount), IntegerValue(u.accountId), TextValue(u.transactionType)]
  }

  /** The assignments `update_transaction` emits: one per field that is not
      None, in the order description, amount, account_id, transaction_type. */
  function TransactionAssignments(u: TransactionUpdate): seq<Assignment> {
    Emit(TransactionColumns, TransactionValues(u))
  }

  /** The same list, one optional clause per field. */
  lemma TransactionAssignmentsUnfold(u: TransactionUpdate)
    ensures TransactionAssignments(u) ==
      Optional("description", TextValue(u.description)) + Optional("amount", NumberValue(u.amount))
      + Optional("account_id", IntegerValue(u.accountId)) + Optional("transaction_type", TextValue(u.transactionType))
  {
    var cs, vs := TransactionColumns, TransactionValues(u);
    assert cs[4..] == [] && vs[4..] == [];
    assert Emit(cs[3..], vs[3..]) == Optional(cs[3], vs[3]) + Emit(cs[4..], vs[4..]);
    assert Emit(cs[2..], vs[2..]) == Optional(cs[2], vs[2]) + Emit(cs[3..], vs[3..]);
    assert Emit(cs[1..], vs[1..]) == Optional(cs[1], vs[1]) + Emit(cs[2..], vs[2..]);
  }

  /** The effect of one `column = value` on a `transactions` row. */
  function AssignTransaction(row: Transaction, a: Assignment): Transaction {
    match (a.column, a.value)
    case ("description", Text(s)) => row.(description := s)
    case ("amount", Number(x)) => row.(amount := x)
    case ("account_id", Integer(n)) => row.(accountId := n)
    case ("transaction_type", Text(s)) => row.(transactionType := s)
    case _ => row
  }

  /** The row an update should leave: present fields replaced; the id and the
      date are never touched. */
  function Patched(row: Transaction, u: TransactionUpdate): Transaction {
    row.(description := u.description.GetOr(row.description),
         amount := u.amount.GetOr(row.amount),
         accountId := u.accountId.GetOr(row.accountId),
         transactionType := u.transactionType.GetOr(row.transactionType))
  }

  /** A clause is emitted for a field iff it is not None, in the fixed order
      description, amount, account_id, transaction_type. */
  lemma TransactionUpdateColumns(u: TransactionUpdate)
    ensures InOrder(Columns(TransactionAssignments(u)), TransactionColumns)
    ensures "description" in Columns(TransactionAssignments(u)) <==> u.description.Some?
    ensures "amount" in Columns(TransactionAssignments(u)) <==> u.amount.Some?
    ensures "account_id" in Columns(TransactionAssignments(u)) <==> u.accountId.Some?
    ensures "transaction_type" in Columns(TransactionAssignments(u)) <==> u.transactionType.Some?
    ensures forall c :: c in Columns(TransactionAssignments(u)) ==> c in TransactionColumns
    ensures TransactionAssignments(u) == [] <==>
      u.description.None? && u.amount.None? && u.accountId.None? && u.transactionType.None?
  {
    var cs, vs := TransactionColumns, TransactionValues(u);
    EmitInOrder(cs, vs);
    EmitOnlyColumns(cs, vs);
    EmitEmpty(cs, vs);
    EmitPresent(cs, vs, 0);
    EmitPresent(cs, vs, 1);
    EmitPresent(cs, vs, 2);
    EmitPresent(cs, vs, 3);
  }

  /** Executing the emitted SET list changes exactly the present fields. */
  lemma TransactionUpdateEffect(row: Transaction, u: TransactionUpdate)
    ensures ApplyAll(row, TransactionAssignments(u), AssignTransaction) == Patched(row, u)
  {
    var d, m := Optional("description", TextValue(u.description)), Optional("amount", NumberValue(u.amount));
    var a, t := Optional("account_id", IntegerValue(u.accountId)), Optional("transaction_type", TextValue(u.transactionType));
    TransactionAssignmentsUnfold(u);
    ApplyAllAppend(row, d + m + a, t, AssignTransaction);
    ApplyAllAppend(row, d + m, a, AssignTransaction);
    ApplyAllAppend(row, d, m, AssignTransaction);
    var r1 := ApplyAll(row, d, AssignTransaction);
    var r2 := ApplyAll(r1, m, AssignTransaction);
    var r3 := ApplyAll(r2, a, AssignTransaction);
    ApplyOptional(row, "description", TextValue(u.description), AssignTransaction);
    ApplyOptional(r1, "amount", NumberValue(u.amount), AssignTransaction);
    ApplyOptional(r2, "account_id", IntegerValue(u.accountId), AssignTransaction);
    ApplyOptional(r3, "transaction_type", TextValue(u.transactionType), AssignTransaction);
  }

  /** The statement holds one `%s` per bound parameter, the id last. */
  lemma TransactionUpdateWellFormed(transactionId: int, u: TransactionUpdate)
    ensures Placeholders(UpdateSql("transactions", Fields(TransactionAssignments(u))))
         == |Params(TransactionAssignments(u), transactionId)|
    ensures Params(TransactionAssignments(u), transactionId)[|TransactionAssignments(u)|] == Integer(transactionId)
  {
    EmitPlaceholders("transactions", TransactionColumns, TransactionValues(u), transactionId);
  }

  /** The `fields` and `params` lists of `update_transaction`, built by appends. */
  method BuildTransactionUpdate(transactionId: int, u: TransactionUpdate) returns (fields: seq<string>, params: seq<SqlValue>)
    ensures fields == Fields(TransactionAssignments(u))
    ensures params == Params(TransactionAssignments(u), transactionId)
  {
    TransactionAssignmentsUnfold(u);
    ghost var d, m := Optional("description", TextValue(u.description)), Optional("amount", NumberValue(u.amount));
    ghost var a, t := Optional("account_id", IntegerValue(u.accountId)), Optional("transaction_type", TextValue(u.transactionType));
    fields, params := [], [];
    ghost var asg: seq<Assignment> := [];
    if u.description.Some? {
      Snoc(asg, Assignment("description", Text(u.description.value)));
      fields := fields + [Clause("description")];
      params := params + [Text(u.description.value)];
      asg := asg + [Assignment("description", Text(u.description.value))];
    }
    assert asg == d && fields == Fields(asg) && params == Values(asg);
    if u.amount.Some? {
      Snoc(asg, Assignment("amount", Number(u.amount.value)));
      fields := fields + [Clause("amount")];
      params := params + [Number(u.amount.value)];
      asg := asg + [Assignment("amount", Number(u.amount.value))];
    }
    assert asg == d + m && fields == Fields(asg) && params == Values(asg);
    if u.accountId.Some? {
      Snoc(asg, Assignment("account_id", Integer(u.accountId.value)));
      fields := fields + [Clause("account_id")];
      params := params + [Integer(u.accountId.value)];
      asg := asg + [Assignment("account_id", Integer(u.accountId.value))];
    }
    assert asg == d + m + a && fields == Fields(asg) && params == Values(asg);
    if u.transactionType.Some? {
      Snoc(asg, Assignment("transaction_type", Text(u.transactionType.value)));
      fields := fields + [Clause("transaction_type")];
      params := params + [Text(u.transactionType.value)];
      asg := asg + [Assignment("transaction_type", Text(u.transactionType.value))];
    }
    assert asg == d + m + a + t;
    params := params + [Integer(transactionId)];
  }

  /** The `transactions` table: rows by id and the next SERIAL value. */
  class TransactionTable {
    var rows: map<int, Transaction>
    var nextId: int

    ghost predicate Valid()
      reads this
    {
      && nextId > 0
      && (forall id :: id in rows ==> rows[id].id == id && 0 < id < nextId)
    }

    constructor ()
      ensures Valid() && rows == map[] && nextId == 1
    {
      rows := map[];
      nextId := 1;
    }

    /** `get_transaction`: the row with that id, if any. */
    function GetTransaction(transactionId: int): (r: Option<Transaction>)
      reads this
      ensures r.None? <==> transactionId !in rows
      ensures r.Some? ==> r.value == rows[transactionId]
    {
      if transactionId in rows then Some(rows[transactionId]) else None
    }

    /** `create_transaction`: inserts the request exactly as given, stamped
        with the clock reading `now`. The type is not validated, the account
        is not checked, and no balance anywhere changes. */
    method CreateTransaction(c: TransactionCreate, now: Timestamp) returns (t: Transaction)
      requires Valid()
      modifies this
      ensures Valid()
      ensures t == Transaction(old(nextId), c.description, c.amount, now, c.accountId, c.transactionType)
      ensures rows == old(rows)[t.id := t] && nextId == old(nextId) + 1
      ensures t.id !in old(rows)
    {
      t := Transaction(nextId, c.description, c.amount, now, c.accountId, c.transactionType);
      rows := rows[nextId := t];
      nextId := nextId + 1;
    }

    /** `update_transaction`: runs the assembled partial UPDATE and reads the
        row back. An empty SET list is a syntax error; a missing id updates
        nothing. */
    method UpdateTransaction(transactionId: int, u: TransactionUpdate) returns (r: Result<Option<Transaction>>)
      requires Valid()
      modifies this
      ensures Valid() && nextId == old(nextId)
      ensures TransactionAssignments(u) == [] ==> r == Failure(EmptySetClause) && rows == old(rows)
      ensures TransactionAssignments(u) != [] && transactionId !in old(rows) ==> r == Success(None) && rows == old(rows)
      ensures TransactionAssignments(u) != [] && transactionId in old(rows) ==>
        && rows == old(rows)[transactionId := Patched(old(rows)[transactionId], u)]
        && r == Success(Some(rows[transactionId]))
    {
      var fields, params := BuildTransactionUpdate(transactionId, u);
      var asg := TransactionAssignments(u);
      if |fields| == 0 {
        return Failure(EmptySetClause);
      }
      if transactionId !in rows {
        return Success(None);
      }
      TransactionUpdateEffect(rows[transactionId], u);
      rows := rows[transactionId := ApplyAll(rows[transactionId], asg, AssignTransaction)];
      r := Success(GetTransaction(transactionId));
    }

    /** `delete_transaction`: true iff a row with that id existed and is gone. */
    method DeleteTransaction(transactionId: int) returns (deleted: bool)
      requires Valid()
      modifies this
      ensures Valid() && nextId == old(nextId)
      ensures deleted <==> transactionId in old(rows)
      ensures rows == old(rows) - {transactionId}
    {
      deleted := transactionId in rows;
      rows := rows - {transactionId};
    }
  }
}
