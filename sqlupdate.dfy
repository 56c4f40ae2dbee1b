/** The partial-UPDATE statement that the ledger, inventory, transaction and
    reporting services assemble by hand: a list of `column = %s` clauses, a
    parameter list holding the clause values followed by the row id, and the
    text `UPDATE <table> SET <clauses joined by ", "> WHERE id = %s;`. */
module SqlUpdate {
  import opened Common

  /** A bound query parameter. */
  datatype SqlValue = Text(text: string) | Number(number: real) | Integer(integer: int) | Stamp(stamp: Timestamp)

  /** One `column = %s` clause together with the value bound to it. */
  datatype Assignment = Assignment(column: string, value: SqlValue)

  /** `"<column> = %s"`. */
  function Clause(column: string): (c: string)
    ensures |c| == |column| + 5 && c[..|column|] == column
  {
    column + " = %s"
  }

  /** Python's `sep.join(parts)`. */
  function Join(sep: string, parts: seq<string>): string {
    if |parts| == 0 then ""
    else if |parts| == 1 then parts[0]
    else parts[0] + sep + Join(sep, parts[1..])
  }

  /** The clause list `fields` the services build, one per assignment. */
  function Fields(asg: seq<Assignment>): (fs: seq<string>)
    ensures |fs| == |asg|
    ensures forall k :: 0 <= k < |asg| ==> fs[k] == Clause(asg[k].column)
  {
    if asg == [] then [] else [Clause(asg[0].column)] + Fields(asg[1..])
  }

  /** The column names of the assignments, in order. */
  function Columns(asg: seq<Assignment>): (cs: seq<string>)
    ensures |cs| == |asg|
    ensures forall k :: 0 <= k < |asg| ==> cs[k] == asg[k].column
  {
    if asg == [] then [] else [asg[0].column] + Columns(asg[1..])
  }

  /** The values bound to the clauses, in order. */
  function Values(asg: seq<Assignment>): (vs: seq<SqlValue>)
    ensures |vs| == |asg|
    ensures forall k :: 0 <= k < |asg| ==> vs[k] == asg[k].value
  {
    if asg == [] then [] else [asg[0].value] + Values(asg[1..])
  }

  /** The parameter list `params`: the assignment values, then the id. */
  function Params(asg: seq<Assignment>, id: int): (ps: seq<SqlValue>)
    ensures |ps| == |asg| + 1
    ensures ps[|asg|] == Integer(id)
    ensures forall k :: 0 <= k < |asg| ==> ps[k] == asg[k].value
  {
    Values(asg) + [Integer(id)]
  }

  lemma {:induction false} ColumnsAppend(a: seq<Assignment>, b: seq<Assignment>)
    ensures Columns(a + b) == Columns(a) + Columns(b)
  {
    if a == [] {
      assert a + b == b;
    } else {
      assert (a + b)[1..] == a[1..] + b;
      ColumnsAppend(a[1..], b);
    }
  }

  lemma {:induction false} FieldsAppend(a: seq<Assignment>, b: seq<Assignment>)
    ensures Fields(a + b) == Fields(a) + Fields(b)
  {
    if a == [] {
      assert a + b == b;
    } else {
      assert (a + b)[1..] == a[1..] + b;
      FieldsAppend(a[1..], b);
    }
  }

  lemma {:induction false} ValuesAppend(a: seq<Assignment>, b: seq<Assignment>)
    ensures Values(a + b) == Values(a) + Values(b)
  {
    if a == [] {
      assert a + b == b;
    } else {
      assert (a + b)[1..] == a[1..] + b;
      ValuesAppend(a[1..], b);
    }
  }

  /** Appending one assignment appends its clause and its value. */
  lemma Snoc(asg: seq<Assignment>, a: Assignment)
    ensures Fields(asg + [a]) == Fields(asg) + [Clause(a.column)]
    ensures Values(asg + [a]) == Values(asg) + [a.value]
  {
    FieldsAppend(asg, [a]);
    ValuesAppend(asg, [a]);
  }

  /** The f-string `UPDATE {table} SET {', '.join(fields)} WHERE id = %s;`. */
  function UpdateSql(table: string, fields: seq<string>): string {
    "UPDATE " + table + " SET " + Join(", ", fields) + (" WHERE id = " + "%s;")
  }

  /** The number of `%s` placeholders, counted as `%` characters. */
  function Placeholders(s: string): nat {
    if s == [] then 0 else (if s[0] == '%' then 1 else 0) + Placeholders(s[1..])
  }

  lemma {:induction false} PlaceholdersAppend(a: string, b: string)
    ensures Placeholders(a + b) == Placeholders(a) + Placeholders(b)
  {
    if a != [] {
      assert a + b != [] && (a + b)[0] == a[0];
      assert (a + b)[1..] == a[1..] + b;
      PlaceholdersAppend(a[1..], b);
    } else {
      assert a + b == b;
    }
  }

  lemma {:induction false} NoPlaceholders(s: string)
    requires '%' !in s
    ensures Placeholders(s) == 0
  {
    if s != [] {
      assert s[0] in s;
      assert forall k :: 0 <= k < |s[1..]| ==> s[1..][k] == s[k + 1];
      NoPlaceholders(s[1..]);
    }
  }

  lemma ClausePlaceholders(column: string)
    requires '%' !in column
    ensures Placeholders(Clause(column)) == 1
  {
    NoPlaceholders(column);
    PlaceholdersAppend(column, " = %s");
  }

  lemma {:induction false} JoinPlaceholders(sep: string, columns: seq<string>)
    requires '%' !in sep
    requires forall k :: 0 <= k < |columns| ==> '%' !in columns[k]
    ensures Placeholders(Join(sep, Clauses(columns))) == |columns|
  {
    if |columns| == 1 {
      ClausePlaceholders(columns[0]);
    } else if |columns| > 1 {
      var cs := Clauses(columns);
      assert cs[1..] == Clauses(columns[1..]);
      ClausePlaceholders(columns[0]);
      NoPlaceholders(sep);
      PlaceholdersAppend(cs[0], sep);
      PlaceholdersAppend(cs[0] + sep, Join(sep, cs[1..]));
      JoinPlaceholders(sep, columns[1..]);
    }
  }

  /** `Clause` applied to each column name. */
  function Clauses(columns: seq<string>): (cs: seq<string>)
    ensures |cs| == |columns|
    ensures forall k :: 0 <= k < |columns| ==> cs[k] == Clause(columns[k])
  {
    if columns == [] then [] else [Clause(columns[0])] + Clauses(columns[1..])
  }

  lemma FieldsAreClauses(asg: seq<Assignment>)
    ensures Fields(asg) == Clauses(Columns(asg))
  {
  }

  /** With placeholder-free table and column names, the statement carries
      exactly one placeholder per bound parameter: one per clause plus the
      id of the WHERE clause. */
  lemma UpdatePlaceholders(table: string, asg: seq<Assignment>, id: int)
    requires '%' !in table
    requires forall k :: 0 <= k < |asg| ==> '%' !in asg[k].column
    ensures Placeholders(UpdateSql(table, Fields(asg))) == |Params(asg, id)|
  {
    var head, body, tail := "UPDATE " + table + " SET ", Join(", ", Fields(asg)), " WHERE id = " + "%s;";
    assert UpdateSql(table, Fields(asg)) == head + body + tail;
    FieldsAreClauses(asg);
    JoinPlaceholders(", ", Columns(asg));
    NoPlaceholders(head);
    WherePlaceholder();
    PlaceholdersAppend(head, body);
    PlaceholdersAppend(head + body, tail);
  }

  lemma WherePlaceholder()
    ensures Placeholders(" WHERE id = " + "%s;") == 1
  {
    assert Placeholders("%s;") == 1 by {
      assert "%s;"[1..] == "s;";
      NoPlaceholders("s;");
    }
    NoPlaceholders(" WHERE id = ");
    PlaceholdersAppend(" WHERE id = ", "%s;");
  }

  /** With no assignment the SET list is empty: the statement reads
      `UPDATE <table> SET  WHERE id = %s;`, which is not valid SQL. */
  lemma EmptySetList(table: string)
    ensures UpdateSql(table, Fields([])) == "UPDATE " + table + " SET  WHERE id = %s;"
  {
  }

  /** `cols` lists some of `order`, in the order `order` gives them. */
  predicate InOrder(cols: seq<string>, order: seq<string>)
    decreases |order|
  {
    if cols == [] then true
    else if order == [] then false
    else if cols[0] == order[0] then InOrder(cols[1..], order[1..])
    else InOrder(cols, order[1..])
  }

  /** A field as a bound value, or None when the request omits it. */
  function TextValue(o: Option<string>): Option<SqlValue> {
    if o.Some? then Some(Text(o.value)) else None
  }

  function NumberValue(o: Option<real>): Option<SqlValue> {
    if o.Some? then Some(Number(o.value)) else None
  }

  function IntegerValue(o: Option<int>): Option<SqlValue> {
    if o.Some? then Some(Integer(o.value)) else None
  }

  /** The clause for one column: present iff its value is. */
  function Optional(column: string, value: Option<SqlValue>): seq<Assignment> {
    if value.Some? then [Assignment(column, value.value)] else []
  }

  /** The clauses a builder emits for `columns` whose optional new values are
      `values`: one assignment per present value, in column order. */
  function Emit(columns: seq<string>, values: seq<Option<SqlValue>>): (asg: seq<Assignment>)
    requires |columns| == |values|
    ensures |asg| <= |columns|
  {
    if values == [] then []
    else Optional(columns[0], values[0]) + Emit(columns[1..], values[1..])
  }

  /** Nothing is emitted exactly when no value is present. */
  lemma {:induction false} EmitEmpty(columns: seq<string>, values: seq<Option<SqlValue>>)
    requires |columns| == |values|
    ensures Emit(columns, values) == [] <==> forall k :: 0 <= k < |values| ==> values[k].None?
  {
    if values != [] {
      EmitEmpty(columns[1..], values[1..]);
      assert forall k :: 1 <= k < |values| ==> values[k] == values[1..][k - 1];
    }
  }

  /** The emitted columns keep the builder's column order. */
  lemma {:induction false} EmitInOrder(columns: seq<string>, values: seq<Option<SqlValue>>)
    requires |columns| == |values|
    ensures InOrder(Columns(Emit(columns, values)), columns)
  {
    if values != [] {
      EmitInOrder(columns[1..], values[1..]);
      var rest := Emit(columns[1..], values[1..]);
      if values[0].Some? {
        var asg := [Assignment(columns[0], values[0].value)] + rest;
        ColumnsAppend([Assignment(columns[0], values[0].value)], rest);
        assert Columns(asg)[1..] == Columns(rest);
      } else {
        assert Emit(columns, values) == rest;
        InOrderSkip(Columns(rest), columns);
      }
    }
  }

  /** An order with one more name in front still admits the columns. */
  lemma {:induction false} InOrderSkip(cols: seq<string>, order: seq<string>)
    requires order != [] && InOrder(cols, order[1..])
    ensures InOrder(cols, order)
    decreases |order|, |cols|
  {
    if cols != [] && cols[0] == order[0] {
      InOrderTail(cols, order[1..]);
    }
  }

  /** Dropping the first column keeps the rest in order. */
  lemma {:induction false} InOrderTail(cols: seq<string>, order: seq<string>)
    requires cols != [] && InOrder(cols, order)
    ensures InOrder(cols[1..], order)
    decreases |order|, |cols| + 1
  {
    if cols[0] == order[0] {
      InOrderSkip(cols[1..], order);
    } else {
      InOrderTail(cols, order[1..]);
      InOrderSkip(cols[1..], order);
    }
  }

  /** With distinct column names, column `k` is emitted exactly when its
      value is present, and only the builder's columns are emitted. */
  lemma {:induction false} EmitPresent(columns: seq<string>, values: seq<Option<SqlValue>>, k: nat)
    requires |columns| == |values| && k < |columns|
    requires forall i, j :: 0 <= i < j < |columns| ==> columns[i] != columns[j]
    ensures columns[k] in Columns(Emit(columns, values)) <==> values[k].Some?
  {
    var head := Optional(columns[0], values[0]);
    var rest := Emit(columns[1..], values[1..]);
    ColumnsAppend(head, rest);
    EmitOnlyColumns(columns[1..], values[1..]);
    if k > 0 {
      EmitPresent(columns[1..], values[1..], k - 1);
    }
  }

  lemma {:induction false} EmitOnlyColumns(columns: seq<string>, values: seq<Option<SqlValue>>)
    requires |columns| == |values|
    ensures forall c :: c in Columns(Emit(columns, values)) ==> c in columns
  {
    if values != [] {
      var head := Optional(columns[0], values[0]);
      var rest := Emit(columns[1..], values[1..]);
      ColumnsAppend(head, rest);
      EmitOnlyColumns(columns[1..], values[1..]);
    }
  }

  /** A builder's statement over placeholder-free names binds one parameter
      per placeholder. */
  lemma EmitPlaceholders(table: string, columns: seq<string>, values: seq<Option<SqlValue>>, id: int)
    requires |columns| == |values|
    requires '%' !in table
    requires forall k :: 0 <= k < |columns| ==> '%' !in columns[k]
    ensures Placeholders(UpdateSql(table, Fields(Emit(columns, values)))) == |Params(Emit(columns, values), id)|
  {
    var asg := Emit(columns, values);
    EmitOnlyColumns(columns, values);
    forall k | 0 <= k < |asg|
      ensures '%' !in asg[k].column
    {
      assert asg[k].column in Columns(asg);
      var i :| 0 <= i < |columns| && columns[i] == asg[k].column;
    }
    UpdatePlaceholders(table, asg, id);
  }

  /** Executes the SET list on one row, left to right; `assign` gives the
      effect of a single assignment on the row type. */
  function ApplyAll<R>(row: R, asg: seq<Assignment>, assign: (R, Assignment) -> R): R
    decreases |asg|
  {
    if asg == [] then row else ApplyAll(assign(row, asg[0]), asg[1..], assign)
  }

  /** An optional clause applies its assignment iff the value is present. */
  lemma ApplyOptional<R>(row: R, column: string, value: Option<SqlValue>, assign: (R, Assignment) -> R)
    ensures ApplyAll(row, Optional(column, value), assign)
         == if value.Some? then assign(row, Assignment(column, value.value)) else row
  {
  }

  /** Running two SET lists in turn is running their concatenation. */
  lemma {:induction false} ApplyAllAppend<R>(row: R, a: seq<Assignment>, b: seq<Assignment>, assign: (R, Assignment) -> R)
    ensures ApplyAll(row, a + b, assign) == ApplyAll(ApplyAll(row, a, assign), b, assign)
    decreases |a|
  {
    if a == [] {
      assert a + b == b;
    } else {
      assert (a + b)[1..] == a[1..] + b;
      ApplyAllAppend(assign(row, a[0]), a[1..], b, assign);
    }
  }
}
