/** The inventory service: the `inventory_items` table with its create,
    lookup, partial-update and delete operations
    (inventory-service/app/crud.py) and the stock valuation
    (inventory-service/app/utils.py). */
module Inventory {
  import opened Common
  import opened SqlUpdate

  /** `calculate_stock_value`: quantity times unit price. */
  function CalculateStockValue(quantity: int, price: real): (value: real)
    ensures quantity == 0 || price == 0.0 ==> value == 0.0
    ensures quantity >= 0 && price >= 0.0 ==> value >= 0.0
    ensures quantity == 1 ==> value == price
  {
    quantity as real * price
  }

  /** Stock value is additive in the quantity. */
  lemma StockValueLinear(q1: int, q2: int, price: real)
    ensures CalculateStockValue(q1 + q2, price) == CalculateStockValue(q1, price) + CalculateStockValue(q2, price)
  {
    assert (q1 + q2) as real == q1 as real + q2 as real;
  }

  /** More stock of a non-negative price is worth at least as much. */
  lemma StockValueMonotone(q1: int, q2: int, price: real)
    requires q1 <= q2 && price >= 0.0
    ensures CalculateStockValue(q1, price) <= CalculateStockValue(q2, price)
  {
    StockValueLinear(q1, q2 - q1, price);
  }

  /** A row of `inventory_items`; `description` is nullable. */
  datatype Item = Item(id: int, name: string, description: Option<string>, quantity: int, price: real)

  /** `InventoryItemCreate`: `quantity` defaults to 0, `description` to None. */
  datatype ItemCreate = ItemCreate(name: string, description: Option<string>, quantity: int, price: real)

  /** `InventoryItemUpdate`: every field is optional. */
  datatype ItemUpdate = ItemUpdate(name: Option<string>, description: Option<string>, price: Option<real>, quantity: Option<int>)

  /** The column order of `update_item`. */
  const ItemColumns: seq<string> := ["name", "description", "price", "quantity"]

  /** The optional new values, in the column order of `update_item`. */
  function ItemValues(u: ItemUpdate): seq<Option<SqlValue>> {
    [TextValue(u.name), TextValue(u.description), NumberValue(u.price), IntegerValue(u.quantity)]
  }

  /** The assignments `update_item` emits: one per field that is not None
      (so a quantity of 0 and a price of 0.0 are emitted), in the order
      name, description, price, quantity. */
  function ItemAssignments(u: ItemUpdate): seq<Assignment> {
    Emit(ItemColumns, ItemValues(u))
  }

  /** The same list, one optional clause per field. */
  lemma ItemAssignmentsUnfold(u: ItemUpdate)
    ensures ItemAssignments(u) ==
      Optional("name", TextValue(u.name)) + Optional("description", TextValue(u.description))
      + Optional("price", NumberValue(u.price)) + Optional("quantity", IntegerValue(u.quantity))
  {
    var cs, vs := ItemColumns, ItemValues(u);
    assert cs[4..] == [] && vs[4..] == [];
    assert Emit(cs[3..], vs[3..]) == Optional(cs[3], vs[3]) + Emit(cs[4..], vs[4..]);
    assert Emit(cs[2..], vs[2..]) == Optional(cs[2], vs[2]) + Emit(cs[3..], vs[3..]);
    assert Emit(cs[1..], vs[1..]) == Optional(cs[1], vs[1]) + Emit(cs[2..], vs[2..]);
  }

  /** The effect of one `column = value` on an `inventory_items` row. */
  function AssignItem(row: Item, a: Assignment): Item {
    match (a.column, a.value)
    case ("name", Text(s)) => row.(name := s)
    case ("description", Text(s)) => row.(description := Some(s))
    case ("price", Number(x)) => row.(price := x)
    case ("quantity", Integer(n)) => row.(quantity := n)
    case _ => row
  }

  /** The row an update should leave: present fields replaced, the rest kept. */
  function Patched(row: Item, u: ItemUpdate): Item {
    row.(name := u.name.GetOr(row.name),
         description := if u.description.Some? then u.description else row.description,
         price := u.price.GetOr(row.price),
         quantity := u.quantity.GetOr(row.quantity))
  }

  /** A clause is emitted for a field iff it is not None, in the fixed order
      name, description, price, quantity, and there are no other clauses. */
  lemma ItemUpdateColumns(u: ItemUpdate)
    ensures InOrder(Columns(ItemAssignments(u)), ItemColumns)
    ensures "name" in Columns(ItemAssignments(u)) <==> u.name.Some?
    ensures "description" in Columns(ItemAssignments(u)) <==> u.description.Some?
    ensures "price" in Columns(ItemAssignments(u)) <==> u.price.Some?
    ensures "quantity" in Columns(ItemAssignments(u)) <==> u.quantity.Some?
    ensures forall c :: c in Columns(ItemAssignments(u)) ==> c in ItemColumns
    ensures ItemAssignments(u) == [] <==> u.name.None? && u.description.None? && u.price.None? && u.quantity.None?
  {
    var cs, vs := ItemColumns, ItemValues(u);
    EmitInOrder(cs, vs);
    EmitOnlyColumns(cs, vs);
    EmitEmpty(cs, vs);
    EmitPresent(cs, vs, 0);
    EmitPresent(cs, vs, 1);
    EmitPresent(cs, vs, 2);
    EmitPresent(cs, vs, 3);
  }

  /** Zero is a value like any other: `quantity = 0` alone emits one clause. */
  lemma ZeroQuantityEmitted()
    ensures ItemAssignments(ItemUpdate(None, None, None, Some(0))) == [Assignment("quantity", Integer(0))]
    ensures ItemAssignments(ItemUpdate(None, None, Some(0.0), None)) == [Assignment("price", Number(0.0))]
  {
  }

  /** Executing the emitted SET list changes exactly the present fields. */
  lemma ItemUpdateEffect(row: Item, u: ItemUpdate)
    ensures ApplyAll(row, ItemAssignments(u), AssignItem) == Patched(row, u)
  {
    var n, d := Optional("name", TextValue(u.name)), Optional("description", TextValue(u.description));
    var p, q := Optional("price", NumberValue(u.price)), Optional("quantity", IntegerValue(u.quantity));
    ItemAssignmentsUnfold(u);
    ApplyAllAppend(row, n + d + p, q, AssignItem);
    ApplyAllAppend(row, n + d, p, AssignItem);
    ApplyAllAppend(row, n, d, AssignItem);
    var r1 := ApplyAll(row, n, AssignItem);
    var r2 := ApplyAll(r1, d, AssignItem);
    var r3 := ApplyAll(r2, p, AssignItem);
    ApplyOptional(row, "name", TextValue(u.name), AssignItem);
    ApplyOptional(r1, "description", TextValue(u.description), AssignItem);
    ApplyOptional(r2, "price", NumberValue(u.price), AssignItem);
    ApplyOptional(r3, "quantity", IntegerValue(u.quantity), AssignItem);
  }

  /** The statement holds one `%s` per bound parameter, the id last. */
  lemma ItemUpdateWellFormed(itemId: int, u: ItemUpdate)
    ensures Placeholders(UpdateSql("inventory_items", Fields(ItemAssignments(u)))) == |Params(ItemAssignments(u), itemId)|
    ensures Params(ItemAssignments(u), itemId)[|ItemAssignments(u)|] == Integer(itemId)
  {
    EmitPlaceholders("inventory_items", ItemColumns, ItemValues(u), itemId);
  }

  /** The `fields` and `params` lists of `update_item`, built by appends. */
  method BuildItemUpdate(itemId: int, u: ItemUpdate) returns (fields: seq<string>, params: seq<SqlValue>)
    ensures fields == Fields(ItemAssignments(u))
    ensures params == Params(ItemAssignments(u), itemId)
  {
    ItemAssignmentsUnfold(u);
    ghost var n, d := Optional("name", TextValue(u.name)), Optional("description", TextValue(u.description));
    ghost var p, q := Optional("price", NumberValue(u.price)), Optional("quantity", IntegerValue(u.quantity));
    fields, params := [], [];
    ghost var asg: seq<Assignment> := [];
    if u.name.Some? {
      Snoc(asg, Assignment("name", Text(u.name.value)));
      fields := fields + [Clause("name")];
      params := params + [Text(u.name.value)];
      asg := asg + [Assignment("name", Text(u.name.value))];
    }
    assert asg == n && fields == Fields(asg) && params == Values(asg);
    if u.description.Some? {
      Snoc(asg, Assignment("description", Text(u.description.value)));
      fields := fields + [Clause("description")];
      params := params + [Text(u.description.value)];
      asg := asg + [Assignment("description", Text(u.description.value))];
    }
    assert asg == n + d && fields == Fields(asg) && params == Values(asg);
    if u.price.Some? {
      Snoc(asg, Assignment("price", Number(u.price.value)));
      fields := fields + [Clause("price")];
      params := params + [Number(u.price.value)];
      asg := asg + [Assignment("price", Number(u.price.value))];
    }
    assert asg == n + d + p && fields == Fields(asg) && params == Values(asg);
    if u.quantity.Some? {
      Snoc(asg, Assignment("quantity", Integer(u.quantity.value)));
      fields := fields + [Clause("quantity")];
      params := params + [Integer(u.quantity.value)];
      asg := asg + [Assignment("quantity", Integer(u.quantity.value))];
    }
    assert asg == n + d + p + q;
    params := params + [Integer(itemId)];
  }

  /** The `inventory_items` table: rows by id, the next SERIAL value, and the
      UNIQUE constraint on `name`. */
  class ItemTable {
    var rows: map<int, Item>
    var nextId: int

    ghost predicate Valid()
      reads this
    {
      && nextId > 0
      && (forall id :: id in rows ==> rows[id].id == id && 0 < id < nextId)
      && (forall i, j :: i in rows && j in rows && rows[i].name == rows[j].name ==> i == j)
    }

    constructor ()
      ensures Valid() && rows == map[] && nextId == 1
    {
      rows := map[];
      nextId := 1;
    }

    /** `get_item`: the row with that id, if any. */
    function GetItem(itemId: int): (r: Option<Item>)
      reads this
      ensures r.None? <==> itemId !in rows
      ensures r.Some? ==> r.value == rows[itemId]
    {
      if itemId in rows then Some(rows[itemId]) else None
    }

    /** Some row has this name. */
    predicate NameTaken(name: string)
      reads this
    {
      exists id :: id in rows && rows[id].name == name
    }

    /** `get_item_by_name`: the row with that name, if any. */
    function GetItemByName(name: string): (r: Option<Item>)
      reads this
      requires Valid()
      ensures r.None? <==> !NameTaken(name)
      ensures r.Some? ==> r.value.id in rows && rows[r.value.id] == r.value && r.value.name == name
    {
      if NameTaken(name) then
        var id :| id in rows && rows[id].name == name;
        Some(rows[id])
      else None
    }

    /** `create_item`: inserts name, description, quantity and price as
        given, unless the name is taken. */
    method CreateItem(c: ItemCreate) returns (r: Result<Item>)
      requires Valid()
      modifies this
      ensures Valid()
      ensures old(NameTaken(c.name)) ==> r == Failure(UniqueViolation("name")) && rows == old(rows) && nextId == old(nextId)
      ensures !old(NameTaken(c.name)) ==>
        && r == Success(Item(old(nextId), c.name, c.description, c.quantity, c.price))
        && rows == old(rows)[old(nextId) := r.value]
        && nextId == old(nextId) + 1
    {
      if NameTaken(c.name) {
        return Failure(UniqueViolation("name"));
      }
      var row := Item(nextId, c.name, c.description, c.quantity, c.price);
      rows := rows[nextId := row];
      nextId := nextId + 1;
      r := Success(row);
    }

    /** `update_item`: runs the assembled partial UPDATE and reads the row back. */
    method UpdateItem(itemId: int, u: ItemUpdate) returns (r: Result<Option<Item>>)
      requires Valid()
      modifies this
      ensures Valid() && nextId == old(nextId)
      ensures ItemAssignments(u) == [] ==> r == Failure(EmptySetClause) && rows == old(rows)
      ensures ItemAssignments(u) != [] && itemId !in old(rows) ==> r == Success(None) && rows == old(rows)
      ensures ItemAssignments(u) != [] && itemId in old(rows) ==>
        if u.name.Some? && exists id :: id in old(rows) && id != itemId && old(rows)[id].name == u.name.value
        then r == Failure(UniqueViolation("name")) && rows == old(rows)
        else rows == old(rows)[itemId := Patched(old(rows)[itemId], u)] && r == Success(Some(rows[itemId]))
    {
      var fields, params := BuildItemUpdate(itemId, u);
      var asg := ItemAssignments(u);
      if |fields| == 0 {
        return Failure(EmptySetClause);
      }
      if itemId !in rows {
        return Success(None);
      }
      if u.name.Some? && exists id :: id in rows && id != itemId && rows[id].name == u.name.value {
        return Failure(UniqueViolation("name"));
      }
      ItemUpdateEffect(rows[itemId], u);
      rows := rows[itemId := ApplyAll(rows[itemId], asg, AssignItem)];
      r := Success(GetItem(itemId));
    }

    /** `delete_item`: true iff a row with that id existed and is gone. */
    method DeleteItem(itemId: int) returns (deleted: bool)
      requires Valid()
      modifies this
      ensures Valid() && nextId == old(nextId)
      ensures deleted <==> itemId in old(rows)
      ensures rows == old(rows) - {itemId}
    {
      deleted := itemId in rows;
      rows := rows - {itemId};
    }
  }
}
