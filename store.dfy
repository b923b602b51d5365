/** The database behind the `Order` and `OrderItem` models, as the order code
    sees it through Django's ORM: the reference data it looks up (sellers,
    buyers, products), the order and item tables, the id sequence, and the
    log of subscription broadcasts. `Model.save()` on an order runs the two
    pre-save receivers, refreshes the automatic timestamps and writes the row
    unless a column constraint refuses it. */
module Store {
  import opened Common
  import opened Models

  /** One `OrderSubscription.broadcast` call: the payload's `order_id` (the
      order's id as a decimal string) and `new_status`. No group is named. */
  datatype Broadcast = Broadcast(orderId: string, newStatus: string)

  datatype Db = Db(
    sellers: set<Id>, buyers: set<Id>, products: set<Id>,
    orders: map<Id, OrderRow>,
    items: seq<OrderItem>,
    nextId: Id,
    outbox: seq<Broadcast>)

  /** The `unique=True` constraints on `order_number` and `receipt_number`. */
  predicate IdentifiersUnique(orders: map<Id, OrderRow>) {
    forall i, j :: i in orders && j in orders && i != j ==>
      orders[i].orderNumber != orders[j].orderNumber && orders[i].receiptNumber != orders[j].receiptNumber
  }

  /** A stored order references an existing seller and buyer and carries a generated receipt number. */
  predicate RowValid(db: Db, row: OrderRow) {
    row.seller in db.sellers && row.buyer in db.buyers && IsReceiptNumber(row.receiptNumber)
  }

  /** A stored item references an existing order and product and has a non-negative quantity. */
  predicate ItemValid(db: Db, item: OrderItem) {
    item.order in db.orders && item.product in db.products && item.quantity >= 0
  }

  /** What the schema's constraints and the receivers keep true of the tables. */
  predicate Valid(db: Db) {
    && (forall id :: id in db.orders ==> id < db.nextId && RowValid(db, db.orders[id]))
    && IdentifiersUnique(db.orders)
    && (forall k :: 0 <= k < |db.items| ==> ItemValid(db, db.items[k]))
  }

  /** Some other stored order already holds the order number or the receipt number of `row`. */
  predicate Clashes(orders: map<Id, OrderRow>, id: Id, row: OrderRow) {
    exists other :: other in orders && other != id &&
      (orders[other].orderNumber == row.orderNumber || orders[other].receiptNumber == row.receiptNumber)
  }

  // ---------------------------------------------------------------------------
  // Saving an order

  /** The save ends in an INSERT: the instance has no key, or its key names no
      stored row, so the UPDATE Django tries first matches nothing and it
      falls back to an INSERT under that key. */
  predicate Inserts(db: Db, d: Draft) {
    d.pk.None? || d.pk.value !in db.orders
  }

  datatype SaveOutcome = SaveOutcome(db: Db, draft: Draft, result: Result<Id>)

  /** `order.save()`: an instance without a primary key is inserted under the
      next id; one with a key overwrites the row under that key, or is inserted
      under it when no row has that key. The instance keeps what the receivers
      and timestamps assigned even when the write is refused. */
  function SaveOrder(db: Db, d: Draft, now: Time, uuid: Uuid4, draws: Draws): (out: SaveOutcome)
    ensures out.result.Failure? ==> out.db == db && out.result.error == IntegrityError
    ensures out.result.Success? ==>
      var id := out.result.value;
      id in out.db.orders &&
      var row := out.db.orders[id];
      && (d.pk.None? ==> id == db.nextId)
      && (d.pk.Some? ==> id == d.pk.value)
      && out.db == db.(orders := db.orders[id := row], nextId := out.db.nextId)
      && id < out.db.nextId && db.nextId <= out.db.nextId
      && row.seller == d.seller && row.buyer == d.buyer && row.status == d.status
      && row.name == d.name && row.surname == d.surname && row.phoneNumber == d.phoneNumber
      && row.address == d.address && row.email == d.email
      && row.updateDate == now
      && (Inserts(db, d) ==> row.createdAt == now)
      && (!Inserts(db, d) ==> Some(row.createdAt) == d.createdAt)
      && Some(row.orderNumber) == AssignOrderNumber(d.orderNumber, uuid)
      && row.receiptNumber == AssignReceiptNumber(d.receiptNumber, draws)
      && !Clashes(db.orders, id, row)
    ensures out.draft.pk == (if out.result.Success? then Some(out.result.value) else d.pk)
    ensures out.draft == Prepared(d, Inserts(db, d), now, uuid, draws).(pk := out.draft.pk)
  {
    var p := Prepared(d, Inserts(db, d), now, uuid, draws);
    if p.createdAt.None? then
      SaveOutcome(db, p, Failure(IntegrityError))
    else
      var id := if d.pk.None? then db.nextId else d.pk.value;
      var row := RowOf(p);
      if row.seller !in db.sellers || row.buyer !in db.buyers || Clashes(db.orders, id, row) then
        SaveOutcome(db, p, Failure(IntegrityError))
      else
        var nextId := if id < db.nextId then db.nextId else id + 1;
        SaveOutcome(db.(orders := db.orders[id := row], nextId := nextId), p.(pk := Some(id)), Success(id))
  }

  /** An instance whose receipt number is empty or already well formed. */
  predicate DraftReceiptOk(d: Draft) {
    d.receiptNumber == "" || IsReceiptNumber(d.receiptNumber)
  }

  /** A successful save keeps the tables valid: in particular no two orders
      ever share an order number or a receipt number. */
  lemma SavePreservesValid(db: Db, d: Draft, now: Time, uuid: Uuid4, draws: Draws)
    requires Valid(db) && DraftReceiptOk(d)
    ensures Valid(SaveOrder(db, d, now, uuid, draws).db)
  {
    var out := SaveOrder(db, d, now, uuid, draws);
    if out.result.Success? {
      var id := out.result.value;
      var row := out.db.orders[id];
      assert RowValid(out.db, row);
      forall i, j | i in out.db.orders && j in out.db.orders && i != j
        ensures out.db.orders[i].orderNumber != out.db.orders[j].orderNumber
        ensures out.db.orders[i].receiptNumber != out.db.orders[j].receiptNumber
      {
        if i == id {
          assert j in db.orders && j != id;
        } else if j == id {
          assert i in db.orders && i != id;
        }
      }
    }
  }

  /** A save whose identifiers are already taken by another order is refused and changes nothing. */
  lemma SaveRefusesDuplicate(db: Db, d: Draft, now: Time, uuid: Uuid4, draws: Draws, other: Id)
    requires other in db.orders && d.pk != Some(other) && (d.pk.None? ==> other != db.nextId)
    requires var p := Prepared(d, Inserts(db, d), now, uuid, draws);
      db.orders[other].orderNumber == p.orderNumber.value || db.orders[other].receiptNumber == p.receiptNumber
    ensures SaveOrder(db, d, now, uuid, draws).result == Failure(IntegrityError)
    ensures SaveOrder(db, d, now, uuid, draws).db == db
  {
    var p := Prepared(d, Inserts(db, d), now, uuid, draws);
    if p.createdAt.Some? {
      var id := if d.pk.None? then db.nextId else d.pk.value;
      var row := RowOf(p);
      assert other in db.orders && other != id &&
        (db.orders[other].orderNumber == row.orderNumber || db.orders[other].receiptNumber == row.receiptNumber);
    }
  }

  /** Inserting a new order succeeds whenever its seller and buyer exist and the
      drawn identifiers are not taken: uniqueness is the only way it can fail. */
  lemma NewOrderSaveSucceeds(db: Db, d: Draft, now: Time, uuid: Uuid4, draws: Draws)
    requires Valid(db)
    requires d.pk.None? && d.orderNumber.None? && d.receiptNumber == ""
    requires d.seller in db.sellers && d.buyer in db.buyers
    requires forall id :: id in db.orders ==>
      db.orders[id].orderNumber != uuid && db.orders[id].receiptNumber != ReceiptFromDraws(draws)
    ensures SaveOrder(db, d, now, uuid, draws).result == Success(db.nextId)
  {
    var row := RowOf(Prepared(d, true, now, uuid, draws));
    assert row.orderNumber == uuid && row.receiptNumber == ReceiptFromDraws(draws);
    assert !Clashes(db.orders, db.nextId, row);
  }

  /** Saving a fetched order again, with any contact fields and status, always
      succeeds: its identifiers are already its own, so the receivers leave
      them and the uniqueness constraints hold. */
  lemma ResaveSucceeds(db: Db, id: Id, d: Draft, now: Time, uuid: Uuid4, draws: Draws)
    requires Valid(db) && id in db.orders
    requires var row := db.orders[id];
      && d.pk == Some(id) && d.seller == row.seller && d.buyer == row.buyer
      && d.orderNumber == Some(row.orderNumber) && d.receiptNumber == row.receiptNumber
      && d.createdAt == Some(row.createdAt)
    ensures var out := SaveOrder(db, d, now, uuid, draws);
      && out.result == Success(id)
      && out.db == db.(orders := db.orders[id := db.orders[id].(
           name := d.name, surname := d.surname, phoneNumber := d.phoneNumber,
           address := d.address, email := d.email, status := d.status, updateDate := now)])
  {
    var row := RowOf(Prepared(d, false, now, uuid, draws));
    assert row.orderNumber == db.orders[id].orderNumber && row.receiptNumber == db.orders[id].receiptNumber;
    assert !Clashes(db.orders, id, row);
  }

  /** Saving an instance whose key names no stored row (its row was deleted
      since it was fetched) inserts it under that key with `created_at` stamped
      now, whatever `created_at` it held; only a missing seller or buyer or a
      taken identifier refuses it. */
  lemma SaveWithoutStoredRowInserts(db: Db, d: Draft, now: Time, uuid: Uuid4, draws: Draws)
    requires d.pk.Some? && d.pk.value !in db.orders
    ensures var out := SaveOrder(db, d, now, uuid, draws);
      var row := RowOf(Prepared(d, true, now, uuid, draws));
      && (out.result.Success? ==> out.result.value == d.pk.value && out.db.orders[d.pk.value].createdAt == now)
      && (out.result.Success? <==>
            d.seller in db.sellers && d.buyer in db.buyers && !Clashes(db.orders, d.pk.value, row))
  {
  }

  // ---------------------------------------------------------------------------
  // Items and deletion

  /** `order_item.save()`: the foreign keys must resolve and the
      `PositiveIntegerField` check (quantity >= 0) must hold. */
  function InsertItem(db: Db, item: OrderItem): (r: Result<Db>)
    ensures r.Success? <==> ItemValid(db, item)
    ensures r.Success? ==> r.value == db.(items := db.items + [item])
    ensures r.Failure? ==> r.error == IntegrityError
  {
    if item.order in db.orders && item.product in db.products && item.quantity >= 0 then
      Success(db.(items := db.items + [item]))
    else
      Failure(IntegrityError)
  }

  /** The items of order `id`, in table order. */
  function ItemsOf(items: seq<OrderItem>, id: Id): (r: seq<OrderItem>)
    ensures forall x :: x in r <==> x in items && x.order == id
    ensures |r| <= |items|
  {
    if items == [] then []
    else (if items[0].order == id then [items[0]] else []) + ItemsOf(items[1..], id)
  }

  /** The items of every other order, in table order. */
  function ItemsNotOf(items: seq<OrderItem>, id: Id): (r: seq<OrderItem>)
    ensures forall x :: x in r <==> x in items && x.order != id
    ensures |r| <= |items|
  {
    if items == [] then []
    else (if items[0].order != id then [items[0]] else []) + ItemsNotOf(items[1..], id)
  }

  lemma {:induction false} ItemsOfAppend(a: seq<OrderItem>, b: seq<OrderItem>, id: Id)
    ensures ItemsOf(a + b, id) == ItemsOf(a, id) + ItemsOf(b, id)
  {
    if a == [] {
      assert a + b == b;
    } else {
      assert (a + b)[0] == a[0] && (a + b)[1..] == a[1..] + b;
      ItemsOfAppend(a[1..], b, id);
    }
  }

  lemma {:induction false} ItemsOfNone(items: seq<OrderItem>, id: Id)
    requires forall x :: x in items ==> x.order != id
    ensures ItemsOf(items, id) == []
  {
    if items != [] {
      ItemsOfNone(items[1..], id);
    }
  }

  /** One step of each filter, counted as multisets: the head goes to exactly one side. */
  lemma ItemsFiltersStep(items: seq<OrderItem>, id: Id)
    requires items != []
    ensures multiset(items) == multiset{items[0]} + multiset(items[1..])
    ensures multiset(ItemsOf(items, id)) ==
      (if items[0].order == id then multiset{items[0]} else multiset{}) + multiset(ItemsOf(items[1..], id))
    ensures multiset(ItemsNotOf(items, id)) ==
      (if items[0].order != id then multiset{items[0]} else multiset{}) + multiset(ItemsNotOf(items[1..], id))
  {
    assert items == [items[0]] + items[1..];
  }

  /** The two filters split the table: every item goes to exactly one side. */
  lemma {:induction false} ItemsPartition(items: seq<OrderItem>, id: Id)
    ensures multiset(items) == multiset(ItemsOf(items, id)) + multiset(ItemsNotOf(items, id))
  {
    if items != [] {
      ItemsPartition(items[1..], id);
      ItemsFiltersStep(items, id);
    }
  }

  /** `order.delete()`: the order row goes and, by `on_delete=CASCADE`, so does every item of it. */
  function DeleteOrder(db: Db, id: Id): (r: Db)
    ensures id !in r.orders
    ensures forall o :: o != id ==> (o in r.orders <==> o in db.orders)
    ensures forall o :: o in r.orders ==> r.orders[o] == db.orders[o]
    ensures forall x :: x in r.items <==> x in db.items && x.order != id
    ensures r == db.(orders := r.orders, items := r.items)
  {
    db.(orders := db.orders - {id}, items := ItemsNotOf(db.items, id))
  }

  /** Deleting an order removes exactly its items, keeps every other item and keeps the tables valid. */
  lemma DeleteCascades(db: Db, id: Id)
    requires Valid(db)
    ensures var after := DeleteOrder(db, id);
      && Valid(after)
      && id !in after.orders
      && ItemsOf(after.items, id) == []
      && multiset(db.items) == multiset(ItemsOf(db.items, id)) + multiset(after.items)
  {
    var after := DeleteOrder(db, id);
    ItemsPartition(db.items, id);
    OtherItemsStayValid(db, id);
    ItemsOfNone(after.items, id);
  }

  /** The items the cascade keeps still reference a stored order. */
  lemma OtherItemsStayValid(db: Db, id: Id)
    requires Valid(db)
    ensures var after := DeleteOrder(db, id);
      forall k :: 0 <= k < |after.items| ==> ItemValid(after, after.items[k])
  {
    var after := DeleteOrder(db, id);
    forall k | 0 <= k < |after.items| ensures ItemValid(after, after.items[k]) {
      assert after.items[k] in db.items;
    }
  }

  // ---------------------------------------------------------------------------
  // The store object

  /** The database connection the mutations use. The reference data is fixed
      for the duration of a mutation; the order tables change in place. */
  class OrderStore {
    const sellers: set<Id>
    const buyers: set<Id>
    const products: set<Id>
    var orders: map<Id, OrderRow>
    var items: seq<OrderItem>
    var nextId: Id
    var outbox: seq<Broadcast>

    function State(): Db
      reads this
    {
      Db(sellers, buyers, products, orders, items, nextId, outbox)
    }

    /** Empty order tables over the given reference data; ids start at 1. */
    constructor (sellers: set<Id>, buyers: set<Id>, products: set<Id>)
      ensures State() == Db(sellers, buyers, products, map[], [], 1, [])
      ensures Valid(State())
    {
      this.sellers, this.buyers, this.products := sellers, buyers, products;
      orders, items, nextId, outbox := map[], [], 1, [];
    }

    /** `Order.objects.get(pk=id)`: a new instance of the stored row, or `null` for `DoesNotExist`. */
    method Get(id: Id) returns (inst: OrderInstance?)
      ensures inst != null <==> id in orders
      ensures inst != null ==> fresh(inst) && inst.Snapshot() == DraftOf(id, orders[id])
    {
      if id in orders {
        inst := new OrderInstance(DraftOf(id, orders[id]));
      } else {
        inst := null;
      }
    }

    /** `inst.save()`: the receivers and timestamps update the instance in place, then the row is written. */
    method Save(inst: OrderInstance, now: Time, uuid: Uuid4, draws: Draws) returns (r: Result<Id>)
      modifies this, inst
      ensures var out := SaveOrder(old(State()), old(inst.Snapshot()), now, uuid, draws);
        State() == out.db && inst.Snapshot() == out.draft && r == out.result
    {
      ghost var d, before := inst.Snapshot(), State();
      var adding := Inserts(State(), inst.Snapshot());
      inst.PreSave(adding, now, uuid, draws);
      ghost var p := Prepared(d, Inserts(before, d), now, uuid, draws);
      if inst.createdAt.None? {
        return Failure(IntegrityError);
      }
      var id := if inst.pk.None? then nextId else inst.pk.value;
      var row := RowOf(inst.Snapshot());
      if row.seller !in sellers || row.buyer !in buyers || Clashes(orders, id, row) {
        return Failure(IntegrityError);
      }
      orders := orders[id := row];
      if nextId <= id {
        nextId := id + 1;
      }
      inst.pk := Some(id);
      r := Success(id);
      assert SaveOrder(before, d, now, uuid, draws) == SaveOutcome(State(), p.(pk := Some(id)), r);
    }

    /** `order_item.save()`. */
    method SaveItem(item: OrderItem) returns (r: Option<Error>)
      modifies this
      ensures var out := InsertItem(old(State()), item);
        (out.Success? ==> State() == out.value && r.None?) &&
        (out.Failure? ==> State() == old(State()) && r == Some(out.error))
    {
      if item.order in orders && item.product in products && item.quantity >= 0 {
        items := items + [item];
        r := None;
      } else {
        r := Some(IntegrityError);
      }
    }

    /** `order.delete()`, cascading to the order's items. */
    method Delete(id: Id)
      modifies this
      ensures State() == DeleteOrder(old(State()), id)
    {
      orders := orders - {id};
      items := ItemsNotOf(items, id);
    }

    /** `OrderSubscription.broadcast(payload=...)`: the payload is appended to the outbox. */
    method Publish(b: Broadcast)
      modifies this
      ensures State() == old(State()).(outbox := old(outbox) + [b])
    {
      outbox := outbox + [b];
    }
  }
}
