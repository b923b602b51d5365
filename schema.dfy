/** The order part of the GraphQL schema in products/schema.py: the status
    display resolver, the status list, the order filters, and the three order
    mutations `createOrder`, `updateOrder` and `updateOrderStatus`, each as a
    specification function over the database value and a method that runs it
    step by step against an `OrderStore`. */
module Schema {
  import opened Common
  import opened Models
  import opened Store

  // ---------------------------------------------------------------------------
  // Queries

  /** The dictionary `OrderType.resolve_status` looks the stored status up in. */
  const STATUS_DISPLAY: map<string, string> := map[
    "pending" := "В обработке",
    "accepted" := "Заказ принят",
    "prepare" := "Заказ готовиться",
    "created" := "Заказ готов к выдаче",
    "delivery" := "Передан курьеру",
    "canceled" := "Отменен",
    "completed" := "Выполнен",
    "refunded" := "Возврат"
  ]

  /** `OrderType.resolve_status`: the display label of a declared status, and
      any other stored string unchanged (`status_map.get(s, s)`). The labels
      agree with the model's `STATUS_CHOICES`. */
  function ResolveStatus(status: string): (r: string)
    ensures forall i :: 0 <= i < |STATUS_CHOICES| && STATUS_CHOICES[i].token == status ==>
      r == STATUS_CHOICES[i].display
    ensures !IsDeclaredStatus(status) ==> r == status
  {
    DisplayAgreesWithChoices();
    if status in STATUS_DISPLAY then STATUS_DISPLAY[status] else status
  }

  /** The resolver's dictionary has exactly the declared tokens as keys, each mapped to its declared label. */
  lemma DisplayAgreesWithChoices()
    ensures STATUS_DISPLAY.Keys == set i | 0 <= i < |STATUS_CHOICES| :: STATUS_CHOICES[i].token
    ensures forall i :: 0 <= i < |STATUS_CHOICES| ==> STATUS_DISPLAY[STATUS_CHOICES[i].token] == STATUS_CHOICES[i].display
  {
    assert STATUS_DISPLAY.Keys == {"pending", "accepted", "prepare", "created", "delivery", "canceled", "completed", "refunded"};
    assert STATUS_CHOICES[0].token == "pending" && STATUS_CHOICES[1].token == "accepted";
    assert STATUS_CHOICES[2].token == "prepare" && STATUS_CHOICES[3].token == "created";
    assert STATUS_CHOICES[4].token == "delivery" && STATUS_CHOICES[5].token == "canceled";
    assert STATUS_CHOICES[6].token == "completed" && STATUS_CHOICES[7].token == "refunded";
  }

  /** `Query.resolve_statuses`: the declared tokens, in the order the model declares them. */
  function ResolveStatuses(): (r: seq<string>)
    ensures |r| == |STATUS_CHOICES| == 8
    ensures forall i :: 0 <= i < |r| ==> r[i] == STATUS_CHOICES[i].token
    ensures r[0] == DEFAULT_STATUS
  {
    ["pending", "accepted", "prepare", "created", "delivery", "canceled", "completed", "refunded"]
  }

  /** `Query.resolve_orders_by_status`: the stored orders whose status is `status`. */
  function OrdersByStatus(orders: map<Id, OrderRow>, status: string): (r: map<Id, OrderRow>)
    ensures forall id :: id in r <==> id in orders && orders[id].status == status
    ensures forall id :: id in r ==> r[id] == orders[id]
  {
    map id | id in orders && orders[id].status == status :: orders[id]
  }

  /** `Query.resolve_orders_by_seller_id` (and `get_orders_by_seller_id`): the
      stored orders of one seller. The filter never raises, so the
      `except Order.DoesNotExist` branch is dead. */
  function OrdersBySellerId(orders: map<Id, OrderRow>, sellerId: Id): (r: map<Id, OrderRow>)
    ensures forall id :: id in r <==> id in orders && orders[id].seller == sellerId
    ensures forall id :: id in r ==> r[id] == orders[id]
  {
    map id | id in orders && orders[id].seller == sellerId :: orders[id]
  }

  /** `Query.resolve_orders_by_buyer_id`: the stored orders of one buyer. */
  function OrdersByBuyerId(orders: map<Id, OrderRow>, buyerId: Id): (r: map<Id, OrderRow>)
    ensures forall id :: id in r <==> id in orders && orders[id].buyer == buyerId
    ensures forall id :: id in r ==> r[id] == orders[id]
  {
    map id | id in orders && orders[id].buyer == buyerId :: orders[id]
  }

  // ---------------------------------------------------------------------------
  // createOrder

  /** The scalar arguments of `createOrder`. */
  datatype OrderArgs = OrderArgs(
    sellerId: Id, buyerId: Id,
    name: string, surname: string, phoneNumber: string, address: string, email: string)

  /** The database after a mutation and what the mutation returned or raised. */
  datatype Outcome = Outcome(db: Db, result: Result<Id>)

  /** The database after the item loop, and the exception that ended it early, if any. */
  datatype ItemsOutcome = ItemsOutcome(db: Db, error: Option<Error>)

  function Min(a: nat, b: nat): nat {
    if a < b then a else b
  }

  /** `zip(product_ids, quantities)` turned into items of `order`: as many
      pairs as the shorter list, position by position, duplicates kept. */
  function ZipItems(order: Id, productIds: seq<Id>, quantities: seq<int>): (r: seq<OrderItem>)
    ensures |r| == Min(|productIds|, |quantities|)
    ensures forall k :: 0 <= k < |r| ==> r[k] == OrderItem(order, productIds[k], quantities[k])
  {
    seq(Min(|productIds|, |quantities|), k requires 0 <= k < Min(|productIds|, |quantities|) =>
      OrderItem(order, productIds[k], quantities[k]))
  }

  /** The loop over `zip(product_ids, quantities)`: look the product up, then
      save the item; the first exception ends the loop with the earlier items
      already saved. Only the item table changes. */
  function SaveItems(db: Db, order: Id, productIds: seq<Id>, quantities: seq<int>): (out: ItemsOutcome)
    ensures out.db == db.(items := out.db.items)
    ensures |db.items| <= |out.db.items| && out.db.items[..|db.items|] == db.items
    ensures out.error.Some? ==> out.error.value in {ProductDoesNotExist, IntegrityError}
    decreases |productIds|
  {
    if productIds == [] || quantities == [] then
      ItemsOutcome(db, None)
    else if productIds[0] !in db.products then
      ItemsOutcome(db, Some(ProductDoesNotExist))
    else
      match InsertItem(db, OrderItem(order, productIds[0], quantities[0]))
      case Failure(e) => ItemsOutcome(db, Some(e))
      case Success(next) => SaveItems(next, order, productIds[1..], quantities[1..])
  }

  /** `CreateOrder.mutate`: fetch seller and buyer, save the header, save one
      item per zipped pair, then broadcast the new order's id and status. There
      is no transaction: an exception in the loop leaves the header and the
      items saved before it. */
  function CreateOrderSpec(db: Db, args: OrderArgs, productIds: seq<Id>, quantities: seq<int>,
                           now: Time, uuid: Uuid4, draws: Draws): (out: Outcome)
    ensures out.db.sellers == db.sellers && out.db.buyers == db.buyers && out.db.products == db.products
    ensures |db.items| <= |out.db.items| && out.db.items[..|db.items|] == db.items
    ensures out.result.Success? ==> out.result.value == db.nextId
    ensures out.result.Success? ==>
      out.db.outbox == db.outbox + [Broadcast(Decimal(out.result.value), DEFAULT_STATUS)]
    ensures out.result.Failure? ==> out.db.outbox == db.outbox
    ensures out.result.Failure? ==>
      out.result.error in {SellerDoesNotExist, BuyerDoesNotExist, IntegrityError, ProductDoesNotExist}
  {
    if args.sellerId !in db.sellers then
      Outcome(db, Failure(SellerDoesNotExist))
    else if args.buyerId !in db.buyers then
      Outcome(db, Failure(BuyerDoesNotExist))
    else
      var header := SaveOrder(db, NewOrder(args), now, uuid, draws);
      if header.result.Failure? then
        Outcome(header.db, header.result)
      else
        var id := header.result.value;
        var loop := SaveItems(header.db, id, productIds, quantities);
        if loop.error.Some? then
          Outcome(loop.db, Failure(loop.error.value))
        else
          Outcome(loop.db.(outbox := loop.db.outbox + [Broadcast(Decimal(id), header.draft.status)]), Success(id))
  }

  /** The unsaved header `Order(name=..., seller=seller, buyer=buyer)`. */
  function NewOrder(args: OrderArgs): Draft {
    NewDraft(args.sellerId, args.buyerId, args.name, args.surname, args.phoneNumber, args.address, args.email)
  }

  /** `CreateOrder.mutate`, step by step. */
  method CreateOrder(store: OrderStore, args: OrderArgs, productIds: seq<Id>, quantities: seq<int>,
                     now: Time, uuid: Uuid4, draws: Draws) returns (r: Result<Id>)
    modifies store
    ensures var out := CreateOrderSpec(old(store.State()), args, productIds, quantities, now, uuid, draws);
      store.State() == out.db && r == out.result
  {
    if args.sellerId !in store.sellers {
      return Failure(SellerDoesNotExist);
    }
    if args.buyerId !in store.buyers {
      return Failure(BuyerDoesNotExist);
    }
    var order := new OrderInstance(NewOrder(args));
    r := store.Save(order, now, uuid, draws);
    if r.Failure? {
      return;
    }
    var id := r.value;
    var status := order.status;
    ghost var header := store.State();
    var n := Min(|productIds|, |quantities|);
    var i := 0;
    while i < n
      invariant 0 <= i <= n
      invariant SaveItems(header, id, productIds, quantities) ==
                SaveItems(store.State(), id, productIds[i..], quantities[i..])
    {
      assert productIds[i..][0] == productIds[i] && productIds[i..][1..] == productIds[i + 1..];
      assert quantities[i..][0] == quantities[i] && quantities[i..][1..] == quantities[i + 1..];
      if productIds[i] !in store.products {
        return Failure(ProductDoesNotExist);
      }
      var error := store.SaveItem(OrderItem(id, productIds[i], quantities[i]));
      if error.Some? {
        return Failure(error.value);
      }
      i := i + 1;
    }
    assert productIds[i..] == [] || quantities[i..] == [];
    store.Publish(Broadcast(Decimal(id), status));
  }

  lemma ZipItemsCons(order: Id, productIds: seq<Id>, quantities: seq<int>)
    requires productIds != [] && quantities != []
    ensures ZipItems(order, productIds, quantities) ==
      [OrderItem(order, productIds[0], quantities[0])] + ZipItems(order, productIds[1..], quantities[1..])
  {
  }

  /** Saving the first pair's item and then the items of the next `k - 1` pairs
      saves the items of the first `k` pairs. */
  lemma ZipItemsPrefix(items: seq<OrderItem>, order: Id, productIds: seq<Id>, quantities: seq<int>, k: nat)
    requires 0 < k <= |productIds| && k <= |quantities|
    ensures (items + [OrderItem(order, productIds[0], quantities[0])]) +
              ZipItems(order, productIds[1..][..k - 1], quantities[1..][..k - 1]) ==
            items + ZipItems(order, productIds[..k], quantities[..k])
  {
    var first := OrderItem(order, productIds[0], quantities[0]);
    var whole := ZipItems(order, productIds[..k], quantities[..k]);
    var tail := ZipItems(order, productIds[1..][..k - 1], quantities[1..][..k - 1]);
    assert |whole| == k && |tail| == k - 1;
    forall j | 0 < j < k ensures whole[j] == tail[j - 1] {
      assert tail[j - 1] == OrderItem(order, productIds[j], quantities[j]);
    }
    assert whole == [first] + tail;
  }

  /** The loop appends exactly the zipped items when it runs to the end. */
  lemma {:induction false} SaveItemsAppends(db: Db, order: Id, productIds: seq<Id>, quantities: seq<int>)
    requires SaveItems(db, order, productIds, quantities).error.None?
    ensures SaveItems(db, order, productIds, quantities).db.items == db.items + ZipItems(order, productIds, quantities)
    decreases |productIds|
  {
    if productIds != [] && quantities != [] {
      var next := db.(items := db.items + [OrderItem(order, productIds[0], quantities[0])]);
      SaveItemsAppends(next, order, productIds[1..], quantities[1..]);
      ZipItemsCons(order, productIds, quantities);
    }
  }

  /** The loop runs to the end exactly when every zipped product exists and
      every zipped quantity is non-negative (the order itself being stored). */
  lemma {:induction false} SaveItemsSucceedsIff(db: Db, order: Id, productIds: seq<Id>, quantities: seq<int>)
    requires order in db.orders
    ensures SaveItems(db, order, productIds, quantities).error.None? <==>
      forall j :: 0 <= j < Min(|productIds|, |quantities|) ==> productIds[j] in db.products && quantities[j] >= 0
    decreases |productIds|
  {
    if productIds != [] && quantities != [] {
      if productIds[0] in db.products && quantities[0] >= 0 {
        var next := db.(items := db.items + [OrderItem(order, productIds[0], quantities[0])]);
        SaveItemsSucceedsIff(next, order, productIds[1..], quantities[1..]);
      }
    }
  }

  /** One turn of the loop over a valid first pair: the item is appended and the loop goes on with the rest. */
  lemma SaveItemsStep(db: Db, order: Id, productIds: seq<Id>, quantities: seq<int>) returns (next: Db)
    requires order in db.orders
    requires productIds != [] && quantities != []
    requires productIds[0] in db.products && quantities[0] >= 0
    ensures next == db.(items := db.items + [OrderItem(order, productIds[0], quantities[0])])
    ensures order in next.orders && next.products == db.products
    ensures SaveItems(db, order, productIds, quantities) == SaveItems(next, order, productIds[1..], quantities[1..])
  {
    next := db.(items := db.items + [OrderItem(order, productIds[0], quantities[0])]);
  }

  /** A first pair with an unknown product or a negative quantity ends the loop at once, saving nothing. */
  lemma SaveItemsFailsHere(db: Db, order: Id, productIds: seq<Id>, quantities: seq<int>)
    requires order in db.orders
    requires productIds != [] && quantities != []
    requires productIds[0] !in db.products || quantities[0] < 0
    ensures SaveItems(db, order, productIds, quantities) ==
      ItemsOutcome(db, Some(if productIds[0] !in db.products then ProductDoesNotExist else IntegrityError))
  {
  }

  /** The first failing pair stops the loop: a missing product raises
      `Product.DoesNotExist`, a negative quantity fails the column check, and
      the items of the pairs before it stay saved. */
  lemma {:induction false} SaveItemsStopsAt(db: Db, order: Id, productIds: seq<Id>, quantities: seq<int>, k: nat)
    requires order in db.orders
    requires k < |productIds| && k < |quantities|
    requires productIds[k] !in db.products || quantities[k] < 0
    requires forall j :: 0 <= j < k ==> productIds[j] in db.products && quantities[j] >= 0
    ensures var out := SaveItems(db, order, productIds, quantities);
      && out.error == Some(if productIds[k] !in db.products then ProductDoesNotExist else IntegrityError)
      && out.db.items == db.items + ZipItems(order, productIds[..k], quantities[..k])
    decreases k
  {
    if k > 0 {
      var next := SaveItemsStep(db, order, productIds, quantities);
      var ps, qs := productIds[1..], quantities[1..];
      forall j | 0 <= j < k - 1 ensures ps[j] in next.products && qs[j] >= 0 {
        assert ps[j] == productIds[j + 1] && qs[j] == quantities[j + 1];
      }
      SaveItemsStopsAt(next, order, ps, qs, k - 1);
      assert ps[k - 1] == productIds[k];
      ZipItemsPrefix(db.items, order, productIds, quantities, k);
    } else {
      SaveItemsFailsHere(db, order, productIds, quantities);
      assert ZipItems(order, productIds[..k], quantities[..k]) == [];
      assert db.items + [] == db.items;
    }
  }

  /** Saved items reference a stored order and product and have non-negative quantities. */
  lemma {:induction false} SaveItemsPreservesValid(db: Db, order: Id, productIds: seq<Id>, quantities: seq<int>)
    requires Valid(db)
    ensures Valid(SaveItems(db, order, productIds, quantities).db)
    decreases |productIds|
  {
    if productIds != [] && quantities != [] && productIds[0] in db.products {
      var item := OrderItem(order, productIds[0], quantities[0]);
      if ItemValid(db, item) {
        var next := db.(items := db.items + [item]);
        assert Valid(next);
        SaveItemsPreservesValid(next, order, productIds[1..], quantities[1..]);
      }
    }
  }

  /** An unknown seller or buyer fails before anything is stored or broadcast. */
  lemma CreateOrderUnknownParty(db: Db, args: OrderArgs, productIds: seq<Id>, quantities: seq<int>,
                                now: Time, uuid: Uuid4, draws: Draws)
    requires args.sellerId !in db.sellers || args.buyerId !in db.buyers
    ensures var out := CreateOrderSpec(db, args, productIds, quantities, now, uuid, draws);
      && out.db == db
      && out.result == Failure(if args.sellerId !in db.sellers then SellerDoesNotExist else BuyerDoesNotExist)
  {
  }

  /** Exactly one broadcast, of the new order's id and status, follows a
      successful creation; a failed one broadcasts nothing. */
  lemma CreateOrderBroadcast(db: Db, args: OrderArgs, productIds: seq<Id>, quantities: seq<int>,
                             now: Time, uuid: Uuid4, draws: Draws)
    ensures var out := CreateOrderSpec(db, args, productIds, quantities, now, uuid, draws);
      out.db.outbox == db.outbox +
        (if out.result.Success? then [Broadcast(Decimal(out.result.value), DEFAULT_STATUS)] else [])
  {
  }

  /** A successful creation stores one new `pending` order holding exactly the
      given seller, buyer and contact fields, fresh identifiers, and both
      timestamps at `now`; no other order changes. */
  lemma CreateOrderHeader(db: Db, args: OrderArgs, productIds: seq<Id>, quantities: seq<int>,
                          now: Time, uuid: Uuid4, draws: Draws)
    requires Valid(db)
    requires CreateOrderSpec(db, args, productIds, quantities, now, uuid, draws).result.Success?
    ensures var out := CreateOrderSpec(db, args, productIds, quantities, now, uuid, draws);
      var id := out.result.value;
      && id == db.nextId && id !in db.orders
      && out.db.orders == db.orders[id := OrderRow(args.sellerId, args.buyerId, uuid, ReceiptFromDraws(draws),
           args.name, args.surname, args.phoneNumber, args.address, args.email, DEFAULT_STATUS, now, now)]
  {
  }

  /** A successful creation adds one item per zipped pair, item k carrying
      product k and quantity k, duplicates not merged; these are all the items
      the new order has. */
  lemma CreateOrderItems(db: Db, args: OrderArgs, productIds: seq<Id>, quantities: seq<int>,
                         now: Time, uuid: Uuid4, draws: Draws)
    requires Valid(db)
    requires CreateOrderSpec(db, args, productIds, quantities, now, uuid, draws).result.Success?
    ensures var out := CreateOrderSpec(db, args, productIds, quantities, now, uuid, draws);
      var id := out.result.value;
      && out.db.items == db.items + ZipItems(id, productIds, quantities)
      && ItemsOf(out.db.items, id) == ZipItems(id, productIds, quantities)
      && |ItemsOf(out.db.items, id)| == Min(|productIds|, |quantities|)
  {
    var header := SaveOrder(db, NewOrder(args), now, uuid, draws);
    var id := header.result.value;
    SaveItemsAppends(header.db, id, productIds, quantities);
    var out := CreateOrderSpec(db, args, productIds, quantities, now, uuid, draws);
    assert out.db.items == SaveItems(header.db, id, productIds, quantities).db.items;
    assert header.db.items == db.items;
    ItemsOfNewOrder(db.items, ZipItems(id, productIds, quantities), id);
  }

  /** Items appended for an order no earlier item belongs to are all the items it has. */
  lemma ItemsOfNewOrder(items: seq<OrderItem>, added: seq<OrderItem>, id: Id)
    requires forall x :: x in items ==> x.order != id
    requires forall k :: 0 <= k < |added| ==> added[k].order == id
    ensures ItemsOf(items + added, id) == added
  {
    ItemsOfAppend(items, added, id);
    ItemsOfNone(items, id);
    ItemsOfAll(added, id);
  }

  lemma {:induction false} ItemsOfAll(items: seq<OrderItem>, id: Id)
    requires forall k :: 0 <= k < |items| ==> items[k].order == id
    ensures ItemsOf(items, id) == items
  {
    if items != [] {
      ItemsOfAll(items[1..], id);
    }
  }

  /** Creation keeps the tables valid, whether it succeeds or stops part way. */
  lemma CreateOrderPreservesValid(db: Db, args: OrderArgs, productIds: seq<Id>, quantities: seq<int>,
                                  now: Time, uuid: Uuid4, draws: Draws)
    requires Valid(db)
    ensures Valid(CreateOrderSpec(db, args, productIds, quantities, now, uuid, draws).db)
  {
    if args.sellerId in db.sellers && args.buyerId in db.buyers {
      var header := SaveOrder(db, NewOrder(args), now, uuid, draws);
      SavePreservesValid(db, NewOrder(args), now, uuid, draws);
      if header.result.Success? {
        SaveItemsPreservesValid(header.db, header.result.value, productIds, quantities);
      }
    }
  }

  /** Creation is not atomic: when the pair at position k names an unknown
      product or a negative quantity, the mutation fails with the header and
      the items of positions 0..k-1 stored, and nothing is broadcast. */
  lemma CreateOrderNotAtomic(db: Db, args: OrderArgs, productIds: seq<Id>, quantities: seq<int>,
                             now: Time, uuid: Uuid4, draws: Draws, k: nat)
    requires Valid(db)
    requires args.sellerId in db.sellers && args.buyerId in db.buyers
    requires SaveOrder(db, NewOrder(args), now, uuid, draws).result.Success?
    requires k < |productIds| && k < |quantities|
    requires productIds[k] !in db.products || quantities[k] < 0
    requires forall j :: 0 <= j < k ==> productIds[j] in db.products && quantities[j] >= 0
    ensures var out := CreateOrderSpec(db, args, productIds, quantities, now, uuid, draws);
      && out.result == Failure(if productIds[k] !in db.products then ProductDoesNotExist else IntegrityError)
      && db.nextId in out.db.orders && db.nextId !in db.orders
      && out.db.orders == SaveOrder(db, NewOrder(args), now, uuid, draws).db.orders
      && out.db.items == db.items + ZipItems(db.nextId, productIds[..k], quantities[..k])
      && out.db.outbox == db.outbox
  {
    var header := SaveOrder(db, NewOrder(args), now, uuid, draws);
    SaveItemsStopsAt(header.db, header.result.value, productIds, quantities, k);
  }

  /** Creation succeeds whenever seller and buyer exist, the drawn identifiers
      are not taken and every zipped pair names a known product with a
      non-negative quantity; there is no check that the product list is non-empty. */
  lemma CreateOrderSucceeds(db: Db, args: OrderArgs, productIds: seq<Id>, quantities: seq<int>,
                            now: Time, uuid: Uuid4, draws: Draws)
    requires Valid(db)
    requires args.sellerId in db.sellers && args.buyerId in db.buyers
    requires forall id :: id in db.orders ==>
      db.orders[id].orderNumber != uuid && db.orders[id].receiptNumber != ReceiptFromDraws(draws)
    requires forall j :: 0 <= j < Min(|productIds|, |quantities|) ==> productIds[j] in db.products && quantities[j] >= 0
    ensures CreateOrderSpec(db, args, productIds, quantities, now, uuid, draws).result == Success(db.nextId)
  {
    NewOrderSaveSucceeds(db, NewOrder(args), now, uuid, draws);
    var header := SaveOrder(db, NewOrder(args), now, uuid, draws);
    SaveItemsSucceedsIff(header.db, db.nextId, productIds, quantities);
  }

  /** A new order is listed by the seller, buyer and `pending` filters. */
  lemma CreatedOrderListed(db: Db, args: OrderArgs, productIds: seq<Id>, quantities: seq<int>,
                           now: Time, uuid: Uuid4, draws: Draws)
    requires Valid(db)
    requires CreateOrderSpec(db, args, productIds, quantities, now, uuid, draws).result.Success?
    ensures var out := CreateOrderSpec(db, args, productIds, quantities, now, uuid, draws);
      var id := out.result.value;
      && id in OrdersBySellerId(out.db.orders, args.sellerId)
      && id in OrdersByBuyerId(out.db.orders, args.buyerId)
      && id in OrdersByStatus(out.db.orders, DEFAULT_STATUS)
  {
    CreateOrderHeader(db, args, productIds, quantities, now, uuid, draws);
  }

  // ---------------------------------------------------------------------------
  // updateOrder

  /** The optional arguments of `updateOrder`; `None` is an argument not given. */
  datatype UpdateArgs = UpdateArgs(
    name: Option<string>, surname: Option<string>, phoneNumber: Option<string>,
    address: Option<string>, status: Option<string>)

  /** The `if x is not None: order.x = x` assignments: a given field takes the
      given value, an omitted one keeps its value, and no other field changes. */
  function ApplyUpdate(d: Draft, args: UpdateArgs): (r: Draft)
    ensures r == d.(name := r.name, surname := r.surname, phoneNumber := r.phoneNumber,
                    address := r.address, status := r.status)
    ensures (args.name.Some? ==> r.name == args.name.value) && (args.name.None? ==> r.name == d.name)
    ensures (args.surname.Some? ==> r.surname == args.surname.value) && (args.surname.None? ==> r.surname == d.surname)
    ensures (args.phoneNumber.Some? ==> r.phoneNumber == args.phoneNumber.value)
         && (args.phoneNumber.None? ==> r.phoneNumber == d.phoneNumber)
    ensures (args.address.Some? ==> r.address == args.address.value) && (args.address.None? ==> r.address == d.address)
    ensures (args.status.Some? ==> r.status == args.status.value) && (args.status.None? ==> r.status == d.status)
  {
    d.(name := args.name.GetOr(d.name),
       surname := args.surname.GetOr(d.surname),
       phoneNumber := args.phoneNumber.GetOr(d.phoneNumber),
       address := args.address.GetOr(d.address),
       status := args.status.GetOr(d.status))
  }

  /** `UpdateOrder.mutate`: fetch (raising `Order.DoesNotExist`), assign the given fields, save. No broadcast. */
  function UpdateOrderSpec(db: Db, id: Id, args: UpdateArgs, now: Time, uuid: Uuid4, draws: Draws): (out: Outcome)
    ensures id !in db.orders ==> out == Outcome(db, Failure(OrderDoesNotExist))
    ensures out.result.Failure? ==> out.db == db
    ensures out.result.Success? ==> out.result.value == id && id in out.db.orders
    ensures out.db.items == db.items && out.db.outbox == db.outbox
    ensures forall o :: o != id ==> (o in out.db.orders <==> o in db.orders)
    ensures forall o :: o != id && o in db.orders ==> out.db.orders[o] == db.orders[o]
    ensures out.result.Success? ==>
      var before, row := db.orders[id], out.db.orders[id];
      && row.name == args.name.GetOr(before.name) && row.surname == args.surname.GetOr(before.surname)
      && row.phoneNumber == args.phoneNumber.GetOr(before.phoneNumber)
      && row.address == args.address.GetOr(before.address) && row.status == args.status.GetOr(before.status)
      && row.email == before.email && row.orderNumber == before.orderNumber
      && (before.receiptNumber != "" ==> row.receiptNumber == before.receiptNumber)
      && row.createdAt == before.createdAt && row.updateDate == now
  {
    if id !in db.orders then
      Outcome(db, Failure(OrderDoesNotExist))
    else
      var out := SaveOrder(db, ApplyUpdate(DraftOf(id, db.orders[id]), args), now, uuid, draws);
      Outcome(out.db, out.result)
  }

  /** `UpdateOrder.mutate`, step by step. */
  method UpdateOrder(store: OrderStore, id: Id, args: UpdateArgs, now: Time, uuid: Uuid4, draws: Draws)
    returns (r: Result<Id>)
    modifies store
    ensures var out := UpdateOrderSpec(old(store.State()), id, args, now, uuid, draws);
      store.State() == out.db && r == out.result
  {
    var order := store.Get(id);
    if order == null {
      return Failure(OrderDoesNotExist);
    }
    ghost var fetched := order.Snapshot();
    AssignGiven(order, args);
    assert order.Snapshot() == ApplyUpdate(fetched, args);
    r := store.Save(order, now, uuid, draws);
  }

  /** The `if x is not None: order.x = x` statements of `UpdateOrder.mutate`. */
  method AssignGiven(order: OrderInstance, args: UpdateArgs)
    modifies order`name, order`surname, order`phoneNumber, order`address, order`status
    ensures order.name == args.name.GetOr(old(order.name))
    ensures order.surname == args.surname.GetOr(old(order.surname))
    ensures order.phoneNumber == args.phoneNumber.GetOr(old(order.phoneNumber))
    ensures order.address == args.address.GetOr(old(order.address))
    ensures order.status == args.status.GetOr(old(order.status))
  {
    if args.name.Some? {
      order.name := args.name.value;
    }
    if args.surname.Some? {
      order.surname := args.surname.value;
    }
    if args.phoneNumber.Some? {
      order.phoneNumber := args.phoneNumber.value;
    }
    if args.address.Some? {
      order.address := args.address.value;
    }
    if args.status.Some? {
      order.status := args.status.value;
    }
  }

  /** `updateOrder` on a stored order always succeeds and changes only the
      given fields among name, surname, phone number, address and status, plus
      `update_date`; email, seller, buyer, both identifiers, `created_at`, every
      other order, the items and the outbox stay as they were. An unknown id
      raises and changes nothing. */
  lemma UpdateOrderFrame(db: Db, id: Id, args: UpdateArgs, now: Time, uuid: Uuid4, draws: Draws)
    requires Valid(db)
    ensures var out := UpdateOrderSpec(db, id, args, now, uuid, draws);
      && (id !in db.orders ==> out == Outcome(db, Failure(OrderDoesNotExist)))
      && (id in db.orders ==>
            var row := db.orders[id];
            out == Outcome(db.(orders := db.orders[id := row.(
              name := args.name.GetOr(row.name),
              surname := args.surname.GetOr(row.surname),
              phoneNumber := args.phoneNumber.GetOr(row.phoneNumber),
              address := args.address.GetOr(row.address),
              status := args.status.GetOr(row.status),
              updateDate := now)]), Success(id)))
      && Valid(out.db)
  {
    if id in db.orders {
      var d := ApplyUpdate(DraftOf(id, db.orders[id]), args);
      ResaveSucceeds(db, id, d, now, uuid, draws);
      SavePreservesValid(db, d, now, uuid, draws);
    }
  }

  // ---------------------------------------------------------------------------
  // updateOrderStatus

  /** `Mutation.resolve_update_order_status`: fetch, assign any status string,
      save; an unknown id RETURNS the error value instead of raising. No broadcast. */
  function UpdateOrderStatusSpec(db: Db, id: Id, status: string, now: Time, uuid: Uuid4, draws: Draws): (out: Outcome)
    ensures id !in db.orders ==> out == Outcome(db, Failure(OrderNotFound))
    ensures out.result.Failure? ==> out.db == db
    ensures out.result.Success? ==> out.result.value == id && id in out.db.orders
    ensures out.db.items == db.items && out.db.outbox == db.outbox
    ensures forall o :: o != id ==> (o in out.db.orders <==> o in db.orders)
    ensures forall o :: o != id && o in db.orders ==> out.db.orders[o] == db.orders[o]
    ensures out.result.Success? ==>
      var before, row := db.orders[id], out.db.orders[id];
      && row.status == status && row.updateDate == now
      && row == before.(status := status, updateDate := now, receiptNumber := row.receiptNumber)
      && (before.receiptNumber != "" ==> row.receiptNumber == before.receiptNumber)
  {
    if id !in db.orders then
      Outcome(db, Failure(OrderNotFound))
    else
      var out := SaveOrder(db, DraftOf(id, db.orders[id]).(status := status), now, uuid, draws);
      Outcome(out.db, out.result)
  }

  /** `Mutation.resolve_update_order_status`, step by step. */
  method UpdateOrderStatus(store: OrderStore, id: Id, status: string, now: Time, uuid: Uuid4, draws: Draws)
    returns (r: Result<Id>)
    modifies store
    ensures var out := UpdateOrderStatusSpec(old(store.State()), id, status, now, uuid, draws);
      store.State() == out.db && r == out.result
  {
    var order := store.Get(id);
    if order == null {
      return Failure(OrderNotFound);
    }
    order.status := status;
    r := store.Save(order, now, uuid, draws);
  }

  /** Any status string is stored, declared or not; only status and
      `update_date` of that order change. An unknown id returns the error value
      and changes nothing. */
  lemma UpdateOrderStatusAcceptsAnyString(db: Db, id: Id, status: string, now: Time, uuid: Uuid4, draws: Draws)
    requires Valid(db)
    ensures var out := UpdateOrderStatusSpec(db, id, status, now, uuid, draws);
      && (id !in db.orders ==> out == Outcome(db, Failure(OrderNotFound)))
      && (id in db.orders ==>
            out == Outcome(db.(orders := db.orders[id := db.orders[id].(status := status, updateDate := now)]), Success(id)))
  {
    if id in db.orders {
      ResaveSucceeds(db, id, DraftOf(id, db.orders[id]).(status := status), now, uuid, draws);
    }
  }

  /** On a stored order, `updateOrderStatus` does what `updateOrder` does with only `status` given. */
  lemma UpdateOrderStatusIsStatusOnlyUpdate(db: Db, id: Id, status: string, now: Time, uuid: Uuid4, draws: Draws)
    requires id in db.orders
    ensures UpdateOrderStatusSpec(db, id, status, now, uuid, draws) ==
            UpdateOrderSpec(db, id, UpdateArgs(None, None, None, None, Some(status)), now, uuid, draws)
  {
    assert ApplyUpdate(DraftOf(id, db.orders[id]), UpdateArgs(None, None, None, None, Some(status))) ==
           DraftOf(id, db.orders[id]).(status := status);
  }

  /** After a status update the order is listed under the new status and under
      no other, and every other order stays where it was. */
  lemma StatusUpdateMovesOrder(db: Db, id: Id, status: string, other: string, now: Time, uuid: Uuid4, draws: Draws)
    requires Valid(db) && id in db.orders
    ensures var after := UpdateOrderStatusSpec(db, id, status, now, uuid, draws).db.orders;
      && id in OrdersByStatus(after, status)
      && (other != status ==> id !in OrdersByStatus(after, other))
      && (forall o :: o != id ==> (o in OrdersByStatus(after, other) <==> o in OrdersByStatus(db.orders, other)))
  {
    UpdateOrderStatusAcceptsAnyString(db, id, status, now, uuid, draws);
  }
}
