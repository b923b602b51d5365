# Marketplace orders, modelled in Dafny

This project models the order subsystem of a Django/GraphQL marketplace backend:

- the `Order` and `OrderItem` models;
- the two pre-save receivers that generate an order's UUID order number and its 7-character receipt number;
- what `save()` does to an order: the receivers, the `auto_now`/`auto_now_add` timestamps, and the foreign-key, uniqueness and check constraints of the columns;
- the three order mutations: `createOrder`, `updateOrder` and `updateOrderStatus`;
- the status display resolver, the status list and the order filters;
- the group list that `OrderSubscription.subscribe` and `unsubscribe` keep.

Files and modules:

- `common.dfy` (`Common`): `Option`, `Result`, the error kinds, and Python's `str(n)` for ids.
- `models.dfy` (`Models`): products/models.py. It holds `STATUS_CHOICES` and the default status, the UUID and receipt-number shapes, and the receivers as pure functions. The `OrderInstance` class is the in-memory model instance; the receivers assign its fields in place.
- `store.dfy` (`Store`): the database as the ORM presents it. `Db` is its value and `Valid` the invariant the column constraints keep. `SaveOrder` is what `order.save()` does. The `OrderStore` class holds the tables; its methods are proved equal to those functions.
- `schema.dfy` (`Schema`): the order part of products/schema.py. Each mutation is a specification function over `Db` plus a method that runs the source's steps against an `OrderStore`. The method's `ensures` equates its result and new state with that function. The lemmas state what the source promises about each function.
- `subscription.dfy` (`Subscriptions`): the `OrderSubscription` group list.

Randomness is an input of a fixed shape. A save receives the `uuid.uuid4()` value it may use: 128 bits, version nibble 4, variant bits `10`. It also receives the seven indices `secrets.choice` may draw from `A-Z0-9`. The clock is the `now` parameter. The outbox stands for the channel layer: a broadcast is one `(order_id, new_status)` entry appended to it.

The model follows the code as written:

- Status is never validated.
- `createOrder` saves the header before looking up any product, and there is no transaction.
- Mismatched `product_ids` and `quantities` lists are truncated by `zip`.
- An empty product list creates an order with no items.
- Only creation broadcasts.
- `resolve_update_order_status` returns its error as a value, where `UpdateOrder` lets `Order.DoesNotExist` propagate.

## Model

| member | source | states |
|---|---|---|
| `Common.Decimal` | products/schema.py:404 | `str(order.id)` is a non-empty string of decimal digits that spells the id (`DigitsValue` of it is the id), with no leading zero except for 0 itself |
| `Common.DecimalInjective` | products/schema.py:404 | different ids render as different strings, so a broadcast's `order_id` names one order |
| `Models.StatusChoicesShape` | products/models.py:72-91 | the declared choices are eight distinct tokens, and the default `pending` is the first of them |
| `Models.AssignOrderNumber` | products/models.py:98-101 | after the receiver the order number is always set; a set value is kept, and an unset one becomes the fresh version-4 UUID |
| `Models.OrderInstance.GenerateOrderNumber` | products/models.py:98-101 | the receiver updates the instance's order number in place as `AssignOrderNumber` says |
| `Models.ReceiptFromDraws` | products/models.py:106 | seven draws from `ascii_uppercase + digits` give a string of exactly 7 characters, each A-Z or 0-9 |
| `Models.AlphabetIsReceiptChars` | products/models.py:106 | the 36-character alphabet holds exactly the upper-case letters and digits, each once |
| `Models.ReceiptDrawsBijective` | products/models.py:103-107 | every well-formed receipt number can be drawn, and different draws give different receipt numbers |
| `Models.AssignReceiptNumber` | products/models.py:103-107 | a non-empty receipt number is kept; an empty one is replaced by a well-formed drawn one; the result is never empty |
| `Models.OrderInstance.GenerateReceiptNumber` | products/models.py:103-107 | the receiver updates the instance's receipt number in place as `AssignReceiptNumber` says |
| `Models.OrderInstance.StampTimes` | products/models.py:92-94 | every save sets `update_date` to now; `created_at` is set to now only when the write is an INSERT |
| `Models.Prepared` | products/models.py:92-107 | after the pre-save steps the order number is set and keeps any earlier value, a non-empty receipt number is kept and an empty one becomes a well-formed code, `update_date` is now, `created_at` is now on an INSERT and unchanged otherwise, and no other field changes |
| `Models.OrderInstance.PreSave` | products/models.py:92-107 | the two receivers and the timestamp fields update the instance in place as `Prepared` says |
| `Models.DraftOf` | products/schema.py:423 | a fetched instance has the row's key and every field set, and writes back as exactly the stored row |
| `Models.HooksIdempotent` | products/models.py:98-107 | running either receiver again, with any new randomness, leaves the value the first run set |
| `Models.NewDraft` | products/schema.py:387-395 | a new `Order(...)` has status `pending`, no primary key, no identifiers and no timestamps yet |
| `Models.OrderInstance.constructor` | products/models.py:71-94 | a model instance holds exactly the given field values |
| `Store.SaveOrder` | products/models.py:84-107 | a refused save changes no table. A successful one stores the row under the next id (no key) or the instance's own key (an UPDATE, or an INSERT when no row has that key) and leaves other orders, items and outbox alone. The row holds the instance's fields, identifiers set only when they were empty, `update_date = now`, and `created_at = now` exactly when the write is an INSERT. No other order holds either identifier |
| `Store.SaveWithoutStoredRowInserts` | products/models.py:92-107 | saving an instance whose key names no stored row inserts it under that key with `created_at` stamped now, whatever it held; it is refused only for a missing seller or buyer or a taken identifier |
| `Store.SavePreservesValid` | products/models.py:84-85 | every save keeps the tables valid: no two orders share an order number or a receipt number, and every order's seller, buyer and receipt shape are valid |
| `Store.SaveRefusesDuplicate` | products/models.py:84-85 | a save that would duplicate another order's order number or receipt number fails with an integrity error and changes nothing |
| `Store.NewOrderSaveSucceeds` | products/models.py:84-107 | inserting a new order with an existing seller and buyer and unused drawn identifiers succeeds under the next id |
| `Store.ResaveSucceeds` | products/models.py:92-107 | re-saving a fetched order always succeeds. Only the contact fields, the status and `update_date` change; identifiers, seller, buyer and `created_at` stay as stored |
| `Store.InsertItem` | products/models.py:109-112 | an item is stored iff its order and product exist and its quantity is non-negative; on success it is appended and nothing else changes |
| `Store.DeleteOrder` | products/models.py:110 | deletion removes the order and exactly the items that reference it; every other order and item, and the reference data, stay |
| `Store.DeleteCascades` | products/models.py:110 | deleting an order removes exactly its items, keeps every other item and keeps the tables valid |
| `Store.OrderStore.Get` | products/schema.py:423 | `Order.objects.get` returns a fresh instance holding the stored row, or nothing when the id is unknown |
| `Store.OrderStore.Save` | products/models.py:84-107 | the in-place save leaves the tables and the instance as `SaveOrder` says |
| `Store.OrderStore.SaveItem` | products/schema.py:400-401 | `order_item.save()` changes the tables as `InsertItem` says |
| `Store.OrderStore.Delete` | products/models.py:110 | the deletion leaves the tables as `DeleteOrder` says (cascade to items) |
| `Store.OrderStore.Publish` | products/schema.py:403-406 | a broadcast appends its payload to the outbox and changes nothing else |
| `Schema.ResolveStatus` | products/schema.py:49-60 | each declared token maps to its declared label; any other status comes back unchanged |
| `Schema.DisplayAgreesWithChoices` | products/schema.py:50-59 | the resolver's dictionary has exactly the declared tokens as keys, each with the label `STATUS_CHOICES` gives it |
| `Schema.ResolveStatuses` | products/schema.py:90-91 | the status list is the eight declared tokens, in declaration order, starting with the default |
| `Schema.OrdersByStatus` | products/schema.py:104-105 | exactly the stored orders with that status, unchanged |
| `Schema.OrdersBySellerId` | products/schema.py:106-110 | exactly the stored orders of that seller, unchanged |
| `Schema.OrdersByBuyerId` | products/schema.py:99-103 | exactly the stored orders of that buyer, unchanged |
| `Schema.ZipItems` | products/schema.py:398 | `zip` yields min(len(product_ids), len(quantities)) pairs, pair k being (product_ids[k], quantities[k]) |
| `Schema.SaveItems` | products/schema.py:398-401 | the item loop changes only the item table, only by appending; a failure is a missing product or an integrity error |
| `Schema.SaveItemsAppends` | products/schema.py:398-401 | a loop that runs to the end appends exactly the zipped items, in order, duplicates kept |
| `Schema.SaveItemsSucceedsIff` | products/schema.py:398-401 | the loop runs to the end iff every zipped product exists and every zipped quantity is non-negative |
| `Schema.SaveItemsStopsAt` | products/schema.py:398-401 | the first bad pair, at position k, ends the loop with its error, and the items of positions 0..k-1 stay saved |
| `Schema.SaveItemsPreservesValid` | products/models.py:110-112 | the loop keeps every item referencing an existing order and product with a non-negative quantity |
| `Schema.CreateOrderSpec` | products/schema.py:384-409 | creation never changes sellers, buyers or products and only appends items. A success has the next id and appends exactly one broadcast `(str(id), pending)`; a failure broadcasts nothing and is a missing seller, buyer or product or an integrity error |
| `Schema.CreateOrder` | products/schema.py:384-409 | the mutation, run step by step with its loop, leaves the store and returns what `CreateOrderSpec` says |
| `Schema.CreateOrderUnknownParty` | products/schema.py:385-386 | an unknown seller (checked first) or buyer fails with that error before anything is stored |
| `Schema.CreateOrderBroadcast` | products/schema.py:403-406 | exactly one broadcast, of the new id and status `pending`, follows a success; a failure broadcasts nothing |
| `Schema.CreateOrderHeader` | products/schema.py:387-396 | a success stores one new `pending` order under a previously unused id. It holds exactly the given seller, buyer and contact fields, the drawn identifiers, and both timestamps at `now`. No other order changes |
| `Schema.CreateOrderItems` | products/schema.py:398-401 | a success adds one item per zipped pair, item k carrying product_ids[k] and quantities[k]. These are all of the order's items, min(len(product_ids), len(quantities)) of them |
| `Schema.CreateOrderPreservesValid` | products/schema.py:384-409 | creation keeps the tables valid whether it succeeds or stops part way |
| `Schema.CreateOrderNotAtomic` | products/schema.py:396-403 | an unknown product or negative quantity at position k fails. The header and items 0..k-1 stay stored, and nothing is broadcast |
| `Schema.CreateOrderSucceeds` | products/schema.py:384-409 | creation succeeds under the next id when seller and buyer exist, the drawn identifiers are free and every zipped pair is valid, including with an empty product list |
| `Schema.CreatedOrderListed` | products/schema.py:99-110 | a new order is listed by its seller's filter, its buyer's filter and the `pending` filter |
| `Schema.ApplyUpdate` | products/schema.py:424-433 | a given field takes the given value and an omitted one keeps its value; only name, surname, phone number, address and status can change |
| `Schema.UpdateOrderSpec` | products/schema.py:422-435 | an unknown id raises `Order.DoesNotExist` and changes nothing. A success is under the same id: only that row changes, with the given fields, `update_date = now`, and email, order number, stored receipt number and `created_at` kept. Items and outbox never change |
| `Schema.UpdateOrder` | products/schema.py:422-435 | the mutation, run step by step on a fetched instance, leaves the store and returns what `UpdateOrderSpec` says |
| `Schema.AssignGiven` | products/schema.py:424-433 | each of name, surname, phone number, address and status takes the given value when one is given and keeps its old value otherwise; no other field changes |
| `Schema.UpdateOrderFrame` | products/schema.py:422-435 | on a stored order, only the given fields among name, surname, phone, address and status change, plus `update_date`. Email, seller, buyer, identifiers, `created_at`, other orders, items and outbox are unchanged. An unknown id changes nothing |
| `Schema.UpdateOrderStatusSpec` | products/schema.py:455-462 | an unknown id returns the `Order not found` value and changes nothing. A success is under the same id: only that row changes, in status (the given string) and `update_date`. Items and outbox never change |
| `Schema.UpdateOrderStatus` | products/schema.py:455-462 | the resolver, run step by step, leaves the store and returns what `UpdateOrderStatusSpec` says |
| `Schema.UpdateOrderStatusAcceptsAnyString` | products/schema.py:455-462 | any string is stored as the status, and only that order's status and `update_date` change. An unknown id returns the error value and changes nothing |
| `Schema.UpdateOrderStatusIsStatusOnlyUpdate` | products/schema.py:455-462 | on a stored order, `updateOrderStatus` equals `updateOrder` given only `status` |
| `Schema.StatusUpdateMovesOrder` | products/schema.py:104-105 | after a status update the order is listed under the new status and no other; other orders keep their listing |
| `Subscriptions.Authorized` | products/schema.py:349 | only an authenticated seller passes, and only for a non-negative id whose group is the caller's own group |
| `Subscriptions.GroupName` | products/schema.py:351 | the group name is `seller_` followed by digits that spell the id |
| `Subscriptions.GroupNameInjective` | products/schema.py:351 | different sellers never share a group |
| `Subscriptions.IndexOf` | products/schema.py:366 | the first position holding the group |
| `Subscriptions.RemoveFirst` | products/schema.py:366 | `list.remove` drops exactly one copy of the group |
| `Subscriptions.UnsubscribeUndoesSubscribe` | products/schema.py:346-368 | unsubscribing right after subscribing restores the groups as a multiset; when the group was absent before, it restores the very same list |
| `Subscriptions.OrderSubscription.Subscribe` | products/schema.py:346-354 | an authenticated seller whose id matches gets `seller_{id}` appended and returned; anyone else gets `None` and the groups are unchanged |
| `Subscriptions.OrderSubscription.Unsubscribe` | products/schema.py:361-368 | with the same check passing, the group's first copy is removed and `True` returned, or `ValueError` when it is absent. Otherwise `False` is returned and the groups are unchanged |

## Left out

- `User.is_seller`: the `User` model (products/models.py:11-14) declares no `is_seller`, so for an authenticated user the check in `subscribe`/`unsubscribe` would raise `AttributeError`. The model takes the flag as an input and does not capture that exception.
- `int(seller_id)` and the other ID arguments are taken as already-parsed integers. The `ValueError` a non-numeric ID would raise is not modelled.
- List elements of `product_ids` and `quantities` are modelled as non-null. GraphQL admits `null` entries, which would fail at the lookup or at the NOT NULL column.
- `Schema.CreateOrder`: the broadcast's delivery to subscribers, the channel-layer group it reaches (the call names none) and `OrderSubscription.publish` are library behaviour and are not modelled. A broadcast is only an outbox entry.
- `DeleteCategory.broadcast` (it calls itself) and the websocket consumer's `on_connect` are not modelled.
- Authentication (`LoginUser`, `CreateUser.set_password`), the product, category, seller, buyer and user mutations, and the plain list resolvers are not modelled. They are single-row ORM writes and reads with no order logic.
- Column length limits (`max_length`) and the `EmailValidator` are not modelled. The validator does not run on `save()`. SQLite stores strings of any length, but databases that enforce `varchar(n)`, such as PostgreSQL, refuse longer values. For example, a status over 20 characters sent to `updateOrderStatus` is refused there, while the model stores any string.
- The migration's status default `"PENDING"` differs from the model's `'pending'`. The model follows products/models.py.
- Each save takes one `now`. Django reads the clock separately for `created_at` and `update_date`, so on insert they can differ by microseconds.
- Collision probability of the random identifiers is not modelled. Their uniqueness is enforced only by the column constraint, as in the code; no retry exists.
- Item primary keys, prices and stock quantities are not modelled. The order code never reads them.
- Concurrency and transaction isolation are not modelled. Every operation runs alone.
- `Store.SaveOrder`: re-saving an instance whose row was deleted meanwhile re-inserts it under its old key and stamps `created_at`. Ids are allocated as SQLite's AUTOINCREMENT does: an explicit key moves the counter past it, and a refused INSERT uses no id. On PostgreSQL an explicit key does not advance the sequence and a refused INSERT consumes a value, so a later `createOrder` can get an id above the model's next id; neither is modelled.
- `Schema.CreateOrderSucceeds`: quantities and ids are unbounded integers in the model. `quantities` is a list of GraphQL `Int` (products/schema.py:380), which is signed 32-bit, and `OrderItem.quantity` is a `PositiveIntegerField` (products/models.py:112), a 32-bit `integer` column on PostgreSQL, so a quantity of 2^31 or more is refused. The `Order` and `OrderItem` ids are `BigAutoField` (`bigint`) columns, refused from 2^63. The model accepts such values and can report success where the real request is refused.
- A forward-only status lifecycle is not modelled, because the code has none. Status is any string.
