/** The `Order` model of products/models.py: its declared status choices and
    default, its two generated identifiers and the pre-save receivers that
    fill them in, the stored row of an order and of an order item, and the
    in-memory model instance those receivers update in place. */
module Models {
  import opened Common

  type Time = int

  // ---------------------------------------------------------------------------
  // Status choices

  /** One entry of `Order.STATUS_CHOICES`: the stored token and its display label. */
  datatype Choice = Choice(token: string, display: string)

  const STATUS_CHOICES: seq<Choice> := [
    Choice("pending", "В обработке"),
    Choice("accepted", "Заказ принят"),
    Choice("prepare", "Заказ готовиться"),
    Choice("created", "Заказ готов к выдаче"),
    Choice("delivery", "Передан курьеру"),
    Choice("canceled", "Отменен"),
    Choice("completed", "Выполнен"),
    Choice("refunded", "Возврат")
  ]

  const DEFAULT_STATUS: string := "pending"

  /** `s` is one of the declared status tokens. The column does not enforce
      this: choices only drive forms and the admin. */
  predicate IsDeclaredStatus(s: string) {
    exists i :: 0 <= i < |STATUS_CHOICES| && STATUS_CHOICES[i].token == s
  }

  /** The declared choices are eight distinct tokens and the default is the first of them. */
  lemma StatusChoicesShape()
    ensures |STATUS_CHOICES| == 8
    ensures forall i, j :: 0 <= i < j < |STATUS_CHOICES| ==> STATUS_CHOICES[i].token != STATUS_CHOICES[j].token
    ensures STATUS_CHOICES[0].token == DEFAULT_STATUS && IsDeclaredStatus(DEFAULT_STATUS)
  {
  }

  // ---------------------------------------------------------------------------
  // Order number: uuid.uuid4()

  const TWO_128: nat := 0x1_0000_0000_0000_0000_0000_0000_0000_0000

  /** A 128-bit value, the content of a `UUIDField`. */
  type Uuid = u: nat | u < TWO_128

  /** The shape `uuid.uuid4()` guarantees: version nibble 4 (bits 76..79) and
      variant bits `10` (bits 62..63); the other 122 bits are random. */
  predicate IsVersion4(u: Uuid) {
    (u / 0x1000_0000_0000_0000_0000) % 16 == 4 && (u / 0x4000_0000_0000_0000) % 4 == 2
  }

  /** The value a call of `uuid.uuid4()` returns; each call is an oracle input of this type. */
  type Uuid4 = u: Uuid | IsVersion4(u) witness 0x4000_8000_0000_0000_0000

  /** `generate_order_number`: assign a fresh UUID only when the field is empty. */
  function AssignOrderNumber(current: Option<Uuid>, uuid: Uuid4): (r: Option<Uuid>)
    ensures r.Some?
    ensures current.Some? ==> r == current
    ensures current.None? ==> r.value == uuid && IsVersion4(r.value)
  {
    if current.None? then Some(uuid) else current
  }

  // ---------------------------------------------------------------------------
  // Receipt number: seven secrets.choice draws from A-Z and 0-9

  /** `string.ascii_uppercase + string.digits`. */
  const ALPHABET: string := "ABCDEFGHIJKLMNOPQRSTUVWXYZ" + "0123456789"

  predicate IsReceiptChar(c: char) {
    'A' <= c <= 'Z' || '0' <= c <= '9'
  }

  /** Exactly 7 characters, each an upper-case letter or a digit. */
  predicate IsReceiptNumber(s: string) {
    |s| == 7 && forall i :: 0 <= i < |s| ==> IsReceiptChar(s[i])
  }

  /** The index `secrets.choice` picked from the 36-character alphabet. */
  type Draw = d: nat | d < 36

  /** The seven draws of one receipt number; each save is given one of these as an oracle input. */
  type Draws = s: seq<Draw> | |s| == 7 witness [0, 0, 0, 0, 0, 0, 0]

  /** The character at position `k` of the alphabet, computed from character codes. */
  function AlphabetChar(k: Draw): char {
    if k < 26 then ('A' as int + k) as char else ('0' as int + k - 26) as char
  }

  /** The alphabet literal agrees position by position with its arithmetic description. */
  lemma AlphabetByArithmetic()
    ensures |ALPHABET| == 36
    ensures forall k :: 0 <= k < 36 ==> ALPHABET[k] == AlphabetChar(k)
  {
    assert ALPHABET == seq(36, k requires 0 <= k < 36 => AlphabetChar(k));
  }

  /** The alphabet is exactly the characters a receipt number may hold, each once. */
  lemma AlphabetIsReceiptChars()
    ensures |ALPHABET| == 36
    ensures forall c :: c in ALPHABET <==> IsReceiptChar(c)
    ensures forall i, j :: 0 <= i < j < |ALPHABET| ==> ALPHABET[i] != ALPHABET[j]
  {
    AlphabetByArithmetic();
    forall c | IsReceiptChar(c) ensures c in ALPHABET {
      assert ALPHABET[AlphabetIndex(c)] == c;
    }
  }

  /** The position of a receipt character in the alphabet. */
  function AlphabetIndex(c: char): (k: Draw)
    requires IsReceiptChar(c)
    ensures ALPHABET[k] == c
  {
    if 'A' <= c <= 'Z' then c as int - 'A' as int else 26 + c as int - '0' as int
  }

  /** The string the comprehension at products/models.py:106 builds from its draws. */
  function ReceiptFromDraws(draws: Draws): (r: string)
    ensures IsReceiptNumber(r)
  {
    AlphabetIsReceiptChars();
    seq(7, i requires 0 <= i < 7 => ALPHABET[draws[i]])
  }

  /** Every well-formed receipt number comes from exactly one sequence of draws:
      the hook can produce each of the 36^7 codes, and different draws give different codes. */
  lemma ReceiptDrawsBijective(r: string, draws: Draws, other: Draws)
    ensures IsReceiptNumber(r) ==> exists d: Draws :: ReceiptFromDraws(d) == r
    ensures ReceiptFromDraws(draws) == ReceiptFromDraws(other) ==> draws == other
  {
    if IsReceiptNumber(r) {
      var d: Draws := seq(7, i requires 0 <= i < 7 => AlphabetIndex(r[i]));
      assert ReceiptFromDraws(d) == r;
    }
    if ReceiptFromDraws(draws) == ReceiptFromDraws(other) {
      AlphabetIsReceiptChars();
      forall i | 0 <= i < 7 ensures draws[i] == other[i] {
        assert ReceiptFromDraws(draws)[i] == ALPHABET[draws[i]];
        assert ReceiptFromDraws(other)[i] == ALPHABET[other[i]];
      }
    }
  }

  /** `generate_receipt_number`: assign a drawn code only when the field is empty (falsy). */
  function AssignReceiptNumber(current: string, draws: Draws): (r: string)
    ensures current != "" ==> r == current
    ensures current == "" ==> IsReceiptNumber(r)
    ensures r != ""
  {
    if current == "" then ReceiptFromDraws(draws) else current
  }

  /** Both receivers are idempotent: once a value is set, no later save, whatever
      it draws, changes it. */
  lemma HooksIdempotent(n: Option<Uuid>, r: string, uuid1: Uuid4, uuid2: Uuid4, draws1: Draws, draws2: Draws)
    ensures AssignOrderNumber(AssignOrderNumber(n, uuid1), uuid2) == AssignOrderNumber(n, uuid1)
    ensures AssignReceiptNumber(AssignReceiptNumber(r, draws1), draws2) == AssignReceiptNumber(r, draws1)
  {
  }

  // ---------------------------------------------------------------------------
  // Rows and instances

  /** A stored `Order` row. */
  datatype OrderRow = OrderRow(
    seller: Id, buyer: Id,
    orderNumber: Uuid, receiptNumber: string,
    name: string, surname: string, phoneNumber: string, address: string, email: string,
    status: string,
    updateDate: Time, createdAt: Time)

  /** A stored `OrderItem` row: exactly one order, one product, a quantity. */
  datatype OrderItem = OrderItem(order: Id, product: Id, quantity: int)

  /** The field values of an `Order` model instance in memory; `None` and `""`
      are the values of fields not yet filled in. */
  datatype Draft = Draft(
    pk: Option<Id>,
    seller: Id, buyer: Id,
    orderNumber: Option<Uuid>, receiptNumber: string,
    name: string, surname: string, phoneNumber: string, address: string, email: string,
    status: string,
    updateDate: Option<Time>, createdAt: Option<Time>)

  /** `Order(name=..., ..., seller=..., buyer=...)`: a new unsaved instance with the
      default status and no identifiers or timestamps yet. */
  function NewDraft(seller: Id, buyer: Id, name: string, surname: string, phoneNumber: string,
                    address: string, email: string): (d: Draft)
    ensures d.pk.None? && d.orderNumber.None? && d.receiptNumber == ""
    ensures d.status == DEFAULT_STATUS && d.updateDate.None? && d.createdAt.None?
  {
    Draft(None, seller, buyer, None, "", name, surname, phoneNumber, address, email,
          DEFAULT_STATUS, None, None)
  }

  /** The row an instance whose identifiers and timestamps are set is written as. */
  function RowOf(d: Draft): OrderRow
    requires d.orderNumber.Some? && d.updateDate.Some? && d.createdAt.Some?
  {
    OrderRow(d.seller, d.buyer, d.orderNumber.value, d.receiptNumber,
             d.name, d.surname, d.phoneNumber, d.address, d.email, d.status,
             d.updateDate.value, d.createdAt.value)
  }

  /** The instance `Order.objects.get(pk=id)` returns for a stored row: it has
      the row's key, every field set, and writes back as the same row. */
  function DraftOf(id: Id, row: OrderRow): (d: Draft)
    ensures d.pk == Some(id)
    ensures d.orderNumber.Some? && d.updateDate.Some? && d.createdAt.Some?
    ensures RowOf(d) == row
  {
    Draft(Some(id), row.seller, row.buyer, Some(row.orderNumber), row.receiptNumber,
          row.name, row.surname, row.phoneNumber, row.address, row.email,
          row.status, Some(row.updateDate), Some(row.createdAt))
  }

  /** The instance once `generate_order_number`, then `generate_receipt_number`,
      then the `auto_now` and `auto_now_add` fields have run; `adding` says
      whether the write is an INSERT. */
  function Prepared(d: Draft, adding: bool, now: Time, uuid: Uuid4, draws: Draws): (p: Draft)
    ensures p.orderNumber.Some? && (d.orderNumber.Some? ==> p.orderNumber == d.orderNumber)
    ensures d.receiptNumber != "" ==> p.receiptNumber == d.receiptNumber
    ensures d.receiptNumber == "" ==> IsReceiptNumber(p.receiptNumber)
    ensures p.updateDate == Some(now)
    ensures adding ==> p.createdAt == Some(now)
    ensures !adding ==> p.createdAt == d.createdAt
    ensures p == d.(orderNumber := p.orderNumber, receiptNumber := p.receiptNumber,
                    updateDate := p.updateDate, createdAt := p.createdAt)
  {
    d.(orderNumber := AssignOrderNumber(d.orderNumber, uuid),
       receiptNumber := AssignReceiptNumber(d.receiptNumber, draws),
       updateDate := Some(now),
       createdAt := if adding then Some(now) else d.createdAt)
  }

  /** An `Order` model instance, whose fields the receivers and the mutations assign in place. */
  class OrderInstance {
    var pk: Option<Id>
    var seller: Id
    var buyer: Id
    var orderNumber: Option<Uuid>
    var receiptNumber: string
    var name: string
    var surname: string
    var phoneNumber: string
    var address: string
    var email: string
    var status: string
    var updateDate: Option<Time>
    var createdAt: Option<Time>

    /** The instance's current field values. */
    function Snapshot(): Draft
      reads this
    {
      Draft(pk, seller, buyer, orderNumber, receiptNumber, name, surname, phoneNumber,
            address, email, status, updateDate, createdAt)
    }

    constructor (d: Draft)
      ensures Snapshot() == d
    {
      pk, seller, buyer := d.pk, d.seller, d.buyer;
      orderNumber, receiptNumber := d.orderNumber, d.receiptNumber;
      name, surname, phoneNumber, address, email := d.name, d.surname, d.phoneNumber, d.address, d.email;
      status, updateDate, createdAt := d.status, d.updateDate, d.createdAt;
    }

    /** The `generate_order_number` receiver. */
    method GenerateOrderNumber(uuid: Uuid4)
      modifies this`orderNumber
      ensures orderNumber == AssignOrderNumber(old(orderNumber), uuid)
    {
      if orderNumber.None? {
        orderNumber := Some(uuid);
      }
    }

    /** The `pre_save` of the `auto_now` field (`update_date`) and, when the
        write is an INSERT (`adding`), of the `auto_now_add` field (`created_at`). */
    method StampTimes(now: Time, adding: bool)
      modifies this`updateDate, this`createdAt
      ensures updateDate == Some(now)
      ensures createdAt == if adding then Some(now) else old(createdAt)
    {
      updateDate := Some(now);
      if adding {
        createdAt := Some(now);
      }
    }

    /** What `save()` does to the instance before it writes: the `pre_save`
        signal runs `generate_order_number` and then `generate_receipt_number`,
        then the fields' own `pre_save` stamps the timestamps. */
    method PreSave(adding: bool, now: Time, uuid: Uuid4, draws: Draws)
      modifies this`orderNumber, this`receiptNumber, this`updateDate, this`createdAt
      ensures Snapshot() == Prepared(old(Snapshot()), adding, now, uuid, draws)
    {
      GenerateOrderNumber(uuid);
      GenerateReceiptNumber(draws);
      StampTimes(now, adding);
    }

    /** The `generate_receipt_number` receiver. */
    method GenerateReceiptNumber(draws: Draws)
      modifies this`receiptNumber
      ensures receiptNumber == AssignReceiptNumber(old(receiptNumber), draws)
    {
      if receiptNumber == "" {
        receiptNumber := ReceiptFromDraws(draws);
      }
    }
  }
}
