/**
 * The payment receipt (src/components/BillComponent.tsx): a single render of
 * the payment record returned by the payment provider, the cart items and
 * the customer's name.  Money arrives as integer paise and is shown as
 * rupees with two decimals.
 */
module Bill {
  import opened Wrappers
  import opened Decimal

  datatype AcquirerData = AcquirerData(bankTransactionId: string)

  datatype Notes = Notes(address: Option<string>)

  /** The fields of the payment record that the receipt shows.  Amounts are
      in paise; `createdAt` is a Unix time in seconds. */
  datatype BillData = BillData(
    id: string,
    orderId: string,
    amount: nat,
    status: string,
    international: bool,
    paymentMethod: string,
    amountRefunded: nat,
    description: string,
    bank: Option<string>,
    email: string,
    contact: string,
    notes: Option<Notes>,
    acquirerData: Option<AcquirerData>,
    createdAt: int,
    kitchenId: string)

  /** A cart line: price in whole rupees, as the cart stores it. */
  datatype CartItem = CartItem(itemId: string, name: string, price: nat, quantity: nat)

  datatype ItemRow = ItemRow(key: string, name: string, price: string, quantity: string)

  /** What the receipt displays, field by field, without its labels and
      styling.  `createdAtMillis` is the value handed to the date formatter. */
  datatype Receipt = Receipt(
    orderId: string,
    transactionId: string,
    paymentId: string,
    status: string,
    description: string,
    paymentMethod: string,
    bank: string,
    items: seq<ItemRow>,
    amount: string,
    refund: Option<string>,
    customerName: string,
    email: string,
    contact: string,
    address: string,
    kitchenId: string,
    createdAtMillis: int,
    international: string)

  const NoAddress := "N/A"

  // ---------------------------------------------------------------------
  // Money

  /** `(paise / 100).toFixed(2)` on integer paise: whole rupees, a point and
      the remaining paise as two digits. */
  function Rupees(paise: nat): (s: string)
    ensures |s| >= 4 && s[|s| - 3] == '.'
    ensures |s| == 4 || s[0] != '0'
    ensures AllDigits(s[..|s| - 3]) && AllDigits(s[|s| - 2..])
  {
    var s := NatToString(paise / 100) + "." + TwoDigits(paise % 100);
    assert s[..|s| - 3] == NatToString(paise / 100);
    assert s[|s| - 2..] == TwoDigits(paise % 100);
    s
  }

  /** Reads a displayed rupee amount back as paise. */
  function ParseRupees(s: string): Option<nat> {
    if |s| >= 4 && s[|s| - 3] == '.' && AllDigits(s[..|s| - 3]) && AllDigits(s[|s| - 2..])
    then Some(100 * ParseNat(s[..|s| - 3]) + ParseNat(s[|s| - 2..]))
    else None
  }

  /** Reading the displayed amount back gives the original paise. */
  lemma RupeesRoundTrip(paise: nat)
    ensures ParseRupees(Rupees(paise)) == Some(paise)
  {
    var s := Rupees(paise);
    assert s[..|s| - 3] == NatToString(paise / 100);
    assert s[|s| - 2..] == TwoDigits(paise % 100);
    ParseNatToString(paise / 100);
  }

  /** Two amounts display the same exactly when they are the same. */
  lemma RupeesInjective(p: nat, q: nat)
    ensures Rupees(p) == Rupees(q) <==> p == q
  {
    if Rupees(p) == Rupees(q) {
      RupeesRoundTrip(p);
      RupeesRoundTrip(q);
    }
  }

  // ---------------------------------------------------------------------
  // Fallbacks for missing fields

  /** A missing value renders as nothing. */
  function OrEmpty(v: Option<string>): (s: string)
    ensures v.None? ==> s == []
    ensures v.Some? ==> s == v.value
  {
    v.GetOr([])
  }

  /** `acquirer_data?.bank_transaction_id`: empty when the acquirer data is
      missing. */
  function TransactionId(a: Option<AcquirerData>): (s: string)
    ensures a.None? ==> s == []
    ensures a.Some? ==> s == a.value.bankTransactionId
  {
    if a.Some? then a.value.bankTransactionId else []
  }

  /** `notes?.address || "N/A"`: the address when present and non-empty. */
  function AddressText(notes: Option<Notes>): (s: string)
    ensures s != []
    ensures notes.Some? && notes.value.address.Some? && notes.value.address.value != [] ==>
      s == notes.value.address.value
    ensures notes.None? || notes.value.address.None? || notes.value.address.value == [] ==>
      s == NoAddress
  {
    if notes.Some? && notes.value.address.Some? && notes.value.address.value != []
    then notes.value.address.value
    else NoAddress
  }

  function InternationalText(international: bool): (s: string)
    ensures s == "Yes" <==> international
    ensures s == "No" <==> !international
  {
    if international then "Yes" else "No"
  }

  /** Unix seconds to the milliseconds the date constructor takes. */
  function Millis(seconds: int): (ms: int)
    ensures ms % 1000 == 0 && ms / 1000 == seconds
  {
    seconds * 1000
  }

  function RowFor(item: CartItem): (row: ItemRow)
    ensures row.key == item.itemId && row.name == item.name
    ensures row.price != [] && row.quantity != []
    ensures AllDigits(row.price) && AllDigits(row.quantity)
    ensures |row.price| == 1 || row.price[0] != '0'
    ensures |row.quantity| == 1 || row.quantity[0] != '0'
    ensures ParseNat(row.price) == item.price && ParseNat(row.quantity) == item.quantity
  {
    ParseNatToString(item.price);
    ParseNatToString(item.quantity);
    ItemRow(item.itemId, item.name, NatToString(item.price), NatToString(item.quantity))
  }

  // ---------------------------------------------------------------------
  // The receipt

  function Render(bill: BillData, items: seq<CartItem>, userName: string): (r: Receipt)
    ensures |r.items| == |items|
    ensures forall i :: 0 <= i < |items| ==> r.items[i] == RowFor(items[i])
    ensures r.amount == Rupees(bill.amount)
    ensures ParseRupees(r.amount) == Some(bill.amount)
    ensures r.refund.Some? <==> bill.amountRefunded != 0
    ensures r.refund.Some? ==> r.refund.value == Rupees(bill.amountRefunded)
    ensures r.refund.Some? ==> ParseRupees(r.refund.value) == Some(bill.amountRefunded)
    ensures r.transactionId == TransactionId(bill.acquirerData)
    ensures r.address == AddressText(bill.notes)
    ensures r.createdAtMillis == bill.createdAt * 1000
    ensures r.international == InternationalText(bill.international)
    ensures r.bank == OrEmpty(bill.bank)
    ensures r.status == bill.status && r.description == bill.description
    ensures r.paymentMethod == bill.paymentMethod
    ensures r.orderId == bill.orderId && r.paymentId == bill.id && r.kitchenId == bill.kitchenId
    ensures r.customerName == userName && r.email == bill.email && r.contact == bill.contact
  {
    RupeesRoundTrip(bill.amount);
    RupeesRoundTrip(bill.amountRefunded);
    Receipt(
      orderId := bill.orderId,
      transactionId := TransactionId(bill.acquirerData),
      paymentId := bill.id,
      status := bill.status,
      description := bill.description,
      paymentMethod := bill.paymentMethod,
      bank := OrEmpty(bill.bank),
      items := seq(|items|, i requires 0 <= i < |items| => RowFor(items[i])),
      amount := Rupees(bill.amount),
      refund := if bill.amountRefunded != 0 then Some(Rupees(bill.amountRefunded)) else None,
      customerName := userName,
      email := bill.email,
      contact := bill.contact,
      address := AddressText(bill.notes),
      kitchenId := bill.kitchenId,
      createdAtMillis := Millis(bill.createdAt),
      international := InternationalText(bill.international))
  }
}
