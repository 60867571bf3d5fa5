/** The server's order document: its enumerations and defaults, the constraints
    checked when it is saved, and the hook that gives a new order its number. */
module OrderSchema {
  import opened Collections

  datatype OrderStatus = Pending | Confirmed | Processing | Shipped | Delivered | Cancelled
  datatype PaymentStatus = PaymentPending | Paid | Failed | Refunded
  datatype PaymentMethod = Card | Paypal | BankTransfer | CashOnDelivery

  function StatusName(s: OrderStatus): string {
    match s
    case Pending => "pending"
    case Confirmed => "confirmed"
    case Processing => "processing"
    case Shipped => "shipped"
    case Delivered => "delivered"
    case Cancelled => "cancelled"
  }

  /** The status enumeration: exactly the six names are accepted. */
  function ParseStatus(name: string): (r: Option<OrderStatus>)
    ensures r.Some? ==> StatusName(r.value) == name
    ensures r.None? ==> forall s :: StatusName(s) != name
  {
    match name
    case "pending" => Some(Pending)
    case "confirmed" => Some(Confirmed)
    case "processing" => Some(Processing)
    case "shipped" => Some(Shipped)
    case "delivered" => Some(Delivered)
    case "cancelled" => Some(Cancelled)
    case _ => None
  }

  lemma StatusRoundTrip(s: OrderStatus)
    ensures ParseStatus(StatusName(s)) == Some(s)
  {
  }

  function PaymentMethodName(m: PaymentMethod): string {
    match m
    case Card => "card"
    case Paypal => "paypal"
    case BankTransfer => "bank_transfer"
    case CashOnDelivery => "cash_on_delivery"
  }

  /** The payment-method enumeration: exactly the four names are accepted. */
  function ParsePaymentMethod(name: string): (r: Option<PaymentMethod>)
    ensures r.Some? ==> PaymentMethodName(r.value) == name
    ensures r.None? ==> forall m :: PaymentMethodName(m) != name
  {
    match name
    case "card" => Some(Card)
    case "paypal" => Some(Paypal)
    case "bank_transfer" => Some(BankTransfer)
    case "cash_on_delivery" => Some(CashOnDelivery)
    case _ => None
  }

  lemma PaymentMethodRoundTrip(m: PaymentMethod)
    ensures ParsePaymentMethod(PaymentMethodName(m)) == Some(m)
  {
  }

  /** An order line: the product, the units, and the product's price and vendor when ordered. */
  datatype OrderItem = OrderItem(product: string, quantity: int, price: int, vendor: string)

  datatype ShippingAddress = ShippingAddress(
    name: string, street: string, city: string, country: string, zipCode: string, phone: string)

  /** An order document; an empty `orderNumber` is an unset one. */
  datatype Order = Order(
    orderNumber: string, customer: string, items: seq<OrderItem>, totalAmount: int,
    shippingAddress: ShippingAddress, status: OrderStatus, paymentStatus: PaymentStatus,
    paymentMethod: PaymentMethod, trackingNumber: string, notes: string)

  /** Why an order document is refused when saved. */
  datatype Invalid = MissingOrderNumber | BadQuantity | BadPaymentMethod

  /** The fields the order route passes to the constructor; `None` is an absent payment method. */
  datatype OrderFields = OrderFields(
    customer: string, items: seq<OrderItem>, totalAmount: int,
    shippingAddress: ShippingAddress, paymentMethod: Option<string>)

  /** A fresh document: status and payment status pending, payment method card when absent,
      no tracking number, no notes, no order number yet. A payment method outside the
      enumeration is refused. */
  function NewOrder(f: OrderFields): (r: Result<Order, Invalid>)
    ensures r.Err? <==> f.paymentMethod.Some? && ParsePaymentMethod(f.paymentMethod.value).None?
    ensures r.Err? ==> r.error == BadPaymentMethod
    ensures r.Ok? ==> r.value.paymentMethod == (if f.paymentMethod.None? then Card
                                                else ParsePaymentMethod(f.paymentMethod.value).value)
    ensures r.Ok? ==> r.value.status == Pending && r.value.paymentStatus == PaymentPending
    ensures r.Ok? ==> r.value.trackingNumber == "" && r.value.notes == "" && r.value.orderNumber == ""
    ensures r.Ok? ==> r.value.customer == f.customer && r.value.items == f.items
                      && r.value.totalAmount == f.totalAmount && r.value.shippingAddress == f.shippingAddress
  {
    var chosen := if f.paymentMethod.None? then Some(Card) else ParsePaymentMethod(f.paymentMethod.value);
    match chosen
    case None => Err(BadPaymentMethod)
    case Some(m) =>
      Ok(Order("", f.customer, f.items, f.totalAmount, f.shippingAddress,
               Pending, PaymentPending, m, "", ""))
  }

  /** Every line carries at least one unit. */
  predicate ItemsValid(items: seq<OrderItem>) {
    forall i :: 0 <= i < |items| ==> items[i].quantity >= 1
  }

  /** The schema's checks: an order number is required, and each line needs a quantity of at least 1. */
  function Validate(o: Order): (r: Option<Invalid>)
    ensures r.None? <==> o.orderNumber != "" && ItemsValid(o.items)
  {
    if o.orderNumber == "" then Some(MissingOrderNumber)
    else if !ItemsValid(o.items) then Some(BadQuantity)
    else None
  }

  // ------------------------------------------------------- order numbers

  function DigitChar(d: nat): char
    requires d < 10
  {
    ('0' as int + d) as char
  }

  /** The decimal digits of `n`, as JavaScript writes a non-negative integer. */
  function Decimal(n: nat): (r: string)
    ensures |r| >= 1
    ensures forall i :: 0 <= i < |r| ==> '0' <= r[i] <= '9'
  {
    if n < 10 then [DigitChar(n)] else Decimal(n / 10) + [DigitChar(n % 10)]
  }

  /** The number a string of decimal digits denotes. */
  function DecimalValue(s: string): int {
    if s == [] then 0 else DecimalValue(s[..|s| - 1]) * 10 + (s[|s| - 1] as int - '0' as int)
  }

  /** Reading the digits back gives the number, so distinct numbers have distinct digits. */
  lemma {:induction false} DecimalRoundTrip(n: nat)
    ensures DecimalValue(Decimal(n)) == n
  {
    if n >= 10 {
      DecimalRoundTrip(n / 10);
      var s := Decimal(n);
      assert s[..|s| - 1] == Decimal(n / 10);
    }
  }

  /** `'GDK-' + Date.now() + Math.floor(Math.random() * 1000)`: the timestamp and the random
      number are written one after the other, without padding. */
  function OrderNumber(now: nat, rnd: nat): (r: string)
    requires rnd < 1000
    ensures |r| >= 6 && r[..4] == "GDK-"
  {
    "GDK-" + Decimal(now) + Decimal(rnd)
  }

  /** For timestamps written with the same number of digits, the order number determines
      both the timestamp and the random part. */
  lemma OrderNumberInjective(t1: nat, r1: nat, t2: nat, r2: nat)
    requires r1 < 1000 && r2 < 1000
    requires |Decimal(t1)| == |Decimal(t2)|
    requires OrderNumber(t1, r1) == OrderNumber(t2, r2)
    ensures t1 == t2 && r1 == r2
  {
    var w := |Decimal(t1)|;
    var a := OrderNumber(t1, r1);
    var b := OrderNumber(t2, r2);
    assert a[4..4 + w] == Decimal(t1);
    assert b[4..4 + w] == Decimal(t2);
    assert a[4 + w..] == Decimal(r1);
    assert b[4 + w..] == Decimal(r2);
    DecimalRoundTrip(t1);
    DecimalRoundTrip(t2);
    DecimalRoundTrip(r1);
    DecimalRoundTrip(r2);
  }

  /** Without padding, timestamps of different widths can collide: 1 then 23, and 12 then 3. */
  lemma OrderNumberCollision()
    ensures OrderNumber(1, 23) == OrderNumber(12, 3) == "GDK-123"
  {
    assert Decimal(23) == Decimal(2) + [DigitChar(3)];
    assert Decimal(12) == Decimal(1) + [DigitChar(2)];
  }

  /** The `pre('save')` hook: a new document without an order number gets one; every other
      document is left as it is. */
  function PreSave(o: Order, isNew: bool, now: nat, rnd: nat): (r: Order)
    requires rnd < 1000
    ensures r.(orderNumber := o.orderNumber) == o
    ensures isNew && o.orderNumber == "" ==> r.orderNumber == OrderNumber(now, rnd)
    ensures !(isNew && o.orderNumber == "") ==> r == o
  {
    if isNew && o.orderNumber == "" then o.(orderNumber := OrderNumber(now, rnd)) else o
  }

  /** Running the hook again, at any time, changes nothing: a number once given is never replaced. */
  lemma PreSaveIdempotent(o: Order, isNew: bool, now: nat, rnd: nat, isNew2: bool, now2: nat, rnd2: nat)
    requires rnd < 1000 && rnd2 < 1000
    ensures var once := PreSave(o, isNew, now, rnd);
            isNew ==> PreSave(once, isNew2, now2, rnd2) == once
  {
  }

  /** `save()` as the schema is written: the document library validates before it runs the
      `pre('save')` hooks, so the required order number is checked while still unset. */
  function SaveAsWritten(o: Order, isNew: bool, now: nat, rnd: nat): (r: Result<Order, Invalid>)
    requires rnd < 1000
    ensures r.Ok? <==> Validate(o).None?
  {
    match Validate(o)
    case Some(e) => Err(e)
    case None => Ok(PreSave(o, isNew, now, rnd))
  }

  /** As written, no order built by the route can be saved: it always lacks its number. */
  lemma NewOrderNeverSavesAsWritten(f: OrderFields, now: nat, rnd: nat)
    requires rnd < 1000
    requires NewOrder(f).Ok?
    ensures SaveAsWritten(NewOrder(f).value, true, now, rnd) == Err(MissingOrderNumber)
  {
  }

  /** `save()` with the number assigned before validation, as the hook intends: a new order
      is saved exactly when its lines are valid, and gets its number; an existing one keeps its own. */
  function Save(o: Order, isNew: bool, now: nat, rnd: nat): (r: Result<Order, Invalid>)
    requires rnd < 1000
    ensures r.Ok? <==> (o.orderNumber != "" || isNew) && ItemsValid(o.items)
    ensures r.Err? && o.orderNumber == "" && isNew ==> r.error == BadQuantity
    ensures r.Ok? ==> r.value == PreSave(o, isNew, now, rnd)
  {
    var d := PreSave(o, isNew, now, rnd);
    match Validate(d)
    case Some(e) => Err(e)
    case None => Ok(d)
  }
}
