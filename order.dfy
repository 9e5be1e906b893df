/**
  The order document: a status machine whose transitions append to a status
  history, the pricing summary, an order number assigned on the first save,
  and the billing address that defaults to the shipping address.
*/
module OrderModel {
  import opened Common

  type UserId = nat
  type ProductId = nat

  datatype OrderStatus = Pending | Confirmed | Processing | Shipped | Delivered | Cancelled | Returned

  /** The string the schema stores for each status. */
  function StatusName(s: OrderStatus): string
  {
    match s
    case Pending => "pending"
    case Confirmed => "confirmed"
    case Processing => "processing"
    case Shipped => "shipped"
    case Delivered => "delivered"
    case Cancelled => "cancelled"
    case Returned => "returned"
  }

  datatype PaymentMethod = Stripe | Paypal | CreditCard | DebitCard
  datatype PaymentStatus = PaymentPending | PaymentProcessing | Completed | Failed | Refunded | PartiallyRefunded
  datatype ShippingMethod = Standard | Express | Overnight | Pickup
  datatype ReturnStatus = ReturnPending | ReturnApproved | ReturnRejected | ReturnCompleted

  datatype OrderItem = OrderItem(product: ProductId, name: string, color: string, size: string,
                                 quantity: int, unitPrice: int, totalPrice: int)

  datatype Pricing = Pricing(subtotal: int, shipping: int, tax: int, discount: int, total: int)

  datatype Address = Address(firstName: string, lastName: string, street: string, city: string,
                             state: string, zipCode: string, country: string, phone: Option<string>)

  /** Every billing field is optional; None is a path that was never set. */
  datatype BillingAddress = BillingAddress(
    firstName: Option<string>, lastName: Option<string>, street: Option<string>, city: Option<string>,
    state: Option<string>, zipCode: Option<string>, country: Option<string>, phone: Option<string>,
    sameAsShipping: bool)

  datatype Payment = Payment(paymentMethod: PaymentMethod, status: PaymentStatus, transactionId: Option<string>,
                             paymentIntentId: Option<string>, paidAt: Option<int>)

  /** What processPayment reads from its argument. */
  datatype PaymentInfo = PaymentInfo(transactionId: Option<string>, paymentIntentId: Option<string>)

  datatype Shipping = Shipping(shippingMethod: ShippingMethod, carrier: Option<string>, trackingNumber: Option<string>,
                               estimatedDelivery: Option<int>, shippedAt: Option<int>, deliveredAt: Option<int>)

  /** The argument of updateShipping: Some(v) for each key the object carries. */
  datatype ShippingUpdate = ShippingUpdate(shippingMethod: Option<ShippingMethod>, carrier: Option<string>,
                                           trackingNumber: Option<string>, estimatedDelivery: Option<int>,
                                           shippedAt: Option<int>, deliveredAt: Option<int>)

  datatype HistoryEntry = HistoryEntry(status: OrderStatus, timestamp: int, note: string, updatedBy: Option<UserId>)

  datatype ReturnRequest = ReturnRequest(requested: bool, requestedAt: Option<int>, reason: Option<string>,
                                         status: Option<ReturnStatus>, processedAt: Option<int>,
                                         refundAmount: Option<int>)

  /** A calendar date as `Date` reports it: the full year, the month 1..12 and the day of the month. */
  datatype CalendarDate = CalendarDate(year: nat, month: nat, day: nat)

  /**
    What a save reads from outside the document: the clock in milliseconds, the
    calendar date it falls on, and how many orders were created that day.
  */
  datatype SaveContext = SaveContext(now: int, today: CalendarDate, todayOrders: nat)

  // ---------------------------------------------------------------------------
  // Order number
  // ---------------------------------------------------------------------------

  /** `ORD` + two-digit year + two-digit month + two-digit day + the day's sequence number padded to four digits. */
  function OrderNumber(date: CalendarDate, todayOrders: nat): string
  {
    "ORD" + LastTwo(NatToString(date.year)) + PadStart(NatToString(date.month), 2)
      + PadStart(NatToString(date.day), 2) + PadStart(NatToString(todayOrders + 1), 4)
  }

  /** A number below 10^width written with padStart(width, '0') takes exactly width digits and reads back. */
  lemma PadStartExact(n: nat, width: nat)
    requires 1 <= width && n < Pow10(width)
    ensures var p := PadStart(NatToString(n), width);
      |p| == width && AllDigits(p) && DecimalValue(p) == n
  {
    NatToStringLength(n, width);
    PadStartValue(n, width);
  }

  lemma OrderNumberFields(r: string, y: string, m: string, d: string, q: string)
    requires r == "ORD" + y + m + d + q && |y| == 2 && |m| == 2 && |d| == 2
    ensures |r| == 9 + |q| && r[..3] == "ORD" && r[3..5] == y && r[5..7] == m && r[7..9] == d && r[9..] == q
  {
  }

  /**
    For a year of at least two digits, a month and day of at most two and fewer
    than 9999 orders that day, the number is 13 characters long and its fields
    read back as the year modulo 100, the month, the day and the day's count plus one.
  */
  lemma OrderNumberDecodes(date: CalendarDate, todayOrders: nat)
    requires date.year >= 10 && date.month < 100 && date.day < 100 && todayOrders < 9999
    ensures var r := OrderNumber(date, todayOrders);
      && |r| == 13 && r[..3] == "ORD"
      && AllDigits(r[3..5]) && DecimalValue(r[3..5]) == date.year % 100
      && AllDigits(r[5..7]) && DecimalValue(r[5..7]) == date.month
      && AllDigits(r[7..9]) && DecimalValue(r[7..9]) == date.day
      && AllDigits(r[9..]) && DecimalValue(r[9..]) == todayOrders + 1
  {
    assert Pow10(2) == 100 && Pow10(4) == 10000 by {
      assert Pow10(1) == 10;
      assert Pow10(3) == 1000;
    }
    LastTwoDigits(date.year);
    PadStartExact(date.month, 2);
    PadStartExact(date.day, 2);
    PadStartExact(todayOrders + 1, 4);
    OrderNumberFields(OrderNumber(date, todayOrders), LastTwo(NatToString(date.year)),
                      PadStart(NatToString(date.month), 2), PadStart(NatToString(date.day), 2),
                      PadStart(NatToString(todayOrders + 1), 4));
  }

  /** Two orders created the same day get different numbers. */
  lemma OrderNumbersDistinct(date: CalendarDate, n1: nat, n2: nat)
    requires date.year >= 10 && date.month < 100 && date.day < 100 && n1 < 9999 && n2 < 9999
    requires n1 != n2
    ensures OrderNumber(date, n1) != OrderNumber(date, n2)
  {
    OrderNumberDecodes(date, n1);
    OrderNumberDecodes(date, n2);
  }

  // ---------------------------------------------------------------------------
  // Billing address
  // ---------------------------------------------------------------------------

  /** `sameAsShipping || !street`: an absent or empty street counts as missing. */
  predicate NeedsBillingDefault(b: BillingAddress)
  {
    b.sameAsShipping || b.street.None? || b.street.value == ""
  }

  function CopyOfShipping(a: Address): BillingAddress
  {
    BillingAddress(Some(a.firstName), Some(a.lastName), Some(a.street), Some(a.city),
                   Some(a.state), Some(a.zipCode), Some(a.country), a.phone, true)
  }

  /** The billing address the pre-save hook leaves behind. */
  function BillingAfterSave(b: BillingAddress, shipping: Address): BillingAddress
  {
    if NeedsBillingDefault(b) then CopyOfShipping(shipping) else b
  }

  /** The billing address a new order stores: the schema defaults sameAsShipping to true when the flag is omitted. */
  function WithSameAsShipping(b: BillingAddress, flag: Option<bool>): BillingAddress
  {
    b.(sameAsShipping := flag.None? || flag.value)
  }

  /**
    A billing address given without the sameAsShipping flag is replaced by the
    shipping address at the first save, street or not; only an explicit false
    with a street keeps the caller's address.
  */
  lemma BillingFlagDefault(b: BillingAddress, flag: Option<bool>, shipping: Address)
    ensures flag.None? ==> BillingAfterSave(WithSameAsShipping(b, flag), shipping) == CopyOfShipping(shipping)
    ensures flag == Some(false) && b.street.Some? && b.street.value != "" ==>
      BillingAfterSave(WithSameAsShipping(b, flag), shipping) == b.(sameAsShipping := false)
  {
  }

  /**
    After a save the billing address says it is the shipping address exactly
    when it was marked so or had no street; it is then a copy of the shipping
    address, and otherwise the caller's own, untouched. Saving again changes nothing.
  */
  lemma BillingAfterSaveCases(b: BillingAddress, shipping: Address)
    ensures BillingAfterSave(b, shipping).sameAsShipping <==> NeedsBillingDefault(b)
    ensures NeedsBillingDefault(b) ==> BillingAfterSave(b, shipping) == CopyOfShipping(shipping)
    ensures !NeedsBillingDefault(b) ==> BillingAfterSave(b, shipping) == b
    ensures BillingAfterSave(BillingAfterSave(b, shipping), shipping) == BillingAfterSave(b, shipping)
  {
  }

  // ---------------------------------------------------------------------------
  // Totals
  // ---------------------------------------------------------------------------

  function ItemTotal(item: OrderItem): int { item.totalPrice }
  function ItemQuantity(item: OrderItem): int { item.quantity }

  /** The reduce of calculateTotal over the line totals. */
  function ItemsSubtotal(items: seq<OrderItem>): int
  {
    Sum(items, ItemTotal)
  }

  /** The totalItems virtual. */
  function TotalItems(items: seq<OrderItem>): int
  {
    Sum(items, ItemQuantity)
  }

  /** The totalItems virtual sums line by line: one more line adds its quantity. */
  lemma TotalItemsAppend(items: seq<OrderItem>, item: OrderItem)
    ensures TotalItems(items + [item]) == TotalItems(items) + item.quantity
  {
    SumConcat(items, [item], ItemQuantity);
    SumSingleton(item, ItemQuantity);
  }

  /** The total calculateTotal writes: subtotal plus shipping plus tax less the discount. */
  function GrandTotal(p: Pricing, subtotal: int): int
  {
    subtotal + p.shipping + p.tax - p.discount
  }

  /**
    Under the schema's bounds (quantity at least 1, line totals at least 0), an
    order counts at least one unit per line and its subtotal is not negative.
  */
  lemma TotalsUnderSchema(items: seq<OrderItem>)
    requires forall i :: 0 <= i < |items| ==> items[i].quantity >= 1 && items[i].totalPrice >= 0
    ensures TotalItems(items) >= |items|
    ensures ItemsSubtotal(items) >= 0
  {
    SumAtLeast(items, ItemQuantity, 1);
    SumPositiveIff(items, ItemTotal);
  }

  /** When each line's total is its quantity times its unit price, the subtotal is the sum of those products. */
  lemma {:induction false} SubtotalFromLines(items: seq<OrderItem>)
    requires forall i :: 0 <= i < |items| ==> items[i].totalPrice == items[i].quantity * items[i].unitPrice
    ensures ItemsSubtotal(items) == Sum(items, (it: OrderItem) => it.quantity * it.unitPrice)
    decreases |items|
  {
    if items != [] {
      var n := |items| - 1;
      assert forall i :: 0 <= i < n ==> items[..n][i] == items[i];
      SubtotalFromLines(items[..n]);
    }
  }

  /** A discount no larger than the shipping and tax keeps the total at or above the subtotal, and vice versa. */
  lemma GrandTotalBounds(p: Pricing, subtotal: int)
    ensures GrandTotal(p, subtotal) >= subtotal <==> p.discount <= p.shipping + p.tax
    ensures p.shipping >= 0 && p.tax >= 0 && p.discount >= 0 ==>
      subtotal - p.discount <= GrandTotal(p, subtotal)
  {
  }

  // ---------------------------------------------------------------------------
  // Status transitions
  // ---------------------------------------------------------------------------

  /** cancelOrder's guard: shipped and delivered orders cannot be cancelled; every other status can. */
  function CancelTransition(s: OrderStatus): (r: Result<OrderStatus>)
    ensures r.Err? <==> s == Shipped || s == Delivered
    ensures r.Err? ==> r.error == CannotCancel
    ensures r.Ok? ==> r.value == Cancelled
  {
    if s == Shipped || s == Delivered then Err(CannotCancel) else Ok(Cancelled)
  }

  /** processPayment confirms a pending order and leaves any other status alone. */
  function PaymentTransition(s: OrderStatus): (r: OrderStatus)
    ensures r != s <==> s == Pending
    ensures r != s ==> r == Confirmed
  {
    if s == Pending then Confirmed else s
  }

  /** A truthy tracking number: present and not the empty string. */
  predicate HasTracking(tracking: Option<string>)
  {
    tracking.Some? && tracking.value != ""
  }

  /** updateShipping ships a processing order when given a tracking number, and leaves any other status alone. */
  function ShippingTransition(s: OrderStatus, tracking: Option<string>): (r: OrderStatus)
    ensures r != s <==> s == Processing && HasTracking(tracking)
    ensures r != s ==> r == Shipped
  {
    if HasTracking(tracking) && s == Processing then Shipped else s
  }

  /**
    None of the three guarded transitions leads away from a shipped or delivered
    order, and none of them delivers one or returns one.
  */
  lemma ShippedAndDeliveredAreFinal(s: OrderStatus, tracking: Option<string>)
    ensures s == Shipped || s == Delivered ==>
      PaymentTransition(s) == s && ShippingTransition(s, tracking) == s && CancelTransition(s).Err?
    ensures PaymentTransition(s) in {s, Confirmed}
    ensures ShippingTransition(s, tracking) in {s, Shipped}
    ensures CancelTransition(s).Ok? ==> CancelTransition(s).value == Cancelled
  {
  }

  /** The note cancelOrder records: the reason, or a fixed text when there is none. */
  function CancelNote(reason: Option<string>): (note: string)
    ensures note != ""
    ensures reason.Some? && reason.value != "" ==> note == reason.value
    ensures !(reason.Some? && reason.value != "") ==> note == "Order cancelled"
  {
    if reason.Some? && reason.value != "" then reason.value else "Order cancelled"
  }

  // ---------------------------------------------------------------------------
  // The history the pre-save hook appends
  // ---------------------------------------------------------------------------

  /** The entry the pre-save hook pushes when the status changed. */
  function ChangeEntry(status: OrderStatus, now: int): HistoryEntry
  {
    HistoryEntry(status, now, "Status changed to " + StatusName(status), None)
  }

  /** The entries one save appends: one when the status was modified on an order already stored. */
  function HookEntries(isNew: bool, statusModified: bool, status: OrderStatus, now: int): (r: seq<HistoryEntry>)
    ensures |r| <= 1
    ensures |r| == 1 <==> statusModified && !isNew
    ensures forall e :: e in r ==> e.status == status && e.timestamp == now && e.updatedBy.None?
  {
    if statusModified && !isNew then [ChangeEntry(status, now)] else []
  }

  /**
    What a transition that calls addStatusHistory appends to the history: its
    own entry, and then the hook's entry when the order is stored and the status
    was modified (by this call or before it). The log may thus hold two entries
    for one change.
  */
  function TransitionEntries(isNew: bool, statusModified: bool, before: OrderStatus, after: OrderStatus,
                             now: int, note: string, updatedBy: Option<UserId>): seq<HistoryEntry>
  {
    [HistoryEntry(after, now, note, updatedBy)] + HookEntries(isNew, statusModified || before != after, after, now)
  }

  lemma TransitionEntriesShape(isNew: bool, statusModified: bool, before: OrderStatus, after: OrderStatus,
                               now: int, note: string, updatedBy: Option<UserId>)
    ensures var r := TransitionEntries(isNew, statusModified, before, after, now, note, updatedBy);
      && 1 <= |r| <= 2
      && r[0] == HistoryEntry(after, now, note, updatedBy)
      && (|r| == 2 <==> !isNew && (statusModified || before != after))
      && forall e :: e in r ==> e.status == after
  {
  }

  // ---------------------------------------------------------------------------
  // Shipping and returns
  // ---------------------------------------------------------------------------

  function Pick<T>(given: Option<T>, current: T): T
  {
    if given.Some? then given.value else current
  }

  function PickOpt<T>(given: Option<T>, current: Option<T>): Option<T>
  {
    if given.Some? then given else current
  }

  /** Object.assign of the update onto the shipping record: each key given replaces its field. */
  function MergeShipping(s: Shipping, u: ShippingUpdate): (r: Shipping)
    ensures u.trackingNumber.Some? ==> r.trackingNumber == u.trackingNumber
    ensures u.trackingNumber.None? ==> r.trackingNumber == s.trackingNumber
    ensures u.carrier.Some? ==> r.carrier == u.carrier
    ensures u.carrier.None? ==> r.carrier == s.carrier
    ensures u.shippingMethod.Some? ==> r.shippingMethod == u.shippingMethod.value
    ensures u.shippingMethod.None? ==> r.shippingMethod == s.shippingMethod
    ensures u.estimatedDelivery.Some? ==> r.estimatedDelivery == u.estimatedDelivery
    ensures u.estimatedDelivery.None? ==> r.estimatedDelivery == s.estimatedDelivery
    ensures u.shippedAt.Some? ==> r.shippedAt == u.shippedAt
    ensures u.shippedAt.None? ==> r.shippedAt == s.shippedAt
    ensures u.deliveredAt.Some? ==> r.deliveredAt == u.deliveredAt
    ensures u.deliveredAt.None? ==> r.deliveredAt == s.deliveredAt
  {
    Shipping(Pick(u.shippingMethod, s.shippingMethod), PickOpt(u.carrier, s.carrier), PickOpt(u.trackingNumber, s.trackingNumber),
             PickOpt(u.estimatedDelivery, s.estimatedDelivery), PickOpt(u.shippedAt, s.shippedAt),
             PickOpt(u.deliveredAt, s.deliveredAt))
  }

  /** Merging an empty update changes nothing, and merging the same update twice is merging it once. */
  lemma MergeShippingLaws(s: Shipping, u: ShippingUpdate)
    ensures MergeShipping(s, ShippingUpdate(None, None, None, None, None, None)) == s
    ensures MergeShipping(MergeShipping(s, u), u) == MergeShipping(s, u)
  {
  }

  /** Thirty days in milliseconds. */
  const ReturnWindowMs: int := 30 * 24 * 60 * 60 * 1000

  /**
    The window test of requestReturn. The source reads the delivery date from a
    path the schema does not define, so it is passed in; with no date the
    comparison is false and the window never expires.
  */
  predicate WindowExpired(now: int, deliveredAt: Option<int>)
  {
    deliveredAt.Some? && now - deliveredAt.value > ReturnWindowMs
  }

  lemma ReturnWindowCases(now: int, deliveredAt: Option<int>)
    ensures ReturnWindowMs == 2592000000
    ensures deliveredAt.None? ==> !WindowExpired(now, deliveredAt)
    ensures deliveredAt.Some? && now <= deliveredAt.value + 2592000000 ==> !WindowExpired(now, deliveredAt)
    ensures deliveredAt.Some? && now > deliveredAt.value + 2592000000 ==> WindowExpired(now, deliveredAt)
  {
  }

  /** requestReturn's guard and result, as a value. */
  function ReturnDecision(status: OrderStatus, now: int, deliveredAt: Option<int>, reason: Option<string>): (r: Result<ReturnRequest>)
    ensures r == Err(NotDelivered) <==> status != Delivered
    ensures r == Err(ReturnWindowExpired) <==> status == Delivered && WindowExpired(now, deliveredAt)
    ensures r.Ok? ==> r.value.requested && r.value.status == Some(ReturnPending) && r.value.reason == reason
  {
    if status != Delivered then Err(NotDelivered)
    else if WindowExpired(now, deliveredAt) then Err(ReturnWindowExpired)
    else Ok(ReturnRequest(true, Some(now), reason, Some(ReturnPending), None, None))
  }

  /** The document a new order starts from; the order number is set by its first save. */
  class Order {
    var orderNumber: string
    var user: UserId
    var items: seq<OrderItem>
    var pricing: Pricing
    var shippingAddress: Address
    var billingAddress: BillingAddress
    var payment: Payment
    var status: OrderStatus
    var shipping: Shipping
    var statusHistory: seq<HistoryEntry>
    var returnRequest: ReturnRequest
    /** Not yet saved. */
    var isNew: bool
    /** The status was assigned a different value since the last save. */
    var statusModified: bool

    /**
      A new order with the schema defaults. sameAsShipping is None when the
      caller leaves the billing flag out, and the schema then defaults it to true.
    */
    constructor (user: UserId, items: seq<OrderItem>, pricing: Pricing, shippingAddress: Address,
                 billingAddress: BillingAddress, sameAsShipping: Option<bool>, paymentMethod: PaymentMethod)
      ensures this.user == user && this.items == items && this.pricing == pricing
      ensures this.shippingAddress == shippingAddress && this.billingAddress == WithSameAsShipping(billingAddress, sameAsShipping)
      ensures payment == Payment(paymentMethod, PaymentPending, None, None, None)
      ensures status == Pending && statusHistory == [] && orderNumber == ""
      ensures shipping == Shipping(Standard, None, None, None, None, None)
      ensures returnRequest == ReturnRequest(false, None, None, None, None, None)
      ensures isNew && !statusModified
    {
      this.user := user;
      this.items := items;
      this.pricing := pricing;
      this.shippingAddress := shippingAddress;
      this.billingAddress := WithSameAsShipping(billingAddress, sameAsShipping);
      payment := Payment(paymentMethod, PaymentPending, None, None, None);
      status := Pending;
      shipping := Shipping(Standard, None, None, None, None, None);
      statusHistory := [];
      returnRequest := ReturnRequest(false, None, None, None, None, None);
      orderNumber := "";
      isNew := true;
      statusModified := false;
    }

    /** Assigning the status; the path counts as modified when the value changes. */
    method SetStatus(s: OrderStatus)
      modifies this`status, this`statusModified
      ensures status == s
      ensures statusModified == (old(statusModified) || s != old(status))
    {
      if s != status {
        statusModified := true;
      }
      status := s;
    }

    /**
      The pre-save hook: a new order gets its number, an order already stored
      whose status was modified gets a "Status changed to" entry, and the billing
      address defaults to the shipping address.
    */
    method Save(ctx: SaveContext)
      modifies this`orderNumber, this`statusHistory, this`billingAddress, this`isNew, this`statusModified
      ensures orderNumber == if old(isNew) then OrderNumber(ctx.today, ctx.todayOrders) else old(orderNumber)
      ensures statusHistory == old(statusHistory) + HookEntries(old(isNew), old(statusModified), status, ctx.now)
      ensures billingAddress == BillingAfterSave(old(billingAddress), shippingAddress)
      ensures !isNew && !statusModified
    {
      if isNew {
        var year := LastTwo(NatToString(ctx.today.year));
        var month := PadStart(NatToString(ctx.today.month), 2);
        var day := PadStart(NatToString(ctx.today.day), 2);
        var sequence := PadStart(NatToString(ctx.todayOrders + 1), 4);
        orderNumber := "ORD" + year + month + day + sequence;
      }
      if statusModified && !isNew {
        statusHistory := statusHistory + [ChangeEntry(status, ctx.now)];
      }
      if NeedsBillingDefault(billingAddress) {
        billingAddress := CopyOfShipping(shippingAddress);
      }
      isNew := false;
      statusModified := false;
    }

    /** addStatusHistory: record an entry, set the status, and save. */
    method AddStatusHistory(s: OrderStatus, note: string, updatedBy: Option<UserId>, ctx: SaveContext)
      modifies this`status, this`statusModified, this`orderNumber, this`statusHistory, this`billingAddress, this`isNew
      ensures status == s
      ensures statusHistory == old(statusHistory) + TransitionEntries(old(isNew), old(statusModified), old(status), s, ctx.now, note, updatedBy)
      ensures orderNumber == if old(isNew) then OrderNumber(ctx.today, ctx.todayOrders) else old(orderNumber)
      ensures billingAddress == BillingAfterSave(old(billingAddress), shippingAddress)
      ensures !isNew && !statusModified
    {
      statusHistory := statusHistory + [HistoryEntry(s, ctx.now, note, updatedBy)];
      SetStatus(s);
      Save(ctx);
    }

    /** cancelOrder: refuses shipped and delivered orders; otherwise cancels, records the reason and saves. */
    method CancelOrder(reason: Option<string>, cancelledBy: Option<UserId>, ctx: SaveContext) returns (r: Outcome)
      modifies this`status, this`statusModified, this`orderNumber, this`statusHistory, this`billingAddress, this`isNew
      ensures var t := CancelTransition(old(status));
        && (t.Err? ==> r == Fail(t.error) && status == old(status) && statusHistory == old(statusHistory)
                       && orderNumber == old(orderNumber) && billingAddress == old(billingAddress)
                       && isNew == old(isNew) && statusModified == old(statusModified))
        && (t.Ok? ==> r == Pass && status == Cancelled
                      && statusHistory == old(statusHistory) + TransitionEntries(old(isNew), old(statusModified), old(status), Cancelled, ctx.now, CancelNote(reason), cancelledBy)
                      && orderNumber == (if old(isNew) then OrderNumber(ctx.today, ctx.todayOrders) else old(orderNumber))
                      && billingAddress == BillingAfterSave(old(billingAddress), shippingAddress)
                      && !isNew && !statusModified)
    {
      if status == Shipped || status == Delivered {
        return Fail(CannotCancel);
      }
      SetStatus(Cancelled);
      AddStatusHistory(Cancelled, CancelNote(reason), cancelledBy, ctx);
      BillingAfterSaveCases(old(billingAddress), shippingAddress);
      Save(ctx);
      r := Pass;
    }

    /** processPayment: records the payment as completed, confirms a pending order, and saves. */
    method ProcessPayment(info: PaymentInfo, ctx: SaveContext)
      modifies this`payment, this`status, this`statusModified, this`orderNumber, this`statusHistory, this`billingAddress, this`isNew
      ensures payment == old(payment).(status := Completed, transactionId := info.transactionId,
                                       paymentIntentId := info.paymentIntentId, paidAt := Some(ctx.now))
      ensures status == PaymentTransition(old(status))
      ensures old(status) == Pending ==>
        statusHistory == old(statusHistory) + TransitionEntries(old(isNew), old(statusModified), Pending, Confirmed, ctx.now, "Payment processed successfully", None)
      ensures old(status) != Pending ==>
        statusHistory == old(statusHistory) + HookEntries(old(isNew), old(statusModified), status, ctx.now)
      ensures orderNumber == if old(isNew) then OrderNumber(ctx.today, ctx.todayOrders) else old(orderNumber)
      ensures billingAddress == BillingAfterSave(old(billingAddress), shippingAddress)
      ensures !isNew && !statusModified
    {
      payment := payment.(status := Completed, transactionId := info.transactionId,
                          paymentIntentId := info.paymentIntentId, paidAt := Some(ctx.now));
      if status == Pending {
        SetStatus(Confirmed);
        AddStatusHistory(Confirmed, "Payment processed successfully", None, ctx);
      }
      BillingAfterSaveCases(old(billingAddress), shippingAddress);
      Save(ctx);
    }

    /**
      updateShipping: merges the given fields; a processing order given a
      tracking number is shipped, stamped and recorded; then saves.
    */
    method UpdateShipping(u: ShippingUpdate, ctx: SaveContext)
      modifies this`shipping, this`status, this`statusModified, this`orderNumber, this`statusHistory, this`billingAddress, this`isNew
      ensures status == ShippingTransition(old(status), u.trackingNumber)
      ensures status != old(status) ==>
        && shipping == MergeShipping(old(shipping), u).(shippedAt := Some(ctx.now))
        && statusHistory == old(statusHistory) + TransitionEntries(old(isNew), old(statusModified), Processing, Shipped, ctx.now, "Order shipped with tracking number", None)
      ensures status == old(status) ==>
        && shipping == MergeShipping(old(shipping), u)
        && statusHistory == old(statusHistory) + HookEntries(old(isNew), old(statusModified), status, ctx.now)
      ensures orderNumber == if old(isNew) then OrderNumber(ctx.today, ctx.todayOrders) else old(orderNumber)
      ensures billingAddress == BillingAfterSave(old(billingAddress), shippingAddress)
      ensures !isNew && !statusModified
    {
      shipping := MergeShipping(shipping, u);
      if HasTracking(u.trackingNumber) && status == Processing {
        SetStatus(Shipped);
        shipping := shipping.(shippedAt := Some(ctx.now));
        AddStatusHistory(Shipped, "Order shipped with tracking number", None, ctx);
      }
      BillingAfterSaveCases(old(billingAddress), shippingAddress);
      Save(ctx);
    }

    /** requestReturn: only a delivered order inside the return window; replaces the return request and saves. */
    method RequestReturn(reason: Option<string>, deliveredAt: Option<int>, ctx: SaveContext) returns (r: Outcome)
      modifies this`returnRequest, this`orderNumber, this`statusHistory, this`billingAddress, this`isNew, this`statusModified
      ensures var d := ReturnDecision(old(status), ctx.now, deliveredAt, reason);
        && (d.Err? ==> r == Fail(d.error) && returnRequest == old(returnRequest)
                       && statusHistory == old(statusHistory) && orderNumber == old(orderNumber)
                       && billingAddress == old(billingAddress) && isNew == old(isNew)
                       && statusModified == old(statusModified))
        && (d.Ok? ==> r == Pass && returnRequest == d.value
                      && statusHistory == old(statusHistory) + HookEntries(old(isNew), old(statusModified), status, ctx.now)
                      && orderNumber == (if old(isNew) then OrderNumber(ctx.today, ctx.todayOrders) else old(orderNumber))
                      && billingAddress == BillingAfterSave(old(billingAddress), shippingAddress)
                      && !isNew && !statusModified)
    {
      if status != Delivered {
        return Fail(NotDelivered);
      }
      if deliveredAt.Some? && ctx.now - deliveredAt.value > 30 * 24 * 60 * 60 * 1000 {
        return Fail(ReturnWindowExpired);
      }
      returnRequest := ReturnRequest(true, Some(ctx.now), reason, Some(ReturnPending), None, None);
      Save(ctx);
      r := Pass;
    }

    /** calculateTotal: rewrites the subtotal and the total and returns the total; it does not save. */
    method CalculateTotal() returns (total: int)
      modifies this`pricing
      ensures pricing == old(pricing).(subtotal := ItemsSubtotal(items), total := GrandTotal(old(pricing), ItemsSubtotal(items)))
      ensures total == pricing.total
    {
      var subtotal := 0;
      var i := 0;
      while i < |items|
        invariant 0 <= i <= |items|
        invariant subtotal == ItemsSubtotal(items[..i])
      {
        assert items[..i + 1][..i] == items[..i];
        subtotal := subtotal + items[i].totalPrice;
        i := i + 1;
      }
      assert items[..i] == items;
      pricing := pricing.(subtotal := subtotal);
      pricing := pricing.(total := pricing.subtotal + pricing.shipping + pricing.tax - pricing.discount);
      total := pricing.total;
    }
  }
}
