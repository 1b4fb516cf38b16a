/**
 * The entities of gaepagseguro/model.py: the closed set of payment statuses,
 * the access-data, payment, log and item nodes, and the three typed arcs.
 * Amounts are integer cents (the source keeps them as fixed-point Decimal).
 */
module PagSegModel {
  import opened Wrappers

  /** STATUSES: the ten values a payment or a log may carry. */
  datatype Status =
    | Created
    | SentToPagseguro
    | Analysis
    | Accepted
    | Available
    | Dispute
    | Returned
    | Cancelled
    | Chargeback
    | ChargebackDebt

  /** The string the datastore holds for a status. */
  function StatusName(s: Status): string
  {
    match s
    case Created => "CREATED"
    case SentToPagseguro => "SENT_TO_PAGSEGURO"
    case Analysis => "ANALYSIS"
    case Accepted => "ACCEPTED"
    case Available => "AVAILABLE"
    case Dispute => "DISPUTE"
    case Returned => "RETURNED"
    case Cancelled => "CANCELLED"
    case Chargeback => "CHARGEBACK"
    case ChargebackDebt => "CHARGEBACK_DEBT"
  }

  /** The STATUSES list, in the order the source declares it. */
  const Statuses: seq<Status> :=
    [Created, SentToPagseguro, Analysis, Accepted, Available,
     Dispute, Returned, Cancelled, Chargeback, ChargebackDebt]

  /** The `choices=STATUSES` check: which stored strings are statuses. */
  function StatusFromName(name: string): (r: Option<Status>)
    ensures r.Some? ==> StatusName(r.value) == name
  {
    if name == "CREATED" then Some(Created)
    else if name == "SENT_TO_PAGSEGURO" then Some(SentToPagseguro)
    else if name == "ANALYSIS" then Some(Analysis)
    else if name == "ACCEPTED" then Some(Accepted)
    else if name == "AVAILABLE" then Some(Available)
    else if name == "DISPUTE" then Some(Dispute)
    else if name == "RETURNED" then Some(Returned)
    else if name == "CANCELLED" then Some(Cancelled)
    else if name == "CHARGEBACK" then Some(Chargeback)
    else if name == "CHARGEBACK_DEBT" then Some(ChargebackDebt)
    else None
  }

  /** STATUSES lists ten distinct values and leaves none out. */
  lemma StatusesClosed()
    ensures |Statuses| == 10
    ensures forall i, j :: 0 <= i < j < |Statuses| ==> Statuses[i] != Statuses[j]
    ensures forall s: Status :: s in Statuses
  {
    forall s: Status ensures s in Statuses {
      var k := match s
        case Created => 0 case SentToPagseguro => 1 case Analysis => 2 case Accepted => 3
        case Available => 4 case Dispute => 5 case Returned => 6 case Cancelled => 7
        case Chargeback => 8 case ChargebackDebt => 9;
      assert Statuses[k] == s;
    }
  }

  /** Reading a status name back gives the status, so the ten names are distinct. */
  lemma StatusNameRoundTrip(s: Status)
    ensures StatusFromName(StatusName(s)) == Some(s)
  {
  }

  /** A string is accepted as a status exactly when it is one of the ten names. */
  lemma StatusNamesAreTheChoices(name: string)
    ensures StatusFromName(name).Some? <==> exists s: Status :: StatusName(s) == name
  {
    if exists s: Status :: StatusName(s) == name {
      var s: Status :| StatusName(s) == name;
      StatusNameRoundTrip(s);
    }
  }

  /** Amounts in hundredths of a real (0.01 is 1). */
  type Cents = int

  /** Bounds of PagSegItem.price (0.01 .. 9999999.00) and PagSegItem.quantity (1 .. 999). */
  const PriceLower: Cents := 1
  const PriceUpper: Cents := 999999900
  const QuantityLower: int := 1
  const QuantityUpper: int := 999

  datatype AccessData = AccessData(email: string, token: string)

  datatype Log = Log(status: Status)

  /** PagSegPayment: `code` comes from the gateway; `total` and `net_amount` are optional. */
  datatype Payment = Payment(code: Option<string>, status: Status, total: Option<Cents>, netAmount: Option<Cents>)

  /** `PagSegPayment()`: the defaults of a new payment. */
  function NewPayment(): (p: Payment)
    ensures p.status == Created
    ensures p.code.None? && p.total.None? && p.netAmount.None?
  {
    Payment(None, Created, None, None)
  }

  /** PagSegItem; `reference` is the id of a node outside this package, if any. */
  datatype Item = Item(reference: Option<nat>, description: string, price: Cents, quantity: int)

  /** The bounds the item's price and quantity properties enforce. */
  predicate ValidItem(i: Item)
  {
    PriceLower <= i.price <= PriceUpper && QuantityLower <= i.quantity <= QuantityUpper
  }

  /** PagSegItem.total(). */
  function ItemTotal(i: Item): Cents
  {
    i.price * i.quantity
  }

  /** A valid item costs at least its unit price, hence at least 0.01, and at most 999 units of the top price. */
  lemma ValidItemTotalBounds(i: Item)
    requires ValidItem(i)
    ensures i.price <= ItemTotal(i) <= PriceUpper * QuantityUpper
    ensures ItemTotal(i) >= PriceLower
  {
    var q := i.quantity - 1;
    assert ItemTotal(i) == i.price + i.price * q;
    assert i.price * q >= 0;
    assert i.price * q <= PriceUpper * q;
    assert PriceUpper * q <= PriceUpper * (QuantityUpper - 1);
  }

  /** `sum(i.total() for i in items)`. */
  function SumTotals(items: seq<Item>): Cents
  {
    if |items| == 0 then 0 else SumTotals(items[..|items| - 1]) + ItemTotal(items[|items| - 1])
  }

  lemma {:induction false} SumTotalsAppend(items: seq<Item>, more: seq<Item>)
    ensures SumTotals(items + more) == SumTotals(items) + SumTotals(more)
    decreases |more|
  {
    if |more| > 0 {
      var m := more[..|more| - 1];
      assert (items + more)[..|items + more| - 1] == items + m;
      assert (items + more)[|items + more| - 1] == more[|more| - 1];
      SumTotalsAppend(items, m);
    } else {
      assert items + more == items;
    }
  }

  /** A payment made of n valid items totals at least n cents. */
  lemma {:induction false} SumOfValidItems(items: seq<Item>)
    requires forall i :: 0 <= i < |items| ==> ValidItem(items[i])
    ensures SumTotals(items) >= |items|
  {
    if |items| > 0 {
      SumOfValidItems(items[..|items| - 1]);
      ValidItemTotalBounds(items[|items| - 1]);
    }
  }

  /** A user of the gaepermission package, the owner of an external payment. */
  datatype User = User(email: string, name: string)

  /** The origin of a ToPagSegPayment arc: a user, or any other node of the application. */
  datatype Owner = UserNode(id: nat) | OtherNode(id: nat)

  /** PagSegPaymentToLog, PagSegPaymentToItem and ToPagSegPayment: three distinct arc types. */
  datatype PaymentToLog = PaymentToLog(origin: nat, destination: nat)
  datatype PaymentToItem = PaymentToItem(origin: nat, destination: nat)
  datatype ToPayment = ToPayment(origin: Owner, destination: nat)
}
