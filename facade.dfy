/**
 * The pure helpers of gaepagseguro/pagseguro_facade.py: the label of each
 * status, the checkout URL a buyer is sent to, the choice between the two
 * payment searches, and the defaults of the address and item commands.
 * The searches themselves (their ordering, paging and caching) are not
 * modelled; a search is the query it stands for.
 */
module PagSegFacade {
  import opened Wrappers
  import opened PagSegModel
  import opened ValidationCommands
  import opened Commands
  import opened ConnectionCommands

  // ---------------------------------------------------------------------------
  // status_label
  // ---------------------------------------------------------------------------

  /** The label _STATUS_LABEL_DCT gives a status. */
  function Label(s: Status): string
  {
    match s
    case Created => "Criado"
    case SentToPagseguro => "Enviado ao Pagseguro"
    case Analysis => "Em análise"
    case Accepted => "Aceito"
    case Available => "Disponível"
    case Dispute => "Em Disputa"
    case Returned => "Devolvido"
    case Cancelled => "Cancelado"
    case Chargeback => "Chargeback"
    case ChargebackDebt => "Chargeback crédito"
  }

  /** The table read backwards: the status a label stands for, if any. */
  function LabelStatus(text: string): (r: Option<Status>)
    ensures r.Some? ==> Label(r.value) == text
  {
    if text == "Criado" then Some(Created)
    else if text == "Enviado ao Pagseguro" then Some(SentToPagseguro)
    else if text == "Em análise" then Some(Analysis)
    else if text == "Aceito" then Some(Accepted)
    else if text == "Disponível" then Some(Available)
    else if text == "Em Disputa" then Some(Dispute)
    else if text == "Devolvido" then Some(Returned)
    else if text == "Cancelado" then Some(Cancelled)
    else if text == "Chargeback" then Some(Chargeback)
    else if text == "Chargeback crédito" then Some(ChargebackDebt)
    else None
  }

  /** Reading a status's label back gives the status. */
  lemma LabelRoundTrip(s: Status)
    ensures LabelStatus(Label(s)) == Some(s)
  {
  }

  /** No two statuses share a label. */
  lemma LabelsDistinct(s: Status, t: Status)
    ensures Label(s) == Label(t) ==> s == t
  {
    LabelRoundTrip(s);
    LabelRoundTrip(t);
  }

  /**
   * status_label: the label of a stored status name. A name outside the
   * table has none, and a label names back the status it was looked up for.
   */
  function StatusLabel(status: string): (r: Option<string>)
    ensures r.Some? <==> StatusFromName(status).Some?
    ensures r.Some? ==> LabelStatus(r.value) == StatusFromName(status)
  {
    match StatusFromName(status)
    case None => None
    case Some(s) =>
      LabelRoundTrip(s);
      Some(Label(s))
  }

  /** Every status of STATUSES has its label. */
  lemma EveryStatusLabelled(s: Status)
    ensures StatusLabel(StatusName(s)) == Some(Label(s))
  {
    StatusNameRoundTrip(s);
  }

  // ---------------------------------------------------------------------------
  // pagseguro_url
  // ---------------------------------------------------------------------------

  const CheckoutUrlPrefix: string := "https://pagseguro.uol.com.br/v2/checkout/payment.html?code="

  /** pagseguro_url: the checkout page of a transaction code. */
  function PagseguroUrl(code: string): (r: string)
    ensures |r| == |CheckoutUrlPrefix| + |code|
    ensures r[..|CheckoutUrlPrefix|] == CheckoutUrlPrefix
    ensures r[|CheckoutUrlPrefix|..] == code
  {
    CheckoutUrlPrefix + code
  }

  /** The transaction code a checkout URL carries; a URL of another shape has none. */
  function CodeFromUrl(url: string): Option<string>
  {
    if |CheckoutUrlPrefix| <= |url| && url[..|CheckoutUrlPrefix|] == CheckoutUrlPrefix
    then Some(url[|CheckoutUrlPrefix|..])
    else None
  }

  /** The code of a checkout URL is the code it was built from. */
  lemma UrlRoundTrip(code: string)
    ensures CodeFromUrl(PagseguroUrl(code)) == Some(code)
  {
  }

  /** Every URL that carries a code is the checkout URL of that code. */
  lemma UrlFromCode(url: string, code: string)
    requires CodeFromUrl(url) == Some(code)
    ensures PagseguroUrl(code) == url
  {
    assert url == url[..|CheckoutUrlPrefix|] + url[|CheckoutUrlPrefix|..];
  }

  // ---------------------------------------------------------------------------
  // search_all_payments
  // ---------------------------------------------------------------------------

  /** The paging arguments both searches take, passed through unchanged. */
  datatype SearchArgs = SearchArgs(pageSize: int, startCursor: Option<string>, offset: int,
                                   useCache: bool, cacheBegin: bool, relations: Option<seq<string>>)

  const DefaultSearchArgs: SearchArgs := SearchArgs(20, None, 0, true, true, None)

  /** PaymentsByStatusSearch and AllPaymentsSearch. */
  datatype PaymentSearch =
    | PaymentsByStatus(status: string, args: SearchArgs)
    | AllPayments(args: SearchArgs)

  /** Whether a payment is one the search's query selects. */
  predicate Selects(search: PaymentSearch, p: Payment)
  {
    match search
    case PaymentsByStatus(status, _) => StatusName(p.status) == status
    case AllPayments(_) => true
  }

  /**
   * search_all_payments: the status-filtered search when a status is given
   * (a non-empty string, since the source tests its truth), the unfiltered
   * one otherwise; the paging arguments go to either unchanged.
   */
  function SearchAllPayments(status: Option<string> := None, args: SearchArgs := DefaultSearchArgs): (r: PaymentSearch)
    ensures r.PaymentsByStatus? <==> status.Some? && status.value != ""
    ensures r.PaymentsByStatus? ==> r.status == status.value
    ensures r.args == args
  {
    if status.Some? && status.value != "" then PaymentsByStatus(status.value, args) else AllPayments(args)
  }

  /** The keys of the stored payments a search's query selects. */
  function Found(search: PaymentSearch, payments: map<nat, Payment>): set<nat>
  {
    set k | k in payments && Selects(search, payments[k])
  }

  /**
   * With a status, the search finds exactly the payments holding that status;
   * without one, every payment.
   */
  lemma SearchAllPaymentsFinds(status: Option<string>, args: SearchArgs, payments: map<nat, Payment>, k: nat)
    ensures k in Found(SearchAllPayments(status, args), payments) <==>
      k in payments && (status.None? || status.value == "" || StatusName(payments[k].status) == status.value)
  {
  }

  /** A non-empty status name outside STATUSES selects nothing (an empty one selects everything). */
  lemma UnknownStatusFindsNothing(status: string, args: SearchArgs, payments: map<nat, Payment>)
    requires status != "" && StatusFromName(status).None?
    ensures Found(SearchAllPayments(Some(status), args), payments) == {}
  {
    forall k | k in payments
      ensures !Selects(SearchAllPayments(Some(status), args), payments[k])
    {
      StatusNameRoundTrip(payments[k].status);
    }
  }

  // ---------------------------------------------------------------------------
  // validate_address_cmd and validate_item_cmd
  // ---------------------------------------------------------------------------

  const DefaultComplement: string := "Sem Complemento"

  /** validate_address_cmd: the address its form validates; the complement defaults to DefaultComplement. */
  function AddressCommand(street: string, number: string, quarter: string, postalcode: string,
                          town: string, state: string, complement: string := DefaultComplement): Address
  {
    Address(street, number, quarter, postalcode, town, state, complement)
  }

  /** An address built without a complement passes the complement rule and is sent with the default text. */
  lemma DefaultComplementAccepted(c: FieldChecks, street: string, number: string, quarter: string,
                                  postalcode: string, town: string, state: string)
    ensures var a := AddressCommand(street, number, quarter, postalcode, town, state);
      && a.complement == DefaultComplement
      && AddressFieldError(c, a, ComplementKey).None?
      && ShippingValue(ComplementParam, a) == DefaultComplement
  {
  }

  /** validate_item_cmd: the item its form validates; the reference defaults to none. */
  function ItemCommand(description: string, price: Cents, quantity: int, reference: Option<nat> := None): Item
  {
    Item(reference, description, price, quantity)
  }

  /** An item built without a reference is sent with the placeholder id. */
  lemma DefaultReferencePlaceholder(description: string, price: Cents, quantity: int)
    ensures ItemCommand(description, price, quantity).reference.None?
    ensures ItemIdValue(ItemCommand(description, price, quantity)) == "9999"
  {
  }
}
