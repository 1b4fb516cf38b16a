/**
 * The notification commands of gaepagseguro/update_commands.py: the
 * gateway's status codes, reading a notification and updating the notified
 * payment with one more log. Recording a payment the application did not
 * generate is in module ExternalPayments.
 * The HTTP fetch and the XML parser are parameters; a parsed document is a
 * Transaction whose missing children are None.
 */
module UpdateCommands {
  import opened Wrappers
  import opened Text
  import opened PagSegModel
  import opened Commands
  import opened Datastore
  import opened AdminCommands
  import opened SaveCommands

  // ---------------------------------------------------------------------------
  // XML_STATUS_TO_MODEL_STATUS
  // ---------------------------------------------------------------------------

  /** The status a gateway status code stands for; codes outside the table have none. */
  function GatewayStatus(code: string): (r: Option<Status>)
    ensures r.Some? ==> r.value != Created
  {
    if code == "1" then Some(SentToPagseguro)
    else if code == "2" then Some(Analysis)
    else if code == "3" then Some(Accepted)
    else if code == "4" then Some(Available)
    else if code == "5" then Some(Dispute)
    else if code == "6" then Some(Returned)
    else if code == "7" then Some(Cancelled)
    else if code == "8" then Some(ChargebackDebt)
    else if code == "9" then Some(Chargeback)
    else None
  }

  /** The code the gateway sends for a status; CREATED is the application's own and has none. */
  function GatewayCode(s: Status): (c: Option<string>)
    ensures c.None? <==> s == Created
  {
    match s
    case Created => None
    case SentToPagseguro => Some("1")
    case Analysis => Some("2")
    case Accepted => Some("3")
    case Available => Some("4")
    case Dispute => Some("5")
    case Returned => Some("6")
    case Cancelled => Some("7")
    case ChargebackDebt => Some("8")
    case Chargeback => Some("9")
  }

  /** The table is a bijection between the codes "1" to "9" and the nine statuses other than CREATED. */
  lemma GatewayTableInverse(code: string, s: Status)
    ensures GatewayStatus(code) == Some(s) <==> GatewayCode(s) == Some(code)
  {
    if GatewayCode(s) == Some(code) {
      match s
      case Created =>
      case SentToPagseguro =>
      case Analysis =>
      case Accepted =>
      case Available =>
      case Dispute =>
      case Returned =>
      case Cancelled =>
      case ChargebackDebt =>
      case Chargeback =>
    }
  }

  /** Only the nine one-digit codes from "1" to "9" are known. */
  lemma GatewayCodesKnown(code: string)
    ensures GatewayStatus(code).Some? <==> |code| == 1 && '1' <= code[0] <= '9'
  {
    if |code| == 1 && '1' <= code[0] <= '9' {
      assert code == [code[0]];
    }
  }

  // ---------------------------------------------------------------------------
  // Transaction documents
  // ---------------------------------------------------------------------------

  /** An `item` element of a transaction document. */
  datatype XmlItem = XmlItem(description: string, amount: string, quantity: string)

  /** `transaction/items/item`: a single element parses as one dictionary, several as a list. */
  datatype XmlItems = OneItem(item: XmlItem) | ItemList(list: seq<XmlItem>)

  /** The `sender` element. */
  datatype Sender = Sender(email: string, name: string)

  /** The parse of a `transaction` document; a child the document lacks is None. */
  datatype Transaction = Transaction(
    code: Option<string>,
    reference: Option<string>,
    status: Option<string>,
    netAmount: Option<string>,
    grossAmount: Option<string>,
    items: Option<XmlItems>,
    sender: Option<Sender>)

  // ---------------------------------------------------------------------------
  // FetchNotificationDetail
  // ---------------------------------------------------------------------------

  /** What the notification URL names: the notification code and the stored email and token. */
  datatype NotificationQuery = NotificationQuery(notificationCode: string, email: string, token: string)

  /** What FetchNotificationDetail hands to UpdatePayment: the reference, the transaction code, the status and the net amount. */
  datatype Notification = Notification(reference: string, code: string, status: Status, netAmount: string)

  /** The outcome of FetchNotificationDetail, and the document it keeps when the reference is missing. */
  datatype Fetched = Fetched(outcome: Outcome<Notification>, xml: Option<string>)

  const NotContactedMsg: string := "Notification not contacted"

  /** The transaction names a transaction, a status of the table and a net amount. */
  predicate Identified(t: Transaction)
  {
    t.code.Some? && t.status.Some? && GatewayStatus(t.status.value).Some? && t.netAmount.Some?
  }

  /**
   * FetchNotificationDetail: ask the gateway about a notification with the
   * stored credentials. `fetch` stands for the HTTP exchange (the empty
   * string when there is no answer or an empty one) and `parse` for the XML
   * parser (None when the answer is no transaction document).
   */
  function FetchNotificationDetail(accessData: Option<AccessData>, notificationCode: string,
                                   fetch: NotificationQuery -> string,
                                   parse: string -> Option<Transaction>): (r: Fetched)
    ensures accessData.None? ==> r.outcome.Raised? && r.xml.None?
    ensures accessData.Some? ==>
      var content := fetch(NotificationQuery(notificationCode, accessData.value.email, accessData.value.token));
      var t := parse(content);
      && (content == "" ==> r.outcome == Failed(map[PagseguroKey := Msg(NotContactedMsg)]) && r.xml.None?)
      && (r.outcome.Raised? <==> content != "" && (t.None? || !Identified(t.value)))
      && (r.outcome.Done? <==> content != "" && t.Some? && Identified(t.value) && t.value.reference.Some?)
      && (r.outcome.Done? ==>
            r.outcome.value == Notification(t.value.reference.value, t.value.code.value,
                                            GatewayStatus(t.value.status.value).value, t.value.netAmount.value))
      && (r.xml.Some? <==> content != "" && t.Some? && Identified(t.value) && t.value.reference.None?)
      && (r.xml.Some? ==> r.xml.value == content && r.outcome == Failed(map[NoReferenceKey := Msg(content)]))
  {
    if accessData.None? then Fetched(Raised("AttributeError"), None)
    else
      var content := fetch(NotificationQuery(notificationCode, accessData.value.email, accessData.value.token));
      if content == "" then Fetched(Failed(map[PagseguroKey := Msg(NotContactedMsg)]), None)
      else
        match parse(content)
        case None => Fetched(Raised("ExpatError"), None)
        case Some(t) =>
          if !Identified(t) then Fetched(Raised("KeyError"), None)
          else if t.reference.None? then Fetched(Failed(map[NoReferenceKey := Msg(content)]), Some(content))
          else Fetched(Done(Notification(t.reference.value, t.code.value, GatewayStatus(t.status.value).value, t.netAmount.value)), None)
  }

  // ---------------------------------------------------------------------------
  // UpdatePayment
  // ---------------------------------------------------------------------------

  /** Python's truth of an optional code or amount: unset, empty and zero count as missing. */
  predicate HasCode(code: Option<string>)
  {
    code.Some? && code.value != ""
  }

  predicate HasAmount(amount: Option<Cents>)
  {
    amount.Some? && amount.value != 0
  }

  /**
   * The payment UpdatePayment saves: the notified status always, the code
   * and the net amount only where the payment has none. None when the net
   * amount is needed and is not a decimal (Decimal raises).
   */
  function UpdatedPayment(p: Payment, n: Notification): (r: Option<Payment>)
    ensures r.None? <==> !HasAmount(p.netAmount) && ParseCents(n.netAmount).None?
    ensures r.Some? ==> r.value.status == n.status && r.value.total == p.total
    ensures r.Some? && HasCode(p.code) ==> r.value.code == p.code
    ensures r.Some? && !HasCode(p.code) ==> r.value.code == Some(n.code)
    ensures r.Some? && HasAmount(p.netAmount) ==> r.value.netAmount == p.netAmount
    ensures r.Some? && !HasAmount(p.netAmount) ==> r.value.netAmount == ParseCents(n.netAmount)
  {
    var net := if HasAmount(p.netAmount) then p.netAmount else ParseCents(n.netAmount);
    if net.None? then None
    else Some(p.(status := n.status, code := if HasCode(p.code) then p.code else Some(n.code), netAmount := net))
  }

  /** A net amount the gateway printed with two decimals is stored as the amount it printed. */
  lemma UpdateReadsNetAmount(p: Payment, n: Notification, cents: int)
    requires !HasAmount(p.netAmount) && n.netAmount == FormatCents(cents)
    ensures UpdatedPayment(p, n).Some? && UpdatedPayment(p, n).value.netAmount == Some(cents)
  {
    CentsRoundTrip(cents);
  }

  /**
   * Once filled, code and net amount stick: a second notification changes
   * the status only, so the payment keeps the code and net amount of the
   * first notification that carried them.
   */
  lemma UpdateFillsOnce(p: Payment, n1: Notification, n2: Notification, cents: int)
    requires n1.code != "" && cents != 0 && n1.netAmount == FormatCents(cents)
    ensures var first := UpdatedPayment(p, n1);
      && first.Some? && HasCode(first.value.code) && HasAmount(first.value.netAmount)
      && var second := UpdatedPayment(first.value, n2);
      && second.Some?
      && second.value.code == first.value.code && second.value.netAmount == first.value.netAmount
      && second.value.status == n2.status && second.value.total == p.total
  {
    CentsRoundTrip(cents);
  }

  /** `'Payment not found for %s'`, the message for a reference that names no payment. */
  function PaymentNotFoundMsg(reference: string): string
  {
    "Payment not found for " + reference
  }

  /** The payment a reference names: the stored payment whose key the reference spells out. */
  function ReferencedPayment(payments: map<nat, Payment>, reference: string): (r: Option<nat>)
    ensures r.Some? <==> ParseNat(reference).Some? && ParseNat(reference).value in payments
    ensures r.Some? ==> r.value == ParseNat(reference).value && r.value in payments
  {
    match ParseNat(reference)
    case Some(k) => if k in payments then Some(k) else None
    case None => None
  }

  /** A notification whose reference is the decimal key of a stored payment refers to that payment. */
  lemma ReferenceOfKey(payments: map<nat, Payment>, k: nat)
    requires k in payments
    ensures ReferencedPayment(payments, NatToString(k)) == Some(k)
  {
    NatRoundTrip(k);
  }

  /** The outcome of UpdatePayment for a notification: the key of the updated payment, or why there is none. */
  function UpdateOutcome(payments: map<nat, Payment>, n: Notification): (r: Outcome<nat>)
    ensures r.Failed? <==> ReferencedPayment(payments, n.reference).None?
    ensures r.Failed? ==> r.errors == map[PaymentKey := Msg(PaymentNotFoundMsg(n.reference))]
    ensures r.Done? <==>
      (ReferencedPayment(payments, n.reference).Some? &&
       UpdatedPayment(payments[ReferencedPayment(payments, n.reference).value], n).Some?)
    ensures r.Done? ==> Some(r.value) == ReferencedPayment(payments, n.reference)
  {
    match ReferencedPayment(payments, n.reference)
    case None => Failed(map[PaymentKey := Msg(PaymentNotFoundMsg(n.reference))])
    case Some(k) => if UpdatedPayment(payments[k], n).Some? then Done(k) else Raised("InvalidOperation")
  }

  /**
   * UpdatePayment: find the payment the notification refers to, give it the
   * notified status (and the code and net amount it lacks), and save it
   * together with one new log carrying that status.
   */
  method UpdatePayment(store: Store, n: Notification) returns (r: Outcome<nat>)
    requires store.Valid()
    modifies store
    ensures store.Valid()
    ensures LogsConsistent(old(store.Snapshot())) ==> LogsConsistent(store.Snapshot())
    ensures store.accessData == old(store.accessData)
    ensures r == UpdateOutcome(old(store.payments), n)
    ensures r.Done? ==>
      && store.Snapshot() == AfterUpdate(old(store.Snapshot()), r.value, UpdatedPayment(old(store.payments)[r.value], n).value, old(store.nextId))
      && store.nextId == old(store.nextId) + 1
    ensures !r.Done? ==> store.Snapshot() == old(store.Snapshot()) && store.nextId == old(store.nextId)
  {
    var key := ReferencedPayment(store.payments, n.reference);
    if key.None? {
      r := Failed(map[PaymentKey := Msg(PaymentNotFoundMsg(n.reference))]);
      return;
    }
    var updated := UpdatedPayment(store.payments[key.value], n);
    if updated.None? {
      r := Raised("InvalidOperation");
      return;
    }
    ghost var t := store.Snapshot();
    var logKey := store.Reserve(1);
    store.Commit(UpdatePaymentAndSaveLog(key.value, updated.value, logKey));
    UpdateWritten(t, key.value, updated.value, logKey);
    TablesValidGrow(t, logKey, logKey + 1);
    UpdateKeepsValid(t, logKey + 1, key.value, updated.value, logKey);
    if LogsConsistent(t) {
      UpdateKeepsLogsConsistent(t, logKey + 1, key.value, updated.value, logKey);
    }
    r := Done(key.value);
  }

  /** The non-result outcomes of one command, passed on unchanged by the command after it. */
  function Propagate<T, U>(o: Outcome<T>): (r: Outcome<U>)
    requires !o.Done?
    ensures o.Failed? ==> r == Failed(o.errors)
    ensures o.Raised? ==> r == Raised(o.exception)
  {
    match o
    case Failed(errors) => Failed(errors)
    case Raised(exception) => Raised(exception)
  }

  /**
   * FetchNotificationAndUpdatePayment, the command payment_notification
   * returns: fetch, then update only when the fetch succeeded; the kept
   * document is the fetch's, whatever happens after it.
   */
  method PaymentNotification(store: Store, notificationCode: string,
                             fetch: NotificationQuery -> string, parse: string -> Option<Transaction>)
    returns (r: Outcome<nat>, xml: Option<string>)
    requires store.Valid()
    modifies store
    ensures store.Valid()
    ensures LogsConsistent(old(store.Snapshot())) ==> LogsConsistent(store.Snapshot())
    ensures store.accessData == old(store.accessData)
    ensures var f := FetchNotificationDetail(FirstOrNone(old(store.accessData)), notificationCode, fetch, parse);
      && xml == f.xml
      && (!f.outcome.Done? ==> r == Propagate(f.outcome) && store.Snapshot() == old(store.Snapshot()) && store.nextId == old(store.nextId))
      && (f.outcome.Done? ==> r == UpdateOutcome(old(store.payments), f.outcome.value))
    ensures r.Done? ==> store.nextId == old(store.nextId) + 1
  {
    var f := FetchNotificationDetail(FirstOrNone(store.accessData), notificationCode, fetch, parse);
    xml := f.xml;
    if !f.outcome.Done? {
      r := Propagate(f.outcome);
      return;
    }
    r := UpdatePayment(store, f.outcome.value);
  }

  // ---------------------------------------------------------------------------
  // A run of notifications
  // ---------------------------------------------------------------------------

  /** The tables after payment `key` was saved as each of `ps` in turn, the i-th log under key `next + i`. */
  function Notified(t: Tables, key: nat, ps: seq<Payment>, next: nat): Tables
    decreases |ps|
  {
    if |ps| == 0 then t
    else AfterUpdate(Notified(t, key, ps[..|ps| - 1], next), key, ps[|ps| - 1], next + |ps| - 1)
  }

  /** The statuses of a run of payments, in order. */
  function StatusesOf(ps: seq<Payment>): (r: seq<Status>)
    ensures |r| == |ps|
    decreases |ps|
  {
    if |ps| == 0 then [] else StatusesOf(ps[..|ps| - 1]) + [ps[|ps| - 1].status]
  }

  /** One more notification on top of a run. */
  lemma NotifiedStep(t: Tables, key: nat, ps: seq<Payment>, next: nat)
    requires |ps| > 0
    ensures Notified(t, key, ps, next) ==
      AfterUpdate(Notified(t, key, ps[..|ps| - 1], next), key, ps[|ps| - 1], next + |ps| - 1)
  {
  }

  /** Every log arc reaches a log, and every log key is below `next`. */
  ghost predicate LogsBelow(t: Tables, next: nat)
  {
    LogArcsResolve(t.logArcs, t.logs) && forall k :: k in t.logs ==> k < next
  }

  /** The logs of a run stay resolvable, and their keys stay below the ids the run used. */
  lemma {:induction false} NotifiedLogs(t: Tables, key: nat, ps: seq<Payment>, next: nat)
    requires LogsBelow(t, next)
    ensures LogsBelow(Notified(t, key, ps, next), next + |ps|)
    decreases |ps|
  {
    if |ps| > 0 {
      var n := |ps| - 1;
      var prefix, last := ps[..n], ps[n];
      NotifiedLogs(t, key, prefix, next);
      NotifiedStep(t, key, ps, next);
      UpdateLogsBelow(Notified(t, key, prefix, next), key, last, next + n);
    }
  }

  /**
   * The log history of a notified payment is its history before the run
   * followed by the notified statuses in order; no other history changes.
   */
  lemma NotifiedHistory(t: Tables, key: nat, ps: seq<Payment>, next: nat, q: nat)
    requires LogsBelow(t, next)
    ensures var u := Notified(t, key, ps, next);
      History(u.logArcs, u.logs, q) == History(t.logArcs, t.logs, q) + (if q == key then StatusesOf(ps) else [])
  {
    if q == key {
      NotifiedOwnHistory(t, key, ps, next);
    } else {
      NotifiedOtherHistory(t, key, ps, next, q);
    }
  }

  /** The notified payment's history grows by the run's statuses. */
  lemma {:induction false} NotifiedOwnHistory(t: Tables, key: nat, ps: seq<Payment>, next: nat)
    requires LogsBelow(t, next)
    ensures var u := Notified(t, key, ps, next);
      History(u.logArcs, u.logs, key) == History(t.logArcs, t.logs, key) + StatusesOf(ps)
    decreases |ps|
  {
    if |ps| > 0 {
      var n := |ps| - 1;
      var prefix, last := ps[..n], ps[n];
      var u := Notified(t, key, prefix, next);
      NotifiedOwnHistory(t, key, prefix, next);
      NotifiedLogs(t, key, prefix, next);
      NotifiedStep(t, key, ps, next);
      UpdateOwnLog(u, key, last, next + n);
      ConcatAssociates(History(t.logArcs, t.logs, key), StatusesOf(prefix), [last.status]);
    }
  }

  /** The history of every other payment is left as it was. */
  lemma {:induction false} NotifiedOtherHistory(t: Tables, key: nat, ps: seq<Payment>, next: nat, q: nat)
    requires LogsBelow(t, next)
    requires q != key
    ensures var u := Notified(t, key, ps, next);
      History(u.logArcs, u.logs, q) == History(t.logArcs, t.logs, q)
    decreases |ps|
  {
    if |ps| > 0 {
      var n := |ps| - 1;
      var prefix, last := ps[..n], ps[n];
      var u := Notified(t, key, prefix, next);
      NotifiedOtherHistory(t, key, prefix, next, q);
      NotifiedLogs(t, key, prefix, next);
      NotifiedStep(t, key, ps, next);
      UpdateOtherLog(u, key, last, next + n, q);
    }
  }

  /** An update under the next log key keeps the logs resolvable and below the key after it. */
  lemma UpdateLogsBelow(u: Tables, key: nat, p: Payment, logKey: nat)
    requires LogsBelow(u, logKey)
    ensures LogsBelow(AfterUpdate(u, key, p, logKey), logKey + 1)
  {
    LogAppended(u.logArcs, u.logs, key, logKey, Log(p.status), key);
  }

  lemma ConcatAssociates(a: seq<Status>, b: seq<Status>, c: seq<Status>)
    ensures (a + b) + c == a + (b + c)
  {
  }

  /** An update adds the payment's status to its own history... */
  lemma UpdateOwnLog(u: Tables, key: nat, p: Payment, logKey: nat)
    requires LogsBelow(u, logKey)
    ensures var w := AfterUpdate(u, key, p, logKey);
      History(w.logArcs, w.logs, key) == History(u.logArcs, u.logs, key) + [p.status]
  {
    LogAppended(u.logArcs, u.logs, key, logKey, Log(p.status), key);
  }

  /** ...and to no other. */
  lemma UpdateOtherLog(u: Tables, key: nat, p: Payment, logKey: nat, q: nat)
    requires LogsBelow(u, logKey) && q != key
    ensures var w := AfterUpdate(u, key, p, logKey);
      History(w.logArcs, w.logs, q) == History(u.logArcs, u.logs, q)
  {
    LogAppended(u.logArcs, u.logs, key, logKey, Log(p.status), q);
    assert History(u.logArcs, u.logs, q) + [] == History(u.logArcs, u.logs, q);
  }

  /** Hence in valid tables the history of a payment notified with `ps` ends with the statuses of `ps`, in order. */
  lemma NotifiedPaymentHistory(t: Tables, key: nat, ps: seq<Payment>, next: nat)
    requires TablesValid(t, next)
    ensures var u := Notified(t, key, ps, next);
      History(u.logArcs, u.logs, key) == History(t.logArcs, t.logs, key) + StatusesOf(ps)
  {
    assert LogsBelow(t, next);
    NotifiedHistory(t, key, ps, next, key);
  }
}
