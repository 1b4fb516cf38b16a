/**
 * ProcessExternalPaymentCmd of gaepagseguro/update_commands.py: a
 * transaction document about a payment the gateway knows. When a stored
 * payment carries the transaction's code, it takes the transaction's status
 * and gets one more log; otherwise a new payment is recorded with its log,
 * its items and, when the document names a sender, an arc from the user with
 * that email (a new user when there is none).
 */
module ExternalPayments {
  import opened Wrappers
  import opened Text
  import opened PagSegModel
  import opened Commands
  import opened Datastore
  import opened SaveCommands
  import opened UpdateCommands

  // ---------------------------------------------------------------------------
  // Reading the document
  // ---------------------------------------------------------------------------

  /**
   * `PagSegItem(description, price=Decimal(amount), quantity=int(quantity))`,
   * with no reference: the amount must be a decimal, the quantity an integer,
   * and both within the item's bounds.
   */
  function ExternalItem(x: XmlItem): (r: Outcome<Item>)
    ensures r.Done? || r.Raised?
    ensures r.Done? <==>
      && ParseCents(x.amount).Some? && ParseInt(x.quantity).Some?
      && ValidItem(Item(None, x.description, ParseCents(x.amount).value, ParseInt(x.quantity).value))
    ensures r.Done? ==>
      r.value == Item(None, x.description, ParseCents(x.amount).value, ParseInt(x.quantity).value)
    ensures ParseCents(x.amount).None? ==> r == Raised("InvalidOperation")
    ensures ParseCents(x.amount).Some? && ParseInt(x.quantity).None? ==> r == Raised("ValueError")
  {
    match ParseCents(x.amount)
    case None => Raised("InvalidOperation")
    case Some(price) =>
      match ParseInt(x.quantity)
      case None => Raised("ValueError")
      case Some(quantity) =>
        var item := Item(None, x.description, price, quantity);
        if ValidItem(item) then Done(item) else Raised("BadValueError")
  }

  /** An item without a reference, written as the gateway writes it, reads back as itself. */
  lemma ExternalItemReadsBack(item: Item)
    requires ValidItem(item) && item.reference.None?
    ensures ExternalItem(XmlOfItem(item)) == Done(item)
  {
    CentsRoundTrip(item.price);
    IntRoundTrip(item.quantity);
  }

  /** The `item` element of a transaction document for `item`. */
  function XmlOfItem(item: Item): XmlItem
  {
    XmlItem(item.description, FormatCents(item.price), IntToString(item.quantity))
  }

  /** `items = ...['item']; if isinstance(items, dict): items = [items]`. */
  function ItemElements(x: XmlItems): (r: seq<XmlItem>)
    ensures x.OneItem? ==> r == [x.item]
    ensures x.ItemList? ==> r == x.list
  {
    match x
    case OneItem(item) => [item]
    case ItemList(list) => list
  }

  /** The items of the document in order, or the exception of the first element that is no item. */
  function ExternalItems(xs: seq<XmlItem>): (r: Outcome<seq<Item>>)
    ensures r.Done? || r.Raised?
    ensures r.Done? <==> forall i :: 0 <= i < |xs| ==> ExternalItem(xs[i]).Done?
    ensures r.Done? ==> |r.value| == |xs| && forall i :: 0 <= i < |xs| ==> r.value[i] == ExternalItem(xs[i]).value
    ensures r.Raised? ==> exists i :: (0 <= i < |xs| && ExternalItem(xs[i]) == Raised(r.exception) &&
      forall j :: 0 <= j < i ==> ExternalItem(xs[j]).Done?)
    decreases |xs|
  {
    if |xs| == 0 then Done([])
    else
      var init := xs[..|xs| - 1];
      var earlier := ExternalItems(init);
      var last := ExternalItem(xs[|xs| - 1]);
      AppendExternalItem(xs, earlier, last);
      if !earlier.Done? then earlier
      else if !last.Done? then Raised(last.exception)
      else Done(earlier.value + [last.value])
  }

  /** The step of ExternalItems: the verdict on all elements from the verdicts on the first ones and the last. */
  lemma AppendExternalItem(xs: seq<XmlItem>, earlier: Outcome<seq<Item>>, last: Outcome<Item>)
    requires |xs| > 0 && last == ExternalItem(xs[|xs| - 1])
    requires earlier.Done? || earlier.Raised?
    requires var init := xs[..|xs| - 1];
      && (earlier.Done? <==> forall i :: 0 <= i < |init| ==> ExternalItem(init[i]).Done?)
      && (earlier.Done? ==> |earlier.value| == |init| && forall i :: 0 <= i < |init| ==> earlier.value[i] == ExternalItem(init[i]).value)
      && (earlier.Raised? ==> exists i :: (0 <= i < |init| && ExternalItem(init[i]) == Raised(earlier.exception) &&
            forall j :: 0 <= j < i ==> ExternalItem(init[j]).Done?))
    ensures var r := if !earlier.Done? then earlier else if !last.Done? then Raised(last.exception) else Done(earlier.value + [last.value]);
      && (r.Done? <==> forall i :: 0 <= i < |xs| ==> ExternalItem(xs[i]).Done?)
      && (r.Done? ==> |r.value| == |xs| && forall i :: 0 <= i < |xs| ==> r.value[i] == ExternalItem(xs[i]).value)
      && (r.Raised? ==> exists i :: (0 <= i < |xs| && ExternalItem(xs[i]) == Raised(r.exception) &&
            forall j :: 0 <= j < i ==> ExternalItem(xs[j]).Done?))
  {
    var init := xs[..|xs| - 1];
    assert forall i :: 0 <= i < |init| ==> init[i] == xs[i];
    if earlier.Raised? {
      var i :| 0 <= i < |init| && ExternalItem(init[i]) == Raised(earlier.exception) && forall j :: 0 <= j < i ==> ExternalItem(init[j]).Done?;
      assert ExternalItem(xs[i]) == Raised(earlier.exception);
    } else if !last.Done? {
      assert ExternalItem(xs[|xs| - 1]) == Raised(last.exception);
    }
  }

  /** What the document says about a payment to record. */
  datatype External = External(code: string, status: Status, total: Cents, netAmount: Cents,
                               items: seq<Item>, sender: Option<Sender>)

  /**
   * What recording a new payment reads from the document, in the order the
   * command reads it: the code, the status, the gross and net amounts, the
   * items, and last the status's place in the table, which only the put of
   * the log checks.
   */
  function ReadExternal(t: Transaction): (r: Outcome<External>)
    ensures r.Done? || r.Raised?
    ensures r.Done? <==>
      && t.code.Some? && t.status.Some? && t.grossAmount.Some? && t.netAmount.Some?
      && ParseCents(t.grossAmount.value).Some? && ParseCents(t.netAmount.value).Some? && t.items.Some?
      && ExternalItems(ItemElements(t.items.value)).Done? && GatewayStatus(t.status.value).Some?
    ensures r.Done? ==> r.value == External(t.code.value, GatewayStatus(t.status.value).value,
                                            ParseCents(t.grossAmount.value).value, ParseCents(t.netAmount.value).value,
                                            ExternalItems(ItemElements(t.items.value)).value, t.sender)
    ensures t.code.None? || t.status.None? || t.grossAmount.None? || t.netAmount.None? ==> r == Raised("KeyError")
    ensures t.code.Some? && t.status.Some? && t.grossAmount.Some? && t.netAmount.Some? ==>
      var amountsRead := ParseCents(t.grossAmount.value).Some? && ParseCents(t.netAmount.value).Some?;
      && (!amountsRead ==> r == Raised("BadValueError"))
      && (amountsRead && t.items.None? ==> r == Raised("KeyError"))
      && (amountsRead && t.items.Some? && ExternalItems(ItemElements(t.items.value)).Raised? ==>
            r == Raised(ExternalItems(ItemElements(t.items.value)).exception))
      && ((amountsRead && t.items.Some? && ExternalItems(ItemElements(t.items.value)).Done? &&
           GatewayStatus(t.status.value).None?) ==> r == Raised("BadValueError"))
  {
    if t.code.None? || t.status.None? || t.grossAmount.None? || t.netAmount.None? then Raised("KeyError")
    else if ParseCents(t.grossAmount.value).None? || ParseCents(t.netAmount.value).None? then Raised("BadValueError")
    else if t.items.None? then Raised("KeyError")
    else
      var items := ExternalItems(ItemElements(t.items.value));
      if items.Raised? then Raised(items.exception)
      else if GatewayStatus(t.status.value).None? then Raised("BadValueError")
      else Done(External(t.code.value, GatewayStatus(t.status.value).value,
                         ParseCents(t.grossAmount.value).value, ParseCents(t.netAmount.value).value,
                         items.value, t.sender))
  }

  /** The transaction document the gateway would send for `e`. */
  function DocumentOf(e: External): Transaction
  {
    Transaction(Some(e.code), None, GatewayCode(e.status), Some(FormatCents(e.netAmount)),
                Some(FormatCents(e.total)), Some(ItemList(seq(|e.items|, i requires 0 <= i < |e.items| => XmlOfItem(e.items[i])))),
                e.sender)
  }

  /** Every payment a document can describe reads back from its document. */
  lemma ReadExternalRoundTrip(e: External)
    requires e.status != Created
    requires forall i :: 0 <= i < |e.items| ==> ValidItem(e.items[i]) && e.items[i].reference.None?
    ensures ReadExternal(DocumentOf(e)) == Done(e)
  {
    var t := DocumentOf(e);
    CentsRoundTrip(e.total);
    CentsRoundTrip(e.netAmount);
    GatewayTableInverse(t.status.value, e.status);
    var xs := ItemElements(t.items.value);
    forall i | 0 <= i < |xs|
      ensures ExternalItem(xs[i]) == Done(e.items[i])
    {
      ExternalItemReadsBack(e.items[i]);
    }
    var read := ExternalItems(xs);
    assert read.value == e.items;
  }

  /** The status an existing payment takes: the document must carry one, and one of the table. */
  function ExistingStatus(t: Transaction): (r: Outcome<Status>)
    ensures r.Done? || r.Raised?
    ensures r.Done? <==> t.status.Some? && GatewayStatus(t.status.value).Some?
    ensures r.Done? ==> r.value == GatewayStatus(t.status.value).value && r.value != Created
    ensures t.status.None? ==> r == Raised("KeyError")
  {
    if t.status.None? then Raised("KeyError")
    else if GatewayStatus(t.status.value).None? then Raised("BadValueError")
    else Done(GatewayStatus(t.status.value).value)
  }

  // ---------------------------------------------------------------------------
  // The owner of a new payment
  // ---------------------------------------------------------------------------

  /** Who the new payment is linked to: nobody, a stored user, or a user created for the sender. */
  datatype OwnerPlan = NoSender | ExistingUser(key: nat) | NewUser(user: User)

  /** The plan the command follows: the user with the sender's email, or a new one when there is none. */
  ghost predicate PlanFits(users: map<nat, User>, sender: Option<Sender>, plan: OwnerPlan)
  {
    match sender
    case None => plan == NoSender
    case Some(s) =>
      || (plan.ExistingUser? && plan.key in users && users[plan.key].email == s.email)
      || (plan == NewUser(User(s.email, s.name)) && forall k :: k in users ==> users[k].email != s.email)
  }

  /** The owner the plan links to the payment, the new user taking key `userKey`. */
  function PlanOwner(plan: OwnerPlan, userKey: nat): (r: Option<Owner>)
    ensures r.None? <==> plan.NoSender?
    ensures plan.ExistingUser? ==> r == Some(UserNode(plan.key))
    ensures plan.NewUser? ==> r == Some(UserNode(userKey))
  {
    match plan
    case NoSender => None
    case ExistingUser(k) => Some(UserNode(k))
    case NewUser(_) => Some(UserNode(userKey))
  }

  /** The users after the plan: one more when it creates one. */
  function PlanUsers(users: map<nat, User>, plan: OwnerPlan, userKey: nat): map<nat, User>
  {
    if plan.NewUser? then users[userKey := plan.user] else users
  }

  /** The owner arcs the plan adds. */
  function PlanArcs(plan: OwnerPlan, paymentKey: nat, userKey: nat): seq<ToPayment>
  {
    match PlanOwner(plan, userKey)
    case None => []
    case Some(o) => [ToPayment(o, paymentKey)]
  }

  // ---------------------------------------------------------------------------
  // Recording a new payment
  // ---------------------------------------------------------------------------

  /** The payment recorded for `e`: its code, status and both amounts. */
  function RecordedPayment(e: External): (p: Payment)
    ensures p.code == Some(e.code) && p.status == e.status
    ensures p.total == Some(e.total) && p.netAmount == Some(e.netAmount)
  {
    Payment(Some(e.code), e.status, Some(e.total), Some(e.netAmount))
  }

  /** The items, then their arcs (`CreatePaymentToItem` for each item). */
  function ItemsRows(e: External, next: nat): seq<Entity>
  {
    ItemRows(e.items, next + 2) + SavePaymentToItemsArcs(next, next + 2, |e.items|)
  }

  lemma ItemsWritten(t: Tables, e: External, next: nat)
    ensures ApplyAll(t, ItemsRows(e, next)) ==
      t.(items := t.items + ItemMap(e.items, next + 2), itemArcs := t.itemArcs + ItemArcs(next, next + 2, |e.items|))
  {
    var rows := ItemRows(e.items, next + 2);
    ApplyAllConcat(t, rows, SavePaymentToItemsArcs(next, next + 2, |e.items|));
    ApplyItemRows(t, e.items, next + 2);
    ItemArcsWritten(ApplyAll(t, rows), next, next + 2, |e.items|);
  }

  /**
   * The tables after a new payment for `e` is recorded under keys from
   * `next` on: the payment, its log (`next + 1`) with the arc, the items
   * (`next + 2` on) with their arcs, and the owner the plan names (a new
   * user under the key after the items).
   */
  function AfterExternal(t: Tables, e: External, plan: OwnerPlan, next: nat): Tables
  {
    var n := |e.items|;
    t.(payments := t.payments[next := RecordedPayment(e)],
       items := t.items + ItemMap(e.items, next + 2),
       logs := t.logs[next + 1 := Log(e.status)],
       users := PlanUsers(t.users, plan, next + 2 + n),
       logArcs := t.logArcs + [PaymentToLog(next, next + 1)],
       itemArcs := t.itemArcs + ItemArcs(next, next + 2, n),
       ownerArcs := t.ownerArcs + PlanArcs(plan, next, next + 2 + n))
  }

  /** AfterExternal as the writes in the command's order: payment, user, log, items, owner arc. */
  lemma ExternalInSteps(t: Tables, t1: Tables, t2: Tables, t3: Tables, t4: Tables, t5: Tables,
                        e: External, plan: OwnerPlan, next: nat)
    requires t1 == t.(payments := t.payments[next := RecordedPayment(e)])
    requires t2 == t1.(users := PlanUsers(t1.users, plan, next + 2 + |e.items|))
    requires t3 == t2.(logs := t2.logs[next + 1 := Log(e.status)], logArcs := t2.logArcs + [PaymentToLog(next, next + 1)])
    requires t4 == t3.(items := t3.items + ItemMap(e.items, next + 2), itemArcs := t3.itemArcs + ItemArcs(next, next + 2, |e.items|))
    requires t5 == t4.(ownerArcs := t4.ownerArcs + PlanArcs(plan, next, next + 2 + |e.items|))
    ensures t5 == AfterExternal(t, e, plan, next)
  {
  }

  /** A new payment keeps the tables valid under the ids it reserved. */
  lemma ExternalKeepsValid(t: Tables, e: External, plan: OwnerPlan, next: nat)
    requires TablesValid(t, next)
    ensures TablesValid(AfterExternal(t, e, plan, next), next + 3 + |e.items|)
  {
    ExternalKeysBelow(t, e, plan, next);
    ExternalLogArcsResolve(t, e, plan, next);
    ExternalItemArcsResolve(t, e, plan, next);
    ExternalOwnerArcsResolve(t, e, plan, next);
  }

  lemma ExternalKeysBelow(t: Tables, e: External, plan: OwnerPlan, next: nat)
    requires TablesValid(t, next)
    ensures var u := AfterExternal(t, e, plan, next); var m := next + 3 + |e.items|;
      && (forall k :: k in u.payments ==> k < m)
      && (forall k :: k in u.items ==> k < m)
      && (forall k :: k in u.logs ==> k < m)
      && (forall k :: k in u.users ==> k < m)
  {
  }

  lemma ExternalLogArcsResolve(t: Tables, e: External, plan: OwnerPlan, next: nat)
    requires TablesValid(t, next)
    ensures var u := AfterExternal(t, e, plan, next);
      forall i :: 0 <= i < |u.logArcs| ==> u.logArcs[i].origin in u.payments && u.logArcs[i].destination in u.logs
  {
    var u := AfterExternal(t, e, plan, next);
    assert forall i :: 0 <= i < |t.logArcs| ==> u.logArcs[i] == t.logArcs[i];
  }

  lemma ExternalItemArcsResolve(t: Tables, e: External, plan: OwnerPlan, next: nat)
    requires TablesValid(t, next)
    ensures var u := AfterExternal(t, e, plan, next);
      forall i :: 0 <= i < |u.itemArcs| ==> u.itemArcs[i].origin in u.payments && u.itemArcs[i].destination in u.items
  {
    var u := AfterExternal(t, e, plan, next);
    assert forall i :: 0 <= i < |t.itemArcs| ==> u.itemArcs[i] == t.itemArcs[i];
    assert forall i :: |t.itemArcs| <= i < |u.itemArcs| ==>
      u.itemArcs[i] == PaymentToItem(next, next + 2 + (i - |t.itemArcs|));
  }

  lemma ExternalOwnerArcsResolve(t: Tables, e: External, plan: OwnerPlan, next: nat)
    requires TablesValid(t, next)
    ensures var u := AfterExternal(t, e, plan, next);
      forall i :: 0 <= i < |u.ownerArcs| ==> u.ownerArcs[i].destination in u.payments
  {
    var u := AfterExternal(t, e, plan, next);
    assert forall i :: 0 <= i < |t.ownerArcs| ==> u.ownerArcs[i] == t.ownerArcs[i];
  }

  /** The new payment's history is its one log; every other history is unchanged. */
  lemma ExternalHistory(t: Tables, e: External, plan: OwnerPlan, next: nat, q: nat)
    requires TablesValid(t, next)
    ensures var u := AfterExternal(t, e, plan, next);
      History(u.logArcs, u.logs, q) == if q == next then [e.status] else History(t.logArcs, t.logs, q)
  {
    assert LogArcsResolve(t.logArcs, t.logs);
    LogAppended(t.logArcs, t.logs, next, next + 1, Log(e.status), q);
    if q == next {
      HistoryOfUnlinked(t.logArcs, t.logs, next);
    } else {
      assert History(t.logArcs, t.logs, q) + [] == History(t.logArcs, t.logs, q);
    }
  }

  /** Hence every payment's current status is still the last entry of its history. */
  lemma ExternalKeepsConsistent(t: Tables, e: External, plan: OwnerPlan, next: nat)
    requires TablesValid(t, next) && LogsConsistent(t)
    ensures LogsConsistent(AfterExternal(t, e, plan, next))
  {
    var u := AfterExternal(t, e, plan, next);
    forall q
      ensures History(u.logArcs, u.logs, q) == if q == next then [e.status] else History(t.logArcs, t.logs, q)
    {
      ExternalHistory(t, e, plan, next, q);
    }
    NewPaymentConsistent(t, u, next, RecordedPayment(e));
  }

  /** Tables that gain one payment whose history is its status alone, other histories unchanged, stay consistent. */
  lemma NewPaymentConsistent(t: Tables, u: Tables, key: nat, p: Payment)
    requires LogsConsistent(t) && u.payments == t.payments[key := p]
    requires forall q :: History(u.logArcs, u.logs, q) == if q == key then [p.status] else History(t.logArcs, t.logs, q)
    ensures LogsConsistent(u)
  {
    forall q | q in u.payments
      ensures var h := History(u.logArcs, u.logs, q); |h| > 0 && h[|h| - 1] == u.payments[q].status
    {
      var h := History(u.logArcs, u.logs, q);
      if q == key {
        assert h == [p.status] && u.payments[q] == p;
      } else {
        assert q in t.payments && u.payments[q] == t.payments[q];
        assert h == History(t.logArcs, t.logs, q);
      }
    }
  }

  /** The new payment's items are the document's items in order; every other payment keeps its items. */
  lemma ExternalItemsLinked(t: Tables, e: External, plan: OwnerPlan, next: nat, q: nat)
    requires TablesValid(t, next)
    ensures var u := AfterExternal(t, e, plan, next);
      ItemsOf(u.itemArcs, u.items, q) == if q == next then e.items else ItemsOf(t.itemArcs, t.items, q)
  {
    assert ItemArcsResolve(t.itemArcs, t.items);
    ItemsAppended(t.itemArcs, t.items, e.items, next, next + 2, q);
  }

  /** The owner the plan names gains the new payment at the end; every other owner keeps its payments. */
  lemma ExternalOwners(t: Tables, e: External, plan: OwnerPlan, next: nat, o: Owner)
    ensures var u := AfterExternal(t, e, plan, next);
      PaymentsOf(u.ownerArcs, o) ==
        PaymentsOf(t.ownerArcs, o) + if PlanOwner(plan, next + 2 + |e.items|) == Some(o) then [next] else []
  {
    var arcs := PlanArcs(plan, next, next + 2 + |e.items|);
    PaymentsOfConcat(t.ownerArcs, arcs, o);
    if arcs == [] {
      assert PaymentsOf(t.ownerArcs, o) + [] == PaymentsOf(t.ownerArcs, o);
    } else {
      assert arcs[..0] == [];
    }
  }

  // ---------------------------------------------------------------------------
  // The command
  // ---------------------------------------------------------------------------

  /** PaymentByPagseguroCode finds a stored payment with this code. */
  ghost predicate CodeKnown(payments: map<nat, Payment>, code: string)
  {
    exists k :: k in payments && payments[k].code == Some(code)
  }

  /**
   * ProcessExternalPaymentCmd on the document `xml`, with `parse` standing
   * for the XML parser. A payment with the document's code takes its status
   * and one more log; otherwise the document's payment is recorded, linked to
   * the sender's user when there is a sender. The result is the key of the
   * payment, and `plan` says who became its owner.
   */
  method ProcessExternalPayment(store: Store, xml: string, parse: string -> Option<Transaction>)
    returns (r: Outcome<nat>, plan: OwnerPlan)
    requires store.Valid()
    modifies store
    ensures store.Valid()
    ensures LogsConsistent(old(store.Snapshot())) ==> LogsConsistent(store.Snapshot())
    ensures store.accessData == old(store.accessData)
    ensures !r.Done? ==> r.Raised? && store.Snapshot() == old(store.Snapshot()) && store.nextId == old(store.nextId)
    ensures parse(xml).None? ==> r == Raised("ExpatError")
    ensures parse(xml).Some? && parse(xml).value.code.None? ==> r == Raised("KeyError")
    ensures var p := parse(xml);
      p.Some? && p.value.code.Some? && CodeKnown(old(store.payments), p.value.code.value) ==>
        var s := ExistingStatus(p.value);
        && (s.Raised? ==> r == Raised(s.exception))
        && (s.Done? ==>
              && r.Done? && r.value in old(store.payments) && old(store.payments)[r.value].code == p.value.code
              && store.Snapshot() ==
                   AfterUpdate(old(store.Snapshot()), r.value, old(store.payments)[r.value].(status := s.value), old(store.nextId))
              && store.nextId == old(store.nextId) + 1)
    ensures var p := parse(xml);
      p.Some? && p.value.code.Some? && !CodeKnown(old(store.payments), p.value.code.value) ==>
        var e := ReadExternal(p.value);
        && (e.Raised? ==> r == Raised(e.exception))
        && (e.Done? ==>
              && r == Done(old(store.nextId))
              && PlanFits(old(store.users), e.value.sender, plan)
              && store.Snapshot() == AfterExternal(old(store.Snapshot()), e.value, plan, old(store.nextId))
              && store.nextId == old(store.nextId) + 3 + |e.value.items|)
  {
    plan := NoSender;
    var parsed := parse(xml);
    if parsed.None? {
      r := Raised("ExpatError");
      return;
    }
    var t := parsed.value;
    if t.code.None? {
      r := Raised("KeyError");
      return;
    }
    var code := t.code.value;
    if k :| k in store.payments && store.payments[k].code == Some(code) {
      var s := ExistingStatus(t);
      if s.Raised? {
        r := Raised(s.exception);
        return;
      }
      CommitUpdate(store, k, store.payments[k].(status := s.value));
      r := Done(k);
    } else {
      var read := ReadExternal(t);
      if read.Raised? {
        r := Raised(read.exception);
        return;
      }
      var e := read.value;
      var next := store.nextId;
      if e.sender.Some? {
        var email := e.sender.value.email;
        if u :| u in store.users && store.users[u].email == email {
          plan := ExistingUser(u);
        } else {
          plan := NewUser(User(email, e.sender.value.name));
        }
      }
      CommitExternal(store, e, plan);
      r := Done(next);
    }
  }

  /** UpdatePaymentAndSaveLog on a stored payment, its log under the next id. */
  method CommitUpdate(store: Store, key: nat, payment: Payment)
    requires store.Valid() && key in store.payments
    modifies store
    ensures store.Snapshot() == AfterUpdate(old(store.Snapshot()), key, payment, old(store.nextId))
    ensures store.nextId == old(store.nextId) + 1 && store.accessData == old(store.accessData)
    ensures store.Valid()
    ensures LogsConsistent(old(store.Snapshot())) ==> LogsConsistent(store.Snapshot())
  {
    ghost var before := store.Snapshot();
    var logKey := store.Reserve(1);
    store.Commit(UpdatePaymentAndSaveLog(key, payment, logKey));
    UpdateWritten(before, key, payment, logKey);
    TablesValidGrow(before, logKey, logKey + 1);
    UpdateKeepsValid(before, logKey + 1, key, payment, logKey);
    if LogsConsistent(before) {
      UpdateKeepsLogsConsistent(before, logKey + 1, key, payment, logKey);
    }
  }

  /**
   * Writes a new payment for `e` under the next ids, with the owner `plan`
   * names, in the command's order: the payment (`self.result.put()`), the new
   * user (`save_user_cmd`), then what `cmd.execute()` puts.
   */
  method CommitExternal(store: Store, e: External, plan: OwnerPlan)
    requires store.Valid()
    modifies store
    ensures store.Snapshot() == AfterExternal(old(store.Snapshot()), e, plan, old(store.nextId))
    ensures store.nextId == old(store.nextId) + 3 + |e.items| && store.accessData == old(store.accessData)
    ensures store.Valid()
    ensures LogsConsistent(old(store.Snapshot())) ==> LogsConsistent(store.Snapshot())
  {
    ghost var before := store.Snapshot();
    var next := store.Reserve(3 + |e.items|);
    var userKey := next + 2 + |e.items|;
    store.Put(PaymentRow(next, RecordedPayment(e)));
    ghost var t1 := store.Snapshot();
    PutPlannedUser(store, plan, userKey);
    ghost var t2 := store.Snapshot();
    CommitLog(store, next, next + 1, e.status);
    ghost var t3 := store.Snapshot();
    CommitItems(store, e, next);
    ghost var t4 := store.Snapshot();
    PutOwnerArc(store, plan, next, userKey);
    ExternalInSteps(before, t1, t2, t3, t4, store.Snapshot(), e, plan, next);
    ExternalKeepsValid(before, e, plan, next);
    if LogsConsistent(before) {
      ExternalKeepsConsistent(before, e, plan, next);
    }
  }

  /** `CreatePagSegPaymentToLog(payment_key, SimpleSave(log))`: the log and its arc. */
  method CommitLog(store: Store, paymentKey: nat, logKey: nat, status: Status)
    modifies store
    ensures store.Snapshot() == old(store.Snapshot()).(logs := old(store.logs)[logKey := Log(status)],
                                                       logArcs := old(store.logArcs) + [PaymentToLog(paymentKey, logKey)])
    ensures store.nextId == old(store.nextId) && store.accessData == old(store.accessData)
  {
    ghost var before := store.Snapshot();
    store.Commit(LogRows(paymentKey, logKey, status));
    LogRowsWritten(before, paymentKey, logKey, status);
  }

  /** The items, each with its `CreatePaymentToItem` arc. */
  method CommitItems(store: Store, e: External, next: nat)
    modifies store
    ensures store.Snapshot() == old(store.Snapshot()).(items := old(store.items) + ItemMap(e.items, next + 2),
                                                       itemArcs := old(store.itemArcs) + ItemArcs(next, next + 2, |e.items|))
    ensures store.nextId == old(store.nextId) && store.accessData == old(store.accessData)
  {
    ghost var before := store.Snapshot();
    store.Commit(ItemsRows(e, next));
    ItemsWritten(before, e, next);
  }

  /** `facade.save_user_cmd(email, name)` when the plan creates the user. */
  method PutPlannedUser(store: Store, plan: OwnerPlan, userKey: nat)
    modifies store
    ensures store.Snapshot() == old(store.Snapshot()).(users := PlanUsers(old(store.users), plan, userKey))
    ensures store.nextId == old(store.nextId) && store.accessData == old(store.accessData)
  {
    if plan.NewUser? {
      store.Put(UserRow(userKey, plan.user));
    }
  }

  /** `SaveToPayment(user, payment_key)` when there is a sender. */
  method PutOwnerArc(store: Store, plan: OwnerPlan, paymentKey: nat, userKey: nat)
    modifies store
    ensures store.Snapshot() == old(store.Snapshot()).(ownerArcs := old(store.ownerArcs) + PlanArcs(plan, paymentKey, userKey))
    ensures store.nextId == old(store.nextId) && store.accessData == old(store.accessData)
  {
    if !plan.NoSender? {
      store.Put(OwnerArcRow(ToPayment(PlanOwner(plan, userKey).value, paymentKey)));
    } else {
      assert store.ownerArcs + [] == store.ownerArcs;
    }
  }
}
