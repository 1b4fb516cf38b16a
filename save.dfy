/**
 * The save commands of gaepagseguro/save_commands.py. Each command stages
 * the entities its commit hands to the datastore; the key of every new node
 * is chosen by the caller from the store's fresh ids. Beside each staged
 * batch stands a lemma saying what writing it does to the tables.
 */
module SaveCommands {
  import opened Wrappers
  import opened PagSegModel
  import opened Datastore
  import opened ValidationCommands

  /** SaveItemCmd: the items of the order, the i-th under key `first + i` (`_to_commit = items`). */
  function ItemRows(items: seq<Item>, first: nat): (r: seq<Entity>)
    ensures |r| == |items|
  {
    seq(|items|, i requires 0 <= i < |items| => ItemRow(first + i, items[i]))
  }

  /** The item table entries that ItemRows(items, first) writes. */
  function ItemMap(items: seq<Item>, first: nat): (m: map<nat, Item>)
    ensures forall k :: k in m <==> first <= k < first + |items|
    ensures forall i :: 0 <= i < |items| ==> m[first + i] == items[i]
    decreases |items|
  {
    if |items| == 0 then map[] else ItemMap(items[..|items| - 1], first)[first + |items| - 1 := items[|items| - 1]]
  }

  /** Writing the item rows puts every item under its key and changes nothing else. */
  lemma {:induction false} ApplyItemRows(t: Tables, items: seq<Item>, first: nat)
    ensures ApplyAll(t, ItemRows(items, first)) == t.(items := t.items + ItemMap(items, first))
    decreases |items|
  {
    var rows := ItemRows(items, first);
    if |items| == 0 {
      assert t.items + ItemMap(items, first) == t.items;
    } else {
      var n := |items| - 1;
      var before := ItemMap(items[..n], first);
      assert rows[..n] == ItemRows(items[..n], first);
      ApplyItemRows(t, items[..n], first);
      assert ApplyAll(t, rows) == Apply(ApplyAll(t, rows[..n]), ItemRow(first + n, items[n]));
      assert ItemMap(items, first) == before[first + n := items[n]];
      assert (t.items + before)[first + n := items[n]] == t.items + before[first + n := items[n]];
    }
  }

  /** What SavePagseguroDataCmd hands on: the validated data, the new payment and its commit list. */
  datatype SavedData = SavedData(data: Validated, paymentKey: nat, payment: Payment, batch: seq<Entity>)

  /**
   * SavePagseguroDataCmd: a new payment whose total is the sum of the item
   * totals, committed together with the items, the payment first.
   */
  function SavePagseguroData(v: Validated, paymentKey: nat, firstItem: nat): (r: SavedData)
    ensures r.data == v && r.paymentKey == paymentKey
    ensures r.payment.status == Created && r.payment.code.None? && r.payment.netAmount.None?
    ensures r.payment.total == Some(SumTotals(v.items))
    ensures |r.batch| == 1 + |v.items| && r.batch[0] == PaymentRow(paymentKey, r.payment)
    ensures forall i :: 0 <= i < |v.items| ==> r.batch[1 + i] == ItemRow(firstItem + i, v.items[i])
  {
    var payment := NewPayment().(total := Some(SumTotals(v.items)));
    SavedData(v, paymentKey, payment, [PaymentRow(paymentKey, payment)] + ItemRows(v.items, firstItem))
  }

  /** Writing the saved data adds the payment and the items, and nothing else. */
  lemma SavedDataWritten(t: Tables, v: Validated, paymentKey: nat, firstItem: nat)
    ensures var r := SavePagseguroData(v, paymentKey, firstItem);
      ApplyAll(t, r.batch) ==
        t.(payments := t.payments[paymentKey := r.payment], items := t.items + ItemMap(v.items, firstItem))
  {
    var r := SavePagseguroData(v, paymentKey, firstItem);
    var head := [PaymentRow(paymentKey, r.payment)];
    ApplyAllConcat(t, head, ItemRows(v.items, firstItem));
    ApplyAllOne(t, head[0]);
    ApplyItemRows(ApplyAll(t, head), v.items, firstItem);
  }

  /** The Payment→Item arcs from `paymentKey` to the n items from key `first` on, in order. */
  function ItemArcs(paymentKey: nat, first: nat, n: nat): (r: seq<PaymentToItem>)
    ensures |r| == n
  {
    seq(n, i requires 0 <= i < n => PaymentToItem(paymentKey, first + i))
  }

  /** SavePaymentToItemsArcs: one CreatePagToItem per item, in the order of the items. */
  function SavePaymentToItemsArcs(paymentKey: nat, first: nat, n: nat): (r: seq<Entity>)
    ensures |r| == n
    ensures forall i :: 0 <= i < n ==> r[i] == ItemArcRow(PaymentToItem(paymentKey, first + i))
  {
    seq(n, i requires 0 <= i < n => ItemArcRow(PaymentToItem(paymentKey, first + i)))
  }

  lemma {:induction false} ItemArcsWritten(t: Tables, paymentKey: nat, first: nat, n: nat)
    ensures ApplyAll(t, SavePaymentToItemsArcs(paymentKey, first, n)) ==
      t.(itemArcs := t.itemArcs + ItemArcs(paymentKey, first, n))
    decreases n
  {
    if n == 0 {
      assert t.itemArcs + ItemArcs(paymentKey, first, n) == t.itemArcs;
    } else {
      assert SavePaymentToItemsArcs(paymentKey, first, n)[..n - 1] == SavePaymentToItemsArcs(paymentKey, first, n - 1);
      ItemArcsWritten(t, paymentKey, first, n - 1);
      assert t.itemArcs + ItemArcs(paymentKey, first, n) ==
        (t.itemArcs + ItemArcs(paymentKey, first, n - 1)) + [PaymentToItem(paymentKey, first + n - 1)];
    }
  }

  /** Whether the table holds the i-th item under key `first + i`. */
  ghost predicate StoredAt(items: seq<Item>, table: map<nat, Item>, first: nat)
  {
    forall k :: first <= k < first + |items| ==> k in table && table[k] == items[k - first]
  }

  /** A prefix of a stored list is stored from the same key. */
  lemma StoredAtPrefix(items: seq<Item>, table: map<nat, Item>, first: nat, n: nat)
    requires StoredAt(items, table, first) && n <= |items|
    ensures StoredAt(items[..n], table, first)
  {
  }

  /** Following the new arcs from `paymentKey` yields the items in order; other payments get nothing. */
  lemma {:induction false} ItemsOfItemArcs(items: seq<Item>, table: map<nat, Item>, paymentKey: nat, first: nat, q: nat)
    requires StoredAt(items, table, first)
    ensures ItemsOf(ItemArcs(paymentKey, first, |items|), table, q) == if q == paymentKey then items else []
    decreases |items|
  {
    if |items| > 0 {
      var n := |items| - 1;
      assert ItemArcs(paymentKey, first, |items|)[..n] == ItemArcs(paymentKey, first, n);
      assert first + n in table && table[first + n] == items[n];
      StoredAtPrefix(items, table, first, n);
      ItemsOfItemArcs(items[..n], table, paymentKey, first, q);
      if q == paymentKey {
        assert items == items[..n] + [items[n]];
      }
    }
  }

  /** Adding items under fresh keys changes what the old arcs reach in no way. */
  lemma OldItemArcsKeep(arcs: seq<PaymentToItem>, items: map<nat, Item>, list: seq<Item>, first: nat, q: nat)
    requires ItemArcsResolve(arcs, items)
    requires forall k :: k in items ==> k < first
    ensures ItemsOf(arcs, items + ItemMap(list, first), q) == ItemsOf(arcs, items, q)
  {
    var all := items + ItemMap(list, first);
    assert forall k :: k in items ==> k in all && all[k] == items[k];
    ItemsOfKeepsOnNewItems(arcs, items, all, q);
  }

  /** The new arcs reach the new items, in order, and only from their payment. */
  lemma NewItemArcsReach(items: map<nat, Item>, list: seq<Item>, p: nat, first: nat, q: nat)
    ensures ItemsOf(ItemArcs(p, first, |list|), items + ItemMap(list, first), q) == if q == p then list else []
  {
    var m := ItemMap(list, first);
    var all := items + m;
    assert forall i :: 0 <= i < |list| ==> first + i in m && all[first + i] == m[first + i] == list[i];
    forall k | first <= k < first + |list|
      ensures k in all && all[k] == list[k - first]
    {
      assert m[first + (k - first)] == list[k - first];
    }
    ItemsOfItemArcs(list, all, p, first, q);
  }

  /** New item arcs from a payment without items, to new items, give it exactly those items. */
  lemma ItemsAppended(arcs: seq<PaymentToItem>, items: map<nat, Item>, list: seq<Item>, p: nat, first: nat, q: nat)
    requires ItemArcsResolve(arcs, items)
    requires forall k :: k in items ==> k < first
    requires forall i :: 0 <= i < |arcs| ==> arcs[i].origin != p
    ensures ItemsOf(arcs + ItemArcs(p, first, |list|), items + ItemMap(list, first), q)
      == if q == p then list else ItemsOf(arcs, items, q)
  {
    var all := items + ItemMap(list, first);
    var added := ItemArcs(p, first, |list|);
    ItemsOfConcat(arcs, added, all, q);
    OldItemArcsKeep(arcs, items, list, first, q);
    NewItemArcsReach(items, list, p, first, q);
    if q == p {
      ItemsOfUnlinked(arcs, items, p);
      assert [] + list == list;
    } else {
      assert ItemsOf(arcs, items, q) + [] == ItemsOf(arcs, items, q);
    }
  }

  /** The entities `CreatePagSegPaymentToLog(payment, SimpleSave(log))` writes: the log, then the arc. */
  function LogRows(paymentKey: nat, logKey: nat, status: Status): seq<Entity>
  {
    [LogRow(logKey, Log(status)), LogArcRow(PaymentToLog(paymentKey, logKey))]
  }

  lemma LogRowsWritten(t: Tables, paymentKey: nat, logKey: nat, status: Status)
    ensures ApplyAll(t, LogRows(paymentKey, logKey, status)) ==
      t.(logs := t.logs[logKey := Log(status)], logArcs := t.logArcs + [PaymentToLog(paymentKey, logKey)])
  {
    ApplyAllTwo(t, LogRow(logKey, Log(status)), LogArcRow(PaymentToLog(paymentKey, logKey)));
  }

  /** The result of the previous command, as SavePaymentToLog sees it: a payment with its key, or something else. */
  datatype Previous = PaymentResult(key: nat, payment: Payment) | OtherResult

  /**
   * SavePaymentToLog: exactly one log carrying the payment's current status
   * when the previous result is a payment, and nothing otherwise.
   */
  function SavePaymentToLog(previous: Previous, logKey: nat): (r: seq<Entity>)
    ensures previous.OtherResult? ==> r == []
    ensures previous.PaymentResult? ==> r == LogRows(previous.key, logKey, previous.payment.status)
  {
    match previous
    case PaymentResult(k, p) => LogRows(k, logKey, p.status)
    case OtherResult => []
  }

  /** UpdatePaymentAndSaveLog: the payment saved again, then one log with its current status; the result is the payment. */
  function UpdatePaymentAndSaveLog(paymentKey: nat, payment: Payment, logKey: nat): (r: seq<Entity>)
    ensures |r| == 3 && r[0] == PaymentRow(paymentKey, payment)
    ensures r[1..] == LogRows(paymentKey, logKey, payment.status)
  {
    [PaymentRow(paymentKey, payment)] + LogRows(paymentKey, logKey, payment.status)
  }

  /** Writing an update replaces the payment and links one log, with its status, to it. */
  lemma UpdateWritten(t: Tables, paymentKey: nat, payment: Payment, logKey: nat)
    ensures ApplyAll(t, UpdatePaymentAndSaveLog(paymentKey, payment, logKey)) == AfterUpdate(t, paymentKey, payment, logKey)
  {
    var head := [PaymentRow(paymentKey, payment)];
    ApplyAllConcat(t, head, LogRows(paymentKey, logKey, payment.status));
    ApplyAllOne(t, head[0]);
    LogRowsWritten(ApplyAll(t, head), paymentKey, logKey, payment.status);
  }

  /** The tables after UpdatePaymentAndSaveLog(paymentKey, payment, logKey) was written. */
  function AfterUpdate(t: Tables, paymentKey: nat, payment: Payment, logKey: nat): Tables
  {
    t.(payments := t.payments[paymentKey := payment],
       logs := t.logs[logKey := Log(payment.status)],
       logArcs := t.logArcs + [PaymentToLog(paymentKey, logKey)])
  }

  /** An update of a stored payment under an unused log key keeps the tables valid. */
  lemma UpdateKeepsValid(t: Tables, next: nat, paymentKey: nat, payment: Payment, logKey: nat)
    requires TablesValid(t, next)
    requires paymentKey in t.payments && logKey !in t.logs && logKey < next
    ensures TablesValid(AfterUpdate(t, paymentKey, payment, logKey), next)
  {
    var u := AfterUpdate(t, paymentKey, payment, logKey);
    assert forall i :: 0 <= i < |t.logArcs| ==> u.logArcs[i] == t.logArcs[i];
  }

  /** It appends the new status to that payment's history and leaves every other history as it was. */
  lemma UpdateHistory(t: Tables, next: nat, paymentKey: nat, payment: Payment, logKey: nat, q: nat)
    requires TablesValid(t, next)
    requires logKey !in t.logs
    ensures var u := AfterUpdate(t, paymentKey, payment, logKey);
      History(u.logArcs, u.logs, q) == History(t.logArcs, t.logs, q) + (if q == paymentKey then [payment.status] else [])
  {
    assert LogArcsResolve(t.logArcs, t.logs);
    LogAppended(t.logArcs, t.logs, paymentKey, logKey, Log(payment.status), q);
  }

  /** Hence every payment's current status is still the last entry of its history. */
  lemma UpdateKeepsLogsConsistent(t: Tables, next: nat, paymentKey: nat, payment: Payment, logKey: nat)
    requires TablesValid(t, next) && LogsConsistent(t)
    requires logKey !in t.logs
    ensures LogsConsistent(AfterUpdate(t, paymentKey, payment, logKey))
  {
    var u := AfterUpdate(t, paymentKey, payment, logKey);
    forall q | q in u.payments
      ensures var h := History(u.logArcs, u.logs, q); |h| > 0 && h[|h| - 1] == u.payments[q].status
    {
      UpdateHistory(t, next, paymentKey, payment, logKey, q);
    }
  }

  /** SaveToPayment: the arc from the owner to the payment. */
  function SaveToPayment(owner: Owner, paymentKey: nat): seq<Entity>
  {
    [OwnerArcRow(ToPayment(owner, paymentKey))]
  }

  /**
   * Writing it adds that one owner arc and nothing else, so the owner's
   * payments gain the payment at the end and every other owner's stay as they were.
   */
  lemma OwnerArcWritten(t: Tables, owner: Owner, paymentKey: nat, o: Owner)
    ensures var u := ApplyAll(t, SaveToPayment(owner, paymentKey));
      && u == t.(ownerArcs := t.ownerArcs + [ToPayment(owner, paymentKey)])
      && PaymentsOf(u.ownerArcs, o) == PaymentsOf(t.ownerArcs, o) + (if o == owner then [paymentKey] else [])
  {
    var arcs := [ToPayment(owner, paymentKey)];
    ApplyAllOne(t, OwnerArcRow(arcs[0]));
    PaymentsOfConcat(t.ownerArcs, arcs, o);
    assert arcs[..0] == [];
  }

  /**
   * SavePaymentArcsCmd: the owner arc, one log with the payment's status and
   * the Payment→Item arcs, all about the payment the data step saved.
   */
  function SavePaymentArcs(owner: Owner, saved: SavedData, logKey: nat, firstItem: nat): seq<Entity>
  {
    SaveToPayment(owner, saved.paymentKey) +
      SavePaymentToLog(PaymentResult(saved.paymentKey, saved.payment), logKey) +
      SavePaymentToItemsArcs(saved.paymentKey, firstItem, |saved.data.items|)
  }

  /** Writing the arcs adds one owner arc, one log with its arc, and one item arc per item. */
  lemma ArcsWritten(t: Tables, owner: Owner, saved: SavedData, logKey: nat, firstItem: nat)
    ensures ApplyAll(t, SavePaymentArcs(owner, saved, logKey, firstItem)) ==
      t.(logs := t.logs[logKey := Log(saved.payment.status)],
         logArcs := t.logArcs + [PaymentToLog(saved.paymentKey, logKey)],
         itemArcs := t.itemArcs + ItemArcs(saved.paymentKey, firstItem, |saved.data.items|),
         ownerArcs := t.ownerArcs + [ToPayment(owner, saved.paymentKey)])
  {
    var pk := saved.paymentKey;
    var a := SaveToPayment(owner, pk);
    var b := SavePaymentToLog(PaymentResult(pk, saved.payment), logKey);
    var c := SavePaymentToItemsArcs(pk, firstItem, |saved.data.items|);
    ApplyAllConcat(t, a + b, c);
    ApplyAllConcat(t, a, b);
    ApplyAllOne(t, a[0]);
    LogRowsWritten(ApplyAll(t, a), pk, logKey, saved.payment.status);
    ItemArcsWritten(ApplyAll(ApplyAll(t, a), b), pk, firstItem, |saved.data.items|);
  }
}
