/**
 * The graph datastore underneath the commands: node tables keyed by datastore
 * ids and typed arcs kept in creation order. Commands never write directly;
 * they stage a list of entities and the store puts the list in one batch.
 */
module Datastore {
  import opened Wrappers
  import opened PagSegModel

  /** One entity handed to the store for writing (a node with its key, or an arc). */
  datatype Entity =
    | PaymentRow(key: nat, payment: Payment)
    | ItemRow(key: nat, item: Item)
    | LogRow(key: nat, log: Log)
    | UserRow(key: nat, user: User)
    | LogArcRow(logArc: PaymentToLog)
    | ItemArcRow(itemArc: PaymentToItem)
    | OwnerArcRow(ownerArc: ToPayment)

  /** The content of the datastore, apart from the access data. */
  datatype Tables = Tables(
    payments: map<nat, Payment>,
    items: map<nat, Item>,
    logs: map<nat, Log>,
    users: map<nat, User>,
    logArcs: seq<PaymentToLog>,
    itemArcs: seq<PaymentToItem>,
    ownerArcs: seq<ToPayment>)

  /** A put: a node overwrites whatever had its key; an arc is added after the others. */
  function Apply(t: Tables, e: Entity): Tables
  {
    match e
    case PaymentRow(k, p) => t.(payments := t.payments[k := p])
    case ItemRow(k, i) => t.(items := t.items[k := i])
    case LogRow(k, l) => t.(logs := t.logs[k := l])
    case UserRow(k, u) => t.(users := t.users[k := u])
    case LogArcRow(a) => t.(logArcs := t.logArcs + [a])
    case ItemArcRow(a) => t.(itemArcs := t.itemArcs + [a])
    case OwnerArcRow(a) => t.(ownerArcs := t.ownerArcs + [a])
  }

  /** A batch put of `batch`, in order. */
  function ApplyAll(t: Tables, batch: seq<Entity>): Tables
  {
    if |batch| == 0 then t else Apply(ApplyAll(t, batch[..|batch| - 1]), batch[|batch| - 1])
  }

  lemma {:induction false} ApplyAllConcat(t: Tables, a: seq<Entity>, b: seq<Entity>)
    ensures ApplyAll(t, a + b) == ApplyAll(ApplyAll(t, a), b)
    decreases |b|
  {
    if |b| == 0 {
      assert a + b == a;
    } else {
      assert (a + b)[..|a + b| - 1] == a + b[..|b| - 1];
      assert (a + b)[|a + b| - 1] == b[|b| - 1];
      ApplyAllConcat(t, a, b[..|b| - 1]);
    }
  }

  lemma ApplyAllOne(t: Tables, e: Entity)
    ensures ApplyAll(t, [e]) == Apply(t, e)
  {
    assert [e][..0] == [];
  }

  lemma ApplyAllTwo(t: Tables, e: Entity, f: Entity)
    ensures ApplyAll(t, [e, f]) == Apply(Apply(t, e), f)
  {
    assert [e, f][..1] == [e];
    ApplyAllOne(t, e);
  }

  /** The statuses of the logs linked to payment `p`, oldest first (what SearchLogs returns). */
  function History(arcs: seq<PaymentToLog>, logs: map<nat, Log>, p: nat): seq<Status>
  {
    if |arcs| == 0 then []
    else
      var a := arcs[|arcs| - 1];
      History(arcs[..|arcs| - 1], logs, p) +
        (if a.origin == p && a.destination in logs then [logs[a.destination].status] else [])
  }

  /** The items linked to payment `p`, in the order the arcs were created (what SearchItems returns). */
  function ItemsOf(arcs: seq<PaymentToItem>, items: map<nat, Item>, p: nat): seq<Item>
  {
    if |arcs| == 0 then []
    else
      var a := arcs[|arcs| - 1];
      ItemsOf(arcs[..|arcs| - 1], items, p) +
        (if a.origin == p && a.destination in items then [items[a.destination]] else [])
  }

  /** The payments linked to `owner`, in the order the arcs were created (what SearchOwnerPayments returns). */
  function PaymentsOf(arcs: seq<ToPayment>, owner: Owner): seq<nat>
  {
    if |arcs| == 0 then []
    else
      var a := arcs[|arcs| - 1];
      PaymentsOf(arcs[..|arcs| - 1], owner) + (if a.origin == owner then [a.destination] else [])
  }

  ghost predicate LogArcsResolve(arcs: seq<PaymentToLog>, logs: map<nat, Log>)
  {
    forall i :: 0 <= i < |arcs| ==> arcs[i].destination in logs
  }

  ghost predicate ItemArcsResolve(arcs: seq<PaymentToItem>, items: map<nat, Item>)
  {
    forall i :: 0 <= i < |arcs| ==> arcs[i].destination in items
  }

  /**
   * Referential integrity: every key was handed out before `next`, and every
   * arc ends at a node that exists (an owner arc may start at a node of
   * another application, so its origin is not checked).
   */
  ghost predicate TablesValid(t: Tables, next: nat)
  {
    && (forall k :: k in t.payments ==> k < next)
    && (forall k :: k in t.items ==> k < next)
    && (forall k :: k in t.logs ==> k < next)
    && (forall k :: k in t.users ==> k < next)
    && (forall i :: 0 <= i < |t.logArcs| ==> t.logArcs[i].origin in t.payments && t.logArcs[i].destination in t.logs)
    && (forall i :: 0 <= i < |t.itemArcs| ==> t.itemArcs[i].origin in t.payments && t.itemArcs[i].destination in t.items)
    && (forall i :: 0 <= i < |t.ownerArcs| ==> t.ownerArcs[i].destination in t.payments)
  }

  /** Handing out more ids keeps the tables valid. */
  lemma TablesValidGrow(t: Tables, next: nat, next2: nat)
    requires TablesValid(t, next) && next <= next2
    ensures TablesValid(t, next2)
  {
  }

  /** Every payment has a log history whose latest entry carries the payment's current status. */
  ghost predicate LogsConsistent(t: Tables)
  {
    forall p :: p in t.payments ==>
      var h := History(t.logArcs, t.logs, p);
      |h| > 0 && h[|h| - 1] == t.payments[p].status
  }

  lemma {:induction false} HistoryConcat(a: seq<PaymentToLog>, b: seq<PaymentToLog>, logs: map<nat, Log>, p: nat)
    ensures History(a + b, logs, p) == History(a, logs, p) + History(b, logs, p)
    decreases |b|
  {
    if |b| == 0 {
      assert a + b == a;
    } else {
      assert (a + b)[..|a + b| - 1] == a + b[..|b| - 1];
      assert (a + b)[|a + b| - 1] == b[|b| - 1];
      HistoryConcat(a, b[..|b| - 1], logs, p);
    }
  }

  /** Adding logs that no existing arc points to leaves every history as it was. */
  lemma {:induction false} HistoryKeepsOnNewLogs(arcs: seq<PaymentToLog>, logs: map<nat, Log>, logs2: map<nat, Log>, p: nat)
    requires LogArcsResolve(arcs, logs)
    requires forall k :: k in logs ==> k in logs2 && logs2[k] == logs[k]
    ensures History(arcs, logs2, p) == History(arcs, logs, p)
    decreases |arcs|
  {
    if |arcs| > 0 {
      HistoryKeepsOnNewLogs(arcs[..|arcs| - 1], logs, logs2, p);
    }
  }

  /** A payment no arc starts from has an empty history. */
  lemma {:induction false} HistoryOfUnlinked(arcs: seq<PaymentToLog>, logs: map<nat, Log>, p: nat)
    requires forall i :: 0 <= i < |arcs| ==> arcs[i].origin != p
    ensures History(arcs, logs, p) == []
    decreases |arcs|
  {
    if |arcs| > 0 {
      HistoryOfUnlinked(arcs[..|arcs| - 1], logs, p);
    }
  }

  /**
   * Linking a fresh log to payment `p` appends its status to p's history
   * and changes no other payment's history.
   */
  lemma LogAppended(arcs: seq<PaymentToLog>, logs: map<nat, Log>, p: nat, k: nat, l: Log, q: nat)
    requires LogArcsResolve(arcs, logs) && k !in logs
    ensures LogArcsResolve(arcs + [PaymentToLog(p, k)], logs[k := l])
    ensures History(arcs + [PaymentToLog(p, k)], logs[k := l], q) ==
            History(arcs, logs, q) + (if q == p then [l.status] else [])
  {
    HistoryConcat(arcs, [PaymentToLog(p, k)], logs[k := l], q);
    HistoryKeepsOnNewLogs(arcs, logs, logs[k := l], q);
    assert [PaymentToLog(p, k)][..0] == [];
  }

  lemma {:induction false} ItemsOfConcat(a: seq<PaymentToItem>, b: seq<PaymentToItem>, items: map<nat, Item>, p: nat)
    ensures ItemsOf(a + b, items, p) == ItemsOf(a, items, p) + ItemsOf(b, items, p)
    decreases |b|
  {
    if |b| == 0 {
      assert a + b == a;
    } else {
      assert (a + b)[..|a + b| - 1] == a + b[..|b| - 1];
      assert (a + b)[|a + b| - 1] == b[|b| - 1];
      ItemsOfConcat(a, b[..|b| - 1], items, p);
    }
  }

  lemma {:induction false} ItemsOfKeepsOnNewItems(arcs: seq<PaymentToItem>, items: map<nat, Item>, items2: map<nat, Item>, p: nat)
    requires ItemArcsResolve(arcs, items)
    requires forall k :: k in items ==> k in items2 && items2[k] == items[k]
    ensures ItemsOf(arcs, items2, p) == ItemsOf(arcs, items, p)
    decreases |arcs|
  {
    if |arcs| > 0 {
      ItemsOfKeepsOnNewItems(arcs[..|arcs| - 1], items, items2, p);
    }
  }

  lemma {:induction false} ItemsOfUnlinked(arcs: seq<PaymentToItem>, items: map<nat, Item>, p: nat)
    requires forall i :: 0 <= i < |arcs| ==> arcs[i].origin != p
    ensures ItemsOf(arcs, items, p) == []
    decreases |arcs|
  {
    if |arcs| > 0 {
      ItemsOfUnlinked(arcs[..|arcs| - 1], items, p);
    }
  }

  lemma {:induction false} PaymentsOfConcat(a: seq<ToPayment>, b: seq<ToPayment>, owner: Owner)
    ensures PaymentsOf(a + b, owner) == PaymentsOf(a, owner) + PaymentsOf(b, owner)
    decreases |b|
  {
    if |b| == 0 {
      assert a + b == a;
    } else {
      assert (a + b)[..|a + b| - 1] == a + b[..|b| - 1];
      assert (a + b)[|a + b| - 1] == b[|b| - 1];
      PaymentsOfConcat(a, b[..|b| - 1], owner);
    }
  }

  /** The datastore: PagSegAccessData records in key order, and the tables above. */
  class Store {
    var accessData: seq<AccessData>
    var payments: map<nat, Payment>
    var items: map<nat, Item>
    var logs: map<nat, Log>
    var users: map<nat, User>
    var logArcs: seq<PaymentToLog>
    var itemArcs: seq<PaymentToItem>
    var ownerArcs: seq<ToPayment>
    /** The next datastore id to hand out. */
    var nextId: nat

    function Snapshot(): Tables
      reads this
    {
      Tables(payments, items, logs, users, logArcs, itemArcs, ownerArcs)
    }

    ghost predicate Valid()
      reads this
    {
      TablesValid(Snapshot(), nextId)
    }

    constructor ()
      ensures Valid() && LogsConsistent(Snapshot())
      ensures accessData == [] && Snapshot() == Tables(map[], map[], map[], map[], [], [], [])
    {
      accessData := [];
      payments, items, logs, users := map[], map[], map[], map[];
      logArcs, itemArcs, ownerArcs := [], [], [];
      nextId := 0;
    }

    /** Writes one entity. */
    method Put(e: Entity)
      modifies this
      ensures Snapshot() == Apply(old(Snapshot()), e)
      ensures accessData == old(accessData) && nextId == old(nextId)
    {
      match e
      case PaymentRow(k, p) => payments := payments[k := p];
      case ItemRow(k, i) => items := items[k := i];
      case LogRow(k, l) => logs := logs[k := l];
      case UserRow(k, u) => users := users[k := u];
      case LogArcRow(a) => logArcs := logArcs + [a];
      case ItemArcRow(a) => itemArcs := itemArcs + [a];
      case OwnerArcRow(a) => ownerArcs := ownerArcs + [a];
    }

    /** Writes a staged batch, in order (`ndb.put_multi` of a command's commit list). */
    method Commit(batch: seq<Entity>)
      modifies this
      ensures Snapshot() == ApplyAll(old(Snapshot()), batch)
      ensures accessData == old(accessData) && nextId == old(nextId)
    {
      for i := 0 to |batch|
        invariant Snapshot() == ApplyAll(old(Snapshot()), batch[..i])
        invariant accessData == old(accessData) && nextId == old(nextId)
      {
        assert batch[..i + 1][..i] == batch[..i];
        Put(batch[i]);
      }
      assert batch[..|batch|] == batch;
    }

    /** Hands out `count` consecutive fresh ids, the first of which is returned. */
    method Reserve(count: nat) returns (first: nat)
      modifies this`nextId
      ensures first == old(nextId) && nextId == first + count
    {
      first := nextId;
      nextId := nextId + count;
    }
  }
}
