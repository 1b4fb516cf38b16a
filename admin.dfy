/** The access-data singleton of gaepagseguro/admin_commands.py. */
module AdminCommands {
  import opened Wrappers
  import opened PagSegModel
  import opened Datastore

  /** The first record of a query with limit 1, or none when there is none. */
  function FirstOrNone(records: seq<AccessData>): (r: Option<AccessData>)
    ensures r.None? <==> |records| == 0
    ensures r.Some? ==> r.value == records[0]
  {
    if |records| == 0 then None else Some(records[0])
  }

  /** The records after CreateOrUpdateAccessData(email, token). */
  function Upserted(records: seq<AccessData>, email: string, token: string): (r: seq<AccessData>)
    ensures |records| == 0 ==> r == [AccessData(email, token)]
    ensures |records| > 0 ==> |r| == |records| && r[0] == AccessData(email, token) && r[1..] == records[1..]
  {
    if |records| == 0 then [AccessData(email, token)] else records[0 := AccessData(email, token)]
  }

  /** FindAccessDataCmd: the stored record, if any. */
  method FindAccessData(store: Store) returns (r: Option<AccessData>)
    ensures r.None? <==> |store.accessData| == 0
    ensures r.Some? ==> r.value == store.accessData[0]
  {
    if |store.accessData| == 0 {
      r := None;
    } else {
      r := Some(store.accessData[0]);
    }
  }

  /**
   * CreateOrUpdateAccessData: overwrites the found record in place, or
   * creates one; `staged` is what its commit hands to the store.
   */
  method CreateOrUpdateAccessData(store: Store, email: string, token: string) returns (staged: AccessData)
    modifies store`accessData
    ensures staged == AccessData(email, token)
    ensures store.accessData == Upserted(old(store.accessData), email, token)
  {
    var found := FindAccessData(store);
    if found.Some? {
      staged := found.value.(email := email, token := token);
      store.accessData := store.accessData[0 := staged];
    } else {
      staged := AccessData(email, token);
      store.accessData := [staged];
    }
  }

  /** After create-or-update, find returns exactly the values just written. */
  lemma FindAfterUpsert(records: seq<AccessData>, email: string, token: string)
    ensures FirstOrNone(Upserted(records, email, token)) == Some(AccessData(email, token))
  {
  }

  /** Create-or-update never adds a record when one exists, and adds exactly one when none does. */
  lemma UpsertKeepsSingleton(records: seq<AccessData>, email: string, token: string)
    ensures |Upserted(records, email, token)| == if |records| == 0 then 1 else |records|
  {
  }

  /** The records after a series of create-or-update calls, in order. */
  function UpsertAll(records: seq<AccessData>, calls: seq<AccessData>): seq<AccessData>
  {
    if |calls| == 0 then records
    else
      var last := calls[|calls| - 1];
      Upserted(UpsertAll(records, calls[..|calls| - 1]), last.email, last.token)
  }

  /** Repeated calls on a store with at most one record leave one record, holding the latest values. */
  lemma {:induction false} RepeatedUpsertsLeaveLatest(records: seq<AccessData>, calls: seq<AccessData>)
    requires |records| <= 1 && |calls| > 0
    ensures UpsertAll(records, calls) == [calls[|calls| - 1]]
    decreases |calls|
  {
    var last := calls[|calls| - 1];
    if |calls| > 1 {
      RepeatedUpsertsLeaveLatest(records, calls[..|calls| - 1]);
    } else {
      assert UpsertAll(records, calls[..0]) == records;
    }
  }
}
