/**
  The intermediate order store (services/Order.js over the collection of models/Order.js).
  The collection is a sequence of records in natural order; a lookup by `id` finds the first
  record with that id, as `findOne` does. A write that the database rejects is an input: the
  map `writeErrors` gives, for the index of an order in the batch, the error's message.
 */
module OrderStore {
  import opened Wrappers
  import opened OrderModel

  /** The first record with the given id, or -1 (`findOne({id})`). */
  function IndexOfId(records: seq<StoredOrder>, id: string): (r: int)
    ensures -1 <= r < |records|
    ensures r == -1 <==> forall i :: 0 <= i < |records| ==> records[i].id != id
    ensures r >= 0 ==> records[r].id == id && forall i :: 0 <= i < r ==> records[i].id != id
    decreases |records|
  {
    if records == [] then -1
    else if records[0].id == id then 0
    else
      var k := IndexOfId(records[1..], id);
      assert forall i :: 1 <= i < |records| ==> records[i] == records[1..][i - 1];
      if k == -1 then -1 else k + 1
  }

  /** The first-match characterisation determines the index. */
  lemma IndexOfIdAt(records: seq<StoredOrder>, id: string, k: nat)
    requires k < |records| && records[k].id == id
    requires forall i :: 0 <= i < k ==> records[i].id != id
    ensures IndexOfId(records, id) == k
  {
  }

  /** No two records share an id. */
  predicate UniqueIds(records: seq<StoredOrder>)
  {
    forall i, j :: 0 <= i < j < |records| ==> records[i].id != records[j].id
  }

  /** A record that holds the upstream order's fields and no downstream back-reference. */
  predicate Mirrors(r: StoredOrder, o: UpstreamOrder)
  {
    && r.id == o.id && r.name == o.name && r.legacyResourceId == o.legacyResourceId
    && r.customer == o.customer && r.displayFinancialStatus == o.displayFinancialStatus
    && r.createdAt == o.createdAt && r.fulfillments == o.fulfillments
    && r.statusPageUrl == o.statusPageUrl && r.metafields == o.metafields
    && r.airTableRecordId.None? && r.airTableTableName.None? && r.airTableApiId.None?
  }

  /** The document the batch upsert creates: `displayFulfillmentStatus` is not copied. */
  function Created(o: UpstreamOrder): StoredOrder
  {
    StoredOrder(o.id, o.name, o.legacyResourceId, o.customer, o.displayFinancialStatus, o.createdAt,
                o.fulfillments, None, o.statusPageUrl, None, None, None, o.metafields)
  }

  /** The document after the batch upsert's update: every upstream field, back-references cleared. */
  function Refetched(o: UpstreamOrder): StoredOrder
  {
    StoredOrder(o.id, o.name, o.legacyResourceId, o.customer, o.displayFinancialStatus, o.createdAt,
                o.fulfillments, o.displayFulfillmentStatus, o.statusPageUrl, None, None, None, o.metafields)
  }

  /** One successful write of the batch upsert: update the first match, or append. */
  function ApplyUpsert(records: seq<StoredOrder>, o: UpstreamOrder): seq<StoredOrder>
  {
    var k := IndexOfId(records, o.id);
    if k >= 0 then records[k := Refetched(o)] else records + [Created(o)]
  }

  /**
    After one successful write exactly one more or the same number of records exist, the
    order's record mirrors the upstream order (so it is no longer linked downstream), and every
    record with another id is untouched.
   */
  lemma ApplyUpsertEffect(records: seq<StoredOrder>, o: UpstreamOrder)
    ensures var after := ApplyUpsert(records, o);
            && |after| == |records| + (if IndexOfId(records, o.id) >= 0 then 0 else 1)
            && IndexOfId(after, o.id) >= 0
            && Mirrors(after[IndexOfId(after, o.id)], o)
            && !HasRecordId(after[IndexOfId(after, o.id)])
            && forall i :: 0 <= i < |records| && records[i].id != o.id ==> after[i] == records[i]
  {
    var k := IndexOfId(records, o.id);
    var after := ApplyUpsert(records, o);
    if k >= 0 {
      IndexOfIdAt(after, o.id, k);
    } else {
      IndexOfIdAt(after, o.id, |records|);
    }
  }

  /** `{orderId, orderName, error}` */
  datatype UpsertError = UpsertError(orderId: string, orderName: string, error: string)

  /** `results` of `UpsertOrder` */
  datatype UpsertSummary = UpsertSummary(created: nat, updated: nat, errors: nat, errorsList: seq<UpsertError>)

  /** The store and the counters after a prefix of the batch. */
  datatype UpsertState = UpsertState(records: seq<StoredOrder>, summary: UpsertSummary)

  /**
    One order of the batch on top of the state so far: a failed write counts an error and
    changes nothing, a write for a known id counts an update, one for a new id a creation.
   */
  function UpsertOne(prev: UpsertState, o: UpstreamOrder, writeError: Option<string>): (s: UpsertState)
    ensures writeError.Some? ==> s.records == prev.records
    ensures writeError.Some? ==>
              s.summary.errors == prev.summary.errors + 1 &&
              s.summary.errorsList == prev.summary.errorsList + [UpsertError(o.id, o.name, writeError.value)]
    ensures writeError.None? ==>
              s.records == ApplyUpsert(prev.records, o) &&
              s.summary.errors == prev.summary.errors && s.summary.errorsList == prev.summary.errorsList
  {
    var sum := prev.summary;
    if writeError.Some? then
      UpsertState(prev.records, sum.(errors := sum.errors + 1,
                                     errorsList := sum.errorsList + [UpsertError(o.id, o.name, writeError.value)]))
    else if IndexOfId(prev.records, o.id) >= 0 then
      UpsertState(ApplyUpsert(prev.records, o), sum.(updated := sum.updated + 1))
    else
      UpsertState(ApplyUpsert(prev.records, o), sum.(created := sum.created + 1))
  }

  /** The body of `UpsertOrder`'s loop for one order: the write, then the count. */
  method UpsertEach(rs: seq<StoredOrder>, results: UpsertSummary, o: UpstreamOrder, writeError: Option<string>)
    returns (rs': seq<StoredOrder>, results': UpsertSummary)
    ensures UpsertState(rs', results') == UpsertOne(UpsertState(rs, results), o, writeError)
  {
    rs', results' := rs, results;
    if writeError.Some? {
      results' := results.(errors := results.errors + 1,
                           errorsList := results.errorsList + [UpsertError(o.id, o.name, writeError.value)]);
    } else {
      var k := IndexOfId(rs, o.id);
      if k >= 0 {
        rs' := rs[k := Refetched(o)];
        results' := results.(updated := results.updated + 1);
      } else {
        rs' := rs + [Created(o)];
        results' := results.(created := results.created + 1);
      }
    }
  }

  /** The write error reported for the order at index `n`, if any. */
  function ErrorAt(writeErrors: map<nat, string>, n: nat): Option<string>
  {
    if n in writeErrors then Some(writeErrors[n]) else None
  }

  /** The batch upsert over `orders`, in order. */
  function UpsertRun(records: seq<StoredOrder>, orders: seq<UpstreamOrder>, writeErrors: map<nat, string>)
    : (s: UpsertState)
    ensures s.summary.created + s.summary.updated + s.summary.errors == |orders|
    ensures |s.summary.errorsList| == s.summary.errors
    ensures |s.records| == |records| + s.summary.created
    decreases |orders|
  {
    if orders == [] then UpsertState(records, UpsertSummary(0, 0, 0, []))
    else
      var n := |orders| - 1;
      UpsertOne(UpsertRun(records, orders[..n], writeErrors), orders[n], ErrorAt(writeErrors, n))
  }

  /** The rest of the batch from index `i` on, on top of the state `st` reached so far. */
  function UpsertFrom(st: UpsertState, orders: seq<UpstreamOrder>, i: nat, writeErrors: map<nat, string>)
    : (s: UpsertState)
    requires i <= |orders|
    ensures s.summary.created + s.summary.updated + s.summary.errors ==
            st.summary.created + st.summary.updated + st.summary.errors + |orders| - i
    decreases |orders| - i
  {
    if i == |orders| then st
    else UpsertFrom(UpsertOne(st, orders[i], ErrorAt(writeErrors, i)), orders, i + 1, writeErrors)
  }

  /** Running the first `i` orders and then the rest is running the whole batch. */
  lemma {:induction false} UpsertFromRun(records: seq<StoredOrder>, orders: seq<UpstreamOrder>,
                                         writeErrors: map<nat, string>, i: nat)
    requires i <= |orders|
    ensures UpsertFrom(UpsertRun(records, orders[..i], writeErrors), orders, i, writeErrors) ==
            UpsertRun(records, orders, writeErrors)
    decreases |orders| - i
  {
    if i == |orders| {
      assert orders[..i] == orders;
    } else {
      assert orders[..i + 1][..i] == orders[..i];
      UpsertFromRun(records, orders, writeErrors, i + 1);
    }
  }

  /** The positions below `n` whose write failed, in increasing order. */
  function FailedBelow(writeErrors: map<nat, string>, n: nat): seq<nat>
  {
    if n == 0 then [] else FailedBelow(writeErrors, n - 1) + (if n - 1 in writeErrors then [n - 1] else [])
  }

  /** `FailedBelow` lists, strictly increasing and each once, exactly the failed positions below `n`. */
  lemma {:induction false} FailedBelowExact(writeErrors: map<nat, string>, n: nat)
    ensures forall i :: 0 <= i < |FailedBelow(writeErrors, n)| ==>
              FailedBelow(writeErrors, n)[i] < n && FailedBelow(writeErrors, n)[i] in writeErrors
    ensures forall i, j :: 0 <= i < j < |FailedBelow(writeErrors, n)| ==>
              FailedBelow(writeErrors, n)[i] < FailedBelow(writeErrors, n)[j]
    ensures forall k :: 0 <= k < n && k in writeErrors ==> k in FailedBelow(writeErrors, n)
  {
    if n > 0 {
      FailedBelowExact(writeErrors, n - 1);
      var before := FailedBelow(writeErrors, n - 1);
      if n - 1 in writeErrors {
        var after := before + [n - 1];
        assert FailedBelow(writeErrors, n) == after;
        assert forall i :: 0 <= i < |before| ==> after[i] == before[i];
      } else {
        assert FailedBelow(writeErrors, n) == before;
      }
    }
  }

  /** There are as many failed positions below `n` as the set of them has members. */
  lemma {:induction false} FailedBelowCount(writeErrors: map<nat, string>, n: nat)
    ensures |FailedBelow(writeErrors, n)| == |set k | 0 <= k < n && k in writeErrors|
  {
    if n > 0 {
      FailedBelowCount(writeErrors, n - 1);
      var below := set k | 0 <= k < n - 1 && k in writeErrors;
      if n - 1 in writeErrors {
        assert (set k | 0 <= k < n && k in writeErrors) == below + {n - 1};
        assert n - 1 !in below;
      } else {
        assert (set k | 0 <= k < n && k in writeErrors) == below;
      }
    }
  }

  /**
    The error log of the batch: one error per failed write, and the i-th entry of `errorsList`
    records the order id, order name and message of the i-th failed position.
   */
  lemma {:induction false} UpsertRunErrors(records: seq<StoredOrder>, orders: seq<UpstreamOrder>,
                                           writeErrors: map<nat, string>)
    ensures var s := UpsertRun(records, orders, writeErrors);
            var failed := FailedBelow(writeErrors, |orders|);
            && s.summary.errors == |set k | 0 <= k < |orders| && k in writeErrors|
            && |s.summary.errorsList| == |failed|
            && forall i :: 0 <= i < |failed| ==>
                 failed[i] < |orders| && failed[i] in writeErrors &&
                 s.summary.errorsList[i] == UpsertError(orders[failed[i]].id, orders[failed[i]].name, writeErrors[failed[i]])
    decreases |orders|
  {
    FailedBelowExact(writeErrors, |orders|);
    FailedBelowCount(writeErrors, |orders|);
    if orders != [] {
      var n := |orders| - 1;
      UpsertRunErrors(records, orders[..n], writeErrors);
      var prev := UpsertRun(records, orders[..n], writeErrors);
      var s := UpsertRun(records, orders, writeErrors);
      var failed := FailedBelow(writeErrors, |orders|);
      var before := FailedBelow(writeErrors, n);
      FailedBelowExact(writeErrors, n);
      forall i | 0 <= i < |before|
        ensures prev.summary.errorsList[i] == UpsertError(orders[before[i]].id, orders[before[i]].name, writeErrors[before[i]])
      {
        assert orders[..n][before[i]] == orders[before[i]];
      }
      if n in writeErrors {
        assert failed == before + [n];
        assert s.summary.errorsList == prev.summary.errorsList + [UpsertError(orders[n].id, orders[n].name, writeErrors[n])];
      } else {
        assert failed == before;
        assert s.summary.errorsList == prev.summary.errorsList;
      }
    }
  }

  /** The batch upsert keeps ids unique. */
  lemma {:induction false} UpsertRunKeepsIdsUnique(records: seq<StoredOrder>, orders: seq<UpstreamOrder>,
                                                   writeErrors: map<nat, string>)
    requires UniqueIds(records)
    ensures UniqueIds(UpsertRun(records, orders, writeErrors).records)
    decreases |orders|
  {
    if orders != [] {
      var n := |orders| - 1;
      var prev := UpsertRun(records, orders[..n], writeErrors).records;
      UpsertRunKeepsIdsUnique(records, orders[..n], writeErrors);
      if n !in writeErrors {
        ApplyUpsertKeepsIdsUnique(prev, orders[n]);
      }
    }
  }

  lemma ApplyUpsertKeepsIdsUnique(records: seq<StoredOrder>, o: UpstreamOrder)
    requires UniqueIds(records)
    ensures UniqueIds(ApplyUpsert(records, o))
  {
    var k := IndexOfId(records, o.id);
    var after := ApplyUpsert(records, o);
    if k >= 0 {
      forall i, j | 0 <= i < j < |after| ensures after[i].id != after[j].id {
        if i != k && j != k {
          assert after[i] == records[i] && after[j] == records[j];
        } else if i == k {
          assert after[j] == records[j];
        } else {
          assert after[i] == records[i];
        }
      }
    }
  }

  /**
    The order written last in a batch, when its write succeeds, is left in the store exactly
    as upstream reported it, with its downstream back-reference cleared.
   */
  lemma UpsertRunMirrorsLastOrder(records: seq<StoredOrder>, orders: seq<UpstreamOrder>,
                                  writeErrors: map<nat, string>)
    requires orders != [] && |orders| - 1 !in writeErrors
    ensures var after := UpsertRun(records, orders, writeErrors).records;
            var o := orders[|orders| - 1];
            IndexOfId(after, o.id) >= 0 && Mirrors(after[IndexOfId(after, o.id)], o) &&
            !HasRecordId(after[IndexOfId(after, o.id)])
  {
    var n := |orders| - 1;
    ApplyUpsertEffect(UpsertRun(records, orders[..n], writeErrors).records, orders[n]);
  }

  /**
    Two orders with the same id in one batch, for an id the store does not hold: the first is
    created, the second updates it, and only one record results.
   */
  lemma SameIdTwiceCreatesOnce(records: seq<StoredOrder>, first: UpstreamOrder, second: UpstreamOrder)
    requires first.id == second.id && IndexOfId(records, first.id) == -1
    ensures var s := UpsertRun(records, [first, second], map[]);
            s.summary == UpsertSummary(1, 1, 0, []) && s.records == records + [Refetched(second)]
  {
    assert [first, second][..1] == [first];
    assert [first][..0] == [];
    var zero := UpsertRun(records, [], map[]);
    assert zero.records == records && zero.summary == UpsertSummary(0, 0, 0, []);
    assert ApplyUpsert(records, first) == records + [Created(first)];
    var one := UpsertRun(records, [first], map[]);
    assert one.records == records + [Created(first)];
    IndexOfIdAt(one.records, second.id, |records|);
  }

  /** The envelope of `UpsertOrder`: its outer `catch` cannot be reached for a list of orders. */
  datatype UpsertResult = UpsertResult(success: bool, message: string, data: UpsertSummary)

  /** `UpsertSingleOrder`'s result. */
  datatype SingleUpsert = Upserted(action: string, data: StoredOrder)
                        | UpsertFailed(message: string, error: string)

  /**
    `UpsertSingleOrder` on a record already stored: only the listed fields are replaced, so the
    metafields, the fulfillment status and the downstream back-references stay.
   */
  function Amended(r: StoredOrder, o: UpstreamOrder): StoredOrder
  {
    r.(name := o.name, legacyResourceId := o.legacyResourceId, customer := o.customer,
       displayFinancialStatus := o.displayFinancialStatus, createdAt := o.createdAt,
       fulfillments := o.fulfillments, statusPageUrl := o.statusPageUrl)
  }

  /** `UpsertSingleOrder` on a new id: neither metafields (default `[]`) nor the fulfillment status. */
  function CreatedSingle(o: UpstreamOrder): StoredOrder
  {
    StoredOrder(o.id, o.name, o.legacyResourceId, o.customer, o.displayFinancialStatus, o.createdAt,
                o.fulfillments, None, o.statusPageUrl, None, None, None, [])
  }

  /**
    Unlike the batch upsert, the single-order upsert keeps an existing record's downstream
    link: an order pushed before stays linked after a single refresh.
   */
  lemma SingleUpsertKeepsLink(r: StoredOrder, o: UpstreamOrder)
    ensures HasRecordId(Amended(r, o)) <==> HasRecordId(r)
    ensures Amended(r, o).metafields == r.metafields
    ensures !HasRecordId(Refetched(o)) && !HasRecordId(Created(o)) && !HasRecordId(CreatedSingle(o))
  {
  }

  /** `FindOrderById`'s result. */
  datatype FindResult = FindResult(success: bool, message: Option<string>, data: Option<StoredOrder>)

  /** `{orders, total, limit, skip, hasMore}` */
  datatype OrdersPage = OrdersPage(orders: seq<StoredOrder>, total: nat, limit: nat, skip: nat, hasMore: bool)

  /** Newest first by `createdAt`; records with equal `createdAt` keep their store order. */
  predicate NewestFirst(rs: seq<StoredOrder>)
  {
    forall i, j :: 0 <= i < j < |rs| ==> rs[i].createdAt >= rs[j].createdAt
  }

  /** Inserts `x` before the first record older than it. */
  function InsertByCreated(x: StoredOrder, rs: seq<StoredOrder>): (r: seq<StoredOrder>)
    requires NewestFirst(rs)
    ensures NewestFirst(r)
    ensures multiset(r) == multiset(rs) + multiset{x}
    ensures |r| == |rs| + 1 && (r[0] == x || (rs != [] && r[0] == rs[0]))
  {
    if rs == [] || x.createdAt >= rs[0].createdAt then [x] + rs
    else
      var tail := InsertByCreated(x, rs[1..]);
      assert rs == [rs[0]] + rs[1..];
      [rs[0]] + tail
  }

  /** `.sort({createdAt: -1})` */
  function SortNewestFirst(rs: seq<StoredOrder>): (r: seq<StoredOrder>)
    ensures NewestFirst(r)
    ensures multiset(r) == multiset(rs) && |r| == |rs|
  {
    if rs == [] then []
    else
      assert rs == [rs[0]] + rs[1..];
      InsertByCreated(rs[0], SortNewestFirst(rs[1..]))
  }

  /** `.skip(skip).limit(limit)`: Mongo applies the skip first, and a limit of 0 means none. */
  function Window<T>(xs: seq<T>, limit: nat, skip: nat): (w: seq<T>)
    ensures skip >= |xs| ==> w == []
    ensures skip < |xs| ==> |w| <= |xs| - skip && w == xs[skip..skip + |w|]
    ensures skip < |xs| ==> |w| == (if limit == 0 || skip + limit > |xs| then |xs| - skip else limit)
  {
    if skip >= |xs| then []
    else if limit == 0 || skip + limit > |xs| then xs[skip..]
    else xs[skip..skip + limit]
  }

  lemma SliceIsSubMultiset<T>(xs: seq<T>, lo: nat, hi: nat)
    requires lo <= hi <= |xs|
    ensures multiset(xs[lo..hi]) <= multiset(xs)
  {
    assert xs == xs[..lo] + xs[lo..hi] + xs[hi..];
  }

  lemma SliceNewestFirst(rs: seq<StoredOrder>, lo: nat, hi: nat)
    requires NewestFirst(rs) && lo <= hi <= |rs|
    ensures NewestFirst(rs[lo..hi])
  {
    forall i, j | 0 <= i < j < hi - lo ensures rs[lo..hi][i].createdAt >= rs[lo..hi][j].createdAt {
      assert rs[lo..hi][i] == rs[lo + i] && rs[lo..hi][j] == rs[lo + j];
    }
  }

  /** A window of a sorted sequence is sorted and drawn from it. */
  lemma WindowOfSorted(sorted: seq<StoredOrder>, limit: nat, skip: nat)
    requires NewestFirst(sorted)
    ensures NewestFirst(Window(sorted, limit, skip))
    ensures multiset(Window(sorted, limit, skip)) <= multiset(sorted)
  {
    var page := Window(sorted, limit, skip);
    var lo := if skip >= |sorted| then |sorted| else skip;
    assert page == sorted[lo..lo + |page|];
    SliceIsSubMultiset(sorted, lo, lo + |page|);
    SliceNewestFirst(sorted, lo, lo + |page|);
  }

  /** The store: the collection's records in natural order. */
  class Store {
    var records: seq<StoredOrder>

    constructor (records: seq<StoredOrder>)
      ensures this.records == records
    {
      this.records := records;
    }

    /**
      `UpsertOrder(orders)`: one find-then-update-or-create per order, in order; a failed write
      is counted and listed and the loop goes on.
     */
    method UpsertOrder(orders: seq<UpstreamOrder>, writeErrors: map<nat, string>) returns (r: UpsertResult)
      modifies this
      ensures UpsertState(records, r.data) == UpsertRun(old(records), orders, writeErrors)
      ensures r.success && r.message == "Upsert completed successfully"
    {
      var before := records;
      var rs, results := records, UpsertSummary(0, 0, 0, []);
      var i := 0;
      UpsertFromRun(before, orders, writeErrors, 0);
      assert orders[..0] == [];
      while i < |orders|
        invariant 0 <= i <= |orders|
        invariant UpsertFrom(UpsertState(rs, results), orders, i, writeErrors) == UpsertRun(before, orders, writeErrors)
      {
        rs, results := UpsertEach(rs, results, orders[i], ErrorAt(writeErrors, i));
        i := i + 1;
      }
      records := rs;
      r := UpsertResult(true, "Upsert completed successfully", results);
    }

    /** `UpsertSingleOrder(order)`: update the listed fields of the first match, or create. */
    method UpsertSingleOrder(o: UpstreamOrder, writeError: Option<string>) returns (r: SingleUpsert)
      modifies this
      ensures writeError.Some? ==> r == UpsertFailed("Failed to upsert order", writeError.value) &&
                                   records == old(records)
      ensures writeError.None? && IndexOfId(old(records), o.id) >= 0 ==>
                var k := IndexOfId(old(records), o.id);
                records == old(records)[k := Amended(old(records)[k], o)] && r == Upserted("updated", records[k])
      ensures writeError.None? && IndexOfId(old(records), o.id) == -1 ==>
                records == old(records) + [CreatedSingle(o)] && r == Upserted("created", CreatedSingle(o))
    {
      if writeError.Some? {
        return UpsertFailed("Failed to upsert order", writeError.value);
      }
      var k := IndexOfId(records, o.id);
      if k >= 0 {
        records := records[k := Amended(records[k], o)];
        r := Upserted("updated", records[k]);
      } else {
        records := records + [CreatedSingle(o)];
        r := Upserted("created", CreatedSingle(o));
      }
    }

    /** `FindOrderById(orderId)` */
    function FindOrderById(id: string): (r: FindResult)
      reads this
      ensures r.success <==> exists i :: 0 <= i < |records| && records[i].id == id
      ensures r.success ==> r.data.Some? && r.data.value in records && r.data.value.id == id && r.message.None?
      ensures !r.success ==> r == FindResult(false, Some("Order not found"), None)
    {
      var k := IndexOfId(records, id);
      if k == -1 then FindResult(false, Some("Order not found"), None)
      else FindResult(true, None, Some(records[k]))
    }

    /**
      `GetAllOrders(limit, skip)`: newest first, `skip` records passed over, at most `limit`
      returned (a limit of 0 is no limit), `hasMore` when `skip + limit` falls short of the total.
     */
    function GetAllOrders(limit: nat, skip: nat): (r: OrdersPage)
      reads this
      ensures r.total == |records| && r.limit == limit && r.skip == skip
      ensures r.hasMore <==> skip + limit < |records|
      ensures NewestFirst(r.orders)
      ensures multiset(r.orders) <= multiset(records)
      ensures |r.orders| == (if skip >= |records| then 0
                             else if limit == 0 || skip + limit > |records| then |records| - skip
                             else limit)
      ensures skip < |records| ==> r.orders == SortNewestFirst(records)[skip..skip + |r.orders|]
    {
      var sorted := SortNewestFirst(records);
      WindowOfSorted(sorted, limit, skip);
      OrdersPage(Window(sorted, limit, skip), |records|, limit, skip, skip + limit < |records|)
    }
  }
}
