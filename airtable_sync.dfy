/**
  The push stage `syncAirTableWithDb` (services/airTable.js): partition the stored orders by
  whether they are already linked downstream, chunk each list into batches of at most 10,
  send the batches, and link each created row back to its stored order. The downstream calls
  are parameters: `create(i, batch)` / `upsert(i, batch)` is the envelope the client returns
  for the i-th POST / PATCH of the list.
 */
module AirTableSync {
  import opened Wrappers
  import opened Http
  import opened OrderModel
  import opened Derive
  import opened AirTableClient
  import opened OrderStore

  /** Records per downstream batch request. */
  const BatchLimit: nat := 10

  // ---------------------------------------------------------------------------------------
  // Partition
  // ---------------------------------------------------------------------------------------

  /** The shape an order is pushed as: an update when it is linked, a create otherwise. */
  function PayloadOf(now: int, r: StoredOrder): Completion<Payload>
  {
    if HasRecordId(r) then UpdatePayload(now, r) else CreatePayload(now, r)
  }

  /** `ordersToCreate` and `orderToUpsert` */
  datatype Partitioned = Partitioned(toCreate: seq<Payload>, toUpsert: seq<Payload>)

  /**
    The `forEach` over the stored orders: each payload goes to the list its link selects; the
    first order whose shape builder raises ends the stage with that exception.
   */
  function Partition(now: int, rs: seq<StoredOrder>): Completion<Partitioned>
    decreases |rs|
  {
    if rs == [] then Normal(Partitioned([], []))
    else
      match PayloadOf(now, rs[0])
      case Abrupt(m) => Abrupt(m)
      case Normal(p) =>
        match Partition(now, rs[1..])
        case Abrupt(m) => Abrupt(m)
        case Normal(rest) =>
          if HasRecordId(rs[0]) then Normal(rest.(toUpsert := [p] + rest.toUpsert))
          else Normal(rest.(toCreate := [p] + rest.toCreate))
  }

  /** The linked orders, in store order. */
  function Linked(rs: seq<StoredOrder>): seq<StoredOrder>
  {
    if rs == [] then [] else (if HasRecordId(rs[0]) then [rs[0]] else []) + Linked(rs[1..])
  }

  /** The orders without a link, in store order. */
  function Unlinked(rs: seq<StoredOrder>): seq<StoredOrder>
  {
    if rs == [] then [] else (if HasRecordId(rs[0]) then [] else [rs[0]]) + Unlinked(rs[1..])
  }

  /** Every stored order is in exactly one of the two lists. */
  lemma {:induction false} LinkedUnlinkedSplit(rs: seq<StoredOrder>)
    ensures multiset(Linked(rs)) + multiset(Unlinked(rs)) == multiset(rs)
    ensures |Linked(rs)| + |Unlinked(rs)| == |rs|
    decreases |rs|
  {
    if rs != [] {
      LinkedUnlinkedSplit(rs[1..]);
      assert rs == [rs[0]] + rs[1..];
      if HasRecordId(rs[0]) {
        assert Linked(rs) == [rs[0]] + Linked(rs[1..]) && Unlinked(rs) == Unlinked(rs[1..]);
      } else {
        assert Unlinked(rs) == [rs[0]] + Unlinked(rs[1..]) && Linked(rs) == Linked(rs[1..]);
      }
    }
  }

  /** The linked list holds only linked orders, the other only unlinked ones. */
  lemma {:induction false} LinkedUnlinkedSelect(rs: seq<StoredOrder>)
    ensures forall x :: x in Linked(rs) ==> x in rs && HasRecordId(x)
    ensures forall x :: x in Unlinked(rs) ==> x in rs && !HasRecordId(x)
    decreases |rs|
  {
    if rs != [] {
      LinkedUnlinkedSelect(rs[1..]);
    }
  }

  /**
    When no order raises, the create list holds the create shapes of the unlinked orders and
    the upsert list the update shapes of the linked ones, each in store order.
   */
  lemma {:induction false} PartitionFollowsLinks(now: int, rs: seq<StoredOrder>)
    requires Partition(now, rs).Normal?
    ensures var p := Partition(now, rs).value;
            && |p.toCreate| == |Unlinked(rs)| && |p.toUpsert| == |Linked(rs)|
            && (forall k :: 0 <= k < |p.toCreate| ==> CreatePayload(now, Unlinked(rs)[k]) == Normal(p.toCreate[k]))
            && (forall k :: 0 <= k < |p.toUpsert| ==> UpdatePayload(now, Linked(rs)[k]) == Normal(p.toUpsert[k]))
    decreases |rs|
  {
    if rs != [] {
      PartitionFollowsLinks(now, rs[1..]);
      var p := Partition(now, rs).value;
      var rest := Partition(now, rs[1..]).value;
      var head := PayloadOf(now, rs[0]).value;
      if HasRecordId(rs[0]) {
        assert Linked(rs) == [rs[0]] + Linked(rs[1..]);
        assert Unlinked(rs) == Unlinked(rs[1..]);
        assert p.toUpsert == [head] + rest.toUpsert && p.toCreate == rest.toCreate;
      } else {
        assert Unlinked(rs) == [rs[0]] + Unlinked(rs[1..]);
        assert Linked(rs) == Linked(rs[1..]);
        assert p.toCreate == [head] + rest.toCreate && p.toUpsert == rest.toUpsert;
      }
    }
  }

  /** The stage raises exactly when some stored order's shape builder raises. */
  lemma {:induction false} PartitionRaisesIffSomeOrderRaises(now: int, rs: seq<StoredOrder>)
    ensures Partition(now, rs).Abrupt? <==> exists i :: 0 <= i < |rs| && PayloadOf(now, rs[i]).Abrupt?
    decreases |rs|
  {
    if rs != [] {
      PartitionRaisesIffSomeOrderRaises(now, rs[1..]);
      if exists i :: 0 <= i < |rs[1..]| && PayloadOf(now, rs[1..][i]).Abrupt? {
        var i :| 0 <= i < |rs[1..]| && PayloadOf(now, rs[1..][i]).Abrupt?;
        assert PayloadOf(now, rs[i + 1]).Abrupt?;
      }
      if exists i :: 0 <= i < |rs| && PayloadOf(now, rs[i]).Abrupt? {
        var i :| 0 <= i < |rs| && PayloadOf(now, rs[i]).Abrupt?;
        if i > 0 {
          assert PayloadOf(now, rs[1..][i - 1]).Abrupt?;
        }
      }
    }
  }

  /** The partition of a suffix, one order at a time. */
  lemma PartitionStep(now: int, rs: seq<StoredOrder>, i: nat)
    requires i < |rs|
    ensures PayloadOf(now, rs[i]).Abrupt? ==> Partition(now, rs[i..]) == Abrupt(PayloadOf(now, rs[i]).message)
    ensures PayloadOf(now, rs[i]).Normal? ==>
              Partition(now, rs[i..]) ==
              Prepend(if HasRecordId(rs[i]) then [] else [PayloadOf(now, rs[i]).value],
                      if HasRecordId(rs[i]) then [PayloadOf(now, rs[i]).value] else [],
                      Partition(now, rs[i + 1..]))
  {
    assert rs[i..][0] == rs[i] && rs[i..][1..] == rs[i + 1..];
    var rest := Partition(now, rs[i + 1..]);
    if rest.Normal? {
      var p := rest.value;
      assert [] + p.toCreate == p.toCreate && [] + p.toUpsert == p.toUpsert;
    }
  }

  /** `allOrders.forEach(...)` pushing onto the two lists. */
  method PartitionOrders(now: int, rs: seq<StoredOrder>) returns (r: Completion<Partitioned>)
    ensures r == Partition(now, rs)
  {
    var ordersToCreate: seq<Payload> := [];
    var orderToUpsert: seq<Payload> := [];
    var i := 0;
    assert rs[0..] == rs;
    assert Prepend([], [], Partition(now, rs)) == Partition(now, rs) by {
      if Partition(now, rs).Normal? {
        var p := Partition(now, rs).value;
        assert [] + p.toCreate == p.toCreate && [] + p.toUpsert == p.toUpsert;
      }
    }
    while i < |rs|
      invariant 0 <= i <= |rs|
      invariant Partition(now, rs) == Prepend(ordersToCreate, orderToUpsert, Partition(now, rs[i..]))
    {
      PartitionStep(now, rs, i);
      var shape := PayloadOf(now, rs[i]);
      if shape.Abrupt? {
        return Abrupt(shape.message);
      }
      var x := if HasRecordId(rs[i]) then [] else [shape.value];
      var y := if HasRecordId(rs[i]) then [shape.value] else [];
      PrependTwice(ordersToCreate, orderToUpsert, x, y, Partition(now, rs[i + 1..]));
      ordersToCreate := ordersToCreate + x;
      orderToUpsert := orderToUpsert + y;
      i := i + 1;
    }
    assert rs[i..] == [];
    assert ordersToCreate + [] == ordersToCreate && orderToUpsert + [] == orderToUpsert;
    r := Normal(Partitioned(ordersToCreate, orderToUpsert));
  }

  lemma PrependTwice(c: seq<Payload>, u: seq<Payload>, x: seq<Payload>, y: seq<Payload>, rest: Completion<Partitioned>)
    ensures Prepend(c, u, Prepend(x, y, rest)) == Prepend(c + x, u + y, rest)
  {
    if rest.Normal? {
      assert c + (x + rest.value.toCreate) == c + x + rest.value.toCreate;
      assert u + (y + rest.value.toUpsert) == u + y + rest.value.toUpsert;
    }
  }

  /** The lists built so far, in front of what the rest of the stored orders contribute. */
  function Prepend(c: seq<Payload>, u: seq<Payload>, rest: Completion<Partitioned>): Completion<Partitioned>
  {
    match rest
    case Abrupt(m) => Abrupt(m)
    case Normal(p) => Normal(Partitioned(c + p.toCreate, u + p.toUpsert))
  }

  // ---------------------------------------------------------------------------------------
  // Chunking
  // ---------------------------------------------------------------------------------------

  function Concat<T>(bs: seq<seq<T>>): seq<T>
  {
    if bs == [] then [] else bs[0] + Concat(bs[1..])
  }

  /**
    `Chunks`: consecutive slices of 10; `ChunksShape`: the concatenation is the input, every slice but the last has
    10 records, the last has 1 to 10, and there are ceil(n / 10) of them (23 records give
    10, 10 and 3).
   */
  function Chunks<T>(xs: seq<T>): seq<seq<T>>
    decreases |xs|
  {
    if |xs| == 0 then []
    else if |xs| <= BatchLimit then [xs]
    else [xs[..BatchLimit]] + Chunks(xs[BatchLimit..])
  }

  lemma {:induction false} ChunksShape<T>(xs: seq<T>)
    ensures var bs := Chunks(xs);
            && Concat(bs) == xs
            && |bs| == CeilDiv(|xs|, BatchLimit)
            && (forall i :: 0 <= i < |bs| ==> 1 <= |bs[i]| <= BatchLimit)
            && (forall i :: 0 <= i < |bs| - 1 ==> |bs[i]| == BatchLimit)
            && (|bs| > 0 ==> |bs[|bs| - 1]| == |xs| - BatchLimit * (|bs| - 1))
    decreases |xs|
  {
    if |xs| > BatchLimit {
      ChunksShape(xs[BatchLimit..]);
      var rest := Chunks(xs[BatchLimit..]);
      assert Chunks(xs) == [xs[..BatchLimit]] + rest;
      assert xs == xs[..BatchLimit] + xs[BatchLimit..];
      assert Concat(Chunks(xs)) == xs[..BatchLimit] + Concat(rest);
    }
  }

  /** One step of the chunking loop: the slice from `i` (clamped like `slice`) and the rest. */
  lemma ChunksStep<T>(xs: seq<T>, i: nat)
    requires i < |xs|
    ensures var hi := if i + BatchLimit < |xs| then i + BatchLimit else |xs|;
            Chunks(xs[i..]) == [xs[i..hi]] + Chunks(xs[hi..])
  {
    var hi := if i + BatchLimit < |xs| then i + BatchLimit else |xs|;
    var ys := xs[i..];
    if |ys| <= BatchLimit {
      assert ys == xs[i..hi];
      assert xs[hi..] == [];
    } else {
      assert ys[..BatchLimit] == xs[i..hi];
      assert ys[BatchLimit..] == xs[hi..];
    }
  }

  /** `for (let i = 0; i < n; i += 10) batches.push(list.slice(i, i + 10))` */
  method ChunkBatches<T>(xs: seq<T>) returns (batches: seq<seq<T>>)
    ensures batches == Chunks(xs)
  {
    batches := [];
    var i := 0;
    ghost var lo := 0;
    assert xs[0..] == xs;
    while i < |xs|
      invariant lo == (if i < |xs| then i else |xs|)
      invariant Chunks(xs) == batches + Chunks(xs[lo..])
      decreases |xs| - i
    {
      var hi := if i + BatchLimit < |xs| then i + BatchLimit else |xs|;
      ChunksStep(xs, i);
      assert lo == i;
      assert batches + Chunks(xs[i..]) == (batches + [xs[i..hi]]) + Chunks(xs[hi..]);
      batches := batches + [xs[i..hi]];
      i := i + BatchLimit;
      lo := hi;
    }
    assert xs[lo..] == [];
  }

  // ---------------------------------------------------------------------------------------
  // Linking created rows back to stored orders
  // ---------------------------------------------------------------------------------------

  /** A row of a create reply: its `id` and its "Order Number" field. */
  datatype ReturnedRecord = ReturnedRecord(id: Option<string>, orderNumber: Option<string>)
  /** The body of a create / upsert reply: `{records}`. */
  datatype RecordsBody = RecordsBody(records: Option<seq<ReturnedRecord>>)

  /** `for (const bRecord of undefined)` */
  const NotIterable := "batchResultData is not iterable"
  /** `extractNumberAfterDash(undefined)` */
  const SplitOfUndefined := "Cannot read properties of undefined (reading 'split')"

  /**
    `OrderModel.findOne({legacyResourceId})`: the first record with that legacy id; a `null`
    key matches no stored order, whose legacy ids are all strings.
   */
  function IndexOfLegacyId(rs: seq<StoredOrder>, legacyResourceId: Option<string>): (r: int)
    ensures -1 <= r < |rs|
    ensures r == -1 <==> forall i :: 0 <= i < |rs| ==> Some(rs[i].legacyResourceId) != legacyResourceId
    ensures r >= 0 ==> Some(rs[r].legacyResourceId) == legacyResourceId &&
                       forall i :: 0 <= i < r ==> Some(rs[i].legacyResourceId) != legacyResourceId
    decreases |rs|
  {
    if rs == [] then -1
    else if Some(rs[0].legacyResourceId) == legacyResourceId then 0
    else
      var k := IndexOfLegacyId(rs[1..], legacyResourceId);
      assert forall i :: 1 <= i < |rs| ==> rs[i] == rs[1..][i - 1];
      if k == -1 then -1 else k + 1
  }

  /** The stored order a returned row names gets the row's id as its back-reference. */
  function LinkOne(rs: seq<StoredOrder>, rec: ReturnedRecord): seq<StoredOrder>
    requires rec.orderNumber.Some?
  {
    var k := IndexOfLegacyId(rs, ExtractNumberAfterDash(rec.orderNumber.value));
    if k >= 0 then rs[k := rs[k].(airTableRecordId := rec.id)] else rs
  }

  /** The store after linking, and the exception that stopped it, if any. */
  datatype Linking = Linking(records: seq<StoredOrder>, failure: Option<string>)

  /** The `for...of` over a create reply's rows; a row without "Order Number" raises. */
  function LinkAll(rs: seq<StoredOrder>, recs: seq<ReturnedRecord>): Linking
    decreases |recs|
  {
    if recs == [] then Linking(rs, None)
    else if recs[0].orderNumber.None? then Linking(rs, Some(SplitOfUndefined))
    else LinkAll(LinkOne(rs, recs[0]), recs[1..])
  }

  /** The records agree everywhere except, possibly, in their `airTableRecordId`. */
  predicate SameButLinks(before: seq<StoredOrder>, after: seq<StoredOrder>)
  {
    |after| == |before| &&
    forall i :: 0 <= i < |before| ==> after[i] == before[i].(airTableRecordId := after[i].airTableRecordId)
  }

  /** Linking touches nothing but back-references. */
  lemma {:induction false} LinkAllOnlyLinks(rs: seq<StoredOrder>, recs: seq<ReturnedRecord>)
    ensures SameButLinks(rs, LinkAll(rs, recs).records)
    decreases |recs|
  {
    if recs != [] && recs[0].orderNumber.Some? {
      var next := LinkOne(rs, recs[0]);
      assert SameButLinks(rs, next);
      LinkAllOnlyLinks(next, recs[1..]);
    }
  }

  /**
    The returned row `rec` names stored order `k` and carries `link` as its id: its "Order
    Number" splits to the order's legacy id, and no earlier order has that legacy id, so
    `findOne` lands on order `k`.
   */
  predicate Names(rs: seq<StoredOrder>, k: nat, rec: ReturnedRecord, link: Option<string>)
    requires k < |rs|
  {
    && rec.orderNumber.Some?
    && rec.id == link
    && ExtractNumberAfterDash(rec.orderNumber.value) == Some(rs[k].legacyResourceId)
    && forall m :: 0 <= m < k ==> rs[m].legacyResourceId != rs[k].legacyResourceId
  }

  /** One row writes its id into the order it names, and into no other. */
  lemma LinkOneTarget(rs: seq<StoredOrder>, rec: ReturnedRecord, k: nat)
    requires rec.orderNumber.Some? && k < |rs|
    ensures |LinkOne(rs, rec)| == |rs|
    ensures LinkOne(rs, rec)[k].airTableRecordId != rs[k].airTableRecordId ==>
              Names(rs, k, rec, LinkOne(rs, rec)[k].airTableRecordId)
  {
  }

  /** Every back-reference a reply's rows change comes from a row that names that order. */
  lemma {:induction false} LinkAllSources(rs: seq<StoredOrder>, recs: seq<ReturnedRecord>, k: nat)
    requires k < |rs|
    ensures |LinkAll(rs, recs).records| == |rs|
    ensures LinkAll(rs, recs).records[k].airTableRecordId != rs[k].airTableRecordId ==>
              exists rec :: rec in recs && Names(rs, k, rec, LinkAll(rs, recs).records[k].airTableRecordId)
    decreases |recs|
  {
    LinkAllOnlyLinks(rs, recs);
    if recs != [] && recs[0].orderNumber.Some? {
      var mid := LinkOne(rs, recs[0]);
      var link := LinkAll(rs, recs).records[k].airTableRecordId;
      LinkOneTarget(rs, recs[0], k);
      LinkAllSources(mid, recs[1..], k);
      assert LinkAll(rs, recs) == LinkAll(mid, recs[1..]);
      assert SameButLinks(rs, mid) by { LinkAllOnlyLinks(rs, [recs[0]]); }
      if link != mid[k].airTableRecordId {
        var rec :| rec in recs[1..] && Names(mid, k, rec, link);
        assert rec in recs;
        assert Names(rs, k, rec, link);
      } else if link != rs[k].airTableRecordId {
        assert Names(rs, k, recs[0], link);
      }
    }
  }

  /**
    A row that echoes an order's "Order Number" links that order when neither its name nor its
    legacy id holds a dash and no other order shares the legacy id; nothing else changes.
   */
  lemma EchoedRowLinksOrder(rs: seq<StoredOrder>, k: nat, rec: ReturnedRecord)
    requires k < |rs|
    requires rec.orderNumber == Some(OrderNumber(rs[k].name, rs[k].legacyResourceId))
    requires '-' !in rs[k].name && '-' !in rs[k].legacyResourceId
    requires forall m :: 0 <= m < |rs| && m != k ==> rs[m].legacyResourceId != rs[k].legacyResourceId
    ensures LinkOne(rs, rec) == rs[k := rs[k].(airTableRecordId := rec.id)]
  {
    OrderNumberRoundTrip(rs[k].name, rs[k].legacyResourceId);
  }

  // ---------------------------------------------------------------------------------------
  // The create and upsert loops
  // ---------------------------------------------------------------------------------------

  /**
    The envelope the client's `post` / `patch` returns for the i-th batch of a list: the
    response's data, or the classified error (see `AirTableClient.Request`).
   */
  type BatchCall = (nat, seq<Payload>) -> Envelope<RecordsBody>

  /** `{totalBatches, totalRecords, results}` */
  datatype BatchReport = BatchReport(totalBatches: nat, totalRecords: nat, results: seq<Envelope<RecordsBody>>)

  /** The state of the create loop: the store, the results and delays so far, and an exception. */
  datatype CreateRun = CreateRun(records: seq<StoredOrder>, results: seq<Envelope<RecordsBody>>,
                                 delays: nat, failure: Option<string>)

  /**
    What linking one create reply does: only a reply with an empty error list is linked, and
    one without `data.records` then raises, as `for...of` over `undefined` does.
   */
  function LinkReply(rs: seq<StoredOrder>, env: Envelope<RecordsBody>): Linking
  {
    if env.errors != [] then Linking(rs, None)
    else if env.data.None? || env.data.value.records.None? then Linking(rs, Some(NotIterable))
    else LinkAll(rs, env.data.value.records.value)
  }

  /**
    The create loop from batch `i` on: send the batch, link an error-free reply, keep the
    envelope whatever it says, and wait 200 ms before every batch but the last.
   */
  function CreateFrom(rs: seq<StoredOrder>, batches: seq<seq<Payload>>, create: BatchCall, i: nat,
                      results: seq<Envelope<RecordsBody>>, delays: nat): CreateRun
    requires i <= |batches|
    decreases |batches| - i
  {
    if i == |batches| then CreateRun(rs, results, delays, None)
    else
      var env := create(i, batches[i]);
      var linked := LinkReply(rs, env);
      if linked.failure.Some? then CreateRun(linked.records, results, delays, linked.failure)
      else CreateFrom(linked.records, batches, create, i + 1, results + [env],
                      delays + (if i < |batches| - 1 then 1 else 0))
  }

  /**
    A create loop that runs to the end keeps every envelope, failed ones included, in batch
    order, and takes one delay fewer than there are batches.
   */
  lemma {:induction false} CreateFromCompletes(rs: seq<StoredOrder>, batches: seq<seq<Payload>>, create: BatchCall,
                                               i: nat, results: seq<Envelope<RecordsBody>>, delays: nat)
    requires i < |batches|
    requires CreateFrom(rs, batches, create, i, results, delays).failure.None?
    ensures var run := CreateFrom(rs, batches, create, i, results, delays);
            && |run.results| == |results| + |batches| - i
            && run.results[..|results|] == results
            && (forall j :: i <= j < |batches| ==> run.results[|results| + j - i] == create(j, batches[j]))
            && run.delays == delays + |batches| - 1 - i
    decreases |batches| - i
  {
    var env := create(i, batches[i]);
    var linked := LinkReply(rs, env);
    var run := CreateFrom(rs, batches, create, i, results, delays);
    if i + 1 < |batches| {
      assert run == CreateFrom(linked.records, batches, create, i + 1, results + [env], delays + 1);
      CreateFromCompletes(linked.records, batches, create, i + 1, results + [env], delays + 1);
      PrefixParts(run.results, results, env);
    } else {
      assert run == CreateRun(linked.records, results + [env], delays, None);
    }
  }

  lemma PrefixParts<T>(s: seq<T>, a: seq<T>, e: T)
    requires |s| > |a| && s[..|a| + 1] == a + [e]
    ensures s[..|a|] == a && s[|a|] == e
  {
    assert s[..|a|] == s[..|a| + 1][..|a|];
  }

  /** Back-references are written only from error-free replies, and only back-references. */
  lemma {:induction false} CreateFromOnlyLinks(rs: seq<StoredOrder>, batches: seq<seq<Payload>>, create: BatchCall,
                                               i: nat, results: seq<Envelope<RecordsBody>>, delays: nat)
    requires i <= |batches|
    ensures SameButLinks(rs, CreateFrom(rs, batches, create, i, results, delays).records)
    ensures (forall j :: i <= j < |batches| ==> create(j, batches[j]).errors != []) ==>
              CreateFrom(rs, batches, create, i, results, delays).records == rs &&
              CreateFrom(rs, batches, create, i, results, delays).failure.None?
    decreases |batches| - i
  {
    if i < |batches| {
      var env := create(i, batches[i]);
      var linked := LinkReply(rs, env);
      if env.errors == [] && env.data.Some? && env.data.value.records.Some? {
        LinkAllOnlyLinks(rs, env.data.value.records.value);
      }
      if linked.failure.None? {
        CreateFromOnlyLinks(linked.records, batches, create, i + 1, results + [env],
                            delays + (if i < |batches| - 1 then 1 else 0));
        SameButLinksTransitive(rs, linked.records,
                               CreateFrom(linked.records, batches, create, i + 1, results + [env],
                                          delays + (if i < |batches| - 1 then 1 else 0)).records);
      }
    }
  }

  /**
    The reply `env` has an empty error list and a row that names order `k` with `link` as its
    id.
   */
  predicate LinkedBy(rs: seq<StoredOrder>, k: nat, env: Envelope<RecordsBody>, link: Option<string>)
    requires k < |rs|
  {
    && env.errors == []
    && env.data.Some? && env.data.value.records.Some?
    && exists rec :: rec in env.data.value.records.value && Names(rs, k, rec, link)
  }

  /** Some reply to the batches from `from` on is error-free and has a row naming order `k` with `link`. */
  predicate WrittenBy(rs: seq<StoredOrder>, k: nat, batches: seq<seq<Payload>>, create: BatchCall, from: nat,
                      link: Option<string>)
    requires k < |rs|
  {
    exists j :: from <= j < |batches| && LinkedBy(rs, k, create(j, batches[j]), link)
  }

  /**
    Where the create loop writes: every back-reference it changes was written by a row of an
    error-free reply from batch `i` on, and that row names the order. A failed batch, in a mix
    with successful ones or not, writes nothing.
   */
  lemma {:induction false} CreateFromLinkSources(rs: seq<StoredOrder>, batches: seq<seq<Payload>>, create: BatchCall,
                                                 i: nat, results: seq<Envelope<RecordsBody>>, delays: nat, k: nat)
    requires i <= |batches| && k < |rs|
    ensures var run := CreateFrom(rs, batches, create, i, results, delays);
            |run.records| == |rs| &&
            (run.records[k].airTableRecordId != rs[k].airTableRecordId ==>
               WrittenBy(rs, k, batches, create, i, run.records[k].airTableRecordId))
    decreases |batches| - i
  {
    CreateFromOnlyLinks(rs, batches, create, i, results, delays);
    if i < |batches| {
      var env := create(i, batches[i]);
      var linked := LinkReply(rs, env);
      var run := CreateFrom(rs, batches, create, i, results, delays);
      var link := run.records[k].airTableRecordId;
      if env.errors == [] && env.data.Some? && env.data.value.records.Some? {
        LinkAllSources(rs, env.data.value.records.value, k);
        LinkAllOnlyLinks(rs, env.data.value.records.value);
      }
      if linked.failure.None? {
        var d := delays + (if i < |batches| - 1 then 1 else 0);
        assert run == CreateFrom(linked.records, batches, create, i + 1, results + [env], d);
        CreateFromLinkSources(linked.records, batches, create, i + 1, results + [env], d, k);
        if link != linked.records[k].airTableRecordId {
          assert WrittenBy(linked.records, k, batches, create, i + 1, link);
          var j :| i + 1 <= j < |batches| && LinkedBy(linked.records, k, create(j, batches[j]), link);
          var rec :| rec in create(j, batches[j]).data.value.records.value && Names(linked.records, k, rec, link);
          assert Names(rs, k, rec, link);
          assert LinkedBy(rs, k, create(j, batches[j]), link);
        } else if link != rs[k].airTableRecordId {
          assert LinkedBy(rs, k, env, link);
        }
      } else if link != rs[k].airTableRecordId {
        assert LinkedBy(rs, k, env, link);
      }
    }
  }

  /** An error-free reply without `data.records` stops the loop with the `for...of` TypeError. */
  lemma ReplyWithoutRecordsRaises(rs: seq<StoredOrder>, batches: seq<seq<Payload>>, create: BatchCall,
                                  i: nat, results: seq<Envelope<RecordsBody>>, delays: nat)
    requires i < |batches|
    requires create(i, batches[i]).errors == []
    requires create(i, batches[i]).data.None? || create(i, batches[i]).data.value.records.None?
    ensures CreateFrom(rs, batches, create, i, results, delays) == CreateRun(rs, results, delays, Some(NotIterable))
  {
  }

  lemma SameButLinksTransitive(a: seq<StoredOrder>, b: seq<StoredOrder>, c: seq<StoredOrder>)
    requires SameButLinks(a, b) && SameButLinks(b, c)
    ensures SameButLinks(a, c)
  {
  }

  /** The upsert loop from batch `i` on: every envelope is kept, nothing is linked. */
  function UpsertResults(batches: seq<seq<Payload>>, upsert: BatchCall, i: nat): (r: seq<Envelope<RecordsBody>>)
    requires i <= |batches|
    ensures |r| == |batches| - i
    ensures forall j :: i <= j < |batches| ==> r[j - i] == upsert(j, batches[j])
    decreases |batches| - i
  {
    if i == |batches| then [] else [upsert(i, batches[i])] + UpsertResults(batches, upsert, i + 1)
  }

  /** The stage's result: both reports (absent for an empty list), or the exception's message. */
  datatype PushResult =
    | Pushed(createResponse: Option<BatchReport>, upsertResponse: Option<BatchReport>)
    | PushFailed(message: string)

  datatype PushRun = PushRun(records: seq<StoredOrder>, result: PushResult, delays: nat)

  /** `syncAirTableWithDb()` as a whole: the new store, the result and the delays taken. */
  function Push(now: int, rs: seq<StoredOrder>, create: BatchCall, upsert: BatchCall): (r: PushRun)
    ensures Partition(now, rs).Abrupt? ==> r.records == rs
    ensures Partition(now, rs).Normal? ==>
              r.records == CreateFrom(rs, Chunks(Partition(now, rs).value.toCreate), create, 0, [], 0).records
  {
    match Partition(now, rs)
    case Abrupt(m) => PushRun(rs, PushFailed(m), 0)
    case Normal(p) =>
      var cb := Chunks(p.toCreate);
      var c := CreateFrom(rs, cb, create, 0, [], 0);
      if c.failure.Some? then PushRun(c.records, PushFailed(c.failure.value), c.delays)
      else
        var ub := Chunks(p.toUpsert);
        var createResponse := if |p.toCreate| > 0 then Some(BatchReport(|cb|, |p.toCreate|, c.results)) else None;
        var upsertResponse :=
          if |p.toUpsert| > 0 then Some(BatchReport(|ub|, |p.toUpsert|, UpsertResults(ub, upsert, 0))) else None;
        PushRun(c.records, Pushed(createResponse, upsertResponse),
                c.delays + (if |ub| > 0 then |ub| - 1 else 0))
  }

  /**
    What a completed push reports: `totalRecords` is the size of each list whether or not its
    batches succeeded, a report is absent exactly for an empty list, there are ceil(n / 10)
    batches with one result each, one delay between consecutive batches of each list, and the
    store changes in back-references only.
   */
  lemma PushReport(now: int, rs: seq<StoredOrder>, create: BatchCall, upsert: BatchCall)
    ensures SameButLinks(rs, Push(now, rs, create, upsert).records)
    ensures Push(now, rs, create, upsert).result.PushFailed? <==>
              Partition(now, rs).Abrupt? || CreateFrom(rs, Chunks(Partition(now, rs).value.toCreate), create, 0, [], 0).failure.Some?
    ensures Push(now, rs, create, upsert).result.Pushed? ==>
              var res := Push(now, rs, create, upsert).result;
              var cb := CeilDiv(|Unlinked(rs)|, BatchLimit);
              var ub := CeilDiv(|Linked(rs)|, BatchLimit);
              && (res.createResponse.None? <==> |Unlinked(rs)| == 0)
              && (res.upsertResponse.None? <==> |Linked(rs)| == 0)
              && (res.createResponse.Some? ==>
                    res.createResponse.value.totalRecords == |Unlinked(rs)| &&
                    res.createResponse.value.totalBatches == cb && |res.createResponse.value.results| == cb)
              && (res.upsertResponse.Some? ==>
                    res.upsertResponse.value.totalRecords == |Linked(rs)| &&
                    res.upsertResponse.value.totalBatches == ub && |res.upsertResponse.value.results| == ub)
              && Push(now, rs, create, upsert).delays == (if cb > 0 then cb - 1 else 0) + (if ub > 0 then ub - 1 else 0)
  {
    if Partition(now, rs).Normal? {
      var p := Partition(now, rs).value;
      PartitionFollowsLinks(now, rs);
      ChunksShape(p.toCreate);
      ChunksShape(p.toUpsert);
      var cb := Chunks(p.toCreate);
      CreateFromOnlyLinks(rs, cb, create, 0, [], 0);
      if |cb| > 0 && CreateFrom(rs, cb, create, 0, [], 0).failure.None? {
        CreateFromCompletes(rs, cb, create, 0, [], 0);
      }
    }
  }

  /**
    Where the push stage writes: a back-reference it changes comes from the reply to one of
    the create batches, error-free, with a row naming that order; the upsert side writes none.
   */
  lemma PushLinkSources(now: int, rs: seq<StoredOrder>, create: BatchCall, upsert: BatchCall, k: nat)
    requires k < |rs|
    ensures var run := Push(now, rs, create, upsert);
            |run.records| == |rs| &&
            (run.records[k].airTableRecordId != rs[k].airTableRecordId ==>
               && Partition(now, rs).Normal?
               && WrittenBy(rs, k, Chunks(Partition(now, rs).value.toCreate), create, 0, run.records[k].airTableRecordId))
  {
    var run := Push(now, rs, create, upsert);
    if Partition(now, rs).Normal? {
      var cb := Chunks(Partition(now, rs).value.toCreate);
      var c := CreateFrom(rs, cb, create, 0, [], 0);
      CreateFromLinkSources(rs, cb, create, 0, [], 0, k);
      assert run.records == c.records;
    } else {
      assert run.records == rs;
    }
  }

  /**
    `syncAirTableWithDb()` on the store: partition, chunk, create (linking the rows of each
    error-free reply), upsert. Returns the result and the number of 200 ms delays.
   */
  method SyncAirTableWithDb(store: Store, now: int, create: BatchCall, upsert: BatchCall)
    returns (r: PushResult, delays: nat)
    modifies store
    ensures PushRun(store.records, r, delays) == Push(now, old(store.records), create, upsert)
  {
    var partition := PartitionOrders(now, store.records);
    if partition.Abrupt? {
      return PushFailed(partition.message), 0;
    }
    var ordersToCreate := partition.value.toCreate;
    var orderToUpsert := partition.value.toUpsert;
    var createResponse: Option<BatchReport> := None;
    var upsertResponse: Option<BatchReport> := None;
    delays := 0;
    var createBatches := ChunkBatches(ordersToCreate);
    if |ordersToCreate| > 0 {
      var createResults, failure;
      createResults, delays, failure := PushCreates(store, createBatches, create);
      if failure.Some? {
        return PushFailed(failure.value), delays;
      }
      createResponse := Some(BatchReport(|createBatches|, |ordersToCreate|, createResults));
    }
    var upsertBatches := ChunkBatches(orderToUpsert);
    if |orderToUpsert| > 0 {
      var upsertResults, upsertDelays := PushUpserts(upsertBatches, upsert);
      delays := delays + upsertDelays;
      upsertResponse := Some(BatchReport(|upsertBatches|, |orderToUpsert|, upsertResults));
    }
    r := Pushed(createResponse, upsertResponse);
  }

  /** The create loop: one POST per batch, linking the rows of each error-free reply. */
  method PushCreates(store: Store, createBatches: seq<seq<Payload>>, create: BatchCall)
    returns (createResults: seq<Envelope<RecordsBody>>, delays: nat, failure: Option<string>)
    modifies store
    ensures CreateRun(store.records, createResults, delays, failure)
            == CreateFrom(old(store.records), createBatches, create, 0, [], 0)
  {
    createResults := [];
    delays := 0;
    var i := 0;
    while i < |createBatches|
      invariant 0 <= i <= |createBatches|
      invariant CreateFrom(old(store.records), createBatches, create, 0, [], 0)
                == CreateFrom(store.records, createBatches, create, i, createResults, delays)
    {
      var batchResult := create(i, createBatches[i]);
      if batchResult.errors == [] {
        if batchResult.data.None? || batchResult.data.value.records.None? {
          return createResults, delays, Some(NotIterable);
        }
        failure := LinkReturned(store, batchResult.data.value.records.value);
        if failure.Some? {
          return createResults, delays, failure;
        }
      }
      createResults := createResults + [batchResult];
      if i < |createBatches| - 1 {
        delays := delays + 1;
      }
      i := i + 1;
    }
    failure := None;
  }

  /** The upsert loop: one PATCH per batch; every envelope is kept. */
  method PushUpserts(upsertBatches: seq<seq<Payload>>, upsert: BatchCall)
    returns (upsertResults: seq<Envelope<RecordsBody>>, delays: nat)
    ensures upsertResults == UpsertResults(upsertBatches, upsert, 0)
    ensures delays == (if |upsertBatches| > 0 then |upsertBatches| - 1 else 0)
  {
    upsertResults := [];
    delays := 0;
    var i := 0;
    while i < |upsertBatches|
      invariant 0 <= i <= |upsertBatches|
      invariant |upsertResults| == i
      invariant forall j :: 0 <= j < i ==> upsertResults[j] == upsert(j, upsertBatches[j])
      invariant delays == (if i == 0 then 0 else if i < |upsertBatches| then i else |upsertBatches| - 1)
    {
      upsertResults := upsertResults + [upsert(i, upsertBatches[i])];
      if i < |upsertBatches| - 1 {
        delays := delays + 1;
      }
      i := i + 1;
    }
    assert forall j :: 0 <= j < |upsertBatches| ==> UpsertResults(upsertBatches, upsert, 0)[j] == upsertResults[j];
  }

  /** The `for...of` over one create reply's rows, writing back-references into the store. */
  method LinkReturned(store: Store, recs: seq<ReturnedRecord>) returns (failure: Option<string>)
    modifies store
    ensures Linking(store.records, failure) == LinkAll(old(store.records), recs)
  {
    var i := 0;
    while i < |recs|
      invariant 0 <= i <= |recs|
      invariant LinkAll(old(store.records), recs) == LinkAll(store.records, recs[i..])
    {
      assert recs[i..][1..] == recs[i + 1..];
      var bRecord := recs[i];
      if bRecord.orderNumber.None? {
        return Some(SplitOfUndefined);
      }
      var k := IndexOfLegacyId(store.records, ExtractNumberAfterDash(bRecord.orderNumber.value));
      if k >= 0 {
        store.records := store.records[k := store.records[k].(airTableRecordId := bRecord.id)];
      }
      i := i + 1;
    }
    assert recs[i..] == [];
    failure := None;
  }
}
