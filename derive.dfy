/**
  Field derivation: the deterministic functions that turn a stored order into the columns of
  the downstream table ("Order Number", "Order Age - In Days", "Transit At - In Days", ...),
  and the create / update payload shapes built from them. `now` is the wall clock in
  milliseconds.
 */
module Derive {
  import opened Wrappers
  import opened Text
  import opened OrderModel

  const MillisPerDay: nat := 1000 * 60 * 60 * 24

  /** Message of the TypeError V8 raises for `failedCount++` on a `const`. */
  const AssignToConstant := "Assignment to constant variable."
  /** Message of the TypeError raised by `events[NaN]` when `events.nodes` is absent. */
  const ReadOfUndefined := "Cannot read properties of undefined (reading 'NaN')"

  function Abs(x: int): nat { if x < 0 then -x else x }

  /** `Math.ceil(Math.abs(now - t) / 86400000)`: the whole days needed to cover the gap. */
  function DaysBetween(now: int, t: int): (d: nat)
    ensures d * MillisPerDay >= Abs(now - t)
    ensures d > 0 ==> (d - 1) * MillisPerDay < Abs(now - t)
  {
    (Abs(now - t) + MillisPerDay - 1) / MillisPerDay
  }

  /** `getOrderAgeInDays` */
  function OrderAgeInDays(now: int, o: StoredOrder): nat
  {
    DaysBetween(now, o.createdAt)
  }

  /** The age is zero exactly when the order was created at `now`, and at least one day otherwise. */
  lemma OrderAgeZeroIffNow(now: int, o: StoredOrder)
    ensures OrderAgeInDays(now, o) == 0 <==> now == o.createdAt
    ensures now != o.createdAt ==> OrderAgeInDays(now, o) >= 1
  {
    var d := OrderAgeInDays(now, o);
    if d == 0 {
      assert d * MillisPerDay == 0;
    }
  }

  // ---------------------------------------------------------------------------------------
  // Order number: composed as `name-legacyResourceId`, split back by extractNumberAfterDash
  // ---------------------------------------------------------------------------------------

  /** `getOrderNumber` */
  function OrderNumber(name: string, legacyResourceId: string): string
  {
    name + "-" + legacyResourceId
  }

  /** `extractNumberAfterDash`: the second piece of `s.split('-')`, or `null` when there is one piece. */
  function ExtractNumberAfterDash(s: string): Option<string>
  {
    var parts := Split(s, '-');
    if |parts| > 1 then Some(parts[1]) else None
  }

  /** The extraction fails exactly when the string holds no dash. */
  lemma ExtractNoneIffNoDash(s: string)
    ensures ExtractNumberAfterDash(s).None? <==> '-' !in s
  {
    var i := IndexOf(s, '-');
    if i == -1 {
      assert Split(s, '-') == [s];
    } else {
      var rest := Split(s[i + 1..], '-');
      assert Split(s, '-') == [s[..i]] + rest;
      assert |Split(s, '-')| == 1 + |rest|;
    }
  }

  /** With a dash present, the result is the text between the first dash and the next one (or the end). */
  lemma ExtractBetweenDashes(s: string)
    requires '-' in s
    ensures var rest := s[IndexOf(s, '-') + 1..];
            var j := IndexOf(rest, '-');
            ExtractNumberAfterDash(s) == Some(if j == -1 then rest else rest[..j])
  {
    var i := IndexOf(s, '-');
    var rest := s[i + 1..];
    SplitStep(s, '-');
    SplitStep(rest, '-');
    assert Split(s, '-')[1] == Split(rest, '-')[0];
  }

  /** Composing then extracting gives back the legacy id when neither part holds a dash. */
  lemma {:induction false} OrderNumberRoundTrip(name: string, legacyResourceId: string)
    requires '-' !in name && '-' !in legacyResourceId
    ensures ExtractNumberAfterDash(OrderNumber(name, legacyResourceId)) == Some(legacyResourceId)
  {
    var s := OrderNumber(name, legacyResourceId);
    IndexOfPastPrefix(name, legacyResourceId);
    assert s[|name| + 1..] == legacyResourceId;
    ExtractBetweenDashes(s);
  }

  lemma {:induction false} IndexOfPastPrefix(name: string, rest: string)
    requires '-' !in name
    ensures IndexOf(name + "-" + rest, '-') == |name|
  {
    if |name| > 0 {
      assert (name + "-" + rest)[1..] == name[1..] + "-" + rest;
      IndexOfPastPrefix(name[1..], rest);
    }
  }

  /** A dash inside the name makes the extraction return the part of the name after that dash. */
  lemma DashInNameBreaksRoundTrip(before: string, after: string, legacyResourceId: string)
    requires '-' !in before && '-' !in after
    ensures ExtractNumberAfterDash(OrderNumber(before + "-" + after, legacyResourceId)) == Some(after)
  {
    var s := OrderNumber(before + "-" + after, legacyResourceId);
    var rest := after + "-" + legacyResourceId;
    assert s == before + "-" + rest;
    IndexOfPastPrefix(before, rest);
    assert s[|before| + 1..] == rest;
    IndexOfPastPrefix(after, legacyResourceId);
    assert rest[..|after|] == after;
    ExtractBetweenDashes(s);
  }

  // ---------------------------------------------------------------------------------------
  // Transit and delivered ages: maxima over the fulfillments' timestamps
  // ---------------------------------------------------------------------------------------

  /** `Math.max(...xs)` over a non-empty list of day counts. */
  function MaxOf(xs: seq<nat>): (m: nat)
    requires |xs| > 0
    ensures m in xs
    ensures forall k :: 0 <= k < |xs| ==> xs[k] <= m
  {
    if |xs| == 1 then xs[0]
    else
      var rest := MaxOf(xs[1..]);
      assert forall k :: 1 <= k < |xs| ==> xs[k] == xs[1..][k - 1];
      if xs[0] >= rest then xs[0] else rest
  }

  /**
    The day counts that survive getTransitAtInDays' filters: `null`/`undefined` are dropped
    before the date arithmetic and unparseable dates (NaN) after it.
   */
  function TransitDayCounts(now: int, fs: seq<Fulfillment>): seq<nat>
  {
    if fs == [] then []
    else (if fs[0].inTransitAt.At? then [DaysBetween(now, fs[0].inTransitAt.ms)] else [])
         + TransitDayCounts(now, fs[1..])
  }

  lemma {:induction false} TransitDayCountsMembers(now: int, fs: seq<Fulfillment>)
    ensures forall k :: 0 <= k < |fs| && fs[k].inTransitAt.At? ==>
              DaysBetween(now, fs[k].inTransitAt.ms) in TransitDayCounts(now, fs)
    ensures forall d :: d in TransitDayCounts(now, fs) ==>
              exists k :: 0 <= k < |fs| && fs[k].inTransitAt.At? && d == DaysBetween(now, fs[k].inTransitAt.ms)
  {
    if fs != [] {
      TransitDayCountsMembers(now, fs[1..]);
      assert forall k :: 1 <= k < |fs| ==> fs[k] == fs[1..][k - 1];
      forall d | d in TransitDayCounts(now, fs)
        ensures exists k :: 0 <= k < |fs| && fs[k].inTransitAt.At? && d == DaysBetween(now, fs[k].inTransitAt.ms)
      {
        if d !in TransitDayCounts(now, fs[1..]) {
          assert fs[0].inTransitAt.At? && d == DaysBetween(now, fs[0].inTransitAt.ms);
        } else {
          var k :| 0 <= k < |fs[1..]| && fs[1..][k].inTransitAt.At? && d == DaysBetween(now, fs[1..][k].inTransitAt.ms);
          assert fs[k + 1] == fs[1..][k];
        }
      }
    }
  }

  /**
    `getTransitAtInDays`: `null` when the fulfillments are absent or no in-transit timestamp is a
    valid date; otherwise the largest of the per-fulfillment day counts.
   */
  function TransitAtInDays(now: int, fs: Option<seq<Fulfillment>>): (r: Option<nat>)
    ensures r.None? <==> fs.None? || forall k :: 0 <= k < |fs.value| ==> !fs.value[k].inTransitAt.At?
    ensures r.Some? ==> forall k :: 0 <= k < |fs.value| && fs.value[k].inTransitAt.At? ==>
                          DaysBetween(now, fs.value[k].inTransitAt.ms) <= r.value
    ensures r.Some? ==> exists k :: 0 <= k < |fs.value| && fs.value[k].inTransitAt.At? &&
                          DaysBetween(now, fs.value[k].inTransitAt.ms) == r.value
  {
    if fs.None? then None
    else
      var days := TransitDayCounts(now, fs.value);
      TransitDayCountsMembers(now, fs.value);
      if |days| == 0 then None
      else
        var m := MaxOf(days);
        assert forall k :: 0 <= k < |fs.value| && fs.value[k].inTransitAt.At? ==>
                 DaysBetween(now, fs.value[k].inTransitAt.ms) <= m by {
          forall k | 0 <= k < |fs.value| && fs.value[k].inTransitAt.At?
            ensures DaysBetween(now, fs.value[k].inTransitAt.ms) <= m
          {
            var d := DaysBetween(now, fs.value[k].inTransitAt.ms);
            var j :| 0 <= j < |days| && days[j] == d;
          }
        }
        Some(m)
  }

  /** A day count as JavaScript produces it: a number, or NaN from an unparseable date. */
  datatype DayCount = NotANumber | Days(n: nat)

  /**
    The entries getDeliveredAtInDays keeps: only falsy `deliveredAt` values are skipped; an
    unparseable one becomes NaN and stays.
   */
  function DeliveredDayCounts(now: int, fs: seq<Fulfillment>): seq<DayCount>
  {
    if fs == [] then []
    else (match fs[0].deliveredAt
          case Missing => []
          case Unparseable => [NotANumber]
          case At(t) => [Days(DaysBetween(now, t))])
         + DeliveredDayCounts(now, fs[1..])
  }

  /** `Math.max` over day counts: NaN as soon as one entry is NaN. */
  function MaxDayCount(xs: seq<DayCount>): (m: DayCount)
    requires |xs| > 0
    ensures m == NotANumber <==> NotANumber in xs
    ensures m.Days? ==> m in xs && forall k :: 0 <= k < |xs| ==> xs[k].n <= m.n
  {
    if |xs| == 1 then xs[0]
    else
      var rest := MaxDayCount(xs[1..]);
      assert forall k :: 1 <= k < |xs| ==> xs[k] == xs[1..][k - 1];
      if xs[0] == NotANumber || rest == NotANumber then NotANumber
      else if xs[0].n >= rest.n then xs[0] else rest
  }

  lemma {:induction false} DeliveredDayCountsMembers(now: int, fs: seq<Fulfillment>)
    ensures (NotANumber in DeliveredDayCounts(now, fs)) <==>
              exists k :: 0 <= k < |fs| && fs[k].deliveredAt == Unparseable
    ensures forall n: nat :: Days(n) in DeliveredDayCounts(now, fs) <==>
              exists k :: 0 <= k < |fs| && fs[k].deliveredAt.At? && n == DaysBetween(now, fs[k].deliveredAt.ms)
    ensures |DeliveredDayCounts(now, fs)| == 0 <==> forall k :: 0 <= k < |fs| ==> fs[k].deliveredAt == Missing
  {
    if fs != [] {
      DeliveredDayCountsMembers(now, fs[1..]);
      assert forall k :: 1 <= k < |fs| ==> fs[k] == fs[1..][k - 1];
      forall n: nat
        ensures (exists k :: 0 <= k < |fs| && fs[k].deliveredAt.At? && n == DaysBetween(now, fs[k].deliveredAt.ms))
            ==> Days(n) in DeliveredDayCounts(now, fs)
      {
        if exists k :: 0 <= k < |fs| && fs[k].deliveredAt.At? && n == DaysBetween(now, fs[k].deliveredAt.ms) {
          var k :| 0 <= k < |fs| && fs[k].deliveredAt.At? && n == DaysBetween(now, fs[k].deliveredAt.ms);
          if k > 0 { assert fs[1..][k - 1] == fs[k]; }
        }
      }
      if exists k :: 0 <= k < |fs| && fs[k].deliveredAt == Unparseable {
        var k :| 0 <= k < |fs| && fs[k].deliveredAt == Unparseable;
        if k > 0 { assert fs[1..][k - 1] == fs[k]; }
      }
    }
  }

  /**
    `getDeliveredAtInDays`: `null` when the fulfillments are absent or every `deliveredAt` is
    falsy; NaN as soon as one remaining timestamp is unparseable (it is never filtered out,
    unlike the transit variant); otherwise the largest day count.
   */
  function DeliveredAtInDays(now: int, fs: Option<seq<Fulfillment>>): (r: Option<DayCount>)
    ensures r.None? <==> fs.None? || forall k :: 0 <= k < |fs.value| ==> fs.value[k].deliveredAt == Missing
    ensures r == Some(NotANumber) <==>
              fs.Some? && exists k :: 0 <= k < |fs.value| && fs.value[k].deliveredAt == Unparseable
    ensures r.Some? && r.value.Days? ==>
              (forall k :: 0 <= k < |fs.value| && fs.value[k].deliveredAt.At? ==>
                 DaysBetween(now, fs.value[k].deliveredAt.ms) <= r.value.n) &&
              (exists k :: 0 <= k < |fs.value| && fs.value[k].deliveredAt.At? &&
                 DaysBetween(now, fs.value[k].deliveredAt.ms) == r.value.n)
  {
    if fs.None? then None
    else
      var days := DeliveredDayCounts(now, fs.value);
      DeliveredDayCountsMembers(now, fs.value);
      if |days| == 0 then None
      else
        var m := MaxDayCount(days);
        assert m.Days? ==> forall k :: 0 <= k < |fs.value| && fs.value[k].deliveredAt.At? ==>
                 DaysBetween(now, fs.value[k].deliveredAt.ms) <= m.n by {
          if m.Days? {
            forall k | 0 <= k < |fs.value| && fs.value[k].deliveredAt.At?
              ensures DaysBetween(now, fs.value[k].deliveredAt.ms) <= m.n
            {
              var d := Days(DaysBetween(now, fs.value[k].deliveredAt.ms));
              assert d in days;
              var j :| 0 <= j < |days| && days[j] == d;
            }
          }
        }
        Some(m)
  }

  // ---------------------------------------------------------------------------------------
  // Order stage and delivery-failure status: folds over the fulfillments
  // ---------------------------------------------------------------------------------------

  /** `events?.length > 0` */
  predicate HasEvents(f: Fulfillment)
  {
    f.events.Some? && |f.events.value| > 0
  }

  /** `events[events.length - 1]?.status` for a fulfillment with events. */
  function LastStatus(f: Fulfillment): Option<string>
    requires HasEvents(f)
  {
    f.events.value[|f.events.value| - 1].status
  }

  /** Index of the last fulfillment that has events, or -1. */
  function LastWithEvents(fs: seq<Fulfillment>): (r: int)
    ensures -1 <= r < |fs|
    ensures r >= 0 ==> HasEvents(fs[r])
    ensures forall j :: r < j < |fs| ==> !HasEvents(fs[j])
  {
    if |fs| == 0 then -1
    else if HasEvents(fs[|fs| - 1]) then |fs| - 1
    else LastWithEvents(fs[..|fs| - 1])
  }

  /** `orderStage ? orderStage : null`: `null`, `undefined` and the empty string all give `null`. */
  function Truthy(s: Option<string>): (r: Option<string>)
  {
    if s.Some? && s.value != "" then s else None
  }

  /**
    The order stage: the status of the last event of the last fulfillment (in iteration order)
    that has events, or `null` when there is none or that status is falsy.
   */
  function OrderStage(fs: Option<seq<Fulfillment>>): Option<string>
  {
    if fs.None? then None
    else
      var k := LastWithEvents(fs.value);
      if k == -1 then None else Truthy(LastStatus(fs.value[k]))
  }

  /** `getOrderStage`: the `forEach` that overwrites `orderStage` for every fulfillment with events. */
  method GetOrderStage(fulfillments: Option<seq<Fulfillment>>) returns (stage: Option<string>)
    ensures stage == OrderStage(fulfillments)
  {
    if fulfillments.None? {
      return None;
    }
    var fs := fulfillments.value;
    var orderStage: Option<string> := None;
    var i := 0;
    while i < |fs|
      invariant 0 <= i <= |fs|
      invariant var k := LastWithEvents(fs[..i]);
                orderStage == if k == -1 then None else LastStatus(fs[k])
    {
      assert fs[..i + 1][..i] == fs[..i];
      if HasEvents(fs[i]) {
        orderStage := LastStatus(fs[i]);
      }
      i := i + 1;
    }
    assert fs[..i] == fs;
    stage := Truthy(orderStage);
  }

  /** The statuses counted as a failed delivery. */
  predicate IsFailureStatus(s: Option<string>)
  {
    s == Some("FAILED") || s == Some("FAILURE")
  }

  /**
    A fulfillment at which checkIfOrderDeliveryIsFailed raises: its `events.nodes` is absent
    (the index read fails) or its last event is a failure (the `const` counter cannot be
    incremented). An empty event list reads `undefined` and is passed over.
   */
  predicate Raises(f: Fulfillment)
  {
    f.events.None? || (HasEvents(f) && IsFailureStatus(LastStatus(f)))
  }

  function RaisedMessage(f: Fulfillment): string
  {
    if f.events.None? then ReadOfUndefined else AssignToConstant
  }

  /** Index of the first fulfillment that raises, or -1. */
  function FirstRaising(fs: seq<Fulfillment>): (r: int)
    ensures -1 <= r < |fs|
    ensures r >= 0 ==> Raises(fs[r])
    ensures forall j :: 0 <= j < |fs| && (r == -1 || j < r) ==> !Raises(fs[j])
  {
    if |fs| == 0 then -1
    else if Raises(fs[0]) then 0
    else
      var k := FirstRaising(fs[1..]);
      assert forall j :: 1 <= j < |fs| ==> fs[j] == fs[1..][j - 1];
      if k == -1 then -1 else k + 1
  }

  /** What checkIfOrderDeliveryIsFailed completes with, as written. */
  function DeliveryFailedStatus(fs: Option<seq<Fulfillment>>): Completion<Option<string>>
  {
    if fs.None? then Normal(None)
    else
      var k := FirstRaising(fs.value);
      if k == -1 then Normal(None) else Abrupt(RaisedMessage(fs.value[k]))
  }

  /**
    `checkIfOrderDeliveryIsFailed`: the `forEach` over the fulfillments. The counter is declared
    `const`, so reaching the increment raises and only the `null` branch can return.
   */
  method CheckIfOrderDeliveryIsFailed(fulfillments: Option<seq<Fulfillment>>)
    returns (r: Completion<Option<string>>)
    ensures r == DeliveryFailedStatus(fulfillments)
  {
    if fulfillments.None? {
      return Normal(None);
    }
    var fs := fulfillments.value;
    var i := 0;
    while i < |fs|
      invariant 0 <= i <= |fs|
      invariant forall j :: 0 <= j < i ==> !Raises(fs[j])
    {
      var events := fs[i].events;
      if events.None? {
        return Abrupt(ReadOfUndefined);
      }
      if |events.value| > 0 && IsFailureStatus(events.value[|events.value| - 1].status) {
        return Abrupt(AssignToConstant);
      }
      i := i + 1;
    }
    r := Normal(None);
  }

  /**
    The classification never yields 'Failed' or 'Partially Failed', and it returns (with
    `null`) exactly when every fulfillment has an event list and none ends in a failure status.
   */
  lemma DeliveryFailedOnlyNullOrRaises(fs: seq<Fulfillment>)
    ensures DeliveryFailedStatus(Some(fs)) != Normal(Some("Failed"))
    ensures DeliveryFailedStatus(Some(fs)) != Normal(Some("Partially Failed"))
    ensures DeliveryFailedStatus(Some(fs)) == Normal(None) <==>
              forall k :: 0 <= k < |fs| ==>
                fs[k].events.Some? && !(HasEvents(fs[k]) && IsFailureStatus(LastStatus(fs[k])))
  {
  }

  // ---------------------------------------------------------------------------------------
  // The payload shapes
  // ---------------------------------------------------------------------------------------

  /** The fourteen columns of the downstream table. */
  datatype Fields = Fields(
    orderNumber: string,            // "Order Number"
    remarks: string,                // "Fulfillment Team Remarks"
    phone: Option<string>,          // "Phone"
    email: Option<string>,          // "Email"
    paymentStatus: Option<string>,  // "Payment Status"
    customerName: Option<string>,   // "Customer Name"
    ageInDays: nat,                 // "Order Age - In Days"
    trackingNumber: string,         // "Tracking Number"
    fulfillmentStatus: Option<string>,  // "Fulfillment Status"
    linkToOrder: Option<string>,    // "Link To Order "
    transitInDays: Option<nat>,     // "Transit At - In Days"
    deliveredInDays: Option<DayCount>,  // "Delivered At - In Days"
    deliveryFailed: Option<string>, // "Delivery Failed Status"
    orderStage: Option<string>)     // "Order Stage"

  /** `{id?, fields}`: the create shape has no `id`. */
  datatype Payload = Payload(id: Option<string>, fields: Fields)

  /** `null` and `undefined` array elements render as the empty string in `join`. */
  function Rendered(s: Option<string>): string
  {
    s.GetOr("")
  }

  /**
    The event messages across all fulfillments in order; a fulfillment without an event list
    contributes one `undefined` element.
   */
  function EventMessages(fs: seq<Fulfillment>): seq<string>
  {
    if fs == [] then []
    else (if fs[0].events.None? then [""] else MessagesOf(fs[0].events.value)) + EventMessages(fs[1..])
  }

  function MessagesOf(es: seq<Event>): (ms: seq<string>)
    ensures |ms| == |es|
    ensures forall k :: 0 <= k < |es| ==> ms[k] == Rendered(es[k].message)
  {
    if es == [] then [] else [Rendered(es[0].message)] + MessagesOf(es[1..])
  }

  function TrackingNumbers(fs: seq<Fulfillment>): seq<string>
  {
    if fs == [] then []
    else RenderAll(fs[0].trackingNumbers) + TrackingNumbers(fs[1..])
  }

  function RenderAll(xs: seq<Option<string>>): (ys: seq<string>)
    ensures |ys| == |xs|
    ensures forall k :: 0 <= k < |xs| ==> ys[k] == Rendered(xs[k])
  {
    if xs == [] then [] else [Rendered(xs[0])] + RenderAll(xs[1..])
  }

  /** `transformedDbOrderToCreateAirTableOrder`; it raises when the delivery classification raises. */
  function CreatePayload(now: int, o: StoredOrder): Completion<Payload>
  {
    match DeliveryFailedStatus(Some(o.fulfillments))
    case Abrupt(m) => Abrupt(m)
    case Normal(failed) =>
      Normal(Payload(None, Fields(
        OrderNumber(o.name, o.legacyResourceId),
        Join(EventMessages(o.fulfillments), ", "),
        if o.customer.Some? then o.customer.value.phone else None,
        if o.customer.Some? then o.customer.value.email else None,
        o.displayFinancialStatus,
        if o.customer.Some? then o.customer.value.displayName else None,
        OrderAgeInDays(now, o),
        Join(TrackingNumbers(o.fulfillments), ", "),
        o.displayFulfillmentStatus,
        o.statusPageUrl,
        TransitAtInDays(now, Some(o.fulfillments)),
        DeliveredAtInDays(now, Some(o.fulfillments)),
        failed,
        OrderStage(Some(o.fulfillments)))))
  }

  /** `transformedDbOrderToUpdateAirTableOrder`: the create shape with `id` set to the back-reference. */
  function UpdatePayload(now: int, o: StoredOrder): Completion<Payload>
  {
    match CreatePayload(now, o)
    case Abrupt(m) => Abrupt(m)
    case Normal(p) => Normal(p.(id := o.airTableRecordId))
  }

  /**
    The two shapes raise together; when they return, the update shape carries exactly the create
    shape's fields plus `id = airTableRecordId`, and the create shape carries no id.
   */
  lemma UpdateIsCreatePlusId(now: int, o: StoredOrder)
    ensures UpdatePayload(now, o).Normal? <==> CreatePayload(now, o).Normal?
    ensures CreatePayload(now, o).Normal? ==>
              CreatePayload(now, o).value.id.None? &&
              UpdatePayload(now, o).value.fields == CreatePayload(now, o).value.fields &&
              UpdatePayload(now, o).value.id == o.airTableRecordId
  {
  }

  /**
    A single fulfillment whose last event is FAILED or FAILURE makes both shapes raise, so the
    order can never be pushed; the "Order Number" of a returned shape always splits back to the
    legacy id when neither part holds a dash.
   */
  lemma CreatePayloadProperties(now: int, o: StoredOrder)
    ensures (exists k :: 0 <= k < |o.fulfillments| && HasEvents(o.fulfillments[k]) &&
               IsFailureStatus(LastStatus(o.fulfillments[k]))) ==> CreatePayload(now, o).Abrupt?
    ensures CreatePayload(now, o).Normal? && '-' !in o.name && '-' !in o.legacyResourceId ==>
              ExtractNumberAfterDash(CreatePayload(now, o).value.fields.orderNumber) == Some(o.legacyResourceId)
    ensures CreatePayload(now, o).Normal? ==> CreatePayload(now, o).value.fields.deliveryFailed.None?
  {
    if '-' !in o.name && '-' !in o.legacyResourceId {
      OrderNumberRoundTrip(o.name, o.legacyResourceId);
    }
  }

  /** With one fulfillment, the remarks column is its events' messages joined by ", ". */
  lemma RemarksOfOneFulfillment(now: int, o: StoredOrder)
    requires |o.fulfillments| == 1 && o.fulfillments[0].events.Some?
    ensures CreatePayload(now, o).Normal? ==>
              CreatePayload(now, o).value.fields.remarks == Join(MessagesOf(o.fulfillments[0].events.value), ", ")
  {
    assert o.fulfillments[1..] == [];
    assert EventMessages(o.fulfillments) == MessagesOf(o.fulfillments[0].events.value) + [];
    assert MessagesOf(o.fulfillments[0].events.value) + [] == MessagesOf(o.fulfillments[0].events.value);
  }

  /** The remarks column is empty when no fulfillment carries an event. */
  lemma {:induction false} RemarksEmptyWithoutEvents(fs: seq<Fulfillment>)
    requires forall k :: 0 <= k < |fs| ==> fs[k].events == Some([])
    ensures Join(EventMessages(fs), ", ") == ""
  {
    assert EventMessages(fs) == [] by {
      NoMessages(fs);
    }
  }

  lemma {:induction false} NoMessages(fs: seq<Fulfillment>)
    requires forall k :: 0 <= k < |fs| ==> fs[k].events == Some([])
    ensures EventMessages(fs) == []
  {
    if fs != [] {
      assert forall k :: 0 <= k < |fs[1..]| ==> fs[1..][k] == fs[k + 1];
      NoMessages(fs[1..]);
    }
  }
}
