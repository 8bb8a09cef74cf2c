/**
  The order as the upstream GraphQL query returns it and as the intermediate store keeps it
  (the field list of models/Order.js). Timestamps are milliseconds since the epoch.
 */
module OrderModel {
  import opened Wrappers

  /**
    A timestamp field as the derivation code meets it: `Missing` is `null`, `undefined` or the
    empty string (all falsy), `Unparseable` is a non-empty value `new Date` cannot read, and
    `At(ms)` a valid instant.
   */
  datatype Stamp = Missing | Unparseable | At(ms: int)

  /** One fulfillment event: `{status, message}`. */
  datatype Event = Event(status: Option<string>, message: Option<string>)

  /**
    One fulfillment: `inTransitAt`, `deliveredAt`, the `trackingInfo[].number` list and
    `events.nodes`, which is `None` when the `events` connection is absent.
   */
  datatype Fulfillment = Fulfillment(
    inTransitAt: Stamp,
    deliveredAt: Stamp,
    trackingNumbers: seq<Option<string>>,
    events: Option<seq<Event>>)

  /** `customer { defaultEmailAddress { emailAddress } defaultPhoneNumber { phoneNumber } displayName }` */
  datatype Customer = Customer(email: Option<string>, phone: Option<string>, displayName: Option<string>)

  datatype Metafield = Metafield(key: string, value: string)

  /** One node of the upstream `orders` connection. */
  datatype UpstreamOrder = UpstreamOrder(
    id: string,
    name: string,
    legacyResourceId: string,
    metafields: seq<Metafield>,
    customer: Option<Customer>,
    displayFinancialStatus: Option<string>,
    displayFulfillmentStatus: Option<string>,
    createdAt: int,
    fulfillments: seq<Fulfillment>,
    statusPageUrl: Option<string>)

  /** A record of the intermediate store, with the three downstream back-reference fields. */
  datatype StoredOrder = StoredOrder(
    id: string,
    name: string,
    legacyResourceId: string,
    customer: Option<Customer>,
    displayFinancialStatus: Option<string>,
    createdAt: int,
    fulfillments: seq<Fulfillment>,
    displayFulfillmentStatus: Option<string>,
    statusPageUrl: Option<string>,
    airTableRecordId: Option<string>,
    airTableTableName: Option<string>,
    airTableApiId: Option<string>,
    metafields: seq<Metafield>)

  /** JavaScript truthiness of the `airTableRecordId` back-reference. */
  predicate HasRecordId(o: StoredOrder)
  {
    o.airTableRecordId.Some? && o.airTableRecordId.value != ""
  }
}
