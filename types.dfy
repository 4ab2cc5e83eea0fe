/**
 * Core value types: session kinds, roles, the traded item and offers,
 * with their dictionary forms, and the plain session record
 * `SessionContext`.
 */
module Types {
  import opened Wrappers
  import opened Json
  import Text

  /** A clock reading. The model counts ticks; the source uses datetimes. */
  type Timestamp = nat

  /** `datetime.isoformat()`: in the model, the decimal text of the tick count. */
  function IsoFormat(t: Timestamp): (r: string)
    ensures r != [] && forall i :: 0 <= i < |r| ==> Text.IsDigit(r[i])
  {
    Text.DecimalText(t)
  }

  /** `datetime.fromisoformat(s)`: None where the source raises ValueError. */
  function FromIsoFormat(s: string): Option<Timestamp> {
    Text.ParseDecimal(s)
  }

  lemma IsoRoundTrip(t: Timestamp)
    ensures FromIsoFormat(IsoFormat(t)) == Some(t)
  {
    Text.ParseDecimalText(t);
  }

  /** Reads a JSON value as a timestamp the way `fromisoformat` would. */
  function ParseTimestamp(j: Json): (r: Result<Timestamp>)
    ensures r.Success? <==> j.JStr? && FromIsoFormat(j.s).Some?
    ensures r.Success? ==> FromIsoFormat(j.s) == Some(r.value)
  {
    if !j.JStr? then Failure("TypeError: fromisoformat")
    else match FromIsoFormat(j.s)
      case None => Failure("ValueError: Invalid isoformat string")
      case Some(t) => Success(t)
  }

  datatype SessionType = Negotiation | ReverseAuction {
    function Value(): string {
      match this
      case Negotiation => "negotiation"
      case ReverseAuction => "reverse_auction"
    }
  }

  /** `SessionType(s)`: None where the source raises ValueError. */
  function SessionTypeFromValue(s: string): (r: Option<SessionType>)
    ensures r.Some? <==> s in {"negotiation", "reverse_auction"}
    ensures r.Some? ==> r.value.Value() == s
  {
    if s == "negotiation" then Some(Negotiation)
    else if s == "reverse_auction" then Some(ReverseAuction)
    else None
  }

  datatype AgentRole = Buyer | Seller {
    function Value(): string {
      match this
      case Buyer => "buyer"
      case Seller => "seller"
    }
  }

  function AgentRoleFromValue(s: string): (r: Option<AgentRole>)
    ensures r.Some? <==> s in {"buyer", "seller"}
    ensures r.Some? ==> r.value.Value() == s
  {
    if s == "buyer" then Some(Buyer) else if s == "seller" then Some(Seller) else None
  }

  /** Every enum value parses back to itself. */
  lemma EnumRoundTrips(t: SessionType, a: AgentRole)
    ensures SessionTypeFromValue(t.Value()) == Some(t)
    ensures AgentRoleFromValue(a.Value()) == Some(a)
  {
  }

  /** The product or service being traded. */
  datatype Item = Item(id: string, name: string, description: string, category: Option<string>, metadata: Object)

  function ItemToDict(i: Item): (r: Object)
    ensures r.Keys == {"id", "name", "description", "category", "metadata"}
  {
    map[
      "id" := JStr(i.id),
      "name" := JStr(i.name),
      "description" := JStr(i.description),
      "category" := OptStr(i.category),
      "metadata" := JObj(i.metadata)]
  }

  /** `Item.from_dict`: `id`, `name` and `description` are required; the rest default. */
  function ItemFromDict(d: Object): (r: Result<Item>)
    ensures r.Success? <==> && "id" in d && d["id"].JStr? && "name" in d && d["name"].JStr?
                            && "description" in d && d["description"].JStr?
                            && (Get(d, "category").JNull? || Get(d, "category").JStr?)
                            && GetOr(d, "metadata", JObj(map[])).JObj?
    ensures r.Success? ==> && d["id"] == JStr(r.value.id) && d["name"] == JStr(r.value.name)
                           && d["description"] == JStr(r.value.description)
                           && Get(d, "category") == OptStr(r.value.category)
                           && GetOr(d, "metadata", JObj(map[])) == JObj(r.value.metadata)
    ensures r.Success? && "category" !in d ==> r.value.category.None?
    ensures r.Success? && "metadata" !in d ==> r.value.metadata == map[]
    ensures "id" !in d || "name" !in d || "description" !in d ==> r.Failure?
  {
    var id :- RequireStr(d, "id");
    var name :- RequireStr(d, "name");
    var description :- RequireStr(d, "description");
    var category :- OptionalStr(d, "category");
    var metadata :- ObjectField(d, "metadata");
    Success(Item(id, name, description, category, metadata))
  }

  lemma {:induction false} ItemRoundTrip(i: Item)
    ensures ItemFromDict(ItemToDict(i)) == Success(i)
  {
    var d := ItemToDict(i);
    assert RequireStr(d, "id") == Success(i.id);
    assert RequireStr(d, "name") == Success(i.name);
    assert RequireStr(d, "description") == Success(i.description);
    assert OptionalStr(d, "category") == Success(i.category);
    assert ObjectField(d, "metadata") == Success(i.metadata);
  }

  /** A price proposal. Prices are whole numbers in the model. */
  datatype Offer = Offer(
    offerId: string,
    price: int,
    itemId: string,
    message: Option<string>,
    timestamp: Timestamp,
    metadata: Object,
    sender: Option<string>,
    recipient: Option<string>,
    signature: Option<string>)

  const OfferIdPrefix := "offer-"

  /**
   * `Offer.create`: a fresh identifier `offer-` + twelve hex digits, the
   * current time, `metadata or {}`, and no addressing or signature.
   */
  function OfferCreate(price: int, itemId: string, message: Option<string>, metadata: Option<Object>, idSuffix: string, now: Timestamp): (o: Offer)
    requires Text.IsHexId(idSuffix)
    ensures o.offerId == OfferIdPrefix + idSuffix && |o.offerId| == 18
    ensures o.price == price && o.itemId == itemId && o.message == message && o.timestamp == now
    ensures o.metadata == (if metadata.Some? then metadata.value else map[])
    ensures o.sender.None? && o.recipient.None? && o.signature.None?
  {
    Offer(OfferIdPrefix + idSuffix, price, itemId, message, now,
      if metadata.Some? && metadata.value != map[] then metadata.value else map[], None, None, None)
  }

  /** `Offer.to_dict`: the sender travels under the key `from`. */
  function OfferToDict(o: Offer): (r: Object)
    ensures "timestamp" in r && r["timestamp"] == JStr(IsoFormat(o.timestamp))
    ensures "from" in r && r["from"] == OptStr(o.sender) && "to" in r && r["to"] == OptStr(o.recipient)
  {
    map[
      "offer_id" := JStr(o.offerId),
      "price" := JNum(o.price),
      "item_id" := JStr(o.itemId),
      "message" := OptStr(o.message),
      "timestamp" := JStr(IsoFormat(o.timestamp)),
      "metadata" := JObj(o.metadata),
      "from" := OptStr(o.sender),
      "to" := OptStr(o.recipient),
      "signature" := OptStr(o.signature)]
  }

  /**
   * `Offer.from_dict` applied to an arbitrary value: a non-dict or a
   * missing `offer_id`, `price` or `item_id` raises; a missing
   * `timestamp` means now.
   */
  function OfferFromJson(j: Json, now: Timestamp): (r: Result<Offer>)
    ensures r.Success? <==> && j.JObj? && RequireStr(j.fields, "offer_id").Success?
                            && RequireNum(j.fields, "price").Success? && RequireStr(j.fields, "item_id").Success?
                            && OptionalStr(j.fields, "message").Success?
                            && ("timestamp" in j.fields ==> ParseTimestamp(j.fields["timestamp"]).Success?)
                            && ObjectField(j.fields, "metadata").Success?
                            && OptionalStr(j.fields, "from").Success? && OptionalStr(j.fields, "to").Success?
                            && OptionalStr(j.fields, "signature").Success?
    ensures r.Success? ==> j.JObj? && "offer_id" in j.fields && "price" in j.fields && "item_id" in j.fields
    ensures r.Success? ==> && j.fields["offer_id"] == JStr(r.value.offerId) && j.fields["price"] == JNum(r.value.price)
                           && j.fields["item_id"] == JStr(r.value.itemId)
                           && Get(j.fields, "message") == OptStr(r.value.message)
                           && GetOr(j.fields, "metadata", JObj(map[])) == JObj(r.value.metadata)
                           && Get(j.fields, "from") == OptStr(r.value.sender)
                           && Get(j.fields, "to") == OptStr(r.value.recipient)
                           && Get(j.fields, "signature") == OptStr(r.value.signature)
    ensures r.Success? && "timestamp" in j.fields ==> ParseTimestamp(j.fields["timestamp"]) == Success(r.value.timestamp)
    ensures r.Success? && "timestamp" !in j.fields ==> r.value.timestamp == now
    ensures r.Success? ==> ("message" !in j.fields ==> r.value.message.None?) && ("metadata" !in j.fields ==> r.value.metadata == map[])
                           && ("from" !in j.fields ==> r.value.sender.None?) && ("to" !in j.fields ==> r.value.recipient.None?)
                           && ("signature" !in j.fields ==> r.value.signature.None?)
  {
    if !j.JObj? then Failure("TypeError: offer is not a dict")
    else
      var d := j.fields;
      var offerId :- RequireStr(d, "offer_id");
      var price :- RequireNum(d, "price");
      var itemId :- RequireStr(d, "item_id");
      var message :- OptionalStr(d, "message");
      var timestamp :- if "timestamp" in d then ParseTimestamp(d["timestamp"]) else Success(now);
      var metadata :- ObjectField(d, "metadata");
      var sender :- OptionalStr(d, "from");
      var recipient :- OptionalStr(d, "to");
      var signature :- OptionalStr(d, "signature");
      Success(Offer(offerId, price, itemId, message, timestamp, metadata, sender, recipient, signature))
  }

  /** Every offer survives its dictionary form, whatever the clock says. */
  lemma {:induction false} OfferRoundTrip(o: Offer, now: Timestamp)
    ensures OfferFromJson(JObj(OfferToDict(o)), now) == Success(o)
  {
    var d := OfferToDict(o);
    IsoRoundTrip(o.timestamp);
    assert RequireStr(d, "offer_id") == Success(o.offerId);
    assert RequireNum(d, "price") == Success(o.price);
    assert RequireStr(d, "item_id") == Success(o.itemId);
    assert OptionalStr(d, "message") == Success(o.message);
    assert ParseTimestamp(d["timestamp"]) == Success(o.timestamp);
    assert ObjectField(d, "metadata") == Success(o.metadata);
    assert OptionalStr(d, "from") == Success(o.sender);
    assert OptionalStr(d, "to") == Success(o.recipient);
    assert OptionalStr(d, "signature") == Success(o.signature);
  }

  /**
   * A serialised offer has exactly the nine keys of `to_dict`, so it is a
   * truthy dict and always passes an `if offer_data:` guard.
   */
  lemma OfferDictTruthy(o: Offer)
    ensures OfferToDict(o).Keys == {"offer_id", "price", "item_id", "message", "timestamp", "metadata", "from", "to", "signature"}
    ensures Truthy(JObj(OfferToDict(o)))
  {
    assert "offer_id" in OfferToDict(o);
  }

  /** An entry of `SessionContext.counterparties`. */
  datatype CounterpartyLink = CounterpartyLink(endpoint: string, contextId: string)

  /** The plain session record shared by client and server code. */
  class SessionContext {
    const sessionId: string
    const contextId: string
    const sessionType: SessionType
    const role: AgentRole
    const item: Item
    var counterparties: seq<CounterpartyLink>
    var state: string
    var currentRound: int
    const createdAt: Timestamp
    var metadata: Object

    constructor (sessionId: string, contextId: string, sessionType: SessionType, role: AgentRole, item: Item, now: Timestamp)
      ensures this.sessionId == sessionId && this.contextId == contextId
      ensures this.sessionType == sessionType && this.role == role && this.item == item
      ensures counterparties == [] && state == "initialized" && currentRound == 0
      ensures createdAt == now && metadata == map[]
    {
      this.sessionId := sessionId;
      this.contextId := contextId;
      this.sessionType := sessionType;
      this.role := role;
      this.item := item;
      counterparties := [];
      state := "initialized";
      currentRound := 0;
      createdAt := now;
      metadata := map[];
    }

    /** Appends a counterparty; nothing else changes. */
    method AddCounterparty(endpoint: string, contextId: string)
      modifies this`counterparties
      ensures counterparties == old(counterparties) + [CounterpartyLink(endpoint, contextId)]
    {
      counterparties := counterparties + [CounterpartyLink(endpoint, contextId)];
    }
  }
}
