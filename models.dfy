/** The two stored record types, orders (server/models/Order.js) and
    valentines (server/models/Valentine.js): their fields, the values a
    field may take, the required fields and the defaults filled in when a
    document is created. */
module Models {
  import opened Js
  import opened Queries

  /** The id of a registered user (a Mongo ObjectId). */
  type UserId = string

  /** The `status` enum of an order. */
  datatype OrderStatus = Pending | Paid | Failed

  function StatusName(s: OrderStatus): string
  {
    match s
    case Pending => "pending"
    case Paid => "paid"
    case Failed => "failed"
  }

  /** The enum check: a status string is accepted exactly when it names one of
      the three values. */
  function ParseStatus(name: string): (r: Option<OrderStatus>)
    ensures r.Some? ==> StatusName(r.value) == name
    ensures r.None? ==> name != "pending" && name != "paid" && name != "failed"
  {
    if name == "pending" then Some(Pending)
    else if name == "paid" then Some(Paid)
    else if name == "failed" then Some(Failed)
    else None
  }

  lemma StatusRoundTrip(s: OrderStatus)
    ensures ParseStatus(StatusName(s)) == Some(s)
  {
  }

  datatype Order = Order(
    orderId: string,
    user: Option<UserId>,
    amount: int,
    theme: Option<string>,
    features: seq<string>,
    status: OrderStatus,
    transactionId: Option<string>,
    valentineId: Option<string>,
    createdAt: int,
    paidAt: Option<int>)

  datatype Valentine = Valentine(
    valentineId: string,
    user: Option<UserId>,
    orderId: Option<string>,
    theme: string,
    config: Json,
    features: seq<string>,
    views: nat,
    isActive: bool,
    createdAt: int)

  /** The fields given to `Order.create`; the others take their defaults. */
  datatype OrderDoc = OrderDoc(
    orderId: Option<string>,
    user: Option<UserId>,
    amount: Option<int>,
    theme: Option<string>,
    features: StringsField,
    status: Option<string>)

  /** The fields given to `Valentine.create`. */
  datatype ValentineDoc = ValentineDoc(
    valentineId: Option<string>,
    user: Option<UserId>,
    orderId: Option<string>,
    theme: Option<string>,
    config: Option<Json>,
    features: seq<string>)

  /** How a `[String]` field stores what it is given: a missing value becomes
      the empty array and a single string a one-element array. */
  function StoredStrings(f: StringsField): (r: seq<string>)
    ensures f.Absent? ==> r == []
    ensures f.Single? ==> r == [f.item]
    ensures f.Items? ==> r == f.items
  {
    match f
    case Absent => []
    case Items(xs) => xs
    case Single(x) => [x]
  }

  /** A required String is missing when it is absent or empty. */
  predicate Present(s: Option<string>)
  {
    Truthy(s)
  }

  /** Creating an order document: `orderId` and `amount` are required and
      `status` must be one of the enum values. The status defaults to pending,
      `createdAt` to the creation time, and the payment fields start empty. */
  function NewOrder(doc: OrderDoc, now: int): (r: Result<Order>)
    ensures r.Ok? <==>
      Present(doc.orderId) && doc.amount.Some? &&
      (doc.status.None? || ParseStatus(doc.status.value).Some?)
    ensures r.Ok? ==>
      && r.value.orderId == doc.orderId.value
      && r.value.amount == doc.amount.value
      && r.value.status == (if doc.status.None? then Pending else ParseStatus(doc.status.value).value)
      && r.value.createdAt == now
      && r.value.transactionId.None? && r.value.valentineId.None? && r.value.paidAt.None?
  {
    if !Present(doc.orderId) then Err("Path `orderId` is required.")
    else if doc.amount.None? then Err("Path `amount` is required.")
    else if doc.status.Some? && ParseStatus(doc.status.value).None? then
      Err("`" + doc.status.value + "` is not a valid enum value for path `status`.")
    else
      Ok(Order(
        orderId := doc.orderId.value,
        user := doc.user,
        amount := doc.amount.value,
        theme := doc.theme,
        features := StoredStrings(doc.features),
        status := if doc.status.None? then Pending else ParseStatus(doc.status.value).value,
        transactionId := None,
        valentineId := None,
        createdAt := now,
        paidAt := None))
  }

  /** The optional fields are stored as given; a missing user is a guest order. */
  lemma NewOrderKeepsOptionalFields(doc: OrderDoc, now: int)
    requires NewOrder(doc, now).Ok?
    ensures NewOrder(doc, now).value.user == doc.user
    ensures NewOrder(doc, now).value.theme == doc.theme
    ensures NewOrder(doc, now).value.features == StoredStrings(doc.features)
  {
  }

  /** Creating a valentine document: `valentineId` and `theme` are required (an
      absent or empty theme fails); `config` defaults to `{}`, `views` to 0,
      `isActive` to true and `createdAt` to the creation time. */
  function NewValentine(doc: ValentineDoc, now: int): (r: Result<Valentine>)
    ensures r.Ok? <==> Present(doc.valentineId) && Present(doc.theme)
    ensures r.Ok? ==>
      && r.value.valentineId == doc.valentineId.value
      && r.value.theme == doc.theme.value && r.value.theme != ""
      && r.value.config == (if doc.config.Some? then doc.config.value else JObj([]))
      && r.value.views == 0
      && r.value.isActive
      && r.value.createdAt == now
  {
    if !Present(doc.valentineId) then Err("Path `valentineId` is required.")
    else if !Present(doc.theme) then Err("Path `theme` is required.")
    else
      Ok(Valentine(
        valentineId := doc.valentineId.value,
        user := doc.user,
        orderId := doc.orderId,
        theme := doc.theme.value,
        config := if doc.config.Some? then doc.config.value else JObj([]),
        features := doc.features,
        views := 0,
        isActive := true,
        createdAt := now))
  }

  lemma NewValentineKeepsOptionalFields(doc: ValentineDoc, now: int)
    requires NewValentine(doc, now).Ok?
    ensures NewValentine(doc, now).value.user == doc.user
    ensures NewValentine(doc, now).value.orderId == doc.orderId
    ensures NewValentine(doc, now).value.features == doc.features
  {
  }

  /** The unique index on `orderId`. */
  predicate UniqueOrderIds(orders: seq<Order>)
  {
    forall i, j :: 0 <= i < j < |orders| ==> orders[i].orderId != orders[j].orderId
  }

  /** The unique index on `valentineId`. */
  predicate UniqueValentineIds(valentines: seq<Valentine>)
  {
    forall i, j :: 0 <= i < j < |valentines| ==> valentines[i].valentineId != valentines[j].valentineId
  }

  /** `findOne({ orderId })`: the position of the order with that id. */
  function FindOrder(orders: seq<Order>, orderId: string): (r: Option<nat>)
    ensures r.Some? ==> r.value < |orders| && orders[r.value].orderId == orderId
    ensures r.None? <==> forall i :: 0 <= i < |orders| ==> orders[i].orderId != orderId
  {
    FindOne(orders, (o: Order) => o.orderId == orderId)
  }

  /** `findOne({ valentineId })`: the position of the valentine with that id. */
  function FindValentine(valentines: seq<Valentine>, valentineId: string): (r: Option<nat>)
    ensures r.Some? ==> r.value < |valentines| && valentines[r.value].valentineId == valentineId
    ensures r.None? <==> forall i :: 0 <= i < |valentines| ==> valentines[i].valentineId != valentineId
  {
    FindOne(valentines, (v: Valentine) => v.valentineId == valentineId)
  }

  /** Under the unique index, the order a lookup finds is the only one with that id. */
  lemma FindOrderUnique(orders: seq<Order>, orderId: string, k: nat)
    requires UniqueOrderIds(orders)
    requires k < |orders| && orders[k].orderId == orderId
    ensures FindOrder(orders, orderId) == Some(k)
  {
  }

  lemma FindValentineUnique(valentines: seq<Valentine>, valentineId: string, k: nat)
    requires UniqueValentineIds(valentines)
    requires k < |valentines| && valentines[k].valentineId == valentineId
    ensures FindValentine(valentines, valentineId) == Some(k)
  {
  }
}
