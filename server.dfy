/** The checkout-and-publish endpoints of server/server.js over the two
    collections: creating an order, confirming its payment (which publishes a
    valentine), serving a published valentine page, the owner's listings and
    the admin statistics. Without a database connection (`MONGODB_URI`
    unset) nothing is stored, as in the source. */
module Server {
  import opened Js
  import opened Strings
  import opened Sums
  import opened Pricing
  import opened Models
  import opened Upi
  import opened Queries

  // ----- replies -----

  datatype CreateOrderReply =
    | OrderCreated(orderId: string, amount: nat, upiId: string, upiLink: string)
    | OrderFailed
  {
    function Code(): nat
    {
      if OrderCreated? then 200 else 500
    }
  }

  datatype ConfirmReply =
    | Confirmed(orderId: Option<string>, valentineId: string, shareUrl: string)
    | InvalidTransaction
    | OrderNotFound
    | ConfirmFailed
  {
    function Code(): nat
    {
      match this
      case Confirmed(_, _, _) => 200
      case InvalidTransaction => 400
      case OrderNotFound => 404
      case ConfirmFailed => 500
    }

    function Error(): string
    {
      match this
      case Confirmed(_, _, _) => ""
      case InvalidTransaction => "Invalid transaction ID"
      case OrderNotFound => "Order not found"
      case ConfirmFailed => "Payment confirmation failed"
    }
  }

  datatype PageReply =
    | Page(html: string)       // 200 with the filled-in template
    | Redirect(location: string)
    | NotFound                 // 404 "Valentine Not Found" page

  // ----- the pure parts of the handlers -----

  /** `!transactionId || transactionId.length < 6` rejects; everything else
      passes. `.length` counts UTF-16 code units. */
  predicate ValidTransactionId(t: Option<string>)
  {
    Truthy(t) && Utf16Length(t.value) >= 6
  }

  /** Three characters outside the Basic Multilingual Plane make six code
      units, so three emoji pass the length guard. */
  lemma ThreeEmojiPass()
    ensures |"\U{1F600}\U{1F600}\U{1F600}"| == 3
    ensures ValidTransactionId(Some("\U{1F600}\U{1F600}\U{1F600}"))
  {
    var e := "\U{1F600}";
    assert Utf16Length(e) == 2 by {
      assert e[..0] == [];
    }
    Utf16LengthAppend(e, e);
    Utf16LengthAppend(e + e, e);
    assert e + e + e == "\U{1F600}\U{1F600}\U{1F600}";
  }

  /** `/v/<valentineId>`. */
  function ShareUrl(valentineId: string): string
  {
    "/v/" + valentineId
  }

  /** Where a valentine whose theme has no template file is sent. */
  function TemplateRedirect(theme: string): string
  {
    "/templates/" + theme + "/index.html"
  }

  /** A stored list of strings as the JSON array it is serialised as. */
  function StringArray(fs: seq<string>): (j: Json)
    ensures j.JArr? && |j.items| == |fs|
    ensures forall i :: 0 <= i < |fs| ==> j.items[i] == JStr(fs[i])
  {
    JArr(seq(|fs|, i requires 0 <= i < |fs| => JStr(fs[i])))
  }

  /** Reads a JSON array of strings back, as the page does with
      `window.VALENTINE_FEATURES`; anything else is None. */
  function ArrayStrings(j: Json): Option<seq<string>>
  {
    if j.JArr? then ItemStrings(j.items) else None
  }

  function ItemStrings(items: seq<Json>): Option<seq<string>>
  {
    if items == [] then Some([])
    else if !items[0].JStr? then None
    else
      var rest := ItemStrings(items[1..]);
      if rest.None? then None else Some([items[0].s] + rest.value)
  }

  /** The page reads back exactly the stored features, in order. */
  lemma {:induction false} StringArrayRoundTrip(fs: seq<string>)
    ensures ArrayStrings(StringArray(fs)) == Some(fs)
    decreases |fs|
  {
    if fs != [] {
      StringArrayRoundTrip(fs[1..]);
      assert StringArray(fs).items[1..] == StringArray(fs[1..]).items;
      assert fs == [fs[0]] + fs[1..];
    }
  }

  /** The script that hands the stored config and features to the page;
      `stringify` is `JSON.stringify`. */
  function ConfigScript(config: Json, features: seq<string>, stringify: Json -> string): string
  {
    ScriptHead + stringify(config) + ScriptRest(features, stringify)
  }

  const Indent := "                "
  const ScriptHead := "<script>\n" + Indent + "window.VALENTINE_CONFIG = "
  const FeaturesHead := ";\n" + Indent + "window.VALENTINE_FEATURES = "
  const ScriptTail := ";\n            </script>"

  /** Replacing the first `</head>` by `script + "</head>"`: the script lands
      immediately before the first `</head>` and nowhere else, and a page
      without `</head>` comes back unchanged. */
  function InjectConfig(html: string, script: string): (r: string)
    ensures IndexOf(html, "</head>").None? ==> r == html
    ensures IndexOf(html, "</head>").Some? ==>
      var i := IndexOf(html, "</head>").value;
      r == html[..i] + script + html[i..] && r[..i] + r[i + |script|..] == html
  {
    InsertBeforeFirst(html, "</head>", script);
    ReplaceFirst(html, "</head>", script + "</head>")
  }

  /** The page as the source serves it, when the stored config stringifies to
      text with a `$&` in it and no other `$`: `replace` expands that `$&` into
      the matched `</head>`, so the tag is pasted into the script and the page
      differs from the literal insertion. */
  lemma ServedDollarAmpersand(html: string, config: Json, features: seq<string>, stringify: Json -> string,
                              left: string, right: string)
    requires IndexOf(html, "</head>").Some?
    requires stringify(config) == left + "$&" + right
    requires '$' !in left && '$' !in right && '$' !in stringify(StringArray(features))
    ensures var i := IndexOf(html, "</head>").value;
      var script := ConfigScript(config, features, stringify);
      var served := ReplaceFirstAsWritten(html, "</head>", script + "</head>");
      && served == html[..i] + ScriptHead + left + "</head>" + right + ScriptRest(features, stringify) + html[i..]
      && served != InjectConfig(html, script)
  {
    ScriptTextDollarFree();
    var rest := ScriptRest(features, stringify);
    assert '$' !in rest;
    assert ConfigScript(config, features, stringify) == ScriptHead + (left + "$&" + right) + rest;
    DollarAmpersandInScript(html, ScriptHead, left, right, rest);
  }

  /** The same, for any `$`-free text around the stringified config. */
  lemma DollarAmpersandInScript(html: string, head: string, left: string, right: string, rest: string)
    requires IndexOf(html, "</head>").Some?
    requires '$' !in head && '$' !in left && '$' !in right && '$' !in rest
    ensures var i := IndexOf(html, "</head>").value;
      var script := head + (left + "$&" + right) + rest;
      var served := ReplaceFirstAsWritten(html, "</head>", script + "</head>");
      && served == html[..i] + head + left + "</head>" + right + rest + html[i..]
      && served != InjectConfig(html, script)
  {
    var i := IndexOf(html, "</head>").value;
    var pre := head + left;
    var tail := right + rest + "</head>";
    var script := head + (left + "$&" + right) + rest;
    assert script + "</head>" == pre + "$&" + tail;
    DollarAmpersandCounterexample(html, "</head>", pre, tail);
    assert html[i..] == "</head>" + html[i + 7..] by {
      assert html[i..i + 7] == "</head>";
    }
  }

  /** The template text of the injected script holds no `$`. */
  lemma ScriptTextDollarFree()
    ensures '$' !in ScriptHead && '$' !in FeaturesHead && '$' !in ScriptTail
  {
    assert '$' !in Indent;
    assert '$' !in "<script>\n" && '$' !in "window.VALENTINE_CONFIG = ";
    assert '$' !in ";\n" && '$' !in "window.VALENTINE_FEATURES = ";
  }

  /** What follows the stringified config in the injected script. */
  function ScriptRest(features: seq<string>, stringify: Json -> string): string
  {
    FeaturesHead + stringify(StringArray(features)) + ScriptTail
  }

  /** `findOne({ orderId })` with the body's `orderId`: a missing id is a null
      filter value, and every stored order has an id, so nothing matches. */
  function FindOrderBy(orders: seq<Order>, orderId: Option<string>): (r: Option<nat>)
    ensures r.Some? ==> orderId.Some? && r.value < |orders| && orders[r.value].orderId == orderId.value
    ensures r.None? <==> orderId.None? || forall i :: 0 <= i < |orders| ==> orders[i].orderId != orderId.value
  {
    if orderId.None? then None else FindOrder(orders, orderId.value)
  }

  /** The in-place update of confirm-payment: status, transaction id,
      valentine id and payment time are set and every other field is kept. */
  function MarkPaid(o: Order, transactionId: string, valentineId: string, now: int): (p: Order)
    ensures p.status == Paid && p.transactionId == Some(transactionId)
    ensures p.valentineId == Some(valentineId) && p.paidAt == Some(now)
    ensures p.orderId == o.orderId && p.user == o.user && p.amount == o.amount
    ensures p.theme == o.theme && p.features == o.features && p.createdAt == o.createdAt
  {
    o.(status := Paid, transactionId := Some(transactionId), valentineId := Some(valentineId), paidAt := Some(now))
  }

  /** Marking an order paid a second time only overwrites the payment fields. */
  lemma MarkPaidTwice(o: Order, t1: string, v1: string, n1: int, t2: string, v2: string, n2: int)
    ensures MarkPaid(MarkPaid(o, t1, v1, n1), t2, v2, n2) == MarkPaid(o, t2, v2, n2)
  {
  }

  // ----- the store -----

  class Database {
    /** Whether `MONGODB_URI` is set. */
    const mongo: bool
    /** The payee address `UPI_ID`. */
    const upiId: string
    var orders: seq<Order>
    var valentines: seq<Valentine>

    /** The unique indexes hold, every order amount is a checkout total, every
        valentine has a theme and is active, and nothing is stored without a
        connection. */
    ghost predicate Valid()
      reads this
    {
      && UniqueOrderIds(orders)
      && UniqueValentineIds(valentines)
      && (forall i :: 0 <= i < |orders| ==> orders[i].amount >= 49)
      && (forall i :: 0 <= i < |valentines| ==> valentines[i].theme != "" && valentines[i].isActive)
      && (!mongo ==> orders == [] && valentines == [])
    }

    constructor (mongo: bool, upiId: string)
      ensures Valid()
      ensures this.mongo == mongo && this.upiId == upiId
      ensures orders == [] && valentines == []
    {
      this.mongo := mongo;
      this.upiId := upiId;
      orders := [];
      valentines := [];
    }

    /** `POST /api/create-order`: price the features, name the order
        `VAL-<generated>`, store it as pending when connected, and answer with
        the amount and the payment link. A taken order id fails the unique
        index. */
    method CreateOrder(features: StringsField, theme: Option<string>, user: Option<UserId>, generated: string, now: int)
      returns (reply: CreateOrderReply)
      requires Valid()
      modifies this
      ensures Valid()
      ensures valentines == old(valentines)
      ensures var orderId := "VAL-" + generated;
        var total := Total(features);
        var created := OrderCreated(orderId, total, upiId, UpiLink(upiId, total, orderId));
        if !mongo then orders == old(orders) && reply == created
        else if FindOrder(old(orders), orderId).Some? then orders == old(orders) && reply == OrderFailed
        else
          && |orders| == |old(orders)| + 1 && orders[..|old(orders)|] == old(orders)
          && reply == created
          && var o := orders[|old(orders)|];
          && o.orderId == orderId && o.user == user && o.amount == total
          && o.theme == theme && o.features == StoredStrings(features)
          && o.status == Pending && o.createdAt == now
          && o.transactionId.None? && o.valentineId.None? && o.paidAt.None?
    {
      var total := OrderTotal(features);
      var orderId := "VAL-" + generated;
      var upiLink := UpiLink(upiId, total, orderId);
      reply := OrderCreated(orderId, total, upiId, upiLink);
      if mongo {
        if FindOrder(orders, orderId).Some? {
          return OrderFailed;
        }
        var doc := OrderDoc(Some(orderId), user, Some(total), theme, features, Some("pending"));
        var created := NewOrder(doc, now);
        NewOrderKeepsOptionalFields(doc, now);
        orders := orders + [created.value];
      }
    }

    /** `POST /api/confirm-payment`. A missing or short transaction id is
        refused before anything is looked up, and an unknown order is 404;
        neither changes anything. Otherwise the order is marked paid, whatever
        its status was, and one valentine is created from the order's theme and
        features with the request's config (or `{}`). When that creation fails
        (no theme, or a taken valentine id) the reply is 500 but the order stays
        paid. */
    method ConfirmPayment(orderId: Option<string>, transactionId: Option<string>, config: Option<Json>,
                          user: Option<UserId>, generated: string, now: int)
      returns (reply: ConfirmReply)
      requires Valid()
      modifies this
      ensures Valid()
      ensures !ValidTransactionId(transactionId) ==>
        reply == InvalidTransaction && orders == old(orders) && valentines == old(valentines)
      ensures ValidTransactionId(transactionId) && !mongo ==>
        reply == Confirmed(orderId, generated, ShareUrl(generated)) &&
        orders == old(orders) && valentines == old(valentines)
      ensures ValidTransactionId(transactionId) && mongo && FindOrderBy(old(orders), orderId).None? ==>
        reply == OrderNotFound && orders == old(orders) && valentines == old(valentines)
      ensures ValidTransactionId(transactionId) && mongo && FindOrderBy(old(orders), orderId).Some? ==>
        var k := FindOrderBy(old(orders), orderId).value;
        var order := old(orders)[k];
        && orders == old(orders)[k := MarkPaid(order, transactionId.value, generated, now)]
        && if Present(order.theme) && generated != "" && FindValentine(old(valentines), generated).None? then
             && reply == Confirmed(orderId, generated, ShareUrl(generated))
             && valentines == old(valentines) + [Valentine(
                  valentineId := generated, user := user, orderId := orderId,
                  theme := order.theme.value, config := OrEmptyObject(config),
                  features := order.features, views := 0, isActive := true, createdAt := now)]
           else
             reply == ConfirmFailed && valentines == old(valentines)
    {
      if !ValidTransactionId(transactionId) {
        return InvalidTransaction;
      }
      var valentineId := generated;
      if mongo {
        var found := FindOrderBy(orders, orderId);
        if found.None? {
          return OrderNotFound;
        }
        var k := found.value;
        var order := MarkPaid(orders[k], transactionId.value, valentineId, now);
        ghost var before := orders;
        orders := orders[k := order];
        assert forall i :: 0 <= i < |orders| ==> orders[i].orderId == before[i].orderId && orders[i].amount == before[i].amount;
        var doc := ValentineDoc(Some(valentineId), user, orderId, order.theme, Some(OrEmptyObject(config)), order.features);
        var created := NewValentine(doc, now);
        if created.Err? || FindValentine(valentines, valentineId).Some? {
          return ConfirmFailed;
        }
        NewValentineKeepsOptionalFields(doc, now);
        valentines := valentines + [created.value];
      }
      reply := Confirmed(orderId, valentineId, ShareUrl(valentineId));
    }

    /** `GET /v/:id`. An unknown id (or no connection) is 404 and changes
        nothing. A known one has its view count raised by exactly one before the
        template is looked at, so a redirect counts as a view too; then the
        theme's template is served with the config script injected, or the
        client is redirected to the static template. `templates` maps a theme
        to the text of its template file, when there is one. */
    method ServeValentine(id: string, templates: map<string, string>, stringify: Json -> string)
      returns (reply: PageReply)
      requires Valid()
      modifies this
      ensures Valid()
      ensures orders == old(orders)
      ensures !mongo || FindValentine(old(valentines), id).None? ==>
        reply == NotFound && valentines == old(valentines)
      ensures mongo && FindValentine(old(valentines), id).Some? ==>
        var k := FindValentine(old(valentines), id).value;
        var v := old(valentines)[k];
        && valentines == old(valentines)[k := v.(views := v.views + 1)]
        && reply == (if v.theme in templates
                     then Page(InjectConfig(templates[v.theme], ConfigScript(v.config, v.features, stringify)))
                     else Redirect(TemplateRedirect(v.theme)))
    {
      if !mongo {
        return NotFound;
      }
      var found := FindValentine(valentines, id);
      if found.None? {
        return NotFound;
      }
      var k := found.value;
      var v := valentines[k];
      v := v.(views := v.views + 1);
      ghost var before := valentines;
      valentines := valentines[k := v];
      assert forall i :: 0 <= i < |valentines| ==>
        valentines[i].valentineId == before[i].valentineId && valentines[i].theme == before[i].theme &&
        valentines[i].isActive == before[i].isActive;
      if v.theme in templates {
        var html := templates[v.theme];
        var script := ConfigScript(v.config, v.features, stringify);
        reply := Page(InjectConfig(html, script));
      } else {
        reply := Redirect(TemplateRedirect(v.theme));
      }
    }
  }

  /** Confirming the same order twice with fresh valentine ids publishes two
      valentines: nothing in confirm-payment looks at the order's status. */
  method ConfirmTwice(db: Database, orderId: string, transactionId: string, first: string, second: string, now: int)
    requires db.Valid() && db.mongo
    requires FindOrder(db.orders, orderId).Some? && ValidTransactionId(Some(transactionId))
    requires Present(db.orders[FindOrder(db.orders, orderId).value].theme)
    requires first != "" && second != "" && first != second
    requires FindValentine(db.valentines, first).None? && FindValentine(db.valentines, second).None?
    modifies db
    ensures |db.valentines| == |old(db.valentines)| + 2
    ensures db.valentines[|db.valentines| - 2].valentineId == first
    ensures db.valentines[|db.valentines| - 1].valentineId == second
    ensures db.valentines[|db.valentines| - 1].orderId == Some(orderId)
  {
    var k := FindOrder(db.orders, orderId).value;
    var r1 := db.ConfirmPayment(Some(orderId), Some(transactionId), None, None, first, now);
    assert db.orders[k].orderId == orderId && db.orders[k].theme == old(db.orders)[k].theme;
    FindOrderUnique(db.orders, orderId, k);
    assert db.valentines[|db.valentines| - 1].valentineId == first;
    ghost var afterFirst := db.valentines;
    var r2 := db.ConfirmPayment(Some(orderId), Some(transactionId), None, None, second, now);
    assert db.valentines[..|afterFirst|] == afterFirst;
  }

  /** A bare string `features` is priced at the base rate, since it is not an
      array, yet the order stores it as a one-element list, which later
      becomes the valentine's features. Every other value is stored as it
      was priced. */
  lemma StoredFeaturesPrice(features: StringsField)
    ensures features.Single? ==>
      Total(Items(StoredStrings(features))) == Total(features) + Price(features.item)
    ensures !features.Single? ==> Total(Items(StoredStrings(features))) == Total(features)
  {
    if features.Single? {
      FeatureSumSnoc([], features.item);
      assert [] + [features.item] == [features.item];
    } else if features.Absent? {
      assert FeatureSum([]) == 0;
    }
  }

  /** For instance `features: "feature_music"` pays 49 and stores music. */
  lemma MusicAsBareString()
    ensures Total(Single("feature_music")) == 49
    ensures StoredStrings(Single("feature_music")) == ["feature_music"]
    ensures Total(Items(StoredStrings(Single("feature_music")))) == 68
  {
    StoredFeaturesPrice(Single("feature_music"));
  }

  // ----- listings -----

  datatype Listing<T> = LoginRequired | Listed(items: seq<T>)
  {
    function Code(): nat
    {
      if LoginRequired? then 401 else 200
    }
  }

  function OrderCreatedAt(o: Order): int
  {
    o.createdAt
  }

  function ValentineCreatedAt(v: Valentine): int
  {
    v.createdAt
  }

  /** `GET /api/my-orders`: 401 without a signed-in user; otherwise exactly
      that user's orders, each as often as stored, newest first. */
  function MyOrders(user: Option<UserId>, orders: seq<Order>): (r: Listing<Order>)
    ensures r.LoginRequired? <==> user.None?
    ensures r.Listed? ==>
      && SortedDesc(r.items, OrderCreatedAt)
      && (forall k :: 0 <= k < |r.items| ==> r.items[k].user == user)
      && (forall o :: multiset(r.items)[o] == if o.user == user then multiset(orders)[o] else 0)
  {
    if user.None? then LoginRequired
    else
      var owned := Filter(orders, (o: Order) => o.user == user);
      var items := SortDesc(owned, OrderCreatedAt);
      assert forall k :: 0 <= k < |items| ==> items[k].user == user by {
        forall k | 0 <= k < |items| ensures items[k].user == user {
          assert multiset(items)[items[k]] > 0;
        }
      }
      Listed(items)
  }

  /** `GET /api/my-valentines`: the same for the valentines. */
  function MyValentines(user: Option<UserId>, valentines: seq<Valentine>): (r: Listing<Valentine>)
    ensures r.LoginRequired? <==> user.None?
    ensures r.Listed? ==>
      && SortedDesc(r.items, ValentineCreatedAt)
      && (forall k :: 0 <= k < |r.items| ==> r.items[k].user == user)
      && (forall v :: multiset(r.items)[v] == if v.user == user then multiset(valentines)[v] else 0)
  {
    if user.None? then LoginRequired
    else
      var owned := Filter(valentines, (v: Valentine) => v.user == user);
      var items := SortDesc(owned, ValentineCreatedAt);
      assert forall k :: 0 <= k < |items| ==> items[k].user == user by {
        forall k | 0 <= k < |items| ensures items[k].user == user {
          assert multiset(items)[items[k]] > 0;
        }
      }
      Listed(items)
  }

  // ----- stats -----

  datatype StatsReply =
    | Counts(totalOrders: nat, paidOrders: nat, pendingOrders: int, totalValentines: nat,
             totalUsers: nat, totalRevenue: int, totalViews: int)
    | RequireMongo // "Stats require MongoDB"

  predicate IsPaid(o: Order)
  {
    o.status == Paid
  }

  predicate IsPending(o: Order)
  {
    o.status == Pending
  }

  predicate IsFailed(o: Order)
  {
    o.status == Failed
  }

  predicate IsUnpaid(o: Order)
  {
    o.status != Paid
  }

  function Amount(o: Order): int
  {
    o.amount
  }

  function PaidAmount(o: Order): int
  {
    if IsPaid(o) then o.amount else 0
  }

  function Views(v: Valentine): int
  {
    v.views
  }

  /** `GET /api/stats`. `totalUsers` is the size of the user collection. */
  function Stats(mongo: bool, orders: seq<Order>, valentines: seq<Valentine>, totalUsers: nat): (r: StatsReply)
    ensures r.RequireMongo? <==> !mongo
    ensures r.Counts? ==>
      && r.totalOrders == |orders| && r.totalValentines == |valentines| && r.totalUsers == totalUsers
      && r.paidOrders <= r.totalOrders
      && r.paidOrders + r.pendingOrders == r.totalOrders
  {
    if !mongo then RequireMongo
    else
      var paid := Filter(orders, IsPaid);
      Counts(
        totalOrders := |orders|,
        paidOrders := |paid|,
        pendingOrders := |orders| - |paid|,
        totalValentines := |valentines|,
        totalUsers := totalUsers,
        totalRevenue := SumBy(paid, Amount),
        totalViews := SumBy(valentines, Views))
  }

  /** `pendingOrders` is not a count of pending orders: failed ones are in it too. */
  lemma PendingIncludesFailed(orders: seq<Order>, valentines: seq<Valentine>, totalUsers: nat)
    ensures Stats(true, orders, valentines, totalUsers).pendingOrders ==
      |Filter(orders, IsPending)| + |Filter(orders, IsFailed)|
  {
    StatusCounts(orders);
  }

  lemma {:induction false} StatusCounts(orders: seq<Order>)
    ensures |Filter(orders, IsPaid)| + |Filter(orders, IsPending)| + |Filter(orders, IsFailed)| == |orders|
  {
    if orders != [] {
      StatusCounts(orders[..|orders| - 1]);
    }
  }

  /** Revenue is the amount of every paid order and nothing for the others; with
      checkout totals as amounts it is never negative. */
  lemma RevenueOfPaidOrders(orders: seq<Order>, valentines: seq<Valentine>, totalUsers: nat)
    ensures Stats(true, orders, valentines, totalUsers).totalRevenue == SumBy(orders, PaidAmount)
    ensures (forall i :: 0 <= i < |orders| ==> orders[i].amount >= 0) ==>
      Stats(true, orders, valentines, totalUsers).totalRevenue >= 0
  {
    SumOverFilter(orders, IsPaid, Amount, PaidAmount);
    if forall i :: 0 <= i < |orders| ==> orders[i].amount >= 0 {
      SumByNonNegative(orders, PaidAmount);
    }
  }

  /** A served valentine adds exactly one to the total view count. */
  lemma ServeAddsOneView(orders: seq<Order>, valentines: seq<Valentine>, totalUsers: nat, k: nat)
    requires k < |valentines|
    ensures Stats(true, orders, valentines[k := valentines[k].(views := valentines[k].views + 1)], totalUsers).totalViews ==
      Stats(true, orders, valentines, totalUsers).totalViews + 1
  {
    SumByUpdate(valentines, k, valentines[k].(views := valentines[k].views + 1), Views);
  }

  /** Creating an order leaves the revenue where it was: a new order is pending. */
  lemma CreatedOrderAddsNoRevenue(orders: seq<Order>, o: Order, valentines: seq<Valentine>, totalUsers: nat)
    requires o.status == Pending
    ensures Stats(true, orders + [o], valentines, totalUsers).totalRevenue ==
      Stats(true, orders, valentines, totalUsers).totalRevenue
    ensures Stats(true, orders + [o], valentines, totalUsers).pendingOrders ==
      Stats(true, orders, valentines, totalUsers).pendingOrders + 1
  {
    assert (orders + [o])[..|orders|] == orders;
  }

  /** Marking a pending order paid moves its amount into the revenue. */
  lemma PaymentAddsAmount(orders: seq<Order>, k: nat, t: string, v: string, now: int,
                          valentines: seq<Valentine>, totalUsers: nat)
    requires k < |orders| && orders[k].status != Paid
    ensures Stats(true, orders[k := MarkPaid(orders[k], t, v, now)], valentines, totalUsers).totalRevenue ==
      Stats(true, orders, valentines, totalUsers).totalRevenue + orders[k].amount
  {
    var paid := MarkPaid(orders[k], t, v, now);
    RevenueOfPaidOrders(orders, valentines, totalUsers);
    RevenueOfPaidOrders(orders[k := paid], valentines, totalUsers);
    SumByUpdate(orders, k, paid, PaidAmount);
  }
}
