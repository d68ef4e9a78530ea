/** The UPI deep link `/api/create-order` returns (server/server.js, the
    `upiLink` template string): payee, payee name, amount, transaction note and
    currency as `&`-separated `key=value` parameters, and a reader that takes
    such a link apart again. */
module Upi {
  import opened Js
  import opened Strings

  const Scheme := "upi://pay?"

  /** The five parameters of the link, in the order the template writes them. */
  function Fields(upiId: string, amount: nat, orderId: string): seq<string>
  {
    ["pa=" + upiId, "pn=ValentineGift", "am=" + Decimal(amount), "tn=Order_" + orderId, "cu=INR"]
  }

  /** `upi://pay?pa=<upiId>&pn=ValentineGift&am=<amount>&tn=Order_<orderId>&cu=INR`. */
  function UpiLink(upiId: string, amount: nat, orderId: string): string
  {
    Scheme + Join(Fields(upiId, amount, orderId), '&')
  }

  /** The `key=value` parameters of a payment link, in order, or None when the
      text is not a `upi://pay?` link. */
  function Params(link: string): (r: Option<seq<string>>)
    ensures r.Some? ==> |r.value| >= 1
    ensures r.Some? <==> |link| >= |Scheme| && link[..|Scheme|] == Scheme
  {
    if |link| >= |Scheme| && link[..|Scheme|] == Scheme then Some(Split(link[|Scheme|..], '&'))
    else None
  }

  predicate IsParam(p: string, key: string)
  {
    |p| > |key| && p[..|key| + 1] == key + "="
  }

  /** The value of the first parameter named `key`. */
  function Lookup(params: seq<string>, key: string): (r: Option<string>)
    ensures r.Some? ==> exists i :: 0 <= i < |params| && params[i] == key + "=" + r.value
    ensures r.None? ==> forall i :: 0 <= i < |params| ==> !IsParam(params[i], key)
  {
    if params == [] then None
    else if IsParam(params[0], key) then
      assert params[0] == key + "=" + params[0][|key| + 1..];
      Some(params[0][|key| + 1..])
    else
      var r := Lookup(params[1..], key);
      if r.Some? then
        var i :| 0 <= i < |params[1..]| && params[1..][i] == key + "=" + r.value;
        assert params[i + 1] == key + "=" + r.value;
        r
      else r
  }

  /** The link splits into exactly its five parameters, in order, as long as
      neither the payee nor the order id holds an `&`. */
  lemma ParamsOfLink(upiId: string, amount: nat, orderId: string)
    requires '&' !in upiId && '&' !in orderId
    ensures Params(UpiLink(upiId, amount, orderId)) == Some(Fields(upiId, amount, orderId))
  {
    var fs := Fields(upiId, amount, orderId);
    var link := UpiLink(upiId, amount, orderId);
    assert link[..|Scheme|] == Scheme && link[|Scheme|..] == Join(fs, '&');
    NoAmpersandInDecimal(amount);
    forall k | 0 <= k < |fs| ensures '&' !in fs[k] {
      if k == 0 { NoAmpersand("pa=", upiId); }
      if k == 2 { NoAmpersand("am=", Decimal(amount)); }
      if k == 3 { NoAmpersand("tn=Order_", orderId); }
    }
    JoinSplit(fs, '&');
  }

  lemma NoAmpersand(prefix: string, rest: string)
    requires '&' !in prefix && '&' !in rest
    ensures '&' !in prefix + rest
  {
  }

  lemma NoAmpersandInDecimal(n: nat)
    ensures '&' !in Decimal(n)
  {
  }

  /** The link carries the amount as `am`, and reading that parameter back as
      a number gives the order total; `tn` names the order, `pa` the payee and
      `cu` the currency. */
  lemma LinkRoundTrip(upiId: string, amount: nat, orderId: string)
    requires '&' !in upiId && '&' !in orderId
    ensures var ps := Params(UpiLink(upiId, amount, orderId));
      && ps.Some?
      && Lookup(ps.value, "pa") == Some(upiId)
      && Lookup(ps.value, "am") == Some(Decimal(amount))
      && ParseDecimal(Lookup(ps.value, "am").value) == Some(amount)
      && Lookup(ps.value, "tn") == Some("Order_" + orderId)
      && Lookup(ps.value, "cu") == Some("INR")
  {
    ParamsOfLink(upiId, amount, orderId);
    FieldNames(upiId, amount, orderId);
    var ps := Fields(upiId, amount, orderId);
    LookupAfter(ps, "pa", 0, upiId);
    LookupAfter(ps, "am", 2, Decimal(amount));
    LookupAfter(ps, "tn", 3, "Order_" + orderId);
    LookupAfter(ps, "cu", 4, "INR");
    DecimalRoundTrip(amount);
  }

  /** Each parameter begins with its two-letter name. */
  lemma FieldNames(upiId: string, amount: nat, orderId: string)
    ensures var ps := Fields(upiId, amount, orderId);
      && ps[0] == "pa" + "=" + upiId && ps[2] == "am" + "=" + Decimal(amount)
      && ps[3] == "tn" + "=" + ("Order_" + orderId) && ps[4] == "cu" + "=" + "INR"
      && forall i :: 0 <= i < 4 ==> |ps[i]| >= 3 && ps[i][..2] == ["pa", "pn", "am", "tn"][i]
  {
    var ps := Fields(upiId, amount, orderId);
    assert ps[0][..2] == "pa";
    assert ps[1][..2] == "pn";
    assert ps[2][..2] == "am";
    assert ps[3][..2] == "tn";
  }

  /** A two-letter key found at position `k`, after parameters with other names. */
  lemma {:induction false} LookupAfter(ps: seq<string>, key: string, k: nat, v: string)
    requires k < |ps| && ps[k] == key + "=" + v
    requires |key| == 2
    requires forall i :: 0 <= i < k ==> |ps[i]| >= 3 && ps[i][..2] != key
    ensures Lookup(ps, key) == Some(v)
    decreases k
  {
    if k == 0 {
      assert ps[0][..|key| + 1] == key + "=";
    } else {
      assert ps[0][..|key| + 1][..2] == ps[0][..2];
      assert !IsParam(ps[0], key);
      LookupAfter(ps[1..], key, k - 1, v);
    }
  }
}
