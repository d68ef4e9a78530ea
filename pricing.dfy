/** Checkout pricing: the fixed price table and the total of an order
    (server/server.js, `PRICING` and the `features.forEach` loop of
    `/api/create-order`). Amounts are whole rupees. */
module Pricing {
  import opened Js
  import opened Sums

  const BaseTheme := "base_theme"

  /** `PRICING`. */
  const PriceTable: map<string, nat> := map[
    "base_theme" := 49,
    "feature_gallery" := 19,
    "feature_music" := 19,
    "feature_timeline" := 29,
    "feature_quiz" := 19,
    "feature_gift" := 29,
    "feature_countdown" := 9,
    "feature_password" := 9,
    "feature_scratch" := 39,
    "feature_spin" := 39,
    "feature_memory" := 39,
    "feature_video" := 49,
    "feature_confetti" := 9
  ]

  /** What one list element adds: its table price, or nothing for an unknown key. */
  function Price(f: string): (p: int)
    ensures p >= 0
    ensures f !in PriceTable ==> p == 0
    ensures f in PriceTable ==> p == PriceTable[f] && p > 0
  {
    if f in PriceTable then PriceTable[f] else 0
  }

  /** The prices of the list's elements, added up element by element. */
  function FeatureSum(fs: seq<string>): (sum: nat)
  {
    SumByNonNegative(fs, Price);
    SumBy(fs, Price)
  }

  /** The order total: the base price plus, when `features` is an array, the
      price of each of its elements. */
  function Total(features: StringsField): (total: nat)
    ensures total >= 49
    ensures !features.Items? ==> total == 49
  {
    match features
    case Items(fs) => PriceTable[BaseTheme] + FeatureSum(fs)
    case _ => PriceTable[BaseTheme]
  }

  /** The create-order loop: start from the base price and add the table price
      of every element that is a key of the table. */
  method OrderTotal(features: StringsField) returns (total: nat)
    ensures total == Total(features)
  {
    total := PriceTable[BaseTheme];
    if features.Items? {
      var fs := features.items;
      for i := 0 to |fs|
        invariant total == PriceTable[BaseTheme] + FeatureSum(fs[..i])
      {
        assert fs[..i + 1][..i] == fs[..i];
        var f := fs[i];
        if f in PriceTable && PriceTable[f] != 0 {
          total := total + PriceTable[f];
        }
      }
      assert fs[..|fs|] == fs;
    }
  }

  /** The total does not depend on the order of the list, only on how often
      each key occurs in it. */
  lemma {:induction false} TotalIgnoresOrder(a: seq<string>, b: seq<string>)
    requires multiset(a) == multiset(b)
    ensures Total(Items(a)) == Total(Items(b))
  {
    SumByPermutation(a, b, Price);
  }

  /** An unknown key anywhere in the list changes nothing. */
  lemma UnknownKeyIgnored(a: seq<string>, f: string, b: seq<string>)
    requires f !in PriceTable
    ensures Total(Items(a + [f] + b)) == Total(Items(a + b))
  {
    SumByAppend(a + [f], b, Price);
    SumByAppend(a, b, Price);
    assert (a + [f])[..|a|] == a;
  }

  /** Every further occurrence of a key is charged again, `base_theme` included. */
  lemma RepeatedKeyChargedAgain(fs: seq<string>, f: string)
    ensures Total(Items(fs + [f])) == Total(Items(fs)) + Price(f)
    ensures Total(Items([BaseTheme])) == 98
  {
    FeatureSumSnoc(fs, f);
    FeatureSumSnoc([], BaseTheme);
    assert [] + [BaseTheme] == [BaseTheme];
  }

  lemma FeatureSumSnoc(fs: seq<string>, f: string)
    ensures FeatureSum(fs + [f]) == FeatureSum(fs) + Price(f)
  {
    assert (fs + [f])[..|fs|] == fs;
  }

  /** Gallery and music on top of the base theme cost 87. */
  lemma GalleryAndMusicExample()
    ensures Total(Items(["feature_gallery", "feature_music"])) == 87
  {
    FeatureSumSnoc([], "feature_gallery");
    FeatureSumSnoc(["feature_gallery"], "feature_music");
    assert [] + ["feature_gallery"] == ["feature_gallery"];
    assert ["feature_gallery"] + ["feature_music"] == ["feature_gallery", "feature_music"];
    assert Price("feature_gallery") == 19;
    assert Price("feature_music") == 19;
  }

  // ----- the lookup as the source writes it -----

  /** Keys every plain JavaScript object inherits from `Object.prototype`. */
  const InheritedKeys: set<string> := {
    "constructor", "toString", "toLocaleString", "valueOf", "hasOwnProperty",
    "isPrototypeOf", "propertyIsEnumerable", "__proto__", "__defineGetter__",
    "__defineSetter__", "__lookupGetter__", "__lookupSetter__"
  }

  /** What `PRICING[f]` yields in JavaScript: an own price, an inherited member
      (a function, or `Object.prototype` for `__proto__`) given by its string
      form, or `undefined`. */
  datatype Lookup = OwnPrice(price: nat) | InheritedMember(text: string) | Undefined

  function LookupAsWritten(f: string): Lookup
  {
    if f in PriceTable then OwnPrice(PriceTable[f])
    else if f == "__proto__" then InheritedMember("[object Object]")
    else if f == "constructor" then InheritedMember(ObjectConstructorText)
    else if f in InheritedKeys then InheritedMember("function " + f + "() { [native code] }")
    else Undefined
  }

  /** The string form of the `Object` constructor, which `PRICING.constructor` is. */
  const ObjectConstructorText := "function Object() { [native code] }"

  /** The running `total`: a number, or a string once `+=` has concatenated. */
  datatype JsTotal = Num(n: nat) | Str(s: string)

  /** `if (PRICING[f]) total += PRICING[f]`, with JavaScript's `+`. */
  function AddAsWritten(total: JsTotal, l: Lookup): JsTotal
  {
    match l
    case Undefined => total
    case OwnPrice(p) =>
      (match total
       case Num(n) => Num(n + p)
       case Str(s) => Str(s + Decimal(p)))
    case InheritedMember(text) =>
      (match total
       case Num(n) => Str(Decimal(n) + text)
       case Str(s) => Str(s + text))
  }

  function FoldAsWritten(fs: seq<string>): JsTotal
  {
    if fs == [] then Num(PriceTable[BaseTheme])
    else AddAsWritten(FoldAsWritten(fs[..|fs| - 1]), LookupAsWritten(fs[|fs| - 1]))
  }

  function TotalAsWritten(features: StringsField): JsTotal
  {
    if features.Items? then FoldAsWritten(features.items) else Num(PriceTable[BaseTheme])
  }

  /** The source's total agrees with `Total` unless the list names an inherited key. */
  lemma {:induction false} AsWrittenAgreesOnOwnKeys(fs: seq<string>)
    requires forall k :: 0 <= k < |fs| ==> fs[k] !in InheritedKeys
    ensures TotalAsWritten(Items(fs)) == Num(Total(Items(fs)))
    decreases |fs|
  {
    if fs != [] {
      AsWrittenAgreesOnOwnKeys(fs[..|fs| - 1]);
    }
  }

  /** A list holding "constructor" turns the total into a string, though the
      key has no price of its own. */
  lemma ConstructorKeyCounterexample()
    ensures TotalAsWritten(Items(["constructor"])) == Str("49" + ObjectConstructorText)
    ensures Total(Items(["constructor"])) == 49
  {
    ConstructorIsInherited();
    DecimalOf49();
    FeatureSumSnoc([], "constructor");
    assert [] + ["constructor"] == ["constructor"];
    FoldOne("constructor");
  }

  lemma FoldOne(f: string)
    ensures FoldAsWritten([f]) == AddAsWritten(Num(49), LookupAsWritten(f))
  {
    assert [f][..0] == [];
  }

  lemma ConstructorIsInherited()
    ensures "constructor" !in PriceTable
    ensures LookupAsWritten("constructor") == InheritedMember(ObjectConstructorText)
  {
  }

  lemma DecimalOf49()
    ensures Decimal(49) == "49"
  {
    assert Decimal(4) == "4";
    assert Digit(9) == '9';
  }
}
