/**
 * The model-catalogue decoding of xilma/ai_client.py: `_extract_price`,
 * `_extract_models` and the ordering of the result by model id.
 */
module Models {
  import opened Wrappers
  import opened Json

  /** `ModelInfo`: a model id and the price found for it, if any. */
  datatype ModelInfo = ModelInfo(modelId: string, price: Option<real>)

  // ---------------------------------------------------------------------------
  // Prices

  const PricingKeys: seq<string> := ["input", "output", "prompt", "completion", "input_cost", "output_cost"]

  const FlatPriceKeys: seq<string> :=
    ["input_price", "output_price", "prompt_price", "completion_price", "price_input", "price_output", "price_per_token"]

  /** The numbers found under `keys`, in key order (`isinstance(v, (int, float))`, so booleans count). */
  function Parts(d: map<string, Json>, keys: seq<string>): (r: seq<real>)
    ensures |r| <= |keys|
    ensures r == [] <==> forall k :: k in keys ==> AsNumber(Get(d, k)).None?
  {
    if keys == [] then []
    else
      var init := Parts(d, keys[..|keys| - 1]);
      var last := keys[|keys| - 1];
      assert forall k :: k in keys <==> k in keys[..|keys| - 1] || k == last;
      match AsNumber(Get(d, last))
      case Some(v) => init + [v]
      case None => init
  }

  function Sum(xs: seq<real>): real {
    if xs == [] then 0.0 else Sum(xs[..|xs| - 1]) + xs[|xs| - 1]
  }

  /** The number under `k`, with a missing or non-numeric value counting as 0. */
  function NumOr0(d: map<string, Json>, k: string): real {
    match AsNumber(Get(d, k))
    case Some(v) => v
    case None => 0.0
  }

  /** The total over every one of `keys`, each read with `NumOr0`. */
  function SumOver(d: map<string, Json>, keys: seq<string>): real {
    if keys == [] then 0.0 else NumOr0(d, keys[0]) + SumOver(d, keys[1..])
  }

  lemma SumOverSnoc(d: map<string, Json>, keys: seq<string>)
    requires keys != []
    ensures SumOver(d, keys) == SumOver(d, keys[..|keys| - 1]) + NumOr0(d, keys[|keys| - 1])
    decreases |keys|
  {
    if |keys| > 1 {
      assert keys[1..][..|keys[1..]| - 1] == keys[..|keys| - 1][1..];
      SumOverSnoc(d, keys[1..]);
    }
  }

  /** Every part is the number held by one of the keys. */
  lemma {:induction false} PartsFromKeys(d: map<string, Json>, keys: seq<string>)
    ensures forall x :: x in Parts(d, keys) ==> exists k :: k in keys && AsNumber(Get(d, k)) == Some(x)
    decreases |keys|
  {
    if keys != [] {
      var init := keys[..|keys| - 1];
      PartsFromKeys(d, init);
      assert forall k :: k in init ==> k in keys;
    }
  }

  /** The pricing parts add up to the total over all the keys, non-numbers counting as 0. */
  lemma {:induction false} PartsSum(d: map<string, Json>, keys: seq<string>)
    ensures Sum(Parts(d, keys)) == SumOver(d, keys)
    decreases |keys|
  {
    if keys != [] {
      var init := keys[..|keys| - 1];
      PartsSum(d, init);
      SumOverSnoc(d, keys);
      var p := Parts(d, init);
      match AsNumber(Get(d, keys[|keys| - 1]))
      case Some(v) =>
        assert (p + [v])[..|p + [v]| - 1] == p;
      case None =>
    }
  }

  /** The first number found under `keys`, in key order. */
  function FirstNumber(d: map<string, Json>, keys: seq<string>): (r: Option<real>)
    ensures r.None? <==> forall k :: k in keys ==> AsNumber(Get(d, k)).None?
    ensures r.Some? ==> exists i :: 0 <= i < |keys| && AsNumber(Get(d, keys[i])) == r
                                    && forall j :: 0 <= j < i ==> AsNumber(Get(d, keys[j])).None?
  {
    if keys == [] then None
    else if AsNumber(Get(d, keys[0])).Some? then
      AsNumber(Get(d, keys[0]))
    else
      var r := FirstNumber(d, keys[1..]);
      assert forall k :: k in keys <==> k == keys[0] || k in keys[1..];
      if r.Some? then
        var i :| 0 <= i < |keys[1..]| && AsNumber(Get(d, keys[1..][i])) == r
                 && forall j :: 0 <= j < i ==> AsNumber(Get(d, keys[1..][j])).None?;
        assert AsNumber(Get(d, keys[i + 1])) == r;
        r
      else r
  }

  /**
   * `_extract_price`: a truthy number under `price` (or else `cost`) wins; then the
   * sum of the numbers in a `pricing` object, if it has any; then the first number
   * under one of the flat price keys.
   */
  function PriceOf(item: map<string, Json>): Option<real> {
    var direct := AsNumber(Or(Get(item, "price"), Get(item, "cost")));
    if direct.Some? then direct
    else
      var pricing := Get(item, "pricing");
      if pricing.JObj? && Parts(pricing.fields, PricingKeys) != [] then Some(Sum(Parts(pricing.fields, PricingKeys)))
      else FirstNumber(item, FlatPriceKeys)
  }

  /**
   * The three rules of `_extract_price` for every item: a number under `price or cost`;
   * else, when `pricing` is an object with a number under some pricing key, the total
   * of the pricing keys; else the first flat key holding a number.
   */
  lemma PriceOfMeaning(item: map<string, Json>)
    ensures var direct := AsNumber(Or(Get(item, "price"), Get(item, "cost")));
            var pricing := Get(item, "pricing");
            PriceOf(item)
              == if direct.Some? then direct
                 else if pricing.JObj? && exists k :: k in PricingKeys && AsNumber(Get(pricing.fields, k)).Some?
                 then Some(SumOver(pricing.fields, PricingKeys))
                 else FirstNumber(item, FlatPriceKeys)
  {
    var pricing := Get(item, "pricing");
    if pricing.JObj? {
      PartsSum(pricing.fields, PricingKeys);
    }
  }

  /** An item that mentions none of the price keys has no price. */
  lemma PriceAbsent(item: map<string, Json>)
    requires "price" !in item && "cost" !in item && "pricing" !in item
    requires forall k :: k in FlatPriceKeys ==> k !in item
    ensures PriceOf(item) == None
  {
  }

  /** `price: 0` is falsy, so `cost` is consulted; `price: true` counts as 1. */
  lemma PriceTruthiness()
    ensures PriceOf(map["price" := JInt(0), "cost" := JInt(2)]) == Some(2.0)
    ensures PriceOf(map["price" := JBool(true)]) == Some(1.0)
  {
    var a := map["price" := JInt(0), "cost" := JInt(2)];
    assert Or(Get(a, "price"), Get(a, "cost")) == JInt(2);
  }

  /**
   * The numbers of a `pricing` object add up, and then no flat key is read: an item
   * without `price` or `cost` whose pricing holds numbers under `input` and
   * `output` only is priced at their sum.
   */
  lemma PriceFromPricing(item: map<string, Json>, p: map<string, Json>, x: real, y: real)
    requires "price" !in item && "cost" !in item && Get(item, "pricing") == JObj(p)
    requires p.Keys == {"input", "output"} && AsNumber(p["input"]) == Some(x) && AsNumber(p["output"]) == Some(y)
    ensures PriceOf(item) == Some(x + y)
  {
    PriceOfMeaning(item);
    var keys := PricingKeys;
    assert keys[0] == "input" && keys[1] == "output" && keys[1..][1..] == keys[2..];
    assert AsNumber(Get(p, keys[0])).Some?;
    assert SumOver(p, keys) == x + SumOver(p, keys[1..]);
    assert SumOver(p, keys[1..]) == y + SumOver(p, keys[2..]);
    OtherPricingKeys(p);
    SumOverAbsent(p, keys[2..]);
  }

  lemma OtherPricingKeys(p: map<string, Json>)
    requires p.Keys == {"input", "output"}
    ensures forall k :: k in PricingKeys[2..] ==> k !in p
  {
    var rest := PricingKeys[2..];
    assert rest == ["prompt", "completion", "input_cost", "output_cost"];
    assert "prompt"[0] != "input"[0] && "prompt"[0] != "output"[0];
    assert "completion"[0] != "input"[0] && "completion"[0] != "output"[0];
    assert |"input_cost"| != |"input"| && |"input_cost"| != |"output"|;
    assert |"output_cost"| != |"input"| && |"output_cost"| != |"output"|;
  }

  /** Keys missing from the object add nothing to the total. */
  lemma {:induction false} SumOverAbsent(d: map<string, Json>, keys: seq<string>)
    requires forall k :: k in keys ==> k !in d
    ensures SumOver(d, keys) == 0.0
    decreases |keys|
  {
    if keys != [] {
      assert keys[0] in keys;
      SumOverAbsent(d, keys[1..]);
    }
  }

  /** Keys missing from the object add no part. */
  lemma {:induction false} PartsAbsent(d: map<string, Json>, keys: seq<string>, extra: seq<string>)
    requires forall k :: k in extra ==> k !in d
    ensures Parts(d, keys + extra) == Parts(d, keys)
    decreases |extra|
  {
    if extra != [] {
      var init, last := extra[..|extra| - 1], extra[|extra| - 1];
      assert (keys + extra)[..|keys + extra| - 1] == keys + init;
      assert (keys + extra)[|keys + extra| - 1] == last;
      assert last in extra && Get(d, last) == JNull;
      PartsAbsent(d, keys, init);
    } else {
      assert keys + extra == keys;
    }
  }

  /**
   * With no direct price and no number in `pricing`, the first flat key holding a
   * number wins: a missing `input_price` passes to `output_price`.
   */
  lemma PriceFromFlatKeys(item: map<string, Json>, v: real)
    requires "price" !in item && "cost" !in item && Get(item, "pricing") == JObj(map[])
    requires "input_price" !in item && "output_price" in item && AsNumber(item["output_price"]) == Some(v)
    ensures PriceOf(item) == Some(v)
  {
    var empty: map<string, Json> := map[];
    PartsAbsent(empty, [], PricingKeys);
    assert [] + PricingKeys == PricingKeys;
    assert FlatPriceKeys[0] == "input_price" && FlatPriceKeys[1] == "output_price";
    assert FlatPriceKeys[1..][0] == "output_price";
    assert FirstNumber(item, FlatPriceKeys) == FirstNumber(item, FlatPriceKeys[1..]);
  }

  /** The `pricing` loop of `_extract_price`. */
  method PricingParts(pricing: map<string, Json>) returns (parts: seq<real>)
    ensures parts == Parts(pricing, PricingKeys)
  {
    parts := [];
    for i := 0 to |PricingKeys|
      invariant parts == Parts(pricing, PricingKeys[..i])
    {
      assert PricingKeys[..i + 1][..i] == PricingKeys[..i];
      var value := AsNumber(Get(pricing, PricingKeys[i]));
      if value.Some? {
        parts := parts + [value.value];
      }
    }
    assert PricingKeys[..|PricingKeys|] == PricingKeys;
  }

  /** `_extract_price`, with its two loops over the key lists. */
  method ExtractPrice(item: map<string, Json>) returns (price: Option<real>)
    ensures price == PriceOf(item)
  {
    var direct := Or(Get(item, "price"), Get(item, "cost"));
    if AsNumber(direct).Some? {
      return AsNumber(direct);
    }
    var pricing := Get(item, "pricing");
    if pricing.JObj? {
      var parts := PricingParts(pricing.fields);
      if parts != [] {
        var total := 0.0;
        for i := 0 to |parts|
          invariant total == Sum(parts[..i])
        {
          assert parts[..i + 1][..i] == parts[..i];
          total := total + parts[i];
        }
        assert parts[..|parts|] == parts;
        return Some(total);
      }
    }
    for i := 0 to |FlatPriceKeys|
      invariant FirstNumber(item, FlatPriceKeys) == FirstNumber(item, FlatPriceKeys[i..])
    {
      var value := AsNumber(Get(item, FlatPriceKeys[i]));
      assert FlatPriceKeys[i..][1..] == FlatPriceKeys[i + 1..];
      if value.Some? {
        return value;
      }
    }
    return None;
  }

  // ---------------------------------------------------------------------------
  // Model ids and their order

  /** Python's `<` on `str`: code point by code point, a proper prefix first. */
  predicate LexLess(a: string, b: string)
    decreases |a|
  {
    if a == [] then b != []
    else if b == [] then false
    else if a[0] != b[0] then a[0] < b[0]
    else LexLess(a[1..], b[1..])
  }

  lemma {:induction false} LexLessIrreflexive(a: string)
    ensures !LexLess(a, a)
    decreases |a|
  {
    if a != [] {
      LexLessIrreflexive(a[1..]);
    }
  }

  lemma {:induction false} LexLessTransitive(a: string, b: string, c: string)
    requires LexLess(a, b) && LexLess(b, c)
    ensures LexLess(a, c)
    decreases |a|
  {
    if a != [] && b != [] && c != [] && a[0] == b[0] && b[0] == c[0] {
      LexLessTransitive(a[1..], b[1..], c[1..]);
    }
  }

  lemma {:induction false} LexLessTotal(a: string, b: string)
    ensures a == b || LexLess(a, b) || LexLess(b, a)
    decreases |a|
  {
    if a != [] && b != [] && a[0] == b[0] {
      LexLessTotal(a[1..], b[1..]);
      if a[1..] == b[1..] {
        assert a == [a[0]] + a[1..] && b == [b[0]] + b[1..];
      }
    }
  }

  lemma LexLessAsymmetric(a: string, b: string)
    requires LexLess(a, b)
    ensures !LexLess(b, a)
  {
    if LexLess(b, a) {
      LexLessTransitive(a, b, a);
      LexLessIrreflexive(a);
    }
  }

  function Ids(ms: seq<ModelInfo>): set<string> {
    set m | m in ms :: m.modelId
  }

  predicate UniqueIds(ms: seq<ModelInfo>) {
    forall i, j :: 0 <= i < j < |ms| ==> ms[i].modelId != ms[j].modelId
  }

  /** Strictly increasing model ids: what `sorted(..., key=model_id)` gives on distinct ids. */
  predicate SortedById(ms: seq<ModelInfo>) {
    forall i, j {:trigger LexLess(ms[i].modelId, ms[j].modelId)} :: 0 <= i < j < |ms| ==> LexLess(ms[i].modelId, ms[j].modelId)
  }

  /** Inserts `m` at its place in a sorted list. */
  function Insert(m: ModelInfo, s: seq<ModelInfo>): (r: seq<ModelInfo>)
    ensures multiset(r) == multiset(s) + multiset{m}
  {
    if s == [] then [m]
    else if LexLess(m.modelId, s[0].modelId) then [m] + s
    else
      assert s == [s[0]] + s[1..];
      [s[0]] + Insert(m, s[1..])
  }

  lemma {:induction false} InsertSorted(m: ModelInfo, s: seq<ModelInfo>)
    requires SortedById(s) && m.modelId !in Ids(s)
    ensures SortedById(Insert(m, s))
  {
    if s == [] {
    } else if LexLess(m.modelId, s[0].modelId) {
      forall j | 0 < j < |s| ensures LexLess(m.modelId, s[j].modelId) {
        LexLessTransitive(m.modelId, s[0].modelId, s[j].modelId);
      }
    } else {
      assert s[0] in s;
      LexLessTotal(m.modelId, s[0].modelId);
      assert Ids(s[1..]) <= Ids(s) by {
        forall x | x in s[1..] ensures x in s {}
      }
      InsertSorted(m, s[1..]);
      var rest := Insert(m, s[1..]);
      forall x | x in rest ensures LexLess(s[0].modelId, x.modelId) {
        assert x in multiset(rest);
        if x != m {
          assert x in multiset(s[1..]);
          var j :| 0 <= j < |s[1..]| && s[1..][j] == x;
          assert s[j + 1] == x;
        }
      }
      SortedCons(s[0], rest);
    }
  }

  lemma SortedCons(h: ModelInfo, t: seq<ModelInfo>)
    requires SortedById(t) && forall x :: x in t ==> LexLess(h.modelId, x.modelId)
    ensures SortedById([h] + t)
  {
    var r := [h] + t;
    forall i, j | 0 <= i < j < |r| ensures LexLess(r[i].modelId, r[j].modelId) {
      if i == 0 {
        assert r[j] == t[j - 1];
        assert t[j - 1] in t;
      } else {
        assert r[i] == t[i - 1] && r[j] == t[j - 1];
      }
    }
  }

  /** `sorted(models, key=lambda m: m.model_id)` on distinct ids. */
  function SortById(ms: seq<ModelInfo>): (r: seq<ModelInfo>)
    requires UniqueIds(ms)
    ensures SortedById(r) && multiset(r) == multiset(ms)
  {
    if ms == [] then []
    else
      var init := ms[..|ms| - 1];
      var last := ms[|ms| - 1];
      assert UniqueIds(init);
      var sorted := SortById(init);
      assert last.modelId !in Ids(sorted) by {
        forall x | x in sorted ensures x.modelId != last.modelId {
          assert x in multiset(init);
          var j :| 0 <= j < |init| && init[j] == x;
        }
      }
      assert ms == init + [last];
      InsertSorted(last, sorted);
      Insert(last, sorted)
  }

  // ---------------------------------------------------------------------------
  // `_extract_models`

  /** The list `_extract_models` walks: `data`, else `models`, of an object; a bare list; else nothing. */
  function Items(payload: Json): seq<Json> {
    match payload
    case JObj(f) =>
      if Get(f, "data").JList? then Get(f, "data").items
      else if Get(f, "models").JList? then Get(f, "models").items
      else []
    case JList(items) => items
    case _ => []
  }

  /** The model one item names: a non-empty string, or an object's first truthy `id`, `model` or `name`. */
  function Candidate(item: Json): (r: Option<ModelInfo>)
    ensures r.Some? ==> r.value.modelId != []
  {
    match item
    case JStr(s) => if s != [] then Some(ModelInfo(s, None)) else None
    case JObj(f) =>
      var id := Or(Or(Get(f, "id"), Get(f, "model")), Get(f, "name"));
      if id.JStr? && id.s != [] then Some(ModelInfo(id.s, PriceOf(f))) else None
    case _ => None
  }

  /**
   * An object's id is its first truthy `id`, `model` or `name`: a non-empty string
   * `id` wins whatever the others hold, and a falsy `id` passes on to `model`, then
   * a falsy `model` to `name`.
   */
  lemma CandidateOrder(f: map<string, Json>)
    ensures Get(f, "id").JStr? && Get(f, "id").s != [] ==>
              Candidate(JObj(f)) == Some(ModelInfo(Get(f, "id").s, PriceOf(f)))
    ensures !Truthy(Get(f, "id")) && Get(f, "model").JStr? && Get(f, "model").s != [] ==>
              Candidate(JObj(f)) == Some(ModelInfo(Get(f, "model").s, PriceOf(f)))
    ensures !Truthy(Get(f, "id")) && !Truthy(Get(f, "model")) && Get(f, "name").JStr? && Get(f, "name").s != [] ==>
              Candidate(JObj(f)) == Some(ModelInfo(Get(f, "name").s, PriceOf(f)))
    ensures !Truthy(Get(f, "id")) && !Truthy(Get(f, "model")) && !Truthy(Get(f, "name")) ==> Candidate(JObj(f)) == None
    ensures Truthy(Get(f, "id")) && !Get(f, "id").JStr? ==> Candidate(JObj(f)) == None
  {
  }

  /** The first model named for each id, in the order the items list them. */
  function Kept(items: seq<Json>): (r: seq<ModelInfo>)
    ensures UniqueIds(r)
  {
    if items == [] then []
    else
      var init := Kept(items[..|items| - 1]);
      var c := Candidate(items[|items| - 1]);
      if c.Some? && c.value.modelId !in Ids(init) then
        var r := init + [c.value];
        assert forall i, j :: 0 <= i < j < |init| ==> r[i] == init[i] && r[j] == init[j];
        assert forall i :: 0 <= i < |init| ==> r[i] in init;
        r
      else init
  }

  /** Every kept model is the one some item names. */
  lemma {:induction false} KeptFromItems(items: seq<Json>)
    ensures forall m :: m in Kept(items) ==> exists i :: 0 <= i < |items| && Candidate(items[i]) == Some(m)
  {
    if items != [] {
      var init := items[..|items| - 1];
      KeptFromItems(init);
      assert forall i :: 0 <= i < |init| ==> init[i] == items[i];
      var c := Candidate(items[|items| - 1]);
      forall m | m in Kept(items) ensures exists i :: 0 <= i < |items| && Candidate(items[i]) == Some(m) {
        if m in Kept(init) {
          var i :| 0 <= i < |init| && Candidate(init[i]) == Some(m);
          assert Candidate(items[i]) == Some(m);
        } else {
          assert Candidate(items[|items| - 1]) == Some(m);
        }
      }
    }
  }

  /** Item `i` names `m`, and no earlier item names a model with `m`'s id. */
  predicate FirstNaming(items: seq<Json>, i: int, m: ModelInfo) {
    && 0 <= i < |items| && Candidate(items[i]) == Some(m)
    && forall j :: 0 <= j < i ==> Candidate(items[j]).None? || Candidate(items[j]).value.modelId != m.modelId
  }

  /** The first item wins: each kept model is the one named by the first item carrying its id. */
  lemma {:induction false} KeptFirstWins(items: seq<Json>)
    ensures forall m :: m in Kept(items) ==> exists i :: FirstNaming(items, i, m)
  {
    if items != [] {
      var init := items[..|items| - 1];
      KeptFirstWins(init);
      KeptIds(init);
      assert forall i :: 0 <= i < |init| ==> init[i] == items[i];
      var c := Candidate(items[|items| - 1]);
      forall m | m in Kept(items) ensures exists i :: FirstNaming(items, i, m) {
        if m in Kept(init) {
          var i :| FirstNaming(init, i, m);
          assert FirstNaming(items, i, m);
        } else {
          var last := |items| - 1;
          assert c == Some(m) && m.modelId !in Ids(Kept(init));
          forall j | 0 <= j < last ensures Candidate(items[j]).None? || Candidate(items[j]).value.modelId != m.modelId {
            assert Candidate(init[j]) == Candidate(items[j]);
          }
          assert FirstNaming(items, last, m);
        }
      }
    }
  }

  /** Every id some item names is kept, once. */
  lemma {:induction false} KeptIds(items: seq<Json>)
    ensures Ids(Kept(items)) == set i | 0 <= i < |items| && Candidate(items[i]).Some? :: Candidate(items[i]).value.modelId
  {
    if items != [] {
      var init := items[..|items| - 1];
      KeptIds(init);
      var k := Kept(init);
      var c := Candidate(items[|items| - 1]);
      var r := Kept(items);
      assert r == if c.Some? && c.value.modelId !in Ids(k) then k + [c.value] else k;
      assert Ids(k + (if c.Some? then [c.value] else [])) == Ids(k) + (if c.Some? then {c.value.modelId} else {}) by {
        var extra := if c.Some? then [c.value] else [];
        assert forall m :: m in k + extra <==> m in k || m in extra;
      }
      assert forall i :: 0 <= i < |init| ==> init[i] == items[i];
    }
  }

  /** `_extract_models`: the kept models, ordered by id. */
  function ExtractedModels(payload: Json): seq<ModelInfo> {
    SortById(Kept(Items(payload)))
  }

  /** The extracted models are sorted by id, have distinct ids, and are the kept ones reordered. */
  lemma ExtractedModelsSorted(payload: Json)
    ensures var r := ExtractedModels(payload);
      SortedById(r) && UniqueIds(r) && multiset(r) == multiset(Kept(Items(payload)))
  {
    var r := ExtractedModels(payload);
    forall i, j | 0 <= i < j < |r| ensures r[i].modelId != r[j].modelId {
      if r[i].modelId == r[j].modelId {
        LexLessIrreflexive(r[i].modelId);
      }
    }
  }

  lemma IdsSnoc(ms: seq<ModelInfo>, m: ModelInfo)
    ensures Ids(ms + [m]) == Ids(ms) + {m.modelId}
  {
    assert forall x :: x in ms + [m] <==> x in ms || x == m;
  }

  lemma KeptSnoc(items: seq<Json>, x: Json)
    ensures var c := Candidate(x);
      Kept(items + [x]) == if c.Some? && c.value.modelId !in Ids(Kept(items)) then Kept(items) + [c.value] else Kept(items)
  {
    assert (items + [x])[..|items|] == items;
  }

  lemma KeptFirst(b: ModelInfo, y: Json)
    requires b == ModelInfo("b", None) && y == JStr("b")
    ensures Kept([y]) == [b]
  {
    var s0: seq<Json> := [];
    KeptSnoc(s0, y);
    assert s0 + [y] == [y];
  }

  lemma KeptBlank(b: ModelInfo, y: Json, blank: Json)
    requires b == ModelInfo("b", None) && y == JStr("b") && blank == JStr("")
    ensures Kept([y, blank]) == [b]
  {
    KeptFirst(b, y);
    KeptSnoc([y], blank);
    assert [y] + [blank] == [y, blank];
  }

  lemma KeptThird(a: ModelInfo, b: ModelInfo, x: Json, y: Json, blank: Json)
    requires a.modelId == "a" && b == ModelInfo("b", None) && Candidate(x) == Some(a)
    requires y == JStr("b") && blank == JStr("")
    ensures Kept([y, blank, x]) == [b, a]
  {
    KeptBlank(b, y, blank);
    KeptSnoc([y, blank], x);
    assert Ids([b]) == {"b"};
    assert [y, blank] + [x] == [y, blank, x];
  }

  /** A repeated id keeps its first model, and a blank id names none. */
  lemma KeptExample(a: ModelInfo, b: ModelInfo, x: Json, y: Json, blank: Json)
    requires a.modelId == "a" && b == ModelInfo("b", None) && Candidate(x) == Some(a)
    requires y == JStr("b") && blank == JStr("")
    ensures Kept([y, blank, x, y]) == [b, a]
  {
    KeptThird(a, b, x, y, blank);
    KeptSnoc([y, blank, x], y);
    assert b in [b, a];
    assert [y, blank, x] + [y] == [y, blank, x, y];
  }

  lemma SortExample(a: ModelInfo, b: ModelInfo)
    requires a.modelId == "a" && b.modelId == "b"
    ensures SortById([b, a]) == [a, b]
  {
    assert LexLess("a", "b");
    assert [b, a][..1] == [b];
    assert [b][..0] == [];
    assert SortById([b]) == [b];
  }

  /**
   * Duplicates collapse to the first occurrence, blank ids are dropped, and ids
   * come out sorted: `data` listing `"b"`, `""`, an item naming `a`, and `"b"` again.
   */
  lemma ExtractedModelsExample(x: Json, y: Json, blank: Json, items: seq<Json>)
    requires Candidate(x) == Some(ModelInfo("a", Some(3.0)))
    requires y == JStr("b") && blank == JStr("") && items == [y, blank, x, y]
    ensures ExtractedModels(JObj(map["data" := JList(items)])) == [ModelInfo("a", Some(3.0)), ModelInfo("b", None)]
  {
    var a := ModelInfo("a", Some(3.0));
    var b := ModelInfo("b", None);
    var payload := JObj(map["data" := JList(items)]);
    assert Items(payload) == items;
    KeptExample(a, b, x, y, blank);
    SortExample(a, b);
  }

  /** An object whose `id` is `a` and whose `price` is 3 names model `a` at price 3. */
  lemma CandidatePriced(f: map<string, Json>)
    requires f == map["id" := JStr("a"), "price" := JInt(3)]
    ensures Candidate(JObj(f)) == Some(ModelInfo("a", Some(3.0)))
  {
    assert Or(Or(Get(f, "id"), Get(f, "model")), Get(f, "name")) == JStr("a");
    assert Or(Get(f, "price"), Get(f, "cost")) == JInt(3);
  }

  /** The loop of `_extract_models` with its `seen` set, then the sort. */
  method ExtractModels(payload: Json) returns (models: seq<ModelInfo>)
    ensures models == ExtractedModels(payload)
  {
    var items := Items(payload);
    var kept: seq<ModelInfo> := [];
    var seen: set<string> := {};
    for i := 0 to |items|
      invariant kept == Kept(items[..i]) && seen == Ids(kept)
    {
      KeptSnoc(items[..i], items[i]);
      assert items[..i + 1] == items[..i] + [items[i]];
      var candidate := Candidate(items[i]);
      if candidate.Some? && candidate.value.modelId !in seen {
        IdsSnoc(kept, candidate.value);
        seen := seen + {candidate.value.modelId};
        kept := kept + [candidate.value];
      }
    }
    assert items[..|items|] == items;
    models := SortById(kept);
  }
}
