/** The `/predict` handler of the Flask back end: it builds a feature vector
    from the request body, asks the trained model for a price and answers
    with JSON. The pickled model and its column list are parameters: `columns`
    is `data_columns`, and `model` stands for `model.predict`, which yields
    `None` where the library raises. */
module Backend {
  import opened Values

  /** Why a request was answered with status 500. */
  datatype Failure =
    | KeyError(key: string)                 // `data[key]` on a missing key
    | IndexError(index: nat, size: nat)     // `x[index] = ...` beyond the vector
    | ConversionError(key: string)          // the value cannot be stored as a float
    | ModelError                            // `model.predict` raised

  /** A value in the JSON reply body. */
  datatype Reply = Price(price: real) | Message(failure: Failure)

  datatype Response = Response(status: int, body: map<string, Reply>)

  /** The request keys stored, in order, in slots 0, 1, 2 and 3. */
  const NumericKeys: seq<string> := ["bathrooms", "balcony", "rooms", "area"]

  /** The request keys one-hot encoded, in order. */
  const CategoryKeys: seq<string> := ["locality", "property_type", "availability"]

  /** How numpy stores a JSON value into a float slot: numbers as they are,
      booleans as 1 and 0; anything else fails. */
  function AsFloat(v: Json): (r: Option<real>)
    ensures r.Some? <==> v.Num? || v.Bool?
    ensures v.Num? ==> r == Some(v.n)
    ensures v.Bool? ==> r == Some(if v.b then 1.0 else 0.0)
  {
    match v
    case Num(n) => Some(n)
    case Bool(b) => Some(if b then 1.0 else 0.0)
    case _ => None
  }

  /** `columns.index(name)` when `name in columns`: the first position holding it. */
  function FirstIndex(columns: seq<string>, name: string): (r: Option<nat>)
    ensures r.None? <==> name !in columns
    ensures r.Some? ==> r.value < |columns| && columns[r.value] == name
    ensures r.Some? ==> forall j :: 0 <= j < r.value ==> columns[j] != name
  {
    if columns == [] then None
    else if columns[0] == name then Some(0)
    else match FirstIndex(columns[1..], name)
      case None => None
      case Some(k) => Some(k + 1)
  }

  /** The column a category value selects: only a string can equal a column
      name, and then the first column holding it. */
  function Category(v: Json, columns: seq<string>): (r: Option<nat>)
    ensures r.Some? <==> v.Str? && v.s in columns
    ensures r.Some? ==> r.value < |columns| && columns[r.value] == v.s
    ensures r.Some? ==> forall j :: 0 <= j < r.value ==> columns[j] != v.s
  {
    match v
    case Str(s) => FirstIndex(columns, s)
    case _ => None
  }

  /** `x[slot] = data[key]`: the lookup fails first, then the index, then the conversion. */
  function StoreNumber(x: seq<real>, slot: nat, data: map<string, Json>, key: string): (r: Result<seq<real>, Failure>)
    ensures r.Ok? <==> key in data && slot < |x| && AsFloat(data[key]).Some?
    ensures r.Ok? ==> r.value == x[slot := AsFloat(data[key]).value]
    ensures r.Err? && key !in data ==> r.error == KeyError(key)
  {
    if key !in data then Err(KeyError(key))
    else if slot >= |x| then Err(IndexError(slot, |x|))
    else match AsFloat(data[key])
      case None => Err(ConversionError(key))
      case Some(n) => Ok(x[slot := n])
  }

  /** `if data[key] in columns: x[columns.index(data[key])] = 1`. */
  function StoreCategory(x: seq<real>, columns: seq<string>, data: map<string, Json>, key: string)
    : (r: Result<seq<real>, Failure>)
    requires |x| == |columns|
    ensures r.Ok? <==> key in data
    ensures r.Err? ==> r.error == KeyError(key)
    ensures r.Ok? ==> |r.value| == |x|
    ensures r.Ok? ==> forall i :: 0 <= i < |x| ==>
      r.value[i] == if Category(data[key], columns) == Some(i) then 1.0 else x[i]
  {
    if key !in data then Err(KeyError(key))
    else match Category(data[key], columns)
      case None => Ok(x)
      case Some(i) => Ok(x[i := 1.0])
  }

  /** The feature vector, or the failure that ends the handler. */
  function Features(data: map<string, Json>, columns: seq<string>): (r: Result<seq<real>, Failure>)
    ensures r.Ok? ==> |r.value| == |columns|
    ensures r.Err? ==> !r.error.ModelError?
    ensures r.Err? && r.error.KeyError? ==> r.error.key !in data && r.error.key in NumericKeys + CategoryKeys
    ensures r.Err? && r.error.ConversionError? ==>
      r.error.key in NumericKeys && r.error.key in data && AsFloat(data[r.error.key]).None?
    ensures r.Err? && r.error.IndexError? ==> r.error.index < 4 && r.error.size == |columns| <= r.error.index
  {
    var x0 := seq(|columns|, _ => 0.0);
    var x1 :- StoreNumber(x0, 0, data, "bathrooms");
    var x2 :- StoreNumber(x1, 1, data, "balcony");
    var x3 :- StoreNumber(x2, 2, data, "rooms");
    var x4 :- StoreNumber(x3, 3, data, "area");
    var x5 :- StoreCategory(x4, columns, data, "locality");
    var x6 :- StoreCategory(x5, columns, data, "property_type");
    StoreCategory(x6, columns, data, "availability")
  }

  /** The reply for a feature vector, or for the failure that stopped it. */
  function Respond(features: Result<seq<real>, Failure>, model: seq<real> -> Option<real>): (resp: Response)
    ensures resp.status == 200 <==> features.Ok? && model(features.value).Some?
    ensures resp.status == 200 ==>
      resp.body == map["predicted_price" := Price(model(features.value).value)]
    ensures resp.status != 200 ==> resp.status == 500 && resp.body.Keys == {"error"}
    ensures features.Err? ==> resp.body == map["error" := Message(features.error)]
    ensures features.Ok? && model(features.value).None? ==> resp.body == map["error" := Message(ModelError)]
  {
    match features
    case Err(e) => Response(500, map["error" := Message(e)])
    case Ok(x) =>
      match model(x)
      case None => Response(500, map["error" := Message(ModelError)])
      case Some(price) => Response(200, map["predicted_price" := Price(price)])
  }

  // ---------------------------------------------------------------------
  // The handler, on a numpy-like array
  // ---------------------------------------------------------------------

  /** `x[slot] = data[key]` on the array. */
  method SetNumber(x: array<real>, slot: nat, data: map<string, Json>, key: string) returns (failure: Option<Failure>)
    modifies x
    ensures failure.None? <==> StoreNumber(old(x[..]), slot, data, key).Ok?
    ensures failure.None? ==> x[..] == StoreNumber(old(x[..]), slot, data, key).value
    ensures failure.Some? ==> failure.value == StoreNumber(old(x[..]), slot, data, key).error
    ensures failure.Some? ==> x[..] == old(x[..])
  {
    if key !in data {
      return Some(KeyError(key));
    }
    if slot >= x.Length {
      return Some(IndexError(slot, x.Length));
    }
    match AsFloat(data[key]) {
      case None =>
        return Some(ConversionError(key));
      case Some(n) =>
        x[slot] := n;
        return None;
    }
  }

  /** `if data[key] in columns: x[columns.index(data[key])] = 1` on the array. */
  method SetCategory(x: array<real>, columns: seq<string>, data: map<string, Json>, key: string)
    returns (failure: Option<Failure>)
    requires x.Length == |columns|
    modifies x
    ensures failure.None? <==> StoreCategory(old(x[..]), columns, data, key).Ok?
    ensures failure.None? ==> x[..] == StoreCategory(old(x[..]), columns, data, key).value
    ensures failure.Some? ==> failure.value == StoreCategory(old(x[..]), columns, data, key).error
    ensures failure.Some? ==> x[..] == old(x[..])
  {
    if key !in data {
      return Some(KeyError(key));
    }
    match Category(data[key], columns) {
      case None =>
        return None;
      case Some(i) =>
        x[i] := 1.0;
        return None;
    }
  }

  /** `predict()`: a zero vector as long as the column list, four numeric slots,
      three one-hot writes, then the model; any failure is a 500 reply. */
  method Predict(data: map<string, Json>, columns: seq<string>, model: seq<real> -> Option<real>)
    returns (resp: Response)
    ensures resp == Respond(Features(data, columns), model)
  {
    var x := new real[|columns|](_ => 0.0);
    assert x[..] == seq(|columns|, _ => 0.0);
    var failure := SetNumber(x, 0, data, "bathrooms");
    if failure.Some? { return Respond(Err(failure.value), model); }
    failure := SetNumber(x, 1, data, "balcony");
    if failure.Some? { return Respond(Err(failure.value), model); }
    failure := SetNumber(x, 2, data, "rooms");
    if failure.Some? { return Respond(Err(failure.value), model); }
    failure := SetNumber(x, 3, data, "area");
    if failure.Some? { return Respond(Err(failure.value), model); }
    failure := SetCategory(x, columns, data, "locality");
    if failure.Some? { return Respond(Err(failure.value), model); }
    failure := SetCategory(x, columns, data, "property_type");
    if failure.Some? { return Respond(Err(failure.value), model); }
    failure := SetCategory(x, columns, data, "availability");
    if failure.Some? { return Respond(Err(failure.value), model); }
    resp := Respond(Ok(x[..]), model);
  }

  // ---------------------------------------------------------------------
  // What the handler promises
  // ---------------------------------------------------------------------

  /** Every key the handler reads is present, every numeric one holds a number,
      and the vector has room for the four numeric slots. */
  predicate WellFormed(data: map<string, Json>, columns: seq<string>)
  {
    && |columns| >= 4
    && (forall k :: 0 <= k < 4 ==> NumericKeys[k] in data && AsFloat(data[NumericKeys[k]]).Some?)
    && (forall k :: 0 <= k < 3 ==> CategoryKeys[k] in data)
  }

  /** The handler fails exactly on malformed requests (or a short column list). */
  lemma FeaturesSucceedIffWellFormed(data: map<string, Json>, columns: seq<string>)
    ensures Features(data, columns).Ok? <==> WellFormed(data, columns)
  {
    if WellFormed(data, columns) {
      assert NumericKeys[0] in data && NumericKeys[1] in data;
      assert NumericKeys[2] in data && NumericKeys[3] in data;
      assert CategoryKeys[0] in data && CategoryKeys[1] in data && CategoryKeys[2] in data;
    } else if Features(data, columns).Ok? {
      forall k | 0 <= k < 4 ensures NumericKeys[k] in data && AsFloat(data[NumericKeys[k]]).Some? {
        assert k == 0 || k == 1 || k == 2 || k == 3;
      }
      forall k | 0 <= k < 3 ensures CategoryKeys[k] in data {
        assert k == 0 || k == 1 || k == 2;
      }
    }
  }

  /** The value stored in slot `slot` (0 to 3) before any one-hot write. */
  function NumericValue(data: map<string, Json>, slot: nat): real
    requires slot < 4
  {
    if NumericKeys[slot] in data && AsFloat(data[NumericKeys[slot]]).Some?
    then AsFloat(data[NumericKeys[slot]]).value
    else 0.0
  }

  /** Position `i` is selected by one of the three category values. */
  predicate IsHot(data: map<string, Json>, columns: seq<string>, i: nat)
  {
    exists k :: 0 <= k < 3 && CategoryKeys[k] in data && Category(data[CategoryKeys[k]], columns) == Some(i)
  }

  /** The whole feature vector: as long as the column list, 1 at every selected
      column (even one of the first four), the numeric values in slots 0 to 3
      otherwise, and 0 everywhere else. */
  lemma FeaturesContents(data: map<string, Json>, columns: seq<string>, i: nat)
    requires Features(data, columns).Ok?
    ensures |Features(data, columns).value| == |columns|
    ensures i < |columns| ==>
      Features(data, columns).value[i] ==
        if IsHot(data, columns, i) then 1.0
        else if i < 4 then NumericValue(data, i)
        else 0.0
  {
    FeaturesSucceedIffWellFormed(data, columns);
    var x0 := seq(|columns|, _ => 0.0);
    var x1 := StoreNumber(x0, 0, data, "bathrooms").value;
    var x2 := StoreNumber(x1, 1, data, "balcony").value;
    var x3 := StoreNumber(x2, 2, data, "rooms").value;
    var x4 := StoreNumber(x3, 3, data, "area").value;
    var x5 := StoreCategory(x4, columns, data, "locality").value;
    var x6 := StoreCategory(x5, columns, data, "property_type").value;
    var x7 := StoreCategory(x6, columns, data, "availability").value;
    assert Features(data, columns).value == x7;
    if i < |columns| {
      assert x4[i] == if i < 4 then NumericValue(data, i) else 0.0;
      var hot := Category(data["locality"], columns) == Some(i)
        || Category(data["property_type"], columns) == Some(i)
        || Category(data["availability"], columns) == Some(i);
      assert x7[i] == if hot then 1.0 else x4[i];
      if hot {
        if Category(data["locality"], columns) == Some(i) {
          assert CategoryKeys[0] == "locality";
        } else if Category(data["property_type"], columns) == Some(i) {
          assert CategoryKeys[1] == "property_type";
        } else {
          assert CategoryKeys[2] == "availability";
        }
      } else {
        assert !IsHot(data, columns, i);
      }
    }
  }

  /** A successful reply is exactly `{"predicted_price": price}` for the model's
      price of the feature vector; a failure is `{"error": ...}` with status 500. */
  lemma PredictReply(data: map<string, Json>, columns: seq<string>, model: seq<real> -> Option<real>)
    ensures var resp := Respond(Features(data, columns), model);
      && (resp.status == 200 ==> WellFormed(data, columns) && resp.body.Keys == {"predicted_price"})
      && (!WellFormed(data, columns) ==> resp.status == 500 && resp.body.Keys == {"error"})
      && (resp.status != 200 ==> resp.status == 500 && "predicted_price" !in resp.body)
  {
    FeaturesSucceedIffWellFormed(data, columns);
  }

  /** A request without a balcony field is refused, whatever else it holds. */
  lemma MissingBalconyFails(data: map<string, Json>, columns: seq<string>, model: seq<real> -> Option<real>)
    requires "balcony" !in data
    ensures Respond(Features(data, columns), model) == Response(500, map["error" := Message(
      if "bathrooms" !in data then KeyError("bathrooms")
      else if |columns| == 0 then IndexError(0, 0)
      else if AsFloat(data["bathrooms"]).None? then ConversionError("bathrooms")
      else KeyError("balcony"))])
  {
  }
}
