/** The estimation form that posts to the back end
    (`frontend/src/components/PredictionForm.tsx`). The request itself is not
    modelled: `Submit` hands back the body it would post, and `Settle` receives
    what came back. */
module ServiceForm {
  import opened Values
  import Backend

  /** The form fields a submission reads. */
  datatype Fields = Fields(address: string, sqft: int, bedrooms: int, bathrooms: real, propertyType: string)

  /** What the request produced: a reply with its status and body, or no reply. */
  datatype Outcome = Received(status: int, body: map<string, Json>) | NetworkError

  datatype PriceRange = PriceRange(min: real, max: real)

  const BedroomOptions: set<int> := {1, 2, 3, 4, 5, 6}
  const BathroomOptions: set<real> := {1.0, 1.5, 2.0, 2.5, 3.0, 3.5, 4.0}
  const PropertyTypeOptions: set<string> := {"single-family", "condo", "townhouse", "multi-family"}
  const FailureToast: string := "Failed to fetch prediction. Please try again."

  /** The request body: the form fields under the back end's names. */
  function Payload(f: Fields): (body: map<string, Json>)
    ensures body.Keys == {"area", "rooms", "locality", "bathrooms", "property_type"}
  {
    map[
      "area" := Num(f.sqft as real),
      "rooms" := Num(f.bedrooms as real),
      "locality" := Str(f.address),
      "bathrooms" := Num(f.bathrooms),
      "property_type" := Str(f.propertyType)]
  }

  /** Reads the fields back out of a request body, when it has the payload's shape. */
  function FieldsOf(body: map<string, Json>): Option<Fields>
  {
    if && "area" in body && body["area"].Num? && body["area"].n.Floor as real == body["area"].n
       && "rooms" in body && body["rooms"].Num? && body["rooms"].n.Floor as real == body["rooms"].n
       && "locality" in body && body["locality"].Str?
       && "bathrooms" in body && body["bathrooms"].Num?
       && "property_type" in body && body["property_type"].Str?
    then Some(Fields(body["locality"].s, body["area"].n.Floor, body["rooms"].n.Floor,
                     body["bathrooms"].n, body["property_type"].s))
    else None
  }

  /** The renaming loses nothing: each field is sent under exactly one key. */
  lemma PayloadRoundTrip(f: Fields)
    ensures FieldsOf(Payload(f)) == Some(f)
  {
    var body := Payload(f);
    assert body["area"] == Num(f.sqft as real);
    assert body["rooms"] == Num(f.bedrooms as real);
  }

  /** `response.data.predicted_price`: `undefined` when the key is absent. */
  function PredictedPrice(body: map<string, Json>): JsValue
  {
    if "predicted_price" in body then Js(body["predicted_price"]) else Undefined
  }

  /** The reply carries `predicted_price` as JSON `null`, the one value that
      leaves `result !== null` false. */
  predicate NullPrice(body: map<string, Json>)
  {
    "predicted_price" in body && body["predicted_price"] == Null
  }

  /** axios settles a request successfully only for a 2xx status. */
  predicate Succeeded(outcome: Outcome)
  {
    outcome.Received? && 200 <= outcome.status < 300
  }

  /** What the browser gets back from the back end for a reply of the Flask handler. */
  function Delivered(resp: Backend.Response): Outcome
  {
    Received(resp.status, map k | k in resp.body :: ReplyJson(resp.body[k]))
  }

  function ReplyJson(r: Backend.Reply): Json
  {
    match r
    case Price(p) => Num(p)
    case Message(_) => Str("error")
  }

  /** Whenever the Flask handler answers with a price, the browser sees a 2xx
      reply and the form stores exactly that price, which is not `null`. */
  lemma ServedPriceReachesForm(data: map<string, Json>, columns: seq<string>, model: seq<real> -> Option<real>)
    requires Backend.Respond(Backend.Features(data, columns), model).status == 200
    ensures var outcome := Delivered(Backend.Respond(Backend.Features(data, columns), model));
      && Succeeded(outcome)
      && !NullPrice(outcome.body)
      && PredictedPrice(outcome.body) == Js(Num(model(Backend.Features(data, columns).value).value))
  {
    var resp := Backend.Respond(Backend.Features(data, columns), model);
    var price := model(Backend.Features(data, columns).value).value;
    assert resp.body == map["predicted_price" := Backend.Price(price)];
    assert Delivered(resp).body == map["predicted_price" := Num(price)];
  }

  /** The payload never carries `balcony` (nor `availability`), which the back
      end reads, so every submission this form makes is refused with status 500. */
  lemma PayloadAlwaysRefused(f: Fields, columns: seq<string>, model: seq<real> -> Option<real>)
    ensures Backend.Respond(Backend.Features(Payload(f), columns), model).status == 500
    ensures !Succeeded(Delivered(Backend.Respond(Backend.Features(Payload(f), columns), model)))
  {
    var body := Payload(f);
    assert "balcony" !in body;
    Backend.MissingBalconyFails(body, columns, model);
  }

  class Form {
    var loading: bool
    /** `null`, `undefined`, or whatever JSON value a reply carried. */
    var result: JsValue
    var priceRange: Option<PriceRange>
    var address: string
    var sqft: int
    var bedrooms: int
    var bathrooms: real
    var propertyType: string
    /** The error toasts raised so far. */
    var toasts: seq<string>

    /** What the controls can produce; `priceRange` is never assigned. */
    ghost predicate Valid()
      reads this
    {
      && priceRange.None?
      && OnSlider(sqft)
      && bedrooms in BedroomOptions
      && bathrooms in BathroomOptions
      && propertyType in PropertyTypeOptions
    }

    function CurrentFields(): Fields
      reads this
    {
      Fields(address, sqft, bedrooms, bathrooms, propertyType)
    }

    /** The submit button's `disabled` attribute. */
    predicate SubmitDisabled()
      reads this
    {
      loading
    }

    /** The estimate panel renders when `result !== null`. */
    predicate EstimateShown()
      reads this
    {
      result != Js(Null)
    }

    /** The price-range block renders when `priceRange` is set. */
    predicate PriceRangeShown()
      reads this
    {
      priceRange.Some?
    }

    constructor ()
      ensures Valid()
      ensures !loading && result == Js(Null) && priceRange == None && toasts == []
      ensures !EstimateShown() && !PriceRangeShown() && !SubmitDisabled()
      ensures address == "" && sqft == 1500 && bedrooms == 3 && bathrooms == 2.0
      ensures propertyType == "single-family"
    {
      loading := false;
      result := Js(Null);
      priceRange := None;
      address := "";
      sqft := 1500;
      bedrooms := 3;
      bathrooms := 2.0;
      propertyType := "single-family";
      toasts := [];
    }

    /** The address input's change handler. */
    method EditAddress(v: string)
      requires Valid()
      modifies this`address
      ensures Valid() && address == v
    {
      address := v;
    }

    /** The slider's change handler. */
    method SlideSqft(v: int)
      requires Valid() && OnSlider(v)
      modifies this`sqft
      ensures Valid() && sqft == v
    {
      sqft := v;
    }

    /** The bedroom select's change handler. */
    method SelectBedrooms(v: int)
      requires Valid() && v in BedroomOptions
      modifies this`bedrooms
      ensures Valid() && bedrooms == v
    {
      bedrooms := v;
    }

    /** The bathroom select's change handler. */
    method SelectBathrooms(v: real)
      requires Valid() && v in BathroomOptions
      modifies this`bathrooms
      ensures Valid() && bathrooms == v
    {
      bathrooms := v;
    }

    /** The property-type select's change handler. */
    method SelectPropertyType(v: string)
      requires Valid() && v in PropertyTypeOptions
      modifies this`propertyType
      ensures Valid() && propertyType == v
    {
      propertyType := v;
    }

    /** Pressing the submit button. The browser drops the submission while the
        button is disabled or the required address is empty; otherwise
        `handleSubmit` sets `loading` and posts the payload. */
    method Submit() returns (request: Option<map<string, Json>>)
      requires Valid()
      modifies this`loading
      ensures Valid()
      ensures request.Some? <==> !old(loading) && address != ""
      ensures request.Some? ==> loading && request.value == Payload(CurrentFields())
      ensures request.None? ==> loading == old(loading)
    {
      if loading || address == "" {
        return None;
      }
      loading := true;
      request := Some(Payload(CurrentFields()));
    }

    /** The request settles: on a 2xx reply `result` takes `predicted_price`
        unchecked; otherwise a toast is raised and `result` keeps its old value.
        Either way `loading` ends false. */
    method Settle(outcome: Outcome)
      requires Valid() && loading
      modifies this`loading, this`result, this`toasts
      ensures Valid() && !loading
      ensures Succeeded(outcome) ==> result == PredictedPrice(outcome.body) && toasts == old(toasts)
      ensures !Succeeded(outcome) ==> result == old(result) && toasts == old(toasts) + [FailureToast]
      ensures EstimateShown() <==> if Succeeded(outcome) then !NullPrice(outcome.body) else old(EstimateShown())
    {
      if Succeeded(outcome) {
        result := PredictedPrice(outcome.body);
      } else {
        toasts := toasts + [FailureToast];
      }
      loading := false;
    }
  }

  /** A whole submission against the Flask back end: the stale estimate stays
      on screen, one toast is added, the button is enabled again, and the
      price-range block never appears. */
  method SubmitAgainstBackend(form: Form, columns: seq<string>, model: seq<real> -> Option<real>)
    requires form.Valid() && !form.loading && form.address != ""
    modifies form`loading, form`result, form`toasts
    ensures form.Valid() && !form.loading && !form.SubmitDisabled()
    ensures form.CurrentFields() == old(form.CurrentFields())
    ensures form.result == old(form.result) && form.EstimateShown() == old(form.EstimateShown())
    ensures form.toasts == old(form.toasts) + [FailureToast]
    ensures !form.PriceRangeShown()
  {
    var request := form.Submit();
    assert form.SubmitDisabled();
    var resp := Backend.Predict(request.value, columns, model);
    PayloadAlwaysRefused(form.CurrentFields(), columns, model);
    form.Settle(Delivered(resp));
  }
}
