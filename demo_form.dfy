/** The simulated estimation form of the landing page
    (`src/components/PredictionForm.tsx`). Submitting starts a timer; when it
    fires the form shows a fixed estimate. The timer is the method
    `TimerFires`, which the page runs once after an accepted submission. */
module DemoForm {
  import opened Values

  const SimulatedPrice: int := 850000
  const SimulatedConfidence: int := 92

  class Form {
    /** The `minimal` prop: only an address box and a button are rendered. */
    const minimal: bool
    var loading: bool
    /** `null` or a number. */
    var result: JsValue
    var confidence: int
    var sqft: int
    var bedrooms: int
    var bathrooms: int

    /** Bedrooms and bathrooms have no change handler, and the only result ever
        set is the simulated one. */
    ghost predicate Valid()
      reads this
    {
      && OnSlider(sqft)
      && bedrooms == 3
      && bathrooms == 2
      && ((result == Js(Null) && confidence == 0)
          || (result == Js(Num(SimulatedPrice as real)) && confidence == SimulatedConfidence))
    }

    /** The submit button's `disabled` attribute, the same in both layouts. */
    predicate SubmitDisabled()
      reads this
    {
      loading
    }

    /** The estimate panel: only in the full layout, and only for a truthy
        result, which can only be the simulated estimate. */
    predicate EstimateShown()
      reads this
      requires Valid()
      ensures EstimateShown() ==> !minimal && result == Js(Num(SimulatedPrice as real))
      ensures EstimateShown() ==> confidence == SimulatedConfidence
    {
      !minimal && Truthy(result)
    }

    /** The confidence bar's width, in percent. */
    function ConfidenceBarWidth(): (w: int)
      reads this
      requires Valid()
      ensures 0 <= w <= 100
      ensures EstimateShown() ==> w == SimulatedConfidence
    {
      confidence
    }

    constructor (minimal: bool)
      ensures Valid() && this.minimal == minimal
      ensures !loading && result == Js(Null) && confidence == 0 && !EstimateShown()
      ensures sqft == 1500 && bedrooms == 3 && bathrooms == 2
    {
      this.minimal := minimal;
      loading := false;
      result := Js(Null);
      confidence := 0;
      sqft := 1500;
      bedrooms := 3;
      bathrooms := 2;
    }

    /** The slider's change handler; the slider exists only in the full layout. */
    method SlideSqft(v: int)
      requires Valid() && !minimal && OnSlider(v)
      modifies this`sqft
      ensures Valid() && sqft == v
    {
      sqft := v;
    }

    /** Pressing submit: dropped while the button is disabled, otherwise
        `handleSubmit` sets `loading` and starts the timer. */
    method Submit() returns (accepted: bool)
      requires Valid()
      modifies this`loading
      ensures Valid()
      ensures accepted <==> !old(loading)
      ensures loading
    {
      accepted := !loading;
      loading := true;
    }

    /** The timer's callback: the fixed estimate, whatever the fields hold. */
    method TimerFires()
      requires Valid() && loading
      modifies this`loading, this`result, this`confidence
      ensures Valid() && !loading
      ensures result == Js(Num(SimulatedPrice as real)) && confidence == SimulatedConfidence
      ensures EstimateShown() <==> !minimal
    {
      loading := false;
      result := Js(Num(SimulatedPrice as real));
      confidence := SimulatedConfidence;
    }
  }

  /** One full round: submit, the button is disabled until the timer fires,
      then the fixed estimate shows, at 92 percent, in the full layout. */
  method Round(form: Form)
    requires form.Valid() && !form.loading
    modifies form`loading, form`result, form`confidence
    ensures form.Valid() && !form.SubmitDisabled()
    ensures form.result == Js(Num(SimulatedPrice as real))
    ensures form.EstimateShown() <==> !form.minimal
    ensures form.EstimateShown() ==> form.ConfidenceBarWidth() == 92
    ensures form.sqft == old(form.sqft) && form.bedrooms == 3 && form.bathrooms == 2
  {
    var accepted := form.Submit();
    assert accepted && form.SubmitDisabled();
    form.TimerFires();
  }
}
