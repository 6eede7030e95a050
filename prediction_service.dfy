/** The placeholder estimator of the front end (`getPrediction` and its two
    helpers). The two `Math.random()` draws are the parameters `noiseDraw` and
    `confidenceDraw`, each in [0, 1); the simulated network delay is not
    modelled. Every number is an exact rational, and `Math.round(x)` is
    `floor(x + 1/2)`. */
module PredictionService {

  /** The fields of `PropertyDetails` the estimator reads. */
  datatype PropertyDetails = PropertyDetails(
    address: string,
    bedrooms: real,
    bathrooms: real,
    sqft: real,
    propertyType: string)

  datatype PriceRange = PriceRange(min: int, max: int)

  /** `PredictionResult`; `getPrediction` always fills in the price range. */
  datatype PredictionResult = PredictionResult(
    estimatedPrice: int,
    confidenceScore: int,
    priceRange: PriceRange)

  const BasePricePerSqft: real := 60000.0
  const BedroomWeight: real := 500000.0
  const BathroomWeight: real := 300000.0
  const Variance: real := 0.1

  const PremiumLocations: seq<string> :=
    ["koregaon park", "kalyani nagar", "aundh", "baner", "viman nagar"]
  const MidRangeLocations: seq<string> :=
    ["kharadi", "wakad", "hinjewadi", "magarpatta", "hadapsar"]

  const PremiumMultiplier: real := 1.5
  const MidRangeMultiplier: real := 1.2

  // ---------------------------------------------------------------------
  // String helpers: `toLowerCase` and `includes`
  // ---------------------------------------------------------------------

  predicate IsUpper(c: char)
  {
    'A' <= c <= 'Z'
  }

  /** Lower-cases one ASCII letter; every other character is kept. */
  function LowerChar(c: char): (r: char)
    ensures !IsUpper(r)
    ensures IsUpper(c) ==> r as int == c as int + 32
    ensures !IsUpper(c) ==> r == c
  {
    if IsUpper(c) then (c as int - 'A' as int + 'a' as int) as char else c
  }

  /** Two strings that differ only in the case of their letters. */
  predicate SameIgnoringCase(a: string, b: string)
  {
    |a| == |b| && forall i :: 0 <= i < |a| ==> LowerChar(a[i]) == LowerChar(b[i])
  }

  /** `s.toLowerCase()`, letter by letter. */
  function ToLower(s: string): (r: string)
    ensures SameIgnoringCase(s, r)
    ensures forall i :: 0 <= i < |r| ==> !IsUpper(r[i])
  {
    seq(|s|, i requires 0 <= i < |s| => LowerChar(s[i]))
  }

  /** Lower-casing twice is lower-casing once. */
  lemma ToLowerIdempotent(s: string)
    ensures ToLower(ToLower(s)) == ToLower(s)
  {
    var t := ToLower(s);
    assert forall i :: 0 <= i < |t| ==> LowerChar(t[i]) == t[i];
  }

  /** `sub` occurs in `s` starting at position `i`. */
  predicate OccursAt(s: string, sub: string, i: int)
  {
    0 <= i && i + |sub| <= |s| && s[i..i + |sub|] == sub
  }

  ghost predicate ContainsSubstring(s: string, sub: string)
  {
    exists i :: OccursAt(s, sub, i)
  }

  /** `s.includes(sub)`, as a left-to-right search: true exactly when `sub`
      occurs at some position of `s`. */
  function Includes(s: string, sub: string): (b: bool)
    ensures b <==> ContainsSubstring(s, sub)
    decreases |s|
  {
    if |sub| > |s| then
      assert forall i :: !OccursAt(s, sub, i);
      false
    else if s[..|sub|] == sub then
      assert OccursAt(s, sub, 0);
      true
    else
      SearchStep(s, sub);
      Includes(s[1..], sub)
  }

  /** When `sub` is not a prefix of `s`, it occurs in `s` exactly when it
      occurs in the tail of `s`. */
  lemma SearchStep(s: string, sub: string)
    requires |sub| <= |s| && s[..|sub|] != sub
    ensures ContainsSubstring(s, sub) <==> ContainsSubstring(s[1..], sub)
  {
    if ContainsSubstring(s[1..], sub) {
      var i :| OccursAt(s[1..], sub, i);
      TailSlice(s, i, |sub|);
      assert OccursAt(s, sub, i + 1);
    }
    if ContainsSubstring(s, sub) {
      var i :| OccursAt(s, sub, i);
      assert i != 0;
      TailSlice(s, i - 1, |sub|);
      assert OccursAt(s[1..], sub, i - 1);
    }
  }

  lemma TailSlice(s: string, i: nat, n: nat)
    requires 1 + i + n <= |s|
    ensures s[1..][i..i + n] == s[i + 1..i + 1 + n]
  {
  }

  /** Some key of `keys` occurs in `s` (the meaning of `keys.some(k => s.includes(k))`). */
  ghost predicate MentionsAny(keys: seq<string>, s: string)
  {
    exists k :: 0 <= k < |keys| && ContainsSubstring(s, keys[k])
  }

  /** `keys.some(k => s.includes(k))`. */
  function SomeIncluded(keys: seq<string>, s: string): (b: bool)
    ensures b <==> MentionsAny(keys, s)
  {
    if keys == [] then false
    else Includes(s, keys[0]) || SomeIncluded(keys[1..], s)
  }

  // ---------------------------------------------------------------------
  // The two lookup helpers
  // ---------------------------------------------------------------------

  /** `getLocationMultiplier`: premium names are tried before mid-range ones. */
  function LocationMultiplier(address: string): (m: real)
    ensures m == 1.5 <==> MentionsAny(PremiumLocations, ToLower(address))
    ensures m == 1.2 <==>
      !MentionsAny(PremiumLocations, ToLower(address)) && MentionsAny(MidRangeLocations, ToLower(address))
    ensures m == 1.0 <==>
      !MentionsAny(PremiumLocations, ToLower(address)) && !MentionsAny(MidRangeLocations, ToLower(address))
  {
    var addressLower := ToLower(address);
    if SomeIncluded(PremiumLocations, addressLower) then PremiumMultiplier
    else if SomeIncluded(MidRangeLocations, addressLower) then MidRangeMultiplier
    else 1.0
  }

  /** An address naming both a premium and a mid-range locality is premium. */
  lemma PremiumTakesPrecedence(address: string)
    requires MentionsAny(PremiumLocations, ToLower(address))
    requires MentionsAny(MidRangeLocations, ToLower(address))
    ensures LocationMultiplier(address) == 1.5
  {
  }

  /** One premium name found at one position is enough for the premium multiplier. */
  lemma PremiumByOccurrence(address: string, k: nat, i: int)
    requires k < |PremiumLocations| && OccursAt(ToLower(address), PremiumLocations[k], i)
    ensures LocationMultiplier(address) == 1.5
  {
  }

  /** The multiplier only ever takes one of three values. */
  lemma LocationMultiplierValues(address: string)
    ensures LocationMultiplier(address) in {1.0, 1.2, 1.5}
  {
  }

  /** Changing the case of letters in the address never changes the multiplier. */
  lemma LocationMultiplierIgnoresCase(a: string, b: string)
    requires SameIgnoringCase(a, b)
    ensures LocationMultiplier(a) == LocationMultiplier(b)
  {
    assert ToLower(a) == ToLower(b);
  }

  /** `getPropertyTypeFactor`: a closed table with 1.0 for every other string. */
  function PropertyTypeFactor(propertyType: string): (f: real)
    ensures 1.0 <= f <= 1.3
    ensures f == 1.0 <==> propertyType !in {"single-family", "townhouse", "multi-family"}
  {
    match propertyType
    case "single-family" => 1.2
    case "condo" => 1.0
    case "townhouse" => 1.1
    case "multi-family" => 1.3
    case _ => 1.0
  }

  // ---------------------------------------------------------------------
  // Arithmetic of the estimate
  // ---------------------------------------------------------------------

  /** `Math.round`: the nearest integer, halves rounded up. */
  function Round(x: real): (n: int)
    ensures n as real - 0.5 <= x < n as real + 0.5
  {
    (x + 0.5).Floor
  }

  lemma RoundMonotone(x: real, y: real)
    requires x <= y
    ensures Round(x) <= Round(y)
  {
  }

  /** The square-footage, bedroom and bathroom terms added up. */
  function UnscaledSum(d: PropertyDetails): real
  {
    d.sqft * BasePricePerSqft + d.bedrooms * BedroomWeight + d.bathrooms * BathroomWeight
  }

  /** The price before noise, rounded once: never negative for non-negative
      inputs, and never below the unscaled sum, since both multipliers are at
      least 1. */
  function BaseEstimate(d: PropertyDetails): (n: int)
    ensures 0.0 <= UnscaledSum(d) ==> Round(UnscaledSum(d)) <= n
  {
    var raw := UnscaledSum(d);
    var loc := LocationMultiplier(d.address);
    var typ := PropertyTypeFactor(d.propertyType);
    RoundedAtLeastUnscaled(raw, loc, typ);
    Round(raw * loc * typ)
  }

  lemma RoundedAtLeastUnscaled(raw: real, loc: real, typ: real)
    requires 1.0 <= loc && 1.0 <= typ
    ensures 0.0 <= raw ==> Round(raw) <= Round(raw * loc * typ)
  {
    if 0.0 <= raw {
      ScaleBetween(raw, loc, 1.0, loc);
      ScaleBetween(raw * loc, typ, 1.0, typ);
      RoundMonotone(raw, raw * loc * typ);
    }
  }

  /** `1 + (Math.random() * variance * 2 - variance)` for the draw `r`. */
  function NoiseFactor(r: real): (f: real)
    requires 0.0 <= r < 1.0
    ensures 0.9 <= f < 1.1
    ensures r == 0.5 ==> f == 1.0
  {
    1.0 + (r * Variance * 2.0 - Variance)
  }

  /** `Math.floor(80 + Math.random() * 15)` for the draw `r`. */
  function ConfidenceScore(r: real): (c: int)
    requires 0.0 <= r < 1.0
    ensures 80 <= c <= 94
  {
    (80.0 + r * 15.0).Floor
  }

  /** Every score from 80 to 94 is produced by some draw, so the range is exact. */
  lemma ConfidenceScoreOnto(c: int)
    requires 80 <= c <= 94
    ensures ConfidenceScore((c - 80) as real / 15.0) == c
  {
    var r := (c - 80) as real / 15.0;
    assert 80.0 + r * 15.0 == c as real;
  }

  /** `getPrediction`: noise applied to the rounded base estimate, rounded again,
      then a range of plus or minus ten percent and an independent score. */
  function GetPrediction(d: PropertyDetails, noiseDraw: real, confidenceDraw: real): (p: PredictionResult)
    requires 0.0 <= noiseDraw < 1.0 && 0.0 <= confidenceDraw < 1.0
    ensures 80 <= p.confidenceScore <= 94
    ensures noiseDraw == 0.5 ==> p.estimatedPrice == BaseEstimate(d)
    ensures BaseEstimate(d) >= 0 ==>
      Round(0.9 * BaseEstimate(d) as real) <= p.estimatedPrice <= Round(1.1 * BaseEstimate(d) as real)
    ensures p.estimatedPrice >= 0 ==>
      p.priceRange.min <= p.estimatedPrice <= p.priceRange.max
  {
    var estimatedPrice := BaseEstimate(d);
    var finalPrice := Round(estimatedPrice as real * NoiseFactor(noiseDraw));
    NoisyPriceWithinBand(estimatedPrice, noiseDraw);
    PriceRangeBrackets(finalPrice);
    PredictionResult(
      finalPrice,
      ConfidenceScore(confidenceDraw),
      PriceRange(Round(finalPrice as real * 0.9), Round(finalPrice as real * 1.1)))
  }

  lemma NoisyPriceWithinBand(estimate: int, r: real)
    requires 0.0 <= r < 1.0
    ensures estimate >= 0 ==>
      Round(0.9 * estimate as real) <= Round(estimate as real * NoiseFactor(r)) <= Round(1.1 * estimate as real)
  {
    if estimate >= 0 {
      RoundedScaleBetween(estimate as real, NoiseFactor(r));
    }
  }

  lemma RoundedScaleBetween(e: real, f: real)
    requires 0.0 <= e && 0.9 <= f <= 1.1
    ensures Round(0.9 * e) <= Round(e * f) <= Round(1.1 * e)
  {
    var lo, mid, hi := 0.9 * e, e * f, 1.1 * e;
    assert lo <= mid <= hi by { ScaleBetween(e, f, 0.9, 1.1); }
    RoundMonotone(lo, mid);
    RoundMonotone(mid, hi);
  }

  lemma PriceRangeBrackets(price: int)
    ensures price >= 0 ==> Round(price as real * 0.9) <= price <= Round(price as real * 1.1)
  {
  }

  // ---------------------------------------------------------------------
  // Properties over the inputs the form can produce
  // ---------------------------------------------------------------------

  /** The values the estimation form's controls can produce. */
  predicate FormDomain(d: PropertyDetails)
  {
    && 500.0 <= d.sqft <= 5000.0
    && 1.0 <= d.bedrooms <= 6.0
    && 1.0 <= d.bathrooms <= 4.0
  }

  lemma ScaleBetween(x: real, k: real, lo: real, hi: real)
    requires 0.0 <= x && lo <= k <= hi
    ensures x * lo <= x * k <= x * hi
  {
  }

  /** The unscaled sum over the form's domain. */
  lemma RawEstimateBounds(d: PropertyDetails)
    requires FormDomain(d)
    ensures 30800000.0
         <= UnscaledSum(d)
         <= 304200000.0
  {
  }

  lemma ScaledBounds(raw: real, loc: real, typ: real)
    requires 30800000.0 <= raw <= 304200000.0 && 1.0 <= loc <= 1.5 && 1.0 <= typ <= 1.3
    ensures 30800000 <= Round(raw * loc * typ) <= 593190000
  {
    ScaleBetween(raw, loc, 1.0, 1.5);
    assert raw * 1.0 <= raw * loc <= raw * 1.5;
    assert 30800000.0 <= raw * loc <= 456300000.0;
    ScaleBetween(raw * loc, typ, 1.0, 1.3);
    assert (raw * loc) * 1.0 <= (raw * loc) * typ <= (raw * loc) * 1.3;
    assert 30800000.0 <= raw * loc * typ <= 593190000.0;
    RoundMonotone(30800000.0, raw * loc * typ);
    RoundMonotone(raw * loc * typ, 593190000.0);
  }

  /** The base estimate over the form's domain lies between the cheapest and the
      dearest combination of inputs. */
  lemma BaseEstimateBounds(d: PropertyDetails)
    requires FormDomain(d)
    ensures 30800000 <= BaseEstimate(d) <= 593190000
  {
    RawEstimateBounds(d);
    LocationMultiplierValues(d.address);
    ScaledBounds(UnscaledSum(d), LocationMultiplier(d.address), PropertyTypeFactor(d.propertyType));
  }

  /** Every estimate for form input is positive and inside its own range. */
  lemma EstimatePositiveOnFormInput(d: PropertyDetails, noiseDraw: real, confidenceDraw: real)
    requires FormDomain(d)
    requires 0.0 <= noiseDraw < 1.0 && 0.0 <= confidenceDraw < 1.0
    ensures GetPrediction(d, noiseDraw, confidenceDraw).estimatedPrice > 0
    ensures var p := GetPrediction(d, noiseDraw, confidenceDraw);
      p.priceRange.min <= p.estimatedPrice <= p.priceRange.max
  {
    BaseEstimateBounds(d);
    var b := BaseEstimate(d);
    RoundMonotone(0.9 * 30800000.0, 0.9 * b as real);
  }

  /** Matching ignores case: "Koregaon Park" is premium. */
  lemma KoregaonParkIsPremium()
    ensures LocationMultiplier("Koregaon Park") == 1.5
  {
    KoregaonParkLowered();
    PremiumByOccurrence("Koregaon Park", 0, 0);
  }

  lemma KoregaonParkLowered()
    ensures ToLower("Koregaon Park") == "koregaon park"
  {
  }

  /** The worked example: a Koregaon Park single-family home of 1500 sq ft with
      three bedrooms and two bathrooms has a base estimate of 165,780,000. */
  lemma KoregaonParkBaseEstimate()
    ensures BaseEstimate(PropertyDetails("Koregaon Park", 3.0, 2.0, 1500.0, "single-family")) == 165780000
  {
    KoregaonParkIsPremium();
  }

  /** With the noise draw at its midpoint the same home is priced at exactly its
      base estimate, and the lowest confidence draw scores 80. */
  lemma KoregaonParkExample()
    ensures GetPrediction(PropertyDetails("Koregaon Park", 3.0, 2.0, 1500.0, "single-family"), 0.5, 0.0)
         == PredictionResult(165780000, 80, PriceRange(149202000, 182358000))
  {
    KoregaonParkBaseEstimate();
    assert Round(165780000.0 * 0.9) == 149202000;
    assert Round(165780000.0 * 1.1) == 182358000;
  }
}
