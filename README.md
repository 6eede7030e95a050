# Price Palette: estimation rules in Dafny

Price Palette is a house-price website for Pune. This project models its
estimation logic and the small derived values the pages compute:

- the placeholder estimator of the front end
  (`frontend/src/services/predictionService.ts`), modelled as pure functions;
- the Flask `/predict` handler (`backened/app.py`), which builds a feature
  vector in a numpy array, asks the trained model for a price and answers
  with JSON;
- the two estimation forms, written as classes with one method per event:
  - the one that posts to the back end (`frontend/src/components/PredictionForm.tsx`);
  - the simulated one on the landing page (`src/components/PredictionForm.tsx`);
- the testimonial card's avatar initials and its role-line guard
  (`src/components/TestimonialCard.tsx`).

Files:

- `values.dfy` (module `Values`): JSON values, the slider domain shared by
  both forms, and the `Option` and `Result` wrappers.
- `prediction_service.dfy` (module `PredictionService`): the estimator.
  - The two `Math.random()` draws are parameters in [0, 1).
  - Numbers are exact rationals.
  - `Math.round(x)` is `floor(x + 1/2)`.
- `backend_app.dfy` (module `Backend`): the handler.
  - The function `Features` states the vector the handler builds, or the
    failure that stops it.
  - The method `Predict` performs the same steps on a fresh `array<real>` and
    is proved equal to it.
  - The pickled model is a parameter `model: seq<real> -> Option<real>`,
    where `None` stands for an exception raised by `model.predict`.
  - The column list is a parameter `columns`.
- `service_form.dfy` (module `ServiceForm`): the posting form.
  - `Submit` returns the request body it would post.
  - `Settle` receives the outcome of the request.
  - `SubmitAgainstBackend` chains these with `Backend.Predict`. Because the
    payload never carries `balcony`, every submission ends in a toast and
    leaves the previous estimate on screen.
- `demo_form.dfy` (module `DemoForm`): the simulated form. The timer callback
  is the method `TimerFires`.
- `testimonial_card.dfy` (module `TestimonialCard`): `split(" ")`, the
  initials, and an independent one-pass scan that the initials are proved
  equal to.

Where the code and its own comments or documentation disagree, the model
follows the code:

- The confidence score is `floor(80 + 15r)`, so it lies in 80 to 94 and never
  reaches 95, although the comment says "80-95%".
- A failed request leaves `result` untouched; it does not clear a previous
  estimate.
- The property-type keys are `single-family`, `condo`, `townhouse` and
  `multi-family`, although the form labels them as area conventions.

## Model

| member | source | states |
|---|---|---|
| PredictionService.LowerChar | frontend/src/services/predictionService.ts:79 | lower-casing turns an ASCII capital into its small letter, keeps every other character, and never yields a capital |
| PredictionService.ToLower | frontend/src/services/predictionService.ts:79 | the modelled ASCII lower-casing keeps the length, changes only the case of ASCII letters, and leaves no ASCII capital |
| PredictionService.ToLowerIdempotent | frontend/src/services/predictionService.ts:79 | lower-casing an already lower-cased address changes nothing |
| PredictionService.Includes | frontend/src/services/predictionService.ts:81 | `includes` answers true exactly when the key occurs at some position of the string, the empty key included |
| PredictionService.SearchStep | frontend/src/services/predictionService.ts:81 | when the key is not a prefix of the string, it occurs in the string exactly when it occurs in the string without its first character |
| PredictionService.SomeIncluded | frontend/src/services/predictionService.ts:81-83 | `.some(location => addressLower.includes(location))` is true exactly when some listed name occurs in the string |
| PredictionService.LocationMultiplier | frontend/src/services/predictionService.ts:74-88 | 1.5 exactly when the lower-cased address contains a premium name; 1.2 exactly when it contains a mid-range name but no premium one; 1.0 exactly when it contains neither |
| PredictionService.PremiumTakesPrecedence | frontend/src/services/predictionService.ts:81-84 | an address naming both a premium and a mid-range locality gets 1.5 |
| PredictionService.PremiumByOccurrence | frontend/src/services/predictionService.ts:76-82 | one occurrence of one premium name anywhere in the lower-cased address gives 1.5 |
| PredictionService.LocationMultiplierValues | frontend/src/services/predictionService.ts:81-87 | the multiplier is always 1.0, 1.2 or 1.5 |
| PredictionService.LocationMultiplierIgnoresCase | frontend/src/services/predictionService.ts:79 | two addresses that differ only in the case of ASCII letters get the same multiplier |
| PredictionService.KoregaonParkIsPremium | frontend/src/services/predictionService.ts:76-82 | "Koregaon Park", written with capitals, is premium (1.5) |
| PredictionService.PropertyTypeFactor | frontend/src/services/predictionService.ts:90-103 | the factor never fails and lies in [1.0, 1.3]; it is above 1.0 exactly for single-family, townhouse and multi-family, and every other string gets 1.0 |
| PredictionService.Round | frontend/src/services/predictionService.ts:45 | `Math.round` yields the integer within half a unit of its argument |
| PredictionService.RoundMonotone | frontend/src/services/predictionService.ts:45 | rounding never reverses the order of two prices |
| PredictionService.NoiseFactor | frontend/src/services/predictionService.ts:52-53 | for a draw in [0, 1) the noise factor lies in [0.9, 1.1); the middle draw 0.5 gives exactly 1 |
| PredictionService.ConfidenceScore | frontend/src/services/predictionService.ts:64 | the confidence score always lies between 80 and 94 |
| PredictionService.ConfidenceScoreOnto | frontend/src/services/predictionService.ts:64 | every score from 80 to 94 is produced by some draw, so that range is exact |
| PredictionService.GetPrediction | frontend/src/services/predictionService.ts:25-66 | the score lies in [80, 94]; with the middle noise draw the final price equals the rounded pre-noise estimate; a non-negative pre-noise estimate is moved at most ten percent, within rounding; a non-negative final price lies inside its own price range |
| PredictionService.NoisyPriceWithinBand | frontend/src/services/predictionService.ts:51-54 | the re-rounded noisy price lies between the rounded 90% and the rounded 110% of the estimate |
| PredictionService.PriceRangeBrackets | frontend/src/services/predictionService.ts:57-60 | for a non-negative price, `round(0.9 * price) <= price <= round(1.1 * price)` |
| PredictionService.BaseEstimate | frontend/src/services/predictionService.ts:38-49 | the pre-noise estimate is never below the rounded sum of the square-footage, bedroom and bathroom terms when that sum is non-negative, because both multipliers are at least 1 |
| PredictionService.RawEstimateBounds | frontend/src/services/predictionService.ts:38-42 | over the form's inputs, the sum of the square-footage, bedroom and bathroom terms lies between 30,800,000 and 304,200,000 |
| PredictionService.BaseEstimateBounds | frontend/src/services/predictionService.ts:38-49 | over the form's inputs, the rounded pre-noise estimate lies between 30,800,000 and 593,190,000 |
| PredictionService.EstimatePositiveOnFormInput | frontend/src/services/predictionService.ts:25-66 | over the form's inputs, every final price is positive and lies inside its own price range |
| PredictionService.KoregaonParkBaseEstimate | frontend/src/services/predictionService.ts:38-49 | a 1500 sq ft single-family home in Koregaon Park with 3 bedrooms and 2 bathrooms has a pre-noise estimate of 165,780,000 |
| PredictionService.KoregaonParkExample | frontend/src/services/predictionService.ts:45-66 | with draws 0.5 and 0 that home gets 165,780,000 at 80% confidence, with the range 149,202,000 to 182,358,000 |
| Backend.FirstIndex | backened/app.py:37-38 | `columns.index(name)` is absent exactly when the name is not a column; otherwise it is a valid position holding the name, with no earlier position holding it |
| Backend.AsFloat | backened/app.py:31-34 | in the model a value is stored in a float slot exactly when it is a JSON number or a boolean; numbers are stored as they are, `true` as 1 and `false` as 0 (the numpy cases it does not follow are listed under "Left out") |
| Backend.Category | backened/app.py:37-49 | a category value selects a column exactly when it is a string naming a column, and then the first column holding it |
| Backend.StoreNumber | backened/app.py:31-34 | `x[slot] = data[key]` succeeds exactly when the key is present, the slot is inside the vector and the value converts to a float; on success only that slot changes; a missing key fails with `KeyError` on that key |
| Backend.StoreCategory | backened/app.py:37-49 | the one-hot step fails only on a missing key; otherwise the vector keeps its length, the first column equal to the value becomes 1, and every other entry is unchanged |
| Backend.Features | backened/app.py:28-49 | a built vector is as long as the column list; the model is never the cause of a failure here; a `KeyError` names a key the handler reads and the request lacks; a conversion failure names a numeric key whose value is neither number nor boolean; an `IndexError` comes from a slot 0 to 3 beyond a short column list |
| Backend.Respond | backened/app.py:54-61 | status 200 exactly when the vector was built and the model gave a price, with body exactly `{"predicted_price": price}`; otherwise status 500 with the single key `error`, carrying the failure that stopped the building of the vector, or `ModelError` when the model raised |
| Backend.SetNumber | backened/app.py:31-34 | the array write succeeds exactly when `StoreNumber` does and leaves the array equal to its result; on failure it reports the same failure and leaves the array unchanged |
| Backend.SetCategory | backened/app.py:37-49 | the one-hot array write succeeds exactly when `StoreCategory` does and leaves the array equal to its result; on failure it reports the same failure and leaves the array unchanged |
| Backend.Predict | backened/app.py:21-61 | the handler, run on a fresh zero array, answers exactly what `Respond(Features(...))` describes |
| Backend.FeaturesSucceedIffWellFormed | backened/app.py:28-49 | the vector is built exactly when all seven keys are present, the four numeric values convert, and the column list has at least four entries |
| Backend.FeaturesContents | backened/app.py:28-49 | the vector is as long as the column list; an entry selected by locality, property type or availability is 1, even in slots 0 to 3; otherwise slots 0 to 3 hold bathrooms, balcony, rooms and area in that order; every other entry is 0 |
| Backend.PredictReply | backened/app.py:57-61 | a 200 reply comes only from a well-formed request and has exactly the key `predicted_price`; a malformed request gets 500 with exactly the key `error`; a non-200 reply never carries `predicted_price` |
| Backend.MissingBalconyFails | backened/app.py:31-32 | a request without `balcony` is refused with status 500, whatever else it holds, with the exact failure the handler meets first |
| ServiceForm.Payload | frontend/src/components/PredictionForm.tsx:33-39 | the request body has exactly the five keys area, rooms, locality, bathrooms and property_type |
| ServiceForm.PayloadRoundTrip | frontend/src/components/PredictionForm.tsx:33-39 | reading the fields back out of the payload gives the form fields, so each field goes to its own key |
| ServiceForm.ServedPriceReachesForm | frontend/src/components/PredictionForm.tsx:43-46 | whenever the Flask handler answers with a price, the browser sees a 2xx reply whose `predicted_price` is not `null`, and the form stores exactly that price |
| ServiceForm.Succeeded | frontend/src/components/PredictionForm.tsx:43-49 | axios resolves, and the `try` branch runs, only for a reply with a 2xx status |
| ServiceForm.PayloadAlwaysRefused | frontend/src/components/PredictionForm.tsx:33-39 | because the payload lacks `balcony`, the back end answers every submission with status 500, which the browser treats as a failure |
| ServiceForm.Form.constructor | frontend/src/components/PredictionForm.tsx:18-27 | the initial state: not loading, result null, no price range, no toasts, address empty, 1500 sq ft, 3 bedrooms, 2 bathrooms, single-family; so the estimate panel and the price range are hidden and the button is enabled |
| ServiceForm.Form.EditAddress | frontend/src/components/PredictionForm.tsx:75 | the address input stores its value |
| ServiceForm.Form.SlideSqft | frontend/src/components/PredictionForm.tsx:116 | the slider stores a value from 500 to 5000 in steps of 50 |
| ServiceForm.Form.SelectBedrooms | frontend/src/components/PredictionForm.tsx:84-94 | the bedroom select stores one of 1 to 6 |
| ServiceForm.Form.SelectBathrooms | frontend/src/components/PredictionForm.tsx:99-109 | the bathroom select stores one of 1 to 4 in halves |
| ServiceForm.Form.SelectPropertyType | frontend/src/components/PredictionForm.tsx:121-130 | the property-type select stores one of its four keys |
| ServiceForm.Form.Submit | frontend/src/components/PredictionForm.tsx:29-39 | a request goes out exactly when the button is enabled and the required address is non-empty; it then sets `loading` and carries the payload of the current fields; otherwise nothing changes |
| ServiceForm.Form.Settle | frontend/src/components/PredictionForm.tsx:43-52 | `loading` ends false either way; on a 2xx reply `result` takes `predicted_price` unchecked and no toast is added; on any failure `result` keeps its old value and exactly one error toast is added; afterwards the estimate panel shows exactly when a 2xx reply did not carry `null` as the price, or, after a failure, exactly when it showed before |
| ServiceForm.SubmitAgainstBackend | frontend/src/components/PredictionForm.tsx:29-53 | a submission to the Flask handler leaves every form field and the stale result in place, so the panel shows exactly as before; it adds one toast, re-enables the button and never shows the price range |
| ServiceForm.Form.EstimateShown | frontend/src/components/PredictionForm.tsx:142 | the estimate panel renders when `result !== null`, so for `undefined` and for any value other than `null` |
| ServiceForm.Form.SubmitDisabled | frontend/src/components/PredictionForm.tsx:135 | the submit button is disabled while `loading` |
| ServiceForm.Form.PriceRangeShown | frontend/src/components/PredictionForm.tsx:154 | the price-range block renders when `priceRange` is set |
| Values.OnSlider | src/components/PredictionForm.tsx:119-125 | the values either form's slider produces: 500 to 5000 in steps of 50 |
| DemoForm.Form.ConfidenceBarWidth | src/components/PredictionForm.tsx:176-185 | the bar's width is a percentage from 0 to 100, and it is 92 whenever the estimate panel shows |
| DemoForm.Form.EstimateShown | src/components/PredictionForm.tsx:158 | the panel renders only in the full layout and for a truthy result, which can only be the simulated 850000 at 92 percent |
| DemoForm.Form.SubmitDisabled | src/components/PredictionForm.tsx:48 | the submit button is disabled while `loading`, in the minimal layout and, at line 145, in the full one |
| DemoForm.Form.constructor | src/components/PredictionForm.tsx:17-23 | the initial state: not loading, result null, confidence 0, 1500 sq ft, 3 bedrooms, 2 bathrooms |
| DemoForm.Form.SlideSqft | src/components/PredictionForm.tsx:119-125 | the slider, present only in the full layout, keeps sqft from 500 to 5000 in steps of 50 |
| DemoForm.Form.Submit | src/components/PredictionForm.tsx:25-27 | the submission is accepted exactly when the button is enabled; it only sets `loading` |
| DemoForm.Form.TimerFires | src/components/PredictionForm.tsx:30-34 | the timer ends loading and sets result 850000 and confidence 92, whatever the fields hold; the estimate shows exactly in the full layout |
| DemoForm.Round | src/components/PredictionForm.tsx:25-34 | one full round: the button is disabled while the timer runs and enabled afterwards; sqft is unchanged and bedrooms and bathrooms stay 3 and 2; in the full layout the estimate shows at 92% |
| TestimonialCard.Split | src/components/TestimonialCard.tsx:18 | `split(" ")` yields at least one piece, and no piece contains a space |
| TestimonialCard.SplitJoinRoundTrip | src/components/TestimonialCard.tsx:18 | joining the pieces with single spaces gives back the name |
| TestimonialCard.FirstChar | src/components/TestimonialCard.tsx:19-20 | `n[0]` contributes at most one character, and nothing exactly for an empty piece |
| TestimonialCard.ScanMatchesSplit | src/components/TestimonialCard.tsx:17-20 | the first characters of the pieces, joined, are exactly the characters that begin a word in a one-pass scan |
| TestimonialCard.Initials | src/components/TestimonialCard.tsx:17-20 | the initials are exactly the characters that begin a space-separated word, in order, so empty pieces from extra spaces add nothing; they are never longer than the name |
| TestimonialCard.JoinFirstChars | src/components/TestimonialCard.tsx:19-20 | `.map(n => n[0]).join("")` gives one character per non-empty piece, so never more than there are pieces |
| TestimonialCard.NonEmptyCountOfSplit | src/components/TestimonialCard.tsx:18 | a name has no more non-empty pieces than characters |
| TestimonialCard.SingleWordSplit | src/components/TestimonialCard.tsx:18 | a name without spaces splits into itself alone |
| TestimonialCard.SingleWordInitial | src/components/TestimonialCard.tsx:17-20 | a name without spaces gives its first character, and the empty name gives "" |
| TestimonialCard.TwoWordExample | src/components/TestimonialCard.tsx:17-20 | "Jo Li" gives "JL" |
| TestimonialCard.ExtraSpacesExample | src/components/TestimonialCard.tsx:17-20 | " A  B " gives "AB" |
| TestimonialCard.RoleShown | src/components/TestimonialCard.tsx:44 | the role line renders exactly when `author.role` is truthy in JavaScript, with an absent role as `undefined` |

## Left out

- PredictionService.LowerChar: lower-casing is modelled for ASCII letters only. `toLowerCase` also folds other Unicode letters, and some of them fold to ASCII: U+212A KELVIN SIGN becomes `k`. So the source gives "\u212Aoregaon Park" the premium multiplier 1.5, while the model gives it 1.0. Some lower-casings also change the length: U+0130 LATIN CAPITAL LETTER I WITH DOT ABOVE becomes `i` followed by U+0307, so the source finds "hinjewadi" in "Hinjewad\u0130" and gives 1.2, while the model leaves U+0130 as it is and gives 1.0.
- PredictionService.LocationMultiplierIgnoresCase: the case-insensitivity proved is for ASCII letters. In the source, case-insensitive matching has limits beyond ASCII: "hinjewad\u0131" (U+0131 DOTLESS I) upper-cases to "HINJEWADI", yet `toLowerCase` keeps U+0131, so the source gives "HINJEWADI" 1.2 and "hinjewad\u0131" 1.0; the model gives the same two values.
- Strings are sequences of characters. JavaScript indexes UTF-16 code units, so `n[0]` of a piece that starts with a character outside the Basic Multilingual Plane is half a surrogate pair.
- Numbers are exact rationals. IEEE-754 rounding of the products in `getPrediction` and `Math.round`, and currency formatting by `toLocaleString`, are not modelled.
- `Math.random()` is each draw parameter, taken in [0, 1).
- Not modelled: the simulated delay, the `setTimeout` of the demo form, `axios.post`, the toast library and `console.log` output. Their outcomes are inputs or fields.
- The `catch` branch of `getPrediction` is not modelled. No step of the simulation can throw.
- The unused `API_URL` lookup and the unused `location` field of `PropertyDetails` are not modelled. Neither affects any result.
- `PredictionResult.priceRange` is optional in the interface but always filled in by `getPrediction`, so the model makes it mandatory.
- Backend.AsFloat: numpy also converts numeric strings, such as "3", stored into a float slot. The model treats every string in a numeric slot as a conversion failure.
- Backend.AsFloat: JSON arrays and objects in numeric slots are not modelled. A request body that is not a JSON object is not modelled either.
- Backend.AsFloat: numpy stores a JSON `null` in a float slot as NaN without raising, so the source goes on to call the model. The model has no NaN and treats `null` as a conversion failure (status 500).
- Backend.AsFloat: a JSON integer too large for a double (such as 1 followed by 400 zeros) makes numpy raise `OverflowError`, so the source answers 500. The model's numbers are unbounded and store it.
- Backend.StoreNumber: inherits both gaps of `AsFloat`. It fails on `null`, where the source stores NaN, and succeeds on an over-range integer, where the source fails.
- Backend.FeaturesSucceedIffWellFormed: "every numeric value converts" is the model's `AsFloat`. So a request with a `null` numeric value counts as malformed, although the source builds a vector with NaN for it. A request with an over-range integer counts as well-formed, although the source refuses it.
- Backend.StoreNumber: when a slot lies outside a short vector, numpy's `IndexError` is taken to come before the value conversion.
- Backend.Respond: the error reply carries the failure itself, not the text of the Python exception message.
- The handler's `print` debugging output, loading the pickled model and column list, Flask routing and CORS are not modelled. The model and the column list are parameters.
- ServiceForm.Form.Settle: a reply body is always a JSON object in the model. A 2xx reply whose body is JSON `null` makes `response.data.predicted_price` throw a TypeError inside the `try`, so the source takes the `catch`: it adds one toast and keeps `result`. The model cannot express that reply, and its contract for a 2xx reply (result set, no toast) covers object bodies only. The Flask handler never sends such a reply.
- ServiceForm.ReplyJson: the error text in a 500 body is delivered as the string "error". The form never reads it.
- The render crash when `predicted_price` is absent from a 2xx reply is not modelled. `result` is then `undefined` and `undefined.toLocaleString()` throws.
- ServiceForm.Form.Submit: the browser's `required` check on the address is modelled as a non-empty value. The form's `e.preventDefault()` is not modelled.
- JSX layout, CSS classes, icons and animation are not modelled.
- The pages and components with no estimation logic are not modelled: the navigation bar's scroll listener and menu toggle (`src/components/Navbar.tsx`), the hero section's timers (`frontend/src/components/HeroSection.tsx`), the `IntersectionObserver` fade-in (`src/components/animations/FadeIn.tsx`), and the markup-only pages and cards.
