# Churn prediction form: verified model of the client-side logic

This project models the decision logic in the browser script of the
Churn Prediction System, `Churn_Prediction_System/static/script.js`:

- **`generatePrediction`**:
  - copies the form's entries into a plain object;
  - scores the customer with fixed weights for age, contract, services, billing, tenure, monthly charges and family;
  - caps the score to [0, 100];
  - predicts churn above 50 and derives a confidence;
  - attaches recommendations.
- **`generateRecommendations`**: builds the ordered list of advice for a verdict.
- **`validateField` / `validateForm`**: reject a blank control and a number control whose value does not parse or is negative. The form is valid when every required input and select passes, and every control is checked; there is no early exit.

The rules read the form through JavaScript built-ins, and the model writes those out rather than assuming them:

- `String.prototype.trim` and the ECMAScript white-space set (`JsText`).
- `parseInt` with no radix (`JsNumbers`): leading white space, one sign, a `0x`/`0X` prefix, and the longest digit run. No digit gives NaN.
- `parseFloat` (`JsNumbers`): the longest `StrDecimalLiteral` prefix, including `Infinity`, a fraction and an exponent.
- A missing property is `undefined`. `undefined` is strictly equal to no string, and both parsers read it as the text `"undefined"`, which gives NaN.
- Every comparison with NaN is false, so an unparseable tenure or charge adds nothing.

Modules:

- `Wrappers`: `Option`.
- `JsText`: white space and trimming.
- `JsNumbers`:
  - the number values NaN, finite and the two infinities, with JavaScript's `<` and `>` against a constant;
  - `parseInt` and `parseFloat`;
  - decimal numerals as their inverse.
- `FormData`: the entries loop and the `data` object; `Is` is `data[key] === literal`.
- `ChurnScore`:
  - the weights, the raw and capped score, and `GeneratePrediction`;
  - the scoring rules run in two methods, `AddProfileFactors` (age, contract, services, billing) and `AddUsageFactors` (tenure, charges, family), in the source's order.
- `Advice`:
  - the recommendation list;
  - each piece of advice is a `Tip`, and `Text` gives the exact string the page shows.
- `Validation`: field and form validation. The message shown or cleared under a control is the `FieldCheck` outcome.

The scoring rules compare strings, and the model follows the code:

- `SeniorCitizen === '1'`, `Partner === 'Yes'` and `Dependents === 'Yes'`. These are comparisons with those exact strings, not flags that are "true" or "present".
- A select showing "0", "No" or no value adds nothing.

## Model

| member | source | states |
|---|---|---|
| FormData.CollectEntries | Churn_Prediction_System/static/script.js:244-247 | The object holds exactly the entry names. Under each name it holds the value of the last entry with that name, because a later entry overwrites an earlier one. |
| FormData.AssignedLastWins | Churn_Prediction_System/static/script.js:244-247 | For the object as a value: a key is present if and only if some entry has that name, and its value comes from the last such entry. |
| ChurnScore.AddProfileFactors | Churn_Prediction_System/static/script.js:252-265 | The age, contract, service and billing rules add exactly the sum of their seven weights to the running score. |
| ChurnScore.AddUsageFactors | Churn_Prediction_System/static/script.js:267-281 | The tenure (through parseInt), monthly-charges (through parseFloat), partner and dependents rules add exactly their four weights to the running score. |
| ChurnScore.GeneratePrediction | Churn_Prediction_System/static/script.js:242-295 | The reported score is the capped raw score of the entries and lies in [0, 100]. `isChurn` holds if and only if that score is above 50, and equally if and only if the raw score is above 50. The confidence is the score for churn and 100 minus it otherwise, and lies in [50, 100]. The recommendations are those of the verdict. |
| ChurnScore.ContractBands | Churn_Prediction_System/static/script.js:256-257 | The contract rule adds 30 exactly for "Month-to-month", 10 exactly for "One year", and 0 exactly otherwise. |
| ChurnScore.TenureBands | Churn_Prediction_System/static/script.js:269-272 | The tenure rule adds 25 exactly below 12, 15 exactly in [12, 24), -15 exactly above 48, and 0 exactly for NaN or [24, 48]. |
| ChurnScore.ChargesBands | Churn_Prediction_System/static/script.js:275-277 | The charges rule adds 15 exactly above 80 (including +Infinity), -10 exactly below 30 (including -Infinity), and 0 exactly for NaN or [30, 80]. |
| ChurnScore.TenureNumeralBand | Churn_Prediction_System/static/script.js:269-272 | A tenure typed as the numeral of an integer t parses back to t and adds the weight of t's band. |
| ChurnScore.ChargesNumeralBand | Churn_Prediction_System/static/script.js:275-277 | Charges typed as the numeral of an integer c parse back to exactly c and add the weight of c's band. |
| ChurnScore.MissingNumbersAddNothing | Churn_Prediction_System/static/script.js:269-277 | A missing tenure parses to NaN and a missing charge parses to NaN; each then adds nothing. |
| ChurnScore.RawScore | Churn_Prediction_System/static/script.js:250-281 | Before capping, the score (the sum of every rule's weight) lies in [-50, 150]. |
| ChurnScore.RawScoreExtremes | Churn_Prediction_System/static/script.js:250-281 | The raw score is 150 if and only if every rule is at its highest. It is -50 if and only if every rule is at its lowest. |
| ChurnScore.RiskiestFormScore | Churn_Prediction_System/static/script.js:250-284 | A concrete form (a senior on a monthly fibre contract with no security or tech support, paperless billing by electronic check, tenure 0, charges 100, no partner or dependents) scores 150, so the cap to 100 is reached from above. |
| ChurnScore.SafestFormScore | Churn_Prediction_System/static/script.js:250-284 | A concrete form (a two-year DSL contract with security and tech support, mailed paper bills, tenure 60, charges 20, a partner and dependents) scores -50, so the cap to 0 is reached from below. |
| ChurnScore.ExtremesReachable | Churn_Prediction_System/static/script.js:250-281 | Both ends of [-50, 150] are reached by some form. |
| ChurnScore.Clamp | Churn_Prediction_System/static/script.js:284 | Capping lands in [0, 100] and leaves an in-range score unchanged. |
| ChurnScore.ClampProperties | Churn_Prediction_System/static/script.js:284 | Capping sends anything below 0 to 0 and anything above 100 to 100. |
| ChurnScore.ClampKeepsVerdict | Churn_Prediction_System/static/script.js:284-286 | The capped score is above 50 if and only if the raw score is. |
| ChurnScore.ConfidenceAtLeastHalf | Churn_Prediction_System/static/script.js:286-287 | For any score in [0, 100], the derived confidence lies in [50, 100]. |
| Advice.GenerateRecommendations | Churn_Prediction_System/static/script.js:297-330 | Pushing the applicable items one after another yields exactly the list of the verdict. |
| Advice.ChurnRecommendations | Churn_Prediction_System/static/script.js:300-318 | For churn, the list starts with the loyalty-discount and outreach items and has 2 to 6 entries. The contract, security, tech-support and payment items each appear if and only if their field condition holds. Every item is one of the churn items. |
| Advice.ChurnInOrder | Churn_Prediction_System/static/script.js:300-318 | For churn, the items follow the fixed order in which the source pushes them, so none appears twice. |
| Advice.RetentionRecommendations | Churn_Prediction_System/static/script.js:319-326 | Without churn, the list starts with the three reassurance items and has 3 or 4 entries. It has a fourth item, the loyalty-rewards one, if and only if the parsed tenure exceeds 36. |
| Advice.TextInjective | Churn_Prediction_System/static/script.js:301-325 | Distinct pieces of advice are shown as distinct strings. |
| Validation.ValidateField | Churn_Prediction_System/static/script.js:138-158 | A control gets "This field is required" if and only if its value is white space only, the empty string included. Only a number control can get the invalid-number error. A control that is not a number control is accepted if and only if its value is not white space only. |
| Validation.NumeralAcceptedIffNonNegative | Churn_Prediction_System/static/script.js:148-157 | A number control holding the numeral of an integer n is accepted if and only if n >= 0. It is rejected as an invalid number if and only if n < 0. |
| Validation.CheckedControlsMembers | Churn_Prediction_System/static/script.js:209 | The controls visited are exactly the required inputs and selects. |
| Validation.OutcomesPointwise | Churn_Prediction_System/static/script.js:212-216 | There is one outcome per visited control, and each is what validateField decides for that control. |
| Validation.ValidateForm | Churn_Prediction_System/static/script.js:208-219 | Every visited control is validated in document order, with no early exit, and its outcome is recorded. The form is valid if and only if all outcomes are acceptances. |
| Validation.ValidIffEveryCheckedAccepted | Churn_Prediction_System/static/script.js:208-219 | The form is valid if and only if every required input and select of the form is accepted by validateField. |
| JsText.TrimEmptyIffBlank | Churn_Prediction_System/static/script.js:140-142 | A trimmed value is empty if and only if the value is white space only. |
| JsText.TrimIsInnerSlice | Churn_Prediction_System/static/script.js:140 | `trim` cuts only white space, from both ends. The result neither starts nor ends with white space. |
| JsText.TrimIdempotent | Churn_Prediction_System/static/script.js:140 | Trimming twice is the same as trimming once. |
| JsNumbers.ParseIntDecimal | Churn_Prediction_System/static/script.js:268 | parseInt reads back the decimal numeral of any integer. This still holds when the numeral is followed by text that does not extend it. |
| JsNumbers.ParseFloatDecimal | Churn_Prediction_System/static/script.js:274 | parseFloat reads back the decimal numeral of any integer. |
| JsNumbers.ParsersSkipWhiteSpace | Churn_Prediction_System/static/script.js:268-274 | Leading white space never changes what parseInt or parseFloat returns. |
| JsNumbers.DigitRun | Churn_Prediction_System/static/script.js:268-274 | The digit run the parsers read is the longest prefix made only of digits. |

## Left out

- The DOM and the page's glue are not modelled. This covers reading controls, creating and removing error elements, colours, `showPredictionResult`, loading indicators, navigation, scrolling, animations, particles (which use `Math.random`) and service-worker registration. None of it decides anything.
- The simulated request is not modelled: `setTimeout` and `handleFormSubmission`, which only sequences validation and prediction, together with `debounce`. `GeneratePrediction` takes the entries directly.
- `calculateTotalCharges` is not modelled. It is a floating-point product formatted with `toFixed(2)` for display, and no rule reads it.
- `Churn_Prediction_System/app.py` is not part of this model. It hands the form to a pickled scikit-learn model and has no visible logic of its own.
- FormData values that are files are not modelled: every entry value is a string.
- Special property names such as `__proto__` are not modelled. The object is a map from names to strings.
- JsNumbers.ParseFloat returns an exact rational. The IEEE-754 rounding, overflow to Infinity and underflow to 0 that JavaScript applies are not modelled, and neither is the sign of a negative zero. A decimal numeral of an integer is still read exactly, so the thresholds 30 and 80 are compared as written for such numerals. A numeral closer to 30 or 80 than a double can tell apart, such as "80.00000000000000001", is read above 80 here, while JavaScript rounds it to 80 and adds no charges weight.
- JsNumbers.ParseInt returns the exact integer. JavaScript rounds digit strings beyond 2^53 to a double.
- JsNumbers.ParseFloatDecimal only states the read-back for integer numerals. A fractional numeral such as "29.99" is not proved to read back.
- Advice.GenerateRecommendations returns each item as a `Tip` rather than as its string. `Text` gives the exact string, and `TextInjective` shows that no information is lost.
- Validation.ValidateField rejects as an invalid number a negative numeral too small for a double, such as "-1e-400". JavaScript rounds it to -0, which is not below 0, and so accepts it. Underflow and negative zero are not modelled.
- Validation.ValidateField gives an outcome rather than calling `showFieldError` or `clearFieldError`. A rejected control shows the outcome's `Message`, and an accepted one has its error cleared.
