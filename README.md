# Checkout contact form: state and validation

This project models the contact-data step of a burger-ordering checkout (the
`ContactData` React container) and proves properties of the model in Dafny.

- **Field validator** (`Validation`). `checkValidity(value, rules)` runs up to three
  checks over a rule set `{required, minLength, maxLength}`. The rule keys keep
  JavaScript truthiness: an absent key, `false` or `0` skips its check. `required` is
  tested on the trimmed value. `trim` strips the ECMAScript WhiteSpace and
  LineTerminator characters (`IsWhitespace`). The result is true exactly when every
  applicable check passes, whatever order the checks run in.
- **Form schema** (`Form`). The schema maps each field identifier to a descriptor
  `{elementType, elementConfig, value, validation?, valid?, touched?}`. The initial
  schema has five required text inputs (`name`, `street`, `zipCode`, `country`,
  `email`) with empty values and `valid: false`. The zip code must also be exactly
  five characters long. The sixth field, the `deliveryMethod` select, has no
  `validation`, `valid` or `touched` key. A field change is a copy-on-write update:
  the new value goes in, `valid` is recomputed from the field's own rules, and
  nothing else changes. The invariant "every validated field's `valid` is the
  validator's verdict on its value" holds initially and is kept by every change.
- **Component** (`ContactDataComponent`). The class `ContactData` holds the schema,
  the `loading` flag, and the routes pushed onto the router history. It has three
  methods:
  - `InputChangedHandler` applies a field change.
  - `OrderHandler` sets `loading` and flattens the schema into `identifier → value`.
    The flattening is a loop over the keys (`FlattenForm`). It then builds the order
    `{ingredients, price, orderData}`. It never looks at validity.
  - `PostCompleted` is the completion of the POST. Either outcome clears `loading`.
    Only success pushes `/`.

The change handler requires that the field exists and has a rule set. In the source,
`checkValidity` reads `rules.required` unconditionally, so the handler would throw a
TypeError if it were called on the rule-less `deliveryMethod` select. The rendering
never makes that call. The `Input` component puts the change callback on each
`<option>` (src/components/UI/Input/Input.js:33-38), not on the `<select>`, and an
option never fires a change event. So the precondition holds at every call the
rendered form can make. The select's value keeps its initial `''`, and every order
posts `deliveryMethod: ''`. A rule-less field is never validated: it has no `valid`
key at all.

## Model

| member | source | states |
|---|---|---|
| Validation.TrimStart | src/containers/Checkout/ContactData/ContactData.js:133 | leading-whitespace strip: the result is a suffix of the input, everything cut off is whitespace, and a non-empty result starts with a non-whitespace character |
| Validation.TrimEnd | src/containers/Checkout/ContactData/ContactData.js:133 | trailing-whitespace strip: the result is a prefix of the input, everything cut off is whitespace, and a non-empty result ends with a non-whitespace character |
| Validation.Trim | src/containers/Checkout/ContactData/ContactData.js:133 | `value.trim()`: the result is a slice of the value with only whitespace before and after it, it starts and ends with a non-whitespace character when non-empty, and it is empty exactly when the value is empty or all whitespace (so `value.trim() !== ''` fails exactly on blank values) |
| Validation.CheckValidity | src/containers/Checkout/ContactData/ContactData.js:128-145 | true iff (required truthy ⇒ not blank) and (minLength truthy ⇒ length ≥ minLength) and (maxLength truthy ⇒ length ≤ maxLength) |
| Validation.RunChecksConjunction | src/containers/Checkout/ContactData/ContactData.js:130-144 | threading `isValid = cond && isValid` through any sequence of checks gives the start flag conjoined with what each check demands |
| Validation.ChecksInAnyOrder | src/containers/Checkout/ContactData/ContactData.js:130-144 | any order of the three checks, with repetitions allowed, gives the same verdict as the source's order |
| Validation.NoRulesAlwaysValid | src/containers/Checkout/ContactData/ContactData.js:130-144 | with no truthy rule key, every string is valid |
| Validation.RequiredRejectsBlank | src/containers/Checkout/ContactData/ContactData.js:132-134 | with `required` truthy, an empty or all-whitespace value is invalid whatever the bounds |
| Validation.BoundsRejectOutOfRange | src/containers/Checkout/ContactData/ContactData.js:136-142 | a truthy minLength rejects shorter values; a truthy maxLength rejects longer values |
| Validation.ZeroBoundIgnored | src/containers/Checkout/ContactData/ContactData.js:136-142 | a bound of 0 behaves exactly like an absent bound |
| Validation.ZipCodeValidity | src/containers/Checkout/ContactData/ContactData.js:49-53 | under the zip-code rules (required, 5, 5), a value is valid iff its length is 5 and it is not all whitespace |
| Validation.ZipCodeExamples | src/containers/Checkout/ContactData/ContactData.js:49-53 | "1234" and "123456" fail, "12345" passes, five spaces fail |
| Form.InitialForm | src/containers/Checkout/ContactData/ContactData.js:12-96 | the initial `orderForm` has exactly the six field identifiers name, street, zipCode, country, email and deliveryMethod |
| Form.InitialFormValid | src/containers/Checkout/ContactData/ContactData.js:12-84 | every validated field starts as `''`, `valid: false` and `required: true`; the validity invariant holds |
| Form.OnlyDeliveryMethodUnvalidated | src/containers/Checkout/ContactData/ContactData.js:85-95 | the delivery-method select is the one initial field without a rule set |
| Form.UpdateField | src/containers/Checkout/ContactData/ContactData.js:153-164 | after a change: same key set; the field holds the new value; its `valid` is the validator's verdict on that value under its own rules; its type, config, rules and `touched` are kept; every other entry is unchanged |
| Form.UpdatePreservesInvariant | src/containers/Checkout/ContactData/ContactData.js:162-164 | a field change keeps "every validated field's `valid` agrees with its value" |
| Form.UpdateLastWins | src/containers/Checkout/ContactData/ContactData.js:153-166 | two changes of the same field equal the last change alone |
| Form.UpdatesCommute | src/containers/Checkout/ContactData/ContactData.js:153-166 | changes to two different fields give the same schema in either order |
| Form.ZipCodeScenario | src/containers/Checkout/ContactData/ContactData.js:148-168 | from the initial schema, typing "1234", "12345", "123456" into the zip code makes it invalid, valid, invalid |
| ContactDataComponent.FlattenForm | src/containers/Checkout/ContactData/ContactData.js:106-112 | the flattened data has exactly the schema's keys, each mapped to that field's value |
| ContactDataComponent.ContactData.constructor | src/containers/Checkout/ContactData/ContactData.js:10-98 | the initial state is the initial schema, not loading, no route pushed; the class invariant holds |
| ContactDataComponent.ContactData.InputChangedHandler | src/containers/Checkout/ContactData/ContactData.js:148-168 | the new schema is the field update of the old one; `loading` and the routes are unchanged; the invariant is kept |
| ContactDataComponent.ContactData.OrderHandler | src/containers/Checkout/ContactData/ContactData.js:101-117 | sets `loading`; the order carries the given ingredients and price and orderData with exactly the schema's keys mapped to their values, whatever their validity; the schema is unchanged |
| ContactDataComponent.ContactData.PostCompleted | src/containers/Checkout/ContactData/ContactData.js:118-125 | either outcome clears `loading` and keeps the schema; only success pushes `/` |
| ContactDataComponent.EmptyFormPostedThenPostFails | src/containers/Checkout/ContactData/ContactData.js:101-126 | an untouched form is still posted, with every field `''`; after a failed POST, `loading` is false, no route is pushed, and the schema is the initial one |
| ContactDataComponent.ZipCodeSubmissionSucceeds | src/containers/Checkout/ContactData/ContactData.js:101-126 | after typing a five-digit zip code, the field is valid and the order carries it; after a successful POST, `loading` is false and `/` was pushed once |

## Left out

- `render()` and the `Input` component (src/components/UI/Input/Input.js) are markup only: they map `elementType` to a tag and have no behaviour to state.
- The POST to `/orders.json` is network I/O. It is the order value that `OrderHandler` returns, and its completion is the call `PostCompleted(outcome)`.
- `history.push` is a router call. It is recorded as an append to `routesPushed`.
- React's `setState` is asynchronous and batched, and re-renders are scheduled. Each handler is modelled as one atomic state change.
- A second submit can fire while a POST is in flight. That is event-loop concurrency and is not modelled. `OrderHandler` does not refuse it either.
- `event.preventDefault()`, CSS modules and the `Button`/`Spinner` components are left out.
- `IsWhitespace` follows the ECMAScript WhiteSpace and LineTerminator sets, with the space separators as listed in Unicode 15. Lengths are sequence lengths over code points, not UTF-16 code units.
- Rule keys hold only booleans (`required`) and integers (the bounds). Other JavaScript values are not modelled: strings, `null`, `NaN`, fractional numbers.
- A JavaScript object keeps its keys in insertion order, which fixes the render order and the JSON key order. A Dafny `map` has no order.
- The change handler would throw if it were called on the rule-less delivery-method field. The rendered form never calls it there, because the select's options carry the change callback and never fire it. The model excludes that call by a precondition and does not model the exception.
