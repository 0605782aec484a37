/**
 The form schema of the checkout contact form: a map from field identifier to field
 descriptor, its initial value, the copy-on-write update a field change performs, and
 the invariant that every validated field's `valid` flag agrees with its value.
 */
module Form {

  import opened Wrappers
  import opened Validation

  /** Which markup shape the field is rendered as. */
  datatype ElementType = Input | Textarea | Select

  /** One entry of a select field's option list. */
  datatype SelectOption = SelectOption(value: string, displayValue: string)

  /** The element configuration: the attributes of a text-like input, or the options of a select. */
  datatype ElementConfig =
    | TextConfig(inputType: string, placeholder: string)
    | SelectConfig(options: seq<SelectOption>)

  /** A field descriptor. `validation`, `valid` and `touched` are keys the schema may
      leave out, as it does for the delivery method. */
  datatype Descriptor = Descriptor(
    elementType: ElementType,
    elementConfig: ElementConfig,
    value: string,
    validation: Option<Rules>,
    valid: Option<bool>,
    touched: Option<bool>)

  /** The form schema: field identifier to descriptor. */
  type OrderForm = map<string, Descriptor>

  /** The field identifiers of the contact form. */
  function FieldIds(): set<string> {
    {"name", "street", "zipCode", "country", "email", "deliveryMethod"}
  }

  /** A required text input, as the schema declares name, street, zip code, country and e-mail. */
  function TextField(inputType: string, placeholder: string, rules: Rules): Descriptor {
    Descriptor(Input, TextConfig(inputType, placeholder), "", Some(rules), Some(false), Some(false))
  }

  /** Every field that has a rule set carries the validator's verdict on its current value. */
  predicate ValidityInvariant(form: OrderForm) {
    forall id :: id in form && form[id].validation.Some? ==>
      form[id].valid == Some(CheckValidity(form[id].value, form[id].validation.value))
  }

  /** The initial schema: five validated inputs with empty values and `valid` false,
      and a delivery-method select with no rules and no `valid` or `touched` key. */
  function InitialForm(): (f: OrderForm)
    ensures f.Keys == FieldIds()
  {
    map[
      "name" := TextField("text", "Your Name", RequiredRules()),
      "street" := TextField("text", "Street", RequiredRules()),
      "zipCode" := TextField("text", "Zip Code", ZipCodeRules()),
      "country" := TextField("text", "Country", RequiredRules()),
      "email" := TextField("email", "E-mail", RequiredRules()),
      "deliveryMethod" := Descriptor(
        Select,
        SelectConfig([SelectOption("fastest", "Fastest"), SelectOption("cheapest", "Cheapest")]),
        "", None, None, None)
    ]
  }

  /** Every validated field of the initial schema starts empty, not valid and required,
      so the validity invariant holds from the start. */
  lemma InitialFormValid()
    ensures forall id :: id in InitialForm() && InitialForm()[id].validation.Some? ==>
      && InitialForm()[id].value == ""
      && InitialForm()[id].valid == Some(false)
      && InitialForm()[id].validation.value.required == Some(true)
    ensures ValidityInvariant(InitialForm())
  {
    forall id | id in InitialForm() && InitialForm()[id].validation.Some?
      ensures InitialForm()[id].valid == Some(CheckValidity(InitialForm()[id].value, InitialForm()[id].validation.value))
    {
      RequiredRejectsBlank("", InitialForm()[id].validation.value);
    }
  }

  /** The delivery method is the one field without a rule set. */
  lemma OnlyDeliveryMethodUnvalidated()
    ensures forall id :: id in InitialForm() ==> (InitialForm()[id].validation.None? <==> id == "deliveryMethod")
  {
  }

  /** The copy-on-write update of inputChangedHandler: a new descriptor whose `value` is
      the new value and whose `valid` is the validator's verdict on it under the field's
      own rules, installed in a copy of the schema. The field must exist and must have a
      rule set: the validator dereferences the rules unconditionally. */
  function UpdateField(form: OrderForm, id: string, value: string): (r: OrderForm)
    requires id in form && form[id].validation.Some?
    ensures r.Keys == form.Keys
    ensures r[id].value == value
    ensures r[id].valid == Some(CheckValidity(value, form[id].validation.value))
    ensures && r[id].elementType == form[id].elementType
            && r[id].elementConfig == form[id].elementConfig
            && r[id].validation == form[id].validation
            && r[id].touched == form[id].touched
    ensures forall k :: k in form && k != id ==> r[k] == form[k]
  {
    var edited := form[id].(value := value);
    var element := edited.(valid := Some(CheckValidity(edited.value, edited.validation.value)));
    form[id := element]
  }

  /** A field change keeps the validity invariant. */
  lemma UpdatePreservesInvariant(form: OrderForm, id: string, value: string)
    requires id in form && form[id].validation.Some?
    requires ValidityInvariant(form)
    ensures ValidityInvariant(UpdateField(form, id, value))
  {
  }

  /** A later change of the same field overrides an earlier one: only the last value
      typed matters, and so changing a field to its current value twice is the same as once. */
  lemma {:induction false} UpdateLastWins(form: OrderForm, id: string, v1: string, v2: string)
    requires id in form && form[id].validation.Some?
    ensures UpdateField(UpdateField(form, id, v1), id, v2) == UpdateField(form, id, v2)
  {
    var once := UpdateField(form, id, v2);
    var twice := UpdateField(UpdateField(form, id, v1), id, v2);
    assert twice[id] == once[id];
    assert forall k :: k in twice ==> twice[k] == once[k];
  }

  /** Changes to two different fields commute. */
  lemma {:induction false} UpdatesCommute(form: OrderForm, a: string, va: string, b: string, vb: string)
    requires a in form && form[a].validation.Some?
    requires b in form && form[b].validation.Some?
    requires a != b
    ensures UpdateField(UpdateField(form, a, va), b, vb) == UpdateField(UpdateField(form, b, vb), a, va)
  {
    var ab := UpdateField(UpdateField(form, a, va), b, vb);
    var ba := UpdateField(UpdateField(form, b, vb), a, va);
    assert forall k :: k in ab ==> ab[k] == ba[k];
  }

  /** Typing "1234", then "12345", then "123456" into the zip code of a fresh form makes
      it invalid, then valid, then invalid again. */
  lemma ZipCodeScenario()
    ensures var f1 := UpdateField(InitialForm(), "zipCode", "1234");
            && f1["zipCode"].valid == Some(false)
            && var f2 := UpdateField(f1, "zipCode", "12345");
            && f2["zipCode"].valid == Some(true)
            && UpdateField(f2, "zipCode", "123456")["zipCode"].valid == Some(false)
  {
    var f0 := InitialForm();
    assert "zipCode" in f0 && f0["zipCode"].validation == Some(ZipCodeRules());
    ZipCodeExamples();
    var f1 := UpdateField(f0, "zipCode", "1234");
    assert f1["zipCode"].valid == Some(false);
    var f2 := UpdateField(f1, "zipCode", "12345");
    assert f2["zipCode"].valid == Some(true);
    var f3 := UpdateField(f2, "zipCode", "123456");
    assert f3["zipCode"].valid == Some(false);
  }

}
