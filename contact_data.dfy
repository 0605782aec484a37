/**
 The contact-data container: the component state (the form schema and a loading flag),
 the field-change handler, and the submission of an order, whose asynchronous
 completion is modelled as a separate call carrying the outcome.
 */
module ContactDataComponent {

  import opened Wrappers
  import opened Validation
  import opened Form

  /** The submitted order: the ingredients and price passed down by the checkout page,
      and the flattened form, identifier to value. */
  datatype Order = Order(ingredients: map<string, int>, price: real, orderData: map<string, string>)

  /** How the POST of an order ended. */
  datatype PostOutcome = Succeeded | Failed

  /** The `for...in` loop of the submit handler: one `formData[id] = form[id].value`
      per field, whatever the field's validity. */
  method FlattenForm(form: OrderForm) returns (formData: map<string, string>)
    ensures formData.Keys == form.Keys
    ensures forall id :: id in form ==> formData[id] == form[id].value
  {
    formData := map[];
    var remaining := form.Keys;
    while remaining != {}
      invariant remaining <= form.Keys
      invariant formData.Keys == form.Keys - remaining
      invariant forall id :: id in formData ==> formData[id] == form[id].value
      decreases remaining
    {
      var id :| id in remaining;
      formData := formData[id := form[id].value];
      remaining := remaining - {id};
    }
  }

  class ContactData {
    /** The form schema. */
    var orderForm: OrderForm
    /** True while an order is being posted: the form is replaced by a spinner. */
    var loading: bool
    /** The routes pushed onto the router's history, oldest first. */
    var routesPushed: seq<string>

    /** The fields are those of the initial schema, and no validated field's flag is stale. */
    ghost predicate Valid()
      reads this
    {
      orderForm.Keys == FieldIds() && ValidityInvariant(orderForm)
    }

    /** The initial component state. */
    constructor ()
      ensures Valid()
      ensures orderForm == InitialForm() && !loading && routesPushed == []
    {
      InitialFormValid();
      orderForm := InitialForm();
      loading := false;
      routesPushed := [];
    }

    /** inputChangedHandler(event, id): installs a copy of the schema in which field `id`
        holds the new value and the validator's verdict on it; all else is kept. The body
        follows the handler's copy, assign, validate and install steps one by one; the
        `ensures` ties the outcome to `UpdateField`, the update's definition. */
    method InputChangedHandler(value: string, id: string)
      requires Valid()
      requires id in orderForm && orderForm[id].validation.Some?
      modifies this
      ensures Valid()
      ensures orderForm == UpdateField(old(orderForm), id, value)
      ensures loading == old(loading) && routesPushed == old(routesPushed)
    {
      UpdatePreservesInvariant(orderForm, id, value);
      var updatedOrderForm := orderForm;
      var updatedFormElement := updatedOrderForm[id];
      updatedFormElement := updatedFormElement.(value := value);
      updatedFormElement := updatedFormElement.(valid := Some(CheckValidity(updatedFormElement.value, updatedFormElement.validation.value)));
      updatedOrderForm := updatedOrderForm[id := updatedFormElement];
      orderForm := updatedOrderForm;
    }

    /** orderHandler: sets `loading`, flattens the schema and returns the order that is
        posted. Validity is not consulted, and a submission while one is in flight is not
        refused. */
    method OrderHandler(ingredients: map<string, int>, price: real) returns (order: Order)
      requires Valid()
      modifies this
      ensures Valid()
      ensures loading
      ensures orderForm == old(orderForm) && routesPushed == old(routesPushed)
      ensures order.ingredients == ingredients && order.price == price
      ensures order.orderData.Keys == orderForm.Keys
      ensures forall id :: id in orderForm ==> order.orderData[id] == orderForm[id].value
    {
      loading := true;
      var formData := FlattenForm(orderForm);
      order := Order(ingredients, price, formData);
    }

    /** The completion of the POST: either outcome clears `loading`; only success
        navigates to the home route. The schema is left as it is. */
    method PostCompleted(outcome: PostOutcome)
      requires Valid()
      modifies this
      ensures Valid()
      ensures !loading
      ensures orderForm == old(orderForm)
      ensures routesPushed == if outcome == Succeeded then old(routesPushed) + ["/"] else old(routesPushed)
    {
      loading := false;
      if outcome == Succeeded {
        routesPushed := routesPushed + ["/"];
      }
    }
  }

  /** Submitting an untouched form still posts it, with every field's value empty; a
      failed POST then clears `loading`, navigates nowhere and leaves the schema as it was. */
  method EmptyFormPostedThenPostFails(ingredients: map<string, int>, price: real)
    returns (order: Order, loadingAfter: bool, routes: seq<string>, formAfter: OrderForm)
    ensures order.orderData == map id | id in FieldIds() :: ""
    ensures !loadingAfter && routes == [] && formAfter == InitialForm()
  {
    var c := new ContactData();
    order := c.OrderHandler(ingredients, price);
    assert c.loading;
    c.PostCompleted(Failed);
    loadingAfter, routes, formAfter := c.loading, c.routesPushed, c.orderForm;
  }

  /** Filling in the zip code and then submitting successfully: the order carries the
      typed value, the field is valid, and the home route is pushed once. */
  method ZipCodeSubmissionSucceeds(ingredients: map<string, int>, price: real)
    returns (order: Order, zipValid: Option<bool>, loadingAfter: bool, routes: seq<string>)
    ensures "zipCode" in order.orderData && order.orderData["zipCode"] == "12345"
    ensures "name" in order.orderData && order.orderData["name"] == ""
    ensures zipValid == Some(true)
    ensures !loadingAfter && routes == ["/"]
  {
    var c := new ContactData();
    var zip := InitialForm()["zipCode"];
    assert zip.validation == Some(ZipCodeRules());
    assert InitialForm()["name"].value == "";
    c.InputChangedHandler("1234", "zipCode");
    c.InputChangedHandler("12345", "zipCode");
    ZipCodeExamples();
    zipValid := c.orderForm["zipCode"].valid;
    order := c.OrderHandler(ingredients, price);
    c.PostCompleted(Succeeded);
    loadingAfter, routes := c.loading, c.routesPushed;
  }

}
