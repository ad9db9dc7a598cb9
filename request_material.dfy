/**
 * The buyer's material request form (src/pages/buyer-dashboard/RequestMaterial.tsx):
 * five text fields, a product picked from the catalogue (possibly preset by
 * the page URL), and the inquiry it submits.
 */
module RequestMaterial {
  import opened Wrappers
  import opened Seqs
  import opened Browser
  import opened Api
  import opened Marketplace

  datatype InquiryForm = InquiryForm(productId: string, message: string, quantity: string, budget: string, deadline: string)

  const EmptyInquiryForm := InquiryForm("", "", "", "", "")

  datatype InquiryField = ProductIdField | MessageField | QuantityField | BudgetField | DeadlineField

  /** An input's `onChange`: the named field takes the value, the others stay. */
  function WithInquiryField(form: InquiryForm, field: InquiryField, value: string): (r: InquiryForm)
    ensures field == ProductIdField ==> r == form.(productId := value)
    ensures field == MessageField ==> r == form.(message := value)
    ensures field == QuantityField ==> r == form.(quantity := value)
    ensures field == BudgetField ==> r == form.(budget := value)
    ensures field == DeadlineField ==> r == form.(deadline := value)
  {
    match field
    case ProductIdField => form.(productId := value)
    case MessageField => form.(message := value)
    case QuantityField => form.(quantity := value)
    case BudgetField => form.(budget := value)
    case DeadlineField => form.(deadline := value)
  }

  /** The URL effect: a non-empty `productId` parameter sets that field and no other. */
  function WithUrlProductId(form: InquiryForm, param: Option<string>): (r: InquiryForm)
    ensures param.None? || param.value == "" ==> r == form
    ensures param.Some? && param.value != "" ==> r.productId == param.value
    ensures r.message == form.message && r.quantity == form.quantity && r.budget == form.budget && r.deadline == form.deadline
  {
    if param.Some? && param.value != "" then form.(productId := param.value) else form
  }

  /**
   * The body `handleSubmit` sends. Quantity and budget keep their text, since
   * `parseInt` and `parseFloat` are not modelled; None stands for `undefined`.
   */
  datatype InquiryData = InquiryData(
    productId: string,
    message: string,
    quantityText: string,
    budgetText: Option<string>,
    deadline: Option<string>)

  /** An empty budget or deadline is left out of the payload; a non-empty one is passed on. */
  function InquiryDataOf(form: InquiryForm): (d: InquiryData)
    ensures d.productId == form.productId && d.message == form.message && d.quantityText == form.quantity
    ensures d.budgetText.None? <==> form.budget == ""
    ensures d.budgetText.Some? ==> d.budgetText.value == form.budget
    ensures d.deadline.None? <==> form.deadline == ""
    ensures d.deadline.Some? ==> d.deadline.value == form.deadline
  {
    InquiryData(
      form.productId,
      form.message,
      form.quantity,
      if form.budget != "" then Some(form.budget) else None,
      if form.deadline != "" then Some(form.deadline) else None)
  }

  /** The submit button is disabled while sending, or while product, message or quantity is empty. */
  function SubmitDisabled(loading: bool, form: InquiryForm): (disabled: bool)
    ensures !disabled <==> !loading && form.productId != "" && form.message != "" && form.quantity != ""
  {
    loading || form.productId == "" || form.message == "" || form.quantity == ""
  }

  /** A form the button lets through sends a product, a message and a quantity. */
  lemma EnabledSubmitSendsRequiredFields(form: InquiryForm)
    requires !SubmitDisabled(false, form)
    ensures var d := InquiryDataOf(form);
            d.productId != "" && d.message != "" && d.quantityText != ""
  {
  }

  /** `selectedProduct`: the first product whose id is the form's product id, if any. */
  function SelectedProduct(products: seq<Product>, productId: string): (r: Option<Product>)
    ensures r.None? <==> forall k :: 0 <= k < |products| ==> products[k].id != productId
    ensures r.Some? ==> r.value.id == productId && r.value in products
    ensures r.Some? ==> exists k :: FirstMatchAt((p: Product) => p.id == productId, products, k) && products[k] == r.value
  {
    Find((p: Product) => p.id == productId, products)
  }

  /** With several products under one id, the earliest one is the selected product. */
  lemma SelectedProductIsFirst(products: seq<Product>, productId: string, k: int)
    requires 0 <= k < |products| && products[k].id == productId
    requires forall j :: 0 <= j < k ==> products[j].id != productId
    ensures SelectedProduct(products, productId) == Some(products[k])
  {
    var r := SelectedProduct(products, productId);
    var k2 :| FirstMatchAt((p: Product) => p.id == productId, products, k2) && products[k2] == r.value;
    assert !(k2 < k) && !(k < k2);
  }

  class RequestMaterialPage {
    /** The browser window the API client reads the token from, and signs out of on a 401. */
    const window: Window
    var formData: InquiryForm
    var products: seq<Product>
    var loading: bool
    var productsLoading: bool

    constructor(window: Window)
      ensures this.window == window
      ensures formData == EmptyInquiryForm && products == [] && !loading && productsLoading
    {
      this.window := window;
      formData := EmptyInquiryForm;
      products := [];
      loading := false;
      productsLoading := true;
    }

    /** The effect on the page's search parameters. */
    method ApplySearchParams(productIdParam: Option<string>)
      modifies this
      ensures formData == WithUrlProductId(old(formData), productIdParam)
      ensures products == old(products) && loading == old(loading) && productsLoading == old(productsLoading)
    {
      if productIdParam.Some? && productIdParam.value != "" {
        formData := formData.(productId := productIdParam.value);
      }
    }

    /** `fetchProducts`: the reply's list, empty when missing; a failed call keeps the old list. */
    method FetchProducts(reply: Reply<Option<seq<Product>>>)
      modifies this, window
      ensures window.Snapshot() == AfterReply(old(window.Snapshot()), reply)
      ensures reply.Success? ==> products == OrEmpty(reply.data)
      ensures reply.Failure? ==> products == old(products)
      ensures !productsLoading && formData == old(formData) && loading == old(loading)
    {
      productsLoading := true;
      var response, _ := Send(window, ProductsList, reply);
      if response.Success? {
        products := OrEmpty(response.data);
      }
      productsLoading := false;
    }

    method SetField(field: InquiryField, value: string)
      modifies this
      ensures formData == WithInquiryField(old(formData), field, value)
      ensures products == old(products) && loading == old(loading) && productsLoading == old(productsLoading)
    {
      formData := WithInquiryField(formData, field, value);
    }

    /**
     * `handleSubmit`: sends the inquiry built from the form; a success clears
     * all five fields, a failure keeps them and yields the server's message
     * or the fallback. Loading ends false.
     */
    method HandleSubmit(reply: Reply<()>) returns (request: InquiryData, message: Option<string>)
      modifies this, window
      ensures window.Snapshot() == AfterReply(old(window.Snapshot()), reply)
      ensures request == InquiryDataOf(old(formData))
      ensures reply.Success? ==> formData == EmptyInquiryForm && message.None?
      ensures reply.Failure? ==> formData == old(formData) && message == Some(ErrorMessage(reply.error, "Failed to submit request"))
      ensures !loading && products == old(products) && productsLoading == old(productsLoading)
    {
      loading := true;
      request := InquiryDataOf(formData);
      var response, _ := Send(window, InquiryCreate, reply);
      if response.Success? {
        formData := EmptyInquiryForm;
        message := None;
      } else {
        message := Some(ErrorMessage(response.error, "Failed to submit request"));
      }
      loading := false;
    }
  }
}
