/**
 * The manufacturer's new-product form (src/pages/manufacturer/AddProduct.tsx):
 * the text fields, at most five selected images with their previews, and the
 * payload the form submits.
 */
module AddProduct {
  import opened Wrappers
  import opened Records
  import opened Seqs
  import opened Browser
  import opened Api

  /** A selected image file; only its name and size matter here. */
  datatype File = File(name: string, size: int)

  const MaxImages := 5

  /** The form as the page starts it: every field present and empty. */
  const EmptyForm: Record := map["title" := "", "description" := "", "price" := "", "category" := "",
                                 "quantity" := "", "unit" := "", "minOrder" := "", "leadTime" := ""]

  /** Every field of the form is present. */
  predicate HasFormFields(form: Record) {
    && "title" in form && "description" in form && "price" in form && "category" in form
    && "quantity" in form && "unit" in form && "minOrder" in form && "leadTime" in form
  }

  /**
   * The images after `handleImageUpload`: no selection changes nothing; a
   * batch that would take the total above five is rejected whole; otherwise
   * the batch is appended after the images already chosen, in order.
   */
  function AfterUpload(images: seq<File>, files: Option<seq<File>>): (r: seq<File>)
    ensures files.None? ==> r == images
    ensures files.Some? && |images| + |files.value| > MaxImages ==> r == images
    ensures files.Some? && |images| + |files.value| <= MaxImages ==> r == images + files.value
    ensures |images| <= MaxImages ==> |r| <= MaxImages
  {
    match files
    case None => images
    case Some(batch) => if |images| + |batch| > MaxImages then images else images + batch
  }

  /** Removing the image just added undoes adding it. */
  lemma RemoveUndoesUpload(images: seq<File>, f: File)
    requires |images| < MaxImages
    ensures RemoveAt(AfterUpload(images, Some([f])), |images|) == images
  {
    var r := AfterUpload(images, Some([f]));
    assert r[..|images|] == images;
    assert r[|images| + 1..] == [];
  }

  datatype Specifications = Specifications(minOrder: string, leadTime: string)

  /**
   * The body `handleSubmit` sends. Price and quantity stay the form's text:
   * `parseFloat` and `parseInt` are not modelled.
   */
  datatype ProductPayload = ProductPayload(
    title: string,
    description: string,
    priceText: string,
    category: string,
    quantityText: string,
    unit: string,
    specifications: Specifications,
    images: seq<File>)

  /** The payload: every text field copied from the form, the specifications carrying `minOrder` and `leadTime` verbatim. */
  function PayloadOf(form: Record, images: seq<File>): (p: ProductPayload)
    requires HasFormFields(form)
    ensures p.specifications == Specifications(form["minOrder"], form["leadTime"])
    ensures p.title == form["title"] && p.description == form["description"] && p.category == form["category"]
    ensures p.unit == form["unit"] && p.priceText == form["price"] && p.quantityText == form["quantity"]
    ensures p.images == images
  {
    ProductPayload(
      form["title"], form["description"], form["price"], form["category"], form["quantity"], form["unit"],
      Specifications(form["minOrder"], form["leadTime"]),
      images)
  }

  const ProductsPage := "/manufacturer/products"

  class AddProductPage {
    /** The browser window the API client reads the token from, and signs out of on a 401. */
    const window: Window
    var loading: bool
    var images: seq<File>
    var imagePreviews: seq<string>
    var formData: Record

    /** At most five images, and every form field present. */
    predicate Valid()
      reads this
    {
      |images| <= MaxImages && HasFormFields(formData)
    }

    constructor(window: Window)
      ensures this.window == window
      ensures !loading && images == [] && imagePreviews == [] && formData == EmptyForm
      ensures Valid()
    {
      this.window := window;
      loading := false;
      images := [];
      imagePreviews := [];
      formData := EmptyForm;
    }

    /** `handleImageUpload`; `rejected` tells whether the batch was refused for exceeding five. */
    method HandleImageUpload(files: Option<seq<File>>) returns (rejected: bool)
      requires Valid()
      modifies this
      ensures Valid()
      ensures images == AfterUpload(old(images), files)
      ensures rejected <==> files.Some? && |old(images)| + |files.value| > MaxImages
      ensures imagePreviews == old(imagePreviews) && formData == old(formData) && loading == old(loading)
    {
      rejected := false;
      if files.None? {
        return;
      }
      var newImages := files.value;
      var totalImages := |images| + |newImages|;
      if totalImages > MaxImages {
        rejected := true;
        return;
      }
      images := images + newImages;
    }

    /** A file reader finished: its data URL joins the previews, in the order the readers finish. */
    method OnPreviewLoaded(url: string)
      requires Valid()
      modifies this
      ensures Valid()
      ensures imagePreviews == old(imagePreviews) + [url]
      ensures images == old(images) && formData == old(formData) && loading == old(loading)
    {
      imagePreviews := imagePreviews + [url];
    }

    /** `removeImage(index)`: the entry at `index` leaves both lists; the rest keep their order. */
    method RemoveImage(index: int)
      requires Valid()
      modifies this
      ensures Valid()
      ensures images == RemoveAt(old(images), index) && imagePreviews == RemoveAt(old(imagePreviews), index)
      ensures formData == old(formData) && loading == old(loading)
    {
      images := RemoveAt(images, index);
      imagePreviews := RemoveAt(imagePreviews, index);
    }

    /** `handleChange(field, value)`: only the named field changes. */
    method HandleChange(field: string, value: string)
      requires Valid()
      modifies this
      ensures Valid()
      ensures formData == WithField(old(formData), field, value)
      ensures images == old(images) && imagePreviews == old(imagePreviews) && loading == old(loading)
    {
      formData := WithField(formData, field, value);
    }

    /**
     * `handleSubmit`: sends the payload; a success navigates to the product
     * list, a failure yields the server's message or the fallback. Loading
     * ends false and the form is kept either way.
     */
    method HandleSubmit(reply: Reply<()>) returns (payload: ProductPayload, navigation: Option<string>, message: Option<string>)
      requires Valid()
      modifies this, window
      ensures Valid() && !loading
      ensures payload == PayloadOf(formData, images)
      ensures window.Snapshot() == AfterReply(old(window.Snapshot()), reply)
      ensures reply.Success? ==> navigation == Some(ProductsPage) && message.None?
      ensures reply.Failure? ==> navigation.None? && message == Some(ErrorMessage(reply.error, "Failed to create product"))
      ensures images == old(images) && imagePreviews == old(imagePreviews) && formData == old(formData)
    {
      loading := true;
      payload := PayloadOf(formData, images);
      var response, _ := Send(window, ProductsCreate, reply);
      if response.Success? {
        navigation := Some(ProductsPage);
        message := None;
      } else {
        navigation := None;
        message := Some(ErrorMessage(response.error, "Failed to create product"));
      }
      loading := false;
    }
  }
}
