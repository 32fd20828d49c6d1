/** The "add product" form (app/admin/products/add/page.tsx): defaults, the error
    record, the field handler, the submit guard and the `productData` conversion. */
module ProductAdd {
  import opened Wrappers
  import opened FormFields
  import opened Notices

  const ErrorNames: set<string> := {"name", "description", "price"}

  const FieldNames: set<string> := {"name", "description", "category", "price", "taxRate", "status"}

  predicate HasAllFields(formData: map<string, string>) {
    FieldNames <= formData.Keys
  }

  /** `validateForm`'s `newErrors`; `parse` is `Number`, `None` standing for NaN. */
  function ProductErrors(formData: map<string, string>, parse: string -> Option<real>): (errors: map<string, string>)
    requires HasAllFields(formData)
    ensures errors.Keys == ErrorNames
  {
    map[
      "name" := RequiredError(formData["name"], "Product name is required"),
      "description" := RequiredError(formData["description"], "Description is required"),
      "price" := AmountError(formData["price"], parse, "Price is required", "Please enter a valid price")]
  }

  /** The form passes exactly when name and description are filled in and the
      price is present and reads as a number above zero. */
  lemma ProductFormValidIff(formData: map<string, string>, parse: string -> Option<real>)
    requires HasAllFields(formData)
    ensures AllClear(ProductErrors(formData, parse)) <==>
      && formData["name"] != "" && formData["description"] != ""
      && formData["price"] != "" && parse(formData["price"]).Some? && parse(formData["price"]).value > 0.0
  {
    var errors := ProductErrors(formData, parse);
    if AllClear(errors) {
      assert errors["name"] == "" && errors["description"] == "" && errors["price"] == "";
    }
  }

  /** The tax rate is never checked: whatever it holds, the messages are the same. */
  lemma TaxRateNeverBlocks(formData: map<string, string>, parse: string -> Option<real>, taxRate: string)
    requires HasAllFields(formData)
    ensures HasAllFields(formData["taxRate" := taxRate])
    ensures ProductErrors(formData["taxRate" := taxRate], parse) == ProductErrors(formData, parse)
  {
    var changed := formData["taxRate" := taxRate];
    assert changed["name"] == formData["name"] && changed["description"] == formData["description"];
    assert changed["price"] == formData["price"];
  }

  /** The object handed to `createProduct`. */
  datatype ProductData = ProductData(
    name: string, description: string, category: string,
    price: Option<real>, taxRate: Option<real>, status: string)

  /** `productData`: the text fields copied, price and tax rate through `Number`. */
  function ToProductData(formData: map<string, string>, parse: string -> Option<real>): (d: ProductData)
    requires HasAllFields(formData)
    ensures d.name == formData["name"] && d.description == formData["description"]
    ensures d.category == formData["category"] && d.status == formData["status"]
    ensures d.price == parse(formData["price"]) && d.taxRate == parse(formData["taxRate"])
  {
    ProductData(formData["name"], formData["description"], formData["category"],
                parse(formData["price"]), parse(formData["taxRate"]), formData["status"])
  }

  /** A product that passed the form always carries a positive price. */
  lemma SubmittedPriceIsPositive(formData: map<string, string>, parse: string -> Option<real>)
    requires HasAllFields(formData) && AllClear(ProductErrors(formData, parse))
    ensures ToProductData(formData, parse).price.Some?
    ensures ToProductData(formData, parse).price.value > 0.0
  {
    ProductFormValidIff(formData, parse);
  }

  /** The stored user `JSON.parse` reads the id from: none stored, an id, or text
      that does not parse. */
  datatype StoredUser = NoUser | UserWithId(id: string) | Unparsable

  /** The state of the form. */
  class ProductForm {
    var formData: map<string, string>
    var errors: map<string, string>
    var isSubmitting: bool

    ghost predicate Valid()
      reads this
    {
      HasAllFields(formData) && errors.Keys == ErrorNames
    }

    /** The initial values: empty name, description and price, category "service",
        tax rate "0", status "active"; no messages; not submitting. */
    constructor ()
      ensures Valid() && !isSubmitting
      ensures formData == map[
        "name" := "", "description" := "", "category" := "service",
        "price" := "", "taxRate" := "0", "status" := "active"]
      ensures AllClear(errors)
    {
      formData := map[
        "name" := "", "description" := "", "category" := "service",
        "price" := "", "taxRate" := "0", "status" := "active"];
      errors := map["name" := "", "description" := "", "price" := ""];
      isSubmitting := false;
    }

    /** `handleChange`: the named field takes the typed value and only that
        field's message is cleared. */
    method HandleChange(name: string, value: string)
      requires Valid()
      modifies this`formData, this`errors
      ensures Valid()
      ensures formData == old(formData)[name := value]
      ensures errors == ClearedError(old(errors), name)
    {
      formData := formData[name := value];
      errors := ClearedError(errors, name);
    }

    /** `validateForm`: record the messages and report whether there are none. */
    method ValidateForm(parse: string -> Option<real>) returns (ok: bool)
      requires Valid()
      modifies this`errors
      ensures Valid()
      ensures errors == ProductErrors(formData, parse)
      ensures ok <==> AllClear(errors)
    {
      errors := ProductErrors(formData, parse);
      ok := AllClear(errors);
    }

    /** `handleSubmit`: an invalid form stops before anything is sent; without a
        stored user the page asks to sign in and goes home; a stored user that
        does not parse, or a `createProduct` that throws (`created` false), gives
        the failure toast; otherwise the converted product is sent for that user
        and the page returns to the list. The submitting flag ends cleared
        whenever the form was valid. */
    method HandleSubmit(parse: string -> Option<real>, user: StoredUser, created: bool)
      returns (sent: Option<(ProductData, string)>, toast: Option<Toast>, redirect: Option<string>)
      requires Valid()
      modifies this`errors, this`isSubmitting
      ensures Valid()
      ensures errors == ProductErrors(formData, parse)
      ensures !AllClear(ProductErrors(formData, parse)) ==>
                sent == None && toast == None && redirect == None && isSubmitting == old(isSubmitting)
      ensures AllClear(ProductErrors(formData, parse)) ==> !isSubmitting
      ensures sent.Some? <==> AllClear(ProductErrors(formData, parse)) && user.UserWithId?
      ensures sent.Some? ==> sent.value == (ToProductData(formData, parse), user.id)
      ensures AllClear(ProductErrors(formData, parse)) && user.NoUser? ==>
                toast == Some(Toast("User authentication required", true)) && redirect == Some("/")
      ensures AllClear(ProductErrors(formData, parse)) && user.Unparsable? ==>
                toast == Some(Toast("Failed to add product", true)) && redirect == None
      ensures sent.Some? && created ==>
                toast == Some(Toast("Product added successfully", false)) && redirect == Some("/admin/products")
      ensures sent.Some? && !created ==>
                toast == Some(Toast("Failed to add product", true)) && redirect == None
    {
      sent, toast, redirect := None, None, None;
      var ok := ValidateForm(parse);
      if !ok {
        return;
      }
      isSubmitting := true;
      match user {
        case NoUser =>
          toast := Some(Toast("User authentication required", true));
          redirect := Some("/");
        case Unparsable =>
          toast := Some(Toast("Failed to add product", true));
        case UserWithId(id) =>
          sent := Some((ToProductData(formData, parse), id));
          if created {
            toast := Some(Toast("Product added successfully", false));
            redirect := Some("/admin/products");
          } else {
            toast := Some(Toast("Failed to add product", true));
          }
      }
      isSubmitting := false;
    }
  }
}
