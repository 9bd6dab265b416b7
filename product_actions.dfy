/**
 * The simulated "add product" action: the form is checked against the
 * product schema and, if it passes, a new medicine is appended to a
 * process-wide list. `isUrl` stands for zod's `.url()` check; the new id,
 * built from the clock and a random number in the source, is a parameter.
 */
module ProductActions {
  import opened Wrappers
  import opened JsText
  import opened JsArray
  import opened Forms
  import opened MockData

  /** The submitted form, price in cents, stock as the number the form's text coerces to. */
  datatype ProductForm = ProductForm(
    name: string,
    category: string,
    price: int,
    description: string,
    stock: real,
    imageUrl: string,
    dataAiHint: Option<string>)

  datatype ProductFormState = ProductFormState(
    success: bool,
    message: Option<string>,
    errors: Option<FieldErrors>,
    product: Option<Medicine>)

  const NameTooShort := "Name must be at least 3 characters."
  const InvalidCategory := "Invalid category selected."
  const InvalidCategoryFallback := "Invalid category. Please select a valid category."
  const PriceTooLow := "Price must be greater than 0."
  const DescriptionTooShort := "Description must be at least 10 characters."
  const StockNotInteger := "Expected integer, received float"
  const StockNegative := "Stock must be a non-negative integer."
  const InvalidImageUrl := "Please enter a valid image URL."
  const HintTooLong := "AI hint cannot exceed 50 characters."
  const ValidationFailed := "Validation failed. Please check the form."

  function AddedMessage(name: string): string {
    "Product \"" + name + "\" added successfully (simulated)."
  }

  /** `mockCategories.some(cat => cat.id === id)` */
  predicate IsCategoryId(id: string) {
    exists i :: 0 <= i < |MockCategories| && MockCategories[i].id == id
  }

  predicate IsWhole(x: real) {
    x.Floor as real == x
  }

  /** The product rules, one conjunct per field. */
  predicate ProductValid(isUrl: string -> bool, f: ProductForm) {
    && Utf16Length(f.name) >= 3
    && IsCategoryId(f.category)
    && f.price >= 1
    && Utf16Length(f.description) >= 10
    && IsWhole(f.stock) && f.stock >= 0.0
    && isUrl(f.imageUrl)
    && (f.dataAiHint.Some? ==> Utf16Length(f.dataAiHint.value) <= 50)
  }

  function ProductErrors(isUrl: string -> bool, f: ProductForm): (e: FieldErrors)
    ensures e == [] <==> ProductValid(isUrl, f)
  {
    Issues("name", Rule(Utf16Length(f.name) < 3, NameTooShort))
    + Issues("category", Rule(!IsCategoryId(f.category), InvalidCategory))
    + Issues("price", Rule(f.price < 1, PriceTooLow))
    + Issues("description", Rule(Utf16Length(f.description) < 10, DescriptionTooShort))
    + Issues("stock", Rule(!IsWhole(f.stock), StockNotInteger) + Rule(f.stock < 0.0, StockNegative))
    + Issues("imageUrl", Rule(!isUrl(f.imageUrl), InvalidImageUrl))
    + Issues("dataAiHint", Rule(f.dataAiHint.Some? && Utf16Length(f.dataAiHint.value) > 50, HintTooLong))
  }

  /** The hint as stored: an empty hint becomes absent. */
  function StoredHint(hint: Option<string>): (r: Option<string>)
    ensures r.None? <==> hint.None? || hint == Some("")
    ensures r.Some? ==> r == hint
  {
    if hint == Some("") then None else hint
  }

  /** A form that passes the schema names a category id, so the category lookup finds it. */
  lemma CategoryFallbackUnreachable(isUrl: string -> bool, f: ProductForm)
    requires ProductValid(isUrl, f)
    ensures Find(MockCategories, MatchesCategoryId(f.category)).Some?
  {
    var i :| 0 <= i < |MockCategories| && MockCategories[i].id == f.category;
    assert MatchesCategoryId(f.category)(MockCategories[i]);
  }

  /** `addProductAction` as a function of the product list before the call: the result and the list after it. */
  function AddProductStep(products: seq<Medicine>, isUrl: string -> bool, f: ProductForm, id: string): (out: (ProductFormState, seq<Medicine>))
    ensures out.0.success <==> ProductValid(isUrl, f)
    ensures !out.0.success ==>
      && out.1 == products && out.0.product == None
      && out.0.errors == Some(ProductErrors(isUrl, f)) && out.0.message == Some(ValidationFailed)
    ensures out.0.success ==>
      && out.0.product.Some? && out.1 == products + [out.0.product.value]
      && out.0.errors == None
      && out.0.message == Some(AddedMessage(f.name))
      && var p := out.0.product.value;
      && p.id == id && p.name == f.name && p.price == f.price && p.description == f.description
      && p.stock as real == f.stock && p.imageUrl == f.imageUrl
      && p.dataAiHint == StoredHint(f.dataAiHint)
      && exists i :: 0 <= i < |MockCategories| && MockCategories[i].id == f.category && p.category == MockCategories[i].name
  {
    var errors := ProductErrors(isUrl, f);
    if errors != [] then
      (ProductFormState(false, Some(ValidationFailed), Some(errors), None), products)
    else
      CategoryFallbackUnreachable(isUrl, f);
      match Find(MockCategories, MatchesCategoryId(f.category))
      case None =>
        (ProductFormState(false, Some(InvalidCategoryFallback), Some([FieldError("category", [InvalidCategory])]), None), products)
      case Some(c) =>
        var p := Medicine(id, f.name, c.name, f.price, f.description, f.imageUrl, f.stock.Floor, StoredHint(f.dataAiHint));
        (ProductFormState(true, Some(AddedMessage(f.name)), None, Some(p)), products + [p])
  }

  /** The success message names the product. */
  lemma AddedMessageNamesProduct(name: string)
    ensures Includes(AddedMessage(name), name)
  {
    IncludesMiddle("Product \"", name, "\" added successfully (simulated).");
  }

  /** The process-wide list of products added since the server started. */
  class ProductStore {
    var products: seq<Medicine>

    constructor ()
      ensures products == []
    {
      products := [];
    }

    method AddProduct(isUrl: string -> bool, f: ProductForm, id: string) returns (r: ProductFormState)
      modifies this
      ensures (r, products) == AddProductStep(old(products), isUrl, f, id)
    {
      var errors := ProductErrors(isUrl, f);
      if errors != [] {
        return ProductFormState(false, Some(ValidationFailed), Some(errors), None);
      }
      var categoryDetails := Find(MockCategories, MatchesCategoryId(f.category));
      if categoryDetails.None? {
        return ProductFormState(false, Some(InvalidCategoryFallback), Some([FieldError("category", [InvalidCategory])]), None);
      }
      var newProduct := Medicine(id, f.name, categoryDetails.value.name, f.price, f.description, f.imageUrl, f.stock.Floor,
                                 if f.dataAiHint == Some("") then None else f.dataAiHint);
      products := products + [newProduct];
      r := ProductFormState(true, Some(AddedMessage(newProduct.name)), None, Some(newProduct));
    }
  }
}
