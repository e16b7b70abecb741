/**
 * The product form of `pages/productos/ProductManage.jsx`, for both creating
 * and editing: the category list, the edit-mode load, field changes, and the
 * submit with its payload and endpoint choice.
 */
module ProductManagePage {
  import opened Common
  import opened JsNumbers
  import opened JsValues
  import opened BrowserStorage
  import opened Axios
  import opened Forms

  const ProductsPath: string := "/productos/"
  const ListPath: string := "/productos/list"
  const RedirectDelayMs: nat := 1000
  const CategoriesFailed: string := "No se pudieron cargar las categorías."
  const LoadFailed: string := "Error al cargar producto."
  const SaveFailed: string := "Error al guardar el producto."
  const UpdatedMessage: string := "Producto actualizado correctamente."
  const CreatedMessage: string := "Producto creado correctamente."

  /** A product form record with the six fields in their order. */
  function FormOf(name: Value, description: Value, price: Value, stock: Value, categoryId: Value, imageUrl: Value): seq<(string, Value)>
  {
    [("name", name), ("description", description), ("price", price), ("stock", stock),
     ("category_id", categoryId), ("image_url", imageUrl)]
  }

  /** The empty form the screen starts with. */
  function InitialForm(): (f: seq<(string, Value)>)
    ensures DistinctKeys(f)
    ensures forall i | 0 <= i < |f| :: f[i].1 == Str("")
  {
    FormOf(Str(""), Str(""), Str(""), Str(""), Str(""), Str(""))
  }

  /** What a field of the form reads as. */
  lemma FormOfFields(name: Value, description: Value, price: Value, stock: Value, categoryId: Value, imageUrl: Value)
    ensures var f := FormOf(name, description, price, stock, categoryId, imageUrl);
      DistinctKeys(f) && Lookup(f, "name") == name && Lookup(f, "description") == description
      && Lookup(f, "price") == price && Lookup(f, "stock") == stock
      && Lookup(f, "category_id") == categoryId && Lookup(f, "image_url") == imageUrl
  {
    var f := FormOf(name, description, price, stock, categoryId, imageUrl);
    assert DistinctKeys(f);
    LookupDistinctAt(f, 0);
    LookupDistinctAt(f, 1);
    LookupDistinctAt(f, 2);
    LookupDistinctAt(f, 3);
    LookupDistinctAt(f, 4);
    LookupDistinctAt(f, 5);
  }

  /**
   * The edit-mode load: reading the fields of a missing body throws, and the
   * handler then reports it.  A missing category or image becomes ''.
   */
  function LoadMapping(p: Value): (r: Result<seq<(string, Value)>, JsError>)
    ensures r.Err? <==> Nullish(p)
    ensures r.Ok? ==> r.value == FormOf(
      Prop(p, "name").value, Prop(p, "description").value, Prop(p, "price").value, Prop(p, "stock").value,
      Or(OptionalProp(Prop(p, "category").value, "id"), Str("")), Or(Prop(p, "image_url").value, Str("")))
  {
    if Nullish(p) then Err(TypeError)
    else
      Ok(FormOf(Prop(p, "name").value, Prop(p, "description").value, Prop(p, "price").value, Prop(p, "stock").value,
                Or(OptionalProp(Prop(p, "category").value, "id"), Str("")), Or(Prop(p, "image_url").value, Str(""))))
  }

  /** A product without a category, or without an image, loads '' in that field. */
  lemma LoadMappingDefaults(es: seq<(string, Value)>)
    requires Nullish(Lookup(es, "category")) || !Truthy(Lookup(es, "image_url"))
    ensures LoadMapping(Obj(es)).Ok?
    ensures Nullish(Lookup(es, "category")) ==> Lookup(LoadMapping(Obj(es)).value, "category_id") == Str("")
    ensures !Truthy(Lookup(es, "image_url")) ==> Lookup(LoadMapping(Obj(es)).value, "image_url") == Str("")
  {
    var p := Obj(es);
    FormOfFields(Prop(p, "name").value, Prop(p, "description").value, Prop(p, "price").value, Prop(p, "stock").value,
                 Or(OptionalProp(Prop(p, "category").value, "id"), Str("")), Or(Prop(p, "image_url").value, Str("")));
  }

  /** The value a change event stores: `category_id` is parsed as an integer, every other field keeps the text. */
  function FieldValue(name: string, value: string): (v: Value)
    ensures name == "category_id" ==> v.Num? && (v.n.NaN? || v.n.Finite?)
    ensures name != "category_id" ==> v == Str(value)
  {
    if name == "category_id" then Num(ParseInt(value)) else Str(value)
  }

  /** `{ ...formData, category_id: formData.category_id || null }`. */
  function Payload(form: seq<(string, Value)>): (r: seq<(string, Value)>)
    ensures DistinctKeys(r) && HasKey(r, "category_id")
  {
    var category := Or(Lookup(form, "category_id"), Null);
    UpdatedLookup(form, "category_id", category, "category_id");
    Updated(form, "category_id", category)
  }

  /** The payload copies every field, and a falsy category (empty, 0, NaN) is sent as null. */
  lemma PayloadFields(form: seq<(string, Value)>, j: string)
    ensures Lookup(Payload(form), "category_id")
      == if Truthy(Lookup(form, "category_id")) then Lookup(form, "category_id") else Null
    ensures j != "category_id" ==> Lookup(Payload(form), j) == Lookup(form, j)
    ensures HasKey(Payload(form), j) <==> HasKey(form, j) || j == "category_id"
  {
    UpdatedLookup(form, "category_id", Or(Lookup(form, "category_id"), Null), j);
    UpdatedLookup(form, "category_id", Or(Lookup(form, "category_id"), Null), "category_id");
  }

  /** `parseInt('')` is NaN. */
  lemma ParseIntEmpty()
    ensures ParseInt("") == NaN
  {
    assert TrimStart("") == [];
    assert SplitSign([]) == (false, []);
    assert IntegerDigits([]) == (10, []);
  }

  /** Clearing the category input parses to NaN, so the product is sent with no category. */
  lemma ClearedCategoryIsNull(form: seq<(string, Value)>)
    ensures Lookup(Payload(Updated(form, "category_id", FieldValue("category_id", ""))), "category_id") == Null
  {
    var v := FieldValue("category_id", "");
    assert v == Num(ParseInt(""));
    ParseIntEmpty();
    var f := Updated(form, "category_id", v);
    UpdatedLookup(form, "category_id", v, "category_id");
    PayloadFields(f, "category_id");
  }

  /** The endpoint: the product's own URL when editing, the collection when creating. */
  function SubmitRequest(productId: Option<string>, form: seq<(string, Value)>, items: map<string, Item>): (r: Request)
    ensures IsEditing(productId) ==> r == ApiRequest(Put, ProductsPath + productId.value + "/", Obj(Payload(form)), items)
    ensures !IsEditing(productId) ==> r == ApiRequest(Post, ProductsPath, Obj(Payload(form)), items)
    ensures r.body == Obj(Payload(form))
  {
    if IsEditing(productId) then ApiRequest(Put, ProductsPath + productId.value + "/", Obj(Payload(form)), items)
    else ApiRequest(Post, ProductsPath, Obj(Payload(form)), items)
  }

  class ProductManage {
    const productId: Option<string>
    var formData: seq<(string, Value)>
    var categories: Value
    var loading: bool
    var formError: string
    var formMessage: string
    const storage: LocalStorage

    constructor(productId: Option<string>, storage: LocalStorage)
      ensures this.productId == productId && this.storage == storage
      ensures formData == InitialForm() && categories == Arr([]) && !loading && formError == "" && formMessage == ""
    {
      this.productId := productId;
      this.storage := storage;
      formData := InitialForm();
      categories := Arr([]);
      loading := false;
      formError := "";
      formMessage := "";
    }

    /** The category list for the select: a response replaces it, a failure sets the error. */
    method LoadCategories(reply: Reply) returns (sent: seq<Request>)
      modifies this
      ensures sent == [ApiRequest(Get, "/categorias/", Undefined, storage.items)]
      ensures reply.Success? ==> categories == reply.data && formError == old(formError)
      ensures reply.Failure? ==> categories == old(categories) && formError == CategoriesFailed
      ensures formData == old(formData) && loading == old(loading) && formMessage == old(formMessage)
    {
      sent := [ApiRequest(Get, "/categorias/", Undefined, storage.items)];
      match reply {
        case Success(data) => categories := data;
        case Failure(_) => formError := CategoriesFailed;
      }
    }

    /** The edit-mode load; in create mode nothing is requested and nothing changes. */
    method LoadProduct(reply: Reply) returns (sent: seq<Request>)
      modifies this
      ensures !IsEditing(productId) ==>
        sent == [] && formData == old(formData) && formError == old(formError) && loading == old(loading)
      ensures IsEditing(productId) ==>
        sent == [ApiRequest(Get, ProductsPath + productId.value + "/", Undefined, storage.items)] && !loading
      ensures IsEditing(productId) && reply.Success? && LoadMapping(reply.data).Ok? ==>
        formData == LoadMapping(reply.data).value && formError == old(formError)
      ensures IsEditing(productId) && !(reply.Success? && LoadMapping(reply.data).Ok?) ==>
        formData == old(formData) && formError == LoadFailed
      ensures categories == old(categories) && formMessage == old(formMessage)
    {
      if !IsEditing(productId) {
        return [];
      }
      loading := true;
      sent := [ApiRequest(Get, ProductsPath + productId.value + "/", Undefined, storage.items)];
      var mapped := if reply.Success? then LoadMapping(reply.data) else Err(TypeError);
      if mapped.Ok? {
        formData := mapped.value;
      } else {
        formError := LoadFailed;
      }
      loading := false;
    }

    /** `handleChange(e)` for the input `name` holding the text `value`. */
    method HandleChange(name: string, value: string)
      modifies this
      ensures formData == Updated(old(formData), name, FieldValue(name, value))
      ensures categories == old(categories) && loading == old(loading)
      ensures formError == old(formError) && formMessage == old(formMessage)
    {
      formData := Updated(formData, name, FieldValue(name, value));
    }

    /** `handleSubmit(e)`: only a saved product schedules the return to the list; `loading` ends false. */
    method HandleSubmit(reply: Reply) returns (sent: seq<Request>, navigation: Option<Navigation>)
      modifies this
      ensures sent == [SubmitRequest(productId, old(formData), storage.items)]
      ensures reply.Success? ==>
        navigation == Some(Navigation(ListPath, RedirectDelayMs))
        && formMessage == (if IsEditing(productId) then UpdatedMessage else CreatedMessage) && formError == old(formError)
      ensures reply.Failure? ==>
        navigation.None? && formError == SaveFailed && formMessage == old(formMessage)
      ensures !loading && formData == old(formData) && categories == old(categories)
    {
      loading := true;
      var request := SubmitRequest(productId, formData, storage.items);
      sent := [request];
      if reply.Success? {
        formMessage := if IsEditing(productId) then UpdatedMessage else CreatedMessage;
        navigation := Some(Navigation(ListPath, RedirectDelayMs));
      } else {
        formError := SaveFailed;
        navigation := None;
      }
      loading := false;
    }
  }
}
