/**
 * The product detail screen of `pages/productos/ProductDetail.jsx`: loading
 * one product, the reduce-stock action with its guard, and which of the four
 * views is shown.
 */
module ProductDetailPage {
  import opened Common
  import opened JsNumbers
  import opened JsValues
  import opened BrowserStorage
  import opened Axios
  import opened Formatters
  import ProductListPage

  const ProductsPath: string := "/productos/"
  const LoadFailed: string := "Error al cargar el detalle del producto."
  const AmountRejected: string := "La cantidad debe ser mayor a 0."
  const ReduceFailed: string := "Error al reducir stock."
  const ReducedPrefix: string := "Stock reducido exitosamente. Nuevo stock: "

  /** The four things the screen can show. */
  datatype DetailView = Spinner | ErrorDisplay(message: string) | NotFound | Detail(product: Value)

  /** The early returns of the render: loading first, then the error, then a missing product. */
  function View(loading: bool, error: string, product: Value): (v: DetailView)
    ensures v.Spinner? <==> loading
    ensures v.ErrorDisplay? <==> !loading && error != ""
    ensures v.ErrorDisplay? ==> v.message == error
    ensures v.NotFound? <==> !loading && error == "" && !Truthy(product)
    ensures v.Detail? <==> !loading && error == "" && Truthy(product)
    ensures v.Detail? ==> v.product == product
  {
    if loading then Spinner
    else if error != "" then ErrorDisplay(error)
    else if !Truthy(product) then NotFound
    else Detail(product)
  }

  /** `/productos/${productId}/`. */
  function ProductPath(productId: string): (p: string)
    ensures StartsWith(p, ProductsPath) && p[|ProductsPath|..] == productId + "/"
  {
    ProductsPath + productId + "/"
  }

  /**
   * The list screen deletes a product at this screen's path, but on the local
   * server and not at the base URL the shared client sends this screen's
   * requests to.
   */
  lemma DeleteUrlIsLocalProductPath(product: Value)
    requires !Nullish(product)
    ensures var path := ProductPath(ToString(Prop(product, "id").value));
      ProductListPage.DeleteUrl(product) == LocalApi + path
      && ProductListPage.DeleteUrl(product) != FullUrl(BaseUrl, path)
  {
    var id := ToString(Prop(product, "id").value);
    assert ProductListPage.DeleteUrl(product) == ProductListPage.ApiUrl + id + "/";
    LocalProductPath(id);
  }

  /** The local API root the list screen writes out in full. */
  const LocalApi: string := "http://localhost:8000/api"

  lemma LocalProductPath(id: string)
    ensures ProductListPage.ApiUrl + id + "/" == LocalApi + ProductPath(id)
    ensures LocalApi + ProductPath(id) != FullUrl(BaseUrl, ProductPath(id))
  {
    var path := ProductPath(id);
    assert ProductListPage.ApiUrl == LocalApi + ProductsPath;
    FullUrlOfPath(path);
    assert |LocalApi + path| != |BaseUrl + path[1..]|;
  }

  /** `/productos/${productId}/reducir-stock/`. */
  function ReducePath(productId: string): (p: string)
    ensures StartsWith(p, ProductPath(productId)) && p[|ProductPath(productId)|..] == "reducir-stock/"
  {
    "/productos/" + productId + "/reducir-stock/"
  }

  /** The message after a reduction, naming the stock the server reports. */
  function ReducedMessage(data: Value): (m: string)
    requires !Nullish(data)
    ensures StartsWith(m, ReducedPrefix) && m[|ReducedPrefix|..] == ToString(Prop(data, "stock").value)
  {
    ReducedPrefix + ToString(Prop(data, "stock").value)
  }

  /** `err.response?.data?.detail || 'Error al reducir stock.'`. */
  function FailureText(e: HttpError): (r: Value)
    ensures Truthy(r)
    ensures e.NoResponse? ==> r == Str(ReduceFailed)
    ensures e.ErrorResponse? && !Nullish(e.data) && Truthy(Prop(e.data, "detail").value) ==> r == Prop(e.data, "detail").value
    ensures e.ErrorResponse? && (Nullish(e.data) || !Truthy(Prop(e.data, "detail").value)) ==> r == Str(ReduceFailed)
  {
    Or(OptionalProp(ErrorData(e), "detail"), Str(ReduceFailed))
  }

  /** The screen's `formatPrice`: the price goes through `String` and `parseFloat`, with no NaN branch. */
  function DetailFormatPrice(price: Value): (r: string)
    ensures StartsWith(r, "Bs. ")
  {
    "Bs. " + ToFixed2(ParseFloat(ToString(price)))
  }

  /** On a price string this agrees with the shared formatter, except that NaN prints as "Bs. NaN" and not "Bs. ---". */
  lemma DetailPriceOfString(s: string)
    ensures !ParseFloat(s).NaN? ==> FormatPrice(Str(s)) == Ok(DetailFormatPrice(Str(s)))
    ensures ParseFloat(s).NaN? ==> DetailFormatPrice(Str(s)) == "Bs. NaN" && FormatPrice(Str(s)) == Ok("Bs. ---")
  {
    var n := ParseFloat(s);
    assert ToString(Str(s)) == s;
    var numeric := NumericPrice(Str(s));
    assert numeric == Num(n);
    assert DetailFormatPrice(Str(s)) == "Bs. " + ToFixed2(n);
    if n.NaN? {
      assert ToNumber(numeric).NaN?;
      assert ToFixed2(n) == "NaN";
    } else {
      assert numeric.Num? && !numeric.n.NaN?;
    }
  }

  class ProductDetail {
    const productId: string
    var product: Value
    var loading: bool
    var error: string
    var reduceAmount: Number
    var actionMessage: string
    var actionError: Value
    const storage: LocalStorage

    constructor(productId: string, storage: LocalStorage)
      ensures this.productId == productId && this.storage == storage
      ensures product == Null && loading && error == "" && reduceAmount == Finite(1.0)
      ensures actionMessage == "" && actionError == Str("")
      ensures Screen() == Spinner
    {
      this.productId := productId;
      this.storage := storage;
      product := Null;
      loading := true;
      error := "";
      reduceAmount := Finite(1.0);
      actionMessage := "";
      actionError := Str("");
    }

    function Screen(): DetailView
      reads this
    {
      View(loading, error, product)
    }

    /** The detail load: a response sets the product, a failure the error, and `loading` ends false. */
    method Load(reply: Reply) returns (sent: seq<Request>)
      modifies this
      ensures sent == [ApiRequest(Get, ProductPath(productId), Undefined, storage.items)]
      ensures reply.Success? ==> product == reply.data && error == old(error)
      ensures reply.Failure? ==> product == old(product) && error == LoadFailed && Screen() == ErrorDisplay(LoadFailed)
      ensures !loading && !Screen().Spinner?
      ensures reduceAmount == old(reduceAmount) && actionMessage == old(actionMessage) && actionError == old(actionError)
    {
      sent := [ApiRequest(Get, ProductPath(productId), Undefined, storage.items)];
      match reply {
        case Success(data) => product := data;
        case Failure(_) => error := LoadFailed;
      }
      loading := false;
    }

    /** The amount input: `Number(e.target.value)`. */
    method ChangeAmount(text: string)
      modifies this
      ensures reduceAmount == StringToNumber(text)
      ensures product == old(product) && loading == old(loading) && error == old(error)
      ensures actionMessage == old(actionMessage) && actionError == old(actionError)
    {
      var amount := StringToNumber(text);
      reduceAmount := amount;
    }

    /**
     * `handleReduceStock()`.  An amount of 0 or less is refused before any
     * request; NaN passes the guard because every comparison with it is false.
     * A success never clears `actionError`, and a failure never clears
     * `actionMessage`.
     */
    method HandleReduceStock(reply: Reply) returns (sent: seq<Request>)
      modifies this
      ensures AtMost(old(reduceAmount), 0.0) ==>
        sent == [] && actionError == Str(AmountRejected)
        && product == old(product) && reduceAmount == old(reduceAmount) && actionMessage == old(actionMessage)
      ensures !AtMost(old(reduceAmount), 0.0) ==>
        sent == [ApiRequest(Post, ReducePath(productId), Obj([("amount", Num(old(reduceAmount)))]), storage.items)]
      ensures !AtMost(old(reduceAmount), 0.0) && reply.Success? && !Nullish(reply.data) ==>
        product == reply.data && actionMessage == ReducedMessage(reply.data)
        && reduceAmount == Finite(1.0) && actionError == old(actionError)
      ensures !AtMost(old(reduceAmount), 0.0) && reply.Success? && Nullish(reply.data) ==>
        product == reply.data && actionError == Str(ReduceFailed)
        && reduceAmount == old(reduceAmount) && actionMessage == old(actionMessage)
      ensures !AtMost(old(reduceAmount), 0.0) && reply.Failure? ==>
        actionError == FailureText(reply.error)
        && product == old(product) && reduceAmount == old(reduceAmount) && actionMessage == old(actionMessage)
      ensures loading == old(loading) && error == old(error)
    {
      if AtMost(reduceAmount, 0.0) {
        actionError := Str(AmountRejected);
        return [];
      }
      sent := [ApiRequest(Post, ReducePath(productId), Obj([("amount", Num(reduceAmount))]), storage.items)];
      match reply {
        case Success(data) =>
          product := data;
          if Nullish(data) {
            // reading `stock` of the body throws; the handler has no response to read a detail from
            actionError := Str(ReduceFailed);
          } else {
            actionMessage := ReducedMessage(data);
            reduceAmount := Finite(1.0);
          }
        case Failure(e) =>
          actionError := FailureText(e);
      }
    }
  }

  /** The guard refuses exactly the amounts 0 and below: any positive amount, however small, is sent. */
  lemma GuardBoundary(x: real)
    ensures AtMost(Finite(x), 0.0) <==> x <= 0.0
    ensures !AtMost(NaN, 0.0) && !AtMost(Infinite(false), 0.0) && AtMost(Infinite(true), 0.0)
  {
  }
}
