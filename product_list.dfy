/**
 * The product list screen of `pages/productos/ProductList.jsx`: loading the
 * list, the delete confirmation dialog, and its own price text.  This screen
 * uses the bare axios import with an absolute URL, so its requests get neither
 * the base URL nor the `Authorization` header.  The refetch after a delete runs
 * to completion inside `ConfirmDelete`.
 */
module ProductListPage {
  import opened Common
  import opened JsNumbers
  import opened JsValues
  import opened Axios
  import opened Formatters

  const ApiUrl: string := "http://localhost:8000/api/productos/"
  const UnexpectedFormat: string := "Formato de respuesta inesperado."
  const LoadFailed: string := "Error al cargar productos. Verifica la conexión con el backend."
  const DialogPrefix: string := "¿Estás seguro de eliminar el producto \""

  /** The list and the error `fetchProducts` leaves: the error is empty exactly when an array arrived. */
  function FetchResult(reply: Reply): (r: (seq<Value>, string))
    ensures r.1 == "" <==> reply.Success? && reply.data.Arr?
    ensures reply.Success? && reply.data.Arr? ==> r.0 == reply.data.items
    ensures !(reply.Success? && reply.data.Arr?) ==> r.0 == []
  {
    match reply
    case Success(data) => if data.Arr? then (data.items, "") else ([], UnexpectedFormat)
    case Failure(_) => ([], LoadFailed)
  }

  /** `${API_URL}${productToDelete.id}/`: the product's id as text, between the list URL and a slash. */
  function DeleteUrl(product: Value): (u: string)
    requires !Nullish(product)
    ensures StartsWith(u, ApiUrl) && u[|ApiUrl|..] == ToString(Prop(product, "id").value) + "/"
  {
    ApiUrl + ToString(Prop(product, "id").value) + "/"
  }

  /** The error naming the product that could not be deleted. */
  function DeleteError(product: Value): (e: string)
    requires !Nullish(product)
    ensures StartsWith(e, "Error al eliminar el producto ") && e[30..] == ToString(Prop(product, "name").value)
  {
    "Error al eliminar el producto " + ToString(Prop(product, "name").value)
  }

  /** The screen's own `formatPrice`: like the shared one, except that a price that is not a number shows "---", without "Bs. ". */
  function ListFormatPrice(price: Value): (r: Result<string, JsError>)
    ensures r == Ok("---") <==> ToNumber(NumericPrice(price)).NaN?
    ensures !ToNumber(NumericPrice(price)).NaN? ==> r == FormatPrice(price)
  {
    var numeric := NumericPrice(price);
    if ToNumber(numeric).NaN? then Ok("---")
    else match numeric
      case Num(n) => Ok("Bs. " + ToFixed2(n))
      case _ => Err(TypeError)
  }

  /** The two price texts differ exactly in the NaN case, where this one has no currency prefix. */
  lemma ListPriceDiffersOnNaN(price: Value)
    ensures ToNumber(NumericPrice(price)).NaN? ==>
      ListFormatPrice(price) == Ok("---") && FormatPrice(price) == Ok("Bs. ---") && !StartsWith("---", "Bs. ")
    ensures ListFormatPrice(price).Ok? && ListFormatPrice(price) != Ok("---") ==> StartsWith(ListFormatPrice(price).value, "Bs. ")
  {
  }

  class ProductList {
    var products: seq<Value>
    var error: string
    var loading: bool
    var showConfirmDialog: bool
    var productToDelete: Value

    constructor()
      ensures products == [] && error == "" && loading && !showConfirmDialog && productToDelete == Null
    {
      products := [];
      error := "";
      loading := true;
      showConfirmDialog := false;
      productToDelete := Null;
    }

    /** `fetchProducts()`: clears the error, loads, and always ends with `loading` false. */
    method FetchProducts(reply: Reply) returns (sent: seq<Request>)
      modifies this
      ensures sent == [PlainRequest(Get, ApiUrl, Undefined)]
      ensures (products, error) == FetchResult(reply) && !loading
      ensures showConfirmDialog == old(showConfirmDialog) && productToDelete == old(productToDelete)
    {
      loading := true;
      error := "";
      sent := [PlainRequest(Get, ApiUrl, Undefined)];
      match reply {
        case Success(data) =>
          if data.Arr? {
            products := data.items;
          } else {
            products := [];
            error := UnexpectedFormat;
          }
        case Failure(_) =>
          error := LoadFailed;
          products := [];
      }
      loading := false;
    }

    /** `handleDeleteClick(product)`. */
    method HandleDeleteClick(product: Value)
      modifies this
      ensures productToDelete == product && showConfirmDialog
      ensures Dialog().Some? <==> Truthy(product)
      ensures products == old(products) && error == old(error) && loading == old(loading)
    {
      productToDelete := product;
      showConfirmDialog := true;
    }

    /** `confirmDelete()`: with no target nothing happens; otherwise the dialog closes whatever the outcome. */
    method ConfirmDelete(deleteReply: Reply, refetchReply: Reply) returns (sent: seq<Request>)
      modifies this
      ensures !Truthy(old(productToDelete)) ==>
        sent == [] && products == old(products) && error == old(error) && loading == old(loading)
        && showConfirmDialog == old(showConfirmDialog) && productToDelete == old(productToDelete)
      ensures Truthy(old(productToDelete)) ==>
        !showConfirmDialog && productToDelete == Null && !Dialog().Some?
        && (deleteReply.Success? ==>
              sent == [PlainRequest(Delete, DeleteUrl(old(productToDelete)), Undefined), PlainRequest(Get, ApiUrl, Undefined)]
              && (products, error) == FetchResult(refetchReply) && !loading)
        && (deleteReply.Failure? ==>
              sent == [PlainRequest(Delete, DeleteUrl(old(productToDelete)), Undefined)]
              && error == DeleteError(old(productToDelete)) && products == old(products) && loading == old(loading))
    {
      if !Truthy(productToDelete) {
        return [];
      }
      var target := productToDelete;
      sent := [PlainRequest(Delete, DeleteUrl(target), Undefined)];
      if deleteReply.Success? {
        var more := FetchProducts(refetchReply);
        sent := sent + more;
      } else {
        error := DeleteError(target);
      }
      showConfirmDialog := false;
      productToDelete := Null;
    }

    /** `cancelDelete()`: closes the dialog and forgets the target; nothing is sent. */
    method CancelDelete()
      modifies this
      ensures !showConfirmDialog && productToDelete == Null && !Dialog().Some?
      ensures products == old(products) && error == old(error) && loading == old(loading)
    {
      showConfirmDialog := false;
      productToDelete := Null;
    }

    /**
     * The confirmation dialog: rendered only when it is requested and there is
     * a target, so its message can always read the target's name and id.
     */
    function Dialog(): (message: Option<string>)
      reads this
      ensures message.Some? <==> showConfirmDialog && Truthy(productToDelete)
      ensures message.Some? ==> !Nullish(productToDelete)
      ensures message.Some? ==>
        StartsWith(message.value, DialogPrefix + ToString(Prop(productToDelete, "name").value) + "\" (ID: ")
    {
      if showConfirmDialog && Truthy(productToDelete) then
        var named := DialogPrefix + ToString(Prop(productToDelete, "name").value) + "\" (ID: ";
        var message := named + ToString(Prop(productToDelete, "id").value) + ")?";
        assert message[..|named|] == named;
        Some(message)
      else None
    }
  }
}
