/**
 * The category list screen of `pages/categorias/CategoryList.jsx`.  Unlike the
 * product list it goes through the shared client, never clears its error,
 * keeps the old list when a load fails, has no guard against a missing delete
 * target, and its cancel button only hides the dialog.
 */
module CategoryListPage {
  import opened Common
  import opened JsValues
  import opened BrowserStorage
  import opened Axios
  import opened ListResponses

  const CategoriesPath: string := "/categorias/"
  const LoadFailed: string := "Error al cargar categorías."
  const DialogPrefix: string := "¿Eliminar la categoría \""

  /** Whether a load response sets the list: it must arrive and its body must not be `null`/`undefined`. */
  predicate Loaded(reply: Reply)
  {
    reply.Success? && NormalizeList(reply.data).Ok?
  }

  /** The list and error after `fetchCategories`, starting from `categories` and `error`. */
  function Fetched(reply: Reply, categories: Value, error: string): (r: (Value, string))
    ensures Loaded(reply) ==> r == (NormalizeList(reply.data).value, error)
    ensures !Loaded(reply) ==> r == (categories, LoadFailed)
  {
    if Loaded(reply) then (NormalizeList(reply.data).value, error) else (categories, LoadFailed)
  }

  /** A load never clears an error already shown, and a failed load never loses the list already shown. */
  lemma FetchKeepsErrorAndList(reply: Reply, categories: Value, error: string)
    ensures error != "" ==> Fetched(reply, categories, error).1 != ""
    ensures Fetched(reply, categories, error).1 == error || Fetched(reply, categories, error).1 == LoadFailed
    ensures reply.Failure? ==> Fetched(reply, categories, error).0 == categories
  {
  }

  /** An array response is the new list as it came, element by element. */
  lemma FetchedArray(items: seq<Value>, categories: Value, error: string)
    ensures Fetched(Success(Arr(items)), categories, error) == (Arr(items), error)
  {
  }

  /** `/categorias/${categoryToDelete.id}/`. */
  function DeletePath(category: Value): (p: string)
    requires !Nullish(category)
    ensures StartsWith(p, CategoriesPath) && p[|p| - 1] == '/'
    ensures p[|CategoriesPath|..] == ToString(Prop(category, "id").value) + "/"
  {
    CategoriesPath + ToString(Prop(category, "id").value) + "/"
  }

  /** Two categories are deleted at the same path exactly when their ids print alike. */
  lemma DeletePathSelects(a: Value, b: Value)
    requires !Nullish(a) && !Nullish(b)
    ensures DeletePath(a) == DeletePath(b) <==> ToString(Prop(a, "id").value) == ToString(Prop(b, "id").value)
  {
    var pa, pb := DeletePath(a), DeletePath(b);
    if pa == pb {
      var ta := pa[|CategoriesPath|..];
      assert ta == pb[|CategoriesPath|..];
      assert ToString(Prop(a, "id").value) == ta[..|ta| - 1];
    }
  }

  /** The error naming the category that could not be deleted. */
  function DeleteError(category: Value): (e: string)
    requires !Nullish(category)
    ensures StartsWith(e, "Error al eliminar la categoría: ") && e[32..] == ToString(Prop(category, "name").value)
  {
    "Error al eliminar la categoría: " + ToString(Prop(category, "name").value)
  }

  class CategoryList {
    var categories: Value
    var error: string
    var loading: bool
    var showConfirmDialog: bool
    var categoryToDelete: Value
    const storage: LocalStorage

    constructor(storage: LocalStorage)
      ensures categories == Arr([]) && error == "" && loading && !showConfirmDialog && categoryToDelete == Null
      ensures this.storage == storage
    {
      categories := Arr([]);
      error := "";
      loading := true;
      showConfirmDialog := false;
      categoryToDelete := Null;
      this.storage := storage;
    }

    /** `fetchCategories()`: the error is never reset here, and `loading` always ends false. */
    method FetchCategories(reply: Reply) returns (sent: seq<Request>)
      modifies this
      ensures sent == [ApiRequest(Get, CategoriesPath, Undefined, storage.items)]
      ensures (categories, error) == Fetched(reply, old(categories), old(error)) && !loading
      ensures showConfirmDialog == old(showConfirmDialog) && categoryToDelete == old(categoryToDelete)
    {
      loading := true;
      sent := [ApiRequest(Get, CategoriesPath, Undefined, storage.items)];
      match reply {
        case Success(data) =>
          var list := NormalizeList(data);
          if list.Ok? {
            categories := list.value;
          } else {
            error := LoadFailed;
          }
        case Failure(_) =>
          error := LoadFailed;
      }
      loading := false;
    }

    /** `handleDeleteClick(category)`. */
    method HandleDeleteClick(category: Value)
      modifies this
      ensures categoryToDelete == category && showConfirmDialog && Dialog().Some?
      ensures categories == old(categories) && error == old(error) && loading == old(loading)
    {
      categoryToDelete := category;
      showConfirmDialog := true;
    }

    /**
     * `confirmDelete()`.  Reading `id` of a missing target throws before any
     * request, reading its `name` in the handler throws again, and the promise
     * rejects with that error; the dialog closes on every path.
     */
    method ConfirmDelete(deleteReply: Reply, refetchReply: Reply) returns (sent: seq<Request>, rejected: Option<JsError>)
      modifies this
      ensures !showConfirmDialog && categoryToDelete == Null
      ensures Nullish(old(categoryToDelete)) ==>
        sent == [] && rejected == Some(TypeError)
        && categories == old(categories) && error == old(error) && loading == old(loading)
      ensures !Nullish(old(categoryToDelete)) ==>
        rejected == None
        && (deleteReply.Success? ==>
              sent == [ApiRequest(Delete, DeletePath(old(categoryToDelete)), Undefined, storage.items),
                       ApiRequest(Get, CategoriesPath, Undefined, storage.items)]
              && (categories, error) == Fetched(refetchReply, old(categories), old(error)) && !loading)
        && (deleteReply.Failure? ==>
              sent == [ApiRequest(Delete, DeletePath(old(categoryToDelete)), Undefined, storage.items)]
              && error == DeleteError(old(categoryToDelete))
              && categories == old(categories) && loading == old(loading))
    {
      var target := categoryToDelete;
      if Nullish(target) {
        sent, rejected := [], Some(TypeError);
      } else {
        rejected := None;
        sent := [ApiRequest(Delete, DeletePath(target), Undefined, storage.items)];
        if deleteReply.Success? {
          var more := FetchCategories(refetchReply);
          sent := sent + more;
        } else {
          error := DeleteError(target);
        }
      }
      showConfirmDialog := false;
      categoryToDelete := Null;
    }

    /** The dialog's cancel button: hides the dialog and keeps the target. */
    method CancelDialog()
      modifies this
      ensures !showConfirmDialog && !Dialog().Some?
      ensures categoryToDelete == old(categoryToDelete)
      ensures categories == old(categories) && error == old(error) && loading == old(loading)
    {
      showConfirmDialog := false;
    }

    /**
     * The confirmation dialog, rendered on the flag alone: its message reads
     * the target's name, which throws when there is no target.
     */
    function Dialog(): (r: Option<Result<string, JsError>>)
      reads this
      ensures r.Some? <==> showConfirmDialog
      ensures r.Some? ==> (r.value.Err? <==> Nullish(categoryToDelete))
      ensures r.Some? && r.value.Ok? ==>
        StartsWith(r.value.value, DialogPrefix + ToString(Prop(categoryToDelete, "name").value))
    {
      if !showConfirmDialog then None
      else match Prop(categoryToDelete, "name")
        case Err(e) => Some(Err(e))
        case Ok(name) =>
          var named := DialogPrefix + ToString(name);
          var message := named + "\"?";
          assert message[..|named|] == named;
          Some(Ok(message))
    }
  }
}
