/**
 * The category form of `pages/categorias/CategoryManage.jsx`: the edit-mode
 * load, field changes, and the submit, whose failure message is built from the
 * validation errors the server returns.
 */
module CategoryManagePage {
  import opened Common
  import opened JsValues
  import opened BrowserStorage
  import opened Axios
  import opened Forms

  const CategoriesPath: string := "/categorias/"
  const ListPath: string := "/categorias/list"
  const RedirectDelayMs: nat := 1200
  const LoadFailed: string := "Error al cargar la categoría."
  const SaveFailed: string := "Error al guardar categoría."
  const UpdatedMessage: string := "Categoría actualizada correctamente."
  const CreatedMessage: string := "Categoría creada correctamente."

  /** A category form record. */
  function FormOf(name: Value, description: Value): (f: seq<(string, Value)>)
    ensures DistinctKeys(f)
  {
    [("name", name), ("description", description)]
  }

  lemma FormOfFields(name: Value, description: Value)
    ensures Lookup(FormOf(name, description), "name") == name
    ensures Lookup(FormOf(name, description), "description") == description
  {
    LookupDistinctAt(FormOf(name, description), 0);
    LookupDistinctAt(FormOf(name, description), 1);
  }

  /** The edit-mode load: a missing body throws; a missing or falsy field loads as ''. */
  function LoadMapping(data: Value): (r: Result<seq<(string, Value)>, JsError>)
    ensures r.Err? <==> Nullish(data)
    ensures r.Ok? ==> r.value == FormOf(Or(Prop(data, "name").value, Str("")), Or(Prop(data, "description").value, Str("")))
  {
    if Nullish(data) then Err(TypeError)
    else Ok(FormOf(Or(Prop(data, "name").value, Str("")), Or(Prop(data, "description").value, Str(""))))
  }

  /** Each loaded field is the server's value when truthy and '' otherwise, so the inputs never hold `null`. */
  lemma LoadMappingFields(es: seq<(string, Value)>, k: string)
    requires k == "name" || k == "description"
    ensures LoadMapping(Obj(es)).Ok?
    ensures Lookup(LoadMapping(Obj(es)).value, k) == if Truthy(Lookup(es, k)) then Lookup(es, k) else Str("")
    ensures Truthy(Lookup(LoadMapping(Obj(es)).value, k)) || Lookup(LoadMapping(Obj(es)).value, k) == Str("")
  {
    FormOfFields(Or(Lookup(es, "name"), Str("")), Or(Lookup(es, "description"), Str("")));
  }

  // ---------------------------------------------------------------------------
  // The error message of a failed save

  /** The texts `join` gives the elements of an array. */
  function ElementTexts(items: seq<Value>): (ts: seq<string>)
    ensures |ts| == |items| && forall i | 0 <= i < |items| :: ts[i] == ElementText(items[i])
  {
    seq(|items|, i requires 0 <= i < |items| => ElementText(items[i]))
  }

  /** `${k}: ${Array.isArray(v) ? v.join(', ') : v}`. */
  function EntryText(k: string, v: Value): (s: string)
    ensures StartsWith(s, k + ": ")
  {
    k + ": " + (if v.Arr? then JoinStrings(ElementTexts(v.items), ", ") else ToString(v))
  }

  /** The entry texts, in entry order. */
  function EntryTexts(es: seq<(string, Value)>): (ts: seq<string>)
    ensures |ts| == |es| && forall i | 0 <= i < |es| :: ts[i] == EntryText(es[i].0, es[i].1)
  {
    seq(|es|, i requires 0 <= i < |es| => EntryText(es[i].0, es[i].1))
  }

  /**
   * `Object.entries(data).map(...).join(' ')`: empty exactly when the body has
   * no properties, and led by the first property listed.
   */
  function ErrorMessage(data: Value): (msg: string)
    ensures msg == "" <==> OwnEntries(data) == []
    ensures OwnEntries(data) != [] ==> StartsWith(msg, EntryText(OwnEntries(data)[0].0, OwnEntries(data)[0].1))
  {
    var texts := EntryTexts(OwnEntries(data));
    JoinStringsHead(texts, " ");
    JoinStrings(texts, " ")
  }

  /** The message `setFormError` receives: the built message when the error carries a truthy body, else the fallback. */
  function FailureMessage(e: HttpError): (msg: string)
    ensures !Truthy(ErrorData(e)) ==> msg == SaveFailed
    ensures e.NoResponse? ==> msg == SaveFailed
    ensures Truthy(ErrorData(e)) ==> msg == ErrorMessage(ErrorData(e))
  {
    var data := ErrorData(e);
    if Truthy(data) then ErrorMessage(data) else SaveFailed
  }

  /** An empty validation body gives an empty message, so no error is shown at all. */
  lemma EmptyErrorBody()
    ensures FailureMessage(ErrorResponse(Obj([]))) == ""
  {
    assert OwnEntries(Obj([])) == [];
  }

  /**
   * A server body with distinct keys (every JSON object) is rendered entry by
   * entry in listing order: array-index fields first, then the others.
   */
  lemma ErrorMessageOfObject(es: seq<(string, Value)>)
    requires DistinctKeys(es)
    ensures ErrorMessage(Obj(es)) == JoinStrings(EntryTexts(Enumeration(es)), " ")
  {
    CanonicalOfDistinct(es);
  }

  /** Without array-index fields the body is rendered in its own order. */
  lemma ErrorMessageOfNamed(es: seq<(string, Value)>)
    requires DistinctKeys(es) && NoIndexKeys(es)
    ensures ErrorMessage(Obj(es)) == JoinStrings(EntryTexts(es), " ")
  {
    ErrorMessageOfObject(es);
    EnumerationOfNamed(es);
  }

  /**
   * A body whose index field was written after a named field renders the
   * index field first.
   */
  lemma IndexFieldListedFirst(n: (string, Value), t: (string, Value))
    requires !IsArrayIndex(n.0) && IsArrayIndex(t.0)
    ensures ErrorMessage(Obj([n, t])) == EntryText(t.0, t.1) + " " + EntryText(n.0, n.1)
  {
    assert DistinctKeys([n, t]);
    ErrorMessageOfObject([n, t]);
    EnumerationPair(n, t);
    TwoFieldMessage(t, n);
  }

  /** `{"name": ..., "2": ...}` reads `2: ... name: ...`. */
  lemma IndexFieldFirst(n: (string, Value), t: (string, Value))
    requires n.0 == "name" && t.0 == "2"
    ensures ErrorMessage(Obj([n, t])) == EntryText("2", t.1) + " " + EntryText("name", n.1)
  {
    NotArrayIndex("name");
    DigitIsArrayIndex('2');
    IndexFieldListedFirst(n, t);
  }

  /** Two fields render as their texts with a space between. */
  lemma TwoFieldMessage(a: (string, Value), b: (string, Value))
    ensures JoinStrings(EntryTexts([a, b]), " ") == EntryText(a.0, a.1) + " " + EntryText(b.0, b.1)
  {
    var texts := EntryTexts([a, b]);
    assert texts == [EntryText(a.0, a.1)] + [EntryText(b.0, b.1)];
    JoinStringsSnoc([EntryText(a.0, a.1)], EntryText(b.0, b.1), " ");
  }

  /** One more field appends a space and its text. */
  lemma EntryTextsSnoc(es: seq<(string, Value)>, k: string, v: Value)
    requires es != []
    ensures JoinStrings(EntryTexts(es + [(k, v)]), " ") == JoinStrings(EntryTexts(es), " ") + " " + EntryText(k, v)
  {
    assert EntryTexts(es + [(k, v)]) == EntryTexts(es) + [EntryText(k, v)];
    JoinStringsSnoc(EntryTexts(es), EntryText(k, v), " ");
  }

  /** A body with a single field renders as that field's entry. */
  lemma SingleEntryMessage(k: string, v: Value)
    ensures ErrorMessage(Obj([(k, v)])) == EntryText(k, v)
  {
    var es := [(k, v)];
    CanonicalOfDistinct(es);
    EnumerationSingle((k, v));
    assert EntryTexts(es) == [EntryText(k, v)];
  }

  /** A field with a list of messages reads `field: first, second`. */
  lemma FieldMessages(k: string, msgs: seq<string>, items: seq<Value>)
    requires |items| == |msgs| && forall i | 0 <= i < |msgs| :: items[i] == Str(msgs[i])
    ensures ErrorMessage(Obj([(k, Arr(items))])) == k + ": " + JoinStrings(msgs, ", ")
  {
    SingleEntryMessage(k, Arr(items));
    var texts := ElementTexts(items);
    assert texts == msgs by {
      forall i | 0 <= i < |msgs|
        ensures texts[i] == msgs[i]
      {
        assert ElementText(Str(msgs[i])) == msgs[i];
      }
    }
    assert EntryText(k, Arr(items)) == k + ": " + JoinStrings(texts, ", ");
  }

  /** The endpoint: the category's own URL when editing, the collection when creating; the form is the body. */
  function SubmitRequest(categoryId: Option<string>, form: seq<(string, Value)>, items: map<string, Item>): (r: Request)
    ensures IsEditing(categoryId) ==> r == ApiRequest(Put, CategoriesPath + categoryId.value + "/", Obj(form), items)
    ensures !IsEditing(categoryId) ==> r == ApiRequest(Post, CategoriesPath, Obj(form), items)
  {
    if IsEditing(categoryId) then ApiRequest(Put, CategoriesPath + categoryId.value + "/", Obj(form), items)
    else ApiRequest(Post, CategoriesPath, Obj(form), items)
  }

  /** The two renderings of the page: the spinner, or the form with its heading, alerts and submit button. */
  datatype ManageView =
    | Spinner
    | Form(heading: string, error: Option<string>, message: Option<string>, submitLabel: string, submitDisabled: bool)

  class CategoryManage {
    const categoryId: Option<string>
    var formData: seq<(string, Value)>
    var loading: bool
    var formError: string
    var formMessage: string
    const storage: LocalStorage

    constructor(categoryId: Option<string>, storage: LocalStorage)
      ensures this.categoryId == categoryId && this.storage == storage
      ensures formData == FormOf(Str(""), Str("")) && !loading && formError == "" && formMessage == ""
    {
      this.categoryId := categoryId;
      this.storage := storage;
      formData := FormOf(Str(""), Str(""));
      loading := false;
      formError := "";
      formMessage := "";
    }

    /**
     * What the page renders: the spinner only while an edit-mode request runs;
     * otherwise the form, whose button is disabled and reads "Guardando..."
     * while a request runs, so a create-mode save keeps the form on screen.
     */
    function View(): (v: ManageView)
      reads this
      ensures v.Spinner? <==> loading && IsEditing(categoryId)
      ensures !IsEditing(categoryId) ==> v.Form? && v.heading == "Crear Categoría"
      ensures v.Form? ==> (v.submitDisabled <==> loading) && (loading ==> v.submitLabel == "Guardando...")
      ensures v.Form? ==> (v.error.Some? <==> formError != "") && (v.message.Some? <==> formMessage != "")
    {
      if loading && IsEditing(categoryId) then Spinner
      else Form(
        (if IsEditing(categoryId) then "Editar" else "Crear") + " Categoría",
        if formError != "" then Some(formError) else None,
        if formMessage != "" then Some(formMessage) else None,
        if loading then "Guardando..." else if IsEditing(categoryId) then "Actualizar" else "Guardar",
        loading)
    }

    /** The edit-mode load; in create mode nothing is requested and nothing changes. */
    method LoadCategory(reply: Reply) returns (sent: seq<Request>)
      modifies this
      ensures !IsEditing(categoryId) ==>
        sent == [] && formData == old(formData) && formError == old(formError) && loading == old(loading)
      ensures IsEditing(categoryId) ==>
        sent == [ApiRequest(Get, CategoriesPath + categoryId.value + "/", Undefined, storage.items)]
        && !loading && !View().Spinner?
      ensures IsEditing(categoryId) && reply.Success? && LoadMapping(reply.data).Ok? ==>
        formData == LoadMapping(reply.data).value && formError == old(formError)
      ensures IsEditing(categoryId) && !(reply.Success? && LoadMapping(reply.data).Ok?) ==>
        formData == old(formData) && formError == LoadFailed
      ensures formMessage == old(formMessage)
    {
      if !IsEditing(categoryId) {
        return [];
      }
      loading := true;
      sent := [ApiRequest(Get, CategoriesPath + categoryId.value + "/", Undefined, storage.items)];
      var mapped := if reply.Success? then LoadMapping(reply.data) else Err(TypeError);
      if mapped.Ok? {
        formData := mapped.value;
      } else {
        formError := LoadFailed;
      }
      loading := false;
    }

    /** `handleChange(e)`: the named field takes the text. */
    method HandleChange(name: string, value: string)
      modifies this
      ensures formData == Updated(old(formData), name, Str(value))
      ensures loading == old(loading) && formError == old(formError) && formMessage == old(formMessage)
    {
      formData := Updated(formData, name, Str(value));
    }

    /** `handleSubmit(e)`: only a save schedules the return to the list; `loading` ends false on every path. */
    method HandleSubmit(reply: Reply) returns (sent: seq<Request>, navigation: Option<Navigation>)
      modifies this
      ensures sent == [SubmitRequest(categoryId, old(formData), storage.items)]
      ensures reply.Success? ==>
        navigation == Some(Navigation(ListPath, RedirectDelayMs))
        && formMessage == (if IsEditing(categoryId) then UpdatedMessage else CreatedMessage) && formError == old(formError)
      ensures reply.Failure? ==>
        navigation.None? && formError == FailureMessage(reply.error) && formMessage == old(formMessage)
      ensures !loading && !View().Spinner? && formData == old(formData)
    {
      loading := true;
      sent := [SubmitRequest(categoryId, formData, storage.items)];
      match reply {
        case Success(_) =>
          formMessage := if IsEditing(categoryId) then UpdatedMessage else CreatedMessage;
          navigation := Some(Navigation(ListPath, RedirectDelayMs));
        case Failure(e) =>
          formError := FailureMessage(e);
          navigation := None;
      }
      loading := false;
    }
  }
}
