/**
 * What the two form screens (`ProductManage.jsx`, `CategoryManage.jsx`) share:
 * the edit/create switch on the route parameter, the record update of a
 * change handler, and the delayed navigation after a save.  A form record is
 * held as the entry list of the object it is.
 */
module Forms {
  import opened Common
  import opened JsValues

  /** The route parameter as the component reads it: `undefined` when the route has none. */
  function RouteParam(param: Option<string>): (v: Value)
    ensures param.None? ==> v == Undefined
    ensures param.Some? ==> v == Str(param.value)
  {
    match param
    case None => Undefined
    case Some(s) => Str(s)
  }

  /** `Boolean(id)`: editing exactly when the route carries a non-empty id. */
  function IsEditing(param: Option<string>): (editing: bool)
    ensures editing <==> Truthy(RouteParam(param))
    ensures editing <==> param.Some? && param.value != ""
  {
    param.Some? && param.value != ""
  }

  /** `setTimeout(() => navigate(path), delay)`, recorded rather than run. */
  datatype Navigation = Navigation(path: string, delayMs: nat)

  /** `{ ...prev, [name]: value }`. */
  function Updated(prev: seq<(string, Value)>, name: string, value: Value): (r: seq<(string, Value)>)
    ensures DistinctKeys(r)
  {
    var copy := SpreadInto([], OwnEntries(Obj(prev)));
    SpreadKeepsDistinct([], OwnEntries(Obj(prev)));
    AssignKeepsDistinct(copy, name, value);
    Assign(copy, name, value)
  }

  /** The update changes the named field and reads every other field as before. */
  lemma UpdatedLookup(prev: seq<(string, Value)>, name: string, value: Value, j: string)
    ensures Lookup(Updated(prev, name, value), j) == if j == name then value else Lookup(prev, j)
    ensures HasKey(Updated(prev, name, value), j) <==> HasKey(prev, j) || j == name
  {
    var own := OwnEntries(Obj(prev));
    var copy := SpreadInto([], own);
    LookupAssign(copy, name, value, j);
    HasKeyAssign(copy, name, value, j);
    LookupSpread([], own, j);
    HasKeySpread([], own, j);
    OwnEntriesFaithful(prev, j);
  }

  /**
   * Updating a field that is present keeps the fields in the order the
   * spread lists them; on a form record (distinct keys, none an array index)
   * that is the record's own order.
   */
  lemma UpdatedKeepsKeys(prev: seq<(string, Value)>, name: string, value: Value)
    requires HasKey(prev, name)
    ensures Keys(Updated(prev, name, value)) == Keys(OwnEntries(Obj(prev)))
    ensures DistinctKeys(prev) && NoIndexKeys(prev) ==> Keys(Updated(prev, name, value)) == Keys(prev)
  {
    var own := OwnEntries(Obj(prev));
    OwnEntriesFaithful(prev, name);
    CanonicalOfDistinct(own);
    assert SpreadInto([], own) == own;
    if DistinctKeys(prev) && NoIndexKeys(prev) {
      CanonicalOfDistinct(prev);
      EnumerationOfNamed(prev);
    }
  }
}
