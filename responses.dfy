/**
 * The way list screens read a list response:
 * `Array.isArray(data) ? data : data.results || []`, so that a plain array and a
 * paginated `{ results: [...] }` page are both accepted.
 */
module ListResponses {
  import opened Common
  import opened JsValues

  /** The list a response body denotes; reading `results` of `null` or `undefined` throws. */
  function NormalizeList(data: Value): (r: Result<Value, JsError>)
    ensures data.Arr? ==> r == Ok(data)
    ensures r.Err? <==> Nullish(data)
    ensures !data.Arr? && !Nullish(data) ==>
      r == Ok(if Truthy(Prop(data, "results").value) then Prop(data, "results").value else Arr([]))
  {
    if data.Arr? then Ok(data)
    else match Prop(data, "results")
      case Err(e) => Err(e)
      case Ok(results) => Ok(Or(results, Arr([])))
  }

  /** A paginated page gives its `results` in their order, and a body without them gives the empty list. */
  lemma NormalizePage(entries: seq<(string, Value)>)
    ensures NormalizeList(Obj(entries)) ==
      if Truthy(Lookup(entries, "results")) then Ok(Lookup(entries, "results")) else Ok(Arr([]))
    ensures !HasKey(entries, "results") ==> NormalizeList(Obj(entries)) == Ok(Arr([]))
  {
  }

  /**
   * The list is an array, which the screens' `map` needs, unless the body is
   * not an array and carries a truthy `results` that is not one either.
   */
  lemma NormalizeListArray(data: Value)
    requires !Nullish(data)
    ensures NormalizeList(data).value.Arr? <==>
      data.Arr? || Prop(data, "results").value.Arr? || !Truthy(Prop(data, "results").value)
  {
  }
}
