/**
 * The browser's `localStorage`: a map from keys to stored strings.  A string
 * written as `JSON.stringify(v)` is kept as `Serialized(v)`, which stands for
 * that text, so that `JSON.parse` of it can be stated.
 */
module BrowserStorage {
  import opened Common
  import opened JsValues
  import opened Json

  /** A stored string: plain text, or the text `JSON.stringify(v)` wrote. */
  datatype Item = Text(s: string) | Serialized(v: Value)

  /** The string an item holds. */
  function ItemText(item: Item): string
  {
    match item
    case Text(s) => s
    case Serialized(v) => if v.Undefined? then "undefined" else Print(Normalize(v))
  }

  /** What `setItem(key, v)` stores: `String(v)`. */
  function StoredString(v: Value): (item: Item)
    ensures ItemText(item) == ToString(v)
  {
    Text(ToString(v))
  }

  /** What `setItem(key, JSON.stringify(v))` stores; `JSON.stringify(undefined)` is `undefined`, stored as "undefined". */
  function StoredJson(v: Value): (item: Item)
    ensures v.Undefined? ==> ItemText(item) == "undefined"
    ensures !v.Undefined? ==> Some(ItemText(item)) == Stringify(v)
  {
    if v.Undefined? then Text("undefined") else Serialized(v)
  }

  /** `localStorage.getItem(key)`: the stored string, or `null`. */
  function GetItemValue(items: map<string, Item>, key: string): (r: Value)
    ensures r.Null? <==> key !in items
    ensures key in items ==> r == Str(ItemText(items[key]))
  {
    if key in items then Str(ItemText(items[key])) else Null
  }

  /**
   * `JSON.parse(text)` of a stored item.  Text a `JSON.stringify` wrote gives the
   * normalized value back; of other text only `null`, `true` and `false` are
   * read, and the rest is a SyntaxError.
   */
  function ParseItem(item: Item): (r: Result<Value, JsError>)
    ensures item.Serialized? && !item.v.Undefined? ==> r == Ok(Normalize(item.v))
    ensures item == Text("undefined") ==> r == Err(SyntaxError)
  {
    match item
    case Serialized(v) => if v.Undefined? then Err(SyntaxError) else Ok(Normalize(v))
    case Text(s) =>
      if s == "null" then Ok(Null)
      else if s == "true" then Ok(Bool(true))
      else if s == "false" then Ok(Bool(false))
      else Err(SyntaxError)
  }

  /** Reading back what `setItem(key, JSON.stringify(v))` wrote gives `v` for JSON data, and throws for `undefined`. */
  lemma ParseStoredJson(v: Value)
    ensures v.Undefined? ==> ParseItem(StoredJson(v)) == Err(SyntaxError)
    ensures !v.Undefined? ==> ParseItem(StoredJson(v)) == Ok(Normalize(v))
    ensures IsJson(v) ==> ParseItem(StoredJson(v)) == Ok(v)
  {
    if IsJson(v) {
      NormalizeJson(v);
    }
  }

  /** A stored string is truthy, and so passes `if (saved)`, unless it is empty; JSON text never is. */
  lemma StoredTruthy(items: map<string, Item>, key: string)
    ensures Truthy(GetItemValue(items, key)) <==> key in items && ItemText(items[key]) != ""
    ensures key in items && items[key].Serialized? ==> Truthy(GetItemValue(items, key))
  {
  }

  class LocalStorage {
    var items: map<string, Item>

    constructor(initial: map<string, Item>)
      ensures items == initial
    {
      items := initial;
    }

    /** `localStorage.getItem(key)`. */
    function GetItem(key: string): Value
      reads this
    {
      GetItemValue(items, key)
    }

    /** `localStorage.setItem(key, value)`. */
    method SetItem(key: string, value: Item)
      modifies this
      ensures items == old(items)[key := value]
    {
      items := items[key := value];
    }

    /** `localStorage.removeItem(key)`; removing a missing key does nothing. */
    method RemoveItem(key: string)
      modifies this
      ensures items == old(items) - {key}
    {
      items := items - {key};
    }
  }
}
