/**
 * The landing page of `pages/Home.jsx`: the product list with an image chosen
 * from a fixed table by product id, and the navbar's scrolled flag.  The
 * bundled image modules are represented by their file names.
 */
module HomePage {
  import opened Common
  import opened JsNumbers
  import opened JsValues
  import opened BrowserStorage
  import opened Axios
  import opened ListResponses

  const ProductsPath: string := "/productos/"
  const LoadFailed: string := "No se pudieron cargar los productos."
  const PlaceholderImage: string := "placeholder.png"
  const ScrollThreshold: real := 10.0

  /** The images of the products 1 to 5, in id order. */
  const ImageNames: seq<string> := ["cafe.jpg", "laptop.jpg", "camisa.jpg", "teclado.jpg", "monitor.jpg"]

  /** `productImages`: numeric keys of an object literal are the strings "1" to "5". */
  function ImageTable(): (t: seq<(string, Value)>)
    ensures |t| == 5
    ensures forall k | 0 <= k < 5 :: t[k] == ([DigitChar(k + 1)], Str(ImageNames[k]))
  {
    [("1", Str("cafe.jpg")), ("2", Str("laptop.jpg")), ("3", Str("camisa.jpg")),
     ("4", Str("teclado.jpg")), ("5", Str("monitor.jpg"))]
  }

  lemma ImageTableDistinct()
    ensures DistinctKeys(ImageTable())
  {
    var t := ImageTable();
    forall i, j | 0 <= i < j < |t|
      ensures t[i].0 != t[j].0
    {
      assert t[i].0[0] == DigitChar(i + 1) && t[j].0[0] == DigitChar(j + 1);
    }
  }

  /** `productImages[p.id] || placeholderImage`: the id is looked up by its text. */
  function ImageFor(id: Value): (url: Value)
    ensures Truthy(url)
  {
    Or(Lookup(ImageTable(), ToString(id)), Str(PlaceholderImage))
  }

  /** A numeric id from 1 to 5 gets its own image, and every other integer the placeholder. */
  lemma ImageForInteger(i: int)
    ensures ImageFor(Num(Finite(i as real))) == if 1 <= i <= 5 then Str(ImageNames[i - 1]) else Str(PlaceholderImage)
  {
    var t := IntText(i);
    assert ToString(Num(Finite(i as real))) == t by {
      assert (i as real).Floor == i;
    }
    var table := ImageTable();
    ImageTableDistinct();
    if 1 <= i <= 5 {
      assert t == [DigitChar(i)];
      assert table[i - 1].0 == t;
      LookupDistinctAt(table, i - 1);
      assert Lookup(table, t) == Str(ImageNames[i - 1]);
      assert ImageNames[i - 1] != [];
    } else {
      forall k | 0 <= k < 5
        ensures table[k].0 != t
      {
        if i < 0 {
          assert t[0] == '-';
          assert table[k].0[0] == DigitChar(k + 1);
        } else {
          NatTextValue(i);
          assert RadixValue(table[k].0, 10) == k + 1 by {
            assert table[k].0[..0] == [];
          }
        }
      }
      assert !HasKey(table, t);
    }
  }

  /** An id given as the key text itself ("3") finds the same image as the number. */
  lemma ImageForKey(k: nat)
    requires k < 5
    ensures ImageFor(Str(ImageTable()[k].0)) == Str(ImageNames[k])
  {
    ImageTableDistinct();
    LookupDistinctAt(ImageTable(), k);
    assert ImageNames[k] != [];
  }

  /** `{ ...p, imageUrl: ... }`; reading `id` of a missing product throws. */
  function WithImage(p: Value): (r: Result<Value, JsError>)
    ensures r.Err? <==> Nullish(p)
    ensures r.Ok? ==> r.value.Obj?
  {
    match Prop(p, "id")
    case Err(e) => Err(e)
    case Ok(id) => Ok(Obj(Assign(SpreadInto([], OwnEntries(p)), "imageUrl", ImageFor(id))))
  }

  /** Every field of the product is kept, and `imageUrl` is overwritten with the table's choice. */
  lemma WithImageFields(es: seq<(string, Value)>, j: string)
    ensures var r := WithImage(Obj(es)).value.entries;
      Lookup(r, j) == (if j == "imageUrl" then ImageFor(Lookup(es, "id")) else Lookup(es, j))
      && (HasKey(r, j) <==> HasKey(es, j) || j == "imageUrl")
  {
    var own := OwnEntries(Obj(es));
    var copy := SpreadInto([], own);
    var url := ImageFor(Lookup(es, "id"));
    LookupAssign(copy, "imageUrl", url, j);
    HasKeyAssign(copy, "imageUrl", url, j);
    LookupSpread([], own, j);
    HasKeySpread([], own, j);
    OwnEntriesFaithful(es, j);
  }

  predicate AllPresent(items: seq<Value>)
  {
    forall i | 0 <= i < |items| :: !Nullish(items[i])
  }

  /** `data.map(p => ...)`: only an array has `map`, and a missing element throws. */
  function WithImages(data: Value): (r: Result<seq<Value>, JsError>)
    ensures r.Ok? <==> data.Arr? && AllPresent(data.items)
    ensures r.Ok? ==> |r.value| == |data.items|
    ensures r.Ok? ==> forall i | 0 <= i < |r.value| :: WithImage(data.items[i]) == Ok(r.value[i])
  {
    if data.Arr? && AllPresent(data.items) then
      Ok(seq(|data.items|, i requires 0 <= i < |data.items| => WithImage(data.items[i]).value))
    else Err(TypeError)
  }

  /** The products a load shows, or None when the request fails or the list cannot be built. */
  function Listed(reply: Reply): (r: Option<seq<Value>>)
    ensures r.Some? <==> reply.Success? && NormalizeList(reply.data).Ok? && WithImages(NormalizeList(reply.data).value).Ok?
    ensures r.Some? ==> r.value == WithImages(NormalizeList(reply.data).value).value
  {
    match reply
    case Failure(_) => None
    case Success(data) =>
      match NormalizeList(data)
      case Err(_) => None
      case Ok(list) =>
        match WithImages(list)
        case Err(_) => None
        case Ok(products) => Some(products)
  }

  /** A plain array of products keeps its order and length, each product gaining its image. */
  lemma ListedArray(items: seq<Value>)
    requires AllPresent(items)
    ensures Listed(Success(Arr(items))).Some?
    ensures var shown := Listed(Success(Arr(items))).value;
      |shown| == |items| && forall i | 0 <= i < |items| :: WithImage(items[i]) == Ok(shown[i])
  {
  }

  class Home {
    var isScrolled: bool
    var products: seq<Value>
    var loading: bool
    var error: Option<string>
    const storage: LocalStorage

    constructor(storage: LocalStorage)
      ensures !isScrolled && products == [] && loading && error.None? && this.storage == storage
    {
      isScrolled := false;
      products := [];
      loading := true;
      error := None;
      this.storage := storage;
    }

    /** `fetchProducts()`: a failure anywhere in the load only sets the error; `loading` ends false. */
    method FetchProducts(reply: Reply) returns (sent: seq<Request>)
      modifies this
      ensures sent == [ApiRequest(Get, ProductsPath, Undefined, storage.items)]
      ensures Listed(reply).Some? ==> products == Listed(reply).value && error == old(error)
      ensures Listed(reply).None? ==> products == old(products) && error == Some(LoadFailed)
      ensures !loading && isScrolled == old(isScrolled)
    {
      var shown := Listed(reply);
      if shown.Some? {
        products := shown.value;
      } else {
        error := Some(LoadFailed);
      }
      loading := false;
      sent := [ApiRequest(Get, ProductsPath, Undefined, storage.items)];
    }

    /** `handleScroll()`: the navbar is marked scrolled past 10 pixels. */
    method HandleScroll(scrollY: real)
      modifies this
      ensures isScrolled <==> scrollY > ScrollThreshold
      ensures products == old(products) && loading == old(loading) && error == old(error)
    {
      isScrolled := scrollY > ScrollThreshold;
    }
  }
}
