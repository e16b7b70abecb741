/**
 * The display helpers of `utils/formatters.js`: the price text and the two
 * stock classifications (label and colour), which must choose the same band.
 */
module Formatters {
  import opened Common
  import opened JsNumbers
  import opened JsValues

  // ---------------------------------------------------------------------------
  // Price

  /** The value `formatPrice` works on: text goes through `parseFloat`, anything else is used as it is. */
  function NumericPrice(price: Value): Value
  {
    if price.Str? then Num(ParseFloat(price.s)) else price
  }

  /**
   * `formatPrice(price)`: "Bs. ---" when the price is not a number, otherwise
   * "Bs. " and the price with two decimals.  A value that passes `isNaN` but is
   * not a number (`null`, a boolean, an array such as `[5]`) has no `toFixed`,
   * and the call throws a TypeError.
   */
  function FormatPrice(price: Value): (r: Result<string, JsError>)
    ensures r.Ok? ==> StartsWith(r.value, "Bs. ")
    ensures r == Ok("Bs. ---") <==> ToNumber(NumericPrice(price)).NaN?
    ensures r.Err? <==> !ToNumber(NumericPrice(price)).NaN? && !NumericPrice(price).Num?
    ensures NumericPrice(price).Num? && !NumericPrice(price).n.NaN? ==> r == Ok("Bs. " + ToFixed2(NumericPrice(price).n))
  {
    var numeric := NumericPrice(price);
    if ToNumber(numeric).NaN? then Ok("Bs. ---")
    else match numeric
      case Num(n) =>
        ToFixed2NotDashes(n);
        Ok("Bs. " + ToFixed2(n))
      case _ => Err(TypeError)
  }

  /** No number prints as "---" under `toFixed(2)`, so the NaN text cannot be mistaken for a price. */
  lemma ToFixed2NotDashes(n: Number)
    requires !n.NaN?
    ensures ToFixed2(n) != "---"
  {
    match n
    case Infinite(negative) =>
      assert ToFixed2(n)[1] != '-';
    case Finite(x) =>
      if x <= -1_000_000_000_000_000_000_000.0 || 1_000_000_000_000_000_000_000.0 <= x {
        assert ToFixed2(n) == NumberToString(n);
        NumberTextStart(n);
      }
  }

  // ---------------------------------------------------------------------------
  // Stock

  /** The four stock bands both classifications use. */
  datatype StockBand = NotAvailable | OutOfStock | Low | InStock

  /**
   * The band of a stock value, stated by intervals: no band for `null`,
   * `undefined` and values that are not numbers; (-inf, 0] out of stock;
   * (0, 20] low; (20, +inf) in stock.
   */
  function Band(stock: Value): (b: StockBand)
    ensures b == NotAvailable <==> Nullish(stock) || ToNumber(stock).NaN?
    ensures b == InStock <==> !Nullish(stock) && GreaterThan(ToNumber(stock), 20.0)
    ensures b == Low <==> !Nullish(stock) && GreaterThan(ToNumber(stock), 0.0) && !GreaterThan(ToNumber(stock), 20.0)
  {
    if Nullish(stock) then NotAvailable
    else match ToNumber(stock)
      case NaN => NotAvailable
      case Infinite(negative) => if negative then OutOfStock else InStock
      case Finite(x) =>
        if x <= 0.0 then OutOfStock
        else if x <= 20.0 then Low
        else InStock
  }

  /** The order of the bands that hold a number. */
  function Rank(b: StockBand): nat
  {
    match b
    case NotAvailable => 0
    case OutOfStock => 0
    case Low => 1
    case InStock => 2
  }

  /** The status label of a band; only the missing band reads "Stock N/A". */
  function Label(b: StockBand): (s: string)
    ensures s == "Stock N/A" <==> b == NotAvailable
  {
    match b
    case NotAvailable => "Stock N/A"
    case OutOfStock => assert "Agotado"[0] != "Stock N/A"[0]; "Agotado"
    case Low => assert "Stock Bajo"[6] != "Stock N/A"[6]; "Stock Bajo"
    case InStock => assert "En Stock"[0] != "Stock N/A"[0]; "En Stock"
  }

  /** The colour classes of a band; only the missing band is grey. */
  function Color(b: StockBand): (s: string)
    ensures s == "text-gray-500 dark:text-gray-400" <==> b == NotAvailable
  {
    match b
    case NotAvailable => "text-gray-500 dark:text-gray-400"
    case OutOfStock =>
      assert "text-red-600 dark:text-red-400"[7] != "text-gray-500 dark:text-gray-400"[7];
      "text-red-600 dark:text-red-400"
    case Low =>
      assert "text-yellow-600 dark:text-yellow-400"[7] != "text-gray-500 dark:text-gray-400"[7];
      "text-yellow-600 dark:text-yellow-400"
    case InStock =>
      assert "text-green-600 dark:text-green-400"[7] != "text-gray-500 dark:text-gray-400"[7];
      "text-green-600 dark:text-green-400"
  }

  /** `stockStatusText(stock)`. */
  function StockStatusText(stock: Value): (r: string)
    ensures r == Label(Band(stock))
    ensures r == "Stock N/A" <==> Nullish(stock) || ToNumber(stock).NaN?
  {
    var n := ToNumber(stock);
    if stock == Null || stock == Undefined || n.NaN? then "Stock N/A"
    else if GreaterThan(n, 20.0) then "En Stock"
    else if GreaterThan(n, 0.0) then "Stock Bajo"
    else "Agotado"
  }

  /** `getStockColor(stock)`. */
  function GetStockColor(stock: Value): (r: string)
    ensures r == Color(Band(stock))
    ensures r == "text-gray-500 dark:text-gray-400" <==> Nullish(stock) || ToNumber(stock).NaN?
  {
    var n := ToNumber(stock);
    if stock == Null || stock == Undefined || n.NaN? then "text-gray-500 dark:text-gray-400"
    else if GreaterThan(n, 20.0) then "text-green-600 dark:text-green-400"
    else if GreaterThan(n, 0.0) then "text-yellow-600 dark:text-yellow-400"
    else "text-red-600 dark:text-red-400"
  }

  /** Different bands have different labels (the four label texts have four lengths). */
  lemma LabelInjective(x: StockBand, y: StockBand)
    ensures Label(x) == Label(y) <==> x == y
  {
    if x != y { assert |Label(x)| != |Label(y)|; }
  }

  /** The eighth character of each colour: "gray", "red", "yellow" and "green" differ there. */
  function ColorMark(b: StockBand): char
  {
    match b
    case NotAvailable => 'a'
    case OutOfStock => 'd'
    case Low => 'l'
    case InStock => 'e'
  }

  lemma ColorMarkAt(b: StockBand)
    ensures |Color(b)| > 7 && Color(b)[7] == ColorMark(b)
  {
  }

  /** Different bands have different colours. */
  lemma ColorInjective(x: StockBand, y: StockBand)
    ensures Color(x) == Color(y) <==> x == y
  {
    ColorMarkAt(x);
    ColorMarkAt(y);
  }

  /** Label and colour always name the same band: two stocks get the same label iff they get the same colour. */
  lemma LabelAgreesWithColor(a: Value, b: Value)
    ensures StockStatusText(a) == StockStatusText(b) <==> GetStockColor(a) == GetStockColor(b)
    ensures StockStatusText(a) == StockStatusText(b) <==> Band(a) == Band(b)
  {
    LabelInjective(Band(a), Band(b));
    ColorInjective(Band(a), Band(b));
  }

  /** The colour of each label: grey for N/A, green for in stock, yellow for low, red for out of stock. */
  lemma ColorOfLabel(stock: Value)
    ensures StockStatusText(stock) == "Stock N/A" <==> GetStockColor(stock) == "text-gray-500 dark:text-gray-400"
    ensures StockStatusText(stock) == "En Stock" <==> GetStockColor(stock) == "text-green-600 dark:text-green-400"
    ensures StockStatusText(stock) == "Stock Bajo" <==> GetStockColor(stock) == "text-yellow-600 dark:text-yellow-400"
    ensures StockStatusText(stock) == "Agotado" <==> GetStockColor(stock) == "text-red-600 dark:text-red-400"
  {
    var b := Band(stock);
    LabelInjective(b, NotAvailable);
    LabelInjective(b, InStock);
    LabelInjective(b, Low);
    LabelInjective(b, OutOfStock);
    ColorInjective(b, NotAvailable);
    ColorInjective(b, InStock);
    ColorInjective(b, Low);
    ColorInjective(b, OutOfStock);
  }

  /** The thresholds: above 20 is in stock, 20 itself is low, 1 to 20 are low, 0 and below are out of stock. */
  lemma StockThresholds(x: real)
    ensures x > 20.0 ==> StockStatusText(Num(Finite(x))) == "En Stock"
    ensures 0.0 < x <= 20.0 ==> StockStatusText(Num(Finite(x))) == "Stock Bajo"
    ensures x <= 0.0 ==> StockStatusText(Num(Finite(x))) == "Agotado"
    ensures StockStatusText(Num(Finite(20.0))) == "Stock Bajo"
    ensures StockStatusText(Num(Finite(21.0))) == "En Stock"
  {
  }

  /** `m <= n` on the numbers with their infinities; false when either is NaN. */
  predicate NumberAtMost(m: Number, n: Number)
  {
    match (m, n)
    case (NaN, _) => false
    case (_, NaN) => false
    case (Infinite(negative), _) => negative || n == Infinite(false)
    case (Finite(x), Infinite(negative)) => !negative
    case (Finite(x), Finite(y)) => x <= y
  }

  /** Raising a numeric stock, infinities included, never moves it to a lower band. */
  lemma StockMonotone(m: Number, n: Number)
    requires NumberAtMost(m, n)
    ensures Rank(Band(Num(m))) <= Rank(Band(Num(n)))
  {
  }

  /** A stock given as text is classified by the number it spells (`"25"` is in stock). */
  lemma StockTextIsNumber(s: string)
    ensures StockStatusText(Str(s)) == StockStatusText(Num(StringToNumber(s)))
  {
    var n := StringToNumber(s);
    assert ToNumber(Str(s)) == n && ToNumber(Num(n)) == n;
    assert Band(Str(s)) == Band(Num(n));
    assert StockStatusText(Str(s)) == Label(Band(Str(s)));
    assert StockStatusText(Num(n)) == Label(Band(Num(n)));
  }
}
