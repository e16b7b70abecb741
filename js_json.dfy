/**
 * `JSON.stringify` and `JSON.parse` on the values the screens store.  The text
 * `JSON.stringify(v)` writes is `Print(Normalize(v))`, and `JSON.parse` of that
 * text gives back `Normalize(v)`: the value with `undefined` properties
 * dropped, `undefined` array elements and non-finite numbers turned into
 * `null`, and each object key once.  Objects are written in listing order,
 * array-index keys first.
 */
module Json {
  import opened Common
  import opened JsNumbers
  import opened JsValues

  /** The entries whose value is not `undefined`, in order. */
  function DropUndefined(es: seq<(string, Value)>): (r: seq<(string, Value)>)
    ensures forall i | 0 <= i < |r| :: !r[i].1.Undefined?
    ensures (forall i | 0 <= i < |es| :: !es[i].1.Undefined?) ==> r == es
  {
    if es == [] then []
    else
      var front := DropUndefined(es[..|es| - 1]);
      if es[|es| - 1].1.Undefined? then front else front + [es[|es| - 1]]
  }

  /** The value `JSON.parse(JSON.stringify(v))` gives, for `v` other than `undefined`. */
  function Normalize(v: Value): (r: Value)
    ensures r.Undefined? <==> v.Undefined?
  {
    match v
    case Num(n) => if n.Finite? then v else Null
    case Arr(items) => Arr(seq(|items|, i requires 0 <= i < |items| => if items[i].Undefined? then Null else Normalize(items[i])))
    case Obj(es) => Obj(DropUndefined(Canonical(seq(|es|, i requires 0 <= i < |es| => (es[i].0, Normalize(es[i].1))))))
    case _ => v
  }

  /** A value JSON text can denote: no `undefined`, finite numbers only, each object key once. */
  predicate IsJson(v: Value)
  {
    match v
    case Undefined => false
    case Num(n) => n.Finite?
    case Arr(items) => forall i | 0 <= i < |items| :: IsJson(items[i])
    case Obj(es) => DistinctKeys(es) && forall i | 0 <= i < |es| :: IsJson(es[i].1)
    case _ => true
  }

  // ---------------------------------------------------------------------------
  // The printer

  function HexDigit(d: nat): (c: char)
    requires d < 16
  {
    if d < 10 then DigitChar(d) else ('a' as int + d - 10) as char
  }

  /** The JSON escape of one character. */
  function EscapeChar(c: char): (t: string)
    ensures |t| >= 1
    ensures t[0] == '\\' || (t == [c] && c != '"')
  {
    if c == '"' then "\\\""
    else if c == '\\' then "\\\\"
    else if c == '\U{8}' then "\\b"
    else if c == '\U{C}' then "\\f"
    else if c == '\n' then "\\n"
    else if c == '\r' then "\\r"
    else if c == '\t' then "\\t"
    else if (c as int) < 0x20 then "\\u00" + [HexDigit(c as int / 16), HexDigit(c as int % 16)]
    else [c]
  }

  /** A string literal: the characters escaped, between double quotes. */
  function Quote(s: string): (t: string)
    ensures |t| >= 2 && t[0] == '"' && t[|t| - 1] == '"'
  {
    var body := if s == [] then "" else JoinStrings(seq(|s|, i requires 0 <= i < |s| => EscapeChar(s[i])), "");
    "\"" + body + "\""
  }

  /** The text of a normalized value. */
  function Print(v: Value): (t: string)
    ensures t != ""
    decreases v, 1
  {
    match v
    case Undefined => "null"
    case Null => "null"
    case Bool(b) => if b then "true" else "false"
    case Num(n) => if n.Finite? then NumberToString(n) else "null"
    case Str(s) => Quote(s)
    case Arr(items) => "[" + JoinStrings(seq(|items|, i requires 0 <= i < |items| => Print(items[i])), ",") + "]"
    case Obj(es) =>
      var os := Enumeration(es);
      EnumerationPermutes(es);
      "{" + JoinStrings(seq(|os|, i requires 0 <= i < |os| => PrintMember(es, os[i])), ",") + "}"
  }

  /** One `"key":value` member of a printed object. */
  function PrintMember(es: seq<(string, Value)>, e: (string, Value)): (t: string)
    requires e in multiset(es)
    ensures StartsWith(t, Quote(e.0) + ":")
    decreases Obj(es), 0
  {
    assert e in es;
    Quote(e.0) + ":" + Print(e.1)
  }

  /** `JSON.stringify(v)`: no text at all for `undefined`. */
  function Stringify(v: Value): (t: Option<string>)
    ensures t.None? <==> v.Undefined?
    ensures t.Some? ==> t.value != ""
  {
    if v.Undefined? then None else Some(Print(Normalize(v)))
  }

  // ---------------------------------------------------------------------------
  // Round trip

  /** JSON values come back from a round trip unchanged. */
  lemma {:induction false} NormalizeJson(v: Value)
    requires IsJson(v)
    ensures Normalize(v) == v
  {
    match v
    case Arr(items) =>
      var r := seq(|items|, i requires 0 <= i < |items| => if items[i].Undefined? then Null else Normalize(items[i]));
      forall i | 0 <= i < |items| ensures r[i] == items[i] {
        NormalizeJson(items[i]);
      }
      assert r == items;
    case Obj(es) =>
      var mapped := seq(|es|, i requires 0 <= i < |es| => (es[i].0, Normalize(es[i].1)));
      forall i | 0 <= i < |es| ensures mapped[i] == es[i] {
        NormalizeJson(es[i].1);
      }
      assert mapped == es;
      CanonicalOfDistinct(es);
    case _ =>
  }

  /** Every value in the list is JSON or `undefined`. */
  predicate JsonValues(es: seq<(string, Value)>)
  {
    forall i | 0 <= i < |es| :: es[i].1.Undefined? || IsJson(es[i].1)
  }

  lemma AssignValues(es: seq<(string, Value)>, k: string, v: Value)
    requires JsonValues(es) && (v.Undefined? || IsJson(v))
    ensures JsonValues(Assign(es, k, v))
  {
    var r := Assign(es, k, v);
    if HasKey(es, k) {
      forall i | 0 <= i < |r| ensures r[i].1.Undefined? || IsJson(r[i].1) {
        assert r[i] == if es[i].0 == k then (k, v) else es[i];
      }
    }
  }

  /** Object spread only moves values: nothing that is not JSON comes in. */
  lemma {:induction false} SpreadValues(t: seq<(string, Value)>, src: seq<(string, Value)>)
    requires JsonValues(t) && JsonValues(src)
    ensures JsonValues(SpreadInto(t, src))
  {
    if src != [] {
      var n := |src| - 1;
      assert JsonValues(src[..n]);
      SpreadValues(t, src[..n]);
      AssignValues(SpreadInto(t, src[..n]), src[n].0, src[n].1);
    }
  }

  /** Dropping entries keeps the keys distinct. */
  lemma {:induction false} DropKeepsDistinct(es: seq<(string, Value)>)
    requires DistinctKeys(es)
    ensures DistinctKeys(DropUndefined(es))
    ensures forall i | 0 <= i < |DropUndefined(es)| :: HasKey(es, DropUndefined(es)[i].0)
  {
    if es != [] {
      var n := |es| - 1;
      var front := es[..n];
      DropKeepsDistinct(front);
      var df := DropUndefined(front);
      forall i | 0 <= i < |df| ensures df[i].0 != es[n].0 {
        var j :| 0 <= j < |front| && front[j].0 == df[i].0;
        assert es[j].0 == df[i].0;
      }
      forall i | 0 <= i < |df| ensures HasKey(es, df[i].0) {
        var j :| 0 <= j < |front| && front[j].0 == df[i].0;
        assert es[j].0 == df[i].0;
      }
    }
  }

  lemma {:induction false} DropValues(es: seq<(string, Value)>)
    requires JsonValues(es)
    ensures forall i | 0 <= i < |DropUndefined(es)| :: IsJson(DropUndefined(es)[i].1)
  {
    if es != [] {
      assert JsonValues(es[..|es| - 1]);
      DropValues(es[..|es| - 1]);
    }
  }

  /** What a round trip gives is JSON. */
  lemma {:induction false} NormalizeIsJson(v: Value)
    requires !v.Undefined?
    ensures IsJson(Normalize(v))
  {
    match v
    case Arr(items) =>
      var r := seq(|items|, i requires 0 <= i < |items| => if items[i].Undefined? then Null else Normalize(items[i]));
      forall i | 0 <= i < |items| ensures IsJson(r[i]) {
        if !items[i].Undefined? { NormalizeIsJson(items[i]); }
      }
    case Obj(es) =>
      var mapped := seq(|es|, i requires 0 <= i < |es| => (es[i].0, Normalize(es[i].1)));
      forall i | 0 <= i < |es| ensures mapped[i].1.Undefined? || IsJson(mapped[i].1) {
        if !es[i].1.Undefined? { NormalizeIsJson(es[i].1); }
      }
      SpreadValues([], mapped);
      SpreadKeepsDistinct([], mapped);
      DropValues(Canonical(mapped));
      DropKeepsDistinct(Canonical(mapped));
    case _ =>
  }

  /** A second round trip changes nothing. */
  lemma NormalizeIdempotent(v: Value)
    ensures Normalize(Normalize(v)) == Normalize(v)
  {
    if !v.Undefined? {
      NormalizeIsJson(v);
      NormalizeJson(Normalize(v));
    }
  }
}
