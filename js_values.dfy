/**
 * JavaScript values as the screens see them: JSON payloads from the server,
 * form fields and local variables.  An object is its list of own enumerable
 * string-keyed properties in the order they were created.  A list may name a
 * key twice; the LAST entry with a key is its value, and assigning to a key
 * that is present replaces it where it stands, so a list with repeated keys
 * behaves like the object that removing the earlier copies gives.  Whatever
 * lists the properties of an object goes through `OwnEntries`, which puts the
 * array-index keys first.
 */
module JsValues {
  import opened Common
  import opened JsNumbers

  datatype Value =
    | Undefined
    | Null
    | Bool(b: bool)
    | Num(n: Number)
    | Str(s: string)
    | Arr(items: seq<Value>)
    | Obj(entries: seq<(string, Value)>)

  /** The exceptions the modelled code can throw. */
  datatype JsError = TypeError | SyntaxError

  /** `v == null`, that is `null` or `undefined`. */
  predicate Nullish(v: Value)
  {
    v.Undefined? || v.Null?
  }

  /** ToBoolean: what `if (v)`, `!v` and `v || w` test. */
  predicate Truthy(v: Value)
  {
    match v
    case Undefined => false
    case Null => false
    case Bool(b) => b
    case Num(n) => n.Infinite? || (n.Finite? && n.x != 0.0)
    case Str(s) => s != ""
    case Arr(_) => true
    case Obj(_) => true
  }

  /** `a || b`. */
  function Or(a: Value, b: Value): (r: Value)
    ensures Truthy(a) ==> r == a
    ensures !Truthy(a) ==> r == b
  {
    if Truthy(a) then a else b
  }

  // ---------------------------------------------------------------------------
  // Conversions

  /** Text of an array element in `Array.prototype.join`: `null` and `undefined` print as nothing. */
  function ElementText(v: Value): (s: string)
    decreases v, 1
  {
    if Nullish(v) then "" else ToString(v)
  }

  /** ToString (`String(v)`, template literals); an array joins its elements with ",". */
  function ToString(v: Value): string
    decreases v, 0
  {
    match v
    case Undefined => "undefined"
    case Null => "null"
    case Bool(b) => if b then "true" else "false"
    case Num(n) => NumberToString(n)
    case Str(s) => s
    case Arr(items) => JoinStrings(seq(|items|, i requires 0 <= i < |items| => ElementText(items[i])), ",")
    case Obj(_) => "[object Object]"
  }

  /** ToNumber (`Number(v)`, `isNaN(v)`, relational operators); arrays and objects go through their text. */
  function ToNumber(v: Value): (n: Number)
    ensures v.Num? ==> n == v.n
    ensures v.Undefined? || v.Obj? ==> n.NaN?
  {
    match v
    case Undefined => NaN
    case Null => Finite(0.0)
    case Bool(b) => Finite(if b then 1.0 else 0.0)
    case Num(n) => n
    case Str(s) => StringToNumber(s)
    case Arr(_) => StringToNumber(ToString(v))
    case Obj(_) =>
      var text := ToString(v);
      assert text == "[object Object]";
      assert text[0] == '[' && text[|text| - 1] == ']';
      NonNumericText(text);
      StringToNumber(text)
  }

  // ---------------------------------------------------------------------------
  // Objects

  /** The keys of an entry list, in order. */
  function Keys(es: seq<(string, Value)>): (ks: seq<string>)
    ensures |ks| == |es| && forall i | 0 <= i < |es| :: ks[i] == es[i].0
  {
    seq(|es|, i requires 0 <= i < |es| => es[i].0)
  }

  predicate HasKey(es: seq<(string, Value)>, k: string)
  {
    exists i | 0 <= i < |es| :: es[i].0 == k
  }

  /** The value of the last entry with key `k`; `undefined` when there is none. */
  function Lookup(es: seq<(string, Value)>, k: string): (v: Value)
    ensures !HasKey(es, k) ==> v == Undefined
  {
    if es == [] then Undefined
    else if es[|es| - 1].0 == k then es[|es| - 1].1
    else Lookup(es[..|es| - 1], k)
  }

  /** `o[k] = v`: every entry with key `k` takes the value `v` where it stands; a new key goes last. */
  function Assign(es: seq<(string, Value)>, k: string, v: Value): (r: seq<(string, Value)>)
    ensures HasKey(es, k) ==> Keys(r) == Keys(es)
    ensures !HasKey(es, k) ==> r == es + [(k, v)]
  {
    if HasKey(es, k) then
      var r := seq(|es|, i requires 0 <= i < |es| => if es[i].0 == k then (k, v) else es[i]);
      assert Keys(r) == Keys(es);
      r
    else es + [(k, v)]
  }

  /** `{...t, ...src}` written as the assignments it performs, in the order of `src`. */
  function SpreadInto(t: seq<(string, Value)>, src: seq<(string, Value)>): seq<(string, Value)>
  {
    if src == [] then t
    else Assign(SpreadInto(t, src[..|src| - 1]), src[|src| - 1].0, src[|src| - 1].1)
  }

  /** The object a literal with these properties denotes: each key once, where it first appears, with its last value. */
  function Canonical(es: seq<(string, Value)>): seq<(string, Value)>
  {
    SpreadInto([], es)
  }

  /** The canonical index key of position `i` (`"0"`, `"1"`, ...). */
  function IndexKey(i: nat): string
  {
    NatText(i)
  }

  /**
   * Own enumerable properties, as `Object.entries`, object spread and
   * `JSON.stringify` list them: array-index keys first in ascending order,
   * then the other keys in the order they were created.
   */
  function OwnEntries(v: Value): (es: seq<(string, Value)>)
    ensures v.Obj? ==> es == Enumeration(Canonical(v.entries))
    ensures v.Arr? ==> |es| == |v.items| && forall i | 0 <= i < |es| :: es[i] == (IndexKey(i), v.items[i])
    ensures v.Str? ==> |es| == |v.s| && forall i | 0 <= i < |es| :: es[i] == (IndexKey(i), Str([v.s[i]]))
    ensures !v.Obj? && !v.Arr? && !v.Str? ==> es == []
  {
    match v
    case Obj(entries) => Enumeration(Canonical(entries))
    case Arr(items) => seq(|items|, i requires 0 <= i < |items| => (IndexKey(i), items[i]))
    case Str(s) => seq(|s|, i requires 0 <= i < |s| => (IndexKey(i), Str([s[i]])))
    case _ => []
  }

  /** The position a canonical index key names, if `k` is one. */
  function IndexOf(k: string): (r: Option<nat>)
    ensures r.Some? ==> IndexKey(r.value) == k
  {
    if k != [] && AllRadixDigits(k, 10) && (k[0] != '0' || |k| == 1) then
      var n := RadixValue(k, 10);
      CanonicalDigits(k);
      Some(n)
    else None
  }

  /** Digits without a leading zero are the text of their own value. */
  lemma {:induction false} CanonicalDigits(k: string)
    requires k != [] && AllRadixDigits(k, 10) && (k[0] != '0' || |k| == 1)
    ensures NatText(RadixValue(k, 10)) == k
  {
    var front := k[..|k| - 1];
    var last := k[|k| - 1];
    var d := CharDigit(last).value;
    if |k| == 1 {
      assert RadixValue(k, 10) == d by { assert k[..0] == []; }
    } else {
      assert front[0] == k[0];
      CanonicalDigits(front);
      assert RadixValue(front, 10) >= 1 by {
        assert front[..|front| - 1] + [front[|front| - 1]] == front;
        LeadingDigitBound(front);
      }
      var n := RadixValue(k, 10);
      assert n == RadixValue(front, 10) * 10 + d;
      assert n / 10 == RadixValue(front, 10) && n % 10 == d;
      assert DigitChar(d) == last by { DigitCharOfDigit(last); }
      assert k == front + [last];
    }
  }

  /** A digit string whose first digit is not 0 has a value of at least one. */
  lemma {:induction false} LeadingDigitBound(k: string)
    requires k != [] && AllRadixDigits(k, 10) && k[0] != '0'
    ensures RadixValue(k, 10) >= 1
  {
    if |k| > 1 {
      var front := k[..|k| - 1];
      assert front[0] == k[0];
      LeadingDigitBound(front);
    } else {
      assert k[..0] == [];
      assert CharDigit(k[0]).value != 0;
    }
  }

  lemma DigitCharOfDigit(c: char)
    requires IsRadixDigit(c, 10)
    ensures DigitChar(CharDigit(c).value) == c
  {
  }

  /** `v[k]`, which throws a TypeError on `null` and `undefined`. */
  function Prop(v: Value, k: string): (r: Result<Value, JsError>)
    ensures r.Err? <==> Nullish(v)
    ensures v.Obj? ==> r == Ok(Lookup(v.entries, k))
  {
    match v
    case Undefined => Err(TypeError)
    case Null => Err(TypeError)
    case Obj(entries) => Ok(Lookup(entries, k))
    case Arr(items) =>
      if k == "length" then Ok(Num(Finite(|items| as real)))
      else
        var i := IndexOf(k);
        if i.Some? && i.value < |items| then Ok(items[i.value]) else Ok(Undefined)
    case Str(s) =>
      if k == "length" then Ok(Num(Finite(|s| as real)))
      else
        var i := IndexOf(k);
        if i.Some? && i.value < |s| then Ok(Str([s[i.value]])) else Ok(Undefined)
    case _ => Ok(Undefined)
  }

  /** `v?.[k]`: `undefined` on `null` and `undefined` instead of throwing. */
  function OptionalProp(v: Value, k: string): (r: Value)
    ensures Nullish(v) ==> r == Undefined
    ensures !Nullish(v) ==> Ok(r) == Prop(v, k)
  {
    match Prop(v, k)
    case Ok(w) => w
    case Err(_) => Undefined
  }

  /** `a === b`.  Arrays and objects compare by contents here (identity is not modelled). */
  predicate StrictEquals(a: Value, b: Value)
  {
    match (a, b)
    case (Num(x), Num(y)) => NumberEquals(x, y)
    case _ => a == b
  }

  // ---------------------------------------------------------------------------
  // Properties of the object operations

  lemma {:induction false} LookupAssign(es: seq<(string, Value)>, k: string, v: Value, j: string)
    ensures Lookup(Assign(es, k, v), j) == if j == k then v else Lookup(es, j)
  {
    if HasKey(es, k) {
      var r := Assign(es, k, v);
      LookupReplace(es, k, v, j);
    } else {
      var r := es + [(k, v)];
      assert r[..|r| - 1] == es;
    }
  }

  /** Looking up in a list whose `k` entries all hold `v`. */
  lemma {:induction false} LookupReplace(es: seq<(string, Value)>, k: string, v: Value, j: string)
    requires HasKey(es, k)
    ensures var r := seq(|es|, i requires 0 <= i < |es| => if es[i].0 == k then (k, v) else es[i]);
      Lookup(r, j) == if j == k then v else Lookup(es, j)
  {
    var r := seq(|es|, i requires 0 <= i < |es| => if es[i].0 == k then (k, v) else es[i]);
    var n := |es| - 1;
    var front := es[..n];
    var rf := seq(|front|, i requires 0 <= i < |front| => if front[i].0 == k then (k, v) else front[i]);
    assert r[..n] == rf;
    if es[n].0 == k {
      if j != k {
        LookupNoChange(front, k, v, j);
      }
    } else {
      assert HasKey(front, k) by {
        var i :| 0 <= i < |es| && es[i].0 == k;
        assert i < n && front[i].0 == k;
      }
      LookupReplace(front, k, v, j);
    }
  }

  /** Replacing the values of `k` does not change the value of any other key. */
  lemma {:induction false} LookupNoChange(es: seq<(string, Value)>, k: string, v: Value, j: string)
    requires j != k
    ensures var r := seq(|es|, i requires 0 <= i < |es| => if es[i].0 == k then (k, v) else es[i]);
      Lookup(r, j) == Lookup(es, j)
  {
    if es != [] {
      var n := |es| - 1;
      var r := seq(|es|, i requires 0 <= i < |es| => if es[i].0 == k then (k, v) else es[i]);
      var front := es[..n];
      var rf := seq(|front|, i requires 0 <= i < |front| => if front[i].0 == k then (k, v) else front[i]);
      assert r[..n] == rf;
      LookupNoChange(front, k, v, j);
    }
  }

  /** After `{...t, ...src}`, a key of `src` has its value in `src`, any other key its value in `t`. */
  lemma {:induction false} LookupSpread(t: seq<(string, Value)>, src: seq<(string, Value)>, j: string)
    ensures Lookup(SpreadInto(t, src), j) == if HasKey(src, j) then Lookup(src, j) else Lookup(t, j)
  {
    if src != [] {
      var n := |src| - 1;
      var front := src[..n];
      LookupSpread(t, front, j);
      LookupAssign(SpreadInto(t, front), src[n].0, src[n].1, j);
      if src[n].0 != j {
        assert HasKey(src, j) <==> HasKey(front, j) by {
          if HasKey(src, j) {
            var i :| 0 <= i < |src| && src[i].0 == j;
            assert i < n && front[i].0 == j;
          }
        }
      }
    }
  }

  /** Assigning to `k` adds the key `k` and no other. */
  lemma HasKeyAssign(es: seq<(string, Value)>, k: string, v: Value, j: string)
    ensures HasKey(Assign(es, k, v), j) <==> HasKey(es, j) || j == k
  {
    var r := Assign(es, k, v);
    if HasKey(es, k) {
      if HasKey(r, j) {
        var i :| 0 <= i < |r| && r[i].0 == j;
        assert Keys(r)[i] == j;
      }
      if HasKey(es, j) {
        var i :| 0 <= i < |es| && es[i].0 == j;
        assert Keys(es)[i] == j;
      }
      if j == k {
        var i :| 0 <= i < |es| && es[i].0 == k;
        assert Keys(es)[i] == j;
      }
    } else {
      if HasKey(es, j) {
        var i :| 0 <= i < |es| && es[i].0 == j;
        assert r[i].0 == j;
      }
      assert r[|r| - 1].0 == k;
    }
  }

  /** The keys after `{...t, ...src}` are those of `t` and those of `src`. */
  lemma {:induction false} HasKeySpread(t: seq<(string, Value)>, src: seq<(string, Value)>, j: string)
    ensures HasKey(SpreadInto(t, src), j) <==> HasKey(t, j) || HasKey(src, j)
  {
    if src != [] {
      var n := |src| - 1;
      var front := src[..n];
      HasKeySpread(t, front, j);
      HasKeyAssign(SpreadInto(t, front), src[n].0, src[n].1, j);
      assert HasKey(src, j) <==> HasKey(front, j) || src[n].0 == j by {
        if HasKey(src, j) && src[n].0 != j {
          var i :| 0 <= i < |src| && src[i].0 == j;
          assert i < n && front[i].0 == j;
        }
        if HasKey(front, j) {
          var i :| 0 <= i < |front| && front[i].0 == j;
          assert src[i].0 == j;
        }
      }
    }
  }

  /** The keys of a canonical list are distinct. */
  predicate DistinctKeys(es: seq<(string, Value)>)
  {
    forall i, j | 0 <= i < j < |es| :: es[i].0 != es[j].0
  }

  lemma {:induction false} AssignKeepsDistinct(es: seq<(string, Value)>, k: string, v: Value)
    requires DistinctKeys(es)
    ensures DistinctKeys(Assign(es, k, v))
  {
    var r := Assign(es, k, v);
    if HasKey(es, k) {
      assert Keys(r) == Keys(es);
      forall i, j | 0 <= i < j < |r| ensures r[i].0 != r[j].0 {
        assert Keys(r)[i] == es[i].0 && Keys(r)[j] == es[j].0;
      }
    }
  }

  /** Object spread never produces a repeated key. */
  lemma {:induction false} SpreadKeepsDistinct(t: seq<(string, Value)>, src: seq<(string, Value)>)
    requires DistinctKeys(t)
    ensures DistinctKeys(SpreadInto(t, src))
  {
    if src != [] {
      SpreadKeepsDistinct(t, src[..|src| - 1]);
      AssignKeepsDistinct(SpreadInto(t, src[..|src| - 1]), src[|src| - 1].0, src[|src| - 1].1);
    }
  }

  /** The canonical list has each key once and gives every key the value the original list gives it. */
  lemma CanonicalFaithful(es: seq<(string, Value)>, j: string)
    ensures DistinctKeys(Canonical(es))
    ensures HasKey(Canonical(es), j) <==> HasKey(es, j)
    ensures Lookup(Canonical(es), j) == Lookup(es, j)
  {
    SpreadKeepsDistinct([], es);
    HasKeySpread([], es, j);
    LookupSpread([], es, j);
  }

  /** A canonical list whose keys are already distinct is the list itself. */
  lemma {:induction false} CanonicalOfDistinct(es: seq<(string, Value)>)
    requires DistinctKeys(es)
    ensures Canonical(es) == es
  {
    if es != [] {
      var n := |es| - 1;
      var front := es[..n];
      assert DistinctKeys(front);
      CanonicalOfDistinct(front);
      HasKeySpread([], front, es[n].0);
      assert forall i | 0 <= i < |front| :: front[i].0 != es[n].0;
      assert !HasKey([], es[n].0);
      assert front + [es[n]] == es;
    }
  }

  /** In a list with distinct keys, every entry is what its key reads. */
  lemma {:induction false} LookupDistinctAt(es: seq<(string, Value)>, i: nat)
    requires DistinctKeys(es) && i < |es|
    ensures Lookup(es, es[i].0) == es[i].1
  {
    var n := |es| - 1;
    if i < n {
      assert es[n].0 != es[i].0;
      var front := es[..n];
      assert DistinctKeys(front);
      assert front[i] == es[i];
      LookupDistinctAt(front, i);
    }
  }

  // ---------------------------------------------------------------------------
  // Enumeration order (OrdinaryOwnPropertyKeys of ECMA-262)

  /** 2^32 - 1: the array indices are the integers below it. */
  const ArrayIndexBound: nat := 0xFFFF_FFFF

  /** An array index: the canonical decimal text of an integer below 2^32 - 1. */
  predicate IsArrayIndex(k: string)
  {
    IndexOf(k).Some? && IndexOf(k).value < ArrayIndexBound
  }

  /** The integer an array-index key names; 0 for every other key. */
  function IndexRank(k: string): nat
  {
    if IsArrayIndex(k) then IndexOf(k).value else 0
  }

  /** A key that does not start with a digit is not an array index. */
  lemma NotArrayIndex(k: string)
    requires k != [] && !IsDigit(k[0])
    ensures !IsArrayIndex(k)
  {
    assert !IsRadixDigit(k[0], 10);
  }

  predicate NoIndexKeys(es: seq<(string, Value)>)
  {
    forall i | 0 <= i < |es| :: !IsArrayIndex(es[i].0)
  }

  /** Entries with array-index keys, in ascending order of the index. */
  predicate IndexAscending(es: seq<(string, Value)>)
  {
    && (forall i | 0 <= i < |es| :: IsArrayIndex(es[i].0))
    && (forall i, j | 0 <= i < j < |es| :: IndexRank(es[i].0) <= IndexRank(es[j].0))
  }

  /** The entries whose key is an array index, in list order. */
  function IndexEntries(es: seq<(string, Value)>): (r: seq<(string, Value)>)
    ensures |r| <= |es|
  {
    if es == [] then []
    else (if IsArrayIndex(es[0].0) then [es[0]] else []) + IndexEntries(es[1..])
  }

  /** The entries whose key is not an array index, in list order. */
  function NamedEntries(es: seq<(string, Value)>): (r: seq<(string, Value)>)
    ensures |IndexEntries(es)| + |r| == |es|
  {
    if es == [] then []
    else (if IsArrayIndex(es[0].0) then [] else [es[0]]) + NamedEntries(es[1..])
  }

  /** Inserts `e` before the first entry whose index is not smaller. */
  function InsertByIndex(e: (string, Value), s: seq<(string, Value)>): (r: seq<(string, Value)>)
    ensures |r| == |s| + 1
  {
    if s == [] || IndexRank(e.0) <= IndexRank(s[0].0) then [e] + s
    else [s[0]] + InsertByIndex(e, s[1..])
  }

  /** The entries ordered by their index, by insertion. */
  function SortByIndex(es: seq<(string, Value)>): (r: seq<(string, Value)>)
    ensures |r| == |es|
  {
    if es == [] then [] else InsertByIndex(es[0], SortByIndex(es[1..]))
  }

  /** The order in which the properties of an object created in the order `es` are listed. */
  function Enumeration(es: seq<(string, Value)>): (r: seq<(string, Value)>)
    ensures |r| == |es|
  {
    SortByIndex(IndexEntries(es)) + NamedEntries(es)
  }

  /** The two filters split a list: one keeps the index keys, the other the rest. */
  lemma FiltersSplit(es: seq<(string, Value)>)
    ensures forall i | 0 <= i < |IndexEntries(es)| :: IsArrayIndex(IndexEntries(es)[i].0)
    ensures NoIndexKeys(NamedEntries(es))
    ensures multiset(IndexEntries(es)) + multiset(NamedEntries(es)) == multiset(es)
  {
    IndexEntriesKeys(es);
    NamedEntriesKeys(es);
    FiltersPermute(es);
  }

  lemma {:induction false} IndexEntriesKeys(es: seq<(string, Value)>)
    ensures forall i | 0 <= i < |IndexEntries(es)| :: IsArrayIndex(IndexEntries(es)[i].0)
  {
    if es != [] {
      IndexEntriesKeys(es[1..]);
      var ix := IndexEntries(es[1..]);
      if IsArrayIndex(es[0].0) {
        var r := [es[0]] + ix;
        assert IndexEntries(es) == r;
        forall i | 0 <= i < |r| ensures IsArrayIndex(r[i].0) {
          if i > 0 { assert r[i] == ix[i - 1]; }
        }
      } else {
        assert IndexEntries(es) == ix;
      }
    }
  }

  lemma {:induction false} NamedEntriesKeys(es: seq<(string, Value)>)
    ensures NoIndexKeys(NamedEntries(es))
  {
    if es != [] {
      NamedEntriesKeys(es[1..]);
      var nx := NamedEntries(es[1..]);
      if !IsArrayIndex(es[0].0) {
        var r := [es[0]] + nx;
        assert NamedEntries(es) == r;
        forall i | 0 <= i < |r| ensures !IsArrayIndex(r[i].0) {
          if i > 0 { assert r[i] == nx[i - 1]; }
        }
      } else {
        assert NamedEntries(es) == nx;
      }
    }
  }

  lemma {:induction false} FiltersPermute(es: seq<(string, Value)>)
    ensures multiset(IndexEntries(es)) + multiset(NamedEntries(es)) == multiset(es)
  {
    if es != [] {
      FiltersPermute(es[1..]);
      assert es == [es[0]] + es[1..];
    }
  }

  /** Without index keys the named filter keeps everything. */
  lemma {:induction false} FiltersOfNamed(es: seq<(string, Value)>)
    requires NoIndexKeys(es)
    ensures IndexEntries(es) == [] && NamedEntries(es) == es
  {
    if es != [] {
      assert NoIndexKeys(es[1..]) by {
        forall i | 0 <= i < |es[1..]| ensures !IsArrayIndex(es[1..][i].0) { assert es[1..][i] == es[i + 1]; }
      }
      FiltersOfNamed(es[1..]);
      assert es == [es[0]] + es[1..];
    }
  }

  lemma {:induction false} InsertPermutes(e: (string, Value), s: seq<(string, Value)>)
    ensures multiset(InsertByIndex(e, s)) == multiset{e} + multiset(s)
  {
    if !(s == [] || IndexRank(e.0) <= IndexRank(s[0].0)) {
      InsertPermutes(e, s[1..]);
      assert s == [s[0]] + s[1..];
    }
  }

  lemma {:induction false} SortPermutes(es: seq<(string, Value)>)
    ensures multiset(SortByIndex(es)) == multiset(es)
  {
    if es != [] {
      SortPermutes(es[1..]);
      InsertPermutes(es[0], SortByIndex(es[1..]));
      assert es == [es[0]] + es[1..];
    }
  }

  /** Listing an object lists each of its entries exactly once. */
  lemma EnumerationPermutes(es: seq<(string, Value)>)
    ensures multiset(Enumeration(es)) == multiset(es)
  {
    FiltersSplit(es);
    SortPermutes(IndexEntries(es));
  }

  /** An index entry no larger than the head of an ascending list extends it. */
  lemma AscendingCons(x: (string, Value), t: seq<(string, Value)>)
    requires IndexAscending(t) && IsArrayIndex(x.0)
    requires t != [] ==> IndexRank(x.0) <= IndexRank(t[0].0)
    ensures IndexAscending([x] + t)
  {
    var r := [x] + t;
    forall i, j | 0 <= i < j < |r|
      ensures IndexRank(r[i].0) <= IndexRank(r[j].0)
    {
      if i > 0 {
        assert r[i] == t[i - 1] && r[j] == t[j - 1];
      } else if j > 1 {
        assert r[j] == t[j - 1];
      }
    }
  }

  lemma {:induction false} InsertAscending(e: (string, Value), s: seq<(string, Value)>)
    requires IndexAscending(s) && IsArrayIndex(e.0)
    ensures IndexAscending(InsertByIndex(e, s))
    ensures s != [] ==> InsertByIndex(e, s)[0] in {e, s[0]}
  {
    if s == [] || IndexRank(e.0) <= IndexRank(s[0].0) {
      AscendingCons(e, s);
    } else {
      var rest := InsertByIndex(e, s[1..]);
      assert IndexAscending(s[1..]);
      InsertAscending(e, s[1..]);
      assert IndexRank(s[0].0) <= IndexRank(rest[0].0) by {
        if s[1..] != [] { assert rest[0] == e || rest[0] == s[1]; }
      }
      AscendingCons(s[0], rest);
    }
  }

  lemma {:induction false} SortAscending(es: seq<(string, Value)>)
    requires forall i | 0 <= i < |es| :: IsArrayIndex(es[i].0)
    ensures IndexAscending(SortByIndex(es))
  {
    if es != [] {
      SortAscending(es[1..]);
      InsertAscending(es[0], SortByIndex(es[1..]));
    }
  }

  /**
   * The listing order: first the array-index entries in ascending order, then
   * the others exactly as `NamedEntries` keeps them.
   */
  lemma EnumerationOrder(es: seq<(string, Value)>)
    ensures var r, n := Enumeration(es), |IndexEntries(es)|;
      n <= |r| && IndexAscending(r[..n]) && r[n..] == NamedEntries(es) && NoIndexKeys(r[n..])
  {
    var ix := IndexEntries(es);
    FiltersSplit(es);
    SortAscending(ix);
    var sorted := SortByIndex(ix);
    var r := Enumeration(es);
    assert r[..|ix|] == sorted;
    assert r[|ix|..] == NamedEntries(es);
  }

  /** The named entries keep their relative order: the filter works segment by segment. */
  lemma {:induction false} NamedEntriesAppend(a: seq<(string, Value)>, b: seq<(string, Value)>)
    ensures NamedEntries(a + b) == NamedEntries(a) + NamedEntries(b)
  {
    if a != [] {
      assert (a + b)[0] == a[0] && (a + b)[1..] == a[1..] + b;
      NamedEntriesAppend(a[1..], b);
    } else {
      assert a + b == b;
    }
  }

  /** An object without array-index keys is listed in creation order. */
  lemma EnumerationOfNamed(es: seq<(string, Value)>)
    requires NoIndexKeys(es)
    ensures Enumeration(es) == es
  {
    FiltersOfNamed(es);
  }

  /** An object with one property lists that property. */
  lemma EnumerationSingle(x: (string, Value))
    ensures Enumeration([x]) == [x]
  {
    assert [x][1..] == [];
    if IsArrayIndex(x.0) {
      assert IndexEntries([x]) == [x];
      assert SortByIndex([x]) == InsertByIndex(x, []);
    } else {
      assert IndexEntries([x]) == [];
    }
  }

  /** A named property created before an index property is listed after it. */
  lemma EnumerationPair(n: (string, Value), t: (string, Value))
    requires !IsArrayIndex(n.0) && IsArrayIndex(t.0)
    ensures Enumeration([n, t]) == [t, n]
  {
    var es := [n, t];
    assert es[1..] == [t] && es[1..][1..] == [];
    assert IndexEntries(es) == [t];
    assert NamedEntries(es) == [n];
    assert SortByIndex([t]) == InsertByIndex(t, []);
  }

  /** A one-digit key is an array index. */
  lemma DigitIsArrayIndex(c: char)
    requires '0' <= c <= '9'
    ensures IsArrayIndex([c])
  {
    assert [c][..0] == [];
    assert IsRadixDigit([c][0], 10);
  }

  lemma DistinctCons(x: (string, Value), t: seq<(string, Value)>)
    ensures DistinctKeys([x] + t) <==> !HasKey(t, x.0) && DistinctKeys(t)
  {
    var r := [x] + t;
    if DistinctKeys(r) {
      forall i | 0 <= i < |t| ensures t[i].0 != x.0 { assert r[0] == x && r[i + 1] == t[i]; }
      forall i, j | 0 <= i < j < |t| ensures t[i].0 != t[j].0 { assert r[i + 1] == t[i] && r[j + 1] == t[j]; }
    }
    if !HasKey(t, x.0) && DistinctKeys(t) {
      forall i, j | 0 <= i < j < |r| ensures r[i].0 != r[j].0 {
        assert r[j] == t[j - 1];
        if i > 0 { assert r[i] == t[i - 1]; }
      }
    }
  }

  /** A key of a list whose entries all belong to another is a key of that one. */
  lemma HasKeyOfMembers(a: seq<(string, Value)>, b: seq<(string, Value)>, k: string)
    requires multiset(a) <= multiset(b)
    requires HasKey(a, k)
    ensures HasKey(b, k)
  {
    var i :| 0 <= i < |a| && a[i].0 == k;
    assert a[i] in multiset(a);
    assert a[i] in b;
    var j :| 0 <= j < |b| && b[j] == a[i];
  }

  lemma {:induction false} InsertDistinct(e: (string, Value), s: seq<(string, Value)>)
    requires DistinctKeys(s) && !HasKey(s, e.0)
    ensures DistinctKeys(InsertByIndex(e, s))
  {
    DistinctCons(e, s);
    if !(s == [] || IndexRank(e.0) <= IndexRank(s[0].0)) {
      assert s == [s[0]] + s[1..];
      DistinctCons(s[0], s[1..]);
      assert !HasKey(s[1..], e.0) by {
        if HasKey(s[1..], e.0) { HasKeyOfMembers(s[1..], s, e.0); }
      }
      InsertDistinct(e, s[1..]);
      var rest := InsertByIndex(e, s[1..]);
      assert !HasKey(rest, s[0].0) by {
        if HasKey(rest, s[0].0) {
          InsertPermutes(e, s[1..]);
          HasKeyOfMembers(rest, [e] + s[1..], s[0].0);
        }
      }
      DistinctCons(s[0], rest);
    }
  }

  lemma {:induction false} SortDistinct(es: seq<(string, Value)>)
    requires DistinctKeys(es)
    ensures DistinctKeys(SortByIndex(es))
  {
    if es != [] {
      assert es == [es[0]] + es[1..];
      DistinctCons(es[0], es[1..]);
      SortDistinct(es[1..]);
      SortPermutes(es[1..]);
      assert !HasKey(SortByIndex(es[1..]), es[0].0) by {
        if HasKey(SortByIndex(es[1..]), es[0].0) { HasKeyOfMembers(SortByIndex(es[1..]), es[1..], es[0].0); }
      }
      InsertDistinct(es[0], SortByIndex(es[1..]));
    }
  }

  /** A list whose keys are distinct keeps them distinct under either filter. */
  lemma {:induction false} FiltersDistinct(es: seq<(string, Value)>)
    requires DistinctKeys(es)
    ensures DistinctKeys(IndexEntries(es)) && DistinctKeys(NamedEntries(es))
  {
    if es != [] {
      assert es == [es[0]] + es[1..];
      DistinctCons(es[0], es[1..]);
      FiltersDistinct(es[1..]);
      FiltersSplit(es[1..]);
      var ix, nx := IndexEntries(es[1..]), NamedEntries(es[1..]);
      assert !HasKey(ix, es[0].0) by { if HasKey(ix, es[0].0) { HasKeyOfMembers(ix, es[1..], es[0].0); } }
      assert !HasKey(nx, es[0].0) by { if HasKey(nx, es[0].0) { HasKeyOfMembers(nx, es[1..], es[0].0); } }
      DistinctCons(es[0], ix);
      DistinctCons(es[0], nx);
    }
  }

  /** Listing an object never repeats a key. */
  lemma EnumerationDistinct(es: seq<(string, Value)>)
    requires DistinctKeys(es)
    ensures DistinctKeys(Enumeration(es))
  {
    FiltersDistinct(es);
    FiltersSplit(es);
    var a := SortByIndex(IndexEntries(es));
    var b := NamedEntries(es);
    SortDistinct(IndexEntries(es));
    SortAscending(IndexEntries(es));
    var r := a + b;
    forall i, j | 0 <= i < j < |r|
      ensures r[i].0 != r[j].0
    {
      if j < |a| {
        assert r[i] == a[i] && r[j] == a[j];
      } else if i >= |a| {
        assert r[i] == b[i - |a|] && r[j] == b[j - |a|];
      } else {
        assert r[i] == a[i] && r[j] == b[j - |a|];
      }
    }
  }

  /** Two lists with distinct keys and the same entries read every key alike. */
  lemma LookupOfMembers(a: seq<(string, Value)>, b: seq<(string, Value)>, k: string)
    requires DistinctKeys(a) && DistinctKeys(b)
    requires multiset(a) == multiset(b)
    ensures HasKey(a, k) <==> HasKey(b, k)
    ensures Lookup(a, k) == Lookup(b, k)
  {
    if HasKey(a, k) {
      var i :| 0 <= i < |a| && a[i].0 == k;
      assert a[i] in multiset(a);
      assert a[i] in b;
      var j :| 0 <= j < |b| && b[j] == a[i];
      LookupDistinctAt(a, i);
      LookupDistinctAt(b, j);
    } else if HasKey(b, k) {
      HasKeyOfMembers(b, a, k);
    }
  }

  /**
   * `Object.entries` of an object has each key once and gives every key the
   * value a property read gives it.
   */
  lemma OwnEntriesFaithful(es: seq<(string, Value)>, j: string)
    ensures DistinctKeys(OwnEntries(Obj(es)))
    ensures HasKey(OwnEntries(Obj(es)), j) <==> HasKey(es, j)
    ensures Lookup(OwnEntries(Obj(es)), j) == Lookup(es, j)
  {
    var c := Canonical(es);
    CanonicalFaithful(es, j);
    EnumerationDistinct(c);
    EnumerationPermutes(c);
    LookupOfMembers(c, Enumeration(c), j);
  }
}
