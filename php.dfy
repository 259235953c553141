/**
  The pieces of the PHP runtime that the portfolio helper leans on: scalar values and their
  truthiness, `isset`, `is_numeric`/`intval`, `rtrim`, `explode`/`implode` and `array_filter`.
  A PHP array is an ordered sequence of key/value entries, so that the keys `array_filter`
  keeps are visible.
*/
module Php {
  import opened Wrappers

  /** A PHP scalar as it reaches the helper from stored options, caller arguments or post meta. */
  datatype Scalar = Null | Bool(b: bool) | Int(i: int) | Str(s: string)

  /**
    PHP's conversion to bool: used by `array_filter` without a callback and by a loose `== true`
    (FalsyValues lists the values it rejects).
  */
  predicate Truthy(v: Scalar)
  {
    match v
    case Null => false
    case Bool(b) => b
    case Int(i) => i != 0
    case Str(s) => s != "" && s != "0"
  }

  /** Exactly five scalar values are falsy: null, false, 0, the empty string and "0". */
  lemma FalsyValues(v: Scalar)
    ensures !Truthy(v) <==> v in {Null, Bool(false), Int(0), Str(""), Str("0")}
  {
  }

  datatype Key = IntKey(i: int) | StrKey(s: string)

  datatype Entry = Entry(key: Key, value: Scalar)

  /** A PHP array: its entries in insertion order. */
  type PhpArray = seq<Entry>

  /** The keys of `a` are integers in strictly increasing order (as in a list and its filterings). */
  predicate Ascending(a: PhpArray) {
    forall j, k :: 0 <= j < k < |a| ==> a[j].key.IntKey? && a[k].key.IntKey? && a[j].key.i < a[k].key.i
  }

  /**
    The conversions whose internals are not part of this model: which strings `is_numeric`
    accepts, what `intval` makes of a string, and the escaping `esc_attr` applies.
  */
  datatype Conversions = Conversions(
    isNumericString: string -> bool,
    intvalString: string -> int,
    escAttr: Scalar -> string)

  /** `is_numeric`: integers always, strings as the runtime decides, nothing else. */
  predicate IsNumeric(v: Scalar, conv: Conversions)
    ensures IsNumeric(v, conv) ==> v.Int? || v.Str?
    ensures v.Int? ==> IsNumeric(v, conv)
  {
    match v
    case Int(_) => true
    case Str(s) => conv.isNumericString(s)
    case _ => false
  }

  /** `intval` */
  function IntVal(v: Scalar, conv: Conversions): (n: int)
    ensures v.Int? ==> n == v.i
    ensures v.Null? || v == Bool(false) ==> n == 0
  {
    match v
    case Null => 0
    case Bool(b) => if b then 1 else 0
    case Int(i) => i
    case Str(s) => conv.intvalString(s)
  }

  /** `isset($m[k])`: the key is present and its value is not null. */
  predicate IsSet(m: map<string, Scalar>, k: string)
    ensures IsSet(m, k) <==> k in m && m[k] != Null
  {
    k in m && !m[k].Null?
  }

  /**
    `isset($options[k])` on what `get_option` returned: `None` stands for `false` or any other
    non-array value, on which `isset` of a key is always false.
  */
  predicate IsSetIn(m: Option<map<string, Scalar>>, k: string)
    ensures IsSetIn(m, k) <==> m.Some? && k in m.value && m.value[k] != Null
  {
    m.Some? && IsSet(m.value, k)
  }

  /** `rtrim($s, $c)` with a one-character list: drops every trailing `c`. */
  function RTrim(s: string, c: char): (r: string)
    ensures |r| <= |s| && r == s[..|r|]
    ensures forall i :: |r| <= i < |s| ==> s[i] == c
    ensures r == [] || r[|r| - 1] != c
    decreases |s|
  {
    if |s| > 0 && s[|s| - 1] == c then RTrim(s[..|s| - 1], c) else s
  }

  /** `implode` with a one-character separator. */
  function Implode(sep: char, parts: seq<string>): string
    decreases |parts|
  {
    if |parts| == 0 then ""
    else if |parts| == 1 then parts[0]
    else parts[0] + [sep] + Implode(sep, parts[1..])
  }

  /**
    `explode` with a one-character separator: the maximal separator-free segments of `s`,
    at least one of them (the empty string yields one empty segment).
  */
  function Explode(sep: char, s: string): (parts: seq<string>)
    ensures |parts| >= 1
    ensures forall i :: 0 <= i < |parts| ==> sep !in parts[i]
    ensures Implode(sep, parts) == s
    decreases |s|
  {
    if |s| == 0 then [""]
    else
      var rest := Explode(sep, s[1..]);
      if s[0] == sep then
        assert [s[0]] + Implode(sep, rest) == s;
        [""] + rest
      else
        assert |rest| > 1 ==> Implode(sep, rest) == rest[0] + [sep] + Implode(sep, rest[1..]);
        assert |rest| > 1 ==> ([s[0]] + rest[0]) + [sep] + Implode(sep, rest[1..]) == [s[0]] + Implode(sep, rest);
        [[s[0]] + rest[0]] + rest[1..]
  }

  /** The list array `explode` returns: keys 0, 1, 2, ... in order. */
  function ListArray(parts: seq<string>): (a: PhpArray)
    ensures |a| == |parts| && Ascending(a)
    ensures forall i :: 0 <= i < |a| ==> a[i] == Entry(IntKey(i), Str(parts[i]))
  {
    seq(|parts|, i requires 0 <= i < |parts| => Entry(IntKey(i), Str(parts[i])))
  }

  /**
    `array_filter` without a callback: keeps the entries whose value is truthy, with their
    original keys and in their original order (ArrayFilterKeeps states which entries those are).
  */
  function ArrayFilter(a: PhpArray): (r: PhpArray)
    ensures |r| <= |a|
    ensures forall j :: 0 <= j < |r| ==> Truthy(r[j].value)
    decreases |a|
  {
    if |a| == 0 then []
    else (if Truthy(a[0].value) then [a[0]] else []) + ArrayFilter(a[1..])
  }

  // ---------------------------------------------------------------------------------------
  // Properties of explode and array_filter
  // ---------------------------------------------------------------------------------------

  /** A separator-free string explodes into itself alone. */
  lemma ExplodeSegment(sep: char, a: string)
    requires sep !in a
    ensures Explode(sep, a) == [a]
  {
  }

  /** Exploding a leading separator-free segment followed by the separator peels that segment off. */
  lemma {:induction false} ExplodeLeadingSegment(sep: char, a: string, b: string)
    requires sep !in a
    ensures Explode(sep, a + [sep] + b) == [a] + Explode(sep, b)
    decreases |a|
  {
    var s := a + [sep] + b;
    if |a| == 0 {
      assert s[1..] == b;
    } else {
      assert s[1..] == a[1..] + [sep] + b;
      ExplodeLeadingSegment(sep, a[1..], b);
      assert [a[0]] + a[1..] == a;
    }
  }

  /** `explode` undoes `implode` when no part holds the separator. */
  lemma {:induction false} ExplodeImplode(sep: char, parts: seq<string>)
    requires |parts| >= 1
    requires forall i :: 0 <= i < |parts| ==> sep !in parts[i]
    ensures Explode(sep, Implode(sep, parts)) == parts
    decreases |parts|
  {
    if |parts| == 1 {
      ExplodeSegment(sep, parts[0]);
    } else {
      ExplodeLeadingSegment(sep, parts[0], Implode(sep, parts[1..]));
      ExplodeImplode(sep, parts[1..]);
      assert [parts[0]] + parts[1..] == parts;
    }
  }

  /** Appending one separator appends one empty segment. */
  lemma {:induction false} ExplodeTrailingSeparator(sep: char, s: string)
    ensures Explode(sep, s + [sep]) == Explode(sep, s) + [""]
    decreases |s|
  {
    var t := s + [sep];
    if |s| == 0 {
      assert t[1..] == "";
    } else {
      assert t[1..] == s[1..] + [sep];
      ExplodeTrailingSeparator(sep, s[1..]);
    }
  }

  /** `array_filter` keeps an entry exactly when it is in the array and its value is truthy. */
  lemma {:induction false} ArrayFilterKeeps(a: PhpArray)
    ensures forall e :: e in ArrayFilter(a) <==> e in a && Truthy(e.value)
    decreases |a|
  {
    if |a| > 0 {
      ArrayFilterKeeps(a[1..]);
      assert a == [a[0]] + a[1..];
    }
  }

  /** `array_filter` keeps the order of the keys: integer keys that ascended still ascend. */
  lemma {:induction false} ArrayFilterAscending(a: PhpArray)
    requires Ascending(a)
    ensures Ascending(ArrayFilter(a))
    decreases |a|
  {
    if |a| > 0 {
      assert Ascending(a[1..]) by {
        forall j, k | 0 <= j < k < |a| - 1
          ensures a[1..][j].key.IntKey? && a[1..][k].key.IntKey? && a[1..][j].key.i < a[1..][k].key.i
        {
          assert a[1..][j] == a[j + 1] && a[1..][k] == a[k + 1];
        }
      }
      ArrayFilterAscending(a[1..]);
      ArrayFilterKeeps(a[1..]);
      var rest := ArrayFilter(a[1..]);
      forall k | 0 <= k < |rest| ensures a[0].key.IntKey? && rest[k].key.IntKey? && a[0].key.i < rest[k].key.i {
        assert rest[k] in a[1..];
        var m :| 0 <= m < |a[1..]| && a[1..][m] == rest[k];
        assert a[1 + m] == rest[k];
      }
    }
  }

  /** One step of `array_filter`: the first entry stays exactly when its value is truthy. */
  lemma ArrayFilterCons(x: Entry, rest: PhpArray)
    ensures ArrayFilter([x] + rest) == (if Truthy(x.value) then [x] else []) + ArrayFilter(rest)
  {
  }

  /** `array_filter` works entry by entry, so it distributes over concatenation. */
  lemma {:induction false} ArrayFilterAppend(a: PhpArray, b: PhpArray)
    ensures ArrayFilter(a + b) == ArrayFilter(a) + ArrayFilter(b)
    decreases |a|
  {
    if |a| > 0 {
      assert (a + b)[1..] == a[1..] + b;
      ArrayFilterAppend(a[1..], b);
    } else {
      assert a + b == b;
    }
  }
}
