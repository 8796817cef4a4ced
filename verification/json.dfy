/** JSON values as Python's `json.loads` hands them to the bot, and the two
    Python operations the bot applies to them: `dict.get` and `str()`.
    Numbers with a fraction part (Python floats) are not modelled. */
module Json {
  import opened Results

  /** An object is its list of key/value pairs in document order; a key may
      occur more than once, and then the last occurrence is the one the
      Python dict keeps. */
  datatype Json =
    | Null
    | Bool(b: bool)
    | Int(i: int)
    | Str(s: string)
    | List(items: seq<Json>)
    | Object(fields: seq<(string, Json)>)

  /** The value bound to `key`, if any; the last binding wins. */
  function Lookup<V>(fields: seq<(string, V)>, key: string): (r: Option<V>)
    ensures r.None? <==> forall i :: 0 <= i < |fields| ==> fields[i].0 != key
    ensures r.Some? ==>
      exists i :: 0 <= i < |fields| && fields[i] == (key, r.value) &&
        forall j :: i < j < |fields| ==> fields[j].0 != key
  {
    if |fields| == 0 then None
    else if fields[|fields| - 1].0 == key then Some(fields[|fields| - 1].1)
    else Lookup(fields[..|fields| - 1], key)
  }

  /** Python's `d.get(key)` on a dict: `None` (here `Null`) when the key is
      absent, so that an absent key and an explicit null look the same. */
  function Get(d: Json, key: string): (r: Json)
    requires d.Object?
    ensures (forall i :: 0 <= i < |d.fields| ==> d.fields[i].0 != key) ==> r == Null
    ensures r != Null ==> exists i :: 0 <= i < |d.fields| && d.fields[i] == (key, r)
    ensures forall i :: (0 <= i < |d.fields| && d.fields[i].0 == key &&
                         (forall j :: i < j < |d.fields| ==> d.fields[j].0 != key)) ==> r == d.fields[i].1
  {
    match Lookup(d.fields, key)
    case Some(v) => v
    case None => Null
  }

  lemma {:induction false} LookupLastBindingWins<V>(fields: seq<(string, V)>, key: string, v: V)
    ensures Lookup(fields + [(key, v)], key) == Some(v)
  {
    assert (fields + [(key, v)])[|fields|] == (key, v);
  }

  /** Bindings of other keys do not change what a key is bound to. */
  lemma {:induction false} LookupOtherKey<V>(fields: seq<(string, V)>, other: string, v: V, key: string)
    requires other != key
    ensures Lookup(fields + [(other, v)], key) == Lookup(fields, key)
  {
    assert (fields + [(other, v)])[..|fields|] == fields;
  }

  predicate IsDigit(c: char) {
    '0' <= c <= '9'
  }

  /** The number a string of decimal digits denotes. */
  function DecimalValue(digits: string): int
    requires forall i :: 0 <= i < |digits| ==> IsDigit(digits[i])
  {
    if |digits| == 0 then 0
    else DecimalValue(digits[..|digits| - 1]) * 10 + (digits[|digits| - 1] as int - '0' as int)
  }

  /** The decimal digits of `n`, most significant first, without leading
      zeros: the string Python's `str(n)` gives for a non-negative int. */
  function NatToDecimal(n: nat): (r: string)
    ensures |r| > 0
    ensures forall i :: 0 <= i < |r| ==> IsDigit(r[i])
    ensures DecimalValue(r) == n
    ensures |r| > 1 ==> r[0] != '0'
    ensures n < 10 ==> |r| == 1
    decreases n
  {
    var d := ['0' + (n % 10) as char];
    if n < 10 then d
    else
      var high := NatToDecimal(n / 10);
      assert (high + d)[..|high + d| - 1] == high;
      high + d
  }

  /** Decimal text as `str()` prints it: digits only, at least one, and no
      leading zero unless the text is the single digit `0`. */
  predicate Canonical(digits: string) {
    && |digits| > 0
    && (forall i :: 0 <= i < |digits| ==> IsDigit(digits[i]))
    && (|digits| > 1 ==> digits[0] != '0')
  }

  /** A canonical text of two or more digits denotes at least 10. */
  lemma {:induction false} CanonicalLongIsLarge(digits: string)
    requires Canonical(digits) && |digits| > 1
    ensures DecimalValue(digits) >= 10
    decreases |digits|
  {
    var prefix := digits[..|digits| - 1];
    if |prefix| == 1 {
      assert DecimalValue(prefix) == DecimalValue(prefix[..0]) * 10 + (prefix[0] as int - '0' as int);
    } else {
      assert prefix[0] == digits[0];
      CanonicalLongIsLarge(prefix);
    }
  }

  /** Two canonical texts that denote the same number are the same text, so
      the contract of `NatToDecimal` fixes its result. */
  lemma {:induction false} CanonicalUnique(a: string, b: string)
    requires Canonical(a) && Canonical(b) && DecimalValue(a) == DecimalValue(b)
    ensures a == b
    decreases |a|
  {
    var n := DecimalValue(a);
    if |a| == 1 && |b| == 1 {
      assert a[..0] == [] && b[..0] == [];
    } else if |a| == 1 {
      assert a[..0] == [];
      CanonicalLongIsLarge(b);
    } else if |b| == 1 {
      assert b[..0] == [];
      CanonicalLongIsLarge(a);
    } else {
      var pa, pb := a[..|a| - 1], b[..|b| - 1];
      assert pa[0] == a[0] && pb[0] == b[0];
      var da, db := a[|a| - 1] as int - '0' as int, b[|b| - 1] as int - '0' as int;
      assert DecimalValue(pa) * 10 + da == DecimalValue(pb) * 10 + db;
      assert da == db && DecimalValue(pa) == DecimalValue(pb);
      CanonicalUnique(pa, pb);
      assert a == pa + [a[|a| - 1]] && b == pb + [b[|b| - 1]];
    }
  }

  /** Python's `str(n)` for an `int`: a minus sign for a negative number,
      then the digits of its magnitude. */
  function IntToDecimal(n: int): (r: string)
    ensures n >= 0 ==> r == NatToDecimal(n)
    ensures n < 0 ==> |r| >= 2 && r[0] == '-' && r[1..] == NatToDecimal(-n) && DecimalValue(r[1..]) == -n
    ensures n >= 0 ==> DecimalValue(r) == n
  {
    if n < 0 then "-" + NatToDecimal(-n) else NatToDecimal(n)
  }

  /** Python's `str(v)` for `None`, a bool or an int. */
  function ScalarStr(v: Json): string {
    match v
    case Null => "None"
    case Bool(b) => if b then "True" else "False"
    case Int(i) => IntToDecimal(i)
    case _ => ""
  }

  /** Python's `str(v)`, as an f-string applies it to the homework name. */
  function PyStr(v: Json): (r: string)
    ensures v.Str? ==> r == v.s
    ensures v.Null? ==> r == "None"
    ensures v.Bool? ==> r == (if v.b then "True" else "False")
    ensures v.Int? ==> r == IntToDecimal(v.i)
    ensures v.List? || v.Object? ==> r == Repr(v)
  {
    match v
    case Str(s) => s
    case List(_) => Repr(v)
    case Object(_) => Repr(v)
    case _ => ScalarStr(v)
  }

  /** Python's `repr(v)`, simplified: strings are put between single quotes
      without escaping, and duplicate keys of an object are all shown. */
  function Repr(v: Json): (r: string)
    ensures v.Str? ==> r == "'" + v.s + "'"
    ensures v.List? ==> |r| >= 2 && r[0] == '[' && r[|r| - 1] == ']'
    ensures v.Object? ==> |r| >= 2 && r[0] == '{' && r[|r| - 1] == '}'
    ensures !(v.Str? || v.List? || v.Object?) ==> r == ScalarStr(v)
    decreases v
  {
    match v
    case Str(s) => "'" + s + "'"
    case List(items) =>
      "[" + Join(seq(|items|, i requires 0 <= i < |items| => Repr(items[i]))) + "]"
    case Object(fields) =>
      "{" + Join(seq(|fields|, i requires 0 <= i < |fields| =>
        "'" + fields[i].0 + "': " + Repr(fields[i].1))) + "}"
    case _ => ScalarStr(v)
  }

  /** The parts separated by `", "`. */
  function Join(parts: seq<string>): string {
    if |parts| == 0 then ""
    else if |parts| == 1 then parts[0]
    else parts[0] + ", " + Join(parts[1..])
  }
}
