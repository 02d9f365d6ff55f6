/** Python values as the agent sees them: the results of `ast.literal_eval`
    and `json.loads`, Python truthiness, `dict.get` and `str()`. */
module Values {

  datatype Option<+T> = None | Some(value: T)

  /** A Python value. Dictionaries are keyed by strings (the only keys the
      agent ever looks up); lists stand for every Python sequence. */
  datatype Value =
    | VNone
    | VBool(b: bool)
    | VInt(i: int)
    | VFloat(f: real)
    | VStr(s: string)
    | VList(items: seq<Value>)
    | VDict(m: map<string, Value>)

  type Dict = map<string, Value>

  /** `bool(v)`: None, False, zero and empty containers are falsy. */
  predicate Truthy(v: Value) {
    match v
    case VNone => false
    case VBool(b) => b
    case VInt(i) => i != 0
    case VFloat(f) => f != 0.0
    case VStr(s) => s != []
    case VList(xs) => xs != []
    case VDict(m) => m != map[]
  }

  /** `d.get(key)`: the value under `key`, or None when it is absent. */
  function Get(d: Dict, key: string): Value {
    if key in d then d[key] else VNone
  }

  function DigitChar(d: nat): char
    requires d < 10
  {
    ('0' as int + d) as char
  }

  function DigitValue(c: char): nat {
    if '0' <= c <= '9' then (c - '0') as nat else 0
  }

  /** The decimal digits of `n`, most significant first, without leading zeros. */
  function NatToDecimal(n: nat): (s: string)
    ensures |s| >= 1
    ensures forall k :: 0 <= k < |s| ==> '0' <= s[k] <= '9'
    ensures |s| > 1 ==> s[0] != '0'
    decreases n
  {
    if n < 10 then [DigitChar(n)] else NatToDecimal(n / 10) + [DigitChar(n % 10)]
  }

  /** Reads a string of decimal digits back as a number. */
  function DecimalToNat(s: string): nat
    decreases |s|
  {
    if s == [] then 0 else DecimalToNat(s[..|s| - 1]) * 10 + DigitValue(s[|s| - 1])
  }

  /** `str(i)` for a Python int. */
  function IntToDecimal(i: int): string {
    if i < 0 then "-" + NatToDecimal(-i) else NatToDecimal(i)
  }

  /** `str(v)`. Only None, booleans, ints and strings are rendered here;
      floats, lists and dicts go through `other`, which stands for
      Python's own repr of those kinds. */
  function Str(v: Value, other: Value -> string): string {
    match v
    case VNone => "None"
    case VBool(b) => if b then "True" else "False"
    case VInt(i) => IntToDecimal(i)
    case VStr(s) => s
    case _ => other(v)
  }

  /** The falsy values are exactly None, False, zero and the empty string,
      list and dictionary. */
  lemma FalsyValues(v: Value)
    ensures !Truthy(v) <==>
      v == VNone || v == VBool(false) || v == VInt(0) || v == VFloat(0.0)
      || v == VStr("") || v == VList([]) || v == VDict(map[])
  {
  }

  /** `str()` of a scalar: a string is itself, None and the booleans have
      their names, and an int is its sign and decimal digits, which read
      back as its magnitude. */
  lemma StrOfScalars(v: Value, other: Value -> string)
    ensures v.VStr? ==> Str(v, other) == v.s
    ensures v == VNone ==> Str(v, other) == "None"
    ensures v.VBool? ==> Str(v, other) == if v.b then "True" else "False"
    ensures v.VInt? && v.i >= 0 ==> DecimalToNat(Str(v, other)) == v.i
    ensures v.VInt? && v.i < 0 ==>
      |Str(v, other)| >= 2 && Str(v, other)[0] == '-' && DecimalToNat(Str(v, other)[1..]) == -v.i
  {
    if v.VInt? {
      if v.i >= 0 {
        DecimalRoundTrip(v.i);
      } else {
        DecimalRoundTrip(-v.i);
        assert Str(v, other)[1..] == NatToDecimal(-v.i);
      }
    }
  }

  /** Decimal rendering is reversible, so distinct numbers never share a text. */
  lemma {:induction false} DecimalRoundTrip(n: nat)
    ensures DecimalToNat(NatToDecimal(n)) == n
    decreases n
  {
    var s := NatToDecimal(n);
    assert DigitValue(s[|s| - 1]) == n % 10;
    if n >= 10 {
      DecimalRoundTrip(n / 10);
      assert s[..|s| - 1] == NatToDecimal(n / 10);
    }
  }

  /** Two different naturals have different decimal texts. */
  lemma NatToDecimalInjective(m: nat, n: nat)
    requires m != n
    ensures NatToDecimal(m) != NatToDecimal(n)
  {
    DecimalRoundTrip(m);
    DecimalRoundTrip(n);
  }

  /** `str` of two different ints gives two different strings. */
  lemma IntToDecimalInjective(i: int, j: int)
    requires i != j
    ensures IntToDecimal(i) != IntToDecimal(j)
  {
    var a, b := IntToDecimal(i), IntToDecimal(j);
    if i < 0 && j < 0 {
      NatToDecimalInjective(-i, -j);
      assert a[1..] == NatToDecimal(-i);
      assert b[1..] == NatToDecimal(-j);
    } else if i >= 0 && j >= 0 {
      NatToDecimalInjective(i, j);
    } else if i < 0 {
      assert a[0] == '-';
      assert '0' <= b[0] <= '9';
    } else {
      assert b[0] == '-';
      assert '0' <= a[0] <= '9';
    }
  }
}
