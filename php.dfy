/** The part of PHP's value model and standard library the hook depends on. */
module Php {

  /** A configuration value as the test runner hands it over after reading behat.yml. */
  datatype Value =
    | Null
    | Bool(b: bool)
    | Int(i: int)
    | Str(s: string)
    | List(items: seq<Value>)
    | Dict(entries: map<string, Value>)

  /** A test suite's settings, by name. */
  type Suite = map<string, Value>

  /** Both shapes a PHP array takes in the configuration: a list or a string-keyed map. */
  predicate IsArray(v: Value) {
    v.List? || v.Dict?
  }

  /** `$v[$key]` for one of the hook's setting names: the entry, or null when there is none. */
  function Index(v: Value, key: string): Value {
    if v.Dict? && key in v.entries then v.entries[key] else Null
  }

  /**
   * `isset($v[$key])`: the entry exists and does not hold null. Nothing but
   * a string-keyed array holds one of the hook's setting names.
   */
  function Isset(v: Value, key: string): (r: bool)
    ensures r <==> v.Dict? && key in v.entries && v.entries[key] != Null
  {
    Index(v, key) != Null
  }

  /** The `(bool)` cast: false for exactly PHP's seven falsy values. */
  function ToBool(v: Value): (r: bool)
    ensures !r <==> v in {Null, Bool(false), Int(0), Str(""), Str("0"), List([]), Dict(map[])}
  {
    match v
    case Null => false
    case Bool(b) => b
    case Int(i) => i != 0
    case Str(s) => s != "" && s != "0"
    case List(items) => items != []
    case Dict(entries) => entries != map[]
  }

  /**
   * The `(string)` conversion that string interpolation applies: a string
   * unchanged, an integer as the decimal text that `(int)` reads back, true
   * as "1", null and false as "", and any array as "Array".
   */
  function ToString(v: Value): (r: string)
    ensures v.Str? ==> r == v.s
    ensures v.Int? ==> IntCast(r) == v.i
    ensures v.List? || v.Dict? ==> r == "Array"
    ensures v == Null || v == Bool(false) ==> r == ""
    ensures v == Bool(true) ==> r == "1"
  {
    match v
    case Null => ""
    case Bool(b) => if b then "1" else ""
    case Int(i) => IntCastOfIntToString(i); IntToString(i)
    case Str(s) => s
    case List(_) => "Array"
    case Dict(_) => "Array"
  }

  predicate IsDigit(c: char) {
    '0' <= c <= '9'
  }

  predicate AllDigits(s: string) {
    forall k :: 0 <= k < |s| ==> IsDigit(s[k])
  }

  /** The blanks PHP skips in front of a numeric string: space, \t, \n, \v, \f and \r. */
  predicate IsBlank(c: char) {
    c == ' ' || '\t' <= c <= '\r'
  }

  function DigitChar(d: nat): (c: char)
    requires d < 10
    ensures IsDigit(c)
  {
    ('0' as int + d) as char
  }

  function DigitValue(c: char): nat
    requires IsDigit(c)
  {
    c as int - '0' as int
  }

  /** The decimal digits of `n`, most significant first, without leading zeros. */
  function Decimal(n: nat): (r: string)
    ensures r != [] && AllDigits(r)
    decreases n
  {
    if n < 10 then [DigitChar(n)] else Decimal(n / 10) + [DigitChar(n % 10)]
  }

  /** `"$i"` for an integer. */
  function IntToString(i: int): string {
    if i < 0 then "-" + Decimal(-i) else Decimal(i)
  }

  /** The number a run of decimal digits denotes. */
  function DigitsValue(d: string): nat
    requires AllDigits(d)
    decreases |d|
  {
    if d == [] then 0 else DigitsValue(d[..|d| - 1]) * 10 + DigitValue(d[|d| - 1])
  }

  /** `s` without its leading blanks: a suffix of `s` that starts with no blank. */
  function TrimLeft(s: string): (r: string)
    ensures |r| <= |s| && r == s[|s| - |r|..]
    ensures r != [] ==> !IsBlank(r[0])
    ensures s == [] || !IsBlank(s[0]) ==> r == s
    decreases |s|
  {
    if s != [] && IsBlank(s[0]) then TrimLeft(s[1..]) else s
  }

  /** The longest prefix of `s` made of decimal digits. */
  function DigitPrefix(s: string): (r: string)
    ensures AllDigits(r) && r <= s
    ensures |r| < |s| ==> !IsDigit(s[|r|])
    ensures AllDigits(s) ==> r == s
    decreases |s|
  {
    if s != [] && IsDigit(s[0]) then [s[0]] + DigitPrefix(s[1..]) else []
  }

  /**
   * The `(int)` cast of a string, read as PHP reads a leading integer:
   * leading blanks, an optional sign, then as many digits as there are;
   * no digits at all gives 0.
   */
  function IntCast(s: string): (r: int)
    ensures AllDigits(s) ==> r == DigitsValue(s)
    ensures (forall k :: 0 <= k < |s| ==> !IsDigit(s[k])) ==> r == 0
  {
    var t := TrimLeft(s);
    if t != [] && (t[0] == '-' || t[0] == '+') then
      var m: int := DigitsValue(DigitPrefix(t[1..]));
      if t[0] == '-' then -m else m
    else
      DigitsValue(DigitPrefix(t))
  }

  /**
   * `implode("\n", $lines)`: the lines in order, the first one leading, with
   * a newline between neighbours; lines without newlines are joined into a
   * string holding one exactly when there is more than one line.
   */
  function Implode(lines: seq<string>): (r: string)
    ensures lines != [] ==> lines[0] <= r
    ensures SingleLines(lines) ==> ('\n' in r <==> |lines| > 1)
    decreases |lines|
  {
    if lines == [] then ""
    else if |lines| == 1 then lines[0]
    else lines[0] + "\n" + Implode(lines[1..])
  }

  /** `explode("\n", $s)`: the pieces between newlines, at least one. */
  function Explode(s: string): (r: seq<string>)
    ensures |r| >= 1
    decreases |s|
  {
    if s == [] then [""]
    else
      var rest := Explode(s[1..]);
      if s[0] == '\n' then [""] + rest else [[s[0]] + rest[0]] + rest[1..]
  }

  /** Lines as `exec` collects them: none holds a newline. */
  predicate SingleLines(lines: seq<string>) {
    forall k :: 0 <= k < |lines| ==> '\n' !in lines[k]
  }

  lemma {:induction false} DigitsValueOfDecimal(n: nat)
    ensures DigitsValue(Decimal(n)) == n
    decreases n
  {
    var d := Decimal(n);
    if n < 10 {
      assert d[..|d| - 1] == [];
    } else {
      DigitsValueOfDecimal(n / 10);
      assert d[..|d| - 1] == Decimal(n / 10);
    }
  }

  /** Reading back a rendered integer gives the integer: `(int) "$i" === $i`. */
  lemma {:induction false} IntCastOfIntToString(i: int)
    ensures IntCast(IntToString(i)) == i
  {
    var n: nat := if i < 0 then -i else i;
    var d := Decimal(n);
    DigitsValueOfDecimal(n);
    var s := IntToString(i);
    assert TrimLeft(s) == s;
    if i < 0 {
      assert s[1..] == d;
    }
  }

  lemma {:induction false} ExplodeAppend(x: string, t: string)
    requires '\n' !in x
    ensures Explode(x + t) == [x + Explode(t)[0]] + Explode(t)[1..]
    decreases |x|
  {
    var e := Explode(t);
    if x == [] {
      assert x + t == t;
      assert x + e[0] == e[0];
      assert [e[0]] + e[1..] == e;
    } else {
      ExplodeAppend(x[1..], t);
      assert (x + t)[1..] == x[1..] + t;
      assert [x[0]] + (x[1..] + Explode(t)[0]) == x + Explode(t)[0];
    }
  }

  /** Splitting the joined output at newlines gives back exactly the lines that were joined. */
  lemma {:induction false} ExplodeImplode(lines: seq<string>)
    requires lines != [] && SingleLines(lines)
    ensures Explode(Implode(lines)) == lines
    decreases |lines|
  {
    assert '\n' !in lines[0];
    if |lines| == 1 {
      ExplodeAppend(lines[0], "");
      assert lines[0] + "" == lines[0];
    } else {
      var rest := Implode(lines[1..]);
      ExplodeImplode(lines[1..]);
      ExplodeAppend(lines[0], "\n" + rest);
      assert lines[0] + "\n" + rest == lines[0] + ("\n" + rest);
      assert ("\n" + rest)[0] == '\n';
      assert ("\n" + rest)[1..] == rest;
      assert Explode("\n" + rest) == [""] + lines[1..];
      assert lines[0] + "" == lines[0];
      assert lines == [lines[0]] + lines[1..];
    }
  }
}
