/** JavaScript's conversions between strings and numbers, as far as the
    front end uses them: `Number(x) || 0`, `parseInt(x) || 0`, `String(x)`
    and the decimal text of a timestamp. `None` stands for NaN. */
module Numbers {

  import opened Wrappers
  import opened Text
  import opened Json

  predicate AllDigits(s: string) {
    forall i :: 0 <= i < |s| ==> IsDigit(s[i])
  }

  predicate IsHexDigit(c: char) {
    IsDigit(c) || ('a' <= c <= 'f') || ('A' <= c <= 'F')
  }

  function DigitValue(c: char): nat
    requires IsHexDigit(c)
  {
    if IsDigit(c) then c as int - '0' as int
    else if 'a' <= c <= 'f' then c as int - 'a' as int + 10
    else c as int - 'A' as int + 10
  }

  /** The value of a numeral in the given base (10 or 16). */
  function NumeralValue(s: string, base: nat): nat
    requires base == 10 || base == 16
    requires forall i :: 0 <= i < |s| ==> IsHexDigit(s[i]) && DigitValue(s[i]) < base
    decreases |s|
  {
    if s == [] then 0 else NumeralValue(s[..|s| - 1], base) * base + DigitValue(s[|s| - 1])
  }

  function Pow10(k: nat): (p: nat)
    ensures p >= 1
  {
    if k == 0 then 1 else 10 * Pow10(k - 1)
  }

  /** The shortest decimal numeral of `n`, as `String(n)` writes it. */
  function NatToDecimal(n: nat): (s: string)
    ensures s != [] && AllDigits(s)
    ensures |s| > 1 ==> s[0] != '0'
  {
    if n < 10 then [('0' as int + n) as char]
    else NatToDecimal(n / 10) + [('0' as int + n % 10) as char]
  }

  /** Reading back the numeral `String(n)` gives `n`. */
  lemma {:induction false} NatToDecimalRoundTrip(n: nat)
    ensures NumeralValue(NatToDecimal(n), 10) == n
  {
    if n >= 10 {
      NatToDecimalRoundTrip(n / 10);
      var s := NatToDecimal(n);
      assert s[..|s| - 1] == NatToDecimal(n / 10);
    }
  }

  /** The longest prefix of `s` whose characters satisfy the digit test of
      the base. */
  function DigitPrefix(s: string, base: nat): (d: string)
    requires base == 10 || base == 16
    ensures |d| <= |s| && d == s[..|d|]
    ensures forall i :: 0 <= i < |d| ==> IsHexDigit(d[i]) && DigitValue(d[i]) < base
    ensures |d| < |s| ==> !(IsHexDigit(s[|d|]) && DigitValue(s[|d|]) < base)
    decreases |s|
  {
    if s != [] && IsHexDigit(s[0]) && DigitValue(s[0]) < base
    then [s[0]] + DigitPrefix(s[1..], base)
    else ""
  }

  function Negate(sign: char, x: real): real {
    if sign == '-' then -x else x
  }

  /** The unsigned part of `parseInt`: a `0x`/`0X` prefix selects base 16,
      and the longest numeral prefix is read; None when there is none. */
  function ParseUnsigned(u: string): (r: Option<nat>)
    ensures u != [] && AllDigits(u) ==> r == Some(NumeralValue(u, 10))
  {
    DigitPrefixOfDigits(u, []);
    assert u + [] == u;
    var hex := |u| >= 2 && u[0] == '0' && (u[1] == 'x' || u[1] == 'X');
    var base := if hex then 16 else 10;
    var d := DigitPrefix(if hex then u[2..] else u, base);
    if d == [] then None else Some(NumeralValue(d, base))
  }

  /** `parseInt(s)` with no radix: leading white space and one sign are
      skipped, then the numeral is read; NaN when there is none. */
  function ParseInt(s: string): (r: Option<int>)
    ensures TrimStart(s) == [] ==> r.None?
    ensures s != [] && AllDigits(s) ==> r == Some(NumeralValue(s, 10))
  {
    var t := TrimStart(s);
    var sign := if t != [] && (t[0] == '+' || t[0] == '-') then t[0] else ' ';
    var u := if sign == ' ' then t else t[1..];
    match ParseUnsigned(u)
    case None => None
    case Some(n) => Some(if sign == '-' then 0 - n else n)
  }

  /** An unsigned decimal literal `digits [. digits] [e [sign] digits]` or
      `. digits [e ...]`, with at least one mantissa digit. */
  function UnsignedDecimal(t: string): Option<real> {
    var intPart := DigitPrefix(t, 10);
    var rest := t[|intPart|..];
    var frac := if rest != [] && rest[0] == '.' then DigitPrefix(rest[1..], 10) else "";
    var afterMantissa := if rest != [] && rest[0] == '.' then rest[1 + |frac|..] else rest;
    if intPart == [] && frac == [] then None
    else
      var mantissa := NumeralValue(intPart, 10) as real
        + (NumeralValue(frac, 10) as real) / (Pow10(|frac|) as real);
      if afterMantissa == [] then Some(mantissa)
      else if afterMantissa[0] != 'e' && afterMantissa[0] != 'E' then None
      else
        var e := afterMantissa[1..];
        var esign := if e != [] && (e[0] == '+' || e[0] == '-') then e[0] else ' ';
        var edigits := if esign == ' ' then e else e[1..];
        if edigits == [] || DigitPrefix(edigits, 10) != edigits then None
        else
          var k := NumeralValue(edigits, 10);
          Some(if esign == '-' then mantissa / (Pow10(k) as real) else mantissa * (Pow10(k) as real))
  }

  /** `Number(s)` for a string: surrounding white space is ignored, the
      empty string is 0, and a signed decimal literal is read exactly.
      Hexadecimal, octal and binary literals and `Infinity` are NaN here. */
  function StringToNumber(s: string): Option<real> {
    var t := Trim(s);
    if t == [] then Some(0.0)
    else if t[0] == '+' || t[0] == '-' then
      match UnsignedDecimal(t[1..])
      case Some(x) => Some(Negate(t[0], x))
      case None => None
    else UnsignedDecimal(t)
  }

  /** `Number(v)` for the values the forms hold. Arrays and objects are
      NaN here. */
  function ToNumber(v: Json): (r: Option<real>)
    ensures v.Num? ==> r == Some(v.n)
    ensures v.Null? || (v.Str? && Trim(v.s) == []) ==> r == Some(0.0)
    ensures v.Str? && v.s != [] && AllDigits(v.s) ==> r == Some(NumeralValue(v.s, 10) as real)
    ensures v.Undefined? || v.Hole? || v.Arr? || v.Obj? ==> r.None?
  {
    match v
    case Undefined => None
    case Hole => None
    case Null => Some(0.0)
    case Bool(b) => Some(if b then 1.0 else 0.0)
    case Num(n) => Some(n)
    case Str(s) =>
      if s != [] && AllDigits(s) then
        StringToNumberOfDigits(s, ' ');
        assert "" + s == s;
        StringToNumber(s)
      else StringToNumber(s)
    case Arr(_) => None
    case Obj(_) => None
  }

  /** `Number(v) || 0`: a number, never NaN. */
  function NumberOrZero(v: Json): (r: real)
    ensures ToNumber(v).None? ==> r == 0.0
    ensures ToNumber(v).Some? ==> r == ToNumber(v).value
  {
    match ToNumber(v)
    case Some(x) => x
    case None => 0.0
  }

  /** `parseInt(s) || 0` */
  function ParseIntOrZero(s: string): (r: int)
    ensures ParseInt(s).None? ==> r == 0
    ensures ParseInt(s).Some? ==> r == ParseInt(s).value
  {
    match ParseInt(s)
    case Some(x) => x
    case None => 0
  }

  function IntToDecimal(i: int): (s: string)
    ensures s != []
  {
    if i < 0 then "-" + NatToDecimal(-i) else NatToDecimal(i)
  }

  /** `String(v)`. A non-integral number is written by its integer part
      (truncated toward zero): the shortest round-trip decimal text of a
      double is not modelled. */
  function ToJsString(v: Json): (r: string)
    ensures v.Str? ==> r == v.s
    ensures v.Num? && v.n >= 0.0 ==> r != [] && AllDigits(r) && NumeralValue(r, 10) == v.n.Floor
    ensures v.Num? && v.n == v.n.Floor as real ==> StringToNumber(r) == Some(v.n)
  {
    match v
    case Undefined => "undefined"
    case Hole => "undefined"
    case Null => "null"
    case Bool(b) => if b then "true" else "false"
    case Num(n) => NumberText(n)
    case Str(s) => s
    case Arr(xs) => JoinElements(xs)
    case Obj(_) => "[object Object]"
  }

  /** `String(n)` for a number: a sign and the integer part's numeral.
      Reading it back with `Number` gives `n` again when `n` is integral. */
  function NumberText(n: real): (r: string)
    ensures n >= 0.0 ==> r != [] && AllDigits(r) && NumeralValue(r, 10) == n.Floor
    ensures n == n.Floor as real ==> StringToNumber(r) == Some(n)
  {
    if n < 0.0 then
      var k: nat := NegatedFloor(n);
      StringToNumberOfDigits(NatToDecimal(k), '-');
      NatToDecimalRoundTrip(k);
      "-" + NatToDecimal(k)
    else
      StringToNumberOfDigits(NatToDecimal(n.Floor), ' ');
      NatToDecimalRoundTrip(n.Floor);
      NatToDecimal(n.Floor)
  }

  /** The integer part of `-n` for a negative `n`; exactly `-n` when `n`
      is integral. */
  function NegatedFloor(n: real): (k: nat)
    requires n < 0.0
    ensures k == (-n).Floor
    ensures n == n.Floor as real ==> k as real == -n
  {
    var m := -n;
    assert m > 0.0;
    if n == n.Floor as real then
      assert m == (-(n.Floor)) as real;
      m.Floor
    else
      m.Floor
  }

  /** `String(array)`: the elements joined with commas, `null`,
      `undefined` and holes written as empty. */
  function JoinElements(xs: seq<Json>): string
    decreases xs
  {
    if xs == [] then ""
    else
      var head := if Nullish(xs[0]) || xs[0].Hole? then "" else ToJsString(xs[0]);
      if |xs| == 1 then head else head + "," + JoinElements(xs[1..])
  }

  /** The digit scan stops exactly where the digits do. */
  lemma {:induction false} DigitPrefixOfDigits(d: string, rest: string)
    ensures AllDigits(d) && (rest == [] || !IsDigit(rest[0])) ==> DigitPrefix(d + rest, 10) == d
    decreases |d|
  {
    if AllDigits(d) && (rest == [] || !IsDigit(rest[0])) {
      if d == [] {
        assert d + rest == rest;
      } else {
        assert (d + rest)[0] == d[0] && (d + rest)[1..] == d[1..] + rest;
        DigitPrefixOfDigits(d[1..], rest);
        assert d == [d[0]] + d[1..];
      }
    }
  }

  /** An unsigned run of decimal digits is read as its value. */
  lemma UnsignedDecimalOfDigits(d: string)
    requires d != [] && AllDigits(d)
    ensures UnsignedDecimal(d) == Some(NumeralValue(d, 10) as real)
  {
    DigitPrefixOfDigits(d, []);
    assert d + [] == d;
    assert DigitPrefix(d, 10) == d;
    assert d[|d|..] == [];
  }

  /** `Number` reads an optionally signed run of decimal digits as its
      value. */
  lemma StringToNumberOfDigits(d: string, sign: char)
    requires d != [] && AllDigits(d) && (sign == '-' || sign == ' ')
    ensures var s := if sign == '-' then "-" + d else d;
      StringToNumber(s) == Some(if sign == '-' then -(NumeralValue(d, 10) as real) else NumeralValue(d, 10) as real)
  {
    var s := if sign == '-' then "-" + d else d;
    assert s[|s| - 1] == d[|d| - 1];
    TrimUnchanged(s);
    UnsignedDecimalOfDigits(d);
    if sign == '-' {
      assert s[1..] == d;
    } else {
      assert s[0] == d[0];
    }
  }

  lemma TrimUnchanged(s: string)
    requires s != [] && !IsSpace(s[0]) && !IsSpace(s[|s| - 1])
    ensures Trim(s) == s
  {
  }

  /** `parseInt` reads a leading run of decimal digits and ignores what
      follows; only a lone `0` followed by `x` starts a (here empty)
      hexadecimal numeral instead. */
  lemma ParseIntPrefix(d: string, rest: string)
    requires d != [] && AllDigits(d) && (rest == [] || !IsDigit(rest[0]))
    requires !(d == "0" && rest != [] && (rest[0] == 'x' || rest[0] == 'X'))
    ensures ParseInt(d + rest) == Some(NumeralValue(d, 10))
  {
    var s := d + rest;
    assert s[0] == d[0];
    ParseIntOfUnsigned(s);
    ParseUnsignedPrefix(d, rest);
  }

  /** Text that starts with a digit is read without a sign. */
  lemma ParseIntOfUnsigned(s: string)
    requires s != [] && IsDigit(s[0])
    ensures ParseInt(s) == ParseUnsigned(s)
  {
    assert !IsSpace(s[0]);
    assert TrimStart(s) == s;
  }

  /** Text that starts with `-` is read as the negated unsigned numeral
      after it. */
  lemma ParseIntOfNegative(s: string)
    requires s != [] && s[0] == '-'
    ensures ParseInt(s) == match ParseUnsigned(s[1..]) case None => None case Some(n) => Some(0 - n)
  {
    assert !IsSpace(s[0]);
    assert TrimStart(s) == s;
  }

  lemma ParseUnsignedPrefix(d: string, rest: string)
    requires d != [] && AllDigits(d) && (rest == [] || !IsDigit(rest[0]))
    requires !(d == "0" && rest != [] && (rest[0] == 'x' || rest[0] == 'X'))
    ensures ParseUnsigned(d + rest) == Some(NumeralValue(d, 10))
  {
    var s := d + rest;
    assert s[0] == d[0];
    DigitPrefixOfDigits(d, rest);
    if |s| >= 2 && s[0] == '0' {
      if |d| >= 2 {
        assert s[1] == d[1];
      } else {
        assert s[1] == rest[0];
      }
    }
  }

  /** `parseInt(String(i))` is `i`. */
  lemma ParseIntRoundTrip(i: int)
    ensures ParseInt(IntToDecimal(i)) == Some(i)
  {
    var k := if i < 0 then -i else i;
    var d := NatToDecimal(k);
    NatToDecimalRoundTrip(k);
    var s := IntToDecimal(i);
    ParseUnsignedPrefix(d, []);
    assert d + [] == d;
    if i < 0 {
      assert s[0] == '-' && s[1..] == d;
      ParseIntOfNegative(s);
    } else {
      assert s == d;
      ParseIntOfUnsigned(s);
    }
  }
}
