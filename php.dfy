/** The PHP conversions the backend applies implicitly: the `(int)` cast, parameter coercion of
    a non-strict-typed `?string` parameter, array-key normalisation and truthiness. */
module Php {
  import opened Wrappers
  import opened Values
  import opened Text

  /** White space PHP skips at the front of a numeric string. */
  predicate IsNumericLeadingSpace(c: char) {
    c == ' ' || c == '\t' || c == '\n' || c == '\r' || c == '\U{000B}' || c == '\U{000C}'
  }

  function DropLeadingSpace(s: string): (t: string)
    ensures |t| <= |s| && t == s[|s| - |t|..]
    ensures t == [] || !IsNumericLeadingSpace(t[0])
  {
    if s != [] && IsNumericLeadingSpace(s[0]) then DropLeadingSpace(s[1..]) else s
  }

  /** The longest prefix of decimal digits. */
  function DigitPrefix(s: string): (p: string)
    ensures AllDigits(p) && |p| <= |s| && p == s[..|p|]
    ensures AllDigits(s) ==> p == s
  {
    if s == [] || !IsDigit(s[0]) then [] else [s[0]] + DigitPrefix(s[1..])
  }

  /** `10^k`. */
  function Pow10(k: nat): (r: nat)
    ensures r >= 1
  {
    if k == 0 then 1 else 10 * Pow10(k - 1)
  }

  /** The exponent part of a numeric string: `e` or `E`, an optional sign, then at least one
      digit; without digits there is no exponent. */
  function Exponent(s: string): Option<int> {
    if s == [] || (s[0] != 'e' && s[0] != 'E') then None
    else
      var r := s[1..];
      var neg := r != [] && r[0] == '-';
      var digits := DigitPrefix(if r != [] && (r[0] == '-' || r[0] == '+') then r[1..] else r);
      if digits == [] then None
      else if neg then Some(-(DigitsValue(digits) as int))
      else Some(DigitsValue(digits))
  }

  /** `m * 10^k`. */
  function ScaleUp(m: nat, k: nat): nat
    decreases k
  {
    if k == 0 then m else ScaleUp(10 * m, k - 1)
  }

  /** `m / 10^k` truncated toward zero, one digit at a time. */
  function ScaleDown(m: nat, k: nat): nat
    decreases k
  {
    if k == 0 then m else ScaleDown(m / 10, k - 1)
  }

  /** `m * 10^(e - f)` truncated toward zero: the value of a mantissa `m` with `f` fraction
      digits and exponent `e`. */
  function Scaled(m: nat, f: nat, e: int): nat {
    if e >= f then ScaleUp(m, e - f) else ScaleDown(m, f - e)
  }

  /** The magnitude of an unsigned numeric prefix: digits, an optional `.` with digits, an
      optional exponent. Without a fraction or an exponent it is an integer string;
      otherwise it is read as a float and truncated toward zero. */
  function Magnitude(u: string): nat {
    var whole := DigitPrefix(u);
    AfterDigits(whole, u[|whole|..])
  }

  /** The magnitude once the leading digits `whole` are read and `rest` follows them. No digit
      before or after the point means the string is not numeric, which gives 0. */
  function AfterDigits(whole: string, rest: string): nat
    requires AllDigits(whole)
  {
    if rest != [] && rest[0] == '.' then
      var frac := DigitPrefix(rest[1..]);
      if whole == [] && frac == [] then 0
      else
        var e := Exponent(rest[1 + |frac|..]);
        Scaled(DigitsValue(whole + frac), |frac|, if e.Some? then e.value else 0)
    else if whole == [] then 0
    else
      match Exponent(rest)
      case None => DigitsValue(whole)
      case Some(e) => Scaled(DigitsValue(whole), 0, e)
  }

  /** `(int)$s` for a string: leading white space and an optional sign, then the leading
      numeric prefix, with a float form truncated toward zero; 0 when there is none. */
  function StringToInt(s: string): (r: int)
    ensures DropLeadingSpace(s) == [] ==> r == 0
    ensures var t := DropLeadingSpace(s);
      t != [] && !IsDigit(t[0]) && t[0] != '.' && t[0] != '-' && t[0] != '+' ==> r == 0
    ensures r < 0 ==> DropLeadingSpace(s)[0] == '-'
  {
    var t := DropLeadingSpace(s);
    assert t != [] && !IsDigit(t[0]) ==> DigitPrefix(t) == [] by {
      if t != [] && !IsDigit(t[0]) {
        DigitPrefixStops([], t);
        assert [] + t == t;
      }
    }
    var m := Magnitude(if t != [] && (t[0] == '-' || t[0] == '+') then t[1..] else t);
    if t != [] && t[0] == '-' then -(m as int) else m
  }

  /** The leading digits of digits followed by a non-digit are those digits. */
  lemma {:induction false} DigitPrefixStops(d: string, t: string)
    requires AllDigits(d) && (t == [] || !IsDigit(t[0]))
    ensures DigitPrefix(d + t) == d
  {
    if d != [] {
      assert (d + t)[1..] == d[1..] + t;
      DigitPrefixStops(d[1..], t);
    }
  }

  lemma {:induction false} ScaleUpIsProduct(m: nat, k: nat)
    ensures ScaleUp(m, k) == m * Pow10(k)
    decreases k
  {
    if k > 0 {
      ScaleUpIsProduct(10 * m, k - 1);
      assert (10 * m) * Pow10(k - 1) == m * (10 * Pow10(k - 1));
    }
  }

  /** A string that starts with a digit or a point is neither skipped nor signed. */
  lemma Unsigned(u: string)
    requires u != [] && (IsDigit(u[0]) || u[0] == '.')
    ensures StringToInt(u) == Magnitude(u)
  {
    assert !IsNumericLeadingSpace(u[0]);
    assert DropLeadingSpace(u) == u;
  }

  /** Digits followed by a non-digit split into the digits and the rest. */
  lemma MagnitudeSplits(d: string, t: string)
    requires AllDigits(d) && (t == [] || !IsDigit(t[0]))
    ensures Magnitude(d + t) == AfterDigits(d, t)
  {
    DigitPrefixStops(d, t);
    assert (d + t)[|d|..] == t;
  }

  /** `e` followed by digits is that exponent. */
  lemma ExponentOfDigits(x: string)
    requires x != [] && AllDigits(x)
    ensures Exponent("e" + x) == Some(DigitsValue(x) as int)
  {
    assert ("e" + x)[1..] == x;
    assert DigitPrefix(x) == x;
  }

  /** The exponent form counts: digits, `e`, digits is the mantissa times ten to the
      exponent, where the cast before PHP 7.1 stopped at the `e`. */
  lemma ExponentForm(d: string, x: string)
    requires d != [] && AllDigits(d) && x != [] && AllDigits(x)
    ensures StringToInt(d + "e" + x) == DigitsValue(d) * Pow10(DigitsValue(x))
  {
    assert d + "e" + x == d + ("e" + x);
    Unsigned(d + ("e" + x));
    MagnitudeSplits(d, "e" + x);
    ExponentOfDigits(x);
    ScaleUpIsProduct(DigitsValue(d), DigitsValue(x));
  }

  /** Dropping the last `|f|` digits of `d + f` leaves `d`. */
  lemma {:induction false} DropDigits(d: string, f: string)
    requires AllDigits(d) && AllDigits(f)
    ensures ScaleDown(DigitsValue(d + f), |f|) == DigitsValue(d)
    decreases |f|
  {
    if f == [] {
      assert d + f == d;
    } else {
      var g := f[..|f| - 1];
      assert (d + f)[..|d + f| - 1] == d + g;
      var a := DigitsValue(d + g);
      var x := DigitValue(f[|f| - 1]);
      assert DigitsValue(d + f) == a * 10 + x;
      assert (a * 10 + x) / 10 == a;
      DropDigits(d, g);
    }
  }

  /** A point and digits after the leading digits: the fraction digits are dropped. */
  lemma AfterPoint(d: string, f: string)
    requires AllDigits(d) && AllDigits(f)
    ensures AfterDigits(d, "." + f) == DigitsValue(d)
  {
    var t := "." + f;
    assert t[0] == '.' && t[1..] == f && DigitPrefix(f) == f;
    assert t[1 + |f|..] == [];
    if d != [] || f != [] {
      assert AfterDigits(d, t) == Scaled(DigitsValue(d + f), |f|, 0);
      DropDigits(d, f);
    }
  }

  /** The fraction is cut off toward zero: digits, `.`, digits read as the digits before the
      point, where the cast before PHP 7.1 did the same by stopping at the point. */
  lemma FractionForm(d: string, f: string)
    requires AllDigits(d) && AllDigits(f)
    ensures StringToInt(d + "." + f) == DigitsValue(d)
  {
    assert d + "." + f == d + ("." + f);
    Unsigned(d + ("." + f));
    MagnitudeSplits(d, "." + f);
    AfterPoint(d, f);
  }

  /** A minus sign negates what follows it. */
  lemma NegativeForm(u: string)
    requires u != [] && (IsDigit(u[0]) || u[0] == '.')
    ensures StringToInt("-" + u) == -StringToInt(u)
  {
    var s := "-" + u;
    assert s[0] == '-' && s[1..] == u && !IsNumericLeadingSpace(s[0]);
    assert DropLeadingSpace(s) == s;
    assert StringToInt(s) == -(Magnitude(u) as int);
    Unsigned(u);
  }

  /** `(int)"1e3"` is 1000. */
  lemma ExponentExample()
    ensures StringToInt("1e3") == 1000
  {
    assert DigitsValue("1") == 1 && DigitsValue("3") == 3;
    assert Pow10(1) == 10 && Pow10(2) == 100 && Pow10(3) == 1000;
    assert "1e3" == "1" + "e" + "3";
    ExponentForm("1", "3");
  }

  /** `(int)$value` for a decoded JSON answer value. */
  function IntCast(v: Value): (n: int)
    ensures v.Atom? && v.a.Int? ==> n == v.a.i
    ensures v == Atom(Null) || v == List([]) ==> n == 0
    ensures v.Atom? && v.a.Str? ==> n == StringToInt(v.a.s)
    ensures v.List? && v.items != [] ==> n == 1
  {
    match v
    case Atom(Null) => 0
    case Atom(Int(i)) => i
    case Atom(Str(s)) => StringToInt(s)
    case List(xs) => if xs == [] then 0 else 1
  }

  /** A string of digits alone is read as the integer it spells. */
  lemma MagnitudeOfDigits(ds: string)
    requires AllDigits(ds)
    ensures Magnitude(ds) == DigitsValue(ds)
  {
    MagnitudeSplits(ds, []);
    assert ds + [] == ds;
  }

  /** The cast reads back a printed natural number. */
  lemma ReadsNatToString(k: nat)
    ensures StringToInt(NatToString(k)) == k
  {
    var digits := NatToString(k);
    Unsigned(digits);
    MagnitudeOfDigits(digits);
    DigitsValueOfNatToString(k);
  }

  /** The `(int)` cast reads back every integer PHP prints: the cast inverts the
      int-to-string conversion. */
  lemma StringToIntOfIntToString(n: int)
    ensures StringToInt(IntToString(n)) == n
  {
    if n < 0 {
      ReadsNegatedNatToString(-n);
    } else {
      assert IntToString(n) == NatToString(n);
      ReadsNatToString(n);
    }
  }

  /** The cast reads back a printed negative number. */
  lemma ReadsNegatedNatToString(k: nat)
    requires k > 0
    ensures StringToInt(IntToString(-(k as int))) == -(k as int)
  {
    var u := NatToString(k);
    assert IntToString(-(k as int)) == "-" + u;
    ReadsNatToString(k);
    NegativeForm(u);
  }

  /** Passing a decoded JSON value to a `?string` parameter without strict types:
      `null` and strings pass, an integer is converted to its decimal string, and an array
      raises a TypeError (`None` here). */
  function StringParameter(v: Value): (r: Option<Option<string>>)
    ensures r.None? <==> v.List?
  {
    match v
    case Atom(Null) => Some(None)
    case Atom(Str(s)) => Some(Some(s))
    case Atom(Int(i)) => Some(Some(IntToString(i)))
    case List(_) => None
  }

  /** A key of a PHP array after normalisation. */
  datatype Key = IntKey(i: int) | StrKey(s: string)

  /** Strings PHP turns into integer keys: the canonical decimal form of an integer. */
  predicate IsIntegerKeyString(s: string) {
    IntToString(StringToInt(s)) == s
  }

  /** The key `$a[$x]` uses: `null` becomes `""`, an integer stays, and a string in canonical
      decimal form becomes that integer. */
  function ArrayKey(x: Scalar): (k: Key)
    ensures x.Int? ==> k == IntKey(x.i)
    ensures x.Null? ==> k == StrKey("")
    ensures x.Str? && k.IntKey? ==> IntToString(k.i) == x.s
    ensures x.Str? && k.StrKey? ==> k.s == x.s
  {
    match x
    case Null => StrKey("")
    case Int(i) => IntKey(i)
    case Str(s) => if IsIntegerKeyString(s) then IntKey(StringToInt(s)) else StrKey(s)
  }

  /** The option "5" and the option 5 share a key; a non-canonical string keeps its own. */
  lemma ArrayKeyMergesDecimalStrings(n: int, s: string)
    ensures ArrayKey(Str(IntToString(n))) == ArrayKey(Int(n))
    ensures !IsIntegerKeyString(s) ==> ArrayKey(Str(s)) == StrKey(s)
  {
    StringToIntOfIntToString(n);
  }

  /** PHP truthiness of a `?string`: `null`, `''` and `'0'` are false, and every falsy
      string casts to 0. */
  predicate Truthy(s: Option<string>)
    ensures !Truthy(s) && s.Some? ==> StringToInt(s.value) == 0
  {
    ReadsNatToString(0);
    assert NatToString(0) == "0";
    s.Some? && s.value != "" && s.value != "0"
  }
}
