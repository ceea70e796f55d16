/**
 * The slice of PHP's value model the pattern demos rely on: nullable results,
 * array keys with PHP's key normalisation, dynamically typed values and
 * ordered associative arrays.
 */
module Php {

  /** A result that may be PHP's `null`. */
  datatype Option<T> = None | Some(value: T)

  /** How a call ends: with a value, or by throwing an `Error` with this message. */
  datatype Outcome<T> = Returned(value: T) | Threw(message: string)

  /** An array key: PHP keeps only ints and strings as keys. */
  datatype Key = IntKey(n: int) | StrKey(s: string)

  /** A dynamically typed PHP value. */
  datatype Value = Null | Bool(b: bool) | Int(n: int) | Str(s: string) | Arr(entries: seq<Entry>)

  /** One key => value pair of an ordered PHP array. */
  datatype Entry = Entry(key: Key, value: Value)

  const IntMax: int := 0x7FFF_FFFF_FFFF_FFFF
  const IntMin: int := -0x8000_0000_0000_0000

  predicate IsDigit(c: char) { '0' <= c <= '9' }

  predicate AllDigits(s: string) { forall i :: 0 <= i < |s| ==> IsDigit(s[i]) }

  function DigitChar(d: nat): (c: char)
    requires d < 10
    ensures IsDigit(c) && c as int - '0' as int == d
  {
    ('0' as int + d) as char
  }

  /** The number a string of decimal digits denotes. */
  function DigitsValue(s: string): nat
    requires AllDigits(s)
  {
    if s == [] then 0 else DigitsValue(s[..|s| - 1]) * 10 + (s[|s| - 1] as int - '0' as int)
  }

  /** The decimal digits of `n`, without a leading zero. */
  function NatDigits(n: nat): (s: string)
    ensures AllDigits(s) && |s| > 0
  {
    if n < 10 then [DigitChar(n)] else NatDigits(n / 10) + [DigitChar(n % 10)]
  }

  /** PHP's decimal rendering of an int. */
  function Decimal(n: int): string
  {
    if n < 0 then "-" + NatDigits(-n) else NatDigits(n)
  }

  /**
   * The strings that PHP reads as an integer when they are used as array
   * keys: "0", or an optional minus sign and digits without a leading zero.
   */
  predicate IsIntegerString(s: string)
  {
    if |s| > 0 && s[0] == '-' then
      |s| > 1 && s[1] != '0' && AllDigits(s[1..])
    else
      |s| > 0 && AllDigits(s) && (s[0] != '0' || |s| == 1)
  }

  function IntegerStringValue(s: string): int
    requires IsIntegerString(s)
  {
    if s[0] == '-' then -(DigitsValue(s[1..]) as int) else DigitsValue(s)
  }

  /** The key PHP actually stores when the string `s` is used as a key. */
  function KeyOfString(s: string): Key
  {
    if IsIntegerString(s) && IntMin <= IntegerStringValue(s) <= IntMax then
      IntKey(IntegerStringValue(s))
    else
      StrKey(s)
  }

  /** A key as PHP stores it: string keys that read as integers are gone. */
  predicate IsNormal(k: Key)
  {
    k.IntKey? || KeyOfString(k.s) == k
  }

  /** The key an `int|string` argument becomes when it indexes an array. */
  function NormalizeKey(k: Key): (r: Key)
    ensures IsNormal(r)
    ensures k.IntKey? ==> r == k
    ensures r.StrKey? ==> r == k
  {
    match k
    case IntKey(_) => k
    case StrKey(s) => KeyOfString(s)
  }

  lemma {:induction false} NatDigitsValue(n: nat)
    ensures DigitsValue(NatDigits(n)) == n
    ensures n > 0 ==> NatDigits(n)[0] != '0'
  {
    if n >= 10 {
      NatDigitsValue(n / 10);
      var s := NatDigits(n);
      assert s[..|s| - 1] == NatDigits(n / 10);
      assert s[0] == NatDigits(n / 10)[0];
    }
  }

  lemma {:induction false} LeadingDigitPositive(s: string)
    requires AllDigits(s) && |s| > 0 && s[0] != '0'
    ensures DigitsValue(s) > 0
    decreases |s|
  {
    if |s| > 1 {
      assert s[..|s| - 1][0] == s[0];
      LeadingDigitPositive(s[..|s| - 1]);
    }
  }

  lemma {:induction false} DigitsValueNatDigits(s: string)
    requires AllDigits(s) && |s| > 0 && (s[0] != '0' || |s| == 1)
    ensures NatDigits(DigitsValue(s)) == s
    decreases |s|
  {
    if |s| > 1 {
      var t := s[..|s| - 1];
      var d := s[|s| - 1] as int - '0' as int;
      var n := DigitsValue(s);
      assert t[0] == s[0];
      LeadingDigitPositive(t);
      DigitsValueNatDigits(t);
      assert n == DigitsValue(t) * 10 + d && 0 <= d < 10;
      assert n / 10 == DigitsValue(t) && n % 10 == d;
      assert NatDigits(n) == NatDigits(DigitsValue(t)) + [DigitChar(d)];
      assert DigitChar(d) == s[|s| - 1];
      assert s == t + [s[|s| - 1]];
    } else {
      assert DigitsValue(s) == DigitsValue([]) * 10 + (s[0] as int - '0' as int);
    }
  }

  /** `Decimal(n)` is an integer string and reads back as `n`. */
  lemma DecimalRoundTrip(n: int)
    ensures IsIntegerString(Decimal(n)) && IntegerStringValue(Decimal(n)) == n
  {
    if n < 0 {
      NatDigitsValue(-n);
      assert Decimal(n)[1..] == NatDigits(-n);
    } else {
      NatDigitsValue(n);
    }
  }

  /** Every integer string is the decimal rendering of its value. */
  lemma IntegerStringRoundTrip(s: string)
    requires IsIntegerString(s)
    ensures Decimal(IntegerStringValue(s)) == s
  {
    if s[0] == '-' {
      DigitsValueNatDigits(s[1..]);
      LeadingDigitPositive(s[1..]);
      assert s == "-" + s[1..];
    } else {
      DigitsValueNatDigits(s);
    }
  }

  /**
   * A string key and an int key name the same array slot exactly when the
   * string is the int's decimal rendering and the int fits in 64 bits.
   */
  lemma KeyOfStringIsInt(s: string, n: int)
    ensures KeyOfString(s) == IntKey(n) <==> s == Decimal(n) && IntMin <= n <= IntMax
  {
    if KeyOfString(s) == IntKey(n) {
      IntegerStringRoundTrip(s);
    }
    if s == Decimal(n) && IntMin <= n <= IntMax {
      DecimalRoundTrip(n);
    }
  }

  predicate HasKey(a: seq<Entry>, k: Key)
  {
    exists i :: 0 <= i < |a| && a[i].key == k
  }

  /** The value stored under `k` in the array `a`, if there is one: that of the first entry with key `k`. */
  function Lookup(a: seq<Entry>, k: Key): (r: Option<Value>)
    ensures r.Some? <==> HasKey(a, k)
    ensures r.Some? ==> exists i :: 0 <= i < |a| && a[i] == Entry(k, r.value) && forall j :: 0 <= j < i ==> a[j].key != k
  {
    if a == [] then None
    else if a[0].key == k then Some(a[0].value)
    else
      var r := Lookup(a[1..], k);
      assert forall i :: 0 < i < |a| ==> a[i] == a[1..][i - 1];
      assert HasKey(a, k) ==> HasKey(a[1..], k) by {
        if HasKey(a, k) {
          var i :| 0 <= i < |a| && a[i].key == k;
          assert a[1..][i - 1].key == k;
        }
      }
      r
  }

  /** `$a[$k]` on a read: the stored value, or null (with a warning) when absent. */
  function Index(a: seq<Entry>, k: Key): (v: Value)
    ensures HasKey(a, k) ==> exists i :: 0 <= i < |a| && a[i] == Entry(k, v) && forall j :: 0 <= j < i ==> a[j].key != k
    ensures !HasKey(a, k) ==> v == Null
  {
    match Lookup(a, k)
    case Some(v) => v
    case None => Null
  }
}
