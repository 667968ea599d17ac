/** Strings of Unicode scalar values: their order, their UTF-8 bytes, and decimal numerals.
    Every other module that sorts, bounds or prints text does it with these functions. */
module Text {

  // ----- Lexicographic order ---------------------------------------------------------

  /** Strict lexicographic order on code points. */
  predicate Below(a: string, b: string) {
    b != [] && (a == [] || a[0] < b[0] || (a[0] == b[0] && Below(a[1..], b[1..])))
  }

  lemma BelowIsStrict(a: string, b: string)
    ensures Below(a, b) ==> a != b && !Below(b, a)
  {
    if a != [] && b != [] && a[0] == b[0] { BelowIsStrict(a[1..], b[1..]); }
  }

  lemma BelowIsTotal(a: string, b: string)
    ensures Below(a, b) || a == b || Below(b, a)
  {
    if a != [] && b != [] && a[0] == b[0] {
      BelowIsTotal(a[1..], b[1..]);
      assert a == [a[0]] + a[1..] && b == [b[0]] + b[1..];
    }
  }

  lemma BelowIsTransitive(a: string, b: string, c: string)
    requires Below(a, b) && Below(b, c)
    ensures Below(a, c)
  {}

  predicate IsLeast(m: string, keys: set<string>) {
    m in keys && forall k :: k in keys && k != m ==> Below(m, k)
  }

  lemma LeastExists(keys: set<string>)
    requires keys != {}
    ensures exists m :: IsLeast(m, keys)
  {
    var k :| k in keys;
    if keys == {k} {
      assert IsLeast(k, keys);
    } else {
      LeastExists(keys - {k});
      var m :| IsLeast(m, keys - {k});
      BelowIsTotal(k, m);
      if Below(m, k) {
        assert IsLeast(m, keys);
      } else {
        forall x | x in keys && x != k ensures Below(k, x) {
          if x != m { BelowIsTransitive(k, m, x); }
        }
        assert IsLeast(k, keys);
      }
    }
  }

  /** The first key in the order. */
  function Least(keys: set<string>): (m: string)
    requires keys != {}
    ensures IsLeast(m, keys)
  {
    LeastExists(keys);
    assert forall a, b | IsLeast(a, keys) && IsLeast(b, keys) :: a == b by {
      forall a, b | IsLeast(a, keys) && IsLeast(b, keys) ensures a == b { BelowIsStrict(a, b); }
    }
    var m :| m in keys && IsLeast(m, keys);
    m
  }

  ghost predicate Ascending(s: seq<string>) {
    forall i, j :: 0 <= i < j < |s| ==> Below(s[i], s[j])
  }

  /** The keys in ascending order, each once. */
  function Sorted(keys: set<string>): (s: seq<string>)
    ensures Ascending(s)
    ensures forall k :: k in s <==> k in keys
    ensures |s| == |keys|
    decreases |keys|
  {
    if keys == {} then [] else
      var m := Least(keys);
      var rest := Sorted(keys - {m});
      assert forall i :: 0 <= i < |rest| ==> rest[i] in rest;
      [m] + rest
  }

  /** An ascending list is determined by the set of its elements. */
  lemma {:induction false} AscendingIsUnique(a: seq<string>, b: seq<string>)
    requires Ascending(a) && Ascending(b)
    requires forall k :: k in a <==> k in b
    ensures a == b
  {
    assert a != [] ==> a[0] in a;
    assert b != [] ==> b[0] in b;
    if a != [] && b != [] {
      assert a[0] in b && b[0] in a;
      var i :| 0 <= i < |b| && b[i] == a[0];
      var j :| 0 <= j < |a| && a[j] == b[0];
      BelowIsStrict(a[0], b[0]);
      assert a[0] == b[0];
      forall k ensures k in a[1..] <==> k in b[1..] {
        BelowIsStrict(a[0], a[0]);
        if k in a[1..] { assert k in a; assert k != a[0]; assert k in b; }
        if k in b[1..] { assert k in b; assert k != b[0]; assert k in a; }
      }
      AscendingIsUnique(a[1..], b[1..]);
      assert a == [a[0]] + a[1..] && b == [b[0]] + b[1..];
    }
  }

  // ----- UTF-8 -----------------------------------------------------------------------

  function EncodeChar(c: char): (bytes: seq<int>)
    ensures 1 <= |bytes| <= 4
  {
    var n := c as int;
    if n < 0x80 then [n]
    else if n < 0x800 then [0xC0 + n / 0x40, 0x80 + n % 0x40]
    else if n < 0x10000 then [0xE0 + n / 0x1000, 0x80 + n / 0x40 % 0x40, 0x80 + n % 0x40]
    else [0xF0 + n / 0x40000, 0x80 + n / 0x1000 % 0x40, 0x80 + n / 0x40 % 0x40, 0x80 + n % 0x40]
  }

  lemma BytesOfChar(c: char)
    ensures forall i :: 0 <= i < |EncodeChar(c)| ==> 0 <= EncodeChar(c)[i] < 0x100
  {}

  /** The UTF-8 bytes of a string (RFC 3629, section 3). */
  function Utf8(s: string): (bytes: seq<int>)
    ensures |bytes| >= |s|
    ensures forall i :: 0 <= i < |bytes| ==> 0 <= bytes[i] < 0x100
  {
    if s == [] then [] else
      BytesOfChar(s[0]);
      EncodeChar(s[0]) + Utf8(s[1..])
  }

  /** Strict lexicographic order on bytes, as `memcmp` and `Buffer.compare` order them. */
  predicate Before(a: seq<int>, b: seq<int>) {
    b != [] && (a == [] || a[0] < b[0] || (a[0] == b[0] && Before(a[1..], b[1..])))
  }

  lemma BeforeIsStrict(a: seq<int>, b: seq<int>)
    ensures Before(a, b) ==> !Before(b, a)
  {}

  lemma {:induction false} BeforeCancels(p: seq<int>, a: seq<int>, b: seq<int>)
    ensures Before(p + a, p + b) <==> Before(a, b)
  {
    if p == [] {
      assert p + a == a && p + b == b;
    } else {
      BeforeCancels(p[1..], a, b);
      assert (p + a)[1..] == p[1..] + a && (p + b)[1..] == p[1..] + b;
    }
  }

  lemma BeforeAt(a: seq<int>, b: seq<int>, k: nat)
    requires k < |a| && k < |b| && a[..k] == b[..k] && a[k] < b[k]
    ensures Before(a, b)
  {
    BeforeCancels(a[..k], a[k..], b[k..]);
    assert a == a[..k] + a[k..] && b == a[..k] + b[k..];
  }

  lemma DigitsBase64(n: nat)
    ensures n == n / 0x40 * 0x40 + n % 0x40
    ensures n / 0x40 == n / 0x1000 * 0x40 + n / 0x40 % 0x40
    ensures n / 0x1000 == n / 0x40000 * 0x40 + n / 0x1000 % 0x40
  {}

  /** The codes of two characters differ inside both, in the order of the characters. */
  lemma FirstDifference(c: char, d: char) returns (k: nat)
    requires c < d
    ensures k < |EncodeChar(c)| && k < |EncodeChar(d)|
    ensures EncodeChar(c)[..k] == EncodeChar(d)[..k] && EncodeChar(c)[k] < EncodeChar(d)[k]
  {
    var a, b := EncodeChar(c), EncodeChar(d);
    // The length is announced by the first byte; equal lengths compare digit by digit.
    if |a| != |b| || a[0] != b[0] {
      k := 0;
      LeadByteOrder(c, d);
    } else {
      DigitsBase64(c as int);
      DigitsBase64(d as int);
      k := if a[1] != b[1] then 1 else if a[2] != b[2] then 2 else 3;
    }
  }

  lemma LeadByteOrder(c: char, d: char)
    requires c < d
    ensures EncodeChar(c)[0] <= EncodeChar(d)[0]
    ensures EncodeChar(c)[0] == EncodeChar(d)[0] ==> |EncodeChar(c)| == |EncodeChar(d)| > 1
  {}

  lemma EncodeCharOrder(c: char, d: char, x: seq<int>, y: seq<int>)
    requires c < d
    ensures Before(EncodeChar(c) + x, EncodeChar(d) + y)
  {
    var k := FirstDifference(c, d);
    var a, b := EncodeChar(c), EncodeChar(d);
    assert (a + x)[..k] == a[..k] && (b + y)[..k] == b[..k];
    BeforeAt(a + x, b + y, k);
  }

  /** Sorting by UTF-8 bytes is sorting by code points; in particular UTF-8 is injective. */
  lemma {:induction false} Utf8KeepsOrder(a: string, b: string)
    ensures Below(a, b) <==> Before(Utf8(a), Utf8(b))
    ensures Utf8(a) == Utf8(b) ==> a == b
  {
    if a != [] && b != [] {
      var x, y := EncodeChar(a[0]), EncodeChar(b[0]);
      if a[0] == b[0] {
        Utf8KeepsOrder(a[1..], b[1..]);
        BeforeCancels(x, Utf8(a[1..]), Utf8(b[1..]));
        if Utf8(a) == Utf8(b) {
          assert Utf8(a)[|x|..] == Utf8(a[1..]) && Utf8(b)[|x|..] == Utf8(b[1..]);
        }
        assert a == [a[0]] + a[1..] && b == [b[0]] + b[1..];
      } else {
        if a[0] < b[0] {
          EncodeCharOrder(a[0], b[0], Utf8(a[1..]), Utf8(b[1..]));
        } else {
          EncodeCharOrder(b[0], a[0], Utf8(b[1..]), Utf8(a[1..]));
        }
        BeforeIsStrict(Utf8(a), Utf8(b));
        BeforeIsStrict(Utf8(b), Utf8(a));
      }
    }
  }

  // ----- Bounded text, as the SDK's `text` accepts it ----------------------------------

  predicate IsControl(c: char) {
    c as int <= 0x1F || 0x7F <= c as int <= 0x9F
  }

  /** `Buffer.byteLength`. */
  function ByteLength(s: string): nat {
    if s == "" then 0 else
      (if s[0] as int < 0x80 then 1 else if s[0] as int < 0x800 then 2 else if s[0] as int < 0x10000 then 3 else 4)
      + ByteLength(s[1..])
  }

  lemma {:induction false} ByteLengthIsUtf8Length(s: string)
    ensures ByteLength(s) == |Utf8(s)|
  {
    if s != "" { ByteLengthIsUtf8Length(s[1..]); }
  }

  predicate IsText(s: string, maxBytes: nat) {
    s != "" && ByteLength(s) <= maxBytes && forall i :: 0 <= i < |s| ==> !IsControl(s[i])
  }

  /** `text`: what may name anything. */
  lemma TextExactly(s: string, maxBytes: nat)
    ensures IsText(s, maxBytes) <==>
              && 0 < |s| && |Utf8(s)| <= maxBytes
              && forall i :: 0 <= i < |s| ==> (0x20 <= s[i] as int < 0x7F || 0x9F < s[i] as int)
  {
    ByteLengthIsUtf8Length(s);
  }

  // ----- Decimal numerals ------------------------------------------------------------

  predicate IsDigit(c: char) { '0' <= c <= '9' }

  predicate AllDigits(s: string) { forall i :: 0 <= i < |s| ==> IsDigit(s[i]) }

  function Digit(d: nat): (c: char)
    requires d < 10
    ensures IsDigit(c) && c as int == '0' as int + d
  {
    "0123456789"[d]
  }

  /** The decimal numeral without leading zeros. */
  function Decimal(n: nat): (s: string)
    ensures s != "" && AllDigits(s)
  {
    if n < 10 then [Digit(n)] else Decimal(n / 10) + [Digit(n % 10)]
  }

  /** The value of a run of digits. */
  function Value(s: string): nat
    requires AllDigits(s)
  {
    if s == "" then 0
    else 10 * Value(s[..|s| - 1]) + (s[|s| - 1] as int - '0' as int)
  }

  lemma {:induction false} ValueOfDecimal(n: nat)
    ensures Value(Decimal(n)) == n
  {
    if n >= 10 {
      var s := Decimal(n);
      ValueOfDecimal(n / 10);
      assert s[..|s| - 1] == Decimal(n / 10);
    } else {
      assert Decimal(n)[..0] == "";
    }
  }

  lemma DecimalIsInjective(m: nat, n: nat)
    requires Decimal(m) == Decimal(n)
    ensures m == n
  {
    ValueOfDecimal(m);
    ValueOfDecimal(n);
  }

  predicate NoDigitFirst(s: string) { s == "" || !IsDigit(s[0]) }

  /** The length of the run of digits a text starts with. */
  function DigitRun(s: string): (n: nat)
    ensures n <= |s| && AllDigits(s[..n])
  {
    if NoDigitFirst(s) then 0 else
      var rest := DigitRun(s[1..]);
      assert s[..1 + rest] == [s[0]] + s[1..][..rest];
      1 + rest
  }

  lemma {:induction false} DigitRunOf(a: string, x: string)
    requires AllDigits(a) && NoDigitFirst(x)
    ensures DigitRun(a + x) == |a|
  {
    if a == "" {
      assert a + x == x;
    } else {
      DigitRunOf(a[1..], x);
      assert (a + x)[1..] == a[1..] + x;
    }
  }

  /** A numeral is read off the front of a text up to the first character that is no digit. */
  lemma DigitRunIsUnique(a: string, x: string, b: string, y: string)
    requires AllDigits(a) && AllDigits(b) && NoDigitFirst(x) && NoDigitFirst(y)
    requires a + x == b + y
    ensures a == b && x == y
  {
    DigitRunOf(a, x);
    DigitRunOf(b, y);
    assert a == (a + x)[..|a|] && b == (b + y)[..|b|];
    assert x == (a + x)[|a|..] && y == (b + y)[|b|..];
  }
}
