/**
 * Cart keys. The session cart is a dictionary keyed by `str(product_id)`,
 * and the cart page looks products up again with those string keys, which
 * the database layer turns back into integers.
 */
module Keys {
  import opened Common

  predicate IsDigit(c: char) {
    '0' <= c <= '9'
  }

  predicate AllDigits(s: string) {
    forall i :: 0 <= i < |s| ==> IsDigit(s[i])
  }

  function DigitChar(d: nat): (c: char)
    requires d < 10
    ensures IsDigit(c)
  {
    ('0' as int + d) as char
  }

  function DigitValue(c: char): (d: nat)
    requires IsDigit(c)
    ensures d < 10
  {
    c as int - '0' as int
  }

  /** `str(n)` for a non-negative integer: its decimal digits, without leading zeros. */
  function Key(n: nat): (s: string)
    ensures s != [] && AllDigits(s)
    ensures (s[0] == '0') <==> n == 0
    ensures n < 10 <==> |s| == 1
  {
    if n < 10 then [DigitChar(n)] else Key(n / 10) + [DigitChar(n % 10)]
  }

  /** The number a string of decimal digits denotes, most significant digit first. */
  function Value(s: string): nat
    requires AllDigits(s)
  {
    if s == [] then 0 else Value(s[..|s| - 1]) * 10 + DigitValue(s[|s| - 1])
  }

  /** The coercion of a string key back to an integer id; anything but digits has none. */
  function ParseDecimal(s: string): Option<nat> {
    if s != [] && AllDigits(s) then Some(Value(s)) else None
  }

  /** A key as `str` writes it: it parses, and printing the parsed id gives it back. */
  predicate IsKey(s: string) {
    var r := ParseDecimal(s);
    r.Some? && Key(r.value) == s
  }

  lemma {:induction false} ValueOfKey(n: nat)
    ensures Value(Key(n)) == n
    decreases n
  {
    var s := Key(n);
    if n >= 10 {
      assert s[..|s| - 1] == Key(n / 10);
      assert s[|s| - 1] == DigitChar(n % 10);
      ValueOfKey(n / 10);
    }
  }

  /** Reading a key back gives the id it was made from. */
  lemma ParseKey(n: nat)
    ensures ParseDecimal(Key(n)) == Some(n)
    ensures IsKey(Key(n))
  {
    ValueOfKey(n);
  }

  /** Two product ids share a cart key exactly when they are the same id. */
  lemma KeyInjective(a: nat, b: nat)
    ensures Key(a) == Key(b) <==> a == b
  {
    if Key(a) == Key(b) {
      ParseKey(a);
      ParseKey(b);
    }
  }
}
