/**
 * The header badge of the storefront: the total item count rendered as
 * decimal digits in parentheses, or nothing at all when the count is zero.
 */
module Badge {
  import CartItems

  predicate IsDigit(ch: char) {
    '0' <= ch <= '9'
  }

  /** A decimal numeral as a number's string conversion writes it: digits only, no leading zero. */
  predicate Canonical(s: string) {
    && |s| >= 1
    && (forall i :: 0 <= i < |s| ==> IsDigit(s[i]))
    && (s[0] == '0' ==> |s| == 1)
  }

  function DigitChar(d: nat): (ch: char)
    requires d < 10
    ensures IsDigit(ch) && ch as int - '0' as int == d
  {
    ('0' as int + d) as char
  }

  function DigitValue(ch: char): (d: nat)
    requires IsDigit(ch)
    ensures d < 10 && DigitChar(d) == ch
  {
    ch as int - '0' as int
  }

  /** The number a string of decimal digits denotes. */
  function ValueOf(s: string): (n: nat)
    requires forall i :: 0 <= i < |s| ==> IsDigit(s[i])
  {
    if s == [] then 0 else ValueOf(s[..|s| - 1]) * 10 + DigitValue(s[|s| - 1])
  }

  /** The decimal rendering of a count, as a template literal `${count}` gives it. */
  function Decimal(n: nat): (s: string)
    ensures Canonical(s)
    ensures ValueOf(s) == n
  {
    if n < 10 then
      [DigitChar(n)]
    else
      var high := Decimal(n / 10);
      var s := high + [DigitChar(n % 10)];
      assert s[..|s| - 1] == high;
      s
  }

  /** The rendering is also onto the canonical numerals: reading back and writing again is the identity. */
  lemma {:induction false} DecimalOfValue(s: string)
    requires Canonical(s)
    ensures Decimal(ValueOf(s)) == s
  {
    if |s| > 1 {
      var high := s[..|s| - 1];
      assert Canonical(high);
      assert ValueOf(high) >= 1 by {
        ValueOfPositive(high);
      }
      DecimalOfValue(high);
      var d := DigitValue(s[|s| - 1]);
      var n := ValueOf(s);
      ShiftDigit(ValueOf(high), d);
      assert n >= 10 && n / 10 == ValueOf(high) && n % 10 == d;
      assert Decimal(n) == Decimal(ValueOf(high)) + [DigitChar(d)];
      assert s == high + [s[|s| - 1]];
    }
  }

  /** Appending digit `d` to the numeral of `a` gives `a * 10 + d`, whose quotient and remainder by 10 recover both. */
  lemma ShiftDigit(a: nat, d: nat)
    requires d < 10
    ensures (a * 10 + d) / 10 == a && (a * 10 + d) % 10 == d
  {
  }

  /** A numeral whose first digit is not zero denotes a positive number. */
  lemma {:induction false} ValueOfPositive(s: string)
    requires Canonical(s) && s[0] != '0'
    ensures ValueOf(s) >= 1
  {
    if |s| > 1 {
      var high := s[..|s| - 1];
      assert high[0] == s[0];
      ValueOfPositive(high);
    }
  }

  /**
   * The badge text for a count: empty when the count is zero, otherwise the
   * count's decimal numeral between parentheses.
   */
  function BadgeText(count: nat): (r: string)
    ensures r == "" <==> count == 0
    ensures count > 0 ==>
      && |r| >= 3 && r[0] == '(' && r[|r| - 1] == ')'
      && Canonical(r[1..|r| - 1]) && ValueOf(r[1..|r| - 1]) == count
  {
    if count > 0 then
      var digits := Decimal(count);
      var r := "(" + digits + ")";
      assert r[1..|r| - 1] == digits;
      r
    else ""
  }

  /** The badge of a cart is empty exactly when the cart has no line items. */
  lemma CartBadgeEmpty<P>(c: CartItems.Cart<P>)
    ensures BadgeText(CartItems.TotalQuantity(c)) == "" <==> c == []
  {
  }

  /** Two units in the cart read as "(2)". */
  lemma BadgeOfTwo()
    ensures BadgeText(2) == "(2)"
  {
  }
}
