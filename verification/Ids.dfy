/** How row ids are spelled (`models.py`): a prefix, the creation time in milliseconds in fixed-width
    base 32, and a random tail. Sorting ids as strings sorts them by creation time. */
module Ids {

  function Crockford(): (alphabet: string)
    ensures |alphabet| == 32
  {
    "0123456789ABCDEFGHJKMNPQRSTVWXYZ"
  }

  function Power(w: nat): nat { if w == 0 then 1 else 32 * Power(w - 1) }

  /** The `w` lowest base-32 digits of `value`, highest first. */
  function Encode(value: int, w: nat): string
    decreases w
  {
    if w == 0 then "" else Encode(value / 32, w - 1) + [Crockford()[value % 32]]
  }

  /** The value of a digit of Crockford's alphabet, which leaves out I, L, O and U. */
  function Digit(c: char): int {
    if c <= '9' then c as int - '0' as int
    else if c <= 'H' then c as int - 'A' as int + 10
    else if c <= 'K' then c as int - 'J' as int + 18
    else if c <= 'N' then c as int - 'M' as int + 20
    else if c <= 'T' then c as int - 'P' as int + 22
    else c as int - 'V' as int + 27
  }

  function Decode(s: string): int {
    if s == "" then 0 else 32 * Decode(s[..|s| - 1]) + Digit(s[|s| - 1])
  }

  /** How strings compare, character code by character code. */
  predicate Before(s: string, t: string) {
    t != "" && (s == "" || s[0] < t[0] || (s[0] == t[0] && Before(s[1..], t[1..])))
  }

  predicate Spelled(s: string) { forall i :: 0 <= i < |s| ==> s[i] in Crockford() }

  function Reversed(s: string): string {
    if s == "" then "" else Reversed(s[1..]) + [s[0]]
  }

  lemma {:induction false} ReversedSnoc(s: string, c: char)
    ensures Reversed(s + [c]) == [c] + Reversed(s)
  {
    if s == "" {
      assert Reversed([c]) == Reversed([c][1..]) + [c];
    } else {
      assert (s + [c])[1..] == s[1..] + [c];
      ReversedSnoc(s[1..], c);
      assert [c] + Reversed(s[1..]) + [s[0]] == [c] + (Reversed(s[1..]) + [s[0]]);
    }
  }

  /** `_encode_base32`. Python's `divmod` by a positive number is the one used here. */
  method EncodeBase32(value: int, width: nat) returns (r: string)
    ensures r == Encode(value, width)
  {
    var rest, chars := value, "";
    for i := 0 to width
      invariant Encode(value, width) == Encode(rest, width - i) + Reversed(chars)
    {
      ReversedSnoc(chars, Crockford()[rest % 32]);
      var remainder := rest % 32;
      rest := rest / 32;
      chars := chars + [Crockford()[remainder]];
    }
    r := "";
    ghost var all := chars;
    while chars != ""
      invariant Reversed(all) == Reversed(chars) + r
      decreases |chars|
    {
      r := [chars[0]] + r;
      chars := chars[1..];
    }
  }

  /** The character code of a digit. */
  function Code(d: int): int {
    if d < 10 then d + 48 else if d < 18 then d + 55 else if d < 20 then d + 56
    else if d < 22 then d + 57 else if d < 27 then d + 58 else d + 59
  }

  lemma DigitOf(d: nat)
    requires d < 32
    ensures Digit(Crockford()[d]) == d && Crockford()[d] as int == Code(d)
  {
  }

  lemma DigitSpelled(c: char)
    requires c in Crockford()
    ensures 0 <= Digit(c) < 32 && c as int == Code(Digit(c))
  {
    hide Crockford, Digit;
    var d :| 0 <= d < 32 && Crockford()[d] == c;
    DigitOf(d);
  }

  /** The alphabet is in the order of its digits. */
  lemma DigitOrder(c: char, d: char)
    requires c in Crockford() && d in Crockford()
    ensures 0 <= Digit(c) < 32 && 0 <= Digit(d) < 32
    ensures c < d <==> Digit(c) < Digit(d)
    ensures c == d <==> Digit(c) == Digit(d)
  {
    hide Crockford, Digit;
    DigitSpelled(c);
    DigitSpelled(d);
  }

  lemma {:induction false} EncodeShape(value: int, w: nat)
    ensures |Encode(value, w)| == w && Spelled(Encode(value, w))
    decreases w
  {
    if w > 0 { EncodeShape(value / 32, w - 1); }
  }

  lemma DivideOut(value: int, p: nat)
    requires p > 0
    ensures 32 * (value / 32 % p) + value % 32 == value % (32 * p)
  {
    var q, r := value / 32, value % 32;
    var hi, lo := q / p, q % p;
    assert value == 32 * (hi * p + lo) + r == (32 * p) * hi + (32 * lo + r);
    Remainder(value, 32 * p, hi, 32 * lo + r);
  }

  lemma Remainder(v: int, d: nat, q: int, r: nat)
    requires d > 0 && r < d && v == d * q + r
    ensures v % d == r
  {
    AtLeastOne(d, v / d - q);
    assert d * (v / d - q) == r - v % d;
  }

  lemma AtLeastOne(d: nat, k: int)
    ensures k >= 1 ==> d * k >= d
    ensures k <= -1 ==> d * k + d <= 0
  {
    assert k >= 1 ==> d * (k - 1) >= 0;
    assert k <= -1 ==> d * (-k - 1) >= 0;
  }

  lemma {:induction false} PowerPositive(w: nat)
    ensures Power(w) > 0
  {
    if w > 0 { PowerPositive(w - 1); }
  }

  /** Reading an encoded number back gives it modulo what the width can hold, whatever its sign. */
  lemma {:induction false} DecodeEncode(value: int, w: nat)
    ensures Power(w) > 0 && Decode(Encode(value, w)) == value % Power(w)
    decreases w
  {
    hide Crockford, Digit;
    PowerPositive(w);
    if w > 0 {
      DecodeEncode(value / 32, w - 1);
      PowerPositive(w - 1);
      DigitOf(value % 32);
      DecodeSnoc(Encode(value / 32, w - 1), Crockford()[value % 32]);
      DivideOut(value, Power(w - 1));
    }
  }

  lemma DecodeSnoc(s: string, c: char)
    ensures Decode(s + [c]) == 32 * Decode(s) + Digit(c)
  {
    hide Digit;
    assert (s + [c])[..|s|] == s;
  }

  lemma {:induction false} DecodeRange(s: string)
    requires Spelled(s)
    ensures 0 <= Decode(s) < Power(|s|)
  {
    if s != "" {
      DecodeRange(s[..|s| - 1]);
      DigitSpelled(s[|s| - 1]);
    }
  }

  /** Comparing two strings of one length, the last characters decide only a tie. */
  lemma {:induction false} BeforeSnoc(s: string, t: string, c: char, d: char)
    requires |s| == |t|
    ensures Before(s + [c], t + [d]) <==> Before(s, t) || (s == t && c < d)
  {
    if s != "" {
      assert (s + [c])[1..] == s[1..] + [c] && (t + [d])[1..] == t[1..] + [d];
      BeforeSnoc(s[1..], t[1..], c, d);
      assert s == [s[0]] + s[1..] && t == [t[0]] + t[1..];
    }
  }

  lemma {:induction false} BeforeStrict(s: string)
    ensures !Before(s, s)
  {
    if s != "" { BeforeStrict(s[1..]); }
  }

  /** Numerals of one width sort as strings exactly as they sort as numbers. */
  lemma {:induction false} NumeralOrder(s: string, t: string)
    requires |s| == |t| && Spelled(s) && Spelled(t)
    ensures Before(s, t) <==> Decode(s) < Decode(t)
    ensures s == t <==> Decode(s) == Decode(t)
  {
    hide Crockford, Digit, Before;
    if s == "" {
      BeforeStrict(s);
    } else {
      var n := |s| - 1;
      assert s == s[..n] + [s[n]] && t == t[..n] + [t[n]];
      BeforeSnoc(s[..n], t[..n], s[n], t[n]);
      NumeralOrder(s[..n], t[..n]);
      DigitOrder(s[n], t[n]);
    }
  }

  /** For every width and every two numbers: the encodings sort as the numbers do modulo what the
      width can hold, so for numbers that fit, string order is numeric order and ties are equality. */
  lemma EncodingOrder(a: int, b: int, w: nat)
    ensures Power(w) > 0
    ensures Before(Encode(a, w), Encode(b, w)) <==> a % Power(w) < b % Power(w)
    ensures Encode(a, w) == Encode(b, w) <==> a % Power(w) == b % Power(w)
    ensures 0 <= a < Power(w) && 0 <= b < Power(w) ==> (Before(Encode(a, w), Encode(b, w)) <==> a < b)
  {
    hide Encode, Decode, Before, Power, Spelled, Crockford, Digit;
    PowerPositive(w);
    EncodeShape(a, w);
    EncodeShape(b, w);
    DecodeEncode(a, w);
    DecodeEncode(b, w);
    NumeralOrder(Encode(a, w), Encode(b, w));
  }

  /** `new_id`, given the clock reading and the random choices; the source's time part is ten wide. */
  function NewId(prefix: string, millis: int, width: nat, tail: string): string {
    prefix + "_" + Encode(millis, width) + tail
  }

  lemma {:induction false} BeforePrefix(p: string, s: string, t: string)
    ensures Before(p + s, p + t) <==> Before(s, t)
  {
    if p == "" {
      assert p + s == s && p + t == t;
    } else {
      assert (p + s)[1..] == p[1..] + s && (p + t)[1..] == p[1..] + t;
      BeforePrefix(p[1..], s, t);
    }
  }

  lemma {:induction false} BeforeHead(s: string, t: string, x: string, y: string)
    requires |s| == |t|
    ensures Before(s + x, t + y) <==> Before(s, t) || (s == t && Before(x, y))
  {
    if s == "" {
      assert s + x == x && t + y == y;
    } else {
      assert (s + x)[1..] == s[1..] + x && (t + y)[1..] == t[1..] + y;
      BeforeHead(s[1..], t[1..], x, y);
      assert s == [s[0]] + s[1..] && t == [t[0]] + t[1..];
    }
  }

  /** Ids of one kind sort by the millisecond they were made in, and only within one millisecond by
      their random tails, as long as the clock fits the width. */
  lemma {:induction false} IdsSortByTime(prefix: string, width: nat, early: int, late: int, x: string, y: string)
    requires 0 <= early < Power(width) && 0 <= late < Power(width)
    ensures Before(NewId(prefix, early, width, x), NewId(prefix, late, width, y))
            <==> early < late || (early == late && Before(x, y))
  {
    hide Encode, Before, Power, Spelled;
    var s, t := Encode(early, width), Encode(late, width);
    EncodeShape(early, width);
    EncodeShape(late, width);
    EncodingOrder(early, late, width);
    BeforeHead(s, t, x, y);
    BeforePrefix(prefix + "_", s + x, t + y);
    assert NewId(prefix, early, width, x) == prefix + "_" + (s + x);
    assert NewId(prefix, late, width, y) == prefix + "_" + (t + y);
  }
}
