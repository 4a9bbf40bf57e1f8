/**
 * The ordinal keys "1", "2", ... that browse results use: `String.valueOf` of
 * an element counter that starts at 1 and is incremented once per message.
 */
module Ordinals {

  function Digit(d: nat): char
    requires d < 10
  {
    ('0' as int + d) as char
  }

  /** The decimal numeral of `n`, without sign or leading zeros. */
  function DecimalString(n: nat): (s: string)
    ensures 0 < |s|
    ensures forall i :: 0 <= i < |s| ==> '0' <= s[i] <= '9'
    ensures n >= 10 <==> |s| > 1
  {
    if n < 10 then [Digit(n)] else DecimalString(n / 10) + [Digit(n % 10)]
  }

  function DigitValue(c: char): nat
  {
    if '0' <= c <= '9' then c as int - '0' as int else 0
  }

  /** Reads a decimal numeral back. */
  function DecimalValue(s: string): nat
  {
    if s == [] then 0 else DecimalValue(s[..|s| - 1]) * 10 + DigitValue(s[|s| - 1])
  }

  /** Reading a numeral back gives the number it was printed from. */
  lemma {:induction false} DecimalRoundTrip(n: nat)
    ensures DecimalValue(DecimalString(n)) == n
  {
    var s := DecimalString(n);
    if n >= 10 {
      DecimalRoundTrip(n / 10);
      assert s[..|s| - 1] == DecimalString(n / 10);
    }
  }

  /** Distinct counters give distinct keys. */
  lemma DecimalInjective(m: nat, n: nat)
    requires DecimalString(m) == DecimalString(n)
    ensures m == n
  {
    DecimalRoundTrip(m);
    DecimalRoundTrip(n);
  }

  /** The map that keys the i-th body of `bodies` (counting from 1) by the numeral of i. */
  function Numbered(bodies: seq<string>): map<string, string>
  {
    if bodies == [] then map[]
    else Numbered(bodies[..|bodies| - 1])[DecimalString(|bodies|) := bodies[|bodies| - 1]]
  }

  /** Numbering one more body of a sequence adds the numeral of its position. */
  lemma NumberedSnoc(bodies: seq<string>, i: nat)
    requires i < |bodies|
    ensures Numbered(bodies[..i + 1]) == Numbered(bodies[..i])[DecimalString(i + 1) := bodies[i]]
  {
    assert bodies[..i + 1][..i] == bodies[..i];
  }

  /** The keys are exactly the numerals "1" to "n". */
  lemma {:induction false} NumberedKeys(bodies: seq<string>)
    ensures Numbered(bodies).Keys == set i | 1 <= i <= |bodies| :: DecimalString(i)
  {
    if bodies != [] {
      var n := |bodies|;
      NumberedKeys(bodies[..n - 1]);
      assert (set i | 1 <= i <= n :: DecimalString(i)) == (set i | 1 <= i <= n - 1 :: DecimalString(i)) + {DecimalString(n)};
    }
  }

  /** The numeral of `i + 1` is bound to the `i`-th body. */
  lemma {:induction false} NumberedValue(bodies: seq<string>, i: nat)
    requires i < |bodies|
    ensures DecimalString(i + 1) in Numbered(bodies)
    ensures Numbered(bodies)[DecimalString(i + 1)] == bodies[i]
  {
    var n := |bodies|;
    if i < n - 1 {
      NumberedValue(bodies[..n - 1], i);
      DecimalRoundTrip(i + 1);
      DecimalRoundTrip(n);
    }
  }

  /** One entry per body: no two positions share a key. */
  lemma {:induction false} NumberedSize(bodies: seq<string>)
    ensures |Numbered(bodies)| == |bodies|
  {
    if bodies != [] {
      var n := |bodies|;
      var m := Numbered(bodies[..n - 1]);
      NumberedSize(bodies[..n - 1]);
      NumberedKeys(bodies[..n - 1]);
      if DecimalString(n) in m.Keys {
        var i :| 1 <= i <= n - 1 && DecimalString(i) == DecimalString(n);
        DecimalInjective(i, n);
      }
    }
  }

  /** The first keys a browse hands out, as the numerals of 1, 2 and 10. */
  lemma FirstOrdinals()
    ensures DecimalString(1) == "1" && DecimalString(2) == "2" && DecimalString(10) == "10"
  {
  }
}
