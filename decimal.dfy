/**
 * Decimal rendering of counts, as a template literal interpolates a non-negative integer,
 * and the facts about numerals and other pieces embedded in a text.
 */
module Decimal {

  predicate IsDigit(ch: char)
  {
    '0' <= ch <= '9'
  }

  /** The digit character for a value below ten. */
  function DigitChar(d: nat): (ch: char)
    requires d < 10
    ensures IsDigit(ch) && ch as int - '0' as int == d
  {
    ('0' as int + d) as char
  }

  /** Shortest decimal numeral of `n`, most significant digit first. */
  function NatToString(n: nat): (s: string)
    ensures |s| > 0
    ensures forall i :: 0 <= i < |s| ==> IsDigit(s[i])
    ensures s[|s| - 1] == DigitChar(n % 10)
    ensures (n < 10) == (|s| == 1)
  {
    if n < 10 then [DigitChar(n)] else NatToString(n / 10) + [DigitChar(n % 10)]
  }

  /** The number a string of digits denotes, read most significant digit first. */
  function Value(s: string): int
  {
    if s == [] then 0 else 10 * Value(s[..|s| - 1]) + (s[|s| - 1] as int - '0' as int)
  }

  /** The numeral denotes the count, and only a single digit may be a zero. */
  lemma {:induction false} ValueOfNatToString(n: nat)
    ensures Value(NatToString(n)) == n
    ensures |NatToString(n)| > 1 ==> NatToString(n)[0] != '0'
  {
    if n >= 10 {
      var s, front := NatToString(n), NatToString(n / 10);
      assert s[..|s| - 1] == front;
      ValueOfNatToString(n / 10);
      assert s[0] == front[0];
      if |front| == 1 {
        assert front[0] == DigitChar(n / 10);
      }
    }
  }

  /** Distinct counts render as distinct numerals. */
  lemma {:induction false} NatToStringInjective(n: nat, m: nat)
    requires NatToString(n) == NatToString(m)
    ensures n == m
  {
    var s, t := NatToString(n), NatToString(m);
    assert DigitChar(n % 10) == DigitChar(m % 10);
    if n >= 10 && m >= 10 {
      assert s[..|s| - 1] == NatToString(n / 10);
      assert t[..|t| - 1] == NatToString(m / 10);
      NatToStringInjective(n / 10, m / 10);
    }
  }

  /**
   * A numeral sandwiched between a fixed prefix and a fixed suffix can be read back:
   * equal messages carry equal numerals.
   */
  lemma EmbeddedNumeral(prefix: string, n: nat, m: nat, suffix: string)
    requires prefix + NatToString(n) + suffix == prefix + NatToString(m) + suffix
    ensures n == m
  {
    var a, b := prefix + NatToString(n) + suffix, prefix + NatToString(m) + suffix;
    assert |NatToString(n)| == |NatToString(m)|;
    assert NatToString(n) == a[|prefix|..|prefix| + |NatToString(n)|];
    assert NatToString(m) == b[|prefix|..|prefix| + |NatToString(m)|];
    NatToStringInjective(n, m);
  }

  /** `t` occurs in `s` as a contiguous piece. */
  ghost predicate Contains(s: string, t: string)
  {
    exists i :: 0 <= i <= |s| && t <= s[i..]
  }

  /** A piece of `s` is a piece of anything ending in `s`. */
  lemma ContainsAfterPrefix(prefix: string, s: string, t: string)
    requires Contains(s, t)
    ensures Contains(prefix + s, t)
  {
    var i :| 0 <= i <= |s| && t <= s[i..];
    assert (prefix + s)[|prefix| + i..] == s[i..];
  }

  /** `head + piece + tail` is `head + tail` with `piece` inserted after `head`, and contains `piece`. */
  lemma InsertedPiece(head: string, piece: string, tail: string)
    ensures var base := head + [] + tail;
            |head| <= |base| && head + piece + tail == base[..|head|] + piece + base[|head|..]
    ensures Contains(head + piece + tail, piece)
  {
    var base := head + [] + tail;
    assert base[..|head|] == head && base[|head|..] == tail;
    assert piece <= (head + piece + tail)[|head|..];
  }
}
