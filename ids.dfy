/** Identifier generation: `prefix ++ base36(timestamp) ++ base36(seq)`.
    The timestamp is the wall-clock reading the store takes on each call; here
    it is a parameter. */
module Ids {

  predicate IsBase36Digit(c: char) {
    ('0' <= c <= '9') || ('a' <= c <= 'z')
  }

  /** The base-36 digit for `d`, lower case as Number.prototype.toString(36) writes it. */
  function Digit(d: nat): (c: char)
    requires d < 36
    ensures IsBase36Digit(c)
    ensures (c as int) - (if d < 10 then '0' as int else 'a' as int - 10) == d
  {
    if d < 10 then (('0' as int) + d) as char else (('a' as int) + (d - 10)) as char
  }

  /** Base-36 rendering of a non-negative integer, most significant digit first,
      without leading zeros. */
  function Base36(n: nat): (s: string)
    ensures 1 <= |s|
    ensures forall i :: 0 <= i < |s| ==> IsBase36Digit(s[i])
    ensures n < 36 <==> |s| == 1
    decreases n
  {
    if n < 36 then [Digit(n)] else Base36(n / 36) + [Digit(n % 36)]
  }

  /** The id handed out for `prefix`, the clock reading `now` and counter value `counter`. */
  function Uid(prefix: string, now: nat, counter: nat): string {
    prefix + Base36(now) + Base36(counter)
  }

  lemma DigitInjective(a: nat, b: nat)
    requires a < 36 && b < 36 && Digit(a) == Digit(b)
    ensures a == b
  {
  }

  /** Distinct numbers have distinct base-36 renderings. */
  lemma {:induction false} Base36Injective(a: nat, b: nat)
    requires Base36(a) == Base36(b)
    ensures a == b
    decreases a
  {
    if a < 36 || b < 36 {
      assert a < 36 && b < 36;
      DigitInjective(a, b);
    } else {
      var sa, sb := Base36(a), Base36(b);
      assert sa[|sa| - 1] == Digit(a % 36) && sb[|sb| - 1] == Digit(b % 36);
      DigitInjective(a % 36, b % 36);
      assert Base36(a / 36) == sa[..|sa| - 1] == sb[..|sb| - 1] == Base36(b / 36);
      Base36Injective(a / 36, b / 36);
    }
  }

  /** A larger number never has a shorter rendering. */
  lemma {:induction false} Base36LengthMonotone(a: nat, b: nat)
    requires a <= b
    ensures |Base36(a)| <= |Base36(b)|
    decreases b
  {
    if a >= 36 {
      Base36LengthMonotone(a / 36, b / 36);
    }
  }

  /** With a clock that does not run backwards and a counter that strictly
      increases, two calls never produce the same id under one prefix, even
      though the timestamp and counter renderings are concatenated without a
      separator. */
  lemma UidsDistinct(prefix: string, t1: nat, s1: nat, t2: nat, s2: nat)
    requires t1 <= t2 && s1 < s2
    ensures Uid(prefix, t1, s1) != Uid(prefix, t2, s2)
  {
    var a, b, c, d := Base36(t1), Base36(s1), Base36(t2), Base36(s2);
    Base36LengthMonotone(t1, t2);
    Base36LengthMonotone(s1, s2);
    if Uid(prefix, t1, s1) == Uid(prefix, t2, s2) {
      var u := Uid(prefix, t1, s1);
      assert u == prefix + a + b == prefix + c + d;
      assert |a| == |c|;
      assert a == u[|prefix|..|prefix| + |a|] == c;
      assert b == u[|prefix| + |a|..] == d;
      Base36Injective(s1, s2);
      assert false;
    }
  }
}
