/**
  new_request_id (safety.py): ten base-32 digits of a millisecond clock, then sixteen random ones.
  The clock and the random number are parameters.
*/
module RequestIds {

  const ALPHABET := "0123456789ABCDEFGHJKMNPQRSTVWXYZ"
  const TIME_DIGITS: nat := 10
  const RANDOM_DIGITS: nat := 16
  // 32 to the power TIME_DIGITS, 2^50.
  const TIME_RANGE: nat := 0x4_0000_0000_0000

  // 80 bits.
  const RANDOM_RANGE: nat := 0x1_0000_0000_0000_0000_0000

  // The last n base-32 digits of t, most significant first.
  function Digits(t: nat, n: nat): (s: string)
    ensures |s| == n
    ensures forall k :: 0 <= k < n ==> s[k] in ALPHABET
  {
    if n == 0 then "" else Digits(t / 32, n - 1) + [ALPHABET[t % 32]]
  }

  function Power32(n: nat): (p: nat)
    ensures p > 0
  {
    if n == 0 then 1 else 32 * Power32(n - 1)
  }

  // String order: at the first difference the smaller character, a proper prefix first.
  predicate Less(a: string, b: string) {
    if a == [] then b != []
    else b != [] && (a[0] < b[0] || (a[0] == b[0] && Less(a[1..], b[1..])))
  }

  method DigitLoop(value: nat, rounds: nat) returns (part: string)
    ensures part == Digits(value, rounds)
  {
    part := "";
    var t := value;
    for i := 0 to rounds
      invariant Digits(value, rounds) == Digits(t, rounds - i) + part
    {
      part := [ALPHABET[t % 32]] + part;
      t := t / 32;
    }
  }

  function RequestId(ms: nat, random: nat): (id: string)
    ensures |id| == 26 && forall k :: 0 <= k < 26 ==> id[k] in ALPHABET
  {
    Digits(ms, TIME_DIGITS) + Digits(random % RANDOM_RANGE, RANDOM_DIGITS)
  }

  // The two loops; random is the 128-bit number a uuid gives, of which 80 bits are kept.
  method NewRequestId(ms: nat, random: nat) returns (id: string)
    ensures id == RequestId(ms, random)
  {
    var timePart := DigitLoop(ms, TIME_DIGITS);
    var randomPart := DigitLoop(random % RANDOM_RANGE, RANDOM_DIGITS);
    id := timePart + randomPart;
  }

  // ---------------------------------------------------------------------------
  // The order of ids.
  // ---------------------------------------------------------------------------

  lemma AlphabetInOrder(i: nat, j: nat)
    requires i < 32 && j < 32
    ensures i < j <==> ALPHABET[i] < ALPHABET[j]
  {
  }

  lemma {:induction false} LessIrreflexive(a: string)
    ensures !Less(a, a)
    decreases |a|
  {
    if a == [] {
    } else {
      LessIrreflexive(a[1..]);
    }
  }

  // Strings of one length compare by their first parts, or by their last parts where those agree.
  lemma {:induction false} LessAppend(a: string, b: string, c: string, d: string)
    requires |a| == |b|
    ensures Less(a + c, b + d) <==> Less(a, b) || (a == b && Less(c, d))
    decreases |a|
  {
    if a == [] {
      assert a + c == c && b + d == d;
    } else {
      LessAppend(a[1..], b[1..], c, d);
      assert (a + c)[1..] == a[1..] + c && (b + d)[1..] == b[1..] + d;
      if a[0] == b[0] {
        assert a == [a[0]] + a[1..] && b == [b[0]] + b[1..];
      }
    }
  }

  lemma LessOne(c: char, d: char)
    ensures Less([c], [d]) <==> c < d
  {
  }

  lemma {:induction false} MultiplesApart(m: nat, a: nat, b: nat)
    ensures a > b ==> m * a >= m * b + m
    decreases a
  {
    if a > b {
      assert m * a == m * (a - 1) + m;
      MultiplesApart(m, a - 1, b);
    }
  }

  lemma RemainderIs(t: nat, m: nat, q: nat, r: nat)
    requires r < m && t == m * q + r
    ensures t % m == r
  {
    var k, s := t / m, t % m;
    assert t == m * k + s;
    MultiplesApart(m, k, q);
    MultiplesApart(m, q, k);
  }

  lemma SplitLastDigit(t: nat, p: nat)
    requires p > 0
    ensures t % (32 * p) == 32 * ((t / 32) % p) + t % 32
  {
    var q, r := (t / 32) / p, (t / 32) % p;
    assert t / 32 == p * q + r;
    assert t == (32 * p) * q + (32 * r + t % 32) by {
      assert t == 32 * (t / 32) + t % 32;
      assert 32 * (p * q) == (32 * p) * q;
    }
    assert 0 <= 32 * r + t % 32 < 32 * p;
    RemainderIs(t, 32 * p, q, 32 * r + t % 32);
  }

  // Digit strings are ordered, and equal, as the numbers are modulo the range of the digits.
  lemma {:induction false} DigitsOrder(t: nat, u: nat, n: nat)
    ensures Less(Digits(t, n), Digits(u, n)) <==> t % Power32(n) < u % Power32(n)
    ensures Digits(t, n) == Digits(u, n) <==> t % Power32(n) == u % Power32(n)
    decreases n
  {
    if n > 0 {
      DigitsOrder(t / 32, u / 32, n - 1);
      AlphabetInOrder(t % 32, u % 32);
      AlphabetInOrder(u % 32, t % 32);
      LessAppend(Digits(t / 32, n - 1), Digits(u / 32, n - 1), [ALPHABET[t % 32]], [ALPHABET[u % 32]]);
      LessOne(ALPHABET[t % 32], ALPHABET[u % 32]);
      SplitLastDigit(t, Power32(n - 1));
      SplitLastDigit(u, Power32(n - 1));
      assert Digits(t, n)[..n - 1] == Digits(t / 32, n - 1);
      assert Digits(u, n)[..n - 1] == Digits(u / 32, n - 1);
      assert Digits(t, n)[n - 1] == ALPHABET[t % 32];
      assert Digits(u, n)[n - 1] == ALPHABET[u % 32];
    }
  }

  lemma SmallRemainder(t: nat, m: nat)
    requires t < m
    ensures t % m == t
  {
    RemainderIs(t, m, 0, t);
  }

  lemma DigitsOrderBelow(t: nat, u: nat, n: nat)
    requires t < Power32(n) && u < Power32(n)
    ensures Less(Digits(t, n), Digits(u, n)) <==> t < u
    ensures Digits(t, n) == Digits(u, n) <==> t == u
  {
    DigitsOrder(t, u, n);
    SmallRemainder(t, Power32(n));
    SmallRemainder(u, Power32(n));
  }

  // Ids of any shape are ordered by the pair of their numbers.
  lemma PairOrder(t: nat, x: nat, u: nat, y: nat, n: nat, m: nat)
    requires t < Power32(n) && u < Power32(n) && x < Power32(m) && y < Power32(m)
    ensures Less(Digits(t, n) + Digits(x, m), Digits(u, n) + Digits(y, m)) <==> t < u || (t == u && x < y)
    ensures Digits(t, n) + Digits(x, m) == Digits(u, n) + Digits(y, m) <==> t == u && x == y
  {
    DigitsOrderBelow(t, u, n);
    DigitsOrderBelow(x, y, m);
    var a, b, c, d := Digits(t, n), Digits(u, n), Digits(x, m), Digits(y, m);
    LessAppend(a, b, c, d);
    assert (a + c)[..n] == a && (b + d)[..n] == b && (a + c)[n..] == c && (b + d)[n..] == d;
  }

  lemma DigitsWrap(t: nat, n: nat)
    ensures Digits(t, n) == Digits(t % Power32(n), n)
  {
    var p := Power32(n);
    DigitsOrder(t, t % p, n);
    SmallRemainder(t % p, p);
  }

  lemma TimeRange()
    ensures Power32(TIME_DIGITS) == TIME_RANGE
  {
    assert Power32(0) == 1;
    assert Power32(2) == 32 * Power32(1) == 1024;
    assert Power32(4) == 32 * Power32(3) == 0x10_0000;
    assert Power32(6) == 32 * Power32(5) == 0x4000_0000;
    assert Power32(8) == 32 * Power32(7) == 0x100_0000_0000;
    assert Power32(10) == 32 * Power32(9);
  }

  lemma RandomRange()
    ensures Power32(RANDOM_DIGITS) == RANDOM_RANGE
  {
    TimeRange();
    assert Power32(12) == 32 * Power32(11) == 1024 * Power32(10);
    assert Power32(14) == 32 * Power32(13) == 1024 * Power32(12);
    assert Power32(16) == 32 * Power32(15) == 1024 * Power32(14);
  }

  // For clocks below 2^50 ms the time part is injective and ordered as time is.
  lemma TimePartOrder(ms: nat, later: nat)
    requires ms < TIME_RANGE && later < TIME_RANGE
    ensures Less(Digits(ms, TIME_DIGITS), Digits(later, TIME_DIGITS)) <==> ms < later
    ensures Digits(ms, TIME_DIGITS) == Digits(later, TIME_DIGITS) <==> ms == later
  {
    TimeRange();
    DigitsOrderBelow(ms, later, TIME_DIGITS);
  }

  // An id made in a later millisecond sorts strictly after, whatever the random parts are; within
  // one millisecond ids sort by, and coincide exactly with, their 80 random bits.
  lemma LaterIdSortsAfter(ms: nat, random: nat, later: nat, random': nat)
    requires ms < TIME_RANGE && later < TIME_RANGE
    ensures Less(RequestId(ms, random), RequestId(later, random')) <==>
            ms < later || (ms == later && random % RANDOM_RANGE < random' % RANDOM_RANGE)
    ensures RequestId(ms, random) == RequestId(later, random') <==>
            ms == later && random % RANDOM_RANGE == random' % RANDOM_RANGE
  {
    TimeRange();
    RandomRange();
    PairOrder(ms, random % RANDOM_RANGE, later, random' % RANDOM_RANGE, TIME_DIGITS, RANDOM_DIGITS);
  }

  // Past 2^50 ms the time part starts again from zero, so the order ends there.
  lemma TimePartWraps(ms: nat)
    ensures Digits(ms, TIME_DIGITS) == Digits(ms % TIME_RANGE, TIME_DIGITS)
  {
    TimeRange();
    DigitsWrap(ms, TIME_DIGITS);
  }
}
