/** The six-character token that travels to the venue as an order's `custom_field`
    and comes back on order events and trade rows. */
module Tokens {

  const TOKEN_LENGTH := 6
  const BASE := 62
  const HASH_LIMIT := 0x1_0000_0000_0000_0000

  /** The eight-byte digest of a client order id, read as a big-endian integer. */
  type Hash = h: int | 0 <= h < HASH_LIMIT

  /** The base-62 alphabet: digits, then lower case, then upper case. */
  function B62(d: nat): (c: char)
    requires d < BASE
  {
    if d < 10 then '0' + d as char
    else if d < 36 then 'a' + (d - 10) as char
    else 'A' + (d - 36) as char
  }

  /** The position of a character in the alphabet. */
  function B62Index(c: char): (d: nat)
  {
    if '0' <= c <= '9' then (c - '0') as int
    else if 'a' <= c <= 'z' then (c - 'a') as int + 10
    else if 'A' <= c <= 'Z' then (c - 'A') as int + 36
    else BASE
  }

  predicate IsTokenString(s: string) {
    |s| == TOKEN_LENGTH && forall i :: 0 <= i < |s| ==> B62Index(s[i]) < BASE
  }

  /** `h >> (6 * i)`, six bits at a time. */
  function Shifted(h: nat, i: nat): (r: nat) {
    if i == 0 then h else Shifted(h, i - 1) / 64
  }

  /** The six bits of `h` that start at bit `6 * i`. */
  function SixBits(h: nat, i: nat): (r: nat) {
    Shifted(h, i) % 64
  }

  function Digit(h: nat, i: nat): (d: nat)
    ensures d < BASE
  {
    Shifted(h, i) % BASE
  }

  function CoidToken(h: nat): (token: string)
    ensures |token| == TOKEN_LENGTH
  {
    seq(TOKEN_LENGTH, i requires 0 <= i < TOKEN_LENGTH => B62(Digit(h, i)))
  }

  lemma {:induction false} B62IsABijection(d: nat, c: char)
    requires d < BASE
    ensures B62Index(B62(d)) == d
    ensures B62Index(c) < BASE ==> B62(B62Index(c)) == c
  {
    if d < 10 {
    } else if d < 36 {
    } else {
    }
  }

  /** The alphabet runs from '0' to '9', then from 'a' to 'z', then from 'A' to 'Z'. */
  lemma AlphabetInOrder(d: nat)
    requires d < 62
    ensures B62(0) == '0' && B62(10) == 'a' && B62(36) == 'A' && B62(61) == 'Z'
    ensures d !in {9, 35, 61} ==> B62(d + 1) as int == B62(d) as int + 1
  {
  }

  lemma DividedTwice(h: nat, a: nat)
    requires a in {0x40, 0x1000, 0x4_0000, 0x100_0000}
    ensures h / a / 64 == h / (64 * a)
  {
  }

  /** The six shifts, by six bits each. */
  lemma ShiftsAreQuotients(h: nat)
    ensures Shifted(h, 0) == h && Shifted(h, 1) == h / 0x40 && Shifted(h, 2) == h / 0x1000
    ensures Shifted(h, 3) == h / 0x4_0000 && Shifted(h, 4) == h / 0x100_0000 && Shifted(h, 5) == h / 0x4000_0000
  {
    DividedTwice(h, 0x40);
    DividedTwice(h, 0x1000);
    DividedTwice(h, 0x4_0000);
    DividedTwice(h, 0x100_0000);
    assert Shifted(h, 1) == Shifted(h, 0) / 64;
    assert Shifted(h, 2) == Shifted(h, 1) / 64;
    assert Shifted(h, 3) == Shifted(h, 2) / 64;
    assert Shifted(h, 4) == Shifted(h, 3) / 64;
    assert Shifted(h, 5) == Shifted(h, 4) / 64;
  }

  /** The characters of a token are the alphabet's letters for the shifted hash modulo 62. */
  lemma TokenReads(h: nat)
    ensures |CoidToken(h)| == 6
    ensures CoidToken(h)[0] == B62(h % 62) && CoidToken(h)[1] == B62(h / 0x40 % 62)
    ensures CoidToken(h)[2] == B62(h / 0x1000 % 62) && CoidToken(h)[3] == B62(h / 0x4_0000 % 62)
    ensures CoidToken(h)[4] == B62(h / 0x100_0000 % 62) && CoidToken(h)[5] == B62(h / 0x4000_0000 % 62)
  {
    ShiftsAreQuotients(h);
  }

  lemma {:induction false} ShiftedStep(h: nat, i: nat)
    ensures Shifted(h, i + 1) == Shifted(h / 64, i)
    decreases i
  {
    if i != 0 {
      ShiftedStep(h, i - 1);
    }
  }

  /** Neighbouring digits are not independent: each is fixed by the next one and six bits. */
  lemma DigitsAreChained(h: nat, i: nat)
    ensures Digit(h, i) == (2 * Digit(h, i + 1) + SixBits(h, i)) % BASE
  {
    var s := Shifted(h, i);
    assert s == 64 * (s / 64) + s % 64;
    var q, r := (s / 64) / BASE, (s / 64) % BASE;
    assert s == BASE * (64 * q + r) + (2 * r + s % 64);
    SameRemainder(s, 2 * r + s % 64, 64 * q + r);
  }

  lemma SameRemainder(a: int, b: int, k: int)
    requires a == BASE * k + b
    ensures a % BASE == b % BASE
  {
    assert a == BASE * (k + b / BASE) + b % BASE;
  }

  /** A number whose base-64 shifts leave exactly the wanted digits. */
  function Preimage(digits: seq<nat>): (h: nat)
    requires digits != []
  {
    if |digits| == 1 then digits[0]
    else 64 * Preimage(digits[1..]) + (digits[0] - 2 * digits[1]) % BASE
  }

  lemma {:induction false} PreimageHasDigits(digits: seq<nat>, i: nat)
    requires i < |digits|
    requires forall k :: 0 <= k < |digits| ==> digits[k] < BASE
    ensures Digit(Preimage(digits), i) == digits[i]
    decreases |digits|
  {
    var h := Preimage(digits);
    if |digits| > 1 {
      var rest := Preimage(digits[1..]);
      var low := (digits[0] - 2 * digits[1]) % BASE;
      assert h == 64 * rest + low && h / 64 == rest && h % 64 == low;
      if i == 0 {
        PreimageHasDigits(digits[1..], 0);
        ShiftedStep(h, 0);
        DigitsAreChained(h, 0);
        var q := (digits[0] - 2 * digits[1]) / BASE;
        SameRemainder(2 * digits[1] + low, digits[0], -q);
      } else {
        PreimageHasDigits(digits[1..], i - 1);
        ShiftedStep(h, i - 1);
      }
    }
  }

  lemma {:induction false} PreimageIsSmall(digits: seq<nat>)
    requires 0 < |digits| <= TOKEN_LENGTH
    requires forall k :: 0 <= k < |digits| ==> digits[k] < BASE
    ensures |digits| == 1 ==> Preimage(digits) < 0x40
    ensures |digits| == 2 ==> Preimage(digits) < 0x1000
    ensures |digits| == 3 ==> Preimage(digits) < 0x4_0000
    ensures |digits| == 4 ==> Preimage(digits) < 0x100_0000
    ensures |digits| == 5 ==> Preimage(digits) < 0x4000_0000
    ensures |digits| == 6 ==> Preimage(digits) < 0x10_0000_0000
  {
    if |digits| > 1 {
      PreimageIsSmall(digits[1..]);
    }
  }

  /** The claimed address space is real: all 62^6 strings are tokens, already of 36-bit hashes. */
  lemma EveryTokenIsReached(s: string) returns (h: Hash)
    requires IsTokenString(s)
    ensures CoidToken(h) == s
    ensures h < 0x10_0000_0000
  {
    var digits: seq<nat> := seq(|s|, i requires 0 <= i < |s| => B62Index(s[i]));
    PreimageIsSmall(digits);
    h := Preimage(digits);
    forall i | 0 <= i < TOKEN_LENGTH
      ensures CoidToken(h)[i] == s[i]
    {
      PreimageHasDigits(digits, i);
      B62IsABijection(digits[i], s[i]);
    }
  }

  /** What the token keeps of a hash: the low thirty bits as six-bit groups and the rest, all modulo 62. */
  ghost predicate SameResidues(h1: nat, h2: nat) {
    && Shifted(h1, 5) % BASE == Shifted(h2, 5) % BASE
    && forall i :: 0 <= i < 5 ==> SixBits(h1, i) % BASE == SixBits(h2, i) % BASE
  }

  ghost predicate SameDigits(h1: nat, h2: nat) {
    forall i :: 0 <= i < TOKEN_LENGTH ==> Digit(h1, i) == Digit(h2, i)
  }

  /** Two hashes collide exactly when they have the same residues. */
  lemma TokensCollideExactly(h1: nat, h2: nat)
    ensures CoidToken(h1) == CoidToken(h2) <==> SameResidues(h1, h2)
  {
    SameTokenMeansSameDigits(h1, h2);
    if SameDigits(h1, h2) {
      forall i | 0 <= i < 5
        ensures SixBits(h1, i) % BASE == SixBits(h2, i) % BASE
      {
        SameDigitsMeansSameBits(h1, h2, i);
      }
      assert Digit(h1, 5) == Digit(h2, 5);
    }
    if SameResidues(h1, h2) {
      forall i | 0 <= i < TOKEN_LENGTH
        ensures Digit(h1, i) == Digit(h2, i)
      {
        EqualDigitsDown(h1, h2, i);
      }
    }
  }

  lemma SameTokenMeansSameDigits(h1: nat, h2: nat)
    ensures CoidToken(h1) == CoidToken(h2) <==> SameDigits(h1, h2)
  {
    if CoidToken(h1) == CoidToken(h2) {
      forall i | 0 <= i < TOKEN_LENGTH
        ensures Digit(h1, i) == Digit(h2, i)
      {
        assert CoidToken(h1)[i] == CoidToken(h2)[i];
        B62IsABijection(Digit(h1, i), '0');
        B62IsABijection(Digit(h2, i), '0');
      }
    }
  }

  lemma SameDigitsMeansSameBits(h1: nat, h2: nat, i: nat)
    requires Digit(h1, i) == Digit(h2, i) && Digit(h1, i + 1) == Digit(h2, i + 1)
    ensures SixBits(h1, i) % BASE == SixBits(h2, i) % BASE
  {
    DigitsAreChained(h1, i);
    DigitsAreChained(h2, i);
    CancelSummand(2 * Digit(h1, i + 1), SixBits(h1, i), SixBits(h2, i));
  }

  lemma CancelSummand(a: nat, x: nat, y: nat)
    ensures (a + x) % BASE == (a + y) % BASE <==> x % BASE == y % BASE
  {
    var d := (a + x) / BASE - (a + y) / BASE;
    if (a + x) % BASE == (a + y) % BASE {
      SameRemainder(x, y, d);
    }
    if x % BASE == y % BASE {
      SameRemainder(a + x, a + y, x / BASE - y / BASE);
    }
  }

  lemma {:induction false} EqualDigitsDown(h1: nat, h2: nat, i: nat)
    requires i < TOKEN_LENGTH
    requires SameResidues(h1, h2)
    ensures Digit(h1, i) == Digit(h2, i)
    decreases TOKEN_LENGTH - i
  {
    if i < 5 {
      EqualDigitsDown(h1, h2, i + 1);
      DigitsAreChained(h1, i);
      DigitsAreChained(h2, i);
      CancelSummand(2 * Digit(h1, i + 1), SixBits(h1, i), SixBits(h2, i));
    }
  }
}
