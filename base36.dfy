/** Message ids of the newer C++ core (src/umq/peer.cpp): 32-bit unsigned
    numbers written in base 36 with the digits 0-9 and A-Z, most
    significant first, and nothing at all for 0. */
module Base36 {
  import opened Common

  /** 2^32: `Peer::ID` is `std::uint32_t`. */
  const Modulus: nat := 0x1_0000_0000

  type ID = x: nat | x < Modulus

  predicate IsBase36Char(c: char) { '0' <= c <= '9' || 'A' <= c <= 'Z' }

  predicate AllBase36(s: string) { forall i | 0 <= i < |s| :: IsBase36Char(s[i]) }

  /** Value of one digit: '0'..'9' are 0..9, 'A'..'Z' are 10..35. */
  function ValueOf(c: char): nat
    requires IsBase36Char(c)
  {
    if c <= '9' then c as int - 48 else c as int - 55
  }

  /** The digit toBase36 writes for a remainder `d`. */
  function DigitOf(d: nat): (c: char)
    requires d < 36
    ensures IsBase36Char(c) && ValueOf(c) == d
  {
    if d < 10 then (48 + d) as char else (65 + (d - 10)) as char
  }

  /** The digits of `n`, most significant first; none for 0. */
  function Digits(n: nat): (s: string)
    ensures AllBase36(s)
    decreases n
  {
    if n == 0 then "" else Digits(n / 36) + [DigitOf(n % 36)]
  }

  /** The number a run of digits denotes, without any bound. */
  function Value(s: string): nat
    requires AllBase36(s)
  {
    if s == [] then 0 else Value(s[..|s| - 1]) * 36 + ValueOf(s[|s| - 1])
  }

  /** What fromBase36 yields: None for the InvalidIDFormat it throws on any
      character outside 0-9/A-Z, otherwise the value reduced mod 2^32. */
  function ParseId(s: string): Option<ID>
  {
    if AllBase36(s) then Some(Value(s) % Modulus) else None
  }

  function Reversed(s: string): (r: string)
    ensures |r| == |s|
  {
    if s == [] then [] else [s[|s| - 1]] + Reversed(s[..|s| - 1])
  }

  function Pow36(k: nat): nat
  {
    if k == 0 then 1 else 36 * Pow36(k - 1)
  }

  /** Fewer than k digits are needed below 36^k. */
  lemma {:induction false} DigitsLength(n: nat, k: nat)
    requires n < Pow36(k)
    ensures |Digits(n)| <= k
  {
    if n != 0 {
      assert k > 0;
      DigitsLength(n / 36, k - 1);
    }
  }

  /** Reading the digits of n back yields n. */
  lemma {:induction false} ValueOfDigits(n: nat)
    ensures Value(Digits(n)) == n
    decreases n
  {
    if n != 0 {
      var s := Digits(n);
      assert s[..|s| - 1] == Digits(n / 36);
      ValueOfDigits(n / 36);
    }
  }

  /** fromBase36(toBase36(id)) == id for every 32-bit id. */
  lemma Base36RoundTrip(id: ID)
    ensures ParseId(Digits(id)) == Some(id)
  {
    ValueOfDigits(id);
    ParseValue(Digits(id), id);
  }

  /** Digits denoting a number below 2^32 parse to that number. */
  lemma ParseValue(s: string, n: ID)
    requires AllBase36(s) && Value(s) == n
    ensures ParseId(s) == Some(n)
  {
  }

  /** toBase36 never writes a leading '0', and writes nothing only for 0. */
  lemma {:induction false} DigitsCanonical(n: nat)
    ensures Digits(n) == [] <==> n == 0
    ensures Digits(n) != [] ==> Digits(n)[0] != '0'
    decreases n
  {
    if n != 0 {
      if n / 36 == 0 {
        assert Digits(n) == [DigitOf(n % 36)];
        assert ValueOf(Digits(n)[0]) == n;
      } else {
        DigitsCanonical(n / 36);
        assert Digits(n)[0] == Digits(n / 36)[0];
      }
    }
  }

  /** Two ids with the same text are the same id. */
  lemma DigitsInjective(a: ID, b: ID)
    requires Digits(a) == Digits(b)
    ensures a == b
  {
    ValueOfDigits(a);
    ValueOfDigits(b);
  }

  /** The remainder of a wrapped accumulator step is that of the exact one. */
  lemma WrapStep(a: nat, v: nat)
    ensures ((a % Modulus) * 36 + v) % Modulus == (a * 36 + v) % Modulus
  {
    var q := a / Modulus;
    var r := a % Modulus;
    assert a * 36 + v == (r * 36 + v) + (q * 36) * Modulus;
    ModMultiple(r * 36 + v, q * 36);
  }

  lemma ModMultiple(x: nat, k: nat)
    ensures (x + k * Modulus) % Modulus == x % Modulus
  {
  }

  /** Peer::toBase36: remainders are written into a 50-character buffer,
      least significant first, then copied out backwards. */
  method ToBase36(id: ID) returns (out: string)
    ensures out == Digits(id)
  {
    var buff := new char[50];
    var c := PushDigits(buff, id);
    out := PopDigits(buff, c);
  }

  /** The first loop of toBase36: the remainders of `id`, least significant
      first, in the buffer's first `c` cells. */
  method PushDigits(buff: array<char>, id: ID) returns (c: nat)
    requires buff.Length == 50
    modifies buff
    ensures c <= 7 && Digits(id) == Reversed(buff[..c])
  {
    c := 0;
    var n: nat := id;
    IdDigits(id);
    while n != 0
      invariant 0 <= c <= 7 && c + |Digits(n)| == |Digits(id)|
      invariant Digits(id) == Digits(n) + Reversed(buff[..c])
      decreases n
    {
      var p := n % 36;
      PushStep(n, buff[..c]);
      ghost var pushed := buff[..c] + [DigitOf(p)];
      n := n / 36;
      buff[c] := DigitOf(p);
      c := c + 1;
      assert buff[..c] == pushed;
    }
  }

  /** Moving the last digit of `m` onto the reversed buffer. */
  lemma PushStep(m: nat, before: string)
    requires m != 0
    ensures Digits(m) + Reversed(before)
         == Digits(m / 36) + Reversed(before + [DigitOf(m % 36)])
  {
    var d := DigitOf(m % 36);
    assert (before + [d])[..|before|] == before;
    assert Reversed(before + [d]) == [d] + Reversed(before);
  }

  /** The second loop of toBase36: the first `c` cells, last one first. */
  method PopDigits(buff: array<char>, c: nat) returns (out: string)
    requires c <= buff.Length
    ensures out == Reversed(buff[..c])
  {
    out := "";
    var k := c;
    while k != 0
      invariant 0 <= k <= c
      invariant out + Reversed(buff[..k]) == Reversed(buff[..c])
    {
      assert buff[..k][..k - 1] == buff[..k - 1];
      k := k - 1;
      out := out + [buff[k]];
    }
  }

  /** A 32-bit id has at most seven base-36 digits. */
  lemma IdDigits(id: ID)
    ensures |Digits(id)| <= 7
  {
    assert Pow36(7) == 78364164096;
    DigitsLength(id, 7);
  }

  /** Peer::fromBase36: a 32-bit accumulator, multiplied by 36 and added
      to per character (wrapping), rejecting anything outside 0-9/A-Z. */
  method FromBase36(txt: string) returns (r: Option<ID>)
    ensures r.None? <==> !AllBase36(txt)
    ensures r.Some? ==> r.value == Value(txt) % Modulus
  {
    var accum: ID := 0;
    var i := 0;
    while i < |txt|
      invariant 0 <= i <= |txt|
      invariant AllBase36(txt[..i])
      invariant accum == Value(txt[..i]) % Modulus
    {
      var c := txt[i];
      var d;
      if '0' <= c <= '9' {
        d := c as int - 48;
      } else if 'A' <= c <= 'Z' {
        d := c as int - 65 + 10;
      } else {
        assert !IsBase36Char(txt[i]);
        return None;
      }
      assert txt[..i + 1][..i] == txt[..i];
      WrapStep(Value(txt[..i]), d);
      accum := (accum * 36 + d) % Modulus;
      i := i + 1;
    }
    assert txt[..i] == txt;
    r := Some(accum);
  }
}
