/**
 * `Ticket.generate_ticket_code`: `uuid.uuid4().hex[:12].upper()`. The random
 * UUID becomes a parameter; the code is its leading 12 hex digits, i.e. its
 * top 48 bits, written in upper case.
 */
module TicketCodes {

  function Pow16(k: nat): (p: nat)
    ensures p >= 1
  {
    if k == 0 then 1 else 16 * Pow16(k - 1)
  }

  /** A UUID as its 128-bit integer value (`uuid.UUID.int`). */
  type Uuid = n: nat | n < Pow16(32)

  /** A lower-case hex digit, as `uuid.hex` writes it. */
  predicate IsLowerHexDigit(c: char)
  {
    '0' <= c <= '9' || 'a' <= c <= 'f'
  }

  /** An upper-case hex digit, as a ticket code holds it. */
  predicate IsUpperHexDigit(c: char)
  {
    '0' <= c <= '9' || 'A' <= c <= 'F'
  }

  /** The lower-case hex digit of value `d`. */
  function Digit(d: nat): (c: char)
    requires d < 16
    ensures IsLowerHexDigit(c)
  {
    if d < 10 then ('0' as int + d) as char else ('a' as int + d - 10) as char
  }

  /** The value of a hex digit of either case. */
  function DigitValue(c: char): (d: nat)
    requires IsLowerHexDigit(c) || IsUpperHexDigit(c)
    ensures d < 16
  {
    if '0' <= c <= '9' then c as int - '0' as int
    else if 'a' <= c <= 'f' then c as int - 'a' as int + 10
    else c as int - 'A' as int + 10
  }

  /** The last `width` hex digits of `n`, most significant first, zero-padded (`'%0{width}x' % n` when `n` fits). */
  function HexDigits(n: nat, width: nat): (s: string)
    ensures |s| == width
    ensures forall i :: 0 <= i < width ==> IsLowerHexDigit(s[i])
  {
    if width == 0 then "" else HexDigits(n / 16, width - 1) + [Digit(n % 16)]
  }

  /** `uuid.hex`: the 32 lower-case hex digits of a UUID. */
  function Hex(u: Uuid): (s: string)
  {
    HexDigits(u, 32)
  }

  /** `str.upper()` on the ASCII letters; the only letters it ever meets here are `a`..`f`. */
  function AsciiUpper(c: char): (r: char)
    ensures IsLowerHexDigit(c) ==> IsUpperHexDigit(r) && DigitValue(r) == DigitValue(c)
  {
    if 'a' <= c <= 'z' then (c as int - 32) as char else c
  }

  /** `str.upper()`: lower-case hex digits become upper-case hex digits of the same value, position by position. */
  function Upper(s: string): (r: string)
    ensures |r| == |s|
    ensures forall i :: 0 <= i < |s| && IsLowerHexDigit(s[i]) ==>
      IsUpperHexDigit(r[i]) && DigitValue(r[i]) == DigitValue(s[i])
  {
    seq(|s|, i requires 0 <= i < |s| => AsciiUpper(s[i]))
  }

  /** A well-formed ticket code: 12 upper-case hex digits (the column is `max_length=12`). */
  predicate IsTicketCode(s: string)
  {
    |s| == 12 && forall i :: 0 <= i < |s| ==> IsUpperHexDigit(s[i])
  }

  /** `uuid.uuid4().hex[:12].upper()` for the UUID `u`. */
  function GenerateTicketCode(u: Uuid): (code: string)
    ensures IsTicketCode(code)
  {
    Upper(Hex(u)[..12])
  }

  /** The value of a string of hex digits, most significant first. */
  function ParseHex(s: string): nat
    requires forall i :: 0 <= i < |s| ==> IsLowerHexDigit(s[i]) || IsUpperHexDigit(s[i])
  {
    if s == "" then 0 else 16 * ParseHex(s[..|s| - 1]) + DigitValue(s[|s| - 1])
  }

  lemma PowAdd(a: nat, b: nat)
    ensures Pow16(a + b) == Pow16(a) * Pow16(b)
  {
    if b > 0 {
      PowAdd(a, b - 1);
    }
  }

  /** Dividing by 16 and then by 16^b is dividing by 16^(b+1). */
  lemma DivDiv(n: nat, b: nat)
    ensures n / 16 / Pow16(b) == n / Pow16(b + 1)
  {
    var p := Pow16(b);
    var q1, r1 := n / 16, n % 16;
    var q2, r2 := q1 / p, q1 % p;
    assert n == q2 * (16 * p) + (16 * r2 + r1);
    assert 0 <= 16 * r2 + r1 < 16 * p;
    DivUnique(n, 16 * p, q2, 16 * r2 + r1);
  }

  lemma {:induction false} MulMono(a: nat, b: nat, d: nat)
    requires a <= b
    ensures a * d <= b * d
  {
    if d > 0 {
      MulMono(a, b, d - 1);
      assert a * d == a * (d - 1) + a;
      assert b * d == b * (d - 1) + b;
    }
  }

  /** Euclidean division has a unique quotient. */
  lemma DivUnique(n: nat, d: nat, q: nat, r: nat)
    requires d > 0 && n == q * d + r && r < d
    ensures n / d == q
  {
    var q', r' := n / d, n % d;
    assert n == q' * d + r' && 0 <= r' < d;
    if q' > q {
      MulMono(q + 1, q', d);
      assert false;
    } else if q' < q {
      MulMono(q' + 1, q, d);
      assert false;
    }
  }

  /** The first `a` of `a + b` digits of `n` are the `a` digits of `n / 16^b`. */
  lemma {:induction false} HexDigitsPrefix(n: nat, a: nat, b: nat)
    ensures HexDigits(n, a + b)[..a] == HexDigits(n / Pow16(b), a)
  {
    if b > 0 {
      var s := HexDigits(n / 16, a + b - 1);
      assert HexDigits(n, a + b) == s + [Digit(n % 16)];
      assert HexDigits(n, a + b)[..a] == s[..a];
      HexDigitsPrefix(n / 16, a, b - 1);
      DivDiv(n, b - 1);
    }
  }

  /** Reading back the digits of a number that fits in `w` digits gives the number. */
  lemma {:induction false} ParseHexDigits(m: nat, w: nat)
    requires m < Pow16(w)
    ensures ParseHex(HexDigits(m, w)) == m
  {
    if w > 0 {
      var s := HexDigits(m, w);
      assert s[..|s| - 1] == HexDigits(m / 16, w - 1);
      ParseHexDigits(m / 16, w - 1);
      assert DigitValue(Digit(m % 16)) == m % 16;
    }
  }

  /** Upper-casing hex digits does not change their value. */
  lemma {:induction false} ParseHexUpper(s: string)
    requires forall i :: 0 <= i < |s| ==> IsLowerHexDigit(s[i])
    ensures ParseHex(Upper(s)) == ParseHex(s)
  {
    if s != "" {
      assert Upper(s)[..|s| - 1] == Upper(s[..|s| - 1]);
      ParseHexUpper(s[..|s| - 1]);
    }
  }

  /** A ticket code spells out the top 48 bits of the UUID it came from. */
  lemma CodeIsTopBits(u: Uuid)
    ensures u / Pow16(20) < Pow16(12)
    ensures ParseHex(GenerateTicketCode(u)) == u / Pow16(20)
  {
    var p, top := Pow16(20), u / Pow16(20);
    TopFits(u);
    HexDigitsPrefix(u, 12, 20);
    assert Hex(u)[..12] == HexDigits(top, 12);
    ParseHexDigits(top, 12);
    ParseHexUpper(HexDigits(top, 12));
  }

  lemma TopFits(u: Uuid)
    ensures u / Pow16(20) < Pow16(12)
  {
    PowAdd(12, 20);
    QuotientBound(u, Pow16(20), Pow16(12));
  }

  lemma QuotientBound(n: nat, d: nat, m: nat)
    requires d > 0 && n < m * d
    ensures n / d < m
  {
    assert n == (n / d) * d + n % d;
    if n / d >= m {
      MulMono(m, n / d, d);
      assert false;
    }
  }

  /** Two UUIDs give the same ticket code exactly when their top 48 bits agree; the rest of the UUID is thrown away. */
  lemma CodesCollideIff(u1: Uuid, u2: Uuid)
    ensures GenerateTicketCode(u1) == GenerateTicketCode(u2) <==> u1 / Pow16(20) == u2 / Pow16(20)
  {
    CodeIsTopBits(u1);
    CodeIsTopBits(u2);
    if u1 / Pow16(20) == u2 / Pow16(20) {
      HexDigitsPrefix(u1, 12, 20);
      HexDigitsPrefix(u2, 12, 20);
    }
  }
}
