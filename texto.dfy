/** Bytes and the few Python text primitives the decoders rely on:
    `hex()` of a byte, `str()` of a natural number and slicing. */
module Texto {

  /** One octet of a captured frame (`ord()` of a character of `str(paquete)`). */
  type byte = b: int | 0 <= b < 256

  const HexChars: string := "0123456789abcdef"

  /** The lowercase hexadecimal digit for a nibble. */
  function DigitoHex(n: int): (c: char)
    requires 0 <= n < 16
  {
    HexChars[n]
  }

  /** The value of a lowercase hexadecimal digit. */
  function ValorHex(c: char): int {
    if '0' <= c <= '9' then c as int - '0' as int
    else if 'a' <= c <= 'f' then c as int - 'a' as int + 10
    else 0
  }

  /** The lowercase hexadecimal digit of a nibble reads back as that nibble. */
  lemma ValorDigitoHex(n: int)
    requires 0 <= n < 16
    ensures ValorHex(DigitoHex(n)) == n
    ensures EsHex(DigitoHex(n))
  {
    assert HexChars == ['0', '1', '2', '3', '4', '5', '6', '7', '8', '9', 'a', 'b', 'c', 'd', 'e', 'f'];
  }

  predicate EsHex(c: char) {
    '0' <= c <= '9' || 'a' <= c <= 'f'
  }

  /** Python's `hex(b)` for an octet: "0x" followed by the digits, no leading zero. */
  function PyHex(b: byte): (h: string)
    ensures |h| == 3 || |h| == 4
    ensures h[..2] == "0x"
    ensures |h| == 3 <==> b < 16
    ensures forall i | 2 <= i < |h| :: EsHex(h[i])
  {
    ValorDigitoHex(b % 16);
    ValorDigitoHex(b / 16);
    if b < 16 then "0x" + [DigitoHex(b)] else "0x" + [DigitoHex(b / 16), DigitoHex(b % 16)]
  }

  /** The digits after "0x" read back, high digit first, as the octet, and a
      two-digit text never starts with '0'. */
  lemma PyHexIdaVuelta(b: byte)
    ensures var h := PyHex(b);
      && (|h| == 3 ==> ValorHex(h[2]) == b)
      && (|h| == 4 ==> ValorHex(h[2]) * 16 + ValorHex(h[3]) == b && h[2] != '0')
  {
    ValorDigitoHex(b % 16);
    ValorDigitoHex(b / 16);
  }

  /** Python's `str(n)` for a natural number: its decimal digits. */
  function NatToString(n: nat): (s: string)
    ensures |s| > 0
  {
    if n < 10 then [DigitoDecimal(n)] else NatToString(n / 10) + [DigitoDecimal(n % 10)]
  }

  /** `str(n)` is made of decimal digits only, and it is a single digit exactly
      when n is below ten. */
  lemma {:induction false} NatToStringDigitos(n: nat)
    ensures forall i | 0 <= i < |NatToString(n)| :: '0' <= NatToString(n)[i] <= '9'
    ensures n < 10 <==> |NatToString(n)| == 1
  {
    if n >= 10 {
      NatToStringDigitos(n / 10);
    }
  }

  /** The number a text of decimal digits denotes, most significant digit first
      (`int(s)` on such a text). */
  function ValorDecimal(s: string): nat
    decreases |s|
  {
    if s == [] then 0
    else
      var c := s[|s| - 1];
      ValorDecimal(s[..|s| - 1]) * 10 + (if '0' <= c <= '9' then c as int - '0' as int else 0)
  }

  /** `str(n)` reads back as n, and it has no leading zero unless n is 0. */
  lemma {:induction false} NatToStringIdaVuelta(n: nat)
    ensures ValorDecimal(NatToString(n)) == n
    ensures NatToString(n)[0] == '0' <==> n == 0
  {
    var s := NatToString(n);
    if n < 10 {
      assert "0123456789"[n] as int - '0' as int == n by {
        assert "0123456789" == ['0', '1', '2', '3', '4', '5', '6', '7', '8', '9'];
      }
      assert s[..0] == [];
    } else {
      NatToStringIdaVuelta(n / 10);
      var c := DigitoDecimal(n % 10);
      assert c as int - '0' as int == n % 10 by {
        assert "0123456789" == ['0', '1', '2', '3', '4', '5', '6', '7', '8', '9'];
      }
      assert s[..|s| - 1] == NatToString(n / 10);
      assert s[0] == NatToString(n / 10)[0];
    }
  }

  function DigitoDecimal(n: int): (c: char)
    requires 0 <= n < 10
    ensures '0' <= c <= '9'
  {
    "0123456789"[n]
  }

  /** Python's `s[a:]`: empty when `a` is past the end. */
  function Desde<T>(s: seq<T>, a: nat): (r: seq<T>)
    ensures |r| == if a <= |s| then |s| - a else 0
    ensures a <= |s| ==> r == s[a..]
    ensures a > |s| ==> r == []
  {
    if a <= |s| then s[a..] else []
  }

  /** Python's `s[a:b]` for `a <= b`: the part of `s[a:]` before `s[b:]`. */
  function Rebanada<T>(s: seq<T>, a: nat, b: nat): (r: seq<T>)
    requires a <= b
    ensures |r| <= b - a
    ensures a + |r| <= |s| ==> r == s[a..a + |r|]
    ensures b <= |s| ==> r == s[a..b]
    ensures a <= |s| ==> r == s[a..if b <= |s| then b else |s|]
    ensures a > |s| ==> r == []
  {
    Tomar(Desde(s, a), b - a)
  }

  /** Python's `s[:n]`: the whole sequence when it is shorter than `n`. */
  function Tomar<T>(s: seq<T>, n: nat): (r: seq<T>)
    ensures |r| <= n && |r| <= |s|
    ensures r == s[..|r|]
    ensures |s| >= n ==> |r| == n
    ensures n > |s| ==> r == s
  {
    if n <= |s| then s[..n] else s
  }
}
