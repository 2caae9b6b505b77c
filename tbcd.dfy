/** Text forms of Mobile Identity octets (3GPP TS 24.008 section 10.5.1.4) as the
    capture scripts print them, and the encoder that turns the "IMSI to track"
    command-line option into the octet prefix compared against captured IMSIs.
    Both imsi.py and imsi-2.py implement these loops; the methods that model
    each file's loop are proved equal to the functions here. */
module Tbcd {
  import opened Wrappers
  import opened Texto

  /** Two hex digits per octet, high nibble first (the TMSI printing order). */
  function ParesAltoBajo(t: seq<byte>): (s: string)
    ensures |s| == 2 * |t|
    decreases |t|
  {
    if t == [] then ""
    else ParesAltoBajo(t[..|t| - 1]) + [DigitoHex(t[|t| - 1] / 16), DigitoHex(t[|t| - 1] % 16)]
  }

  /** A TMSI as printed: "" when empty, else "0x" and the octets high nibble first. */
  function HexTmsi(t: seq<byte>): (s: string)
  {
    if t == [] then "" else "0x" + ParesAltoBajo(t)
  }

  /** Two hex digits per octet, low nibble first: TBCD digit order of an IMSI. */
  function DigitosTbcd(t: seq<byte>): (s: string)
    ensures |s| == 2 * |t|
    decreases |t|
  {
    if t == [] then ""
    else DigitosTbcd(t[..|t| - 1]) + [DigitoHex(t[|t| - 1] % 16), DigitoHex(t[|t| - 1] / 16)]
  }

  lemma {:induction false} ParesAltoBajoAt(t: seq<byte>, k: nat)
    requires k < |t|
    ensures ParesAltoBajo(t)[2 * k] == DigitoHex(t[k] / 16)
    ensures ParesAltoBajo(t)[2 * k + 1] == DigitoHex(t[k] % 16)
    decreases |t|
  {
    var n := |t| - 1;
    if k < n {
      ParesAltoBajoAt(t[..n], k);
      assert t[..n][k] == t[k];
    }
  }

  lemma {:induction false} DigitosTbcdAt(t: seq<byte>, k: nat)
    requires k < |t|
    ensures DigitosTbcd(t)[2 * k] == DigitoHex(t[k] % 16)
    ensures DigitosTbcd(t)[2 * k + 1] == DigitoHex(t[k] / 16)
    decreases |t|
  {
    var n := |t| - 1;
    if k < n {
      DigitosTbcdAt(t[..n], k);
      assert t[..n][k] == t[k];
    }
  }

  /** What a printed TMSI looks like: "" for the empty TMSI, otherwise "0x" and
      exactly two lowercase hex digits per octet, high nibble then low nibble. */
  lemma HexTmsiForma(t: seq<byte>)
    ensures t == [] ==> HexTmsi(t) == ""
    ensures t != [] ==> |HexTmsi(t)| == 2 + 2 * |t| && HexTmsi(t)[..2] == "0x"
    ensures forall k :: 0 <= k < |t| ==>
      HexTmsi(t)[2 + 2 * k] == DigitoHex(t[k] / 16) && HexTmsi(t)[3 + 2 * k] == DigitoHex(t[k] % 16)
  {
    forall k | 0 <= k < |t|
      ensures HexTmsi(t)[2 + 2 * k] == DigitoHex(t[k] / 16) && HexTmsi(t)[3 + 2 * k] == DigitoHex(t[k] % 16)
    {
      ParesAltoBajoAt(t, k);
    }
  }

  predicate EsDigito(c: char) {
    '0' <= c <= '9'
  }

  predicate TodoDigitos(s: string) {
    forall i | 0 <= i < |s| :: EsDigito(s[i])
  }

  /** Python's `int(c)` on a decimal digit character. */
  function ValorDigito(c: char): (v: nat)
    requires EsDigito(c)
    ensures v < 10
  {
    (c as int) - ('0' as int)
  }

  /** Python's `s.replace(" ", "")`. */
  function QuitarEspacios(s: string): (r: string)
    ensures |r| <= |s|
    ensures forall i :: 0 <= i < |r| ==> r[i] != ' '
    ensures (forall i | 0 <= i < |s| :: s[i] != ' ') ==> r == s
    ensures |r| == |s| ==> r == s
  {
    if s == [] then ""
    else (if s[0] == ' ' then "" else [s[0]]) + QuitarEspacios(s[1..])
  }

  /** The replacement works piecewise: removing the spaces of a concatenation
      removes those of each part. */
  lemma {:induction false} QuitarEspaciosConcatena(x: string, y: string)
    ensures QuitarEspacios(x + y) == QuitarEspacios(x) + QuitarEspacios(y)
    decreases |x|
  {
    if x == [] {
      assert x + y == y;
    } else {
      assert (x + y)[1..] == x[1..] + y;
      QuitarEspaciosConcatena(x[1..], y);
    }
  }

  /** The encoder's loop: each pair of digits (d[i], d[i+1]) becomes the octet
      d[i+1] * 16 + d[i]. */
  function Empaquetar(d: string): (b: seq<byte>)
    requires |d| % 2 == 0 && TodoDigitos(d)
    ensures |b| == |d| / 2
    decreases |d|
  {
    if d == [] then []
    else
      var n := |d|;
      Empaquetar(d[..n - 2]) + [ValorDigito(d[n - 1]) * 16 + ValorDigito(d[n - 2])]
  }

  /** The "IMSI to track" option as the main block turns it into an octet prefix:
      an empty option tracks every IMSI; otherwise "9" (odd-length and IMSI-type
      nibble) is put in front, the length must be even and below 17
      (`sys.exit(1)` otherwise) and every character must be a digit (`int()`
      raises ValueError otherwise). */
  function ImsiASeguir(opcion: string): (r: Result<seq<byte>>)
  {
    if opcion == "" then Ok([])
    else
      var imsi := "9" + QuitarEspacios(opcion);
      if |imsi| % 2 == 0 && 0 < |imsi| < 17 then
        if TodoDigitos(imsi) then Ok(Empaquetar(imsi)) else Raised(ValueError)
      else Raised(SystemExit)
  }

  lemma {:induction false} EmpaquetarAt(d: string, k: nat)
    requires |d| % 2 == 0 && TodoDigitos(d)
    requires k < |d| / 2
    ensures Empaquetar(d)[k] == ValorDigito(d[2 * k + 1]) * 16 + ValorDigito(d[2 * k])
    decreases |d|
  {
    var n := |d|;
    if k < n / 2 - 1 {
      var d' := d[..n - 2];
      assert TodoDigitos(d') by {
        forall i | 0 <= i < |d'| ensures EsDigito(d'[i]) { assert d'[i] == d[i]; }
      }
      EmpaquetarAt(d', k);
      assert d'[2 * k] == d[2 * k] && d'[2 * k + 1] == d[2 * k + 1];
    }
  }

  lemma DigitoHexDeDigito(c: char)
    requires EsDigito(c)
    ensures DigitoHex(ValorDigito(c)) == c
  {
    var v := ValorDigito(c);
    assert HexChars[0] == '0' && HexChars[1] == '1' && HexChars[2] == '2' && HexChars[3] == '3';
    assert HexChars[4] == '4' && HexChars[5] == '5' && HexChars[6] == '6' && HexChars[7] == '7';
    assert HexChars[8] == '8' && HexChars[9] == '9';
  }

  lemma NibblesDePar(a: char, b: char)
    requires EsDigito(a) && EsDigito(b)
    ensures var x := ValorDigito(b) * 16 + ValorDigito(a);
      0 <= x < 256 && x % 16 == ValorDigito(a) && x / 16 == ValorDigito(b)
  {
  }

  lemma ParDigitos(a: char, c: char, x: int)
    requires EsDigito(a) && EsDigito(c) && x == ValorDigito(c) * 16 + ValorDigito(a)
    ensures 0 <= x < 256 && DigitoHex(x % 16) == a && DigitoHex(x / 16) == c
  {
    NibblesDePar(a, c);
    DigitoHexDeDigito(a);
    DigitoHexDeDigito(c);
  }

  /** Round trip: unpacking the packed digit pairs with the TBCD nibble loop gives
      the digit string back. */
  lemma EmpaquetarIdaVuelta(d: string)
    requires |d| % 2 == 0 && TodoDigitos(d)
    ensures DigitosTbcd(Empaquetar(d)) == d
  {
    var b := Empaquetar(d);
    forall j | 0 <= j < |d| ensures DigitosTbcd(b)[j] == d[j] {
      var k := j / 2;
      EmpaquetarAt(d, k);
      DigitosTbcdAt(b, k);
      ParDigitos(d[2 * k], d[2 * k + 1], b[k]);
      assert j == 2 * k || j == 2 * k + 1;
    }
  }

  /** The tracked prefix accepted for a non-empty option decodes, through the
      nibble loop, to "9" followed by the option's digits, and its first octet
      carries the odd-length flag and identity type 1 (IMSI) in its low nibble. */
  lemma ImsiASeguirIdaVuelta(opcion: string)
    requires opcion != "" && ImsiASeguir(opcion).Ok?
    ensures DigitosTbcd(ImsiASeguir(opcion).value) == "9" + QuitarEspacios(opcion)
    ensures |ImsiASeguir(opcion).value| >= 1 && ImsiASeguir(opcion).value[0] % 16 == 9
  {
    var imsi := "9" + QuitarEspacios(opcion);
    EmpaquetarIdaVuelta(imsi);
    EmpaquetarAt(imsi, 0);
  }

  /** The option is accepted exactly when, after removing spaces, it is a string of
      an odd number (1 to 15) of decimal digits. */
  lemma ImsiASeguirAcepta(opcion: string)
    requires opcion != ""
    ensures ImsiASeguir(opcion).Ok? <==>
      var d := QuitarEspacios(opcion);
      |d| % 2 == 1 && |d| <= 15 && TodoDigitos(d)
  {
    var d := QuitarEspacios(opcion);
    var imsi := "9" + d;
    if TodoDigitos(d) {
      assert TodoDigitos(imsi) by {
        forall i | 0 <= i < |imsi| ensures EsDigito(imsi[i]) {
          if i > 0 { assert imsi[i] == d[i - 1]; }
        }
      }
    } else {
      var j :| 0 <= j < |d| && !EsDigito(d[j]);
      assert imsi[j + 1] == d[j];
    }
  }
}
