/** The string-building loops of the two capture scripts. `formatear_tmsi`
    (imsi.py) and `str_tmsi` (imsi-2.py), the digit loops of `formatear_imsi` and
    `str_imsi`, and the tracked-IMSI encoders of both main blocks are the same
    code; each is one method here, proved equal to its function in Tbcd. */
module Formato {
  import opened Wrappers
  import opened Texto
  import opened Tbcd

  /** `hex_byte[2] + hex_byte[3]` when `len(hex_byte) == 4`, else `"0" + hex_byte[2]`. */
  lemma ParAltoBajo(b: byte)
    ensures var h := PyHex(b);
      (if |h| == 4 then [h[2], h[3]] else ['0', h[2]]) == [DigitoHex(b / 16), DigitoHex(b % 16)]
  {
    assert DigitoHex(0) == '0';
  }

  /** `hex_byte[3] + hex_byte[2]` when `len(hex_byte) == 4`, else `hex_byte[2] + "0"`. */
  lemma ParBajoAlto(b: byte)
    ensures var h := PyHex(b);
      (if |h| == 4 then [h[3], h[2]] else [h[2], '0']) == [DigitoHex(b % 16), DigitoHex(b / 16)]
  {
    assert DigitoHex(0) == '0';
  }

  /** `formatear_tmsi` / `str_tmsi`. */
  method FormatearTmsi(tmsi: seq<byte>) returns (s: string)
    ensures s == HexTmsi(tmsi)
  {
    if tmsi == [] {
      return "";
    }
    s := "0x";
    for k := 0 to |tmsi|
      invariant s == "0x" + ParesAltoBajo(tmsi[..k])
    {
      var h := PyHex(tmsi[k]);
      ParAltoBajo(tmsi[k]);
      if |h| == 4 {
        s := s + [h[2], h[3]];
      } else {
        s := s + ['0', h[2]];
      }
      assert tmsi[..k + 1][..k] == tmsi[..k];
    }
    assert tmsi[..|tmsi|] == tmsi;
  }

  /** The digit loop of `formatear_imsi` / `str_imsi`. */
  method DigitosImsi(imsi: seq<byte>) returns (s: string)
    ensures s == DigitosTbcd(imsi)
  {
    s := "";
    for k := 0 to |imsi|
      invariant s == DigitosTbcd(imsi[..k])
    {
      var h := PyHex(imsi[k]);
      ParBajoAlto(imsi[k]);
      if |h| == 4 {
        s := s + [h[3], h[2]];
      } else {
        s := s + [h[2], '0'];
      }
      assert imsi[..k + 1][..k] == imsi[..k];
    }
    assert imsi[..|imsi|] == imsi;
  }

  /** One iteration of the encoder's loop extends the packed prefix by one octet. */
  lemma EmpaquetarPaso(d: string, i: nat)
    requires i + 2 <= |d| && i % 2 == 0
    requires TodoDigitos(d[..i]) && EsDigito(d[i]) && EsDigito(d[i + 1])
    ensures TodoDigitos(d[..i + 2])
    ensures Empaquetar(d[..i + 2]) == Empaquetar(d[..i]) + [ValorDigito(d[i + 1]) * 16 + ValorDigito(d[i])]
  {
    var e := d[..i + 2];
    forall j | 0 <= j < i + 2 ensures EsDigito(e[j]) {
      if j < i {
        assert e[j] == d[..i][j];
      }
    }
    assert e[..i] == d[..i];
  }

  /** The tracked-IMSI block of the main programs: `int()` raising ValueError on
      a non-digit, and the exit on a wrong size, are `Raised` outcomes. */
  method CodificarImsiASeguir(opcion: string) returns (r: Result<seq<byte>>)
    ensures r == ImsiASeguir(opcion)
  {
    if opcion == "" {
      return Ok([]);
    }
    var imsi := "9" + QuitarEspacios(opcion);
    var n := |imsi|;
    if !(n % 2 == 0 && 0 < n < 17) {
      return Raised(SystemExit);
    }
    var aSeguir: seq<byte> := [];
    var i := 0;
    while i < n - 1
      invariant 0 <= i <= n && i % 2 == 0
      invariant TodoDigitos(imsi[..i])
      invariant aSeguir == Empaquetar(imsi[..i])
    {
      if !EsDigito(imsi[i + 1]) || !EsDigito(imsi[i]) {
        return Raised(ValueError);
      }
      EmpaquetarPaso(imsi, i);
      aSeguir := aSeguir + [ValorDigito(imsi[i + 1]) * 16 + ValorDigito(imsi[i])];
      i := i + 2;
    }
    assert imsi[..i] == imsi;
    return Ok(aSeguir);
  }
}
