/** Fixed-offset decoding of captured GSMTAP frames (Ethernet, IPv4 and UDP headers,
    the 16-octet GSMTAP header, then the 23-octet GSM layer-2 payload at 0x3a).
    imsi.py and imsi-2.py read the same offsets in the same order, so both
    decoders are specified here once. A read past the end of the frame raises
    IndexError, as `ord(datos[i])` does; a slice never raises. */
module Tramas {
  import opened Wrappers
  import opened Texto

  /** `ord(datos[i])`. */
  function At(p: seq<byte>, i: nat): (r: Result<byte>)
    ensures r.Ok? <==> i < |p|
    ensures r.Ok? ==> r.value == p[i]
  {
    if i < |p| then Ok(p[i]) else Raised(IndexError)
  }

  /** `datos[a:][:n]`. */
  function Campo(p: seq<byte>, a: nat, n: nat): (r: seq<byte>)
  {
    Tomar(Desde(p, a), n)
  }

  /** The source's `h[2] + '0' if len(h) < 4 else h[3] + h[2]` on `h = hex(b)`. */
  function NibblesInvertidos(b: byte): (s: string)
  {
    var h := PyHex(b);
    if |h| < 4 then [h[2], '0'] else [h[3], h[2]]
  }

  lemma NibblesInvertidosSon(b: byte)
    ensures NibblesInvertidos(b) == [DigitoHex(b % 16), DigitoHex(b / 16)]
  {
    assert DigitoHex(0) == '0';
  }

  /** Location Area Identification and cell identity of a System Information
      Type 3 message (3GPP TS 44.018 section 9.1.35, TS 24.008 section 10.5.1.3),
      as the scripts turn them into text. */
  datatype Lai = Lai(mcc: string, mnc: string, lac: string, celda: string)

  /** The BCCH test and message-type test of the cell decoders: channel type
      0x01 at 0x36 and message type 0x1b at 0x3c. */
  predicate EsSistema3(p: seq<byte>) {
    |p| > 0x3c && p[0x36] == 0x01 && p[0x3c] == 0x1b
  }

  /** `decodificar_info_celda` / `find_cell` without the global writes: None when
      the frame is not a System Information Type 3 on the BCCH. */
  function InfoCelda(p: seq<byte>): (r: Result<Option<Lai>>)
    ensures r.Raised? <==>
      |p| <= 0x36 || (p[0x36] == 0x01 && (|p| <= 0x3c || (p[0x3c] == 0x1b && |p| <= 0x43)))
    ensures r.Ok? ==> (r.value.Some? <==> EsSistema3(p))
    ensures r.Ok? && r.value.Some? ==>
      && r.value.value.mcc == [DigitoHex(p[0x3f] % 16), DigitoHex(p[0x3f] / 16)] + NatToString(p[0x40] % 16)
      && r.value.value.mnc == [DigitoHex(p[0x41] % 16), DigitoHex(p[0x41] / 16)]
      && r.value.value.lac == NatToString(p[0x42] as int * 256 + p[0x43])
      && r.value.value.celda == NatToString(p[0x3d] as int * 256 + p[0x3e])
  {
    var canal :- At(p, 0x36);
    if canal != 0x01 then Ok(None)
    else
      var tipo :- At(p, 0x3c);
      if tipo != 0x1b then Ok(None)
      else
        var b3f :- At(p, 0x3f);
        var b40 :- At(p, 0x40);
        var b41 :- At(p, 0x41);
        var b42 :- At(p, 0x42);
        var b43 :- At(p, 0x43);
        NibblesInvertidosSon(b3f);
        NibblesInvertidosSon(b41);
        Ok(Some(Lai(
          NibblesInvertidos(b3f) + NatToString(b40 % 16),
          NibblesInvertidos(b41),
          NatToString(b42 as int * 256 + b43),
          NatToString(p[0x3d] as int * 256 + p[0x3e]))))
  }

  /** The Mobile Identity octets found in a paging request; "" = absent. */
  datatype Identidades = Identidades(imsi1: seq<byte>, imsi2: seq<byte>, tmsi1: seq<byte>, tmsi2: seq<byte>)

  /** `ord(p[i]) == 0x08 and (ord(p[i + 1]) & 0x1) == 0x1`: an IMSI of odd length. */
  function CampoImsi(p: seq<byte>, i: nat): (r: Result<bool>)
    ensures r.Ok? ==> (r.value <==> i + 1 < |p| && p[i] == 0x08 && p[i + 1] % 2 == 1)
  {
    var a :- At(p, i);
    if a != 0x08 then Ok(false)
    else
      var b :- At(p, i + 1);
      Ok(b % 2 == 1)
  }

  /** `ord(p[i]) == 0x05 and (ord(p[i + 1]) & 0x07) == 4`: a TMSI/P-TMSI. */
  function CampoTmsi(p: seq<byte>, i: nat): (r: Result<bool>)
    ensures r.Ok? ==> (r.value <==> i + 1 < |p| && p[i] == 0x05 && p[i + 1] % 8 == 4)
  {
    var a :- At(p, i);
    if a != 0x05 then Ok(false)
    else
      var b :- At(p, i + 1);
      Ok(b % 8 == 4)
  }

  /** `ord(p[0x3a]) == 0x59 and <IMSI at 0x48>`. */
  function SegundoImsi(p: seq<byte>): (r: Result<bool>)
  {
    var a :- At(p, 0x3a);
    if a != 0x59 then Ok(false) else CampoImsi(p, 0x48)
  }

  /** `datos[0x4a:][:4]`: where a TMSI follows a first IMSI. */
  function TmsiTrasImsi(p: seq<byte>): (r: seq<byte>)
  {
    Campo(p, 0x4a, 4)
  }

  /** The dispatch of `buscar_imsi` / `find_imsi` after the cell decoder: nothing
      on the BCCH; on Paging Request Type 1 (0x21, TS 44.018 section 9.1.22) and
      Type 2 (0x22, section 9.1.23) the identities at fixed offsets. The second
      test at 0x3a/0x48 repeats the first one, so the TMSI after a first IMSI is
      never extracted. */
  function BuscarIdentidades(p: seq<byte>): (r: Result<Option<Identidades>>)
    ensures |p| > 0x36 && p[0x36] == 0x01 ==> r == Ok(None)
    ensures r.Ok? && r.value.Some? ==>
      var ids := r.value.value;
      && |ids.imsi1| <= 8 && |ids.imsi2| <= 8 && |ids.tmsi1| <= 4 && |ids.tmsi2| <= 4
      && (ids.imsi1 != [] ==> ids.tmsi1 == [] && ids.tmsi2 == [])
      && (ids.imsi1 != [] || ids.imsi2 != [] || ids.tmsi1 != [])
  {
    var canal :- At(p, 0x36);
    if canal == 0x01 then Ok(None)
    else
      var tipo :- At(p, 0x3c);
      if tipo == 0x21 then
        var primero :- CampoImsi(p, 0x3e);
        if primero then
          var imsi1 := Campo(p, 0x3f, 8);
          var segundo :- SegundoImsi(p);
          if segundo then Ok(Some(Identidades(imsi1, Campo(p, 0x49, 8), [], [])))
          // the `elif` evaluates SegundoImsi(p) again: same frame, same value
          else if segundo then Ok(Some(Identidades(imsi1, [], TmsiTrasImsi(p), [])))
          else Ok(Some(Identidades(imsi1, [], [], [])))
        else
          var imsiTrasTmsi :- CampoImsi(p, 0x45);
          if imsiTrasTmsi then Ok(Some(Identidades([], Campo(p, 0x46, 8), Campo(p, 0x40, 4), [])))
          else
            var dosTmsi :- CampoTmsi(p, 0x3e);
            if dosTmsi then
              var tmsi1 := Campo(p, 0x40, 4);
              var otro :- CampoTmsi(p, 0x45);
              Ok(Some(Identidades([], [], tmsi1, if otro then Campo(p, 0x47, 4) else [])))
            else Ok(None)
      else if tipo == 0x22 then
        var imsi :- CampoImsi(p, 0x47);
        if imsi then Ok(Some(Identidades([], Campo(p, 0x48, 8), Campo(p, 0x3e, 4), Campo(p, 0x42, 4))))
        else Ok(None)
      else Ok(None)
  }

  /** On a Paging Request Type 1 carrying two IMSIs the second one is taken from
      0x49; the TMSI the message layout puts at 0x4a after a first IMSI is never
      taken, because the branch meant for it repeats the two-IMSI test. */
  lemma TmsiTrasImsiNuncaSeExtrae(p: seq<byte>)
    requires |p| > 0x49 && p[0x36] != 0x01 && p[0x3c] == 0x21
    requires p[0x3e] == 0x08 && p[0x3f] % 2 == 1
    ensures BuscarIdentidades(p).Ok? && BuscarIdentidades(p).value.Some?
    ensures BuscarIdentidades(p).value.value.imsi1 == p[0x3f..0x47]
    ensures BuscarIdentidades(p).value.value.tmsi1 == []
    ensures BuscarIdentidades(p).value.value.imsi2 ==
      if p[0x3a] == 0x59 && p[0x48] == 0x08 && p[0x49] % 2 == 1 then Campo(p, 0x49, 8) else []
  {
    assert CampoImsi(p, 0x3e) == Ok(true);
    assert SegundoImsi(p).Ok?;
    assert Campo(p, 0x3f, 8) == p[0x3f..0x47];
  }
}
