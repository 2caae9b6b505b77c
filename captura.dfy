/** The stateful part of the two capture scripts: the globals holding the current
    cell, the detected IMSIs and the TMSI table, and the per-frame procedures
    `decodificar_info_celda`, `mostrar_imsi` and `buscar_imsi` of imsi.py, whose
    counterparts in imsi-2.py are `find_cell`, `show_imsi` and `find_imsi`.
    The two scripts differ in the texts for unknown codes and in the step that
    records TMSIs seen without an IMSI; `Variante` selects which script is
    modelled. */
module Captura {
  import opened Wrappers
  import opened Texto
  import opened Tbcd
  import opened Formato
  import opened CodigosMcc
  import opened Tramas
  import opened TablaImsi

  /** `Actual` is imsi.py, `Anterior` is imsi-2.py. */
  datatype Variante = Actual | Anterior

  /** The cell globals: mcc, mnc, lac, cell, country, brand, operator. */
  datatype Celda = Celda(mcc: string, mnc: string, lac: string, celda: string,
                         pais: string, marca: string, operador: string)

  const CeldaInicial: Celda := Celda("", "", "", "", "", "", "")

  /** "MCC 208 Desconocido" in imsi.py, "Unknown MCC 208" in imsi-2.py. */
  function Desconocido(v: Variante, clase: string, codigo: string): string
  {
    match v
    case Actual => clase + " " + codigo + " Desconocido"
    case Anterior => "Unknown " + clase + " " + codigo
  }

  /** Every entry the lookup indexes exists: the country list of a known MCC
      has a first element and the list of a known MNC a brand and an operator. */
  predicate Consultable(codigos: Codigos, mcc: string, mnc: string) {
    mcc in codigos ==>
      |codigos[mcc].c| >= 1 && (mnc in codigos[mcc].mnc ==> |codigos[mcc].mnc[mnc]| >= 2)
  }

  /** Country, brand and operator looked up in the code table. */
  function NombresOperador(v: Variante, codigos: Codigos, mcc: string, mnc: string): (string, string, string)
    requires Consultable(codigos, mcc, mnc)
  {
    if mcc in codigos then
      if mnc in codigos[mcc].mnc then
        (codigos[mcc].c[0], codigos[mcc].mnc[mnc][0], codigos[mcc].mnc[mnc][1])
      else (codigos[mcc].c[0], Desconocido(v, "MNC", mnc), Desconocido(v, "MNC", mnc))
    else (Desconocido(v, "MCC", mcc), Desconocido(v, "MNC", mnc), Desconocido(v, "MNC", mnc))
  }

  /** The name step of the cell decoder, on a cell whose MCC, MNC, LAC and cell
      are already written. imsi-2.py first sets brand and operator to "". Both
      scripts then write country, brand and operator in that order, and an
      entry too short for its index raises IndexError after the earlier writes. */
  function Nombres(v: Variante, codigos: Codigos, c: Celda): (r: (Result<()>, Celda))
    ensures r.1.mcc == c.mcc && r.1.mnc == c.mnc && r.1.lac == c.lac && r.1.celda == c.celda
    ensures r.0.Raised? ==> r.0.error == IndexError && c.mcc in codigos
  {
    var c0 := if v == Anterior then c.(marca := "", operador := "") else c;
    if c.mcc !in codigos then
      (Ok(()), c0.(pais := Desconocido(v, "MCC", c.mcc), marca := Desconocido(v, "MNC", c.mnc),
                   operador := Desconocido(v, "MNC", c.mnc)))
    else
      var e := codigos[c.mcc];
      if |e.c| == 0 then (Raised(IndexError), c0)
      else
        var c1 := c0.(pais := e.c[0]);
        if c.mnc !in e.mnc then
          (Ok(()), c1.(marca := Desconocido(v, "MNC", c.mnc), operador := Desconocido(v, "MNC", c.mnc)))
        else
          var l := e.mnc[c.mnc];
          if |l| == 0 then (Raised(IndexError), c1)
          else if |l| == 1 then (Raised(IndexError), c1.(marca := l[0]))
          else (Ok(()), c1.(marca := l[0], operador := l[1]))
  }

  /** The name step succeeds exactly when every entry it indexes exists, and then
      writes the looked-up names. It never touches MCC, MNC, LAC or cell. A
      raise keeps the country, and then the brand, written before it; in
      imsi-2.py the names not yet written are "". */
  lemma NombresResultado(v: Variante, codigos: Codigos, c: Celda)
    ensures var (r, c') := Nombres(v, codigos, c);
      && (r.Ok? <==> Consultable(codigos, c.mcc, c.mnc))
      && (r.Raised? ==> r.error == IndexError)
      && c'.mcc == c.mcc && c'.mnc == c.mnc && c'.lac == c.lac && c'.celda == c.celda
      && (r.Ok? ==> (c'.pais, c'.marca, c'.operador) == NombresOperador(v, codigos, c.mcc, c.mnc))
      && (r.Raised? ==> c'.operador == if v == Anterior then "" else c.operador)
      && (r.Raised? && |codigos[c.mcc].c| == 0 ==>
            c'.pais == c.pais && c'.marca == if v == Anterior then "" else c.marca)
      && (r.Raised? && |codigos[c.mcc].c| > 0 ==>
            && c'.pais == codigos[c.mcc].c[0]
            && c'.marca == if |codigos[c.mcc].mnc[c.mnc]| == 1 then codigos[c.mcc].mnc[c.mnc][0]
                           else if v == Anterior then "" else c.marca)
  {
  }

  /** What the cell decoder has already written when a read past the end of a
      System Information Type 3 frame raises: the two MCC digits of 0x3f, then
      the third digit of 0x40, then the MNC of 0x41. */
  function EscrituraParcial(c: Celda, p: seq<byte>): Celda
  {
    if |p| > 0x3f && p[0x36] == 0x01 && p[0x3c] == 0x1b then
      var dos := NibblesInvertidos(p[0x3f]);
      var mcc := if |p| > 0x40 then dos + NatToString(p[0x40] % 16) else dos;
      if |p| > 0x41 then c.(mcc := mcc, mnc := NibblesInvertidos(p[0x41])) else c.(mcc := mcc)
    else c
  }

  /** The effect of the cell decoder on the cell globals, with its return value. */
  function DecodificarCelda(v: Variante, codigos: Codigos, c: Celda, p: seq<byte>): (r: (Result<bool>, Celda))
    ensures r.0 == Ok(false) ==> r.1 == c
    ensures r.0 == Ok(true) ==> EsSistema3(p)
  {
    match InfoCelda(p)
    case Raised(e) => (Raised(e), EscrituraParcial(c, p))
    case Ok(None) => (Ok(false), c)
    case Ok(Some(lai)) =>
      var (rn, c') := Nombres(v, codigos, c.(mcc := lai.mcc, mnc := lai.mnc, lac := lai.lac, celda := lai.celda));
      (if rn.Ok? then Ok(true) else Raised(rn.error), c')
  }

  /** The cell decoder returns true exactly on System Information Type 3 frames
      of the BCCH whose codes the table can serve. It then holds the decoded LAI
      and cell identity and the names looked up for its MCC and MNC. A table
      entry too short for the lookup raises IndexError after the LAI and cell
      are written. Any other complete frame changes nothing. A frame cut short
      leaves LAC, cell and names as they were. On a well-formed table only a
      frame cut short raises. */
  lemma DecodificarCeldaResultado(v: Variante, codigos: Codigos, c: Celda, p: seq<byte>)
    ensures var (r, c') := DecodificarCelda(v, codigos, c, p);
      && (InfoCelda(p).Raised? ==>
            && r.Raised? && c'.lac == c.lac && c'.celda == c.celda && c'.pais == c.pais
            && c'.marca == c.marca && c'.operador == c.operador)
      && (r.Ok? ==> (r.value <==> EsSistema3(p)))
      && (r == Ok(false) ==> c' == c)
      && (InfoCelda(p).Ok? && EsSistema3(p) ==>
            && c'.mcc == [DigitoHex(p[0x3f] % 16), DigitoHex(p[0x3f] / 16)] + NatToString(p[0x40] % 16)
            && c'.mnc == [DigitoHex(p[0x41] % 16), DigitoHex(p[0x41] / 16)]
            && c'.lac == NatToString(p[0x42] as int * 256 + p[0x43])
            && c'.celda == NatToString(p[0x3d] as int * 256 + p[0x3e])
            && (r.Ok? <==> Consultable(codigos, c'.mcc, c'.mnc))
            && (r.Raised? ==> r.error == IndexError)
            && (r.Ok? ==> (c'.pais, c'.marca, c'.operador) == NombresOperador(v, codigos, c'.mcc, c'.mnc)))
      && (BienFormado(codigos) ==> (r.Raised? <==> InfoCelda(p).Raised?))
  {
    match InfoCelda(p)
    case Raised(_) =>
    case Ok(None) =>
    case Ok(Some(lai)) =>
      NombresResultado(v, codigos, c.(mcc := lai.mcc, mnc := lai.mnc, lac := lai.lac, celda := lai.celda));
  }

  /** A frame cut short raises `IndexError` after the writes that precede the
      missing byte. */
  lemma {:induction false} DecodificarCeldaTruncada(v: Variante, codigos: Codigos, c: Celda, p: seq<byte>)
    requires |p| <= 0x36 || (p[0x36] == 0x01 && (|p| <= 0x3c || (p[0x3c] == 0x1b && |p| <= 0x43)))
    ensures DecodificarCelda(v, codigos, c, p) == (Raised(IndexError), EscrituraParcial(c, p))
  {
    if |p| <= 0x36 {
      assert At(p, 0x36) == Raised(IndexError);
    } else if |p| <= 0x3c {
      assert At(p, 0x3c) == Raised(IndexError);
    } else if |p| <= 0x3f {
      assert At(p, 0x3f) == Raised(IndexError);
    } else if |p| <= 0x40 {
      assert At(p, 0x40) == Raised(IndexError);
    } else if |p| <= 0x41 {
      assert At(p, 0x41) == Raised(IndexError);
    } else if |p| <= 0x42 {
      assert At(p, 0x42) == Raised(IndexError);
    } else {
      assert At(p, 0x43) == Raised(IndexError);
    }
    assert InfoCelda(p) == Raised(IndexError);
  }

  /** A complete frame other than System Information Type 3 on the BCCH leaves
      the cell as it was. */
  lemma {:induction false} DecodificarCeldaOtra(v: Variante, codigos: Codigos, c: Celda, p: seq<byte>)
    requires |p| > 0x36 && (p[0x36] != 0x01 || (|p| > 0x3c && p[0x3c] != 0x1b))
    ensures DecodificarCelda(v, codigos, c, p) == (Ok(false), c)
  {
    assert InfoCelda(p) == Ok(None);
  }

  /** A complete System Information Type 3 frame writes its LAI and cell
      identity, and then the outcome is that of the name step. */
  lemma {:induction false} DecodificarCeldaCompleta(v: Variante, codigos: Codigos, c: Celda, p: seq<byte>)
    requires EsSistema3(p) && |p| > 0x43
    ensures var c1 := c.(mcc := NibblesInvertidos(p[0x3f]) + NatToString(p[0x40] % 16),
                         mnc := NibblesInvertidos(p[0x41]),
                         lac := NatToString(p[0x42] as int * 256 + p[0x43]),
                         celda := NatToString(p[0x3d] as int * 256 + p[0x3e]));
      var (rn, c2) := Nombres(v, codigos, c1);
      DecodificarCelda(v, codigos, c, p) == (if rn.Ok? then Ok(true) else Raised(rn.error), c2)
  {
    assert InfoCelda(p) == Ok(Some(Lai(NibblesInvertidos(p[0x3f]) + NatToString(p[0x40] % 16),
      NibblesInvertidos(p[0x41]), NatToString(p[0x42] as int * 256 + p[0x43]),
      NatToString(p[0x3d] as int * 256 + p[0x3e]))));
  }

  /** imsi.py's `for tmsi in [tmsi1, tmsi2]: if tmsi and tmsi not in m: m[tmsi] = ""`. */
  function AgregarVacios(m: map<Id, Id>, ts: seq<Id>): (r: map<Id, Id>)
    decreases |ts|
  {
    if ts == [] then m
    else
      var m' := AgregarVacios(m, ts[..|ts| - 1]);
      var t := ts[|ts| - 1];
      if t != [] && t !in m' then m'[t := []] else m'
  }

  /** The step recording TMSIs without an IMSI. imsi-2.py tests `tmsi1` in both
      of its conditions, the second time after it has just been added. */
  function SinImsi(v: Variante, m: map<Id, Id>, t1: Id, t2: Id): (r: map<Id, Id>)
  {
    match v
    case Actual => AgregarVacios(m, [t1, t2])
    case Anterior =>
      var m1 := if t1 != [] && t1 !in m then m[t1 := []] else m;
      if t1 != [] && t1 !in m1 then m1[t2 := []] else m1
  }

  /** The table after one call of `mostrar_imsi` / `show_imsi`. */
  function Mostrar(v: Variante, t: Tabla, aSeguir: Id, todos: bool, i1: Id, i2: Id, t1: Id, t2: Id): (r: Tabla)
  {
    var (tb, imsi1) := Comun(t, aSeguir, i1, i2, t1, t2);
    if imsi1 == [] && i2 == [] && todos then tb.(tmsis := SinImsi(v, tb.tmsis, t1, t2)) else tb
  }

  /** The IMSI list stays duplicate-free, the counter counts it, and it grows
      exactly by the accepted IMSIs not seen before. */
  lemma MostrarImsis(v: Variante, t: Tabla, aSeguir: Id, todos: bool, i1: Id, i2: Id, t1: Id, t2: Id)
    requires Consistente(t)
    ensures var r := Mostrar(v, t, aSeguir, todos, i1, i2, t1, t2);
      && Consistente(r)
      && |t.imsis| <= |r.imsis| && r.imsis[..|t.imsis|] == t.imsis
      && forall x :: x in r.imsis <==>
           x in t.imsis || (x == i1 && Acepta(aSeguir, i1)) || (x == i2 && Acepta(aSeguir, i2))
  {
    ComunConsistente(t, aSeguir, i1, i2, t1, t2);
    ComunImsis(t, aSeguir, i1, i2, t1, t2);
  }

  /** After an accepted IMSI every non-empty TMSI argument maps to it (to the
      second IMSI when both are accepted) and no other TMSI changes. */
  lemma MostrarAsocia(v: Variante, t: Tabla, aSeguir: Id, todos: bool, i1: Id, i2: Id, t1: Id, t2: Id)
    requires Acepta(aSeguir, i1) || Acepta(aSeguir, i2)
    ensures var r := Mostrar(v, t, aSeguir, todos, i1, i2, t1, t2);
      && (forall k :: k in r.tmsis <==> k in t.tmsis || (k != [] && (k == t1 || k == t2)))
      && (forall k :: k != [] && (k == t1 || k == t2) ==>
            r.tmsis[k] == if Acepta(aSeguir, i2) then i2 else i1)
      && (forall k :: k in t.tmsis && k != t1 && k != t2 ==> r.tmsis[k] == t.tmsis[k])
  {
    ComunAsocia(t, aSeguir, i1, i2, t1, t2);
  }

  /** TMSI reallocation (no IMSI, both TMSIs, `tmsi2` known): `tmsi1` takes over
      the IMSI of `tmsi2`, which is removed. In imsi.py a `tmsi2` whose IMSI was
      the empty placeholder comes back as a placeholder when all TMSIs are
      shown; imsi-2.py only ever re-tests `tmsi1` there. */
  lemma MostrarReasigna(v: Variante, t: Tabla, aSeguir: Id, todos: bool, t1: Id, t2: Id)
    requires t1 != [] && t2 != [] && t2 in t.tmsis
    ensures var r := Mostrar(v, t, aSeguir, todos, [], [], t1, t2);
      && r.imsis == t.imsis && r.contador == t.contador
      && (t1 != t2 ==> t1 in r.tmsis && r.tmsis[t1] == t.tmsis[t2])
      && (forall k :: k in t.tmsis && k != t1 && k != t2 ==> k in r.tmsis && r.tmsis[k] == t.tmsis[k])
      && (t1 != t2 && (t.tmsis[t2] != [] || !todos || v == Anterior) ==> t2 !in r.tmsis)
      && (t1 != t2 && t.tmsis[t2] == [] && todos && v == Actual ==> t2 in r.tmsis && r.tmsis[t2] == [])
  {
    ComunReasigna(t, aSeguir, t1, t2);
    var m := t.tmsis[t1 := t.tmsis[t2]] - {t2};
    if v == Actual {
      AgregarVaciosEfecto(m, [t1, t2]);
    }
  }

  lemma {:induction false} AgregarVaciosEfecto(m: map<Id, Id>, ts: seq<Id>)
    ensures forall k :: k in AgregarVacios(m, ts) <==> k in m || (k != [] && k in ts)
    ensures forall k :: k in m ==> AgregarVacios(m, ts)[k] == m[k]
    ensures forall k :: k in AgregarVacios(m, ts) && k !in m ==> AgregarVacios(m, ts)[k] == []
    decreases |ts|
  {
    if ts != [] {
      var init := ts[..|ts| - 1];
      AgregarVaciosEfecto(m, init);
      assert forall k :: k in ts <==> k in init || k == ts[|ts| - 1] by {
        assert ts == init + [ts[|ts| - 1]];
      }
    }
  }

  /** With no IMSI, no reallocation and all TMSIs shown, imsi.py records every
      unknown non-empty TMSI with the empty IMSI; imsi-2.py records only `tmsi1`.
      Known TMSIs keep their IMSI. */
  lemma MostrarSinImsi(v: Variante, t: Tabla, aSeguir: Id, t1: Id, t2: Id)
    requires !HayReasignacion(t, [], [], t1, t2)
    ensures var r := Mostrar(v, t, aSeguir, true, [], [], t1, t2);
      && r.imsis == t.imsis && r.contador == t.contador
      && (forall k :: k in t.tmsis ==> k in r.tmsis && r.tmsis[k] == t.tmsis[k])
      && (v == Actual ==> forall k :: k in r.tmsis <==> k in t.tmsis || (k != [] && (k == t1 || k == t2)))
      && (v == Anterior ==> forall k :: k in r.tmsis <==> k in t.tmsis || (k != [] && k == t1))
      && (forall k :: k in r.tmsis && k !in t.tmsis ==> r.tmsis[k] == [])
  {
    assert !Acepta(aSeguir, []);
    ComunSinEfecto(t, aSeguir, [], [], t1, t2);
    if v == Actual {
      AgregarVaciosEfecto(t.tmsis, [t1, t2]);
    }
  }

  /** A call in which no IMSI passes the tracking filter, no reallocation happens
      and the placeholder step does not run leaves the table as it was. */
  lemma MostrarSinEfecto(v: Variante, t: Tabla, aSeguir: Id, todos: bool, i1: Id, i2: Id, t1: Id, t2: Id)
    requires !Acepta(aSeguir, i1) && !Acepta(aSeguir, i2)
    requires !HayReasignacion(t, i1, i2, t1, t2)
    requires !todos || i1 != [] || i2 != []
    ensures Mostrar(v, t, aSeguir, todos, i1, i2, t1, t2) == t
  {
    ComunSinEfecto(t, aSeguir, i1, i2, t1, t2);
  }

  // ---------------------------------------------------------------------------
  // Printing an IMSI line

  /** The fields of an IMSI line before padding: the IMSI text (split after
      MCC and MNC when the MCC is listed), country, brand and operator. */
  datatype LineaImsi = LineaImsi(imsi: string, pais: string, marca: string, operador: string)

  /** A listed network code: the country, then brand and operator of its entry,
      each index raising IndexError on a list too short for it. */
  function Listado(e: EntradaMcc, mcc: string, mnc: string, resto: string): (r: Result<LineaImsi>)
    requires mnc in e.mnc
  {
    if |e.c| == 0 || |e.mnc[mnc]| < 2 then Raised(IndexError)
    else Ok(LineaImsi(mcc + " " + mnc + " " + resto, e.c[0], e.mnc[mnc][0], e.mnc[mnc][1]))
  }

  /** `formatear_imsi` / `str_imsi` up to the padding. From the TBCD digits `d`
      the MCC is `d[1:4]` and the MNC `d[4:6]`, or `d[4:7]` when only the
      three-digit code is listed. The code-table indexing is outside the `try`,
      which guards only the padding, so an entry too short for it raises
      IndexError. imsi-2.py leaves the names empty for an unlisted MCC. */
  function LineaDeImsi(v: Variante, codigos: Codigos, imsi: Id): (r: Result<LineaImsi>)
  {
    var d := DigitosTbcd(imsi);
    var mcc := Rebanada(d, 1, 4);
    var mnc := Rebanada(d, 4, 6);
    if mcc !in codigos then
      match v
      case Actual =>
        Ok(LineaImsi(d, Desconocido(v, "MCC", mcc), Desconocido(v, "MNC", mnc), Desconocido(v, "MNC", mnc)))
      case Anterior => Ok(LineaImsi(d, "", "", ""))
    else
      var e := codigos[mcc];
      var mnc3 := mnc + Rebanada(d, 6, 7);
      if mnc in e.mnc then Listado(e, mcc, mnc, Desde(d, 6))
      else if mnc3 in e.mnc then Listado(e, mcc, mnc3, Desde(d, 7))
      else if |e.c| == 0 then Raised(IndexError)
      else Ok(LineaImsi(mcc + " " + mnc + " " + Desde(d, 6), e.c[0],
                        Desconocido(v, "MNC", mnc), Desconocido(v, "MNC", mnc)))
  }

  /** Every code-table entry an IMSI line indexes exists: the country list of
      the IMSI's MCC, when listed, and the list of the network code found for
      it, two or three digits long. */
  predicate Formateable(codigos: Codigos, imsi: Id) {
    var d := DigitosTbcd(imsi);
    var mcc := Rebanada(d, 1, 4);
    var mnc := Rebanada(d, 4, 6);
    var mnc3 := mnc + Rebanada(d, 6, 7);
    mcc in codigos ==>
      && |codigos[mcc].c| >= 1
      && (mnc in codigos[mcc].mnc ==> |codigos[mcc].mnc[mnc]| >= 2)
      && (mnc !in codigos[mcc].mnc && mnc3 in codigos[mcc].mnc ==> |codigos[mcc].mnc[mnc3]| >= 2)
  }

  /** An IMSI line is built exactly when the table has every entry it indexes,
      always on a well-formed table; otherwise IndexError escapes. A listed MCC
      and two-digit MNC give "MCC MNC rest" with the listed names, and an
      unlisted MCC leaves the digit text as it is. */
  lemma LineaDeImsiResultado(v: Variante, codigos: Codigos, imsi: Id)
    ensures var r := LineaDeImsi(v, codigos, imsi);
      var d := DigitosTbcd(imsi);
      var mcc := Rebanada(d, 1, 4);
      var mnc := Rebanada(d, 4, 6);
      && (r.Ok? <==> Formateable(codigos, imsi))
      && (r.Raised? ==> r.error == IndexError)
      && (BienFormado(codigos) ==> r.Ok?)
      && (mcc !in codigos ==> r.Ok? && r.value.imsi == d)
      && (r.Ok? && mcc in codigos && mnc in codigos[mcc].mnc ==>
            r.value == LineaImsi(mcc + " " + mnc + " " + Desde(d, 6), codigos[mcc].c[0],
                                 codigos[mcc].mnc[mnc][0], codigos[mcc].mnc[mnc][1]))
  {
  }

  /** The IMSIs whose lines the printing step builds, from the rebound `imsi1`
      and from `imsi2`. imsi.py formats each non-empty one. imsi-2.py writes a
      line for each non-empty one, but formats `imsi1` on both. */
  function Impresos(v: Variante, imsi1: Id, imsi2: Id): (r: seq<Id>)
  {
    match v
    case Actual => (if imsi1 != [] then [imsi1] else []) + (if imsi2 != [] then [imsi2] else [])
    case Anterior => (if imsi1 != [] then [imsi1] else []) + (if imsi2 != [] then [imsi1] else [])
  }

  /** imsi.py formats exactly its non-empty IMSIs; imsi-2.py never formats
      `imsi2` (unless it equals `imsi1`), and formats `imsi1` even when it is
      empty, once `imsi2` is present. */
  lemma ImpresosCasos(imsi1: Id, imsi2: Id)
    ensures forall x :: x in Impresos(Actual, imsi1, imsi2) <==> x != [] && (x == imsi1 || x == imsi2)
    ensures forall x | x in Impresos(Anterior, imsi1, imsi2) :: x == imsi1
    ensures imsi2 != [] ==> imsi1 in Impresos(Anterior, imsi1, imsi2)
    ensures |Impresos(Anterior, imsi1, imsi2)| == |Impresos(Actual, imsi1, imsi2)|
  {
  }

  predicate Imprimible(v: Variante, codigos: Codigos, imsi: Id) {
    LineaDeImsi(v, codigos, imsi).Ok?
  }

  /** The lines of a print step are built one after the other; the first one
      that cannot be built raises. */
  function Imprimir(v: Variante, codigos: Codigos, s: seq<Id>): Result<()>
  {
    if forall x | x in s :: Imprimible(v, codigos, x) then Ok(()) else Raised(IndexError)
  }

  /** The outcome of `mostrar_imsi` / `show_imsi`: once the print flag is set,
      the lines of the rebound `imsi1` and of `imsi2` are built. */
  function MostrarResultado(v: Variante, codigos: Codigos, t: Tabla, aSeguir: Id,
                            i1: Id, i2: Id, t1: Id, t2: Id): (r: Result<()>)
  {
    var imsi1 := Comun(t, aSeguir, i1, i2, t1, t2).1;
    if Imprime(t, aSeguir, i1, i2, t1, t2) then Imprimir(v, codigos, Impresos(v, imsi1, i2)) else Ok(())
  }

  /** The table procedure raises IndexError exactly when it prints and one of
      the IMSIs it formats has a code-table entry too short for the lookup. It
      never raises on a well-formed table, nor when nothing is printed. */
  lemma MostrarResultadoCasos(v: Variante, codigos: Codigos, t: Tabla, aSeguir: Id,
                              i1: Id, i2: Id, t1: Id, t2: Id)
    ensures var r := MostrarResultado(v, codigos, t, aSeguir, i1, i2, t1, t2);
      var s := Impresos(v, Comun(t, aSeguir, i1, i2, t1, t2).1, i2);
      && (r.Raised? <==> Imprime(t, aSeguir, i1, i2, t1, t2) && exists x | x in s :: !Formateable(codigos, x))
      && (r.Raised? ==> r.error == IndexError)
      && (BienFormado(codigos) ==> r == Ok(()))
  {
    var s := Impresos(v, Comun(t, aSeguir, i1, i2, t1, t2).1, i2);
    forall x | x in s ensures Imprimible(v, codigos, x) <==> Formateable(codigos, x) {
      LineaDeImsiResultado(v, codigos, x);
    }
  }

  /** The table part of `buscar_imsi` / `find_imsi` once the cell decoder has
      returned: the identities of a paging request go to the table procedure,
      whose print step may raise after the table is updated. */
  function EfectoPaquete(v: Variante, codigos: Codigos, t: Tabla, aSeguir: Id, todos: bool, p: seq<byte>)
    : (r: (Result<()>, Tabla))
    ensures Consistente(t) ==> Consistente(r.1)
    ensures BienFormado(codigos) && r.0.Raised? ==> BuscarIdentidades(p).Raised?
  {
    match BuscarIdentidades(p)
    case Raised(e) => (Raised(e), t)
    case Ok(None) => (Ok(()), t)
    case Ok(Some(ids)) =>
      assert Consistente(t) ==> Consistente(Mostrar(v, t, aSeguir, todos, ids.imsi1, ids.imsi2, ids.tmsi1, ids.tmsi2)) by {
        if Consistente(t) {
          MostrarImsis(v, t, aSeguir, todos, ids.imsi1, ids.imsi2, ids.tmsi1, ids.tmsi2);
        }
      }
      MostrarResultadoCasos(v, codigos, t, aSeguir, ids.imsi1, ids.imsi2, ids.tmsi1, ids.tmsi2);
      (MostrarResultado(v, codigos, t, aSeguir, ids.imsi1, ids.imsi2, ids.tmsi1, ids.tmsi2),
       Mostrar(v, t, aSeguir, todos, ids.imsi1, ids.imsi2, ids.tmsi1, ids.tmsi2))
  }

  /** BCCH frames never touch the table. */
  lemma EfectoPaqueteBcch(v: Variante, codigos: Codigos, t: Tabla, aSeguir: Id, todos: bool, p: seq<byte>)
    requires |p| > 0x36 && p[0x36] == 0x01
    ensures EfectoPaquete(v, codigos, t, aSeguir, todos, p) == (Ok(()), t)
  {
  }

  /** The globals of one capture script. */
  class Rastreador {
    const variante: Variante
    const codigos: Codigos
    const imsiASeguir: seq<byte>
    const mostrarTodosTmsi: bool

    var imsisDetectados: seq<Id>
    var tmsisAsociados: map<Id, Id>
    var contadorImsi: nat

    var mccActual: string
    var mncActual: string
    var lacActual: string
    var celdaActual: string
    var paisActual: string
    var marcaActual: string
    var operadorActual: string

    function TablaActual(): Tabla
      reads this
    {
      Tabla(imsisDetectados, tmsisAsociados, contadorImsi)
    }

    function CeldaActual(): Celda
      reads this
    {
      Celda(mccActual, mncActual, lacActual, celdaActual, paisActual, marcaActual, operadorActual)
    }

    ghost predicate Valid()
      reads this
    {
      Consistente(TablaActual())
    }

    /** The initial globals; `imsiASeguir` is the encoder's output. */
    constructor(variante: Variante, codigos: Codigos, imsiASeguir: seq<byte>, mostrarTodosTmsi: bool)
      ensures Valid()
      ensures this.variante == variante && this.codigos == codigos
      ensures this.imsiASeguir == imsiASeguir && this.mostrarTodosTmsi == mostrarTodosTmsi
      ensures TablaActual() == Tabla([], map[], 0) && CeldaActual() == CeldaInicial
    {
      this.variante := variante;
      this.codigos := codigos;
      this.imsiASeguir := imsiASeguir;
      this.mostrarTodosTmsi := mostrarTodosTmsi;
      imsisDetectados := [];
      tmsisAsociados := map[];
      contadorImsi := 0;
      mccActual, mncActual, lacActual, celdaActual := "", "", "", "";
      paisActual, marcaActual, operadorActual := "", "", "";
    }

    /** `if imsi not in imsis: imsis.append(imsi); contador += 1`. */
    method RegistrarImsi(imsi: Id) returns (nuevo: bool)
      modifies this
      ensures nuevo <==> imsi !in old(imsisDetectados)
      ensures TablaActual() == Registrar(old(TablaActual()), imsi)
      ensures CeldaActual() == old(CeldaActual())
    {
      nuevo := imsi !in imsisDetectados;
      if nuevo {
        imsisDetectados := imsisDetectados + [imsi];
        contadorImsi := contadorImsi + 1;
      }
    }

    /** The TMSI loop run for one accepted IMSI. */
    method AsociarTmsis(ts: seq<Id>, imsi: Id) returns (cambio: bool)
      modifies this
      ensures cambio == RemapeaLista(old(tmsisAsociados), ts, imsi)
      ensures tmsisAsociados == AsociarLista(old(tmsisAsociados), ts, imsi)
      ensures imsisDetectados == old(imsisDetectados) && contadorImsi == old(contadorImsi)
      ensures CeldaActual() == old(CeldaActual())
    {
      cambio := false;
      for k := 0 to |ts|
        invariant cambio == RemapeaLista(old(tmsisAsociados), ts[..k], imsi)
        invariant tmsisAsociados == AsociarLista(old(tmsisAsociados), ts[..k], imsi)
        invariant imsisDetectados == old(imsisDetectados) && contadorImsi == old(contadorImsi)
        invariant CeldaActual() == old(CeldaActual())
      {
        var tmsi := ts[k];
        if tmsi != [] && (tmsi !in tmsisAsociados || tmsisAsociados[tmsi] != imsi) {
          cambio := true;
          tmsisAsociados := tmsisAsociados[tmsi := imsi];
        }
        assert ts[..k + 1][..k] == ts[..k];
      }
      assert ts[..|ts|] == ts;
    }

    /** The placeholder step, as each script writes it. */
    method AgregarSinImsi(tmsi1: Id, tmsi2: Id)
      modifies this
      ensures tmsisAsociados == SinImsi(variante, old(tmsisAsociados), tmsi1, tmsi2)
      ensures imsisDetectados == old(imsisDetectados) && contadorImsi == old(contadorImsi)
      ensures CeldaActual() == old(CeldaActual())
    {
      if variante == Actual {
        var ts := [tmsi1, tmsi2];
        for k := 0 to |ts|
          invariant tmsisAsociados == AgregarVacios(old(tmsisAsociados), ts[..k])
          invariant imsisDetectados == old(imsisDetectados) && contadorImsi == old(contadorImsi)
          invariant CeldaActual() == old(CeldaActual())
        {
          var tmsi := ts[k];
          if tmsi != [] && tmsi !in tmsisAsociados {
            tmsisAsociados := tmsisAsociados[tmsi := []];
          }
          assert ts[..k + 1][..k] == ts[..k];
        }
        assert ts[..|ts|] == ts;
      } else {
        if tmsi1 != [] && tmsi1 !in tmsisAsociados {
          tmsisAsociados := tmsisAsociados[tmsi1 := []];
        }
        // the second test repeats `tmsi1`, which the first one has just added
        tmsisAsociados := if tmsi1 != [] && tmsi1 !in tmsisAsociados then tmsisAsociados[tmsi2 := []]
                          else tmsisAsociados;
      }
    }

    /** `formatear_imsi` / `str_imsi` without the padding: the digit loop, then
        the code-table lookups. */
    method FormatearImsi(imsi: Id) returns (r: Result<LineaImsi>)
      ensures r == LineaDeImsi(variante, codigos, imsi)
    {
      var d := DigitosImsi(imsi);
      var mcc := Rebanada(d, 1, 4);
      var mnc := Rebanada(d, 4, 6);
      if mcc !in codigos {
        if variante == Actual {
          return Ok(LineaImsi(d, Desconocido(variante, "MCC", mcc), Desconocido(variante, "MNC", mnc),
                              Desconocido(variante, "MNC", mnc)));
        }
        return Ok(LineaImsi(d, "", "", ""));
      }
      var entrada := codigos[mcc];
      var resto := Desde(d, 6);
      if mnc !in entrada.mnc && mnc + Rebanada(d, 6, 7) in entrada.mnc {
        mnc := mnc + Rebanada(d, 6, 7);
        resto := Desde(d, 7);
      }
      if |entrada.c| == 0 {
        return Raised(IndexError);
      }
      var pais := entrada.c[0];
      if mnc !in entrada.mnc {
        return Ok(LineaImsi(mcc + " " + mnc + " " + resto, pais, Desconocido(variante, "MNC", mnc),
                            Desconocido(variante, "MNC", mnc)));
      }
      var lista := entrada.mnc[mnc];
      if |lista| < 2 {
        return Raised(IndexError);
      }
      return Ok(LineaImsi(mcc + " " + mnc + " " + resto, pais, lista[0], lista[1]));
    }

    /** The print step: imsi.py loops over `[imsi1, imsi2]` and formats each
        non-empty one; imsi-2.py writes one line per non-empty IMSI, both
        formatting `imsi1`. */
    method ImprimirLineas(imsi1: Id, imsi2: Id) returns (r: Result<()>)
      ensures r == Imprimir(variante, codigos, Impresos(variante, imsi1, imsi2))
    {
      if variante == Actual {
        r := ImprimirBucle(imsi1, imsi2);
      } else {
        r := ImprimirDosLineas(imsi1, imsi2);
      }
    }

    /** Building one printed line: the outcome of `formatear_imsi` / `str_imsi`
        without the line itself. */
    method ComprobarLinea(imsi: Id) returns (r: Result<()>)
      ensures r.Ok? <==> Imprimible(variante, codigos, imsi)
      ensures r.Raised? ==> r.error == IndexError
    {
      var linea := FormatearImsi(imsi);
      LineaDeImsiResultado(variante, codigos, imsi);
      r := if linea.Ok? then Ok(()) else Raised(linea.error);
    }

    /** The `for imsi in [imsi1, imsi2]` loop of imsi.py (lines 137-141). */
    method ImprimirBucle(imsi1: Id, imsi2: Id) returns (r: Result<()>)
      ensures r == Imprimir(variante, codigos, Impresos(Actual, imsi1, imsi2))
    {
      ghost var s := Impresos(Actual, imsi1, imsi2);
      var lista := [imsi1, imsi2];
      for k := 0 to |lista|
        invariant k > 0 && imsi1 != [] ==> Imprimible(variante, codigos, imsi1)
        invariant k > 1 && imsi2 != [] ==> Imprimible(variante, codigos, imsi2)
      {
        if lista[k] != [] {
          var linea := ComprobarLinea(lista[k]);
          if linea.Raised? {
            assert lista[k] in s;
            return linea;
          }
        }
      }
      assert forall x | x in s :: x == imsi1 || x == imsi2;
      return Ok(());
    }

    /** The two `if` blocks of imsi-2.py (lines 122-127), both formatting `imsi1`. */
    method ImprimirDosLineas(imsi1: Id, imsi2: Id) returns (r: Result<()>)
      ensures r == Imprimir(variante, codigos, Impresos(Anterior, imsi1, imsi2))
    {
      ghost var s := Impresos(Anterior, imsi1, imsi2);
      if imsi1 != [] {
        var linea := ComprobarLinea(imsi1);
        if linea.Raised? {
          assert imsi1 in s;
          return linea;
        }
      }
      if imsi2 != [] {
        var linea := ComprobarLinea(imsi1);
        if linea.Raised? {
          assert imsi1 in s;
          return linea;
        }
      }
      assert forall x | x in s :: x == imsi1;
      return Ok(());
    }

    /** `mostrar_imsi` / `show_imsi`. The print flag follows the source: it is
        set by a new IMSI, by a remapped TMSI and by a reallocation. The print
        step runs before the placeholder step and may raise. */
    method MostrarImsi(i1: Id, i2: Id, tmsi1: Id, tmsi2: Id) returns (r: Result<()>)
      requires Valid()
      modifies this
      ensures Valid()
      ensures TablaActual() == Mostrar(variante, old(TablaActual()), imsiASeguir, mostrarTodosTmsi, i1, i2, tmsi1, tmsi2)
      ensures r == MostrarResultado(variante, codigos, old(TablaActual()), imsiASeguir, i1, i2, tmsi1, tmsi2)
      ensures CeldaActual() == old(CeldaActual())
    {
      ghost var t0 := TablaActual();
      var imsi1, imsi2 := i1, i2;
      var debeImprimir := false;
      if Acepta(imsiASeguir, imsi1) {
        var nuevo := RegistrarImsi(imsi1);
        var cambio := AsociarTmsis([tmsi1, tmsi2], imsi1);
        debeImprimir := nuevo || cambio;
      }
      ghost var ta := TablaActual();
      assert ta == ProcesarImsi(t0, imsiASeguir, i1, tmsi1, tmsi2);
      assert debeImprimir == ImprimeImsi(t0, imsiASeguir, i1, tmsi1, tmsi2);
      if Acepta(imsiASeguir, imsi2) {
        var nuevo := RegistrarImsi(imsi2);
        var cambio := AsociarTmsis([tmsi1, tmsi2], imsi2);
        debeImprimir := debeImprimir || nuevo || cambio;
      }
      assert TablaActual() == ProcesarImsi(ta, imsiASeguir, i2, tmsi1, tmsi2);
      if imsi1 == [] && imsi2 == [] && tmsi1 != [] && tmsi2 != [] {
        if tmsi2 in tmsisAsociados {
          debeImprimir := true;
          imsi1 := tmsisAsociados[tmsi2];
          tmsisAsociados := tmsisAsociados[tmsi1 := imsi1];
          tmsisAsociados := tmsisAsociados - {tmsi2};
        }
      }
      assert (TablaActual(), imsi1) == Comun(t0, imsiASeguir, i1, i2, tmsi1, tmsi2);
      assert debeImprimir == Imprime(t0, imsiASeguir, i1, i2, tmsi1, tmsi2);
      MostrarImsis(variante, t0, imsiASeguir, mostrarTodosTmsi, i1, i2, tmsi1, tmsi2);
      r := Ok(());
      if debeImprimir {
        r := ImprimirLineas(imsi1, imsi2);
        if r.Raised? {
          return;
        }
      }
      if imsi1 == [] && imsi2 == [] && mostrarTodosTmsi {
        AgregarSinImsi(tmsi1, tmsi2);
      }
    }

    /** `decodificar_info_celda` / `find_cell`. A read past the end of the frame
        raises after the writes that precede it. */
    method DecodificarInfoCelda(p: seq<byte>) returns (r: Result<bool>)
      requires Valid()
      modifies this
      ensures Valid()
      ensures (r, CeldaActual()) == DecodificarCelda(variante, codigos, old(CeldaActual()), p)
      ensures TablaActual() == old(TablaActual())
    {
      ghost var c0 := CeldaActual();
      if |p| <= 0x36 {
        DecodificarCeldaTruncada(variante, codigos, c0, p);
        return Raised(IndexError);
      }
      if p[0x36] != 0x01 {
        DecodificarCeldaOtra(variante, codigos, c0, p);
        return Ok(false);
      }
      if |p| <= 0x3c {
        DecodificarCeldaTruncada(variante, codigos, c0, p);
        return Raised(IndexError);
      }
      if p[0x3c] != 0x1b {
        DecodificarCeldaOtra(variante, codigos, c0, p);
        return Ok(false);
      }
      if |p| <= 0x3f {
        DecodificarCeldaTruncada(variante, codigos, c0, p);
        return Raised(IndexError);
      }
      var escrito := EscribirMccMnc(p);
      if escrito.Raised? {
        DecodificarCeldaTruncada(variante, codigos, c0, p);
        return Raised(escrito.error);
      }
      if |p| <= 0x43 {
        DecodificarCeldaTruncada(variante, codigos, c0, p);
        return Raised(IndexError);
      }
      EscribirLacCelda(p);
      var nombres := EscribirNombres();
      DecodificarCeldaCompleta(variante, codigos, c0, p);
      if nombres.Raised? {
        return Raised(nombres.error);
      }
      return Ok(true);
    }

    /** The LAC and cell writes on a complete frame. */
    method EscribirLacCelda(p: seq<byte>)
      requires |p| > 0x43
      modifies this
      ensures CeldaActual() == old(CeldaActual()).(lac := NatToString(p[0x42] as int * 256 + p[0x43]),
                                                    celda := NatToString(p[0x3d] as int * 256 + p[0x3e]))
      ensures TablaActual() == old(TablaActual())
    {
      lacActual := NatToString(p[0x42] as int * 256 + p[0x43]);
      celdaActual := NatToString(p[0x3d] as int * 256 + p[0x3e]);
    }

    /** The country, brand and operator writes for the MCC and MNC just decoded,
        raising IndexError when the table entry is too short for its index. */
    method EscribirNombres() returns (r: Result<()>)
      modifies this
      ensures (r, CeldaActual()) == Nombres(variante, codigos, old(CeldaActual()))
      ensures TablaActual() == old(TablaActual())
    {
      if variante == Anterior {
        marcaActual, operadorActual := "", "";
      }
      if mccActual !in codigos {
        paisActual := Desconocido(variante, "MCC", mccActual);
        marcaActual := Desconocido(variante, "MNC", mncActual);
        operadorActual := Desconocido(variante, "MNC", mncActual);
        return Ok(());
      }
      var entrada := codigos[mccActual];
      if |entrada.c| == 0 {
        return Raised(IndexError);
      }
      paisActual := entrada.c[0];
      if mncActual !in entrada.mnc {
        marcaActual := Desconocido(variante, "MNC", mncActual);
        operadorActual := Desconocido(variante, "MNC", mncActual);
        return Ok(());
      }
      var lista := entrada.mnc[mncActual];
      if |lista| == 0 {
        return Raised(IndexError);
      }
      marcaActual := lista[0];
      if |lista| == 1 {
        return Raised(IndexError);
      }
      operadorActual := lista[1];
      return Ok(());
    }

    /** The MCC and MNC writes of the cell decoder once the frame is known to be
        System Information Type 3 on the BCCH: a missing octet 0x40 or 0x41
        raises after the writes before it. */
    method EscribirMccMnc(p: seq<byte>) returns (r: Result<()>)
      requires EsSistema3(p) && |p| > 0x3f
      modifies this
      ensures r == if |p| > 0x41 then Ok(()) else Raised(IndexError)
      ensures CeldaActual() == EscrituraParcial(old(CeldaActual()), p)
      ensures imsisDetectados == old(imsisDetectados) && tmsisAsociados == old(tmsisAsociados)
      ensures contadorImsi == old(contadorImsi)
    {
      mccActual := NibblesInvertidos(p[0x3f]);
      var b40 :- At(p, 0x40);
      mccActual := mccActual + NatToString(b40 % 16);
      var b41 :- At(p, 0x41);
      mncActual := NibblesInvertidos(b41);
      return Ok(());
    }

    /** `buscar_imsi` / `find_imsi`: the cell decoder first, then the paging
        request identities into the table. */
    method BuscarImsi(p: seq<byte>) returns (r: Result<()>)
      requires Valid()
      modifies this
      ensures Valid()
      ensures var (rc, c) := DecodificarCelda(variante, codigos, old(CeldaActual()), p);
        && CeldaActual() == c
        && (rc.Raised? ==> r == Raised(rc.error) && TablaActual() == old(TablaActual()))
        && (rc.Ok? ==>
              (r, TablaActual()) == EfectoPaquete(variante, codigos, old(TablaActual()), imsiASeguir, mostrarTodosTmsi, p))
    {
      var celda := DecodificarInfoCelda(p);
      if celda.Raised? {
        return Raised(celda.error);
      }
      var ids :- BuscarIdentidades(p);
      r := Ok(());
      if ids.Some? {
        r := MostrarImsi(ids.value.imsi1, ids.value.imsi2, ids.value.tmsi1, ids.value.tmsi2);
      }
    }
  }
}
