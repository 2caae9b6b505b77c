/** imsi-3.py: the in-memory suspicious-behaviour detector of `AnalizadorMovil`
    (a five-minute window of event times per IMSI, the set of cells each IMSI was
    seen in, the alert list) and the location history of
    `SistemaGeolocalizacion` with its code-table lookups and heat-map listing.
    Times are integers in microseconds, the resolution of Python's datetime;
    "now" is a parameter. */
module Anomalias {
  import opened Wrappers
  import opened Texto
  import opened CodigosMcc
  import opened Fifo

  /** `timedelta(minutes=5)` in microseconds. */
  const VentanaUs: int := 300_000_000

  datatype Evento = Evento(timestamp: int, imsi: string, tmsi: string, tipoEvento: string,
                           mcc: string, mnc: string, lac: string, cellId: string,
                           fuerzaSenal: Option<int>)

  /** The dictionary `_generar_alerta` appends. */
  datatype Alerta = Alerta(timestamp: int, tipo: string, severidad: string, descripcion: string, imsi: string)

  // ---------------------------------------------------------------------------
  // The sliding window

  /** The `popleft` loop: drop leading times older than five minutes. */
  function DescartarAntiguos(q: seq<int>, ahora: int): (r: seq<int>)
    ensures |r| <= |q|
    ensures r != [] ==> ahora - r[0] <= VentanaUs
    decreases |q|
  {
    if q != [] && ahora - q[0] > VentanaUs then DescartarAntiguos(q[1..], ahora) else q
  }

  /** What the loop keeps is a suffix of the deque: times leave only at the front. */
  lemma {:induction false} DescartarAntiguosSufijo(q: seq<int>, ahora: int)
    ensures var r := DescartarAntiguos(q, ahora); r == q[|q| - |r|..]
    decreases |q|
  {
    if q != [] && ahora - q[0] > VentanaUs {
      DescartarAntiguosSufijo(q[1..], ahora);
      var r := DescartarAntiguos(q, ahora);
      assert q[1..][|q| - 1 - |r|..] == q[|q| - |r|..];
    }
  }

  /** The `popleft` loop itself, on a local copy of the deque. */
  method DescartarCola(q: seq<int>, ahora: int) returns (cola: seq<int>)
    ensures cola == DescartarAntiguos(q, ahora)
  {
    cola := q;
    while |cola| > 0 && ahora - cola[0] > VentanaUs
      invariant DescartarAntiguos(cola, ahora) == DescartarAntiguos(q, ahora)
      decreases |cola|
    {
      cola := cola[1..];
    }
  }

  predicate Ordenada(q: seq<int>) {
    forall i, j | 0 <= i < j < |q| :: q[i] <= q[j]
  }

  /** The times of `q` at most five minutes before `ahora`, in order. */
  function Recientes(q: seq<int>, ahora: int): (r: seq<int>)
    decreases |q|
  {
    if q == [] then []
    else (if ahora - q[0] <= VentanaUs then [q[0]] else []) + Recientes(q[1..], ahora)
  }

  lemma {:induction false} RecientesTodos(q: seq<int>, ahora: int)
    requires forall i | 0 <= i < |q| :: ahora - q[i] <= VentanaUs
    ensures Recientes(q, ahora) == q
    decreases |q|
  {
    if q != [] {
      RecientesTodos(q[1..], ahora);
    }
  }

  /** On a time-ordered window the `popleft` loop keeps exactly the recent times. */
  lemma {:induction false} DescartarAntiguosRecientes(q: seq<int>, ahora: int)
    requires Ordenada(q)
    ensures DescartarAntiguos(q, ahora) == Recientes(q, ahora)
    decreases |q|
  {
    if q != [] {
      if ahora - q[0] > VentanaUs {
        DescartarAntiguosRecientes(q[1..], ahora);
      } else {
        RecientesTodos(q, ahora);
      }
    }
  }

  lemma {:induction false} DescartarConservaUltimo(q: seq<int>, ahora: int)
    requires q != [] && ahora - q[|q| - 1] <= VentanaUs
    ensures DescartarAntiguos(q, ahora) != []
    decreases |q|
  {
    if ahora - q[0] > VentanaUs {
      DescartarConservaUltimo(q[1..], ahora);
    }
  }

  lemma SufijoOrdenado(q: seq<int>, d: nat)
    requires Ordenada(q) && d <= |q|
    ensures Ordenada(q[d..])
  {
    var r := q[d..];
    forall i, j | 0 <= i < j < |r| ensures r[i] <= r[j] {
      assert r[i] == q[d + i] && r[j] == q[d + j];
    }
  }

  /** With a clock that does not go back, the window after an event is ordered,
      holds only times within five minutes of now, ends with now, and is exactly
      the recent part of the old window followed by now. */
  lemma VentanaTrasEvento(q: seq<int>, ahora: int)
    requires Ordenada(q) && forall i | 0 <= i < |q| :: q[i] <= ahora
    ensures var r := DescartarAntiguos(q + [ahora], ahora);
      && r == Recientes(q + [ahora], ahora)
      && Ordenada(r) && r != [] && r[|r| - 1] == ahora
      && forall i | 0 <= i < |r| :: 0 <= ahora - r[i] <= VentanaUs
  {
    var q' := q + [ahora];
    assert Ordenada(q') by {
      forall i, j | 0 <= i < j < |q'| ensures q'[i] <= q'[j] {
        if j < |q| {
          assert q'[i] == q[i] && q'[j] == q[j];
        } else {
          assert q'[i] == q[i];
        }
      }
    }
    DescartarAntiguosRecientes(q', ahora);
    DescartarConservaUltimo(q', ahora);
    var r := DescartarAntiguos(q', ahora);
    var d := |q'| - |r|;
    DescartarAntiguosSufijo(q', ahora);
    SufijoOrdenado(q', d);
    assert r == q'[d..];
    assert r[|r| - 1] == q'[|q'| - 1];
    forall i | 0 <= i < |r| ensures 0 <= ahora - r[i] <= VentanaUs {
      assert r[0] <= r[i] <= r[|r| - 1];
    }
  }

  // ---------------------------------------------------------------------------
  // Alerts

  function DescripcionReasignacion(imsi: string, n: nat): string {
    "IMSI " + imsi + " con " + NatToString(n) + " reasignaciones en 5 min"
  }

  function DescripcionHopping(imsi: string, n: nat): string {
    "IMSI " + imsi + " detectado en " + NatToString(n) + " celdas diferentes"
  }

  /** The alerts one event raises, given the size of its window and of its cell set. */
  function AlertasEvento(imsi: string, ahora: int, ventana: nat, celdas: nat): (r: seq<Alerta>)
    ensures |r| <= 2 && forall i | 0 <= i < |r| :: r[i].imsi == imsi && r[i].timestamp == ahora
  {
    (if ventana > 10 then
      [Alerta(ahora, "REASIGNACION_TMSI_RAPIDA", "ALTA", DescripcionReasignacion(imsi, ventana), imsi)]
     else [])
    + (if celdas > 5 then
      [Alerta(ahora, "IMSI_HOPPING", "MEDIA", DescripcionHopping(imsi, celdas), imsi)]
     else [])
  }

  /** A rapid-reallocation alert (high severity) is raised exactly when the window
      holds more than 10 times, a hopping alert (medium) exactly when the IMSI was
      seen in more than 5 cells, and every alert names the event's IMSI. */
  lemma AlertasEventoCondiciones(imsi: string, ahora: int, ventana: nat, celdas: nat)
    ensures var r := AlertasEvento(imsi, ahora, ventana, celdas);
      && |r| == (if ventana > 10 then 1 else 0) + (if celdas > 5 then 1 else 0)
      && (forall a | a in r :: a.imsi == imsi && a.timestamp == ahora)
      && ((exists a | a in r :: a.tipo == "REASIGNACION_TMSI_RAPIDA" && a.severidad == "ALTA") <==> ventana > 10)
      && ((exists a | a in r :: a.tipo == "IMSI_HOPPING" && a.severidad == "MEDIA") <==> celdas > 5)
  {
    var r := AlertasEvento(imsi, ahora, ventana, celdas);
    if ventana > 10 {
      assert r[0].tipo == "REASIGNACION_TMSI_RAPIDA";
    }
    if celdas > 5 {
      assert r[|r| - 1].tipo == "IMSI_HOPPING";
    }
    assert "IMSI_HOPPING" != "REASIGNACION_TMSI_RAPIDA";
  }

  function Ventana(m: map<string, seq<int>>, imsi: string): seq<int> {
    if imsi in m then m[imsi] else []
  }

  function CeldasVistas(m: map<string, set<(string, string)>>, imsi: string): set<(string, string)> {
    if imsi in m then m[imsi] else {}
  }

  /** The suspicious-behaviour detector's state. */
  class AnalizadorMovil {
    const codigos: Codigos
    var reasignacionesRapidas: map<string, seq<int>>
    var imsiHopping: map<string, set<(string, string)>>
    var alertas: seq<Alerta>

    constructor(codigos: Codigos)
      ensures this.codigos == codigos
      ensures reasignacionesRapidas == map[] && imsiHopping == map[] && alertas == []
    {
      this.codigos := codigos;
      reasignacionesRapidas := map[];
      imsiHopping := map[];
      alertas := [];
    }

    /** `_generar_alerta` without the database row and the log line. */
    method GenerarAlerta(tipo: string, severidad: string, descripcion: string, imsi: string, ahora: int)
      modifies this
      ensures alertas == old(alertas) + [Alerta(ahora, tipo, severidad, descripcion, imsi)]
      ensures reasignacionesRapidas == old(reasignacionesRapidas) && imsiHopping == old(imsiHopping)
    {
      alertas := alertas + [Alerta(ahora, tipo, severidad, descripcion, imsi)];
    }

    /** The first block of `analizar_comportamiento_sospechoso`: append now to
        the IMSI's deque and `popleft` the times older than five minutes. */
    method ActualizarVentana(imsi: string, ahora: int)
      modifies this
      ensures reasignacionesRapidas ==
        old(reasignacionesRapidas)[imsi := DescartarAntiguos(Ventana(old(reasignacionesRapidas), imsi) + [ahora], ahora)]
      ensures imsiHopping == old(imsiHopping) && alertas == old(alertas)
    {
      var cola := DescartarCola(Ventana(reasignacionesRapidas, imsi) + [ahora], ahora);
      reasignacionesRapidas := reasignacionesRapidas[imsi := cola];
    }

    /** `analizar_comportamiento_sospechoso`. */
    method AnalizarComportamientoSospechoso(evento: Evento, ahora: int)
      modifies this
      ensures reasignacionesRapidas ==
        old(reasignacionesRapidas)[evento.imsi := DescartarAntiguos(Ventana(old(reasignacionesRapidas), evento.imsi) + [ahora], ahora)]
      ensures imsiHopping ==
        old(imsiHopping)[evento.imsi := CeldasVistas(old(imsiHopping), evento.imsi) + {(evento.lac, evento.cellId)}]
      ensures alertas == old(alertas) +
        AlertasEvento(evento.imsi, ahora, |reasignacionesRapidas[evento.imsi]|, |imsiHopping[evento.imsi]|)
    {
      var imsi := evento.imsi;
      ActualizarVentana(imsi, ahora);
      ghost var ventanas := reasignacionesRapidas;
      var n := |reasignacionesRapidas[imsi]|;
      ghost var primera := if n > 10 then
        [Alerta(ahora, "REASIGNACION_TMSI_RAPIDA", "ALTA", DescripcionReasignacion(imsi, n), imsi)] else [];
      if n > 10 {
        GenerarAlerta("REASIGNACION_TMSI_RAPIDA", "ALTA", DescripcionReasignacion(imsi, n), imsi, ahora);
      }
      assert alertas == old(alertas) + primera;
      var celdas := CeldasVistas(imsiHopping, imsi) + {(evento.lac, evento.cellId)};
      imsiHopping := imsiHopping[imsi := celdas];
      var c := |celdas|;
      ghost var segunda := if c > 5 then
        [Alerta(ahora, "IMSI_HOPPING", "MEDIA", DescripcionHopping(imsi, c), imsi)] else [];
      if c > 5 {
        GenerarAlerta("IMSI_HOPPING", "MEDIA", DescripcionHopping(imsi, c), imsi, ahora);
      }
      assert alertas == old(alertas) + primera + segunda;
      assert AlertasEvento(imsi, ahora, n, c) == primera + segunda;
      assert reasignacionesRapidas == ventanas;
    }
  }

  // ---------------------------------------------------------------------------
  // Location history

  /** One entry of `historial_ubicaciones`. */
  datatype Ubicacion = Ubicacion(timestamp: int, mcc: string, mnc: string, lac: string, cellId: string,
                                 pais: string, operador: string)

  /** One entry of the heat-map listing. */
  datatype PuntoCalor = PuntoCalor(imsi: string, pais: string, operador: string, timestamp: int)

  /** `codigos.get(mcc, {}).get('c', ['Desconocido'])[0]`: an unknown MCC gives
      "Desconocido", a known one with an empty country list raises IndexError. */
  function ObtenerPais(codigos: Codigos, mcc: string): (r: Result<string>)
    ensures r.Raised? <==> mcc in codigos && codigos[mcc].c == []
    ensures mcc !in codigos ==> r == Ok("Desconocido")
    ensures mcc in codigos && r.Ok? ==> r.value == codigos[mcc].c[0]
  {
    var paises := if mcc in codigos then codigos[mcc].c else ["Desconocido"];
    if |paises| > 0 then Ok(paises[0]) else Raised(IndexError)
  }

  /** `codigos.get(mcc, {}).get('MNC', {}).get(mnc, ['Desconocido'])[1]`: the
      default list has no element 1, so an unknown MCC or MNC raises IndexError. */
  function ObtenerOperador(codigos: Codigos, mcc: string, mnc: string): (r: Result<string>)
    ensures r.Ok? <==> mcc in codigos && mnc in codigos[mcc].mnc && |codigos[mcc].mnc[mnc]| > 1
    ensures r.Ok? ==> r.value == codigos[mcc].mnc[mnc][1]
  {
    var redes := if mcc in codigos then codigos[mcc].mnc else map[];
    var entrada := if mnc in redes then redes[mnc] else ["Desconocido"];
    if |entrada| > 1 then Ok(entrada[1]) else Raised(IndexError)
  }

  /** On a well-formed code table the country lookup always succeeds and the
      operator lookup succeeds exactly for known MCC/MNC pairs. */
  lemma ConsultasBienFormado(codigos: Codigos, mcc: string, mnc: string)
    requires BienFormado(codigos)
    ensures ObtenerPais(codigos, mcc).Ok?
    ensures ObtenerOperador(codigos, mcc, mnc).Ok? <==> mcc in codigos && mnc in codigos[mcc].mnc
  {
  }

  predicate ClavesUnicas(s: seq<string>) {
    forall i, j | 0 <= i < j < |s| :: s[i] != s[j]
  }

  function Punto(imsi: string, u: Ubicacion): PuntoCalor {
    PuntoCalor(imsi, u.pais, u.operador, u.timestamp)
  }

  /** The heat-map entries of one IMSI's listed locations. */
  function Puntos(imsi: string, us: seq<Ubicacion>): (r: seq<PuntoCalor>)
    ensures |r| == |us|
    decreases |us|
  {
    if us == [] then [] else Puntos(imsi, us[..|us| - 1]) + [Punto(imsi, us[|us| - 1])]
  }

  /** Entry `i` of the listing is location `i` tagged with the IMSI. */
  lemma {:induction false} PuntosEn(imsi: string, us: seq<Ubicacion>)
    ensures forall i | 0 <= i < |us| :: Puntos(imsi, us)[i] == Punto(imsi, us[i])
    decreases |us|
  {
    if us != [] {
      PuntosEn(imsi, us[..|us| - 1]);
    }
  }

  /** `generar_mapa_calor`: the last 10 locations of every IMSI, IMSI by IMSI in
      the order the IMSIs were first recorded. */
  function MapaCalor(orden: seq<string>, h: map<string, seq<Ubicacion>>): (r: seq<PuntoCalor>)
    ensures |r| <= 10 * |orden|
    decreases |orden|
  {
    if orden == [] then []
    else
      var imsi := orden[|orden| - 1];
      MapaCalor(orden[..|orden| - 1], h) + Puntos(imsi, Ultimos(HistorialDe(h, imsi), 10))
  }

  function HistorialDe(h: map<string, seq<Ubicacion>>, imsi: string): seq<Ubicacion> {
    if imsi in h then h[imsi] else []
  }

  lemma MapaCalorPaso(orden: seq<string>, h: map<string, seq<Ubicacion>>, i: nat)
    requires i < |orden|
    ensures MapaCalor(orden[..i + 1], h) ==
      MapaCalor(orden[..i], h) + Puntos(orden[i], Ultimos(HistorialDe(h, orden[i]), 10))
  {
    assert orden[..i + 1][..i] == orden[..i];
  }

  lemma PuntosPaso(imsi: string, us: seq<Ubicacion>, j: nat)
    requires j < |us|
    ensures Puntos(imsi, us[..j + 1]) == Puntos(imsi, us[..j]) + [Punto(imsi, us[j])]
  {
    assert us[..j + 1][..j] == us[..j];
  }

  /** The entries of a listing that belong to one IMSI, in order. */
  function DeImsi(s: seq<PuntoCalor>, imsi: string): (r: seq<PuntoCalor>)
    decreases |s|
  {
    if s == [] then []
    else (if s[0].imsi == imsi then [s[0]] else []) + DeImsi(s[1..], imsi)
  }

  lemma {:induction false} DeImsiConcat(a: seq<PuntoCalor>, b: seq<PuntoCalor>, imsi: string)
    ensures DeImsi(a + b, imsi) == DeImsi(a, imsi) + DeImsi(b, imsi)
    decreases |a|
  {
    if a == [] {
      assert a + b == b;
    } else {
      assert (a + b)[0] == a[0];
      assert (a + b)[1..] == a[1..] + b;
      DeImsiConcat(a[1..], b, imsi);
    }
  }

  lemma {:induction false} DeImsiUniforme(s: seq<PuntoCalor>, x: string, imsi: string)
    requires forall i | 0 <= i < |s| :: s[i].imsi == x
    ensures DeImsi(s, imsi) == if x == imsi then s else []
    decreases |s|
  {
    if s != [] {
      DeImsiUniforme(s[1..], x, imsi);
    }
  }

  lemma DeImsiPuntos(x: string, us: seq<Ubicacion>, imsi: string)
    ensures DeImsi(Puntos(x, us), imsi) == if x == imsi then Puntos(x, us) else []
  {
    PuntosEn(x, us);
    DeImsiUniforme(Puntos(x, us), x, imsi);
  }

  /** Heat map: for each recorded IMSI its entries are exactly its last (at most
      10) locations in their original order; an IMSI never recorded has none. */
  lemma {:induction false} MapaCalorPorImsi(orden: seq<string>, h: map<string, seq<Ubicacion>>, imsi: string)
    requires ClavesUnicas(orden)
    ensures DeImsi(MapaCalor(orden, h), imsi) ==
      if imsi in orden then Puntos(imsi, Ultimos(HistorialDe(h, imsi), 10)) else []
    ensures |DeImsi(MapaCalor(orden, h), imsi)| <= 10
    decreases |orden|
  {
    if orden != [] {
      var init := orden[..|orden| - 1];
      var x := orden[|orden| - 1];
      UltimaClave(orden, imsi);
      MapaCalorPorImsi(init, h, imsi);
      var px := Puntos(x, Ultimos(HistorialDe(h, x), 10));
      DeImsiConcat(MapaCalor(init, h), px, imsi);
      DeImsiPuntos(x, Ultimos(HistorialDe(h, x), 10), imsi);
    }
  }

  lemma UltimaClave(orden: seq<string>, imsi: string)
    requires ClavesUnicas(orden) && orden != []
    ensures var init := orden[..|orden| - 1];
      && ClavesUnicas(init)
      && orden[|orden| - 1] !in init
      && ((imsi in orden) <==> imsi in init || imsi == orden[|orden| - 1])
  {
    var init := orden[..|orden| - 1];
    assert orden == init + [orden[|orden| - 1]];
  }

  /** The location history and the insertion order of its keys. */
  class SistemaGeolocalizacion {
    const codigos: Codigos
    var historialUbicaciones: map<string, seq<Ubicacion>>
    /** The IMSIs in the order the `defaultdict` first created their lists. */
    var orden: seq<string>

    ghost predicate Valid()
      reads this
    {
      && ClavesUnicas(orden)
      && (forall k :: k in historialUbicaciones <==> k in orden)
      && (forall k | k in historialUbicaciones :: |historialUbicaciones[k]| <= 100)
    }

    constructor(codigos: Codigos)
      ensures Valid()
      ensures this.codigos == codigos && historialUbicaciones == map[] && orden == []
    {
      this.codigos := codigos;
      historialUbicaciones := map[];
      orden := [];
    }

    function Historial(imsi: string): seq<Ubicacion>
      reads this
    {
      if imsi in historialUbicaciones then historialUbicaciones[imsi] else []
    }

    /** `agregar_ubicacion`. The lookups run while the entry is built, so when one
        of them raises nothing has been recorded. */
    method AgregarUbicacion(imsi: string, mcc: string, mnc: string, lac: string, cellId: string, ahora: int)
      returns (r: Result<()>)
      requires Valid()
      modifies this
      ensures Valid()
      ensures r.Ok? <==> ObtenerPais(codigos, mcc).Ok? && ObtenerOperador(codigos, mcc, mnc).Ok?
      ensures r.Raised? ==> historialUbicaciones == old(historialUbicaciones) && orden == old(orden)
      ensures r.Ok? ==>
        var u := Ubicacion(ahora, mcc, mnc, lac, cellId,
                           ObtenerPais(codigos, mcc).value, ObtenerOperador(codigos, mcc, mnc).value);
        && historialUbicaciones == old(historialUbicaciones)[imsi := AgregarAcotado(old(Historial(imsi)), u, 100)]
        && orden == old(orden) + (if imsi in old(historialUbicaciones) then [] else [imsi])
    {
      var pais :- ObtenerPais(codigos, mcc);
      var operador :- ObtenerOperador(codigos, mcc, mnc);
      var ubicacion := Ubicacion(ahora, mcc, mnc, lac, cellId, pais, operador);
      if imsi !in historialUbicaciones {
        historialUbicaciones := historialUbicaciones[imsi := []];
        orden := orden + [imsi];
      }
      historialUbicaciones := historialUbicaciones[imsi := historialUbicaciones[imsi] + [ubicacion]];
      if |historialUbicaciones[imsi]| > 100 {
        historialUbicaciones := historialUbicaciones[imsi := historialUbicaciones[imsi][1..]];
      }
      return Ok(());
    }

    /** `generar_mapa_calor`. */
    method GenerarMapaCalor() returns (ubicaciones: seq<PuntoCalor>)
      requires Valid()
      ensures ubicaciones == MapaCalor(orden, historialUbicaciones)
    {
      ubicaciones := [];
      for i := 0 to |orden|
        invariant ubicaciones == MapaCalor(orden[..i], historialUbicaciones)
      {
        var imsi := orden[i];
        var ultimas := Ultimos(historialUbicaciones[imsi], 10);
        ghost var previo := ubicaciones;
        for j := 0 to |ultimas|
          invariant ubicaciones == previo + Puntos(imsi, ultimas[..j])
        {
          var u := ultimas[j];
          ubicaciones := ubicaciones + [PuntoCalor(imsi, u.pais, u.operador, u.timestamp)];
          PuntosPaso(imsi, ultimas, j);
        }
        assert ultimas[..|ultimas|] == ultimas;
        assert ultimas == Ultimos(HistorialDe(historialUbicaciones, imsi), 10);
        MapaCalorPaso(orden, historialUbicaciones, i);
      }
      assert orden[..|orden|] == orden;
    }
  }
}
