/** The estimators of `TrianguladorGSM` as functions of the station database,
    the numerical routines and the current time: the filter of measurements
    with a known station, the RSSI and TOA fits, the signal-weighted centroid,
    the two-cell interpolation, the inverse-precision combination and the
    dispatch of `triangular_ubicacion`. */
module GsmEstimadores {
  import opened Wrappers
  import opened Promedios
  import opened GsmModelo

  /** A measurement paired with the coordinates of its station. */
  type Resuelta = (CeldaGsm, Coordenada)

  // ---------------------------------------------------------------------------
  // Station lookup

  /** `_obtener_ubicacion_celda`: `estaciones_base.get(clave)`. */
  function UbicacionCelda(est: Estaciones, c: CeldaGsm): (r: Option<Coordenada>)
    ensures r.Some? <==> Clave(c) in est
    ensures r.Some? ==> r.value == est[Clave(c)]
  {
    if Clave(c) in est then Some(est[Clave(c)]) else None
  }

  /** The `celdas_con_ubicacion` loop: the measurements whose station is known,
      in order, each with its coordinates. */
  function ConUbicacion(est: Estaciones, cs: seq<CeldaGsm>): (r: seq<Resuelta>)
    ensures |r| <= |cs|
    decreases |cs|
  {
    if cs == [] then []
    else
      var c := cs[|cs| - 1];
      ConUbicacion(est, cs[..|cs| - 1]) + (if Clave(c) in est then [(c, est[Clave(c)])] else [])
  }

  lemma {:induction false} ConUbicacionConcat(est: Estaciones, a: seq<CeldaGsm>, b: seq<CeldaGsm>)
    ensures ConUbicacion(est, a + b) == ConUbicacion(est, a) + ConUbicacion(est, b)
    decreases |b|
  {
    if b == [] {
      assert a + b == a;
    } else {
      var b' := b[..|b| - 1];
      assert (a + b)[..|a + b| - 1] == a + b';
      ConUbicacionConcat(est, a, b');
    }
  }

  /** Every pair comes from the input with its station's coordinates, and every
      measurement with a known station is kept. */
  lemma {:induction false} ConUbicacionCaracter(est: Estaciones, cs: seq<CeldaGsm>)
    ensures forall i | 0 <= i < |ConUbicacion(est, cs)| ::
      var p := ConUbicacion(est, cs)[i]; p.0 in cs && Clave(p.0) in est && p.1 == est[Clave(p.0)]
    ensures forall c | c in cs && Clave(c) in est ::
      exists i | 0 <= i < |ConUbicacion(est, cs)| :: ConUbicacion(est, cs)[i].0 == c
    decreases |cs|
  {
    if cs != [] {
      var init := cs[..|cs| - 1];
      var c := cs[|cs| - 1];
      ConUbicacionCaracter(est, init);
      var r0 := ConUbicacion(est, init);
      var r := ConUbicacion(est, cs);
      assert cs == init + [c];
      assert r[..|r0|] == r0;
      forall i | 0 <= i < |r|
        ensures r[i].0 in cs && Clave(r[i].0) in est && r[i].1 == est[Clave(r[i].0)]
      {
        if i < |r0| {
          assert r[i] == r0[i];
          assert r0[i].0 in init && Clave(r0[i].0) in est;
        } else {
          assert Clave(c) in est && r == r0 + [(c, est[Clave(c)])];
        }
      }
      forall d | d in cs && Clave(d) in est
        ensures exists i | 0 <= i < |r| :: r[i].0 == d
      {
        if d in init {
          var i :| 0 <= i < |r0| && r0[i].0 == d;
          assert r[i] == r0[i];
        } else {
          assert d == c;
          assert r[|r| - 1].0 == d;
        }
      }
    }
  }

  function Celdas(cu: seq<Resuelta>): (r: seq<CeldaGsm>)
  {
    seq(|cu|, i requires 0 <= i < |cu| => cu[i].0)
  }

  function LatitudesEstaciones(cu: seq<Resuelta>): seq<real> {
    seq(|cu|, i requires 0 <= i < |cu| => cu[i].1.lat)
  }

  function LongitudesEstaciones(cu: seq<Resuelta>): seq<real> {
    seq(|cu|, i requires 0 <= i < |cu| => cu[i].1.lon)
  }

  function Fuerzas(cu: seq<Resuelta>): seq<real> {
    seq(|cu|, i requires 0 <= i < |cu| => cu[i].0.fuerzaSenal as real)
  }

  // ---------------------------------------------------------------------------
  // Signal-weighted centroid

  /** The normalised weights of `_metodo_centroide`: the strengths divided by
      their sum when it is positive, otherwise uniform. */
  function PesosSenal(fs: seq<real>): (r: seq<real>)
    requires |fs| > 0
    ensures |r| == |fs| && Suma(r) == 1.0
    ensures (forall i | 0 <= i < |fs| :: fs[i] >= 0.0) || Suma(fs) <= 0.0 ==>
              forall i | 0 <= i < |r| :: r[i] >= 0.0
  {
    if Suma(fs) > 0.0 then
      NormalizarSumaUno(fs);
      Dividir(fs, Suma(fs))
    else
      UniformeSumaUno(|fs|);
      Uniforme(|fs|)
  }

  function Desvios(xs: seq<real>, m: real): seq<real> {
    seq(|xs|, i requires 0 <= i < |xs| => (xs[i] - m) * (xs[i] - m))
  }

  /** No strength is negative, or the strengths sum to at most zero (uniform
      weights): then every weight of the centroid is non-negative. */
  predicate FuerzasCoherentes(cu: seq<Resuelta>) {
    (forall i | 0 <= i < |cu| :: cu[i].0.fuerzaSenal >= 0) || Suma(Fuerzas(cu)) <= 0.0
  }

  /** The argument of `np.sqrt` in `_metodo_centroide`: the weighted variance of
      the latitudes plus that of the longitudes. */
  function Varianza(cu: seq<Resuelta>): real
    requires |cu| > 0
  {
    var ws := PesosSenal(Fuerzas(cu));
    var lats := LatitudesEstaciones(cu);
    var lons := LongitudesEstaciones(cu);
    Media(Desvios(lats, Media(lats, ws)), ws) + Media(Desvios(lons, Media(lons, ws)), ws)
  }

  /** `_metodo_centroide`. */
  function CentroidePonderado(num: Numerica, cu: seq<Resuelta>, ahora: int): (r: UbicacionEstimada)
    requires |cu| > 0
    ensures r.metodo == Centroide && r.timestamp == ahora
    ensures |r.celdasUtilizadas| == |cu| && forall i | 0 <= i < |cu| :: r.celdasUtilizadas[i] == cu[i].0
  {
    var ws := PesosSenal(Fuerzas(cu));
    var lat := Media(LatitudesEstaciones(cu), ws);
    var lon := Media(LongitudesEstaciones(cu), ws);
    UbicacionEstimada(lat, lon, num.raiz(Varianza(cu)), Centroide, Celdas(cu), ahora)
  }

  /** With coherent strengths the weights are non-negative, so the variance
      handed to the square root is non-negative: the precision is a genuine
      square root and never NaN. */
  lemma VarianzaNoNegativa(cu: seq<Resuelta>)
    requires |cu| > 0 && FuerzasCoherentes(cu)
    ensures Varianza(cu) >= 0.0
  {
    var ws := PesosSenal(Fuerzas(cu));
    assert (forall i | 0 <= i < |Fuerzas(cu)| :: Fuerzas(cu)[i] >= 0.0) || Suma(Fuerzas(cu)) <= 0.0;
    var lats := LatitudesEstaciones(cu);
    var lons := LongitudesEstaciones(cu);
    DesviosAcotados(lats, Media(lats, ws));
    DesviosAcotados(lons, Media(lons, ws));
    var dlat := Desvios(lats, Media(lats, ws));
    var dlon := Desvios(lons, Media(lons, ws));
    MediaAcotada(dlat, ws, 0.0, Maximo(dlat));
    MediaAcotada(dlon, ws, 0.0, Maximo(dlon));
  }

  lemma DesviosAcotados(xs: seq<real>, m: real)
    requires |xs| > 0
    ensures forall i | 0 <= i < |xs| :: 0.0 <= Desvios(xs, m)[i] <= Maximo(Desvios(xs, m))
  {
    forall i | 0 <= i < |xs| ensures 0.0 <= Desvios(xs, m)[i] {
      var d := xs[i] - m;
      assert Desvios(xs, m)[i] == d * d;
      if d < 0.0 {
        assert (-d) * (-d) > 0.0;
      }
    }
  }

  /** With strengths 2 and -1 (sum 1, so weights 2 and -1) at latitudes 0 and 1
      on one meridian, the variance is -2: `np.sqrt` returns NaN there. */
  lemma VarianzaMixta(c: CeldaGsm, d: CeldaGsm)
    requires c.fuerzaSenal == 2 && d.fuerzaSenal == -1
    ensures var cu := [(c, Coordenada(0.0, 0.0)), (d, Coordenada(1.0, 0.0))];
      !FuerzasCoherentes(cu) && Varianza(cu) == -2.0
  {
    var cu := [(c, Coordenada(0.0, 0.0)), (d, Coordenada(1.0, 0.0))];
    assert Fuerzas(cu) == [2.0, -1.0];
    assert Suma([2.0, -1.0]) == 1.0 by {
      assert [2.0, -1.0][..1] == [2.0];
    }
    var ws := PesosSenal(Fuerzas(cu));
    assert ws == [2.0, -1.0];
    assert LatitudesEstaciones(cu) == [0.0, 1.0];
    assert LongitudesEstaciones(cu) == [0.0, 0.0];
    assert Media([0.0, 1.0], ws) == -1.0;
    assert Media([0.0, 0.0], ws) == 0.0;
    assert Desvios([0.0, 1.0], -1.0) == [1.0, 4.0];
    assert Desvios([0.0, 0.0], 0.0) == [0.0, 0.0];
    assert Media([1.0, 4.0], ws) == -2.0;
    assert Media([0.0, 0.0], ws) == 0.0;
  }

  /** When no strength is negative, or they sum to at most zero (uniform
      weights), the centroid lies inside any box holding all the stations; its
      precision is non-negative and it lists the input measurements. */
  lemma CentroideAcotado(num: Numerica, cu: seq<Resuelta>, ahora: int,
                         latLo: real, latHi: real, lonLo: real, lonHi: real)
    requires |cu| > 0 && FuerzasCoherentes(cu)
    requires forall i | 0 <= i < |cu| :: latLo <= cu[i].1.lat <= latHi && lonLo <= cu[i].1.lon <= lonHi
    ensures var r := CentroidePonderado(num, cu, ahora);
      && latLo <= r.latitud <= latHi && lonLo <= r.longitud <= lonHi
      && r.precision >= 0.0 && r.metodo == Centroide && r.celdasUtilizadas == Celdas(cu)
  {
    var fs := Fuerzas(cu);
    var ws := PesosSenal(fs);
    assert (forall i | 0 <= i < |fs| :: fs[i] >= 0.0) || Suma(fs) <= 0.0;
    MediaAcotada(LatitudesEstaciones(cu), ws, latLo, latHi);
    MediaAcotada(LongitudesEstaciones(cu), ws, lonLo, lonHi);
  }

  // ---------------------------------------------------------------------------
  // Two-cell interpolation

  /** The interpolation weight of the first of two strengths. */
  function PesoPrimera(f1: int, f2: int): (r: real)
  {
    if f1 + f2 > 0 then (f1 as real) / ((f1 + f2) as real) else 0.5
  }

  function PesoSegunda(f1: int, f2: int): (r: real)
  {
    if f1 + f2 > 0 then (f2 as real) / ((f1 + f2) as real) else 0.5
  }

  /** The interpolation of `_estimar_ubicacion_2_celdas` between two
      measurements with known stations, reporting the measurements `cs`. */
  function Interpolar(num: Numerica, a: Resuelta, b: Resuelta, cs: seq<CeldaGsm>, ahora: int)
    : (r: UbicacionEstimada)
    ensures r.metodo == DosCeldas && r.celdasUtilizadas == cs && r.timestamp == ahora
  {
    var p1 := PesoPrimera(a.0.fuerzaSenal, b.0.fuerzaSenal);
    var p2 := PesoSegunda(a.0.fuerzaSenal, b.0.fuerzaSenal);
    UbicacionEstimada(a.1.lat * p1 + b.1.lat * p2, a.1.lon * p1 + b.1.lon * p2,
                      num.distancia(a.1.lat, a.1.lon, b.1.lat, b.1.lon) * 0.5,
                      DosCeldas, cs, ahora)
  }

  /** `_estimar_ubicacion_2_celdas`. */
  function DosCeldasInterpolada(est: Estaciones, num: Numerica, cs: seq<CeldaGsm>, ahora: int)
    : (r: Option<UbicacionEstimada>)
  {
    if |cs| < 2 then None
    else
      var cu := ConUbicacion(est, cs);
      if |cu| < 2 then None
      else Some(Interpolar(num, cu[0], cu[1], cs, ahora))
  }

  /** The two weights sum to one, and are non-negative when both strengths are. */
  lemma PesosDosCeldas(f1: int, f2: int)
    ensures PesoPrimera(f1, f2) + PesoSegunda(f1, f2) == 1.0
    ensures f1 >= 0 && f2 >= 0 ==> PesoPrimera(f1, f2) >= 0.0 && PesoSegunda(f1, f2) >= 0.0
  {
    if f1 + f2 > 0 {
      var t := (f1 + f2) as real;
      assert (f1 as real) / t + (f2 as real) / t == t / t;
    }
  }

  /** `x` lies between `a` and `b`, in either order. */
  predicate Entre(x: real, a: real, b: real) {
    (a <= x <= b) || (b <= x <= a)
  }

  lemma EntreDos(a: real, b: real, p1: real, p2: real)
    requires p1 >= 0.0 && p2 >= 0.0 && p1 + p2 == 1.0
    ensures Entre(a * p1 + b * p2, a, b)
  {
    var d := b - a;
    assert a * p1 + b * p2 == a + d * p2;
    assert d * p2 + d * p1 == d;
    if d >= 0.0 {
      assert 0.0 <= d * p2 && 0.0 <= d * p1;
    } else {
      assert d * p2 <= 0.0 && d * p1 <= 0.0;
    }
  }

  /** The interpolation lies between the two stations when neither strength is
      negative, is their exact midpoint when the strengths sum to at most zero,
      and has half their distance as precision. */
  lemma InterpolarPropiedades(num: Numerica, a: Resuelta, b: Resuelta, cs: seq<CeldaGsm>, ahora: int)
    ensures var r := Interpolar(num, a, b, cs, ahora);
      var f1 := a.0.fuerzaSenal;
      var f2 := b.0.fuerzaSenal;
      && r.metodo == DosCeldas && r.celdasUtilizadas == cs && r.timestamp == ahora
      && r.precision == 0.5 * num.distancia(a.1.lat, a.1.lon, b.1.lat, b.1.lon) && r.precision >= 0.0
      && (f1 + f2 <= 0 ==> r.latitud == (a.1.lat + b.1.lat) / 2.0 && r.longitud == (a.1.lon + b.1.lon) / 2.0)
      && (f1 >= 0 && f2 >= 0 ==> Entre(r.latitud, a.1.lat, b.1.lat) && Entre(r.longitud, a.1.lon, b.1.lon))
  {
    var f1 := a.0.fuerzaSenal;
    var f2 := b.0.fuerzaSenal;
    PesosDosCeldas(f1, f2);
    if f1 >= 0 && f2 >= 0 {
      EntreDos(a.1.lat, b.1.lat, PesoPrimera(f1, f2), PesoSegunda(f1, f2));
      EntreDos(a.1.lon, b.1.lon, PesoPrimera(f1, f2), PesoSegunda(f1, f2));
    }
  }

  /** The fallback gives up exactly when it has fewer than two measurements or
      fewer than two of them have a known station; otherwise it interpolates
      between the first two known stations and reports all its input. Any pair
      of negative dBm readings sums below zero, so it then gives the midpoint. */
  lemma DosCeldasCasos(est: Estaciones, num: Numerica, cs: seq<CeldaGsm>, ahora: int)
    ensures var r := DosCeldasInterpolada(est, num, cs, ahora);
      var cu := ConUbicacion(est, cs);
      && (r.None? <==> |cs| < 2 || |cu| < 2)
      && (r.Some? ==> |cu| >= 2 && r.value == Interpolar(num, cu[0], cu[1], cs, ahora)
                      && r.value.celdasUtilizadas == cs)
  {
  }

  /** Two negative readings give the midpoint of the first two known stations. */
  lemma DosCeldasNegativas(est: Estaciones, num: Numerica, cs: seq<CeldaGsm>, ahora: int)
    requires |cs| >= 2 && |ConUbicacion(est, cs)| >= 2
    requires var cu := ConUbicacion(est, cs); cu[0].0.fuerzaSenal < 0 && cu[1].0.fuerzaSenal < 0
    ensures var r := DosCeldasInterpolada(est, num, cs, ahora);
      var cu := ConUbicacion(est, cs);
      && r.Some?
      && r.value.latitud == (cu[0].1.lat + cu[1].1.lat) / 2.0
      && r.value.longitud == (cu[0].1.lon + cu[1].1.lon) / 2.0
  {
    var cu := ConUbicacion(est, cs);
    InterpolarPropiedades(num, cu[0], cu[1], cs, ahora);
  }

  /** Only the first two measurements with a known station matter: appending
      further measurements changes neither the position nor the precision. */
  lemma DosCeldasSoloPrimeras(est: Estaciones, num: Numerica, cs: seq<CeldaGsm>, extra: seq<CeldaGsm>, ahora: int)
    requires |ConUbicacion(est, cs)| >= 2
    ensures var a := DosCeldasInterpolada(est, num, cs, ahora);
      var b := DosCeldasInterpolada(est, num, cs + extra, ahora);
      && a.Some? && b.Some?
      && a.value.latitud == b.value.latitud && a.value.longitud == b.value.longitud
      && a.value.precision == b.value.precision
  {
    ConUbicacionConcat(est, cs, extra);
    var cu := ConUbicacion(est, cs);
    var cu' := ConUbicacion(est, cs + extra);
    assert cu'[0] == cu[0] && cu'[1] == cu[1];
  }

  // ---------------------------------------------------------------------------
  // RSSI and TOA fits

  /** `_rssi_a_tiempo`: `max(-rssi / 100, 0.001)`. */
  function RssiATiempo(rssi: int): (r: real)
    ensures r >= 0.001
    ensures rssi <= -1 ==> r == -(rssi as real) / 100.0
    ensures rssi >= 0 ==> r == 0.001
  {
    var t := -(rssi as real) / 100.0;
    if t >= 0.001 then t else 0.001
  }

  /** `_modelo_propagacion_rssi` with path-loss exponent 3.0. */
  function ModeloPropagacion(num: Numerica, distancia: real, rssiReferencia: int): (r: real)
    ensures distancia * 1000.0 <= 1.0 ==> r == rssiReferencia as real - 30.0 * num.log10(1.0)
    ensures distancia * 1000.0 >= 1.0 ==> r == rssiReferencia as real - 30.0 * num.log10(distancia * 1000.0)
  {
    var d := distancia * 1000.0;
    (rssiReferencia as real) - 10.0 * 3.0 * num.log10(if d >= 1.0 then d else 1.0)
  }

  function Abs(x: real): (r: real)
    ensures r >= 0.0 && (r == x || r == -x)
  {
    if x >= 0.0 then x else -x
  }

  /** The objective of `_triangulacion_rssi` at one position. */
  function ErrorRssi(num: Numerica, cu: seq<Resuelta>, lat: real, lon: real): (r: real)
    ensures r >= 0.0
    decreases |cu|
  {
    if cu == [] then 0.0
    else
      var c := cu[0].0;
      var u := cu[0].1;
      var esperado := ModeloPropagacion(num, num.distancia(lat, lon, u.lat, u.lon), c.fuerzaSenal);
      Abs(esperado - (c.fuerzaSenal as real)) + ErrorRssi(num, cu[1..], lat, lon)
  }

  /** The nested `funcion_error` of `_triangulacion_rssi`, passed to the solver. */
  function ObjetivoRssi(num: Numerica, cu: seq<Resuelta>): ((real, real)) -> real {
    (p: (real, real)) => ErrorRssi(num, cu, p.0, p.1)
  }

  /** `_triangulacion_rssi`: minimise from the mean station position inside a
      box of half-width 0.1 degrees; the precision is the objective at the
      solution. */
  function EstimacionRssi(num: Numerica, cu: seq<Resuelta>, ahora: int): (r: Option<UbicacionEstimada>)
    requires |cu| > 0
    ensures r.Some? ==> r.value.precision >= 0.0 && r.value.metodo == Rssi && r.value.celdasUtilizadas == Celdas(cu)
  {
    var inicio := (MediaSimple(LatitudesEstaciones(cu)), MediaSimple(LongitudesEstaciones(cu)));
    var objetivo := ObjetivoRssi(num, cu);
    match num.minimizar(objetivo, inicio, Some(0.1))
    case None => None
    case Some(x) => Some(UbicacionEstimada(x.0, x.1, objetivo(x), Rssi, Celdas(cu), ahora))
  }

  /** The `tiempos` loop of `_triangulacion_toa`: station position and the
      time derived from the strength. */
  function Tiempos(cu: seq<Resuelta>): seq<(real, real, real)> {
    seq(|cu|, i requires 0 <= i < |cu| => (cu[i].1.lat, cu[i].1.lon, RssiATiempo(cu[i].0.fuerzaSenal)))
  }

  /** The objective of `_triangulacion_toa`: distance over 300000 km/µs
      against each derived time. */
  function ErrorToa(num: Numerica, ts: seq<(real, real, real)>, lat: real, lon: real): (r: real)
    ensures r >= 0.0
    decreases |ts|
  {
    if ts == [] then 0.0
    else
      var calculado := num.distancia(lat, lon, ts[0].0, ts[0].1) / 300000.0;
      Abs(calculado - ts[0].2) + ErrorToa(num, ts[1..], lat, lon)
  }

  function LatitudesTiempos(ts: seq<(real, real, real)>): seq<real> {
    seq(|ts|, i requires 0 <= i < |ts| => ts[i].0)
  }

  function LongitudesTiempos(ts: seq<(real, real, real)>): seq<real> {
    seq(|ts|, i requires 0 <= i < |ts| => ts[i].1)
  }

  /** The nested `funcion_error` of `_triangulacion_toa`, passed to the solver. */
  function ObjetivoToa(num: Numerica, ts: seq<(real, real, real)>): ((real, real)) -> real {
    (p: (real, real)) => ErrorToa(num, ts, p.0, p.1)
  }

  /** `_triangulacion_toa`: minimise from the mean station position, unbounded. */
  function EstimacionToa(num: Numerica, cu: seq<Resuelta>, ahora: int): (r: Option<UbicacionEstimada>)
    requires |cu| > 0
    ensures r.Some? ==> r.value.precision >= 0.0 && r.value.metodo == Toa && r.value.celdasUtilizadas == Celdas(cu)
  {
    var ts := Tiempos(cu);
    var inicio := (MediaSimple(LatitudesTiempos(ts)), MediaSimple(LongitudesTiempos(ts)));
    var objetivo := ObjetivoToa(num, ts);
    match num.minimizar(objetivo, inicio, None)
    case None => None
    case Some(x) => Some(UbicacionEstimada(x.0, x.1, objetivo(x), Toa, Celdas(cu), ahora))
  }

  // ---------------------------------------------------------------------------
  // Combination

  predicate PrecisionesNoNegativas(rs: seq<UbicacionEstimada>) {
    forall i | 0 <= i < |rs| :: rs[i].precision >= 0.0
  }

  function Precisiones(rs: seq<UbicacionEstimada>): seq<real> {
    seq(|rs|, i requires 0 <= i < |rs| => rs[i].precision)
  }

  function LatitudesEstimadas(rs: seq<UbicacionEstimada>): seq<real> {
    seq(|rs|, i requires 0 <= i < |rs| => rs[i].latitud)
  }

  function LongitudesEstimadas(rs: seq<UbicacionEstimada>): seq<real> {
    seq(|rs|, i requires 0 <= i < |rs| => rs[i].longitud)
  }

  function Inversas(ps: seq<real>): (r: seq<real>)
    requires forall i | 0 <= i < |ps| :: ps[i] >= 0.0
    ensures |r| == |ps| && forall i | 0 <= i < |ps| :: r[i] > 0.0
  {
    seq(|ps|, i requires 0 <= i < |ps| => 1.0 / (ps[i] + 0.001))
  }

  /** The weights of `_combinar_resultados`: `1/(p + 0.001)` normalised. With
      non-negative precisions they are all positive and sum to one. */
  function PesosPrecision(ps: seq<real>): (r: seq<real>)
    requires |ps| > 0 && forall i | 0 <= i < |ps| :: ps[i] >= 0.0
    ensures |r| == |ps| && Suma(r) == 1.0
    ensures forall i | 0 <= i < |r| :: r[i] > 0.0
  {
    var inv := Inversas(ps);
    SumaPositiva(inv);
    NormalizarSumaUno(inv);
    Dividir(inv, Suma(inv))
  }

  /** The `extend` loop: all the estimates' measurements, estimate by estimate. */
  function TodasCeldas(rs: seq<UbicacionEstimada>): seq<CeldaGsm>
    decreases |rs|
  {
    if rs == [] then [] else TodasCeldas(rs[..|rs| - 1]) + rs[|rs| - 1].celdasUtilizadas
  }

  function TotalCeldas(rs: seq<UbicacionEstimada>): nat
    decreases |rs|
  {
    if rs == [] then 0 else TotalCeldas(rs[..|rs| - 1]) + |rs[|rs| - 1].celdasUtilizadas|
  }

  /** The concatenation has one entry per measurement of every estimate, and a
      measurement is in it exactly when some estimate used it. */
  lemma {:induction false} TodasCeldasContenido(rs: seq<UbicacionEstimada>)
    ensures |TodasCeldas(rs)| == TotalCeldas(rs)
    ensures forall c :: c in TodasCeldas(rs) <==> exists i | 0 <= i < |rs| :: c in rs[i].celdasUtilizadas
    decreases |rs|
  {
    if rs != [] {
      var init := rs[..|rs| - 1];
      TodasCeldasContenido(init);
      forall c ensures c in TodasCeldas(rs) <==> exists i | 0 <= i < |rs| :: c in rs[i].celdasUtilizadas {
        if c in TodasCeldas(init) {
          var i :| 0 <= i < |init| && c in init[i].celdasUtilizadas;
          assert rs[i] == init[i];
        }
        if exists i | 0 <= i < |rs| :: c in rs[i].celdasUtilizadas {
          var i :| 0 <= i < |rs| && c in rs[i].celdasUtilizadas;
          if i < |init| {
            assert init[i] == rs[i];
          }
        }
      }
    }
  }

  /** `_combinar_resultados`. */
  function Combinacion(rs: seq<UbicacionEstimada>, ahora: int): (r: UbicacionEstimada)
    requires |rs| > 0 && PrecisionesNoNegativas(rs)
    ensures r.metodo == Combinado && r.celdasUtilizadas == TodasCeldas(rs) && r.timestamp == ahora
  {
    var ws := PesosPrecision(Precisiones(rs));
    UbicacionEstimada(Media(LatitudesEstimadas(rs), ws), Media(LongitudesEstimadas(rs), ws),
                      Media(Precisiones(rs), ws), Combinado, TodasCeldas(rs), ahora)
  }

  /** The combined estimate lies inside any box holding all the estimates, its
      precision between any bounds of theirs, and it is labelled COMBINADO. */
  lemma CombinacionAcotada(rs: seq<UbicacionEstimada>, ahora: int,
                           latLo: real, latHi: real, lonLo: real, lonHi: real, pLo: real, pHi: real)
    requires |rs| > 0 && PrecisionesNoNegativas(rs)
    requires forall i | 0 <= i < |rs| :: latLo <= rs[i].latitud <= latHi && lonLo <= rs[i].longitud <= lonHi
    requires forall i | 0 <= i < |rs| :: pLo <= rs[i].precision <= pHi
    ensures var r := Combinacion(rs, ahora);
      && latLo <= r.latitud <= latHi && lonLo <= r.longitud <= lonHi && pLo <= r.precision <= pHi
      && r.metodo == Combinado && r.celdasUtilizadas == TodasCeldas(rs) && r.timestamp == ahora
  {
    var ws := PesosPrecision(Precisiones(rs));
    MediaAcotada(LatitudesEstimadas(rs), ws, latLo, latHi);
    MediaAcotada(LongitudesEstimadas(rs), ws, lonLo, lonHi);
    MediaAcotada(Precisiones(rs), ws, pLo, pHi);
  }

  /** Combining a single estimate keeps its position and precision. */
  lemma CombinacionUnica(e: UbicacionEstimada, ahora: int)
    requires e.precision >= 0.0
    ensures var r := Combinacion([e], ahora);
      r.latitud == e.latitud && r.longitud == e.longitud && r.precision == e.precision
      && r.celdasUtilizadas == e.celdasUtilizadas
  {
    var ws := PesosPrecision(Precisiones([e]));
    assert LatitudesEstimadas([e]) == [e.latitud];
    assert LongitudesEstimadas([e]) == [e.longitud];
    assert Precisiones([e]) == [e.precision];
    assert ws == [ws[0]];
    MediaUnica(e.latitud, ws[0]);
    MediaUnica(e.longitud, ws[0]);
    MediaUnica(e.precision, ws[0]);
    assert TodasCeldas([e]) == TodasCeldas([]) + e.celdasUtilizadas;
  }

  // ---------------------------------------------------------------------------
  // Dispatch

  function Opcional(o: Option<UbicacionEstimada>): seq<UbicacionEstimada> {
    if o.Some? then [o.value] else []
  }

  /** The list `resultados` of `triangular_ubicacion` on the known-station pairs:
      the successful fits, then the centroid, which never fails. The fits'
      precisions are non-negative, and the centroid's is too when the strengths
      are coherent. */
  function Resultados(num: Numerica, cu: seq<Resuelta>, ahora: int): (r: seq<UbicacionEstimada>)
    requires |cu| > 0
    ensures |r| > 0 && forall i | 0 <= i < |r| - 1 :: r[i].precision >= 0.0
    ensures r[|r| - 1].metodo == Centroide
    ensures FuerzasCoherentes(cu) ==> PrecisionesNoNegativas(r)
  {
    Opcional(EstimacionRssi(num, cu, ahora)) + Opcional(EstimacionToa(num, cu, ahora))
      + [CentroidePonderado(num, cu, ahora)]
  }

  /** `triangular_ubicacion`. The centroid never fails, so `resultados` is never
      empty once two stations are known. */
  function Triangulacion(est: Estaciones, num: Numerica, ms: seq<CeldaGsm>, ahora: int)
    : (r: Option<UbicacionEstimada>)
    ensures r.Some? ==> r.value.timestamp == ahora
    ensures r.Some? ==> r.value.metodo == (if |ms| < 3 then DosCeldas else Combinado)
  {
    if |ms| < 3 then DosCeldasInterpolada(est, num, ms, ahora)
    else
      var cu := ConUbicacion(est, ms);
      if |cu| < 2 then None
      else
        var rs := Resultados(num, cu, ahora);
        if rs == [] then None else Some(Combinacion(rs, ahora))
  }

  /** Fewer than three measurements go to the two-cell fallback. From three on,
      the result is missing exactly when fewer than two stations are known, and
      is otherwise always a COMBINADO estimate, whose precision is non-negative
      when the known stations' strengths are coherent. */
  lemma TriangulacionDespacho(est: Estaciones, num: Numerica, ms: seq<CeldaGsm>, ahora: int)
    ensures |ms| < 3 ==> Triangulacion(est, num, ms, ahora) == DosCeldasInterpolada(est, num, ms, ahora)
    ensures |ms| >= 3 ==>
      var r := Triangulacion(est, num, ms, ahora);
      && (r.None? <==> |ConUbicacion(est, ms)| < 2)
      && (r.Some? ==> r.value.metodo == Combinado)
      && (r.Some? && FuerzasCoherentes(ConUbicacion(est, ms)) ==> r.value.precision >= 0.0)
  {
    if |ms| >= 3 && |ConUbicacion(est, ms)| >= 2 && FuerzasCoherentes(ConUbicacion(est, ms)) {
      var cu := ConUbicacion(est, ms);
      var rs := Resultados(num, cu, ahora);
      var ws := PesosPrecision(Precisiones(rs));
      SumaNoNegativaPonderada(rs, ws);
    }
  }

  lemma SumaNoNegativaPonderada(rs: seq<UbicacionEstimada>, ws: seq<real>)
    requires |rs| == |ws| && PrecisionesNoNegativas(rs)
    requires (forall i | 0 <= i < |ws| :: ws[i] >= 0.0) && Suma(ws) > 0.0
    ensures Media(Precisiones(rs), ws) >= 0.0
  {
    var ps := Precisiones(rs);
    if |ps| > 0 {
      MediaAcotada(ps, ws, 0.0, Maximo(ps));
    }
  }

  /** When both solver fits fail, the combined estimate sits exactly at the
      centroid, with the centroid's precision. */
  lemma TriangulacionSoloCentroide(est: Estaciones, num: Numerica, ms: seq<CeldaGsm>, ahora: int)
    requires |ms| >= 3 && |ConUbicacion(est, ms)| >= 2
    requires EstimacionRssi(num, ConUbicacion(est, ms), ahora).None?
    requires EstimacionToa(num, ConUbicacion(est, ms), ahora).None?
    ensures var r := Triangulacion(est, num, ms, ahora);
      var c := CentroidePonderado(num, ConUbicacion(est, ms), ahora);
      && r.Some? && r.value.metodo == Combinado
      && r.value.latitud == c.latitud && r.value.longitud == c.longitud && r.value.precision == c.precision
  {
    var cu := ConUbicacion(est, ms);
    var c := CentroidePonderado(num, cu, ahora);
    assert Resultados(num, cu, ahora) == [c];
    assert Triangulacion(est, num, ms, ahora) == Some(Combinacion([c], ahora));
    CombinacionUnica(c, ahora);
  }
}
