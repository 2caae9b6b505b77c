/** `TrianguladorGSM`: the per-cell measurement history and the loops of the
    estimators, each proved equal to its reference function in
    `GsmEstimadores`. */
module GsmTriangulador {
  import opened Wrappers
  import opened Fifo
  import opened Promedios
  import opened GsmModelo
  import opened GsmEstimadores

  /** The number of measurements kept per cell. */
  const MaxMedicionesPorCelda: nat := 50

  class TrianguladorGsm {
    /** `estaciones_base`, as loaded from the station database. */
    const estaciones: Estaciones
    const num: Numerica
    var historialMediciones: map<string, seq<CeldaGsm>>

    ghost predicate Valid()
      reads this
    {
      forall k | k in historialMediciones :: 0 < |historialMediciones[k]| <= MaxMedicionesPorCelda
    }

    constructor(estaciones: Estaciones, num: Numerica)
      ensures Valid()
      ensures this.estaciones == estaciones && this.num == num && historialMediciones == map[]
    {
      this.estaciones := estaciones;
      this.num := num;
      historialMediciones := map[];
    }

    function Historial(clave: string): seq<CeldaGsm>
      reads this
    {
      if clave in historialMediciones then historialMediciones[clave] else []
    }

    /** `agregar_medicion_celda`: append to the cell's `defaultdict` list and
        drop its oldest entry once it holds more than 50. */
    method AgregarMedicionCelda(celda: CeldaGsm)
      requires Valid()
      modifies this
      ensures Valid()
      ensures historialMediciones == old(historialMediciones)[Clave(celda) :=
        AgregarAcotado(old(Historial(Clave(celda))), celda, MaxMedicionesPorCelda)]
    {
      var clave := Clave(celda);
      if clave !in historialMediciones {
        historialMediciones := historialMediciones[clave := []];
      }
      historialMediciones := historialMediciones[clave := historialMediciones[clave] + [celda]];
      if |historialMediciones[clave]| > MaxMedicionesPorCelda {
        historialMediciones := historialMediciones[clave := historialMediciones[clave][1..]];
      }
    }

    /** The `celdas_con_ubicacion` loop shared by `triangular_ubicacion` and
        `_estimar_ubicacion_2_celdas`. `_triangulacion_rssi` has no loop of its
        own: its only loop is the objective handed to the solver, which must be
        a function value, so it is the function `EstimacionRssi`. The TOA fit
        does have one, the `tiempos` loop of `TriangulacionToa`. */
    method FiltrarConUbicacion(cs: seq<CeldaGsm>) returns (cu: seq<Resuelta>)
      ensures cu == ConUbicacion(estaciones, cs)
    {
      cu := [];
      for i := 0 to |cs|
        invariant cu == ConUbicacion(estaciones, cs[..i])
      {
        var celda := cs[i];
        var ubicacion := UbicacionCelda(estaciones, celda);
        if ubicacion.Some? {
          cu := cu + [(celda, ubicacion.value)];
        }
        assert cs[..i + 1][..i] == cs[..i];
      }
      assert cs[..|cs|] == cs;
    }

    /** `_metodo_centroide`: the loop collecting latitudes, longitudes and
        strengths, then the weighted means. */
    method MetodoCentroide(cu: seq<Resuelta>, ahora: int) returns (r: UbicacionEstimada)
      requires |cu| > 0
      ensures r == CentroidePonderado(num, cu, ahora)
    {
      var lats: seq<real> := [];
      var lons: seq<real> := [];
      var pesos: seq<real> := [];
      for i := 0 to |cu|
        invariant |lats| == i && |lons| == i && |pesos| == i
        invariant forall j | 0 <= j < i :: lats[j] == cu[j].1.lat && lons[j] == cu[j].1.lon
        invariant forall j | 0 <= j < i :: pesos[j] == cu[j].0.fuerzaSenal as real
      {
        lats := lats + [cu[i].1.lat];
        lons := lons + [cu[i].1.lon];
        pesos := pesos + [cu[i].0.fuerzaSenal as real];
      }
      assert lats == LatitudesEstaciones(cu);
      assert lons == LongitudesEstaciones(cu);
      assert pesos == Fuerzas(cu);
      var ws := PesosSenal(pesos);
      var lat := Media(lats, ws);
      var lon := Media(lons, ws);
      var precision := num.raiz(Media(Desvios(lats, lat), ws) + Media(Desvios(lons, lon), ws));
      r := UbicacionEstimada(lat, lon, precision, Centroide, Celdas(cu), ahora);
    }

    /** `_estimar_ubicacion_2_celdas`. */
    method EstimarUbicacionDosCeldas(cs: seq<CeldaGsm>, ahora: int) returns (r: Option<UbicacionEstimada>)
      ensures r == DosCeldasInterpolada(estaciones, num, cs, ahora)
    {
      if |cs| < 2 {
        return None;
      }
      var cu := FiltrarConUbicacion(cs);
      if |cu| < 2 {
        return None;
      }
      return Some(Interpolar(num, cu[0], cu[1], cs, ahora));
    }

    /** `_triangulacion_toa`: the `tiempos` loop, then the solver. */
    method TriangulacionToa(cu: seq<Resuelta>, ahora: int) returns (r: Option<UbicacionEstimada>)
      requires |cu| > 0
      ensures r == EstimacionToa(num, cu, ahora)
    {
      var tiempos: seq<(real, real, real)> := [];
      for i := 0 to |cu|
        invariant |tiempos| == i
        invariant forall j | 0 <= j < i :: tiempos[j] == (cu[j].1.lat, cu[j].1.lon, RssiATiempo(cu[j].0.fuerzaSenal))
      {
        tiempos := tiempos + [(cu[i].1.lat, cu[i].1.lon, RssiATiempo(cu[i].0.fuerzaSenal))];
      }
      assert tiempos == Tiempos(cu);
      var inicio := (MediaSimple(LatitudesTiempos(tiempos)), MediaSimple(LongitudesTiempos(tiempos)));
      var objetivo := ObjetivoToa(num, tiempos);
      var resultado := num.minimizar(objetivo, inicio, None);
      if resultado.Some? {
        var x := resultado.value;
        r := Some(UbicacionEstimada(x.0, x.1, objetivo(x), Toa, Celdas(cu), ahora));
      } else {
        r := None;
      }
    }

    /** `_combinar_resultados`: the weights, the means and the `extend` loop. */
    method CombinarResultados(rs: seq<UbicacionEstimada>, ahora: int) returns (r: UbicacionEstimada)
      requires |rs| > 0 && PrecisionesNoNegativas(rs)
      ensures r == Combinacion(rs, ahora)
    {
      var ws := PesosPrecision(Precisiones(rs));
      var todas: seq<CeldaGsm> := [];
      for i := 0 to |rs|
        invariant todas == TodasCeldas(rs[..i])
      {
        todas := todas + rs[i].celdasUtilizadas;
        assert rs[..i + 1][..i] == rs[..i];
      }
      assert rs[..|rs|] == rs;
      r := UbicacionEstimada(Media(LatitudesEstimadas(rs), ws), Media(LongitudesEstimadas(rs), ws),
                             Media(Precisiones(rs), ws), Combinado, todas, ahora);
    }

    /** `triangular_ubicacion`. `if resultado_centroide` and `if not resultados`
        always hold and never hold, respectively: the centroid is an object,
        never `None`, and it has just been appended. */
    method TriangularUbicacion(ms: seq<CeldaGsm>, ahora: int) returns (r: Option<UbicacionEstimada>)
      ensures r == Triangulacion(estaciones, num, ms, ahora)
    {
      if |ms| < 3 {
        r := EstimarUbicacionDosCeldas(ms, ahora);
        return;
      }
      var cu := FiltrarConUbicacion(ms);
      if |cu| < 2 {
        return None;
      }
      var resultados: seq<UbicacionEstimada> := [];
      var rssi := EstimacionRssi(num, cu, ahora);
      if rssi.Some? {
        resultados := resultados + [rssi.value];
      }
      var toa := TriangulacionToa(cu, ahora);
      if toa.Some? {
        resultados := resultados + [toa.value];
      }
      var centroide := MetodoCentroide(cu, ahora);
      resultados := resultados + [centroide];
      assert resultados == Resultados(num, cu, ahora);
      var combinado := CombinarResultados(resultados, ahora);
      r := Some(combinado);
    }
  }

  /** After a measurement is added, its cell's history holds at most 50 entries,
      ends with the new one, and is the last (at most) 50 of the old history
      extended with it. */
  lemma HistorialTrasAgregar(h: seq<CeldaGsm>, celda: CeldaGsm)
    requires |h| <= MaxMedicionesPorCelda
    ensures var r := AgregarAcotado(h, celda, MaxMedicionesPorCelda);
      && 0 < |r| <= MaxMedicionesPorCelda && r[|r| - 1] == celda
      && r == Ultimos(h + [celda], MaxMedicionesPorCelda)
  {
    AgregarAcotadoUltimos(h, celda, MaxMedicionesPorCelda);
  }
}
