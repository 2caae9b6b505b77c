/** The records of gsmlocation.py and the numerical routines it calls.
    Coordinates and precisions are exact reals; a timestamp is an integer
    number of microseconds. Haversine distance, `math.log10`, `np.sqrt` and
    `scipy.optimize.minimize` are not modelled: they are fields of a
    `Numerica` value that every estimator receives. */
module GsmModelo {
  import opened Wrappers

  /** `CeldaGSM`. */
  datatype CeldaGsm = CeldaGsm(mcc: string, mnc: string, lac: string, cellId: string,
                               arfcn: int, bsic: int, fuerzaSenal: int,
                               latitud: real, longitud: real, timestamp: int, tipoCelda: string)

  /** The estimator that produced an estimate; the source uses the strings
      "RSSI", "TOA", "CENTROIDE", "2_CELDAS" and "COMBINADO". */
  datatype Metodo = Rssi | Toa | Centroide | DosCeldas | Combinado

  /** `UbicacionEstimada`. */
  datatype UbicacionEstimada = UbicacionEstimada(latitud: real, longitud: real, precision: real,
                                                 metodo: Metodo, celdasUtilizadas: seq<CeldaGsm>,
                                                 timestamp: int)

  /** A base-station entry of `gsm_cell_database.json`: its `lat` and `lon`. */
  datatype Coordenada = Coordenada(lat: real, lon: real)

  /** The station database, keyed by `mcc-mnc-lac-cell_id`. */
  type Estaciones = map<string, Coordenada>

  type NoNegativo = x: real | x >= 0.0

  /** The numerical routines, as functions the model does not look into.
      `distancia(lat1, lon1, lat2, lon2)` is the haversine distance in km and
      `raiz` is the square root; both are non-negative. On a negative argument,
      where `np.sqrt` gives NaN, `raiz` yields some non-negative real. `minimizar(f, x0,
      radio)` is L-BFGS-B started at `x0`, inside the box of half-width `radio`
      around it when one is given; `None` means the solver reported failure
      (or raised, which the callers catch). */
  datatype Numerica = Numerica(
    distancia: (real, real, real, real) -> NoNegativo,
    log10: real -> real,
    raiz: real -> NoNegativo,
    minimizar: (((real, real)) -> real, (real, real), Option<real>) -> Option<(real, real)>)

  /** `f"{mcc}-{mnc}-{lac}-{cell_id}"`, the key of both the station database
      and the measurement history. */
  function Clave(c: CeldaGsm): (r: string)
    ensures |r| == |c.mcc| + |c.mnc| + |c.lac| + |c.cellId| + 3
    ensures r[..|c.mcc|] == c.mcc && r[|c.mcc|] == '-'
  {
    c.mcc + "-" + c.mnc + "-" + c.lac + "-" + c.cellId
  }

  /** `timedelta(minutes=5)` in microseconds. */
  const CincoMinutosUs: int := 300_000_000
}
