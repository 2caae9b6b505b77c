/** `AnalizadorGSMAvanzado`: per-IMSI current measurements, triangulation once
    an IMSI has two of them, the list of estimates, the trajectories and the
    five-minute purge. "Now" is a parameter, used both as the estimates'
    timestamp and as the purge's reference time. */
module GsmAnalizador {
  import opened Wrappers
  import opened Fifo
  import opened GsmModelo
  import opened GsmEstimadores
  import opened GsmTriangulador
  import opened GsmMapeador

  /** The list comprehension of `_limpiar_mediciones_antiguas`: the
      measurements less than five minutes old, in order. */
  function Vigentes(ms: seq<CeldaGsm>, ahora: int): (r: seq<CeldaGsm>)
    ensures |r| <= |ms|
    decreases |ms|
  {
    if ms == [] then []
    else
      var c := ms[|ms| - 1];
      Vigentes(ms[..|ms| - 1], ahora) + (if ahora - c.timestamp < CincoMinutosUs then [c] else [])
  }

  /** The purge applied to every IMSI; an IMSI whose list empties keeps its key. */
  function Purgar(m: map<string, seq<CeldaGsm>>, ahora: int): (r: map<string, seq<CeldaGsm>>)
    ensures r.Keys == m.Keys
  {
    map k | k in m :: Vigentes(m[k], ahora)
  }

  /** The purge keeps exactly the measurements less than five minutes old... */
  lemma {:induction false} VigentesContenido(ms: seq<CeldaGsm>, ahora: int)
    ensures forall c :: c in Vigentes(ms, ahora) <==> c in ms && ahora - c.timestamp < CincoMinutosUs
    decreases |ms|
  {
    if ms != [] {
      VigentesContenido(ms[..|ms| - 1], ahora);
      assert ms == ms[..|ms| - 1] + [ms[|ms| - 1]];
    }
  }

  /** ...in their original order: purging a concatenation purges each part. */
  lemma {:induction false} VigentesConcat(a: seq<CeldaGsm>, b: seq<CeldaGsm>, ahora: int)
    ensures Vigentes(a + b, ahora) == Vigentes(a, ahora) + Vigentes(b, ahora)
    decreases |b|
  {
    if b == [] {
      assert a + b == a;
    } else {
      var b' := b[..|b| - 1];
      assert (a + b)[..|a + b| - 1] == a + b';
      VigentesConcat(a, b', ahora);
    }
  }

  /** A list of recent measurements is left as it is. */
  lemma {:induction false} VigentesRecientes(ms: seq<CeldaGsm>, ahora: int)
    requires forall i | 0 <= i < |ms| :: ahora - ms[i].timestamp < CincoMinutosUs
    ensures Vigentes(ms, ahora) == ms
    decreases |ms|
  {
    if ms != [] {
      VigentesRecientes(ms[..|ms| - 1], ahora);
      assert ms == ms[..|ms| - 1] + [ms[|ms| - 1]];
    }
  }

  /** Purging twice at the same time is purging once. */
  lemma VigentesIdempotente(ms: seq<CeldaGsm>, ahora: int)
    ensures Vigentes(Vigentes(ms, ahora), ahora) == Vigentes(ms, ahora)
  {
    var v := Vigentes(ms, ahora);
    VigentesContenido(ms, ahora);
    forall i | 0 <= i < |v| ensures ahora - v[i].timestamp < CincoMinutosUs {
      assert v[i] in v;
    }
    VigentesRecientes(v, ahora);
  }

  class AnalizadorGsmAvanzado {
    const triangulador: TrianguladorGsm
    const mapeador: MapeadorGsm
    var medicionesActuales: map<string, seq<CeldaGsm>>
    var ubicacionesEstimadas: seq<UbicacionEstimada>

    ghost predicate Valid()
      reads this, triangulador, mapeador
    {
      triangulador.Valid() && mapeador.Valid()
    }

    constructor(estaciones: Estaciones, num: Numerica)
      ensures Valid() && fresh(triangulador) && fresh(mapeador)
      ensures triangulador.estaciones == estaciones && triangulador.num == num
      ensures triangulador.historialMediciones == map[] && mapeador.trayectorias == map[]
      ensures medicionesActuales == map[] && ubicacionesEstimadas == []
    {
      triangulador := new TrianguladorGsm(estaciones, num);
      mapeador := new MapeadorGsm();
      medicionesActuales := map[];
      ubicacionesEstimadas := [];
    }

    function Mediciones(imsi: string): seq<CeldaGsm>
      reads this
    {
      if imsi in medicionesActuales then medicionesActuales[imsi] else []
    }

    /** `procesar_medicion_celda`: record the measurement in the cell history
        and in the IMSI's list; with at least two measurements, triangulate and
        keep any estimate in the list and in the trajectory; then purge. */
    method ProcesarMedicionCelda(imsi: string, celda: CeldaGsm, ahora: int)
      requires Valid()
      modifies this, triangulador, mapeador
      ensures Valid()
      ensures triangulador.historialMediciones == old(triangulador.historialMediciones)[Clave(celda) :=
        AgregarAcotado(old(triangulador.Historial(Clave(celda))), celda, MaxMedicionesPorCelda)]
      ensures var lista := old(Mediciones(imsi)) + [celda];
        var u := if |lista| >= 2 then Triangulacion(triangulador.estaciones, triangulador.num, lista, ahora)
                 else None;
        && ubicacionesEstimadas == old(ubicacionesEstimadas) + Opcional(u)
        && mapeador.trayectorias ==
             (if u.Some? then old(mapeador.trayectorias)[imsi := AgregarAcotado(old(mapeador.Trayectoria(imsi)), u.value, MaxTrayectoria)]
              else old(mapeador.trayectorias))
        && medicionesActuales == Purgar(old(medicionesActuales)[imsi := lista], ahora)
    {
      triangulador.AgregarMedicionCelda(celda);
      var lista := Mediciones(imsi) + [celda];
      medicionesActuales := medicionesActuales[imsi := lista];
      if |lista| >= 2 {
        var ubicacion := triangulador.TriangularUbicacion(lista, ahora);
        if ubicacion.Some? {
          ubicacionesEstimadas := ubicacionesEstimadas + [ubicacion.value];
          mapeador.ActualizarTrayectoria(imsi, ubicacion.value);
        }
      }
      LimpiarMedicionesAntiguas(ahora);
    }

    /** `_limpiar_mediciones_antiguas`, IMSI by IMSI. */
    method LimpiarMedicionesAntiguas(ahora: int)
      modifies this
      ensures medicionesActuales == Purgar(old(medicionesActuales), ahora)
      ensures ubicacionesEstimadas == old(ubicacionesEstimadas)
    {
      ghost var original := medicionesActuales;
      var pendientes := medicionesActuales.Keys;
      while pendientes != {}
        invariant pendientes <= original.Keys && medicionesActuales.Keys == original.Keys
        invariant forall k | k in original ::
          medicionesActuales[k] == if k in pendientes then original[k] else Vigentes(original[k], ahora)
        invariant ubicacionesEstimadas == old(ubicacionesEstimadas)
        decreases |pendientes|
      {
        var imsi :| imsi in pendientes;
        medicionesActuales := medicionesActuales[imsi := Vigentes(medicionesActuales[imsi], ahora)];
        pendientes := pendientes - {imsi};
      }
    }
  }
}
