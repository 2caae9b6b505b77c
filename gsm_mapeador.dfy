/** `MapeadorGSM`: the per-IMSI trajectory, capped at 100 estimates, and its
    GeoJSON-shaped projection. */
module GsmMapeador {
  import opened Fifo
  import opened GsmModelo

  /** The number of estimates kept per IMSI. */
  const MaxTrayectoria: nat := 100

  /** A GeoJSON feature of a trajectory: a `Point` with its position as
      `[lon, lat]`, timestamp, precision and `orden`, or the `LineString`
      through all the points with the IMSI and `num_puntos`. */
  datatype Feature =
    | Punto(coordenadas: (real, real), timestamp: int, precision: real, orden: nat)
    | Linea(puntos: seq<(real, real)>, imsi: string, numPuntos: nat)

  /** The result of `generar_trayectoria_imsi`: `{}` for an IMSI with no
      trajectory, otherwise a `FeatureCollection`. */
  datatype Trayectoria = Vacia | Coleccion(features: seq<Feature>)

  function PuntoDe(u: UbicacionEstimada, i: nat): Feature {
    Punto((u.longitud, u.latitud), u.timestamp, u.precision, i)
  }

  function Coordenadas(us: seq<UbicacionEstimada>): seq<(real, real)> {
    seq(|us|, i requires 0 <= i < |us| => (us[i].longitud, us[i].latitud))
  }

  /** The projection of one IMSI's trajectory. */
  function TrayectoriaDe(trayectorias: map<string, seq<UbicacionEstimada>>, imsi: string): (r: Trayectoria)
    ensures r.Vacia? <==> imsi !in trayectorias
  {
    if imsi !in trayectorias then Vacia
    else
      var us := trayectorias[imsi];
      Coleccion(seq(|us|, i requires 0 <= i < |us| => PuntoDe(us[i], i))
                + (if |us| > 1 then [Linea(Coordenadas(us), imsi, |us|)] else []))
  }

  /** An IMSI without a trajectory gives `{}`. Otherwise there is one `Point`
      per estimate, in order, numbered from 0 and placed at `[lon, lat]`,
      followed by a single `LineString` through all of them, counting them,
      exactly when there are at least two. */
  lemma TrayectoriaForma(trayectorias: map<string, seq<UbicacionEstimada>>, imsi: string)
    ensures TrayectoriaDe(trayectorias, imsi).Vacia? <==> imsi !in trayectorias
    ensures imsi in trayectorias ==>
      var us := trayectorias[imsi];
      var fs := TrayectoriaDe(trayectorias, imsi).features;
      && |fs| == |us| + (if |us| > 1 then 1 else 0)
      && (forall i | 0 <= i < |us| ::
            fs[i].Punto? && fs[i].orden == i && fs[i].coordenadas == (us[i].longitud, us[i].latitud)
            && fs[i].timestamp == us[i].timestamp && fs[i].precision == us[i].precision)
      && ((exists i | 0 <= i < |fs| :: fs[i].Linea?) <==> |us| > 1)
      && (|us| > 1 ==> fs[|us|].numPuntos == |us| && fs[|us|].imsi == imsi && |fs[|us|].puntos| == |us|)
  {
    if imsi in trayectorias {
      var us := trayectorias[imsi];
      var fs := TrayectoriaDe(trayectorias, imsi).features;
      if |us| > 1 {
        assert fs[|us|].Linea?;
      }
    }
  }

  class MapeadorGsm {
    var trayectorias: map<string, seq<UbicacionEstimada>>

    ghost predicate Valid()
      reads this
    {
      forall k | k in trayectorias :: 0 < |trayectorias[k]| <= MaxTrayectoria
    }

    constructor()
      ensures Valid() && trayectorias == map[]
    {
      trayectorias := map[];
    }

    function Trayectoria(imsi: string): seq<UbicacionEstimada>
      reads this
    {
      if imsi in trayectorias then trayectorias[imsi] else []
    }

    /** `actualizar_trayectoria`: append to the IMSI's `defaultdict` list and
        drop its oldest entry once it holds more than 100. */
    method ActualizarTrayectoria(imsi: string, ubicacion: UbicacionEstimada)
      requires Valid()
      modifies this
      ensures Valid()
      ensures trayectorias == old(trayectorias)[imsi :=
        AgregarAcotado(old(Trayectoria(imsi)), ubicacion, MaxTrayectoria)]
    {
      if imsi !in trayectorias {
        trayectorias := trayectorias[imsi := []];
      }
      trayectorias := trayectorias[imsi := trayectorias[imsi] + [ubicacion]];
      if |trayectorias[imsi]| > MaxTrayectoria {
        trayectorias := trayectorias[imsi := trayectorias[imsi][1..]];
      }
    }

    /** `generar_trayectoria_imsi`. */
    method GenerarTrayectoriaImsi(imsi: string) returns (r: Trayectoria)
      ensures r == TrayectoriaDe(trayectorias, imsi)
    {
      if imsi !in trayectorias {
        return Vacia;
      }
      var us := trayectorias[imsi];
      var features: seq<Feature> := [];
      for i := 0 to |us|
        invariant |features| == i && forall j | 0 <= j < i :: features[j] == PuntoDe(us[j], j)
      {
        features := features + [Punto((us[i].longitud, us[i].latitud), us[i].timestamp, us[i].precision, i)];
      }
      if |us| > 1 {
        var coordenadas := Coordenadas(us);
        features := features + [Linea(coordenadas, imsi, |coordenadas|)];
      }
      r := Coleccion(features);
    }
  }

  /** After an update the IMSI's trajectory holds at most 100 estimates, ends
      with the new one, and is the last (at most) 100 of the old trajectory
      extended with it; at capacity the oldest is the one dropped. */
  lemma TrayectoriaTrasActualizar(t: seq<UbicacionEstimada>, u: UbicacionEstimada)
    requires |t| <= MaxTrayectoria
    ensures var r := AgregarAcotado(t, u, MaxTrayectoria);
      && 0 < |r| <= MaxTrayectoria && r[|r| - 1] == u
      && r == Ultimos(t + [u], MaxTrayectoria)
      && (|t| == MaxTrayectoria ==> r == t[1..] + [u])
  {
    AgregarAcotadoUltimos(t, u, MaxTrayectoria);
  }
}
