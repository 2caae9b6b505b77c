/** The IMSI list and TMSI->IMSI association table that `mostrar_imsi` (imsi.py)
    and `show_imsi` (imsi-2.py) keep in globals. Both files process the two IMSIs
    and the TMSI reallocation identically; the step functions are stated once
    here and each file's module composes them with its own handling of TMSIs
    that have no IMSI. */
module TablaImsi {
  import opened Texto

  type Id = seq<byte>

  /** The list of detected IMSIs, the TMSI table and the IMSI counter. */
  datatype Tabla = Tabla(imsis: seq<Id>, tmsis: map<Id, Id>, contador: nat)

  predicate SinRepetidos(s: seq<Id>) {
    forall i, j | 0 <= i < j < |s| :: s[i] != s[j]
  }

  /** The list is duplicate-free and the counter equals its length. */
  predicate Consistente(t: Tabla) {
    SinRepetidos(t.imsis) && t.contador == |t.imsis|
  }

  /** `imsi and (not a_seguir or imsi[:len(a_seguir)] == a_seguir)`. */
  predicate Acepta(aSeguir: Id, imsi: Id) {
    imsi != [] && (aSeguir == [] || Tomar(imsi, |aSeguir|) == aSeguir)
  }

  /** Append a new IMSI and count it; a known IMSI changes nothing. */
  function Registrar(t: Tabla, imsi: Id): (r: Tabla)
  {
    if imsi in t.imsis then t else Tabla(t.imsis + [imsi], t.tmsis, t.contador + 1)
  }

  /** The test of the TMSI loop: a non-empty TMSI not yet mapped to `imsi`. */
  predicate Remapea(m: map<Id, Id>, tmsi: Id, imsi: Id) {
    tmsi != [] && (tmsi !in m || m[tmsi] != imsi)
  }

  /** One step of the TMSI loop: a TMSI that passes the test is mapped to `imsi`. */
  function AsociarUno(m: map<Id, Id>, tmsi: Id, imsi: Id): (r: map<Id, Id>)
  {
    if Remapea(m, tmsi, imsi) then m[tmsi := imsi] else m
  }

  /** The loop `for tmsi in [tmsi1, tmsi2]` over any list of TMSIs. */
  function AsociarLista(m: map<Id, Id>, ts: seq<Id>, imsi: Id): (r: map<Id, Id>)
    decreases |ts|
  {
    if ts == [] then m else AsociarUno(AsociarLista(m, ts[..|ts| - 1], imsi), ts[|ts| - 1], imsi)
  }

  /** Whether some step of the TMSI loop passes its test (each one sets the
      print flag). */
  predicate RemapeaLista(m: map<Id, Id>, ts: seq<Id>, imsi: Id)
    decreases |ts|
  {
    ts != [] &&
      (RemapeaLista(m, ts[..|ts| - 1], imsi) || Remapea(AsociarLista(m, ts[..|ts| - 1], imsi), ts[|ts| - 1], imsi))
  }

  /** The block for one IMSI argument, when the tracking filter accepts it. */
  function ProcesarImsi(t: Tabla, aSeguir: Id, imsi: Id, t1: Id, t2: Id): (r: Tabla)
  {
    if Acepta(aSeguir, imsi) then
      var u := Registrar(t, imsi);
      u.(tmsis := AsociarLista(u.tmsis, [t1, t2], imsi))
    else t
  }

  /** `imsi1 = m[tmsi2]; m[tmsi1] = imsi1; del m[tmsi2]`. */
  function Reasignar(m: map<Id, Id>, t1: Id, t2: Id): (r: map<Id, Id>)
    requires t2 in m
  {
    m[t1 := m[t2]] - {t2}
  }

  predicate HayReasignacion(t: Tabla, i1: Id, i2: Id, t1: Id, t2: Id) {
    i1 == [] && i2 == [] && t1 != [] && t2 != [] && t2 in t.tmsis
  }

  /** The part of the procedure both files share: IMSI 1, IMSI 2, then the TMSI
      reallocation. Also returns the value local variable `imsi1` has afterwards
      (the reallocation rebinds it to the IMSI of `tmsi2`). */
  function Comun(t: Tabla, aSeguir: Id, i1: Id, i2: Id, t1: Id, t2: Id): (r: (Tabla, Id))
    ensures |t.imsis| <= |r.0.imsis| && r.0.imsis[..|t.imsis|] == t.imsis
    ensures r.1 != i1 ==>
      && i1 == [] && i2 == [] && t2 !in r.0.tmsis
      && (t1 != t2 ==> t1 in r.0.tmsis && r.0.tmsis[t1] == r.1)
  {
    var tb := ProcesarImsi(ProcesarImsi(t, aSeguir, i1, t1, t2), aSeguir, i2, t1, t2);
    if HayReasignacion(tb, i1, i2, t1, t2) then
      (tb.(tmsis := Reasignar(tb.tmsis, t1, t2)), tb.tmsis[t2])
    else (tb, i1)
  }

  /** Whether the block for one IMSI argument sets the print flag: the IMSI
      passes the filter and is new, or the loop remaps one of the TMSIs. */
  predicate ImprimeImsi(t: Tabla, aSeguir: Id, imsi: Id, t1: Id, t2: Id) {
    Acepta(aSeguir, imsi) && (imsi !in t.imsis || RemapeaLista(t.tmsis, [t1, t2], imsi))
  }

  /** `debe_imprimir` / `do_print` once the shared part has run: set by either
      IMSI block or by a reallocation. */
  predicate Imprime(t: Tabla, aSeguir: Id, i1: Id, i2: Id, t1: Id, t2: Id) {
    var ta := ProcesarImsi(t, aSeguir, i1, t1, t2);
    || ImprimeImsi(t, aSeguir, i1, t1, t2)
    || ImprimeImsi(ta, aSeguir, i2, t1, t2)
    || HayReasignacion(ProcesarImsi(ta, aSeguir, i2, t1, t2), i1, i2, t1, t2)
  }

  // ---------------------------------------------------------------------------
  // Properties of the shared steps

  /** Some step of the loop passes its test exactly when some listed TMSI is
      not yet mapped to the IMSI in the table the loop starts from: a TMSI the
      loop has mapped stays mapped to that IMSI. */
  lemma {:induction false} RemapeaListaAlguna(m: map<Id, Id>, ts: seq<Id>, imsi: Id)
    ensures RemapeaLista(m, ts, imsi) <==> exists i | 0 <= i < |ts| :: Remapea(m, ts[i], imsi)
    decreases |ts|
  {
    if ts != [] {
      var init := ts[..|ts| - 1];
      var x := ts[|ts| - 1];
      RemapeaListaAlguna(m, init, imsi);
      AsociarListaEfecto(m, init, imsi);
      var a := AsociarLista(m, init, imsi);
      if x != [] && x in init {
        var j :| 0 <= j < |init| && init[j] == x;
        assert ts[j] == x;
        assert !Remapea(a, x, imsi);
      } else {
        assert x in a ==> a[x] == m[x];
      }
      assert forall i | 0 <= i < |init| :: ts[i] == init[i];
    }
  }

  /** The print flag of an IMSI block is set exactly when that block changes
      the table. */
  lemma ImprimeSiCambia(t: Tabla, aSeguir: Id, imsi: Id, t1: Id, t2: Id)
    ensures ImprimeImsi(t, aSeguir, imsi, t1, t2) <==> ProcesarImsi(t, aSeguir, imsi, t1, t2) != t
  {
    if Acepta(aSeguir, imsi) {
      var u := Registrar(t, imsi);
      var m := AsociarLista(u.tmsis, [t1, t2], imsi);
      RemapeaListaAlguna(t.tmsis, [t1, t2], imsi);
      AsociarListaEfecto(u.tmsis, [t1, t2], imsi);
      if imsi !in t.imsis {
        assert |ProcesarImsi(t, aSeguir, imsi, t1, t2).imsis| > |t.imsis|;
      } else if RemapeaLista(t.tmsis, [t1, t2], imsi) {
        var i :| 0 <= i < 2 && Remapea(t.tmsis, [t1, t2][i], imsi);
        var k := [t1, t2][i];
        assert k in m && m[k] == imsi;
        assert m != t.tmsis;
      } else {
        assert forall k | k in m :: k in t.tmsis && m[k] == t.tmsis[k];
        assert m == t.tmsis;
      }
    }
  }

  lemma {:induction false} AsociarListaEfecto(m: map<Id, Id>, ts: seq<Id>, imsi: Id)
    ensures forall k :: k in AsociarLista(m, ts, imsi) <==> k in m || (k != [] && k in ts)
    ensures forall k :: k in AsociarLista(m, ts, imsi) ==>
      AsociarLista(m, ts, imsi)[k] == if k != [] && k in ts then imsi else m[k]
    decreases |ts|
  {
    if ts != [] {
      var init := ts[..|ts| - 1];
      var x := ts[|ts| - 1];
      AsociarListaEfecto(m, init, imsi);
      var a := AsociarLista(m, init, imsi);
      var r := AsociarLista(m, ts, imsi);
      assert r == AsociarUno(a, x, imsi);
      assert ts == init + [x];
      forall k
        ensures (k in r <==> k in m || (k != [] && k in ts))
        ensures k in r ==> r[k] == if k != [] && k in ts then imsi else m[k]
      {
        assert k in ts <==> k in init || k == x;
      }
    }
  }

  /** The IMSI list after the shared part: the old list, extended by each accepted
      IMSI that was not yet in it, in argument order. */
  lemma ComunImsis(t: Tabla, aSeguir: Id, i1: Id, i2: Id, t1: Id, t2: Id)
    ensures var r := Comun(t, aSeguir, i1, i2, t1, t2).0;
      && |t.imsis| <= |r.imsis| && r.imsis[..|t.imsis|] == t.imsis
      && forall x :: x in r.imsis <==>
           x in t.imsis || (x == i1 && Acepta(aSeguir, i1)) || (x == i2 && Acepta(aSeguir, i2))
  {
  }

  /** The list stays duplicate-free and the counter equals the number of IMSIs. */
  lemma ComunConsistente(t: Tabla, aSeguir: Id, i1: Id, i2: Id, t1: Id, t2: Id)
    requires Consistente(t)
    ensures Consistente(Comun(t, aSeguir, i1, i2, t1, t2).0)
  {
    var ta := ProcesarImsi(t, aSeguir, i1, t1, t2);
    RegistrarConsistente(t, i1);
    RegistrarConsistente(ta, i2);
  }

  lemma RegistrarConsistente(t: Tabla, imsi: Id)
    requires Consistente(t)
    ensures Consistente(Registrar(t, imsi))
  {
    if imsi !in t.imsis {
      var s := t.imsis + [imsi];
      forall i, j | 0 <= i < j < |s| ensures s[i] != s[j] {
        if j == |s| - 1 { assert s[i] in t.imsis; }
      }
    }
  }

  /** After an accepted IMSI, every non-empty TMSI argument maps to it; when both
      IMSIs are accepted the second one wins. TMSIs that are not arguments keep
      their mapping. */
  lemma ComunAsocia(t: Tabla, aSeguir: Id, i1: Id, i2: Id, t1: Id, t2: Id)
    requires Acepta(aSeguir, i1) || Acepta(aSeguir, i2)
    ensures var r := Comun(t, aSeguir, i1, i2, t1, t2);
      && r.1 == i1
      && (forall k :: k in r.0.tmsis <==> k in t.tmsis || (k != [] && (k == t1 || k == t2)))
      && (forall k :: k != [] && (k == t1 || k == t2) ==>
            r.0.tmsis[k] == if Acepta(aSeguir, i2) then i2 else i1)
      && (forall k :: k in t.tmsis && k != t1 && k != t2 ==> r.0.tmsis[k] == t.tmsis[k])
  {
    var ta := ProcesarImsi(t, aSeguir, i1, t1, t2);
    var tb := ProcesarImsi(ta, aSeguir, i2, t1, t2);
    AsociarListaEfecto(Registrar(t, i1).tmsis, [t1, t2], i1);
    AsociarListaEfecto(Registrar(ta, i2).tmsis, [t1, t2], i2);
    assert !HayReasignacion(tb, i1, i2, t1, t2);
  }

  /** With no IMSI and both TMSIs, a known `tmsi2` hands its IMSI to `tmsi1` and
      disappears (when the two differ); the rebound `imsi1` is that IMSI. */
  lemma ComunReasigna(t: Tabla, aSeguir: Id, t1: Id, t2: Id)
    requires t1 != [] && t2 != [] && t2 in t.tmsis
    ensures var r := Comun(t, aSeguir, [], [], t1, t2);
      && r.0.imsis == t.imsis && r.0.contador == t.contador
      && r.1 == t.tmsis[t2]
      && r.0.tmsis == t.tmsis[t1 := t.tmsis[t2]] - {t2}
      && (t1 != t2 ==> t1 in r.0.tmsis && r.0.tmsis[t1] == t.tmsis[t2] && t2 !in r.0.tmsis)
  {
  }

  /** An IMSI the tracking filter rejects, or no IMSI and no reallocation,
      leaves the shared part without effect. */
  lemma ComunSinEfecto(t: Tabla, aSeguir: Id, i1: Id, i2: Id, t1: Id, t2: Id)
    requires !Acepta(aSeguir, i1) && !Acepta(aSeguir, i2)
    requires !HayReasignacion(t, i1, i2, t1, t2)
    ensures Comun(t, aSeguir, i1, i2, t1, t2) == (t, i1)
  {
  }
}
