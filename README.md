# IMSI-catcher analysis scripts in Dafny

This project models the analysis part of a set of Python scripts that listen to
GSM traffic and report what the network reveals about nearby phones. The
scripts receive GSMTAP frames from a software radio. There are three parts.

- **Capture scripts** (`imsi.py` and its older near-copy `imsi-2.py`). Both read
  System Information Type 3 messages on the broadcast channel (BCCH). From each
  one they take the current cell's MCC, MNC, LAC and cell identity, and look up
  the country and operator names in a code table. They also read Paging Request
  Type 1 and Type 2 messages at fixed offsets to extract IMSIs and TMSIs. The
  IMSIs go into a duplicate-free list with a counter, and a table maps each TMSI
  to its IMSI, including TMSI reallocation. An optional "IMSI to track" prefix,
  typed as digits on the command line, is packed into nibble-swapped octets. Only
  IMSIs that start with those octets are reported.
- **Anomaly detector** (`imsi-3.py`). Per IMSI, it keeps a five-minute sliding
  window of event times and the set of (LAC, cell) pairs where the IMSI was seen.
  It raises an alert when the window holds more than 10 events or the set holds
  more than 5 cells. Separately, it keeps a 100-entry location history per IMSI,
  with country and operator looked up, and lists the last 10 entries of every
  IMSI for a heat map.
- **Triangulation** (`gsmlocation.py`). It keeps a 50-entry measurement history
  per cell. It estimates a phone's position from its recent cell measurements:
  - with fewer than three measurements, it interpolates between two cells;
  - with three or more, it combines an RSSI fit, a TOA fit and a signal-weighted
    centroid, using inverse-precision weights.

  It also keeps each IMSI's trajectory of at most 100 estimates, exports that
  trajectory as GeoJSON-shaped features, and drops measurements older than five
  minutes.

## How the model is built

- **Module names.** Modules and members use the scripts' Spanish vocabulary.
  - `Texto`: Python's `hex()`, `str()` and slicing.
  - `Tbcd` and `Formato`: the octet-to-text loops and the tracked-IMSI encoder.
  - `Tramas`: frame offsets.
  - `TablaImsi` and `Captura`: the globals of the capture scripts.
  - `Anomalias`: `imsi-3.py`.
  - `GsmModelo`, `GsmEstimadores`, `GsmTriangulador`, `GsmMapeador` and `GsmAnalizador`: `gsmlocation.py`.
  - `Promedios`: weighted means.
  - `Fifo`: bounded lists.
- **One model for both capture scripts.**
  - `imsi.py` and `imsi-2.py` read the same offsets in the same order. Their
    decoders are specified once, in `Tramas`.
  - Their table updates are specified once, in `TablaImsi`.
  - The class `Captura.Rastreador` holds the globals. Its `variante` field is
    `Actual` for `imsi.py` and `Anterior` for `imsi-2.py`. It selects the two
    places where the scripts differ: the texts for unknown codes, and the step
    that records TMSIs seen without an IMSI.
- **Imperative code stays imperative.** Code that mutates state becomes a class
  with `modifies` clauses:
  - the capture globals;
  - `AnalizadorMovil` and `SistemaGeolocalizacion`;
  - `TrianguladorGSM`, `MapeadorGSM` and `AnalizadorGSMAvanzado`.

  Every loop of the source is a `for` or `while` loop, proved equal to a
  specification function whose properties are proved as lemmas, with one
  exception: the `for` loops inside the two `funcion_error` closures handed to
  `scipy.optimize.minimize` (gsmlocation.py:110-123 and 163-170). The solver
  takes a function value, so those objectives are the recursive functions
  `GsmEstimadores.ErrorRssi` and `GsmEstimadores.ErrorToa`, and
  `_triangulacion_rssi`, whose only loop is its objective, is the function
  `GsmEstimadores.EstimacionRssi` with no method beside it.
- **Python failures are values.** They are `Result.Raised` values:
  - `IndexError` for a read past the end of a frame or of a lookup list;
  - `ValueError` for `int()` on a non-digit;
  - `SystemExit` for an IMSI to track of the wrong size.

  Writes made before a failure are kept, as in the source.
- **Time and numbers.**
  - Times are integer microseconds. "Now" (`datetime.now()`) is a parameter.
  - Coordinates, weights and precisions are exact reals.
  - The haversine distance, `log10`, `sqrt` and `scipy.optimize.minimize` are
    fields of a `GsmModelo.Numerica` value that the model does not look into.
    A failed minimisation is `None`.
- **External data.** The station database `gsm_cell_database.json` and the code
  table `mcc_codes.json` are immutable maps passed in.
- **Behaviours of the code that the model keeps as written.**
  - `procesar_medicion_celda` purges old measurements after triangulating, not
    before.
  - An IMSI whose measurements all expire keeps its key, with an empty list.
  - The two-cell fallback adds the two signal strengths. dBm readings are
    negative, so their sum is never positive and the fallback returns the exact
    midpoint. It does not move towards the stronger cell.
  - `_obtener_operador` does not fall back to "Desconocido" for an unknown MCC
    or MNC. Its default list has no element 1, so it raises `IndexError`.
  - In `imsi-2.py`, the second condition of the show-all-TMSI step tests
    `tmsi1` again, so `tmsi2` is never recorded there on its own.
  - The branch meant to pick up a TMSI after a first IMSI repeats the two-IMSI
    test. That TMSI is therefore never extracted.

## Model

| member | source | states |
|---|---|---|
| Texto.PyHex | imsi.py:36 | `hex()` of an octet starts with "0x" followed by lowercase hex digits, one digit exactly when the octet is below 16 and two otherwise |
| Texto.PyHexIdaVuelta | imsi.py:36 | the digits after "0x" read back, high digit first, as the octet, and a two-digit text has no leading '0' |
| Texto.ValorDigitoHex | imsi.py:36 | the lowercase digit of a nibble is a hex digit and reads back as that nibble |
| Texto.NatToString | imsi.py:168-169 | defines `str()` of a natural number, which is never empty; what it denotes is characterised by `Texto.NatToStringIdaVuelta` |
| Texto.NatToStringDigitos | imsi.py:168-169 | `str(n)` consists of decimal digits only, and is a single digit exactly when n < 10 |
| Texto.NatToStringIdaVuelta | imsi.py:168-169 | `str(n)` read back as a decimal numeral is n, and it starts with '0' only for n = 0 |
| Texto.DigitoDecimal | imsi.py:168 | the character for a digit below ten lies in '0'..'9' |
| Texto.Desde | imsi.py:203 | `s[a:]` is the suffix of s from a (length len(s)-a), and empty when a is past the end |
| Texto.Tomar | imsi.py:101 | `s[:n]` is a prefix of s, of length n when s is long enough, and the whole of s when n exceeds its length |
| Texto.Rebanada | imsi.py:56-57 | `s[a:b]` is at most b-a long; it is s[a..b] when s reaches b, s[a..len(s)] when s ends between a and b, and empty when a is past the end |
| Tramas.At | imsi.py:157 | `ord(datos[i])` succeeds iff i is inside the frame and yields that octet; otherwise it raises IndexError |
| Tramas.NibblesInvertidosSon | imsi.py:160 | the swapped-nibble text of an octet is its low hex digit followed by its high hex digit, with '0' for a missing high digit |
| Tramas.InfoCelda | imsi.py:157-169 | raises exactly when an octet the test reaches is missing. Otherwise it decodes iff 0x36 is 0x01 and 0x3c is 0x1b: MCC = low and high nibble of 0x3f plus the low nibble of 0x40, MNC = the swapped nibbles of 0x41, LAC = 0x42*256+0x43 and cell = 0x3d*256+0x3e as decimal text |
| Tramas.CampoImsi | imsi.py:202 | the IMSI test at offset i holds iff octet i is 0x08 and octet i+1 is odd |
| Tramas.CampoTmsi | imsi.py:222-224 | the TMSI test at offset i holds iff octet i is 0x05 and the low 3 bits of octet i+1 are 4 |
| Tramas.BuscarIdentidades | imsi.py:190-234 | BCCH frames yield nothing. Extracted IMSIs are at most 8 octets and TMSIs at most 4. A first IMSI never comes with a TMSI, and every result carries at least one identity |
| Tramas.TmsiTrasImsiNuncaSeExtrae | imsi.py:200-212 | on a paging request type 1 with a first IMSI, that IMSI is octets 0x3f..0x46 and tmsi1 stays empty. The second IMSI is taken from 0x49 exactly when 0x3a is 0x59 and the IMSI test holds at 0x48, because the `elif` repeats the `if` |
| Tbcd.ParesAltoBajo | imsi.py:35-40 | the high-nibble-first text has two characters per octet |
| Tbcd.DigitosTbcd | imsi.py:49-54 | the TBCD digit text has two characters per octet |
| Tbcd.ParesAltoBajoAt | imsi.py:35-40 | characters 2k and 2k+1 are the high and the low hex digit of octet k |
| Tbcd.DigitosTbcdAt | imsi-2.py:37-43 | characters 2k and 2k+1 are the low and the high hex digit of octet k (TBCD order) |
| Tbcd.HexTmsiForma | imsi-2.py:23-34 | an empty TMSI prints as "". Otherwise it prints as "0x" followed by exactly two lowercase hex digits per octet, high nibble then low, so its length is 2+2n |
| Tbcd.ValorDigito | imsi.py:261 | `int(c)` of a digit character is below ten |
| Tbcd.QuitarEspacios | imsi.py:256 | `replace(" ", "")` leaves no space, never lengthens the text, and returns a text without spaces unchanged (as it does any text it does not shorten) |
| Tbcd.QuitarEspaciosConcatena | imsi.py:256 | removing the spaces of x + y gives the spaces removed from x followed by those removed from y |
| Tbcd.Empaquetar | imsi.py:260-261 | the packing loop yields one octet per pair of digits |
| Tbcd.EmpaquetarAt | imsi.py:261 | octet k is d[2k+1]*16 + d[2k] |
| Tbcd.DigitoHexDeDigito | imsi.py:261 | the hex digit of a decimal digit's value is that digit again |
| Tbcd.NibblesDePar | imsi.py:261 | a packed pair is an octet whose low nibble is the first digit and whose high nibble is the second |
| Tbcd.ParDigitos | imsi.py:261 | unpacking a packed pair with the TBCD loop gives the two digits back in order |
| Tbcd.EmpaquetarIdaVuelta | imsi.py:255-262 | round trip: the TBCD digit loop applied to the packed digits returns the digit string |
| Tbcd.ImsiASeguirIdaVuelta | imsi-2.py:341-358 | an accepted IMSI to track decodes, through the digit loop, to "9" followed by the option's digits, and its first octet has low nibble 9 (odd length, type IMSI) |
| Tbcd.ImsiASeguirAcepta | imsi.py:255-268 | a non-empty option is accepted iff, without spaces, it is an odd number (1 to 15) of decimal digits |
| Formato.ParAltoBajo | imsi.py:36-40 | one iteration of the TMSI loop appends the high then the low hex digit of the octet |
| Formato.ParBajoAlto | imsi.py:50-54 | one iteration of the IMSI loop appends the low then the high hex digit of the octet |
| Formato.FormatearTmsi | imsi.py:29-41 | the `formatear_tmsi` loop yields exactly the text that `Tbcd.HexTmsiForma` characterises |
| Formato.DigitosImsi | imsi.py:48-54 | the digit loop of `formatear_imsi` yields exactly the TBCD digit text |
| Formato.EmpaquetarPaso | imsi.py:260-261 | one iteration of the encoder's loop extends the packed prefix by the octet of the next digit pair |
| Formato.CodificarImsiASeguir | imsi.py:255-268 | the encoder loop yields the specified prefix. An empty option tracks every IMSI, a wrong size exits, and a non-digit raises ValueError |
| TablaImsi.RemapeaListaAlguna | imsi.py:109-112 | the TMSI loop sets the print flag exactly when the test of some listed TMSI passes: non-empty and not yet mapped to the IMSI |
| TablaImsi.ImprimeSiCambia | imsi.py:101-112 | an IMSI block sets `debe_imprimir` exactly when it changes the table |
| TablaImsi.Comun | imsi.py:100-133 | defines IMSI 1, IMSI 2 and the reallocation; the IMSI list only grows at its end, and a rebound imsi1 only comes from a reallocation, which deletes tmsi2 and maps tmsi1 to it. Characterised by `TablaImsi.ComunImsis`, `ComunAsocia`, `ComunReasigna` and `ComunSinEfecto` |
| TablaImsi.AsociarListaEfecto | imsi.py:109-112 | after the TMSI loop, exactly the non-empty listed TMSIs map to the IMSI and every other entry is unchanged |
| TablaImsi.ComunImsis | imsi.py:101-125 | the IMSI list keeps its old prefix and grows exactly by the accepted IMSIs, where an IMSI is accepted when it is non-empty and starts with the tracked prefix |
| TablaImsi.ComunConsistente | imsi.py:101-125 | the list stays duplicate-free and the counter stays equal to its length |
| TablaImsi.RegistrarConsistente | imsi.py:102-106 | registering an IMSI keeps the list duplicate-free and the counter equal to its length |
| TablaImsi.ComunAsocia | imsi.py:109-125 | after an accepted IMSI every non-empty TMSI argument maps to it, the second IMSI winning when both are accepted, and the other TMSIs are unchanged |
| TablaImsi.ComunReasigna | imsi.py:128-133 | with no IMSI, both TMSIs present and tmsi2 known, tmsi1 takes over tmsi2's IMSI and tmsi2 is removed (when the two differ). The rebound imsi1 is that IMSI |
| TablaImsi.ComunSinEfecto | imsi.py:100-133 | with no accepted IMSI and no reallocation, the table is unchanged |
| Captura.NombresResultado | imsi.py:171-184 | the name lookup succeeds exactly when the code table has every entry it indexes, and then writes the looked-up or "unknown" names. Otherwise it raises IndexError, keeping the country and brand written before the failing index. In `imsi-2.py` the names not yet written are "" |
| Captura.Nombres | imsi.py:171-184 | defines the name step; it never changes MCC, MNC, LAC or cell, and only raises IndexError for a listed MCC. Characterised by `Captura.NombresResultado` |
| Captura.DecodificarCelda | imsi.py:149-188 | defines the cell decoder; a false result leaves the globals as they were and a true one comes from a System Information Type 3 frame on the BCCH. Characterised by `Captura.DecodificarCeldaResultado` |
| Captura.DecodificarCeldaResultado | imsi.py:149-188 | the cell decoder returns true exactly on System Information Type 3 frames on the BCCH whose codes the table can serve; the decoded MCC, MNC, LAC and cell are written either way. A false result changes nothing, a frame cut short keeps LAC, cell and names, and on a well-formed table only a frame cut short raises |
| Captura.DecodificarCeldaTruncada | imsi-2.py:183-198 | a frame cut short raises IndexError after exactly the MCC and MNC writes that precede the missing octet |
| Captura.DecodificarCeldaOtra | imsi-2.py:222 | any complete frame other than System Information Type 3 on the BCCH returns no cell and leaves the globals as they were |
| Captura.DecodificarCeldaCompleta | imsi-2.py:183-213 | a complete System Information Type 3 frame writes its MCC, MNC, LAC and cell, then returns true or raises as the name lookup does, with that lookup's writes |
| Captura.MostrarImsis | imsi-2.py:88-112 | `show_imsi` keeps `imsis` duplicate-free with `nb_IMSI` equal to its length, and adds exactly the accepted IMSIs |
| Captura.MostrarAsocia | imsi.py:109-125 | after a call with an accepted IMSI, each non-empty TMSI argument maps to it (to imsi2 when both are accepted) and no other TMSI changes |
| Captura.MostrarReasigna | imsi-2.py:114-119 | reallocation moves tmsi2's IMSI to tmsi1 and deletes tmsi2. In `imsi.py`, a tmsi2 whose IMSI was the empty placeholder comes back as a placeholder when all TMSIs are shown |
| Captura.AgregarVaciosEfecto | imsi.py:144-147 | the placeholder loop adds exactly the unknown non-empty TMSIs, with the empty IMSI, and keeps the known ones |
| Captura.MostrarSinImsi | imsi-2.py:130-137 | with no IMSI and all TMSIs shown, `imsi.py` records both unknown TMSIs with "" and `imsi-2.py` records only tmsi1, because line 135 re-tests tmsi1. Known TMSIs keep their IMSI |
| Captura.MostrarSinEfecto | imsi.py:128-147 | with no accepted IMSI, no known tmsi2 to reallocate and no placeholder step, the table is unchanged (tmsi2 unknown and show-all off) |
| Captura.LineaDeImsiResultado | imsi.py:56-82 | an IMSI line is built exactly when the code table has every entry it indexes, always on a well-formed table; otherwise IndexError escapes. A listed MCC and two-digit MNC give "MCC MNC rest" with the listed names, and an unlisted MCC keeps the digit text |
| Captura.ImpresosCasos | imsi-2.py:121-127 | `imsi.py` formats exactly its non-empty IMSIs. `imsi-2.py` writes as many lines but formats `imsi1` on both, even an empty `imsi1` once `imsi2` is present |
| Captura.MostrarResultadoCasos | imsi.py:136-141 | the table procedure raises IndexError exactly when its print flag is set and an IMSI it formats lacks a code-table entry; never on a well-formed table, nor when nothing is printed |
| Captura.EfectoPaquete | imsi.py:190-234 | defines the table part of one paging request; it keeps the table consistent, and on a well-formed code table only a frame cut short raises. Characterised by `Captura.MostrarResultadoCasos` and the `Mostrar` lemmas above |
| Captura.EfectoPaqueteBcch | imsi.py:196 | a BCCH frame never touches the IMSI/TMSI table |
| Captura.Rastreador.constructor | imsi.py:10-23 | the globals start empty, with the given code table (any table), tracked prefix and show-all flag |
| Captura.Rastreador.RegistrarImsi | imsi.py:102-106 | a new IMSI is appended and counted, and a known IMSI changes nothing; the returned flag (`debe_imprimir`) says whether the IMSI was new |
| Captura.Rastreador.AsociarTmsis | imsi.py:109-112 | the TMSI loop maps each non-empty listed TMSI to the IMSI and changes nothing else; the returned flag is set exactly when some step's test passes |
| Captura.Rastreador.AgregarSinImsi | imsi-2.py:130-137 | the placeholder step as each script writes it; the IMSI list and the cell are untouched |
| Captura.Rastreador.FormatearImsi | imsi.py:43-82 | the digit loop and the code-table lookups build the line `Captura.LineaDeImsiResultado` characterises, raising IndexError where it does |
| Captura.Rastreador.ImprimirLineas | imsi.py:136-141 | the print loop raises IndexError exactly when one of the IMSIs it formats cannot be formatted |
| Captura.Rastreador.MostrarImsi | imsi.py:92-147 | the new table is the one the lemmas above characterise. It stays consistent and the cell globals are unchanged. The result is the print step's, raising IndexError as `Captura.MostrarResultadoCasos` states, after the table updates |
| Captura.Rastreador.DecodificarInfoCelda | imsi.py:149-188 | the returned flag and the new cell globals are those of the cell decoder, including partial writes before a raise, and the table is unchanged |
| Captura.Rastreador.EscribirMccMnc | imsi.py:159-165 | writes MCC from 0x3f and 0x40 and MNC from 0x41, raising IndexError after the writes that precede a missing octet |
| Captura.Rastreador.EscribirLacCelda | imsi.py:168-169 | writes LAC from 0x42 and 0x43 and the cell from 0x3d and 0x3e, and nothing else |
| Captura.Rastreador.EscribirNombres | imsi-2.py:199-213 | the country, brand and operator writes are exactly the name lookup's, including its IndexError after the earlier writes and the "" reset of `imsi-2.py` |
| Captura.Rastreador.BuscarImsi | imsi.py:190-234 | runs the cell decoder first. A raise there propagates with the table unchanged; otherwise the paging request identities go to the table update, whose print step may raise IndexError after the table is updated |
| Anomalias.DescartarAntiguos | imsi-3.py:108-110 | the `popleft` loop never lengthens the window and leaves it empty or starting within five minutes of now |
| Anomalias.DescartarAntiguosSufijo | imsi-3.py:108-110 | what the loop keeps is a suffix of the deque: times leave only from the front |
| Anomalias.DescartarCola | imsi-3.py:108-110 | the `while` loop computes the window without its expired leading times |
| Anomalias.RecientesTodos | imsi-3.py:108-110 | a window holding only recent times is kept whole |
| Anomalias.DescartarAntiguosRecientes | imsi-3.py:108-110 | on a time-ordered window, the loop keeps exactly the times at most five minutes old, in order |
| Anomalias.DescartarConservaUltimo | imsi-3.py:106-110 | a recent last time survives the loop |
| Anomalias.SufijoOrdenado | imsi-3.py:106-110 | a suffix of an ordered window is ordered |
| Anomalias.VentanaTrasEvento | imsi-3.py:105-112 | with a clock that does not go back, the window after an event is ordered, ends with now and holds exactly the old window's recent times plus now, each within five minutes |
| Anomalias.AlertasEvento | imsi-3.py:114-130 | defines the two threshold alerts of one event; at most two, each naming the IMSI and stamped now. Characterised by `Anomalias.AlertasEventoCondiciones` |
| Anomalias.AlertasEventoCondiciones | imsi-3.py:114-130 | a REASIGNACION_TMSI_RAPIDA/ALTA alert iff the window holds more than 10 times, an IMSI_HOPPING/MEDIA alert iff the cell set holds more than 5, each naming the IMSI |
| Anomalias.AnalizadorMovil.constructor | imsi-3.py:33-45 | the windows, the cell sets and the alerts start empty |
| Anomalias.AnalizadorMovil.GenerarAlerta | imsi-3.py:132-141 | exactly one alert with the given type, severity, description and IMSI is appended, and nothing else changes |
| Anomalias.AnalizadorMovil.ActualizarVentana | imsi-3.py:105-110 | the IMSI's deque gets now appended and its expired front times dropped; no other IMSI changes |
| Anomalias.AnalizadorMovil.AnalizarComportamientoSospechoso | imsi-3.py:102-130 | the IMSI's window is updated, its cell set grows by (lac, cell_id), the alerts grow exactly by those of the two thresholds on the new sizes, and other IMSIs are untouched |
| Anomalias.ObtenerPais | imsi-3.py:208-210 | an unknown MCC gives "Desconocido" and a known one gives its first country. It raises IndexError only for a known MCC with an empty country list |
| Anomalias.ObtenerOperador | imsi-3.py:212-214 | succeeds iff MCC and MNC are known and the entry has an element 1, and returns that element. An unknown code raises IndexError because the default `['Desconocido']` has no element 1 |
| Anomalias.ConsultasBienFormado | imsi-3.py:208-214 | on a well-formed table, the country lookup never fails and the operator lookup succeeds exactly for known MCC/MNC pairs |
| Anomalias.Puntos | imsi-3.py:220-226 | one heat-map entry per listed location |
| Anomalias.PuntosEn | imsi-3.py:220-226 | entry i is location i tagged with the IMSI, its country, operator and timestamp |
| Anomalias.MapaCalorPaso | imsi-3.py:219-226 | one iteration over an IMSI appends that IMSI's entries for its last 10 locations |
| Anomalias.PuntosPaso | imsi-3.py:220-226 | one inner iteration appends the entry of one location |
| Anomalias.DeImsiConcat | imsi-3.py:216-227 | selecting one IMSI's entries distributes over concatenation |
| Anomalias.DeImsiUniforme | imsi-3.py:220-226 | a run of entries all tagged x contributes all of them to x and none to any other IMSI |
| Anomalias.DeImsiPuntos | imsi-3.py:220-226 | an IMSI's block contributes only to that IMSI |
| Anomalias.MapaCalor | imsi-3.py:216-227 | defines the heat-map listing; at most 10 entries per IMSI. Characterised by `Anomalias.MapaCalorPorImsi` |
| Anomalias.MapaCalorPorImsi | imsi-3.py:216-227 | each recorded IMSI gets exactly its last (at most 10) locations in their original order, and an unrecorded IMSI gets none |
| Anomalias.UltimaClave | imsi-3.py:219 | the IMSIs of the history are distinct, so the last one does not occur before it |
| Anomalias.SistemaGeolocalizacion.constructor | imsi-3.py:186-189 | the location history starts empty |
| Anomalias.SistemaGeolocalizacion.AgregarUbicacion | imsi-3.py:191-206 | succeeds iff both lookups succeed, and a failed lookup records nothing. Otherwise the IMSI's history gets the new entry last and is capped at 100 by dropping the oldest, other IMSIs are untouched, and a first entry registers the IMSI at the end of the key order |
| Anomalias.SistemaGeolocalizacion.GenerarMapaCalor | imsi-3.py:216-227 | the nested loops build exactly the heat-map listing characterised by `MapaCalorPorImsi` |
| Fifo.Ultimos | imsi-3.py:220 | `s[-n:]` is the last n entries, or all of them when there are fewer |
| Fifo.AgregarAcotadoUltimos | gsmlocation.py:59-66 | an append followed by `pop(0)` past the cap keeps the cap and puts the new entry last. Below the cap nothing is dropped, at the cap only the oldest is dropped, and the result is the last `cap` entries of old++[x] |
| GsmModelo.Clave | gsmlocation.py:61 | the key `mcc-mnc-lac-cell_id` starts with the MCC followed by '-' and has the lengths of its four parts plus three separators |
| Promedios.Maximo | gsmlocation.py:207-214 | the largest value belongs to the sequence and bounds every element |
| Promedios.Minimo | gsmlocation.py:207-214 | the smallest value belongs to the sequence and is below every element |
| Promedios.Dividir | gsmlocation.py:209 | `np.array(ws) / d` divides each entry |
| Promedios.Uniforme | gsmlocation.py:211 | `np.ones(n) / n` has n entries equal to 1/n |
| Promedios.SumaDividir | gsmlocation.py:209 | the sum of the divided entries is the sum divided |
| Promedios.SumaConstante | gsmlocation.py:211 | n copies of v sum to n*v |
| Promedios.NormalizarSumaUno | gsmlocation.py:207-209 | weights divided by their non-zero total sum to one |
| Promedios.UniformeSumaUno | gsmlocation.py:210-211 | the uniform weights sum to one |
| Promedios.SumaNoNegativa | gsmlocation.py:314-315 | non-negative entries have a non-negative sum |
| Promedios.SumaPositiva | gsmlocation.py:314-315 | positive entries have a positive sum |
| Promedios.SumaPonderadaAcotada | gsmlocation.py:213-214 | with non-negative weights, the weighted sum lies between lo*Σw and hi*Σw |
| Promedios.MediaAcotada | gsmlocation.py:213-214 | with non-negative weights of positive total, `np.average` lies between any bounds of the values |
| Promedios.CocienteAcotado | gsmlocation.py:213-214 | dividing bounds by a positive total preserves them |
| Promedios.MediaUnica | gsmlocation.py:317-320 | the weighted mean of one value is that value |
| GsmEstimadores.UbicacionCelda | gsmlocation.py:302-305 | `estaciones_base.get(key)` is present iff the key is in the database, and is then its entry |
| GsmEstimadores.ConUbicacion | gsmlocation.py:74-78 | the filtered list is no longer than its input |
| GsmEstimadores.ConUbicacionConcat | gsmlocation.py:74-78 | filtering a concatenation filters each part, in order |
| GsmEstimadores.ConUbicacionCaracter | gsmlocation.py:74-78 | every pair is an input measurement with its station's coordinates, and every measurement with a known station is kept |
| GsmEstimadores.PesosSenal | gsmlocation.py:207-211 | the centroid weights sum to one, and are non-negative when no strength is negative or the uniform fallback applies |
| GsmEstimadores.VarianzaNoNegativa | gsmlocation.py:211-220 | with no negative strength, or strengths summing to at most zero, the variance handed to `np.sqrt` is non-negative |
| GsmEstimadores.VarianzaMixta | gsmlocation.py:200-220 | strengths 2 and -1 at latitudes 0 and 1 give the variance -2, where `np.sqrt` returns NaN |
| GsmEstimadores.CentroidePonderado | gsmlocation.py:194-229 | defines the signal-weighted centroid; it is labelled CENTROIDE, stamped now and lists the input measurements in order. Characterised by `GsmEstimadores.CentroideAcotado` |
| GsmEstimadores.CentroideAcotado | gsmlocation.py:194-229 | when no strength is negative or they sum to at most zero, the centroid lies inside any box holding the stations, its precision is non-negative and it lists the input measurements |
| GsmEstimadores.PesosDosCeldas | gsmlocation.py:250-255 | the two interpolation weights sum to one, and are non-negative for non-negative strengths |
| GsmEstimadores.EntreDos | gsmlocation.py:257-258 | a convex combination of two values lies between them |
| GsmEstimadores.Interpolar | gsmlocation.py:246-271 | defines the two-cell interpolation; it is labelled 2_CELDAS, stamped now and lists the whole input. Characterised by `GsmEstimadores.InterpolarPropiedades` |
| GsmEstimadores.InterpolarPropiedades | gsmlocation.py:246-271 | the interpolation is the exact midpoint when the strengths sum to at most zero, and lies between the two stations for non-negative strengths. Its precision is half their distance, it is labelled 2_CELDAS and it lists the whole input |
| GsmEstimadores.DosCeldasCasos | gsmlocation.py:231-273 | the fallback returns None iff it has fewer than 2 measurements or fewer than 2 with a known station. Otherwise it interpolates the first two known stations and lists the whole input |
| GsmEstimadores.DosCeldasNegativas | gsmlocation.py:250-258 | two negative dBm readings give the midpoint of the first two known stations |
| GsmEstimadores.DosCeldasSoloPrimeras | gsmlocation.py:236-258 | appending further measurements changes neither the position nor the precision: only the first two known stations matter |
| GsmEstimadores.RssiATiempo | gsmlocation.py:297-300 | `max(-rssi/100, 0.001)`: at least 0.001, equal to -rssi/100 for negative readings and to 0.001 otherwise |
| GsmEstimadores.ModeloPropagacion | gsmlocation.py:289-295 | the log-distance model: the reference minus 30 log10 of the distance in metres, a distance under one metre counting as one metre |
| GsmEstimadores.Abs | gsmlocation.py:121 | the absolute value is non-negative and equals x or -x |
| GsmEstimadores.ErrorRssi | gsmlocation.py:110-123 | the RSSI objective is a non-negative sum of absolute errors |
| GsmEstimadores.EstimacionRssi | gsmlocation.py:107-149 | a successful fit is labelled RSSI, lists the used measurements and has a non-negative precision |
| GsmEstimadores.ErrorToa | gsmlocation.py:161-169 | the TOA objective is a non-negative sum of absolute errors |
| GsmEstimadores.EstimacionToa | gsmlocation.py:151-192 | a successful fit is labelled TOA, lists the used measurements and has a non-negative precision |
| GsmEstimadores.Inversas | gsmlocation.py:314 | `1/(p + 0.001)` is positive for every non-negative precision |
| GsmEstimadores.PesosPrecision | gsmlocation.py:314-315 | the combination weights are positive and sum to one |
| GsmEstimadores.TodasCeldasContenido | gsmlocation.py:323-325 | the concatenated measurement list has the summed length of the inputs, and holds a measurement iff some estimate used it |
| GsmEstimadores.Combinacion | gsmlocation.py:307-334 | defines the inverse-precision combination; it is labelled COMBINADO, stamped now and lists the inputs' measurements. Characterised by `GsmEstimadores.CombinacionAcotada` |
| GsmEstimadores.CombinacionAcotada | gsmlocation.py:307-334 | the combined latitude, longitude and precision each lie between any bounds of the inputs'. It is labelled COMBINADO and lists the inputs' measurements in order |
| GsmEstimadores.CombinacionUnica | gsmlocation.py:307-334 | combining a single estimate keeps its position, precision and measurements |
| GsmEstimadores.Resultados | gsmlocation.py:84-99 | the collected list is never empty and ends with the centroid. The fits' precisions are non-negative, and the centroid's is too when no strength is negative or the strengths sum to at most zero |
| GsmEstimadores.Triangulacion | gsmlocation.py:68-105 | defines `triangular_ubicacion`; an estimate is stamped now, labelled 2_CELDAS below 3 measurements and COMBINADO from 3 on. Characterised by `GsmEstimadores.TriangulacionDespacho` |
| GsmEstimadores.TriangulacionDespacho | gsmlocation.py:68-105 | fewer than 3 measurements go to the two-cell fallback. From 3 on, the result is None iff fewer than 2 stations are known, and otherwise it is always a COMBINADO estimate, because the centroid never fails. Its precision is non-negative when no known station's strength is negative or the strengths sum to at most zero |
| GsmEstimadores.SumaNoNegativaPonderada | gsmlocation.py:317-320 | the combined precision of non-negative precisions is non-negative |
| GsmEstimadores.TriangulacionSoloCentroide | gsmlocation.py:84-105 | when both solver fits fail, the combined estimate sits exactly at the centroid with its precision |
| GsmTriangulador.TrianguladorGsm.constructor | gsmlocation.py:45-48 | the history starts empty, with the given station database |
| GsmTriangulador.TrianguladorGsm.AgregarMedicionCelda | gsmlocation.py:59-66 | only the measurement's key changes. Its history becomes the bounded append of the measurement, and every history stays within 50 |
| GsmTriangulador.TrianguladorGsm.FiltrarConUbicacion | gsmlocation.py:74-78 | the loop collects exactly the measurements with a known station, paired with its coordinates |
| GsmTriangulador.TrianguladorGsm.MetodoCentroide | gsmlocation.py:194-229 | the loop and the means compute the signal-weighted centroid |
| GsmTriangulador.TrianguladorGsm.EstimarUbicacionDosCeldas | gsmlocation.py:231-273 | computes the two-cell fallback |
| GsmTriangulador.TrianguladorGsm.TriangulacionToa | gsmlocation.py:151-192 | the `tiempos` loop and the solver call compute the TOA fit |
| GsmTriangulador.TrianguladorGsm.CombinarResultados | gsmlocation.py:307-334 | the weights, means and `extend` loop compute the inverse-precision combination |
| GsmTriangulador.TrianguladorGsm.TriangularUbicacion | gsmlocation.py:68-105 | computes the dispatch and estimate collection that `TriangulacionDespacho` characterises |
| GsmTriangulador.HistorialTrasAgregar | gsmlocation.py:59-66 | after an append, the cell's history holds at most 50, ends with the new measurement and equals the last 50 of old++[m] |
| GsmMapeador.TrayectoriaDe | gsmlocation.py:408-453 | defines the GeoJSON projection; it is `{}` exactly for an IMSI without a trajectory. Characterised by `GsmMapeador.TrayectoriaForma` |
| GsmMapeador.TrayectoriaForma | gsmlocation.py:408-453 | an unknown IMSI gives `{}`. Otherwise there are n Point features, in order, with `orden` 0..n-1 and position [lon, lat]. One LineString follows, with `num_puntos` n, exactly when n > 1 |
| GsmMapeador.MapeadorGsm.constructor | gsmlocation.py:339-342 | the trajectories start empty |
| GsmMapeador.MapeadorGsm.ActualizarTrayectoria | gsmlocation.py:400-406 | only the IMSI's trajectory changes, by a bounded append, and every trajectory stays within 100 |
| GsmMapeador.MapeadorGsm.GenerarTrayectoriaImsi | gsmlocation.py:408-453 | the feature loop builds exactly the projection `TrayectoriaForma` characterises |
| GsmMapeador.TrayectoriaTrasActualizar | gsmlocation.py:400-406 | after an update the trajectory holds at most 100, ends with the new estimate and is the last 100 of old++[u]. At capacity the oldest entry is the one dropped |
| GsmAnalizador.Vigentes | gsmlocation.py:497-502 | the purged list is no longer than the original |
| GsmAnalizador.Purgar | gsmlocation.py:495-502 | the purge keeps every IMSI key, including those whose list empties |
| GsmAnalizador.VigentesContenido | gsmlocation.py:497-502 | the purge keeps exactly the measurements with now - timestamp < 5 min |
| GsmAnalizador.VigentesConcat | gsmlocation.py:497-502 | purging preserves order: a concatenation purges part by part |
| GsmAnalizador.VigentesRecientes | gsmlocation.py:497-502 | a list of recent measurements is left as it is |
| GsmAnalizador.VigentesIdempotente | gsmlocation.py:495-502 | purging twice at the same time is purging once |
| GsmAnalizador.AnalizadorGsmAvanzado.constructor | gsmlocation.py:458-462 | a fresh triangulator and mapper, with no measurements and no estimates |
| GsmAnalizador.AnalizadorGsmAvanzado.ProcesarMedicionCelda | gsmlocation.py:471-493 | the cell history gets the measurement. The IMSI's list is triangulated only when it holds at least 2, and a result is appended to both the estimate list and the IMSI's trajectory. The purge then runs on every IMSI |
| GsmAnalizador.AnalizadorGsmAvanzado.LimpiarMedicionesAntiguas | gsmlocation.py:495-502 | the loop over IMSIs leaves every list purged and the estimates unchanged |

## Left out

- Packet capture (`scapy.sniff`), the option parsing and `main` bodies, and the writing of output.
  - The output left out includes the field-width formatting, `sys.stdout` and `.encode('utf-8')`.
  - These are I/O. The model keeps the decoded values and the table state.
  - The print step itself is modelled up to the output: the `debe_imprimir`/`do_print` flag, which IMSIs are formatted, and the code-table lookups of `formatear_imsi` and `str_imsi`, whose IndexError escapes. Only the padding to field widths (inside the `try`), the other fields of the line and the write are left out.
- The seven-`None` tuple returned by `find_cell` in `imsi-2.py`. `find_imsi` ignores it, so the model returns only whether a cell was decoded.
- SQLite is not modelled. That covers `_inicializar_bd`, the INSERTs, `_guardar_evento_bd` and `_generar_resumen`. The logging, the JSON and CSV export and the report files are left out too. Alerts are an in-memory sequence.
- `generar_reporte_avanzado` and `generar_reportes_ubicacion`: statistics and report output.
- The Flask `InterfazWeb` and the threading: `threading.Thread`, `RLock`, and the periodic exporter. These are UI and concurrency.
- `MotorCorrelacion` is left out: its rules have empty bodies. `AnalizadorMovilAvanzado` is left out because it wires capture to storage.
- `AnalizadorMovil.imsis_detectados`, `tmsis_asociados`, `contador_imsi` and `estadisticas` are not modelled, because none of the modelled methods of `imsi-3.py` use them.
- `Evento.timestamp` is carried but never read: `analizar_comportamiento_sospechoso` stamps the sliding window with `datetime.now()` (imsi-3.py:105-108), which the model takes as the parameter `ahora`.
- Reading `gsm_cell_database.json` and `mcc_codes.json` is not modelled. Both are passed in as immutable maps.
- A station entry always has `lat` and `lon`. A present but empty entry, which Python treats as false, is not modelled.
- `GsmModelo.Numerica`: haversine distance (`_calcular_distancia`), `math.log10` in `_modelo_propagacion_rssi`, `np.sqrt` in the centroid precision, and `scipy.optimize.minimize` are not looked into. `_calcular_distancia` is the scripts' own haversine formula, kept out because it works in floating point with trigonometry; the other three are library routines.
  - They are uninterpreted fields of `Numerica`.
  - The distance and the square root are non-negative. For a negative argument `np.sqrt` returns NaN, which has no real value; the model's `raiz` returns some non-negative real there.
  - A solver failure, or an exception the source catches, is `None`.
- Floating point is not modelled (rounding, NaN, infinity). All arithmetic is on exact reals.
- `GsmEstimadores.EstimacionRssi`: does not state that the result lies inside the 0.1-degree box passed to the solver. The solver is not modelled, so nothing guarantees that.
- `GsmEstimadores.Resultados`, `GsmEstimadores.TriangulacionDespacho`: when the known stations' strengths mix signs with a positive sum, the centroid's variance can be negative (`GsmEstimadores.VarianzaMixta`). There the source's centroid precision is NaN and so is the whole combined estimate, latitude and longitude included. The model has no NaN: its centroid carries the non-negative `raiz` value and its combination is a real number, so on those inputs the model's estimate is not the source's. Both members claim a non-negative precision only for coherent strengths (`GsmEstimadores.VarianzaNoNegativa`).
- `GsmEstimadores.Combinacion`: requires non-negative precisions, which the model's estimates always have (see the line above for where the source's do not). A negative precision could make the weights sum to zero, which numpy turns into a division error. That error path is not modelled.
- `GsmModelo.Metodo`: the method names "RSSI", "TOA", "CENTROIDE", "2_CELDAS" and "COMBINADO" are a datatype instead of strings.
- `MapeadorGSM` does not keep its reference to the triangulator. Only `generar_mapa_heatmap` and `generar_mapa_celdas` use it, and both are left out: they only export maps.
- Times are integer microseconds, matching the resolution of Python's `datetime`. "now" (`datetime.now()`) is a parameter, and one call uses a single value of it. The source reads the clock again in `_generar_alerta`, so an alert's timestamp can differ from the window's by the time between the two reads.
- A frame is a sequence of octets, read through `str(paquete)` and `ord()`. That reading holds in `imsi-2.py`, which runs under Python 2, where `str()` of a packet is its raw bytes. `imsi.py` runs under Python 3 (it uses f-strings), where `str(paquete)` is a printable rendering of the packet and not its octets. For `imsi.py` the model therefore describes the intended octet reading, not what the Python 3 expression yields.
- `Tbcd.ImsiASeguirAcepta`: accepts only the ASCII digits '0'..'9'. Under Python 3, `int()` in `imsi.py` also accepts a single character that is any other Unicode decimal digit, such as '٣' or '３'. There `imsi.py` packs that digit's value, while the model rejects the option. `imsi-2.py` runs under Python 2, where such a character raises ValueError, as in the model.
- `Formato.CodificarImsiASeguir`: raises ValueError for every non-ASCII character. For the non-ASCII Unicode decimal digits of the line above, `imsi.py` under Python 3 packs the digit instead.
- `gsmlocation.py` line 34 declares `tipo_celda: str  'BCCH', 'TCH', etc.` without the `#` of a comment, so the file as written is a SyntaxError and none of it runs. The model reads the line as the comment it evidently is: a field `tipo_celda` of type `str`.
- A code-table entry (`CodigosMcc.EntradaMcc`) always has both a country list (`'c'`) and an MNC map (`'MNC'`). An entry without `'c'` would give "Desconocido" in `imsi-3.py`:210 and raise KeyError in the capture scripts; an entry without `'MNC'` raises KeyError at `imsi.py`:63 and 173 and `imsi-2.py`:51. Neither kind of entry can be represented, so those KeyErrors are not modelled.
- `Captura.Rastreador.EscribirLacCelda`: in `imsi-2.py`, `lac` and `cell` hold integers until the final `str()`. A lookup IndexError leaves them as integers. The model stores their decimal text in both scripts and in every case.
