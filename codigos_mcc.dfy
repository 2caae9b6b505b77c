/** The shape of the MCC/MNC code table (the file mcc-mnc/mcc_codes.json), passed
    to the model as an immutable map instead of being loaded from disk. */
module CodigosMcc {

  /** One MCC entry: the country names under 'c' and, under 'MNC', for every
      network code the list [brand, operator, ...]. */
  datatype EntradaMcc = EntradaMcc(c: seq<string>, mnc: map<string, seq<string>>)

  type Codigos = map<string, EntradaMcc>

  /** Every country list has a first element and every network entry has a brand
      and an operator, so the direct indexing in imsi.py and imsi-2.py cannot fail. */
  predicate BienFormado(codigos: Codigos) {
    forall m :: m in codigos ==>
      |codigos[m].c| >= 1 && forall n :: n in codigos[m].mnc ==> |codigos[m].mnc[n]| >= 2
  }
}
