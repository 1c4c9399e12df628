/**
 * The state (UF) and city lookups against the IBGE administrative-division
 * service: the URLs the form requests, the sentinel that suppresses the city
 * request, and the projections of the responses into option lists.
 */
module Regions {

  datatype Option<T> = None | Some(value: T)

  /** One record of the IBGE states response; only `sigla` is read. */
  datatype UfRecord = UfRecord(sigla: string)

  /** One record of the IBGE municipalities response; only `nome` is read. */
  datatype CityRecord = CityRecord(nome: string)

  /** The value of the "Selecione uma UF" option: no state selected. */
  const NoUf: string := "0"

  /** The value of the "Selecione uma Cidade" option: no city selected. */
  const NoCity: string := "0"

  const UfsUrl: string := "https://servicodados.ibge.gov.br/api/v1/localidades/estados"

  const CitiesSuffix: string := "/municipios"

  /** `response.data.map(uf => uf.sigla)`. */
  function UfCodes(data: seq<UfRecord>): (r: seq<string>)
    ensures |r| == |data|
    ensures forall i :: 0 <= i < |data| ==> r[i] == data[i].sigla
  {
    if |data| == 0 then [] else [data[0].sigla] + UfCodes(data[1..])
  }

  /** `response.data.map(city => city.nome)`. */
  function CityNames(data: seq<CityRecord>): (r: seq<string>)
    ensures |r| == |data|
    ensures forall i :: 0 <= i < |data| ==> r[i] == data[i].nome
  {
    if |data| == 0 then [] else [data[0].nome] + CityNames(data[1..])
  }

  /**
   * The municipalities request issued for the selected state, or None when
   * the selection is the sentinel and no request is made.
   */
  function CitiesUrl(uf: string): (r: Option<string>)
    ensures r.None? <==> uf == NoUf
    ensures r.Some? ==>
              |r.value| == |UfsUrl| + 1 + |uf| + |CitiesSuffix| &&
              r.value[..|UfsUrl| + 1] == UfsUrl + "/" &&
              r.value[|UfsUrl| + 1..|UfsUrl| + 1 + |uf|] == uf &&
              r.value[|UfsUrl| + 1 + |uf|..] == CitiesSuffix
  {
    if uf == NoUf then None else Some(UfsUrl + "/" + uf + CitiesSuffix)
  }

  /** Distinct states are looked up under distinct URLs. */
  lemma CitiesUrlDeterminesUf(a: string, b: string)
    requires CitiesUrl(a) == CitiesUrl(b)
    ensures a == b
  {
  }
}
