/**
 * The query parameters of the directory request.
 *
 * The request always starts with the page size, the start date, the sort
 * order, the sort key and the current page; the name, state (UF) and party
 * filters follow, in that order, each only when its text is non-empty.
 * Parameters are an ordered list of key/value pairs, as `URLSearchParams`
 * keeps them; percent-encoding and `toString` are not modelled.
 */
module Request {
  import opened Wrappers
  import opened ArraySearch
  import opened Decimal

  /** The three filter texts; the empty string means "no constraint". */
  datatype Filters = Filters(nome: string, uf: string, partido: string)

  const NoFilters := Filters("", "", "")

  datatype Param = Param(key: string, value: string)

  /** Records per page requested from the API. */
  const PageSize := 50

  /** The fixed parameters every directory request starts with. */
  function BaseParams(pagina: int): seq<Param> {
    [ Param("itens", IntToDecimal(PageSize)),
      Param("dataInicio", "2023-01-01"),
      Param("ordem", "ASC"),
      Param("ordenarPor", "nome"),
      Param("pagina", IntToDecimal(pagina)) ]
  }

  /** A filter parameter, present only when its value is non-empty. */
  function OptionalParam(key: string, value: string): (r: seq<Param>)
    ensures |r| == (if value == "" then 0 else 1)
    ensures forall p :: p in r ==> p == Param(key, value)
  {
    if value == "" then [] else [Param(key, value)]
  }

  /** The parameters sent for filters `q` on page `pagina`. */
  function RequestParams(q: Filters, pagina: int): seq<Param> {
    BaseParams(pagina)
      + OptionalParam("nome", q.nome)
      + OptionalParam("siglaUf", q.uf)
      + OptionalParam("siglaPartido", q.partido)
  }

  /** `URLSearchParams.get`: the value of the first parameter named `key`. */
  function Get(ps: seq<Param>, key: string): (r: Option<string>)
    ensures r.None? <==> forall i :: 0 <= i < |ps| ==> ps[i].key != key
    ensures r.Some? ==>
      exists i :: 0 <= i < |ps| && ps[i] == Param(key, r.value) &&
                  forall j :: 0 <= j < i ==> ps[j].key != key
  {
    var k := FindIndex(ps, (p: Param) => p.key == key);
    if k == -1 then None else Some(ps[k].value)
  }

  /** Builds the parameters the way the component does: fixed ones first, then one append per non-empty filter. */
  method BuildParams(q: Filters, pagina: int) returns (ps: seq<Param>)
    ensures ps == RequestParams(q, pagina)
  {
    ps := BaseParams(pagina);
    if q.nome != "" {
      ps := ps + [Param("nome", q.nome)];
    }
    if q.uf != "" {
      ps := ps + [Param("siglaUf", q.uf)];
    }
    if q.partido != "" {
      ps := ps + [Param("siglaPartido", q.partido)];
    }
  }

  /** Looking a key up in a concatenation looks in the first part first. */
  lemma GetAppend(a: seq<Param>, b: seq<Param>, key: string)
    ensures Get(a + b, key) == if Get(a, key).Some? then Get(a, key) else Get(b, key)
  {
    var p := (x: Param) => x.key == key;
    var ka := FindIndex(a, p);
    var k := FindIndex(a + b, p);
    if ka != -1 {
      assert (a + b)[ka] == a[ka];
      assert k == ka;
    } else {
      var kb := FindIndex(b, p);
      forall j | 0 <= j < |a| ensures !p((a + b)[j]) {
        assert (a + b)[j] == a[j];
      }
      if kb == -1 {
        forall j | 0 <= j < |a + b| ensures !p((a + b)[j]) {
          if j >= |a| { assert (a + b)[j] == b[j - |a|]; }
        }
      } else {
        assert (a + b)[|a| + kb] == b[kb];
        assert k == |a| + kb;
      }
    }
  }

  /** Position of each filter key among the optional parameters. */
  function FilterRank(key: string): int {
    if key == "nome" then 0 else if key == "siglaUf" then 1 else if key == "siglaPartido" then 2 else 3
  }

  /** A lookup in the request finds the fixed parameter if there is one, otherwise the filter carrying `key`. */
  lemma GetRequestParams(q: Filters, pagina: int, key: string)
    ensures Get(RequestParams(q, pagina), key) ==
      if Get(BaseParams(pagina), key).Some? then Get(BaseParams(pagina), key)
      else if key == "nome" && q.nome != "" then Some(q.nome)
      else if key == "siglaUf" && q.uf != "" then Some(q.uf)
      else if key == "siglaPartido" && q.partido != "" then Some(q.partido)
      else None
  {
    var base := BaseParams(pagina);
    var n := OptionalParam("nome", q.nome);
    var u := OptionalParam("siglaUf", q.uf);
    GetAppend(base, n, key);
    GetAppend(base + n, u, key);
    GetAppend(base + n + u, OptionalParam("siglaPartido", q.partido), key);
  }

  lemma GetSingle(p: Param, key: string)
    ensures Get([p], key) == if p.key == key then Some(p.value) else None
  {
  }

  /** Among the fixed parameters, lookups find the fixed keys only. */
  lemma GetBase(pagina: int, key: string)
    ensures Get(BaseParams(pagina), key) ==
      if key == "itens" then Some(IntToDecimal(PageSize))
      else if key == "dataInicio" then Some("2023-01-01")
      else if key == "ordem" then Some("ASC")
      else if key == "ordenarPor" then Some("nome")
      else if key == "pagina" then Some(IntToDecimal(pagina))
      else None
  {
    var b := BaseParams(pagina);
    assert b == [b[0]] + [b[1]] + [b[2]] + [b[3]] + [b[4]];
    GetSingle(b[0], key);
    GetSingle(b[1], key);
    GetSingle(b[2], key);
    GetSingle(b[3], key);
    GetSingle(b[4], key);
    GetAppend([b[0]], [b[1]], key);
    GetAppend([b[0]] + [b[1]], [b[2]], key);
    GetAppend([b[0]] + [b[1]] + [b[2]], [b[3]], key);
    GetAppend([b[0]] + [b[1]] + [b[2]] + [b[3]], [b[4]], key);
  }

  /**
   * Each filter key is present in the request exactly when its filter is
   * non-empty, and then carries the filter text verbatim; `pagina` carries
   * the decimal text of the current page.
   */
  lemma RequestParamsLookup(q: Filters, pagina: int)
    ensures Get(RequestParams(q, pagina), "pagina") == Some(IntToDecimal(pagina))
    ensures Get(RequestParams(q, pagina), "nome") == if q.nome == "" then None else Some(q.nome)
    ensures Get(RequestParams(q, pagina), "siglaUf") == if q.uf == "" then None else Some(q.uf)
    ensures Get(RequestParams(q, pagina), "siglaPartido") == if q.partido == "" then None else Some(q.partido)
  {
    GetBase(pagina, "pagina");
    GetBase(pagina, "nome");
    GetBase(pagina, "siglaUf");
    GetBase(pagina, "siglaPartido");
    GetRequestParams(q, pagina, "pagina");
    GetRequestParams(q, pagina, "nome");
    GetRequestParams(q, pagina, "siglaUf");
    GetRequestParams(q, pagina, "siglaPartido");
  }

  /**
   * The five fixed parameters come first, in order; after them come only the
   * non-empty filters, in the order name, state, party.
   */
  lemma RequestParamsShape(q: Filters, pagina: int)
    ensures |RequestParams(q, pagina)| ==
      5 + (if q.nome == "" then 0 else 1) + (if q.uf == "" then 0 else 1) + (if q.partido == "" then 0 else 1)
    ensures RequestParams(q, pagina)[..5] == BaseParams(pagina)
    ensures forall a, b :: 5 <= a < b < |RequestParams(q, pagina)| ==>
      FilterRank(RequestParams(q, pagina)[a].key) < FilterRank(RequestParams(q, pagina)[b].key)
  {
    var r := RequestParams(q, pagina);
    var tail := OptionalParam("nome", q.nome) + OptionalParam("siglaUf", q.uf) + OptionalParam("siglaPartido", q.partido);
    assert r == BaseParams(pagina) + tail;
    assert r[..5] == BaseParams(pagina);
    forall a, b | 5 <= a < b < |r| ensures FilterRank(r[a].key) < FilterRank(r[b].key) {
      assert r[a] == tail[a - 5] && r[b] == tail[b - 5];
    }
  }

  /** Searching for name "ana" in state "SP" with no party, on page 1. */
  lemma RequestParamsExample()
    ensures RequestParams(Filters("ana", "SP", ""), 1) ==
      [ Param("itens", "50"), Param("dataInicio", "2023-01-01"), Param("ordem", "ASC"),
        Param("ordenarPor", "nome"), Param("pagina", "1"),
        Param("nome", "ana"), Param("siglaUf", "SP") ]
  {
    assert IntToDecimal(50) == "50" by {
      assert NatToDecimal(5) == "5";
    }
    assert IntToDecimal(1) == "1";
  }
}
