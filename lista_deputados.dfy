/**
 * The controller state of the directory page and its transitions.
 *
 * Draft filters are what the inputs show; the committed query and the page
 * decide what is fetched. A fetch is modelled as `BeginFetch` followed by
 * either `ApplySuccess` with the decoded body or `ApplyFailure` when the
 * request or the body decoding is rejected; the network itself is not
 * modelled, so one fetch completes before the next starts.
 */
module ListaDeputados {
  import opened Wrappers
  import opened Deputados
  import opened Request
  import opened Pagination

  /** The fixed list of federative-unit codes offered in the state filter, in the component's own order. */
  const Ufs: seq<string> := [
    "AC", "AL", "AP", "AM", "BA", "CE", "DF", "ES", "GO", "MA", "MT", "MS", "MG", "PA",
    "PB", "PR", "PE", "PI", "RJ", "RN", "RS", "RO", "RR", "SC", "SP", "SE", "TO" ]

  predicate IsUpper(c: char) {
    'A' <= c <= 'Z'
  }

  /** The state list holds 27 distinct two-letter upper-case codes (it is not in alphabetical order). */
  lemma UfsFacts()
    ensures |Ufs| == 27
    ensures forall i :: 0 <= i < |Ufs| ==> |Ufs[i]| == 2 && IsUpper(Ufs[i][0]) && IsUpper(Ufs[i][1])
    ensures forall i, j :: 0 <= i < j < |Ufs| ==> Ufs[i] != Ufs[j]
  {
  }

  /** A party as the party-list request returns it; only `sigla` is used. */
  datatype Partido = Partido(id: int, sigla: string, nome: string)

  /** The decoded body of a directory response; a field the body lacks is `None`. */
  datatype Payload = Payload(dados: Option<seq<Deputado>>, links: Option<seq<Link>>)

  /** One issued fetch: the page its closure captured and the parameters it sent. */
  datatype FetchRequest = FetchRequest(pagina: int, params: seq<Param>)

  class Controller {
    var deputados: seq<Deputado>
    var loading: bool
    var pagina: int
    var totalPaginas: int
    /** The filter inputs as the user is editing them. */
    var draft: Filters
    /** The filters of the last search; with `pagina`, what is fetched. */
    var query: Filters
    var ufs: seq<string>
    var partidos: seq<string>

    /** The shown records never repeat an id, and the state list is either not yet loaded or the fixed one. */
    ghost predicate Valid()
      reads this
    {
      IdsDistinct(deputados) && (ufs == [] || ufs == Ufs)
    }

    constructor ()
      ensures Valid()
      ensures deputados == [] && loading && pagina == 1 && totalPaginas == 1
      ensures draft == NoFilters && query == NoFilters
      ensures ufs == [] && partidos == []
    {
      deputados := [];
      loading := true;
      pagina := 1;
      totalPaginas := 1;
      draft := NoFilters;
      query := NoFilters;
      ufs := [];
      partidos := [];
    }

    /** Typing in the name input. */
    method EditNome(value: string)
      requires Valid()
      modifies this`draft
      ensures Valid()
      ensures draft == old(draft).(nome := value)
      ensures query == old(query) && pagina == old(pagina)
    {
      draft := draft.(nome := value);
    }

    /** Choosing in the state select ("" is "Todos"). */
    method EditUf(value: string)
      requires Valid()
      modifies this`draft
      ensures Valid()
      ensures draft == old(draft).(uf := value)
      ensures query == old(query) && pagina == old(pagina)
    {
      draft := draft.(uf := value);
    }

    /** Choosing in the party select ("" is "Todos"). */
    method EditPartido(value: string)
      requires Valid()
      modifies this`draft
      ensures Valid()
      ensures draft == old(draft).(partido := value)
      ensures query == old(query) && pagina == old(pagina)
    {
      draft := draft.(partido := value);
    }

    /** The search button: the draft becomes the query and the page goes back to 1. */
    method Commit()
      requires Valid()
      modifies this`query, this`pagina
      ensures Valid()
      ensures query == draft && pagina == 1
      ensures draft == old(draft) && deputados == old(deputados) && totalPaginas == old(totalPaginas)
    {
      query := Filters(draft.nome, draft.uf, draft.partido);
      pagina := 1;
    }

    /** The pagination control: only the page changes. */
    method GoToPage(value: int)
      requires Valid()
      modifies this`pagina
      ensures Valid()
      ensures pagina == value
      ensures query == old(query) && draft == old(draft)
      ensures deputados == old(deputados) && totalPaginas == old(totalPaginas)
    {
      pagina := value;
    }

    /** Start of a fetch: loading is raised and the request for the current query and page is built. */
    method BeginFetch() returns (req: FetchRequest)
      requires Valid()
      modifies this`loading
      ensures Valid() && loading
      ensures req.pagina == pagina && req.params == RequestParams(query, pagina)
      ensures deputados == old(deputados) && totalPaginas == old(totalPaginas)
    {
      loading := true;
      var params := BuildParams(query, pagina);
      req := FetchRequest(pagina, params);
    }

    /**
     * A decoded body arrived for `req`. Without `dados` the list access throws
     * and nothing but `loading` changes. Otherwise the deduplicated records are
     * shown; then, if the body has `links`, the total page count is resolved,
     * and if it has none the link search throws after the records were
     * replaced, so the old count stays. `loading` is cleared in every case.
     */
    method ApplySuccess(req: FetchRequest, payload: Payload)
      requires Valid()
      modifies this`deputados, this`totalPaginas, this`loading
      ensures Valid() && !loading
      ensures deputados == if payload.dados.Some? then Dedupe(payload.dados.value) else old(deputados)
      ensures totalPaginas ==
        if payload.dados.Some? && payload.links.Some?
        then ResolveTotalPages(payload.links.value, |deputados|, req.pagina)
        else old(totalPaginas)
    {
      if payload.dados.Some? {
        var unicos := Dedupe(payload.dados.value);
        DedupeSpec(payload.dados.value);
        deputados := unicos;
        if payload.links.Some? {
          totalPaginas := ResolveTotalPages(payload.links.value, |unicos|, req.pagina);
        }
      }
      loading := false;
    }

    /** The request or the body decoding failed: the previous result stays and loading is cleared. */
    method ApplyFailure()
      requires Valid()
      modifies this`loading
      ensures Valid() && !loading
      ensures deputados == old(deputados) && totalPaginas == old(totalPaginas)
    {
      loading := false;
    }

    /** On mount: the fixed state list is published. */
    method LoadFilterOptions()
      requires Valid()
      modifies this`ufs
      ensures Valid() && ufs == Ufs
    {
      ufs := Ufs;
    }

    /** The party list arrived: the select offers the parties' codes, in the order received. */
    method ApplyParties(dados: seq<Partido>)
      requires Valid()
      modifies this`partidos
      ensures Valid()
      ensures |partidos| == |dados| && forall i :: 0 <= i < |dados| ==> partidos[i] == dados[i].sigla
    {
      partidos := seq(|dados|, i requires 0 <= i < |dados| => dados[i].sigla);
    }
  }

  /**
   * From page 4, typing "ana", choosing "SP" and searching issues a request for
   * page 1 with the name and state filters and no party filter.
   */
  method SearchFromLaterPage() returns (req: FetchRequest)
    ensures req.pagina == 1
    ensures req.params ==
      [ Param("itens", "50"), Param("dataInicio", "2023-01-01"), Param("ordem", "ASC"),
        Param("ordenarPor", "nome"), Param("pagina", "1"),
        Param("nome", "ana"), Param("siglaUf", "SP") ]
  {
    var c := new Controller();
    c.GoToPage(4);
    c.EditNome("ana");
    c.EditUf("SP");
    c.Commit();
    req := c.BeginFetch();
    RequestParamsExample();
  }

  /**
   * A first page whose records have ids 1, 2, 1 and no "last" link shows the
   * first two records and a page count of 1.
   */
  method FetchWithDuplicates(a: Deputado, b: Deputado, d: Deputado) returns (shown: seq<Deputado>, total: int)
    requires a.id == 1 && b.id == 2 && d.id == 1
    ensures shown == [a, b] && total == 1
  {
    var c := new Controller();
    var req := c.BeginFetch();
    c.ApplySuccess(req, Payload(Some([a, b, d]), Some([])));
    DedupeExample(a, b, d);
    shown, total := c.deputados, c.totalPaginas;
  }
}
