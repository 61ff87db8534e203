/** URL construction of `problemaService.getAll` and `problemaService.getByImovel`. */
module ProblemaService {

  import opened Base
  import opened Query
  import Text

  /** The optional filters of `getAll`; an absent filters object reads as all fields absent. */
  datatype Filters = Filters(imovelId: Option<int>, status: Option<string>, prioridade: Option<string>)

  /** The optional filters of `getByImovel`. */
  datatype ImovelFilters = ImovelFilters(status: Option<string>, prioridade: Option<string>)

  const Order: seq<string> := ["imovel_id", "status", "prioridade"]

  /** The parameters `getAll` appends: each of `imovel_id`, `status`, `prioridade` only when truthy. */
  function AllQuery(f: Filters): seq<Pair> {
    AppendedIf(TruthyNumber(f.imovelId), "imovel_id", Text.IntToDecimal(f.imovelId.GetOr(0)))
    + AppendedIf(TruthyText(f.status), "status", f.status.GetOr(""))
    + AppendedIf(TruthyText(f.prioridade), "prioridade", f.prioridade.GetOr(""))
  }

  /** The parameters `getByImovel` appends: `status`, then `prioridade`, each only when non-empty. */
  function ImovelQuery(f: ImovelFilters): seq<Pair> {
    AppendedIf(TruthyText(f.status), "status", f.status.GetOr(""))
    + AppendedIf(TruthyText(f.prioridade), "prioridade", f.prioridade.GetOr(""))
  }

  /** `getAll` always requests `/problemas?` followed by the parameters, even when there are none. */
  method GetAllUrl(filters: Filters) returns (url: string)
    ensures url == "/problemas?" + Serialize(AllQuery(filters))
    ensures AllQuery(filters) == [] ==> url == "/problemas?"
  {
    var params := new SearchParams();
    if filters.imovelId.Some? && filters.imovelId.value != 0 {
      params.Append("imovel_id", Text.IntToDecimal(filters.imovelId.value));
    }
    assert params.pairs == AppendedIf(TruthyNumber(filters.imovelId), "imovel_id", Text.IntToDecimal(filters.imovelId.GetOr(0)));
    if filters.status.Some? && filters.status.value != "" {
      params.Append("status", filters.status.value);
    }
    assert params.pairs == AppendedIf(TruthyNumber(filters.imovelId), "imovel_id", Text.IntToDecimal(filters.imovelId.GetOr(0)))
      + AppendedIf(TruthyText(filters.status), "status", filters.status.GetOr(""));
    if filters.prioridade.Some? && filters.prioridade.value != "" {
      params.Append("prioridade", filters.prioridade.value);
    }
    assert params.pairs == AllQuery(filters);
    url := "/problemas?" + params.ToString();
  }

  /** `getByImovel` puts the id in the path and adds `?` only when `status` or `prioridade` was appended. */
  method GetByImovelUrl(imovelId: int, filters: ImovelFilters) returns (url: string)
    ensures var q := ImovelQuery(filters);
      url == "/problemas/imovel/" + Text.IntToDecimal(imovelId) + (if q == [] then "" else "?" + Serialize(q))
    ensures '?' in url <==> ImovelQuery(filters) != []
    ensures ImovelQuery(filters) == [] <==> !TruthyText(filters.status) && !TruthyText(filters.prioridade)
  {
    ghost var b := AppendedIf(TruthyText(filters.status), "status", filters.status.GetOr(""));
    ghost var c := AppendedIf(TruthyText(filters.prioridade), "prioridade", filters.prioridade.GetOr(""));
    var params := new SearchParams();
    if filters.status.Some? && filters.status.value != "" {
      params.Append("status", filters.status.value);
    }
    assert params.pairs == b;
    if filters.prioridade.Some? && filters.prioridade.value != "" {
      params.Append("prioridade", filters.prioridade.value);
    }
    assert params.pairs == b + c == ImovelQuery(filters);
    assert b + c == [] <==> b == [] && c == [];
    var queryString := params.ToString();
    url := "/problemas/imovel/" + Text.IntToDecimal(imovelId) + (if queryString != "" then "?" + queryString else "");
    Text.IntToDecimalCharacters(imovelId);
    QueryMark("/problemas/imovel/" + Text.IntToDecimal(imovelId), queryString);
  }

  /** The names of a `getAll` query follow the source's append order. */
  lemma AllQueryInOrder(f: Filters)
    ensures IsSubsequence(Names(AllQuery(f)), Order)
  {
  }

  /** A `getAll` query reads back as the truthy filters, each at most once, in the order imovel_id, status, prioridade. */
  lemma AllQueryReadsFilters(f: Filters)
    ensures var q := AllQuery(f);
      && Lookup(q, "imovel_id") == (if TruthyNumber(f.imovelId) then Some(Text.IntToDecimal(f.imovelId.value)) else None)
      && Lookup(q, "status") == (if TruthyText(f.status) then f.status else None)
      && Lookup(q, "prioridade") == (if TruthyText(f.prioridade) then f.prioridade else None)
      && IsSubsequence(Names(q), Order)
  {
    AllQueryInOrder(f);
    var a := AppendedIf(TruthyNumber(f.imovelId), "imovel_id", Text.IntToDecimal(f.imovelId.GetOr(0)));
    var b := AppendedIf(TruthyText(f.status), "status", f.status.GetOr(""));
    var c := AppendedIf(TruthyText(f.prioridade), "prioridade", f.prioridade.GetOr(""));
    forall name | name in Order
      ensures Lookup(a + b + c, name) == if Lookup(a, name).Some? then Lookup(a, name)
        else if Lookup(b, name).Some? then Lookup(b, name) else Lookup(c, name)
    {
      LookupAppend(a + b, c, name);
      LookupAppend(a, b, name);
    }
  }

  /** The names of a `getByImovel` query follow the source's append order. */
  lemma ImovelQueryInOrder(f: ImovelFilters)
    ensures IsSubsequence(Names(ImovelQuery(f)), Order[1..])
  {
  }

  /** A `getByImovel` query never names `imovel_id` (the id travels in the path) and reads back as its truthy filters. */
  lemma ImovelQueryReadsFilters(f: ImovelFilters)
    ensures var q := ImovelQuery(f);
      && "imovel_id" !in Names(q)
      && Lookup(q, "status") == (if TruthyText(f.status) then f.status else None)
      && Lookup(q, "prioridade") == (if TruthyText(f.prioridade) then f.prioridade else None)
      && IsSubsequence(Names(q), Order[1..])
  {
    ImovelQueryInOrder(f);
    var b := AppendedIf(TruthyText(f.status), "status", f.status.GetOr(""));
    var c := AppendedIf(TruthyText(f.prioridade), "prioridade", f.prioridade.GetOr(""));
    forall name | name in Order
      ensures Lookup(b + c, name) == if Lookup(b, name).Some? then Lookup(b, name) else Lookup(c, name)
    {
      LookupAppend(b, c, name);
    }
  }

  /**
   * A server that parses the `getAll` query text gets back exactly the appended pairs, and so
   * reads each filter as `AllQueryReadsFilters` states. `status` and `prioridade` must be free of
   * `&` and `=`, since percent-encoding is not modelled.
   */
  lemma AllQueryTextReadsFilters(f: Filters)
    requires f.status.Some? ==> Plain(f.status.value)
    requires f.prioridade.Some? ==> Plain(f.prioridade.value)
    ensures var read := Parse(Serialize(AllQuery(f)));
      && read == AllQuery(f)
      && Lookup(read, "imovel_id") == (if TruthyNumber(f.imovelId) then Some(Text.IntToDecimal(f.imovelId.value)) else None)
      && Lookup(read, "status") == (if TruthyText(f.status) then f.status else None)
      && Lookup(read, "prioridade") == (if TruthyText(f.prioridade) then f.prioridade else None)
  {
    var a := AppendedIf(TruthyNumber(f.imovelId), "imovel_id", Text.IntToDecimal(f.imovelId.GetOr(0)));
    var b := AppendedIf(TruthyText(f.status), "status", f.status.GetOr(""));
    var c := AppendedIf(TruthyText(f.prioridade), "prioridade", f.prioridade.GetOr(""));
    PlainDecimal(f.imovelId.GetOr(0));
    assert PlainPairs(a) && PlainPairs(b) && PlainPairs(c);
    PlainPairsConcat(a, b);
    PlainPairsConcat(a + b, c);
    RoundTrip(AllQuery(f));
    AllQueryReadsFilters(f);
  }

  /** The `getByImovel` query text parses back to its pairs: the plain `status` and `prioridade` that are truthy. */
  lemma ImovelQueryTextReadsFilters(f: ImovelFilters)
    requires f.status.Some? ==> Plain(f.status.value)
    requires f.prioridade.Some? ==> Plain(f.prioridade.value)
    ensures var read := Parse(Serialize(ImovelQuery(f)));
      && read == ImovelQuery(f)
      && Lookup(read, "imovel_id") == None
      && Lookup(read, "status") == (if TruthyText(f.status) then f.status else None)
      && Lookup(read, "prioridade") == (if TruthyText(f.prioridade) then f.prioridade else None)
  {
    var b := AppendedIf(TruthyText(f.status), "status", f.status.GetOr(""));
    var c := AppendedIf(TruthyText(f.prioridade), "prioridade", f.prioridade.GetOr(""));
    assert PlainPairs(b) && PlainPairs(c);
    PlainPairsConcat(b, c);
    RoundTrip(ImovelQuery(f));
    ImovelQueryReadsFilters(f);
  }
}
