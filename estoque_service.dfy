/** URL construction of `estoqueService.getAll` and `estoqueService.getByImovel`. */
module EstoqueService {

  import opened Base
  import opened Query
  import Text

  /** The optional filters of `getAll`; an absent filters object reads as all fields absent. */
  datatype Filters = Filters(imovelId: Option<int>, categoria: Option<string>, precisaRepor: Option<bool>)

  /** The optional filters of `getByImovel`. */
  datatype ImovelFilters = ImovelFilters(categoria: Option<string>, precisaRepor: Option<bool>)

  const Order: seq<string> := ["imovel_id", "categoria", "precisa_repor"]

  /** The parameters `getAll` appends: a truthy `imovel_id`, a non-empty `categoria`, a defined `precisa_repor`. */
  function AllQuery(f: Filters): seq<Pair> {
    AppendedIf(TruthyNumber(f.imovelId), "imovel_id", Text.IntToDecimal(f.imovelId.GetOr(0)))
    + AppendedIf(TruthyText(f.categoria), "categoria", f.categoria.GetOr(""))
    + AppendedIf(f.precisaRepor.Some?, "precisa_repor", Text.BoolToText(f.precisaRepor.GetOr(false)))
  }

  /** The parameters `getByImovel` appends: a non-empty `categoria`, a defined `precisa_repor`. */
  function ImovelQuery(f: ImovelFilters): seq<Pair> {
    AppendedIf(TruthyText(f.categoria), "categoria", f.categoria.GetOr(""))
    + AppendedIf(f.precisaRepor.Some?, "precisa_repor", Text.BoolToText(f.precisaRepor.GetOr(false)))
  }

  /** `getAll` always requests `/estoque?` followed by the parameters, even when there are none. */
  method GetAllUrl(filters: Filters) returns (url: string)
    ensures url == "/estoque?" + Serialize(AllQuery(filters))
    ensures AllQuery(filters) == [] ==> url == "/estoque?"
  {
    var params := new SearchParams();
    if filters.imovelId.Some? && filters.imovelId.value != 0 {
      params.Append("imovel_id", Text.IntToDecimal(filters.imovelId.value));
    }
    assert params.pairs == AppendedIf(TruthyNumber(filters.imovelId), "imovel_id", Text.IntToDecimal(filters.imovelId.GetOr(0)));
    if filters.categoria.Some? && filters.categoria.value != "" {
      params.Append("categoria", filters.categoria.value);
    }
    assert params.pairs == AppendedIf(TruthyNumber(filters.imovelId), "imovel_id", Text.IntToDecimal(filters.imovelId.GetOr(0)))
      + AppendedIf(TruthyText(filters.categoria), "categoria", filters.categoria.GetOr(""));
    if filters.precisaRepor.Some? {
      params.Append("precisa_repor", Text.BoolToText(filters.precisaRepor.value));
    }
    assert params.pairs == AllQuery(filters);
    url := "/estoque?" + params.ToString();
  }

  /** `getByImovel` puts the id in the path and adds `?` only when some parameter was appended. */
  method GetByImovelUrl(imovelId: int, filters: ImovelFilters) returns (url: string)
    ensures var q := ImovelQuery(filters);
      url == "/estoque/imovel/" + Text.IntToDecimal(imovelId) + (if q == [] then "" else "?" + Serialize(q))
    ensures '?' in url <==> ImovelQuery(filters) != []
  {
    ghost var b := AppendedIf(TruthyText(filters.categoria), "categoria", filters.categoria.GetOr(""));
    ghost var c := AppendedIf(filters.precisaRepor.Some?, "precisa_repor", Text.BoolToText(filters.precisaRepor.GetOr(false)));
    var params := new SearchParams();
    if filters.categoria.Some? && filters.categoria.value != "" {
      params.Append("categoria", filters.categoria.value);
    }
    assert params.pairs == b;
    if filters.precisaRepor.Some? {
      params.Append("precisa_repor", Text.BoolToText(filters.precisaRepor.value));
    }
    assert params.pairs == b + c == ImovelQuery(filters);
    assert b + c == [] <==> b == [] && c == [];
    var queryString := params.ToString();
    url := "/estoque/imovel/" + Text.IntToDecimal(imovelId) + (if queryString != "" then "?" + queryString else "");
    Text.IntToDecimalCharacters(imovelId);
    QueryMark("/estoque/imovel/" + Text.IntToDecimal(imovelId), queryString);
  }

  /** The names of a `getAll` query follow the source's append order. */
  lemma AllQueryInOrder(f: Filters)
    ensures IsSubsequence(Names(AllQuery(f)), Order)
  {
  }

  /**
   * What a server reads from the `getAll` query: `imovel_id` exactly when the id is truthy (so 0 is
   * dropped), `categoria` exactly when it is non-empty, `precisa_repor` whenever it is defined
   * (`false` included), each at most once and in the order imovel_id, categoria, precisa_repor.
   */
  lemma AllQueryReadsFilters(f: Filters)
    ensures var q := AllQuery(f);
      && Lookup(q, "imovel_id") == (if TruthyNumber(f.imovelId) then Some(Text.IntToDecimal(f.imovelId.value)) else None)
      && Lookup(q, "categoria") == (if TruthyText(f.categoria) then f.categoria else None)
      && Lookup(q, "precisa_repor") == (if f.precisaRepor.Some? then Some(Text.BoolToText(f.precisaRepor.value)) else None)
      && IsSubsequence(Names(q), Order)
  {
    AllQueryInOrder(f);
    var a := AppendedIf(TruthyNumber(f.imovelId), "imovel_id", Text.IntToDecimal(f.imovelId.GetOr(0)));
    var b := AppendedIf(TruthyText(f.categoria), "categoria", f.categoria.GetOr(""));
    var c := AppendedIf(f.precisaRepor.Some?, "precisa_repor", Text.BoolToText(f.precisaRepor.GetOr(false)));
    forall name | name in Order
      ensures Lookup(a + b + c, name) == if Lookup(a, name).Some? then Lookup(a, name)
        else if Lookup(b, name).Some? then Lookup(b, name) else Lookup(c, name)
    {
      LookupAppend(a + b, c, name);
      LookupAppend(a, b, name);
    }
  }

  /** The names of a `getByImovel` query follow the source's append order. */
  lemma ImovelQueryInOrder(f: ImovelFilters)
    ensures IsSubsequence(Names(ImovelQuery(f)), Order[1..])
  {
  }

  /** A `getByImovel` query reads back as its non-empty `categoria` and its defined `precisa_repor`, in that order. */
  lemma ImovelQueryReadsFilters(f: ImovelFilters)
    ensures var q := ImovelQuery(f);
      && Lookup(q, "imovel_id") == None
      && Lookup(q, "categoria") == (if TruthyText(f.categoria) then f.categoria else None)
      && Lookup(q, "precisa_repor") == (if f.precisaRepor.Some? then Some(Text.BoolToText(f.precisaRepor.value)) else None)
      && IsSubsequence(Names(q), Order[1..])
  {
    ImovelQueryInOrder(f);
    var b := AppendedIf(TruthyText(f.categoria), "categoria", f.categoria.GetOr(""));
    var c := AppendedIf(f.precisaRepor.Some?, "precisa_repor", Text.BoolToText(f.precisaRepor.GetOr(false)));
    forall name | name in Order
      ensures Lookup(b + c, name) == if Lookup(b, name).Some? then Lookup(b, name) else Lookup(c, name)
    {
      LookupAppend(b, c, name);
    }
  }

  /**
   * A server that parses the `getAll` query text gets back exactly the appended pairs, and so
   * reads each filter as `AllQueryReadsFilters` states. The `categoria` must be free of `&` and
   * `=`, since percent-encoding is not modelled.
   */
  lemma AllQueryTextReadsFilters(f: Filters)
    requires f.categoria.Some? ==> Plain(f.categoria.value)
    ensures var read := Parse(Serialize(AllQuery(f)));
      && read == AllQuery(f)
      && Lookup(read, "imovel_id") == (if TruthyNumber(f.imovelId) then Some(Text.IntToDecimal(f.imovelId.value)) else None)
      && Lookup(read, "categoria") == (if TruthyText(f.categoria) then f.categoria else None)
      && Lookup(read, "precisa_repor") == (if f.precisaRepor.Some? then Some(Text.BoolToText(f.precisaRepor.value)) else None)
  {
    var a := AppendedIf(TruthyNumber(f.imovelId), "imovel_id", Text.IntToDecimal(f.imovelId.GetOr(0)));
    var b := AppendedIf(TruthyText(f.categoria), "categoria", f.categoria.GetOr(""));
    var c := AppendedIf(f.precisaRepor.Some?, "precisa_repor", Text.BoolToText(f.precisaRepor.GetOr(false)));
    PlainDecimal(f.imovelId.GetOr(0));
    assert PlainPairs(a) && PlainPairs(b) && PlainPairs(c);
    PlainPairsConcat(a, b);
    PlainPairsConcat(a + b, c);
    RoundTrip(AllQuery(f));
    AllQueryReadsFilters(f);
  }

  /** The `getByImovel` query text parses back to its pairs: a plain `categoria` and the defined `precisa_repor`. */
  lemma ImovelQueryTextReadsFilters(f: ImovelFilters)
    requires f.categoria.Some? ==> Plain(f.categoria.value)
    ensures var read := Parse(Serialize(ImovelQuery(f)));
      && read == ImovelQuery(f)
      && Lookup(read, "imovel_id") == None
      && Lookup(read, "categoria") == (if TruthyText(f.categoria) then f.categoria else None)
      && Lookup(read, "precisa_repor") == (if f.precisaRepor.Some? then Some(Text.BoolToText(f.precisaRepor.value)) else None)
  {
    var b := AppendedIf(TruthyText(f.categoria), "categoria", f.categoria.GetOr(""));
    var c := AppendedIf(f.precisaRepor.Some?, "precisa_repor", Text.BoolToText(f.precisaRepor.GetOr(false)));
    assert PlainPairs(b) && PlainPairs(c);
    PlainPairsConcat(b, c);
    RoundTrip(ImovelQuery(f));
    ImovelQueryReadsFilters(f);
  }
}
