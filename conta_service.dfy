/** URL construction of `contaService.getAll` and `contaService.getByImovel`. */
module ContaService {

  import opened Base
  import opened Query
  import Text

  /** The optional filters of `getAll`; an absent filters object reads as all fields absent. */
  datatype Filters = Filters(imovelId: Option<int>, status: Option<string>)

  const Order: seq<string> := ["imovel_id", "status"]

  /** The parameters `getAll` appends: `imovel_id`, then `status`, each only when truthy. */
  function AllQuery(f: Filters): seq<Pair> {
    AppendedIf(TruthyNumber(f.imovelId), "imovel_id", Text.IntToDecimal(f.imovelId.GetOr(0)))
    + AppendedIf(TruthyText(f.status), "status", f.status.GetOr(""))
  }

  /** `getAll` always requests `/contas?` followed by the parameters, even when there are none. */
  method GetAllUrl(filters: Filters) returns (url: string)
    ensures url == "/contas?" + Serialize(AllQuery(filters))
    ensures AllQuery(filters) == [] ==> url == "/contas?"
  {
    var params := new SearchParams();
    if filters.imovelId.Some? && filters.imovelId.value != 0 {
      params.Append("imovel_id", Text.IntToDecimal(filters.imovelId.value));
    }
    assert params.pairs == AppendedIf(TruthyNumber(filters.imovelId), "imovel_id", Text.IntToDecimal(filters.imovelId.GetOr(0)));
    if filters.status.Some? && filters.status.value != "" {
      params.Append("status", filters.status.value);
    }
    assert params.pairs == AllQuery(filters);
    url := "/contas?" + params.ToString();
  }

  /**
   * `getByImovel` appends the literal `?status=` and the status text itself, with no encoding,
   * when the status is non-empty, and nothing otherwise. For a status free of `&` and `=` this is
   * the query `URLSearchParams` would have produced; the id travels in the path.
   */
  function ByImovelUrl(imovelId: int, status: Option<string>): (url: string)
    ensures var path := "/contas/imovel/" + Text.IntToDecimal(imovelId);
      && |path| <= |url| && url[..|path|] == path
      && (!TruthyText(status) ==> url == path)
      && (TruthyText(status) ==> url[|path|..] == "?status=" + status.value)
      && (TruthyText(status) && Plain(status.value) ==> Parse(url[|path| + 1..]) == [("status", status.value)])
  {
    var path := "/contas/imovel/" + Text.IntToDecimal(imovelId);
    var params := if status.Some? && status.value != "" then "?status=" + status.value else "";
    var url := path + params;
    assert TruthyText(status) && Plain(status.value) ==> Parse(url[|path| + 1..]) == [("status", status.value)] by {
      if TruthyText(status) && Plain(status.value) {
        assert url[|path| + 1..] == Field(("status", status.value)) == Serialize([("status", status.value)]);
        assert Plain("status");
        RoundTrip([("status", status.value)]);
      }
    }
    url
  }

  /** The names of a `getAll` query follow the source's append order. */
  lemma AllQueryInOrder(f: Filters)
    ensures IsSubsequence(Names(AllQuery(f)), Order)
  {
  }

  /** A `getAll` query reads back as its truthy filters, each at most once, `imovel_id` first. */
  lemma AllQueryReadsFilters(f: Filters)
    ensures var q := AllQuery(f);
      && Lookup(q, "imovel_id") == (if TruthyNumber(f.imovelId) then Some(Text.IntToDecimal(f.imovelId.value)) else None)
      && Lookup(q, "status") == (if TruthyText(f.status) then f.status else None)
      && IsSubsequence(Names(q), Order)
  {
    AllQueryInOrder(f);
    var a := AppendedIf(TruthyNumber(f.imovelId), "imovel_id", Text.IntToDecimal(f.imovelId.GetOr(0)));
    var b := AppendedIf(TruthyText(f.status), "status", f.status.GetOr(""));
    forall name | name in Order
      ensures Lookup(a + b, name) == if Lookup(a, name).Some? then Lookup(a, name) else Lookup(b, name)
    {
      LookupAppend(a, b, name);
    }
  }

  /**
   * A server that parses the `getAll` query text gets back exactly the appended pairs, and so
   * reads each filter as `AllQueryReadsFilters` states. The `status` must be free of `&` and `=`,
   * since percent-encoding is not modelled.
   */
  lemma AllQueryTextReadsFilters(f: Filters)
    requires f.status.Some? ==> Plain(f.status.value)
    ensures var read := Parse(Serialize(AllQuery(f)));
      && read == AllQuery(f)
      && Lookup(read, "imovel_id") == (if TruthyNumber(f.imovelId) then Some(Text.IntToDecimal(f.imovelId.value)) else None)
      && Lookup(read, "status") == (if TruthyText(f.status) then f.status else None)
  {
    var a := AppendedIf(TruthyNumber(f.imovelId), "imovel_id", Text.IntToDecimal(f.imovelId.GetOr(0)));
    var b := AppendedIf(TruthyText(f.status), "status", f.status.GetOr(""));
    PlainDecimal(f.imovelId.GetOr(0));
    assert PlainPairs(a) && PlainPairs(b);
    PlainPairsConcat(a, b);
    RoundTrip(AllQuery(f));
    AllQueryReadsFilters(f);
  }
}
