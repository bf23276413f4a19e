/** The report service: the query string of the report list request, built
    one parameter at a time, and the rule that a failed response becomes an
    error with the call's own message. */
module ReportApi {
  import opened Wrappers
  import opened Strings
  import opened Http

  /** One `name=value` pair of a `URLSearchParams`. */
  datatype Param = Param(key: string, value: string)

  /** An optional text argument that JavaScript treats as true: present and not empty. */
  predicate Given(v: Option<string>) {
    v.Some? && v.value != ""
  }

  /** An optional filter that narrows the list: given and not the wildcard "all". */
  predicate Narrows(v: Option<string>) {
    Given(v) && v.value != "all"
  }

  /** The position of a parameter name in the order the request builds them. */
  function Rank(key: string): int {
    match key
    case "page" => 0
    case "page_size" => 1
    case "search" => 2
    case "source_type" => 3
    case "export_format" => 4
    case _ => 5
  }

  function Count(b: bool): nat { if b then 1 else 0 }

  /** One parameter when `cond` holds, none otherwise. */
  function OptParam(cond: bool, key: string, value: string): (r: seq<Param>)
    ensures |r| == Count(cond)
    ensures forall v :: Param(key, v) in r <==> cond && v == value
    ensures forall k :: 0 <= k < |r| ==> r[k].key == key
    ensures forall p :: p in r ==> p.key == key
  {
    if cond then [Param(key, value)] else []
  }

  /** The parameters the report list request appends, in order. */
  function ReportsQuery(page: Option<int>, pageSize: Option<int>, search: Option<string>,
                        sourceType: Option<string>, exportFormat: Option<string>): (r: seq<Param>)
    ensures 2 <= |r| <= 5
    ensures r[0] == Param("page", IntToString(page.GetOr(1)))
    ensures r[1] == Param("page_size", IntToString(pageSize.GetOr(10)))
  {
    [Param("page", IntToString(page.GetOr(1))), Param("page_size", IntToString(pageSize.GetOr(10)))]
    + OptParam(Given(search), "search", search.GetOr(""))
    + OptParam(Narrows(sourceType), "source_type", sourceType.GetOr(""))
    + OptParam(Narrows(exportFormat), "export_format", exportFormat.GetOr(""))
  }

  /** The page and page size always come first; each other argument is there,
      with its value, exactly when it narrows the list; the names keep a fixed order. */
  lemma ReportsQueryFacts(page: Option<int>, pageSize: Option<int>, search: Option<string>,
                          sourceType: Option<string>, exportFormat: Option<string>, params: seq<Param>)
    requires params == ReportsQuery(page, pageSize, search, sourceType, exportFormat)
    ensures |params| == 2 + Count(Given(search)) + Count(Narrows(sourceType)) + Count(Narrows(exportFormat))
    ensures params[0] == Param("page", IntToString(page.GetOr(1)))
    ensures params[1] == Param("page_size", IntToString(pageSize.GetOr(10)))
    ensures forall v :: Param("search", v) in params <==> Given(search) && v == search.value
    ensures forall v :: Param("source_type", v) in params <==> Narrows(sourceType) && v == sourceType.value
    ensures forall v :: Param("export_format", v) in params <==> Narrows(exportFormat) && v == exportFormat.value
    ensures forall i, j :: 0 <= i < j < |params| ==> Rank(params[i].key) < Rank(params[j].key)
  {
    var base := [Param("page", IntToString(page.GetOr(1))), Param("page_size", IntToString(pageSize.GetOr(10)))];
    var a := OptParam(Given(search), "search", search.GetOr(""));
    var b := OptParam(Narrows(sourceType), "source_type", sourceType.GetOr(""));
    var c := OptParam(Narrows(exportFormat), "export_format", exportFormat.GetOr(""));
    QueryOrder(base, a, b, c);
    QueryMember(base, a, b, c, 0, "search", Given(search), search.GetOr(""));
    QueryMember(base, a, b, c, 1, "source_type", Narrows(sourceType), sourceType.GetOr(""));
    QueryMember(base, a, b, c, 2, "export_format", Narrows(exportFormat), exportFormat.GetOr(""));
  }

  /** The names of the optional parameters, in the order they are appended. */
  const OptionalNames: seq<string> := ["search", "source_type", "export_format"]

  /** The page and page size, then the three optional parameters: the names keep their order. */
  lemma QueryOrder(base: seq<Param>, a: seq<Param>, b: seq<Param>, c: seq<Param>)
    requires |base| == 2 && base[0].key == "page" && base[1].key == "page_size"
    requires |a| <= 1 && forall k :: 0 <= k < |a| ==> a[k].key == "search"
    requires |b| <= 1 && forall k :: 0 <= k < |b| ==> b[k].key == "source_type"
    requires |c| <= 1 && forall k :: 0 <= k < |c| ==> c[k].key == "export_format"
    ensures forall i, j :: 0 <= i < j < |base + a + b + c| ==>
      Rank((base + a + b + c)[i].key) < Rank((base + a + b + c)[j].key)
  {
    assert Rank(base[0].key) == 0 && Rank(base[1].key) == 1;
    RankedAppend(base, a, 2);
    RankedAppend(base + a, b, 3);
    RankedAppend(base + a + b, c, 4);
  }

  /** An optional parameter is in the query, with a given value, exactly when
      its own append put it there. */
  lemma QueryMember(base: seq<Param>, a: seq<Param>, b: seq<Param>, c: seq<Param>, n: nat,
                    key: string, cond: bool, value: string)
    requires n < 3 && key == OptionalNames[n]
    requires |base| == 2 && base[0].key == "page" && base[1].key == "page_size"
    requires forall p :: p in a ==> p.key == "search"
    requires forall p :: p in b ==> p.key == "source_type"
    requires forall p :: p in c ==> p.key == "export_format"
    requires [a, b, c][n] == OptParam(cond, key, value)
    ensures forall v :: Param(key, v) in base + a + b + c <==> cond && v == value
  {
    forall v ensures Param(key, v) in base + a + b + c <==> Param(key, v) in [a, b, c][n] {
      assert Param(key, v) !in base;
    }
  }

  /** Appending parameters of a name ranked after every name so far keeps the names in order. */
  lemma RankedAppend(p: seq<Param>, q: seq<Param>, r: int)
    requires forall i, j :: 0 <= i < j < |p| ==> Rank(p[i].key) < Rank(p[j].key)
    requires forall i :: 0 <= i < |p| ==> Rank(p[i].key) < r
    requires |q| <= 1 && forall k :: 0 <= k < |q| ==> Rank(q[k].key) == r
    ensures forall i, j :: 0 <= i < j < |p + q| ==> Rank((p + q)[i].key) < Rank((p + q)[j].key)
    ensures forall i :: 0 <= i < |p + q| ==> Rank((p + q)[i].key) < r + 1
  {
  }

  /** The query of `fetchReports(page = 1, pageSize = 10, search, sourceType,
      exportFormat)`, built one `append` at a time. */
  method FetchReportsParams(page: Option<int>, pageSize: Option<int>, search: Option<string>,
                            sourceType: Option<string>, exportFormat: Option<string>)
    returns (params: seq<Param>)
    ensures |params| == 2 + Count(Given(search)) + Count(Narrows(sourceType)) + Count(Narrows(exportFormat))
    ensures params[0] == Param("page", IntToString(page.GetOr(1)))
    ensures params[1] == Param("page_size", IntToString(pageSize.GetOr(10)))
    ensures forall v :: Param("search", v) in params <==> Given(search) && v == search.value
    ensures forall v :: Param("source_type", v) in params <==> Narrows(sourceType) && v == sourceType.value
    ensures forall v :: Param("export_format", v) in params <==> Narrows(exportFormat) && v == exportFormat.value
    ensures forall i, j :: 0 <= i < j < |params| ==> Rank(params[i].key) < Rank(params[j].key)
  {
    params := [Param("page", IntToString(page.GetOr(1))), Param("page_size", IntToString(pageSize.GetOr(10)))];
    params := AppendIf(params, Given(search), "search", search.GetOr(""));
    params := AppendIf(params, Narrows(sourceType), "source_type", sourceType.GetOr(""));
    params := AppendIf(params, Narrows(exportFormat), "export_format", exportFormat.GetOr(""));
    ReportsQueryFacts(page, pageSize, search, sourceType, exportFormat, params);
  }

  /** `if (value) params.append(key, value)` */
  method AppendIf(params: seq<Param>, cond: bool, key: string, value: string) returns (r: seq<Param>)
    ensures r == params + OptParam(cond, key, value)
  {
    r := params;
    if cond {
      r := r + [Param(key, value)];
    }
  }

  /** The calls of the report service that check the response. */
  datatype ReportCall = ListReports | ReportDetail | CreateReport | UpdateReport | DeleteReport

  /** The fixed message each call throws on a failed response. */
  function FailureMessage(call: ReportCall): string {
    match call
    case ListReports => "Failed to fetch reports"
    case ReportDetail => "Failed to fetch report detail"
    case CreateReport => "Failed to create report"
    case UpdateReport => "Failed to update report"
    case DeleteReport => "Failed to delete report"
  }

  /** `if (!response.ok) throw new Error(...)`, then the parsed body. */
  function CheckResponse<T>(call: ReportCall, response: Response<T>): (r: Result<T>)
    ensures r.Ok? <==> response.ok
    ensures r.Ok? ==> r.value == response.body
    ensures r.Err? ==> r.message == FailureMessage(call)
  {
    if !response.ok then Err(FailureMessage(call)) else Ok(response.body)
  }

  /** The error says which call failed, and nothing about the response: two
      failed responses of the same call give the same error, and failures of
      different calls give different errors. */
  lemma FailureIdentifiesCall<T>(c1: ReportCall, c2: ReportCall, r1: Response<T>, r2: Response<T>)
    requires !r1.ok && !r2.ok
    ensures CheckResponse(c1, r1) == CheckResponse(c2, r2) <==> c1 == c2
  {
    if c1 != c2 {
      assert FailureMessage(c1) != FailureMessage(c2) by {
        assert |FailureMessage(c1)| != |FailureMessage(c2)| || FailureMessage(c1)[10] != FailureMessage(c2)[10]
            || FailureMessage(c1)[16] != FailureMessage(c2)[16];
      }
    }
  }
}
