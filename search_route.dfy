/**
 * The `/search` route of app.py: it reads `search_type` and `max_results` from the
 * decoded request, dispatches to one RCSB search (or, for an identifier search, to
 * no search at all), fetches the details of the identifiers found and answers with
 * the records and their count. The RCSB search service is a parameter: the reply it
 * gives to each query (`None` when the request raised).
 */
module SearchRoute {
  import opened Wrappers
  import opened PyJson
  import opened Text
  import opened PyInt
  import opened Rcsb

  /** The RCSB searches the route can run, with the arguments it passes them. */
  datatype Query =
    | Keyword(keyword: Json)
    | ByName(proteinName: Json)
    | ByOrganism(organism: Json)
    | ByResolution(resolution: Json)
    | Advanced(proteinName: Json, organismFilter: Option<Json>, resolutionFilter: Option<Json>)

  /** Where the identifiers come from. */
  datatype Plan =
    | Run(query: Query)          // a search whose result identifiers are then detailed
    | Direct(ids: seq<Json>)     // identifiers known without searching
    | NoSearch                   // an unknown search type: no identifiers at all

  /** The route's answer: the records and their count, or an error (its text is not modelled). */
  datatype SearchResponse = SearchOk(count: nat, results: seq<Protein>) | SearchFailed

  /**
   * The dispatch on `search_type` (`None` when it raises: an identifier that is not a
   * string cannot be upper-cased). Missing fields take the route's defaults; the
   * advanced search drops an empty organism or resolution.
   */
  function Dispatch(data: Json): (r: Option<Plan>)
    requires data.JObj?
    ensures GetOr(data, "search_type", JNull) == JStr("id") ==>
              var p := GetOr(data, "pdb_id", JStr(""));
              (r.Some? <==> p.JStr?) && (r.Some? ==> r.value == Direct([JStr(Upper(p.s))]))
    ensures r.Some? && r.value.NoSearch? <==>
              GetOr(data, "search_type", JNull) !in
                {JStr("keyword"), JStr("name"), JStr("organism"), JStr("id"), JStr("resolution"), JStr("advanced")}
    ensures r.Some? && r.value.Run? && r.value.query.Advanced? ==>
              (r.value.query.organismFilter.Some? ==> Truthy(r.value.query.organismFilter.value)) &&
              (r.value.query.resolutionFilter.Some? ==> Truthy(r.value.query.resolutionFilter.value))
  {
    var kind := GetOr(data, "search_type", JNull);
    if kind == JStr("keyword") then Some(Run(Keyword(GetOr(data, "keyword", JStr("")))))
    else if kind == JStr("name") then Some(Run(ByName(GetOr(data, "protein_name", JStr("")))))
    else if kind == JStr("organism") then Some(Run(ByOrganism(GetOr(data, "organism", JStr("")))))
    else if kind == JStr("id") then
      var p := GetOr(data, "pdb_id", JStr(""));
      if p.JStr? then Some(Direct([JStr(Upper(p.s))])) else None
    else if kind == JStr("resolution") then Some(Run(ByResolution(GetOr(data, "resolution", JNum(2.0)))))
    else if kind == JStr("advanced") then
      var organism := GetOr(data, "organism", JStr(""));
      var resolution := GetOr(data, "resolution", JStr(""));
      Some(Run(Advanced(GetOr(data, "protein_name", JStr("")),
                        if Truthy(organism) then Some(organism) else None,
                        if Truthy(resolution) then Some(resolution) else None)))
    else Some(NoSearch)
  }

  /** The identifiers a plan yields under a search service and a `max_results`. */
  function PlanIds(plan: Plan, rcsb: Query -> Option<Json>, maxResults: int): seq<Json> {
    match plan
    case Run(q) => QueryResults(rcsb(q), maxResults)
    case Direct(ids) => ids
    case NoSearch => []
  }

  /** The whole route for a decoded request body. */
  function Search(data: Json, rcsb: Query -> Option<Json>, fetch: string -> Json): (r: SearchResponse)
    ensures !data.JObj? ==> r == SearchFailed
    ensures data.JObj? && IntOf(GetOr(data, "max_results", JNum(10.0))).None? ==> r == SearchFailed
    ensures r.SearchOk? ==> r.count == |r.results|
  {
    if !data.JObj? then SearchFailed
    else
      var maxResults := IntOf(GetOr(data, "max_results", JNum(10.0)));
      if maxResults.None? then SearchFailed
      else
        var plan := Dispatch(data);
        if plan.None? then SearchFailed
        else
          var proteins := Details(PlanIds(plan.value, rcsb, maxResults.value), fetch);
          SearchOk(|proteins|, proteins)
  }

  /**
   * An identifier search queries nothing: whatever the search service would answer,
   * the result is at most the one record of the upper-cased identifier.
   */
  lemma IdSearchIsDirect(data: Json, rcsb1: Query -> Option<Json>, rcsb2: Query -> Option<Json>,
                         fetch: string -> Json)
    requires data.JObj? && GetOr(data, "search_type", JNull) == JStr("id")
    ensures Search(data, rcsb1, fetch) == Search(data, rcsb2, fetch)
    ensures Search(data, rcsb1, fetch).SearchOk? ==>
              var id := Upper(GetOr(data, "pdb_id", JStr("")).s);
              Search(data, rcsb1, fetch).results in {[], [Normalise(id, fetch(id))]}
  {
    var p := GetOr(data, "pdb_id", JStr(""));
    if p.JStr? {
      var id := Upper(p.s);
      UpperIdempotent(p.s);
      assert [JStr(id)][..0] == [];
      assert Details([JStr(id)], fetch) == Details([], fetch) + DetailFor(JStr(id), fetch);
      var d := DetailFor(JStr(id), fetch);
      assert d == [] || d == [Normalise(id, fetch(id))];
      if Search(data, rcsb1, fetch).SearchOk? {
        assert Search(data, rcsb1, fetch).results == d;
      }
    }
  }

  /** An unknown search type answers with no record at all. */
  lemma UnknownTypeFindsNothing(data: Json, rcsb: Query -> Option<Json>, fetch: string -> Json)
    requires data.JObj? && IntOf(GetOr(data, "max_results", JNum(10.0))).Some?
    requires GetOr(data, "search_type", JNull) !in
               {JStr("keyword"), JStr("name"), JStr("organism"), JStr("id"), JStr("resolution"), JStr("advanced")}
    ensures Search(data, rcsb, fetch) == SearchOk(0, [])
  {
  }

  /** A search never answers with more records than `max_results` asks for. */
  lemma SearchRespectsMax(data: Json, rcsb: Query -> Option<Json>, fetch: string -> Json)
    requires data.JObj? && Dispatch(data).Some? && Dispatch(data).value.Run?
    requires IntOf(GetOr(data, "max_results", JNum(10.0))).Some?
    ensures var m := IntOf(GetOr(data, "max_results", JNum(10.0))).value;
            Search(data, rcsb, fetch).SearchOk? &&
            (m >= 0 ==> Search(data, rcsb, fetch).count <= m)
  {
    var m := IntOf(GetOr(data, "max_results", JNum(10.0))).value;
    var ids := PlanIds(Dispatch(data).value, rcsb, m);
    DetailsSound(ids, fetch);
    var reply := rcsb(Dispatch(data).value.query);
    if reply.Some? && HasKey(reply.value, "result_set") && Field(reply.value, "result_set").JArr? {
      ResultsFromWindow(reply.value, m);
    }
  }
}
