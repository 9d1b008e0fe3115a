/**
 * The page controller of static/app.js and static/app_clean.js: the handlers that
 * read the forms, post to the backend and render its reply. The two files share
 * the selection store, `search`, `displayResults`, `exportResults` and
 * `createAlignmentSession`; only static/app.js has the script export and the
 * PyMOL launch, and its result rows carry more actions.
 *
 * Each handler runs from its start to the end of its `await`: the backend's reply
 * (or the transport error `fetch` or `response.json()` raised) is a parameter.
 * What the handler writes into the page is a view-model value, not HTML.
 */
module Controller {
  import opened Wrappers
  import opened PyJson
  import opened Text
  import opened PyInt
  import Selection
  import ClientScript
  import Rcsb
  import SearchRoute
  import AlignRoute
  import JsNumber

  /** Which of the two scripts drives the page. */
  datatype Variant = Full | Clean

  // ---------------------------------------------------------------------------
  // Replies

  /** What an awaited request yields: a transport error (its message) or the decoded body. */
  datatype Reply<T> = Transport(reason: string) | Received(body: T)

  /**
   * The body of an alignment reply, as far as the page reads it. `colors`,
   * `alignment_results` and `error_details` are kept as decoded, since the page
   * tests them for JavaScript truthiness and length; a missing one is `JNull`.
   */
  datatype AlignmentReply = AlignmentReply(
    success: bool, error: string, pdbCount: Json, reference: string, filename: string,
    downloadUrl: string, colors: Json, alignmentResults: Json, launched: bool,
    notice: string, errorDetails: Json)

  /** The body of a `/search` reply. */
  datatype SearchReply = SearchReply(success: bool, results: seq<Rcsb.Protein>, count: Json, error: string)

  /** The body of an `/export` reply. */
  datatype ExportReply = ExportReply(success: bool, downloadUrl: string, error: string)

  /** JavaScript truthiness: unlike Python, an empty array or object is true. */
  predicate JsTruthy(j: Json) {
    match j
    case JNull => false
    case JBool(b) => b
    case JNum(n) => n != 0.0
    case JStr(s) => s != []
    case JArr(_) => true
    case JObj(_) => true
  }

  // ---------------------------------------------------------------------------
  // What the page shows

  /** The three error frames: the server's error, a connection error, a failed export. */
  datatype FailureKind = Rejected | Connection | ExportRejected

  /** The content of the `#message` element after a handler has finished. */
  datatype Message =
    | Blank
    | SessionCreated(pdbCount: Json, selectedIds: string, reference: string,
                     rmsd: Option<seq<Json>>, legend: Option<Json>, filename: string, downloadUrl: string)
    | ScriptReady(pdbCount: Json, selectedIds: string, reference: string, filename: string,
                  commands: string, downloadUrl: string)
    | Launched(pdbCount: Json, selectedIds: string, reference: string, legend: Option<Json>)
    | LaunchFallback(notice: string, pdbCount: Json, selectedIds: string, filename: string,
                     hint: Json, downloadUrl: string)
    | Found(count: Json)
    | ExportStarted
    | Failure(kind: FailureKind, detail: string)

  /** The two `alert` boxes a guard can raise. */
  datatype Alert = NeedTwoProteins | NothingToExport

  /** The requests the page sends, with their bodies. */
  datatype Request =
    | CreateSession(pdbIds: seq<string>)
    | AlignScript(pdbIds: seq<string>)
    | AlignAndLaunch(pdbIds: seq<string>)
    | SearchRequest(body: Json)
    | ExportRequest(results: seq<Rcsb.Protein>)

  /** The links and buttons in a result row. */
  datatype Action = OpenInPyMOL(id: string) | DownloadPdb(id: string) | ScriptLink(id: string)

  /** A row of the results table. */
  datatype Row = NoResultsRow | ProteinRow(record: Rcsb.Protein, actions: seq<Action>)

  /** The default hint of the launch fallback, shown when `error_details` is falsy. */
  const DefaultHint := "PyMOL doit être installé et accessible depuis la ligne de commande."

  /** The text a `forEach` call on a value without that method raises. */
  const NotAFunction := "data.alignment_results.forEach is not a function"

  /** The text reading `result.structure` of a `null` entry raises (V8's wording). */
  const NullEntry := "Cannot read properties of null (reading 'structure')"

  // ---------------------------------------------------------------------------
  // The results table (`displayResults`)

  /** The actions of a row: static/app_clean.js keeps only the PDB download. */
  function Actions(id: string, variant: Variant): (r: seq<Action>)
    ensures DownloadPdb(id) in r
    ensures variant == Clean ==> r == [DownloadPdb(id)]
  {
    match variant
    case Full => [OpenInPyMOL(id), DownloadPdb(id), ScriptLink(id)]
    case Clean => [DownloadPdb(id)]
  }

  /** The rows the `forEach` of `displayResults` appends, one per record in order. */
  function RecordRows(results: seq<Rcsb.Protein>, variant: Variant): (rows: seq<Row>)
    ensures |rows| == |results|
    ensures forall i | 0 <= i < |results| ::
              rows[i] == ProteinRow(results[i], Actions(results[i].pdbId, variant))
  {
    if results == [] then []
    else
      var n := |results| - 1;
      RecordRows(results[..n], variant) + [ProteinRow(results[n], Actions(results[n].pdbId, variant))]
  }

  /** The table body after `displayResults(results)`. */
  function Table(results: seq<Rcsb.Protein>, variant: Variant): seq<Row> {
    if results == [] then [NoResultsRow] else RecordRows(results, variant)
  }

  /** The values of the row checkboxes, in row order. */
  function CheckboxIds(rows: seq<Row>): (ids: seq<string>)
    ensures |ids| <= |rows|
  {
    if rows == [] then []
    else
      var n := |rows| - 1;
      CheckboxIds(rows[..n]) + (if rows[n].ProteinRow? then [rows[n].record.pdbId] else [])
  }

  /** The identifiers of a list of records, in order. */
  function RecordIds(results: seq<Rcsb.Protein>): (ids: seq<string>)
    ensures |ids| == |results| && forall i | 0 <= i < |results| :: ids[i] == results[i].pdbId
  {
    seq(|results|, i requires 0 <= i < |results| => results[i].pdbId)
  }

  /**
   * An empty list shows exactly the "no results" row; otherwise there is one row per
   * record, in order, and no "no results" row.
   */
  lemma TableShape(results: seq<Rcsb.Protein>, variant: Variant)
    ensures results == [] <==> Table(results, variant) == [NoResultsRow]
    ensures results != [] ==> |Table(results, variant)| == |results|
    ensures results != [] ==>
              forall i | 0 <= i < |results| ::
                Table(results, variant)[i].ProteinRow? && Table(results, variant)[i].record == results[i]
  {
    if results != [] {
      assert Table(results, variant)[0].ProteinRow?;
    }
  }

  /** The checkboxes of a table are the identifiers of its records, in order. */
  lemma {:induction false} CheckboxesOfTable(results: seq<Rcsb.Protein>, variant: Variant)
    ensures CheckboxIds(Table(results, variant)) == RecordIds(results)
  {
    if results != [] {
      RowsCheckboxes(results, variant);
    } else {
      assert CheckboxIds([NoResultsRow]) == CheckboxIds([]) + [];
    }
  }

  lemma {:induction false} RowsCheckboxes(results: seq<Rcsb.Protein>, variant: Variant)
    ensures CheckboxIds(RecordRows(results, variant)) == RecordIds(results)
  {
    if results != [] {
      var n := |results| - 1;
      var rows := RecordRows(results, variant);
      RowsCheckboxes(results[..n], variant);
      assert rows[..n] == RecordRows(results[..n], variant);
      assert RecordIds(results) == RecordIds(results[..n]) + [results[n].pdbId];
    }
  }

  /** Both scripts show the same records in the same order; only the actions differ. */
  lemma VariantsShowSameRecords(results: seq<Rcsb.Protein>)
    ensures CheckboxIds(Table(results, Full)) == CheckboxIds(Table(results, Clean))
    ensures |Table(results, Full)| == |Table(results, Clean)|
    ensures forall i | 0 <= i < |Table(results, Full)| ::
              Table(results, Full)[i].ProteinRow? == Table(results, Clean)[i].ProteinRow? &&
              (Table(results, Full)[i].ProteinRow? ==>
                 Table(results, Full)[i].record == Table(results, Clean)[i].record)
  {
    CheckboxesOfTable(results, Full);
    CheckboxesOfTable(results, Clean);
  }

  // ---------------------------------------------------------------------------
  // The search request body (`search`)

  /** The values of the search forms' inputs. */
  datatype SearchForm = SearchForm(
    keyword: string, keywordMax: string,
    name: string, nameMax: string,
    organism: string, organismMax: string,
    pdbId: string,
    resolution: string, resolutionMax: string,
    advancedName: string, advancedOrganism: string, advancedResolution: string, advancedMax: string)

  /**
   * `searchData` as `JSON.stringify` sends it: `search_type` and `max_results` first,
   * then the fields of the chosen mode; the mode's own limit replaces the default 10
   * in place (an identifier search keeps 10, an unknown mode sends only the two keys).
   */
  function SearchPayload(kind: string, f: SearchForm): (p: Json)
    ensures p.JObj? && |p.entries| >= 2
    ensures p.entries[0] == ("search_type", JStr(kind)) && p.entries[1].0 == "max_results"
  {
    var head := ("search_type", JStr(kind));
    if kind == "keyword" then
      JObj([head, ("max_results", JStr(f.keywordMax)), ("keyword", JStr(f.keyword))])
    else if kind == "name" then
      JObj([head, ("max_results", JStr(f.nameMax)), ("protein_name", JStr(f.name))])
    else if kind == "organism" then
      JObj([head, ("max_results", JStr(f.organismMax)), ("organism", JStr(f.organism))])
    else if kind == "id" then
      JObj([head, ("max_results", JNum(10.0)), ("pdb_id", JStr(f.pdbId))])
    else if kind == "resolution" then
      JObj([head, ("max_results", JStr(f.resolutionMax)), ("resolution", JStr(f.resolution))])
    else if kind == "advanced" then
      JObj([head, ("max_results", JStr(f.advancedMax)), ("protein_name", JStr(f.advancedName)),
            ("organism", JStr(f.advancedOrganism)), ("resolution", JStr(f.advancedResolution))])
    else
      JObj([head, ("max_results", JNum(10.0))])
  }

  /** The `max_results` the backend reads from a payload. */
  function PayloadLimit(kind: string, f: SearchForm): Option<int> {
    IntOf(GetOr(SearchPayload(kind, f), "max_results", JNum(10.0)))
  }

  /** A keyword search reaches the backend's keyword query with the typed text and limit. */
  lemma KeywordPayloadRead(f: SearchForm)
    ensures SearchRoute.Dispatch(SearchPayload("keyword", f)) ==
              Some(SearchRoute.Run(SearchRoute.Keyword(JStr(f.keyword))))
    ensures PayloadLimit("keyword", f) == ParseInt(f.keywordMax)
  {
    var p := SearchPayload("keyword", f);
    LookupAt(p.entries, 0, "search_type");
    LookupAt(p.entries, 2, "keyword");
    LookupAt(p.entries, 1, "max_results");
  }

  /** A name search reaches the backend's name query. */
  lemma NamePayloadRead(f: SearchForm)
    ensures SearchRoute.Dispatch(SearchPayload("name", f)) ==
              Some(SearchRoute.Run(SearchRoute.ByName(JStr(f.name))))
    ensures PayloadLimit("name", f) == ParseInt(f.nameMax)
  {
    var p := SearchPayload("name", f);
    LookupAt(p.entries, 0, "search_type");
    LookupAt(p.entries, 2, "protein_name");
    LookupAt(p.entries, 1, "max_results");
  }

  /** An organism search reaches the backend's organism query. */
  lemma OrganismPayloadRead(f: SearchForm)
    ensures SearchRoute.Dispatch(SearchPayload("organism", f)) ==
              Some(SearchRoute.Run(SearchRoute.ByOrganism(JStr(f.organism))))
    ensures PayloadLimit("organism", f) == ParseInt(f.organismMax)
  {
    var p := SearchPayload("organism", f);
    LookupAt(p.entries, 0, "search_type");
    LookupAt(p.entries, 2, "organism");
    LookupAt(p.entries, 1, "max_results");
  }

  /**
   * An identifier search sends no limit of its own: the backend reads 10 and looks up
   * the upper-cased identifier without querying.
   */
  lemma IdPayloadRead(f: SearchForm)
    ensures SearchRoute.Dispatch(SearchPayload("id", f)) == Some(SearchRoute.Direct([JStr(Upper(f.pdbId))]))
    ensures PayloadLimit("id", f) == Some(10)
  {
    var p := SearchPayload("id", f);
    LookupAt(p.entries, 0, "search_type");
    LookupAt(p.entries, 2, "pdb_id");
    LookupAt(p.entries, 1, "max_results");
  }

  /** A resolution search passes the typed text on unconverted. */
  lemma ResolutionPayloadRead(f: SearchForm)
    ensures SearchRoute.Dispatch(SearchPayload("resolution", f)) ==
              Some(SearchRoute.Run(SearchRoute.ByResolution(JStr(f.resolution))))
    ensures PayloadLimit("resolution", f) == ParseInt(f.resolutionMax)
  {
    var p := SearchPayload("resolution", f);
    LookupAt(p.entries, 0, "search_type");
    LookupAt(p.entries, 2, "resolution");
    LookupAt(p.entries, 1, "max_results");
  }

  /** An advanced search drops exactly the filters left empty in the form. */
  lemma AdvancedPayloadRead(f: SearchForm)
    ensures var organism := if f.advancedOrganism == "" then None else Some(JStr(f.advancedOrganism));
            var resolution := if f.advancedResolution == "" then None else Some(JStr(f.advancedResolution));
            SearchRoute.Dispatch(SearchPayload("advanced", f)) ==
              Some(SearchRoute.Run(SearchRoute.Advanced(JStr(f.advancedName), organism, resolution)))
    ensures PayloadLimit("advanced", f) == ParseInt(f.advancedMax)
  {
    AdvancedPayloadFields(f);
  }

  /** The five values an advanced search sends, as the backend reads them back. */
  lemma AdvancedPayloadFields(f: SearchForm)
    ensures var p := SearchPayload("advanced", f);
            && GetOr(p, "search_type", JNull) == JStr("advanced")
            && GetOr(p, "max_results", JNum(10.0)) == JStr(f.advancedMax)
            && GetOr(p, "protein_name", JStr("")) == JStr(f.advancedName)
            && GetOr(p, "organism", JStr("")) == JStr(f.advancedOrganism)
            && GetOr(p, "resolution", JStr("")) == JStr(f.advancedResolution)
  {
    var p := SearchPayload("advanced", f);
    assert p.entries == [("search_type", JStr("advanced")), ("max_results", JStr(f.advancedMax)),
                         ("protein_name", JStr(f.advancedName)), ("organism", JStr(f.advancedOrganism)),
                         ("resolution", JStr(f.advancedResolution))];
    assert GetOr(p, "search_type", JNull) == JStr("advanced") by { LookupAt(p.entries, 0, "search_type"); }
    assert GetOr(p, "max_results", JNum(10.0)) == JStr(f.advancedMax) by { LookupAt(p.entries, 1, "max_results"); }
    assert GetOr(p, "protein_name", JStr("")) == JStr(f.advancedName) by { LookupAt(p.entries, 2, "protein_name"); }
    assert GetOr(p, "organism", JStr("")) == JStr(f.advancedOrganism) by { LookupAt(p.entries, 3, "organism"); }
    assert GetOr(p, "resolution", JStr("")) == JStr(f.advancedResolution) by { LookupAt(p.entries, 4, "resolution"); }
  }

  /** Any other mode reaches no query at all, with the default limit. */
  lemma UnknownPayloadRead(kind: string, f: SearchForm)
    requires kind !in {"keyword", "name", "organism", "id", "resolution", "advanced"}
    ensures SearchRoute.Dispatch(SearchPayload(kind, f)) == Some(SearchRoute.NoSearch)
    ensures PayloadLimit(kind, f) == Some(10)
  {
    var p := SearchPayload(kind, f);
    assert p == JObj([("search_type", JStr(kind)), ("max_results", JNum(10.0))]);
    LookupAt(p.entries, 0, "search_type");
    LookupAt(p.entries, 1, "max_results");
  }

  // ---------------------------------------------------------------------------
  // The alignment request body

  /** `JSON.stringify({ pdb_ids: Array.from(selectedProteins) })`. */
  function SelectionBody(ids: seq<string>): (body: Json)
    ensures body.JObj? && GetOr(body, "pdb_ids", JArr([])).JArr?
    ensures |GetOr(body, "pdb_ids", JArr([])).items| == |ids|
  {
    JObj([("pdb_ids", JArr(seq(|ids|, i requires 0 <= i < |ids| => JStr(ids[i]))))])
  }

  /**
   * A selection of upper-case identifiers, as the search results provide them, reaches
   * the script route unchanged: the backend keeps the page's order and takes the
   * first-selected structure as the reference. (`AlignRoute.AlignMatchesClientOnSelections`
   * then says the `align` commands the page builds are those of the backend's script.)
   */
  lemma SelectionReachesScriptRoute(ids: seq<string>, generatedAt: string, stamp: string)
    requires |ids| >= 2 && Selection.Distinct(ids)
    requires forall i | 0 <= i < |ids| :: Upper(ids[i]) == ids[i]
    ensures var r := AlignRoute.AlignPymol(SelectionBody(ids), generatedAt, stamp);
            r.AlignOk? && r.pdbIds == ids && r.reference == ids[0]
  {
    var body := SelectionBody(ids);
    assert GetOr(body, "pdb_ids", JArr([])) == JArr(seq(|ids|, i requires 0 <= i < |ids| => JStr(ids[i]))) by {
      LookupAt(body.entries, 0, "pdb_ids");
    }
    AlignRoute.SelectionReply(body, ids, generatedAt, stamp);
  }

  // ---------------------------------------------------------------------------
  // Rendering the replies

  /** The outcome of the RMSD block for the value of `alignment_results`. */
  datatype RmsdBlock = NoRmsd | RmsdList(rows: seq<Json>) | RmsdThrows(reason: string)

  /**
   * `results.length > 0` for a truthy value: a string's or an array's length, an
   * object's own `length` entry (compared as JavaScript converts it), and nothing
   * for a number or a boolean, which have no `length`.
   */
  predicate LengthPositive(results: Json) {
    match results
    case JStr(s) => s != []
    case JArr(items) => items != []
    case JObj(entries) =>
      Lookup(entries, "length").Some? && JsNumber.GreaterThanZero(Lookup(entries, "length").value)
    case _ => false
  }

  /**
   * `data.alignment_results && data.alignment_results.length > 0` guards a `forEach`
   * whose callback reads `result.structure`: a non-empty array is listed unless an
   * entry is `null`, whose read raises; a string or object that passes the guard has
   * no `forEach` and the call raises; every other value shows nothing.
   */
  function Rmsd(results: Json): (b: RmsdBlock)
    ensures b.NoRmsd? <==> !JsTruthy(results) || !LengthPositive(results)
    ensures b.RmsdList? <==> results.JArr? && results.items != [] && JNull !in results.items
    ensures b.RmsdList? ==> b.rows == results.items
    ensures b.RmsdThrows? <==>
              || (results.JStr? && results.s != [])
              || (results.JArr? && JNull in results.items)
              || (results.JObj? && LengthPositive(results))
    ensures b.RmsdThrows? ==> b.reason == if results.JArr? then NullEntry else NotAFunction
  {
    if !(JsTruthy(results) && LengthPositive(results)) then NoRmsd
    else if !results.JArr? then RmsdThrows(NotAFunction)
    else if JNull in results.items then RmsdThrows(NullEntry)
    else RmsdList(results.items)
  }

  /** An object passes the guard when its `length` entry converts to a positive number. */
  lemma ObjectLengthThrows(v: Json)
    requires v in {JNum(1.0), JStr("1"), JBool(true), JArr([JNum(1.0)])}
    ensures Rmsd(JObj([("length", v)])) == RmsdThrows(NotAFunction)
  {
    JsNumber.PositiveForms();
    assert Lookup([("length", v)], "length") == Some(v);
  }

  /** A non-numeric `length`, a missing one, and a `null` entry in a list. */
  lemma OtherResultsShapes()
    ensures Rmsd(JObj([("length", JStr("abc"))])) == NoRmsd
    ensures Rmsd(JObj([("size", JNum(1.0))])) == NoRmsd
    ensures Rmsd(JArr([JNum(1.0), JNull])) == RmsdThrows(NullEntry)
  {
    JsNumber.NotPositiveForms();
    assert Lookup([("length", JStr("abc"))], "length") == Some(JStr("abc"));
    assert Lookup([("size", JNum(1.0))], "length") == None;
    assert JNull in [JNum(1.0), JNull];
  }

  /** The colour legend: present iff `colors` is truthy. */
  function Legend(colors: Json): (l: Option<Json>)
    ensures l.Some? <==> JsTruthy(colors)
    ensures l.Some? ==> l.value == colors
  {
    if JsTruthy(colors) then Some(colors) else None
  }

  /** `createAlignmentSession` after its request, for the selection it sent. */
  function SessionOutcome(ids: seq<string>, reply: Reply<AlignmentReply>): (m: Message)
    ensures reply.Transport? ==> m == Failure(Connection, reply.reason)
    ensures reply.Received? && !reply.body.success ==> m == Failure(Rejected, reply.body.error)
    ensures reply.Received? && reply.body.success ==>
              (m.SessionCreated? <==> !Rmsd(reply.body.alignmentResults).RmsdThrows?)
    ensures reply.Received? && reply.body.success && Rmsd(reply.body.alignmentResults).RmsdThrows? ==>
              m == Failure(Connection, Rmsd(reply.body.alignmentResults).reason)
    ensures m.SessionCreated? ==>
              reply.Received? && m.selectedIds == Join(", ", ids) &&
              m.reference == reply.body.reference && m.downloadUrl == reply.body.downloadUrl &&
              (m.legend.Some? <==> JsTruthy(reply.body.colors)) &&
              (m.rmsd.Some? <==> reply.body.alignmentResults.JArr? && reply.body.alignmentResults.items != []) &&
              (m.rmsd.Some? ==> m.rmsd.value == reply.body.alignmentResults.items)
  {
    match reply
    case Transport(reason) => Failure(Connection, reason)
    case Received(d) =>
      if !d.success then Failure(Rejected, d.error)
      else
        match Rmsd(d.alignmentResults)
        case RmsdThrows(reason) => Failure(Connection, reason)
        case NoRmsd =>
          SessionCreated(d.pdbCount, Join(", ", ids), d.reference, None, Legend(d.colors), d.filename, d.downloadUrl)
        case RmsdList(rows) =>
          SessionCreated(d.pdbCount, Join(", ", ids), d.reference, Some(rows), Legend(d.colors), d.filename, d.downloadUrl)
  }

  /**
   * The legend and the RMSD block are independent: changing `colors` leaves the RMSD
   * block as it was, and changing `alignment_results` (among values that do not raise)
   * leaves the legend as it was.
   */
  lemma SectionsIndependent(ids: seq<string>, d: AlignmentReply, colors: Json, results: Json)
    requires d.success && !Rmsd(d.alignmentResults).RmsdThrows? && !Rmsd(results).RmsdThrows?
    ensures SessionOutcome(ids, Received(d.(colors := colors))).rmsd == SessionOutcome(ids, Received(d)).rmsd
    ensures SessionOutcome(ids, Received(d.(alignmentResults := results))).legend ==
              SessionOutcome(ids, Received(d)).legend
  {
  }

  /** The script export of static/app.js after its request. */
  function ScriptOutcome(ids: seq<string>, reply: Reply<AlignmentReply>): (m: Message)
    ensures m.ScriptReady? <==> reply.Received? && reply.body.success
    ensures m.ScriptReady? ==>
              m.commands == ClientScript.PyMOLCommands(ids, reply.body.reference) &&
              m.selectedIds == Join(", ", ids) && m.downloadUrl == reply.body.downloadUrl
    ensures !m.ScriptReady? ==> m.Failure? && m.kind == Rejected
  {
    match reply
    case Transport(reason) => Failure(Rejected, reason)
    case Received(d) =>
      if d.success then
        ScriptReady(d.pdbCount, Join(", ", ids), d.reference, d.filename,
                    ClientScript.PyMOLCommands(ids, d.reference), d.downloadUrl)
      else Failure(Rejected, d.error)
  }

  /** `alignInPyMOL` after its request. */
  function LaunchOutcome(ids: seq<string>, reply: Reply<AlignmentReply>): (m: Message)
    ensures reply.Transport? ==> m == Failure(Connection, reply.reason)
    ensures reply.Received? && !reply.body.success ==> m == Failure(Rejected, reply.body.error)
    ensures m.Launched? <==> reply.Received? && reply.body.success && reply.body.launched
    ensures m.Launched? ==> (m.legend.Some? <==> JsTruthy(reply.body.colors))
    ensures m.LaunchFallback? <==> reply.Received? && reply.body.success && !reply.body.launched
    ensures m.LaunchFallback? ==>
              m.downloadUrl == reply.body.downloadUrl && m.filename == reply.body.filename &&
              m.selectedIds == Join(", ", ids) &&
              m.hint == (if JsTruthy(reply.body.errorDetails) then reply.body.errorDetails else JStr(DefaultHint))
  {
    match reply
    case Transport(reason) => Failure(Connection, reason)
    case Received(d) =>
      if !d.success then Failure(Rejected, d.error)
      else if d.launched then Launched(d.pdbCount, Join(", ", ids), d.reference, Legend(d.colors))
      else
        LaunchFallback(d.notice, d.pdbCount, Join(", ", ids), d.filename,
                       if JsTruthy(d.errorDetails) then d.errorDetails else JStr(DefaultHint), d.downloadUrl)
  }

  /** A successful reply that did not launch PyMOL shows the fallback, never the error frame. */
  lemma NotLaunchedIsNoError(ids: seq<string>, d: AlignmentReply)
    requires d.success && !d.launched
    ensures !LaunchOutcome(ids, Received(d)).Failure?
    ensures !JsTruthy(d.errorDetails) ==> LaunchOutcome(ids, Received(d)).hint == JStr(DefaultHint)
  {
  }

  /** The message `search` leaves. */
  function SearchOutcome(reply: Reply<SearchReply>): (m: Message)
    ensures m.Found? <==> reply.Received? && reply.body.success
    ensures m.Found? ==> m.count == reply.body.count
    ensures reply.Transport? ==> m == Failure(Connection, reply.reason)
    ensures reply.Received? && !reply.body.success ==> m == Failure(Rejected, reply.body.error)
  {
    match reply
    case Transport(reason) => Failure(Connection, reason)
    case Received(d) => if d.success then Found(d.count) else Failure(Rejected, d.error)
  }

  /** The message `exportResults` leaves after its request. */
  function ExportOutcome(reply: Reply<ExportReply>): (m: Message)
    ensures m == ExportStarted <==> reply.Received? && reply.body.success
    ensures reply.Transport? ==> m == Failure(Connection, reply.reason)
    ensures reply.Received? && !reply.body.success ==> m == Failure(ExportRejected, reply.body.error)
  {
    match reply
    case Transport(reason) => Failure(Connection, reason)
    case Received(d) => if d.success then ExportStarted else Failure(ExportRejected, d.error)
  }

  /** The navigation a successful export triggers. */
  function ExportNavigation(reply: Reply<ExportReply>): (r: seq<string>)
    ensures |r| <= 1
    ensures r != [] <==> reply.Received? && reply.body.success
    ensures r != [] ==> r[0] == reply.body.downloadUrl
  {
    if reply.Received? && reply.body.success then [reply.body.downloadUrl] else []
  }

  // ---------------------------------------------------------------------------
  // The page

  class Page {
    const variant: Variant
    /** `selectedProteins`. */
    const selection: Selection.SelectionStore
    /** `currentResults`. */
    var currentResults: seq<Rcsb.Protein>
    /** The rows of `#results-body`. */
    var rows: seq<Row>
    /** Whether `#results` is displayed. */
    var resultsShown: bool
    /** The number written into `#results-count`, once a non-empty list has been shown. */
    var resultsCount: Option<nat>
    /** The content of `#message`. */
    var message: Message
    /** The alerts raised so far, oldest first. */
    var alerts: seq<Alert>
    /** The requests sent so far, oldest first. */
    var sent: seq<Request>
    /** The pages navigated to (`window.location.href`), oldest first. */
    var downloads: seq<string>

    /** The selection is a set, and the table shows `currentResults` (or nothing yet). */
    ghost predicate Valid()
      reads this, selection
    {
      selection.Valid() &&
      (rows == Table(currentResults, variant) || (rows == [] && currentResults == []))
    }

    /** Every selected identifier has a checkbox in the table. */
    ghost predicate SelectionShown()
      reads this, selection
    {
      Selection.Elems(selection.items) <= Selection.Elems(CheckboxIds(rows))
    }

    /** The page as the script leaves it on load. */
    constructor (variant: Variant)
      ensures this.variant == variant && Valid() && SelectionShown()
      ensures fresh(selection) && selection.items == []
      ensures currentResults == [] && rows == [] && !resultsShown && resultsCount == None
      ensures message == Blank && alerts == [] && sent == [] && downloads == []
    {
      this.variant := variant;
      selection := new Selection.SelectionStore();
      currentResults := [];
      rows := [];
      resultsShown := false;
      resultsCount := None;
      message := Blank;
      alerts := [];
      sent := [];
      downloads := [];
    }

    /** `toggleProteinSelection(id)`. */
    method ToggleProtein(id: string)
      requires Valid()
      modifies selection
      ensures Valid()
      ensures selection.items == Selection.Toggled(old(selection.items), id)
      ensures selection.Members() ==
                if id in old(selection.Members()) then old(selection.Members()) - {id}
                else old(selection.Members()) + {id}
      ensures old(SelectionShown()) && (id in CheckboxIds(rows) || id in old(selection.Members())) ==>
                SelectionShown()
    {
      selection.Toggle(id);
    }

    /** `toggleSelectAll`: the select-all box applied to every row checkbox. */
    method ToggleSelectAll(checked: bool)
      requires Valid()
      modifies selection
      ensures Valid()
      ensures selection.items == Selection.MarkAll(old(selection.items), CheckboxIds(rows), checked)
      ensures selection.Members() ==
                if checked then old(selection.Members()) + Selection.Elems(CheckboxIds(rows))
                else old(selection.Members()) - Selection.Elems(CheckboxIds(rows))
      ensures old(SelectionShown()) ==> SelectionShown()
    {
      selection.SelectAll(checked, CheckboxIds(rows));
    }

    /** `clearSelection`. */
    method ClearSelection()
      requires Valid()
      modifies selection
      ensures Valid() && SelectionShown()
      ensures selection.items == [] && selection.Members() == {}
    {
      selection.Clear();
    }

    /** `displayResults(results)`: the table is rebuilt row by row and shown. */
    method DisplayResults(results: seq<Rcsb.Protein>)
      modifies this`rows, this`resultsShown, this`resultsCount
      ensures rows == Table(results, variant) && resultsShown
      ensures resultsCount == if results == [] then old(resultsCount) else Some(|results|)
    {
      rows := [];
      if |results| == 0 {
        resultsShown := true;
        rows := [NoResultsRow];
        return;
      }
      resultsCount := Some(|results|);
      for i := 0 to |results|
        invariant rows == RecordRows(results[..i], variant)
        invariant resultsCount == Some(|results|)
      {
        assert results[..i + 1][..i] == results[..i];
        rows := rows + [ProteinRow(results[i], Actions(results[i].pdbId, variant))];
      }
      assert results[..|results|] == results;
      resultsShown := true;
    }

    /**
     * `search(kind)`: the request body is built from the form, the page is reset and the
     * selection cleared before the request; the results are replaced only on success.
     */
    method Search(kind: string, form: SearchForm, reply: Reply<SearchReply>)
      requires Valid()
      modifies this`currentResults, this`rows, this`resultsShown, this`resultsCount, this`message, this`sent
      modifies selection
      ensures Valid() && SelectionShown()
      ensures selection.items == []
      ensures sent == old(sent) + [SearchRequest(SearchPayload(kind, form))]
      ensures message == SearchOutcome(reply)
      ensures resultsShown <==> reply.Received? && reply.body.success
      ensures reply.Received? && reply.body.success ==>
                currentResults == reply.body.results && rows == Table(currentResults, variant) &&
                resultsCount == (if currentResults == [] then old(resultsCount) else Some(|currentResults|))
      ensures !(reply.Received? && reply.body.success) ==>
                currentResults == old(currentResults) && rows == old(rows) && resultsCount == old(resultsCount)
    {
      var body := SearchPayload(kind, form);
      resultsShown := false;
      message := Blank;
      selection.Clear();
      sent := sent + [SearchRequest(body)];
      ShowSearchReply(reply);
    }

    /** The part of `search` after the `await`. */
    method ShowSearchReply(reply: Reply<SearchReply>)
      requires !resultsShown
      modifies this`currentResults, this`rows, this`resultsShown, this`resultsCount, this`message
      ensures message == SearchOutcome(reply)
      ensures resultsShown <==> reply.Received? && reply.body.success
      ensures reply.Received? && reply.body.success ==>
                currentResults == reply.body.results && rows == Table(currentResults, variant) &&
                resultsCount == (if currentResults == [] then old(resultsCount) else Some(|currentResults|))
      ensures !(reply.Received? && reply.body.success) ==>
                currentResults == old(currentResults) && rows == old(rows) && resultsCount == old(resultsCount)
    {
      match reply
      case Transport(reason) =>
        message := Failure(Connection, reason);
      case Received(d) =>
        if d.success {
          currentResults := d.results;
          DisplayResults(d.results);
          message := Found(d.count);
        } else {
          message := Failure(Rejected, d.error);
        }
    }

    /** `exportResults`: nothing is sent while there are no results. */
    method ExportResults(reply: Reply<ExportReply>)
      modifies this`alerts, this`sent, this`message, this`downloads
      ensures currentResults == [] ==>
                alerts == old(alerts) + [NothingToExport] && sent == old(sent) &&
                message == old(message) && downloads == old(downloads)
      ensures currentResults != [] ==>
                alerts == old(alerts) && sent == old(sent) + [ExportRequest(currentResults)] &&
                message == ExportOutcome(reply) && downloads == old(downloads) + ExportNavigation(reply)
    {
      if |currentResults| == 0 {
        alerts := alerts + [NothingToExport];
        return;
      }
      sent := sent + [ExportRequest(currentResults)];
      match reply
      case Transport(reason) =>
        message := Failure(Connection, reason);
      case Received(d) =>
        if d.success {
          downloads := downloads + [d.downloadUrl];
          message := ExportStarted;
        } else {
          message := Failure(ExportRejected, d.error);
        }
    }

    /** `createAlignmentSession`: nothing is sent with fewer than two selected structures. */
    method CreateAlignmentSession(reply: Reply<AlignmentReply>)
      requires Valid()
      modifies this`alerts, this`sent, this`message
      ensures selection.Size() < 2 ==>
                alerts == old(alerts) + [NeedTwoProteins] && sent == old(sent) && message == old(message)
      ensures selection.Size() >= 2 ==>
                alerts == old(alerts) && sent == old(sent) + [CreateSession(selection.items)] &&
                message == SessionOutcome(selection.items, reply)
    {
      if selection.Size() < 2 {
        alerts := alerts + [NeedTwoProteins];
        return;
      }
      var ids := selection.items;
      sent := sent + [CreateSession(ids)];
      match reply
      case Transport(reason) =>
        message := Failure(Connection, reason);
      case Received(d) =>
        if !d.success {
          message := Failure(Rejected, d.error);
        } else {
          var block := Rmsd(d.alignmentResults);
          if block.RmsdThrows? {
            message := Failure(Connection, block.reason);
          } else {
            var rmsd := if block.RmsdList? then Some(block.rows) else None;
            var legend := if JsTruthy(d.colors) then Some(d.colors) else None;
            message := SessionCreated(d.pdbCount, Join(", ", ids), d.reference, rmsd, legend,
                                      d.filename, d.downloadUrl);
          }
        }
    }

    /**
     * The script export of static/app.js: the same guard, then the commands are
     * generated for the selection and the reference the server chose.
     */
    method ExportScript(reply: Reply<AlignmentReply>)
      requires Valid() && variant == Full
      modifies this`alerts, this`sent, this`message
      ensures selection.Size() < 2 ==>
                alerts == old(alerts) + [NeedTwoProteins] && sent == old(sent) && message == old(message)
      ensures selection.Size() >= 2 ==>
                alerts == old(alerts) && sent == old(sent) + [AlignScript(selection.items)] &&
                message == ScriptOutcome(selection.items, reply)
    {
      if selection.Size() < 2 {
        alerts := alerts + [NeedTwoProteins];
        return;
      }
      var ids := selection.items;
      sent := sent + [AlignScript(ids)];
      match reply
      case Transport(reason) =>
        message := Failure(Rejected, reason);
      case Received(d) =>
        if d.success {
          var commands := ClientScript.GeneratePyMOLCommands(ids, d.reference);
          message := ScriptReady(d.pdbCount, Join(", ", ids), d.reference, d.filename, commands, d.downloadUrl);
        } else {
          message := Failure(Rejected, d.error);
        }
    }

    /** `alignInPyMOL`: the same guard, then the launched or fallback view. */
    method AlignInPyMOL(reply: Reply<AlignmentReply>)
      requires Valid() && variant == Full
      modifies this`alerts, this`sent, this`message
      ensures selection.Size() < 2 ==>
                alerts == old(alerts) + [NeedTwoProteins] && sent == old(sent) && message == old(message)
      ensures selection.Size() >= 2 ==>
                alerts == old(alerts) && sent == old(sent) + [AlignAndLaunch(selection.items)] &&
                message == LaunchOutcome(selection.items, reply)
    {
      if selection.Size() < 2 {
        alerts := alerts + [NeedTwoProteins];
        return;
      }
      var ids := selection.items;
      sent := sent + [AlignAndLaunch(ids)];
      match reply
      case Transport(reason) =>
        message := Failure(Connection, reason);
      case Received(d) =>
        if !d.success {
          message := Failure(Rejected, d.error);
        } else if d.launched {
          message := Launched(d.pdbCount, Join(", ", ids), d.reference, Legend(d.colors));
        } else {
          var hint := if JsTruthy(d.errorDetails) then d.errorDetails else JStr(DefaultHint);
          message := LaunchFallback(d.notice, d.pdbCount, Join(", ", ids), d.filename, hint, d.downloadUrl);
        }
    }
  }
}
