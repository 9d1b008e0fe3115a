/**
 * The data side of the backend's RCSB client (`RCSBPDBSearch` in app.py):
 * extracting entry identifiers from a search reply, and normalising the
 * entry records fetched for those identifiers into the six-column rows the
 * page displays. The HTTP calls themselves are not modelled: a search reply
 * is given as `Option<Json>` (`None` when the request, the status check or
 * the JSON decoding raised), and the entry service as a function from an
 * upper-cased identifier to the decoded reply (`JNull` for a failed request).
 */
module Rcsb {
  import opened Wrappers
  import opened PyJson
  import opened Text

  /** Python's `s[:stop]`: a negative stop counts from the end. */
  function SliceStop<T>(s: seq<T>, stop: int): (r: seq<T>)
    ensures |r| <= |s| && r == s[..|r|]
    ensures stop >= 0 ==> |r| == if stop < |s| then stop else |s|
    ensures stop < 0 ==> |r| == if |s| + stop > 0 then |s| + stop else 0
  {
    if stop >= 0 then
      (if stop < |s| then s[..stop] else s)
    else
      (if |s| + stop > 0 then s[..|s| + stop] else [])
  }

  /** What one `result_set` item contributes: a dict's `"identifier"`, a string itself, else nothing. */
  function ItemId(item: Json): (r: Option<Json>)
    ensures item.JStr? ==> r == Some(item)
    ensures item.JObj? ==> (r.Some? <==> HasKey(item, "identifier"))
    ensures item.JObj? && r.Some? ==> r.value == Field(item, "identifier")
    ensures !item.JStr? && !item.JObj? ==> r == None
  {
    match item
    case JStr(_) => Some(item)
    case JObj(entries) => Lookup(entries, "identifier")
    case _ => None
  }

  /** The identifiers collected, in order, by the loop over the `result_set` window. */
  function Identifiers(items: seq<Json>): seq<Json> {
    if items == [] then []
    else
      var last := ItemId(items[|items| - 1]);
      Identifiers(items[..|items| - 1]) + (if last.Some? then [last.value] else [])
  }

  /** Collecting over two consecutive stretches collects over each in turn: order is kept. */
  lemma {:induction false} IdentifiersAppend(a: seq<Json>, b: seq<Json>)
    ensures Identifiers(a + b) == Identifiers(a) + Identifiers(b)
    decreases |b|
  {
    if b == [] {
      assert a + b == a;
    } else {
      var n := |b| - 1;
      assert (a + b)[..|a + b| - 1] == a + b[..n];
      assert (a + b)[|a + b| - 1] == b[n];
      IdentifiersAppend(a, b[..n]);
    }
  }

  /** At most one identifier per item, and each one comes from an item that yields it. */
  lemma {:induction false} IdentifiersFromItems(items: seq<Json>)
    ensures |Identifiers(items)| <= |items|
    ensures forall x | x in Identifiers(items) :: exists i | 0 <= i < |items| :: ItemId(items[i]) == Some(x)
  {
    if items != [] {
      var n := |items| - 1;
      IdentifiersFromItems(items[..n]);
      forall x | x in Identifiers(items)
        ensures exists i | 0 <= i < |items| :: ItemId(items[i]) == Some(x)
      {
        if x in Identifiers(items[..n]) {
          var i :| 0 <= i < n && ItemId(items[..n][i]) == Some(x);
          assert items[..n][i] == items[i];
        } else {
          assert ItemId(items[n]) == Some(x);
        }
      }
    }
  }

  /** Every item that yields an identifier has it among the results. */
  lemma {:induction false} IdentifiersComplete(items: seq<Json>, i: nat)
    requires i < |items| && ItemId(items[i]).Some?
    ensures ItemId(items[i]).value in Identifiers(items)
  {
    var n := |items| - 1;
    if i < n {
      assert items[..n][i] == items[i];
      IdentifiersComplete(items[..n], i);
    }
  }

  /** The list `_execute_query` returns for a search reply and a `max_results`. */
  function QueryResults(response: Option<Json>, maxResults: int): (r: seq<Json>)
    ensures response.None? || !response.value.JObj? ==> r == []
    ensures response.Some? && !HasKey(response.value, "result_set") ==> r == []
    ensures response.Some? && HasKey(response.value, "result_set") ==>
              (!Truthy(Field(response.value, "result_set")) || !Field(response.value, "result_set").JArr?) ==> r == []
  {
    if response.None? then []
    else
      var data := response.value;
      if !data.JObj? then []
      else if HasKey(data, "result_set") && Truthy(Field(data, "result_set")) then
        var set_ := Field(data, "result_set");
        if !set_.JArr? then [] else Identifiers(SliceStop(set_.items, maxResults))
      else []
  }

  /**
   * A `result_set` list yields the identifiers of its first `max_results` items, in
   * order: never more than `max_results`, never more than there are items.
   */
  lemma ResultsFromWindow(data: Json, maxResults: int)
    requires HasKey(data, "result_set") && Field(data, "result_set").JArr?
    ensures var items := Field(data, "result_set").items;
            var window := SliceStop(items, maxResults);
            && QueryResults(Some(data), maxResults) == Identifiers(window)
            && |QueryResults(Some(data), maxResults)| <= |items|
            && (maxResults >= 0 ==> |QueryResults(Some(data), maxResults)| <= maxResults)
  {
    var items := Field(data, "result_set").items;
    IdentifiersFromItems(SliceStop(items, maxResults));
    if items == [] {
      assert Identifiers(SliceStop(items, maxResults)) == [];
    }
  }

  /** `_execute_query` after the request: the loop over the window of `result_set`. */
  method ExecuteQuery(response: Option<Json>, maxResults: int) returns (results: seq<Json>)
    ensures results == QueryResults(response, maxResults)
  {
    if response.None? || !response.value.JObj? {
      return [];
    }
    var data := response.value;
    if !(HasKey(data, "result_set") && Truthy(Field(data, "result_set"))) {
      return [];
    }
    var set_ := Field(data, "result_set");
    if !set_.JArr? {
      return [];
    }
    var window := SliceStop(set_.items, maxResults);
    results := [];
    for k := 0 to |window|
      invariant results == Identifiers(window[..k])
    {
      assert window[..k + 1][..k] == window[..k];
      var id := ItemId(window[k]);
      if id.Some? {
        results := results + [id.value];
      }
    }
    assert window[..|window|] == window;
  }

  // ---------------------------------------------------------------------------
  // get_protein_details

  /** One normalised entry: the identifier as requested and five displayed fields. */
  datatype Protein = Protein(pdbId: string, title: Json, resolution: Json, experimentalMethod: Json,
                             releaseDate: Json, organism: Json)

  /** The placeholder every field starts from. */
  const NA := JStr("N/A")

  /** `data[key]` when `data` is a dict holding `key` whose value is a dict. */
  predicate HasDict(data: Json, key: string) {
    HasKey(data, key) && Field(data, key).JObj?
  }

  /** `data[key][0]` is a dict, for a non-empty list under `key`. */
  predicate HasFirstDict(data: Json, key: string) {
    HasKey(data, key) && Field(data, key).JArr? && |Field(data, key).items| > 0 &&
    Field(data, key).items[0].JObj?
  }

  /** The entry's `struct.title`, or the placeholder when the section or the key is missing. */
  function Title(data: Json): (r: Json)
    ensures !HasDict(data, "struct") ==> r == NA
    ensures HasDict(data, "struct") && !HasKey(Field(data, "struct"), "title") ==> r == NA
    ensures HasDict(data, "struct") && HasKey(Field(data, "struct"), "title") ==>
              r == Field(Field(data, "struct"), "title")
  {
    if HasDict(data, "struct") then GetOr(Field(data, "struct"), "title", NA) else NA
  }

  /**
   * The resolution column: the first value of a truthy `resolution_combined` list, or a
   * truthy bare number (a bool counts), else the placeholder.
   */
  function Resolution(data: Json): (r: Json)
    ensures !HasDict(data, "rcsb_entry_info") ==> r == NA
  {
    if HasDict(data, "rcsb_entry_info") then
      var res := GetOr(Field(data, "rcsb_entry_info"), "resolution_combined", JNull);
      if Truthy(res) then
        if res.JArr? && |res.items| > 0 then res.items[0]
        else if IsNumber(res) then res
        else NA
      else NA
    else NA
  }

  /** The first `exptl` entry's `method`, or the placeholder. */
  function ExperimentalMethod(data: Json): (r: Json)
    ensures !HasFirstDict(data, "exptl") ==> r == NA
    ensures HasFirstDict(data, "exptl") && !HasKey(Field(data, "exptl").items[0], "method") ==> r == NA
    ensures HasFirstDict(data, "exptl") && HasKey(Field(data, "exptl").items[0], "method") ==>
              r == Field(Field(data, "exptl").items[0], "method")
  {
    if HasFirstDict(data, "exptl") then GetOr(Field(data, "exptl").items[0], "method", NA) else NA
  }

  /** The entry's `rcsb_accession_info.initial_release_date`, or the placeholder. */
  function ReleaseDate(data: Json): (r: Json)
    ensures !HasDict(data, "rcsb_accession_info") ==> r == NA
    ensures var info := "rcsb_accession_info";
            HasDict(data, info) && !HasKey(Field(data, info), "initial_release_date") ==> r == NA
    ensures var info := "rcsb_accession_info";
            HasDict(data, info) && HasKey(Field(data, info), "initial_release_date") ==>
              r == Field(Field(data, info), "initial_release_date")
  {
    if HasDict(data, "rcsb_accession_info") then
      GetOr(Field(data, "rcsb_accession_info"), "initial_release_date", NA)
    else NA
  }

  /** The first source organism's `scientific_name`, or the placeholder. */
  function Organism(data: Json): (r: Json)
    ensures !HasFirstDict(data, "rcsb_entity_source_organism") ==> r == NA
    ensures var source := "rcsb_entity_source_organism";
            HasFirstDict(data, source) && !HasKey(Field(data, source).items[0], "scientific_name") ==> r == NA
    ensures var source := "rcsb_entity_source_organism";
            HasFirstDict(data, source) && HasKey(Field(data, source).items[0], "scientific_name") ==>
              r == Field(Field(data, source).items[0], "scientific_name")
  {
    if HasFirstDict(data, "rcsb_entity_source_organism") then
      GetOr(Field(data, "rcsb_entity_source_organism").items[0], "scientific_name", NA)
    else NA
  }

  /** The record built for an identifier and its entry reply. */
  function Normalise(pdbId: string, data: Json): Protein {
    Protein(pdbId, Title(data), Resolution(data), ExperimentalMethod(data), ReleaseDate(data), Organism(data))
  }

  /**
   * The record keeps the identifier as given, and each field is read from its own
   * section alone: the placeholder when that section is missing or malformed, whatever
   * the other sections hold.
   */
  lemma NormaliseFields(pdbId: string, data: Json)
    ensures var r := Normalise(pdbId, data);
            && r.pdbId == pdbId
            && (!HasDict(data, "struct") ==> r.title == NA)
            && (!HasDict(data, "rcsb_entry_info") ==> r.resolution == NA)
            && (!HasFirstDict(data, "exptl") ==> r.experimentalMethod == NA)
            && (!HasDict(data, "rcsb_accession_info") ==> r.releaseDate == NA)
            && (!HasFirstDict(data, "rcsb_entity_source_organism") ==> r.organism == NA)
  {
  }

  /** An entry with none of the five sections keeps the placeholder in every field. */
  lemma AllDefaults(pdbId: string, data: Json)
    requires !HasKey(data, "struct") && !HasKey(data, "rcsb_entry_info") && !HasKey(data, "exptl")
    requires !HasKey(data, "rcsb_accession_info") && !HasKey(data, "rcsb_entity_source_organism")
    ensures Normalise(pdbId, data) == Protein(pdbId, NA, NA, NA, NA, NA)
  {
  }

  /** The resolution column case by case, as the entry's `resolution_combined` dictates. */
  lemma ResolutionCases(data: Json)
    requires HasDict(data, "rcsb_entry_info")
    ensures var res := GetOr(Field(data, "rcsb_entry_info"), "resolution_combined", JNull);
            && (res.JArr? && res.items != [] ==> Resolution(data) == res.items[0])
            && (IsNumber(res) && Truthy(res) ==> Resolution(data) == res)
            && (res == JNum(0.0) || res == JArr([]) || res == JNull ==> Resolution(data) == NA)
            && (res.JStr? || res.JObj? ==> Resolution(data) == NA)
  {
  }

  /**
   * The record, if any, the loop appends for one identifier: a non-string identifier
   * is skipped, and so is one whose entry reply is not a non-empty dict.
   */
  function DetailFor(id: Json, fetch: string -> Json): (r: seq<Protein>)
    ensures |r| <= 1
    ensures r != [] <==> id.JStr? && Truthy(fetch(Upper(id.s))) && fetch(Upper(id.s)).JObj?
    ensures r != [] ==> r[0] == Normalise(id.s, fetch(Upper(id.s))) && r[0].pdbId == id.s
  {
    if id.JStr? then
      var data := fetch(Upper(id.s));
      if Truthy(data) && data.JObj? then [Normalise(id.s, data)] else []
    else []
  }

  /** The records `get_protein_details` collects, in order. */
  function Details(ids: seq<Json>, fetch: string -> Json): seq<Protein> {
    if ids == [] then []
    else Details(ids[..|ids| - 1], fetch) + DetailFor(ids[|ids| - 1], fetch)
  }

  /** Details of two stretches of identifiers are the details of each in turn: order is kept. */
  lemma {:induction false} DetailsAppend(a: seq<Json>, b: seq<Json>, fetch: string -> Json)
    ensures Details(a + b, fetch) == Details(a, fetch) + Details(b, fetch)
    decreases |b|
  {
    if b == [] {
      assert a + b == a;
    } else {
      var n := |b| - 1;
      assert (a + b)[..|a + b| - 1] == a + b[..n];
      assert (a + b)[|a + b| - 1] == b[n];
      DetailsAppend(a, b[..n], fetch);
    }
  }

  /**
   * No more records than identifiers; every record is for a string identifier whose
   * entry reply is a non-empty dict, and carries that identifier as given (not upper-cased).
   */
  lemma {:induction false} DetailsSound(ids: seq<Json>, fetch: string -> Json)
    ensures |Details(ids, fetch)| <= |ids|
    ensures forall p | p in Details(ids, fetch) ::
              JStr(p.pdbId) in ids && Truthy(fetch(Upper(p.pdbId))) && fetch(Upper(p.pdbId)).JObj? &&
              p == Normalise(p.pdbId, fetch(Upper(p.pdbId)))
  {
    if ids != [] {
      var n := |ids| - 1;
      DetailsSound(ids[..n], fetch);
      forall p | p in Details(ids, fetch)
        ensures JStr(p.pdbId) in ids
      {
        if p in Details(ids[..n], fetch) {
          assert JStr(p.pdbId) in ids[..n];
        } else {
          assert p in DetailFor(ids[n], fetch);
        }
      }
    }
  }

  /** A string identifier with a non-empty dict reply is never dropped. */
  lemma {:induction false} DetailsComplete(ids: seq<Json>, fetch: string -> Json, i: nat)
    requires i < |ids| && ids[i].JStr?
    requires Truthy(fetch(Upper(ids[i].s))) && fetch(Upper(ids[i].s)).JObj?
    ensures Normalise(ids[i].s, fetch(Upper(ids[i].s))) in Details(ids, fetch)
  {
    var n := |ids| - 1;
    var record := Normalise(ids[i].s, fetch(Upper(ids[i].s)));
    assert Details(ids, fetch) == Details(ids[..n], fetch) + DetailFor(ids[n], fetch);
    if i < n {
      assert ids[..n][i] == ids[i];
      DetailsComplete(ids[..n], fetch, i);
      assert record in Details(ids[..n], fetch);
    } else {
      assert DetailFor(ids[n], fetch) == [record];
    }
  }

  /** `get_protein_details`: the loop over the identifiers. */
  method GetProteinDetails(ids: seq<Json>, fetch: string -> Json) returns (proteins: seq<Protein>)
    ensures proteins == Details(ids, fetch)
  {
    proteins := [];
    for k := 0 to |ids|
      invariant proteins == Details(ids[..k], fetch)
    {
      assert ids[..k + 1][..k] == ids[..k];
      if ids[k].JStr? {
        var data := fetch(Upper(ids[k].s));
        if Truthy(data) && data.JObj? {
          proteins := proteins + [Normalise(ids[k].s, data)];
        }
      }
    }
    assert ids[..|ids|] == ids;
  }
}
