# PDB protein search: a verified model of its core

The application is a small Flask site for searching the RCSB Protein Data Bank. Its
browser controller (static/app.js, and the reduced static/app_clean.js) does the following:

- reads the search forms and posts them to `/search`;
- lists the records that come back in a table, with one checkbox per structure;
- keeps the checked structures in a module-level `Set`;
- asks the backend either to align the selection in a PyMOL session, or to write a PyMOL
  alignment script, whose commands it also generates itself for manual copying.

The backend (app.py) does the following:

- dispatches the search modes to RCSB queries;
- extracts entry identifiers from the search reply;
- normalises each entry into a six-column record with `'N/A'` defaults;
- writes the alignment script with its colour map;
- validates the registration form.

A small command-line tool (src/sequence_counter.py) reads sequences from a JSON file, a CSV
file or the command line, counts them and prints the totals.

The model is split into modules:

- `Selection`: the selection store, as a class updated in place, with set laws.
- `ClientScript`: `generatePyMOLCommands`, specified line by line. A loop method builds the
  text the way the page does.
- `Controller`:
  - the table, the search payload and the views each handler leaves;
  - a `Page` class whose methods are the handlers, guards included.
- `Rcsb` and `SearchRoute`: result extraction, record normalisation and the `/search` route.
- `AlignRoute`: the `/align_pymol` script and colour map, and the reply of
  `/create_alignment_session`.
- `Registration`: the order of the `/register` checks.
- `SequenceCounter`: the CLI's readers, `Counter` and the printed totals.
- `PyJson`, `PyInt`, `Text` and `Palette`: decoded JSON values and the Python built-ins applied
  to them (`dict.get`, truthiness, `int()`, `str.upper()`, `join`), plus the eight-colour palette.
- `JsNumber`: JavaScript's `v > 0` for a decoded value, with its conversion of text to numbers.

Network replies, file contents, the PyMOL run and the clock are parameters of the functions
that need them.

A few behaviours are modelled as the code has them:

- The `/align_pymol` script aligns by position: every identifier after the first is aligned,
  even a repeat of the reference. The page's own command text aligns by value: every
  identifier different from the reference. On a real selection, which has no repeats, the two
  agree (`AlignRoute.AlignMatchesClientOnSelections`). `AlignRoute.RepeatedReferenceIsAligned`
  shows where they differ.
- A search result keeps the identifier as requested: the record of an `id` search carries the
  upper-cased identifier, and other records carry the identifier RCSB returned.
- The page's guard `alignment_results && alignment_results.length > 0` lets through more than
  non-empty arrays. A non-empty string passes it, and so does an object whose `length` entry
  JavaScript converts to a positive number (`1`, `"1"`, `true`, `[1]`). The missing `forEach`
  then raises. A list with a `null` entry raises when the entry's `structure` is read. Either
  way the page shows the connection-error frame.
- A JSON object may repeat a key. The decoded dict, in Python and in JavaScript alike, keeps
  the key once, at its first position, with its last value.
- `Counter` of a dict (a JSON file whose `sequences` value is an object) copies the dict. The
  totals are then its number of keys and the sum of its values, and the sum raises on a value
  that is not a number.

## Model

| member | source | states |
|---|---|---|
| PyJson.Elements | src/sequence_counter.py:50-52 | iteration visits a list's items, a string's characters or a dict's keys (each once, in first-occurrence order); any other value cannot be iterated |
| PyJson.Lookup | src/sequence_counter.py:14 | a decoded dict holds a key iff some entry carries it, and then holds a value an entry for that key carries |
| PyJson.LookupAt | src/sequence_counter.py:14 | a repeated key holds the value of its last entry |
| PyJson.DictKeys | src/sequence_counter.py:24 | a dict's keys are pairwise distinct; every entry's key is among them and can be looked up |
| PyJson.DictValues | src/sequence_counter.py:24 | `list(d.values())` has one value per key, in key order, each the value the dict holds for that key |
| JsNumber.ShownCountPositive | static/app.js:126 | a count written in decimal compares greater than zero exactly when the count is positive |
| JsNumber.DigitsPositive | static/app.js:126 | a run of digits compares greater than zero exactly when its value is positive |
| JsNumber.PositiveForms | static/app.js:126 | `1`, `"1"`, `true`, `[1]` and `["1"]` all compare greater than zero |
| JsNumber.DecimalForm | static/app.js:126 | surrounding whitespace, a `+` sign, a fraction and an exponent are all read (`" +2.5e1\n"` is positive) |
| JsNumber.FractionWithExponent | static/app.js:126 | `2.5e1` denotes a positive number |
| JsNumber.HexForm | static/app.js:126 | hexadecimal text (`"0x1F"`) is positive |
| JsNumber.InfinityForm | static/app.js:126 | `"Infinity"` is positive |
| JsNumber.NotPositiveForms | static/app.js:126 | words, negative numerals, the empty text, arrays of two or more elements, `[true]`, objects and `null` are not |
| Text.Upper | app.py:608 | upper-casing keeps the length and maps every character through the ASCII upper-case table |
| Text.UpperIdempotent | app.py:70-72 | an identifier upper-cased again by the entry lookup is unchanged |
| PyInt.ParseInt | app.py:396 | `int()` of a string succeeds only when the text holds a digit |
| PyInt.IntOf | app.py:396 | `int()` of a decoded value: a bool gives 0 or 1, a number is truncated toward zero, and null, lists and dicts raise |
| PyInt.ParseShow | app.py:396 | a limit written in decimal reads back as the same integer |
| Palette.ColorAt | static/app.js:63 | the colour of every position is one of the eight palette colours |
| Palette.ColorWraps | static/app.js:63 | positions `i` and `i + 8` get the same colour |
| Palette.ColorsDistinct | static/app.js:54 | the eight palette colours are pairwise different |
| Palette.SameColorIff | app.py:624-627 | two positions share a colour exactly when they are equal modulo 8 |
| Selection.Remove | static/app.js:39 | deleting drops exactly that identifier, keeps the others distinct and in order, and changes nothing when the identifier is absent |
| Selection.DistinctCard | static/app.js:6 | the size of the set is the number of stored identifiers |
| Selection.ToggleFlipsOne | static/app.js:37-44 | toggling flips the membership of that identifier and of no other |
| Selection.ToggleTwice | static/app_clean.js:36-43 | toggling twice restores membership; an absent identifier leaves the sequence itself restored, a present one comes back at the end |
| Selection.MarkAllIsUnionOrDifference | static/app.js:21-35 | checking select-all gives the union with the checkbox values and unchecking it gives the difference; other identifiers keep their membership |
| Selection.SelectionView | static/app.js:5-19 | the panel is active iff something is selected; the listing (count and identifiers in order) appears iff two or more are selected; the prompt appears iff exactly one is |
| Selection.SelectionViewBySetSize | static/app_clean.js:4-18 | the same three cases stated in terms of the set's size |
| Selection.ReplayMatchesSet | static/app.js:3 | any sequence of toggle, select-all and clear on the store gives the same members as on a plain set |
| Selection.SelectionStore.constructor | static/app.js:3 | the store starts empty |
| Selection.SelectionStore.Size | static/app.js:6 | `size` is the number of members |
| Selection.SelectionStore.Has | static/app.js:38 | `has` answers membership |
| Selection.SelectionStore.Toggle | static/app.js:37-42 | the new members are the old ones with the identifier removed if present, added otherwise |
| Selection.SelectionStore.SelectAll | static/app_clean.js:24-31 | the new members are the old ones united with, or minus, the checkbox values |
| Selection.SelectionStore.Clear | static/app.js:47 | the store is empty afterwards |
| Selection.SelectionStore.UI | static/app_clean.js:4-18 | the align panel is active iff at least one structure is selected; the listing (count and identifiers in insertion order) appears iff at least two are, the "select another" prompt iff exactly one is, and the text is left alone iff none is |
| ClientScript.FetchLinesAt | static/app.js:57-59 | one `fetch <id>` line per identifier, in input order |
| ClientScript.ShowLinesAt | static/app.js:62-65 | identifier `i` gets a `show cartoon` line and then a `color` line with palette colour `i % 8` |
| ClientScript.CommandsAreJoinedLines | static/app.js:53-78 | the command text is the script's lines joined by newlines, with no final newline |
| ClientScript.AlignLinesForOthers | static/app.js:67-72 | the align lines are, in order, one `align x, reference` for each identifier other than the reference |
| ClientScript.NoSelfAlignment | static/app.js:69 | the reference is never aligned onto itself |
| ClientScript.AlignCountForSelection | static/app.js:68-72 | a selection containing the reference gets exactly n - 1 align lines |
| ClientScript.ScriptLength | static/app.js:53-78 | the number of lines is fixed by the number of identifiers and of align lines |
| ClientScript.ScriptFetchLayout | static/app.js:55-59 | the script opens with the load heading, followed by the fetch line of each identifier at its position |
| ClientScript.ScriptShowLayout | static/app.js:61-65 | the show/colour pair of identifier `i` sits at a fixed offset after the display heading |
| ClientScript.ScriptEndsWithTrailer | static/app.js:74-75 | every script ends with the fixed `center` … `bg_color white` block |
| ClientScript.NinthSharesFirstColor | static/app.js:63 | the structure eight positions later is painted in the same colour |
| ClientScript.TwoStructureExample | static/app.js:53-78 | the complete line list for two structures with the first as reference |
| ClientScript.ExampleShowLines | static/app.js:62-65 | the show block for two structures: cyan, then magenta |
| ClientScript.ExampleAlignLines | static/app.js:67-72 | with the first of two as reference, only the second is aligned |
| ClientScript.ClosingText | static/app.js:74-75 | the closing statements append the trailer as the script's last lines |
| ClientScript.GeneratePyMOLCommands | static/app.js:53-78 | the text the function builds with `+=` is the specified command text, so equal arguments give equal text |
| ClientScript.AppendFetchLines | static/app.js:57-59 | the fetch loop appends exactly the fetch lines |
| ClientScript.AppendShowLines | static/app.js:62-65 | the show/colour loop appends exactly the show lines |
| ClientScript.AppendAlignLines | static/app.js:68-72 | the align loop appends exactly the align lines |
| AlignRoute.FetchLinesAt | app.py:620-621 | one `fetch <id>, async=0` line per identifier, in order |
| AlignRoute.AlignLinesAt | app.py:633-634 | one `align` line per identifier after the first, onto the reference, in order |
| AlignRoute.LegendLinesAt | app.py:650-653 | the legend names every identifier with palette colour `i % 8` |
| AlignRoute.AlignMatchesClientOnSelections | app.py:629-634 | on a selection without repeats, the backend's align block equals the page's |
| AlignRoute.RepeatedReferenceIsAligned | app.py:633-634 | `["1ABC", "1ABC"]` aligns the reference onto itself, where the page's commands align nothing |
| AlignRoute.HeaderText | app.py:611-616 | the header f-string is five newline-terminated lines, the fourth blank |
| AlignRoute.AppendFetchLines | app.py:620-621 | the fetch loop appends exactly the fetch lines |
| AlignRoute.AppendAlignLines | app.py:633-634 | the align loop appends exactly the align lines |
| AlignRoute.AppendPrintLines | app.py:646-648 | the RMSD loop appends one `print` per aligned structure |
| AlignRoute.AppendLegendLines | app.py:650-653 | the legend loop appends exactly the legend lines |
| AlignRoute.WriteScript | app.py:611-653 | the text the route accumulates is the specified script, line by line |
| AlignRoute.AppendSettings | app.py:636-646 | the fixed statements append the settings block |
| AlignRoute.AppendView | app.py:636-638 | the centring statements append the first six settings lines |
| AlignRoute.AppendDisplay | app.py:640-646 | the display statements append the rest of the settings block |
| AlignRoute.ColorMap | app.py:671 | the colour map's keys are exactly the identifiers |
| AlignRoute.ColorMapLastPosition | app.py:671 | an identifier's colour is that of its last position |
| AlignRoute.ColorMapOfSelection | app.py:671 | without repeats, identifier `i` maps to palette colour `i % 8`, the colour its show block paints |
| AlignRoute.FirstThree | app.py:658 | at most three identifiers, the first ones, name the file |
| AlignRoute.UpperAll | app.py:608 | every identifier is upper-cased, in order |
| AlignRoute.AlignPymol | app.py:595-678 | a non-dict body or a non-iterable `pdb_ids` fails; fewer than two identifiers get the fixed refusal; the reply succeeds iff there are at least two, all strings; it then carries the upper-cased identifiers in request order, the first as reference, their count, the colour map of those identifiers, the script specified for them, and the file name and download URL built from the first three |
| AlignRoute.FewerThanTwoRejected | app.py:601-605 | fewer than two identifiers are refused with the fixed message |
| AlignRoute.SelectionReply | app.py:605-678 | for distinct upper-case identifiers the reply keeps them, takes the first as reference, colours identifier `i` with palette colour `i % 8`, writes the script specified for them, and that script's align block equals the page's |
| AlignRoute.SelectionAccepted | app.py:600-608 | the page's request passes both routes' checks and upper-casing leaves its identifiers unchanged |
| AlignRoute.CreateAlignmentSession | app.py:689-887 | the same request checks as the script route (a non-dict body or non-iterable `pdb_ids` fails, fewer than two identifiers get the fixed refusal, a session needs at least two strings); a session reply carries the upper-cased identifiers, the first as reference, their count, their colour map, the file name and download URL; a timeout gives the timeout error; without a results file the session succeeds with an empty RMSD list iff the session was saved, else the run-failed error; with one it succeeds iff the report is a dict with a truthy `success` and the session was saved, carrying the report's `alignment_results`, and otherwise gives the report's `error`, the missing-session error, or a failure |
| Rcsb.SliceStop | app.py:241 | Python's `[:stop]`: a prefix of `stop` items, counted from the end when `stop` is negative |
| Rcsb.ItemId | app.py:242-245 | a string item is kept, a dict item gives its `identifier` when it has one, and anything else is dropped |
| Rcsb.IdentifiersAppend | app.py:241-246 | collecting over consecutive stretches keeps the order |
| Rcsb.IdentifiersFromItems | app.py:241-246 | at most one identifier per item, each from an item that yields it |
| Rcsb.IdentifiersComplete | app.py:241-246 | every item that yields an identifier contributes it |
| Rcsb.QueryResults | app.py:233-249 | a failed request, a non-dict reply, or a missing, empty or non-list `result_set` yields no identifiers |
| Rcsb.ResultsFromWindow | app.py:241-247 | a list `result_set` yields the identifiers of its first `max_results` items in order, never more than `max_results` |
| Rcsb.ExecuteQuery | app.py:221-253 | the append loop computes the specified identifier list |
| Rcsb.Resolution | app.py:279-285 | without an `rcsb_entry_info` dict the resolution is `'N/A'` |
| Rcsb.Title | app.py:276-277 | the title is `struct.title`, or `'N/A'` when `struct` is not a dict or lacks `title` |
| Rcsb.ExperimentalMethod | app.py:287-289 | the method is the first `exptl` entry's `method`, or `'N/A'` when `exptl` is not a non-empty list starting with a dict, or that dict lacks `method` |
| Rcsb.ReleaseDate | app.py:291-292 | the release date is `rcsb_accession_info.initial_release_date`, or `'N/A'` when the section is not a dict or lacks the key |
| Rcsb.Organism | app.py:294-298 | the organism is the first source organism's `scientific_name`, or `'N/A'` when the list is empty, not a list, starts with a non-dict, or the key is missing |
| Rcsb.NormaliseFields | app.py:267-298 | the record keeps the identifier as given, and each field falls back to `'N/A'` when its own section is missing or malformed, whatever the other sections hold |
| Rcsb.AllDefaults | app.py:267-274 | an entry with none of the five sections keeps `'N/A'` in every field |
| Rcsb.ResolutionCases | app.py:279-285 | the first item of a non-empty list, a truthy number as is, and `'N/A'` for anything else |
| Rcsb.DetailFor | app.py:259-265 | at most one record per identifier; one exactly when the identifier is a string whose entry reply is a non-empty dict, and it is that reply normalised under the identifier as given |
| Rcsb.DetailsAppend | app.py:259-300 | details of consecutive identifier stretches keep their order |
| Rcsb.DetailsSound | app.py:259-265 | no more records than identifiers; every record is for a string identifier whose entry reply is a non-empty dict, normalised from that reply |
| Rcsb.DetailsComplete | app.py:263-300 | a string identifier whose reply is a non-empty dict is never dropped |
| Rcsb.GetProteinDetails | app.py:255-305 | the loop computes the specified record list |
| SearchRoute.Dispatch | app.py:400-425 | an `id` search is the upper-cased identifier with no query, and fails on a non-string; an unknown mode runs nothing; the advanced search drops empty filters |
| SearchRoute.Search | app.py:389-440 | a non-dict body or an unreadable `max_results` fails; a reply's count is the number of its records |
| SearchRoute.IdSearchIsDirect | app.py:412-414 | an `id` search does not depend on the search service and yields at most the identifier's record |
| SearchRoute.UnknownTypeFindsNothing | app.py:398-428 | an unknown mode answers with no records |
| SearchRoute.SearchRespectsMax | app.py:396-428 | a query-based search succeeds and never returns more than a non-negative `max_results` records |
| Registration.Validate | app.py:342-352 | missing field first, then password mismatch, then a password under six characters; each verdict holds exactly under its condition |
| SequenceCounter.JsonSequences | src/sequence_counter.py:18-26 | a list unchanged, a dict's `sequences` value, another dict's values (one per distinct key, in key order), anything else a one-element list |
| SequenceCounter.CsvColumnAppend | src/sequence_counter.py:41-44 | rows read in two stretches give their first cells in order |
| SequenceCounter.CsvColumnOfFullRows | src/sequence_counter.py:41-44 | with no empty row, one sequence per row, its first cell |
| SequenceCounter.ReadCsv | src/sequence_counter.py:39-45 | the loop drops the header and collects the first cell of every non-empty row |
| SequenceCounter.Count | src/sequence_counter.py:50-52 | counting succeeds exactly when every element is hashable |
| SequenceCounter.CountIsOccurrences | src/sequence_counter.py:50-52 | each key's count is its number of occurrences, with `True`/`1` and `False`/`0` colliding |
| SequenceCounter.MappingTotals | src/sequence_counter.py:65-66 | for a dict the unique total is its number of distinct keys, and the sum exists iff the value held for every key is a number |
| SequenceCounter.RepeatedKeyCountsOnce | src/sequence_counter.py:50-66 | a key the document repeats is counted once, with its last value |
| SequenceCounter.CountTotals | src/sequence_counter.py:65-66 | the total is the number of sequences and the unique total the number of distinct keys |
| SequenceCounter.UniqueStrings | src/sequence_counter.py:65 | for strings, the unique total is the number of distinct strings |
| SequenceCounter.Sequences | src/sequence_counter.py:92-94 | `--sequence S` gives the one-element list, or nothing when `S` is empty |
| SequenceCounter.DirectCountsOne | src/sequence_counter.py:92-94 | `--sequence S` prints one unique sequence and a total of one |
| SequenceCounter.Run | src/sequence_counter.py:80-100 | an unreadable file stops the run; an empty option value, an empty sequence or an empty JSON list prints zero totals; a readable CSV file always prints totals |
| SequenceCounter.CsvTotals | src/sequence_counter.py:87-100 | `--csv F` prints the distinct first-column values and the number of non-empty data rows |
| Controller.Actions | static/app.js:501-513 | every row offers the PDB download; static/app_clean.js offers only that |
| Controller.RecordRows | static/app.js:491-516 | one row per record, in order, carrying the variant's actions |
| Controller.CheckboxIds | static/app.js:494 | no more checkboxes than rows |
| Controller.TableShape | static/app_clean.js:232-259 | an empty list shows exactly the "no results" row; otherwise one row per record, in order |
| Controller.CheckboxesOfTable | static/app.js:494 | the checkbox values of the table are the record identifiers, in order |
| Controller.RowsCheckboxes | static/app.js:491-516 | the checkbox values of the record rows are the record identifiers |
| Controller.VariantsShowSameRecords | static/app_clean.js:240-259 | both scripts show the same records in the same order |
| Controller.SearchPayload | static/app.js:417-441 | the body starts with `search_type` and then `max_results` |
| Controller.KeywordPayloadRead | static/app.js:422-424 | a keyword search reaches the keyword query with the typed text and limit |
| Controller.NamePayloadRead | static/app.js:425-427 | a name search reaches the name query with the typed text and limit |
| Controller.OrganismPayloadRead | static/app.js:428-430 | an organism search reaches the organism query with the typed text and limit |
| Controller.IdPayloadRead | static/app.js:431-432 | an identifier search sends no limit of its own and reaches the direct lookup of the upper-cased identifier |
| Controller.ResolutionPayloadRead | static/app.js:433-435 | a resolution search passes the typed text and limit |
| Controller.AdvancedPayloadRead | static/app.js:436-440 | an advanced search drops exactly the filters left empty |
| Controller.AdvancedPayloadFields | static/app.js:436-440 | the backend reads back the five values the advanced form sends |
| Controller.UnknownPayloadRead | static/app.js:417-420 | any other mode reaches no query, with limit 10 |
| Controller.SelectionBody | static/app.js:103 | the request carries one `pdb_ids` entry per selected structure |
| Controller.SelectionReachesScriptRoute | static/app.js:191 | a selection of upper-case identifiers reaches the script route unchanged, with the first selected as reference |
| Controller.Rmsd | static/app.js:126-134 | a non-empty array without `null` entries is listed, entry for entry; a non-empty string, an object whose `length` converts to a positive number, and a list with a `null` entry raise (the first two with the missing-`forEach` error, the last with the null-read error); anything else shows nothing |
| Controller.ObjectLengthThrows | static/app.js:126-130 | an object whose `length` is `1`, `"1"`, `true` or `[1]` passes the guard, and its missing `forEach` raises |
| Controller.OtherResultsShapes | static/app.js:126-131 | a non-numeric or missing `length` shows nothing; a `null` entry in a list raises when its `structure` is read |
| Controller.Legend | static/app.js:112-123 | the legend is present iff `colors` is truthy in JavaScript |
| Controller.SessionOutcome | static/app.js:108-178 | a transport error gives the connection frame and a refusal the error frame; on success the session view appears unless the RMSD block raises, in which case the connection frame shows the raised error; the view lists the selection, with the legend iff `colors` is truthy and the RMSD list, holding the array's entries, iff `alignment_results` is a non-empty array |
| Controller.SectionsIndependent | static/app_clean.js:84-106 | changing `colors` leaves the RMSD block alone, and changing `alignment_results` leaves the legend alone |
| Controller.ScriptOutcome | static/app.js:196-244 | the script view appears iff the reply succeeded, with the page's own commands for the selection and the server's reference; otherwise the error frame |
| Controller.LaunchOutcome | static/app.js:276-375 | launched shows the success view with its legend; not launched shows the fallback with the download link and the default hint when `error_details` is falsy; failures show the error frames |
| Controller.NotLaunchedIsNoError | static/app.js:328-363 | a successful reply that did not launch is never shown as an error |
| Controller.SearchOutcome | static/app.js:463-475 | the count message appears iff the search succeeded; otherwise the error or connection frame |
| Controller.ExportOutcome | static/app.js:538-549 | the export message appears iff the export succeeded; otherwise the export-error or connection frame |
| Controller.ExportNavigation | static/app.js:539 | the page navigates to the download URL iff the export succeeded |
| Controller.Page.constructor | static/app.js:1-3 | no results, an empty selection, an empty table, no message |
| Controller.Page.ToggleProtein | static/app.js:37-44 | the selection flips one identifier; every selected identifier still has a checkbox when the toggled one has |
| Controller.Page.ToggleSelectAll | static/app.js:21-35 | the selection gains or loses exactly the visible checkbox values |
| Controller.Page.ClearSelection | static/app.js:46-51 | the selection is empty afterwards |
| Controller.Page.DisplayResults | static/app.js:479-519 | the table is rebuilt from the list and shown; the count is updated only for a non-empty list |
| Controller.Page.Search | static/app.js:416-477 | the form's payload is sent and the selection cleared whatever the outcome; results, table and count are replaced only on success |
| Controller.Page.ShowSearchReply | static/app_clean.js:210-225 | the message follows the reply; results are replaced only on success |
| Controller.Page.ExportResults | static/app_clean.js:264-293 | with no results an alert and no request; otherwise the results are sent and the outcome shown |
| Controller.Page.CreateAlignmentSession | static/app_clean.js:52-151 | with fewer than two selected an alert and no request; otherwise the selection is sent in order and the session outcome shown |
| Controller.Page.ExportScript | static/app.js:180-245 | the same guard; otherwise the selection is sent and the script view shown |
| Controller.Page.AlignInPyMOL | static/app.js:247-376 | the same guard; otherwise the selection is sent and the launch outcome shown |

## Left out

- HTML and DOM: markup, styling, spinners, `scrollIntoView`, checkbox `checked` states and the
  `alert`/`confirm` texts. Views are datatypes and alerts are a list of kinds.
- Asynchrony: each handler runs to the end of its `await`, with the reply as a parameter.
  Overlapping requests are not modelled; the code has no guard against them.
- `launchAlignment`, `openInPyMOL`, `switchTab` and the Enter-key listener
  (static/app.js:378-414, 552-582) are thin pass-throughs to the DOM and the network.
- The backend has no route for `/align_and_launch` or `/launch_alignment`. `alignInPyMOL` is
  modelled on the reply it expects.
- static/app.js:180-245 has no function header, so as written it is top-level code with a
  `return` and an `await` outside any function and does not parse. It is modelled as the
  script-export handler it evidently is (`Controller.Page.ExportScript`).
- Flask, sqlite, password hashing, sessions and `login_required`. Registration keeps only the
  checks that come before the database.
- File writes, `send_file`, temporary files and the PyMOL subprocess. The PyMOL session script
  embedded in `create_alignment_session` is also left out; its run is a parameter
  (`AlignRoute.PymolRun`).
- The RCSB HTTP calls: search replies and entry replies are parameters. The query bodies the
  search methods build are not modelled.
- The `/export` route body (pandas CSV writing).
- SearchRoute.Search: `float()` of a resolution is not modelled. A resolution or advanced search
  with unparsable resolution text fails in the source and succeeds in the model.
- The clock: the script header's date and the file-name stamp are parameters.
- Text.Upper: only ASCII letters are upper-cased; Unicode case mapping is not modelled.
- PyInt.ParseInt: underscores between digits and non-ASCII digits and spaces, which `int()`
  accepts, are not modelled.
- SequenceCounter.CountIsOccurrences: of Python's numeric hash collisions, only `True == 1` and
  `False == 0` are modelled.
- The colour map is a Dafny `map`: the key order `jsonify` produces is not modelled, and nor is
  the order the legend iterates `Object.entries` in.
- JavaScript template interpolation of non-string values (`pdb_count`, `count`): the raw
  decoded value is kept.
- Exception texts (`str(e)`, `error.message` other than the missing-`forEach` and null-read
  cases) are not modelled; a failing route is a constructor without text.
- Controller.Rmsd: the null-read message is V8's wording; other engines word it differently.
  StringToNumber's latitude to round a numeral of more than 20 significant digits is not
  modelled. It matters only for numerals within a relative 10^-19 of 2^-1075.
- PyInt.IntOf: a JSON number is held as the exact rational its text denotes, not as the
  nearest double. So `int()` of `2.99999999999999999`, which Python reads as `3.0`, gives 2 in
  the model. The same holds for `JsNumber.GreaterThanZero`, apart from underflow to zero,
  which it does model.
- SequenceCounter.Count: numbers compare exactly, so `0.1` and `0.10000000000000001`, which are
  the same double, are two keys in the model. Likewise SequenceCounter.MappingTotals sums
  exact rationals, not doubles, so rounding in `sum` is not modelled.
- The printed per-sequence lines of `afficher_resultats` and the CLI's progress messages.
- read_csv.py and hello.py (hard-coded plotting scripts), and the generated
  static/pymol_scripts files.
