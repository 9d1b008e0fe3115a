/**
 * The `/align_pymol` route of app.py: for two or more upper-cased identifiers it
 * writes a PyMOL script that fetches every structure, colours each from the
 * palette by position, aligns every structure after the first onto the first,
 * and answers with the script's file name, the reference and the colour map.
 * The two clock readings (the script header's date and the file name's stamp)
 * are parameters; the script text is the content of the file the route writes.
 * Also the reply `/create_alignment_session` builds around its PyMOL run.
 */
module AlignRoute {
  import opened Wrappers
  import opened PyJson
  import opened Text
  import opened Palette
  import Selection
  import ClientScript

  const Title := "# Script PyMOL - Alignement de structures"
  const LoadAllHeader := "# Charger toutes les structures"
  const CartoonHeader := "# Afficher en cartoon"
  const CenterHeader := "# Centrer et zoomer"
  const DisplayHeader := "# Paramètres d'affichage"
  const RmsdHeader := "# Afficher le RMSD dans la console"
  const LegendHeader := "# Légende des couleurs"
  /** The fixed lines between the align block and the RMSD prints. */
  const SettingsBlock: seq<string> :=
    ["", CenterHeader, "center", "zoom", "", DisplayHeader,
     "set cartoon_fancy_helices, 1", "set cartoon_fancy_sheets, 1", "bg_color white", "set seq_view, on",
     "", RmsdHeader]
  const TooFewMessage := "Veuillez sélectionner au moins 2 protéines pour l'alignement"

  /** The opening comment block. */
  function HeaderLines(ids: seq<string>, generatedAt: string): seq<string> {
    [Title, "# Protéines: " + Join(", ", ids), "# Généré le: " + generatedAt, "", LoadAllHeader]
  }

  /** One synchronous `fetch` per identifier, in order. */
  function FetchLines(ids: seq<string>): seq<string> {
    if ids == [] then []
    else FetchLines(ids[..|ids| - 1]) + ["fetch " + ids[|ids| - 1] + ", async=0"]
  }

  /** One `align` line per identifier of `rest`, onto the reference. */
  function AlignLines(rest: seq<string>, reference: string): seq<string> {
    if rest == [] then []
    else AlignLines(rest[..|rest| - 1], reference) + ["align " + rest[|rest| - 1] + ", " + reference]
  }

  /** One RMSD `print` per identifier of `rest`. */
  function PrintLines(rest: seq<string>, reference: string): seq<string> {
    if rest == [] then []
    else PrintLines(rest[..|rest| - 1], reference) + ["print('RMSD " + reference + " vs " + rest[|rest| - 1] + ":')"]
  }

  /** One legend comment per identifier with its palette colour. */
  function LegendLines(ids: seq<string>): seq<string> {
    if ids == [] then []
    else
      var n := |ids| - 1;
      LegendLines(ids[..n]) + ["# " + ids[n] + ": " + ColorAt(n)]
  }

  /** The script, line by line, with the first identifier as the reference. */
  function ScriptLines(ids: seq<string>, generatedAt: string): seq<string>
    requires |ids| >= 2
  {
    var reference := ids[0];
    HeaderLines(ids, generatedAt) + FetchLines(ids)
    + ["", CartoonHeader] + ClientScript.ShowLines(ids)
    + ["", "# Alignement structural sur " + reference + " (référence)"] + AlignLines(ids[1..], reference)
    + SettingsBlock + PrintLines(ids[1..], reference)
    + ["", LegendHeader] + LegendLines(ids)
  }

  lemma {:induction false} FetchLinesAt(ids: seq<string>)
    ensures |FetchLines(ids)| == |ids|
    ensures forall i | 0 <= i < |ids| :: FetchLines(ids)[i] == "fetch " + ids[i] + ", async=0"
  {
    if ids != [] {
      var n := |ids| - 1;
      FetchLinesAt(ids[..n]);
      assert forall i | 0 <= i < n :: ids[..n][i] == ids[i];
    }
  }

  /** Every identifier after the first, and only those, is aligned onto the first, in order. */
  lemma {:induction false} AlignLinesAt(rest: seq<string>, reference: string)
    ensures |AlignLines(rest, reference)| == |rest|
    ensures forall k | 0 <= k < |rest| :: AlignLines(rest, reference)[k] == "align " + rest[k] + ", " + reference
  {
    if rest != [] {
      var n := |rest| - 1;
      AlignLinesAt(rest[..n], reference);
      assert forall k | 0 <= k < n :: rest[..n][k] == rest[k];
    }
  }

  /** The legend names every identifier with the colour its show block gave it. */
  lemma {:induction false} LegendLinesAt(ids: seq<string>)
    ensures |LegendLines(ids)| == |ids|
    ensures forall i | 0 <= i < |ids| :: LegendLines(ids)[i] == "# " + ids[i] + ": " + ColorAt(i)
  {
    if ids != [] {
      var n := |ids| - 1;
      LegendLinesAt(ids[..n]);
      assert forall i | 0 <= i < n :: ids[..n][i] == ids[i];
    }
  }

  /**
   * The alignment is by position, not by value: a repeated reference is aligned onto
   * itself here, whereas the page's own command text skips every copy of it. On a
   * selection without repeats the two align blocks agree line for line.
   */
  lemma {:induction false} AlignMatchesClientOnSelections(ids: seq<string>)
    requires |ids| >= 1 && Selection.Distinct(ids)
    ensures AlignLines(ids[1..], ids[0]) == ClientScript.AlignLines(ids, ids[0])
  {
    var r := ids[0];
    var others := Selection.Remove(ids, r);
    assert others == ids[1..] by {
      assert r !in ids[1..] by {
        assert forall k | 0 <= k < |ids| - 1 :: ids[1..][k] == ids[k + 1];
      }
    }
    var backend, client := AlignLines(ids[1..], r), ClientScript.AlignLines(ids, r);
    ClientScript.AlignLinesForOthers(ids, r);
    AlignLinesAt(ids[1..], r);
    assert |backend| == |client|;
    forall k | 0 <= k < |backend|
      ensures backend[k] == client[k]
    {
      assert client[k] == "align " + others[k] + ", " + r;
    }
  }

  /** The counterexample to value-based alignment: `["1ABC", "1ABC"]` aligns the reference onto itself. */
  lemma RepeatedReferenceIsAligned()
    ensures "align 1ABC, 1ABC" in AlignLines(["1ABC", "1ABC"][1..], "1ABC")
    ensures ClientScript.AlignLines(["1ABC", "1ABC"], "1ABC") == []
  {
    var ids := ["1ABC", "1ABC"];
    assert ids[1..] == ["1ABC"];
    assert ["1ABC"][..0] == [];
    assert AlignLines(["1ABC"], "1ABC") == ["align " + "1ABC" + ", " + "1ABC"];
    assert "align " + "1ABC" + ", " + "1ABC" == "align 1ABC, 1ABC";
    assert ids[..1] == ["1ABC"];
    assert ids[..1][..0] == [];
  }

  // ---------------------------------------------------------------------------
  // The loops that write the script.

  /** `for pdb_id in pdb_ids: script_content += f"fetch {pdb_id}, async=0\n"`. */
  method AppendFetchLines(text: string, ids: seq<string>, ghost done: seq<string>) returns (r: string)
    requires text == Terminated(done)
    ensures r == Terminated(done + FetchLines(ids))
  {
    r := text;
    assert ids[..0] == [] && done + [] == done;
    for i := 0 to |ids|
      invariant r == Terminated(done + FetchLines(ids[..i]))
    {
      var line := "fetch " + ids[i] + ", async=0";
      assert ids[..i + 1][..i] == ids[..i];
      assert done + FetchLines(ids[..i + 1]) == (done + FetchLines(ids[..i])) + [line];
      TerminatedSnoc(done + FetchLines(ids[..i]), line);
      r := r + line + "\n";
    }
    assert ids[..|ids|] == ids;
  }

  /** `for pdb_id in pdb_ids[1:]: script_content += f"align {pdb_id}, {reference}\n"`. */
  method AppendAlignLines(text: string, rest: seq<string>, reference: string, ghost done: seq<string>)
    returns (r: string)
    requires text == Terminated(done)
    ensures r == Terminated(done + AlignLines(rest, reference))
  {
    r := text;
    assert rest[..0] == [] && done + [] == done;
    for i := 0 to |rest|
      invariant r == Terminated(done + AlignLines(rest[..i], reference))
    {
      var line := "align " + rest[i] + ", " + reference;
      assert rest[..i + 1][..i] == rest[..i];
      assert done + AlignLines(rest[..i + 1], reference) == (done + AlignLines(rest[..i], reference)) + [line];
      TerminatedSnoc(done + AlignLines(rest[..i], reference), line);
      r := r + line + "\n";
    }
    assert rest[..|rest|] == rest;
  }

  /** The loop writing one RMSD `print` per aligned structure. */
  method AppendPrintLines(text: string, rest: seq<string>, reference: string, ghost done: seq<string>)
    returns (r: string)
    requires text == Terminated(done)
    ensures r == Terminated(done + PrintLines(rest, reference))
  {
    r := text;
    assert rest[..0] == [] && done + [] == done;
    for i := 0 to |rest|
      invariant r == Terminated(done + PrintLines(rest[..i], reference))
    {
      var line := "print('RMSD " + reference + " vs " + rest[i] + ":')";
      assert rest[..i + 1][..i] == rest[..i];
      assert done + PrintLines(rest[..i + 1], reference) == (done + PrintLines(rest[..i], reference)) + [line];
      TerminatedSnoc(done + PrintLines(rest[..i], reference), line);
      r := r + line + "\n";
    }
    assert rest[..|rest|] == rest;
  }

  /** The loop writing the colour legend, `colors[i % len(colors)]` for position `i`. */
  method AppendLegendLines(text: string, ids: seq<string>, ghost done: seq<string>) returns (r: string)
    requires text == Terminated(done)
    ensures r == Terminated(done + LegendLines(ids))
  {
    r := text;
    assert ids[..0] == [] && done + [] == done;
    for i := 0 to |ids|
      invariant r == Terminated(done + LegendLines(ids[..i]))
    {
      var color := Colors[i % |Colors|];
      var line := "# " + ids[i] + ": " + color;
      assert ids[..i + 1][..i] == ids[..i];
      assert done + LegendLines(ids[..i + 1]) == (done + LegendLines(ids[..i])) + [line];
      TerminatedSnoc(done + LegendLines(ids[..i]), line);
      r := r + line + "\n";
    }
    assert ids[..|ids|] == ids;
  }

  /** The header f-string: five terminated lines, the fourth one blank. */
  lemma HeaderText(a: string, b: string, c: string, e: string)
    ensures Terminated([a, b, c, "", e]) == a + "\n" + b + "\n" + c + "\n" + "\n" + e + "\n"
  {
    TerminatedBlankThen([a, b, c], e);
    TerminatedSnoc([a, b], c);
    TerminatedSnoc([a], b);
    TerminatedSnoc([], a);
    assert [] + [a] == [a];
    assert [a] + [b] == [a, b];
    assert [a, b] + [c] == [a, b, c];
    assert [a, b, c] + ["", e] == [a, b, c, "", e];
  }

  /** The script text `align_pymol` writes, built the way the route builds it. */
  method WriteScript(ids: seq<string>, generatedAt: string) returns (script: string)
    requires |ids| >= 2
    ensures script == Terminated(ScriptLines(ids, generatedAt))
  {
    var proteinsLine := "# Protéines: " + Join(", ", ids);
    var dateLine := "# Généré le: " + generatedAt;
    HeaderText(Title, proteinsLine, dateLine, LoadAllHeader);
    script := Title + "\n" + proteinsLine + "\n" + dateLine + "\n" + "\n" + LoadAllHeader + "\n";
    ghost var done := HeaderLines(ids, generatedAt);
    script := AppendFetchLines(script, ids, done);
    done := done + FetchLines(ids);

    TerminatedBlankThen(done, CartoonHeader);
    script := script + "\n" + CartoonHeader + "\n";
    done := done + ["", CartoonHeader];
    script := ClientScript.AppendShowLines(script, ids, done);
    done := done + ClientScript.ShowLines(ids);

    var reference := ids[0];
    var alignHeader := "# Alignement structural sur " + reference + " (référence)";
    TerminatedBlankThen(done, alignHeader);
    script := script + "\n" + alignHeader + "\n";
    done := done + ["", alignHeader];
    script := AppendAlignLines(script, ids[1..], reference, done);
    done := done + AlignLines(ids[1..], reference);

    script := AppendSettings(script, done);
    done := done + SettingsBlock;
    script := AppendPrintLines(script, ids[1..], reference, done);
    done := done + PrintLines(ids[1..], reference);

    TerminatedBlankThen(done, LegendHeader);
    script := script + "\n" + LegendHeader + "\n";
    done := done + ["", LegendHeader];
    script := AppendLegendLines(script, ids, done);
    done := done + LegendLines(ids);
    assert done == ScriptLines(ids, generatedAt);
  }

  /** The fixed statements between the align loop and the RMSD loop. */
  method AppendSettings(text: string, ghost done: seq<string>) returns (r: string)
    requires text == Terminated(done)
    ensures r == Terminated(done + SettingsBlock)
  {
    r := AppendView(text, done);
    r := AppendDisplay(r, done + SettingsBlock[..6]);
    assert done + SettingsBlock[..6] + SettingsBlock[6..] == done + SettingsBlock;
  }

  /** The centring statements, under their heading. */
  method AppendView(text: string, ghost done: seq<string>) returns (r: string)
    requires text == Terminated(done)
    ensures r == Terminated(done + SettingsBlock[..6])
  {
    ghost var d := done;
    TerminatedBlankThen(d, CenterHeader);
    r := text + "\n" + CenterHeader + "\n";
    d := d + ["", CenterHeader];
    TerminatedSnoc2(d, "center", "zoom");
    r := r + "center" + "\n" + "zoom" + "\n";
    d := d + ["center", "zoom"];
    TerminatedBlankThen(d, DisplayHeader);
    r := r + "\n" + DisplayHeader + "\n";
    d := d + ["", DisplayHeader];
    assert d == done + SettingsBlock[..6];
  }

  /** The display settings and the RMSD heading. */
  method AppendDisplay(text: string, ghost done: seq<string>) returns (r: string)
    requires text == Terminated(done)
    ensures r == Terminated(done + SettingsBlock[6..])
  {
    ghost var d := done;
    TerminatedSnoc2(d, "set cartoon_fancy_helices, 1", "set cartoon_fancy_sheets, 1");
    r := text + "set cartoon_fancy_helices, 1" + "\n" + "set cartoon_fancy_sheets, 1" + "\n";
    d := d + ["set cartoon_fancy_helices, 1", "set cartoon_fancy_sheets, 1"];
    TerminatedSnoc2(d, "bg_color white", "set seq_view, on");
    r := r + "bg_color white" + "\n" + "set seq_view, on" + "\n";
    d := d + ["bg_color white", "set seq_view, on"];
    TerminatedBlankThen(d, RmsdHeader);
    r := r + "\n" + RmsdHeader + "\n";
    d := d + ["", RmsdHeader];
    assert d == done + SettingsBlock[6..];
  }

  // ---------------------------------------------------------------------------
  // The colour map and the route's reply.

  /** `{pdb_ids[i]: colors[i % len(colors)] for i in range(len(pdb_ids))}`: a later repeat overwrites. */
  function ColorMap(ids: seq<string>): (m: map<string, string>)
    ensures m.Keys == Selection.Elems(ids)
  {
    if ids == [] then map[]
    else
      var n := |ids| - 1;
      assert ids == ids[..n] + [ids[n]];
      ColorMap(ids[..n])[ids[n] := ColorAt(n)]
  }

  /** Each identifier's colour is the palette colour of its last position. */
  lemma {:induction false} ColorMapLastPosition(ids: seq<string>, i: nat)
    requires i < |ids| && forall j | i < j < |ids| :: ids[j] != ids[i]
    ensures ColorMap(ids)[ids[i]] == ColorAt(i)
  {
    var n := |ids| - 1;
    if i < n {
      assert ids[..n][i] == ids[i];
      ColorMapLastPosition(ids[..n], i);
    }
  }

  /** Without repeats, identifier `i` is mapped to palette colour `i % 8`, as its show block paints it. */
  lemma ColorMapOfSelection(ids: seq<string>)
    requires Selection.Distinct(ids)
    ensures forall i | 0 <= i < |ids| :: ColorMap(ids)[ids[i]] == ColorAt(i)
  {
    forall i | 0 <= i < |ids|
      ensures ColorMap(ids)[ids[i]] == ColorAt(i)
    {
      ColorMapLastPosition(ids, i);
    }
  }

  /** `"-".join(pdb_ids[:3])`: at most three identifiers name the file. */
  function FirstThree(ids: seq<string>): (r: seq<string>)
    ensures |r| == if |ids| < 3 then |ids| else 3
    ensures r == ids[..|r|]
  {
    if |ids| < 3 then ids else ids[..3]
  }

  datatype AlignResponse =
    | AlignOk(filename: string, downloadUrl: string, pdbCount: nat, reference: string,
              pdbIds: seq<string>, colors: map<string, string>, script: string)
    | AlignRejected(error: string)     // fewer than two identifiers: the fixed message
    | AlignFailed                      // an exception; its text is not modelled

  predicate AllStrings(xs: seq<Json>) {
    forall i | 0 <= i < |xs| :: xs[i].JStr?
  }

  function UpperAll(xs: seq<Json>): (r: seq<string>)
    requires AllStrings(xs)
    ensures |r| == |xs| && forall i | 0 <= i < |xs| :: r[i] == Upper(xs[i].s)
  {
    seq(|xs|, i requires 0 <= i < |xs| => Upper(xs[i].s))
  }

  /** What `len` counts and the comprehension visits in the request's `pdb_ids` (default `[]`). */
  function RequestItems(data: Json): Option<seq<Json>>
    requires data.JObj?
  {
    Elements(GetOr(data, "pdb_ids", JArr([])))
  }

  /** A request both routes go on with: at least two identifiers, all of them strings. */
  predicate Accepted(data: Json) {
    && data.JObj? && RequestItems(data).Some?
    && |RequestItems(data).value| >= 2 && AllStrings(RequestItems(data).value)
  }

  /** The route, for a decoded request body and the two clock readings. */
  function AlignPymol(data: Json, generatedAt: string, stamp: string): (r: AlignResponse)
    ensures !data.JObj? ==> r == AlignFailed
    ensures data.JObj? && RequestItems(data).None? ==> r == AlignFailed
    ensures data.JObj? && RequestItems(data).Some? && |RequestItems(data).value| < 2 ==>
              r == AlignRejected(TooFewMessage)
    ensures r.AlignOk? <==> Accepted(data)
    ensures r.AlignOk? ==>
              && r.pdbIds == UpperAll(RequestItems(data).value) && |r.pdbIds| >= 2
              && r.pdbCount == |r.pdbIds| && r.reference == r.pdbIds[0]
              && r.colors == ColorMap(r.pdbIds)
              && r.script == Terminated(ScriptLines(r.pdbIds, generatedAt))
              && r.filename == "align_" + Join("-", FirstThree(r.pdbIds)) + "_" + stamp + ".pml"
              && r.downloadUrl == "/download_pymol_script/" + r.filename
  {
    if !data.JObj? then AlignFailed
    else
      var xs := RequestItems(data);
      if xs.None? then AlignFailed
      else if |xs.value| < 2 then AlignRejected(TooFewMessage)
      else if !AllStrings(xs.value) then AlignFailed
      else
        var ids := UpperAll(xs.value);
        var filename := "align_" + Join("-", FirstThree(ids)) + "_" + stamp + ".pml";
        AlignOk(filename, "/download_pymol_script/" + filename, |ids|, ids[0], ids, ColorMap(ids),
                Terminated(ScriptLines(ids, generatedAt)))
  }

  /** Fewer than two identifiers are refused with the fixed message, whatever they are. */
  lemma FewerThanTwoRejected(data: Json, generatedAt: string, stamp: string)
    requires data.JObj? && HasKey(data, "pdb_ids") && Field(data, "pdb_ids").JArr?
    requires |Field(data, "pdb_ids").items| < 2
    ensures AlignPymol(data, generatedAt, stamp) == AlignRejected(TooFewMessage)
  {
  }

  /**
   * For the page's request (a list of distinct upper-case identifiers) the reply
   * keeps the list, takes the first as reference, colours identifier `i` with palette
   * colour `i % 8`, and its script's align block aligns exactly the others onto the
   * reference, in the page's order, as the page's own commands do.
   */
  lemma SelectionReply(data: Json, ids: seq<string>, generatedAt: string, stamp: string)
    requires |ids| >= 2 && Selection.Distinct(ids) && forall i | 0 <= i < |ids| :: Upper(ids[i]) == ids[i]
    requires data.JObj? && GetOr(data, "pdb_ids", JArr([])) == JArr(seq(|ids|, i requires 0 <= i < |ids| => JStr(ids[i])))
    ensures var r := AlignPymol(data, generatedAt, stamp);
            && r.AlignOk? && r.pdbIds == ids && r.reference == ids[0]
            && (forall i | 0 <= i < |ids| :: r.colors[ids[i]] == ColorAt(i))
            && r.script == Terminated(ScriptLines(ids, generatedAt))
            && AlignLines(ids[1..], ids[0]) == ClientScript.AlignLines(ids, ids[0])
  {
    SelectionAccepted(data, ids);
    var r := AlignPymol(data, generatedAt, stamp);
    assert r.pdbIds == ids;
    assert r.script == Terminated(ScriptLines(ids, generatedAt));
    ColorMapOfSelection(ids);
    AlignMatchesClientOnSelections(ids);
  }

  /** The page's request passes both routes' checks and upper-casing leaves it unchanged. */
  lemma SelectionAccepted(data: Json, ids: seq<string>)
    requires |ids| >= 2 && forall i | 0 <= i < |ids| :: Upper(ids[i]) == ids[i]
    requires data.JObj? && GetOr(data, "pdb_ids", JArr([])) == JArr(seq(|ids|, i requires 0 <= i < |ids| => JStr(ids[i])))
    ensures Accepted(data) && UpperAll(RequestItems(data).value) == ids
  {
    var xs := seq(|ids|, i requires 0 <= i < |ids| => JStr(ids[i]));
    assert RequestItems(data) == Some(xs);
    assert AllStrings(xs);
  }

  // ---------------------------------------------------------------------------
  // /create_alignment_session: the reply around the PyMOL run.

  /** What the PyMOL run left behind (the run itself is not modelled). */
  datatype PymolRun =
    | Report(report: Json, sessionSaved: bool)   // the results file was written
    | NoReport(sessionSaved: bool)                // no results file
    | TimedOut                                    // the 60-second timeout expired

  datatype SessionResponse =
    | SessionOk(filename: string, downloadUrl: string, pdbCount: nat, reference: string,
                pdbIds: seq<string>, colors: map<string, string>, alignmentResults: Json)
    | SessionError(error: Json)
    | SessionFailed                               // any other exception; its text is not modelled

  const NoSessionFile := JStr("Le fichier de session n'a pas été créé")
  const RunFailed := JStr("Échec de la création de la session PyMOL")
  const UnknownError := JStr("Erreur inconnue lors de la création de la session")
  const Timeout := JStr("Timeout: La création de la session PyMOL a pris trop de temps (>60s)")

  /** The route's reply for a request body, the run's outcome and the clock's stamp. */
  function CreateAlignmentSession(data: Json, run: PymolRun, stamp: string): (r: SessionResponse)
    ensures !data.JObj? ==> r == SessionFailed
    ensures data.JObj? && RequestItems(data).None? ==> r == SessionFailed
    ensures data.JObj? && RequestItems(data).Some? && |RequestItems(data).value| < 2 ==>
              r == SessionError(JStr(TooFewMessage))
    ensures r.SessionOk? ==> Accepted(data)
    ensures r.SessionOk? ==>
              && r.pdbIds == UpperAll(RequestItems(data).value) && |r.pdbIds| >= 2
              && r.pdbCount == |r.pdbIds| && r.reference == r.pdbIds[0]
              && r.colors == ColorMap(r.pdbIds)
              && r.filename == "alignment_" + Join("_", FirstThree(r.pdbIds)) + "_" + stamp + ".pse"
              && r.downloadUrl == "/download_session/" + r.filename
    ensures Accepted(data) && run.TimedOut? ==> r == SessionError(Timeout)
    ensures Accepted(data) && run.NoReport? ==>
              if run.sessionSaved then r.SessionOk? && r.alignmentResults == JArr([])
              else r == SessionError(RunFailed)
    ensures Accepted(data) && run.Report? ==>
              (r.SessionOk? <==>
                 run.report.JObj? && Truthy(GetOr(run.report, "success", JBool(false))) && run.sessionSaved)
    ensures Accepted(data) && run.Report? && run.report.JObj? ==>
              && (!Truthy(GetOr(run.report, "success", JBool(false))) ==>
                    r == SessionError(GetOr(run.report, "error", UnknownError)))
              && (Truthy(GetOr(run.report, "success", JBool(false))) && !run.sessionSaved ==>
                    r == SessionError(NoSessionFile))
              && (r.SessionOk? ==> r.alignmentResults == GetOr(run.report, "alignment_results", JArr([])))
    ensures Accepted(data) && run.Report? && !run.report.JObj? ==> r == SessionFailed
  {
    if !data.JObj? then SessionFailed
    else
      var xs := RequestItems(data);
      if xs.None? then SessionFailed
      else if |xs.value| < 2 then SessionError(JStr(TooFewMessage))
      else if !AllStrings(xs.value) then SessionFailed
      else
        var ids := UpperAll(xs.value);
        var filename := "alignment_" + Join("_", FirstThree(ids)) + "_" + stamp + ".pse";
        var ok := (results: Json) =>
          SessionOk(filename, "/download_session/" + filename, |ids|, ids[0], ids, ColorMap(ids), results);
        match run
        case TimedOut => SessionError(Timeout)
        case NoReport(saved) => if saved then ok(JArr([])) else SessionError(RunFailed)
        case Report(report, saved) =>
          if !report.JObj? then SessionFailed
          else if !Truthy(GetOr(report, "success", JBool(false))) then SessionError(GetOr(report, "error", UnknownError))
          else if !saved then SessionError(NoSessionFile)
          else ok(GetOr(report, "alignment_results", JArr([])))
  }
}
