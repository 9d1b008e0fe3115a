/**
 * `generatePyMOLCommands` of static/app.js: the PyMOL command text shown for manual
 * copy next to a downloadable alignment script. It is specified line by line
 * (`ScriptLines`); the text is those lines joined by newlines (`PyMOLCommands`);
 * the loop method `GeneratePyMOLCommands` builds the text the way the source does.
 */
module ClientScript {
  import opened Text
  import opened Palette
  import Selection

  const LoadHeader := "# Charger les structures"
  const ShowHeader := "# Afficher et colorer"
  const DisplayHeader := "# Paramètres d'affichage"

  /** The fixed closing block, written unconditionally. */
  const Trailer: seq<string> :=
    ["", DisplayHeader, "center", "zoom", "set cartoon_fancy_helices, 1", "set cartoon_fancy_sheets, 1", "bg_color white"]

  /** One `fetch <id>` line per identifier, in input order. */
  function FetchLines(ids: seq<string>): seq<string> {
    if ids == [] then []
    else FetchLines(ids[..|ids| - 1]) + ["fetch " + ids[|ids| - 1]]
  }

  /** One `show cartoon` / `color` pair per identifier. */
  function ShowLines(ids: seq<string>): seq<string> {
    if ids == [] then []
    else
      var n := |ids| - 1;
      ShowLines(ids[..n]) + ["show cartoon, " + ids[n], "color " + ColorAt(n) + ", " + ids[n]]
  }

  /** Line `i` of the fetch block fetches `ids[i]`: one line per identifier, in input order. */
  lemma {:induction false} FetchLinesAt(ids: seq<string>)
    ensures |FetchLines(ids)| == |ids|
    ensures forall i | 0 <= i < |ids| :: FetchLines(ids)[i] == "fetch " + ids[i]
  {
    if ids != [] {
      var n := |ids| - 1;
      FetchLinesAt(ids[..n]);
      assert forall i | 0 <= i < n :: ids[..n][i] == ids[i];
    }
  }

  /**
   * Lines `2i` and `2i + 1` of the show block display `ids[i]` as a cartoon and paint it
   * with palette colour `i % 8`.
   */
  lemma {:induction false} ShowLinesAt(ids: seq<string>)
    ensures |ShowLines(ids)| == 2 * |ids|
    ensures forall i | 0 <= i < |ids| ::
              ShowLines(ids)[2 * i] == "show cartoon, " + ids[i] &&
              ShowLines(ids)[2 * i + 1] == "color " + ColorAt(i) + ", " + ids[i]
  {
    if ids != [] {
      var n := |ids| - 1;
      var prefix, S := ShowLines(ids[..n]), ShowLines(ids);
      ShowLinesAt(ids[..n]);
      assert S == prefix + ["show cartoon, " + ids[n], "color " + ColorAt(n) + ", " + ids[n]];
      forall i | 0 <= i < |ids|
        ensures S[2 * i] == "show cartoon, " + ids[i] && S[2 * i + 1] == "color " + ColorAt(i) + ", " + ids[i]
      {
        if i < n {
          assert ids[..n][i] == ids[i];
          assert S[2 * i] == prefix[2 * i] && S[2 * i + 1] == prefix[2 * i + 1];
        }
      }
    }
  }

  /** One `align <id>, <reference>` line per identifier that is not the reference. */
  function AlignLines(ids: seq<string>, reference: string): seq<string> {
    if ids == [] then []
    else
      var n := |ids| - 1;
      AlignLines(ids[..n], reference) + (if ids[n] != reference then ["align " + ids[n] + ", " + reference] else [])
  }

  lemma TerminatedPair(a: string, b: string)
    ensures Terminated([a, b]) == a + "\n" + b + "\n"
  {
    assert [a, b][1..] == [b];
    assert Terminated([b]) == b + "\n" + Terminated([]);
  }

  /** The script, line by line. */
  function ScriptLines(ids: seq<string>, reference: string): seq<string> {
    [LoadHeader] + FetchLines(ids)
    + ["", ShowHeader] + ShowLines(ids)
    + ["", "# Aligner sur " + reference] + AlignLines(ids, reference)
    + Trailer
  }

  /** `generatePyMOLCommands(ids, reference)`: the lines separated by newlines, no newline at the end. */
  function PyMOLCommands(ids: seq<string>, reference: string): string {
    Lines(ScriptLines(ids, reference))
  }

  /** The text is exactly the script's lines joined with newlines. */
  lemma CommandsAreJoinedLines(ids: seq<string>, reference: string)
    ensures PyMOLCommands(ids, reference) == Join("\n", ScriptLines(ids, reference))
  {
    JoinIsLines(ScriptLines(ids, reference));
  }

  lemma {:induction false} RemoveSnoc(s: seq<string>, x: string, r: string)
    ensures Selection.Remove(s + [x], r) == Selection.Remove(s, r) + (if x != r then [x] else [])
  {
    if s != [] {
      assert (s + [x])[1..] == s[1..] + [x];
      RemoveSnoc(s[1..], x, r);
    }
  }

  /**
   * The align lines are, in order, one `align x, reference` for each identifier `x`
   * left once every occurrence of the reference is dropped.
   */
  lemma {:induction false} AlignLinesForOthers(ids: seq<string>, reference: string)
    ensures var others := Selection.Remove(ids, reference);
            |AlignLines(ids, reference)| == |others| &&
            forall k | 0 <= k < |others| :: AlignLines(ids, reference)[k] == "align " + others[k] + ", " + reference
  {
    if ids != [] {
      var n := |ids| - 1;
      assert ids == ids[..n] + [ids[n]];
      AlignLinesForOthers(ids[..n], reference);
      RemoveSnoc(ids[..n], ids[n], reference);
    }
  }

  lemma AlignLineInjective(x: string, y: string, reference: string)
    requires "align " + x + ", " + reference == "align " + y + ", " + reference
    ensures x == y
  {
    var a, b := "align " + x + ", " + reference, "align " + y + ", " + reference;
    assert |x| == |y|;
    forall k | 0 <= k < |x| ensures x[k] == y[k] {
      assert a[6 + k] == x[k] && b[6 + k] == y[k];
    }
  }

  /** The reference is never aligned onto itself. */
  lemma NoSelfAlignment(ids: seq<string>, reference: string)
    ensures "align " + reference + ", " + reference !in AlignLines(ids, reference)
  {
    AlignLinesForOthers(ids, reference);
    var others := Selection.Remove(ids, reference);
    assert reference !in Selection.Elems(others);
    if "align " + reference + ", " + reference in AlignLines(ids, reference) {
      var k :| 0 <= k < |others| && AlignLines(ids, reference)[k] == "align " + reference + ", " + reference;
      AlignLineInjective(others[k], reference, reference);
      assert false;
    }
  }

  /** For a selection (no duplicates) that contains the reference, exactly n - 1 align lines. */
  lemma AlignCountForSelection(ids: seq<string>, reference: string)
    requires Selection.Distinct(ids) && reference in ids
    ensures |AlignLines(ids, reference)| == |ids| - 1
  {
    AlignLinesForOthers(ids, reference);
    var others := Selection.Remove(ids, reference);
    Selection.DistinctCard(ids);
    Selection.DistinctCard(others);
    assert Selection.Elems(others) == Selection.Elems(ids) - {reference};
  }

  /** The script's length: one line per block line, two per blank-and-heading pair. */
  lemma ScriptLength(ids: seq<string>, reference: string)
    ensures |ScriptLines(ids, reference)| == 1 + |ids| + 2 + 2 * |ids| + 2 + |AlignLines(ids, reference)| + |Trailer|
  {
    FetchLinesAt(ids);
    ShowLinesAt(ids);
  }

  /** The script opens with the load heading and the fetch line of `ids[i]` sits at `1 + i`. */
  lemma ScriptFetchLayout(ids: seq<string>, reference: string)
    ensures var L := ScriptLines(ids, reference);
            |L| > |ids| && L[0] == LoadHeader &&
            forall i | 0 <= i < |ids| :: L[1 + i] == "fetch " + ids[i]
  {
    var F := FetchLines(ids);
    FetchLinesAt(ids);
    var L := ScriptLines(ids, reference);
    var rest := ["", ShowHeader] + ShowLines(ids) + ["", "# Aligner sur " + reference] + AlignLines(ids, reference) + Trailer;
    assert L == [LoadHeader] + F + rest;
  }

  /** The show/colour pair of `ids[i]` sits at `3 + n + 2i` and `4 + n + 2i`. */
  lemma ScriptShowLayout(ids: seq<string>, reference: string)
    ensures var L, n := ScriptLines(ids, reference), |ids|;
            |L| > 3 * n + 2 &&
            forall i | 0 <= i < n :: L[3 + n + 2 * i] == "show cartoon, " + ids[i]
                                  && L[4 + n + 2 * i] == "color " + ColorAt(i) + ", " + ids[i]
  {
    var n, S := |ids|, ShowLines(ids);
    FetchLinesAt(ids);
    ShowLinesAt(ids);
    var head := [LoadHeader] + FetchLines(ids) + ["", ShowHeader];
    var rest := ["", "# Aligner sur " + reference] + AlignLines(ids, reference) + Trailer;
    var L := ScriptLines(ids, reference);
    assert L == head + S + rest;
    assert |head| == 3 + n;
    forall i | 0 <= i < n
      ensures L[3 + n + 2 * i] == S[2 * i] && L[4 + n + 2 * i] == S[2 * i + 1]
    {
      IndexInMiddle(head, S, rest, 2 * i);
      IndexInMiddle(head, S, rest, 2 * i + 1);
    }
  }

  lemma IndexInMiddle(head: seq<string>, middle: seq<string>, tail: seq<string>, k: nat)
    requires k < |middle|
    ensures (head + middle + tail)[|head| + k] == middle[k]
  {
  }

  /** The script always ends with the fixed display-settings block. */
  lemma ScriptEndsWithTrailer(ids: seq<string>, reference: string)
    ensures var L := ScriptLines(ids, reference);
            |L| >= |Trailer| && L[|L| - |Trailer|..] == Trailer
  {
    var L := ScriptLines(ids, reference);
    var body := [LoadHeader] + FetchLines(ids) + ["", ShowHeader] + ShowLines(ids) + ["", "# Aligner sur " + reference] + AlignLines(ids, reference);
    assert L == body + Trailer;
  }

  /** Two identifiers eight positions apart are drawn in the same colour. */
  lemma NinthSharesFirstColor(ids: seq<string>, i: nat)
    requires i + 8 < |ids|
    ensures |ShowLines(ids)| == 2 * |ids|
    ensures ShowLines(ids)[2 * (i + 8) + 1] == "color " + ColorAt(i) + ", " + ids[i + 8]
  {
    ShowLinesAt(ids);
    ColorWraps(i);
  }

  /**
   * The example of two structures with the first as reference: two fetch lines, two
   * show/colour pairs, a single align line (for 2XYZ) and the fixed trailer.
   */
  lemma TwoStructureExample()
    ensures ScriptLines(["1ABC", "2XYZ"], "1ABC") ==
      ["# Charger les structures"] + ["fetch 1ABC", "fetch 2XYZ"]
      + ["", "# Afficher et colorer"]
      + ["show cartoon, 1ABC", "color cyan, 1ABC", "show cartoon, 2XYZ", "color magenta, 2XYZ"]
      + ["", "# Aligner sur 1ABC"] + ["align 2XYZ, 1ABC"]
      + ["", "# Paramètres d'affichage", "center", "zoom",
         "set cartoon_fancy_helices, 1", "set cartoon_fancy_sheets, 1", "bg_color white"]
  {
    var ids := ["1ABC", "2XYZ"];
    var F := FetchLines(ids);
    FetchLinesAt(ids);
    assert F[0] == "fetch 1ABC" && F[1] == "fetch 2XYZ";
    assert F == ["fetch 1ABC", "fetch 2XYZ"];
    ExampleShowLines();
    ExampleAlignLines();
    assert "# Aligner sur " + "1ABC" == "# Aligner sur 1ABC";
    assert ScriptLines(ids, "1ABC") ==
      [LoadHeader] + F + ["", ShowHeader] + ShowLines(ids) + ["", "# Aligner sur 1ABC"] + AlignLines(ids, "1ABC") + Trailer;
  }

  lemma ExampleShowLines()
    ensures ShowLines(["1ABC", "2XYZ"]) == ["show cartoon, 1ABC", "color cyan, 1ABC", "show cartoon, 2XYZ", "color magenta, 2XYZ"]
  {
    var S := ShowLines(["1ABC", "2XYZ"]);
    ShowLinesAt(["1ABC", "2XYZ"]);
    assert ColorAt(0) == "cyan" && ColorAt(1) == "magenta";
    assert S[2 * 0] == "show cartoon, 1ABC" && S[2 * 0 + 1] == "color cyan, 1ABC";
    assert S[2 * 1] == "show cartoon, 2XYZ" && S[2 * 1 + 1] == "color magenta, 2XYZ";
  }

  lemma ExampleAlignLines()
    ensures AlignLines(["1ABC", "2XYZ"], "1ABC") == ["align 2XYZ, 1ABC"]
  {
    var ids := ["1ABC", "2XYZ"];
    assert ids[..1] == ["1ABC"] && ids[..1][..0] == [];
    assert AlignLines(ids[..1], "1ABC") == [];
    assert ids[1] != "1ABC";
    assert "align " + ids[1] + ", " + "1ABC" == "align 2XYZ, 1ABC";
  }

  /**
   * `generatePyMOLCommands` as written: a string grown with `+=`, one forEach loop per
   * block (the three helpers below). It computes `PyMOLCommands`, so two calls with the
   * same arguments return the same text.
   */
  method GeneratePyMOLCommands(ids: seq<string>, reference: string) returns (commands: string)
    ensures commands == PyMOLCommands(ids, reference)
  {
    commands := LoadHeader + "\n";
    assert commands == Terminated([LoadHeader]) by {
      assert Terminated([LoadHeader]) == LoadHeader + "\n" + Terminated([]);
    }
    commands := AppendFetchLines(commands, ids, [LoadHeader]);
    ghost var done := [LoadHeader] + FetchLines(ids);

    TerminatedSnoc2(done, "", ShowHeader);
    commands := commands + "\n" + ShowHeader + "\n";
    done := done + ["", ShowHeader];
    commands := AppendShowLines(commands, ids, done);
    done := done + ShowLines(ids);

    var heading := "# Aligner sur " + reference;
    TerminatedSnoc2(done, "", heading);
    commands := commands + "\n" + heading + "\n";
    done := done + ["", heading];
    commands := AppendAlignLines(commands, ids, reference, done);
    done := done + AlignLines(ids, reference);

    ClosingText(done);
    commands := commands + "\n" + DisplayHeader + "\n";
    commands := commands + "center\n" + "zoom\n" + "set cartoon_fancy_helices, 1\n" + "set cartoon_fancy_sheets, 1\n" + "bg_color white";
    assert done + Trailer == ScriptLines(ids, reference);
  }

  /** `pdbIds.forEach(id => { commands += `fetch ${id}\n`; })`. */
  method AppendFetchLines(commands: string, ids: seq<string>, ghost done: seq<string>) returns (r: string)
    requires commands == Terminated(done)
    ensures r == Terminated(done + FetchLines(ids))
  {
    r := commands;
    assert ids[..0] == [];
    assert done + [] == done;
    for i := 0 to |ids|
      invariant r == Terminated(done + FetchLines(ids[..i]))
    {
      var line := "fetch " + ids[i];
      assert ids[..i + 1][..i] == ids[..i];
      assert done + FetchLines(ids[..i + 1]) == (done + FetchLines(ids[..i])) + [line];
      TerminatedSnoc(done + FetchLines(ids[..i]), line);
      r := r + line + "\n";
    }
    assert ids[..|ids|] == ids;
  }

  /** The forEach writing `show cartoon, <id>` and `color <colour>, <id>` for each position. */
  method AppendShowLines(commands: string, ids: seq<string>, ghost done: seq<string>) returns (r: string)
    requires commands == Terminated(done)
    ensures r == Terminated(done + ShowLines(ids))
  {
    r := commands;
    assert ids[..0] == [];
    assert done + [] == done;
    for i := 0 to |ids|
      invariant r == Terminated(done + ShowLines(ids[..i]))
    {
      var color := Colors[i % |Colors|];
      var show, paint := "show cartoon, " + ids[i], "color " + color + ", " + ids[i];
      assert ids[..i + 1][..i] == ids[..i];
      assert done + ShowLines(ids[..i + 1]) == (done + ShowLines(ids[..i])) + [show, paint];
      TerminatedSnoc2(done + ShowLines(ids[..i]), show, paint);
      r := r + show + "\n" + paint + "\n";
    }
    assert ids[..|ids|] == ids;
  }

  /** The forEach writing `align <id>, <reference>` for each identifier other than the reference. */
  method AppendAlignLines(commands: string, ids: seq<string>, reference: string, ghost done: seq<string>) returns (r: string)
    requires commands == Terminated(done)
    ensures r == Terminated(done + AlignLines(ids, reference))
  {
    r := commands;
    assert ids[..0] == [];
    assert done + [] == done;
    for i := 0 to |ids|
      invariant r == Terminated(done + AlignLines(ids[..i], reference))
    {
      assert ids[..i + 1][..i] == ids[..i];
      if ids[i] != reference {
        var line := "align " + ids[i] + ", " + reference;
        assert done + AlignLines(ids[..i + 1], reference) == (done + AlignLines(ids[..i], reference)) + [line];
        TerminatedSnoc(done + AlignLines(ids[..i], reference), line);
        r := r + line + "\n";
      } else {
        assert AlignLines(ids[..i + 1], reference) == AlignLines(ids[..i], reference);
      }
    }
    assert ids[..|ids|] == ids;
  }

  lemma TerminatedFour(a: string, b: string, c: string, d: string)
    ensures Terminated([a, b, c, d]) == a + "\n" + b + "\n" + c + "\n" + d + "\n"
  {
    TerminatedSnoc2([a, b], c, d);
    TerminatedPair(a, b);
    assert [a, b] + [c, d] == [a, b, c, d];
  }

  lemma Reassociate(t: string, h: string, a: string, b: string, c: string, d: string, last: string)
    ensures (t + "" + "\n" + h + "\n") + (a + "\n" + b + "\n" + c + "\n" + d + "\n") + last
         == t + "\n" + h + "\n" + (a + "\n") + (b + "\n") + (c + "\n") + (d + "\n") + last
  {
  }

  /** The text the closing statements append equals the trailer written as the script's last lines. */
  lemma ClosingText(done: seq<string>)
    ensures Lines(done + Trailer) ==
      Terminated(done) + "\n" + DisplayHeader + "\n"
      + "center\n" + "zoom\n" + "set cartoon_fancy_helices, 1\n" + "set cartoon_fancy_sheets, 1\n" + "bg_color white"
  {
    var L := done + Trailer;
    var settings := ["center", "zoom", "set cartoon_fancy_helices, 1", "set cartoon_fancy_sheets, 1"];
    assert L[..|L| - 1] == (done + ["", DisplayHeader]) + settings;
    TerminatedAppend(done + ["", DisplayHeader], settings);
    TerminatedSnoc2(done, "", DisplayHeader);
    TerminatedFour(settings[0], settings[1], settings[2], settings[3]);
    assert L[|L| - 1] == "bg_color white";
    Reassociate(Terminated(done), DisplayHeader, settings[0], settings[1], settings[2], settings[3], "bg_color white");
    assert "center" + "\n" == "center\n" && "zoom" + "\n" == "zoom\n";
    assert "set cartoon_fancy_helices, 1" + "\n" == "set cartoon_fancy_helices, 1\n";
    assert "set cartoon_fancy_sheets, 1" + "\n" == "set cartoon_fancy_sheets, 1\n";
  }
}
