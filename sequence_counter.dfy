/**
 * src/sequence_counter.py: read sequences from a JSON file, a CSV file or the
 * command line, count the occurrences of each, and report the number of
 * distinct sequences and the total. File contents are parameters (the decoded
 * JSON document, the CSV rows); `None` stands for a file that could not be
 * read, after which the program exits.
 */
module SequenceCounter {
  import opened Wrappers
  import opened PyJson
  import Selection

  // ---------------------------------------------------------------------------
  // lire_sequences_json

  /** The value `lire_sequences_json` returns for a decoded document. */
  function JsonSequences(data: Json): (r: Json)
    ensures data.JArr? ==> r == data
    ensures HasKey(data, "sequences") ==> r == Field(data, "sequences")
    ensures data.JObj? && !HasKey(data, "sequences") ==>
              var ks := DictKeys(data.entries);
              r.JArr? && |r.items| == |ks| &&
              forall i | 0 <= i < |ks| :: Lookup(data.entries, ks[i]) == Some(r.items[i])
    ensures !data.JArr? && !data.JObj? ==> r == JArr([data])
  {
    match data
    case JArr(_) => data
    case JObj(entries) =>
      if HasKey(data, "sequences") then Field(data, "sequences")
      else JArr(DictValues(entries))
    case _ => JArr([data])
  }

  // ---------------------------------------------------------------------------
  // lire_sequences_csv

  /** The first column of every non-empty row after the header, in order. */
  function CsvColumn(rows: seq<seq<string>>): seq<string> {
    if rows == [] then []
    else
      var row := rows[|rows| - 1];
      CsvColumn(rows[..|rows| - 1]) + (if row != [] then [row[0]] else [])
  }

  /** `lire_sequences_csv` after opening the file: the header row is dropped. */
  function CsvSequences(rows: seq<seq<string>>): seq<string> {
    if rows == [] then [] else CsvColumn(rows[1..])
  }

  /** One sequence per non-empty row, in row order; empty rows contribute nothing. */
  lemma {:induction false} CsvColumnAppend(a: seq<seq<string>>, b: seq<seq<string>>)
    ensures CsvColumn(a + b) == CsvColumn(a) + CsvColumn(b)
    decreases |b|
  {
    if b == [] {
      assert a + b == a;
    } else {
      var n := |b| - 1;
      assert (a + b)[..|a + b| - 1] == a + b[..n];
      assert (a + b)[|a + b| - 1] == b[n];
      CsvColumnAppend(a, b[..n]);
    }
  }

  /** With no empty row, there is exactly one sequence per data row, its first cell. */
  lemma {:induction false} CsvColumnOfFullRows(rows: seq<seq<string>>)
    requires forall i | 0 <= i < |rows| :: rows[i] != []
    ensures |CsvColumn(rows)| == |rows|
    ensures forall i | 0 <= i < |rows| :: CsvColumn(rows)[i] == rows[i][0]
  {
    if rows != [] {
      var n := |rows| - 1;
      CsvColumnOfFullRows(rows[..n]);
      assert forall i | 0 <= i < n :: rows[..n][i] == rows[i];
    }
  }

  /** The reading loop of `lire_sequences_csv`, the header already taken. */
  method ReadCsv(rows: seq<seq<string>>) returns (sequences: seq<string>)
    ensures sequences == CsvSequences(rows)
  {
    sequences := [];
    if rows == [] {
      return;
    }
    var data := rows[1..];
    for k := 0 to |data|
      invariant sequences == CsvColumn(data[..k])
    {
      assert data[..k + 1][..k] == data[..k];
      if data[k] != [] {
        sequences := sequences + [data[k][0]];
      }
    }
    assert data[..|data|] == data;
  }

  // ---------------------------------------------------------------------------
  // compter_sequences

  /** The key a value is counted under: Python's `True == 1` and `False == 0` collide in a Counter. */
  function Key(x: Json): Json {
    match x
    case JBool(b) => JNum(if b then 1.0 else 0.0)
    case _ => x
  }

  /** Lists and dicts cannot be Counter keys. */
  predicate Hashable(x: Json) {
    !x.JArr? && !x.JObj?
  }

  /** `Counter(sequences)`: `None` when an element is unhashable (Python raises). */
  function Count(sequences: seq<Json>): (c: Option<multiset<Json>>)
    ensures c.Some? <==> forall i | 0 <= i < |sequences| :: Hashable(sequences[i])
  {
    if forall i | 0 <= i < |sequences| :: Hashable(sequences[i]) then
      Some(multiset(seq(|sequences|, i requires 0 <= i < |sequences| => Key(sequences[i]))))
    else None
  }

  /** How many elements are counted under `k`, by a walk over the list. */
  function Occurrences(sequences: seq<Json>, k: Json): nat {
    if sequences == [] then 0
    else (if Key(sequences[0]) == k then 1 else 0) + Occurrences(sequences[1..], k)
  }

  /** The count of every key is its number of occurrences in the input. */
  lemma {:induction false} CountIsOccurrences(sequences: seq<Json>, k: Json)
    requires Count(sequences).Some?
    ensures Count(sequences).value[k] == Occurrences(sequences, k)
  {
    if sequences != [] {
      var rest := sequences[1..];
      CountIsOccurrences(rest, k);
      var keys := seq(|sequences|, i requires 0 <= i < |sequences| => Key(sequences[i]));
      var restKeys := seq(|rest|, i requires 0 <= i < |rest| => Key(rest[i]));
      assert keys == [Key(sequences[0])] + restKeys;
    }
  }

  /** The totals `afficher_resultats` prints: `len(compteur)` and `sum(compteur.values())`. */
  datatype Totals = Totals(unique: nat, total: real)

  function Summary(counter: multiset<Json>): Totals {
    Totals(|set k | k in counter|, |counter| as real)
  }

  /** A number as `sum` adds it: a bool counts as 0 or 1. */
  function NumberValue(j: Json): real
    requires IsNumber(j)
  {
    if j.JBool? then (if j.b then 1.0 else 0.0) else j.n
  }

  /** The sum of a list of numbers, left to right. */
  function ValueSum(values: seq<Json>): real
    requires forall i | 0 <= i < |values| :: IsNumber(values[i])
  {
    if values == [] then 0.0
    else ValueSum(values[..|values| - 1]) + NumberValue(values[|values| - 1])
  }

  /**
   * `Counter(d)` for a dict `d` copies it as a mapping of counts, so the totals are its
   * number of keys and the sum of its values; `sum` raises on a value that is not a number.
   * A key the document repeats is one key of the dict, holding its last value.
   */
  function MappingTotals(entries: seq<(string, Json)>): (r: Option<Totals>)
    ensures r.Some? <==> forall k | k in DictKeys(entries) :: IsNumber(Lookup(entries, k).value)
    ensures r.Some? ==> r.value.unique == |set i | 0 <= i < |entries| :: entries[i].0|
  {
    var ks := DictKeys(entries);
    var vs := DictValues(entries);
    if forall i | 0 <= i < |vs| :: IsNumber(vs[i]) then
      assert Selection.Elems(ks) == set i | 0 <= i < |entries| :: entries[i].0;
      Selection.DistinctCard(ks);
      Some(Totals(|ks|, ValueSum(vs)))
    else
      assert exists i | 0 <= i < |ks| :: ks[i] in ks && !IsNumber(Lookup(entries, ks[i]).value);
      None
  }

  /** A key the document repeats is one key of the dict, counted with its last value. */
  lemma RepeatedKeyCountsOnce()
    ensures MappingTotals([("ACGT", JNum(1.0)), ("ACGT", JNum(3.0))]) == Some(Totals(1, 3.0))
  {
    var entries := [("ACGT", JNum(1.0)), ("ACGT", JNum(3.0))];
    assert entries[..1] == [("ACGT", JNum(1.0))];
    assert DictKeys(entries[..1]) == ["ACGT"] by {
      assert entries[..1][..0] == [];
    }
    assert DictKeys(entries) == ["ACGT"];
    assert Lookup(entries, "ACGT") == Some(JNum(3.0));
    assert DictValues(entries) == [JNum(3.0)];
    assert ValueSum([JNum(3.0)]) == 3.0 by {
      assert [JNum(3.0)][..0] == [];
    }
  }

  /**
   * The total is the number of sequences read, and the number of distinct ones is
   * the number of distinct keys among them.
   */
  lemma CountTotals(sequences: seq<Json>)
    requires Count(sequences).Some?
    ensures Summary(Count(sequences).value).total == |sequences| as real
    ensures Summary(Count(sequences).value).unique ==
              |set i | 0 <= i < |sequences| :: Key(sequences[i])|
  {
    var keys := seq(|sequences|, i requires 0 <= i < |sequences| => Key(sequences[i]));
    assert (set k | k in multiset(keys)) == (set i | 0 <= i < |sequences| :: Key(sequences[i])) by {
      forall k | k in multiset(keys)
        ensures k in (set i | 0 <= i < |sequences| :: Key(sequences[i]))
      {
        assert k in keys;
      }
      forall i | 0 <= i < |sequences|
        ensures Key(sequences[i]) in multiset(keys)
      {
        assert keys[i] == Key(sequences[i]);
      }
    }
  }

  /** For plain strings the distinct count is the number of distinct sequences. */
  lemma UniqueStrings(sequences: seq<string>)
    ensures var xs := seq(|sequences|, i requires 0 <= i < |sequences| => JStr(sequences[i]));
            Count(xs).Some? &&
            Summary(Count(xs).value).unique == |Selection.Elems(sequences)|
  {
    var xs := seq(|sequences|, i requires 0 <= i < |sequences| => JStr(sequences[i]));
    CountTotals(xs);
    var keys := set i | 0 <= i < |xs| :: Key(xs[i]);
    var strs := Selection.Elems(sequences);
    assert keys == set s | s in strs :: JStr(s) by {
      forall k | k in keys ensures k in set s | s in strs :: JStr(s) {
        var i :| 0 <= i < |xs| && Key(xs[i]) == k;
        assert sequences[i] in strs;
      }
      forall k | k in set s | s in strs :: JStr(s) ensures k in keys {
        var s :| s in strs && k == JStr(s);
        var i :| 0 <= i < |sequences| && sequences[i] == s;
        assert Key(xs[i]) == k;
      }
    }
    InjectiveImage(strs);
  }

  lemma InjectiveImage(strs: set<string>)
    ensures |set s | s in strs :: JStr(s)| == |strs|
    decreases |strs|
  {
    if strs != {} {
      var x :| x in strs;
      var rest := strs - {x};
      InjectiveImage(rest);
      assert (set s | s in strs :: JStr(s)) == (set s | s in rest :: JStr(s)) + {JStr(x)};
    }
  }

  // ---------------------------------------------------------------------------
  // main

  /** The one source argparse accepts (the three options are mutually exclusive and one is required). */
  datatype Source = JsonFile(path: string) | CsvFile(path: string) | Direct(sequence: string)

  /**
   * The list `main` counts, given what each file holds (`None`: unreadable, the
   * program exits). An empty option value is falsy and selects no branch.
   */
  function Sequences(src: Source, readJson: string -> Option<Json>, readCsv: string -> Option<seq<seq<string>>>)
    : (r: Option<Json>)
    ensures src.Direct? ==> r == Some(if src.sequence != [] then JArr([JStr(src.sequence)]) else JArr([]))
  {
    match src
    case JsonFile(p) =>
      if p == [] then Some(JArr([]))
      else if readJson(p).None? then None
      else Some(JsonSequences(readJson(p).value))
    case CsvFile(p) =>
      if p == [] then Some(JArr([]))
      else if readCsv(p).None? then None
      else
        var col := CsvSequences(readCsv(p).value);
        Some(JArr(seq(|col|, i requires 0 <= i < |col| => JStr(col[i]))))
    case Direct(s) => Some(if s != [] then JArr([JStr(s)]) else JArr([]))
  }

  /**
   * The totals printed at the end, or `None` when the run stops before (unreadable file,
   * uncountable value). An empty option value or an empty file counts nothing and
   * still prints zero totals.
   */
  function Run(src: Source, readJson: string -> Option<Json>, readCsv: string -> Option<seq<seq<string>>>)
    : (r: Option<Totals>)
    ensures src.JsonFile? && src.path != [] && readJson(src.path).None? ==> r.None?
    ensures src.CsvFile? && src.path != [] && readCsv(src.path).None? ==> r.None?
    ensures !src.Direct? && src.path == [] ==> r == Some(Totals(0, 0.0))
    ensures src.Direct? && src.sequence == [] ==> r == Some(Totals(0, 0.0))
    ensures src.CsvFile? && src.path != [] && readCsv(src.path).Some? ==> r.Some?
    ensures src.JsonFile? && src.path != [] && readJson(src.path) == Some(JArr([])) ==> r == Some(Totals(0, 0.0))
  {
    var seqs := Sequences(src, readJson, readCsv);
    if seqs.None? then None
    else if seqs.value.JObj? then MappingTotals(seqs.value.entries)
    else
      var elems := Elements(seqs.value);
      if elems.None? then None
      else
        var c := Count(elems.value);
        if c.None? then None else Some(Summary(c.value))
  }

  /** `--sequence S` counts exactly one sequence, once. */
  lemma DirectCountsOne(s: string, readJson: string -> Option<Json>, readCsv: string -> Option<seq<seq<string>>>)
    requires s != []
    ensures Run(Direct(s), readJson, readCsv) == Some(Totals(1, 1.0))
  {
    var xs := [JStr(s)];
    CountTotals(xs);
    assert (set i | 0 <= i < |xs| :: Key(xs[i])) == {JStr(s)};
  }

  /**
   * `--csv F` reports the number of distinct first-column values and the number of
   * non-empty data rows.
   */
  lemma CsvTotals(p: string, rows: seq<seq<string>>, readJson: string -> Option<Json>,
                  readCsv: string -> Option<seq<seq<string>>>)
    requires p != [] && readCsv(p) == Some(rows)
    ensures var col := CsvSequences(rows);
            Run(CsvFile(p), readJson, readCsv) == Some(Totals(|Selection.Elems(col)|, |col| as real))
  {
    var col := CsvSequences(rows);
    var xs := seq(|col|, i requires 0 <= i < |col| => JStr(col[i]));
    UniqueStrings(col);
    CountTotals(xs);
  }
}
