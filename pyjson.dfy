/**
 * JSON values as the Python side sees them after `json.load` / `response.json()`,
 * and the few Python built-ins the backend applies to them (truthiness,
 * `isinstance`, `dict.get`, `key in dict`).
 */
module PyJson {
  import opened Wrappers

  /**
   * A decoded JSON value. Numbers are exact rationals: the model only asks
   * whether a number is zero (Python truthiness) or a number at all.
   * An object keeps its entries as the text lists them, so a key may occur
   * twice; the decoded dict (Python's `json.load`, JavaScript's `JSON.parse`)
   * keeps each key once, at the position of its first occurrence, with the
   * value of its last one (`Lookup`, `DictKeys`).
   */
  datatype Json =
    | JNull
    | JBool(b: bool)
    | JNum(n: real)
    | JStr(s: string)
    | JArr(items: seq<Json>)
    | JObj(entries: seq<(string, Json)>)

  /** Python truthiness: None, False, 0, "", [] and {} are false. */
  predicate Truthy(j: Json) {
    match j
    case JNull => false
    case JBool(b) => b
    case JNum(n) => n != 0.0
    case JStr(s) => s != []
    case JArr(a) => a != []
    case JObj(e) => e != []
  }

  /** `isinstance(j, (int, float))`: a Python bool is an int, so booleans qualify. */
  predicate IsNumber(j: Json) {
    j.JNum? || j.JBool?
  }

  /** The value the decoded dict holds under `key`: that of the last entry carrying it. */
  function Lookup(entries: seq<(string, Json)>, key: string): (r: Option<Json>)
    ensures r.Some? <==> exists i | 0 <= i < |entries| :: entries[i].0 == key
    ensures r.Some? ==> exists i | 0 <= i < |entries| :: entries[i] == (key, r.value)
  {
    if entries == [] then None
    else if entries[|entries| - 1].0 == key then Some(entries[|entries| - 1].1)
    else Lookup(entries[..|entries| - 1], key)
  }

  /** The entry found for `key` is the last one carrying it. */
  lemma {:induction false} LookupAt(entries: seq<(string, Json)>, k: nat, key: string)
    requires k < |entries| && entries[k].0 == key
    requires forall i | k < i < |entries| :: entries[i].0 != key
    ensures Lookup(entries, key) == Some(entries[k].1)
  {
    if k < |entries| - 1 {
      LookupAt(entries[..|entries| - 1], k, key);
    }
  }

  /** The keys of the decoded dict: each key once, in the order of its first occurrence. */
  function DictKeys(entries: seq<(string, Json)>): (ks: seq<string>)
    ensures |ks| <= |entries|
    ensures forall i, j | 0 <= i < j < |ks| :: ks[i] != ks[j]
    ensures forall i | 0 <= i < |entries| :: entries[i].0 in ks
    ensures forall k | k in ks :: Lookup(entries, k).Some?
  {
    if entries == [] then []
    else
      var ks := DictKeys(entries[..|entries| - 1]);
      var key := entries[|entries| - 1].0;
      assert forall i | 0 <= i < |entries| - 1 :: entries[i] == entries[..|entries| - 1][i];
      if key in ks then ks else ks + [key]
  }

  /** The values of the decoded dict, in key order: `list(d.values())`. */
  function DictValues(entries: seq<(string, Json)>): (vs: seq<Json>)
    ensures |vs| == |DictKeys(entries)|
    ensures forall i | 0 <= i < |vs| :: Lookup(entries, DictKeys(entries)[i]) == Some(vs[i])
  {
    var ks := DictKeys(entries);
    seq(|ks|, i requires 0 <= i < |ks| => Lookup(entries, ks[i]).value)
  }

  /** `key in j` for a dict `j`; false for every non-dict. */
  predicate HasKey(j: Json, key: string) {
    j.JObj? && Lookup(j.entries, key).Some?
  }

  /** `j.get(key, default)` for a dict `j`. */
  function GetOr(j: Json, key: string, default: Json): Json
    requires j.JObj?
  {
    Lookup(j.entries, key).GetOr(default)
  }

  /** `j[key]`, for a dict that is known to hold `key`. */
  function Field(j: Json, key: string): Json
    requires HasKey(j, key)
  {
    Lookup(j.entries, key).value
  }

  /** What `len(v)` counts and `for x in v` visits: a list's items, a string's characters, a dict's keys. */
  function Elements(v: Json): (r: Option<seq<Json>>)
    ensures r.Some? <==> v.JArr? || v.JStr? || v.JObj?
    ensures v.JArr? ==> r == Some(v.items)
    ensures v.JStr? ==> |r.value| == |v.s| && forall i | 0 <= i < |v.s| :: r.value[i] == JStr([v.s[i]])
    ensures v.JObj? ==> |r.value| == |DictKeys(v.entries)| &&
                        forall i | 0 <= i < |r.value| :: r.value[i] == JStr(DictKeys(v.entries)[i])
  {
    match v
    case JArr(items) => Some(items)
    case JStr(s) => Some(seq(|s|, i requires 0 <= i < |s| => JStr([s[i]])))
    case JObj(entries) =>
      var ks := DictKeys(entries);
      Some(seq(|ks|, i requires 0 <= i < |ks| => JStr(ks[i])))
    case _ => None
  }
}
