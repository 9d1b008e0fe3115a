/**
 * The selection store of the search page: the module-level `selectedProteins`
 * Set of static/app.js and static/app_clean.js (identical in both files).
 *
 * A JavaScript Set iterates in insertion order, and `Array.from(selectedProteins)`
 * is what the alignment requests send; the backend takes the first element as the
 * reference structure. The store therefore keeps its identifiers as a duplicate-free
 * sequence in insertion order; `Elems` gives the set it stands for.
 */
module Selection {

  /** The identifiers of a sequence, as a set. */
  function Elems(s: seq<string>): set<string> {
    set x | x in s
  }

  /** No identifier occurs twice. */
  predicate Distinct(s: seq<string>) {
    forall i, j | 0 <= i < j < |s| :: s[i] != s[j]
  }

  /** `Set.prototype.delete`: drops `x`, keeping the order of the others. */
  function Remove(s: seq<string>, x: string): (r: seq<string>)
    ensures Elems(r) == Elems(s) - {x}
    ensures Distinct(s) ==> Distinct(r)
    ensures x !in s ==> r == s
  {
    if s == [] then []
    else
      var rest := Remove(s[1..], x);
      assert Elems(s) == {s[0]} + Elems(s[1..]) by { assert s == [s[0]] + s[1..]; }
      if s[0] == x then rest
      else
        assert Elems([s[0]] + rest) == {s[0]} + Elems(rest);
        assert Distinct(s) ==> s[0] !in rest by {
          if Distinct(s) {
            assert forall k | 0 <= k < |s[1..]| :: s[1..][k] == s[k + 1] && s[k + 1] != s[0];
          }
        }
        ConsDistinct(s[0], rest);
        [s[0]] + rest
  }

  lemma ConsDistinct(x: string, s: seq<string>)
    ensures Distinct(s) && x !in s ==> Distinct([x] + s)
  {
    if Distinct(s) && x !in s {
      forall i, j | 0 <= i < j < |[x] + s|
        ensures ([x] + s)[i] != ([x] + s)[j]
      {
        if i > 0 {
          assert ([x] + s)[i] == s[i - 1] && ([x] + s)[j] == s[j - 1];
        } else {
          assert ([x] + s)[j] == s[j - 1];
        }
      }
    }
  }

  lemma SnocDistinct(s: seq<string>, x: string)
    requires Distinct(s) && x !in s
    ensures Distinct(s + [x])
    ensures Elems(s + [x]) == Elems(s) + {x}
  {
  }

  /** `Set.prototype.add`: appends `x` unless it is already there. */
  function Add(s: seq<string>, x: string): seq<string> {
    if x in s then s else s + [x]
  }

  /** `toggleProteinSelection`: delete when present, add otherwise. */
  function Toggled(s: seq<string>, x: string): seq<string> {
    if x in s then Remove(s, x) else s + [x]
  }

  /** One checkbox of `toggleSelectAll`'s forEach: add when checked, delete otherwise. */
  function Mark(s: seq<string>, x: string, checked: bool): seq<string> {
    if checked then Add(s, x) else Remove(s, x)
  }

  /** `toggleSelectAll`: every checkbox value, in document order, added or deleted. */
  function MarkAll(s: seq<string>, boxes: seq<string>, checked: bool): seq<string> {
    if boxes == [] then s
    else Mark(MarkAll(s, boxes[..|boxes| - 1], checked), boxes[|boxes| - 1], checked)
  }

  /** In a duplicate-free sequence, the number of elements is the size of the set. */
  lemma {:induction false} DistinctCard(s: seq<string>)
    requires Distinct(s)
    ensures |Elems(s)| == |s|
  {
    if s != [] {
      DistinctCard(s[1..]);
      assert Elems(s) == Elems(s[1..]) + {s[0]};
      assert s[0] !in Elems(s[1..]);
    }
  }

  /** Toggling flips the membership of `x` and of nothing else, and keeps the store duplicate-free. */
  lemma ToggleFlipsOne(s: seq<string>, x: string)
    requires Distinct(s)
    ensures Distinct(Toggled(s, x))
    ensures Elems(Toggled(s, x)) == if x in s then Elems(s) - {x} else Elems(s) + {x}
    ensures forall y | y != x :: y in Toggled(s, x) <==> y in s
  {
    var t := Toggled(s, x);
    if x !in s {
      SnocDistinct(s, x);
    }
    assert Elems(t) == if x in s then Elems(s) - {x} else Elems(s) + {x};
    forall y | y != x
      ensures y in t <==> y in s
    {
      assert y in t <==> y in Elems(t);
      assert y in s <==> y in Elems(s);
    }
  }

  /**
   * Toggling twice restores membership. When `x` was absent the sequence itself comes
   * back; when it was present it comes back at the end (a Set re-adds at the end).
   */
  lemma {:induction false} ToggleTwice(s: seq<string>, x: string)
    requires Distinct(s)
    ensures Elems(Toggled(Toggled(s, x), x)) == Elems(s)
    ensures x !in s ==> Toggled(Toggled(s, x), x) == s
    ensures x in s ==> Toggled(Toggled(s, x), x) == Remove(s, x) + [x]
  {
    ToggleFlipsOne(s, x);
    ToggleFlipsOne(Toggled(s, x), x);
    if x !in s {
      RemoveLast(s, x);
    }
  }

  lemma {:induction false} RemoveLast(s: seq<string>, x: string)
    requires x !in s
    ensures Remove(s + [x], x) == s
  {
    if s != [] {
      assert (s + [x])[1..] == s[1..] + [x];
      RemoveLast(s[1..], x);
    }
  }

  /**
   * Checking "select all" adds every checkbox value (union); unchecking it deletes
   * every checkbox value (difference). Identifiers that are not checkbox values keep
   * their membership either way.
   */
  lemma {:induction false} MarkAllIsUnionOrDifference(s: seq<string>, boxes: seq<string>, checked: bool)
    requires Distinct(s)
    ensures Distinct(MarkAll(s, boxes, checked))
    ensures Elems(MarkAll(s, boxes, checked)) ==
            if checked then Elems(s) + Elems(boxes) else Elems(s) - Elems(boxes)
  {
    if boxes != [] {
      var init, last := boxes[..|boxes| - 1], boxes[|boxes| - 1];
      MarkAllIsUnionOrDifference(s, init, checked);
      var t := MarkAll(s, init, checked);
      assert Elems(boxes) == Elems(init) + {last} by {
        assert boxes == init + [last];
      }
      if checked && last !in t {
        SnocDistinct(t, last);
      }
    }
  }

  /** What `updateSelectionUI` writes into the `#selected-count` element. */
  datatype CountText =
    | Listing(count: nat, ids: seq<string>)  // "n protéine(s) sélectionnée(s): a, b, …"
    | SelectAnother                          // "1 protéine sélectionnée. Sélectionnez-en au moins une autre …"
    | Unchanged                              // the text is left as it was

  /** The alignment panel after `updateSelectionUI`. */
  datatype SelectionUI = SelectionUI(alignActive: bool, countText: CountText)

  /** `updateSelectionUI` on a selection (in insertion order). */
  function SelectionView(items: seq<string>): (v: SelectionUI)
    ensures v.alignActive <==> items != []
    ensures v.countText.Listing? <==> |items| >= 2
    ensures v.countText.SelectAnother? <==> |items| == 1
    ensures v.countText.Listing? ==> v.countText.count == |items| && v.countText.ids == items
  {
    var count := |items|;
    if count >= 2 then SelectionUI(true, Listing(count, items))
    else if count == 1 then SelectionUI(true, SelectAnother)
    else SelectionUI(false, Unchanged)
  }

  /**
   * The view in terms of the selected set: the panel is active iff something is
   * selected, the listing appears iff at least two identifiers are selected, and the
   * "select another" prompt iff exactly one is.
   */
  lemma SelectionViewBySetSize(items: seq<string>)
    requires Distinct(items)
    ensures SelectionView(items).alignActive <==> |Elems(items)| >= 1
    ensures SelectionView(items).countText.Listing? <==> |Elems(items)| >= 2
    ensures SelectionView(items).countText.SelectAnother? <==> |Elems(items)| == 1
  {
    DistinctCard(items);
  }

  /** The operations a user can apply to the store. */
  datatype SelectionOp =
    | ToggleOp(id: string)
    | SelectAllOp(checked: bool, boxes: seq<string>)
    | ClearOp

  /** The store's own semantics of one operation. */
  function Apply(s: seq<string>, op: SelectionOp): seq<string> {
    match op
    case ToggleOp(id) => Toggled(s, id)
    case SelectAllOp(checked, boxes) => MarkAll(s, boxes, checked)
    case ClearOp => []
  }

  /** A reference implementation of the same operations on a plain set. */
  function ApplyToSet(m: set<string>, op: SelectionOp): set<string> {
    match op
    case ToggleOp(id) => if id in m then m - {id} else m + {id}
    case SelectAllOp(checked, boxes) => if checked then m + Elems(boxes) else m - Elems(boxes)
    case ClearOp => {}
  }

  function Replay(s: seq<string>, ops: seq<SelectionOp>): seq<string>
    decreases |ops|
  {
    if ops == [] then s else Replay(Apply(s, ops[0]), ops[1..])
  }

  function ReplayOnSet(m: set<string>, ops: seq<SelectionOp>): set<string>
    decreases |ops|
  {
    if ops == [] then m else ReplayOnSet(ApplyToSet(m, ops[0]), ops[1..])
  }

  /**
   * Set-equivalence law: replaying any sequence of toggle / select-all / clear on the
   * store gives the same identifiers as replaying it on a plain set.
   */
  lemma {:induction false} ReplayMatchesSet(s: seq<string>, ops: seq<SelectionOp>)
    requires Distinct(s)
    ensures Distinct(Replay(s, ops))
    ensures Elems(Replay(s, ops)) == ReplayOnSet(Elems(s), ops)
    decreases |ops|
  {
    if ops != [] {
      var s' := Apply(s, ops[0]);
      match ops[0] {
        case ToggleOp(id) => ToggleFlipsOne(s, id);
        case SelectAllOp(checked, boxes) => MarkAllIsUnionOrDifference(s, boxes, checked);
        case ClearOp =>
      }
      assert Elems(s') == ApplyToSet(Elems(s), ops[0]);
      ReplayMatchesSet(s', ops[1..]);
    }
  }

  /** The store itself: `selectedProteins`, updated in place by the page's handlers. */
  class SelectionStore {
    var items: seq<string>

    ghost predicate Valid()
      reads this
    {
      Distinct(items)
    }

    /** The set of selected identifiers. */
    function Members(): set<string>
      reads this
    {
      Elems(items)
    }

    /** `selectedProteins.size`. */
    function Size(): (n: nat)
      reads this
      requires Valid()
      ensures n == |Members()|
    {
      DistinctCard(items);
      |items|
    }

    /** `new Set()`. */
    constructor ()
      ensures Valid() && items == [] && Members() == {}
    {
      items := [];
    }

    /** `selectedProteins.has(id)`. */
    method Has(id: string) returns (b: bool)
      ensures b <==> id in Members()
    {
      b := id in items;
    }

    /** `toggleProteinSelection(id)`, without the UI refresh. */
    method Toggle(id: string)
      requires Valid()
      modifies this
      ensures Valid()
      ensures items == Toggled(old(items), id)
      ensures Members() == if id in old(Members()) then old(Members()) - {id} else old(Members()) + {id}
    {
      ToggleFlipsOne(items, id);
      if id in items {
        items := Remove(items, id);
      } else {
        items := items + [id];
      }
    }

    /** `toggleSelectAll`: the forEach over the checkbox values, without the UI refresh. */
    method SelectAll(checked: bool, boxes: seq<string>)
      requires Valid()
      modifies this
      ensures Valid()
      ensures items == MarkAll(old(items), boxes, checked)
      ensures Members() == if checked then old(Members()) + Elems(boxes) else old(Members()) - Elems(boxes)
    {
      ghost var start := items;
      MarkAllIsUnionOrDifference(start, boxes, checked);
      for i := 0 to |boxes|
        invariant items == MarkAll(start, boxes[..i], checked)
      {
        assert boxes[..i + 1][..i] == boxes[..i];
        if checked {
          if boxes[i] !in items {
            items := items + [boxes[i]];
          }
        } else {
          items := Remove(items, boxes[i]);
        }
      }
      assert boxes[..|boxes|] == boxes;
    }

    /** `clearSelection`, without the checkbox and UI refresh. */
    method Clear()
      modifies this
      ensures Valid() && items == [] && Members() == {}
    {
      items := [];
    }

    /**
     * `updateSelectionUI`: the panel is active iff something is selected, the listing
     * (the count and the identifiers in insertion order) appears iff at least two are,
     * and the "select another" prompt iff exactly one is.
     */
    function UI(): (v: SelectionUI)
      reads this
      requires Valid()
      ensures v.alignActive <==> Size() >= 1
      ensures v.countText.Listing? <==> Size() >= 2
      ensures v.countText.SelectAnother? <==> Size() == 1
      ensures v.countText.Unchanged? <==> Size() == 0
      ensures v.countText.Listing? ==> v.countText.count == Size() && v.countText.ids == items
    {
      SelectionViewBySetSize(items);
      SelectionView(items)
    }
  }
}
