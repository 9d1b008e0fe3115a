/** The eight-colour palette shared by the client script and the backend routes. */
module Palette {

  /** `colors` in static/app.js and in app.py's `align_pymol` / `create_alignment_session`. */
  const Colors: seq<string> := ["cyan", "magenta", "yellow", "salmon", "lime", "orange", "purple", "marine"]

  /** `colors[i % colors.length]`: the colour of the structure at input position `i`. */
  function ColorAt(i: nat): (c: string)
    ensures c in Colors
  {
    Colors[i % |Colors|]
  }

  /** The palette wraps: positions `i` and `i + 8` share a colour (the 9th gets the 1st's). */
  lemma ColorWraps(i: nat)
    ensures ColorAt(i + 8) == ColorAt(i)
  {
  }

  /** The eight colours are pairwise different. */
  lemma ColorsDistinct()
    ensures forall a, b | 0 <= a < b < |Colors| :: Colors[a] != Colors[b]
  {
  }

  /** Two positions get the same colour exactly when they are equal modulo 8. */
  lemma SameColorIff(i: nat, j: nat)
    ensures ColorAt(i) == ColorAt(j) <==> i % 8 == j % 8
  {
    ColorsDistinct();
    if i % 8 != j % 8 {
      var a, b := i % 8, j % 8;
      if a < b {
        assert Colors[a] != Colors[b];
      } else {
        assert Colors[b] != Colors[a];
      }
    }
  }
}
