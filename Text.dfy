/**
 * Text templates as Python's f-strings build them (fixed pieces with values
 * between them), and substring containment to state what a text embeds.
 */
module Text {

  /** `part` occurs in `s` starting at position k. */
  predicate OccursAt(s: string, part: string, k: nat) {
    k + |part| <= |s| && s[k..k + |part|] == part
  }

  ghost predicate Contains(s: string, part: string) {
    exists k: nat :: OccursAt(s, part, k)
  }

  /** The f-string whose literal pieces are `pieces` and whose placeholders take `values`, in order. */
  function Interpolate(pieces: seq<string>, values: seq<string>): string
    requires |pieces| == |values| + 1
    decreases |values|
  {
    if values == [] then pieces[0]
    else pieces[0] + values[0] + Interpolate(pieces[1..], values[1..])
  }

  /** Text put in front keeps an occurrence, shifted by its length. */
  lemma OccursAfterPrefix(prefix: string, s: string, part: string, k: nat)
    requires OccursAt(s, part, k)
    ensures OccursAt(prefix + s, part, |prefix| + k)
  {
  }

  /** Every value placed in a template occurs in the result. */
  lemma {:induction false} InterpolateShowsValue(pieces: seq<string>, values: seq<string>, i: nat)
    requires |pieces| == |values| + 1 && i < |values|
    ensures Contains(Interpolate(pieces, values), values[i])
    decreases |values|
  {
    var rest := Interpolate(pieces[1..], values[1..]);
    var head := pieces[0] + values[0];
    assert Interpolate(pieces, values) == head + rest;
    if i == 0 {
      assert (head + rest)[|pieces[0]|..|pieces[0]| + |values[0]|] == values[0];
      assert OccursAt(head + rest, values[0], |pieces[0]|);
    } else {
      InterpolateShowsValue(pieces[1..], values[1..], i - 1);
      var k: nat :| OccursAt(rest, values[i], k);
      OccursAfterPrefix(head, rest, values[i], k);
    }
  }
}
