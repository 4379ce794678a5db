/**
 * The printed content of the two paper forms, without styling: a row is
 * the ordered list of its text cells. `Join` is JavaScript's
 * `Array.prototype.join` on strings.
 */
module PdfText {

  datatype Row = Row(cells: seq<string>)

  /** `xs.join(sep)`: the items in order with `sep` between neighbours; "" for no items. */
  function Join(xs: seq<string>, sep: string): string
    decreases |xs|
  {
    if xs == [] then ""
    else if |xs| == 1 then xs[0]
    else xs[0] + sep + Join(xs[1..], sep)
  }

  function SumLengths(xs: seq<string>): nat
    decreases |xs|
  {
    if xs == [] then 0 else |xs[0]| + SumLengths(xs[1..])
  }

  /** The joined length is the items' lengths plus one separator for each neighbouring pair. */
  lemma {:induction false} JoinLength(xs: seq<string>, sep: string)
    requires xs != []
    ensures |Join(xs, sep)| == SumLengths(xs) + (|xs| - 1) * |sep|
    decreases |xs|
  {
    if |xs| > 1 {
      JoinLength(xs[1..], sep);
    }
  }

  /**
   * Joining one more item onto the end adds the separator and that item
   * after the old join: items appear in order, one separator between each
   * neighbouring pair.
   */
  lemma {:induction false} JoinAppend(xs: seq<string>, x: string, sep: string)
    requires xs != []
    ensures Join(xs + [x], sep) == Join(xs, sep) + sep + x
    decreases |xs|
  {
    if |xs| == 1 {
      assert xs + [x] == [xs[0], x];
    } else {
      assert (xs + [x])[1..] == xs[1..] + [x];
      JoinAppend(xs[1..], x, sep);
    }
  }

  /** Joining starts with the first item, and a list of one item is just that item. */
  lemma JoinStartsWithFirst(xs: seq<string>, sep: string)
    requires xs != []
    ensures xs[0] <= Join(xs, sep)
    ensures |xs| == 1 ==> Join(xs, sep) == xs[0]
  {
  }
}
