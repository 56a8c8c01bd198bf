/**
 * getProcessorColor: the stroke colour of the `index`-th line of a chart,
 * picked from a fixed palette of eight colours by JavaScript's remainder.
 * The processor name is passed in but plays no part in the choice.
 */
module ProcessorColors {
  import opened MetricTypes

  /** The palette, in order. */
  const Colors: seq<string> :=
    ["#8884d8", "#82ca9d", "#ffc658", "#ff7c7c", "#8dd1e1", "#d084d0", "#ffb347", "#87ceeb"]

  /** JavaScript's `%` on a positive divisor: the remainder takes the sign of `a`; it
      agrees with Dafny's `%` on non-negative `a` and is odd in `a`. */
  function JsRem(a: int, b: int): (r: int)
    requires b > 0
    ensures a >= 0 ==> 0 <= r < b && r == a % b
    ensures a < 0 ==> -b < r <= 0 && r == -JsRem(-a, b)
    decreases if a >= 0 then 0 else 1
  {
    if a >= 0 then a % b else -((-a) % b)
  }

  /** `colors[index % colors.length]`: `None` plays the `undefined` read at a negative
      slot, which a negative index that is not a multiple of eight produces. A
      multiple of eight, negative or not, gives the first colour. */
  function ProcessorColor(processor: string, index: int): (r: Option<string>)
    ensures r.Some? <==> index >= 0 || index % |Colors| == 0
    ensures r.Some? ==> r.value in Colors
    ensures index % |Colors| == 0 ==> r == Some("#8884d8")
  {
    var slot := JsRem(index, |Colors|);
    if 0 <= slot then Some(Colors[slot]) else None
  }

  /** The eight colours are pairwise different. */
  lemma PaletteDistinct()
    ensures forall i, j :: 0 <= i < j < |Colors| ==> Colors[i] != Colors[j]
  {
  }

  /** Lines eight apart share a colour. */
  lemma ColorRepeatsEvery8(processor: string, index: nat)
    ensures ProcessorColor(processor, index + 8) == ProcessorColor(processor, index)
  {
    assert JsRem(index + 8, 8) == JsRem(index, 8);
  }

  /** Two lines whose indices differ by less than eight get different colours, so the
      first eight lines of a chart are all told apart. */
  lemma NearbyColorsDiffer(p: string, q: string, i: nat, j: nat)
    requires i < j < i + 8
    ensures ProcessorColor(p, i).Some? && ProcessorColor(q, j).Some?
    ensures ProcessorColor(p, i) != ProcessorColor(q, j)
  {
    PaletteDistinct();
    assert JsRem(i, 8) != JsRem(j, 8);
  }

  /** The token chart draws three lines per processor, at indices `3k`, `3k + 1` and
      `3k + 2`: the completion, prompt and total lines of one processor always differ. */
  lemma TokenLinesDiffer(processor: string, processorIndex: nat)
    ensures var c := ProcessorColor(processor, processorIndex * 3);
      var pr := ProcessorColor(processor, processorIndex * 3 + 1);
      var t := ProcessorColor(processor, processorIndex * 3 + 2);
      c.Some? && pr.Some? && t.Some? && c != pr && pr != t && c != t
  {
    NearbyColorsDiffer(processor, processor, processorIndex * 3, processorIndex * 3 + 1);
    NearbyColorsDiffer(processor, processor, processorIndex * 3 + 1, processorIndex * 3 + 2);
    NearbyColorsDiffer(processor, processor, processorIndex * 3, processorIndex * 3 + 2);
  }
}
