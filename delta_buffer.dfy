/**
 * EventHandler.on_text_delta of stream.py and streaming_with_chat_history.py: every delta is
 * appended to the module-level list result_output, and the placeholder res_box is redrawn
 * with the stripped join of the whole list. A Streamlit rerun executes the module again, so
 * the list starts empty on every run; res_box first shows "Processing...".
 */
module DeltaBuffer {
  import opened Text

  const Placeholder := "Processing..."

  /** What res_box shows once the given deltas have arrived: strip("".join(deltas)). */
  function Displayed(deltas: seq<string>): string
  {
    Strip(Concat(deltas))
  }

  /** Every text res_box has shown: the placeholder, then one redraw per delta. */
  function Renders(deltas: seq<string>): (r: seq<string>)
    ensures |r| == |deltas| + 1 && r[0] == Placeholder
  {
    if deltas == [] then [Placeholder] else Renders(deltas[..|deltas| - 1]) + [Displayed(deltas)]
  }

  /** The k-th redraw shows the stripped join of the first k deltas, in arrival order. */
  lemma {:induction false} RendersAt(deltas: seq<string>, k: nat)
    requires 1 <= k <= |deltas|
    ensures Renders(deltas)[k] == Displayed(deltas[..k])
  {
    if k < |deltas| {
      var init := deltas[..|deltas| - 1];
      RendersAt(init, k);
      assert init[..k] == deltas[..k];
    } else {
      assert deltas[..k] == deltas;
    }
  }

  /** The answer on screen only grows: an earlier redraw is a prefix of every later one. */
  lemma DisplayedGrows(deltas: seq<string>, j: nat, k: nat)
    requires j <= k <= |deltas|
    ensures Displayed(deltas[..j]) <= Displayed(deltas[..k])
  {
    assert deltas[..k][..j] == deltas[..j];
    assert deltas[..k] == deltas[..j] + deltas[j..k];
    ConcatAppend(deltas[..j], deltas[j..k]);
    StripGrows(Concat(deltas[..j]), Concat(deltas[j..k]));
  }

  /** The list result_output together with the redraws of res_box. */
  class ResultBox {
    var resultOutput: seq<string>
    var shown: seq<string>

    ghost predicate Valid()
      reads this
    {
      shown == Renders(resultOutput)
    }

    /** A new run: the list is empty and res_box.markdown("Processing...") has been drawn. */
    constructor ()
      ensures Valid() && resultOutput == [] && shown == [Placeholder]
    {
      resultOutput := [];
      shown := [Placeholder];
    }

    /** on_text_delta: append at the end, redraw with the stripped join. */
    method OnTextDelta(value: string)
      requires Valid()
      modifies this
      ensures Valid()
      ensures resultOutput == old(resultOutput) + [value]
      ensures shown == old(shown) + [Displayed(resultOutput)]
    {
      resultOutput := resultOutput + [value];
      var result := Strip(Concat(resultOutput));
      shown := shown + [result];
      assert resultOutput[..|resultOutput| - 1] == old(resultOutput);
    }
  }

  /**
   * One assistant run as a page sees it: the module is executed afresh, so result_output starts
   * empty and res_box shows the placeholder; then on_text_delta runs once per delta, in order.
   */
  method RunStream(deltas: seq<string>) returns (shown: seq<string>)
    ensures shown == Renders(deltas)
  {
    var box := new ResultBox();
    var i := 0;
    while i < |deltas|
      invariant 0 <= i <= |deltas|
      invariant box.Valid() && box.resultOutput == deltas[..i]
    {
      box.OnTextDelta(deltas[i]);
      assert deltas[..i + 1] == deltas[..i] + [deltas[i]];
      i := i + 1;
    }
    assert deltas[..|deltas|] == deltas;
    shown := box.shown;
  }
}
