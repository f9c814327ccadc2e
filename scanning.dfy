/** The listing loops of the tools: one preview line per entry, in order, stopping at the
    first entry that raises; the loop's `try` turns that exception into the reply. */
module Scanning {
  import opened Wrappers

  /** What one entry of a list loop gives: its preview line or the error it stops on, and
      the requests it made. */
  datatype Step<C> = Step(line: Result<string, string>, calls: seq<C>)

  /** The outcome of a list loop: every line, or the first error; and the requests made. */
  datatype Scan<C> = Scan(lines: Result<seq<string>, string>, calls: seq<C>)

  function ScanAll<T, C>(items: seq<T>, step: T -> Step<C>): Scan<C>
    decreases |items|
  {
    if items == [] then Scan(Result.Ok([]), [])
    else
      var prev := ScanAll(items[..|items| - 1], step);
      if prev.lines.Err? then prev
      else
        var one := step(items[|items| - 1]);
        Scan(match one.line
               case Ok(l) => Result.Ok(prev.lines.value + [l])
               case Err(e) => Err(e),
             prev.calls + one.calls)
  }

  /** A loop succeeds exactly when every entry does; it then has one line per entry, in
      order. */
  lemma {:induction false} ScanAllLines<T, C>(items: seq<T>, step: T -> Step<C>)
    ensures ScanAll(items, step).lines.Ok? <==> forall i :: 0 <= i < |items| ==> step(items[i]).line.Ok?
    ensures ScanAll(items, step).lines.Ok? ==>
      |ScanAll(items, step).lines.value| == |items| &&
      forall i :: 0 <= i < |items| ==> ScanAll(items, step).lines.value[i] == step(items[i]).line.value
    decreases |items|
  {
    if items != [] {
      var init := items[..|items| - 1];
      ScanAllLines(init, step);
      assert forall i :: 0 <= i < |init| ==> init[i] == items[i];
    }
  }

  /** When a loop fails, its error is that of the first entry that fails. */
  lemma {:induction false} ScanAllFirstError<T, C>(items: seq<T>, step: T -> Step<C>, k: nat)
    requires k < |items| && step(items[k]).line.Err?
    requires forall i :: 0 <= i < k ==> step(items[i]).line.Ok?
    ensures ScanAll(items, step).lines == Err(step(items[k]).line.error)
    decreases |items|
  {
    var init := items[..|items| - 1];
    if k == |items| - 1 {
      ScanAllLines(init, step);
      assert forall i :: 0 <= i < |init| ==> init[i] == items[i];
    } else {
      assert init[k] == items[k];
      assert forall i :: 0 <= i < k ==> init[i] == items[i];
      ScanAllFirstError(init, step, k);
    }
  }

  /** The loop itself: one line per entry, stopping at the first exception. */
  method CollectLines<T, C>(items: seq<T>, step: T -> Step<C>) returns (lines: Result<seq<string>, string>, calls: seq<C>)
    ensures Scan(lines, calls) == ScanAll(items, step)
  {
    var previews: seq<string> := [];
    calls := [];
    for k := 0 to |items|
      invariant ScanAll(items[..k], step) == Scan(Result.Ok(previews), calls)
    {
      assert items[..k + 1][..k] == items[..k];
      var one := step(items[k]);
      calls := calls + one.calls;
      match one.line {
        case Err(e) =>
          ScanStopsAtError(items, k + 1, step);
          assert items[..|items|] == items;
          return Err(e), calls;
        case Ok(l) => previews := previews + [l];
      }
    }
    assert items[..|items|] == items;
    lines := Result.Ok(previews);
  }

  /** Once a loop has stopped, later entries change nothing. */
  lemma {:induction false} ScanStopsAtError<T, C>(items: seq<T>, k: nat, step: T -> Step<C>)
    requires k <= |items| && ScanAll(items[..k], step).lines.Err?
    ensures ScanAll(items, step) == ScanAll(items[..k], step)
    decreases |items| - k
  {
    if k < |items| {
      assert items[..k + 1][..k] == items[..k];
      ScanStopsAtError(items, k + 1, step);
    } else {
      assert items[..k] == items;
    }
  }
}
