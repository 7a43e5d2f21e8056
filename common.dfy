/**
 * Shared vocabulary for the display rules: optional values, results with an
 * error message, the count of active flags in a rendered row, and the way a
 * rendered list drops the entries that render nothing.
 */
module Common {

  datatype Option<T> = None | Some(value: T)

  datatype Result<T> = Ok(value: T) | Err(message: string)

  /** Number of set flags in a row of rendered elements (dots, cards, stages). */
  function CountTrue(flags: seq<bool>): (n: nat)
    ensures n <= |flags|
    ensures n == 0 <==> forall i :: 0 <= i < |flags| ==> !flags[i]
  {
    if flags == [] then 0
    else CountTrue(flags[..|flags| - 1]) + (if flags[|flags| - 1] then 1 else 0)
  }

  /** The flag at position k is set and every other flag is clear. */
  predicate OnlyAt(flags: seq<bool>, k: int)
  {
    0 <= k < |flags| && forall i :: 0 <= i < |flags| ==> (flags[i] <==> i == k)
  }

  /** A row whose only set flag is at k has exactly one set flag. */
  lemma {:induction false} OnlyAtCountsOne(flags: seq<bool>, k: int)
    requires OnlyAt(flags, k)
    ensures CountTrue(flags) == 1
  {
    var last := |flags| - 1;
    var init := flags[..last];
    if k == last {
      assert CountTrue(init) == 0;
    } else {
      assert OnlyAt(init, k);
      OnlyAtCountsOne(init, k);
    }
  }

  /** The children a list renders: entries that render nothing (null) are dropped, order kept. */
  function Present<T>(slots: seq<Option<T>>): (shown: seq<T>)
    ensures |shown| <= |slots|
    ensures forall x :: x in shown ==> Some(x) in slots
  {
    if slots == [] then []
    else
      var init := Present(slots[..|slots| - 1]);
      match slots[|slots| - 1]
      case Some(x) => init + [x]
      case None => init
  }

  /** When every entry renders something, nothing is dropped and positions are kept. */
  lemma {:induction false} PresentAllSome<T>(slots: seq<Option<T>>)
    requires forall i :: 0 <= i < |slots| ==> slots[i].Some?
    ensures |Present(slots)| == |slots|
    ensures forall i :: 0 <= i < |slots| ==> Present(slots)[i] == slots[i].value
  {
    if slots != [] {
      var init := slots[..|slots| - 1];
      PresentAllSome(init);
      assert Present(slots) == Present(init) + [slots[|slots| - 1].value];
    }
  }

  /** A trailing entry that renders nothing leaves the rendered list unchanged. */
  lemma PresentDropsTrailingNone<T>(slots: seq<Option<T>>)
    ensures Present(slots + [None]) == Present(slots)
  {
  }
}
