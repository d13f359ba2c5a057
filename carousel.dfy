/**
 * Index arithmetic of the event carousel: the clamp applied when content is
 * shown and the wrap-around of the next and previous buttons. `Mod` is an
 * extension that is not part of this model; it is taken to be the Euclidean
 * remainder, which is Dafny's `%` for a positive divisor.
 */
module Carousel {

  /** An index outside `[0, count)` is reset to 0; an index inside is kept. */
  function ClampIndex(index: int, count: nat): (r: int)
    ensures 0 <= index < count ==> r == index
    ensures (index < 0 || count <= index) ==> r == 0
    ensures count > 0 ==> 0 <= r < count
  {
    if index < 0 || index >= count then 0 else index
  }

  /** The index after pressing "next": `(index + 1).Mod(count)`. */
  function NextIndex(index: int, count: nat): (r: int)
    requires count > 0
    ensures 0 <= r < count
    ensures 0 <= index < count - 1 ==> r == index + 1
    ensures index == count - 1 ==> r == 0
  {
    (index + 1) % count
  }

  /** The index after pressing "previous": `(index - 1).Mod(count)`. */
  function PreviousIndex(index: int, count: nat): (r: int)
    requires count > 0
    ensures 0 <= r < count
    ensures 0 < index < count ==> r == index - 1
    ensures index == 0 ==> r == count - 1
  {
    (index - 1) % count
  }

  /** Next followed by previous, and previous followed by next, restore an in-range index. */
  lemma PreviousUndoesNext(index: int, count: nat)
    requires 0 <= index < count
    ensures PreviousIndex(NextIndex(index, count), count) == index
    ensures NextIndex(PreviousIndex(index, count), count) == index
  {
  }

  /** The index after pressing "next" `presses` times. */
  function NextPresses(index: int, count: nat, presses: nat): int
    requires count > 0
  {
    if presses == 0 then index else NextIndex(NextPresses(index, count, presses - 1), count)
  }

  /**
   * From an in-range index, `presses <= count` presses of "next" move that
   * many places forward, wrapping once past the last event.
   */
  lemma {:induction false} NextPressesWrap(index: int, count: nat, presses: nat)
    requires 0 <= index < count && presses <= count
    ensures NextPresses(index, count, presses)
         == if index + presses < count then index + presses else index + presses - count
  {
    if presses > 0 {
      NextPressesWrap(index, count, presses - 1);
    }
  }

  /**
   * Paging with "next" reaches every event, and `count` presses bring the
   * selection back to where it started.
   */
  lemma NextVisitsEveryEvent(index: int, count: nat, target: int)
    requires 0 <= index < count && 0 <= target < count
    ensures NextPresses(index, count, count) == index
    ensures exists presses: nat :: presses < count && NextPresses(index, count, presses) == target
  {
    NextPressesWrap(index, count, count);
    var presses: nat := if target >= index then target - index else target - index + count;
    NextPressesWrap(index, count, presses);
  }
}
