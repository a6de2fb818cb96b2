/** The apartment reply keyboard: the configured apartment list cut into
    rows of at most five buttons, in order (main.py, get_apartment_keyboard). */
module Keyboard {

  /** Number of buttons per keyboard row. */
  const RowWidth: nat := 5

  /** The buttons of all rows, read row by row. */
  function Flatten<T>(rows: seq<seq<T>>): seq<T>
  {
    if rows == [] then [] else rows[0] + Flatten(rows[1..])
  }

  lemma {:induction false} FlattenAppend<T>(rows: seq<seq<T>>, row: seq<T>)
    ensures Flatten(rows + [row]) == Flatten(rows) + row
  {
    if rows == [] {
      assert rows + [row] == [row];
      assert Flatten([row]) == row + Flatten([]);
    } else {
      assert (rows + [row])[1..] == rows[1..] + [row];
      FlattenAppend(rows[1..], row);
    }
  }

  /** True when every row holds between one and five buttons and every row
      except the last holds exactly five. */
  predicate WellShaped<T>(rows: seq<seq<T>>)
  {
    && (forall k :: 0 <= k < |rows| ==> 1 <= |rows[k]| <= RowWidth)
    && (forall k :: 0 <= k < |rows| - 1 ==> |rows[k]| == RowWidth)
  }

  /** Builds the keyboard rows with the source's loop: for i = 0, 5, 10, ...
      append the slice apartments[i:i+5] (Python slices clamp at the end). */
  method ApartmentKeyboard(apartments: seq<string>) returns (rows: seq<seq<string>>)
    ensures Flatten(rows) == apartments
    ensures WellShaped(rows)
    ensures |rows| == (|apartments| + RowWidth - 1) / RowWidth
  {
    var n := |apartments|;
    rows := [];
    var i := 0;
    while i < n
      invariant i == RowWidth * |rows|
      invariant i < n + RowWidth
      invariant Flatten(rows) == apartments[..if i <= n then i else n]
      invariant WellShaped(rows)
      invariant i <= n ==> forall k :: 0 <= k < |rows| ==> |rows[k]| == RowWidth
    {
      var hi := if i + RowWidth <= n then i + RowWidth else n;
      FlattenAppend(rows, apartments[i..hi]);
      assert apartments[..i] + apartments[i..hi] == apartments[..hi];
      rows := rows + [apartments[i..hi]];
      i := i + RowWidth;
    }
    assert apartments[..n] == apartments;
  }
}
