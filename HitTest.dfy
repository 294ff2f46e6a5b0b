/** Mouse hit-testing: the pause button, the body-list column, and the row
    arithmetic that picks a body from a click. Coordinates are window
    pixels with the origin at the top left. */
module HitTest {
  import opened Bodies

  const Width: int := 1280
  const Height: int := 720
  /** Height of one row of the body list, in pixels. */
  const RowHeight: int := 20

  /** GLUT's codes for the left button and for a press. */
  const LeftButton: int := 0
  const ButtonDown: int := 0

  /** Euclidean division of a non-negative dividend, and of its negation. */
  lemma DivBounds(m: int, b: int)
    requires m >= 0 && b > 0
    ensures 0 <= (m / b) * b <= m < (m / b) * b + b
    ensures (-(m / b)) * b == -((m / b) * b)
  {
    assert m == b * (m / b) + m % b;
  }

  /** Integer division as C++ does it: the quotient is truncated toward zero. */
  function TruncDiv(a: int, b: int): (q: int)
    requires b > 0
    ensures a >= 0 ==> 0 <= q * b <= a < q * b + b
    ensures a < 0 ==> q * b - b < a <= q * b <= 0
  {
    if a >= 0 then
      DivBounds(a, b);
      a / b
    else
      DivBounds(-a, b);
      -((-a) / b)
  }

  /** A truncated quotient by 20 is k >= 0 exactly when the dividend lies in
      [20k, 20k + 19], except that k = 0 also takes [-19, -1]. */
  lemma TruncDivByRow(a: int, k: int)
    requires k >= 0
    ensures TruncDiv(a, RowHeight) == k <==>
      (if k == 0 then -RowHeight < a < RowHeight else k * RowHeight <= a < k * RowHeight + RowHeight)
  {
    var q := TruncDiv(a, RowHeight);
    if a >= 0 {
      assert q >= 0;
      if q == k {
      } else if q < k {
        assert q * RowHeight + RowHeight <= k * RowHeight;
      } else {
        assert k * RowHeight + RowHeight <= q * RowHeight;
      }
    } else {
      assert q <= 0;
      if q < 0 {
        assert q * RowHeight <= -RowHeight;
      }
    }
  }

  /** The play/pause button: x in [20, 100], y in [380, 400]. */
  predicate InPauseButton(x: int, y: int)
  {
    20 <= x <= 100 && Height - 340 <= y <= Height - 320
  }

  /** The body-list column: x in [1130, 1260]. */
  predicate InListColumn(x: int)
  {
    Width - 150 <= x <= Width - 20
  }

  /** The list row a click at height y selects; it is only used when it
      falls within the registry. */
  function RowIndex(y: int): (r: int)
    ensures r >= 0 <==> y >= Height - 69
  {
    TruncDiv(y - (Height - 50), RowHeight)
  }

  /** Because the division truncates, row 0 takes every y from 651 to 689,
      twice the height of any other row. */
  lemma RowZeroBand(y: int)
    ensures RowIndex(y) == 0 <==> 651 <= y <= 689
  {
    TruncDivByRow(y - (Height - 50), 0);
  }

  /** Any row k >= 1 takes the 20 pixels from 670 + 20k to 689 + 20k. */
  lemma RowBand(y: int, k: int)
    requires k >= 1
    ensures RowIndex(y) == k <==> 670 + RowHeight * k <= y <= 689 + RowHeight * k
  {
    TruncDivByRow(y - (Height - 50), k);
  }

  /** The row index selects one of n bodies exactly when y is in
      [651, 669 + 20n]. */
  lemma {:induction false} RowInRange(y: int, n: int)
    requires n >= 1
    ensures 0 <= RowIndex(y) < n <==> 651 <= y <= 669 + RowHeight * n
  {
    var a := y - (Height - 50);
    var q := RowIndex(y);
    if a >= 0 {
      if q < n {
        assert a < q * RowHeight + RowHeight <= n * RowHeight;
      } else {
        assert n * RowHeight <= q * RowHeight <= a;
      }
    } else {
      assert q <= 0;
      if q < 0 {
        assert q * RowHeight <= -RowHeight;
      }
    }
  }

  /** The two click targets do not overlap, so one click can do at most
      one of toggling the pause and toggling a body. */
  lemma TargetsDisjoint(x: int, y: int)
    ensures !(InPauseButton(x, y) && InListColumn(x))
  {
  }

  /** Flip the visibility of body i and leave everything else as it was. */
  function ToggleVisibility(ps: seq<Planet>, i: int): (r: seq<Planet>)
    requires 0 <= i < |ps|
    ensures |r| == |ps|
    ensures r[i].isVisible == !ps[i].isVisible
    ensures r[i].(isVisible := ps[i].isVisible) == ps[i]
    ensures forall j :: 0 <= j < |ps| && j != i ==> r[j] == ps[j]
  {
    ps[i := ps[i].(isVisible := !ps[i].isVisible)]
  }

  /** Toggling the same row twice restores the registry. */
  lemma ToggleTwice(ps: seq<Planet>, i: int)
    requires 0 <= i < |ps|
    ensures ToggleVisibility(ToggleVisibility(ps, i), i) == ps
  {
    var r := ToggleVisibility(ToggleVisibility(ps, i), i);
    assert r[i] == ps[i];
    assert forall j :: 0 <= j < |ps| ==> r[j] == ps[j];
  }

  /** Whether a mouse event is a press of the left button. */
  predicate LeftPress(button: int, state: int)
  {
    button == LeftButton && state == ButtonDown
  }

  /** Whether a mouse event toggles a body among n: a left press in the list
      column whose row falls within the registry. */
  predicate ListHit(button: int, state: int, x: int, y: int, n: int)
  {
    LeftPress(button, state) && InListColumn(x) && 0 <= RowIndex(y) < n
  }

  /** What a mouse event does to the registry. */
  function ClickBodies(ps: seq<Planet>, button: int, state: int, x: int, y: int): (r: seq<Planet>)
    ensures |r| == |ps|
    ensures !ListHit(button, state, x, y, |ps|) ==> r == ps
    ensures ListHit(button, state, x, y, |ps|) ==>
      r[RowIndex(y)].isVisible != ps[RowIndex(y)].isVisible
    ensures ListHit(button, state, x, y, |ps|) ==>
      r[RowIndex(y)].(isVisible := ps[RowIndex(y)].isVisible) == ps[RowIndex(y)]
    ensures forall j :: 0 <= j < |ps| && j != RowIndex(y) ==> r[j] == ps[j]
  {
    if ListHit(button, state, x, y, |ps|) then ToggleVisibility(ps, RowIndex(y)) else ps
  }

  /** What a mouse event does to the pause flag. */
  function ClickPause(paused: bool, button: int, state: int, x: int, y: int): (r: bool)
    ensures r != paused <==> LeftPress(button, state) && InPauseButton(x, y)
  {
    if LeftPress(button, state) && InPauseButton(x, y) then !paused else paused
  }

  /** A click never both toggles the pause and a body. */
  lemma ClickDoesAtMostOne(paused: bool, ps: seq<Planet>, button: int, state: int, x: int, y: int)
    ensures ClickPause(paused, button, state, x, y) == paused ||
            ClickBodies(ps, button, state, x, y) == ps
  {
  }
}
