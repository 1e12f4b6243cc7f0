/** Column-major to row-major reshaping, as Python's `zip(*columns)` does it. */
module Grid {

  function Min(a: nat, b: nat): nat {
    if a <= b then a else b
  }

  /** Length of the shortest column (0 when there are no columns): where `zip` stops. */
  function MinLen<T>(cols: seq<seq<T>>): (n: nat)
    ensures forall c :: 0 <= c < |cols| ==> n <= |cols[c]|
    ensures cols != [] ==> exists c :: 0 <= c < |cols| && n == |cols[c]|
  {
    if cols == [] then 0
    else if |cols| == 1 then |cols[0]|
    else Min(|cols[0]|, MinLen(cols[1..]))
  }

  /** `[list(row) for row in zip(*cols)]`. */
  function Transpose<T>(cols: seq<seq<T>>): (rows: seq<seq<T>>)
    ensures |rows| == MinLen(cols)
    ensures forall r :: 0 <= r < |rows| ==> |rows[r]| == |cols|
    ensures forall r, c :: 0 <= r < |rows| && 0 <= c < |cols| ==> rows[r][c] == cols[c][r]
  {
    seq(MinLen(cols), r requires 0 <= r < MinLen(cols) =>
      seq(|cols|, c requires 0 <= c < |cols| => cols[c][r]))
  }

  /** All columns have the same length `n`. */
  predicate Rectangular<T>(cols: seq<seq<T>>, n: nat) {
    forall c :: 0 <= c < |cols| ==> |cols[c]| == n
  }

  lemma RectangularMinLen<T>(cols: seq<seq<T>>, n: nat)
    requires cols != [] && Rectangular(cols, n)
    ensures MinLen(cols) == n
  {
  }

  /** Transposing a non-empty rectangular table twice gives it back. */
  lemma TransposeTwice<T>(cols: seq<seq<T>>, n: nat)
    requires cols != [] && n > 0 && Rectangular(cols, n)
    ensures Transpose(Transpose(cols)) == cols
  {
    RectangularMinLen(cols, n);
    var rows := Transpose(cols);
    assert Rectangular(rows, |cols|);
    RectangularMinLen(rows, |cols|);
    var back := Transpose(rows);
    assert |back| == |cols|;
    forall c | 0 <= c < |cols|
      ensures back[c] == cols[c]
    {
      assert |back[c]| == |rows| == n;
    }
  }
}
