/** The order in which the Parrot class visits the windows of a frame, and
    how it stacks the feature rows extracted from them.

    The frame is cut into `cols` x `rows` windows (the window geometry
    itself is computed by the camera module, which is not part of this
    model); the visit is a nested loop with the rows outside and the columns
    inside. */
module WindowGrid {

  /** The grid position of one window: row `r`, column `c`. */
  datatype GridPos = GridPos(r: nat, c: nat)

  /** The first `cols` windows of row `r`, left to right: one window per
      column, ending at column cols - 1. */
  function RowOf(r: nat, cols: nat): (row: seq<GridPos>)
    ensures |row| == cols
    ensures cols > 0 ==> row[cols - 1] == GridPos(r, cols - 1)
  {
    if cols == 0 then [] else RowOf(r, cols - 1) + [GridPos(r, cols - 1)]
  }

  /** The windows of the first `rows` rows, row after row. */
  function VisitOrder(rows: nat, cols: nat): (order: seq<GridPos>)
    ensures rows > 0 && cols > 0 ==> |order| > 0 && order[|order| - 1] == GridPos(rows - 1, cols - 1)
  {
    if rows == 0 then [] else VisitOrder(rows - 1, cols) + RowOf(rows - 1, cols)
  }

  /** Visiting window (r, c) after the windows `done` and the first c
      windows of row r gives the first c + 1 windows of row r. */
  lemma RowStep(done: seq<GridPos>, r: nat, c: nat)
    ensures done + RowOf(r, c + 1) == (done + RowOf(r, c)) + [GridPos(r, c)]
  {
  }

  /** `p` comes strictly before `q` in row-major order. */
  predicate Before(p: GridPos, q: GridPos)
  {
    p.r < q.r || (p.r == q.r && p.c < q.c)
  }

  lemma {:induction false} RowOfAt(r: nat, cols: nat)
    ensures |RowOf(r, cols)| == cols
    ensures forall c :: 0 <= c < cols ==> RowOf(r, cols)[c] == GridPos(r, c)
  {
    if cols > 0 {
      RowOfAt(r, cols - 1);
    }
  }

  /** The visit has one window per grid cell. */
  lemma {:induction false} VisitOrderLength(rows: nat, cols: nat)
    ensures |VisitOrder(rows, cols)| == rows * cols
  {
    if rows > 0 {
      VisitOrderLength(rows - 1, cols);
      MulPred(rows, cols);
    }
  }

  lemma MulPred(a: nat, b: nat)
    requires a > 0
    ensures (a - 1) * b + b == a * b
  {
  }

  /** Window (r, c) of the grid is visited, as the (r * cols + c)-th window. */
  lemma {:induction false} VisitOrderIndex(rows: nat, cols: nat, r: nat, c: nat)
    requires r < rows && c < cols
    ensures r * cols + c < |VisitOrder(rows, cols)|
    ensures VisitOrder(rows, cols)[r * cols + c] == GridPos(r, c)
  {
    VisitOrderLength(rows - 1, cols);
    RowOfAt(rows - 1, cols);
    if r < rows - 1 {
      VisitOrderIndex(rows - 1, cols, r, c);
    }
  }

  /** Only windows of the grid are visited. */
  lemma {:induction false} VisitOrderInGrid(rows: nat, cols: nat, k: nat)
    requires k < |VisitOrder(rows, cols)|
    ensures VisitOrder(rows, cols)[k].r < rows && VisitOrder(rows, cols)[k].c < cols
  {
    VisitOrderLength(rows - 1, cols);
    RowOfAt(rows - 1, cols);
    if k < |VisitOrder(rows - 1, cols)| {
      VisitOrderInGrid(rows - 1, cols, k);
    }
  }

  /** The visit is in strictly increasing row-major order. */
  lemma {:induction false} VisitOrderRowMajor(rows: nat, cols: nat, i: nat, j: nat)
    requires i < j < |VisitOrder(rows, cols)|
    ensures Before(VisitOrder(rows, cols)[i], VisitOrder(rows, cols)[j])
  {
    var prefix := VisitOrder(rows - 1, cols);
    VisitOrderLength(rows - 1, cols);
    RowOfAt(rows - 1, cols);
    if j < |prefix| {
      VisitOrderRowMajor(rows - 1, cols, i, j);
    } else if i < |prefix| {
      VisitOrderInGrid(rows - 1, cols, i);
    }
  }

  /** Every window of the grid is visited. */
  lemma VisitOrderCovers(rows: nat, cols: nat)
    ensures forall r: nat, c: nat :: r < rows && c < cols ==> GridPos(r, c) in VisitOrder(rows, cols)
  {
    forall r: nat, c: nat | r < rows && c < cols
      ensures GridPos(r, c) in VisitOrder(rows, cols)
    {
      var k: nat := r * cols + c;
      VisitOrderIndex(rows, cols, r, c);
      assert VisitOrder(rows, cols)[k] == GridPos(r, c);
    }
  }

  /** No window is visited twice. */
  lemma VisitOrderDistinct(rows: nat, cols: nat)
    ensures forall i, j :: 0 <= i < j < |VisitOrder(rows, cols)| ==>
              VisitOrder(rows, cols)[i] != VisitOrder(rows, cols)[j]
  {
    forall i, j | 0 <= i < j < |VisitOrder(rows, cols)|
      ensures VisitOrder(rows, cols)[i] != VisitOrder(rows, cols)[j]
    {
      VisitOrderRowMajor(rows, cols, i, j);
    }
  }

  /** Each window of the grid is visited exactly once: it occurs in the visit,
      and no two visits are of the same window. */
  lemma VisitOrderExactlyOnce(rows: nat, cols: nat)
    ensures forall r: nat, c: nat :: r < rows && c < cols ==> GridPos(r, c) in VisitOrder(rows, cols)
    ensures forall i, j :: 0 <= i < j < |VisitOrder(rows, cols)| ==>
              VisitOrder(rows, cols)[i] != VisitOrder(rows, cols)[j]
  {
    VisitOrderCovers(rows, cols);
    VisitOrderDistinct(rows, cols);
  }

  /** The default grid of 15 columns by 7 rows has 105 windows. */
  lemma DefaultWindowCount()
    ensures |VisitOrder(7, 15)| == 105
  {
    VisitOrderLength(7, 15);
  }

  // Feature stacking.

  /** The rows one extractor produces for the windows `ws`, in visit order. */
  function Extract(extractor: GridPos -> seq<real>, ws: seq<GridPos>): (rows: seq<seq<real>>)
    ensures |rows| == |ws|
  {
    if ws == [] then [] else Extract(extractor, ws[..|ws| - 1]) + [extractor(ws[|ws| - 1])]
  }

  /** Row k of the extracted rows is the extractor's output for window k. */
  lemma {:induction false} ExtractAt(extractor: GridPos -> seq<real>, ws: seq<GridPos>, k: nat)
    requires k < |ws|
    ensures Extract(extractor, ws)[k] == extractor(ws[k])
  {
    if k < |ws| - 1 {
      ExtractAt(extractor, ws[..|ws| - 1], k);
    }
  }

  /** The number of values held by a stack of rows (numpy's `size`). */
  function Size(m: seq<seq<real>>): (n: nat)
    ensures m != [] ==> n >= |m[|m| - 1]|
  {
    if m == [] then 0 else Size(m[..|m| - 1]) + |m[|m| - 1]|
  }

  /** One stacking step of the feature loop: an accumulator holding no
      values is replaced by the new row, otherwise the row is stacked under it. */
  function VStack(acc: seq<seq<real>>, row: seq<real>): (stacked: seq<seq<real>>)
    ensures |stacked| > 0 && stacked[|stacked| - 1] == row
    ensures Size(acc) == 0 ==> stacked == [row]
    ensures Size(acc) != 0 ==> |stacked| == |acc| + 1 && stacked[..|acc|] == acc
  {
    if Size(acc) == 0 then [row] else acc + [row]
  }

  /** The accumulator after stacking `rows` one by one onto an empty one. */
  function StackRows(rows: seq<seq<real>>): (stacked: seq<seq<real>>)
    ensures |stacked| <= |rows|
    ensures rows != [] ==> |stacked| > 0 && stacked[|stacked| - 1] == rows[|rows| - 1]
  {
    if rows == [] then [] else VStack(StackRows(rows[..|rows| - 1]), rows[|rows| - 1])
  }

  /** Every row has `width` values. */
  predicate UniformWidth(rows: seq<seq<real>>, width: nat)
  {
    forall k :: 0 <= k < |rows| ==> |rows[k]| == width
  }

  /** When every row holds the same positive number of values, stacking keeps
      every row, in order. */
  lemma {:induction false} StackRowsPositiveWidth(rows: seq<seq<real>>, width: nat)
    requires width > 0 && UniformWidth(rows, width)
    ensures StackRows(rows) == rows
  {
    if rows != [] {
      var init := rows[..|rows| - 1];
      StackRowsPositiveWidth(init, width);
      assert init != [] ==> Size(init) >= |init[|init| - 1]| > 0;
      assert init + [rows[|rows| - 1]] == rows;
    }
  }

  /** When every row is empty, stacking keeps only the last row: the
      accumulator never holds a value, so each row replaces the one before. */
  lemma {:induction false} StackRowsZeroWidth(rows: seq<seq<real>>)
    requires rows != [] && UniformWidth(rows, 0)
    ensures StackRows(rows) == [rows[|rows| - 1]]
  {
    var init := rows[..|rows| - 1];
    if init != [] {
      StackRowsZeroWidth(init);
    }
  }

  /** With an extractor of fixed positive width, stacking the rows it
      extracts from windows `ws` gives one row per window, in order. */
  lemma StackedFeatures(extractor: GridPos -> seq<real>, ws: seq<GridPos>, width: nat)
    requires width > 0
    requires forall p :: |extractor(p)| == width
    ensures StackRows(Extract(extractor, ws)) == Extract(extractor, ws)
  {
  }

  /** With an extractor of fixed positive width, the stacked features hold
      one row per grid window, and the row at index r * cols + c is the
      extractor's output for window (r, c). */
  lemma FeatureRowsInGridOrder(extractor: GridPos -> seq<real>, rows: nat, cols: nat, width: nat,
                               r: nat, c: nat)
    requires width > 0
    requires forall p :: |extractor(p)| == width
    requires r < rows && c < cols
    ensures |StackRows(Extract(extractor, VisitOrder(rows, cols)))| == rows * cols
    ensures r * cols + c < rows * cols
    ensures StackRows(Extract(extractor, VisitOrder(rows, cols)))[r * cols + c] == extractor(GridPos(r, c))
  {
    var order := VisitOrder(rows, cols);
    var k := r * cols + c;
    VisitOrderIndex(rows, cols, r, c);
    assert order[k] == GridPos(r, c);
    VisitOrderLength(rows, cols);
    StackedFeatures(extractor, order, width);
    ExtractAt(extractor, order, k);
  }
}
