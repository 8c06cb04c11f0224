/** The parts of a core the construction pipeline reads or writes. The source of `Core`
    (src/cores.rs) and of `Channel` (src/channels.rs) is not part of this model: the fields
    below are the ones the pipeline uses, and the matrix-edge rule is an assumption. */
module Cores {
  import opened Types
  import Router

  /** Whether a core sits on the top row, bottom row, left column or right column. */
  datatype MatrixEdge = MatrixEdge(top: bool, bottom: bool, left: bool, right: bool)

  /** ASSUMED rule of `Core::populate_matrix_edge`: row-major layout, so the core with id
      `id` sits at row `id / columns` and column `id % columns`. */
  function MatrixEdgeOf(id: u8, columns: u8, rows: u8): (e: MatrixEdge)
    requires columns > 0
    ensures e.top <==> (id as int) < columns as int
    ensures e.left <==> (id as int) % columns as int == 0
    ensures e.right <==> (id as int + 1) % columns as int == 0
    ensures e.bottom <==> id as int / columns as int == rows as int - 1
  {
    FirstRow(id as int, columns as int);
    ModSucc(id as int, columns as int);
    var row := id as int / columns as int;
    var col := id as int % columns as int;
    MatrixEdge(row == 0, row == rows as int - 1, col == 0, col == columns as int - 1)
  }

  /** Row-major position facts: the row of the core with id `i` is below `r` when the grid
      holds it, and it is the last row exactly when `i` is among the last `c` ids. */
  lemma RowOfId(i: int, c: int, r: int)
    requires 0 <= i < r * c && c > 0
    ensures 0 <= i / c < r
    ensures i / c == 0 <==> i < c
    ensures i / c == r - 1 <==> (r - 1) * c <= i
  {
    var row := i / c;
    assert row * c <= i < row * c + c;
    if row >= 1 {
      MulMonotone(1, row, c);
    }
    if row >= r {
      MulMonotone(r, row, c);
    }
    if row < r - 1 {
      MulMonotone(row + 1, r - 1, c);
    }
    if row > r - 1 {
      MulMonotone(r, row, c);
    }
  }

  /** The first row holds the ids below `c`. */
  lemma FirstRow(i: int, c: int)
    requires 0 <= i && c > 0
    ensures i / c == 0 <==> i < c
  {
    var row := i / c;
    assert row * c <= i < row * c + c;
    if row >= 1 {
      MulMonotone(1, row, c);
    }
  }

  lemma MulMonotone(a: int, b: int, c: int)
    requires a <= b && c >= 0
    ensures a * c <= b * c
  {
  }

  /** On a grid holding the core, the edge flags can be read off the id directly: the top row
      holds the first `columns` ids, the bottom row the last `columns`, and the left and right
      columns hold the ids congruent to 0 and to -1 modulo `columns`. */
  lemma MatrixEdgeByPosition(id: u8, columns: u8, rows: u8)
    requires columns > 0 && (id as int) < rows as int * columns as int
    ensures MatrixEdgeOf(id, columns, rows).top <==> (id as int) < columns as int
    ensures MatrixEdgeOf(id, columns, rows).bottom <==> (rows as int - 1) * columns as int <= id as int
    ensures MatrixEdgeOf(id, columns, rows).left <==> (id as int) % columns as int == 0
    ensures MatrixEdgeOf(id, columns, rows).right <==> (id as int + 1) % columns as int == 0
  {
    var c, i := columns as int, id as int;
    RowOfId(i, c, rows as int);
    ModSucc(i, c);
  }

  lemma ModSucc(i: int, c: int)
    requires 0 <= i && c > 0
    ensures (i + 1) % c == 0 <==> i % c == c - 1
  {
    var row, col := i / c, i % c;
    if col == c - 1 {
      assert i + 1 == (row + 1) * c + 0;
      ModUnique(i + 1, row + 1, 0, c);
    } else {
      assert i + 1 == row * c + (col + 1);
      ModUnique(i + 1, row, col + 1, c);
    }
  }

  /** On a 3 x 3 grid, core 0 is a top-left corner, core 4 the centre and core 8 a
      bottom-right corner. */
  lemma ThreeByThreeEdges()
    ensures MatrixEdgeOf(0, 3, 3) == MatrixEdge(true, false, true, false)
    ensures MatrixEdgeOf(4, 3, 3) == MatrixEdge(false, false, false, false)
    ensures MatrixEdgeOf(8, 3, 3) == MatrixEdge(false, true, false, true)
  {
  }

  /** Euclidean division leaves one remainder in `[0, c)`. */
  lemma ModUnique(x: int, q: int, m: int, c: int)
    requires c > 0 && 0 <= m < c && x == q * c + m
    ensures x % c == m
  {
    var d := q - x / c;
    assert d * c == x % c - m;
    if d >= 1 {
      MulMonotone(1, d, c);
    } else if d <= -1 {
      MulMonotone(d, -1, c);
    }
  }

  /** A channel of a core's channel set, reduced to its free-form attributes. */
  datatype Channel = Channel(otherAttributes: Option<Attributes>)

  class Core {
    /** The core id as the XML gives it. */
    const id: u8
    /** The task allocated to this core, if any. */
    const allocatedTask: Option<u16>
    /** The router this core owns. */
    const router: Router.Router
    /** The core's channels, in the order its channel map yields them. */
    const channels: seq<Channel>
    /** The core's free-form XML attributes, by name. */
    const otherAttributes: Option<Attributes>
    /** The edge flags; derived, not part of the XML. */
    var matrixEdge: Option<MatrixEdge>

    /** The core as the XML decoder builds it, before any flag is derived. */
    constructor Decoded(id: u8, allocatedTask: Option<u16>, router: Router.Router,
                        channels: seq<Channel>, otherAttributes: Option<Attributes>)
      ensures this.id == id && this.allocatedTask == allocatedTask && this.router == router
      ensures this.channels == channels && this.otherAttributes == otherAttributes
      ensures matrixEdge == None
    {
      this.id := id;
      this.allocatedTask := allocatedTask;
      this.router := router;
      this.channels := channels;
      this.otherAttributes := otherAttributes;
      matrixEdge := None;
    }

    /** `Core::populate_matrix_edge(columns, rows)`, under the assumed row-major rule. */
    method PopulateMatrixEdge(columns: u8, rows: u8)
      requires columns > 0
      modifies this
      ensures matrixEdge == Some(MatrixEdgeOf(id, columns, rows))
    {
      matrixEdge := Some(MatrixEdgeOf(id, columns, rows));
    }
  }
}
