/**
 * Row-major index arithmetic shared by the mesh builder (vertex and index
 * buffers) and the streaming window (chunk coordinates around the viewer).
 */
module GridIndex {

  /** A product with a positive factor grows at least as fast as that factor. */
  lemma {:induction false} MulAtLeast(m: int, width: int)
    requires m >= 1 && width >= 1
    ensures m * width >= width
    decreases m
  {
    if m > 1 {
      MulAtLeast(m - 1, width);
      assert m * width == (m - 1) * width + width;
    }
  }

  /** Position `row * width + col` of a row-major grid decodes back to (row, col). */
  lemma RowMajor(row: int, col: int, width: int)
    requires 0 <= col < width
    ensures (row * width + col) / width == row
    ensures (row * width + col) % width == col
  {
    var k := row * width + col;
    var q, r := k / width, k % width;
    assert k == q * width + r;
    var m := row - q;
    assert m * width == row * width - q * width;
    assert m * width == r - col;
    if m >= 1 {
      MulAtLeast(m, width);
    } else if m <= -1 {
      MulAtLeast(-m, width);
    }
    assert m == 0;
  }

  /** Multiplying by a positive width preserves order. */
  lemma MulMono(a: int, b: int, width: int)
    requires a <= b && width >= 1
    ensures a * width <= b * width
  {
    if a < b {
      MulAtLeast(b - a, width);
      assert b * width - a * width == (b - a) * width;
    }
  }

  /** An index into a row-major grid of `height` rows of `width` decodes to a row and column inside it. */
  lemma RowOf(k: int, width: int, height: int)
    requires width >= 1 && 0 <= k < height * width
    ensures 0 <= k / width < height
    ensures 0 <= k % width < width
    ensures k == (k / width) * width + k % width
  {
    var q := k / width;
    if q < 0 {
      MulMono(q, -1, width);
    } else if q >= height {
      MulMono(height, q, width);
    }
  }

  /** A cell at (row, col) of a `width`-wide grid with `height` rows lies in the grid. */
  lemma RowMajorBound(row: int, col: int, width: int, height: int)
    requires 0 <= row < height && 0 <= col < width
    ensures 0 <= row * width + col < height * width
  {
    assert row * width <= (height - 1) * width;
  }
}
