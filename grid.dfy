/** Row-major indexing of rectangular grids stored in flat buffers.
    Every buffer the terrain worker fills (height samples, vertices, texels)
    is addressed as `x + width * y`. */
module Grid {

  /** Offset of cell (x, y) in a row-major grid of `w` columns and `h` rows. */
  function Idx(x: int, y: int, w: int, h: int): (k: nat)
    requires 0 <= x < w && 0 <= y < h
    ensures k < w * h
    ensures k == x + w * y
  {
    assert w * y <= w * (h - 1) by { MulMonotone(w, y, h - 1); }
    x + w * y
  }

  lemma MulMonotone(a: int, b: int, c: int)
    requires 0 <= a && b <= c
    ensures a * b <= a * c
  {
    assert a * c - a * b == a * (c - b);
  }

  /** The cell after the last one of row y is the first one of row y + 1. */
  lemma NextRow(y: int, w: int)
    ensures w + y * w == (y + 1) * w
    ensures w + w * y == w * (y + 1)
  {
  }

  /** Two cells of the same grid never share an offset. */
  lemma IdxInjectiveAt(x: int, y: int, x': int, y': int, w: int, h: int)
    requires 0 <= x < w && 0 <= y < h && 0 <= x' < w && 0 <= y' < h
    requires Idx(x, y, w, h) == Idx(x', y', w, h)
    ensures x == x' && y == y'
  {
    if y < y' {
      MulMonotone(w, y + 1, y');
      assert false;
    } else if y' < y {
      MulMonotone(w, y' + 1, y);
      assert false;
    }
  }

  lemma IdxInjective(w: int, h: int)
    ensures forall x, y, x', y' ::
      (0 <= x < w && 0 <= y < h && 0 <= x' < w && 0 <= y' < h &&
       Idx(x, y, w, h) == Idx(x', y', w, h)) ==> x == x' && y == y'
  {
    forall x, y, x', y' |
      0 <= x < w && 0 <= y < h && 0 <= x' < w && 0 <= y' < h &&
      Idx(x, y, w, h) == Idx(x', y', w, h)
      ensures x == x' && y == y'
    {
      IdxInjectiveAt(x, y, x', y', w, h);
    }
  }

  /** Every offset below `w * h` is the offset of exactly the cell (k % w, k / w):
      together with IdxInjective, row-major indexing is a bijection. */
  lemma IdxCovers(k: int, w: int, h: int)
    requires 0 < w && 0 <= k < w * h
    ensures 0 <= k % w < w && 0 <= k / w < h
    ensures Idx(k % w, k / w, w, h) == k
  {
    var q := k / w;
    assert k == w * q + k % w;
    if q >= h {
      MulMonotone(w, h, q);
      assert false;
    }
    if q < 0 {
      MulMonotone(w, q, -1);
      assert false;
    }
  }
}
