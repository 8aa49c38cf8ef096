/**
 * An image stored as a flat row-major buffer with a height and a width
 * (classes/image/Image.py), and the row and column crops and splits of its
 * matrix view. Every operation is a value computation; the two that can
 * raise in the source (a division by a zero height, a reshape to the wrong
 * size) return None.
 */
module Images {
  import opened Wrappers

  datatype Image<T> = Image(height: nat, width: nat, data: seq<T>)

  /** numpy's flatten of a list of rows: the rows one after the other. */
  function Flatten<T>(rows: seq<seq<T>>): seq<T>
  {
    if |rows| == 0 then [] else Flatten(rows[..|rows| - 1]) + rows[|rows| - 1]
  }

  /** Every row has w entries. */
  predicate Rectangular<T>(rows: seq<seq<T>>, w: nat)
  {
    forall r :: 0 <= r < |rows| ==> |rows[r]| == w
  }

  lemma MulLeft(a: nat, b: nat, w: nat)
    requires a <= b
    ensures a * w <= b * w
  {
    assert b * w == a * w + (b - a) * w;
  }

  lemma DivMod(k: nat, w: nat)
    requires w > 0
    ensures k == (k / w) * w + k % w && k % w < w
  {
  }

  /** (h * w) / h is w. */
  lemma MulDivCancel(h: nat, w: nat)
    requires h > 0
    ensures h * w / h == w
  {
    var q := h * w / h;
    var r := h * w % h;
    assert h * w == q * h + r;
    if q < w {
      assert (q + 1) * h == q * h + h;
      MulLeft(q + 1, w, h);
    }
  }

  /** Row r of an h-by-w matrix ends at or before h * w. */
  lemma RowFits(r: nat, h: nat, w: nat)
    requires r < h
    ensures r * w + w <= h * w
  {
    MulLeft(r + 1, h, w);
    assert (r + 1) * w == r * w + w;
  }

  /** Row r of a row-major buffer of width w. */
  function Row<T>(data: seq<T>, w: nat, r: nat): (row: seq<T>)
    requires r * w + w <= |data|
    ensures |row| == w && forall c :: 0 <= c < w ==> row[c] == data[r * w + c]
  {
    data[r * w..r * w + w]
  }

  /** The flattened rows of a rectangular matrix hold cell (r, c) at r * w + c. */
  lemma {:induction false} FlattenRectangular<T>(rows: seq<seq<T>>, w: nat)
    requires Rectangular(rows, w)
    ensures |Flatten(rows)| == |rows| * w
    ensures forall r, c :: 0 <= r < |rows| && 0 <= c < w ==>
      r * w + c < |rows| * w && Flatten(rows)[r * w + c] == rows[r][c]
  {
    if |rows| > 0 {
      var n := |rows| - 1;
      var init := rows[..n];
      assert Rectangular(init, w) by {
        forall r | 0 <= r < n
          ensures |init[r]| == w
        {
          assert init[r] == rows[r];
        }
      }
      FlattenRectangular(init, w);
      var f := Flatten(init);
      assert Flatten(rows) == f + rows[n];
      RowFits(n, |rows|, w);
      assert |rows| * w == n * w + w by {
        assert (n + 1) * w == n * w + w;
      }
      forall r, c | 0 <= r < |rows| && 0 <= c < w
        ensures r * w + c < |rows| * w && Flatten(rows)[r * w + c] == rows[r][c]
      {
        RowFits(r, |rows|, w);
        if r < n {
          RowFits(r, n, w);
          assert rows[r] == init[r];
          assert Flatten(rows)[r * w + c] == f[r * w + c];
        } else {
          assert r * w + c == n * w + c;
        }
      }
    }
  }

  /** Python's `x or d` for an optional size: None and 0 both give the default. */
  function Or(x: Option<nat>, d: nat): (r: nat)
    ensures x.Some? && x.value != 0 ==> r == x.value
    ensures x.None? || x.value == 0 ==> r == d
  {
    if x.Some? && x.value != 0 then x.value else d
  }

  /**
   * The constructor: the height defaults to the number of rows, the data is
   * flattened, the width defaults to size / height (integer division), and
   * that division fails when the height comes out as 0.
   */
  function NewImage<T>(rows: seq<seq<T>>, height: Option<nat>, width: Option<nat>): (r: Option<Image<T>>)
    ensures r.None? <==> Or(height, |rows|) == 0 && Or(width, 0) == 0
    ensures r.Some? ==> r.value.height == Or(height, |rows|) && r.value.data == Flatten(rows)
    ensures r.Some? && Or(width, 0) != 0 ==> r.value.width == Or(width, 0)
    ensures r.Some? && Or(width, 0) == 0 ==> r.value.width == |Flatten(rows)| / r.value.height
  {
    var h := Or(height, |rows|);
    var data := Flatten(rows);
    if Or(width, 0) != 0 then Some(Image(h, Or(width, 0), data))
    else if h == 0 then None
    else Some(Image(h, |data| / h, data))
  }

  /** The row-major reshape to height x width, which fails unless the sizes agree. */
  function GetMatrix<T>(img: Image<T>): (m: Option<seq<seq<T>>>)
    ensures m.Some? <==> img.height * img.width == |img.data|
    ensures m.Some? ==> |m.value| == img.height && Rectangular(m.value, img.width)
  {
    var h, w := img.height, img.width;
    if h * w != |img.data| then None
    else
      Some(seq(h, r requires 0 <= r < h => RowFits(r, h, w); Row(img.data, w, r)))
  }

  /** get_matrix is the row-major reshape: cell (r, c) is entry r * width + c of the buffer. */
  lemma MatrixCell<T>(img: Image<T>, r: nat, c: nat)
    requires GetMatrix(img).Some? && r < img.height && c < img.width
    ensures r * img.width + c < |img.data|
    ensures GetMatrix(img).value[r][c] == img.data[r * img.width + c]
  {
    RowFits(r, img.height, img.width);
    assert GetMatrix(img).value[r] == Row(img.data, img.width, r);
  }

  /** Without explicit sizes, a non-empty rectangular matrix comes back unchanged from its image. */
  lemma RowsRoundTrip<T>(rows: seq<seq<T>>, w: nat)
    requires |rows| > 0 && Rectangular(rows, w)
    ensures NewImage(rows, None, None).Some?
    ensures var img := NewImage(rows, None, None).value;
      img.height == |rows| && img.width == w && GetMatrix(img) == Some(rows)
  {
    FlattenRectangular(rows, w);
    var img := NewImage(rows, None, None).value;
    MulDivCancel(|rows|, w);
    var m := GetMatrix(img).value;
    assert |m| == |rows|;
    forall r | 0 <= r < |rows|
      ensures m[r] == rows[r]
    {
      forall c | 0 <= c < w
        ensures m[r][c] == rows[r][c]
      {
        MatrixCell(img, r, c);
      }
    }
    assert m == rows;
  }

  /** Flattening the matrix view gives back the buffer. */
  lemma MatrixFlattens<T>(img: Image<T>)
    requires GetMatrix(img).Some?
    ensures Flatten(GetMatrix(img).value) == img.data
  {
    var m := GetMatrix(img).value;
    var w := img.width;
    FlattenRectangular(m, w);
    var f := Flatten(m);
    forall k | 0 <= k < |f|
      ensures f[k] == img.data[k]
    {
      var r, c := k / w, k % w;
      DivMod(k, w);
      assert r < img.height by {
        if r >= img.height {
          MulLeft(img.height, r, w);
        }
      }
      assert f[r * w + c] == m[r][c];
      MatrixCell(img, r, c);
    }
  }

  /** Python's normalisation of a slice bound against a length n. */
  function Bound(n: nat, x: int): (b: nat)
    ensures b <= n
    ensures 0 <= x <= n ==> b == x
    ensures x > n ==> b == n
    ensures x < 0 ==> b == (if x + n < 0 then 0 else x + n)
  {
    if x < 0 then (if x + n < 0 then 0 else x + n) else if x > n then n else x
  }

  /** Python's s[i:j] with step 1. */
  function PySlice<X>(s: seq<X>, i: int, j: int): (r: seq<X>)
    ensures Bound(|s|, i) < Bound(|s|, j) ==> r == s[Bound(|s|, i)..Bound(|s|, j)]
    ensures Bound(|s|, i) >= Bound(|s|, j) ==> r == []
  {
    var lo, hi := Bound(|s|, i), Bound(|s|, j);
    if lo < hi then s[lo..hi] else []
  }

  /** A prefix up to any bound and the rest from that bound make up the whole sequence. */
  lemma PySliceSplit<X>(s: seq<X>, h: int)
    ensures PySlice(s, 0, h) + PySlice(s, h, |s|) == s
  {
    var b := Bound(|s|, h);
    assert s[..b] + s[b..] == s;
  }

  /** With a non-negative offset and length the slice is offset .. min(offset + length, n). */
  lemma PySliceWindow<X>(s: seq<X>, offset: nat, length: nat)
    ensures offset <= |s| ==> PySlice(s, offset, offset + length) == s[offset..if offset + length < |s| then offset + length else |s|]
    ensures offset > |s| ==> PySlice(s, offset, offset + length) == []
  {
  }

  /** crop_vertical: the rows offset .. offset + height of the matrix (Python slice bounds). */
  function CropVertical<T>(img: Image<T>, height: int, offset: int): (r: Option<seq<seq<T>>>)
    ensures r.Some? <==> GetMatrix(img).Some?
    ensures r.Some? ==> r.value == PySlice(GetMatrix(img).value, offset, offset + height)
  {
    match GetMatrix(img)
    case None => None
    case Some(m) => Some(PySlice(m, offset, offset + height))
  }

  /** For a non-negative offset and height the crop is exactly rows offset .. min(offset + height, H). */
  lemma CropVerticalRows<T>(img: Image<T>, height: nat, offset: nat)
    requires GetMatrix(img).Some? && offset <= img.height
    ensures var lastRow := if offset + height < img.height then offset + height else img.height;
      CropVertical(img, height, offset) == Some(GetMatrix(img).value[offset..lastRow])
  {
    PySliceWindow(GetMatrix(img).value, offset, height);
  }

  /** split_vertical: the rows before `height` and the rows from `height` on. */
  function SplitVertical<T>(img: Image<T>, height: int): (r: Option<(seq<seq<T>>, seq<seq<T>>)>)
    ensures r.Some? <==> GetMatrix(img).Some?
    ensures r.Some? ==> r.value.0 == PySlice(GetMatrix(img).value, 0, height)
    ensures r.Some? ==> r.value.0 + r.value.1 == GetMatrix(img).value
  {
    match GetMatrix(img)
    case None => None
    case Some(m) =>
      PySliceSplit(m, height);
      Some((PySlice(m, 0, height), PySlice(m, height, |m|)))
  }

  /** Columns offset .. offset + width of every row. */
  function Columns<T>(m: seq<seq<T>>, width: int, offset: int): (r: seq<seq<T>>)
    ensures |r| == |m|
    ensures forall k :: 0 <= k < |m| ==> r[k] == PySlice(m[k], offset, offset + width)
  {
    seq(|m|, k requires 0 <= k < |m| => PySlice(m[k], offset, offset + width))
  }

  /** crop_horizontal: every row, restricted to columns offset .. offset + width. */
  function CropHorizontal<T>(img: Image<T>, width: int, offset: int): (r: Option<seq<seq<T>>>)
    ensures r.Some? <==> GetMatrix(img).Some?
    ensures r.Some? ==> |r.value| == img.height
    ensures r.Some? ==> forall k :: 0 <= k < img.height ==>
      r.value[k] == PySlice(GetMatrix(img).value[k], offset, offset + width)
  {
    match GetMatrix(img)
    case None => None
    case Some(m) => Some(Columns(m, width, offset))
  }

  /** For a non-negative offset and width every cropped row is columns offset .. min(offset + width, W). */
  lemma CropHorizontalColumns<T>(img: Image<T>, width: nat, offset: nat, k: nat)
    requires GetMatrix(img).Some? && offset <= img.width && k < img.height
    ensures var lastColumn := if offset + width < img.width then offset + width else img.width;
      CropHorizontal(img, width, offset).value[k] == GetMatrix(img).value[k][offset..lastColumn]
  {
    PySliceWindow(GetMatrix(img).value[k], offset, width);
  }

  /** split_horizontal: per row, the columns before `width` and the columns from `width` on. The offset is unused. */
  function SplitHorizontal<T>(img: Image<T>, width: int, offset: int): (r: Option<(seq<seq<T>>, seq<seq<T>>)>)
    ensures r.Some? <==> GetMatrix(img).Some?
    ensures r.Some? ==> |r.value.0| == img.height && |r.value.1| == img.height
    ensures r.Some? ==> forall k :: 0 <= k < img.height ==>
      r.value.0[k] == PySlice(GetMatrix(img).value[k], 0, width)
    ensures r.Some? ==> forall k :: 0 <= k < img.height ==>
      r.value.0[k] + r.value.1[k] == GetMatrix(img).value[k]
  {
    match GetMatrix(img)
    case None => None
    case Some(m) =>
      var left := seq(|m|, k requires 0 <= k < |m| => PySlice(m[k], 0, width));
      var right := seq(|m|, k requires 0 <= k < |m| => PySlice(m[k], width, |m[k]|));
      assert forall k :: 0 <= k < |m| ==> left[k] + right[k] == m[k] by {
        forall k | 0 <= k < |m|
          ensures left[k] + right[k] == m[k]
        {
          PySliceSplit(m[k], width);
        }
      }
      Some((left, right))
  }

  /** The result of split_horizontal does not depend on its offset argument. */
  lemma SplitHorizontalIgnoresOffset<T>(img: Image<T>, width: int, a: int, b: int)
    ensures SplitHorizontal(img, width, a) == SplitHorizontal(img, width, b)
  {
  }
}
