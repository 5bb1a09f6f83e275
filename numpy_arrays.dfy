/** The numpy array operations the mixup operators perform in place. A batch
    of n samples is an `array2<real>` with one row per sample; the sample's own
    axes (channels, height, width) are flattened into the row. */
module NumpyArrays {
  import opened NumpyRandom

  /** The rows of `a`, as values. */
  function Rows(a: array2<real>): (rows: seq<seq<real>>)
    reads a
    ensures |rows| == a.Length0
    ensures forall i :: 0 <= i < a.Length0 ==> |rows[i]| == a.Length1
    ensures forall i, j :: 0 <= i < a.Length0 && 0 <= j < a.Length1 ==> rows[i][j] == a[i, j]
  {
    seq(a.Length0, i requires 0 <= i < a.Length0 reads a =>
      seq(a.Length1, j requires 0 <= j < a.Length1 reads a => a[i, j]))
  }

  /** Every row of `rows` has the same length. */
  predicate Rectangular(rows: seq<seq<real>>) {
    forall i :: 0 <= i < |rows| ==> |rows[i]| == |rows[0]|
  }

  /** Two arrays agreeing with `t` element by element have `t` as their rows. */
  lemma RowsAre(a: array2<real>, t: seq<seq<real>>)
    requires |t| == a.Length0
    requires forall i :: 0 <= i < |t| ==> |t[i]| == a.Length1
    requires forall i, j :: 0 <= i < a.Length0 && 0 <= j < a.Length1 ==> a[i, j] == t[i][j]
    ensures Rows(a) == t
  {
    forall i | 0 <= i < |t|
      ensures Rows(a)[i] == t[i]
    {
    }
  }

  /** `s[order]`, numpy's fancy indexing: the elements of `s` in the order
      `order` lists their indices. */
  function Gathered<T>(s: seq<T>, order: seq<nat>): (g: seq<T>)
    requires forall i :: 0 <= i < |order| ==> order[i] < |s|
  {
    seq(|order|, i requires 0 <= i < |order| => s[order[i]])
  }

  /** Taking the largest index out of a permutation of [0, n): its slot is
      filled by the final entry, and the first n-1 entries that remain are a
      permutation of [0, n-1). */
  lemma WithoutLargest(p: seq<nat>, n: nat) returns (q: seq<nat>, k: nat)
    requires n > 0 && IsPermutation(p, n)
    ensures k < n && p[k] == n - 1
    ensures q == if k == n - 1 then p[..n - 1] else p[..n - 1][k := p[n - 1]]
    ensures IsPermutation(q, n - 1)
  {
    var last := n - 1;
    assert last in p;
    k :| 0 <= k < n && p[k] == last;
    q := if k == last then p[..last] else p[..last][k := p[last]];
    forall i | 0 <= i < last
      ensures q[i] < last
    {
      if i == k {
        assert p[last] != p[k];
      } else {
        assert p[i] != p[k];
      }
    }
    forall v | 0 <= v < last
      ensures v in q
    {
      assert v in p;
      var i :| 0 <= i < n && p[i] == v;
      if i == last {
        assert q[k] == v;
      } else {
        assert q[i] == v;
      }
    }
    forall i, j | 0 <= i < j < last
      ensures q[i] != q[j]
    {
      if i == k {
        assert q[i] == p[last];
      } else if j == k {
        assert q[j] == p[last];
      }
    }
  }

  /** Gathering through a permutation rearranges: the result holds exactly the
      elements of `s`, each as often as `s` does. */
  lemma {:induction false} GatheredIsRearrangement<T>(s: seq<T>, p: seq<nat>)
    requires IsPermutation(p, |s|)
    ensures multiset(Gathered(s, p)) == multiset(s)
    decreases |s|
  {
    var n := |s|;
    if n == 0 {
      return;
    }
    var last := n - 1;
    var q, k := WithoutLargest(p, n);
    GatheredIsRearrangement(s[..last], q);
    var g := Gathered(s, p);
    var h := Gathered(s[..last], q);
    assert g == g[..last] + [g[last]];
    assert s == s[..last] + [s[last]];
    if k == last {
      assert h == g[..last];
    } else {
      assert h == g[..last][k := g[last]];
      assert g[..last][k] == s[last];
    }
  }

  /** `dst[:] = src[order]`: row i of `dst` becomes row `order[i]` of `src`. */
  method GatherInto(src: array2<real>, order: seq<nat>, dst: array2<real>)
    requires dst != src
    requires dst.Length0 == |order| && dst.Length1 == src.Length1
    requires forall i :: 0 <= i < |order| ==> order[i] < src.Length0
    modifies dst
    ensures Rows(dst) == Gathered(Rows(src), order)
  {
    var n, m := dst.Length0, dst.Length1;
    for i := 0 to n
      invariant forall r, c :: 0 <= r < i && 0 <= c < m ==> dst[r, c] == src[order[r], c]
    {
      for j := 0 to m
        invariant forall r, c :: 0 <= r < i && 0 <= c < m ==> dst[r, c] == src[order[r], c]
        invariant forall c :: 0 <= c < j ==> dst[i, c] == src[order[i], c]
      {
        dst[i, j] := src[order[i], j];
      }
    }
    RowsAre(dst, Gathered(Rows(src), order));
  }

  /** Every element of `x` multiplied by `w`. */
  function ScaleRow(x: seq<real>, w: real): (r: seq<real>)
    ensures |r| == |x|
  {
    seq(|x|, j requires 0 <= j < |x| => w * x[j])
  }

  /** Row i of `rows` multiplied by `w[i]`. */
  function Scaled(rows: seq<seq<real>>, w: seq<real>): (r: seq<seq<real>>)
    requires |w| == |rows|
    ensures |r| == |rows|
    ensures forall i :: 0 <= i < |r| ==> r[i] == ScaleRow(rows[i], w[i])
  {
    seq(|rows|, i requires 0 <= i < |rows| => ScaleRow(rows[i], w[i]))
  }

  /** The element-by-element sum of two rows of one length. */
  function AddRow(x: seq<real>, y: seq<real>): (r: seq<real>)
    requires |x| == |y|
    ensures |r| == |x|
  {
    seq(|x|, j requires 0 <= j < |x| => x[j] + y[j])
  }

  /** The element-by-element sum of two batches of one shape. */
  function Sum(a: seq<seq<real>>, b: seq<seq<real>>): (r: seq<seq<real>>)
    requires |a| == |b| && forall i :: 0 <= i < |a| ==> |a[i]| == |b[i]|
    ensures |r| == |a|
    ensures forall i :: 0 <= i < |r| ==> r[i] == AddRow(a[i], b[i])
  {
    seq(|a|, i requires 0 <= i < |a| => AddRow(a[i], b[i]))
  }

  /** `a *= w` with `w` of shape (n, 1, ..., 1): every element of row i is
      multiplied by `w[i]`. */
  method ScaleRowsInPlace(a: array2<real>, w: seq<real>)
    requires |w| == a.Length0
    modifies a
    ensures Rows(a) == Scaled(old(Rows(a)), w)
  {
    ghost var before := Rows(a);
    var n, m := a.Length0, a.Length1;
    for i := 0 to n
      invariant forall r, c :: 0 <= r < i && 0 <= c < m ==> a[r, c] == w[r] * before[r][c]
      invariant forall r, c :: i <= r < n && 0 <= c < m ==> a[r, c] == before[r][c]
    {
      for j := 0 to m
        invariant forall r, c :: 0 <= r < i && 0 <= c < m ==> a[r, c] == w[r] * before[r][c]
        invariant forall r, c :: i < r < n && 0 <= c < m ==> a[r, c] == before[r][c]
        invariant forall c :: 0 <= c < j ==> a[i, c] == w[i] * before[i][c]
        invariant forall c :: j <= c < m ==> a[i, c] == before[i][c]
      {
        a[i, j] := w[i] * a[i, j];
      }
    }
    RowsAre(a, Scaled(before, w));
  }

  /** `a += b` for arrays of one shape: element by element. */
  method AddInPlace(a: array2<real>, b: array2<real>)
    requires a != b
    requires a.Length0 == b.Length0 && a.Length1 == b.Length1
    modifies a
    ensures Rows(a) == Sum(old(Rows(a)), Rows(b))
  {
    ghost var before := Rows(a);
    var n, m := a.Length0, a.Length1;
    for i := 0 to n
      invariant forall r, c :: 0 <= r < i && 0 <= c < m ==> a[r, c] == before[r][c] + b[r, c]
      invariant forall r, c :: i <= r < n && 0 <= c < m ==> a[r, c] == before[r][c]
    {
      for j := 0 to m
        invariant forall r, c :: 0 <= r < i && 0 <= c < m ==> a[r, c] == before[r][c] + b[r, c]
        invariant forall r, c :: i < r < n && 0 <= c < m ==> a[r, c] == before[r][c]
        invariant forall c :: 0 <= c < j ==> a[i, c] == before[i][c] + b[i, c]
        invariant forall c :: j <= c < m ==> a[i, c] == before[i][c]
      {
        a[i, j] := a[i, j] + b[i, j];
      }
    }
    RowsAre(a, Sum(before, Rows(b)));
  }
}
