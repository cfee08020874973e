/**
  * Turning a cell address into the node number the flow solver uses: the
  * layer/cell formula of unstructured grids and the lookup into the reduced
  * (active-cell-only) numbering through the solver's user-node table.
  */
module NodeIndex {
  import opened Wrappers

  /** The user node of one-based `lay` and one-based cell-in-layer `node`. */
  function UnstructuredNode(ncpl: int, lay: int, node: int): int {
    ncpl * (lay - 1) + node - 1
  }

  /** `np.where(nuser == v)[0]`: every index holding `v`, in increasing order. */
  function Positions(nuser: seq<int>, v: int): (r: seq<nat>)
    ensures forall m :: 0 <= m < |r| ==> r[m] < |nuser| && nuser[r[m]] == v
    ensures forall p :: 0 <= p < |nuser| && nuser[p] == v ==> p in r
    ensures forall m, m' :: 0 <= m < m' < |r| ==> r[m] < r[m']
    decreases |nuser|
  {
    if nuser == [] then []
    else
      var front := Positions(nuser[..|nuser| - 1], v);
      if nuser[|nuser| - 1] == v then front + [|nuser| - 1] else front
  }

  /**
    * The node stored in a performance-measure record. A user-node table with
    * more than one entry means the numbering is reduced, and then the node is
    * the one position holding the user node; no position or several positions
    * is an error. A table of at most one entry leaves the user node as it is.
    */
  function ReduceNode(nuser: seq<int>, inode: int): Result<int, ()>
  {
    if |nuser| > 1 then
      var nn := Positions(nuser, inode);
      if |nn| != 1 then Failure(()) else Success(nn[0] as int)
    else Success(inode)
  }

  /** The one index of `nuser` holding `v`. */
  ghost predicate UniqueIndexOf(nuser: seq<int>, v: int, p: int) {
    0 <= p < |nuser| && nuser[p] == v &&
    forall q :: 0 <= q < |nuser| && nuser[q] == v ==> q == p
  }

  // ----- lemmas -----

  /** With reduction in effect the stored node is exactly the unique index holding the user node. */
  lemma ReduceNodeReduced(nuser: seq<int>, inode: int, p: int)
    requires |nuser| > 1
    ensures ReduceNode(nuser, inode) == Success(p) <==> UniqueIndexOf(nuser, inode, p)
  {
    var nn := Positions(nuser, inode);
    if UniqueIndexOf(nuser, inode, p) {
      assert p in nn;
      assert forall m :: 0 <= m < |nn| ==> nn[m] == p;
      FirstTwoIncrease(nn);
    }
  }

  lemma FirstTwoIncrease(r: seq<nat>)
    requires forall m, m' :: 0 <= m < m' < |r| ==> r[m] < r[m']
    ensures |r| >= 2 ==> r[0] < r[1]
  {
  }

  /** With reduction in effect the lookup fails exactly when no index, or more than one, holds the user node. */
  lemma ReduceNodeFails(nuser: seq<int>, inode: int)
    requires |nuser| > 1
    ensures ReduceNode(nuser, inode).Failure? <==>
      (forall p :: 0 <= p < |nuser| ==> nuser[p] != inode) ||
      (exists p, q :: 0 <= p < q < |nuser| && nuser[p] == inode && nuser[q] == inode)
  {
    var nn := Positions(nuser, inode);
    if |nn| > 1 {
      assert nn[0] < nn[1];
    }
  }

  /** Without reduction the user node is kept unchanged. */
  lemma ReduceNodeIdentity(nuser: seq<int>, inode: int)
    requires |nuser| <= 1
    ensures ReduceNode(nuser, inode) == Success(inode)
  {
  }

  /**
    * The layer/cell formula is one-to-one on in-range addresses: the layer and
    * the cell can be read back from the user node.
    */
  lemma UnstructuredNodeInverse(ncpl: int, lay: int, node: int)
    requires 1 <= node <= ncpl && 1 <= lay
    ensures var u := UnstructuredNode(ncpl, lay, node);
      u / ncpl + 1 == lay && u % ncpl + 1 == node
  {
    var u := UnstructuredNode(ncpl, lay, node);
    assert u == ncpl * (lay - 1) + (node - 1);
    assert 0 <= node - 1 < ncpl;
    DivModUnique(u, ncpl, lay - 1, node - 1);
  }

  lemma DivModUnique(u: int, d: int, q: int, r: int)
    requires d > 0 && 0 <= r < d && u == d * q + r
    ensures u / d == q && u % d == r
  {
    var q', r' := u / d, u % d;
    assert u == d * q' + r' && 0 <= r' < d;
    if q' > q {
      assert d * q' >= d * (q + 1) by { MulMono(d, q + 1, q'); }
    } else if q' < q {
      assert d * q >= d * (q' + 1) by { MulMono(d, q' + 1, q); }
    }
  }

  lemma MulMono(d: int, a: int, b: int)
    requires d > 0 && a <= b
    ensures d * a <= d * b
  {
  }
}
