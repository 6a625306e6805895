/** The dimension patch for single-block piecewise-linear costs that were
    converted to polynomial form (opf_execute, lines 189-203): the solver's
    vectors then lack one auxiliary variable per converted cost, and the
    patch splices that many zeros back in so that every registered block
    is found where the registry says. */
module PwlPatch {
  import opened Blocks

  /** Line 193: the patch runs when some cost was converted and the
      algorithm is not one of the two (545, 550) that handle it natively. */
  predicate PwlApplies(converted: nat, alg: int) {
    converted > 0 && alg != 545 && alg != 550
  }

  /** Lines 196-199: the vectors are split at the end of the real-power
      block in DC mode and at the end of the reactive-power block in AC mode. */
  function SplitPoint(dc: bool, vv: Registry): nat
    requires (if dc then "Pg" else "Qg") in vv
  {
    if dc then vv["Pg"].iN() else vv["Qg"].iN()
  }

  /** `zeros(k)`. */
  function Zeros(k: nat): (z: seq<real>)
    ensures |z| == k && forall i :: 0 <= i < k ==> z[i] == 0.0
  {
    seq(k, i => 0.0)
  }

  /** Where Python's `x[:nx]` and `x[nx:]` cut `x`: slicing clamps an end
      past the vector to its length. */
  function Cut(nx: nat, len: nat): (c: nat)
    ensures c <= len && (nx <= len ==> c == nx)
  {
    if nx < len then nx else len
  }

  /** Lines 202-203: `r_[x[:nx], zeros(k), x[nx:]]`. The prefix before the
      cut and the suffix after it keep their values and order; between
      them lie `k` zeros. */
  function InsertZeros(x: seq<real>, nx: nat, k: nat): (r: seq<real>)
    ensures |r| == |x| + k
    ensures r[..Cut(nx, |x|)] == x[..Cut(nx, |x|)]
    ensures forall i :: Cut(nx, |x|) <= i < Cut(nx, |x|) + k ==> r[i] == 0.0
    ensures r[Cut(nx, |x|) + k..] == x[Cut(nx, |x|)..]
  {
    var c := Cut(nx, |x|);
    var r := x[..c] + Zeros(k) + x[c..];
    assert r[c + k..] == x[c..];
    r
  }

  /** The inverse of the splice: drop `k` elements starting at `at`. */
  function RemoveSegment(r: seq<real>, at: nat, k: nat): (s: seq<real>)
    requires at + k <= |r|
    ensures |s| == |r| - k
    ensures forall i :: 0 <= i < |s| ==> s[i] == (if i < at then r[i] else r[i + k])
  {
    r[..at] + r[at + k..]
  }

  /** Round trip: removing the inserted placeholder gives back the vector. */
  lemma RemoveAfterInsert(x: seq<real>, nx: nat, k: nat)
    ensures RemoveSegment(InsertZeros(x, nx, k), Cut(nx, |x|), k) == x
  {
    var c := Cut(nx, |x|);
    var r := InsertZeros(x, nx, k);
    var s := RemoveSegment(r, c, k);
    forall i | 0 <= i < |x| ensures s[i] == x[i] {
      if i < c {
        assert r[..c][i] == x[..c][i];
      } else {
        assert r[c + k..][i - c] == x[c..][i - c];
      }
    }
  }

  /** Inserting no placeholder changes nothing. */
  lemma InsertNoneIsIdentity(x: seq<real>, nx: nat)
    ensures InsertZeros(x, nx, 0) == x
  {
    var c := Cut(nx, |x|);
    assert x[..c] + x[c..] == x;
  }

  /** Blocks that end at or before the split point are found where they
      were; blocks that start at or after it are found `k` places later,
      with the same contents. */
  lemma BlocksAfterInsert(x: seq<real>, nx: nat, k: nat, b: Block)
    requires b.iN() <= |x|
    ensures b.iN() <= nx ==> Slice(InsertZeros(x, nx, k), b) == Slice(x, b)
    ensures nx <= b.i1 ==> Slice(InsertZeros(x, nx, k), Block(b.i1 + k, b.n)) == Slice(x, b)
  {
    var r := InsertZeros(x, nx, k);
    var c := Cut(nx, |x|);
    if b.iN() <= nx {
      assert r[b.i1..b.iN()] == r[..c][b.i1..b.iN()];
      assert x[b.i1..b.iN()] == x[..c][b.i1..b.iN()];
    }
    if nx <= b.i1 {
      assert r[b.i1 + k..b.iN() + k] == r[c + k..][b.i1 - c..b.iN() - c];
      assert x[b.i1..b.iN()] == x[c..][b.i1 - c..b.iN() - c];
    }
  }
}
