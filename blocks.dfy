/** The block index registry of the OPF model (`om.get_idx()` and
    `om.getN`): for one space (variables, linear constraints, nonlinear
    constraints or cost terms) each block name owns the contiguous range
    `[i1, iN)` of that space's flat vectors, with `N = iN - i1`. */
module Blocks {

  /** One registry entry. The model builder always sets `iN = i1 + N`, so
      the entry is stored as its first index and its width. */
  datatype Block = Block(i1: nat, n: nat) {
    /** The index one past the block's last element. */
    function iN(): nat { i1 + n }
  }

  type Registry = map<string, Block>

  /** Every name of `order` is registered, and every block of positive
      width lies inside a vector of length `len`. This is what indexing a
      flat vector with `arange(i1, iN)` needs for every name the expansion
      does not skip. */
  predicate InRange(order: seq<string>, reg: Registry, len: nat) {
    forall name :: name in order ==> name in reg && (reg[name].n > 0 ==> reg[name].iN() <= len)
  }

  /** The elements `v[i1..iN]` of block `b`. */
  function Slice(v: seq<real>, b: Block): (r: seq<real>)
    requires b.iN() <= |v|
    ensures |r| == b.n
    ensures forall j :: 0 <= j < b.n ==> r[j] == v[b.i1 + j]
  {
    v[b.i1..b.iN()]
  }

  /** The registry lays the names of `order` out back to back from `start`,
      as the model builder does when it adds blocks one after another. */
  ghost predicate Packed(order: seq<string>, reg: Registry, start: nat)
    decreases |order|
  {
    order == [] ||
    (order[0] in reg && reg[order[0]].i1 == start && Packed(order[1..], reg, reg[order[0]].iN()))
  }

  /** The total width of a packed layout, counted from `start`. */
  ghost function PackedEnd(order: seq<string>, reg: Registry, start: nat): nat
    requires Packed(order, reg, start)
    decreases |order|
  {
    if order == [] then start else PackedEnd(order[1..], reg, reg[order[0]].iN())
  }

  /** Every block of a packed layout lies between its start and its end. */
  lemma {:induction false} PackedBounds(order: seq<string>, reg: Registry, start: nat)
    requires Packed(order, reg, start)
    ensures start <= PackedEnd(order, reg, start)
    ensures forall name :: name in order ==>
      name in reg && start <= reg[name].i1 && reg[name].iN() <= PackedEnd(order, reg, start)
    decreases |order|
  {
    if order != [] {
      PackedBounds(order[1..], reg, reg[order[0]].iN());
      forall name | name in order
        ensures name in reg && start <= reg[name].i1 && reg[name].iN() <= PackedEnd(order, reg, start)
      {
        if name != order[0] {
          assert name in order[1..];
        }
      }
    }
  }

  /** A vector exactly as long as a packed layout from 0 can be indexed by
      every one of its blocks. */
  lemma PackedIsInRange(order: seq<string>, reg: Registry, len: nat)
    requires Packed(order, reg, 0) && len == PackedEnd(order, reg, 0)
    ensures InRange(order, reg, len)
  {
    PackedBounds(order, reg, 0);
  }
}
