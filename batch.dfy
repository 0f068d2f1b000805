/** The event batch: a mapping from four keys to parallel columns, grown
    as a list of per-chip blocks under each key and then concatenated. */
module Batch {
  import opened ArrayOps

  /** The four keys of the event batch. */
  datatype Key = Energy | DetX | DetY | ChipId

  /** A batch of events: four parallel columns, one entry per photon. Chip
      indices are stored as floating-point values, as `i * ones(n)` is. */
  datatype Events = Events(energy: seq<real>, detx: seq<real>, dety: seq<real>, chipId: seq<real>)
  {
    function Column(k: Key): seq<real>
    {
      match k
      case Energy => energy
      case DetX => detx
      case DetY => dety
      case ChipId => chipId
    }

    /** All four columns have the same length. */
    predicate Aligned()
    {
      |detx| == |energy| && |dety| == |energy| && |chipId| == |energy|
    }

    function Size(): nat
    {
      |energy|
    }
  }

  predicate AllAligned(bs: seq<Events>)
  {
    forall i :: 0 <= i < |bs| ==> bs[i].Aligned()
  }

  /** Number of events in each block. */
  function Sizes(bs: seq<Events>): (r: seq<nat>)
    ensures |r| == |bs|
    // the element facts, stated so that callers get them without unfolding
    ensures forall i :: 0 <= i < |bs| ==> r[i] == bs[i].Size()
  {
    seq(|bs|, i requires 0 <= i < |bs| => bs[i].Size())
  }

  /** The list of arrays held under one key, one per block. */
  function ColumnBlocks(bs: seq<Events>, k: Key): (r: seq<seq<real>>)
    ensures |r| == |bs|
    // the element facts, stated so that callers get them without unfolding
    ensures forall j :: 0 <= j < |bs| ==> r[j] == bs[j].Column(k)
  {
    seq(|bs|, j requires 0 <= j < |bs| => bs[j].Column(k))
  }

  /** The batch after every key's list of blocks has been concatenated. */
  function Concat(bs: seq<Events>): Events
  {
    Events(Flatten(ColumnBlocks(bs, Energy)), Flatten(ColumnBlocks(bs, DetX)),
           Flatten(ColumnBlocks(bs, DetY)), Flatten(ColumnBlocks(bs, ChipId)))
  }

  /** Appending a block appends its column to every key's list. */
  lemma {:induction false} ColumnBlocksAppend(bs: seq<Events>, b: Events, k: Key)
    ensures ColumnBlocks(bs + [b], k) == ColumnBlocks(bs, k) + [b.Column(k)]
  {
  }

  lemma {:induction false} ConcatColumn(bs: seq<Events>, k: Key)
    ensures Concat(bs).Column(k) == Flatten(ColumnBlocks(bs, k))
  {
    match k
    case Energy =>
    case DetX =>
    case DetY =>
    case ChipId =>
  }

  /** When every block is aligned, every key's block lengths are the blocks' sizes. */
  lemma {:induction false} ColumnLengths(bs: seq<Events>, k: Key)
    requires AllAligned(bs)
    ensures Lengths(ColumnBlocks(bs, k)) == Sizes(bs)
  {
    forall i | 0 <= i < |bs|
      ensures |bs[i].Column(k)| == bs[i].Size()
    {
      assert bs[i].Aligned();
    }
  }

  /** Concatenating aligned blocks gives an aligned batch holding as many
      events as all blocks together. */
  lemma {:induction false} ConcatAligned(bs: seq<Events>)
    requires AllAligned(bs)
    ensures Concat(bs).Aligned()
    ensures Concat(bs).Size() == Sum(Sizes(bs))
  {
    var ev := Concat(bs);
    forall k: Key
      ensures |ev.Column(k)| == Sum(Sizes(bs))
    {
      ColumnLengths(bs, k);
      ConcatColumn(bs, k);
    }
    assert |ev.Column(Energy)| == |ev.Column(DetX)| == |ev.Column(DetY)| == |ev.Column(ChipId)|;
  }

  /** Under every key, entry j of block i is entry `Sum(Sizes(bs)[..i]) + j`
      of the concatenated column. */
  lemma {:induction false} ConcatAt(bs: seq<Events>, i: nat, j: nat, k: Key)
    requires AllAligned(bs) && i < |bs| && j < bs[i].Size()
    ensures Sum(Sizes(bs)[..i]) + j < |Concat(bs).Column(k)|
    ensures Concat(bs).Column(k)[Sum(Sizes(bs)[..i]) + j] == bs[i].Column(k)[j]
  {
    ColumnLengths(bs, k);
    ConcatColumn(bs, k);
    assert bs[i].Aligned();
    FlattenAt(ColumnBlocks(bs, k), i, j);
  }

  /** Event j of block i is event `Sum(Sizes(bs)[..i]) + j` of the
      concatenated batch, in all four columns. */
  lemma {:induction false} ConcatEvent(bs: seq<Events>, i: nat, j: nat)
    requires AllAligned(bs) && i < |bs| && j < bs[i].Size()
    ensures Concat(bs).Aligned() && Sum(Sizes(bs)[..i]) + j < Concat(bs).Size()
    ensures SameEvent(Concat(bs), Sum(Sizes(bs)[..i]) + j, bs[i], j)
  {
    var ev, p := Concat(bs), Sum(Sizes(bs)[..i]) + j;
    assert bs[i].Aligned();
    ConcatAligned(bs);
    ConcatAt(bs, i, j, Energy);
    ConcatAt(bs, i, j, DetX);
    ConcatAt(bs, i, j, DetY);
    ConcatAt(bs, i, j, ChipId);
  }

  /** Event p of `ev` has the energy, position and chip index of event j of `b`. */
  predicate SameEvent(ev: Events, p: nat, b: Events, j: nat)
    requires ev.Aligned() && p < ev.Size() && b.Aligned() && j < b.Size()
  {
    ev.energy[p] == b.energy[j] && ev.detx[p] == b.detx[j] &&
    ev.dety[p] == b.dety[j] && ev.chipId[p] == b.chipId[j]
  }

  /** Event p of `ev` has energy e, position (x, y) and chip index id. */
  predicate EventAt(ev: Events, p: nat, e: real, x: real, y: real, id: real)
    requires ev.Aligned() && p < ev.Size()
  {
    ev.energy[p] == e && ev.detx[p] == x && ev.dety[p] == y && ev.chipId[p] == id
  }

  /** An event of block i keeps its energy, position and chip index at its
      place in the concatenated batch. */
  lemma {:induction false} ConcatEventAt(bs: seq<Events>, i: nat, j: nat, e: real, x: real, y: real, id: real)
    requires AllAligned(bs) && i < |bs| && j < bs[i].Size()
    requires bs[i].Aligned() && EventAt(bs[i], j, e, x, y, id)
    ensures Concat(bs).Aligned() && Sum(Sizes(bs)[..i]) + j < Concat(bs).Size()
    ensures EventAt(Concat(bs), Sum(Sizes(bs)[..i]) + j, e, x, y, id)
  {
    ConcatEvent(bs, i, j);
  }

  /** Every event of the concatenated batch falls in the block of some
      block i: at or after the events of the blocks before it, and before
      the end of block i. */
  lemma {:induction false} ConcatLocate(bs: seq<Events>, p: nat)
    requires AllAligned(bs) && p < Concat(bs).Size()
    ensures exists i: nat :: i < |bs| && Sum(Sizes(bs)[..i]) <= p < Sum(Sizes(bs)[..i]) + bs[i].Size()
  {
    ConcatAligned(bs);
    SumLocate(Sizes(bs), p);
  }
}
