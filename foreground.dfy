/** Per-chip assembly of astrophysical-foreground events (`make_foreground`):
    for every chip, candidate events are drawn over the chip's bounding box,
    kept if the chip's region contains them (rectangular chips keep all of
    them), tagged with the chip index and appended; the per-chip blocks are
    then concatenated. No chips at all leaves nothing to concatenate, and an
    empty result is an error. */
module Foreground {
  import opened ArrayOps
  import opened Batch

  /** Bounding box `(xlo, xhi, ylo, yhi)` returned with a chip's region,
      in detector pixels around the chip's own origin. */
  datatype Bounds = Bounds(xlo: real, xhi: real, ylo: real, yhi: real)

  /** A chip's region: its type name, its bounding box and its
      point-in-region test. */
  datatype Region = Region(rtype: string, bounds: Bounds, contains: (real, real) -> bool)

  /** What one iteration of the chip loop receives: the chip's region, the
      photon energies the convolved spectrum sampled for it, and the unit
      draws in [0, 1) of the random source behind the x and the y positions. */
  datatype Chip = Chip(region: Region, energies: seq<real>, unitX: nat -> real, unitY: nat -> real)

  /** The two ways the assembly fails: `np.concatenate` refuses the empty
      list of arrays a batch with no chips leaves under every key (a
      `ValueError`), and a concatenated batch with no events is the
      "no astrophysical foreground events" error. */
  datatype ForegroundError = NothingToConcatenate | NoForegroundEvents

  datatype Result<T> = Ok(value: T) | Err(error: ForegroundError)

  /** Region types whose shape is its own bounding box. */
  predicate IsRectangular(rtype: string)
  {
    rtype == "Box" || rtype == "Rectangle"
  }

  /** One draw of `uniform(low, low + w)` from the random source's unit
      draw v. */
  function Draw(low: real, w: real, v: real): real
  {
    low + w * v
  }

  /** On an interval of positive width w, a unit draw in [0, 1) gives a
      draw in `[low, low + w)`. */
  lemma {:induction false} DrawBound(low: real, w: real, v: real)
    requires w > 0.0 && 0.0 <= v < 1.0
    ensures low <= Draw(low, w, v) < low + w
  {
    ScaledUnit(w, v);
  }

  /** `uniform(low, high, size=n)`: n draws, one per unit draw of the
      random source. */
  function Uniform(low: real, high: real, u: nat -> real, n: nat): (r: seq<real>)
    ensures |r| == n
  {
    seq(n, k requires 0 <= k < n => Draw(low, high - low, u(k)))
  }

  /** On a non-empty interval, every draw from unit draws in [0, 1) lies in
      `[low, high)`. */
  lemma {:induction false} UniformBound(low: real, high: real, u: nat -> real, n: nat, k: nat)
    requires low < high && k < n
    requires 0.0 <= u(k) < 1.0
    ensures low <= Uniform(low, high, u, n)[k] < high
  {
    DrawBound(low, high - low, u(k));
  }

  /** A unit draw scaled by a positive width stays below that width. */
  lemma {:induction false} ScaledUnit(w: real, v: real)
    requires w > 0.0 && 0.0 <= v < 1.0
    ensures 0.0 <= w * v < w
  {
    assert w * (1.0 - v) > 0.0;
    assert w * (1.0 - v) == w - w * v;
  }

  /** The candidate x positions: as many as there are sampled energies. */
  function CandidateX(c: Chip): (r: seq<real>)
    ensures |r| == |c.energies|
  {
    Uniform(c.region.bounds.xlo, c.region.bounds.xhi, c.unitX, |c.energies|)
  }

  /** The candidate y positions: as many as there are sampled energies. */
  function CandidateY(c: Chip): (r: seq<real>)
    ensures |r| == |c.energies|
  {
    Uniform(c.region.bounds.ylo, c.region.bounds.yhi, c.unitY, |c.energies|)
  }

  /** Every candidate lies in the chip's bounding box, `[xlo, xhi)` by
      `[ylo, yhi)`, when the box is not degenerate. */
  lemma {:induction false} CandidatesInBounds(c: Chip, k: nat)
    requires c.region.bounds.xlo < c.region.bounds.xhi && c.region.bounds.ylo < c.region.bounds.yhi
    requires 0.0 <= c.unitX(k) < 1.0 && 0.0 <= c.unitY(k) < 1.0
    requires k < |c.energies|
    ensures c.region.bounds.xlo <= CandidateX(c)[k] < c.region.bounds.xhi
    ensures c.region.bounds.ylo <= CandidateY(c)[k] < c.region.bounds.yhi
  {
    var bd := c.region.bounds;
    UniformBound(bd.xlo, bd.xhi, c.unitX, |c.energies|, k);
    UniformBound(bd.ylo, bd.yhi, c.unitY, |c.energies|, k);
  }

  /** The region's point-in-region test applied to every candidate. */
  function Inside(contains: (real, real) -> bool, xs: seq<real>, ys: seq<real>): (m: seq<bool>)
    requires |ys| == |xs|
    ensures |m| == |xs|
  {
    seq(|xs|, k requires 0 <= k < |xs| => contains(xs[k], ys[k]))
  }

  /** Reference acceptance rule: candidate k of a chip is accepted when the
      chip is rectangular or its region contains the candidate's position. */
  predicate Accepts(c: Chip, k: nat)
    requires k < |c.energies|
  {
    IsRectangular(c.region.rtype) || c.region.contains(CandidateX(c)[k], CandidateY(c)[k])
  }

  /** The acceptance rule applied to every candidate of a chip. */
  function AcceptMask(c: Chip): (m: seq<bool>)
    ensures |m| == |c.energies|
  {
    seq(|c.energies|, k requires 0 <= k < |c.energies| => Accepts(c, k))
  }

  /** Reference definition of one chip's block of events: the energies and
      positions of its accepted candidates, in sampling order, and one chip
      index per accepted candidate. */
  function ChipBlock(i: nat, c: Chip): (b: Events)
    ensures b.Aligned()
    ensures b.Size() <= |c.energies|
  {
    var m := AcceptMask(c);
    Events(MaskSelect(c.energies, m), MaskSelect(CandidateX(c), m), MaskSelect(CandidateY(c), m),
           Fill(Count(m), i as real))
  }

  /** The indices of a chip's accepted candidates, in increasing order. */
  function Retained(c: Chip): (r: seq<nat>)
    ensures |r| <= |c.energies|
    ensures forall j :: 0 <= j < |r| ==> r[j] < |c.energies|
  {
    Positions(AcceptMask(c))
  }

  /** Event p of a batch is candidate k of chip c, tagged with chip index i:
      the same candidate's energy and position, in all four columns. */
  predicate EventIs(ev: Events, p: nat, c: Chip, k: nat, i: nat)
    requires ev.Aligned() && p < ev.Size() && k < |c.energies|
  {
    EventAt(ev, p, c.energies[k], CandidateX(c)[k], CandidateY(c)[k], i as real)
  }

  /** The blocks of all chips, in chip order: the blocks of the chips
      before the last one, then the last chip's block. */
  function Blocks(chips: seq<Chip>): (bs: seq<Events>)
    ensures |bs| == |chips|
  {
    if |chips| == 0 then []
    else Blocks(chips[..|chips| - 1]) + [ChipBlock(|chips| - 1, chips[|chips| - 1])]
  }

  /** The whole assembly as a value: the concatenated batch, or the error
      raised when there is nothing to concatenate or the batch holds no
      events. */
  function Assemble(chips: seq<Chip>): Result<Events>
  {
    if |chips| == 0 then Err(NothingToConcatenate)
    else
      var batch := Concat(Blocks(chips));
      if |batch.energy| == 0 then Err(NoForegroundEvents) else Ok(batch)
  }

  /** Number of events each chip retains. */
  function RetainedCounts(chips: seq<Chip>): (r: seq<nat>)
    ensures |r| == |chips|
    // the element facts, stated so that callers get them without unfolding
    ensures forall i :: 0 <= i < |chips| ==> r[i] == |Retained(chips[i])|
  {
    seq(|chips|, i requires 0 <= i < |chips| => |Retained(chips[i])|)
  }

  /** Where chip i's block starts in the concatenated batch. */
  function Offset(chips: seq<Chip>, i: nat): nat
    requires i <= |chips|
  {
    Sum(RetainedCounts(chips)[..i])
  }

  function TotalRetained(chips: seq<Chip>): nat
  {
    Sum(RetainedCounts(chips))
  }

  // ---------------------------------------------------------------------
  // The chip loop
  // ---------------------------------------------------------------------

  /** The body of the chip loop for chip i: draw the candidate positions,
      keep all of them on a rectangular chip and the contained ones on any
      other, and tag the kept events with the chip index. The block it
      builds is the chip's reference block. */
  method ChipEvents(i: nat, chip: Chip) returns (b: Events)
    ensures b == ChipBlock(i, chip)
  {
    var e := chip.energies;
    var nEvents := |e|;
    var bounds := chip.region.bounds;
    var detx := Uniform(bounds.xlo, bounds.xhi, chip.unitX, nEvents);
    var dety := Uniform(bounds.ylo, bounds.yhi, chip.unitY, nEvents);
    var keptE, keptX, keptY, nDet;
    if IsRectangular(chip.region.rtype) {
      keptE, keptX, keptY, nDet := e, detx, dety, nEvents;
    } else {
      var thisc := Inside(chip.region.contains, detx, dety);
      nDet := Count(thisc);
      keptE, keptX, keptY := MaskSelect(e, thisc), MaskSelect(detx, thisc), MaskSelect(dety, thisc);
    }
    b := Events(keptE, keptX, keptY, Fill(nDet, i as real));
    ChipBlockBranches(i, chip);
  }

  /** The loop over the keys of the batch: every key's list of arrays
      replaced by their concatenation. A key whose list is empty stops the
      loop with the error `np.concatenate` raises. */
  method ConcatenateParts(parts: map<Key, seq<seq<real>>>) returns (r: Result<map<Key, seq<real>>>)
    ensures r.Err? <==> exists k :: k in parts && parts[k] == []
    ensures r.Err? ==> r.error == NothingToConcatenate
    ensures r.Ok? ==> r.value.Keys == parts.Keys
    ensures r.Ok? ==> forall k :: k in parts ==> r.value[k] == Flatten(parts[k])
  {
    var columns := map[];
    var keys := parts.Keys;
    while keys != {}
      invariant keys <= parts.Keys
      invariant columns.Keys == parts.Keys - keys
      invariant forall k :: k in columns ==> parts[k] != [] && columns[k] == Flatten(parts[k])
      decreases keys
    {
      var k :| k in keys;
      if parts[k] == [] {
        return Err(NothingToConcatenate);
      }
      columns := columns[k := Flatten(parts[k])];
      keys := keys - {k};
    }
    r := Ok(columns);
  }

  /** The chip loop: for each chip in order, its block's four arrays are
      appended to the lists under the four keys. */
  method CollectBlocks(chips: seq<Chip>) returns (parts: map<Key, seq<seq<real>>>)
    ensures parts.Keys == {Energy, DetX, DetY, ChipId}
    ensures forall k :: k in parts ==> parts[k] == ColumnBlocks(Blocks(chips), k)
  {
    parts := map[Energy := [], DetX := [], DetY := [], ChipId := []];
    ghost var blocks: seq<Events> := [];
    for i := 0 to |chips|
      invariant parts.Keys == {Energy, DetX, DetY, ChipId}
      invariant blocks == Blocks(chips[..i])
      invariant forall k :: k in parts ==> parts[k] == ColumnBlocks(blocks, k)
    {
      var b := ChipEvents(i, chips[i]);
      assert chips[..i + 1][..i] == chips[..i];
      forall k: Key
        ensures ColumnBlocks(blocks + [b], k) == ColumnBlocks(blocks, k) + [b.Column(k)]
      {
        ColumnBlocksAppend(blocks, b, k);
      }
      parts := map k | k in parts :: parts[k] + [b.Column(k)];
      blocks := blocks + [b];
    }
    assert chips[..|chips|] == chips;
  }

  /** `make_foreground` from the creation of the batch to the empty check:
      the batch is built chip by chip under its four keys, every key's list
      of arrays is concatenated, and an empty batch is an error. */
  method MakeForeground(chips: seq<Chip>) returns (r: Result<Events>)
    ensures r == Assemble(chips)
    ensures r == Err(NothingToConcatenate) <==> |chips| == 0
    ensures r == Err(NoForegroundEvents) <==> |chips| > 0 && TotalRetained(chips) == 0
    ensures r.Ok? <==> TotalRetained(chips) > 0
    ensures r.Ok? ==> r.value.Aligned() && r.value.Size() == TotalRetained(chips)
  {
    var parts := CollectBlocks(chips);
    assert |chips| == 0 <==> parts[Energy] == [];
    var concatenated := ConcatenateParts(parts);
    if concatenated.Err? {
      r := Err(NothingToConcatenate);
      AssembleAligned(chips);
      return;
    }
    var columns := concatenated.value;
    var batch := Events(columns[Energy], columns[DetX], columns[DetY], columns[ChipId]);
    assert batch == Concat(Blocks(chips));
    if |batch.energy| == 0 {
      r := Err(NoForegroundEvents);
    } else {
      r := Ok(batch);
    }
    AssembleAligned(chips);
  }

  // ---------------------------------------------------------------------
  // Properties of one chip
  // ---------------------------------------------------------------------

  /** The retained indices are exactly the accepted candidates, each named
      once and in increasing (that is, sampling) order. */
  lemma {:induction false} RetainedExactly(c: Chip)
    ensures StrictlyIncreasing(Retained(c))
    ensures forall j :: 0 <= j < |Retained(c)| ==> Retained(c)[j] < |c.energies|
    ensures forall k :: 0 <= k < |c.energies| ==> (k in Retained(c) <==> Accepts(c, k))
  {
    PositionsExact(AcceptMask(c));
  }

  /** A chip's block holds exactly its retained candidates: entry j of every
      column comes from the same candidate, `Retained(c)[j]`, and carries
      the chip's index. */
  lemma {:induction false} ChipBlockRetains(i: nat, c: Chip)
    ensures ChipBlock(i, c).Size() == |Retained(c)|
    ensures forall j :: 0 <= j < |Retained(c)| ==> EventIs(ChipBlock(i, c), j, c, Retained(c)[j], i)
  {
    var m := AcceptMask(c);
    MaskSelectAt(c.energies, m);
    MaskSelectAt(CandidateX(c), m);
    MaskSelectAt(CandidateY(c), m);
  }

  /** The loop body's two branches both build the reference block. The
      "Box"/"Rectangle" short cut keeps every candidate, as the acceptance
      rule does for such a chip. Any other chip keeps what the mask of the
      region's test selects. */
  lemma {:induction false} ChipBlockBranches(i: nat, c: Chip)
    ensures IsRectangular(c.region.rtype) ==>
              ChipBlock(i, c) == Events(c.energies, CandidateX(c), CandidateY(c), Fill(|c.energies|, i as real))
    ensures !IsRectangular(c.region.rtype) ==>
              var mask := Inside(c.region.contains, CandidateX(c), CandidateY(c));
              ChipBlock(i, c) == Events(MaskSelect(c.energies, mask), MaskSelect(CandidateX(c), mask),
                                        MaskSelect(CandidateY(c), mask), Fill(Count(mask), i as real))
  {
    var m := AcceptMask(c);
    if IsRectangular(c.region.rtype) {
      MaskSelectAllTrue(c.energies, m);
      MaskSelectAllTrue(CandidateX(c), m);
      MaskSelectAllTrue(CandidateY(c), m);
    } else {
      assert Inside(c.region.contains, CandidateX(c), CandidateY(c)) == m;
    }
  }

  /** A "Box" or "Rectangle" chip keeps every sampled candidate, unchanged
      and in order. */
  lemma {:induction false} BoxKeepsAll(i: nat, c: Chip)
    requires IsRectangular(c.region.rtype)
    ensures |Retained(c)| == |c.energies|
    ensures ChipBlock(i, c).energy == c.energies
    ensures ChipBlock(i, c).detx == CandidateX(c) && ChipBlock(i, c).dety == CandidateY(c)
  {
    ChipBlockBranches(i, c);
    PositionsAllTrue(AcceptMask(c));
  }

  // ---------------------------------------------------------------------
  // Properties of the assembled batch
  // ---------------------------------------------------------------------

  /** Every chip's block is aligned. */
  lemma {:induction false} BlocksAligned(chips: seq<Chip>)
    ensures AllAligned(Blocks(chips))
  {
    forall i | 0 <= i < |chips|
      ensures Blocks(chips)[i].Aligned()
    {
      BlocksAt(chips, i);
    }
  }

  /** Block i is chip i's block. */
  lemma {:induction false} BlocksAt(chips: seq<Chip>, i: nat)
    requires i < |chips|
    ensures Blocks(chips)[i] == ChipBlock(i, chips[i])
  {
    var n := |chips|;
    var init := chips[..n - 1];
    assert Blocks(chips) == Blocks(init) + [ChipBlock(n - 1, chips[n - 1])];
    if i < n - 1 {
      BlocksAt(init, i);
      assert init[i] == chips[i];
    }
  }

  /** Block i holds as many events as chip i retains. */
  lemma {:induction false} BlockSizes(chips: seq<Chip>)
    ensures Sizes(Blocks(chips)) == RetainedCounts(chips)
  {
    forall i | 0 <= i < |chips|
      ensures Blocks(chips)[i].Size() == |Retained(chips[i])|
    {
      BlocksAt(chips, i);
      ChipBlockRetains(i, chips[i]);
    }
  }

  /** Chip i's block starts after the events the chips before it retain,
      and all blocks together hold every retained event. */
  lemma {:induction false} BlockOffsets(chips: seq<Chip>, i: nat)
    requires i <= |chips|
    ensures Sum(Sizes(Blocks(chips))[..i]) == Offset(chips, i)
    ensures Sum(Sizes(Blocks(chips))) == TotalRetained(chips)
  {
    BlockSizes(chips);
    assert Sizes(Blocks(chips))[..i] == RetainedCounts(chips)[..i];
  }

  /** The blocks are contiguous: chip i + 1's block starts right after the
      events chip i retains. */
  lemma {:induction false} OffsetStep(chips: seq<Chip>, i: nat)
    requires i < |chips|
    ensures Offset(chips, i + 1) == Offset(chips, i) + |Retained(chips[i])|
  {
    SumPrefixStep(RetainedCounts(chips), i);
  }

  /** Every position below the total retained count falls in the block of
      some chip: at or after its offset and before its offset plus its
      retained count. */
  lemma {:induction false} OffsetLocate(chips: seq<Chip>, p: nat)
    requires p < TotalRetained(chips)
    ensures exists i: nat :: i < |chips| && Offset(chips, i) <= p < Offset(chips, i) + |Retained(chips[i])|
  {
    var counts := RetainedCounts(chips);
    SumLocate(counts, p);
    var i: nat :| i < |counts| && Sum(counts[..i]) <= p < Sum(counts[..i]) + counts[i];
    assert Offset(chips, i) == Sum(counts[..i]) && counts[i] == |Retained(chips[i])|;
  }

  /** With no chips there is nothing to concatenate. Otherwise the
      assembled columns have equal lengths, the sum of the chips' retained
      counts, and the batch is the empty-batch error exactly when that sum
      is 0. */
  lemma {:induction false} AssembleAligned(chips: seq<Chip>)
    ensures Assemble(chips) == Err(NothingToConcatenate) <==> |chips| == 0
    ensures Assemble(chips) == Err(NoForegroundEvents) <==> |chips| > 0 && TotalRetained(chips) == 0
    ensures Assemble(chips).Ok? <==> TotalRetained(chips) > 0
    ensures Assemble(chips).Ok? ==>
              Assemble(chips).value.Aligned() && Assemble(chips).value.Size() == TotalRetained(chips)
  {
    BlocksAligned(chips);
    BlockOffsets(chips, 0);
    ConcatAligned(Blocks(chips));
  }

  /** The empty-batch error is raised exactly when there are chips and
      none of them retains any event. */
  lemma {:induction false} AssembleErrorIffNoneRetained(chips: seq<Chip>)
    ensures Assemble(chips) == Err(NoForegroundEvents) <==>
              |chips| > 0 && forall i :: 0 <= i < |chips| ==> |Retained(chips[i])| == 0
  {
    var counts := RetainedCounts(chips);
    SumZero(counts);
    assert (forall j :: 0 <= j < |counts| ==> counts[j] == 0) <==>
           (forall i :: 0 <= i < |chips| ==> |Retained(chips[i])| == 0);
    AssembleAligned(chips);
  }

  /** Retained candidate j of chip i appears in the batch at chip i's offset
      plus j, with its energy and position, tagged with chip index i. */
  lemma {:induction false} AssembleInChipOrder(chips: seq<Chip>, i: nat, j: nat)
    requires i < |chips| && j < |Retained(chips[i])|
    ensures Assemble(chips).Ok? && Assemble(chips).value.Aligned()
    ensures Offset(chips, i) + j < Assemble(chips).value.Size()
    ensures EventIs(Assemble(chips).value, Offset(chips, i) + j, chips[i], Retained(chips[i])[j], i)
  {
    BlocksEvent(chips, i, j);
  }

  /** The same, for the concatenated blocks before the empty check. */
  lemma {:induction false} BlocksEvent(chips: seq<Chip>, i: nat, j: nat)
    requires i < |chips| && j < |Retained(chips[i])|
    ensures Concat(Blocks(chips)).Aligned() && Offset(chips, i) + j < Concat(Blocks(chips)).Size()
    ensures EventIs(Concat(Blocks(chips)), Offset(chips, i) + j, chips[i], Retained(chips[i])[j], i)
  {
    BlocksEventPre(chips, i, j);
    ConcatChipEvent(Blocks(chips), Offset(chips, i) + j, chips[i], Retained(chips[i])[j], i, j);
  }

  /** What locating a chip's event in the concatenation needs: aligned
      blocks, the event in chip i's block, and chip i's offset. */
  lemma {:induction false} BlocksEventPre(chips: seq<Chip>, i: nat, j: nat)
    requires i < |chips| && j < |Retained(chips[i])|
    ensures AllAligned(Blocks(chips)) && j < Blocks(chips)[i].Size()
    ensures Offset(chips, i) + j == Sum(Sizes(Blocks(chips))[..i]) + j
    ensures EventIs(Blocks(chips)[i], j, chips[i], Retained(chips[i])[j], i)
  {
    BlocksAligned(chips);
    BlockEvent(chips, i, j);
    BlockOffsets(chips, i);
  }

  /** If event j of block i is a chip's candidate k, so is its event in
      the concatenated batch. */
  lemma {:induction false} ConcatChipEvent(bs: seq<Events>, q: nat, c: Chip, k: nat, i: nat, j: nat)
    requires AllAligned(bs) && i < |bs| && j < bs[i].Size() && k < |c.energies|
    requires q == Sum(Sizes(bs)[..i]) + j
    requires EventIs(bs[i], j, c, k, i)
    ensures Concat(bs).Aligned() && q < Concat(bs).Size()
    ensures EventIs(Concat(bs), q, c, k, i)
  {
    ConcatEventAt(bs, i, j, c.energies[k], CandidateX(c)[k], CandidateY(c)[k], i as real);
  }

  /** Entry j of chip i's block is chip i's j-th retained candidate. */
  lemma {:induction false} BlockEvent(chips: seq<Chip>, i: nat, j: nat)
    requires i < |chips| && j < |Retained(chips[i])|
    ensures Blocks(chips)[i].Aligned() && j < Blocks(chips)[i].Size()
    ensures EventIs(Blocks(chips)[i], j, chips[i], Retained(chips[i])[j], i)
  {
    BlocksAt(chips, i);
    ChipBlockRetains(i, chips[i]);
  }

  /** Every event of the batch is some chip's retained candidate, placed at
      that chip's offset, with that candidate's energy and position and the
      chip's index. */
  lemma {:induction false} AssembleEventFromChip(chips: seq<Chip>, p: nat)
    requires Assemble(chips).Ok? && p < Assemble(chips).value.Size()
    ensures Assemble(chips).value.Aligned()
    ensures exists i: nat, j: nat ::
              i < |chips| && j < |Retained(chips[i])| && p == Offset(chips, i) + j &&
              EventIs(Assemble(chips).value, Offset(chips, i) + j, chips[i], Retained(chips[i])[j], i)
  {
    AssembleAligned(chips);
    OffsetLocate(chips, p);
    var i: nat :| i < |chips| && Offset(chips, i) <= p < Offset(chips, i) + |Retained(chips[i])|;
    var j: nat := p - Offset(chips, i);
    AssembleInChipOrder(chips, i, j);
  }
}
