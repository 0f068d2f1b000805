# Astrophysical-foreground event assembly

This project models how `make_foreground` in SOXS builds its batch of
astrophysical-foreground events. The batch starts as a dictionary with four
empty lists, `energy`, `detx`, `dety` and `chip_id`. The chips are visited in
order. For each chip:

- sampled photon energies are taken as given;
- one candidate `(detx, dety)` position is drawn per energy, uniformly over the
  bounding box of the chip's region;
- a `"Box"` or `"Rectangle"` chip keeps every candidate;
- any other chip keeps the candidates its region contains;
- the kept slices are appended under the four keys, together with
  `i * ones(n_det)` under `chip_id`.

After the loop, each key's list of arrays is concatenated. With no chips at
all, every list is empty, and `np.concatenate` refuses it with a `ValueError`
before the empty check is reached. Otherwise an empty batch raises the
"no astrophysical foreground events" error. The model keeps the two failures
apart: `NothingToConcatenate` and `NoForegroundEvents`.

Files:

- `arrayops.dfy` (module `ArrayOps`) models the numpy operations the loop uses,
  stated on sequences:
  - mask indexing `a[mask]`;
  - `mask.sum()`;
  - `v * np.ones(n)`;
  - `np.concatenate`.
- `batch.dfy` (module `Batch`) models the four-column event batch and the
  concatenation of a list of per-chip blocks.
- `foreground.dfy` (module `Foreground`) has the imperative model and the
  reference definitions:
  - the loop body for one chip is the method `ChipEvents`;
  - the chip loop is `CollectBlocks`;
  - the loop over the keys is `ConcatenateParts`;
  - `MakeForeground` runs the chip loop and the key loop, then does the empty
    check;
  - `Accepts`, `ChipBlock`, `Blocks` and `Assemble` are reference definitions
    of the result, written independently of the loops;
  - the lemmas say what that result holds.

The reference definitions work from an acceptance rule: a candidate is kept
when the chip is rectangular or its region contains the candidate. There is
no separate "Box"/"Rectangle" branch. `ChipBlockBranches` proves that both of
the loop body's branches agree with that rule.

Abstractions:

- Per-chip energies are an input sequence. `generate_energies` samples them at
  random from a foreign spectrum object.
- Each `prng.uniform(low, high, size=n)` call is modelled as n draws
  `Draw(low, high - low, u(k)) = low + (high - low) * u(k)` for k < n. Here `u` is the stream of unit draws
  the random source gives that call, and it is an input of the chip.
- The region is a type name, a bounding box and an uninterpreted point-in-region
  test (`contains`).
- `chip_id` entries are reals (`i as real`), because `i * np.ones(n)` gives
  floating-point values.
- The dictionary `bkg_events` is a `map` from the four keys to lists of arrays.
  - In the chip loop, all four keys get their append in one map update. The
    source makes four separate appends, with the same result.
  - The key loop puts its results in a second map, because the value type
    changes from a list of arrays to one array. The source overwrites each
    entry in place.
- The one source function is split into three methods: the loop body, the chip
  loop and the key loop. Each is proved on its own.

## Model

| member | source | states |
|---|---|---|
| Foreground.MakeForeground | soxs/background/foreground.py:50-78 | The chip loop and the key loop give exactly the reference result `Assemble(chips)`. With no chips the result is the concatenation error. With chips it is the empty-batch error exactly when none of them retains an event. It succeeds exactly when some event is retained, and then the four columns are aligned and hold the sum of the chips' retained counts. |
| Foreground.CollectBlocks | soxs/background/foreground.py:50-71 | The only keys are `energy`, `detx`, `dety` and `chip_id`. After the loop, each key's list holds that column of every chip's reference block, in chip order. |
| Foreground.ChipEvents | soxs/background/foreground.py:59-71 | One iteration of the loop body builds exactly the chip's reference block. This covers both the shortcut for rectangular regions and the region mask. |
| Foreground.ConcatenateParts | soxs/background/foreground.py:73-74 | The key loop fails, with the concatenation error, exactly when some key's list of arrays is empty. Otherwise every key is kept, and its list is replaced by the concatenation of its arrays. |
| Foreground.Uniform | soxs/background/foreground.py:60-61 | A uniform draw of size n gives n positions. |
| Foreground.DrawBound | soxs/background/foreground.py:60-61 | On an interval of positive width, a unit draw in `[0, 1)` gives a position in `[low, high)`. |
| Foreground.UniformBound | soxs/background/foreground.py:60-61 | Every position of `uniform(low, high, size=n)` lies in `[low, high)` when `low < high` and its unit draw lies in `[0, 1)`. |
| Foreground.CandidatesInBounds | soxs/background/foreground.py:59-61 | Every candidate position lies in the chip's bounding box, `[xlo, xhi)` by `[ylo, yhi)`, when the box is not degenerate and the unit draws lie in `[0, 1)`. |
| Foreground.CandidateX | soxs/background/foreground.py:59-60 | There are exactly as many candidate x positions as sampled energies (`n_events`). |
| Foreground.CandidateY | soxs/background/foreground.py:59-61 | There are exactly as many candidate y positions as sampled energies. |
| Foreground.Inside | soxs/background/foreground.py:66 | The region test gives one mask entry per candidate. |
| Foreground.ChipBlock | soxs/background/foreground.py:62-71 | A chip's block is aligned: its energy, detx, dety and chip_id arrays have equal lengths. It never holds more events than were sampled. |
| Foreground.Retained | soxs/background/foreground.py:62-67 | A chip retains at most `n_events` candidates, and every retained index names a sampled candidate. |
| Foreground.RetainedExactly | soxs/background/foreground.py:62-70 | The retained candidates are in strictly increasing (sampling) order. A candidate is retained if and only if the chip is rectangular or its region contains the candidate. |
| Foreground.ChipBlockRetains | soxs/background/foreground.py:62-71 | A chip's block length equals its retained count (`n_det`). Entry j of the block has the energy and position of the j-th retained candidate and chip index i. |
| Foreground.ChipBlockBranches | soxs/background/foreground.py:62-71 | On a "Box" or "Rectangle" chip, the full slice and `n_det = n_events` give the reference block. On any other chip, the `contains` mask and its sum give the reference block. |
| Foreground.BoxKeepsAll | soxs/background/foreground.py:62-70 | A "Box" or "Rectangle" chip retains all `n_events` candidates. Its block's energy, detx and dety arrays are the sampled ones, unchanged. |
| Foreground.BlocksAt | soxs/background/foreground.py:52-71 | The i-th appended block is chip i's block. |
| Foreground.BlocksAligned | soxs/background/foreground.py:68-71 | Every appended block is aligned. |
| Foreground.BlockSizes | soxs/background/foreground.py:64-71 | The length of block i is chip i's retained count. |
| Foreground.BlockOffsets | soxs/background/foreground.py:73-74 | Block i starts in the concatenation after the events retained by chips 0 to i-1. The blocks together hold every retained event. |
| Foreground.OffsetStep | soxs/background/foreground.py:73-74 | The blocks are contiguous: chip i+1's events start right after chip i's. |
| Foreground.OffsetLocate | soxs/background/foreground.py:73-74 | Every position below the total retained count lies inside the block of exactly such a chip: at or after its offset, and before its offset plus its retained count. |
| Foreground.AssembleAligned | soxs/background/foreground.py:50-78 | The assembly is the concatenation error exactly when there are no chips. It is the empty-batch error exactly when there are chips and the total retained count is zero. It succeeds exactly when that total is positive, and then all four columns have that length. |
| Foreground.AssembleErrorIffNoneRetained | soxs/background/foreground.py:73-78 | The empty-batch error is raised exactly when there are chips and none of them retains any event. |
| Foreground.BlockEvent | soxs/background/foreground.py:62-71 | Entry j of chip i's block is chip i's j-th retained candidate, tagged with i. |
| Foreground.ConcatChipEvent | soxs/background/foreground.py:73-74 | An event of block i that is a chip's candidate is the same candidate at block i's offset in the concatenated batch. |
| Batch.ConcatEventAt | soxs/background/foreground.py:73-74 | An event of block i keeps its energy, position and chip index at block i's offset in the concatenated batch. |
| Foreground.BlocksEvent | soxs/background/foreground.py:52-74 | Before the empty check, the j-th retained candidate of chip i is at chip i's offset plus j in the concatenated batch. |
| Foreground.AssembleInChipOrder | soxs/background/foreground.py:52-74 | The j-th retained candidate of chip i is the event at chip i's offset plus j. It keeps its energy and position, and its chip_id is i. |
| Foreground.AssembleEventFromChip | soxs/background/foreground.py:68-74 | Every event of the batch is some chip's retained candidate, at that chip's offset, with that candidate's energy and position and the chip's index. |
| ArrayOps.Count | soxs/background/foreground.py:67 | `thisc.sum()` is at most the mask's length. |
| ArrayOps.MaskSelect | soxs/background/foreground.py:68-70 | `a[thisc]` holds as many entries as the mask has true entries. |
| ArrayOps.Positions | soxs/background/foreground.py:66-70 | It lists `Count(m)` indices, each in range and true in the mask. |
| ArrayOps.PositionsExact | soxs/background/foreground.py:66-70 | The listed indices are strictly increasing. An index is listed if and only if the mask is true there. |
| ArrayOps.PositionsAllTrue | soxs/background/foreground.py:63-70 | A mask that is true everywhere selects every index in order, as the full slice `slice(None, None, None)` does. |
| ArrayOps.MaskSelectAllTrue | soxs/background/foreground.py:63-70 | Indexing with a mask that is true everywhere returns the whole array, and the mask's sum is its length. |
| ArrayOps.MaskSelectAt | soxs/background/foreground.py:68-70 | Entry j of `a[mask]` is the entry of `a` at the j-th true position of the mask. |
| ArrayOps.Fill | soxs/background/foreground.py:71 | `v * np.ones(n)` has n entries. |
| ArrayOps.Flatten | soxs/background/foreground.py:73-74 | For a non-empty list, which is what `np.concatenate` accepts, the concatenation's length is the sum of the arrays' lengths. |
| ArrayOps.FlattenAt | soxs/background/foreground.py:73-74 | Entry j of array i is, in the concatenation, at the total length of arrays 0 to i-1 plus j. |
| ArrayOps.FlattenLocate | soxs/background/foreground.py:73-74 | Every entry of the concatenation is such an entry j of some array i. |
| ArrayOps.SumZero | soxs/background/foreground.py:76 | A sum of counts is zero if and only if every count is zero. |
| ArrayOps.SumPrefixStep | soxs/background/foreground.py:73-74 | A prefix sum one term longer adds that term. |
| ArrayOps.SumLocate | soxs/background/foreground.py:73-74 | Every position below a sum of counts lies in the span of one count. |
| Batch.ColumnBlocksAppend | soxs/background/foreground.py:68-71 | Appending a chip's block appends its array to every key's list. |
| Batch.ConcatColumn | soxs/background/foreground.py:73-74 | Each column of the concatenated batch is the concatenation of that key's list of arrays. |
| Batch.ColumnLengths | soxs/background/foreground.py:68-74 | For aligned blocks, every key's arrays have the blocks' sizes. |
| Batch.ConcatAligned | soxs/background/foreground.py:73-74 | Concatenating aligned blocks gives an aligned batch holding as many events as all the blocks together. |
| Batch.ConcatAt | soxs/background/foreground.py:73-74 | Under each key, entry j of block i sits after the events of the earlier blocks. |
| Batch.ConcatEvent | soxs/background/foreground.py:73-74 | Event j of block i is the same event, in all four columns, at block i's offset plus j in the batch. |
| Batch.ConcatLocate | soxs/background/foreground.py:73-74 | Every event of the concatenated batch lies inside some block's span. |

## Left out

- `MakeForegroundSpectrum` and its module-level instance
  (soxs/background/foreground.py:28-41) are left out. They are foreign spectrum
  construction and floating-point physics.
- `ConvolvedBackgroundSpectrum.convolve` and `generate_energies`
  (soxs/background/foreground.py:48, 57-58) are left out. They are foreign and
  random. Their output, the chip's energies, is an input.
- `parse_prng` and the way one random source is shared across chips and draws
  (soxs/background/foreground.py:46, 57-61) are left out. Each uniform draw
  gets its own stream of unit draws as an input. The model says nothing about
  which draws of the shared generator each call consumes.
- Foreground.Uniform: the unit draws are unconstrained inputs, because their
  source is left out. The bound `[low, high)` is proved in `UniformBound` and
  `CandidatesInBounds` under the requirement that the unit draws lie in
  `[0, 1)`, which numpy's generator promises.
- `create_region` and `PixCoord` (soxs/background/foreground.py:55, 66) are
  left out. They are a foreign geometry library. The region's type name,
  bounding box and `contains` test are inputs.
- `pixel_area` and `fov` (soxs/background/foreground.py:51, 56) are left out.
  They are floating-point values that feed only the foreign energy sampler.
- The region arguments `args = chip[1:]` (soxs/background/foreground.py:54)
  are left out. They only feed `create_region`. The type name
  `rtype = chip[0]` (line 53) is modelled as `Region.rtype`, which decides
  the rectangular branch.
- Success logging, `make_diffuse_background` and `rmf.scatter_energies`
  (soxs/background/foreground.py:79-88) are left out. They are foreign calls
  and logging. The model ends at the empty check. On the error path nothing is
  passed on, because the method returns the error.
- Floating-point representation is left out. Energies, positions and chip
  indices are exact reals.
- `soxs/constants.py` is left out. It holds unit conversions and static tables,
  with no behaviour in this loop.
