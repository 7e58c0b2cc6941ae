# Bidi-type lookup generator, modelled in Dafny

SheenBidi's generator tool compresses the Unicode `Bidi_Class` of every code point into three arrays. It also emits the C function `LookupBidiType` that reads them.

- **PrimaryBidiTypeData**: the distinct data segments laid end to end.
- **MainBidiTypeIndexes**: the distinct branch segments laid end to end, each entry being the offset of a data segment.
- **BranchBidiTypeIndexes**: one offset of a branch segment per branch chunk.

`BidiTypeLookupGenerator` does the work:

- `collectMainData` cuts the code points from 0 into `FastCeil(lastCodePoint, mainSegmentSize)` chunks of `mainSegmentSize`, the last one ending at `lastCodePoint` at the latest. It keeps each distinct chunk once, placed at the running data size, and records one reference per chunk.
- `collectBranchData` does the same over the data references, in `FastCeil(n - 1, branchSegmentSize)` chunks of `branchSegmentSize` for `n` references.
- Because both chunk counts round `last / size` up, the chunks miss code point `lastCodePoint` when `mainSegmentSize` divides it, and miss the last data reference (so the whole last data chunk) when `branchSegmentSize` divides `n - 1`. Every other code point up to `lastCodePoint` is reached (`ReachedIff`).
- `analyzeData` tries every pair of sizes in `8 .. 512 × 8 .. 512`. It keeps the first pair of least memory, where memory is `dataSize + 2 * (mainIndexesSize + branchIndexesSize)`.
- `generateFile` runs both passes for the chosen sizes and writes the arrays and the lookup formula.

The project has three modules:

- `SegmentTable` (`segment_table.dfy`) covers the compression step both levels share. `Deduplicate` gives the kept segments, `References` one reference per chunk, `TotalSize` the running size, and `Flatten` the emitted array. It also proves that the kept segments are distinct and contiguous and that every reference resolves to its chunk.
- `BidiTypeLayout` (`lookup_layout.dfy`) holds the numeric layout: the size limits, `Clamp`, ceiling division, the data and branch chunks, the emitted arrays (`EmitTables`), the required memory, and the emitted formula (`Lookup`). It proves the round trip through the three arrays, where coverage fails, the memory bound, and the specification of the size search.
- `LookupGenerator` (`generator.dfy`) holds the imperative part:
  - the collect loops, the size search and the array loops, as methods on values, each proved against the functions above;
  - the class `BidiTypeLookupGenerator`, with the source's fields, whose methods run those loops and store their results in the fields.

The bidi class detector is a parameter `detector: nat -> nat` (0 meaning "no class"). The number of `ON` is a parameter `onNumber`. Segments held by address in the source are positions in the segment sequences here.

## Model

| member | source | states |
|---|---|---|
| LookupGenerator.BidiTypeLookupGenerator.constructor | Tools/Generator/BidiTypeLookupGenerator.cpp:73-79 | keeps the detector and its last code point; both segment sizes start at 0 and the collected data empty |
| BidiTypeLayout.Clamp | Tools/Generator/BidiTypeLookupGenerator.cpp:81-87 | `min(hi, max(lo, x))` lies in `[lo, hi]`, is `x` when `x` is in range, `lo` below it and `hi` above it |
| LookupGenerator.BidiTypeLookupGenerator.SetMainSegmentSize | Tools/Generator/BidiTypeLookupGenerator.cpp:81-83 | the main segment size becomes the argument clamped to 8..512; nothing else changes |
| LookupGenerator.BidiTypeLookupGenerator.SetBranchSegmentSize | Tools/Generator/BidiTypeLookupGenerator.cpp:85-87 | the branch segment size becomes the argument clamped to 8..512; nothing else changes |
| BidiTypeLayout.FastCeilSpec | Tools/Generator/BidiTypeLookupGenerator.cpp:138 | the chunk count times the chunk size is the least multiple of the size that is at least the item count |
| BidiTypeLayout.FastCeilBounds | Tools/Generator/BidiTypeLookupGenerator.cpp:138 | never more chunks than items, and at least one chunk for at least one item |
| BidiTypeLayout.MainChunkFrom | Tools/Generator/BidiTypeLookupGenerator.cpp:151-164 | the chunk starting at `start` holds 1..m entries and ends at `start + m - 1` or at `last`; its entry for code point `u` is the detector's number for `u`, or ON when that number is 0 |
| BidiTypeLayout.MainChunksConcat | Tools/Generator/BidiTypeLookupGenerator.cpp:138-164 | the `FastCeil(last, m)` data chunks laid end to end are the class numbers of code points 0, 1, 2, ... in order, `min(last + 1, FastCeil(last, m) * m)` of them |
| BidiTypeLayout.BranchChunkFrom | Tools/Generator/BidiTypeLookupGenerator.cpp:199-207 | the branch chunk starting at `start` holds 1..b entries and ends at `start + b - 1` or at the last reference; entry `k` is reference `start + k` |
| BidiTypeLayout.BranchChunksConcat | Tools/Generator/BidiTypeLookupGenerator.cpp:187-207 | the branch chunks laid end to end are the first `min(n, FastCeil(n - 1, b) * b)` data references in order, for `n` references |
| LookupGenerator.ReadMainChunk | Tools/Generator/BidiTypeLookupGenerator.cpp:148-164 | the per-code-point loop yields exactly data chunk `i` |
| LookupGenerator.ReadBranchChunk | Tools/Generator/BidiTypeLookupGenerator.cpp:199-207 | the per-reference loop yields exactly branch chunk `i` |
| SegmentTable.Find | Tools/Generator/BidiTypeLookupGenerator.cpp:166-172 | the search answers the last segment with equal contents, or "none" exactly when no segment matches |
| LookupGenerator.SearchSegment | Tools/Generator/BidiTypeLookupGenerator.cpp:166-172 | the loop answers SIZE_MAX exactly when no kept segment equals the chunk; otherwise it answers the last equal one |
| LookupGenerator.KeepSegment | Tools/Generator/BidiTypeLookupGenerator.cpp:166-180 | a chunk equal to a kept segment reuses it and changes nothing; any other chunk is appended at the running size, which grows by its length; the answer names a segment holding the chunk |
| SegmentTable.DeduplicateAppend | Tools/Generator/BidiTypeLookupGenerator.cpp:174-180 | one more chunk either reuses a segment or appends one at the running size, adds one reference, and grows the total by the new segment's size only |
| SegmentTable.CollectStep | Tools/Generator/BidiTypeLookupGenerator.cpp:150-181 | one loop iteration takes the pass over the first `i` chunks to the pass over the first `i + 1` |
| SegmentTable.CollectDone | Tools/Generator/BidiTypeLookupGenerator.cpp:150-183 | after the last chunk the kept segments are distinct and contiguous, and the references resolve |
| SegmentTable.DeduplicateShape | Tools/Generator/BidiTypeLookupGenerator.cpp:166-178 | kept segments are pairwise distinct by contents; each starts at the summed sizes of those before it; there are no more than chunks; each is one of the chunks |
| SegmentTable.ReferencesResolve | Tools/Generator/BidiTypeLookupGenerator.cpp:180 | one reference per chunk, in chunk order, each naming a kept segment whose contents equal that chunk |
| SegmentTable.FlattenLength | Tools/Generator/BidiTypeLookupGenerator.cpp:174-178 | the emitted array is as long as the running size counter |
| SegmentTable.FlattenAt | Tools/Generator/BidiTypeLookupGenerator.cpp:176-177 | element `j` of a kept segment sits at its offset plus `j` in the emitted array |
| SegmentTable.ReadBack | Tools/Generator/BidiTypeLookupGenerator.cpp:176-180 | following reference `i` to its offset and reading `j` further gives element `j` of chunk `i` |
| SegmentTable.TotalSizeBound | Tools/Generator/BidiTypeLookupGenerator.cpp:174-178 | the kept total is at most the chunk count times the longest chunk |
| SegmentTable.DeduplicateBelow | Tools/Generator/BidiTypeLookupGenerator.cpp:205-207 | chunks of numbers below `n` give kept segments, and an emitted array, of numbers below `n` |
| SegmentTable.FlattenBelow | Tools/Generator/BidiTypeLookupGenerator.cpp:284-285 | when every kept segment's entries are below `n`, so is every entry of the emitted array |
| LookupGenerator.CollectMainSegments | Tools/Generator/BidiTypeLookupGenerator.cpp:137-184 | the collect loop keeps exactly the deduplicated data chunks, one resolving reference per chunk and their total size; the segments are distinct and contiguous and there are `FastCeil(last, m)` references |
| LookupGenerator.BidiTypeLookupGenerator.CollectMainData | Tools/Generator/BidiTypeLookupGenerator.cpp:137-184 | the fields hold that pass for the current main size, and `mainIndexesSize` is the reference count |
| LookupGenerator.CollectBranchSegments | Tools/Generator/BidiTypeLookupGenerator.cpp:186-227 | the same over chunks of data references; `mainIndexesSize` is the kept total and there are `FastCeil(n - 1, b)` (n data references) branch references |
| LookupGenerator.BidiTypeLookupGenerator.CollectBranchData | Tools/Generator/BidiTypeLookupGenerator.cpp:186-227 | the fields hold that pass for the current branch size, and `branchIndexesSize` is the branch reference count |
| BidiTypeLayout.BranchChunksBelow | Tools/Generator/BidiTypeLookupGenerator.cpp:180-207 | every entry of every branch chunk names a kept data segment |
| BidiTypeLayout.BranchEntriesBelow | Tools/Generator/BidiTypeLookupGenerator.cpp:198-221 | every entry of every kept branch segment names a kept data segment |
| LookupGenerator.EmitData | Tools/Generator/BidiTypeLookupGenerator.cpp:241-265 | the data array loop emits the kept data segments end to end |
| LookupGenerator.EmitMainIndexes | Tools/Generator/BidiTypeLookupGenerator.cpp:272-298 | the main-index loop emits, for each entry of each kept branch segment in order, the offset of the data segment it names |
| LookupGenerator.EmitBranchIndexes | Tools/Generator/BidiTypeLookupGenerator.cpp:305-319 | the branch-index loop emits, per branch reference, the offset of the branch segment it names |
| SegmentTable.OffsetsLead | Tools/Generator/BidiTypeLookupGenerator.cpp:300-319 | entry `i` of an index array, plus `j`, lands inside the laid-out segments on element `j` of the segment reference `i` names |
| LookupGenerator.EmitArrays | Tools/Generator/BidiTypeLookupGenerator.cpp:235-319 | the three loops emit exactly the layout of the kept segments and references |
| LookupGenerator.GenerateTables | Tools/Generator/BidiTypeLookupGenerator.cpp:229-319 | both passes, then the arrays, which are `EmitTables` of the sizes, with lengths equal to the three size counters; the emitted lookup returns the class number of every code point the chunks reach, ON past `lastCodePoint`, and so every class number when the chunks cover everything |
| LookupGenerator.BidiTypeLookupGenerator.GenerateFile | Tools/Generator/BidiTypeLookupGenerator.cpp:229-319 | the same through the fields, for the current segment sizes, which stay unchanged |
| BidiTypeLayout.RequiredMemorySums | Tools/Generator/BidiTypeLookupGenerator.cpp:116-130 | the bytes of the emitted arrays equal `dataSize + 2 * (mainIndexesSize + branchIndexesSize)` as the passes count them |
| LookupGenerator.PassMemory | Tools/Generator/BidiTypeLookupGenerator.cpp:116 | the memory figure computed from two passes' counters is the required memory of their sizes |
| BidiTypeLayout.MemoryBelowSizeMax | Tools/Generator/BidiTypeLookupGenerator.cpp:104-117 | every pair of the grid needs fewer than SIZE_MAX bytes, so the strict `<` against the initial SIZE_MAX always accepts the first pair |
| LookupGenerator.TryPair | Tools/Generator/BidiTypeLookupGenerator.cpp:114-121 | one inner iteration collects the branch pass for `b`, leaves it in place, and advances the search state past the pair `(m, b)` |
| BidiTypeLayout.SearchStep | Tools/Generator/BidiTypeLookupGenerator.cpp:116-121 | with the strict `<`, the pair tried replaces the best so far exactly when it is cheaper, and the best stays the first least-cost pair tried |
| BidiTypeLayout.SearchRow | Tools/Generator/BidiTypeLookupGenerator.cpp:123-126 | the state past the last branch size of a row is the state before the next row |
| BidiTypeLayout.SearchDone | Tools/Generator/BidiTypeLookupGenerator.cpp:109-130 | once every row is tried, the best pair is the first minimum of the grid |
| LookupGenerator.SearchBranchSizes | Tools/Generator/BidiTypeLookupGenerator.cpp:112-124 | the inner loop advances the search state by one whole row and leaves the branch pass of size 512 in place |
| LookupGenerator.SearchSegmentSizes | Tools/Generator/BidiTypeLookupGenerator.cpp:104-130 | the nested loops answer the first pair of least required memory over 8..512 × 8..512, its memory, and the passes of the last pair, (512, 512) |
| LookupGenerator.BidiTypeLookupGenerator.AnalyzeData | Tools/Generator/BidiTypeLookupGenerator.cpp:101-135 | the segment-size fields become the first least-memory pair of the grid, and the collected data is that of (512, 512) |
| BidiTypeLayout.FirstMinimumUnique | Tools/Generator/BidiTypeLookupGenerator.cpp:117-121 | the pair the search settles on is determined: two first minima are equal |
| BidiTypeLayout.SplitCodePoint | Tools/Generator/BidiTypeLookupGenerator.cpp:331-333 | the formula's `cp / (M*B)` and `(cp % (M*B)) / M` are the branch chunk and the position within it of data chunk `cp / M` |
| BidiTypeLayout.DataChunkAt | Tools/Generator/BidiTypeLookupGenerator.cpp:150-164 | a code point `cp` up to `last` that the data chunks reach is element `cp % m` of data chunk `cp / m`, holding its class number |
| BidiTypeLayout.BranchChunkAt | Tools/Generator/BidiTypeLookupGenerator.cpp:198-207 | a data reference `k` that the branch chunks reach is element `k % b` of branch chunk `k / b` |
| BidiTypeLayout.IndexLevels | Tools/Generator/BidiTypeLookupGenerator.cpp:327-334 | the branch index of chunk `q`, plus `j`, is in range and holds the offset of the data segment that chunk's element `j` names |
| BidiTypeLayout.TablesRead | Tools/Generator/BidiTypeLookupGenerator.cpp:328-334 | reading the three arrays for element `t` of data chunk `i` gives that element back |
| BidiTypeLayout.LookupAt | Tools/Generator/BidiTypeLookupGenerator.cpp:327-334 | with its three indexes in range, the lookup reads the data entry they lead to |
| BidiTypeLayout.ReachedIff | Tools/Generator/BidiTypeLookupGenerator.cpp:138-207 | a code point up to `last` is reached exactly unless it is `last` with `m` dividing `last`, or lies in the last data chunk with `b` dividing that chunk's position |
| BidiTypeLayout.RoundTripAt | Tools/Generator/BidiTypeLookupGenerator.cpp:321-338 | the emitted lookup of every code point the chunks reach returns its class number |
| BidiTypeLayout.RoundTripBeforeLastChunk | Tools/Generator/BidiTypeLookupGenerator.cpp:321-338 | for any segment sizes, the emitted lookup of every code point before the last data chunk returns its class number |
| BidiTypeLayout.FastCeil | Tools/Generator/BidiTypeLookupGenerator.cpp:138 | defines the chunk count as ceiling division; FastCeilSpec and FastCeilBounds state its meaning |
| BidiTypeLayout.ClassNumber | Tools/Generator/BidiTypeLookupGenerator.cpp:157-163 | defines the number stored for a code point: the detector's number, or ON's when the detector answers 0 |
| SegmentTable.Deduplicate | Tools/Generator/BidiTypeLookupGenerator.cpp:166-178 | defines the kept segments of a chunk sequence, one per new chunk, at the running size; DeduplicateShape and DeduplicateAppend state its meaning |
| SegmentTable.References | Tools/Generator/BidiTypeLookupGenerator.cpp:180 | defines the reference recorded per chunk, the last kept segment equal to it; ReferencesResolve states its meaning |
| SegmentTable.TotalSize | Tools/Generator/BidiTypeLookupGenerator.cpp:177 | defines the running size counter, the summed sizes of the kept segments |
| SegmentTable.Flatten | Tools/Generator/BidiTypeLookupGenerator.cpp:241-265 | defines the laid-out array, the kept segments end to end; FlattenLength and FlattenAt state its meaning |
| BidiTypeLayout.TablesFrom | Tools/Generator/BidiTypeLookupGenerator.cpp:235-319 | defines the three emitted arrays of given data and branch chunks; TablesRead states its meaning |
| BidiTypeLayout.TablesOf | Tools/Generator/BidiTypeLookupGenerator.cpp:229-319 | defines the arrays for given data chunks and branch size, taking the branch chunks of their references |
| BidiTypeLayout.EmitTables | Tools/Generator/BidiTypeLookupGenerator.cpp:229-319 | defines the arrays emitted for segment sizes `m` and `b`; RoundTripAt states their meaning |
| BidiTypeLayout.Lookup | Tools/Generator/BidiTypeLookupGenerator.cpp:321-338 | defines the emitted `LookupBidiType`: the three nested array reads for code points up to `last`, ON past it, and `None` for a read past an array's end |
| BidiTypeLayout.RoundTrip | Tools/Generator/BidiTypeLookupGenerator.cpp:321-338 | when the chunks cover everything, the emitted lookup of any code point returns its class number, and ON past `lastCodePoint` |
| BidiTypeLayout.CeilReachesLast | Tools/Generator/BidiTypeLookupGenerator.cpp:138-152 | `FastCeil(x, y)` chunks reach past item `x` exactly when `y` does not divide `x` |
| BidiTypeLayout.CoversIff | Tools/Generator/BidiTypeLookupGenerator.cpp:138-200 | coverage holds exactly when `m` does not divide `lastCodePoint` and `b` does not divide the data chunk count minus one |
| BidiTypeLayout.LastCodePointDropped | Tools/Generator/BidiTypeLookupGenerator.cpp:138-152 | when `m` divides `lastCodePoint`, no data chunk reaches the last code point |
| BidiTypeLayout.LastReferenceDropped | Tools/Generator/BidiTypeLookupGenerator.cpp:187-200 | when `b` divides the reference count minus one, no branch chunk reaches the last data reference |
| BidiTypeLayout.LookupPastLastChunk | Tools/Generator/BidiTypeLookupGenerator.cpp:321-338 | a concrete uncovered layout (last code point 16, both sizes 8): the lookup of code point 16 reads past the end of MainBidiTypeIndexes |

## Left out

- Text and file output of `generateFile` is not modelled: the array builders, `hintLine` comments, hex formatting, the `bidiTypes` set and the header and source files. Only the numbers those arrays hold are modelled. PrimaryBidiTypeData holds the `SBBidiType` names the detector gives for the stored numbers (`numberToName`); here each entry is the number itself.
- `displayBidiClassesFrequency` and the console reports of `analyzeData` are not modelled: they are console output only.
- The `DerivedBidiClass` parser and its detector are not part of this model. The detector is the function parameter `detector`. `nameToNumber("ON")` is the parameter `onNumber`.
- `Math::FastCeil` (`Utilities/Math.h`) is not part of this model. It is modelled as ceiling division `(x + y - 1) / y`.
- Widths are not modelled. Data entries are `SBUInt8` and index entries `SBUInt16` in the generated file; the casts to `uint32_t` in `collectMainData` are not modelled either. Values are unbounded naturals. `Lookup` reads unbounded offsets, while MainBidiTypeIndexes and BranchBidiTypeIndexes hold `SBUInt16`. So the round-trip lemmas assume every offset fits below 0x10000; the model does not check this. The constructor requires `1 <= lastCodePoint <= 0x10FFFF`, which keeps every `size_t`/`uint32_t` computation of the source from wrapping. It also keeps `size() - 1` in `collectBranchData` from wrapping, which would happen at 0 references.
- Address identity is not modelled. Segments are positions in the segment sequences, and comparing addresses is comparing positions. `reserve` keeps the addresses stable in the source, so nothing else changes.
- The imperative structure is factored. The loops of `collectMainData`, `collectBranchData`, `analyzeData` and the array loops of `generateFile` are methods on values. The class methods call them and store the results in the fields. The intermediate field writes of the loops (for example `m_mainSegmentSize` stepping from 8 to 512) are therefore not modelled; the final field values are.
- LookupGenerator.BidiTypeLookupGenerator.GenerateFile: requires both segment sizes to be positive, because the source divides by them. For the code points the chunks miss (see `ReachedIff`), it states nothing about what the lookup returns, and neither does `GenerateTables`. `LookupPastLastChunk` shows one such lookup reading past the end of an array.
- LookupGenerator.SearchSegment: requires fewer than SIZE_MAX kept segments, so that SIZE_MAX can only mean "not found". Every caller meets this, because there is at most one segment per chunk and at most 0x10FFFF chunks.
- LookupGenerator.BidiTypeLookupGenerator.CollectMainData: requires a positive main segment size, because the source divides by it and the constructor leaves it at 0.
- LookupGenerator.KeepSegment: requires fewer than SIZE_MAX kept segments, for the same reason.
- LookupGenerator.CollectBranchSegments: requires between 1 and SIZE_MAX - 1 data references, which the main pass always yields for a last code point in 1..0x10FFFF.
- LookupGenerator.BidiTypeLookupGenerator.CollectBranchData: requires the same of the data references in the fields, that is, a main pass has run.
- LookupGenerator.BidiTypeLookupGenerator.constructor: ensures `dataSize`, `mainIndexesSize` and `branchIndexesSize` start at 0. The source constructor leaves them uninitialised (its header is not part of this model), so the zeros are this model's choice.
- BidiTypeLayout.RoundTrip: stated only when the chunks cover every code point and data reference. `RoundTripAt` is the per-code-point form, and `RoundTrip` follows from it.
