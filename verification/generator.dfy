/** The generator object. It holds the segment sizes, the segments and
    references of the last collect passes and their running sizes, and
    updates them in place: the collect passes clear and refill them, the
    size search tries every pair of sizes and keeps the cheapest.
 */
module LookupGenerator {
  import opened SegmentTable
  import opened BidiTypeLayout

  /** The segment search of both collect passes: scans every kept segment
      and remembers the last one whose contents equal `dataset`, or answers
      SIZE_MAX when none does. */
  method SearchSegment(segs: seq<Segment>, dataset: seq<nat>) returns (segmentIndex: nat)
    requires |segs| < SIZE_MAX
    ensures segmentIndex == SIZE_MAX <==> forall j :: 0 <= j < |segs| ==> segs[j].dataset != dataset
    ensures segmentIndex != SIZE_MAX ==>
      segmentIndex < |segs| && segs[segmentIndex].dataset == dataset &&
      forall j :: segmentIndex < j < |segs| ==> segs[j].dataset != dataset
    ensures segmentIndex == (if Find(segs, dataset) < |segs| then Find(segs, dataset) else SIZE_MAX)
  {
    segmentIndex := SIZE_MAX;
    var segmentCount := |segs|;
    var j := 0;
    while j < segmentCount
      invariant j <= segmentCount
      invariant segmentIndex == SIZE_MAX <==> forall k :: 0 <= k < j ==> segs[k].dataset != dataset
      invariant segmentIndex != SIZE_MAX ==>
        segmentIndex < j && segs[segmentIndex].dataset == dataset &&
        forall k :: segmentIndex < k < j ==> segs[k].dataset != dataset
    {
      if segs[j].dataset == dataset {
        segmentIndex := j;
      }
      j := j + 1;
    }
    var k := Find(segs, dataset);
    assert segmentIndex != SIZE_MAX ==> k == segmentIndex;
  }

  /** The class numbers of code points `i*m .. min(last, i*m + m - 1)`,
      with ON standing in where the detector has no class. */
  method ReadMainChunk(detector: nat -> nat, onNumber: nat, lastCodePoint: nat, mainSegmentSize: nat, i: nat)
      returns (dataset: seq<nat>)
    requires mainSegmentSize > 0 && i < FastCeil(lastCodePoint, mainSegmentSize)
    ensures dataset == MainChunks(detector, onNumber, lastCodePoint, mainSegmentSize)[i]
  {
    ghost var chunk := MainChunk(detector, onNumber, lastCodePoint, mainSegmentSize, i);
    var defaultBidiClass := onNumber;
    var segmentStart := i * mainSegmentSize;
    var segmentEnd := Min(lastCodePoint, segmentStart + mainSegmentSize - 1);
    dataset := [];
    var unicode := segmentStart;
    while unicode <= segmentEnd
      invariant segmentStart <= unicode <= segmentEnd + 1
      invariant |dataset| == unicode - segmentStart
      invariant forall u :: segmentStart <= u < unicode ==> dataset[u - segmentStart] == ClassNumber(detector, onNumber, u)
    {
      var number := detector(unicode);
      if number != 0 {
        dataset := dataset + [number];
      } else {
        dataset := dataset + [defaultBidiClass];
      }
      unicode := unicode + 1;
    }
    forall k | 0 <= k < |chunk|
      ensures dataset[k] == chunk[k]
    {
      assert dataset[k] == ClassNumber(detector, onNumber, segmentStart + k);
    }
  }

  /** Data references `i*b .. min(|references| - 1, i*b + b - 1)`. */
  method ReadBranchChunk(references: seq<nat>, branchSegmentSize: nat, i: nat) returns (dataset: seq<nat>)
    requires |references| > 0 && branchSegmentSize > 0
    requires i < FastCeil(|references| - 1, branchSegmentSize)
    ensures dataset == BranchChunks(references, branchSegmentSize)[i]
  {
    var mainIndexesCount := |references| - 1;
    var segmentStart := i * branchSegmentSize;
    var segmentEnd := Min(mainIndexesCount, segmentStart + branchSegmentSize - 1);
    ghost var chunk := BranchChunk(references, branchSegmentSize, i);
    assert segmentStart + |chunk| == segmentEnd + 1;
    dataset := [];
    var k := segmentStart;
    while k <= segmentEnd
      invariant segmentStart <= k <= segmentEnd + 1
      invariant |dataset| == k - segmentStart
      invariant forall j :: 0 <= j < |dataset| ==> dataset[j] == references[segmentStart + j]
    {
      dataset := dataset + [references[k]];
      k := k + 1;
    }
  }

  /** The tail of each collect iteration: searches the kept segments for
      `dataset`; when none matches, appends it at the running `size` and
      grows the size by its length. Answers the position of the segment
      that now holds `dataset`. */
  method KeepSegment(segments: seq<Segment>, size: nat, dataset: seq<nat>)
      returns (segments': seq<Segment>, size': nat, segmentIndex: nat)
    requires |segments| < SIZE_MAX
    ensures var k := Find(segments, dataset);
            segmentIndex == k &&
            segments' == (if k < |segments| then segments else segments + [Segment(size, dataset)]) &&
            size' == size + (if k < |segments| then 0 else |dataset|)
    ensures segmentIndex < |segments'| && segments'[segmentIndex].dataset == dataset
  {
    segmentIndex := SearchSegment(segments, dataset);
    segments', size' := segments, size;
    if segmentIndex == SIZE_MAX {
      segmentIndex := |segments|;
      segments' := segments + [Segment(size, dataset)];
      size' := size + |dataset|;
    }
  }

  /** The loop of collectMainData: cuts code points 0 .. lastCodePoint into
      chunks of mainSegmentSize, keeps each distinct chunk once at the
      running data size, and records one reference per chunk. */
  method CollectMainSegments(detector: nat -> nat, onNumber: nat, lastCodePoint: nat, mainSegmentSize: nat)
      returns (dataSegments: seq<Segment>, dataReferences: seq<nat>, dataSize: nat)
    requires 1 <= lastCodePoint <= MAX_CODE_POINT && mainSegmentSize > 0
    ensures dataSegments == Deduplicate(MainChunks(detector, onNumber, lastCodePoint, mainSegmentSize))
    ensures dataReferences == References(MainChunks(detector, onNumber, lastCodePoint, mainSegmentSize))
    ensures dataSize == TotalSize(dataSegments)
    ensures |dataReferences| == FastCeil(lastCodePoint, mainSegmentSize)
    ensures Distinct(dataSegments) && Contiguous(dataSegments)
    ensures Resolves(MainChunks(detector, onNumber, lastCodePoint, mainSegmentSize), dataSegments, dataReferences)
  {
    var maxSegments := FastCeil(lastCodePoint, mainSegmentSize);
    FastCeilBounds(lastCodePoint, mainSegmentSize);
    ghost var chunks := MainChunks(detector, onNumber, lastCodePoint, mainSegmentSize);

    dataSegments, dataReferences, dataSize := [], [], 0;
    var i := 0;
    while i < maxSegments
      invariant i <= maxSegments
      invariant dataSegments == Deduplicate(chunks[..i])
      invariant dataReferences == References(chunks[..i])
      invariant dataSize == TotalSize(dataSegments)
    {
      var dataset := ReadMainChunk(detector, onNumber, lastCodePoint, mainSegmentSize, i);
      CollectStep(chunks, i, dataSegments, dataReferences);
      var segmentIndex;
      dataSegments, dataSize, segmentIndex := KeepSegment(dataSegments, dataSize, dataset);
      dataReferences := dataReferences + [segmentIndex];
      i := i + 1;
    }
    CollectDone(chunks, i, dataSegments, dataReferences);
  }

  /** The loop of collectBranchData: cuts data references 0 .. |refs| - 2
      into chunks of branchSegmentSize, keeps each distinct chunk once at the
      running main-index size, and records one reference per chunk. */
  method CollectBranchSegments(dataReferences: seq<nat>, branchSegmentSize: nat)
      returns (branchSegments: seq<Segment>, branchReferences: seq<nat>, mainIndexesSize: nat)
    requires 0 < |dataReferences| < SIZE_MAX && branchSegmentSize > 0
    ensures branchSegments == Deduplicate(BranchChunks(dataReferences, branchSegmentSize))
    ensures branchReferences == References(BranchChunks(dataReferences, branchSegmentSize))
    ensures mainIndexesSize == TotalSize(branchSegments)
    ensures |branchReferences| == FastCeil(|dataReferences| - 1, branchSegmentSize)
    ensures Distinct(branchSegments) && Contiguous(branchSegments)
    ensures Resolves(BranchChunks(dataReferences, branchSegmentSize), branchSegments, branchReferences)
  {
    var mainIndexesCount := |dataReferences| - 1;
    var maxSegments := FastCeil(mainIndexesCount, branchSegmentSize);
    FastCeilBounds(mainIndexesCount, branchSegmentSize);
    ghost var chunks := BranchChunks(dataReferences, branchSegmentSize);

    branchSegments, branchReferences, mainIndexesSize := [], [], 0;
    var i := 0;
    while i < maxSegments
      invariant i <= maxSegments
      invariant branchSegments == Deduplicate(chunks[..i])
      invariant branchReferences == References(chunks[..i])
      invariant mainIndexesSize == TotalSize(branchSegments)
    {
      var dataset := ReadBranchChunk(dataReferences, branchSegmentSize, i);
      CollectStep(chunks, i, branchSegments, branchReferences);
      var segmentIndex;
      branchSegments, mainIndexesSize, segmentIndex := KeepSegment(branchSegments, mainIndexesSize, dataset);
      branchReferences := branchReferences + [segmentIndex];
      i := i + 1;
    }
    CollectDone(chunks, i, branchSegments, branchReferences);
  }

  /** The PrimaryBidiTypeData loop of generateFile: every kept data segment
      in order, every entry of it in order. */
  method EmitData(dataSegments: seq<Segment>) returns (data: seq<nat>)
    ensures data == Flatten(dataSegments)
  {
    data := [];
    var p := 0;
    while p < |dataSegments|
      invariant p <= |dataSegments|
      invariant data == Flatten(dataSegments[..p])
    {
      var dataset := dataSegments[p].dataset;
      var j := 0;
      while j < |dataset|
        invariant j <= |dataset|
        invariant data == Flatten(dataSegments[..p]) + dataset[..j]
      {
        data := data + [dataset[j]];
        assert dataset[..j + 1] == dataset[..j] + [dataset[j]];
        j := j + 1;
      }
      assert dataSegments[..p + 1][..p] == dataSegments[..p];
      assert dataset[..j] == dataset;
      p := p + 1;
    }
    assert dataSegments[..p] == dataSegments;
  }

  /** The MainBidiTypeIndexes loop of generateFile: every kept branch
      segment in order, and for every data-segment position it stores, the
      offset of that data segment. */
  method EmitMainIndexes(dataSegments: seq<Segment>, branchSegments: seq<Segment>) returns (mainIndexes: seq<nat>)
    requires EntriesBelow(branchSegments, |dataSegments|)
    ensures |mainIndexes| == |Flatten(branchSegments)|
    ensures forall p :: 0 <= p < |mainIndexes| ==>
      Flatten(branchSegments)[p] < |dataSegments| && mainIndexes[p] == dataSegments[Flatten(branchSegments)[p]].index
  {
    mainIndexes := [];
    ghost var emitted: seq<nat> := [];
    var p := 0;
    while p < |branchSegments|
      invariant p <= |branchSegments|
      invariant emitted == Flatten(branchSegments[..p]) && |mainIndexes| == |emitted|
      invariant forall k :: 0 <= k < |emitted| ==> emitted[k] < |dataSegments| && mainIndexes[k] == dataSegments[emitted[k]].index
    {
      var dataset := branchSegments[p].dataset;
      var j := 0;
      while j < |dataset|
        invariant j <= |dataset|
        invariant emitted == Flatten(branchSegments[..p]) + dataset[..j] && |mainIndexes| == |emitted|
        invariant forall k :: 0 <= k < |emitted| ==> emitted[k] < |dataSegments| && mainIndexes[k] == dataSegments[emitted[k]].index
      {
        mainIndexes := mainIndexes + [dataSegments[dataset[j]].index];
        emitted := emitted + [dataset[j]];
        assert dataset[..j + 1] == dataset[..j] + [dataset[j]];
        j := j + 1;
      }
      assert branchSegments[..p + 1][..p] == branchSegments[..p];
      assert dataset[..j] == dataset;
      p := p + 1;
    }
    assert branchSegments[..p] == branchSegments;
  }

  /** The BranchBidiTypeIndexes loop of generateFile: for every branch
      reference, the offset of the branch segment it names. */
  method EmitBranchIndexes(branchSegments: seq<Segment>, branchReferences: seq<nat>) returns (branchIndexes: seq<nat>)
    requires forall i :: 0 <= i < |branchReferences| ==> branchReferences[i] < |branchSegments|
    ensures branchIndexes == Offsets(branchSegments, branchReferences)
  {
    branchIndexes := [];
    var i := 0;
    while i < |branchReferences|
      invariant i <= |branchReferences| && |branchIndexes| == i
      invariant forall k :: 0 <= k < i ==> branchIndexes[k] == branchSegments[branchReferences[k]].index
    {
      branchIndexes := branchIndexes + [branchSegments[branchReferences[i]].index];
      i := i + 1;
    }
  }

  /** The state a collectMainData pass with main segment size `m` leaves:
      the kept data segments, one reference per data chunk, and the data
      size. */
  ghost predicate MainPass(detector: nat -> nat, onNumber: nat, lastCodePoint: nat, m: nat,
                           dataSegments: seq<Segment>, dataReferences: seq<nat>, dataSize: nat)
    requires m > 0
  {
    var chunks := MainChunks(detector, onNumber, lastCodePoint, m);
    dataSegments == Deduplicate(chunks) && dataReferences == References(chunks) &&
    dataSize == TotalSize(dataSegments)
  }

  /** The state a collectBranchData pass with branch segment size `b`
      leaves for the data references `dataReferences`: the kept branch
      segments, one reference per branch chunk, and both index sizes. */
  ghost predicate BranchPass(dataReferences: seq<nat>, b: nat, branchSegments: seq<Segment>,
                             branchReferences: seq<nat>, mainIndexesSize: nat, branchIndexesSize: nat)
    requires b > 0
  {
    |dataReferences| > 0 &&
    var chunks := BranchChunks(dataReferences, b);
    branchSegments == Deduplicate(chunks) && branchReferences == References(chunks) &&
    mainIndexesSize == TotalSize(branchSegments) && branchIndexesSize == |branchReferences|
  }

  /** The memory figure analyzeData computes from the sizes two passes
      leave is the required memory of their segment sizes. */
  lemma PassMemory(detector: nat -> nat, onNumber: nat, lastCodePoint: nat, m: nat, b: nat,
                   dataSegments: seq<Segment>, dataReferences: seq<nat>, dataSize: nat,
                   branchSegments: seq<Segment>, branchReferences: seq<nat>, mainIndexesSize: nat, branchIndexesSize: nat)
    requires lastCodePoint >= 1 && m > 0 && b > 0
    requires MainPass(detector, onNumber, lastCodePoint, m, dataSegments, dataReferences, dataSize)
    requires BranchPass(dataReferences, b, branchSegments, branchReferences, mainIndexesSize, branchIndexesSize)
    ensures dataSize + ((mainIndexesSize + branchIndexesSize) * 2) == MemoryCost(detector, onNumber, lastCodePoint)(m, b)
  {
    RequiredMemorySums(detector, onNumber, lastCodePoint, m, b);
    ReferencesResolve(BranchChunks(dataReferences, b));
  }

  /** The loops of analyzeData: for every main segment size of the grid a
      collect pass over the code points, then the branch sizes of that row.
      Answers the pair kept, its memory, and the collected data of the last
      pair tried. */
  method SearchSegmentSizes(detector: nat -> nat, onNumber: nat, lastCodePoint: nat)
      returns (mainSize: nat, branchSize: nat, minMemory: nat,
               dataSegments: seq<Segment>, dataReferences: seq<nat>, dataSize: nat,
               branchSegments: seq<Segment>, branchReferences: seq<nat>, mainIndexesSize: nat, branchIndexesSize: nat)
    requires 1 <= lastCodePoint <= MAX_CODE_POINT
    ensures FirstMinimum(MemoryCost(detector, onNumber, lastCodePoint), mainSize, branchSize)
    ensures minMemory == MemoryCost(detector, onNumber, lastCodePoint)(mainSize, branchSize)
    ensures MainPass(detector, onNumber, lastCodePoint, MAX_MAIN_SEGMENT_SIZE, dataSegments, dataReferences, dataSize)
    ensures BranchPass(dataReferences, MAX_BRANCH_SEGMENT_SIZE, branchSegments, branchReferences, mainIndexesSize, branchIndexesSize)
  {
    ghost var cost := MemoryCost(detector, onNumber, lastCodePoint);
    minMemory, mainSize, branchSize := SIZE_MAX, 0, 0;
    dataSegments, dataReferences, dataSize := [], [], 0;
    branchSegments, branchReferences, mainIndexesSize, branchIndexesSize := [], [], 0, 0;

    var mainSegmentSize := MIN_MAIN_SEGMENT_SIZE;
    ghost var tried: nat := 0;
    while mainSegmentSize <= MAX_MAIN_SEGMENT_SIZE
      invariant MIN_MAIN_SEGMENT_SIZE <= mainSegmentSize <= MAX_MAIN_SEGMENT_SIZE + 1
      invariant SearchState(cost, mainSegmentSize, MIN_BRANCH_SEGMENT_SIZE, mainSize, branchSize, minMemory)
      invariant mainSegmentSize > MIN_MAIN_SEGMENT_SIZE ==>
        tried + 1 == mainSegmentSize &&
        MainPass(detector, onNumber, lastCodePoint, tried, dataSegments, dataReferences, dataSize) &&
        BranchPass(dataReferences, MAX_BRANCH_SEGMENT_SIZE, branchSegments, branchReferences, mainIndexesSize, branchIndexesSize)
    {
      dataSegments, dataReferences, dataSize := CollectMainSegments(detector, onNumber, lastCodePoint, mainSegmentSize);
      FastCeilBounds(lastCodePoint, mainSegmentSize);
      mainSize, branchSize, minMemory, branchSegments, branchReferences, mainIndexesSize, branchIndexesSize :=
        SearchBranchSizes(detector, onNumber, lastCodePoint, mainSegmentSize, dataSegments, dataReferences, dataSize,
                          mainSize, branchSize, minMemory);
      tried := mainSegmentSize;
      mainSegmentSize := mainSegmentSize + 1;
    }

    SearchDone(cost, mainSize, branchSize, minMemory);
  }

  /** The inner loop of analyzeData, for main segment size `mainSegmentSize`
      whose collected data is given: a collect pass over the data references
      for every branch segment size of the grid; the memory figure of each
      pair replaces the minimum when strictly smaller. */
  method SearchBranchSizes(detector: nat -> nat, onNumber: nat, lastCodePoint: nat, mainSegmentSize: nat,
                           dataSegments: seq<Segment>, dataReferences: seq<nat>, dataSize: nat,
                           mainSize: nat, branchSize: nat, minMemory: nat)
      returns (mainSize': nat, branchSize': nat, minMemory': nat,
               branchSegments: seq<Segment>, branchReferences: seq<nat>, mainIndexesSize: nat, branchIndexesSize: nat)
    requires 1 <= lastCodePoint <= MAX_CODE_POINT
    requires MIN_MAIN_SEGMENT_SIZE <= mainSegmentSize <= MAX_MAIN_SEGMENT_SIZE
    requires MainPass(detector, onNumber, lastCodePoint, mainSegmentSize, dataSegments, dataReferences, dataSize)
    requires 0 < |dataReferences| < SIZE_MAX
    requires SearchState(MemoryCost(detector, onNumber, lastCodePoint), mainSegmentSize, MIN_BRANCH_SEGMENT_SIZE,
                         mainSize, branchSize, minMemory)
    ensures SearchState(MemoryCost(detector, onNumber, lastCodePoint), mainSegmentSize + 1, MIN_BRANCH_SEGMENT_SIZE,
                        mainSize', branchSize', minMemory')
    ensures BranchPass(dataReferences, MAX_BRANCH_SEGMENT_SIZE, branchSegments, branchReferences, mainIndexesSize, branchIndexesSize)
  {
    ghost var cost := MemoryCost(detector, onNumber, lastCodePoint);
    mainSize', branchSize', minMemory' := mainSize, branchSize, minMemory;
    branchSegments, branchReferences, mainIndexesSize, branchIndexesSize := [], [], 0, 0;

    var branchSegmentSize := MIN_BRANCH_SEGMENT_SIZE;
    ghost var tried: nat := 0;
    while branchSegmentSize <= MAX_BRANCH_SEGMENT_SIZE
      invariant MIN_BRANCH_SEGMENT_SIZE <= branchSegmentSize <= MAX_BRANCH_SEGMENT_SIZE + 1
      invariant SearchState(cost, mainSegmentSize, branchSegmentSize, mainSize', branchSize', minMemory')
      invariant branchSegmentSize > MIN_BRANCH_SEGMENT_SIZE ==>
        tried + 1 == branchSegmentSize &&
        BranchPass(dataReferences, tried, branchSegments, branchReferences, mainIndexesSize, branchIndexesSize)
    {
      mainSize', branchSize', minMemory', branchSegments, branchReferences, mainIndexesSize, branchIndexesSize :=
        TryPair(detector, onNumber, lastCodePoint, mainSegmentSize, branchSegmentSize,
                dataSegments, dataReferences, dataSize, mainSize', branchSize', minMemory');
      tried := branchSegmentSize;
      branchSegmentSize := branchSegmentSize + 1;
    }

    SearchRow(cost, mainSegmentSize, mainSize', branchSize', minMemory');
  }

  /** One iteration of the inner loop of analyzeData: a collect pass with
      branch segment size `b`, its memory figure, and the pair (m, b) kept
      when that figure is strictly below the minimum so far. */
  method TryPair(detector: nat -> nat, onNumber: nat, lastCodePoint: nat, m: nat, b: nat,
                 dataSegments: seq<Segment>, dataReferences: seq<nat>, dataSize: nat,
                 mainSize: nat, branchSize: nat, minMemory: nat)
      returns (mainSize': nat, branchSize': nat, minMemory': nat,
               branchSegments: seq<Segment>, branchReferences: seq<nat>, mainIndexesSize: nat, branchIndexesSize: nat)
    requires 1 <= lastCodePoint <= MAX_CODE_POINT && InGrid(m, b)
    requires MainPass(detector, onNumber, lastCodePoint, m, dataSegments, dataReferences, dataSize)
    requires 0 < |dataReferences| < SIZE_MAX
    requires SearchState(MemoryCost(detector, onNumber, lastCodePoint), m, b, mainSize, branchSize, minMemory)
    ensures SearchState(MemoryCost(detector, onNumber, lastCodePoint), m, b + 1, mainSize', branchSize', minMemory')
    ensures BranchPass(dataReferences, b, branchSegments, branchReferences, mainIndexesSize, branchIndexesSize)
  {
    branchSegments, branchReferences, mainIndexesSize := CollectBranchSegments(dataReferences, b);
    branchIndexesSize := |branchReferences|;

    var memory := dataSize + ((mainIndexesSize + branchIndexesSize) * 2);
    PassMemory(detector, onNumber, lastCodePoint, m, b,
               dataSegments, dataReferences, dataSize, branchSegments, branchReferences, mainIndexesSize, branchIndexesSize);
    MemoryBelowSizeMax(detector, onNumber, lastCodePoint, m, b);
    SearchStep(MemoryCost(detector, onNumber, lastCodePoint), m, b, mainSize, branchSize, minMemory);
    if memory < minMemory {
      mainSize', branchSize', minMemory' := m, b, memory;
    } else {
      mainSize', branchSize', minMemory' := mainSize, branchSize, minMemory;
    }
  }

  /** The three array loops of generateFile over the kept segments: the
      data entries, the main indexes and the branch indexes. */
  method EmitArrays(dataSegments: seq<Segment>, branchSegments: seq<Segment>, branchReferences: seq<nat>)
      returns (tables: LookupTables)
    requires EntriesBelow(branchSegments, |dataSegments|)
    requires forall i :: 0 <= i < |branchReferences| ==> branchReferences[i] < |branchSegments|
    ensures forall p :: 0 <= p < |Flatten(branchSegments)| ==> Flatten(branchSegments)[p] < |dataSegments|
    ensures tables ==
      LookupTables(Flatten(dataSegments), Offsets(dataSegments, Flatten(branchSegments)),
                   Offsets(branchSegments, branchReferences))
  {
    var data := EmitData(dataSegments);
    var mainIndexes := EmitMainIndexes(dataSegments, branchSegments);
    var branchIndexes := EmitBranchIndexes(branchSegments, branchReferences);
    tables := LookupTables(data, mainIndexes, branchIndexes);
    assert mainIndexes == Offsets(dataSegments, Flatten(branchSegments));
  }

  /** The body of generateFile: both collect passes for segment sizes `m`
      and `b`, then the three emitted arrays, which are the tables the
      segment sizes determine and whose lookup gives back the class number
      of every code point the chunks reach. */
  method GenerateTables(detector: nat -> nat, onNumber: nat, lastCodePoint: nat, m: nat, b: nat)
      returns (dataSegments: seq<Segment>, dataReferences: seq<nat>, dataSize: nat,
               branchSegments: seq<Segment>, branchReferences: seq<nat>, mainIndexesSize: nat, branchIndexesSize: nat,
               tables: LookupTables)
    requires 1 <= lastCodePoint <= MAX_CODE_POINT && m > 0 && b > 0
    ensures MainPass(detector, onNumber, lastCodePoint, m, dataSegments, dataReferences, dataSize)
    ensures BranchPass(dataReferences, b, branchSegments, branchReferences, mainIndexesSize, branchIndexesSize)
    ensures tables == EmitTables(detector, onNumber, lastCodePoint, m, b)
    ensures |tables.data| == dataSize
    ensures |tables.mainIndexes| == mainIndexesSize && |tables.branchIndexes| == branchIndexesSize
    ensures forall cp: nat :: Reached(lastCodePoint, m, b, cp) ==>
      Lookup(tables, lastCodePoint, m, b, onNumber, cp) == Some(ClassNumber(detector, onNumber, cp))
    ensures forall cp: nat :: lastCodePoint < cp ==> Lookup(tables, lastCodePoint, m, b, onNumber, cp) == Some(onNumber)
    ensures Covers(lastCodePoint, m, b) ==>
      forall cp: nat :: Lookup(tables, lastCodePoint, m, b, onNumber, cp)
                   == Some(if cp <= lastCodePoint then ClassNumber(detector, onNumber, cp) else onNumber)
  {
    dataSegments, dataReferences, dataSize := CollectMainSegments(detector, onNumber, lastCodePoint, m);
    FastCeilBounds(lastCodePoint, m);
    branchSegments, branchReferences, mainIndexesSize := CollectBranchSegments(dataReferences, b);
    branchIndexesSize := |branchReferences|;

    BranchEntriesBelow(MainChunks(detector, onNumber, lastCodePoint, m), b);
    tables := EmitArrays(dataSegments, branchSegments, branchReferences);
    FlattenLength(dataSegments);
    FlattenLength(branchSegments);
    forall cp: nat | Reached(lastCodePoint, m, b, cp)
      ensures Lookup(tables, lastCodePoint, m, b, onNumber, cp) == Some(ClassNumber(detector, onNumber, cp))
    {
      RoundTripAt(detector, onNumber, lastCodePoint, m, b, cp);
    }
    if Covers(lastCodePoint, m, b) {
      forall cp: nat
        ensures Lookup(tables, lastCodePoint, m, b, onNumber, cp)
                == Some(if cp <= lastCodePoint then ClassNumber(detector, onNumber, cp) else onNumber)
      {
        RoundTrip(detector, onNumber, lastCodePoint, m, b, cp);
      }
    }
  }

  class BidiTypeLookupGenerator {
    /** Class number of each code point, 0 for "none" (the detector's numberForCodePoint). */
    const detector: nat -> nat
    /** Class number of ON (the detector's nameToNumber("ON")). */
    const onNumber: nat
    /** Last code point the detector covers. */
    const lastCodePoint: nat

    var mainSegmentSize: nat
    var branchSegmentSize: nat

    var dataSegments: seq<Segment>
    /** Per data chunk, the position in dataSegments of its segment. */
    var dataReferences: seq<nat>
    var dataSize: nat

    /** Segments of data references; their contents are positions in dataSegments. */
    var branchSegments: seq<Segment>
    /** Per branch chunk, the position in branchSegments of its segment. */
    var branchReferences: seq<nat>
    var mainIndexesSize: nat
    var branchIndexesSize: nat

    /** Code points 0 .. lastCodePoint, at least two of them, within Unicode. */
    predicate InCodeSpace()
    {
      1 <= lastCodePoint <= MAX_CODE_POINT
    }

    constructor (detector: nat -> nat, onNumber: nat, lastCodePoint: nat)
      requires 1 <= lastCodePoint <= MAX_CODE_POINT
      ensures this.detector == detector && this.onNumber == onNumber && this.lastCodePoint == lastCodePoint
      ensures InCodeSpace()
      ensures mainSegmentSize == 0 && branchSegmentSize == 0
      ensures dataSegments == [] && dataReferences == [] && dataSize == 0
      ensures branchSegments == [] && branchReferences == [] && mainIndexesSize == 0 && branchIndexesSize == 0
    {
      this.detector := detector;
      this.onNumber := onNumber;
      this.lastCodePoint := lastCodePoint;
      mainSegmentSize, branchSegmentSize := 0, 0;
      dataSegments, dataReferences, dataSize := [], [], 0;
      branchSegments, branchReferences := [], [];
      mainIndexesSize, branchIndexesSize := 0, 0;
    }

    method SetMainSegmentSize(segmentSize: nat)
      modifies this`mainSegmentSize
      ensures mainSegmentSize == Clamp(segmentSize, MIN_MAIN_SEGMENT_SIZE, MAX_MAIN_SEGMENT_SIZE)
    {
      mainSegmentSize := Clamp(segmentSize, MIN_MAIN_SEGMENT_SIZE, MAX_MAIN_SEGMENT_SIZE);
    }

    method SetBranchSegmentSize(segmentSize: nat)
      modifies this`branchSegmentSize
      ensures branchSegmentSize == Clamp(segmentSize, MIN_BRANCH_SEGMENT_SIZE, MAX_BRANCH_SEGMENT_SIZE)
    {
      branchSegmentSize := Clamp(segmentSize, MIN_BRANCH_SEGMENT_SIZE, MAX_BRANCH_SEGMENT_SIZE);
    }

    /** collectMainData: cuts the code points into chunks of
        mainSegmentSize and stores the kept segments, the references and the
        running sizes. */
    method CollectMainData()
      requires InCodeSpace() && mainSegmentSize > 0
      modifies this`dataSegments, this`dataReferences, this`dataSize, this`mainIndexesSize
      ensures MainPass(detector, onNumber, lastCodePoint, mainSegmentSize, dataSegments, dataReferences, dataSize)
      ensures mainIndexesSize == |dataReferences| == FastCeil(lastCodePoint, mainSegmentSize)
      ensures Distinct(dataSegments) && Contiguous(dataSegments)
      ensures Resolves(MainChunks(detector, onNumber, lastCodePoint, mainSegmentSize), dataSegments, dataReferences)
    {
      dataSegments, dataReferences, dataSize := CollectMainSegments(detector, onNumber, lastCodePoint, mainSegmentSize);
      mainIndexesSize := |dataReferences|;
    }

    /** collectBranchData: cuts the data references into chunks of
        branchSegmentSize and stores the kept segments, the references and
        both index sizes. */
    method CollectBranchData()
      requires 0 < |dataReferences| < SIZE_MAX && branchSegmentSize > 0
      modifies this`branchSegments, this`branchReferences, this`mainIndexesSize, this`branchIndexesSize
      ensures BranchPass(dataReferences, branchSegmentSize, branchSegments, branchReferences, mainIndexesSize, branchIndexesSize)
      ensures branchIndexesSize == FastCeil(|dataReferences| - 1, branchSegmentSize)
      ensures Distinct(branchSegments) && Contiguous(branchSegments)
      ensures Resolves(BranchChunks(dataReferences, branchSegmentSize), branchSegments, branchReferences)
    {
      branchSegments, branchReferences, mainIndexesSize := CollectBranchSegments(dataReferences, branchSegmentSize);
      branchIndexesSize := |branchReferences|;
    }

    /** analyzeData: the size search, which leaves the first pair of least
        memory as the segment sizes and the collected data of the last pair
        tried in place. */
    method AnalyzeData()
      requires InCodeSpace()
      modifies this
      ensures FirstMinimum(MemoryCost(detector, onNumber, lastCodePoint), mainSegmentSize, branchSegmentSize)
      ensures MainPass(detector, onNumber, lastCodePoint, MAX_MAIN_SEGMENT_SIZE, dataSegments, dataReferences, dataSize) && BranchPass(dataReferences, MAX_BRANCH_SEGMENT_SIZE, branchSegments, branchReferences, mainIndexesSize, branchIndexesSize)
    {
      var mainSize, branchSize, minMemory, dataSegments', dataReferences', dataSize',
          branchSegments', branchReferences', mainIndexesSize', branchIndexesSize'
        := SearchSegmentSizes(detector, onNumber, lastCodePoint);
      Store(mainSize, branchSize, dataSegments', dataReferences', dataSize',
            branchSegments', branchReferences', mainIndexesSize', branchIndexesSize');
    }

    /** Stores the segment sizes and the collected data in the fields. */
    /** Stores a result computed by the value-level methods above; it is
        not an operation of the generator and only its callers here use it. */
    method Store(mainSize: nat, branchSize: nat,
                 dataSegments': seq<Segment>, dataReferences': seq<nat>, dataSize': nat,
                 branchSegments': seq<Segment>, branchReferences': seq<nat>, mainIndexesSize': nat, branchIndexesSize': nat)
      modifies this
      ensures mainSegmentSize == mainSize && branchSegmentSize == branchSize
      ensures dataSegments == dataSegments' && dataReferences == dataReferences' && dataSize == dataSize'
      ensures branchSegments == branchSegments' && branchReferences == branchReferences'
      ensures mainIndexesSize == mainIndexesSize' && branchIndexesSize == branchIndexesSize'
    {
      mainSegmentSize, branchSegmentSize := mainSize, branchSize;
      dataSegments, dataReferences, dataSize := dataSegments', dataReferences', dataSize';
      branchSegments, branchReferences := branchSegments', branchReferences';
      mainIndexesSize, branchIndexesSize := mainIndexesSize', branchIndexesSize';
    }

    /** generateFile: runs both collect passes for the current segment sizes
        and emits the three arrays. The emitted lookup gives back the class
        number of every code point the chunks reach, ON past the last code
        point, and so every class number when the chunks cover everything. */
    method GenerateFile() returns (tables: LookupTables)
      requires InCodeSpace() && mainSegmentSize > 0 && branchSegmentSize > 0
      modifies this
      ensures mainSegmentSize == old(mainSegmentSize) && branchSegmentSize == old(branchSegmentSize)
      ensures MainPass(detector, onNumber, lastCodePoint, mainSegmentSize, dataSegments, dataReferences, dataSize)
      ensures BranchPass(dataReferences, branchSegmentSize, branchSegments, branchReferences, mainIndexesSize, branchIndexesSize)
      ensures tables == EmitTables(detector, onNumber, lastCodePoint, mainSegmentSize, branchSegmentSize)
      ensures |tables.data| == dataSize
      ensures |tables.mainIndexes| == mainIndexesSize && |tables.branchIndexes| == branchIndexesSize
      ensures forall cp: nat :: Reached(lastCodePoint, mainSegmentSize, branchSegmentSize, cp) ==>
        Lookup(tables, lastCodePoint, mainSegmentSize, branchSegmentSize, onNumber, cp) == Some(ClassNumber(detector, onNumber, cp))
      ensures forall cp: nat :: lastCodePoint < cp ==>
        Lookup(tables, lastCodePoint, mainSegmentSize, branchSegmentSize, onNumber, cp) == Some(onNumber)
      ensures Covers(lastCodePoint, mainSegmentSize, branchSegmentSize) ==>
        forall cp: nat :: Lookup(tables, lastCodePoint, mainSegmentSize, branchSegmentSize, onNumber, cp)
                     == Some(if cp <= lastCodePoint then ClassNumber(detector, onNumber, cp) else onNumber)
    {
      var dataSegments', dataReferences', dataSize', branchSegments', branchReferences', mainIndexesSize', branchIndexesSize';
      dataSegments', dataReferences', dataSize', branchSegments', branchReferences', mainIndexesSize', branchIndexesSize', tables
        := GenerateTables(detector, onNumber, lastCodePoint, mainSegmentSize, branchSegmentSize);
      Store(mainSegmentSize, branchSegmentSize, dataSegments', dataReferences', dataSize',
            branchSegments', branchReferences', mainIndexesSize', branchIndexesSize');
    }
  }
}
