/** The numeric layout of the generated bidi-type lookup: segment-size
    limits, how code points are cut into data chunks and data references into
    branch chunks, the three arrays that are emitted, the emitted
    LookupBidiType formula, and the memory figure the size search minimises.
 */
module BidiTypeLayout {
  import opened SegmentTable

  const MIN_MAIN_SEGMENT_SIZE: nat := 8
  const MAX_MAIN_SEGMENT_SIZE: nat := 512
  const MIN_BRANCH_SEGMENT_SIZE: nat := 8
  const MAX_BRANCH_SEGMENT_SIZE: nat := 512

  /** Largest `size_t`: the starting value of the memory minimum and the
      "not found" marker of the segment search. */
  const SIZE_MAX: nat := 0xFFFF_FFFF_FFFF_FFFF

  /** Last Unicode code point; the generator is fed Unicode data. */
  const MAX_CODE_POINT: nat := 0x10FFFF

  datatype Option<T> = None | Some(value: T)

  /** The three arrays of the generated source: PrimaryBidiTypeData,
      MainBidiTypeIndexes and BranchBidiTypeIndexes. */
  datatype LookupTables = LookupTables(data: seq<nat>, mainIndexes: seq<nat>, branchIndexes: seq<nat>)

  function Min(a: nat, b: nat): nat { if a <= b then a else b }

  function Max(a: nat, b: nat): nat { if a <= b then b else a }

  /** `min(hi, max(lo, x))`, as the two segment-size setters compute it. */
  function Clamp(x: nat, lo: nat, hi: nat): (r: nat)
    requires lo <= hi
    ensures lo <= r <= hi
    ensures lo <= x <= hi ==> r == x
    ensures x < lo ==> r == lo
    ensures hi < x ==> r == hi
  {
    Min(hi, Max(lo, x))
  }

  /** Number of `y`-sized pieces needed for `x` items: the least multiple of
      `y` that is at least `x`, divided by `y`. */
  function FastCeil(x: nat, y: nat): (r: nat)
    requires y > 0
  {
    (x + y - 1) / y
  }

  lemma FastCeilSpec(x: nat, y: nat)
    requires y > 0
    ensures x <= FastCeil(x, y) * y < x + y
  {
    DivBounds(x + y - 1, y);
  }

  /** There are never more pieces than items, and at least one piece for
      at least one item. */
  lemma FastCeilBounds(x: nat, y: nat)
    requires y > 0
    ensures FastCeil(x, y) <= x
    ensures x >= 1 ==> FastCeil(x, y) >= 1
  {
    var r := FastCeil(x, y);
    if r > x {
      MulMono(x + 1, r, y);
      MulMono(1, y, x);
      assert false;
    }
  }

  lemma DivBounds(x: nat, y: nat)
    requires y > 0
    ensures x / y * y <= x < x / y * y + y
  {
  }

  lemma MulMono(a: nat, b: nat, c: nat)
    requires a <= b
    ensures a * c <= b * c
  {
  }

  /** Division by `d` is determined by quotient and remainder. */
  lemma DivModUnique(x: nat, d: nat, q: nat, r: nat)
    requires d > 0 && x == q * d + r && r < d
    ensures x / d == q && x % d == r
  {
    var q', r' := x / d, x % d;
    assert x == q' * d + r';
    if q < q' {
      MulMono(q + 1, q', d);
      assert false;
    } else if q' < q {
      MulMono(q' + 1, q, d);
      assert false;
    }
  }

  /** The class number stored for code point `u`: the detector's number,
      or the number of ON when the detector has none (0). */
  function ClassNumber(detector: nat -> nat, onNumber: nat, u: nat): nat
  {
    if detector(u) != 0 then detector(u) else onNumber
  }

  /** Chunk `i` of the code points starts at `i*m`, below `last`. */
  lemma StartBelow(x: nat, y: nat, i: nat)
    requires y > 0 && i < FastCeil(x, y)
    ensures i * y < x
  {
    FastCeilSpec(x, y);
    MulMono(i + 1, FastCeil(x, y), y);
    assert (i + 1) * y == i * y + y;
  }

  /** The data chunk that starts at code point `start`: the class numbers
      of code points `start .. min(last, start + m - 1)`. */
  function MainChunkFrom(detector: nat -> nat, onNumber: nat, last: nat, m: nat, start: nat): (chunk: seq<nat>)
    requires m > 0 && start <= last
    ensures 1 <= |chunk| <= m
    ensures start + |chunk| <= last + 1
    ensures |chunk| == m || start + |chunk| == last + 1
    ensures forall u :: start <= u < start + |chunk| ==> chunk[u - start] == ClassNumber(detector, onNumber, u)
  {
    var size := Min(last, start + m - 1) + 1 - start;
    seq(size, k requires 0 <= k < size => if detector(start + k) != 0 then detector(start + k) else onNumber)
  }

  /** Chunk `i` of the code points, in steps of `m`. */
  function MainChunk(detector: nat -> nat, onNumber: nat, last: nat, m: nat, i: nat): seq<nat>
    requires m > 0 && i < FastCeil(last, m)
  {
    StartBelow(last, m, i);
    MainChunkFrom(detector, onNumber, last, m, i * m)
  }

  /** All data chunks: `FastCeil(last, m)` of them. */
  function MainChunks(detector: nat -> nat, onNumber: nat, last: nat, m: nat): (chunks: seq<seq<nat>>)
    requires m > 0
    ensures |chunks| == FastCeil(last, m)
    ensures forall i :: 0 <= i < |chunks| ==> chunks[i] == MainChunk(detector, onNumber, last, m, i)
  {
    seq(FastCeil(last, m), i requires 0 <= i < FastCeil(last, m) => MainChunk(detector, onNumber, last, m, i))
  }

  /** The branch chunk that starts at data reference `start`: references
      `start .. min(|refs| - 1, start + b - 1)`. */
  function BranchChunkFrom(refs: seq<nat>, b: nat, start: nat): (chunk: seq<nat>)
    requires b > 0 && start < |refs|
    ensures 1 <= |chunk| <= b
    ensures start + |chunk| <= |refs|
    ensures |chunk| == b || start + |chunk| == |refs|
    ensures forall k :: 0 <= k < |chunk| ==> chunk[k] == refs[start + k]
  {
    var size := Min(|refs| - 1, start + b - 1) + 1 - start;
    seq(size, k requires 0 <= k < size => refs[start + k])
  }

  /** Chunk `i` of the data references, in steps of `b`. */
  function BranchChunk(refs: seq<nat>, b: nat, i: nat): seq<nat>
    requires |refs| > 0 && b > 0 && i < FastCeil(|refs| - 1, b)
  {
    StartBelow(|refs| - 1, b, i);
    BranchChunkFrom(refs, b, i * b)
  }

  /** All branch chunks: `FastCeil(|refs| - 1, b)` of them. */
  function BranchChunks(refs: seq<nat>, b: nat): (chunks: seq<seq<nat>>)
    requires |refs| > 0 && b > 0
    ensures |chunks| == FastCeil(|refs| - 1, b)
    ensures forall i :: 0 <= i < |chunks| ==> chunks[i] == BranchChunk(refs, b, i)
  {
    seq(FastCeil(|refs| - 1, b), i requires 0 <= i < FastCeil(|refs| - 1, b) => BranchChunk(refs, b, i))
  }

  /** The chunks laid end to end, in order. */
  function Concat(chunks: seq<seq<nat>>): seq<nat>
  {
    if |chunks| == 0 then [] else Concat(chunks[..|chunks| - 1]) + chunks[|chunks| - 1]
  }

  /** Pieces that are the consecutive `y`-sized slices of `whole`, each
      starting inside it, give `whole` back when laid end to end, up to
      where the pieces stop. */
  lemma {:induction false} ConcatSlices(chunks: seq<seq<nat>>, whole: seq<nat>, y: nat)
    requires y > 0
    requires forall i :: 0 <= i < |chunks| ==> i * y < |whole| && chunks[i] == whole[i * y .. Min(|whole|, i * y + y)]
    ensures Concat(chunks) == whole[..Min(|whole|, |chunks| * y)]
  {
    if |chunks| > 0 {
      var k := |chunks| - 1;
      var init := chunks[..k];
      assert forall i :: 0 <= i < |init| ==> init[i] == chunks[i];
      ConcatSlices(init, whole, y);
      MulSucc(k, y);
      assert k * y < |whole|;
      assert whole[..Min(|whole|, |chunks| * y)] == whole[..k * y] + whole[k * y .. Min(|whole|, k * y + y)];
    }
  }

  /** The data chunks, laid end to end, are the class numbers of code
      points `0, 1, 2, ...` in order, up to `last` or to where the
      `FastCeil(last, m)` chunks stop, whichever comes first. */
  lemma MainChunksConcat(detector: nat -> nat, onNumber: nat, last: nat, m: nat)
    requires m > 0
    ensures |Concat(MainChunks(detector, onNumber, last, m))| == Min(last + 1, FastCeil(last, m) * m)
    ensures forall u :: 0 <= u < |Concat(MainChunks(detector, onNumber, last, m))| ==>
      Concat(MainChunks(detector, onNumber, last, m))[u] == ClassNumber(detector, onNumber, u)
  {
    var chunks := MainChunks(detector, onNumber, last, m);
    var whole := seq(last + 1, u requires 0 <= u <= last => ClassNumber(detector, onNumber, u));
    forall i | 0 <= i < |chunks|
      ensures i * m < |whole| && chunks[i] == whole[i * m .. Min(|whole|, i * m + m)]
    {
      StartBelow(last, m, i);
      assert chunks[i] == MainChunkFrom(detector, onNumber, last, m, i * m);
    }
    ConcatSlices(chunks, whole, m);
  }

  /** The branch chunks, laid end to end, are the data references in
      order, up to the last one or to where the `FastCeil(|refs| - 1, b)`
      chunks stop, whichever comes first. */
  lemma BranchChunksConcat(refs: seq<nat>, b: nat)
    requires |refs| > 0 && b > 0
    ensures Concat(BranchChunks(refs, b)) == refs[..Min(|refs|, FastCeil(|refs| - 1, b) * b)]
  {
    var chunks := BranchChunks(refs, b);
    forall i | 0 <= i < |chunks|
      ensures i * b < |refs| && chunks[i] == refs[i * b .. Min(|refs|, i * b + b)]
    {
      StartBelow(|refs| - 1, b, i);
      assert chunks[i] == BranchChunkFrom(refs, b, i * b);
    }
    ConcatSlices(chunks, refs, b);
  }

  /** The data references are positions of kept data segments, and so is
      every entry of every branch chunk. */
  lemma BranchChunksBelow(mainChunks: seq<seq<nat>>, b: nat)
    requires |mainChunks| > 0 && b > 0
    ensures |References(mainChunks)| > 0
    ensures var chunks := BranchChunks(References(mainChunks), b);
            forall i, j :: 0 <= i < |chunks| && 0 <= j < |chunks[i]| ==> chunks[i][j] < |Deduplicate(mainChunks)|
  {
    ReferencesResolve(mainChunks);
    var refs := References(mainChunks);
    var chunks := BranchChunks(refs, b);
    forall i, j | 0 <= i < |chunks| && 0 <= j < |chunks[i]|
      ensures chunks[i][j] < |Deduplicate(mainChunks)|
    {
      assert chunks[i][j] == refs[i * b + j];
    }
  }

  /** Every number a kept branch segment stores names a kept data segment. */
  lemma BranchEntriesBelow(mainChunks: seq<seq<nat>>, b: nat)
    requires |mainChunks| > 0 && b > 0
    ensures |References(mainChunks)| > 0
    ensures EntriesBelow(Deduplicate(BranchChunks(References(mainChunks), b)), |Deduplicate(mainChunks)|)
  {
    BranchChunksBelow(mainChunks, b);
    DeduplicateBelow(BranchChunks(References(mainChunks), b), |Deduplicate(mainChunks)|);
  }

  /** The three arrays emitted for the data chunks `mainChunks` and the
      branch chunks `branchChunks`: the kept data segments laid end to end
      (PrimaryBidiTypeData); the kept branch segments laid end to end, each
      entry replaced by the offset of the data segment it names
      (MainBidiTypeIndexes); for each branch chunk, the offset of the branch
      segment that holds it (BranchBidiTypeIndexes). */
  function TablesFrom(mainChunks: seq<seq<nat>>, branchChunks: seq<seq<nat>>): LookupTables
    requires forall i, j :: 0 <= i < |branchChunks| && 0 <= j < |branchChunks[i]| ==>
      branchChunks[i][j] < |Deduplicate(mainChunks)|
  {
    DeduplicateBelow(branchChunks, |Deduplicate(mainChunks)|);
    ReferencesResolve(branchChunks);
    var dataSegments := Deduplicate(mainChunks);
    var branchSegments := Deduplicate(branchChunks);
    LookupTables(Flatten(dataSegments),
                 Offsets(dataSegments, Flatten(branchSegments)),
                 Offsets(branchSegments, References(branchChunks)))
  }

  /** The arrays emitted for the data chunks `mainChunks` and branch
      segment size `b`. */
  function TablesOf(mainChunks: seq<seq<nat>>, b: nat): LookupTables
    requires |mainChunks| > 0 && b > 0
  {
    BranchChunksBelow(mainChunks, b);
    TablesFrom(mainChunks, BranchChunks(References(mainChunks), b))
  }

  /** Everything the generator emits for segment sizes `m` and `b`. */
  function EmitTables(detector: nat -> nat, onNumber: nat, last: nat, m: nat, b: nat): LookupTables
    requires last >= 1 && m > 0 && b > 0
  {
    TablesOf(MainChunks(detector, onNumber, last, m), b)
  }

  /** The bytes the emitted arrays take: one per data entry, two per index
      entry (the "REQUIRED MEMORY" figure). */
  function RequiredMemory(detector: nat -> nat, onNumber: nat, last: nat, m: nat, b: nat): nat
    requires last >= 1 && m > 0 && b > 0
  {
    var tables := EmitTables(detector, onNumber, last, m, b);
    |tables.data| + 2 * (|tables.mainIndexes| + |tables.branchIndexes|)
  }

  /** The required memory is the sum of the running size counters of the
      two collect passes: kept data entries, plus two bytes per kept main
      index and per branch index. */
  lemma RequiredMemorySums(detector: nat -> nat, onNumber: nat, last: nat, m: nat, b: nat)
    requires last >= 1 && m > 0 && b > 0
    ensures |References(MainChunks(detector, onNumber, last, m))| > 0
    ensures var mainChunks := MainChunks(detector, onNumber, last, m);
            var branchChunks := BranchChunks(References(mainChunks), b);
            RequiredMemory(detector, onNumber, last, m, b)
              == TotalSize(Deduplicate(mainChunks)) + 2 * (TotalSize(Deduplicate(branchChunks)) + |branchChunks|)
  {
    var mainChunks := MainChunks(detector, onNumber, last, m);
    BranchChunksBelow(mainChunks, b);
    var branchChunks := BranchChunks(References(mainChunks), b);
    FlattenLength(Deduplicate(mainChunks));
    FlattenLength(Deduplicate(branchChunks));
    ReferencesResolve(branchChunks);
  }

  /** (m, b) is a pair of segment sizes the size search tries. */
  predicate InGrid(m: nat, b: nat)
  {
    MIN_MAIN_SEGMENT_SIZE <= m <= MAX_MAIN_SEGMENT_SIZE && MIN_BRANCH_SEGMENT_SIZE <= b <= MAX_BRANCH_SEGMENT_SIZE
  }

  /** The search tries (m, b) before (m', b'): main size in the outer loop,
      branch size in the inner one, both increasing. */
  predicate Precedes(m: nat, b: nat, m': nat, b': nat)
  {
    m < m' || (m == m' && b < b')
  }

  /** The required memory of every pair of segment sizes, as the cost the
      size search minimises (0 where it is undefined). */
  function MemoryCost(detector: nat -> nat, onNumber: nat, last: nat): (nat, nat) -> nat
  {
    (m: nat, b: nat) => if last >= 1 && m > 0 && b > 0 then RequiredMemory(detector, onNumber, last, m, b) else 0
  }

  /** (mBest, bBest) is the first pair, in search order, of least cost
      among the grid pairs tried before (m, b). */
  ghost predicate BestBefore(cost: (nat, nat) -> nat, m: nat, b: nat, mBest: nat, bBest: nat)
  {
    InGrid(mBest, bBest) && Precedes(mBest, bBest, m, b) &&
    forall m', b' :: InGrid(m', b') && Precedes(m', b', m, b) ==>
      cost(mBest, bBest) <= cost(m', b') &&
      (Precedes(m', b', mBest, bBest) ==> cost(mBest, bBest) < cost(m', b'))
  }

  /** The state of the size search before it tries (m, b): nothing tried
      yet and the minimum still SIZE_MAX, or the best pair so far with its
      cost as the minimum. */
  ghost predicate SearchState(cost: (nat, nat) -> nat, m: nat, b: nat, mBest: nat, bBest: nat, minMemory: nat)
  {
    if m == MIN_MAIN_SEGMENT_SIZE && b == MIN_BRANCH_SEGMENT_SIZE then minMemory == SIZE_MAX
    else BestBefore(cost, m, b, mBest, bBest) && minMemory == cost(mBest, bBest)
  }

  /** (m, b) is the pair the size search settles on: in the grid, no grid
      pair costs less, and every grid pair tried before it costs more. */
  ghost predicate FirstMinimum(cost: (nat, nat) -> nat, m: nat, b: nat)
  {
    InGrid(m, b) &&
    forall m', b' :: InGrid(m', b') ==>
      cost(m, b) <= cost(m', b') && (Precedes(m', b', m, b) ==> cost(m, b) < cost(m', b'))
  }

  /** One try of the size search: (m, b) replaces the best pair exactly when
      it costs strictly less than the minimum so far. */
  lemma SearchStep(cost: (nat, nat) -> nat, m: nat, b: nat, mBest: nat, bBest: nat, minMemory: nat)
    requires InGrid(m, b) && cost(m, b) < SIZE_MAX
    requires SearchState(cost, m, b, mBest, bBest, minMemory)
    ensures if cost(m, b) < minMemory then SearchState(cost, m, b + 1, m, b, cost(m, b))
            else SearchState(cost, m, b + 1, mBest, bBest, minMemory)
  {
  }

  /** Past the last branch size of a row, the search state is the one
      before the next row. */
  lemma SearchRow(cost: (nat, nat) -> nat, m: nat, mBest: nat, bBest: nat, minMemory: nat)
    requires MIN_MAIN_SEGMENT_SIZE <= m
    requires SearchState(cost, m, MAX_BRANCH_SEGMENT_SIZE + 1, mBest, bBest, minMemory)
    ensures SearchState(cost, m + 1, MIN_BRANCH_SEGMENT_SIZE, mBest, bBest, minMemory)
  {
  }

  /** Once every row has been tried, the best pair is the first minimum. */
  lemma SearchDone(cost: (nat, nat) -> nat, mBest: nat, bBest: nat, minMemory: nat)
    requires SearchState(cost, MAX_MAIN_SEGMENT_SIZE + 1, MIN_BRANCH_SEGMENT_SIZE, mBest, bBest, minMemory)
    ensures FirstMinimum(cost, mBest, bBest) && minMemory == cost(mBest, bBest)
  {
  }

  /** The size search's choice is determined: two first minima are the same
      pair. */
  lemma FirstMinimumUnique(cost: (nat, nat) -> nat, m1: nat, b1: nat, m2: nat, b2: nat)
    requires FirstMinimum(cost, m1, b1) && FirstMinimum(cost, m2, b2)
    ensures m1 == m2 && b1 == b2
  {
  }

  /** The emitted LookupBidiType: code points up to `last` read the three
      arrays in turn, any other code point is ON. `None` stands for a read
      past the end of an array, which the generated C does not check. */
  function Lookup(tables: LookupTables, last: nat, m: nat, b: nat, onNumber: nat, cp: nat): Option<nat>
    requires m > 0 && b > 0
  {
    if cp <= last then
      var branchIndex := cp / (m * b);
      if branchIndex < |tables.branchIndexes| then
        var mainIndex := tables.branchIndexes[branchIndex] + (cp % (m * b)) / m;
        if mainIndex < |tables.mainIndexes| then
          var dataIndex := tables.mainIndexes[mainIndex] + cp % m;
          if dataIndex < |tables.data| then Some(tables.data[dataIndex]) else None
        else None
      else None
    else Some(onNumber)
  }

  /** The chunks reach every code point up to `last`, and the branch chunks
      reach every data reference. */
  predicate Covers(last: nat, m: nat, b: nat)
    requires m > 0 && b > 0
  {
    last < FastCeil(last, m) * m &&
    FastCeil(last, m) >= 1 &&
    FastCeil(last, m) - 1 < FastCeil(FastCeil(last, m) - 1, b) * b
  }

  /** `FastCeil(x, y)` pieces reach past item `x` exactly when `y` does not divide `x`. */
  lemma CeilReachesLast(x: nat, y: nat)
    requires y > 0
    ensures x < FastCeil(x, y) * y <==> x % y != 0
  {
    var q, r := x / y, x % y;
    if r == 0 {
      DivModUnique(x + y - 1, y, q, y - 1);
    } else {
      DivModUnique(x + y - 1, y, q + 1, r - 1);
    }
  }

  /** Coverage fails exactly when a segment size divides the last position
      it has to reach. */
  lemma CoversIff(last: nat, m: nat, b: nat)
    requires last >= 1 && m > 0 && b > 0
    ensures Covers(last, m, b) <==> last % m != 0 && (FastCeil(last, m) - 1) % b != 0
  {
    CeilReachesLast(last, m);
    CeilReachesLast(FastCeil(last, m) - 1, b);
  }

  /** How the emitted formula splits a code point: `cp` is element
      `t = cp % m` of data chunk `i = cp / m`, and `cp / (m*b)` is the
      branch chunk `q = i / b` holding it, `(cp % (m*b)) / m` the position
      `j = i % b` within that branch chunk. */
  lemma SplitCodePoint(cp: nat, m: nat, b: nat) returns (i: nat, t: nat, q: nat, j: nat)
    requires m > 0 && b > 0
    ensures i == cp / m && t == cp % m && q == i / b && j == i % b
    ensures cp / (m * b) == q
    ensures (cp % (m * b)) / m == j
  {
    i, t := cp / m, cp % m;
    q, j := i / b, i % b;
    SplitSum(cp, m, b, i, t, q, j);
    DivModUnique(cp, m * b, q, j * m + t);
    DivModUnique(j * m + t, m, j, t);
  }

  /** cp = i*m + t and i = q*b + j give cp = q*(m*b) + (j*m + t) with the
      remainder below m*b. */
  lemma SplitSum(cp: nat, m: nat, b: nat, i: nat, t: nat, q: nat, j: nat)
    requires m > 0 && b > 0
    requires cp == i * m + t && t < m && i == q * b + j && j < b
    ensures j * m + t < m * b
    ensures cp == q * (m * b) + (j * m + t)
  {
    MulMono(j + 1, b, m);
    calc {
      i * m;
      (q * b + j) * m;
      q * (m * b) + j * m;
    }
  }

  /** Position `x` below `n` pieces of size `y` is element `x % y` of
      piece `x / y`, and that piece is one of the `n`. */
  lemma Divide(x: nat, y: nat, n: nat) returns (q: nat, r: nat)
    requires y > 0 && x < n * y
    ensures q == x / y && r == x % y
    ensures q < n && r < y && q * y + r == x
  {
    q, r := x / y, x % y;
    if q >= n {
      MulMono(n, q, y);
      assert false;
    }
  }

  /** Code point `cp` is element `cp % m` of data chunk `cp / m`, provided
      the chunks reach it. */
  lemma DataChunkAt(detector: nat -> nat, onNumber: nat, last: nat, m: nat, cp: nat)
    requires m > 0 && cp <= last && cp < FastCeil(last, m) * m
    ensures cp / m < |MainChunks(detector, onNumber, last, m)|
    ensures cp % m < |MainChunks(detector, onNumber, last, m)[cp / m]|
    ensures MainChunks(detector, onNumber, last, m)[cp / m][cp % m] == ClassNumber(detector, onNumber, cp)
  {
    var i, t := Divide(cp, m, FastCeil(last, m));
  }

  /** Data reference `k` is element `k % b` of branch chunk `k / b`,
      provided the branch chunks reach it. */
  lemma BranchChunkAt(refs: seq<nat>, b: nat, k: nat)
    requires b > 0 && k < |refs| && k < FastCeil(|refs| - 1, b) * b
    ensures k / b < |BranchChunks(refs, b)|
    ensures k % b < |BranchChunks(refs, b)[k / b]|
    ensures BranchChunks(refs, b)[k / b][k % b] == refs[k]
  {
    var q, j := Divide(k, b, FastCeil(|refs| - 1, b));
  }

  /** The two index levels: the branch index of branch chunk `q`, plus
      `j`, is the position in the main indexes of element `j` of that chunk,
      and the main index there is the offset of the data segment it names. */
  lemma IndexLevels(dataSegments: seq<Segment>, branchChunks: seq<seq<nat>>, q: nat, j: nat)
    requires q < |branchChunks| && j < |branchChunks[q]|
    requires forall p :: 0 <= p < |Flatten(Deduplicate(branchChunks))| ==>
      Flatten(Deduplicate(branchChunks))[p] < |dataSegments|
    ensures var branchSegments := Deduplicate(branchChunks);
            var branchRefs := References(branchChunks);
            (forall k :: 0 <= k < |branchRefs| ==> branchRefs[k] < |branchSegments|) &&
            var mainIndexes := Offsets(dataSegments, Flatten(branchSegments));
            var branchIndexes := Offsets(branchSegments, branchRefs);
            q < |branchIndexes| &&
            branchIndexes[q] + j < |mainIndexes| &&
            branchChunks[q][j] < |dataSegments| &&
            mainIndexes[branchIndexes[q] + j] == dataSegments[branchChunks[q][j]].index
  {
    var branchSegments := Deduplicate(branchChunks);
    var branchRefs := References(branchChunks);
    ReferencesResolve(branchChunks);
    ReadBack(branchChunks, q, j);
    var mainIndexes := Offsets(dataSegments, Flatten(branchSegments));
    var branchIndexes := Offsets(branchSegments, branchRefs);
    var mainIndex := branchSegments[branchRefs[q]].index + j;
    assert branchIndexes[q] + j == mainIndex;
    assert mainIndexes[mainIndex] == dataSegments[branchChunks[q][j]].index;
  }

  /** Reading the emitted arrays for element `t` of data chunk `i`, which
      is element `j` of branch chunk `q`: the branch index of chunk `q`,
      plus `j`, gives the main index of the data segment of chunk `i`; that
      offset plus `t` gives the element. */
  lemma TablesRead(mainChunks: seq<seq<nat>>, branchChunks: seq<seq<nat>>, i: nat, t: nat, q: nat, j: nat)
    requires forall i, j :: 0 <= i < |branchChunks| && 0 <= j < |branchChunks[i]| ==>
      branchChunks[i][j] < |Deduplicate(mainChunks)|
    requires i < |mainChunks| && t < |mainChunks[i]| && |References(mainChunks)| == |mainChunks|
    requires q < |branchChunks| && j < |branchChunks[q]| && branchChunks[q][j] == References(mainChunks)[i]
    ensures var tables := TablesFrom(mainChunks, branchChunks);
      q < |tables.branchIndexes| &&
      tables.branchIndexes[q] + j < |tables.mainIndexes| &&
      tables.mainIndexes[tables.branchIndexes[q] + j] + t < |tables.data| &&
      tables.data[tables.mainIndexes[tables.branchIndexes[q] + j] + t] == mainChunks[i][t]
  {
    var dataSegments := Deduplicate(mainChunks);
    DeduplicateBelow(branchChunks, |dataSegments|);
    IndexLevels(dataSegments, branchChunks, q, j);
    ReadBack(mainChunks, i, t);
  }

  /** The chunks reach code point `cp`: it lies within the data chunks,
      and its data chunk within the branch chunks. */
  predicate Reached(last: nat, m: nat, b: nat, cp: nat)
    requires m > 0 && b > 0
  {
    cp <= last && cp < FastCeil(last, m) * m &&
    FastCeil(last, m) >= 1 && cp / m < FastCeil(FastCeil(last, m) - 1, b) * b
  }

  /** Exactly two places can be missed: code point `last` when `m`
      divides it, and the whole last data chunk when `b` divides the
      position of that chunk. Every other code point up to `last` is
      reached. */
  lemma ReachedIff(last: nat, m: nat, b: nat, cp: nat)
    requires last >= 1 && m > 0 && b > 0 && cp <= last
    ensures FastCeil(last, m) >= 1
    ensures Reached(last, m, b, cp) <==>
      !(cp == last && last % m == 0) &&
      !(cp / m + 1 == FastCeil(last, m) && (FastCeil(last, m) - 1) % b == 0)
  {
    var n := FastCeil(last, m);
    FastCeilBounds(last, m);
    FastCeilSpec(last, m);
    CeilReachesLast(last, m);
    CeilReachesLast(n - 1, b);
    FastCeilSpec(n - 1, b);
    if cp < n * m {
      var i, t := Divide(cp, m, n);
    }
  }

  /** Round trip at one code point: every code point the chunks reach is
      looked up as the class number stored for it. */
  lemma RoundTripAt(detector: nat -> nat, onNumber: nat, last: nat, m: nat, b: nat, cp: nat)
    requires last >= 1 && m > 0 && b > 0
    requires Reached(last, m, b, cp)
    ensures Lookup(EmitTables(detector, onNumber, last, m, b), last, m, b, onNumber, cp)
            == Some(ClassNumber(detector, onNumber, cp))
  {
    var chunks := MainChunks(detector, onNumber, last, m);
    var i, t, q, j := SplitCodePoint(cp, m, b);
    DataChunkAt(detector, onNumber, last, m, cp);
    ReferencesResolve(chunks);
    BranchChunkAt(References(chunks), b, i);
    BranchChunksBelow(chunks, b);
    TablesRead(chunks, BranchChunks(References(chunks), b), i, t, q, j);
    LookupAt(TablesOf(chunks, b), last, m, b, onNumber, cp, q, j, t);
  }

  /** Whatever the segment sizes, every code point before the last data
      chunk is looked up as its class number. */
  lemma RoundTripBeforeLastChunk(detector: nat -> nat, onNumber: nat, last: nat, m: nat, b: nat, cp: nat)
    requires last >= 1 && m > 0 && b > 0
    requires cp / m + 1 < FastCeil(last, m)
    ensures Lookup(EmitTables(detector, onNumber, last, m, b), last, m, b, onNumber, cp)
            == Some(ClassNumber(detector, onNumber, cp))
  {
    var n := FastCeil(last, m);
    StartBelow(last, m, cp / m + 1);
    DivBounds(cp, m);
    MulSucc(cp / m, m);
    FastCeilSpec(last, m);
    FastCeilSpec(n - 1, b);
    RoundTripAt(detector, onNumber, last, m, b, cp);
  }

  /** Round trip: when the chunks cover everything, looking up any code
      point returns the class number stored for it, and ON past `last`. */
  lemma RoundTrip(detector: nat -> nat, onNumber: nat, last: nat, m: nat, b: nat, cp: nat)
    requires last >= 1 && m > 0 && b > 0
    requires Covers(last, m, b)
    ensures Lookup(EmitTables(detector, onNumber, last, m, b), last, m, b, onNumber, cp)
            == Some(if cp <= last then ClassNumber(detector, onNumber, cp) else onNumber)
  {
    if cp <= last {
      var i, t := Divide(cp, m, FastCeil(last, m));
      RoundTripAt(detector, onNumber, last, m, b, cp);
    }
  }

  /** The emitted lookup of `cp`, once its three indexes are known and in
      range, reads the data entry they lead to. */
  lemma LookupAt(tables: LookupTables, last: nat, m: nat, b: nat, onNumber: nat, cp: nat, q: nat, j: nat, t: nat)
    requires m > 0 && b > 0 && cp <= last
    requires cp / (m * b) == q && (cp % (m * b)) / m == j && cp % m == t
    requires q < |tables.branchIndexes| && tables.branchIndexes[q] + j < |tables.mainIndexes|
    requires tables.mainIndexes[tables.branchIndexes[q] + j] + t < |tables.data|
    ensures Lookup(tables, last, m, b, onNumber, cp) == Some(tables.data[tables.mainIndexes[tables.branchIndexes[q] + j] + t])
  {
  }

  /** When `m` divides `last`, no data chunk reaches code point `last`: the
      tables hold no entry for it. */
  lemma LastCodePointDropped(detector: nat -> nat, onNumber: nat, last: nat, m: nat)
    requires m > 0 && last % m == 0
    ensures forall i :: 0 <= i < |MainChunks(detector, onNumber, last, m)| ==>
      i * m + |MainChunks(detector, onNumber, last, m)[i]| <= last
  {
    CeilReachesLast(last, m);
    var n := FastCeil(last, m);
    FastCeilSpec(last, m);
    forall i | 0 <= i < n
      ensures i * m + |MainChunks(detector, onNumber, last, m)[i]| <= last
    {
      MulMono(i + 1, n, m);
    }
  }

  /** When `b` divides `|refs| - 1`, no branch chunk reaches the last data
      reference. */
  lemma LastReferenceDropped(refs: seq<nat>, b: nat)
    requires |refs| > 0 && b > 0 && (|refs| - 1) % b == 0
    ensures forall i :: 0 <= i < |BranchChunks(refs, b)| ==> i * b + |BranchChunks(refs, b)[i]| <= |refs| - 1
  {
    CeilReachesLast(|refs| - 1, b);
    var n := FastCeil(|refs| - 1, b);
    forall i | 0 <= i < n
      ensures i * b + |BranchChunks(refs, b)[i]| <= |refs| - 1
    {
      MulMono(i + 1, n, b);
    }
  }

  /** A concrete uncovered layout: 17 code points (0..16) in chunks of 8
      leave code point 16 out, and the emitted lookup for it reads past the
      end of MainBidiTypeIndexes, whatever the detector says. */
  lemma LookupPastLastChunk(detector: nat -> nat, onNumber: nat)
    ensures Lookup(EmitTables(detector, onNumber, 16, 8, 8), 16, 8, 8, onNumber, 16) == None
  {
    var mainChunks := MainChunks(detector, onNumber, 16, 8);
    assert |mainChunks| == 2 by {
      DivModUnique(23, 8, 2, 7);
    }
    var refs := References(mainChunks);
    ReferencesResolve(mainChunks);
    OneBranchChunk(refs, 8);
    SingleChunk(refs);
    var tables := EmitTables(detector, onNumber, 16, 8, 8);
    assert tables == TablesOf(mainChunks, 8);
    assert |tables.mainIndexes| == 2;
    assert tables.branchIndexes == [0];
  }

  /** At least two references that fit in one branch segment form a single
      branch chunk. */
  lemma OneBranchChunk(refs: seq<nat>, b: nat)
    requires 1 < |refs| <= b
    ensures BranchChunks(refs, b) == [refs]
  {
    var chunks := BranchChunks(refs, b);
    DivModUnique(|refs| + b - 2, b, 1, |refs| - 2);
    assert |chunks| == 1;
    assert chunks[0] == refs;
  }

  /** A single chunk is kept once, at offset 0, and referenced as segment 0. */
  lemma SingleChunk(c: seq<nat>)
    ensures Deduplicate([c]) == [Segment(0, c)]
    ensures References([c]) == [0]
    ensures Flatten([Segment(0, c)]) == c
  {
    assert [c][..0] == [];
    assert Find([], c) == 0;
    assert [Segment(0, c)][..0] == [];
  }

  /** Every pair of the size grid needs fewer than SIZE_MAX bytes, so the
      first pair the size search tries always becomes its first candidate. */
  lemma MemoryBelowSizeMax(detector: nat -> nat, onNumber: nat, last: nat, m: nat, b: nat)
    requires 1 <= last <= MAX_CODE_POINT
    requires MIN_MAIN_SEGMENT_SIZE <= m <= MAX_MAIN_SEGMENT_SIZE
    requires MIN_BRANCH_SEGMENT_SIZE <= b <= MAX_BRANCH_SEGMENT_SIZE
    ensures RequiredMemory(detector, onNumber, last, m, b) < SIZE_MAX
  {
    var mainChunks := MainChunks(detector, onNumber, last, m);
    RequiredMemorySums(detector, onNumber, last, m, b);
    var branchChunks := BranchChunks(References(mainChunks), b);
    ReferencesResolve(mainChunks);
    TotalSizeBound(mainChunks, m);
    TotalSizeBound(branchChunks, b);
    var n1, n2 := |mainChunks|, |branchChunks|;
    FastCeilSpec(last, m);
    FastCeilSpec(n1 - 1, b);
    MulAtLeast(n1, m);
    MulAtLeast(n2, b);
    MemorySum(last, m, b, n1, n2, n1 * m, n2 * b,
              TotalSize(Deduplicate(mainChunks)), TotalSize(Deduplicate(branchChunks)));
  }

  lemma MulAtLeast(n: nat, k: nat)
    requires k >= 1
    ensures n <= n * k
  {
    MulMono(1, k, n);
  }

  /** The arithmetic behind MemoryBelowSizeMax: `n1` data chunks of at most
      `m` entries (`p1 = n1 * m` in all) and `n2` branch chunks of at most
      `b` entries (`p2 = n2 * b`). */
  lemma MemorySum(last: nat, m: nat, b: nat, n1: nat, n2: nat, p1: nat, p2: nat, s1: nat, s2: nat)
    requires last <= MAX_CODE_POINT && m <= MAX_MAIN_SEGMENT_SIZE && b <= MAX_BRANCH_SEGMENT_SIZE
    requires 1 <= n1 <= p1 < last + m && n2 <= p2 < n1 - 1 + b
    requires s1 <= p1 && s2 <= p2
    ensures s1 + 2 * (s2 + n2) < SIZE_MAX
  {
  }
}
