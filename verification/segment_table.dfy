/** The compression step shared by both levels of the bidi-type lookup table.

    A collect pass cuts its input into chunks, keeps one segment per distinct
    chunk (in order of first occurrence), places every new segment at the
    running total of the sizes kept so far, and records for each chunk which
    segment holds it. The functions below say what such a pass produces; the
    lemmas say why the result can be looked up.
 */
module SegmentTable {

  /** A kept segment: `dataset` is its contents, `index` its offset in the
      array that lays all kept segments end to end. It stands for both
      MainDataSegment (contents are bidi class numbers) and BranchDataSegment
      (contents are positions of data segments). */
  datatype Segment = Segment(index: nat, dataset: seq<nat>)

  /** Sum of the sizes of the segments. */
  function TotalSize(segs: seq<Segment>): nat
  {
    if segs == [] then 0 else TotalSize(segs[..|segs| - 1]) + |segs[|segs| - 1].dataset|
  }

  /** The segments' contents laid end to end: the array that is emitted. */
  function Flatten(segs: seq<Segment>): seq<nat>
  {
    if segs == [] then [] else Flatten(segs[..|segs| - 1]) + segs[|segs| - 1].dataset
  }

  /** Linear search that keeps the last match: the position of the last
      segment whose contents equal `c`, or |segs| when there is none. */
  function Find(segs: seq<Segment>, c: seq<nat>): (k: nat)
    ensures k <= |segs|
    ensures k < |segs| ==> segs[k].dataset == c && forall j :: k < j < |segs| ==> segs[j].dataset != c
    ensures k == |segs| ==> forall j :: 0 <= j < |segs| ==> segs[j].dataset != c
  {
    if segs == [] then 0
    else if segs[|segs| - 1].dataset == c then |segs| - 1
    else
      var k := Find(segs[..|segs| - 1], c);
      if k < |segs| - 1 then k else |segs|
  }

  /** The segments a collect pass keeps for `chunks`: a chunk equal to a kept
      segment reuses it, any other chunk is appended at the running size. */
  function Deduplicate(chunks: seq<seq<nat>>): seq<Segment>
  {
    if chunks == [] then []
    else
      var segs := Deduplicate(chunks[..|chunks| - 1]);
      var c := chunks[|chunks| - 1];
      if Find(segs, c) < |segs| then segs else segs + [Segment(TotalSize(segs), c)]
  }

  /** For each chunk, in chunk order, the position of the kept segment that holds it. */
  function References(chunks: seq<seq<nat>>): seq<nat>
  {
    if chunks == [] then []
    else References(chunks[..|chunks| - 1]) + [Find(Deduplicate(chunks), chunks[|chunks| - 1])]
  }

  /** The offsets of the kept segments that `refs` name, in order: what an
      index array of the lookup holds. */
  function Offsets(segs: seq<Segment>, refs: seq<nat>): (r: seq<nat>)
    requires forall i :: 0 <= i < |refs| ==> refs[i] < |segs|
    ensures |r| == |refs|
    ensures forall i :: 0 <= i < |r| ==> r[i] == segs[refs[i]].index
  {
    seq(|refs|, i requires 0 <= i < |refs| => segs[refs[i]].index)
  }

  /** One step of a collect pass: chunk `c` either reuses the kept segment
      equal to it or is appended at the running size, and its reference
      names that segment. */
  lemma DeduplicateAppend(chunks: seq<seq<nat>>, c: seq<nat>)
    ensures var segs := Deduplicate(chunks);
            var k := Find(segs, c);
            Deduplicate(chunks + [c]) == (if k < |segs| then segs else segs + [Segment(TotalSize(segs), c)]) &&
            References(chunks + [c]) == References(chunks) + [k] &&
            TotalSize(Deduplicate(chunks + [c])) == TotalSize(segs) + (if k < |segs| then 0 else |c|)
  {
    var chunks' := chunks + [c];
    assert chunks'[..|chunks|] == chunks;
    var segs := Deduplicate(chunks);
    if Find(segs, c) == |segs| {
      var segs' := segs + [Segment(TotalSize(segs), c)];
      assert segs'[..|segs|] == segs;
      assert Find(segs', c) == |segs|;
    }
  }

  /** One iteration of a collect pass over `chunks`: with the segments and
      references of the first `i` chunks in hand, chunk `i` either reuses the
      last kept segment equal to it or is appended at the running size. */
  lemma CollectStep(chunks: seq<seq<nat>>, i: nat, segs: seq<Segment>, refs: seq<nat>)
    requires i < |chunks|
    requires segs == Deduplicate(chunks[..i]) && refs == References(chunks[..i])
    ensures var k := Find(segs, chunks[i]);
            Deduplicate(chunks[..i + 1]) ==
              (if k < |segs| then segs else segs + [Segment(TotalSize(segs), chunks[i])]) &&
            References(chunks[..i + 1]) == refs + [k] &&
            TotalSize(Deduplicate(chunks[..i + 1])) == TotalSize(segs) + (if k < |segs| then 0 else |chunks[i]|)
    ensures |segs| <= i
  {
    TakeSucc(chunks, i);
    DeduplicateAppend(chunks[..i], chunks[i]);
    DeduplicateShape(chunks[..i]);
  }

  lemma TakeSucc(chunks: seq<seq<nat>>, i: nat)
    requires i < |chunks|
    ensures chunks[..i + 1] == chunks[..i] + [chunks[i]]
  {
  }

  /** A collect pass that has gone through all of `chunks` holds distinct,
      contiguous segments and one resolving reference per chunk. */
  lemma CollectDone(chunks: seq<seq<nat>>, i: nat, segs: seq<Segment>, refs: seq<nat>)
    requires i == |chunks|
    requires segs == Deduplicate(chunks[..i]) && refs == References(chunks[..i])
    ensures segs == Deduplicate(chunks) && refs == References(chunks)
    ensures Distinct(segs) && Contiguous(segs) && Resolves(chunks, segs, refs)
  {
    assert chunks[..i] == chunks;
    ReferencesResolve(chunks);
    DeduplicateShape(chunks);
  }

  /** No two kept segments have the same contents. */
  ghost predicate Distinct(segs: seq<Segment>)
  {
    forall a, b :: 0 <= a < b < |segs| ==> segs[a].dataset != segs[b].dataset
  }

  /** Every segment starts where the segments before it end. */
  ghost predicate Contiguous(segs: seq<Segment>)
  {
    forall k :: 0 <= k < |segs| ==> segs[k].index == TotalSize(segs[..k])
  }

  /** Reference `i` names a kept segment whose contents are chunk `i`. */
  ghost predicate Resolves(chunks: seq<seq<nat>>, segs: seq<Segment>, refs: seq<nat>)
  {
    |refs| == |chunks| &&
    forall i :: 0 <= i < |chunks| ==> refs[i] < |segs| && segs[refs[i]].dataset == chunks[i]
  }

  /** Every number stored in the segments is below `n`. */
  ghost predicate EntriesBelow(segs: seq<Segment>, n: nat)
  {
    forall k, j :: 0 <= k < |segs| && 0 <= j < |segs[k].dataset| ==> segs[k].dataset[j] < n
  }

  lemma {:induction false} FlattenLength(segs: seq<Segment>)
    ensures |Flatten(segs)| == TotalSize(segs)
  {
    if segs != [] {
      FlattenLength(segs[..|segs| - 1]);
    }
  }

  /** Offsets are what make the flat array readable: element `j` of segment
      `k` sits at `segs[k].index + j`. */
  lemma {:induction false} FlattenAt(segs: seq<Segment>, k: nat, j: nat)
    requires Contiguous(segs)
    requires k < |segs| && j < |segs[k].dataset|
    ensures segs[k].index + j < |Flatten(segs)|
    ensures Flatten(segs)[segs[k].index + j] == segs[k].dataset[j]
  {
    var init := segs[..|segs| - 1];
    FlattenLength(init);
    if k == |segs| - 1 {
      assert segs[..k] == init;
    } else {
      assert Contiguous(init) by {
        forall k' | 0 <= k' < |init|
          ensures init[k'].index == TotalSize(init[..k'])
        {
          assert init[..k'] == segs[..k'];
        }
      }
      FlattenAt(init, k, j);
    }
  }

  /** Every entry of the flat array is an entry of some segment. */
  lemma {:induction false} FlattenBelow(segs: seq<Segment>, n: nat)
    requires EntriesBelow(segs, n)
    ensures forall p :: 0 <= p < |Flatten(segs)| ==> Flatten(segs)[p] < n
  {
    if segs != [] {
      var init := segs[..|segs| - 1];
      FlattenBelow(init, n);
      var last := segs[|segs| - 1].dataset;
      forall p | 0 <= p < |Flatten(segs)|
        ensures Flatten(segs)[p] < n
      {
        if p >= |Flatten(init)| {
          assert Flatten(segs)[p] == last[p - |Flatten(init)|];
        }
      }
    }
  }

  /** The segments kept for `chunks` are pairwise distinct, contiguous, at
      most one per chunk, and each is one of the chunks. */
  lemma {:induction false} DeduplicateShape(chunks: seq<seq<nat>>)
    ensures Distinct(Deduplicate(chunks)) && Contiguous(Deduplicate(chunks))
    ensures |Deduplicate(chunks)| <= |chunks|
    ensures forall k :: 0 <= k < |Deduplicate(chunks)| ==> Deduplicate(chunks)[k].dataset in chunks
  {
    if chunks != [] {
      var init := chunks[..|chunks| - 1];
      var c := chunks[|chunks| - 1];
      DeduplicateShape(init);
      var segs := Deduplicate(init);
      if Find(segs, c) == |segs| {
        var segs' := segs + [Segment(TotalSize(segs), c)];
        assert segs'[..|segs|] == segs;
        forall k | 0 <= k < |segs'|
          ensures segs'[k].index == TotalSize(segs'[..k])
        {
          if k < |segs| {
            assert segs'[..k] == segs[..k];
          }
        }
        forall k | 0 <= k < |segs'|
          ensures segs'[k].dataset in chunks
        {
          if k < |segs| {
            assert segs[k].dataset in init;
          }
        }
      } else {
        forall k | 0 <= k < |segs|
          ensures segs[k].dataset in chunks
        {
          assert segs[k].dataset in init;
        }
      }
    }
  }

  /** One reference per chunk, in chunk order, each naming the kept segment
      whose contents are that chunk. */
  lemma {:induction false} ReferencesResolve(chunks: seq<seq<nat>>)
    ensures Resolves(chunks, Deduplicate(chunks), References(chunks))
  {
    if chunks != [] {
      var init := chunks[..|chunks| - 1];
      ReferencesResolve(init);
      var segs := Deduplicate(chunks);
      var last := Find(segs, chunks[|chunks| - 1]);
      assert last < |segs|;
      forall i | 0 <= i < |init|
        ensures References(chunks)[i] < |segs| && segs[References(chunks)[i]].dataset == chunks[i]
      {
        assert References(chunks)[i] == References(init)[i];
      }
    }
  }

  /** A kept segment is never longer than the longest chunk, so the kept
      total is at most the number of chunks times that bound. */
  lemma {:induction false} TotalSizeBound(chunks: seq<seq<nat>>, bound: nat)
    requires forall i :: 0 <= i < |chunks| ==> |chunks[i]| <= bound
    ensures TotalSize(Deduplicate(chunks)) <= |chunks| * bound
  {
    if chunks != [] {
      var n := |chunks| - 1;
      var init := chunks[..n];
      assert forall i :: 0 <= i < |init| ==> init[i] == chunks[i];
      TotalSizeBound(init, bound);
      var segs := Deduplicate(init);
      var c := chunks[n];
      assert |c| <= bound;
      assert TotalSize(Deduplicate(chunks)) <= TotalSize(segs) + |c| by {
        if Find(segs, c) == |segs| {
          var segs' := segs + [Segment(TotalSize(segs), c)];
          assert segs'[..|segs'| - 1] == segs;
        }
      }
      MulSucc(n, bound);
    }
  }

  lemma MulSucc(n: nat, m: nat)
    ensures (n + 1) * m == n * m + m
  {
  }

  /** An index array leads into the laid-out segments: at offset `i` of
      `Offsets(segs, refs)`, plus `j`, the laid-out array holds element `j`
      of the segment reference `i` names. */
  lemma OffsetsLead(segs: seq<Segment>, refs: seq<nat>, i: nat, j: nat)
    requires Contiguous(segs)
    requires forall k :: 0 <= k < |refs| ==> refs[k] < |segs|
    requires i < |refs| && j < |segs[refs[i]].dataset|
    ensures Offsets(segs, refs)[i] + j < |Flatten(segs)|
    ensures Flatten(segs)[Offsets(segs, refs)[i] + j] == segs[refs[i]].dataset[j]
  {
    FlattenAt(segs, refs[i], j);
  }

  /** The whole two-step read: follow reference `i`, then read element `j`
      of the flat array at that segment's offset, and get chunk `i`'s
      element `j` back. */
  lemma ReadBack(chunks: seq<seq<nat>>, i: nat, j: nat)
    requires i < |chunks| && j < |chunks[i]|
    ensures |References(chunks)| == |chunks|
    ensures References(chunks)[i] < |Deduplicate(chunks)|
    ensures Deduplicate(chunks)[References(chunks)[i]].index + j < |Flatten(Deduplicate(chunks))|
    ensures Flatten(Deduplicate(chunks))[Deduplicate(chunks)[References(chunks)[i]].index + j] == chunks[i][j]
  {
    var segs, refs := Deduplicate(chunks), References(chunks);
    ReferencesResolve(chunks);
    assert refs[i] < |segs| && segs[refs[i]].dataset == chunks[i];
    DeduplicateShape(chunks);
    FlattenAt(segs, refs[i], j);
  }

  /** When every chunk holds only numbers below `n`, so does the flat array. */
  lemma DeduplicateBelow(chunks: seq<seq<nat>>, n: nat)
    requires forall i, j :: 0 <= i < |chunks| && 0 <= j < |chunks[i]| ==> chunks[i][j] < n
    ensures EntriesBelow(Deduplicate(chunks), n)
    ensures forall p :: 0 <= p < |Flatten(Deduplicate(chunks))| ==> Flatten(Deduplicate(chunks))[p] < n
  {
    var segs := Deduplicate(chunks);
    DeduplicateShape(chunks);
    forall k, j | 0 <= k < |segs| && 0 <= j < |segs[k].dataset|
      ensures segs[k].dataset[j] < n
    {
      var i :| 0 <= i < |chunks| && chunks[i] == segs[k].dataset;
    }
    FlattenBelow(segs, n);
  }
}
