/**
  Pagination of rendered blocks: every block in order, with a forced page
  break after every fourth block except the last one. Stated for any blocks,
  so that the facts hold whatever the blocks contain.
 */
module Pagination {
  import opened Flowables
  import opened SeqFacts

  /** An explicit break is forced after this many products. */
  const PRODUCTS_PER_PAGE := 4

  /**
    Whether the `k`-th product (1-based) closes a group of four, counted by
    steps of four so that the solver need not reason about remainders.
   */
  function ClosesPage(k: nat): bool {
    if k < PRODUCTS_PER_PAGE then k == 0 else ClosesPage(k - PRODUCTS_PER_PAGE)
  }

  /** `ClosesPage` is the generator's test: the position is a multiple of four. */
  lemma {:induction false} ClosesPageMod(k: nat)
    ensures ClosesPage(k) <==> k % PRODUCTS_PER_PAGE == 0
  {
    if k >= PRODUCTS_PER_PAGE {
      ClosesPageMod(k - PRODUCTS_PER_PAGE);
    }
  }

  /** The break, if any, that follows the `k`-th block (1-based) of `n`. */
  function BreakAfter(k: nat, n: nat): (r: seq<Flowable>)
    ensures r == [PageBreak] || r == []
    ensures r == [PageBreak] <==> ClosesPage(k) && k < n
  {
    if ClosesPage(k) && k < n then [PageBreak] else []
  }

  /** Block `i` (0-based) of `bs` with the break its position calls for. */
  function Piece(bs: seq<seq<Flowable>>, i: nat): seq<Flowable>
    requires i < |bs|
  {
    bs[i] + BreakAfter(i + 1, |bs|)
  }

  /**
    The body after the first `n` of the rendered blocks `bs`, each followed by
    the break its position calls for.
   */
  function Paginate(bs: seq<seq<Flowable>>, n: nat): seq<Flowable>
    requires n <= |bs|
  {
    if n == 0 then [] else Paginate(bs, n - 1) + Piece(bs, n - 1)
  }

  /** The blocks laid end to end (the reference the body is compared with). */
  function Concat(bs: seq<seq<Flowable>>): seq<Flowable> {
    if bs == [] then [] else bs[0] + Concat(bs[1..])
  }

  lemma {:induction false} ConcatSnoc(bs: seq<seq<Flowable>>, b: seq<Flowable>)
    ensures Concat(bs + [b]) == Concat(bs) + b
  {
    if bs == [] {
      assert bs + [b] == [b];
      assert [b][1..] == [];
    } else {
      assert (bs + [b])[1..] == bs[1..] + [b];
      ConcatSnoc(bs[1..], b);
    }
  }

  /** No block contains a page break. */
  ghost predicate BreakFree(bs: seq<seq<Flowable>>) {
    forall i | 0 <= i < |bs| :: PageBreak !in bs[i]
  }

  /** No block is empty or starts with a page break. */
  ghost predicate StartClear(bs: seq<seq<Flowable>>) {
    forall i | 0 <= i < |bs| :: bs[i] != [] && bs[i][0] != PageBreak
  }

  /** Removing the breaks from the body of the first `n` blocks leaves those blocks. */
  lemma {:induction false} PaginateWithoutBreaks(bs: seq<seq<Flowable>>, n: nat)
    requires n <= |bs| && BreakFree(bs)
    ensures WithoutBreaks(Paginate(bs, n)) == Concat(bs[..n])
  {
    if n == 0 {
      assert bs[..0] == [];
    } else {
      var blk := bs[n - 1];
      PaginateWithoutBreaks(bs, n - 1);
      AppendAssociative(Paginate(bs, n - 1), blk, BreakAfter(n, |bs|));
      BlockWithoutBreaks(Paginate(bs, n - 1), blk, BreakAfter(n, |bs|));
      TakeSnoc(bs, n);
      ConcatSnoc(bs[..n - 1], blk);
    }
  }

  /** A break-free block and its optional break add just the block once breaks are removed. */
  lemma BlockWithoutBreaks(front: seq<Flowable>, blk: seq<Flowable>, brk: seq<Flowable>)
    requires PageBreak !in blk && (brk == [] || brk == [PageBreak])
    ensures WithoutBreaks(front + blk + brk) == WithoutBreaks(front) + blk
  {
    WithoutBreaksAppend(front + blk, brk);
    WithoutBreaksAppend(front, blk);
    WithoutBreaksNoBreaks(blk);
    assert WithoutBreaks(brk) == [];
  }

  /** Breaks in the body so far: one per completed group of four, never after the last block. */
  lemma {:induction false} PaginateBreakCount(bs: seq<seq<Flowable>>, n: nat)
    requires 0 < n <= |bs| && BreakFree(bs)
    ensures CountBreaks(Paginate(bs, n)) == if n < |bs| then n / PRODUCTS_PER_PAGE else (n - 1) / PRODUCTS_PER_PAGE
  {
    CountBreaksAppend(Paginate(bs, n - 1), Piece(bs, n - 1));
    CountBreaksAppend(bs[n - 1], BreakAfter(n, |bs|));
    ClosesPageMod(n);
    if n > 1 {
      PaginateBreakCount(bs, n - 1);
    }
  }

  /** The body of the first `m` blocks is a prefix of the body of the first `n`. */
  lemma {:induction false} PaginatePrefix(bs: seq<seq<Flowable>>, m: nat, n: nat)
    requires m <= n <= |bs|
    ensures |Paginate(bs, m)| <= |Paginate(bs, n)|
    ensures Paginate(bs, n)[..|Paginate(bs, m)|] == Paginate(bs, m)
  {
    if m < n {
      PaginatePrefix(bs, m, n - 1);
      var front := Paginate(bs, n - 1);
      assert Paginate(bs, n)[..|front|] == front;
    }
  }

  /** Element `k` of the body of the first `m` blocks is element `k` of any longer body. */
  lemma {:induction false} PaginateAgrees(bs: seq<seq<Flowable>>, m: nat, n: nat, k: nat)
    requires m <= n <= |bs| && k < |Paginate(bs, m)|
    ensures k < |Paginate(bs, n)| && Paginate(bs, n)[k] == Paginate(bs, m)[k]
  {
    if m < n {
      PaginateAgrees(bs, m, n - 1, k);
      IndexInFront(Paginate(bs, n - 1), Piece(bs, n - 1), k);
    }
  }

  /** Block `j` (0-based) sits in the whole body right after the blocks before it. */
  lemma PaginateBlockAt(bs: seq<seq<Flowable>>, j: nat)
    requires j < |bs|
    ensures |Paginate(bs, j)| + |bs[j]| <= |Paginate(bs, |bs|)|
    ensures Paginate(bs, |bs|)[|Paginate(bs, j)|..|Paginate(bs, j)| + |bs[j]|] == bs[j]
  {
    var before := Paginate(bs, j);
    var piece := Piece(bs, j);
    PaginatePrefix(bs, j + 1, |bs|);
    SliceAfterPrefix(before, piece, 0, |bs[j]|);
    FrontOfAppend(bs[j], BreakAfter(j + 1, |bs|));
    assert piece[0..|bs[j]|] == bs[j];
    SliceWithinPrefix(Paginate(bs, |bs|), Paginate(bs, j + 1), |before|, |before| + |bs[j]|);
  }

  /** Where a break is due after block `j`, it is the element right after that block. */
  lemma PaginateBreakDue(bs: seq<seq<Flowable>>, j: nat)
    requires j + 1 < |bs| && ClosesPage(j + 1)
    ensures var e := |Paginate(bs, j)| + |bs[j]|;
      e < |Paginate(bs, |bs|)| && Paginate(bs, |bs|)[e] == PageBreak
  {
    IndexInBack(bs[j], [PageBreak], 0);
    IndexInBack(Paginate(bs, j), Piece(bs, j), |bs[j]|);
    PaginateAgrees(bs, j + 1, |bs|, |Paginate(bs, j)| + |bs[j]|);
  }

  /** Where no break is due after block `j`, the next block starts right after it. */
  lemma PaginateNoBreakDue(bs: seq<seq<Flowable>>, j: nat)
    requires j + 1 < |bs| && !ClosesPage(j + 1) && bs[j + 1] != []
    ensures var e := |Paginate(bs, j)| + |bs[j]|;
      e < |Paginate(bs, |bs|)| && Paginate(bs, |bs|)[e] == bs[j + 1][0]
  {
    var next := Paginate(bs, j + 1);
    IndexInFront(bs[j + 1], BreakAfter(j + 2, |bs|), 0);
    IndexInBack(next, Piece(bs, j + 1), 0);
    assert |next| == |Paginate(bs, j)| + |bs[j]|;
    PaginateAgrees(bs, j + 2, |bs|, |next|);
  }

  /**
    In the body of all blocks, a page break follows block `j` (0-based)
    exactly when j + 1 closes a group of four and block j is not the last
    one, provided no block is empty or starts with a break.
   */
  lemma PaginateBreakAfter(bs: seq<seq<Flowable>>, j: nat)
    requires j < |bs| && StartClear(bs)
    ensures var e := |Paginate(bs, j)| + |bs[j]|;
      e <= |Paginate(bs, |bs|)| &&
      ((e < |Paginate(bs, |bs|)| && Paginate(bs, |bs|)[e] == PageBreak)
       <==> ClosesPage(j + 1) && j + 1 < |bs|)
  {
    PaginateBlockAt(bs, j);
    if j + 1 < |bs| {
      if ClosesPage(j + 1) {
        PaginateBreakDue(bs, j);
      } else {
        assert bs[j + 1] != [] && bs[j + 1][0] != PageBreak;
        PaginateNoBreakDue(bs, j);
      }
    } else {
      assert |Paginate(bs, |bs|)| == |Paginate(bs, j)| + |bs[j]|;
    }
  }
}
