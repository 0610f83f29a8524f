/**
  The whole catalog story: a title and a gap, then either a "no products"
  notice or every product's block in input order, with a forced page break
  after every fourth product except the last one.

  The assembly is stated over the rendered blocks (`Assemble`), so that its
  properties are proved once for any blocks that hold no page break; `Story`
  applies it to the products' blocks, and `BuildStory` grows the same list in
  one pass, as the generator does.
 */
module CatalogStory {
  import opened Records
  import opened Flowables
  import opened ProductRender
  import opened Pagination
  import opened SeqFacts

  const TITLE := Para("Catálogo de Productos", Heading1)
  const TITLE_GAP := Spacer(30)
  const EMPTY_NOTICE := Para("No hay productos para mostrar.", Normal)

  /** The title, its gap, then the notice when there are no blocks or else the paginated blocks. */
  function Assemble(bs: seq<seq<Flowable>>): (r: seq<Flowable>)
    ensures |r| >= 2 && r[..2] == [TITLE, TITLE_GAP]
    ensures bs == [] ==> r == [TITLE, TITLE_GAP, EMPTY_NOTICE]
  {
    [TITLE, TITLE_GAP] + (if bs == [] then [EMPTY_NOTICE] else Paginate(bs, |bs|))
  }

  /** Every product's block, in input order. */
  function RenderAll(ps: seq<Product>): (bs: seq<seq<Flowable>>)
    ensures |bs| == |ps|
    ensures forall i | 0 <= i < |ps| :: bs[i] == Block(ps[i])
    ensures BreakFree(bs) && StartClear(bs)
  {
    seq(|ps|, i requires 0 <= i < |ps| => Block(ps[i]))
  }

  /** The story handed to the layout engine. */
  function Story(ps: seq<Product>): (r: seq<Flowable>)
    ensures |r| >= 2 && r[..2] == [TITLE, TITLE_GAP]
    ensures ps == [] ==> r == [TITLE, TITLE_GAP, EMPTY_NOTICE]
  {
    Assemble(RenderAll(ps))
  }

  /** Builds the story in one pass over the products; the result is `Story(ps)`. */
  method BuildStory(ps: seq<Product>) returns (story: seq<Flowable>)
    ensures story == Story(ps)
  {
    story := [];
    story := story + [TITLE];
    story := story + [TITLE_GAP];
    assert story == [TITLE, TITLE_GAP];

    if ps == [] {
      story := story + [EMPTY_NOTICE];
    } else {
      ghost var bs := RenderAll(ps);
      AppendEmpty([TITLE, TITLE_GAP]);
      for i := 0 to |ps|
        invariant story == [TITLE, TITLE_GAP] + Paginate(bs, i)
      {
        ghost var done := story;
        ghost var brk := BreakAfter(i + 1, |bs|);
        ClosesPageMod(i + 1);
        var elems := RenderProduct(ps[i]);
        story := story + elems;
        if (i + 1) % PRODUCTS_PER_PAGE == 0 && i + 1 < |ps| {
          story := story + [PageBreak];
          assert story == done + elems + brk;
        } else {
          AppendEmpty(story);
          assert story == done + elems + brk;
        }
        StoryStep(bs, i, done, elems, story);
      }
      assert Story(ps) == [TITLE, TITLE_GAP] + Paginate(bs, |bs|);
    }
  }

  /** One step of `BuildStory`: appending block `i` and its break extends the body by one block. */
  lemma StoryStep(bs: seq<seq<Flowable>>, i: nat, done: seq<Flowable>, elems: seq<Flowable>, story: seq<Flowable>)
    requires i < |bs| && done == [TITLE, TITLE_GAP] + Paginate(bs, i) && elems == bs[i]
    requires story == done + elems + BreakAfter(i + 1, |bs|)
    ensures story == [TITLE, TITLE_GAP] + Paginate(bs, i + 1)
  {
    AppendAssociative(done, elems, BreakAfter(i + 1, |bs|));
    AppendAssociative([TITLE, TITLE_GAP], Paginate(bs, i), Piece(bs, i));
  }

  // ---------------------------------------------------------------------------
  // Properties of the assembly, for any blocks

  /** With break-free blocks, N > 0 blocks get (N - 1) div 4 breaks, and no blocks none. */
  lemma AssembleBreakCount(bs: seq<seq<Flowable>>)
    requires BreakFree(bs)
    ensures CountBreaks(Assemble(bs)) == if bs == [] then 0 else (|bs| - 1) / PRODUCTS_PER_PAGE
  {
    var tail := if bs == [] then [EMPTY_NOTICE] else Paginate(bs, |bs|);
    CountBreaksAppend([TITLE, TITLE_GAP], tail);
    if bs != [] {
      PaginateBreakCount(bs, |bs|);
    }
  }

  /** The assembly ends with the notice, or with the last element of the last block. */
  lemma AssembleEnd(bs: seq<seq<Flowable>>)
    requires StartClear(bs)
    ensures var r := Assemble(bs);
      r[|r| - 1] == if bs == [] then EMPTY_NOTICE else bs[|bs| - 1][|bs[|bs| - 1]| - 1]
  {
    if bs != [] {
      var n := |bs|;
      var last := bs[n - 1];
      assert last != [];
      IndexInFront(last, BreakAfter(n, n), |last| - 1);
      LastOfAppend(Paginate(bs, n - 1), Piece(bs, n - 1));
      LastOfAppend([TITLE, TITLE_GAP], Paginate(bs, n));
    }
  }

  /** Without the title, its gap and the breaks, the assembly of some blocks is those blocks. */
  lemma AssembleWithoutBreaks(bs: seq<seq<Flowable>>)
    requires bs != [] && BreakFree(bs)
    ensures WithoutBreaks(Assemble(bs)[2..]) == Concat(bs)
  {
    assert Assemble(bs)[2..] == Paginate(bs, |bs|);
    PaginateWithoutBreaks(bs, |bs|);
    assert bs[..|bs|] == bs;
  }

  /**
    In the assembly, block `j` follows the title, its gap and the blocks
    before it, and a page break follows it exactly when position j + 1 closes
    a group of four (`ClosesPageMod`) and block j is not the last.
   */
  lemma AssembleBreakPlacement(bs: seq<seq<Flowable>>, j: nat)
    requires j < |bs| && StartClear(bs)
    ensures var start := 2 + |Paginate(bs, j)|;
      var end := start + |bs[j]|;
      var r := Assemble(bs);
      && end <= |r|
      && r[start..end] == bs[j]
      && ((end < |r| && r[end] == PageBreak) <==> ClosesPage(j + 1) && j + 1 < |bs|)
  {
    var body := Paginate(bs, |bs|);
    var r := Assemble(bs);
    assert r == [TITLE, TITLE_GAP] + body;
    var start := 2 + |Paginate(bs, j)|;
    var end := start + |bs[j]|;
    PaginateBlockAt(bs, j);
    PaginateBreakAfter(bs, j);
    SliceAfterPrefix([TITLE, TITLE_GAP], body, start - 2, end - 2);
    if end < |r| {
      assert r[end] == body[end - 2];
    }
  }

  // ---------------------------------------------------------------------------
  // The same properties for the catalog of a product list

  /** A story of N > 0 products holds (N - 1) div 4 explicit page breaks; an empty one none. */
  lemma StoryBreakCount(ps: seq<Product>)
    ensures CountBreaks(Story(ps)) == if ps == [] then 0 else (|ps| - 1) / PRODUCTS_PER_PAGE
  {
    AssembleBreakCount(RenderAll(ps));
  }

  /** The story never ends with a page break: it ends with the notice or the last product's gap. */
  lemma StoryEnd(ps: seq<Product>)
    ensures Story(ps)[|Story(ps)| - 1] == if ps == [] then EMPTY_NOTICE else Spacer(PRODUCT_GAP)
  {
    var bs := RenderAll(ps);
    AssembleEnd(bs);
  }

  /**
    Order is preserved: without the title, its gap and the page breaks, the
    story of a non-empty list is its products' blocks in input order.
   */
  lemma OrderPreserved(ps: seq<Product>)
    requires ps != []
    ensures WithoutBreaks(Story(ps)[2..]) == Concat(RenderAll(ps))
  {
    AssembleWithoutBreaks(RenderAll(ps));
  }

  /**
    In the story, product `j`'s block (`RenderAll(ps)[j]`, which is
    `Block(ps[j])`) follows the title, its gap and the blocks before it; a page
    break follows it exactly when its 1-based position closes a group of four
    (a multiple of four, by `ClosesPageMod`) and it is not the last product.
   */
  lemma BreakPlacement(ps: seq<Product>, j: nat)
    requires j < |ps|
    ensures var start := 2 + |Paginate(RenderAll(ps), j)|;
      var end := start + |RenderAll(ps)[j]|;
      && end <= |Story(ps)|
      && Story(ps)[start..end] == RenderAll(ps)[j]
      && ((end < |Story(ps)| && Story(ps)[end] == PageBreak) <==> ClosesPage(j + 1) && j + 1 < |ps|)
  {
    AssembleBreakPlacement(RenderAll(ps), j);
  }
}
