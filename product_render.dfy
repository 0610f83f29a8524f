/**
  The elements of one product's entry in the catalog: its name, an image
  placeholder, brand, category path, optional code, (truncated) description,
  price and stock line, an optional "featured" banner, and the gaps between
  them. `Block` is the specification; `RenderProduct` builds the same list one
  append at a time, as the catalog generator does.
 */
module ProductRender {
  import opened Wrappers
  import opened Records
  import opened Flowables
  import opened Numbers
  import opened SeqFacts

  const NAME_FALLBACK := "Nombre no disponible"
  const DESCRIPTION_FALLBACK := "Descripción no disponible."
  const NOT_AVAILABLE := "N/A"
  const IMAGE_PLACEHOLDER := "[Imagen omitida temporalmente]"
  const BRAND_LABEL := "<b>Marca:</b> "
  const CATEGORY_LABEL := "<b>Categoría:</b> "
  const SUBCATEGORY_SEPARATOR := " > "
  const CODE_LABEL := "<b>Código:</b> "
  const PRICE_LABEL := "<b>Precio:</b> "
  const CURRENCY := "$"
  const STOCK_SEPARATOR := "  |  <b>Stock:</b> "
  const FEATURED_BANNER := "<i>-- Producto Destacado --</i>"

  /** Descriptions longer than this are cut to `KEPT_PREFIX` characters plus `ELLIPSIS`. */
  const MAX_DESCRIPTION := 150
  const KEPT_PREFIX := 147
  const ELLIPSIS := "..."

  /** Gaps, in hundredths of an inch. */
  const SMALL_GAP: nat := 5
  const GAP: nat := 10
  const PRODUCT_GAP: nat := 30

  /** Python truthiness of an optional text column: present and non-empty. */
  predicate IsSet(s: Option<string>) {
    s.Some? && s.value != ""
  }

  /** The product's name, or the fallback when the name is missing or empty. */
  function NameText(name: Option<string>): (r: string)
    ensures r != ""
    ensures IsSet(name) ==> r == name.value
    ensures !IsSet(name) ==> r == NAME_FALLBACK
  {
    if IsSet(name) then name.value else NAME_FALLBACK
  }

  /** Shortens a text longer than `MAX_DESCRIPTION` to a prefix and an ellipsis. */
  function Truncate(s: string): (r: string)
    ensures |r| <= MAX_DESCRIPTION
    ensures |s| <= MAX_DESCRIPTION ==> r == s
    ensures |s| > MAX_DESCRIPTION ==>
      |r| == MAX_DESCRIPTION && r[..KEPT_PREFIX] == s[..KEPT_PREFIX] && r[KEPT_PREFIX..] == ELLIPSIS
  {
    if |s| > MAX_DESCRIPTION then s[..KEPT_PREFIX] + ELLIPSIS else s
  }

  /** Truncating a second time changes nothing. */
  lemma TruncateIdempotent(s: string)
    ensures Truncate(Truncate(s)) == Truncate(s)
  {
  }

  /** The description as shown: the fallback when missing or empty, then truncated. */
  function DescriptionText(description: Option<string>): (r: string)
    ensures 0 < |r| <= MAX_DESCRIPTION
    ensures Truncate(r) == r
    ensures !IsSet(description) ==> r == DESCRIPTION_FALLBACK
    ensures IsSet(description) && |description.value| <= MAX_DESCRIPTION ==> r == description.value
    ensures IsSet(description) && |description.value| > MAX_DESCRIPTION ==>
      r == description.value[..KEPT_PREFIX] + ELLIPSIS
  {
    Truncate(if IsSet(description) then description.value else DESCRIPTION_FALLBACK)
  }

  /** The brand line: the brand's name, or N/A when the product has no brand. */
  function BrandText(brand: Option<Brand>): (r: string)
    ensures brand.Some? ==> r == BRAND_LABEL + brand.value.name
    ensures brand.None? ==> r == BRAND_LABEL + NOT_AVAILABLE
  {
    BRAND_LABEL + (if brand.Some? then brand.value.name else NOT_AVAILABLE)
  }

  /**
    The category line: the category's name (N/A without one), followed by
    " > " and the subcategory's name exactly when there is a subcategory.
   */
  function CategoryText(category: Option<Category>, subcategory: Option<Subcategory>): (r: string)
    ensures var shown := if category.Some? then category.value.name else NOT_AVAILABLE;
      && |r| == |CATEGORY_LABEL| + |shown| + (if subcategory.Some? then |SUBCATEGORY_SEPARATOR| + |subcategory.value.name| else 0)
      && r[..|CATEGORY_LABEL|] == CATEGORY_LABEL
      && r[|CATEGORY_LABEL|..|CATEGORY_LABEL| + |shown|] == shown
    ensures subcategory.Some? ==>
      r[|r| - |subcategory.value.name| - |SUBCATEGORY_SEPARATOR|..] == SUBCATEGORY_SEPARATOR + subcategory.value.name
  {
    var shown := if category.Some? then category.value.name else NOT_AVAILABLE;
    CATEGORY_LABEL + shown + (if subcategory.Some? then SUBCATEGORY_SEPARATOR + subcategory.value.name else "")
  }

  /** The price as shown: "$" and the amount with two decimals, or N/A. */
  function PriceShown(price: Option<int>): string {
    if price.Some? then CURRENCY + FormatCents(price.value) else NOT_AVAILABLE
  }

  /** The stock part of the line: present only when the stock is known. */
  function StockShown(stock: Option<int>): string {
    if stock.Some? then STOCK_SEPARATOR + IntToString(stock.value) else ""
  }

  /** The price and stock line: "$" and two decimals (or N/A), and the stock when known. */
  function PriceStockText(price: Option<int>, stock: Option<int>): string {
    PRICE_LABEL + PriceShown(price) + StockShown(stock)
  }

  /** Index of the first `c` in `s`, or `|s|` when there is none. */
  function FirstIndex(s: string, c: char): (k: nat)
    ensures k <= |s|
    ensures k < |s| ==> s[k] == c
    ensures forall i | 0 <= i < k :: s[i] != c
  {
    if s == [] then 0 else if s[0] == c then 0 else 1 + FirstIndex(s[1..], c)
  }

  /** Reads the price at the start of `rest`, returning it with what follows it. */
  function ParsePrice(rest: string): Option<(Option<int>, string)> {
    if NOT_AVAILABLE <= rest then Some((None, rest[|NOT_AVAILABLE|..]))
    else if CURRENCY <= rest then
      var point := FirstIndex(rest, '.');
      if point + 3 <= |rest| then
        match ParseCents(rest[|CURRENCY|..point + 3])
        case Some(cents) => Some((Some(cents), rest[point + 3..]))
        case None => None
      else None
    else None
  }

  /** Reads the stock part of the line, which may be empty. */
  function ParseStock(tail: string): Option<Option<int>> {
    if tail == "" then Some(None)
    else if STOCK_SEPARATOR <= tail then
      match ParseInt(tail[|STOCK_SEPARATOR|..])
      case Some(n) => Some(Some(n))
      case None => None
    else None
  }

  /**
    Reads a price and stock line back into the price (in cents) and the stock;
    `None` when the text is not of that shape.
   */
  function ParsePriceStock(t: string): Option<(Option<int>, Option<int>)> {
    if !(PRICE_LABEL <= t) then None
    else
      match ParsePrice(t[|PRICE_LABEL|..])
      case None => None
      case Some((price, tail)) =>
        match ParseStock(tail)
        case None => None
        case Some(stock) => Some((price, stock))
  }

  /** In a shown amount followed by anything, the first '.' is the decimal point. */
  lemma ShownPricePoint(cents: int, tail: string)
    ensures var f := FormatCents(cents);
      FirstIndex(CURRENCY + f + tail, '.') == |f| - 2
  {
    var f := FormatCents(cents);
    var rest := CURRENCY + f + tail;
    assert rest[|f| - 2] == '.';
    forall i | 0 <= i < |f| - 2 ensures rest[i] != '.' {
      if i > 0 {
        assert rest[i] == f[..|f| - 3][i - 1];
      }
    }
  }

  /** A shown amount reads back as that amount, leaving what follows it. */
  lemma ParseKnownPrice(cents: int, tail: string)
    ensures ParsePrice(CURRENCY + FormatCents(cents) + tail) == Some((Some(cents), tail))
  {
    var f := FormatCents(cents);
    var rest := CURRENCY + f + tail;
    assert rest[0] == '$';
    assert !(NOT_AVAILABLE <= rest);
    ShownPricePoint(cents, tail);
    assert rest[|CURRENCY|..|f| + 1] == f;
    assert rest[|f| + 1..] == tail;
    CentsRoundTrip(cents);
  }

  lemma ParsePriceRoundTrip(price: Option<int>, tail: string)
    ensures ParsePrice(PriceShown(price) + tail) == Some((price, tail))
  {
    if price.Some? {
      ParseKnownPrice(price.value, tail);
    } else {
      assert (NOT_AVAILABLE + tail)[|NOT_AVAILABLE|..] == tail;
    }
  }

  lemma {:induction false} ParseStockRoundTrip(stock: Option<int>)
    ensures ParseStock(StockShown(stock)) == Some(stock)
  {
    if stock.Some? {
      var tail := StockShown(stock);
      assert tail[|STOCK_SEPARATOR|..] == IntToString(stock.value);
      IntToStringRoundTrip(stock.value);
    }
  }

  /**
    The price and stock line determines both values: in particular the stock
    part is there exactly when the stock is known, whether or not the price is.
   */
  lemma {:induction false} PriceStockRoundTrip(price: Option<int>, stock: Option<int>)
    ensures ParsePriceStock(PriceStockText(price, stock)) == Some((price, stock))
  {
    var t := PriceStockText(price, stock);
    var rest := PriceShown(price) + StockShown(stock);
    AppendAssociative(PRICE_LABEL, PriceShown(price), StockShown(stock));
    assert t[..|PRICE_LABEL|] == PRICE_LABEL;
    assert t[|PRICE_LABEL|..] == rest;
    ParsePriceRoundTrip(price, StockShown(stock));
    ParseStockRoundTrip(stock);
  }

  function CodeText(code: string): string {
    CODE_LABEL + code
  }

  /** The code row is shown only for a present, non-empty code. */
  predicate HasCode(p: Product) {
    IsSet(p.code)
  }

  /**
    The elements for one product, in order. A block has twelve elements, two
    more with a code and two more when featured; it starts with the name,
    has the image placeholder third, never holds a page break and always ends
    with the 0.3-inch gap after the product. `BlockLayout` places the rest.
   */
  function Block(p: Product): (b: seq<Flowable>)
    ensures |b| == 12 + (if HasCode(p) then 2 else 0) + (if p.featured then 2 else 0)
    ensures b[0] == Para(NameText(p.name), Heading2)
    ensures b[2] == Para(IMAGE_PLACEHOLDER, Small)
    ensures b[|b| - 1] == Spacer(PRODUCT_GAP)
    ensures PageBreak !in b
    ensures HasCode(p) ==> b[8] == Para(CodeText(p.code.value), Normal) && b[9] == Spacer(SMALL_GAP)
    ensures !HasCode(p) ==> b[8] == Para(DescriptionText(p.description), Normal)
    ensures p.featured <==> Para(FEATURED_BANNER, Small) in b
  {
    Heading(p) + Classification(p) + CodeRows(p) + Details(p) + FeaturedRows(p) + [Spacer(PRODUCT_GAP)]
  }

  /**
    Where each line of the entry sits: the brand line fifth and the category
    line seventh, each followed by a small gap; then the code row when there is a
    code; then the description, a gap and the price and stock line; then, for
    a featured product, a small gap and the banner.
   */
  lemma BlockLayout(p: Product)
    ensures var b := Block(p);
      var k := 8 + (if HasCode(p) then 2 else 0);
      && |b| == k + 4 + (if p.featured then 2 else 0)
      && b[1] == Spacer(GAP) && b[3] == Spacer(GAP)
      && b[4] == Para(BrandText(p.brand), Normal) && b[5] == Spacer(SMALL_GAP)
      && b[6] == Para(CategoryText(p.category, p.subcategory), Normal) && b[7] == Spacer(SMALL_GAP)
      && b[k] == Para(DescriptionText(p.description), Normal)
      && b[k + 1] == Spacer(GAP)
      && b[k + 2] == Para(PriceStockText(p.price, p.stock), Normal)
      && (p.featured ==> b[k + 3] == Spacer(SMALL_GAP) && b[k + 4] == Para(FEATURED_BANNER, Small))
  {
    var front := Heading(p) + Classification(p);
    var upto := front + CodeRows(p);
    var mid := upto + Details(p);
    var rest := FeaturedRows(p) + [Spacer(PRODUCT_GAP)];
    var k := |upto|;
    AppendAssociative(mid, FeaturedRows(p), [Spacer(PRODUCT_GAP)]);
    assert Block(p) == mid + rest;
    forall i | 0 <= i < 8
      ensures Block(p)[i] == front[i]
    {
      IndexInFront(front, CodeRows(p), i);
      IndexInFront(upto, Details(p), i);
      IndexInFront(mid, rest, i);
    }
    forall i | 0 <= i < 3
      ensures Block(p)[k + i] == Details(p)[i]
    {
      IndexInBack(upto, Details(p), i);
      IndexInFront(mid, rest, k + i);
    }
    if p.featured {
      IndexInBack(mid, rest, 0);
      IndexInBack(mid, rest, 1);
    }
  }

  /** Name and image placeholder, each followed by a gap. */
  function Heading(p: Product): (r: seq<Flowable>)
    ensures |r| == 4
  {
    [Para(NameText(p.name), Heading2), Spacer(GAP), Para(IMAGE_PLACEHOLDER, Small), Spacer(GAP)]
  }

  /** Brand and category lines, each followed by a small gap. */
  function Classification(p: Product): (r: seq<Flowable>)
    ensures |r| == 4 && PageBreak !in r
  {
    [Para(BrandText(p.brand), Normal), Spacer(SMALL_GAP),
     Para(CategoryText(p.category, p.subcategory), Normal), Spacer(SMALL_GAP)]
  }

  function CodeRows(p: Product): (r: seq<Flowable>)
    ensures |r| == if HasCode(p) then 2 else 0
  {
    if HasCode(p) then [Para(CodeText(p.code.value), Normal), Spacer(SMALL_GAP)] else []
  }

  /** Description, a gap, then the price and stock line. */
  function Details(p: Product): (r: seq<Flowable>)
    ensures |r| == 3 && PageBreak !in r && Para(FEATURED_BANNER, Small) !in r
  {
    [Para(DescriptionText(p.description), Normal), Spacer(GAP), Para(PriceStockText(p.price, p.stock), Normal)]
  }

  function FeaturedRows(p: Product): (r: seq<Flowable>)
    ensures |r| == if p.featured then 2 else 0
  {
    if p.featured then [Spacer(SMALL_GAP), Para(FEATURED_BANNER, Small)] else []
  }

  /** Builds the category line by appending to it, as the generator does. */
  method ComposeCategory(category: Option<Category>, subcategory: Option<Subcategory>) returns (text: string)
    ensures text == CategoryText(category, subcategory)
  {
    text := CATEGORY_LABEL;
    text := text + (if category.Some? then category.value.name else NOT_AVAILABLE);
    if subcategory.Some? {
      text := text + (SUBCATEGORY_SEPARATOR + subcategory.value.name);
    }
  }

  /** Resolves the description fallback, then shortens an overlong description in place. */
  method ComposeDescription(description: Option<string>) returns (text: string)
    ensures text == DescriptionText(description)
  {
    text := if description.Some? && description.value != "" then description.value else DESCRIPTION_FALLBACK;
    if |text| > MAX_DESCRIPTION {
      text := text[..KEPT_PREFIX] + ELLIPSIS;
    }
  }

  /** Builds the price line, then appends the stock when it is known. */
  method ComposePriceStock(price: Option<int>, stock: Option<int>) returns (text: string)
    ensures text == PriceStockText(price, stock)
  {
    text := if price.Some? then PRICE_LABEL + (CURRENCY + FormatCents(price.value)) else PRICE_LABEL + NOT_AVAILABLE;
    assert text == PRICE_LABEL + PriceShown(price);
    if stock.Some? {
      text := text + (STOCK_SEPARATOR + IntToString(stock.value));
    }
  }

  /** Builds one product's elements step by step; the result is `Block(p)`. */
  method RenderProduct(p: Product) returns (elems: seq<Flowable>)
    ensures elems == Block(p)
  {
    elems := [];
    var name := if p.name.Some? && p.name.value != "" then p.name.value else NAME_FALLBACK;
    elems := elems + [Para(name, Heading2)];
    elems := elems + [Spacer(GAP)];
    elems := elems + [Para(IMAGE_PLACEHOLDER, Small)];
    elems := elems + [Spacer(GAP)];
    PushFour([], Para(name, Heading2), Spacer(GAP), Para(IMAGE_PLACEHOLDER, Small), Spacer(GAP));
    AppendEmptyFront(Heading(p));
    ghost var done := elems;

    ghost var brand := if p.brand.Some? then BRAND_LABEL + p.brand.value.name else BRAND_LABEL + NOT_AVAILABLE;
    if p.brand.Some? {
      elems := elems + [Para(BRAND_LABEL + p.brand.value.name, Normal)];
    } else {
      elems := elems + [Para(BRAND_LABEL + NOT_AVAILABLE, Normal)];
    }
    elems := elems + [Spacer(SMALL_GAP)];
    var categoryText := ComposeCategory(p.category, p.subcategory);
    elems := elems + [Para(categoryText, Normal)];
    elems := elems + [Spacer(SMALL_GAP)];
    PushFour(done, Para(brand, Normal), Spacer(SMALL_GAP), Para(categoryText, Normal), Spacer(SMALL_GAP));
    assert elems == done + Classification(p);
    done := elems;

    if p.code.Some? && p.code.value != "" {
      elems := elems + [Para(CODE_LABEL + p.code.value, Normal)];
      elems := elems + [Spacer(SMALL_GAP)];
      PushTwo(done, Para(CODE_LABEL + p.code.value, Normal), Spacer(SMALL_GAP));
    } else {
      AppendEmpty(done);
    }
    assert elems == done + CodeRows(p);
    done := elems;

    var description := ComposeDescription(p.description);
    elems := elems + [Para(description, Normal)];
    elems := elems + [Spacer(GAP)];
    var priceStock := ComposePriceStock(p.price, p.stock);
    elems := elems + [Para(priceStock, Normal)];
    PushThree(done, Para(description, Normal), Spacer(GAP), Para(priceStock, Normal));
    assert elems == done + Details(p);
    done := elems;

    if p.featured {
      elems := elems + [Spacer(SMALL_GAP)];
      elems := elems + [Para(FEATURED_BANNER, Small)];
      PushTwo(done, Spacer(SMALL_GAP), Para(FEATURED_BANNER, Small));
    } else {
      AppendEmpty(done);
    }
    assert elems == done + FeaturedRows(p);

    elems := elems + [Spacer(PRODUCT_GAP)];
  }

}
