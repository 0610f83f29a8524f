# Product catalog story, modelled in Dafny

This project models how the catalog PDF generator of the product-catalog
service assembles its document content, the ReportLab "story". The generator
works in two steps:

- `generar_elemento_producto` turns one product record into its list of
  layout elements, in this order:
  - the name, as a heading;
  - an image placeholder;
  - the brand line;
  - the category path, with the subcategory after it when there is one;
  - the product code, only when there is one;
  - the description, with the fallback text when it is missing and cut to
    147 characters plus "..." when it is longer than 150;
  - a price and stock line, with the price to two decimals or "N/A", and the
    stock only when it is known;
  - a "featured" banner for featured products;
  - the vertical gaps between all of these.
- `generar_catalogo_pdf_completo` starts the story with a title and a gap.
  For an empty product list it adds a "no products" notice. Otherwise it
  appends every product's elements in list order, with a forced page break
  after every fourth product except the last.

The modules:

- `Wrappers` holds `Option`.
- `Records` holds the product record and its brand, category and subcategory.
- `Flowables` holds the layout elements, plus counting and removing page
  breaks.
- `Numbers` holds Python's `str(int)` and the two-decimal rendering of a
  price, each with a parser that proves the rendering loses nothing.
- `ProductRender` holds one product's elements:
  - the text of each line;
  - `Block`, the function that specifies the element list;
  - `RenderProduct`, the method that builds the list step by step, as the
    generator does.
- `Pagination` holds the break policy over any list of rendered blocks.
- `CatalogStory` holds the story:
  - `Assemble` and `Story`, which specify it;
  - `BuildStory`, the single-pass loop of the generator;
  - the properties of the story: how many breaks it has, where they go, what
    it ends with, and that product order is kept.
- `SeqFacts` holds small generic facts about sequences that the proofs use.

The model follows the code of `pdf_utils.py`. The story is a flat list of
paragraphs, gaps and page breaks. `pdf_utils.py` has no index page, no
anchors derived from product codes, no two-column grid per product and no
page header or footer decorator, and it cuts descriptions at 150
characters. The break policy proved here is floor((N-1)/4) forced breaks
for N > 0 products, and none after the last product.

## Model

| member | source | states |
|---|---|---|
| ProductRender.NameText | pdf_utils.py:28 | The heading shows the name when it is present and non-empty, and otherwise "Nombre no disponible"; it is never empty |
| ProductRender.Truncate | pdf_utils.py:75-76 | A text of at most 150 characters is kept unchanged; a longer one becomes exactly 150 characters: its first 147 and "..." |
| ProductRender.TruncateIdempotent | pdf_utils.py:75-76 | Truncating an already truncated description changes nothing |
| ProductRender.DescriptionText | pdf_utils.py:74-76 | The description shown is the fallback when the description is missing or empty, the description itself when it has at most 150 characters, and its first 147 characters plus "..." otherwise; it is 1 to 150 characters long and stable under truncation |
| ProductRender.ComposeDescription | pdf_utils.py:74-76 | Reassigning the fallback and then shortening it in place yields `DescriptionText` |
| ProductRender.BrandText | pdf_utils.py:54-57 | The brand line carries the brand's name when there is a brand, and "N/A" otherwise |
| ProductRender.CategoryText | pdf_utils.py:61-64 | The category line starts with the label, then the category's name (or "N/A"); it ends with " > " and the subcategory's name exactly when there is a subcategory; its length is the sum of these parts |
| ProductRender.ComposeCategory | pdf_utils.py:61-64 | Appending the parts one at a time yields `CategoryText` |
| ProductRender.ComposePriceStock | pdf_utils.py:81-83 | Building the price line and then appending the stock when it is known yields `PriceStockText` |
| ProductRender.PriceStockRoundTrip | pdf_utils.py:81-83 | The price and stock line determines both values: parsing it gives back the price (None when it shows "N/A") and the stock (present exactly when the stock part is there) |
| ProductRender.ParsePriceRoundTrip | pdf_utils.py:81 | "$" with the two-decimal amount, or "N/A", reads back as the price it came from, leaving the rest of the line untouched |
| ProductRender.ParseStockRoundTrip | pdf_utils.py:82-83 | The stock part reads back as the stock: it is absent exactly when the stock is None |
| Numbers.FormatCents | pdf_utils.py:81 | A price renders as a leading minus exactly when it is negative, then the whole part, one point and two fractional digits. The whole part is one or more digits with no leading zero, as `:.2f` prints it |
| Numbers.CentsRoundTrip | pdf_utils.py:81 | The two-decimal rendering of a price in cents parses back to the same amount |
| Numbers.IntToString | pdf_utils.py:83 | The stock renders as "-" exactly when it is negative, followed by one or more digits with no leading zero, as `str()` prints it |
| Numbers.IntToStringRoundTrip | pdf_utils.py:83 | The decimal rendering of the stock parses back to the same integer |
| Numbers.NatToStringRoundTrip | pdf_utils.py:83 | The digits of a natural number denote that number |
| ProductRender.Block | pdf_utils.py:25-92 | A product's elements number 12, plus 2 with a code and 2 more when featured. They start with the name heading, have the image placeholder third and end with the 0.3-inch gap. With a code, the code row and a small gap are ninth and tenth; without one, the description is ninth. The featured banner appears exactly when the product is featured. No page break is ever among them |
| ProductRender.BlockLayout | pdf_utils.py:28-91 | Every other element's place. The brand line is fifth and the category line seventh, each followed by a small gap. The description comes after the code row, or ninth without a code. A gap and then the price and stock line follow it. For a featured product, a small gap and the banner come next |
| ProductRender.RenderProduct | pdf_utils.py:21-92 | Appending the elements one at a time, with the same branches as the generator, yields `Block(p)` |
| Pagination.ClosesPageMod | pdf_utils.py:113 | The step-of-four test used in the proofs is the generator's test "(i + 1) % 4 == 0" |
| Pagination.BreakAfter | pdf_utils.py:113-114 | After the k-th of n products there is a single page break exactly when k is a multiple of four and k < n, and nothing otherwise |
| Pagination.PaginateBreakCount | pdf_utils.py:110-114 | After the first n products there are n div 4 breaks, or (n - 1) div 4 once n is the whole list |
| Pagination.PaginateWithoutBreaks | pdf_utils.py:110-114 | With the breaks removed, the body of the first n blocks is those blocks laid end to end |
| Pagination.PaginatePrefix | pdf_utils.py:110-114 | The body only grows: the body after m products is a prefix of the body after n >= m products |
| Pagination.PaginateBlockAt | pdf_utils.py:110-112 | Block j sits in the body immediately after the body of the blocks before it |
| Pagination.PaginateBreakAfter | pdf_utils.py:113-114 | The element right after block j is a page break exactly when j + 1 is a multiple of four and block j is not the last |
| CatalogStory.Assemble | pdf_utils.py:101-114 | The story always starts with the title and its gap; for no products it is exactly those and the "no products" notice |
| CatalogStory.RenderAll | pdf_utils.py:110-112 | One block per product, in input order; the blocks hold no page break and none is empty |
| CatalogStory.Story | pdf_utils.py:101-114 | The story of the product list starts with the title and its gap; the story of the empty list is exactly those and the notice |
| CatalogStory.BuildStory | pdf_utils.py:94-114 | The single pass that appends each product's elements and then, when its position calls for it, a page break yields `Story(ps)` |
| CatalogStory.AssembleBreakCount | pdf_utils.py:107-114 | For break-free blocks, N > 0 blocks get (N - 1) div 4 breaks and no blocks get none |
| CatalogStory.AssembleEnd | pdf_utils.py:107-114 | The assembly ends with the notice, or with the last element of the last block |
| CatalogStory.AssembleWithoutBreaks | pdf_utils.py:110-114 | Without the title, its gap and the breaks, the assembly of some blocks is exactly those blocks in order |
| CatalogStory.AssembleBreakPlacement | pdf_utils.py:110-114 | Block j follows the title, its gap and the earlier blocks, and a page break follows it exactly when j + 1 is a multiple of four and j is not the last |
| CatalogStory.StoryBreakCount | pdf_utils.py:107-114 | A catalog of N > 0 products holds exactly (N - 1) div 4 forced page breaks, and an empty one holds none |
| CatalogStory.StoryEnd | pdf_utils.py:107-114 | The story never ends with a page break: it ends with the notice, or with the last product's 0.3-inch gap |
| CatalogStory.OrderPreserved | pdf_utils.py:110-114 | Without the title, its gap and the breaks, the story of a non-empty list is every product's elements in input order |
| CatalogStory.BreakPlacement | pdf_utils.py:110-114 | Product j's elements appear contiguously after the title and the earlier products, and a page break follows them exactly when j + 1 is a multiple of four and j is not the last product |

## Left out

- Writing the file is not modelled: `SimpleDocTemplate`, the letter page size, the half-inch margins, `doc.build` and its exception handler (pdf_utils.py:98-100 and 116-121). These are I/O inside the layout engine. The model stops at the story that is handed to it.
- The progress messages printed for each product and before building are not modelled (I/O).
- The `nombre_archivo` parameter is not modelled. It only names the output file.
- Styles are modelled as a four-valued tag (normal, h1, h2, small). The font size and leading set on the small style at import time (pdf_utils.py:17-19) are not modelled.
- Gap heights are whole hundredths of an inch, so 0.05, 0.1 and 0.3 inch are 5, 10 and 30. The gaps' width of one point is dropped.
- ProductRender.Block, ProductRender.RenderProduct and CatalogStory.BuildStory always return a result, and paragraph text is kept as the markup string given to ReportLab. ReportLab's `Paragraph` parses its markup when it is constructed. That happens inside `generar_elemento_producto`, before and outside the `try` at pdf_utils.py:117-121. So markup it cannot parse raises an exception that ends the whole `generar_catalogo_pdf_completo` call. That markup can come from the name, brand, category, subcategory, code or description text (pdf_utils.py:28, 55, 62-64, 70, 77), for example an unescaped `<` or `&`. It can also come from the cut at pdf_utils.py:76, which can split a tag or an entity such as `</b>` or `&amp;` in a description that would parse uncut. The model captures neither the parse nor this failure path.
- Prices are whole cents, which assumes the database column keeps two decimal places. Python's rounding of a Decimal with more places under `:.2f` is not modelled.
- `destacado` is a boolean. A database NULL, which Python also treats as false, is represented as `false`.
- Python's `len` and slicing count code points, and Dafny's `string` is a sequence of code points, so the 150/147 limits agree. No Unicode normalisation is modelled.
- The commented-out image loading (pdf_utils.py:31-48) is not code and is not modelled. Only the fixed placeholder is.
- The rest of the repository is not part of this model: the database models except the fields used here, the CRUD layer, seeding, configuration and the command-line entry point in main.py (`run_catalog_generation`).
