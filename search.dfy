/** The search page of `app/search/page.jsx`: the filter state, the filter-and-sort
    effect that recomputes the listed products, the option lists offered by the
    filter panel, and `clearFilters`. The catalog is an input sequence. */
module Search {
  import opened Wrappers
  import Text
  import Seqs

  /** The catalog fields the page reads. */
  datatype Product = Product(id: int, name: string, description: string, tags: seq<string>,
                             category: string, brand: string, colors: seq<string>,
                             sizes: seq<string>, price: real, rating: real)

  /** A snapshot of the filter state the effect depends on. */
  datatype Criteria = Criteria(query: string, categories: seq<string>, brands: seq<string>,
                               colors: seq<string>, sizes: seq<string>, lo: real, hi: real)

  const DefaultLo: real := 0.0
  const DefaultHi: real := 500.0
  const Featured := "featured"

  // ---------------------------------------------------------------- admission

  /** Name, description or some tag contains the query, ignoring ASCII case. */
  predicate MatchesQuery(p: Product, q: string) {
    || Text.ContainsIgnoreCase(p.name, q)
    || Text.ContainsIgnoreCase(p.description, q)
    || (exists i :: 0 <= i < |p.tags| && Text.ContainsIgnoreCase(p.tags[i], q))
  }

  /** `values.some(v => selected.includes(v))`. */
  predicate Overlaps(values: seq<string>, selected: seq<string>) {
    exists i :: 0 <= i < |values| && values[i] in selected
  }

  predicate QueryAdmits(c: Criteria, p: Product) {
    c.query == "" || MatchesQuery(p, c.query)
  }

  predicate CategoryAdmits(c: Criteria, p: Product) {
    |c.categories| == 0 || p.category in c.categories
  }

  predicate BrandAdmits(c: Criteria, p: Product) {
    |c.brands| == 0 || p.brand in c.brands
  }

  predicate ColorAdmits(c: Criteria, p: Product) {
    |c.colors| == 0 || Overlaps(p.colors, c.colors)
  }

  predicate SizeAdmits(c: Criteria, p: Product) {
    |c.sizes| == 0 || Overlaps(p.sizes, c.sizes)
  }

  /** The price range is inclusive at both ends. */
  predicate PriceAdmits(c: Criteria, p: Product) {
    c.lo <= p.price <= c.hi
  }

  /** The conjunction the whole chain of filters amounts to. */
  predicate Admits(c: Criteria, p: Product) {
    QueryAdmits(c, p) && CategoryAdmits(c, p) && BrandAdmits(c, p) &&
    ColorAdmits(c, p) && SizeAdmits(c, p) && PriceAdmits(c, p)
  }

  /** The reference definition of the filtered list: one filter on the conjunction. */
  function Matching(products: seq<Product>, c: Criteria): seq<Product> {
    Seqs.Filter(products, (p: Product) => Admits(c, p))
  }

  // ---------------------------------------------------------------- ordering

  /** The `sortBy` switch: ascending price, descending price, descending rating,
      descending id, and for any other value (including "featured") no sort. Every
      sort is the stable `Array.prototype.sort`. */
  function Ordered(s: seq<Product>, sortBy: string): seq<Product> {
    if sortBy == "price-low" then Seqs.SortBy(s, PriceUp)
    else if sortBy == "price-high" then Seqs.SortBy(s, PriceDown)
    else if sortBy == "rating" then Seqs.SortBy(s, RatingDown)
    else if sortBy == "newest" then Seqs.SortBy(s, IdDown)
    else s
  }

  /** The sort keys: an ascending sort by the negated value is a descending sort. */
  function PriceUp(p: Product): real { p.price }
  function PriceDown(p: Product): real { -p.price }
  function RatingDown(p: Product): real { -p.rating }
  function IdDown(p: Product): real { -(p.id as real) }

  // ---------------------------------------------------------------- option lists

  function Brands(products: seq<Product>): seq<string> {
    seq(|products|, i requires 0 <= i < |products| => products[i].brand)
  }

  function ColorLists(products: seq<Product>): seq<seq<string>> {
    seq(|products|, i requires 0 <= i < |products| => products[i].colors)
  }

  function SizeLists(products: seq<Product>): seq<seq<string>> {
    seq(|products|, i requires 0 <= i < |products| => products[i].sizes)
  }

  /** `[...new Set(products.map(p => p.brand))]`. */
  function BrandOptions(products: seq<Product>): seq<string> {
    Seqs.Dedup(Brands(products))
  }

  /** `[...new Set(products.flatMap(p => p.colors))]`. */
  function ColorOptions(products: seq<Product>): seq<string> {
    Seqs.Dedup(Seqs.Flatten(ColorLists(products)))
  }

  /** `[...new Set(products.flatMap(p => p.sizes))]`. */
  function SizeOptions(products: seq<Product>): seq<string> {
    Seqs.Dedup(Seqs.Flatten(SizeLists(products)))
  }

  // ---------------------------------------------------------------- page state

  /** The page's filter state. */
  class SearchPage {
    var searchQuery: string
    var selectedCategories: seq<string>
    var selectedBrands: seq<string>
    var selectedColors: seq<string>
    var selectedSizes: seq<string>
    var priceLo: real
    var priceHi: real
    var sortBy: string

    function Current(): Criteria
      reads this
    {
      Criteria(searchQuery, selectedCategories, selectedBrands, selectedColors, selectedSizes,
               priceLo, priceHi)
    }

    /** The initial state: the `q` parameter (empty when absent), no selections, the
        range [0, 500] and the featured order. */
    constructor (q: Option<string>)
      ensures searchQuery == q.GetOr("")
      ensures selectedCategories == [] && selectedBrands == [] && selectedColors == []
      ensures selectedSizes == []
      ensures priceLo == DefaultLo && priceHi == DefaultHi && sortBy == Featured
    {
      searchQuery := q.GetOr("");
      selectedCategories, selectedBrands, selectedColors, selectedSizes := [], [], [], [];
      priceLo, priceHi := DefaultLo, DefaultHi;
      sortBy := Featured;
    }

    /** `clearFilters`: every selection, the range and the order go back to their
        initial values; the query text is left as it is. */
    method ClearFilters()
      modifies this
      ensures selectedCategories == [] && selectedBrands == [] && selectedColors == []
      ensures selectedSizes == []
      ensures priceLo == DefaultLo && priceHi == DefaultHi && sortBy == Featured
      ensures searchQuery == old(searchQuery)
    {
      selectedCategories, selectedBrands, selectedColors, selectedSizes := [], [], [], [];
      priceLo, priceHi := DefaultLo, DefaultHi;
      sortBy := Featured;
    }

    /** The effect: each filter stage narrows `filtered` when its control is set, the
        price stage always applies, then the list is sorted. The result is the
        reference filter of the catalog put in the chosen order. */
    method Refresh(products: seq<Product>) returns (filtered: seq<Product>)
      ensures filtered == Ordered(Matching(products, Current()), sortBy)
    {
      var c := Current();
      filtered := products;
      Seqs.FilterKeepsAll(products, UpTo(c, 0));
      ghost var before := filtered;
      filtered := Narrow(filtered, c.query != "", ByQuery(c));
      StageAt(products, c, 0, before, filtered);
      before := filtered;
      filtered := Narrow(filtered, |c.categories| > 0, ByCategory(c));
      StageAt(products, c, 1, before, filtered);
      before := filtered;
      filtered := Narrow(filtered, |c.brands| > 0, ByBrand(c));
      StageAt(products, c, 2, before, filtered);
      before := filtered;
      filtered := Narrow(filtered, |c.colors| > 0, ByColor(c));
      StageAt(products, c, 3, before, filtered);
      before := filtered;
      filtered := Narrow(filtered, |c.sizes| > 0, BySize(c));
      StageAt(products, c, 4, before, filtered);
      before := filtered;
      filtered := Narrow(filtered, true, ByPrice(c));
      StageAt(products, c, 5, before, filtered);
      AllStagesMatch(products, c);
      filtered := Ordered(filtered, sortBy);
    }
  }

  // ---------------------------------------------------------------- the chain, stage by stage

  /** `if (applies) filtered = filtered.filter(f)`. */
  function Narrow(s: seq<Product>, applies: bool, f: Product -> bool): seq<Product> {
    if applies then Seqs.Filter(s, f) else s
  }

  function ByQuery(c: Criteria): Product -> bool {
    (p: Product) => MatchesQuery(p, c.query)
  }

  function ByCategory(c: Criteria): Product -> bool {
    (p: Product) => p.category in c.categories
  }

  function ByBrand(c: Criteria): Product -> bool {
    (p: Product) => p.brand in c.brands
  }

  function ByColor(c: Criteria): Product -> bool {
    (p: Product) => Overlaps(p.colors, c.colors)
  }

  function BySize(c: Criteria): Product -> bool {
    (p: Product) => Overlaps(p.sizes, c.sizes)
  }

  function ByPrice(c: Criteria): Product -> bool {
    (p: Product) => p.price >= c.lo && p.price <= c.hi
  }

  /** The filter of stage `k` (0 query, 1 category, 2 brand, 3 colour, 4 size, 5 price). */
  function StageFilter(c: Criteria, k: nat): Product -> bool
    requires k < 6
  {
    match k
    case 0 => ByQuery(c)
    case 1 => ByCategory(c)
    case 2 => ByBrand(c)
    case 3 => ByColor(c)
    case 4 => BySize(c)
    case _ => ByPrice(c)
  }

  /** Whether stage `k` runs: its control is set; the price stage always runs. */
  predicate StageApplies(c: Criteria, k: nat)
    requires k < 6
  {
    match k
    case 0 => c.query != ""
    case 1 => |c.categories| > 0
    case 2 => |c.brands| > 0
    case 3 => |c.colors| > 0
    case 4 => |c.sizes| > 0
    case _ => true
  }

  /** What the first `k` stages admit together. */
  predicate AdmitsUpTo(c: Criteria, p: Product, k: nat) {
    && (k > 0 ==> QueryAdmits(c, p))
    && (k > 1 ==> CategoryAdmits(c, p))
    && (k > 2 ==> BrandAdmits(c, p))
    && (k > 3 ==> ColorAdmits(c, p))
    && (k > 4 ==> SizeAdmits(c, p))
    && (k > 5 ==> PriceAdmits(c, p))
  }

  function UpTo(c: Criteria, k: nat): Product -> bool {
    (p: Product) => AdmitsUpTo(c, p, k)
  }

  /** Stage `k`, run or skipped, takes the catalog filtered by the first `k` stages
      to the catalog filtered by the first `k + 1`. */
  lemma StageAt(products: seq<Product>, c: Criteria, k: nat, before: seq<Product>,
                after: seq<Product>)
    requires k < 6
    requires before == Seqs.Filter(products, UpTo(c, k))
    requires after == Narrow(before, StageApplies(c, k), StageFilter(c, k))
    ensures after == Seqs.Filter(products, UpTo(c, k + 1))
  {
    var applies := StageApplies(c, k);
    var stage := StageFilter(c, k);
    var upTo, next := UpTo(c, k), UpTo(c, k + 1);
    forall p ensures next(p) == (upTo(p) && (applies ==> stage(p))) {
      if k == 0 {
        assert QueryAdmits(c, p) == (applies ==> MatchesQuery(p, c.query));
      }
    }
    StageStep(products, upTo, stage, next, before, after, applies);
  }

  /** All six stages admit exactly what the reference conjunction admits. */
  lemma AllStagesMatch(products: seq<Product>, c: Criteria)
    ensures Seqs.Filter(products, UpTo(c, 6)) == Matching(products, c)
  {
    Seqs.FilterCongruent(products, UpTo(c, 6), (p: Product) => Admits(c, p));
  }

  /** One stage of the chain: a filter by `stage` that runs when `applied` (and is
      skipped otherwise) turns the catalog filtered by `upTo` into the catalog
      filtered by `next`, when `next` is `upTo` conjoined with the stage's effect. */
  lemma StageStep(products: seq<Product>, upTo: Product -> bool, stage: Product -> bool,
                  next: Product -> bool, before: seq<Product>, after: seq<Product>, applied: bool)
    requires before == Seqs.Filter(products, upTo)
    requires applied ==> after == Seqs.Filter(before, stage)
    requires !applied ==> after == before
    requires forall p :: next(p) == (upTo(p) && (applied ==> stage(p)))
    ensures after == Seqs.Filter(products, next)
  {
    if applied {
      Seqs.FilterFuse(products, upTo, stage, next);
    } else {
      Seqs.FilterCongruent(products, upTo, next);
    }
  }

  // ---------------------------------------------------------------- properties

  /** A product is listed exactly when it is in the catalog and passes every stage:
      with a query, its name, description or a tag contains it, ignoring case; with a
      category or brand selection, its value is selected; with a colour or size
      selection, one of its values is selected; its price lies within the range, both
      ends included. An empty selection constrains nothing. */
  lemma MatchingMembers(products: seq<Product>, c: Criteria, p: Product)
    ensures p in Matching(products, c) <==>
      && p in products
      && (c.query != "" ==>
            || Text.Contains(Text.Lower(p.name), Text.Lower(c.query))
            || Text.Contains(Text.Lower(p.description), Text.Lower(c.query))
            || exists i :: 0 <= i < |p.tags| && Text.Contains(Text.Lower(p.tags[i]), Text.Lower(c.query)))
      && (c.categories != [] ==> p.category in c.categories)
      && (c.brands != [] ==> p.brand in c.brands)
      && (c.colors != [] ==> exists i :: 0 <= i < |p.colors| && p.colors[i] in c.colors)
      && (c.sizes != [] ==> exists i :: 0 <= i < |p.sizes| && p.sizes[i] in c.sizes)
      && c.lo <= p.price && p.price <= c.hi
  {
    Seqs.FilterMembers(products, (x: Product) => Admits(c, x));
  }

  /** Before sorting, the listed products keep their catalog order. */
  lemma MatchingKeepsOrder(products: seq<Product>, c: Criteria)
    ensures Seqs.Subsequence(Matching(products, c), products)
  {
    Seqs.FilterSubsequence(products, (x: Product) => Admits(c, x));
  }

  /** With the filters cleared and no query, only the price range is in force, so a
      catalog priced within [0, 500] is listed whole. */
  lemma ClearedListsAll(products: seq<Product>, c: Criteria)
    requires c == Criteria("", [], [], [], [], DefaultLo, DefaultHi)
    requires forall i :: 0 <= i < |products| ==> DefaultLo <= products[i].price <= DefaultHi
    ensures Matching(products, c) == products
  {
    Seqs.FilterKeepsAll(products, (x: Product) => Admits(c, x));
  }

  /** Every order is a permutation of its input. Price-low is ascending in price,
      price-high descending in price, rating descending in rating, newest descending
      in id; any other value keeps the input as it is. */
  lemma OrderedSpec(s: seq<Product>, sortBy: string)
    ensures multiset(Ordered(s, sortBy)) == multiset(s)
    ensures var r := Ordered(s, sortBy);
      && (sortBy == "price-low" ==> forall i, j :: 0 <= i < j < |r| ==> r[i].price <= r[j].price)
      && (sortBy == "price-high" ==> forall i, j :: 0 <= i < j < |r| ==> r[i].price >= r[j].price)
      && (sortBy == "rating" ==> forall i, j :: 0 <= i < j < |r| ==> r[i].rating >= r[j].rating)
      && (sortBy == "newest" ==> forall i, j :: 0 <= i < j < |r| ==> r[i].id >= r[j].id)
      && (sortBy !in {"price-low", "price-high", "rating", "newest"} ==> r == s)
  {
    var r := Ordered(s, sortBy);
    if sortBy == "price-high" {
      assert Seqs.SortedBy(r, PriceDown);
      forall i, j | 0 <= i < j < |r| ensures r[i].price >= r[j].price {
        assert -r[i].price <= -r[j].price;
      }
    } else if sortBy == "rating" {
      assert Seqs.SortedBy(r, RatingDown);
      forall i, j | 0 <= i < j < |r| ensures r[i].rating >= r[j].rating {
        assert -r[i].rating <= -r[j].rating;
      }
    } else if sortBy == "newest" {
      assert Seqs.SortedBy(r, IdDown);
      forall i, j | 0 <= i < j < |r| ensures r[i].id >= r[j].id {
        assert -(r[i].id as real) <= -(r[j].id as real);
      }
    }
  }

  /** Products of equal price keep their relative order under either price sort. */
  lemma PriceSortStable(s: seq<Product>, price: real)
    ensures Seqs.Filter(Ordered(s, "price-low"), (p: Product) => p.price == price) ==
            Seqs.Filter(s, (p: Product) => p.price == price)
    ensures Seqs.Filter(Ordered(s, "price-high"), (p: Product) => p.price == price) ==
            Seqs.Filter(s, (p: Product) => p.price == price)
  {
    Seqs.SortByStable(s, PriceUp, price, (p: Product) => p.price == price);
    Seqs.SortByStable(s, PriceDown, -price, (p: Product) => p.price == price);
  }

  /** The brand options hold every catalog brand, each once. */
  lemma BrandOptionsSpec(products: seq<Product>)
    ensures Seqs.Distinct(BrandOptions(products))
    ensures forall b :: b in BrandOptions(products) <==>
              exists i :: 0 <= i < |products| && products[i].brand == b
  {
    var bs := Brands(products);
    forall b ensures b in bs <==> exists i :: 0 <= i < |products| && products[i].brand == b {
      if b in bs {
        var i :| 0 <= i < |bs| && bs[i] == b;
        assert products[i].brand == b;
      }
      if exists i :: 0 <= i < |products| && products[i].brand == b {
        var i :| 0 <= i < |products| && products[i].brand == b;
        assert bs[i] == b;
      }
    }
  }

  /** The colour options hold every colour of every product, each once. */
  lemma ColorOptionsSpec(products: seq<Product>)
    ensures Seqs.Distinct(ColorOptions(products))
    ensures forall x :: x in ColorOptions(products) <==>
              exists i :: 0 <= i < |products| && x in products[i].colors
  {
    var ls := ColorLists(products);
    forall x ensures x in Seqs.Flatten(ls) <==> exists i :: 0 <= i < |products| && x in products[i].colors {
      Seqs.FlattenMembers(ls, x);
      if exists i :: 0 <= i < |products| && x in products[i].colors {
        var i :| 0 <= i < |products| && x in products[i].colors;
        assert x in ls[i];
      }
    }
  }

  /** The size options hold every size of every product, each once. */
  lemma SizeOptionsSpec(products: seq<Product>)
    ensures Seqs.Distinct(SizeOptions(products))
    ensures forall x :: x in SizeOptions(products) <==>
              exists i :: 0 <= i < |products| && x in products[i].sizes
  {
    var ls := SizeLists(products);
    forall x ensures x in Seqs.Flatten(ls) <==> exists i :: 0 <= i < |products| && x in products[i].sizes {
      Seqs.FlattenMembers(ls, x);
      if exists i :: 0 <= i < |products| && x in products[i].sizes {
        var i :| 0 <= i < |products| && x in products[i].sizes;
        assert x in ls[i];
      }
    }
  }
}
