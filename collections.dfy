/** The collection page of `app/collections/page.jsx`: the category tabs with their
    product counts and the list the chosen tab shows. The catalog is an input. */
module Collections {
  import Seqs

  datatype Product = Product(id: int, name: string, category: string)

  datatype Tab = Tab(id: string, name: string, count: int)

  const All := "all"

  /** The products of one category, in catalog order. */
  function InCategory(products: seq<Product>, category: string): seq<Product> {
    Seqs.Filter(products, ByCategory(category))
  }

  function ByCategory(category: string): Product -> bool {
    (p: Product) => p.category == category
  }

  /** `categories`: "all" counts the whole catalog, each other tab its category. */
  function Tabs(products: seq<Product>): (r: seq<Tab>)
    ensures |r| == 4 && r[0] == Tab(All, "All Items", |products|)
    ensures forall k :: 1 <= k < 4 ==> r[k].count == |InCategory(products, r[k].id)|
  {
    [Tab(All, "All Items", |products|),
     Tab("women", "Women", |InCategory(products, "women")|),
     Tab("men", "Men", |InCategory(products, "men")|),
     Tab("accessories", "Accessories", |InCategory(products, "accessories")|)]
  }

  /** `filteredProducts`. */
  function Shown(products: seq<Product>, selected: string): seq<Product> {
    if selected == All then products else InCategory(products, selected)
  }

  // ---------------------------------------------------------------- lemmas

  /** "all" shows the catalog unchanged; any other tab shows exactly the products of
      that category, in catalog order. */
  lemma ShownSpec(products: seq<Product>, selected: string)
    ensures selected == "all" ==> Shown(products, selected) == products
    ensures selected != "all" ==>
              (forall p :: p in Shown(products, selected) <==> p in products && p.category == selected) &&
              Seqs.Subsequence(Shown(products, selected), products)
  {
    if selected != All {
      Seqs.FilterMembers(products, ByCategory(selected));
      Seqs.FilterSubsequence(products, ByCategory(selected));
    }
  }

  /** When every product belongs to one of the three categories, the three category
      counts add up to the "all" count. */
  lemma {:induction false} CountsPartition(products: seq<Product>)
    requires forall p :: p in products ==> p.category in {"women", "men", "accessories"}
    ensures |InCategory(products, "women")| + |InCategory(products, "men")| +
            |InCategory(products, "accessories")| == |products|
    decreases |products|
  {
    if products != [] {
      assert forall p :: p in products[1..] ==> p in products;
      CountsPartition(products[1..]);
      assert products[0] in products;
    }
  }

  /** A product outside the three categories is counted under "all" only. */
  lemma UnknownCategoryOnlyInAll(products: seq<Product>, p: Product)
    requires p.category !in {"women", "men", "accessories"}
    ensures forall k :: 1 <= k < 4 ==> Tabs(products + [p])[k] == Tabs(products)[k]
    ensures Tabs(products + [p])[0].count == Tabs(products)[0].count + 1
  {
    Seqs.FilterAppend(products, [p], ByCategory("women"));
    Seqs.FilterAppend(products, [p], ByCategory("men"));
    Seqs.FilterAppend(products, [p], ByCategory("accessories"));
  }
}
