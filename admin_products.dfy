/** The product table of `components/admin-product-management.jsx`: the listing
    filter, the add, edit, update and delete handlers over the `products` state and
    the product form, and the status badge colour. Prices and stock are parsed from
    the form's text; a parse that fails (`NaN`) is `None`. The product id comes from
    the clock and is passed in; how a price is turned back into text is passed in as
    `show`, since number formatting is not part of this model. */
module AdminProducts {
  import opened Wrappers
  import Text
  import Seqs

  /** `originalPrice`: absent or `null`, or a parsed number (`None` when `NaN`). */
  datatype OriginalPrice = NoOriginalPrice | OriginalPrice(parsed: Option<real>)

  datatype Product = Product(id: int, name: string, price: Option<real>,
                             originalPrice: OriginalPrice, category: string, stock: Option<int>,
                             status: string, image: string, description: string,
                             colors: seq<string>, sizes: seq<string>)

  /** The form holds text for every field. */
  datatype ProductForm = ProductForm(name: string, price: string, originalPrice: string,
                                     category: string, stock: string, description: string,
                                     colors: string, sizes: string)

  const EmptyForm := ProductForm("", "", "", "", "", "", "", "")
  const Placeholder := "/placeholder.svg?height=100&width=100"
  const AllCategories := "all"

  // ---------------------------------------------------------------- listing

  /** Name contains the search term ignoring ASCII case, and the category is "all" or
      the product's own. */
  predicate Listed(p: Product, term: string, category: string) {
    Text.ContainsIgnoreCase(p.name, term) && (category == AllCategories || p.category == category)
  }

  /** `filteredProducts`. */
  function Listing(products: seq<Product>, term: string, category: string): seq<Product> {
    Seqs.Filter(products, (p: Product) => Listed(p, term, category))
  }

  // ---------------------------------------------------------------- form to product

  /** `Number.parseInt(stock) > 0 ? "active" : "out_of_stock"` (`NaN > 0` is false). */
  function StockStatus(stock: Option<int>): string {
    if stock.Some? && stock.value > 0 then "active" else "out_of_stock"
  }

  /** An empty original-price field is `null`, anything else is parsed. */
  function ParseOriginalPrice(text: string): OriginalPrice {
    if text == "" then NoOriginalPrice else OriginalPrice(Text.ParseFloat(text))
  }

  /** The product `handleAddProduct` builds from the form. */
  function NewProduct(form: ProductForm, id: int): Product {
    var stock := Text.ParseInt(form.stock);
    Product(id, form.name, Text.ParseFloat(form.price), ParseOriginalPrice(form.originalPrice),
            form.category, stock, StockStatus(stock), Placeholder, form.description,
            Text.SplitTrim(form.colors), Text.SplitTrim(form.sizes))
  }

  /** `{ ...editing, ...form, <parsed fields> }`: the edited product keeps its id and
      image and takes every other field from the form. */
  function UpdatedProduct(editing: Product, form: ProductForm): Product {
    var stock := Text.ParseInt(form.stock);
    editing.(name := form.name, price := Text.ParseFloat(form.price),
             originalPrice := ParseOriginalPrice(form.originalPrice), category := form.category,
             stock := stock, status := StockStatus(stock), description := form.description,
             colors := Text.SplitTrim(form.colors), sizes := Text.SplitTrim(form.sizes))
  }

  /** A number's `toString()`; `NaN` prints as "NaN". */
  function NumberText(x: Option<real>, show: real -> string): string {
    if x.Some? then show(x.value) else "NaN"
  }

  function StockText(x: Option<int>): string {
    if x.Some? then Text.IntText(x.value) else "NaN"
  }

  /** `originalPrice?.toString() || ""`: no original price gives the empty field. */
  function OriginalPriceText(o: OriginalPrice, show: real -> string): string {
    match o
    case NoOriginalPrice => ""
    case OriginalPrice(x) => NumberText(x, show)
  }

  /** The form `handleEditProduct` loads: `originalPrice?.toString() || ""`, and the
      colour and size lists joined with ", ". */
  function EditForm(p: Product, show: real -> string): ProductForm {
    ProductForm(p.name, NumberText(p.price, show), OriginalPriceText(p.originalPrice, show),
                p.category, StockText(p.stock),
                p.description, Text.Join(p.colors, ", "), Text.Join(p.sizes, ", "))
  }

  /** `products.map(p => p.id === id ? updated : p)`. */
  function ReplaceById(products: seq<Product>, id: int, updated: Product): seq<Product> {
    seq(|products|, i requires 0 <= i < |products| =>
      if products[i].id == id then updated else products[i])
  }

  /** `products.filter(p => p.id !== id)`. */
  function DeleteById(products: seq<Product>, id: int): seq<Product> {
    Seqs.Filter(products, (p: Product) => p.id != id)
  }

  /** `getStatusColor`: active is green, out of stock red, and "draft" gets the same
      gray badge as every unknown status. */
  function StatusColor(status: string): (r: string)
    ensures status == "active" ==> r == "bg-green-100 text-green-800"
    ensures status == "out_of_stock" ==> r == "bg-red-100 text-red-800"
    ensures r == "bg-gray-100 text-gray-800" <==> status !in {"active", "out_of_stock"}
  {
    if status == "active" then "bg-green-100 text-green-800"
    else if status == "out_of_stock" then "bg-red-100 text-red-800"
    else "bg-gray-100 text-gray-800"
  }

  // ---------------------------------------------------------------- component state

  /** The component's state, one field per `useState`. */
  datatype Manager = Manager(products: seq<Product>, searchTerm: string, selectedCategory: string,
                             isAddModalOpen: bool, editingProduct: Option<Product>,
                             form: ProductForm)

  /** `handleAddProduct`: append the product built from the form, reset the form
      and close the dialog. */
  function AddProduct(m: Manager, now: int): Manager {
    m.(products := m.products + [NewProduct(m.form, now)], form := EmptyForm,
       isAddModalOpen := false)
  }

  /** `handleEditProduct`: remember the product and load its fields into the form. */
  function EditProduct(m: Manager, p: Product, show: real -> string): Manager {
    m.(editingProduct := Some(p), form := EditForm(p, show))
  }

  /** `handleUpdateProduct`: replace the products with the edited id, stop editing
      and reset the form. */
  function UpdateProduct(m: Manager): Manager
    requires m.editingProduct.Some?
  {
    var e := m.editingProduct.value;
    m.(products := ReplaceById(m.products, e.id, UpdatedProduct(e, m.form)),
       editingProduct := None, form := EmptyForm)
  }

  /** `handleDeleteProduct`. */
  function DeleteProduct(m: Manager, id: int): Manager {
    m.(products := DeleteById(m.products, id))
  }

  class ProductManager {
    var products: seq<Product>
    var searchTerm: string
    var selectedCategory: string
    var isAddModalOpen: bool
    var editingProduct: Option<Product>
    var form: ProductForm

    constructor (initial: seq<Product>)
      ensures products == initial && searchTerm == "" && selectedCategory == AllCategories
      ensures !isAddModalOpen && editingProduct == None && form == EmptyForm
    {
      products := initial;
      searchTerm := "";
      selectedCategory := AllCategories;
      isAddModalOpen := false;
      editingProduct := None;
      form := EmptyForm;
    }

    function State(): Manager
      reads this
    {
      Manager(products, searchTerm, selectedCategory, isAddModalOpen, editingProduct, form)
    }

    function FilteredProducts(): seq<Product>
      reads this
    {
      Listing(products, searchTerm, selectedCategory)
    }

    method HandleAddProduct(now: int)
      modifies this
      ensures State() == AddProduct(old(State()), now)
    {
      products := products + [NewProduct(form, now)];
      form := EmptyForm;
      isAddModalOpen := false;
    }

    method HandleEditProduct(p: Product, show: real -> string)
      modifies this
      ensures State() == EditProduct(old(State()), p, show)
    {
      editingProduct := Some(p);
      form := EditForm(p, show);
    }

    /** The dialog that calls it exists only while a product is being edited. */
    method HandleUpdateProduct()
      requires editingProduct.Some?
      modifies this
      ensures State() == UpdateProduct(old(State()))
    {
      Commit(editingProduct.value.id, UpdatedProduct(editingProduct.value, form));
    }

    /** The three state updates of `handleUpdateProduct`, given the built product. */
    method Commit(id: int, updated: Product)
      modifies this
      ensures State() == old(State()).(products := ReplaceById(old(products), id, updated),
                                       editingProduct := None, form := EmptyForm)
    {
      products := ReplaceById(products, id, updated);
      editingProduct := None;
      form := EmptyForm;
    }

    method HandleDeleteProduct(id: int)
      modifies this
      ensures State() == DeleteProduct(old(State()), id)
    {
      products := DeleteById(products, id);
    }
  }

  // ---------------------------------------------------------------- lemmas

  /** A product is listed iff its name contains the term ignoring case and the chosen
      category is "all" or its own; the listing keeps the table order. */
  lemma ListingSpec(products: seq<Product>, term: string, category: string)
    ensures forall p :: p in Listing(products, term, category) <==>
      p in products && Text.Contains(Text.Lower(p.name), Text.Lower(term)) &&
      (category == "all" || p.category == category)
    ensures Seqs.Subsequence(Listing(products, term, category), products)
  {
    Seqs.FilterMembers(products, (p: Product) => Listed(p, term, category));
    Seqs.FilterSubsequence(products, (p: Product) => Listed(p, term, category));
  }

  /** A new product is active iff its stock text parses to a positive integer, out of
      stock otherwise; its colours and sizes are the comma-separated pieces, trimmed;
      an empty original-price field gives no original price. */
  lemma NewProductSpec(form: ProductForm, id: int)
    ensures var p := NewProduct(form, id);
      && (p.status == "active" <==> Text.ParseInt(form.stock).Some? && Text.ParseInt(form.stock).value > 0)
      && (p.status != "active" ==> p.status == "out_of_stock")
      && |p.colors| >= 1 && (forall i :: 0 <= i < |p.colors| ==> Text.Trimmed(p.colors[i]) && ',' !in p.colors[i])
      && |p.sizes| >= 1 && (forall i :: 0 <= i < |p.sizes| ==> Text.Trimmed(p.sizes[i]) && ',' !in p.sizes[i])
      && (form.originalPrice == "" <==> p.originalPrice == NoOriginalPrice)
      && p.id == id && p.image == Placeholder
  {
  }

  /** Stock that is a whole number prints and parses back to itself. */
  lemma StockRoundTrip(x: Option<int>)
    ensures Text.ParseInt(StockText(x)) == x
  {
    if x.Some? {
      Text.ParseIntText(x.value);
    } else {
      assert Text.LeadingDigits("NaN") == [] by {
        assert !Text.IsDigit('N');
      }
    }
  }

  lemma NaNParsesToNaN()
    ensures Text.ParseFloat("NaN") == None
  {
    Text.ParseFloatLetter("NaN");
  }

  /** The printer `show` writes the number `x` (when it is one) as text that
      `Number.parseFloat` reads back as `x`: true of every price a user can type,
      which is a finite decimal. */
  ghost predicate ShownBack(show: real -> string, x: Option<real>) {
    x.Some? ==> Text.ParseFloat(show(x.value)) == x
  }

  /** Text that parses as a number is not empty. */
  lemma ParsedIsNonEmpty(s: string)
    requires Text.ParseFloat(s).Some?
    ensures s != ""
  {
    assert Text.LeadingDigits("") == [] && Text.FractionDigits("") == [];
  }

  /** A price, or `NaN`, printed into the form parses back to itself. */
  lemma PriceRoundTrip(x: Option<real>, show: real -> string)
    requires ShownBack(show, x)
    ensures Text.ParseFloat(NumberText(x, show)) == x
  {
    if x.None? {
      NaNParsesToNaN();
    }
  }

  /** `toString` of a whole number, the printer for prices entered without cents. */
  function WholeText(x: real): string {
    Text.IntText(x.Floor)
  }

  /** Every whole price meets the printing hypothesis of the round trips below. */
  lemma WholePriceShownBack(n: nat)
    ensures ShownBack(WholeText, Some(n as real))
  {
    Text.ParseFloatText(n);
  }

  /** The original-price field round-trips too, including its absence. */
  lemma OriginalPriceRoundTrip(o: OriginalPrice, show: real -> string)
    requires o.OriginalPrice? ==> ShownBack(show, o.parsed)
    ensures ParseOriginalPrice(OriginalPriceText(o, show)) == o
  {
    match o
    case NoOriginalPrice =>
    case OriginalPrice(x) =>
      PriceRoundTrip(x, show);
      if x.Some? {
        ParsedIsNonEmpty(show(x.value));
      }
  }

  /** Opening a product for edit and saving without changes gives back the same
      product with its status recomputed from its stock, provided the printer writes
      its price and original price as text that parses back to them, and every colour and size is comma-free, trimmed, and the lists are
      non-empty. */
  lemma {:induction false} EditSaveRoundTrip(p: Product, show: real -> string)
    requires ShownBack(show, p.price)
    requires p.originalPrice.OriginalPrice? ==> ShownBack(show, p.originalPrice.parsed)
    requires p.colors != [] && forall i :: 0 <= i < |p.colors| ==> ',' !in p.colors[i] && Text.Trimmed(p.colors[i])
    requires p.sizes != [] && forall i :: 0 <= i < |p.sizes| ==> ',' !in p.sizes[i] && Text.Trimmed(p.sizes[i])
    ensures UpdatedProduct(p, EditForm(p, show)) == p.(status := StockStatus(p.stock))
  {
    Text.SplitTrimJoin(p.colors);
    Text.SplitTrimJoin(p.sizes);
    StockRoundTrip(p.stock);
    PriceRoundTrip(p.price, show);
    OriginalPriceRoundTrip(p.originalPrice, show);
  }

  /** A product with no colours comes back from an unchanged edit with one empty
      colour, because "" splits into one empty piece. */
  lemma EmptyColorsComeBackAsOneBlank(p: Product, show: real -> string)
    requires p.colors == []
    ensures UpdatedProduct(p, EditForm(p, show)).colors == [""]
  {
    Text.SplitTrimJoin(p.colors);
  }

  /** An update replaces exactly the products with the edited id: same length, every
      other product unchanged. */
  lemma ReplaceByIdSpec(products: seq<Product>, id: int, updated: Product)
    ensures |ReplaceById(products, id, updated)| == |products|
    ensures forall i :: 0 <= i < |products| && products[i].id != id ==>
              ReplaceById(products, id, updated)[i] == products[i]
    ensures forall i :: 0 <= i < |products| && products[i].id == id ==>
              ReplaceById(products, id, updated)[i] == updated
  {
  }

  /** A delete removes every product with that id and keeps the rest in order. */
  lemma DeleteByIdSpec(products: seq<Product>, id: int)
    ensures forall p :: p in DeleteById(products, id) <==> p in products && p.id != id
    ensures Seqs.Subsequence(DeleteById(products, id), products)
  {
    Seqs.FilterMembers(products, (p: Product) => p.id != id);
    Seqs.FilterSubsequence(products, (p: Product) => p.id != id);
  }

  /** After an add, the visible table is the old one plus the new product when the
      search term and category admit it. */
  lemma AddedProductListing(m: Manager, now: int)
    ensures var m' := AddProduct(m, now);
      var p := NewProduct(m.form, now);
      Listing(m'.products, m'.searchTerm, m'.selectedCategory)
        == Listing(m.products, m.searchTerm, m.selectedCategory)
           + (if Listed(p, m.searchTerm, m.selectedCategory) then [p] else [])
  {
    var p := NewProduct(m.form, now);
    Seqs.FilterAppend(m.products, [p], (q: Product) => Listed(q, m.searchTerm, m.selectedCategory));
  }

  /** Editing a product and saving the unchanged form puts the product back in place
      with only its status recomputed, closes the edit and clears the form. */
  lemma EditThenSave(m: Manager, p: Product, show: real -> string)
    requires ShownBack(show, p.price)
    requires p.originalPrice.OriginalPrice? ==> ShownBack(show, p.originalPrice.parsed)
    requires p.colors != [] && forall i :: 0 <= i < |p.colors| ==> ',' !in p.colors[i] && Text.Trimmed(p.colors[i])
    requires p.sizes != [] && forall i :: 0 <= i < |p.sizes| ==> ',' !in p.sizes[i] && Text.Trimmed(p.sizes[i])
    ensures var m' := UpdateProduct(EditProduct(m, p, show));
      && m'.products == ReplaceById(m.products, p.id, p.(status := StockStatus(p.stock)))
      && m'.editingProduct == None && m'.form == EmptyForm
      && m'.searchTerm == m.searchTerm && m'.selectedCategory == m.selectedCategory
  {
    EditSaveRoundTrip(p, show);
  }
}
