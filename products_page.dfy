/** The catalogue page: the category list, the search-and-category filter, and the page's
    dialog and drawer state. */
module ProductsPage {
  import opened Wrappers
  import opened Seqs
  import opened Text
  import opened Types
  import opened CartContext
  import ProductsData
  import ProductCard

  /** The position of the first occurrence of `x` in `s`. */
  function FirstIndex(s: seq<string>, x: string): (i: nat)
    requires x in s
    ensures i < |s| && s[i] == x
    ensures forall j :: 0 <= j < i ==> s[j] != x
  {
    if s[0] == x then 0 else 1 + FirstIndex(s[1..], x)
  }

  /** Appending leaves the first occurrence of an element already present where it was. */
  lemma {:induction false} FirstIndexOfAppend(s: seq<string>, c: string, x: string)
    requires x in s
    ensures FirstIndex(s + [c], x) == FirstIndex(s, x)
  {
    if s[0] != x {
      assert (s + [c])[1..] == s[1..] + [c];
      FirstIndexOfAppend(s[1..], c, x);
    }
  }

  /** `Array.from(new Set(s))`, built the way a `Set` is, by inserting the values left to
      right: a value already present is skipped, a new one goes at the end. */
  function Distinct(s: seq<string>): (r: seq<string>)
    ensures |r| <= |s|
  {
    if s == [] then []
    else
      var d := Distinct(s[..|s| - 1]);
      if s[|s| - 1] in d then d else d + [s[|s| - 1]]
  }

  /** `Distinct(s)` holds each value of `s` exactly once, and nothing else. */
  lemma {:induction false} DistinctContents(s: seq<string>)
    ensures forall i :: 0 <= i < |Distinct(s)| ==> Distinct(s)[i] in s
    ensures forall i :: 0 <= i < |s| ==> s[i] in Distinct(s)
    ensures forall i, j :: 0 <= i < j < |Distinct(s)| ==> Distinct(s)[i] != Distinct(s)[j]
  {
    if s != [] {
      var init, last := s[..|s| - 1], s[|s| - 1];
      DistinctContents(init);
      assert s == init + [last];
    }
  }

  /** The values of `Distinct(s)` come in the order in which they first appear in `s`. */
  lemma {:induction false} DistinctInFirstAppearanceOrder(s: seq<string>)
    ensures forall i, j :: 0 <= i < j < |Distinct(s)| ==>
              Distinct(s)[i] in s && Distinct(s)[j] in s &&
              FirstIndex(s, Distinct(s)[i]) < FirstIndex(s, Distinct(s)[j])
  {
    DistinctContents(s);
    if s != [] {
      var init, last := s[..|s| - 1], s[|s| - 1];
      assert s == init + [last];
      var d := Distinct(init);
      DistinctInFirstAppearanceOrder(init);
      DistinctContents(init);
      forall x | x in init
        ensures FirstIndex(s, x) == FirstIndex(init, x)
      {
        FirstIndexOfAppend(init, last, x);
      }
      if last !in d {
        forall i | 0 <= i < |d|
          ensures FirstIndex(s, d[i]) < FirstIndex(s, last)
        {
          assert FirstIndex(s, d[i]) == FirstIndex(init, d[i]);
        }
      }
    }
  }

  /** `p => p.category`, mapped over the catalogue. */
  function CategoriesOf(products: seq<Product>): (r: seq<string>)
    ensures |r| == |products|
    ensures forall i :: 0 <= i < |products| ==> r[i] == products[i].category
  {
    seq(|products|, i requires 0 <= i < |products| => products[i].category)
  }

  /** `categories`: "all", then every category of the catalogue once, in order of first
      appearance. */
  function Categories(products: seq<Product>): (r: seq<string>)
    ensures |r| >= 1 && r[0] == "all"
  {
    ["all"] + Distinct(CategoriesOf(products))
  }

  /** `Distinct` grows like a `Set`: a value already present changes nothing, a new one goes
      at the end. */
  lemma DistinctSnoc(s: seq<string>, c: string)
    ensures Distinct(s + [c]) == if c in Distinct(s) then Distinct(s) else Distinct(s) + [c]
  {
    assert (s + [c])[..|s + [c]| - 1] == s;
  }

  /** Every product's category is offered, and nothing else besides "all". */
  lemma CategoriesContents(products: seq<Product>)
    ensures forall i :: 0 <= i < |products| ==> products[i].category in Categories(products)
    ensures forall i :: 1 <= i < |Categories(products)| ==>
              exists k :: 0 <= k < |products| && products[k].category == Categories(products)[i]
  {
    var cats := CategoriesOf(products);
    var r := Categories(products);
    DistinctContents(cats);
    forall i | 1 <= i < |r|
      ensures exists k :: 0 <= k < |products| && products[k].category == r[i]
    {
      assert r[i] == Distinct(cats)[i - 1];
      var k :| 0 <= k < |cats| && cats[k] == r[i];
      assert products[k].category == r[i];
    }
    forall i | 0 <= i < |products|
      ensures products[i].category in r
    {
      assert cats[i] in Distinct(cats);
    }
  }

  /** The category list repeats an entry exactly when some product's category is itself
      "all". */
  lemma CategoriesRepeatIff(products: seq<Product>)
    ensures (forall i, j :: 0 <= i < j < |Categories(products)| ==>
               Categories(products)[i] != Categories(products)[j])
            <==> (forall k :: 0 <= k < |products| ==> products[k].category != "all")
  {
    var cats := CategoriesOf(products);
    var d := Distinct(cats);
    var r := Categories(products);
    DistinctContents(cats);
    if k :| 0 <= k < |products| && products[k].category == "all" {
      assert cats[k] == "all";
      var j :| 0 <= j < |d| && d[j] == "all";
      assert r[0] == r[j + 1];
    } else {
      forall i, j | 0 <= i < j < |r|
        ensures r[i] != r[j]
      {
        if i == 0 {
          assert r[j] == d[j - 1];
          var k :| 0 <= k < |cats| && cats[k] == r[j];
          assert products[k].category == r[j];
        } else {
          assert r[i] == d[i - 1] && r[j] == d[j - 1];
        }
      }
    }
  }

  const AccessoriesCategory: string := "لوازم جانبی"
  const SmartWatchCategory: string := "ساعت هوشمند"
  const MonitorCategory: string := "مانیتور"

  /** The categories of the shipped catalogue, product by product. */
  lemma MockCategoriesOf()
    ensures CategoriesOf(ProductsData.MockProducts) ==
            [AccessoriesCategory, SmartWatchCategory, AccessoriesCategory, AccessoriesCategory,
             AccessoriesCategory, AccessoriesCategory, AccessoriesCategory, MonitorCategory]
  {
  }

  /** How `Distinct` treats the shape of the shipped catalogue's categories. */
  lemma DistinctOfPattern(a: string, w: string, m: string)
    requires a != w && a != m && w != m
    ensures Distinct([a, w, a, a, a, a, a, m]) == [a, w, m]
  {
    var s := [a, w, a, a, a, a, a, m];
    assert s[..1] == [a] && s[..1][..0] == [];
    assert Distinct(s[..1]) == [a];
    assert s[..2][..1] == s[..1];
    assert Distinct(s[..2]) == [a, w];
    assert s[..3][..2] == s[..2];
    assert Distinct(s[..3]) == [a, w];
    assert s[..4][..3] == s[..3];
    assert Distinct(s[..4]) == [a, w];
    assert s[..5][..4] == s[..4];
    assert Distinct(s[..5]) == [a, w];
    assert s[..6][..5] == s[..5];
    assert Distinct(s[..6]) == [a, w];
    assert s[..7][..6] == s[..6];
    assert Distinct(s[..7]) == [a, w];
    assert s[..7] == s[..|s| - 1];
  }

  /** For the shipped catalogue the drawer offers "all" and three categories. */
  lemma MockCategories()
    ensures Categories(ProductsData.MockProducts) ==
            ["all", AccessoriesCategory, SmartWatchCategory, MonitorCategory]
  {
    MockCategoriesOf();
    assert AccessoriesCategory[0] != SmartWatchCategory[0];
    assert AccessoriesCategory[0] != MonitorCategory[0];
    assert SmartWatchCategory[0] != MonitorCategory[0];
    DistinctOfPattern(AccessoriesCategory, SmartWatchCategory, MonitorCategory);
  }

  /** The filter's test for one product. `lower` stands for `toLowerCase`. */
  predicate Matches(product: Product, searchTerm: string, category: string, lower: string -> string) {
    (Contains(lower(product.name), lower(searchTerm)) ||
     Contains(lower(product.description), lower(searchTerm))) &&
    (category == "all" || product.category == category)
  }

  function MatchesAll(searchTerm: string, category: string, lower: string -> string): Product -> bool {
    (p: Product) => Matches(p, searchTerm, category, lower)
  }

  /** `filteredProducts`: the products that match, in catalogue order. */
  function FilteredProducts(products: seq<Product>, searchTerm: string, category: string,
                            lower: string -> string): (r: seq<Product>)
    ensures |r| <= |products|
    ensures IsSubsequence(r, products)
  {
    Filter(MatchesAll(searchTerm, category, lower), products)
  }

  /** A product is listed exactly when its lowercased name or description contains the
      lowercased search term and the category is "all" or its own. */
  lemma FilteredKeepsIff(products: seq<Product>, searchTerm: string, category: string,
                         lower: string -> string)
    ensures forall i :: 0 <= i < |products| ==>
              (products[i] in FilteredProducts(products, searchTerm, category, lower) <==>
               Matches(products[i], searchTerm, category, lower))
  {
    FilterMembership(MatchesAll(searchTerm, category, lower), products);
  }

  /** With an empty search and "all" selected, the whole catalogue is listed, since the empty
      string occurs in every string (given that lowercasing the empty string gives it back). */
  lemma EmptySearchListsAll(products: seq<Product>, lower: string -> string)
    requires lower("") == ""
    ensures FilteredProducts(products, "", "all", lower) == products
  {
    assert forall i :: 0 <= i < |products| ==> MatchesAll("", "all", lower)(products[i]);
  }

  /** Narrowing to one category lists only products of that category. */
  lemma FilteredByCategory(products: seq<Product>, searchTerm: string, category: string,
                           lower: string -> string)
    requires category != "all"
    ensures forall p :: p in FilteredProducts(products, searchTerm, category, lower) ==>
              p.category == category
  {
    FilterMembership(MatchesAll(searchTerm, category, lower), products);
  }

  /** The page's search, filter and dialog state. */
  class ProductsPageState {
    var searchTerm: string
    var selectedCategory: string
    var isFilterDrawerOpen: bool
    var isModalOpen: bool
    var isRemoveModalOpen: bool
    var productToRemove: Option<Product>

    constructor ()
      ensures searchTerm == "" && selectedCategory == "all"
      ensures !isFilterDrawerOpen && !isModalOpen && !isRemoveModalOpen && productToRemove == None
    {
      searchTerm := "";
      selectedCategory := "all";
      isFilterDrawerOpen := false;
      isModalOpen := false;
      isRemoveModalOpen := false;
      productToRemove := None;
    }

    /** The products the page lists for its current search and category. */
    function Listed(lower: string -> string): (r: seq<Product>)
      reads this
      ensures IsSubsequence(r, ProductsData.MockProducts)
    {
      FilteredProducts(ProductsData.MockProducts, searchTerm, selectedCategory, lower)
    }

    /** Typing in the search box; its clear button sets the empty term. */
    method SetSearchTerm(term: string)
      modifies this
      ensures searchTerm == term && selectedCategory == old(selectedCategory)
      ensures isFilterDrawerOpen == old(isFilterDrawerOpen) && isModalOpen == old(isModalOpen)
      ensures isRemoveModalOpen == old(isRemoveModalOpen) && productToRemove == old(productToRemove)
    {
      searchTerm := term;
    }

    /** The filter button opens the category drawer. */
    method OpenFilterDrawer()
      modifies this
      ensures isFilterDrawerOpen
      ensures searchTerm == old(searchTerm) && selectedCategory == old(selectedCategory)
      ensures isModalOpen == old(isModalOpen)
      ensures isRemoveModalOpen == old(isRemoveModalOpen) && productToRemove == old(productToRemove)
    {
      isFilterDrawerOpen := true;
    }

    /** Dismissing the drawer closes it. */
    method CloseFilterDrawer()
      modifies this
      ensures !isFilterDrawerOpen
      ensures searchTerm == old(searchTerm) && selectedCategory == old(selectedCategory)
      ensures isModalOpen == old(isModalOpen)
      ensures isRemoveModalOpen == old(isRemoveModalOpen) && productToRemove == old(productToRemove)
    {
      isFilterDrawerOpen := false;
    }

    /** `handleCategorySelect`: choose the category and close the drawer. */
    method HandleCategorySelect(category: string)
      modifies this
      ensures selectedCategory == category && !isFilterDrawerOpen
      ensures searchTerm == old(searchTerm) && isModalOpen == old(isModalOpen)
      ensures isRemoveModalOpen == old(isRemoveModalOpen) && productToRemove == old(productToRemove)
    {
      selectedCategory := category;
      isFilterDrawerOpen := false;
    }

    /** The close button on the category chip goes back to "all". */
    method ClearCategory()
      modifies this
      ensures selectedCategory == "all"
      ensures searchTerm == old(searchTerm) && isFilterDrawerOpen == old(isFilterDrawerOpen)
      ensures isModalOpen == old(isModalOpen)
      ensures isRemoveModalOpen == old(isRemoveModalOpen) && productToRemove == old(productToRemove)
    {
      selectedCategory := "all";
    }

    /** `handleAddToCart`: the callback each card receives adds its product and opens the
        "added" dialog. */
    method HandleAddToCart(cart: Cart, product: Product)
      modifies this, cart
      ensures cart.items == Added(old(cart.items), product)
      ensures isModalOpen
      ensures searchTerm == old(searchTerm) && selectedCategory == old(selectedCategory)
      ensures isFilterDrawerOpen == old(isFilterDrawerOpen)
      ensures isRemoveModalOpen == old(isRemoveModalOpen) && productToRemove == old(productToRemove)
    {
      cart.AddToCart(product);
      isModalOpen := true;
    }

    /** A click on the add button of a card in the grid: the card forwards its product to
        `handleAddToCart`, so that product is added and the "added" dialog opens. A disabled
        button takes no clicks. */
    method ClickCardAdd(cart: Cart, product: Product)
      requires !ProductCard.AddDisabled(product)
      modifies this, cart
      ensures cart.items == Added(old(cart.items), product)
      ensures isModalOpen
      ensures searchTerm == old(searchTerm) && selectedCategory == old(selectedCategory)
      ensures isFilterDrawerOpen == old(isFilterDrawerOpen)
      ensures isRemoveModalOpen == old(isRemoveModalOpen) && productToRemove == old(productToRemove)
    {
      match ProductCard.ForwardedAdd(product, true)
      case Some(p) => HandleAddToCart(cart, p);
      case None => assert false;
    }

    /** Either button of the "added" dialog, or dismissing it, closes it. */
    method CloseAddedModal()
      modifies this
      ensures !isModalOpen
      ensures searchTerm == old(searchTerm) && selectedCategory == old(selectedCategory)
      ensures isFilterDrawerOpen == old(isFilterDrawerOpen)
      ensures isRemoveModalOpen == old(isRemoveModalOpen) && productToRemove == old(productToRemove)
    {
      isModalOpen := false;
    }

    /** `handleRequestRemove`: remember the product and open the remove dialog. */
    method HandleRequestRemove(product: Product)
      modifies this
      ensures productToRemove == Some(product) && isRemoveModalOpen
      ensures searchTerm == old(searchTerm) && selectedCategory == old(selectedCategory)
      ensures isFilterDrawerOpen == old(isFilterDrawerOpen) && isModalOpen == old(isModalOpen)
    {
      productToRemove := Some(product);
      isRemoveModalOpen := true;
    }

    /** `handleConfirmRemove`: remove the remembered product's id when one is set; always close
        the dialog and forget the product. */
    method HandleConfirmRemove(cart: Cart)
      modifies this, cart
      ensures cart.items == (if old(productToRemove).Some?
                             then Removed(old(cart.items), old(productToRemove).value.id)
                             else old(cart.items))
      ensures !isRemoveModalOpen && productToRemove == None
      ensures searchTerm == old(searchTerm) && selectedCategory == old(selectedCategory)
      ensures isFilterDrawerOpen == old(isFilterDrawerOpen) && isModalOpen == old(isModalOpen)
    {
      if productToRemove.Some? {
        cart.RemoveFromCart(productToRemove.value.id);
      }
      isRemoveModalOpen := false;
      productToRemove := None;
    }

    /** Cancelling or dismissing the remove dialog closes it and forgets the product. */
    method CancelRemove()
      modifies this
      ensures !isRemoveModalOpen && productToRemove == None
      ensures searchTerm == old(searchTerm) && selectedCategory == old(selectedCategory)
      ensures isFilterDrawerOpen == old(isFilterDrawerOpen) && isModalOpen == old(isModalOpen)
    {
      isRemoveModalOpen := false;
      productToRemove := None;
    }
  }
}
