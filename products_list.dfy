/** The catalogue page of src/pages/ProductsListPage.jsx: the filter chain
    that derives `filteredProducts`, the tag and category handlers, the
    reset, and the guard on the URL's initial `tags`/`category`. */
module ProductsList {

  import opened Wrappers
  import opened Text
  import opened Seqs
  import opened Catalog

  /** `searchTerm`, `selectedTags`, `selectedCategory` (`None` is `null`). */
  datatype Filters = Filters(searchTerm: string, selectedTags: seq<string>, selectedCategory: Option<string>)

  /** The page's initial filters: all off. */
  const NoFilters: Filters := Filters("", [], None)

  /** `product.name.toLowerCase().includes(term.toLowerCase()) ||
      (product.description && …)`; the term is not trimmed. */
  predicate MatchesSearch(p: Product, term: string)
  {
    Includes(ToLower(p.name), ToLower(term)) ||
    (p.description != "" && Includes(ToLower(p.description), ToLower(term)))
  }

  /** `selectedTags.every(tag => product.tags.includes(tag))`. */
  predicate HasAllTags(p: Product, tags: seq<string>)
  {
    forall k :: 0 <= k < |tags| ==> tags[k] in p.tags
  }

  /** `if (selectedCategory)`: a category is selected and is not empty. */
  predicate CategoryActive(f: Filters)
  {
    f.selectedCategory.Some? && f.selectedCategory.value != ""
  }

  /** The filter effect: search, then tags, then category, each stage
      applied only when its filter is on. */
  function FilterProducts(allProducts: seq<Product>, f: Filters): (r: seq<Product>)
    ensures |r| <= |allProducts|
  {
    var afterSearch := FilterIf(allProducts, !IsBlank(f.searchTerm), (p: Product) => MatchesSearch(p, f.searchTerm));
    var afterTags := FilterIf(afterSearch, |f.selectedTags| > 0, (p: Product) => HasAllTags(p, f.selectedTags));
    FilterIf(afterTags, CategoryActive(f), (p: Product) => f.selectedCategory == Some(p.category))
  }

  /** A product passes every active filter. */
  predicate Passes(p: Product, f: Filters)
  {
    && (IsBlank(f.searchTerm) || MatchesSearch(p, f.searchTerm))
    && HasAllTags(p, f.selectedTags)
    && (CategoryActive(f) ==> f.selectedCategory == Some(p.category))
  }

  /** The chain is one filter by `Passes`: it keeps exactly the products
      that pass every active filter, in their catalogue order. */
  lemma FilterProductsExact(allProducts: seq<Product>, f: Filters)
    ensures FilterProducts(allProducts, f) == Filter(allProducts, (p: Product) => Passes(p, f))
  {
    var search := (p: Product) => MatchesSearch(p, f.searchTerm);
    var tags := (p: Product) => HasAllTags(p, f.selectedTags);
    var category := (p: Product) => f.selectedCategory == Some(p.category);
    var a, b, c := !IsBlank(f.searchTerm), |f.selectedTags| > 0, CategoryActive(f);
    FilterIfChain(allProducts, a, search, b, tags, c, category);
    var both := Both(Both(OffOr(a, search), OffOr(b, tags)), OffOr(c, category));
    forall x: Product ensures both(x) == Passes(x, f) {
      var s1, t1, c1 := OffOr(a, search)(x), OffOr(b, tags)(x), OffOr(c, category)(x);
      assert s1 == (IsBlank(f.searchTerm) || MatchesSearch(x, f.searchTerm));
      assert t1 == HasAllTags(x, f.selectedTags);
      assert c1 == (CategoryActive(f) ==> f.selectedCategory == Some(x.category));
      assert both(x) == (s1 && t1 && c1);
    }
    FilterExtensional(allProducts,
      Both(Both(OffOr(a, search), OffOr(b, tags)), OffOr(c, category)),
      (p: Product) => Passes(p, f));
  }

  /** What the page shows: an order-preserving sub-list of the catalogue
      holding exactly the catalogue's products that pass every active
      filter. */
  lemma FilterProductsProperties(allProducts: seq<Product>, f: Filters)
    ensures var r := FilterProducts(allProducts, f);
      && SubSeq(r, allProducts)
      && (forall p :: p in r <==> p in allProducts && Passes(p, f))
  {
    FilterProductsExact(allProducts, f);
    FilterIsSubSeq(allProducts, (p: Product) => Passes(p, f));
    FilterMembers(allProducts, (p: Product) => Passes(p, f));
  }

  /** Every product shown carries every selected tag and, with a category
      selected, has that category. */
  lemma TagAndCategoryProperty(allProducts: seq<Product>, f: Filters, p: Product)
    requires p in FilterProducts(allProducts, f)
    ensures forall t :: t in f.selectedTags ==> t in p.tags
    ensures CategoryActive(f) ==> p.category == f.selectedCategory.value
  {
    ShownPasses(allProducts, f, p);
    HasAllTagsMembers(p, f.selectedTags);
  }

  lemma ShownPasses(allProducts: seq<Product>, f: Filters, p: Product)
    requires p in FilterProducts(allProducts, f)
    ensures Passes(p, f)
  {
    FilterProductsProperties(allProducts, f);
  }

  lemma HasAllTagsMembers(p: Product, tags: seq<string>)
    requires HasAllTags(p, tags)
    ensures forall t :: t in tags ==> t in p.tags
  {
    forall t | t in tags ensures t in p.tags {
      var k :| 0 <= k < |tags| && tags[k] == t;
    }
  }

  /** With a non-blank term, every product shown holds the lower-cased,
      untrimmed term in its lower-cased name or description. */
  lemma SearchProperty(allProducts: seq<Product>, f: Filters, p: Product)
    requires !IsBlank(f.searchTerm) && p in FilterProducts(allProducts, f)
    ensures OccursIn(ToLower(f.searchTerm), ToLower(p.name)) ||
            OccursIn(ToLower(f.searchTerm), ToLower(p.description))
  {
    ShownPasses(allProducts, f, p);
  }

  /** With every filter off the whole catalogue is shown. */
  lemma NoFiltersShowAll(allProducts: seq<Product>)
    ensures FilterProducts(allProducts, NoFilters) == allProducts
  {
    assert IsBlank("");
  }

  // ---------------------------------------------------------------------
  // Handlers
  // ---------------------------------------------------------------------

  /** `handleTagToggle(tag)`: drop every copy of the tag if it is selected,
      otherwise append it. */
  function ToggleTag(selected: seq<string>, tag: string): (r: seq<string>)
    ensures tag in r <==> tag !in selected
    ensures forall t :: t != tag ==> (t in r <==> t in selected)
    ensures tag in selected ==> SubSeq(r, selected)
    ensures tag !in selected ==> r == selected + [tag]
  {
    if tag in selected then
      FilterIsSubSeq(selected, (t: string) => t != tag);
      FilterMembers(selected, (t: string) => t != tag);
      Filter(selected, (t: string) => t != tag)
    else selected + [tag]
  }

  /** Selecting a tag and then deselecting it restores the selection. */
  lemma ToggleTagTwice(selected: seq<string>, tag: string)
    requires tag !in selected
    ensures ToggleTag(ToggleTag(selected, tag), tag) == selected
  {
    var keep := (t: string) => t != tag;
    FilterAppend(selected, [tag], keep);
    FilterAllPass(selected, keep);
    assert Filter([tag], keep) == [];
  }

  /** `handleCategorySelect(category)`: the current category is deselected,
      any other becomes the selection. */
  function SelectCategory(previous: Option<string>, category: string): (r: Option<string>)
    ensures r.None? <==> previous == Some(category)
    ensures r.Some? ==> r.value == category
  {
    if previous == Some(category) then None else Some(category)
  }

  /** `clearFilters()`: every filter off, so the whole catalogue shows. */
  function ClearFilters(f: Filters): (r: Filters)
    ensures forall all: seq<Product> :: FilterProducts(all, r) == all
  {
    forall all: seq<Product> ensures FilterProducts(all, NoFilters) == all {
      NoFiltersShowAll(all);
    }
    NoFilters
  }

  /** The initial filters from the URL's `tags` and `category` parameters:
      each is applied only when it is present, non-empty and among the
      loaded tags or categories; otherwise the previous selection stays. */
  function ApplyUrlParams(f: Filters, tagsData: seq<string>, categoriesData: seq<string>,
                          urlTag: Option<string>, urlCategory: Option<string>): (r: Filters)
    ensures r.searchTerm == f.searchTerm
    ensures r.selectedTags == f.selectedTags ||
            (urlTag.Some? && urlTag.value in tagsData && r.selectedTags == [urlTag.value])
    ensures r.selectedCategory == f.selectedCategory ||
            (urlCategory.Some? && urlCategory.value in categoriesData && r.selectedCategory == urlCategory)
    ensures urlTag.Some? && urlTag.value != "" && urlTag.value in tagsData ==> r.selectedTags == [urlTag.value]
    ensures urlCategory.Some? && urlCategory.value != "" && urlCategory.value in categoriesData ==>
              r.selectedCategory == urlCategory
  {
    var tags :=
      if urlTag.Some? && urlTag.value != "" && urlTag.value in tagsData then [urlTag.value]
      else f.selectedTags;
    var category :=
      if urlCategory.Some? && urlCategory.value != "" && urlCategory.value in categoriesData then urlCategory
      else f.selectedCategory;
    f.(selectedTags := tags, selectedCategory := category)
  }
}
