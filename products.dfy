/** The products list page (app/admin/products/page.tsx): where the list comes
    from, its sort, the deletion of one product, pagination (8 a page) and the
    "Clear Filters" button. */
module Products {
  import opened Wrappers
  import opened TextUtil
  import opened Seqs
  import opened Pagination
  import opened Sorting
  import opened Notices

  /** The fields of a product the page sorts, filters and deletes by. */
  datatype Product = Product(id: int, name: string, price: real, category: string, status: string)

  const ItemsPerPage: nat := 8

  /** Which server call `loadProducts` makes. */
  datatype Query = SearchFor(text: string) | FilterBy(category: string, status: string) | AllProducts

  /** A non-empty search wins over the two filters; the filters are used when
      either of them is not "all"; otherwise every product is fetched. */
  function ProductQuery(searchQuery: string, categoryFilter: string, statusFilter: string): (q: Query)
    ensures q.SearchFor? <==> searchQuery != ""
    ensures q.SearchFor? ==> q.text == searchQuery
    ensures q.FilterBy? <==> searchQuery == "" && (categoryFilter != "all" || statusFilter != "all")
    ensures q.FilterBy? ==> q.category == categoryFilter && q.status == statusFilter
    ensures q.AllProducts? <==> searchQuery == "" && categoryFilter == "all" && statusFilter == "all"
  {
    if searchQuery != "" then SearchFor(searchQuery)
    else if categoryFilter != "all" || statusFilter != "all" then FilterBy(categoryFilter, statusFilter)
    else AllProducts
  }

  /** The comparator's `comparison`: names and categories compare as strings,
      prices subtract, any other field gives 0. */
  function Comparison(a: Product, b: Product, field: string): real {
    match field
    case "name" => Compare(a.name, b.name) as real
    case "price" => a.price - b.price
    case "category" => Compare(a.category, b.category) as real
    case _ => 0.0
  }

  /** `a` may precede `b`: the directed comparison is not positive. */
  function Before(field: string, direction: Direction): (Product, Product) -> bool {
    (a: Product, b: Product) =>
      (if direction == Asc then Comparison(a, b, field) else -Comparison(a, b, field)) <= 0.0
  }

  lemma ComparisonAntisymmetric(a: Product, b: Product, field: string)
    ensures Comparison(a, b, field) == -Comparison(b, a, field)
  {
    CompareAntisymmetric(a.name, b.name);
    CompareAntisymmetric(a.category, b.category);
  }

  lemma ComparisonTransitive(a: Product, b: Product, c: Product, field: string)
    requires Comparison(a, b, field) <= 0.0 && Comparison(b, c, field) <= 0.0
    ensures Comparison(a, c, field) <= 0.0
  {
    match field
    case "name" => CompareTransitive(a.name, b.name, c.name);
    case "category" => CompareTransitive(a.category, b.category, c.category);
    case _ =>
  }

  /** Every field and direction orders all products consistently. */
  lemma BeforeIsPreorder(field: string, direction: Direction)
    ensures TotalPreorder(Before(field, direction))
  {
    var le := Before(field, direction);
    forall x, y
      ensures le(x, y) || le(y, x)
    {
      ComparisonAntisymmetric(x, y, field);
    }
    forall x, y, z | le(x, y) && le(y, z)
      ensures le(x, z)
    {
      ComparisonAntisymmetric(x, y, field);
      ComparisonAntisymmetric(y, z, field);
      ComparisonAntisymmetric(x, z, field);
      if direction == Asc {
        ComparisonTransitive(x, y, z, field);
      } else {
        ComparisonTransitive(z, y, x, field);
      }
    }
  }

  /** Sorting by price ascending puts cheaper products first. */
  lemma PriceAscending(s: seq<Product>, i: int, j: int)
    requires SortedBy(s, Before("price", Asc)) && 0 <= i < j < |s|
    ensures s[i].price <= s[j].price
  {
    assert Before("price", Asc)(s[i], s[j]);
  }

  function KeepsOtherThan(id: int): Product -> bool {
    (p: Product) => p.id != id
  }

  /** `products.filter((p) => p.id !== productToDelete)` */
  function WithoutProduct(products: seq<Product>, id: int): seq<Product> {
    Filter(products, KeepsOtherThan(id))
  }

  /** Deleting removes every product with that id and nothing else, keeping the
      order of the rest. */
  lemma WithoutProductSpec(products: seq<Product>, id: int)
    ensures IsSubsequence(WithoutProduct(products, id), products)
    ensures forall p :: p in WithoutProduct(products, id) <==> p in products && p.id != id
    ensures forall p :: multiset(WithoutProduct(products, id))[p] == if p.id != id then multiset(products)[p] else 0
    ensures (forall i :: 0 <= i < |products| ==> products[i].id != id) ==> WithoutProduct(products, id) == products
  {
    FilterIsSubsequence(products, KeepsOtherThan(id));
    FilterMembers(products, KeepsOtherThan(id));
    FilterMultiset(products, KeepsOtherThan(id));
    if forall i :: 0 <= i < |products| ==> products[i].id != id {
      FilterKeepsAll(products, KeepsOtherThan(id));
    }
  }

  /** What a delete request came to: the server's yes or no, or an exception. */
  datatype DeleteOutcome = Deleted | NotDeleted | DeleteThrew

  /** The state of the products page. */
  class ProductsView {
    var products: seq<Product>
    var totalProducts: nat
    var categoryFilter: string
    var statusFilter: string
    var searchQuery: string
    var sortField: Option<string>
    var sortDirection: Direction
    var currentPage: int
    var productToDelete: Option<int>
    var showDeleteModal: bool
    var selectedProductId: Option<int>
    var showProductDetails: bool
    var loading: bool

    ghost predicate Valid()
      reads this
    {
      currentPage >= 1
    }

    /** The page as first rendered: no products, no filters, sorted by name
        ascending, first page, loading. */
    constructor ()
      ensures Valid()
      ensures products == [] && totalProducts == 0
      ensures categoryFilter == "all" && statusFilter == "all" && searchQuery == ""
      ensures sortField == Some("name") && sortDirection == Asc
      ensures currentPage == 1 && productToDelete == None && !showDeleteModal
      ensures selectedProductId == None && !showProductDetails && loading
    {
      products := [];
      totalProducts := 0;
      categoryFilter := "all";
      statusFilter := "all";
      searchQuery := "";
      sortField := Some("name");
      sortDirection := Asc;
      currentPage := 1;
      productToDelete := None;
      showDeleteModal := false;
      selectedProductId := None;
      showProductDetails := false;
      loading := true;
    }

    /** `loadProducts`: ask the server through the query the filters select
        (`backend` answers it, `None` standing for an exception), sort the answer
        by the current field and direction when a sort field is set, and list it
        with its length as the product count; on an exception keep the list and
        return the error toast. */
    method LoadProducts(backend: Query -> Option<seq<Product>>) returns (toast: Option<Toast>)
      requires Valid()
      modifies this
      ensures Valid() && !loading
      ensures var answer := backend(ProductQuery(searchQuery, categoryFilter, statusFilter));
        && (answer.Some? ==>
              && multiset(products) == multiset(answer.value)
              && totalProducts == |answer.value|
              && (sortField.Some? && sortField.value != "" ==>
                    && SortedBy(products, Before(sortField.value, sortDirection))
                    && (SortedBy(answer.value, Before(sortField.value, sortDirection)) ==> products == answer.value))
              && (!(sortField.Some? && sortField.value != "") ==> products == answer.value)
              && toast == None)
        && (answer.None? ==>
              products == old(products) && totalProducts == old(totalProducts)
              && toast == Some(Toast("Failed to load products", true)))
      ensures categoryFilter == old(categoryFilter) && statusFilter == old(statusFilter)
      ensures searchQuery == old(searchQuery)
      ensures sortField == old(sortField) && sortDirection == old(sortDirection)
      ensures currentPage == old(currentPage) && productToDelete == old(productToDelete)
      ensures showDeleteModal == old(showDeleteModal)
      ensures selectedProductId == old(selectedProductId) && showProductDetails == old(showProductDetails)
    {
      toast := None;
      var answer := backend(ProductQuery(searchQuery, categoryFilter, statusFilter));
      match answer {
        case Some(list) =>
          var filtered := new Product[|list|](i requires 0 <= i < |list| => list[i]);
          assert filtered[..] == list;
          if sortField.Some? && sortField.value != "" {
            BeforeIsPreorder(sortField.value, sortDirection);
            SortInPlace(filtered, Before(sortField.value, sortDirection));
          }
          products := filtered[..];
          totalProducts := |list|;
        case None =>
          toast := Some(Toast("Failed to load products", true));
      }
      loading := false;
    }

    /** `handleSort`: the same field flips the direction, another field becomes the
        sort field in ascending order. */
    method HandleSort(field: string)
      requires Valid()
      modifies this`sortField, this`sortDirection
      ensures Valid()
      ensures sortField == Some(field)
      ensures old(sortField) == Some(field) ==> sortDirection != old(sortDirection)
      ensures old(sortField) != Some(field) ==> sortDirection == Asc
    {
      var toggled := ToggleSort(sortField, sortDirection, Some(field));
      sortField, sortDirection := toggled.0, toggled.1;
    }

    /** `handleDeleteClick`: remember the product and open the confirmation. */
    method HandleDeleteClick(id: int)
      requires Valid()
      modifies this`productToDelete, this`showDeleteModal
      ensures Valid() && productToDelete == Some(id) && showDeleteModal
    {
      productToDelete := Some(id);
      showDeleteModal := true;
    }

    /** `handleDeleteProduct`: with no product to delete (none, or the falsy id 0)
        nothing happens; otherwise a confirmed deletion drops that product from the
        list (and closes its details when it is the one shown), and whatever the
        outcome the confirmation closes and the pending id is cleared. The product
        count is left as it was. */
    method HandleDeleteProduct(outcome: DeleteOutcome) returns (toast: Option<Toast>)
      requires Valid()
      modifies this
      ensures Valid()
      ensures totalProducts == old(totalProducts) && currentPage == old(currentPage)
      ensures categoryFilter == old(categoryFilter) && statusFilter == old(statusFilter)
      ensures searchQuery == old(searchQuery)
      ensures sortField == old(sortField) && sortDirection == old(sortDirection)
      ensures selectedProductId == old(selectedProductId) && loading == old(loading)
      ensures (old(productToDelete) == None || old(productToDelete) == Some(0)) ==>
                products == old(products) && productToDelete == old(productToDelete)
                && showDeleteModal == old(showDeleteModal)
                && showProductDetails == old(showProductDetails) && toast == None
      ensures old(productToDelete).Some? && old(productToDelete).value != 0 ==>
                && productToDelete == None && !showDeleteModal
                && (outcome == Deleted ==>
                      products == WithoutProduct(old(products), old(productToDelete).value)
                      && toast == Some(Toast("Product deleted successfully", false))
                      && showProductDetails ==
                           (old(showProductDetails) && selectedProductId != old(productToDelete)))
                && (outcome == NotDeleted ==>
                      products == old(products) && showProductDetails == old(showProductDetails)
                      && toast == Some(Toast("Failed to delete product", true)))
                && (outcome == DeleteThrew ==>
                      products == old(products) && showProductDetails == old(showProductDetails)
                      && toast == Some(Toast("An error occurred while deleting the product", true)))
    {
      toast := None;
      if productToDelete == None || productToDelete == Some(0) {
        return;
      }
      var target := productToDelete.value;
      match outcome {
        case Deleted =>
          products := WithoutProduct(products, target);
          toast := Some(Toast("Product deleted successfully", false));
          if selectedProductId == Some(target) {
            showProductDetails := false;
          }
        case NotDeleted =>
          toast := Some(Toast("Failed to delete product", true));
        case DeleteThrew =>
          toast := Some(Toast("An error occurred while deleting the product", true));
      }
      showDeleteModal := false;
      productToDelete := None;
    }

    /** "Clear Filters": both filters back to "all", no search, sorted by name
        ascending; the list itself waits for the reload the change triggers. */
    method ClearFilters()
      requires Valid()
      modifies this`categoryFilter, this`statusFilter, this`searchQuery, this`sortField, this`sortDirection
      ensures Valid()
      ensures categoryFilter == "all" && statusFilter == "all" && searchQuery == ""
      ensures sortField == Some("name") && sortDirection == Asc
      ensures ProductQuery(searchQuery, categoryFilter, statusFilter) == AllProducts
    {
      categoryFilter := "all";
      statusFilter := "all";
      searchQuery := "";
      sortField := Some("name");
      sortDirection := Asc;
    }

    /** A page button or the previous / next arrows. */
    method GoToPage(page: int)
      requires Valid() && page >= 1
      modifies this`currentPage
      ensures Valid() && currentPage == page
    {
      currentPage := page;
    }

    /** `currentProducts`: the products on the current page. */
    function CurrentProducts(): (r: seq<Product>)
      reads this
      requires Valid()
      ensures |r| <= ItemsPerPage
      ensures |r| == Min(currentPage * ItemsPerPage, |products|) - Min((currentPage - 1) * ItemsPerPage, |products|)
      ensures |r| > 0 ==> (currentPage - 1) * ItemsPerPage + |r| <= |products|
      ensures forall k :: 0 <= k < |r| ==> r[k] == products[(currentPage - 1) * ItemsPerPage + k]
    {
      PageSlice(products, currentPage, ItemsPerPage)
    }

    /** `totalPages`, computed from the product count rather than the list. */
    function PageCount(): (n: nat)
      reads this
      ensures totalProducts <= n * ItemsPerPage
      ensures totalProducts > 0 ==> (n - 1) * ItemsPerPage < totalProducts
      ensures totalProducts == 0 ==> n == 0
    {
      TotalPages(totalProducts, ItemsPerPage)
    }
  }
}
