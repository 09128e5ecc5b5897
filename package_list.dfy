/**
 * The admin package list: the search filter, the page shown, the window of
 * page numbers, the page moves, the edit form's product ids, the add-product
 * picker and the price shown for a package.
 */
module PackageList {
  import opened Wrappers
  import opened Domain
  import opened Lists
  import Text
  import Billing
  import AdminPanel
  import opened Store

  /** The page sizes the dropdown offers. */
  predicate OfferedPageSize(k: int) {
    k == 5 || k == 10 || k == 25 || k == 50
  }

  /** The add-product picker shows twelve products a page. */
  const PICKER_PAGE_SIZE := 12

  // ---------------------------------------------------------------------------
  // Search

  /** The lower-cased name or description contains the lower-cased term. */
  predicate SearchMatches(pkg: Package, term: string) {
    Text.Contains(Text.Lower(pkg.name), Text.Lower(term)) || Text.Contains(Text.Lower(pkg.description), Text.Lower(term))
  }

  /** `packages.filter(...)` by the search term. */
  function FilterPackages(packages: seq<Package>, term: string): (r: seq<Package>)
    ensures |r| <= |packages|
    ensures forall p :: p in r <==> p in packages && SearchMatches(p, term)
  {
    if packages == [] then []
    else if SearchMatches(packages[0], term) then [packages[0]] + FilterPackages(packages[1..], term)
    else FilterPackages(packages[1..], term)
  }

  /** The filter keeps the packages' order: it distributes over concatenation. */
  lemma {:induction false} FilterPackagesAppend(a: seq<Package>, b: seq<Package>, term: string)
    ensures FilterPackages(a + b, term) == FilterPackages(a, term) + FilterPackages(b, term)
  {
    if a == [] {
      assert a + b == b;
    } else {
      assert (a + b)[0] == a[0] && (a + b)[1..] == a[1..] + b;
      FilterPackagesAppend(a[1..], b, term);
    }
  }

  /** Filtering twice by the same term is filtering once. */
  lemma {:induction false} FilterPackagesIdempotent(packages: seq<Package>, term: string)
    ensures FilterPackages(FilterPackages(packages, term), term) == FilterPackages(packages, term)
  {
    if packages != [] {
      FilterPackagesIdempotent(packages[1..], term);
    }
  }

  /** The empty term keeps every package. */
  lemma {:induction false} EmptyTermKeepsAll(packages: seq<Package>)
    ensures FilterPackages(packages, "") == packages
  {
    if packages != [] {
      Text.ContainsEmpty(Text.Lower(packages[0].name));
      EmptyTermKeepsAll(packages[1..]);
    }
  }

  // ---------------------------------------------------------------------------
  // Pagination

  /** How `Array.prototype.slice` reads an index: negative from the end, clipped to the length. */
  function SliceIndex(i: int, len: nat): (r: nat)
    ensures r <= len
    ensures 0 <= i <= len ==> r == i
    ensures i > len ==> r == len
  {
    if i < 0 then (if len + i < 0 then 0 else len + i)
    else if i > len then len
    else i
  }

  /** `s.slice(start, end)`. */
  function JsSlice<T>(s: seq<T>, start: int, end: int): (r: seq<T>)
    ensures |r| <= |s|
    ensures forall x :: x in r ==> x in s
    ensures 0 <= start <= end ==> |r| <= end - start
  {
    var lo, hi := SliceIndex(start, |s|), SliceIndex(end, |s|);
    if lo < hi then s[lo..hi] else []
  }

  /** `Math.ceil(n / k)`. */
  function TotalPages(n: nat, k: nat): (t: nat)
    requires k > 0
    ensures t == 0 <==> n == 0
    ensures n > 0 ==> (t - 1) * k < n <= t * k
  {
    Billing.CeilDiv(n, k)
  }

  /** The items of page `page`, counted from 1: `slice(page * k - k, page * k)`. */
  function Page<T>(s: seq<T>, page: int, k: nat): (r: seq<T>)
    requires k > 0
    ensures forall x :: x in r ==> x in s
    ensures page >= 1 ==> |r| <= k
    ensures page >= 1 ==>
      var lo, hi := (page - 1) * k, page * k;
      r == s[if lo < |s| then lo else |s|..if hi < |s| then hi else |s|]
  {
    assert page * k - k == (page - 1) * k;
    JsSlice(s, page * k - k, page * k)
  }

  /** Item (page - 1) * k + i of the list is item i of page `page`. */
  lemma ItemOnItsPage<T>(s: seq<T>, k: nat, q: nat, i: nat)
    requires k > 0 && i < k && q * k + i < |s|
    ensures i < |Page(s, q + 1, k)| && Page(s, q + 1, k)[i] == s[q * k + i]
    ensures q + 1 <= TotalPages(|s|, k)
  {
    PageStart(s, q, k);
    SliceItem(s, q * k, q * k + k, q * k + i);
    QuotientBelowPages(|s|, k, q, i);
  }

  lemma PageStart<T>(s: seq<T>, q: nat, k: nat)
    requires k > 0
    ensures Page(s, q + 1, k) == JsSlice(s, q * k, q * k + k)
  {
    assert (q + 1) * k == q * k + k;
  }

  lemma SliceItem<T>(s: seq<T>, lo: nat, hi: nat, j: nat)
    requires lo <= j < hi && j < |s|
    ensures j - lo < |JsSlice(s, lo, hi)| && JsSlice(s, lo, hi)[j - lo] == s[j]
  {
  }

  lemma QuotientBelowPages(n: nat, k: nat, q: nat, i: nat)
    requires k > 0 && q * k + i < n
    ensures q + 1 <= TotalPages(n, k)
  {
    var t := TotalPages(n, k);
    if q + 1 > t {
      Billing.MulMono(t, q, k);
    }
  }

  /** Every page from 1 to the last holds between 1 and k items; later pages are empty. */
  lemma PageSizes<T>(s: seq<T>, k: nat, page: int)
    requires k > 0
    ensures 1 <= page <= TotalPages(|s|, k) ==> 1 <= |Page(s, page, k)| <= k
    ensures page > TotalPages(|s|, k) ==> Page(s, page, k) == []
  {
    var t := TotalPages(|s|, k);
    assert page * k - k == (page - 1) * k;
    if 1 <= page <= t {
      Billing.MulMono(page - 1, t - 1, k);
    } else if page > t {
      Billing.MulMono(t, page - 1, k);
    }
  }

  /** The page number shown at position i of the window. */
  function PageNumber(current: int, total: int, i: int): (n: int)
    ensures total > 5 && 1 <= current <= total && 0 <= i < 5 ==> 1 <= n <= total
    ensures total > 5 && 3 <= current <= total - 2 && i == 2 ==> n == current
  {
    if total <= 5 then i + 1
    else if current <= 3 then i + 1
    else if current >= total - 2 then total - 4 + i
    else current - 2 + i
  }

  /** The page-number buttons: `Math.min(5, totalPages)` of them. */
  function PageWindow(current: int, total: nat): (w: seq<int>)
    ensures |w| == if total < 5 then total else 5
    ensures forall i :: 0 <= i < |w| ==> 1 <= w[i] <= total
    ensures forall i :: 0 < i < |w| ==> w[i] == w[i - 1] + 1
    ensures 1 <= current <= total ==> current in w
  {
    var n := if total < 5 then total else 5;
    var w := seq(n, i requires 0 <= i < n => PageNumber(current, total, i));
    assert 1 <= current <= total ==> w[if total <= 5 || current <= 3 then current - 1
                                       else if current >= total - 2 then current - total + 4
                                       else 2] == current;
    w
  }

  // ---------------------------------------------------------------------------
  // The edit form's products and the picker

  /** `handleAddProduct`: append the id unless it is already there. */
  function AddProduct(ids: seq<int>, id: int): (r: seq<int>)
    ensures id in r
    ensures id in ids ==> r == ids
    ensures id !in ids ==> r == ids + [id]
    ensures NoDup(ids) ==> NoDup(r)
  {
    if id in ids then ids else ids + [id]
  }

  /** Adding a new product then removing it gives back the list. */
  lemma AddThenRemove(ids: seq<int>, id: int)
    requires id !in ids
    ensures Remove(AddProduct(ids, id), id) == ids
  {
    RemoveAppend(ids, [id], id);
    RemoveAbsent(ids, id);
    assert Remove([id], id) == [];
  }

  /** Removing a product keeps the other products in their order. */
  lemma RemoveKeepsOthers(a: seq<int>, b: seq<int>, id: int)
    requires id !in a && id !in b
    ensures Remove(a + [id] + b, id) == a + b
  {
    var c := a + [id];
    assert a + [id] + b == c + b;
    RemoveAppend(c, b, id);
    assert Remove(c, id) == a by {
      AddThenRemove(a, id);
    }
    RemoveAbsent(b, id);
  }

  /** The ids of a list of products. */
  function ProductIds(products: seq<Product>): (r: seq<int>)
    ensures |r| == |products| && forall k :: 0 <= k < |products| ==> r[k] == products[k].id
  {
    seq(|products|, k requires 0 <= k < |products| => products[k].id)
  }

  /** `openEditModal`: the form loaded from a package, the method lower-cased or "daily". */
  function EditForm(pkg: Package): (f: AdminPanel.PackageForm)
    ensures f.productIds == ProductIds(pkg.products)
    ensures pkg.payment_method == "" ==> f.payment_method == "daily"
    ensures pkg.payment_method != "" ==> f.payment_method == Text.Lower(pkg.payment_method)
  {
    var m := Text.Lower(pkg.payment_method);
    AdminPanel.PackageForm(pkg.name, pkg.description, if m == "" then "daily" else m,
                           pkg.payment_amount, pkg.payment_months, ProductIds(pkg.products))
  }

  /** Opening a package for editing and saving it unchanged sends its method back as stored, upper-cased. */
  lemma EditSendsMethodBack(pkg: Package)
    requires pkg.payment_method != ""
    ensures AdminPanel.EditPayload(EditForm(pkg)).payment_method == SetTo(Text.Upper(pkg.payment_method))
    ensures AdminPanel.EditPayload(EditForm(pkg)).productIds == Some(ProductIds(pkg.products))
  {
    var s := pkg.payment_method;
    var l := Text.Lower(s);
    assert Text.Upper(l) == Text.Upper(s) by {
      forall i | 0 <= i < |s| ensures Text.Upper(l)[i] == Text.Upper(s)[i] {
        assert l[i] == Text.LowerChar(s[i]);
      }
    }
  }

  /** Products the picker offers: name matches the query and not already in the package. */
  function Available(products: seq<Product>, query: string, selected: seq<int>): (r: seq<Product>)
    ensures forall p :: p in r <==> p in products && Text.Contains(Text.Lower(p.name), Text.Lower(query)) && p.id !in selected
  {
    if products == [] then []
    else
      var p := products[0];
      if Text.Contains(Text.Lower(p.name), Text.Lower(query)) && p.id !in selected then [p] + Available(products[1..], query, selected)
      else Available(products[1..], query, selected)
  }

  /** `currentProducts`: one page of the picker. */
  function PickerProducts(products: seq<Product>, query: string, selected: seq<int>, page: int): (r: seq<Product>)
    ensures forall p :: p in r ==> p in products && p.id !in selected
    ensures |r| <= PICKER_PAGE_SIZE
  {
    Page(Available(products, query, selected), page, PICKER_PAGE_SIZE)
  }

  // ---------------------------------------------------------------------------
  // The price shown for a package

  /** `pkg.products.reduce((sum, p) => sum + (p.price || 0), 0)`. */
  function ProductsTotal(products: seq<Product>): (t: int)
    ensures products == [] ==> t == 0
    ensures (forall k :: 0 <= k < |products| ==> products[k].price >= 0) ==> t >= 0
  {
    if products == [] then 0 else products[0].price + ProductsTotal(products[1..])
  }

  lemma {:induction false} ProductsTotalAppend(a: seq<Product>, b: seq<Product>)
    ensures ProductsTotal(a + b) == ProductsTotal(a) + ProductsTotal(b)
  {
    if a == [] {
      assert a + b == b;
    } else {
      assert (a + b)[0] == a[0] && (a + b)[1..] == a[1..] + b;
      ProductsTotalAppend(a[1..], b);
    }
  }

  /**
   * The list's price for a package is the price the admin form computes for
   * the same products: the form's catalogue sum over the package's ids.
   */
  lemma {:induction false} ListTotalMatchesForm(products: seq<Product>)
    requires AdminPanel.UniqueProductIds(products)
    ensures ProductsTotal(products) == AdminPanel.SelectedTotal(products, ProductIds(products))
  {
    if products != [] {
      var ps := products[1..];
      assert AdminPanel.UniqueProductIds(ps) by {
        forall i, j | 0 <= i < j < |ps| ensures ps[i].id != ps[j].id {
          assert ps[i] == products[i + 1] && ps[j] == products[j + 1];
        }
      }
      ListTotalMatchesForm(ps);
      assert ProductIds(products) == [products[0].id] + ProductIds(ps);
      assert forall k :: 0 <= k < |ps| ==> ps[k].id != products[0].id by {
        forall k | 0 <= k < |ps| ensures ps[k].id != products[0].id {
          assert ps[k] == products[k + 1];
        }
      }
      AdminPanel.SelectedTotalIgnoresUnknown(ps, products[0].id, ProductIds(ps));
    }
  }

  // ---------------------------------------------------------------------------
  // The component's state

  class View {
    const packages: seq<Package>
    var searchTerm: string
    var itemsPerPage: int
    var currentPage: int
    var formData: AdminPanel.PackageForm

    ghost predicate Valid()
      reads this
    {
      itemsPerPage > 0 && currentPage >= 1
    }

    function Filtered(): seq<Package>
      reads this
    {
      FilterPackages(packages, searchTerm)
    }

    function Total(): nat
      reads this
      requires Valid()
    {
      TotalPages(|Filtered()|, itemsPerPage)
    }

    /** `currentPackages`. */
    function CurrentPackages(): (r: seq<Package>)
      reads this
      requires Valid()
      ensures |r| <= itemsPerPage
      ensures forall p :: p in r ==> p in packages && SearchMatches(p, searchTerm)
    {
      Page(Filtered(), currentPage, itemsPerPage)
    }

    constructor (packages: seq<Package>)
      ensures this.packages == packages && searchTerm == "" && itemsPerPage == 10 && currentPage == 1
      ensures formData == AdminPanel.PackageForm("", "", "daily", 0, 0, [])
      ensures Valid()
    {
      this.packages := packages;
      searchTerm := "";
      itemsPerPage := 10;
      currentPage := 1;
      formData := AdminPanel.PackageForm("", "", "daily", 0, 0, []);
    }

    /** Typing a search term goes back to page 1. */
    method SetSearchTerm(term: string)
      requires Valid()
      modifies this`searchTerm, this`currentPage
      ensures searchTerm == term && currentPage == 1 && Valid()
    {
      searchTerm := term;
      currentPage := 1;
    }

    /** Choosing a page size goes back to page 1. */
    method SetItemsPerPage(k: int)
      requires Valid() && OfferedPageSize(k)
      modifies this`itemsPerPage, this`currentPage
      ensures itemsPerPage == k && currentPage == 1 && Valid()
    {
      itemsPerPage := k;
      currentPage := 1;
    }

    /** `nextPage`: forward only while a later page exists. */
    method NextPage()
      requires Valid()
      modifies this`currentPage
      ensures Valid()
      ensures currentPage == if old(currentPage) < Total() then old(currentPage) + 1 else old(currentPage)
      ensures old(currentPage) <= Total() ==> currentPage <= Total()
    {
      if currentPage < Total() {
        currentPage := currentPage + 1;
      }
    }

    /** `prevPage`: back only from page 2 on. */
    method PrevPage()
      requires Valid()
      modifies this`currentPage
      ensures Valid()
      ensures currentPage == if old(currentPage) > 1 then old(currentPage) - 1 else old(currentPage)
      ensures old(currentPage) <= Total() ==> currentPage <= Total()
    {
      if currentPage > 1 {
        currentPage := currentPage - 1;
      }
    }

    /** A page-number button: always a page that exists. */
    method GoToPage(page: int)
      requires Valid() && page in PageWindow(currentPage, Total())
      modifies this`currentPage
      ensures currentPage == page && Valid() && currentPage <= Total()
    {
      currentPage := page;
    }

    method OpenEditModal(pkg: Package)
      modifies this`formData
      ensures formData == EditForm(pkg)
    {
      formData := EditForm(pkg);
    }

    method HandleAddProduct(productId: int)
      modifies this`formData
      ensures formData == old(formData).(productIds := AddProduct(old(formData.productIds), productId))
    {
      if productId !in formData.productIds {
        formData := formData.(productIds := formData.productIds + [productId]);
      }
    }

    method HandleRemoveProduct(productId: int)
      modifies this`formData
      ensures formData == old(formData).(productIds := Remove(old(formData.productIds), productId))
    {
      formData := formData.(productIds := Remove(formData.productIds, productId));
    }
  }
}
