/**
 * The records the screens receive from the API: products, packages (with
 * their products included) and users. Users are admins, resellers and
 * customers alike, told apart by `role`; the customers' payment fields are
 * part of the same record.
 */
module Domain {
  import opened Wrappers

  datatype Product = Product(id: int, name: string, description: string, price: int)

  datatype Package = Package(
    id: int,
    name: string,
    description: string,
    payment_method: string,
    payment_amount: int,
    payment_months: int,
    products: seq<Product>)

  /** A stored password: bcrypt's output is modelled as a tagged value, a password stored unhashed as Plain. */
  datatype Secret = Hashed(plain: string) | Plain(text: string)

  /** `bcrypt.compare(candidate, stored)`: only a hash of the same password matches. */
  predicate PasswordMatches(candidate: string, stored: Secret) {
    stored == Hashed(candidate)
  }

  datatype User = User(
    id: int,
    username: string,
    name: string,
    phone: string,
    role: string,
    password: Option<Secret>,
    package_id: Option<int>,
    reseller_id: Option<int>,
    payment_method: Option<string>,
    paid_amount: Option<int>,
    last_payment_date: Option<string>,
    package_start_date: Option<string>,
    paid_dates: seq<string>,
    payment_days: nat)

  /** `packages.find((p) => p.id === id)`: the first package with that id. */
  function FindPackage(packages: seq<Package>, id: Option<int>): (r: Option<Package>)
    ensures r.None? <==> forall i :: 0 <= i < |packages| ==> Some(packages[i].id) != id
    ensures r.Some? ==> r.value in packages && Some(r.value.id) == id
    ensures r.Some? ==> exists i :: 0 <= i < |packages| && packages[i] == r.value &&
                         forall j :: 0 <= j < i ==> Some(packages[j].id) != id
  {
    if packages == [] then None
    else if Some(packages[0].id) == id then Some(packages[0])
    else
      var r := FindPackage(packages[1..], id);
      assert forall i :: 1 <= i < |packages| ==> packages[i] == packages[1..][i - 1];
      r
  }

  /** `products.find((p) => p.id === id)`: the first product with that id. */
  function FindProduct(products: seq<Product>, id: int): (r: Option<Product>)
    ensures r.None? <==> forall i :: 0 <= i < |products| ==> products[i].id != id
    ensures r.Some? ==> r.value in products && r.value.id == id
    ensures forall i :: 0 <= i < |products| && products[i].id == id && (forall j :: 0 <= j < i ==> products[j].id != id) ==>
      r == Some(products[i])
  {
    if products == [] then None
    else if products[0].id == id then Some(products[0])
    else
      assert forall i :: 1 <= i < |products| ==> products[i] == products[1..][i - 1];
      FindProduct(products[1..], id)
  }

  /** Package ids are primary keys: no two packages in a list share one. */
  predicate UniquePackageIds(packages: seq<Package>) {
    forall i, j :: 0 <= i < j < |packages| ==> packages[i].id != packages[j].id
  }

  /** With unique ids, the package found for an id is the one carrying that id. */
  lemma FindPackageUnique(packages: seq<Package>, i: nat)
    requires UniquePackageIds(packages) && i < |packages|
    ensures FindPackage(packages, Some(packages[i].id)) == Some(packages[i])
  {
    var r := FindPackage(packages, Some(packages[i].id));
    var k :| 0 <= k < |packages| && packages[k] == r.value &&
             forall j :: 0 <= j < k ==> Some(packages[j].id) != Some(packages[i].id);
    assert k == i;
  }

  /** `pkg ? pkg.name : "No package"` for the package a customer refers to. */
  function PackageName(packages: seq<Package>, id: Option<int>): (r: string)
    ensures (forall i :: 0 <= i < |packages| ==> Some(packages[i].id) != id) ==> r == "No package"
    ensures UniquePackageIds(packages) ==>
              forall i :: 0 <= i < |packages| && Some(packages[i].id) == id ==> r == packages[i].name
  {
    match FindPackage(packages, id)
    case Some(p) =>
      assert UniquePackageIds(packages) ==>
               forall i :: 0 <= i < |packages| && Some(packages[i].id) == id ==> p == packages[i] by {
        if UniquePackageIds(packages) {
          forall i | 0 <= i < |packages| && Some(packages[i].id) == id {
            FindPackageUnique(packages, i);
          }
        }
      }
      p.name
    case None => "No package"
  }
}
